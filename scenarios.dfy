/**
 * Example requests to the creation route, each with the decoder outcome its body
 * produces, and what the server answers.
 */
module Scenarios {
  import opened Wrappers
  import opened Format
  import opened Json
  import opened Http
  import opened Handlers
  import opened Traces

  function Post(contentType: string, body: Body): Request {
    Request(MethodPost, CreatePath, contentType, body)
  }

  /** A content type with a parameter is not the exact value the gate asks for, whatever the body. */
  lemma CharsetParameterRejected(store: Store, body: Body)
    ensures Serve(Post("application/json; charset=utf-8", body), store)
      == Outcome(Written(StatusBadRequest, ContentTypeMsg + "\n"), store)
  {
  }

  /** `{"ShortKey":"/a",}`: a syntax error is answered with its offset. */
  lemma SyntaxErrorAtOffset(store: Store, offset: int, text: string, second: SecondDecode)
    ensures Serve(Post(JsonContentType, Body(Failed(SyntaxError(offset, text)), second)), store)
      == Outcome(Written(StatusBadRequest,
                         "Request body contains badly-formed JSON (at position " + IntToDecimal(offset) + ")\n"), store)
  {
  }

  /** `{"ShortKey":"/a"`: a body cut off mid-object is answered as badly-formed JSON without a position. */
  lemma TruncatedBodyRejected(store: Store, second: SecondDecode)
    ensures Serve(Post(JsonContentType, Body(Failed(UnexpectedEOFError()), second)), store)
      == Outcome(Written(StatusBadRequest, "Request body contains badly-formed JSON\n"), store)
  {
  }

  /** `{"ShortKey":"/a","Resource":"http://x","Extra":1}`: the unknown field is named. */
  lemma ExtraFieldNamed(store: Store)
    ensures Serve(Post(JsonContentType, Body(Failed(UnknownFieldError("Extra")), MoreContent)), store)
      == Outcome(Written(StatusBadRequest, "Request body contains unknown field \"Extra\"\n"), store)
  {
  }

  /** `{"ShortKey":1,"Resource":"http://x"}`: the mistyped field and its offset are named. */
  lemma WrongTypeNamed(store: Store, offset: int, text: string)
    ensures Serve(Post(JsonContentType, Body(Failed(TypeError("ShortKey", offset, text)), MoreContent)), store)
      == Outcome(Error(InvalidValueMsg("ShortKey", offset), StatusBadRequest), store)
    ensures InvalidValueMsg("ShortKey", offset)
      == "Request body contains an invalid value for the \"ShortKey\" field (at position " + IntToDecimal(offset) + ")"
  {
    var head := "Request body contains an invalid value for the " + Quote("ShortKey") + " field (at position ";
    assert head == "Request body contains an invalid value for the \"ShortKey\" field (at position ";
  }

  /** An empty body. */
  lemma EmptyBodyRejected(store: Store, second: SecondDecode)
    ensures Serve(Post(JsonContentType, Body(Failed(EOFError()), second)), store)
      == Outcome(Written(StatusBadRequest, EmptyBodyMsg + "\n"), store)
  {
  }

  /** Two concatenated objects: the first decodes, the second `Decode` does not report EOF; nothing is stored. */
  lemma TwoObjectsRejected(store: Store, first: Redirection)
    ensures Serve(Post(JsonContentType, Body(Decoded(first), MoreContent)), store)
      == Outcome(Written(StatusBadRequest, SingleObjectMsg + "\n"), store)
  {
  }

  /** A path never registered, asked for twice: "Not found" with status 200 both times. */
  lemma MissRepeated(store: Store, path: string, verb: string, body: Body)
    requires path != CreatePath && path !in store
    ensures var get := Request(verb, path, "", body);
      Run(store, [get, get]) == Trace(store, [Written(StatusOK, "Not found"), Written(StatusOK, "Not found")])
  {
    var get := Request(verb, path, "", body);
    LookupsOnly(store, [get, get]);
  }
}
