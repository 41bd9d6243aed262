/**
 * The decisions of the two routes as functions from a request and the current store
 * to the response and the next store: the `Content-Type` gate, the classification of
 * decode errors, the single-object check, the insert, the method guard on the creation
 * route and the lookup on every other path.
 */
module Handlers {
  import opened Wrappers
  import opened Format
  import opened Json
  import opened Http

  /** The redirection table: short key (a URL path) to resource URL. */
  type Store = map<string, string>

  /** A response together with the store as it is after the request. */
  datatype Outcome = Outcome(response: Response, store: Store)

  const CreatePath: string := "/api/new"
  const JsonContentType: string := "application/json"

  const ContentTypeMsg: string := "Content-Type must be set to application/json"
  const BadlyFormedMsg: string := "Request body contains badly-formed JSON"
  const EmptyBodyMsg: string := "Request body must not be empty"
  const SingleObjectMsg: string := "Request body must only contain a single JSON object"
  const NotAllowedMsg: string := "Not allowed"
  const NotFoundBody: string := "Not found"

  function SyntaxErrorMsg(offset: int): string {
    BadlyFormedMsg + " (at position " + IntToDecimal(offset) + ")"
  }

  function InvalidValueMsg(field: string, offset: int): string {
    "Request body contains an invalid value for the " + Quote(field) + " field (at position " + IntToDecimal(offset) + ")"
  }

  function UnknownFieldMsg(fieldName: string): string {
    "Request body contains unknown field " + fieldName
  }

  /** The gate in front of decoding: `None` lets the request through, `Some` is the rejection. */
  function CheckContentType(contentType: string): (r: Option<Response>)
    ensures r == None <==> contentType == JsonContentType
    ensures r != None ==> r.value == Error(ContentTypeMsg, StatusBadRequest)
  {
    if contentType != "" then
      if contentType != JsonContentType then Some(Error(ContentTypeMsg, StatusBadRequest)) else None
    else
      Some(Error(ContentTypeMsg, StatusBadRequest))
  }

  /** The decode errors the handler answers with a client error. */
  predicate Recognised(e: DecodeError) {
    || e.syntaxOffset.Some?
    || e.unexpectedEOF
    || e.typeMismatch.Some?
    || HasPrefix(e.text, UnknownFieldPrefix)
    || e.isEOF
  }

  /**
   * The response to a failed first decode: the first matching case of the handler's
   * `switch` decides.
   */
  function ClassifyDecodeError(e: DecodeError): (r: Response)
    ensures r.Written?
    ensures r.status == StatusBadRequest <==> Recognised(e)
    ensures r.status == StatusInternalServerError <==> !Recognised(e)
    ensures !Recognised(e) ==> r.body == InternalServerErrorText + "\n"
  {
    if e.syntaxOffset.Some? then
      Error(SyntaxErrorMsg(e.syntaxOffset.value), StatusBadRequest)
    else if e.unexpectedEOF then
      Error(BadlyFormedMsg, StatusBadRequest)
    else if e.typeMismatch.Some? then
      Error(InvalidValueMsg(e.typeMismatch.value.field, e.typeMismatch.value.offset), StatusBadRequest)
    else if HasPrefix(e.text, UnknownFieldPrefix) then
      Error(UnknownFieldMsg(TrimPrefix(e.text, UnknownFieldPrefix)), StatusBadRequest)
    else if e.isEOF then
      Error(EmptyBodyMsg, StatusBadRequest)
    else
      Error(InternalServerErrorText, StatusInternalServerError)
  }

  /**
   * The priority of the cases: once a case matches, whatever holds of the error for the
   * later cases makes no difference to the response.
   */
  lemma ClassificationPriority(e: DecodeError, e': DecodeError)
    ensures e.syntaxOffset.Some? && e'.syntaxOffset == e.syntaxOffset
      ==> ClassifyDecodeError(e) == ClassifyDecodeError(e')
    ensures e.syntaxOffset.None? && e'.syntaxOffset.None? && e.unexpectedEOF && e'.unexpectedEOF
      ==> ClassifyDecodeError(e) == ClassifyDecodeError(e') == Error(BadlyFormedMsg, StatusBadRequest)
    ensures e.syntaxOffset.None? && e'.syntaxOffset.None? && !e.unexpectedEOF && !e'.unexpectedEOF
      && e.typeMismatch.Some? && e'.typeMismatch == e.typeMismatch
      ==> ClassifyDecodeError(e) == ClassifyDecodeError(e')
    ensures e.syntaxOffset.None? && e'.syntaxOffset.None? && !e.unexpectedEOF && !e'.unexpectedEOF
      && e.typeMismatch.None? && e'.typeMismatch.None?
      && HasPrefix(e.text, UnknownFieldPrefix) && e'.text == e.text
      ==> ClassifyDecodeError(e) == ClassifyDecodeError(e')
    ensures e.syntaxOffset.None? && e'.syntaxOffset.None? && !e.unexpectedEOF && !e'.unexpectedEOF
      && e.typeMismatch.None? && e'.typeMismatch.None?
      && !HasPrefix(e.text, UnknownFieldPrefix) && !HasPrefix(e'.text, UnknownFieldPrefix)
      && e.isEOF && e'.isEOF
      ==> ClassifyDecodeError(e) == ClassifyDecodeError(e') == Error(EmptyBodyMsg, StatusBadRequest)
  {
  }

  /**
   * A syntax error's response carries its offset: two syntax errors answered alike
   * were at the same position.
   */
  lemma {:induction false} SyntaxErrorOffsetReported(e: DecodeError, e': DecodeError)
    requires e.syntaxOffset.Some? && e'.syntaxOffset.Some?
    requires ClassifyDecodeError(e) == ClassifyDecodeError(e')
    ensures e.syntaxOffset == e'.syntaxOffset
  {
    var head := BadlyFormedMsg + " (at position ";
    var d, d' := IntToDecimal(e.syntaxOffset.value), IntToDecimal(e'.syntaxOffset.value);
    var body := ClassifyDecodeError(e).body;
    assert body == head + d + ")\n" == head + d' + ")\n";
    assert body[|head|..|body| - 2] == d;
    assert body[|head|..|body| - 2] == d';
    IntToDecimalInjective(e.syntaxOffset.value, e'.syntaxOffset.value);
  }

  /**
   * A type mismatch that no earlier case catches is answered 400 with a message naming the
   * field and the offset, and the response identifies both: two such errors answered alike
   * have the same field and the same offset.
   */
  lemma {:induction false} TypeMismatchReported(e: DecodeError, e': DecodeError)
    requires e.syntaxOffset.None? && !e.unexpectedEOF && e.typeMismatch.Some?
    requires e'.syntaxOffset.None? && !e'.unexpectedEOF && e'.typeMismatch.Some?
    requires ClassifyDecodeError(e) == ClassifyDecodeError(e')
    ensures ClassifyDecodeError(e)
      == Error(InvalidValueMsg(e.typeMismatch.value.field, e.typeMismatch.value.offset), StatusBadRequest)
    ensures e.typeMismatch == e'.typeMismatch
  {
    var TypeMismatch(f, o) := e.typeMismatch.value;
    var TypeMismatch(f', o') := e'.typeMismatch.value;
    var lead := "Request body contains an invalid value for the ";
    var head := lead + Quote(f) + " field (at position ";
    var head' := lead + Quote(f') + " field (at position ";
    var d, d' := IntToDecimal(o), IntToDecimal(o');
    var body := ClassifyDecodeError(e).body;
    assert body == head + d + ")\n" == head' + d' + ")\n";
    assert body[..|body| - 2] == head + d == head' + d';
    SplitAfterLastSpace(head, d, head', d');
    IntToDecimalInjective(o, o');
    var q := head[|lead|..|head| - |" field (at position "|];
    assert q == Quote(f) && q == Quote(f');
    assert f == q[1..|q| - 1] == f';
  }

  /**
   * An unknown-field error is answered with the text that follows the decoder's
   * "json: unknown field " prefix, so the client is told the field's (quoted) name.
   */
  lemma UnknownFieldReported(e: DecodeError, fieldName: string)
    requires e.syntaxOffset.None? && !e.unexpectedEOF && e.typeMismatch.None?
    requires e.text == UnknownFieldPrefix + fieldName
    ensures ClassifyDecodeError(e) == Written(StatusBadRequest, "Request body contains unknown field " + fieldName + "\n")
  {
  }

  /** A creation request that passes every check and is stored. */
  predicate Accepted(contentType: string, body: Body) {
    contentType == JsonContentType && body.first.Decoded? && body.second == EndOfInput
  }

  /**
   * `createRedirection`: the checks in the order the handler makes them, each rejection
   * leaving the store as it was, and on success an insert that overwrites any earlier
   * entry for the key.
   */
  function CreateRedirection(contentType: string, body: Body, store: Store): (out: Outcome)
    ensures Accepted(contentType, body) <==> out.response == Written(StatusOK, "")
    ensures Accepted(contentType, body)
      ==> out.store == store[body.first.value.shortKey := body.first.value.resource]
    ensures !Accepted(contentType, body) ==> out.store == store
    ensures contentType != JsonContentType
      ==> out.response == Error(ContentTypeMsg, StatusBadRequest)
    ensures contentType == JsonContentType && body.first.Failed?
      ==> out.response == ClassifyDecodeError(body.first.err)
    ensures contentType == JsonContentType && body.first.Decoded? && body.second == MoreContent
      ==> out.response == Error(SingleObjectMsg, StatusBadRequest)
  {
    match CheckContentType(contentType)
    case Some(rejection) => Outcome(rejection, store)
    case None =>
      match body.first
      case Failed(e) => Outcome(ClassifyDecodeError(e), store)
      case Decoded(redirection) =>
        if body.second != EndOfInput then
          Outcome(Error(SingleObjectMsg, StatusBadRequest), store)
        else
          Outcome(Written(StatusOK, ""), store[redirection.shortKey := redirection.resource])
  }

  /** The catch-all route: a redirect to the stored resource, or "Not found" with the default status. */
  function Lookup(path: string, store: Store): (r: Response)
    ensures r.Redirected? <==> path in store
    ensures r.Redirected? ==> r.status == StatusSeeOther && r.location == store[path]
    ensures path !in store ==> r == Written(StatusOK, NotFoundBody)
  {
    if path in store then Redirected(StatusSeeOther, store[path]) else Written(StatusOK, NotFoundBody)
  }

  /** A request that the server answers by storing a redirection. */
  predicate IsAcceptedCreate(req: Request) {
    req.path == CreatePath && req.verb == MethodPost && Accepted(req.contentType, req.body)
  }

  /** The store after `req` when `req` is accepted, and the store itself otherwise. */
  function StoreAfter(req: Request, store: Store): Store {
    if IsAcceptedCreate(req) then
      store[req.body.first.value.shortKey := req.body.first.value.resource]
    else
      store
  }

  /**
   * The two routes: the creation path with its method guard, and every other path
   * answered by a lookup that changes nothing.
   */
  function Serve(req: Request, store: Store): (out: Outcome)
    ensures out.store == StoreAfter(req, store)
    ensures req.path == CreatePath && req.verb != MethodPost
      ==> out.response == Error(NotAllowedMsg, StatusBadRequest)
    ensures req.path == CreatePath && req.verb == MethodPost
      ==> out.response == CreateRedirection(req.contentType, req.body, store).response
    ensures req.path != CreatePath ==> out.response == Lookup(req.path, store)
    ensures req.path == CreatePath ==> !out.response.Redirected?
  {
    if req.path == CreatePath then
      if req.verb == MethodPost then
        CreateRedirection(req.contentType, req.body, store)
      else
        Outcome(Error(NotAllowedMsg, StatusBadRequest), store)
    else
      Outcome(Lookup(req.path, store), store)
  }
}
