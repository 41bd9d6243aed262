/**
 * What the `encoding/json` decoder reports to the creation handler. The decoder
 * itself is not modelled: each call to `Decode` is an input to the handler, given
 * as the outcome the decoder produced.
 */
module Json {
  import opened Wrappers
  import Format

  /** The one entity of the system: a short key and the resource it redirects to. */
  datatype Redirection = Redirection(shortKey: string, resource: string)

  /** What `errors.As` finds in an error whose chain holds a `*json.UnmarshalTypeError`. */
  datatype TypeMismatch = TypeMismatch(field: string, offset: int)

  /**
   * An error returned by the first `Decode`, described by what the handler can ask of it:
   * the offset of a `*json.SyntaxError` in its chain, whether `errors.Is` finds
   * `io.ErrUnexpectedEOF`, the `*json.UnmarshalTypeError` in its chain, its text
   * (`err.Error()`), and whether `errors.Is` finds `io.EOF`. Several of these may hold
   * of one error; the handler decides by the first that does.
   */
  datatype DecodeError = DecodeError(
    syntaxOffset: Option<int>,
    unexpectedEOF: bool,
    typeMismatch: Option<TypeMismatch>,
    text: string,
    isEOF: bool)

  /** The outcome of decoding the request body into a `Redirection`. */
  datatype FirstDecode = Decoded(value: Redirection) | Failed(err: DecodeError)

  /**
   * The outcome of the second `Decode`: the source asks only whether the error is
   * exactly `io.EOF` (nothing after the first value) or anything else (another value,
   * or any error at all).
   */
  datatype SecondDecode = EndOfInput | MoreContent

  /** Everything the handler learns from the request body. */
  datatype Body = Body(first: FirstDecode, second: SecondDecode)

  /** The text `DisallowUnknownFields` puts before the quoted name of an unexpected field. */
  const UnknownFieldPrefix: string := "json: unknown field "

  /** The errors the decoder returns in the cases the handler tells apart. */
  function SyntaxError(offset: int, text: string): DecodeError {
    DecodeError(Some(offset), false, None, text, false)
  }

  function UnexpectedEOFError(): DecodeError {
    DecodeError(None, true, None, "unexpected EOF", false)
  }

  function TypeError(field: string, offset: int, text: string): DecodeError {
    DecodeError(None, false, Some(TypeMismatch(field, offset)), text, false)
  }

  function UnknownFieldError(field: string): DecodeError {
    DecodeError(None, false, None, UnknownFieldPrefix + Format.Quote(field), false)
  }

  function EOFError(): DecodeError {
    DecodeError(None, false, None, "EOF", true)
  }
}
