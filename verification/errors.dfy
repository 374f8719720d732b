/** The adapter's exceptions and the way every tool entry point turns one into
    the string it returns. `ViduAuthError` and `ViduRequestError` are both
    `ViduAPIError`s; every other exception is "unexpected". */
module Errors {
  import opened Strings

  /** The two concrete subclasses of `ViduAPIError`. */
  datatype ApiErrorKind = AuthError | RequestError

  /** A raised exception: its class and `str(e)`. */
  datatype Failure =
    | ApiError(kind: ApiErrorKind, message: string)
    | Unexpected(message: string)

  /** Returned for a `ViduAPIError` (and for `IOError`/`RequestException`). */
  const ApiErrorPrefix: string := "Error: "
  /** Returned for any other exception. */
  const UnexpectedPrefix: string := "Error generating video: "

  /** A `ViduRequestError` with the given text. */
  function RequestFailure(message: string): Failure {
    ApiError(RequestError, message)
  }

  /** The `except` ladder at the end of every tool: the string the tool returns
      when `f` was raised inside it. The two prefixes tell the failure classes
      apart, and the exception's own text follows unchanged. */
  function Render(f: Failure): (s: string)
    ensures StartsWith(s, ApiErrorPrefix) <==> f.ApiError?
    ensures f.Unexpected? ==> StartsWith(s, UnexpectedPrefix)
    ensures f.ApiError? ==> s[|ApiErrorPrefix|..] == f.message
    ensures f.Unexpected? ==> s[|UnexpectedPrefix|..] == f.message
  {
    match f
    case ApiError(_, message) => ApiErrorPrefix + message
    case Unexpected(message) =>
      assert (UnexpectedPrefix + message)[..|ApiErrorPrefix|] != ApiErrorPrefix by {
        assert (UnexpectedPrefix + message)[6] == 'g';
      }
      UnexpectedPrefix + message
  }
}
