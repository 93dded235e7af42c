/**
 * `ModelError`, the error a provider reports when a model call fails, with the
 * retry options that make it retryable, and its `Display` rendering.
 */
module ModelErrors {
  import opened Wrappers

  /** `ModelErrorRetryOptions`; `sleep` is a `Duration` in milliseconds. */
  datatype RetryOptions = RetryOptions(sleep: nat, factor: nat, retries: nat)

  datatype ModelError = ModelError(message: string, retryable: Option<RetryOptions>, requestId: Option<string>)

  /** Rust's `Display` for `bool`. */
  function BoolStr(b: bool): string {
    if b then "true" else "false"
  }

  function RenderPrefix(retryable: bool): string {
    "[model_error(retryable=" + BoolStr(retryable) + ")] "
  }

  /** `Display for ModelError`: a tag telling whether the error is retryable, then the message. */
  function Render(e: ModelError): (s: string)
    ensures |s| >= 30 + |e.message| && s[|s| - |e.message|..] == e.message
    ensures s[23] == if e.retryable.Some? then 't' else 'f'
  {
    RenderPrefix(e.retryable.Some?) + e.message
  }

  /** Reads a rendered model error back: whether it was retryable, and its message. */
  function ParseRendered(s: string): Option<(bool, string)> {
    var t := RenderPrefix(true);
    var f := RenderPrefix(false);
    if |t| <= |s| && s[..|t|] == t then Some((true, s[|t|..]))
    else if |f| <= |s| && s[..|f|] == f then Some((false, s[|f|..]))
    else None
  }

  /** The rendering loses nothing but the request id: the retryable flag and the message come back. */
  lemma RenderRoundTrip(e: ModelError)
    ensures ParseRendered(Render(e)) == Some((e.retryable.Some?, e.message))
  {
  }

  /** Two model errors that render alike agree on retryability and message. */
  lemma RenderInjective(a: ModelError, b: ModelError)
    ensures Render(a) == Render(b) ==> a.retryable.Some? == b.retryable.Some? && a.message == b.message
  {
  }
}
