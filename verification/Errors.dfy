// llms/error.go: which failed calls are worth retrying. An error is a chain
// of causes; the first error of a type in the chain decides.
module Errors {
  import opened Messages

  datatype Kind =
    | Config | Auth | RateLimited | Timeout | Unavailable | BadRequest | ContentPolicy | ContextLength | Unknown

  datatype Fault =
    | Canceled
    | DeadlineExceeded
    | CircuitOpen(retryAfter: int)
    | ProviderError(kind: Kind, retryAfter: int, cause: Option<Fault>)
    | LimitError(permanent: bool, retryAfter: int, cause: Option<Fault>)
    | OtherError(cause: Option<Fault>)

  function Unwrap(f: Fault): Option<Fault> {
    match f
    case ProviderError(_, _, cause) => cause
    case LimitError(_, _, cause) => cause
    case OtherError(cause) => cause
    case _ => None
  }

  function AsProvider(f: Fault): (p: Option<Fault>)
    ensures p.Some? ==> p.value.ProviderError?
  {
    if f.ProviderError? then Some(f)
    else match Unwrap(f)
      case None => None
      case Some(cause) => AsProvider(cause)
  }

  function AsLimit(f: Fault): (l: Option<Fault>)
    ensures l.Some? ==> l.value.LimitError?
  {
    if f.LimitError? then Some(f)
    else match Unwrap(f)
      case None => None
      case Some(cause) => AsLimit(cause)
  }

  predicate IsCanceled(f: Fault) {
    f.Canceled? || match Unwrap(f) { case None => false case Some(cause) => IsCanceled(cause) }
  }

  predicate RetryableKind(k: Kind) {
    k !in {Auth, Config, BadRequest, ContentPolicy, ContextLength}
  }

  predicate Retryable(f: Fault) {
    if AsProvider(f).Some? then RetryableKind(AsProvider(f).value.kind)
    else
      var l := AsLimit(f);
      l.Some? && !l.value.permanent && (l.value.cause.Some? ==> !IsCanceled(l.value.cause.value))
  }

  function RetryAfter(f: Fault): int {
    if AsProvider(f).Some? then AsProvider(f).value.retryAfter
    else if AsLimit(f).Some? then AsLimit(f).value.retryAfter
    else 0
  }
}
