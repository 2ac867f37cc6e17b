/**
 * Errors of the library: a public kind, and a private representation that
 * either wraps an I/O error or carries a kind with a fixed description.
 */
module Errors {

  import opened Wrappers

  /** The categories an error of the library falls into. */
  datatype ErrorKind = InvalidInput | IoError

  /** An error of the standard library's I/O layer, kept as an opaque payload. */
  datatype IoPayload = IoPayload(message: string)

  datatype ErrorRepr = WithDescription(kind: ErrorKind, desc: string) | Io(err: IoPayload)

  datatype MetricError = MetricError(repr: ErrorRepr) {

    /** The public kind: every wrapped I/O error is an `IoError`. */
    function Kind(): (k: ErrorKind)
      ensures repr.Io? ==> k == IoError
      ensures repr.WithDescription? ==> k == repr.kind
    {
      match repr
      case Io(_) => IoError
      case WithDescription(kind, _) => kind
    }

    /** The underlying error, present only for a wrapped I/O error. */
    function Cause(): (c: Option<IoPayload>)
      ensures c.Some? <==> repr.Io?
      ensures c.Some? ==> c.value == repr.err
    {
      match repr
      case Io(err) => Some(err)
      case _ => None
    }

    /** `From<io::Error>`: wraps the I/O error, which stays reachable as the cause. */
    static function FromIo(err: IoPayload): (e: MetricError)
      ensures e.Kind() == IoError && e.Cause() == Some(err)
    {
      MetricError(Io(err))
    }

    /** `From<(ErrorKind, &str)>`: keeps the given kind, and there is no cause. */
    static function FromDescription(kind: ErrorKind, desc: string): (e: MetricError)
      ensures e.Kind() == kind && e.Cause() == None
    {
      MetricError(WithDescription(kind, desc))
    }
  }

  type MetricResult<T> = Result<T, MetricError>

  /** An error that has a cause is always of kind `IoError`. */
  lemma CauseMeansIo(e: MetricError)
    ensures e.Cause().Some? ==> e.Kind() == IoError
  {
  }

  /** Every error is built by exactly one of the two conversions, and its kind and cause say which. */
  lemma ErrorOrigin(e: MetricError)
    ensures e.Cause().Some? ==> e == MetricError.FromIo(e.Cause().value)
    ensures e.Cause().None? ==> e == MetricError.FromDescription(e.Kind(), e.repr.desc)
  {
  }

  /** The two conversions lose nothing: equal results come from equal arguments. */
  lemma FromInjective(k1: ErrorKind, d1: string, k2: ErrorKind, d2: string, x: IoPayload, y: IoPayload)
    ensures MetricError.FromDescription(k1, d1) == MetricError.FromDescription(k2, d2) ==> k1 == k2 && d1 == d2
    ensures MetricError.FromIo(x) == MetricError.FromIo(y) ==> x == y
    ensures MetricError.FromIo(x) != MetricError.FromDescription(k1, d1)
  {
  }
}
