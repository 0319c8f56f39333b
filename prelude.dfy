/** Small shared vocabulary: optional values, results, the outcome of one call to
    an external service, and raw bytes. */
module Prelude {

  datatype Option<+T> = None | Some(value: T) {
    function GetOr(default: T): T {
      match this
      case Some(v) => v
      case None => default
    }
  }

  datatype Result<+T, +E> = Ok(value: T) | Err(error: E)

  /** What one call to an external collaborator (the session store, object storage,
      the credit RPC) does: it returns normally or it raises. */
  datatype Outcome = Succeeds | Raises

  newtype byte = x: int | 0 <= x < 256

  type Bytes = seq<byte>

  /** Python truthiness of an optional string: None and '' are false. */
  predicate Truthy(s: Option<string>) {
    s.Some? && s.value != ""
  }

  /** Concatenation regroups freely; stated once so that long proofs need not rediscover it. */
  lemma ConcatAssoc<T>(a: seq<T>, b: seq<T>, c: seq<T>)
    ensures (a + b) + c == a + (b + c)
  {
  }
}
