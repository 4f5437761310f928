/** Result types shared by every module. */
module Common {
  datatype Option<+T> = None | Some(value: T)

  /** A value, or the Python exception that replaced it. */
  datatype Result<+T> = Ok(value: T) | Raised
  {
    predicate IsFailure() {
      Raised?
    }

    function PropagateFailure<U>(): Result<U>
      requires Raised?
    {
      Raised
    }

    function Extract(): T
      requires Ok?
    {
      value
    }
  }

  /** How one durable operation, or a method made of them, came back. */
  datatype Outcome =
    | Done
    | Error    // an exception reached the caller; the process goes on
    | Crashed  // the process is gone and only the disk remains
  {
    predicate IsFailure() {
      !Done?
    }

    function PropagateFailure(): Outcome
      requires !Done?
    {
      this
    }
  }

  function Lookup<K, V>(m: map<K, V>, k: K): Option<V> {
    if k in m then Some(m[k]) else None
  }

  /** A file operation may raise, unless nothing fails. */
  method MayRaise(calm: bool) returns (raised: bool)
    ensures calm ==> !raised
  {
    raised := *;
    if calm {
      raised := false;
    }
  }
}
