/** Small value types shared by every module: an optional value (Kotlin's nullable `T?`)
    and the result of a call into the remote document store. */
module Wrappers {

  /** A Kotlin nullable value: `None` stands for `null`. */
  datatype Option<+T> = None | Some(value: T) {

    /** Kotlin's elvis operator `x ?: default`. */
    function GetOr(default: T): T {
      match this
      case Some(v) => v
      case None => default
    }
  }

  /** An exception thrown by a remote call. Its `message` is nullable, as
      `Throwable.message` is in Kotlin. */
  datatype Fault = Fault(message: Option<string>)

  /** What a suspending remote call did: it returned normally, or it threw. */
  datatype Outcome = Done | Failed(message: Option<string>)

  /** The outcome of a single remote write that either commits or throws `fault`. */
  function CommitOutcome(fault: Option<Fault>): (r: Outcome)
    ensures r.Done? <==> fault.None?
    ensures fault.Some? ==> r.message == fault.value.message
  {
    match fault
    case None => Done
    case Some(f) => Failed(f.message)
  }
}
