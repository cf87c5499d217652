/** Results of the calls that can fail, and of the ones that can abort the thread. */
module Outcomes {
  datatype Option<+T> = None | Some(value: T)

  /** The variants of the error type; message texts decide nothing and are dropped. */
  datatype VpnError =
    | Io
    | Encryption
    | Protocol
    | Config
    | Network
    | KeyExchange
    | GenericError
    | ClientNotFound

  /** `Panic` is an out-of-range slice: the thread is gone, nothing is returned. */
  datatype Outcome<+T> = Ok(value: T) | Err(error: VpnError) | Panic {
    predicate IsFailure() {
      !Ok?
    }

    function PropagateFailure<U>(): Outcome<U>
      requires !Ok?
    {
      if Err? then Err(error) else Panic
    }

    function Extract(): T
      requires Ok?
    {
      value
    }
  }

  /** The errors on which a server loop drops the client. */
  predicate IsFatalError(e: VpnError) {
    e == ClientNotFound || e == Protocol
  }
}
