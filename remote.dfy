/** Values shared by every module: optional values, the outcome of a remote
    call (the HTTP layer is not modelled, only what a call returned), and the
    settled result of an asynchronous thunk. */
module Remote {

  datatype Option<+T> = None | Some(value: T)

  /** What a remote call gave back: a payload, or a thrown error with its message. */
  datatype Reply<+T> = Ok(value: T) | Fail(msg: string)

  /** How a thunk settles: `fulfilled` with its payload, or `rejected` with
      the value passed to `rejectWithValue`. */
  datatype Settled<+T> = Fulfilled(value: T) | Rejected(reason: string)

  /** JavaScript's `error.message || fallback`: an empty message is falsy. */
  function MessageOr(msg: string, fallback: string): (r: string)
    ensures msg != "" ==> r == msg
    ensures msg == "" ==> r == fallback
    ensures fallback != "" ==> r != ""
  {
    if msg != "" then msg else fallback
  }
}
