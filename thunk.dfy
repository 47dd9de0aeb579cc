/**
 * How an asynchronous request settles. Every request of the slices runs its
 * body once, catches whatever the body throws, and rejects with that error's
 * message alone, so a reducer only ever sees a payload or a message string.
 */
module Thunk {
  import opened Wrappers

  /** What a request body throws: an `Error` with its name and message. */
  datatype ThrownError = ThrownError(name: string, message: string)

  /** The settlement a reducer receives: the fulfilled payload or the rejection's message. */
  datatype Settlement<+T> = Fulfilled(value: T) | Rejected(message: string)

  /**
   * The `try { return await body } catch (error) { return rejectWithValue(error.message) }`
   * shape shared by the request bodies: a returned value fulfils, a thrown
   * error rejects with its message and nothing else.
   */
  function RejectWithMessage<T>(outcome: Result<T, ThrownError>): (s: Settlement<T>)
    ensures s.Fulfilled? <==> outcome.Success?
    ensures s.Fulfilled? ==> s.value == outcome.value
    ensures s.Rejected? ==> s.message == outcome.error.message
  {
    match outcome
    case Success(v) => Fulfilled(v)
    case Failure(e) => Rejected(e.message)
  }

  /** Two thrown errors with the same message settle the same way: the error's name is dropped. */
  lemma OnlyMessageReachesReducer<T>(e1: ThrownError, e2: ThrownError)
    requires e1.message == e2.message
    ensures RejectWithMessage<T>(Failure(e1)) == RejectWithMessage<T>(Failure(e2))
  {
  }
}
