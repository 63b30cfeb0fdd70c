/**
 * The balance arithmetic in integer tenths of a day. The protocol is modelled on these
 * amounts; module DayArithmetic proves that the day-valued source functions agree with them.
 */
module Balance {
  import opened Wrappers

  datatype Snapshot = Snapshot(balance: int, reserved: int)

  const EMPTY := Snapshot(0, 0)

  function Available(state: Snapshot): int {
    state.balance - state.reserved
  }

  function Reserve(state: Snapshot, days: int): Result<Snapshot> {
    if days < 0 then
      Failure(InvalidAmount)
    else if Available(state) < days then
      Failure(InsufficientBalance)
    else
      Success(state.(reserved := state.reserved + days))
  }

  function Release(state: Snapshot, days: int): Result<Snapshot> {
    if days < 0 || state.reserved < days then
      Failure(InvalidAmount)
    else
      Success(state.(reserved := state.reserved - days))
  }

  /** Turns a reservation into a debit: both amounts fall by `days`. */
  function Commit(state: Snapshot, days: int): Result<Snapshot> {
    if days < 0 || state.reserved < days then
      Failure(InvalidAmount)
    else if state.balance < days then
      Failure(InsufficientBalance)
    else
      Success(Snapshot(state.balance - days, state.reserved - days))
  }

  function ApplyDelta(state: Snapshot, delta: int): Result<Snapshot> {
    if state.balance + delta < 0 then
      Failure(InsufficientBalance)
    else
      Success(state.(balance := state.balance + delta))
  }

  function SetAbsolute(state: Snapshot, absolute: int): Result<Snapshot> {
    if absolute < 0 then
      Failure(InvalidAmount)
    else
      Success(state.(balance := absolute))
  }

  // ---------- what the operations have to do with each other ----------

  /** A reservation fits iff the days are available, and makes them unavailable. */
  lemma ReserveTakesAvailable(state: Snapshot, days: int)
    ensures Reserve(state, days).Success? <==> 0 <= days <= state.balance - state.reserved
    ensures Reserve(state, days) == Failure(InvalidAmount) <==> days < 0
    ensures Reserve(state, days) == Failure(InsufficientBalance) <==> 0 <= days && Available(state) < days
    ensures Reserve(state, days).Success? ==>
              var next := Reserve(state, days).value;
              next.balance == state.balance && Available(next) == Available(state) - days
  {
  }

  /** A release goes through iff that much is reserved; releasing and reserving undo each other. */
  lemma ReleaseUndoesReserve(state: Snapshot, days: int)
    ensures Release(state, days).Success? <==> 0 <= days <= state.reserved
    ensures Release(state, days).Failure? ==> Release(state, days).error == InvalidAmount
    ensures Reserve(state, days).Success? && state.reserved >= 0 ==>
              Release(Reserve(state, days).value, days) == Success(state)
    ensures Release(state, days).Success? && Available(state) >= 0 ==>
              Reserve(Release(state, days).value, days) == Success(state)
  {
  }

  /** A commit is a release followed by a debit of the same days, and throws what the first of them throws. */
  lemma CommitIsReleaseThenDebit(state: Snapshot, days: int)
    ensures Commit(state, days) ==
            match Release(state, days)
            case Failure(error) => Failure(error)
            case Success(released) => ApplyDelta(released, -days)
  {
  }

  /** A delta goes through iff the balance bears it, and the opposite delta undoes it. */
  lemma DeltaIsUndone(state: Snapshot, delta: int)
    requires state.balance >= 0
    ensures ApplyDelta(state, delta).Success? <==> state.balance >= -delta
    ensures ApplyDelta(state, delta).Failure? ==> ApplyDelta(state, delta).error == InsufficientBalance
    ensures ApplyDelta(state, delta).Success? ==>
              && ApplyDelta(state, delta).value == Snapshot(state.balance + delta, state.reserved)
              && ApplyDelta(ApplyDelta(state, delta).value, -delta) == Success(state)
  {
  }

  /** An absolute amount is the delta that leads to it, but is refused as an amount when negative. */
  lemma AbsoluteIsDelta(state: Snapshot, absolute: int)
    ensures absolute >= 0 ==> SetAbsolute(state, absolute) == ApplyDelta(state, absolute - state.balance)
    ensures absolute < 0 ==> SetAbsolute(state, absolute) == Failure(InvalidAmount)
  {
  }
}
