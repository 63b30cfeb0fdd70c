/**
 * The same functions on days, as the domain layer computes them: amounts are rounded to
 * tenths and refused when they are further than the tolerance from the grid.
 */
module DayArithmetic {
  import opened Wrappers
  import Balance

  const SCALE := 10.0
  const TOLERANCE := 0.000001

  datatype DayState = DayState(balanceDays: real, reservedDays: real)

  /** JavaScript's Math.round: ties go up. */
  function Round(x: real): int {
    (x + 0.5).Floor
  }

  function ToUnits(days: real): Result<int> {
    var scaled := Round(days * SCALE);
    var error := scaled as real - days * SCALE;
    if error > TOLERANCE || error < -TOLERANCE then Failure(InvalidAmount) else Success(scaled)
  }

  function ToDays(units: int): real {
    units as real / SCALE
  }

  function AssertNonNegative(days: real): Result<()> {
    if days < 0.0 then Failure(InvalidAmount) else Success(())
  }

  function Available(state: DayState): Result<real> {
    var balance :- ToUnits(state.balanceDays);
    var reserved :- ToUnits(state.reservedDays);
    Success(ToDays(balance - reserved))
  }

  function CanReserve(state: DayState, days: real): Result<bool> {
    var _ :- AssertNonNegative(days);
    var available :- Available(state);
    var left :- ToUnits(available);
    var wanted :- ToUnits(days);
    Success(left >= wanted)
  }

  function Reserve(state: DayState, days: real): Result<DayState> {
    var _ :- AssertNonNegative(days);
    var can :- CanReserve(state, days);
    if !can then
      Failure(InsufficientBalance)
    else
      var reserved :- ToUnits(state.reservedDays);
      var wanted :- ToUnits(days);
      Success(state.(reservedDays := ToDays(reserved + wanted)))
  }

  function Release(state: DayState, days: real): Result<DayState> {
    var _ :- AssertNonNegative(days);
    var reserved :- ToUnits(state.reservedDays);
    var wanted :- ToUnits(days);
    if reserved - wanted < 0 then
      Failure(InvalidAmount)
    else
      Success(state.(reservedDays := ToDays(reserved - wanted)))
  }

  function Commit(state: DayState, days: real): Result<DayState> {
    var _ :- AssertNonNegative(days);
    var reserved :- ToUnits(state.reservedDays);
    var wanted :- ToUnits(days);
    var balance :- ToUnits(state.balanceDays);
    if reserved - wanted < 0 then
      Failure(InvalidAmount)
    else if balance - wanted < 0 then
      Failure(InsufficientBalance)
    else
      Success(DayState(ToDays(balance - wanted), ToDays(reserved - wanted)))
  }

  function ApplyDelta(state: DayState, delta: real): Result<DayState> {
    var balance :- ToUnits(state.balanceDays);
    var change :- ToUnits(delta);
    if balance + change < 0 then
      Failure(InsufficientBalance)
    else
      Success(state.(balanceDays := ToDays(balance + change)))
  }

  /** The new state and the delta that the ledger records. */
  function SetAbsolute(state: DayState, absolute: real): Result<(DayState, real)> {
    var _ :- AssertNonNegative(absolute);
    var target :- ToUnits(absolute);
    var balance :- ToUnits(state.balanceDays);
    Success((state.(balanceDays := absolute), ToDays(target - balance)))
  }

  /** Math.round moves a number by at most one half. */
  lemma RoundError(x: real)
    ensures -0.5 < Round(x) as real - x <= 0.5
  {
  }

  predicate Near(days: real, units: int) {
    -0.000001 <= units as real - days * 10.0 <= 0.000001
  }

  /** An amount is accepted exactly when a whole number of tenths is near, and as that number. */
  lemma AcceptedIffNearGrid(days: real)
    ensures ToUnits(days).Success? <==> exists units :: Near(days, units)
    ensures forall units | Near(days, units) :: ToUnits(days) == Success(units)
  {
    forall units | Near(days, units)
      ensures Round(days * SCALE) == units
    {
      assert units as real <= days * SCALE + 0.5 < (units + 1) as real;
    }
    if ToUnits(days).Success? {
      assert Near(days, Round(days * SCALE));
    }
  }

  lemma UnitsRoundTrip(units: int)
    ensures ToUnits(ToDays(units)) == Success(units)
  {
    assert Near(ToDays(units), units);
    AcceptedIffNearGrid(ToDays(units));
  }

  function InDays(state: Balance.Snapshot): DayState {
    DayState(ToDays(state.balance), ToDays(state.reserved))
  }

  function ResultInDays(result: Result<Balance.Snapshot>): Result<DayState> {
    var state :- result;
    Success(InDays(state))
  }

  /**
   * On the tenths grid the day-valued guards and updates are those of the integer form, so
   * a protocol run on integers is a protocol run on days.
   */
  lemma DaysRefineUnits(state: Balance.Snapshot, days: int)
    ensures Available(InDays(state)) == Success(ToDays(Balance.Available(state)))
    ensures Reserve(InDays(state), ToDays(days)) == ResultInDays(Balance.Reserve(state, days))
    ensures Release(InDays(state), ToDays(days)) == ResultInDays(Balance.Release(state, days))
    ensures Commit(InDays(state), ToDays(days)) == ResultInDays(Balance.Commit(state, days))
    ensures ApplyDelta(InDays(state), ToDays(days)) == ResultInDays(Balance.ApplyDelta(state, days))
    ensures SetAbsolute(InDays(state), ToDays(days)) ==
            match Balance.SetAbsolute(state, days)
            case Success(next) => Success((InDays(next), ToDays(next.balance - state.balance)))
            case Failure(error) => Failure(error)
  {
    UnitsRoundTrip(state.balance);
    UnitsRoundTrip(state.reserved);
    UnitsRoundTrip(state.balance - state.reserved);
    UnitsRoundTrip(days);
  }
}
