/** The circuit breaker as a stateful object that equals a function of its history. */
module CircuitBreaker {
  import opened Wrappers

  datatype CircuitState = Closed | Open | HalfOpen

  datatype ErrorCode =
    | InsufficientBalanceCode
    | InvalidDimensionCode
    | Unauthorized
    | Timeout
    | CircuitOpenCode
    | UpstreamError
    | Unknown

  /** An error thrown by a guarded call: one of the HCM errors, or anything else. */
  datatype CallError = HcmError(code: ErrorCode, retryable: bool) | OtherError

  /** Business outcomes say nothing about HCM's health. */
  predicate IsHealthSignal(error: CallError) {
    match error
    case OtherError => true
    case HcmError(code, retryable) =>
      retryable || code == Timeout || code == UpstreamError || code == Unknown
  }

  /** What the breaker has seen, oldest first; `Looked` is a look at the clock. */
  datatype Event = Looked(at: int) | Succeeded | Failed(error: CallError, at: int) | WasReset

  // ---------- the fields ----------

  datatype Fields = Fields(state: CircuitState, failures: int, openedAt: Option<int>)

  const FRESH := Fields(Closed, 0, None)

  function Step(threshold: int, cooldown: int, fields: Fields, event: Event): Fields {
    match event
    case Looked(at) =>
      if fields.state == Open && fields.openedAt.Some? && at - fields.openedAt.value >= cooldown
      then fields.(state := HalfOpen)
      else fields
    case Succeeded => FRESH
    case WasReset => FRESH
    case Failed(error, at) =>
      if !IsHealthSignal(error) then
        fields
      else if fields.failures + 1 >= threshold then
        Fields(Open, fields.failures + 1, Some(at))
      else
        fields.(failures := fields.failures + 1)
  }

  function Replayed(threshold: int, cooldown: int, history: seq<Event>): Fields {
    if history == [] then
      FRESH
    else
      Step(threshold, cooldown, Replayed(threshold, cooldown, history[..|history| - 1]),
           history[|history| - 1])
  }

  // ---------- the history alone ----------

  predicate Restores(event: Event) {
    event.Succeeded? || event.WasReset?
  }

  predicate Hurts(event: Event) {
    event.Failed? && IsHealthSignal(event.error)
  }

  /** The health-signal failures since the last success or reset. */
  function FailuresSince(history: seq<Event>): nat {
    if history == [] then
      0
    else
      var init, last := history[..|history| - 1], history[|history| - 1];
      if Restores(last) then 0
      else if Hurts(last) then FailuresSince(init) + 1
      else FailuresSince(init)
  }

  /** When the last health-signal failure happened, if any did since the last success or reset. */
  function LastHurt(history: seq<Event>): Option<int> {
    if history == [] then
      None
    else
      var init, last := history[..|history| - 1], history[|history| - 1];
      if Restores(last) then None
      else if Hurts(last) then Some(last.at)
      else LastHurt(init)
  }

  /** The state that the history shows at a moment, without looking at any field. */
  function StateAt(threshold: int, cooldown: int, history: seq<Event>, now: int): CircuitState {
    if FailuresSince(history) == 0 || FailuresSince(history) < threshold then
      Closed
    else if LastHurt(history).Some? && now - LastHurt(history).value < cooldown then
      Open
    else
      HalfOpen
  }

  predicate Timed(event: Event) {
    event.Looked? || event.Failed?
  }

  /** The clock never runs backwards, up to the moment `now`. */
  ghost predicate Monotone(history: seq<Event>, now: int) {
    && (forall i | 0 <= i < |history| && Timed(history[i]) :: history[i].at <= now)
    && (forall i, j | 0 <= i < j < |history| && Timed(history[i]) && Timed(history[j]) ::
          history[i].at <= history[j].at)
  }

  lemma {:induction false} HurtIsKnown(history: seq<Event>)
    ensures FailuresSince(history) > 0 <==> LastHurt(history).Some?
  {
    if history != [] {
      HurtIsKnown(history[..|history| - 1]);
    }
  }

  /** The replayed fields, told from the history alone; HALF_OPEN is a look that came late enough. */
  lemma {:induction false} FieldsFromHistory(threshold: int, cooldown: int, history: seq<Event>)
    ensures var fields := Replayed(threshold, cooldown, history);
            && fields.failures == FailuresSince(history)
            && (fields.state == Closed <==> FailuresSince(history) == 0 || FailuresSince(history) < threshold)
            && (fields.state == Closed ==> fields.openedAt == None)
            && (fields.state != Closed ==> fields.openedAt.Some? && fields.openedAt == LastHurt(history))
            && (fields.state == HalfOpen ==>
                  exists i :: 0 <= i < |history| && history[i].Looked? &&
                              history[i].at - LastHurt(history).value >= cooldown)
            && (forall now | fields.state == Open && |history| > 0 && history[|history| - 1] == Looked(now) ::
                  now - LastHurt(history).value < cooldown)
  {
    HurtIsKnown(history);
    if history != [] {
      var init, last := history[..|history| - 1], history[|history| - 1];
      FieldsFromHistory(threshold, cooldown, init);
      var before := Replayed(threshold, cooldown, init);
      if Replayed(threshold, cooldown, history).state == HalfOpen {
        if before.state == HalfOpen {
          var i :| 0 <= i < |init| && init[i].Looked? && init[i].at - LastHurt(init).value >= cooldown;
          assert history[i] == init[i];
        } else {
          assert history[|history| - 1].Looked?;
        }
      }
    }
  }

  /**
   * With a clock that never runs backwards, the breaker seen at a moment is CLOSED, OPEN or
   * HALF_OPEN exactly as the history alone tells. Business errors are invisible.
   */
  lemma StateIsFunctionOfHistory(threshold: int, cooldown: int, history: seq<Event>, now: int)
    requires Monotone(history, now)
    ensures Replayed(threshold, cooldown, history + [Looked(now)]).state ==
            StateAt(threshold, cooldown, history, now)
  {
    var all := history + [Looked(now)];
    assert all[..|history|] == history;
    FieldsFromHistory(threshold, cooldown, history);
    FieldsFromHistory(threshold, cooldown, all);
  }

  /** The history without its business errors. */
  function HealthSignals(history: seq<Event>): seq<Event> {
    if history == [] then
      []
    else
      var init, last := HealthSignals(history[..|history| - 1]), history[|history| - 1];
      if last.Failed? && !IsHealthSignal(last.error) then init else init + [last]
  }

  /** Business errors are invisible: a history and its health signals leave the same fields. */
  lemma {:induction false} BusinessErrorsInvisible(threshold: int, cooldown: int, history: seq<Event>)
    ensures Replayed(threshold, cooldown, HealthSignals(history)) == Replayed(threshold, cooldown, history)
  {
    if history != [] {
      var init, last := history[..|history| - 1], history[|history| - 1];
      BusinessErrorsInvisible(threshold, cooldown, init);
      assert (HealthSignals(init) + [last])[..|HealthSignals(init)|] == HealthSignals(init);
    }
  }

  // ---------- which errors count, and when the circuit opens ----------

  /**
   * An error that HCM did not send, a retryable one, and a timeout, an upstream error or an
   * unknown one raise the count by one. No other error is counted.
   */
  lemma FailuresCounted(history: seq<Event>, error: CallError, at: int)
    ensures FailuresSince(history + [Failed(error, at)]) ==
            FailuresSince(history) +
            if error == OtherError || error.retryable || error.code in {Timeout, UpstreamError, Unknown} then 1 else 0
  {
    assert (history + [Failed(error, at)])[..|history|] == history;
  }

  /** Errors that say that HCM cannot be reached, one after the other. */
  predicate Outage(failures: seq<Event>) {
    forall i | 0 <= i < |failures| ::
      failures[i].Failed? && (failures[i].error == OtherError || failures[i].error.retryable)
  }

  lemma {:induction false} OutageFields(threshold: int, cooldown: int, history: seq<Event>, failures: seq<Event>)
    requires threshold >= 1 && Outage(failures)
    requires history == [] || history[|history| - 1] in {Succeeded, WasReset}
    ensures Replayed(threshold, cooldown, history + failures) ==
            if |failures| < threshold then Fields(Closed, |failures|, None)
            else Fields(Open, |failures|, Some(failures[|failures| - 1].at))
  {
    if failures == [] {
      assert history + failures == history;
    } else {
      var n := |failures| - 1;
      OutageFields(threshold, cooldown, history, failures[..n]);
      assert (history + failures)[..|history| + n] == history + failures[..n];
    }
  }

  /**
   * From a start, a success or a reset on, the circuit stays closed while fewer retryable errors
   * than the threshold come in a row. With the threshold reached it is open until the cooldown
   * has passed since the last of them, and half open from then on.
   */
  lemma OpensAtThreshold(threshold: int, cooldown: int, history: seq<Event>, failures: seq<Event>, now: int)
    requires threshold >= 1 && Outage(failures)
    requires history == [] || history[|history| - 1] in {Succeeded, WasReset}
    ensures Replayed(threshold, cooldown, history + failures + [Looked(now)]).state ==
            if |failures| < threshold then Closed
            else if now - failures[|failures| - 1].at < cooldown then Open
            else HalfOpen
  {
    OutageFields(threshold, cooldown, history, failures);
    assert (history + failures + [Looked(now)])[..|history + failures|] == history + failures;
  }

  /** In a half open circuit one more such error opens it again, and a success closes it. */
  lemma HalfOpenDecides(threshold: int, cooldown: int, history: seq<Event>, error: CallError, at: int)
    requires Replayed(threshold, cooldown, history).state == HalfOpen
    requires error == OtherError || error.retryable
    ensures var failed := Replayed(threshold, cooldown, history + [Failed(error, at)]);
            failed.state == Open && failed.openedAt == Some(at)
    ensures Replayed(threshold, cooldown, history + [Succeeded]) == Fields(Closed, 0, None)
  {
    FieldsFromHistory(threshold, cooldown, history);
    assert (history + [Failed(error, at)])[..|history|] == history;
    assert (history + [Succeeded])[..|history|] == history;
  }

  // ---------- the object ----------

  /** `execute` is split into Begin and one of its two ends; other calls may run in between. */
  class Breaker {
    const failureThreshold: int
    const cooldownMs: int
    var state: CircuitState
    var failures: int
    var openedAt: Option<int>
    ghost var history: seq<Event>

    ghost predicate Valid()
      reads this
    {
      Fields(state, failures, openedAt) == Replayed(failureThreshold, cooldownMs, history)
    }

    constructor (failureThreshold: int, cooldownMs: int)
      ensures Valid() && history == []
      ensures this.failureThreshold == failureThreshold && this.cooldownMs == cooldownMs
    {
      this.failureThreshold := failureThreshold;
      this.cooldownMs := cooldownMs;
      state := Closed;
      failures := 0;
      openedAt := None;
      history := [];
    }

    method TryTransitionFromOpen(now: int)
      requires Valid()
      modifies this
      ensures Valid() && history == old(history) + [Looked(now)]
      ensures failures == old(failures)
    {
      if state == Open && openedAt.Some? {
        if now - openedAt.value >= cooldownMs {
          state := HalfOpen;
        }
      }
      history := history + [Looked(now)];
    }

    /** The current state is the one that the history tells. */
    method GetState(now: int) returns (current: CircuitState)
      requires Valid()
      modifies this
      ensures Valid() && history == old(history) + [Looked(now)]
      ensures current == state && failures == old(failures)
      ensures Monotone(old(history), now) ==>
                current == StateAt(failureThreshold, cooldownMs, old(history), now)
    {
      TryTransitionFromOpen(now);
      current := state;
      if Monotone(old(history), now) {
        StateIsFunctionOfHistory(failureThreshold, cooldownMs, old(history), now);
      }
    }

    /** The call is let through unless the history shows an open circuit. */
    method Begin(now: int) returns (admitted: bool)
      requires Valid()
      modifies this
      ensures Valid() && history == old(history) + [Looked(now)]
      ensures admitted <==> state != Open
      ensures Monotone(old(history), now) ==>
                (admitted <==> StateAt(failureThreshold, cooldownMs, old(history), now) != Open)
      ensures failures == old(failures)
    {
      var current := GetState(now);
      admitted := current != Open;
    }

    method OnSuccess()
      requires Valid()
      modifies this
      ensures Valid() && history == old(history) + [Succeeded]
      ensures state == Closed && failures == 0 && openedAt == None
    {
      failures := 0;
      state := Closed;
      openedAt := None;
      history := history + [Succeeded];
    }

    method OnFailure(error: CallError, now: int)
      requires Valid()
      modifies this
      ensures Valid() && history == old(history) + [Failed(error, now)]
      ensures var counts := error == OtherError || error.retryable || error.code in {Timeout, UpstreamError, Unknown};
              && failures == old(failures) + (if counts then 1 else 0)
              && (if counts && failures >= failureThreshold then state == Open && openedAt == Some(now)
                  else state == old(state) && openedAt == old(openedAt))
    {
      history := history + [Failed(error, now)];
      if !IsHealthSignal(error) {
        return;
      }
      failures := failures + 1;
      if failures >= failureThreshold {
        state := Open;
        openedAt := Some(now);
      }
    }

    method Reset()
      requires Valid()
      modifies this
      ensures Valid() && history == old(history) + [WasReset]
      ensures state == Closed && failures == 0 && openedAt == None
    {
      state := Closed;
      failures := 0;
      openedAt := None;
      history := history + [WasReset];
    }
  }
}
