/** How request statuses move over runs, and what an outbox row says about its request. */
module StatusHistory {
  import opened Lifecycle
  import opened Balance
  import opened Tables
  import opened Flagging
  import opened System
  import opened Invariant
  import opened InvariantSteps
  import opened Reservations
  import opened ExactlyOnce

  function StatusOf(s: State, id: RequestId): Status
    requires id < |s.db.requests|
  {
    s.db.requests[id].status
  }

  /** The one way out of FAILED: the closing transaction of an acknowledged approve call. */
  ghost predicate StaleCommit(s: State, e: Event, id: RequestId) {
    && e == ApproveFinish(id)
    && id in s.approvals && s.approvals[id].phase.Acked?
  }

  /** A push may fail a request that the transition table would not let fail. */
  predicate PushFails(e: Event, from: Status, to: Status) {
    e.Push? && from == Pending && to == Failed
  }

  /**
   * Every status change is in the transition table, or is a push failing a PENDING request, or
   * is an approve call committing a request that a push failed under it.
   */
  lemma StepStatus(c: Config, s: State, e: Event, id: RequestId)
    requires ThreadsOk(c, s) && id < |s.db.requests|
    ensures id < |Next(c, s, e).db.requests|
    ensures var from, to := StatusOf(s, id), StatusOf(Next(c, s, e), id);
            || to == from
            || CanTransition(from, to)
            || PushFails(e, from, to)
            || (StaleCommit(s, e, id) && from == Failed && to == Committed)
  {
    RequestsStay(c, s, e);
    if !WritesTables(e) {
      OtherStepsKeepTables(c, s, e);
    } else if e.ApproveFinish? {
      FinishStatus(c, s, e.id, id);
    } else if e.WorkerSettle? {
      WorkerStatus(c, s, id);
    } else if e.Push? {
      PushStatus(c, s, e, id);
    } else {
      TableStatus(c, s, e, id);
    }
  }

  lemma TableStatus(c: Config, s: State, e: Event, id: RequestId)
    requires id < |s.db.requests|
    requires e.Create? || e.ApproveBegin? || e.Reject? || e.Cancel? || e.Refresh?
    ensures id < |Next(c, s, e).db.requests|
    ensures StatusOf(Next(c, s, e), id) == StatusOf(s, id) ||
            CanTransition(StatusOf(s, id), StatusOf(Next(c, s, e), id))
  {
  }

  lemma PushStatus(c: Config, s: State, e: Event, id: RequestId)
    requires id < |s.db.requests| && e.Push?
    ensures id < |Next(c, s, e).db.requests|
    ensures var from, to := StatusOf(s, id), StatusOf(Next(c, s, e), id);
            to == from || CanTransition(from, to) || PushFails(e, from, to)
  {
    hide Flagged, Held;
    if IsListing(s.db.requests, e.key, e.listing) {
      var flagged := Flagged(s.db.requests, e.key, e.absolute, e.listing);
      FlaggedAreHeld(s.db.requests, e.key, e.absolute, e.listing);
      if id in flagged {
        assert Holds(s.db.requests[id], e.key);
      }
    }
  }

  /** A request whose approve call is in flight is not PENDING, so a second call is refused. */
  lemma SecondApproveIsRefused(c: Config, s: State, id: RequestId)
    requires Inv(c, s) && id in s.approvals
    ensures id < |s.db.requests| && StatusOf(s, id) != Pending
    ensures Next(c, s, ApproveBegin(id)) == s
  {
    assert StatusOf(s, id) == Approved || StatusOf(s, id) == Failed;
    hide Inv;
  }

  lemma FinishStatus(c: Config, s: State, closed: RequestId, id: RequestId)
    requires ThreadsOk(c, s) && id < |s.db.requests|
    ensures id < |ApproveFinishStep(s, closed).db.requests|
    ensures var from, to := StatusOf(s, id), StatusOf(ApproveFinishStep(s, closed), id);
            || to == from
            || CanTransition(from, to)
            || (StaleCommit(s, ApproveFinish(closed), id) && from == Failed && to == Committed)
  {
    hide HcmOk;
  }

  lemma WorkerStatus(c: Config, s: State, id: RequestId)
    requires ThreadsOk(c, s) && id < |s.db.requests|
    ensures id < |WorkerSettleStep(s).db.requests|
    ensures StatusOf(WorkerSettleStep(s), id) == StatusOf(s, id) ||
            CanTransition(StatusOf(s, id), StatusOf(WorkerSettleStep(s), id))
  {
  }

  lemma StepFromTerminal(c: Config, s: State, e: Event, id: RequestId)
    requires ThreadsOk(c, s) && id < |s.db.requests| && IsTerminal(StatusOf(s, id))
    ensures id < |Next(c, s, e).db.requests|
    ensures var from, to := StatusOf(s, id), StatusOf(Next(c, s, e), id);
            to == from || (from == Failed && to == Committed)
  {
    StepStatus(c, s, e, id);
  }

  /** COMMITTED, REJECTED and CANCELLED are for good; FAILED gives way to COMMITTED alone. */
  lemma {:induction false} TerminalIsForGood(c: Config, s: State, events: seq<Event>, id: RequestId)
    requires Inv(c, s)
    requires id < |s.db.requests| && IsTerminal(StatusOf(s, id))
    ensures var final := Run(c, s, events);
            && id < |final.db.requests|
            && (StatusOf(final, id) == StatusOf(s, id) ||
                (StatusOf(s, id) == Failed && StatusOf(final, id) == Committed))
  {
    hide Next, Inv;
    if events != [] {
      var init, last := events[..|events| - 1], events[|events| - 1];
      RunKeeps(c, s, init);
      TerminalIsForGood(c, s, init, id);
      var before := Run(c, s, init);
      StepFromTerminal(c, before, last, id);
    }
  }

  /** How often a request's status changes over a run, its creation not counted. */
  ghost function StatusChanges(c: Config, s: State, events: seq<Event>, id: RequestId): nat {
    if events == [] then
      0
    else
      var init := events[..|events| - 1];
      var before, after := Run(c, s, init), Run(c, s, events);
      StatusChanges(c, s, init, id) +
      if id < |before.db.requests| && id < |after.db.requests| &&
         StatusOf(after, id) != StatusOf(before, id) then 1 else 0
  }

  function Rank(status: Status): nat {
    match status
    case Pending => 0
    case Approved => 1
    case Failed => 2
    case Rejected => 2
    case Cancelled => 2
    case Committed => 3
  }

  /** Along clean runs a commit counts no more than any other ending. */
  function CleanRank(status: Status): nat {
    if status == Committed then 2 else Rank(status)
  }

  lemma TransitionRaisesRank(from: Status, to: Status)
    requires CanTransition(from, to)
    ensures Rank(from) < Rank(to) && CleanRank(from) < CleanRank(to)
  {
  }

  lemma StepRaisesRank(c: Config, s: State, e: Event, id: RequestId)
    requires ThreadsOk(c, s) && id < |s.db.requests|
    ensures id < |Next(c, s, e).db.requests|
    ensures var from, to := StatusOf(s, id), StatusOf(Next(c, s, e), id);
            to == from || Rank(from) < Rank(to)
  {
    StepStatus(c, s, e, id);
    var from, to := StatusOf(s, id), StatusOf(Next(c, s, e), id);
    if CanTransition(from, to) {
      TransitionRaisesRank(from, to);
    }
  }

  lemma StepRaisesCleanRank(c: Config, s: State, e: Event, id: RequestId)
    requires ThreadsOk(c, s) && id < |s.db.requests| && CallsLive(s, s.db.requests[id].key)
    ensures id < |Next(c, s, e).db.requests|
    ensures var from, to := StatusOf(s, id), StatusOf(Next(c, s, e), id);
            to == from || CleanRank(from) < CleanRank(to)
  {
    StepStatus(c, s, e, id);
    var from, to := StatusOf(s, id), StatusOf(Next(c, s, e), id);
    if CanTransition(from, to) {
      TransitionRaisesRank(from, to);
    }
  }

  /** In every run a request changes status at most three times. */
  lemma {:induction false} AtMostThreeChanges(c: Config, events: seq<Event>, id: RequestId)
    ensures var final := Run(c, INITIAL, events);
            StatusChanges(c, INITIAL, events, id) <=
            (if id < |final.db.requests| then Rank(StatusOf(final, id)) else 0) <= 3
  {
    hide Next, Inv, ThreadsOk;
    if events != [] {
      var init, last := events[..|events| - 1], events[|events| - 1];
      InitialInv(c);
      RunKeeps(c, INITIAL, init);
      AtMostThreeChanges(c, init, id);
      var before := Run(c, INITIAL, init);
      RequestsStay(c, before, last);
      if id < |before.db.requests| {
        StepRaisesRank(c, before, last, id);
      }
    }
  }

  /** In every run that is clean for its balance a request changes status at most twice. */
  lemma {:induction false} AtMostTwoChangesWhenClean(c: Config, events: seq<Event>, id: RequestId, key: Key)
    requires CleanRun(c, INITIAL, events, key)
    requires var final := Run(c, INITIAL, events);
             id < |final.db.requests| ==> final.db.requests[id].key == key
    ensures var final := Run(c, INITIAL, events);
            StatusChanges(c, INITIAL, events, id) <=
            (if id < |final.db.requests| then CleanRank(StatusOf(final, id)) else 0) <= 2
  {
    hide Next, Inv, ThreadsOk;
    if events != [] {
      var init, last := events[..|events| - 1], events[|events| - 1];
      RunPrefix(c, INITIAL, events, key);
      InitialInv(c);
      RunKeeps(c, INITIAL, init);
      var before := Run(c, INITIAL, init);
      InvThreads(c, before);
      RequestsStay(c, before, last);
      if id < |before.db.requests| {
        KeysStay(c, before, last, id);
        CleanRunKeeps(c, INITIAL, init, key);
        StepRaisesCleanRank(c, before, last, id);
      }
      AtMostTwoChangesWhenClean(c, init, id, key);
    }
  }

  lemma InvThreads(c: Config, s: State)
    requires Inv(c, s)
    ensures ThreadsOk(c, s)
  {
  }

  /** Without stale rows every change is in the table, except a push failing a PENDING request. */
  lemma CleanStepStatus(c: Config, s: State, e: Event, id: RequestId)
    requires Inv(c, s) && id < |s.db.requests| && CallsLive(s, s.db.requests[id].key)
    ensures id < |Next(c, s, e).db.requests|
    ensures var from, to := StatusOf(s, id), StatusOf(Next(c, s, e), id);
            to == from || CanTransition(from, to) || PushFails(e, from, to)
  {
    StepStatus(c, s, e, id);
  }

  // ---------- no stranded approval ----------

  /** In every run an outbox row that is DONE belongs to a request in a terminal status. */
  lemma DoneMeansTerminal(c: Config, events: seq<Event>, id: RequestId)
    requires var db := Run(c, INITIAL, events).db; id in db.outbox && db.outbox[id].status == Done
    ensures var db := Run(c, INITIAL, events).db;
            id < |db.requests| && IsTerminal(db.requests[id].status)
  {
    InitialInv(c);
    RunKeeps(c, INITIAL, events);
  }

  /** Every APPROVED request of the balance has an approve call in flight or an outbox row. */
  ghost predicate NoneStranded(s: State, key: Key) {
    forall id: nat | id < |s.db.requests| && s.db.requests[id].key == key &&
                     s.db.requests[id].status == Approved ::
      id in s.approvals || id in s.db.outbox
  }

  /** With exact, fitting reserved days an approved request's days can be committed. */
  lemma GuardsHold(c: Config, s: State, id: RequestId)
    requires Inv(c, s) && id < |s.db.requests| && s.db.requests[id].status == Approved
    requires ExactAt(s.db, s.db.requests[id].key) && FitsAt(s.db, s.db.requests[id].key)
    ensures var request := s.db.requests[id];
            && request.key in s.db.balances
            && Commit(s.db.balances[request.key], request.days).Success?
            && Release(s.db.balances[request.key], request.days).Success?
            && DebitRows(s.db.ledger, id) == 0
  {
    HeldCovers(s.db.requests, id);
    assert CommitOk(s.db, s.hcm, id);
  }

  /** A closing transaction with a live row commits, fails or queues the request. */
  lemma FinishStrandsNone(c: Config, s: State, id: RequestId, key: Key)
    requires Inv(c, s) && CallsLive(s, key) && ExactAt(s.db, key) && FitsAt(s.db, key)
    requires NoneStranded(s, key)
    ensures NoneStranded(ApproveFinishStep(s, id), key)
  {
    if id in s.approvals && s.db.requests[id].key == key {
      GuardsHold(c, s, id);
      FinishSettles(c, s, id);
      FinishElsewhere(c, s, id);
    } else if id in s.approvals {
      FinishElsewhere(c, s, id);
    }
  }

  lemma FinishSettles(c: Config, s: State, id: RequestId)
    requires ThreadsOk(c, s) && id in s.approvals && s.db.requests[id].status == Approved
    requires var request := s.db.requests[id];
             && request.key in s.db.balances
             && Commit(s.db.balances[request.key], request.days).Success?
             && Release(s.db.balances[request.key], request.days).Success?
             && DebitRows(s.db.ledger, id) == 0
    ensures var after := ApproveFinishStep(s, id);
            || (id < |after.db.requests| && after.db.requests[id].status != Approved)
            || id in after.db.outbox || after == s
  {
  }

  lemma FinishElsewhere(c: Config, s: State, id: RequestId)
    requires ThreadsOk(c, s) && id in s.approvals
    ensures var after := ApproveFinishStep(s, id);
            && |after.db.requests| == |s.db.requests|
            && after.db.requests[id].key == s.db.requests[id].key
            && (forall i: nat | i < |s.db.requests| && i != id :: after.db.requests[i] == s.db.requests[i])
            && (forall i | i in s.approvals && i != id :: i in after.approvals)
            && (forall i | i in s.db.outbox :: i in after.db.outbox)
  {
    hide HcmOk, OutboxOk, WorkerOk;
  }

  lemma StepStrandsNone(c: Config, s: State, e: Event, key: Key)
    requires Inv(c, s) && CallsLive(s, key) && ExactAt(s.db, key) && FitsAt(s.db, key)
    requires NoneStranded(s, key)
    ensures NoneStranded(Next(c, s, e), key)
  {
    if e.ApproveFinish? {
      FinishStrandsNone(c, s, e.id, key);
    } else {
      OutboxStays(c, s, e);
      OtherStepStrandsNone(c, s, e, key);
    }
  }

  lemma OutboxStays(c: Config, s: State, e: Event)
    requires !e.ApproveFinish?
    ensures forall i | i in s.db.outbox :: i in Next(c, s, e).db.outbox
    ensures forall i | i in s.approvals :: i in Next(c, s, e).approvals
  {
  }

  lemma OtherStepStrandsNone(c: Config, s: State, e: Event, key: Key)
    requires Inv(c, s) && NoneStranded(s, key) && !e.ApproveFinish?
    requires forall i | i in s.db.outbox :: i in Next(c, s, e).db.outbox
    requires forall i | i in s.approvals :: i in Next(c, s, e).approvals
    ensures NoneStranded(Next(c, s, e), key)
  {
    var after := Next(c, s, e);
    forall id: nat | id < |after.db.requests| && after.db.requests[id].key == key &&
                     after.db.requests[id].status == Approved
      ensures id in after.approvals || id in after.db.outbox
    {
      if e != ApproveBegin(id) {
        NotNewlyApproved(c, s, e, id);
      } else if id < |s.db.requests| {
        BeginOpensCall(c, s, id);
      }
    }
  }

  lemma BeginOpensCall(c: Config, s: State, id: RequestId)
    requires id < |s.db.requests|
    ensures ApproveStep(s, id) == s || id in ApproveStep(s, id).approvals
  {
  }

  /** Only its own approval makes a request APPROVED. */
  lemma NotNewlyApproved(c: Config, s: State, e: Event, id: RequestId)
    requires ThreadsOk(c, s) && e != ApproveBegin(id) && !e.ApproveFinish?
    requires id < |Next(c, s, e).db.requests| && Next(c, s, e).db.requests[id].status == Approved
    ensures id < |s.db.requests| && s.db.requests[id].status == Approved
    ensures Next(c, s, e).db.requests[id].key == s.db.requests[id].key
  {
    hide HcmOk, CallsOk, Flagged;
    if !WritesTables(e) {
      OtherStepsKeepTables(c, s, e);
    } else if e.Push? {
      PushApprovesNone(c, s, e, id);
    } else if e.WorkerSettle? {
      SettleApprovesNone(c, s, id);
    }
  }

  lemma PushApprovesNone(c: Config, s: State, e: Event, id: RequestId)
    requires e.Push?
    requires id < |Next(c, s, e).db.requests| && Next(c, s, e).db.requests[id].status == Approved
    ensures id < |s.db.requests| && s.db.requests[id].status == Approved
    ensures Next(c, s, e).db.requests[id].key == s.db.requests[id].key
  {
    hide Flagged, Held;
  }

  lemma SettleApprovesNone(c: Config, s: State, id: RequestId)
    requires ThreadsOk(c, s)
    requires var after := WorkerSettleStep(s).db; id < |after.requests| && after.requests[id].status == Approved
    ensures id < |s.db.requests| && s.db.requests[id].status == Approved
    ensures WorkerSettleStep(s).db.requests[id].key == s.db.requests[id].key
  {
    hide HcmOk, CallsOk;
  }

  lemma {:induction false} RunStrandsNone(c: Config, s: State, events: seq<Event>, key: Key)
    requires Inv(c, s) && SoundRun(events, key) && CleanRun(c, s, events, key) && CoveredRun(c, s, events, key)
    requires CallsLive(s, key) && ExactAt(s.db, key) && FitsAt(s.db, key) && NoneStranded(s, key)
    ensures NoneStranded(Run(c, s, events), key)
  {
    hide Next, Inv;
    if events != [] {
      var init := events[..|events| - 1];
      RunPrefix(c, s, events, key);
      RunKeeps(c, s, init);
      CleanRunKeeps(c, s, init, key);
      CoveredRunFits(c, s, init, key);
      RunStrandsNone(c, s, init, key);
      StepStrandsNone(c, Run(c, s, init), events[|events| - 1], key);
    }
  }

  /**
   * No stranded approval: in every run, sound, clean and covered for the balance, an APPROVED
   * request of it has an approve call in flight or one outbox row, never both, and that row is
   * queued, being processed or dead.
   */
  lemma NoApprovalIsStranded(c: Config, events: seq<Event>, id: RequestId)
    requires var db := Run(c, INITIAL, events).db;
             && id < |db.requests| && db.requests[id].status == Approved
             && var key := db.requests[id].key;
                SoundRun(events, key) && CleanRun(c, INITIAL, events, key) && CoveredRun(c, INITIAL, events, key)
    ensures var final := Run(c, INITIAL, events);
            && (id in final.approvals <==> id !in final.db.outbox)
            && (id in final.db.outbox ==> final.db.outbox[id].status != Done)
  {
    hide Next, SoundRun, CleanRun, CoveredRun;
    InitialInv(c);
    RunKeeps(c, INITIAL, events);
    RunStrandsNone(c, INITIAL, events, Run(c, INITIAL, events).db.requests[id].key);
  }
}
