/** The retry policy of the scheduler.  A worker reads how often its event failed, decides from that
    whether to block it, and records the failure in a later transaction; anything may happen in
    between, and still no event gets more or fewer retries than the policy has delays. */
module RetryBudget {
  import opened Prelude
  import opened StoreModel
  import opened StoreRuns
  import opened Sequential

  // ---------------------------------------------------------------- counting errored attempts

  predicate ErroredOn(attempt: AttemptRow, event: Uuid) { attempt.event == event && attempt.status.Errored? }

  lemma {:induction false} SameErrors(a: seq<AttemptRow>, b: seq<AttemptRow>, event: Uuid)
    requires |a| == |b|
    requires forall i :: 0 <= i < |a| ==> (ErroredOn(a[i], event) <==> ErroredOn(b[i], event))
    ensures ErroredCount(a, event) == ErroredCount(b, event)
  {
    if a != [] {
      assert ErroredOn(a[0], event) <==> ErroredOn(b[0], event);
      forall i | 0 <= i < |a[1..]| ensures ErroredOn(a[1..][i], event) <==> ErroredOn(b[1..][i], event) {
        assert a[1..][i] == a[i + 1] && b[1..][i] == b[i + 1];
      }
      SameErrors(a[1..], b[1..], event);
    }
  }

  lemma {:induction false} OneMoreError(a: seq<AttemptRow>, b: seq<AttemptRow>, event: Uuid, k: nat)
    requires |a| == |b| && k < |a| && !ErroredOn(a[k], event) && ErroredOn(b[k], event)
    requires forall i :: 0 <= i < |a| && i != k ==> (ErroredOn(a[i], event) <==> ErroredOn(b[i], event))
    ensures ErroredCount(b, event) == ErroredCount(a, event) + 1
  {
    forall i | 0 <= i < |a[1..]| && i != k - 1 ensures ErroredOn(a[1..][i], event) <==> ErroredOn(b[1..][i], event) {
      assert a[1..][i] == a[i + 1] && b[1..][i] == b[i + 1];
    }
    if k == 0 {
      SameErrors(a[1..], b[1..], event);
    } else {
      assert ErroredOn(a[0], event) <==> ErroredOn(b[0], event);
      assert a[1..][k - 1] == a[k] && b[1..][k - 1] == b[k];
      OneMoreError(a[1..], b[1..], event, k - 1);
    }
  }

  lemma {:induction false} AddedAttempt(a: seq<AttemptRow>, attempt: AttemptRow, event: Uuid)
    requires !attempt.status.Errored?
    ensures ErroredCount(a + [attempt], event) == ErroredCount(a, event)
  {
    if a != [] {
      assert (a + [attempt])[1..] == a[1..] + [attempt];
      AddedAttempt(a[1..], attempt, event);
    }
  }

  lemma {:induction false} NoErrors(a: seq<AttemptRow>, event: Uuid)
    requires forall i :: 0 <= i < |a| ==> a[i].event != event
    ensures ErroredCount(a, event) == 0
  {
    if a != [] { NoErrors(a[1..], event); }
  }

  // ---------------------------------------------------------------- workers with a reading

  /** `readings` is what `handler_failure_count` returned to the holder of a claim. */
  datatype Policed = Policed(w: World, readings: map<ClaimedEvent, int>)

  datatype Turn =
    | Other(step: Step)
    | ReadCount(claim: ClaimedEvent)
    | RetryHandler(claim: ClaimedEvent, at: Time)

  function EventOf(events: seq<EventRow>, id: Uuid): Option<EventRow> {
    if events == [] then None
    else if events[0].id == id then Some(events[0])
    else EventOf(events[1..], id)
  }

  /** The count is converted to an unsigned number before it is compared. */
  predicate Exhausted(reading: int, delays: nat) { reading < 0 || reading >= delays }

  /** Everything else that may happen: any transaction but an unblocked failure, which only
      `retry_handler` records. */
  predicate Allowed(step: Step) { step.FailAttempt? ==> step.blocked }

  function Turned(p: Policed, turn: Turn, delays: nat): Policed {
    match turn
    case Other(step) => if Allowed(step) then p.(w := Apply(p.w, step)) else p
    case ReadCount(claim) =>
      var event := EventOf(p.w.db.events, claim.event.id);
      if claim in p.w.claims && event.Some? then p.(readings := p.readings[claim := FailureCount(p.w.db, event.value)])
      else p
    case RetryHandler(claim, at) =>
      if claim in p.readings
      then p.(w := Apply(p.w, FailAttempt(claim, at, Exhausted(p.readings[claim], delays))))
      else p
  }

  function PolicedRun(init: Json, turns: seq<Turn>, delays: nat): Policed {
    if turns == [] then Policed(Start(init), map[])
    else Turned(PolicedRun(init, turns[..|turns| - 1], delays), turns[|turns| - 1], delays)
  }

  // ---------------------------------------------------------------- the invariant

  ghost predicate AttemptEventsKnown(db: Db) {
    forall i :: 0 <= i < |db.attempts| ==> db.attempts[i].event < db.nextUuid
  }

  predicate WithinBudget(db: Db, i: nat, delays: nat)
    requires i < |db.events|
  {
    0 <= FailureCount(db, db.events[i]) <= if db.events[i].status.Blocked? then delays + 1 else delays
  }

  predicate ReadingHolds(p: Policed, claim: ClaimedEvent)
    requires claim in p.readings
  {
    var n := |p.w.commits|;
    && claim in p.w.claims
    && (p.w.db.session.lease.Some? && p.w.db.session.lease.value.token == claim.token ==>
          n < |p.w.db.events| && p.readings[claim] == FailureCount(p.w.db, p.w.db.events[n]))
  }

  ghost predicate BudgetInv(p: Policed, init: Json, delays: nat) {
    && HandlerInv(p.w, init) && AttemptEventsKnown(p.w.db)
    && (forall i :: 0 <= i < |p.w.db.events| ==> WithinBudget(p.w.db, i, delays))
    && (forall claim :: claim in p.readings ==> ReadingHolds(p, claim))
  }

  /** No event's count or block changes; events may be added. */
  ghost predicate CountsKept(a: Db, b: Db) {
    && AttemptEventsKnown(b) && |a.events| <= |b.events|
    && (forall i :: 0 <= i < |a.events| ==>
          && FailureCount(b, b.events[i]) == FailureCount(a, a.events[i])
          && (b.events[i].status.Blocked? <==> a.events[i].status.Blocked?))
    && (forall i :: |a.events| <= i < |b.events| ==>
          FailureCount(b, b.events[i]) == 0 && !b.events[i].status.Blocked?)
    && (b.session.lease.Some? ==>
          (a.session.lease.Some? && b.session.lease.value.token == a.session.lease.value.token)
          || b.session.lease.value.token >= a.nextUuid)
  }

  lemma CountsKeptKeepsBudget(p: Policed, w': World, init: Json, delays: nat)
    requires BudgetInv(p, init, delays) && HandlerInv(w', init) && CountsKept(p.w.db, w'.db)
    requires p.w.claims <= w'.claims && (|w'.commits| == |p.w.commits| || w'.db.session.lease.None?)
    ensures BudgetInv(p.(w := w'), init, delays)
  {
    var p' := p.(w := w');
    forall i | 0 <= i < |w'.db.events| ensures WithinBudget(w'.db, i, delays) {
      if i < |p.w.db.events| { assert WithinBudget(p.w.db, i, delays); }
    }
    forall claim | claim in p'.readings ensures ReadingHolds(p', claim) {
      assert ReadingHolds(p, claim) && Current(p.w.db, claim, |p.w.commits|);
    }
  }

  lemma ExtensionKeepsCounts(a: Db, b: Db)
    requires InboxExtended(a, b) && EventsInOrder(a) && AttemptEventsKnown(a)
    ensures CountsKept(a, b)
  {
    forall i | 0 <= i < |a.events| ensures b.events[i] == a.events[i] {
      assert b.events[i] == b.events[..|a.events|][i];
    }
    forall i | |a.events| <= i < |b.events| ensures FailureCount(b, b.events[i]) == 0 {
      NoErrors(b.attempts, b.events[i].id);
    }
  }

  // ---------------------------------------------------------------- steps that count nothing

  /** Attempts that end otherwise than in error are not counted, abandoned ones among them. */
  lemma FinishingCountsNothing(attempts: seq<AttemptRow>, claim: ClaimedEvent, status: AttemptStatus, event: Uuid)
    requires !status.Errored?
    ensures ErroredCount(FinishAttempt(attempts, claim, status), event) == ErroredCount(attempts, event)
  {
    SameErrors(attempts, FinishAttempt(attempts, claim, status), event);
  }

  lemma AbandoningCountsNothing(attempts: seq<AttemptRow>, abandoned: Uuid, event: Uuid)
    ensures ErroredCount(AbandonRunning(attempts, abandoned), event) == ErroredCount(attempts, event)
  {
    SameErrors(attempts, AbandonRunning(attempts, abandoned), event);
  }

  lemma ClaimKeepsCounts(w: World, init: Json, leaseFor: Time)
    requires HandlerInv(w, init) && AttemptEventsKnown(w.db)
    ensures CountsKept(w.db, ClaimNext(w.db, w.now, leaseFor).0)
  {
    HeadIs(w.db.events, |w.commits|);
    if Claimable(w.db, w.now) {
      var (db, claim) := ClaimNext(w.db, w.now, leaseFor);
      var attempt := db.attempts[|w.db.attempts|];
      forall i | 0 <= i < |w.db.events| ensures FailureCount(db, db.events[i]) == FailureCount(w.db, w.db.events[i]) {
        var event := w.db.events[i].id;
        AbandoningCountsNothing(w.db.attempts, claim.value.event.id, event);
        AddedAttempt(AbandonRunning(w.db.attempts, claim.value.event.id), attempt, event);
      }
    }
  }

  lemma AbandonKeepsCounts(w: World, init: Json, claim: ClaimedEvent, retryAt: Time)
    requires HandlerInv(w, init) && AttemptEventsKnown(w.db) && claim in w.claims
    ensures CountsKept(w.db, AbandonAttempt(w.db, w.now, claim, retryAt).0)
  {
    if ClaimHeld(w.db, w.now, claim) {
      HolderOwnsTheHead(w, init, claim);
      var db := AbandonAttempt(w.db, w.now, claim, retryAt).0;
      forall i | 0 <= i < |w.db.events| ensures FailureCount(db, db.events[i]) == FailureCount(w.db, w.db.events[i]) {
        FinishingCountsNothing(w.db.attempts, claim, Abandoned, w.db.events[i].id);
      }
    }
  }

  lemma AcknowledgementKeepsCounts(w: World, init: Json, claim: ClaimedEvent, outcome: Outcome)
    requires HandlerInv(w, init) && AttemptEventsKnown(w.db) && claim in w.claims && ClaimHeld(w.db, w.now, claim)
    ensures CountsKept(w.db, Acknowledged(w.db, claim, outcome))
  {
    HolderOwnsTheHead(w, init, claim);
    var db := Acknowledged(w.db, claim, outcome);
    forall i | 0 <= i < |w.db.events| ensures FailureCount(db, db.events[i]) == FailureCount(w.db, w.db.events[i]) {
      FinishingCountsNothing(w.db.attempts, claim, Committed, w.db.events[i].id);
    }
  }

  lemma CommitKeepsCounts(w: World, init: Json, claim: ClaimedEvent, outcome: Outcome)
    requires HandlerInv(w, init) && AttemptEventsKnown(w.db) && claim in w.claims
    ensures CountsKept(w.db, CommitOutcome(w.db, w.now, claim, outcome).0)
    ensures CommitOutcome(w.db, w.now, claim, outcome).1.Ok? ==>
              CommitOutcome(w.db, w.now, claim, outcome).0.session.lease.None?
  {
    if CommitOutcome(w.db, w.now, claim, outcome).1.Ok? {
      var staged := w.db.(
        operations := InsertOps(w.db.operations, claim.event.id, w.now, outcome.operations).value,
        waits := InsertWaits(w.db.waits, outcome.waits).value);
      CancelWaitsExtends(staged, w.now, outcome.cancelledWaits);
      var mid := CancelWaits(staged, w.now, outcome.cancelledWaits).value;
      ExtensionKeepsHandlerInv(w, w.(db := mid), init);
      ExtensionKeepsCounts(w.db, mid);
      AcknowledgementKeepsCounts(w.(db := mid), init, claim, outcome);
      CountsKeptTwice(w.db, mid, Acknowledged(mid, claim, outcome));
    }
  }

  lemma CountsKeptTwice(a: Db, b: Db, c: Db)
    requires CountsKept(a, b) && CountsKept(b, c) && |b.events| == |c.events| && c.session.lease.None?
    ensures CountsKept(a, c)
  {
  }

  // ---------------------------------------------------------------- failures and operator retries

  /** A recorded failure adds one to the head event and nothing to any other. */
  lemma FailureCountsOnce(w: World, init: Json, claim: ClaimedEvent, at: Time, blocked: bool)
    requires HandlerInv(w, init) && claim in w.claims && ClaimHeld(w.db, w.now, claim)
    ensures var db := RecordFailure(w.db, w.now, claim, at, blocked).0; var n := |w.commits|;
            && |db.events| == |w.db.events| > n && db.session.lease.None?
            && FailureCount(db, db.events[n]) == FailureCount(w.db, w.db.events[n]) + 1
            && (db.events[n].status.Blocked? <==> blocked) && !w.db.events[n].status.Blocked?
            && forall i :: 0 <= i < |db.events| && i != n ==>
                 FailureCount(db, db.events[i]) == FailureCount(w.db, w.db.events[i])
                 && db.events[i].status == w.db.events[i].status
  {
    HolderOwnsTheHead(w, init, claim);
    var db := RecordFailure(w.db, w.now, claim, at, blocked).0;
    var n := |w.commits|;
    var k :| 0 <= k < |w.db.attempts| && RunningAs(w.db.attempts[k], claim);
    OneMoreError(w.db.attempts, db.attempts, w.db.events[n].id, k);
    forall i | 0 <= i < |db.events| && i != n
      ensures FailureCount(db, db.events[i]) == FailureCount(w.db, w.db.events[i])
    {
      SameErrors(w.db.attempts, db.attempts, w.db.events[i].id);
    }
  }

  lemma FailureKeepsBudget(p: Policed, init: Json, delays: nat, claim: ClaimedEvent, at: Time, blocked: bool)
    requires BudgetInv(p, init, delays) && claim in p.w.claims
    requires ClaimHeld(p.w.db, p.w.now, claim) && !blocked ==>
               claim in p.readings && !Exhausted(p.readings[claim], delays)
    ensures BudgetInv(p.(w := Apply(p.w, FailAttempt(claim, at, blocked))), init, delays)
  {
    var p' := p.(w := Apply(p.w, FailAttempt(claim, at, blocked)));
    FailureKeepsHandlerInv(p.w, init, claim, at, blocked);
    if ClaimHeld(p.w.db, p.w.now, claim) {
      FailureCountsOnce(p.w, init, claim, at, blocked);
      assert claim in p.readings ==> ReadingHolds(p, claim);
      forall i | 0 <= i < |p'.w.db.events| ensures WithinBudget(p'.w.db, i, delays) {
        assert WithinBudget(p.w.db, i, delays);
      }
      forall other | other in p'.readings ensures ReadingHolds(p', other) { assert ReadingHolds(p, other); }
    } else {
      assert p' == p;
    }
  }

  /** The head event an operator retries starts again from zero failures. */
  lemma OperatorRetryResets(w: World, init: Json, event: Uuid, expected: nat, key: string, request: Json)
    requires HandlerInv(w, init) && RetryBlocked(w.db, w.now, event, expected, key, request).0 != w.db
    ensures var db := RetryBlocked(w.db, w.now, event, expected, key, request).0; var n := |w.commits|;
            && |db.events| == |w.db.events| > n && db.session.lease.None?
            && db.events[n].id == event && db.events[n].status.EventPending? && FailureCount(db, db.events[n]) == 0
            && forall i :: 0 <= i < |db.events| && i != n ==> db.events[i] == w.db.events[i]
  {
    HeadIs(w.db.events, |w.commits|);
  }

  lemma OperatorRetryKeepsBudget(p: Policed, init: Json, delays: nat, step: Step)
    requires BudgetInv(p, init, delays) && step.RetryEvent?
    ensures BudgetInv(p.(w := Apply(p.w, step)), init, delays)
  {
    var p' := p.(w := Apply(p.w, step));
    RetryKeepsHandlerInv(p.w, init, step.event, step.expected, step.key, step.request);
    if p'.w.db != p.w.db {
      OperatorRetryResets(p.w, init, step.event, step.expected, step.key, step.request);
      forall i | 0 <= i < |p'.w.db.events| ensures WithinBudget(p'.w.db, i, delays) {
        assert WithinBudget(p.w.db, i, delays);
      }
      forall other | other in p'.readings ensures ReadingHolds(p', other) { assert ReadingHolds(p, other); }
    } else {
      assert p' == p;
    }
  }

  // ---------------------------------------------------------------- every turn

  lemma HandlerStepKeepsCounts(w: World, init: Json, step: Step)
    requires HandlerInv(w, init) && AttemptEventsKnown(w.db) && HandlerStep(step)
    requires !step.FailAttempt? && !step.RetryEvent?
    ensures CountsKept(w.db, Apply(w, step).db) && w.claims <= Apply(w, step).claims
    ensures |Apply(w, step).commits| == |w.commits| || Apply(w, step).db.session.lease.None?
  {
    if Enabled(w, step) {
      match step
      case ClaimEvent(leaseFor) => ClaimKeepsCounts(w, init, leaseFor);
      case Abandon(claim, retryAt) => AbandonKeepsCounts(w, init, claim, retryAt);
      case CommitAttempt(claim, outcome) => CommitKeepsCounts(w, init, claim, outcome);
      case RenewClaim(claim, leaseFor) =>
    }
  }

  lemma StepKeepsBudget(p: Policed, init: Json, delays: nat, step: Step)
    requires BudgetInv(p, init, delays) && Allowed(step)
    ensures BudgetInv(p.(w := Apply(p.w, step)), init, delays)
  {
    StepKeepsHandlerInv(p.w, init, step);
    if !HandlerStep(step) {
      ProducersExtendTheInbox(p.w, step);
      ExtensionKeepsCounts(p.w.db, Apply(p.w, step).db);
      CountsKeptKeepsBudget(p, Apply(p.w, step), init, delays);
    } else if step.FailAttempt? {
      if step.claim in p.w.claims { FailureKeepsBudget(p, init, delays, step.claim, step.retryAt, true); }
    } else if step.RetryEvent? {
      OperatorRetryKeepsBudget(p, init, delays, step);
    } else {
      HandlerStepKeepsCounts(p.w, init, step);
      CountsKeptKeepsBudget(p, Apply(p.w, step), init, delays);
    }
  }

  lemma {:induction false} EventById(db: Db, events: seq<EventRow>, i: nat)
    requires i < |events| && forall j, k :: 0 <= j < k < |events| ==> events[j].id < events[k].id
    ensures EventOf(events, events[i].id) == Some(events[i])
  {
    if i > 0 { EventById(db, events[1..], i - 1); }
  }

  lemma ReadingKeepsBudget(p: Policed, init: Json, delays: nat, claim: ClaimedEvent)
    requires BudgetInv(p, init, delays)
    ensures BudgetInv(Turned(p, ReadCount(claim), delays), init, delays)
  {
    var p' := Turned(p, ReadCount(claim), delays);
    forall other | other in p'.readings ensures ReadingHolds(p', other) {
      if other != claim || p' == p { assert ReadingHolds(p, other); }
      else {
        var n := |p.w.commits|;
        assert Current(p.w.db, claim, n);
        if n < |p.w.db.events| { EventById(p.w.db, p.w.db.events, n); }
      }
    }
  }

  lemma TurnKeepsBudget(p: Policed, init: Json, delays: nat, turn: Turn)
    requires BudgetInv(p, init, delays)
    ensures BudgetInv(Turned(p, turn, delays), init, delays)
  {
    match turn
    case Other(step) => if Allowed(step) { StepKeepsBudget(p, init, delays, step); }
    case ReadCount(claim) => ReadingKeepsBudget(p, init, delays, claim);
    case RetryHandler(claim, at) =>
      if claim in p.readings {
        assert ReadingHolds(p, claim);
        FailureKeepsBudget(p, init, delays, claim, at, Exhausted(p.readings[claim], delays));
      }
  }

  lemma {:induction false} RunKeepsBudget(init: Json, turns: seq<Turn>, delays: nat)
    ensures BudgetInv(PolicedRun(init, turns, delays), init, delays)
  {
    if turns == [] {
      RunKeepsHandlerInv(init, []);
    } else {
      RunKeepsBudget(init, turns[..|turns| - 1], delays);
      TurnKeepsBudget(PolicedRun(init, turns[..|turns| - 1], delays), init, delays, turns[|turns| - 1]);
    }
  }

  // ---------------------------------------------------------------- main results

  /** An event that is not blocked never failed more often than there are delays since its last
      operator retry, and a blocked one at most once more. */
  lemma BudgetIsNeverExceeded(init: Json, turns: seq<Turn>, delays: nat, i: nat)
    requires i < |PolicedRun(init, turns, delays).w.db.events|
    ensures var db := PolicedRun(init, turns, delays).w.db;
            0 <= FailureCount(db, db.events[i]) <= if db.events[i].status.Blocked? then delays + 1 else delays
  {
    RunKeepsBudget(init, turns, delays);
    assert WithinBudget(PolicedRun(init, turns, delays).w.db, i, delays);
  }

  /** Although the count is read outside the recording transaction, a handler failure that is
      recorded blocks its event exactly when the budget is used up at that very moment. */
  lemma RetriesAreAllGranted(init: Json, turns: seq<Turn>, delays: nat, claim: ClaimedEvent, at: Time)
    requires var p := PolicedRun(init, turns, delays); claim in p.readings && ClaimHeld(p.w.db, p.w.now, claim)
    ensures var p := PolicedRun(init, turns, delays); var n := |p.w.commits|;
            var after := Turned(p, RetryHandler(claim, at), delays).w.db;
            && n < |p.w.db.events| && n < |after.events| && after.events[n].id == claim.event.id
            && FailureCount(after, after.events[n]) == FailureCount(p.w.db, p.w.db.events[n]) + 1
            && (after.events[n].status.Blocked? <==> FailureCount(p.w.db, p.w.db.events[n]) == delays)
            && (after.session.enabled <==> FailureCount(p.w.db, p.w.db.events[n]) < delays)
  {
    RunKeepsBudget(init, turns, delays);
    var p := PolicedRun(init, turns, delays);
    var n := |p.w.commits|;
    assert ReadingHolds(p, claim) && Current(p.w.db, claim, n);
    HolderOwnsTheHead(p.w, init, claim);
    assert WithinBudget(p.w.db, n, delays);
    FailureCountsOnce(p.w, init, claim, at, Exhausted(p.readings[claim], delays));
  }

  /** Processing is disabled exactly while the oldest unhandled event is blocked. */
  lemma DisabledExactlyWhenHeadBlocked(init: Json, turns: seq<Turn>, delays: nat)
    ensures var db := PolicedRun(init, turns, delays).w.db;
            !db.session.enabled <==> Head(db.events).Some? && Head(db.events).value.status.Blocked?
  {
    RunKeepsBudget(init, turns, delays);
    var w := PolicedRun(init, turns, delays).w;
    HeadIs(w.db.events, |w.commits|);
  }

  /** An operator retry with a new key succeeds exactly on the blocked head at the current revision,
      and gives it the whole budget back. */
  lemma OperatorRetryRestoresBudget(
      init: Json, turns: seq<Turn>, delays: nat, event: Uuid, expected: nat, key: string, request: Json)
    requires key !in PolicedRun(init, turns, delays).w.db.retries
    ensures var w := PolicedRun(init, turns, delays).w;
            var (db, result) := RetryBlocked(w.db, w.now, event, expected, key, request);
            var head := Head(w.db.events);
            && (result.Ok? <==> (expected == w.db.session.revision
                                 && head.Some? && head.value.id == event && head.value.status.Blocked?))
            && (result.Ok? ==>
                  && Head(db.events).Some? && Head(db.events).value.id == event
                  && FailureCount(db, Head(db.events).value) == 0
                  && db.session.enabled && db.session.revision == expected + 1)
            && (result.Err? ==> result == Err(StaleProcessingRetry) && db == w.db)
  {
    RunKeepsBudget(init, turns, delays);
    var w := PolicedRun(init, turns, delays).w;
    HeadIs(w.db.events, |w.commits|);
    var db := RetryBlocked(w.db, w.now, event, expected, key, request).0;
    if db != w.db {
      RetryKeepsHandlerInv(w, init, event, expected, key, request);
      HeadIs(db.events, |w.commits|);
      OperatorRetryResets(w, init, event, expected, key, request);
    }
  }
}
