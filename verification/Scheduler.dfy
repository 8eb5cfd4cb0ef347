/** The scheduler's handling of a prepared outcome: what an attempt's recorded status says about its
    commit, and the loop that retries a commit whose transaction was rolled back. */
module Scheduler {
  import opened Prelude
  import opened StoreModel
  import opened StoreRuns
  import opened Sequential
  import opened StoreObject

  // ---------------------------------------------------------------- attempt statuses tell the truth

  predicate LoggedAttempt(commits: seq<Commit>, attempt: Uuid) {
    exists k :: 0 <= k < |commits| && commits[k].claim.attempt == attempt
  }

  ghost predicate AttemptsTruthful(w: World) {
    && (forall i :: 0 <= i < |w.db.attempts| ==>
          (w.db.attempts[i].status.Committed? <==> LoggedAttempt(w.commits, w.db.attempts[i].id)))
    && (forall k :: 0 <= k < |w.commits| ==> w.commits[k].claim.attempt < w.db.nextUuid)
  }

  /** No attempt is newly committed; attempts may be added or end otherwise. */
  ghost predicate NothingCommitted(a: Db, b: Db) {
    && |a.attempts| <= |b.attempts| && a.nextUuid <= b.nextUuid
    && (forall i :: 0 <= i < |a.attempts| ==>
          b.attempts[i].id == a.attempts[i].id && (b.attempts[i].status.Committed? <==> a.attempts[i].status.Committed?))
    && (forall i :: |a.attempts| <= i < |b.attempts| ==>
          !b.attempts[i].status.Committed? && b.attempts[i].id >= a.nextUuid)
  }

  lemma StepCommitsNothing(w: World, init: Json, step: Step)
    requires HandlerInv(w, init) && (step.CommitAttempt? ==> Apply(w, step).commits == w.commits)
    ensures NothingCommitted(w.db, Apply(w, step).db) && Apply(w, step).commits == w.commits
  {
    if !HandlerStep(step) {
      ProducersExtendTheInbox(w, step);
    }
  }

  lemma CommitMarksItsAttempt(w: World, init: Json, claim: ClaimedEvent, outcome: Outcome)
    requires HandlerInv(w, init) && claim in w.claims && AttemptsTruthful(w)
    requires CommitOutcome(w.db, w.now, claim, outcome).1.Ok?
    ensures AttemptsTruthful(Apply(w, CommitAttempt(claim, outcome)))
  {
    HolderOwnsTheHead(w, init, claim);
    var staged := w.db.(
      operations := InsertOps(w.db.operations, claim.event.id, w.now, outcome.operations).value,
      waits := InsertWaits(w.db.waits, outcome.waits).value);
    CancelWaitsExtends(staged, w.now, outcome.cancelledWaits);
    var mid := CancelWaits(staged, w.now, outcome.cancelledWaits).value;
    assert mid.attempts == w.db.attempts && mid.nextUuid >= w.db.nextUuid;
    LogGrows(w, init, mid, claim, outcome);
  }

  lemma LogGrows(w: World, init: Json, mid: Db, claim: ClaimedEvent, outcome: Outcome)
    requires HandlerInv(w, init) && AttemptsTruthful(w) && AttemptRunningAs(w.db.attempts, claim)
    requires mid.attempts == w.db.attempts && mid.nextUuid >= w.db.nextUuid
    ensures AttemptsTruthful(w.(db := Acknowledged(mid, claim, outcome), commits := w.commits + [Commit(claim, outcome)]))
  {
    var commits := w.commits + [Commit(claim, outcome)];
    var attempts := FinishAttempt(mid.attempts, claim, Committed);
    var r :| 0 <= r < |w.db.attempts| && RunningAs(w.db.attempts[r], claim);
    forall i | 0 <= i < |attempts| ensures attempts[i].status.Committed? <==> LoggedAttempt(commits, attempts[i].id) {
      assert attempts[i].id == w.db.attempts[i].id;
      if LoggedAttempt(w.commits, attempts[i].id) {
        var k :| 0 <= k < |w.commits| && w.commits[k].claim.attempt == attempts[i].id;
        assert commits[k].claim.attempt == attempts[i].id;
      }
      if i == r { assert commits[|w.commits|].claim.attempt == attempts[i].id; }
      if LoggedAttempt(commits, attempts[i].id) && i != r {
        var k :| 0 <= k < |commits| && commits[k].claim.attempt == attempts[i].id;
        assert k < |w.commits|;
      }
    }
  }

  lemma StepKeepsAttemptsTruthful(w: World, init: Json, step: Step)
    requires HandlerInv(w, init) && AttemptsTruthful(w)
    ensures AttemptsTruthful(Apply(w, step))
  {
    if step.CommitAttempt? && Apply(w, step).commits != w.commits {
      CommitMarksItsAttempt(w, init, step.claim, step.outcome);
    } else {
      StepCommitsNothing(w, init, step);
      TruthIsKept(w, Apply(w, step));
    }
  }

  lemma TruthIsKept(w: World, w': World)
    requires AttemptsTruthful(w) && NothingCommitted(w.db, w'.db) && w'.commits == w.commits
    ensures AttemptsTruthful(w')
  {
    forall i | 0 <= i < |w'.db.attempts|
      ensures w'.db.attempts[i].status.Committed? <==> LoggedAttempt(w'.commits, w'.db.attempts[i].id)
    {
      if i < |w.db.attempts| {
        assert w.db.attempts[i].status.Committed? <==> LoggedAttempt(w.commits, w.db.attempts[i].id);
      }
    }
  }

  /** After an unacknowledged commit, the recorded status of the attempt says exactly whether the
      outcome was applied. */
  lemma {:induction false} AttemptStatusIsTruthful(init: Json, steps: seq<Step>)
    ensures AttemptsTruthful(Run(Start(init), steps))
  {
    if steps != [] {
      AttemptStatusIsTruthful(init, steps[..|steps| - 1]);
      RunKeepsHandlerInv(init, steps[..|steps| - 1]);
      StepKeepsAttemptsTruthful(Run(Start(init), steps[..|steps| - 1]), init, steps[|steps| - 1]);
    }
  }

  // ---------------------------------------------------------------- retrying a prepared outcome

  /** What happens in one turn of the loop: the call is answered, rolled back by the database before it
      took effect, or its acknowledgement is lost after it did or did not take effect; or the lease
      keeper gives up, before the call was made or while it was under way, and a call dropped under way
      may have taken effect like one that is never answered. */
  datatype Weather =
    | Answered(at: Time)
    | RolledBack(at: Time)
    | Unanswered(at: Time, applied: bool)
    | LeaseLost(at: Time, applied: bool)

  datatype Report = Applied | Stale | GaveUp | Rejected | LostTrack | Stopped

  /** The first `n` turns of a loop that has not ended: nothing took effect. */
  predicate RetriedSoFar(weather: seq<Weather>, n: nat) {
    n <= |weather| && forall i :: 0 <= i < n ==> weather[i].RolledBack?
  }

  /** What an outcome that was or was not applied at `at` leaves. */
  function MaybeApplied(db: Db, at: Time, applied: bool, claim: ClaimedEvent, outcome: Outcome): Db {
    if applied then CommitOutcome(db, at, claim, outcome).0 else db
  }

  /** `commit_prepared`.  `weather` is what the turns of the loop meet, `retryDelays` how many retries are
      granted, `settleAt` when authority is renewed to write back a failure. */
  method CommitPrepared(store: Store, claim: ClaimedEvent, outcome: Outcome, retryDelays: nat, weather: seq<Weather>,
                        settleAt: Time, leaseFor: Time, retryAt: Time)
    returns (report: Report, calls: nat)
    requires |weather| == retryDelays + 1
    modifies store
    ensures 1 <= calls <= retryDelays + 1 && RetriedSoFar(weather, calls - 1)
    ensures report.Applied? ==>
              weather[calls - 1].Answered?
              && (store.View(), Ok(())) == CommitOutcome(old(store.View()), weather[calls - 1].at, claim, outcome)
    ensures report.Stale? ==>
              store.View() == old(store.View()) && weather[calls - 1].Answered?
              && CommitOutcome(old(store.View()), weather[calls - 1].at, claim, outcome).1 == Err(StaleClaim)
    ensures report.Rejected? ==>
              weather[calls - 1].Answered?
              && CommitOutcome(old(store.View()), weather[calls - 1].at, claim, outcome).1.Err?
              && store.View() == RecordFailure(RenewEvent(old(store.View()), settleAt, claim, leaseFor).0,
                                               settleAt, claim, retryAt, true).0
    ensures report.GaveUp? ==>
              calls == retryDelays + 1 && RetriedSoFar(weather, calls)
              && store.View() == AbandonAttempt(RenewEvent(old(store.View()), settleAt, claim, leaseFor).0,
                                                settleAt, claim, retryAt).0
    ensures report.LostTrack? ==>
              weather[calls - 1].Unanswered?
              && store.View() == MaybeApplied(old(store.View()), weather[calls - 1].at, weather[calls - 1].applied,
                                              claim, outcome)
    ensures report.Stopped? ==>
              weather[calls - 1].LeaseLost?
              && store.View() == MaybeApplied(old(store.View()), weather[calls - 1].at, weather[calls - 1].applied,
                                              claim, outcome)
  {
    var retry := 0;
    while true
      invariant 0 <= retry <= retryDelays && RetriedSoFar(weather, retry)
      invariant store.View() == old(store.View())
      decreases retryDelays - retry
    {
      calls := retry + 1;
      match weather[retry] {
        case LeaseLost(at, applied) =>
          if applied { var _ := store.CommitHandlerOutcome(at, claim, outcome); }
          return Stopped, calls;
        case Answered(at) =>
          var result := store.CommitHandlerOutcome(at, claim, outcome);
          if result.Ok? { return Applied, calls; }
          if result.error.StaleClaim? { return Stale, calls; }
          var renewed := store.RenewEventClaim(settleAt, claim, leaseFor);
          if renewed.Ok? { var _ := store.RecordHandlerFailure(settleAt, claim, retryAt, true); }
          return Rejected, calls;
        case Unanswered(at, applied) =>
          if applied { var _ := store.CommitHandlerOutcome(at, claim, outcome); }
          return LostTrack, calls;
        case RolledBack(_) =>
          if retry >= retryDelays {
            var renewed := store.RenewEventClaim(settleAt, claim, leaseFor);
            if renewed.Ok? { var _ := store.AbandonHandlerAttempt(settleAt, claim, retryAt); }
            return GaveUp, calls;
          }
          retry := retry + 1;
      }
    }
  }

  /** However the turns of the loop interleave with everybody else's transactions, no claim ever has two
      outcomes applied, nor one outcome twice. */
  lemma OneOutcomePerClaim(init: Json, steps: seq<Step>, j: nat, k: nat)
    requires j < k < |Run(Start(init), steps).commits|
    ensures var commits := Run(Start(init), steps).commits; commits[j].claim != commits[k].claim
  {
    EveryRunIsSequential(init, steps);
    var w := Run(Start(init), steps);
    assert Follows(init, w.db.events, w.commits, j) && Follows(init, w.db.events, w.commits, k);
  }

  /** Whatever the weather, an outcome that was applied leaves the claim without authority: neither
      another call of the loop nor a later failure report can follow it. */
  lemma AppliedOutcomesEndTheClaim(db: Db, at: Time, later: Time, claim: ClaimedEvent, outcome: Outcome, blocked: bool)
    requires CommitOutcome(db, at, claim, outcome).1.Ok?
    ensures var db' := CommitOutcome(db, at, claim, outcome).0;
            && !ClaimHeld(db', later, claim)
            && CommitOutcome(db', later, claim, outcome) == (db', Err(StaleClaim))
            && RecordFailure(db', later, claim, later, blocked) == (db', Err(StaleClaim))
            && AbandonAttempt(db', later, claim, later) == (db', Err(StaleClaim))
  {
  }
}
