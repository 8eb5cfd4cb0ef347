/** Every run of the store, however its workers interleave, stall, lose leases or repeat
    commits, has the effect of handling the events one at a time in sequence order. */
module Sequential {
  import opened Prelude
  import opened StoreModel
  import opened StoreRuns

  // ---------------------------------------------------------------- the sequential reading of a log

  type Entry = (Uuid, Json)

  function StateAfter(init: Json, commits: seq<Commit>): Json {
    if commits == [] then init else commits[|commits| - 1].outcome.state
  }

  function Tagged(source: Uuid, messages: seq<Json>): seq<Entry> {
    seq(|messages|, i requires 0 <= i < |messages| => (source, messages[i]))
  }

  function HistoryAfter(commits: seq<Commit>): seq<Entry> {
    if commits == [] then []
    else
      var last := commits[|commits| - 1];
      HistoryAfter(commits[..|commits| - 1]) + Tagged(last.claim.event.id, last.outcome.history)
  }

  function Recorded(history: seq<HistoryRow>): seq<Entry> {
    seq(|history|, i requires 0 <= i < |history| => (history[i].source, history[i].message))
  }

  predicate SameEvent(a: EventRow, b: EventRow) {
    a.id == b.id && a.sequence == b.sequence && a.body == b.body
  }

  /** Commit `k` handled event `k` and was computed from what commits `0..k-1` left. */
  predicate Follows(init: Json, events: seq<EventRow>, commits: seq<Commit>, k: nat)
    requires k < |commits| <= |events|
  {
    var claim := commits[k].claim;
    && SameEvent(claim.event, events[k])
    && claim.state == StateAfter(init, commits[..k])
    && claim.version == k
    && claim.through == |HistoryAfter(commits[..k])|
  }

  /** The database is what the log of commits, read in order, says. */
  ghost predicate IsSequential(w: World, init: Json) {
    var db := w.db;
    && |w.commits| <= |db.events|
    && db.session.nextEvent == |db.events| + 1
    && (forall i :: 0 <= i < |db.events| ==> db.events[i].sequence == i + 1)
    && (forall i :: 0 <= i < |db.events| ==> (db.events[i].status.Handled? <==> i < |w.commits|))
    && (forall k :: 0 <= k < |w.commits| ==> Follows(init, db.events, w.commits, k))
    && db.session.state == StateAfter(init, w.commits)
    && db.session.stateVersion == |w.commits|
    && Recorded(db.history) == HistoryAfter(w.commits)
  }

  // ---------------------------------------------------------------- the inductive invariant

  ghost predicate EventsInOrder(db: Db) {
    && db.session.nextEvent == |db.events| + 1
    && (forall i :: 0 <= i < |db.events| ==> db.events[i].sequence == i + 1 && db.events[i].id < db.nextUuid)
    && (forall i, j :: 0 <= i < j < |db.events| ==> db.events[i].id < db.events[j].id)
  }

  ghost predicate HandledPrefix(events: seq<EventRow>, n: nat) {
    && n <= |events|
    && (forall i :: 0 <= i < |events| ==> (events[i].status.Handled? <==> i < n))
    && (forall i :: n < i < |events| ==> events[i].status.EventPending?)
  }

  /** The head event tells who owns the session and whether processing is enabled. */
  ghost predicate Ownership(db: Db, n: nat) {
    && (db.session.current.Some? <==> db.session.lease.Some?)
    && (db.session.current.Some? <==> n < |db.events| && db.events[n].status.Processing?)
    && (db.session.current.Some? ==> db.session.current.value == db.events[n].id
                                     && db.session.lease.value.token < db.nextUuid)
    && (!db.session.enabled <==> n < |db.events| && db.events[n].status.Blocked?)
  }

  ghost predicate AttemptsInOrder(db: Db) {
    && (forall i :: 0 <= i < |db.attempts| ==>
          && db.attempts[i].id < db.nextUuid && db.attempts[i].token < db.nextUuid
          && (db.attempts[i].status.AttemptRunning? ==>
                && db.session.current == Some(db.attempts[i].event)
                && db.session.lease.Some? && db.session.lease.value.token == db.attempts[i].token))
    && (forall i, j :: 0 <= i < j < |db.attempts| ==>
          db.attempts[i].id != db.attempts[j].id && db.attempts[i].token != db.attempts[j].token)
  }

  /** What the holder of the current lease was told is still true. */
  ghost predicate Current(db: Db, claim: ClaimedEvent, n: nat) {
    && claim.token < db.nextUuid
    && (db.session.lease.Some? && db.session.lease.value.token == claim.token ==>
          && n < |db.events| && SameEvent(claim.event, db.events[n])
          && claim.state == db.session.state && claim.version == db.session.stateVersion
          && claim.through == db.session.nextHistory - 1
          && AttemptRunningAs(db.attempts, claim))
  }

  ghost predicate Spent(db: Db, claim: ClaimedEvent) {
    claim.token < db.nextUuid && (db.session.lease.Some? ==> db.session.lease.value.token != claim.token)
  }

  ghost predicate HandlerInv(w: World, init: Json) {
    var n := |w.commits|;
    && EventsInOrder(w.db) && HandledPrefix(w.db.events, n) && Ownership(w.db, n) && AttemptsInOrder(w.db)
    && w.db.session.nextHistory == |w.db.history| + 1
    && (forall i :: 0 <= i < |w.db.history| ==> w.db.history[i].sequence == i + 1)
    && (forall claim :: claim in w.claims ==> Current(w.db, claim, n))
    && (forall k :: 0 <= k < n ==> Spent(w.db, w.commits[k].claim))
    && IsSequential(w, init)
  }

  lemma {:induction false} HeadIs(events: seq<EventRow>, n: nat)
    requires HandledPrefix(events, n)
    ensures Head(events) == if n < |events| then Some(events[n]) else None
  {
    if n > 0 {
      assert events[0].status.Handled?;
      HeadIs(events[1..], n - 1);
    }
  }

  lemma ExtensionKeepsHandlerInv(w: World, w': World, init: Json)
    requires HandlerInv(w, init) && InboxExtended(w.db, w'.db)
    requires w'.claims == w.claims && w'.commits == w.commits
    ensures HandlerInv(w', init)
  {
    forall i | 0 <= i < |w.db.events| ensures w'.db.events[i] == w.db.events[i] {
      assert w'.db.events[i] == w'.db.events[..|w.db.events|][i];
    }
    forall claim | claim in w'.claims ensures Current(w'.db, claim, |w.commits|) {
      assert Current(w.db, claim, |w.commits|);
    }
    forall k | 0 <= k < |w.commits| ensures Spent(w'.db, w.commits[k].claim) && Follows(init, w'.db.events, w.commits, k) {
      assert Spent(w.db, w.commits[k].claim) && Follows(init, w.db.events, w.commits, k);
    }
  }

  /** The claim that passes `lock_valid_session_claim` is the one running attempt on the head. */
  lemma HolderOwnsTheHead(w: World, init: Json, claim: ClaimedEvent)
    requires HandlerInv(w, init) && claim in w.claims && ClaimHeld(w.db, w.now, claim)
    ensures |w.commits| < |w.db.events| && SameEvent(claim.event, w.db.events[|w.commits|])
    ensures w.db.events[|w.commits|].status.Processing? && w.db.session.enabled
    ensures claim.state == w.db.session.state && claim.version == w.db.session.stateVersion == |w.commits|
    ensures claim.through == w.db.session.nextHistory - 1 == |w.db.history|
    ensures AttemptRunningAs(w.db.attempts, claim)
    ensures forall i :: 0 <= i < |w.db.attempts| && w.db.attempts[i].status.AttemptRunning? ==>
              RunningAs(w.db.attempts[i], claim)
  {
    assert Current(w.db, claim, |w.commits|);
  }

  /** Releasing the session leaves every claim without authority. */
  lemma ReleasedKeepsClaims(w: World, w': World, init: Json)
    requires HandlerInv(w, init) && w'.db.session.lease.None? && w.db.nextUuid <= w'.db.nextUuid
    requires w'.claims == w.claims
    ensures forall claim :: claim in w'.claims ==> Current(w'.db, claim, |w'.commits|)
  {
    forall claim | claim in w'.claims ensures Current(w'.db, claim, |w'.commits|) {
      assert Current(w.db, claim, |w.commits|);
    }
  }

  /** Handing the head back to the queue, blocked or not, or blocked to pending. */
  lemma HeadRequeued(w: World, w': World, init: Json)
    requires HandlerInv(w, init)
    requires w' == w.(db := w'.db) && w'.db.nextUuid == w.db.nextUuid
    requires w'.db.session.lease.None? && w'.db.session.current.None?
    requires w'.db.session == w.db.session.(enabled := w'.db.session.enabled,
               revision := w'.db.session.revision, lease := None, current := None)
    requires w'.db.history == w.db.history
    requires |w'.db.events| == |w.db.events| && |w.commits| < |w.db.events|
    requires forall i :: 0 <= i < |w.db.events| ==> SameEvent(w'.db.events[i], w.db.events[i])
    requires forall i :: 0 <= i < |w.db.events| && i != |w.commits| ==> w'.db.events[i] == w.db.events[i]
    requires var status := w'.db.events[|w.commits|].status;
             (status.EventPending? && w'.db.session.enabled) || (status.Blocked? && !w'.db.session.enabled)
    requires |w'.db.attempts| == |w.db.attempts|
    requires forall i :: 0 <= i < |w.db.attempts| ==>
               && !w'.db.attempts[i].status.AttemptRunning?
               && w'.db.attempts[i] == w.db.attempts[i].(status := w'.db.attempts[i].status)
    ensures HandlerInv(w', init)
  {
    ReleasedKeepsClaims(w, w', init);
    forall k | 0 <= k < |w.commits| ensures Spent(w'.db, w.commits[k].claim) && Follows(init, w'.db.events, w.commits, k) {
      assert Spent(w.db, w.commits[k].claim) && Follows(init, w.db.events, w.commits, k);
    }
  }

  lemma FailureKeepsHandlerInv(w: World, init: Json, claim: ClaimedEvent, retryAt: Time, blocked: bool)
    requires HandlerInv(w, init) && claim in w.claims
    ensures HandlerInv(Apply(w, FailAttempt(claim, retryAt, blocked)), init)
  {
    if ClaimHeld(w.db, w.now, claim) {
      HolderOwnsTheHead(w, init, claim);
      HeadRequeued(w, Apply(w, FailAttempt(claim, retryAt, blocked)), init);
    }
  }

  lemma AbandonKeepsHandlerInv(w: World, init: Json, claim: ClaimedEvent, retryAt: Time)
    requires HandlerInv(w, init) && claim in w.claims
    ensures HandlerInv(Apply(w, Abandon(claim, retryAt)), init)
  {
    if ClaimHeld(w.db, w.now, claim) {
      HolderOwnsTheHead(w, init, claim);
      HeadRequeued(w, Apply(w, Abandon(claim, retryAt)), init);
    }
  }

  lemma RetryKeepsHandlerInv(w: World, init: Json, event: Uuid, expected: nat, key: string, request: Json)
    requires HandlerInv(w, init)
    ensures HandlerInv(Apply(w, RetryEvent(event, expected, key, request)), init)
  {
    var w' := Apply(w, RetryEvent(event, expected, key, request));
    HeadIs(w.db.events, |w.commits|);
    if w'.db != w.db {
      HeadRequeued(w, w', init);
    } else {
      assert w' == w;
    }
  }

  lemma RenewKeepsHandlerInv(w: World, init: Json, claim: ClaimedEvent, leaseFor: Time)
    requires HandlerInv(w, init) && claim in w.claims
    ensures HandlerInv(Apply(w, RenewClaim(claim, leaseFor)), init)
  {
    var w' := Apply(w, RenewClaim(claim, leaseFor));
    forall other | other in w'.claims ensures Current(w'.db, other, |w.commits|) {
      assert Current(w.db, other, |w.commits|);
    }
    forall k | 0 <= k < |w.commits| ensures Spent(w'.db, w.commits[k].claim) && Follows(init, w'.db.events, w.commits, k) {
      assert Spent(w.db, w.commits[k].claim) && Follows(init, w.db.events, w.commits, k);
    }
  }

  /** Claiming abandons whatever attempt was still running and starts exactly one. */
  lemma ClaimStartsOneAttempt(w: World, init: Json, leaseFor: Time)
    requires HandlerInv(w, init) && Claimable(w.db, w.now)
    ensures AttemptsInOrder(ClaimNext(w.db, w.now, leaseFor).0)
    ensures AttemptRunningAs(ClaimNext(w.db, w.now, leaseFor).0.attempts, ClaimNext(w.db, w.now, leaseFor).1.value)
  {
    var (db, claim) := ClaimNext(w.db, w.now, leaseFor);
    HeadIs(w.db.events, |w.commits|);
    assert RunningAs(db.attempts[|w.db.attempts|], claim.value);
  }

  lemma ClaimTakesTheHead(w: World, init: Json, leaseFor: Time)
    requires HandlerInv(w, init) && Claimable(w.db, w.now)
    ensures var db := ClaimNext(w.db, w.now, leaseFor).0;
            EventsInOrder(db) && HandledPrefix(db.events, |w.commits|) && Ownership(db, |w.commits|)
            && |db.events| == |w.db.events|
            && forall i :: 0 <= i < |db.events| ==> SameEvent(db.events[i], w.db.events[i])
    ensures var claim := ClaimNext(w.db, w.now, leaseFor).1.value;
            |w.commits| < |w.db.events| && SameEvent(claim.event, w.db.events[|w.commits|])
  {
    HeadIs(w.db.events, |w.commits|);
  }

  lemma ClaimKeepsHandlerInv(w: World, init: Json, leaseFor: Time)
    requires HandlerInv(w, init)
    ensures HandlerInv(Apply(w, ClaimEvent(leaseFor)), init)
  {
    var w' := Apply(w, ClaimEvent(leaseFor));
    var n := |w.commits|;
    if Claimable(w.db, w.now) {
      ClaimStartsOneAttempt(w, init, leaseFor);
      ClaimTakesTheHead(w, init, leaseFor);
      var claim := ClaimNext(w.db, w.now, leaseFor).1.value;
      forall other | other in w'.claims ensures Current(w'.db, other, n) {
        if other != claim { assert Current(w.db, other, n); }
      }
      forall k | 0 <= k < n ensures Spent(w'.db, w.commits[k].claim) && Follows(init, w'.db.events, w.commits, k) {
        assert Spent(w.db, w.commits[k].claim) && Follows(init, w.db.events, w.commits, k);
      }
    }
  }

  /** The tables after an acknowledgement: the head is handled and nobody owns the session. */
  lemma AcknowledgementHandlesTheHead(w: World, init: Json, claim: ClaimedEvent, outcome: Outcome)
    requires HandlerInv(w, init) && claim in w.claims && ClaimHeld(w.db, w.now, claim)
    ensures var db := Acknowledged(w.db, claim, outcome); var n := |w.commits| + 1;
            EventsInOrder(db) && HandledPrefix(db.events, n) && Ownership(db, n) && AttemptsInOrder(db)
            && db.session.nextHistory == |db.history| + 1
            && (forall i :: 0 <= i < |db.history| ==> db.history[i].sequence == i + 1)
            && |db.events| == |w.db.events|
            && forall i :: 0 <= i < |db.events| ==> SameEvent(db.events[i], w.db.events[i])
  {
    HolderOwnsTheHead(w, init, claim);
  }

  lemma AcknowledgementExtendsTheLog(w: World, init: Json, claim: ClaimedEvent, outcome: Outcome)
    requires HandlerInv(w, init) && claim in w.claims && ClaimHeld(w.db, w.now, claim)
    ensures IsSequential(w.(db := Acknowledged(w.db, claim, outcome),
                            commits := w.commits + [Commit(claim, outcome)]), init)
  {
    var n := |w.commits|;
    var commits := w.commits + [Commit(claim, outcome)];
    var db := Acknowledged(w.db, claim, outcome);
    HolderOwnsTheHead(w, init, claim);
    AcknowledgementHandlesTheHead(w, init, claim, outcome);
    assert Current(w.db, claim, n);
    assert commits[..n] == w.commits;
    forall k | 0 <= k < n + 1 ensures Follows(init, db.events, commits, k) {
      if k < n {
        assert commits[..k] == w.commits[..k];
        assert Follows(init, w.db.events, w.commits, k);
      } else {
        assert |Recorded(w.db.history)| == |HistoryAfter(w.commits)|;
      }
    }
    assert Recorded(db.history) == Recorded(w.db.history) + Tagged(claim.event.id, outcome.history);
  }

  /** `db` has the outcome's rows inserted and its waits cancelled; acknowledging it handles the head. */
  lemma CommitHandlesTheHead(w: World, init: Json, db: Db, claim: ClaimedEvent, outcome: Outcome)
    requires HandlerInv(w, init) && claim in w.claims && ClaimHeld(w.db, w.now, claim)
    requires InboxExtended(w.db, db)
    ensures HandlerInv(w.(db := Acknowledged(db, claim, outcome),
                          commits := w.commits + [Commit(claim, outcome)]), init)
  {
    var mid := w.(db := db);
    ExtensionKeepsHandlerInv(w, mid, init);
    AcknowledgementHandlesTheHead(mid, init, claim, outcome);
    AcknowledgementExtendsTheLog(mid, init, claim, outcome);
    var w' := w.(db := Acknowledged(db, claim, outcome), commits := w.commits + [Commit(claim, outcome)]);
    ReleasedKeepsClaims(mid, w', init);
    assert Current(mid.db, claim, |w.commits|);
    forall k | 0 <= k < |w'.commits| ensures Spent(w'.db, w'.commits[k].claim) {
      if k < |w.commits| { assert Spent(mid.db, w.commits[k].claim); }
    }
  }

  lemma CommitKeepsHandlerInv(w: World, init: Json, claim: ClaimedEvent, outcome: Outcome)
    requires HandlerInv(w, init) && claim in w.claims
    ensures HandlerInv(Apply(w, CommitAttempt(claim, outcome)), init)
  {
    if CommitOutcome(w.db, w.now, claim, outcome).1.Ok? {
      var staged := w.db.(
        operations := InsertOps(w.db.operations, claim.event.id, w.now, outcome.operations).value,
        waits := InsertWaits(w.db.waits, outcome.waits).value);
      CancelWaitsExtends(staged, w.now, outcome.cancelledWaits);
      CommitHandlesTheHead(w, init, CancelWaits(staged, w.now, outcome.cancelledWaits).value, claim, outcome);
    }
  }

  lemma StepKeepsHandlerInv(w: World, init: Json, step: Step)
    requires HandlerInv(w, init)
    ensures HandlerInv(Apply(w, step), init)
  {
    if HandlerStep(step) {
      HandlerStepKeepsHandlerInv(w, init, step);
    } else {
      ProducerKeepsHandlerInv(w, init, step);
    }
  }

  lemma ProducerKeepsHandlerInv(w: World, init: Json, step: Step)
    requires HandlerInv(w, init) && !HandlerStep(step)
    ensures HandlerInv(Apply(w, step), init)
  {
    ProducersExtendTheInbox(w, step);
    ExtensionKeepsHandlerInv(w, Apply(w, step), init);
  }

  lemma HandlerStepKeepsHandlerInv(w: World, init: Json, step: Step)
    requires HandlerInv(w, init) && HandlerStep(step)
    ensures HandlerInv(Apply(w, step), init)
  {
    if Enabled(w, step) {
      match step
      case RetryEvent(event, expected, key, request) => RetryKeepsHandlerInv(w, init, event, expected, key, request);
      case ClaimEvent(leaseFor) => ClaimKeepsHandlerInv(w, init, leaseFor);
      case RenewClaim(claim, leaseFor) => RenewKeepsHandlerInv(w, init, claim, leaseFor);
      case FailAttempt(claim, retryAt, blocked) => FailureKeepsHandlerInv(w, init, claim, retryAt, blocked);
      case Abandon(claim, retryAt) => AbandonKeepsHandlerInv(w, init, claim, retryAt);
      case CommitAttempt(claim, outcome) => CommitKeepsHandlerInv(w, init, claim, outcome);
    }
  }

  lemma {:induction false} RunKeepsHandlerInv(init: Json, steps: seq<Step>)
    ensures HandlerInv(Run(Start(init), steps), init)
  {
    if steps != [] {
      RunKeepsHandlerInv(init, steps[..|steps| - 1]);
      StepKeepsHandlerInv(Run(Start(init), steps[..|steps| - 1]), init, steps[|steps| - 1]);
    }
  }

  // ---------------------------------------------------------------- main results

  /** Whatever the interleaving: the k-th commit handled the k-th event from the state and history
      that commits 0..k-1 left, handled events are a prefix, and the database is the log replayed. */
  lemma EveryRunIsSequential(init: Json, steps: seq<Step>)
    ensures IsSequential(Run(Start(init), steps), init)
  {
    RunKeepsHandlerInv(init, steps);
  }

  /** An outcome is applied once: after its commit, the same claim can do nothing any more. */
  lemma CommittedClaimIsStaleForever(init: Json, steps: seq<Step>, k: nat, outcome: Outcome, at: Time, blocked: bool)
    requires k < |Run(Start(init), steps).commits|
    ensures var w := Run(Start(init), steps); var claim := w.commits[k].claim;
            && CommitOutcome(w.db, w.now, claim, outcome) == (w.db, Err(StaleClaim))
            && RecordFailure(w.db, w.now, claim, at, blocked) == (w.db, Err(StaleClaim))
            && AbandonAttempt(w.db, w.now, claim, at) == (w.db, Err(StaleClaim))
            && RenewEvent(w.db, w.now, claim, at) == (w.db, Err(StaleClaim))
  {
    RunKeepsHandlerInv(init, steps);
    assert Spent(Run(Start(init), steps).db, Run(Start(init), steps).commits[k].claim);
  }

  /** The reference machine: one event after another, no leases, no retries. */
  function Replay(handler: (Json, seq<Entry>, Uuid, EventBody) -> Outcome, init: Json, events: seq<EventRow>)
    : (Json, seq<Entry>)
  {
    if events == [] then (init, [])
    else
      var event := events[|events| - 1];
      var (state, history) := Replay(handler, init, events[..|events| - 1]);
      var outcome := handler(state, history, event.id, event.body);
      (outcome.state, history + Tagged(event.id, outcome.history))
  }

  /** Every committed outcome is what `handler` returns for the state, the history up to the claimed
      boundary and the event that its claim carried. */
  ghost predicate ComputedBy(handler: (Json, seq<Entry>, Uuid, EventBody) -> Outcome, w: World) {
    forall k :: 0 <= k < |w.commits| ==>
      var claim := w.commits[k].claim;
      0 <= claim.through <= |w.db.history| ==>
        w.commits[k].outcome
          == handler(claim.state, Recorded(w.db.history)[..claim.through], claim.event.id, claim.event.body)
  }

  lemma {:induction false} HistoryIsAppendOnly(commits: seq<Commit>, k: nat)
    requires k <= |commits|
    ensures |HistoryAfter(commits[..k])| <= |HistoryAfter(commits)|
    ensures HistoryAfter(commits)[..|HistoryAfter(commits[..k])|] == HistoryAfter(commits[..k])
  {
    if k == |commits| {
      assert commits[..k] == commits;
    } else {
      var n := |commits| - 1;
      HistoryIsAppendOnly(commits[..n], k);
      assert commits[..n][..k] == commits[..k];
    }
  }

  lemma {:induction false} LogReplays(
      handler: (Json, seq<Entry>, Uuid, EventBody) -> Outcome, w: World, init: Json, n: nat)
    requires IsSequential(w, init) && ComputedBy(handler, w) && n <= |w.commits|
    ensures (StateAfter(init, w.commits[..n]), HistoryAfter(w.commits[..n])) == Replay(handler, init, w.db.events[..n])
  {
    if n > 0 {
      var k := n - 1;
      LogReplays(handler, w, init, k);
      assert Follows(init, w.db.events, w.commits, k);
      assert w.commits[..n][..k] == w.commits[..k] && w.db.events[..n][..k] == w.db.events[..k];
      HistoryIsAppendOnly(w.commits, k);
    }
  }

  /** With a deterministic handler the concurrent store computes exactly the sequential replay. */
  lemma EveryRunReplaysSequentially(
      handler: (Json, seq<Entry>, Uuid, EventBody) -> Outcome, init: Json, steps: seq<Step>)
    requires ComputedBy(handler, Run(Start(init), steps))
    ensures var w := Run(Start(init), steps); var n := |w.commits|;
            n <= |w.db.events|
            && (w.db.session.state, Recorded(w.db.history)) == Replay(handler, init, w.db.events[..n])
  {
    EveryRunIsSequential(init, steps);
    var w := Run(Start(init), steps);
    LogReplays(handler, w, init, |w.commits|);
    assert w.commits[..|w.commits|] == w.commits;
  }

  /** A holder is never turned away for staleness: only the outcome itself can be refused. */
  lemma HolderIsNeverStale(init: Json, steps: seq<Step>, claim: ClaimedEvent, outcome: Outcome)
    requires claim in Run(Start(init), steps).claims
    ensures var w := Run(Start(init), steps);
            CommitOutcome(w.db, w.now, claim, outcome).1 == Err(StaleClaim)
            <==> !ClaimHeld(w.db, w.now, claim)
  {
    RunKeepsHandlerInv(init, steps);
    var w := Run(Start(init), steps);
    assert Current(w.db, claim, |w.commits|);
    if ClaimHeld(w.db, w.now, claim) {
      CancelWaitsErrors(w.db.(operations := InsertOps(w.db.operations, claim.event.id, w.now, outcome.operations).GetOr(map[]),
                              waits := InsertWaits(w.db.waits, outcome.waits).GetOr(map[])), w.now, outcome.cancelledWaits);
    }
  }

  lemma {:induction false} CancelWaitsErrors(db: Db, now: Time, ids: seq<Uuid>)
    ensures CancelWaits(db, now, ids).Err? ==> CancelWaits(db, now, ids).error == WaitNotFound
  {
    if ids != [] { CancelWaitsErrors(db, now, ids[..|ids| - 1]); }
  }
}
