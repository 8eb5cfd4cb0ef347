/** What one transaction leaves for the next claim: who may claim when, and what the claim then says. */
module LeaseLaws {
  import opened Prelude
  import opened StoreModel
  import opened StoreRuns
  import opened Settlement
  import opened Sequential
  import opened CommitLaws

  // ---------------------------------------------------------------- operations

  /** The phase in which an operation that has not been accepted is claimed. */
  function PhaseFor(request: Request): Phase {
    match request
    case LlmFresh(_, _) => Submission
    case LlmContinuation(_, _, _) => Submission
    case ExecutionCall(_, _, _, _) => Submission
    case CancelLlm(_) => Cancellation
    case WithdrawOp(_) => Withdrawal
  }

  /** Claimable in this phase from `at` on and in no other, and the claim then says whether a call may
      already have been made. */
  ghost predicate DueFrom(db: Db, id: Uuid, phase: Phase, at: Time, recovering: bool) {
    && id in db.operations
    && forall t, other, leaseFor ::
         var claim := ClaimOperation(db, t, id, other, leaseFor).1;
         && (claim.Some? <==> other == phase && at <= t)
         && (claim.Some? ==> claim.value.recovering == recovering && claim.value.row.request == db.operations[id].request
                             && claim.value.row.hash == db.operations[id].hash && claim.value.row.job == db.operations[id].job)
  }

  ghost predicate NeverDue(db: Db, id: Uuid) {
    id in db.operations && forall t, phase, leaseFor :: ClaimOperation(db, t, id, phase, leaseFor).1.None?
  }

  ghost predicate HoldsUntil(db: Db, claim: OpClaim, until: Time) {
    forall t :: OpClaimError(db, t, claim).None? <==> t < until
  }

  /** A claim holds until its lease runs out; from then on, and not before, another worker may claim the
      operation, and knows of the earlier attempt. */
  lemma ClaimsAreExclusive(db: Db, now: Time, id: Uuid, phase: Phase, leaseFor: Time)
    requires ClaimOperation(db, now, id, phase, leaseFor).1.Some? && leaseFor >= 0
    ensures var (after, claim) := ClaimOperation(db, now, id, phase, leaseFor);
            && claim.value.id == id && claim.value.phase == phase && claim.value.token == db.nextUuid < after.nextUuid
            && HoldsUntil(after, claim.value, now + leaseFor)
            && DueFrom(after, id, phase, now + leaseFor, !phase.ResultRetrieval?)
  {
  }

  lemma RenewedClaimsHoldOn(db: Db, now: Time, claim: OpClaim, leaseFor: Time)
    requires RenewOperation(db, now, claim, leaseFor).1.Ok? && leaseFor >= 0
    requires RowInv(db.operations[claim.id]) && db.operations[claim.id].nextAttempt <= now
    ensures var after := RenewOperation(db, now, claim, leaseFor).0; var row := db.operations[claim.id];
            && HoldsUntil(after, claim, now + leaseFor)
            && DueFrom(after, claim.id, if row.status.Accepted? then ResultRetrieval else PhaseFor(row.hash), now + leaseFor,
                       row.status.Submitting?)
  {
  }

  /** An operation that a commit stored is due at once, in the phase of its kind, as never attempted. */
  lemma NewOperationsAreDue(db: Db, id: Uuid, request: Request, source: Uuid, now: Time)
    requires id in db.operations && NewRow(db.operations[id], request, source, now)
    ensures DueFrom(db, id, PhaseFor(request), db.operations[id].nextAttempt, false)
    ensures db.operations[id].nextAttempt <= now
  {
  }

  /** A deferred operation is due again at the time given, as if it had never been claimed. */
  lemma DeferredOperationsComeBack(db: Db, now: Time, claim: OpClaim, at: Time)
    requires DeferOperation(db, now, claim, at).1.Ok? && ClaimFits(db, claim)
    ensures var after := DeferOperation(db, now, claim, at).0;
            DueFrom(after, claim.id, claim.phase, at, false) && after.events == db.events
  {
  }

  /** A retried operation is due again at the time given; it is known to be possibly submitted exactly if the
      retry was uncertain. */
  lemma RetriedOperationsComeBack(db: Db, now: Time, claim: OpClaim, uncertain: bool, at: Time)
    requires RecordRetry(db, now, claim, uncertain, at).1.Ok? && ClaimFits(db, claim)
    ensures var after := RecordRetry(db, now, claim, uncertain, at).0;
            DueFrom(after, claim.id, claim.phase, at, uncertain && !claim.phase.ResultRetrieval?) && after.events == db.events
  {
  }

  /** An accepted operation is due only for its result, which is asked for under the job recorded. */
  lemma AcceptedOperationsAwaitResults(db: Db, now: Time, claim: OpClaim, job: Uuid, at: Time)
    requires RecordAccepted(db, now, claim, job, at).1.Ok?
    ensures var after := RecordAccepted(db, now, claim, job, at).0;
            && DueFrom(after, claim.id, ResultRetrieval, at, false) && after.operations[claim.id].job == Some(job)
            && after.events == db.events
  {
  }

  lemma PendingResultsComeBack(db: Db, now: Time, claim: OpClaim, at: Time)
    requires RecordPendingResult(db, now, claim, at).1.Ok?
    ensures var after := RecordPendingResult(db, now, claim, at).0;
            DueFrom(after, claim.id, ResultRetrieval, at, false) && after.events == db.events
  {
  }

  /** A completed operation is never claimed again; its result is stored and announced, and its request
      is kept until the time given. */
  lemma CompletedOperationsAreOver(db: Db, now: Time, claim: OpClaim, status: OpStatus, result: Option<Json>, expires: Option<Time>)
    requires CompleteOperation(db, now, claim, status, result, expires).1.Ok?
    ensures var (after, event) := CompleteOperation(db, now, claim, status, result, expires);
            var row := after.operations[claim.id];
            && NeverDue(after, claim.id)
            && row.status == status && row.result == result && row.job == db.operations[claim.id].job
            && row.request == db.operations[claim.id].request && (expires.Some? ==> row.requestExpires == expires)
            && after.events == db.events + [event.value]
            && event.value.body == OperationCompleted(claim.id, Kind(row.hash), status)
  {
  }

  /** What a withdrawal reports is what became of its target. */
  lemma WithdrawalsTellTheTruth(db: Db, now: Time, claim: OpClaim, expires: Option<Time>)
    requires CompleteWithdrawal(db, now, claim, expires).1.Ok?
    ensures var (after, withdrawn) := CompleteWithdrawal(db, now, claim, expires); var target := claim.row.hash.target;
            && NeverDue(after, claim.id) && after.operations[claim.id].status.Succeeded?
            && after.operations[claim.id].result == Some(WithdrawnResult(withdrawn.value))
            && (withdrawn.value <==> db.operations[target].status.Pending? && db.operations[target].lease.None?)
            && (withdrawn.value ==> NeverDue(after, target) && after.operations[target].status.Cancelled?)
            && (!withdrawn.value && target != claim.id ==> after.operations[target] == db.operations[target])
  {
  }

  /** A request is dropped exactly if its operation is settled and its time has come, and nothing else is. */
  lemma RequestsAreKeptUntilExpiry(db: Db, now: Time, id: Uuid)
    ensures var (after, deleted) := DeleteExpiredRequest(db, now, id);
            && (deleted <==> id in db.operations && db.operations[id].request.Some? && Terminal(db.operations[id].status)
                             && db.operations[id].requestExpires.Some? && db.operations[id].requestExpires.value <= now)
            && (!deleted ==> after == db)
            && (deleted ==> after == db.(operations := after.operations) && after.operations.Keys == db.operations.Keys
                            && after.operations[id].request.None?
                            && after.operations[id].status == db.operations[id].status
                            && after.operations[id].result == db.operations[id].result
                            && forall other :: other in db.operations && other != id ==>
                                 after.operations[other] == db.operations[other])
  {
  }

  // ---------------------------------------------------------------- events

  /** The session can be claimed from `at` on, for event `i` of the inbox. */
  ghost predicate EventDueFrom(db: Db, i: nat, at: Time) {
    && i < |db.events|
    && forall t, leaseFor ::
         var claim := ClaimNext(db, t, leaseFor).1;
         && (claim.Some? <==> at <= t)
         && (claim.Some? ==> claim.value.event.id == db.events[i].id && claim.value.state == db.session.state)
  }

  ghost predicate EventHeldUntil(db: Db, claim: ClaimedEvent, until: Time) {
    forall t :: ClaimHeld(db, t, claim) <==> t < until
  }

  /** A claimed event is held until the lease runs out, and can then, and not before, be claimed again. */
  lemma EventClaimsAreExclusive(w: World, init: Json, leaseFor: Time)
    requires HandlerInv(w, init) && ClaimNext(w.db, w.now, leaseFor).1.Some? && leaseFor >= 0
    ensures var (after, claim) := ClaimNext(w.db, w.now, leaseFor);
            && EventHeldUntil(after, claim.value, w.now + leaseFor)
            && EventDueFrom(after, |w.commits|, w.now + leaseFor)
  {
    HeadIs(w.db.events, |w.commits|);
    ClaimTakesTheHead(w, init, leaseFor);
    HeadIs(ClaimNext(w.db, w.now, leaseFor).0.events, |w.commits|);
  }

  lemma RenewedEventClaimsHoldOn(w: World, init: Json, claim: ClaimedEvent, leaseFor: Time)
    requires HandlerInv(w, init) && claim in w.claims && ClaimHeld(w.db, w.now, claim) && leaseFor >= 0
    requires |w.commits| < |w.db.events| && w.db.events[|w.commits|].nextAttempt <= w.now
    ensures var after := RenewEvent(w.db, w.now, claim, leaseFor).0;
            && EventHeldUntil(after, claim, w.now + leaseFor)
            && EventDueFrom(after, |w.commits|, w.now + leaseFor)
  {
    HolderOwnsTheHead(w, init, claim);
    HeadIs(w.db.events, |w.commits|);
  }

  /** A failed event is due again at the time given unless it was blocked; then the session is never
      claimed until an operator retries it. */
  lemma FailedEventsComeBack(w: World, init: Json, claim: ClaimedEvent, at: Time, blocked: bool)
    requires HandlerInv(w, init) && claim in w.claims && ClaimHeld(w.db, w.now, claim)
    ensures var after := RecordFailure(w.db, w.now, claim, at, blocked).0;
            if blocked then (forall t, leaseFor :: ClaimNext(after, t, leaseFor).1.None?)
                            && after.session.revision == w.db.session.revision + 1
            else EventDueFrom(after, |w.commits|, at) && after.session.revision == w.db.session.revision
  {
    HolderOwnsTheHead(w, init, claim);
    FailureKeepsHandlerInv(w, init, claim, at, blocked);
    HeadIs(RecordFailure(w.db, w.now, claim, at, blocked).0.events, |w.commits|);
  }

  lemma AbandonedEventsComeBack(w: World, init: Json, claim: ClaimedEvent, at: Time)
    requires HandlerInv(w, init) && claim in w.claims && ClaimHeld(w.db, w.now, claim)
    ensures EventDueFrom(AbandonAttempt(w.db, w.now, claim, at).0, |w.commits|, at)
  {
    HolderOwnsTheHead(w, init, claim);
    AbandonKeepsHandlerInv(w, init, claim, at);
    HeadIs(AbandonAttempt(w.db, w.now, claim, at).0.events, |w.commits|);
  }

  /** An operator retry makes the blocked event due at once. */
  lemma RetriedEventsComeBack(w: World, init: Json, event: Uuid, expected: nat, key: string, request: Json)
    requires HandlerInv(w, init) && key !in w.db.retries
    requires RetryBlocked(w.db, w.now, event, expected, key, request).1.Ok?
    ensures var after := RetryBlocked(w.db, w.now, event, expected, key, request).0;
            EventDueFrom(after, |w.commits|, w.now) && after.events[|w.commits|].id == event
            && RetryBlocked(after, w.now, event, expected, key, request) == (after, Ok(after.retries[key]))
  {
    HeadIs(w.db.events, |w.commits|);
    RetryKeepsHandlerInv(w, init, event, expected, key, request);
    HeadIs(RetryBlocked(w.db, w.now, event, expected, key, request).0.events, |w.commits|);
  }

  /** Once an outcome is committed the next event of the inbox, if there is one, is due. */
  lemma NextEventIsDue(w: World, init: Json, claim: ClaimedEvent, outcome: Outcome)
    requires HandlerInv(w, init) && claim in w.claims && CommitOutcome(w.db, w.now, claim, outcome).1.Ok?
    ensures var after := CommitOutcome(w.db, w.now, claim, outcome).0; var n := |w.commits| + 1;
            if n < |after.events| then EventDueFrom(after, n, after.events[n].nextAttempt)
            else forall t, leaseFor :: ClaimNext(after, t, leaseFor).1.None?
  {
    CommitKeepsHandlerInv(w, init, claim, outcome);
    HeadIs(CommitOutcome(w.db, w.now, claim, outcome).0.events, |w.commits| + 1);
    LaterEventsStayPending(w, init, claim, outcome);
  }

  lemma LaterEventsStayPending(w: World, init: Json, claim: ClaimedEvent, outcome: Outcome)
    requires HandlerInv(w, init) && claim in w.claims && CommitOutcome(w.db, w.now, claim, outcome).1.Ok?
    ensures var events := CommitOutcome(w.db, w.now, claim, outcome).0.events;
            forall i :: |w.commits| < i < |events| ==> events[i].status.EventPending?
  {
    HolderOwnsTheHead(w, init, claim);
    CommitRows(w.db, w.now, claim, outcome);
    var staged := w.db.(operations := InsertOps(w.db.operations, claim.event.id, w.now, outcome.operations).value,
                        waits := InsertWaits(w.db.waits, outcome.waits).value);
    CancelWaitsExtends(staged, w.now, outcome.cancelledWaits);
    var mid := CancelWaits(staged, w.now, outcome.cancelledWaits).value;
    forall i | 0 <= i < |w.db.events| ensures mid.events[i] == w.db.events[i] {
      assert mid.events[i] == mid.events[..|w.db.events|][i];
    }
  }

  /** Input that arrives while nothing is left to handle is due at once. */
  lemma FirstInputIsDue(w: World, init: Json, body: EventBody, key: Option<string>)
    requires HandlerInv(w, init) && |w.commits| == |w.db.events|
    requires EnqueueExternal(w.db, w.now, body, key).0 != w.db
    ensures EventDueFrom(EnqueueExternal(w.db, w.now, body, key).0, |w.commits|, w.now)
  {
    ProducerKeepsHandlerInv(w, init, Enqueue(body, key));
    HeadIs(EnqueueExternal(w.db, w.now, body, key).0.events, |w.commits|);
  }

  // ---------------------------------------------------------------- waits

  /** A reply is taken exactly while the wait is pending, takes replies and has time left; its content is
      stored and the resumption announced. */
  lemma RepliesAreTakenInTime(db: Db, now: Time, id: Uuid, key: string, response: Json)
    requires id in db.waits && !db.waits[id].status.Resolved?
    ensures var (after, result) := ResolveWait(db, now, id, key, response); var wait := db.waits[id];
            && (result.Ok? <==> wait.status.WaitPending? && !wait.mode.ExpirationOnly?
                                && (wait.expires.None? || now < wait.expires.value))
            && (result.Err? ==> after == db && result == Err(WaitNotResolvable))
            && (result.Ok? ==>
                  && result.value.newlyResolved
                  && after.waits == db.waits[id := WaitRow(wait.mode, wait.expires, Resolved, Some(response), Some(key), Some(now))]
                  && after.events == db.events + [result.value.event] && result.value.event.body == WaitResumed(id, Resolved))
  {
  }

  /** A sweep finishes a wait exactly if it is pending and its deadline has come. */
  lemma DeadlinesFinishWaits(db: Db, now: Time, id: Uuid)
    requires id in db.waits
    ensures var (after, result) := ExpireWait(db, now, id); var wait := db.waits[id];
            && result.Ok?
            && (result.value.Some? <==> wait.status.WaitPending? && !wait.mode.ExternalOnly? && wait.expires.Some?
                                        && wait.expires.value <= now)
            && (result.value.None? ==> after == db)
            && (result.value.Some? ==>
                  && after.waits == db.waits[id := wait.(status := Expired, finished := Some(now))]
                  && after.events == db.events + [result.value.value] && result.value.value.body == WaitResumed(id, Expired))
  {
  }
}
