/** Why workers of continuations must make no call after losing their lease: a run that keeps every other
    rule, and a call at its end by a worker that stalled, leave a pending operation with a call in flight. */
module LeaseAssumption {
  import opened Prelude
  import opened StoreModel
  import opened StoreRuns
  import opened Dispatch
  import opened DispatchSafety

  const PARENT: Uuid := 100
  const CHILD: Uuid := 101
  const JOB: Uuid := 77

  const FRESH := LlmFresh("gateway", "question")
  const CONTINUATION := LlmContinuation("gateway", PARENT, "more")
  const OUTCOME := Outcome("state", None, [], [NewOp(PARENT, FRESH), NewOp(CHILD, CONTINUATION)], [], [], [])

  /** A row of one of the two operations; both come from event 0 and are due at once. */
  function Row(request: Request, status: OpStatus, job: Option<Uuid>, lease: Option<Lease>): OpRow {
    OpRow(request, Some(request), None, 0, job, status, None, 0, lease)
  }

  /** The claims of the stalled worker, of the one that defers, of the parent's, and of its result. */
  const STALLED := OpClaim(CHILD, Row(CONTINUATION, Submitting, None, Some(Lease(3, 1))), Submission, 3, false)
  const DEFERRER := OpClaim(CHILD, Row(CONTINUATION, Submitting, None, Some(Lease(4, 6))), Submission, 4, true)
  const SUBMITTER := OpClaim(PARENT, Row(FRESH, Submitting, None, Some(Lease(5, 6))), Submission, 5, false)
  const RETRIEVER := OpClaim(PARENT, Row(FRESH, Accepted, Some(JOB), Some(Lease(6, 6))), ResultRetrieval, 6, false)

  predicate Rows(d: System, now: Time, next: nat, parent: OpRow, child: OpRow) {
    d.w.now == now && d.w.db.nextUuid == next && d.w.db.operations == map[PARENT := parent, CHILD := child]
  }

  predicate WorkerAt(d: System, token: Uuid, claim: OpClaim, stage: Stage) {
    token in d.workers && d.workers[token] == Worker(claim, stage) && claim in d.w.opClaims
  }

  predicate Stalling(d: System) { WorkerAt(d, 3, STALLED, Reading) && 3 !in d.sends }

  // ---------------------------------------------------------------- staging the two operations

  const EVENT := EventRow(0, 1, UserMessage("hello"), None, EventPending, 0, 0)
  const CLAIM := ClaimedEvent(EVENT.(status := Processing), 2, 1, "state", 0, 0)

  const STAGING: seq<Move> :=
    [Elsewhere(Enqueue(UserMessage("hello"), None))] + [Elsewhere(ClaimEvent(10))] + [Elsewhere(CommitAttempt(CLAIM, OUTCOME))]

  lemma BothInserted()
    ensures InsertOps(map[], 0, 0, OUTCOME.operations)
         == Some(map[PARENT := Row(FRESH, Pending, None, None), CHILD := Row(CONTINUATION, Pending, None, None)])
  {
    var ops := OUTCOME.operations;
    assert ops[..1] == [ops[0]] && ops[..1][..0] == [];
    assert InsertOps(map[], 0, 0, ops[..1]) == Some(map[PARENT := Row(FRESH, Pending, None, None)]);
  }

  lemma Claimed()
    ensures var db := EnqueueExternal(NewSession("state"), 0, UserMessage("hello"), None).0;
            var (after, claim) := ClaimNext(db, 0, 10);
            && claim == Some(CLAIM) && after.operations == map[] && after.waits == map[] && after.nextUuid == 3
            && ClaimHeld(after, 0, CLAIM) && after.session.stateVersion == 0
            && AttemptRunningAs(after.attempts, CLAIM)
  {
    var db := EnqueueExternal(NewSession("state"), 0, UserMessage("hello"), None).0;
    assert db.events == [EVENT];
    assert Head(db.events) == Some(EVENT);
    var (after, claim) := ClaimNext(db, 0, 10);
    assert RunningAs(after.attempts[0], CLAIM);
  }

  lemma CommittedOps(db: Db)
    requires ClaimHeld(db, 0, CLAIM) && db.session.stateVersion == 0 && AttemptRunningAs(db.attempts, CLAIM)
    requires db.operations == map[] && db.waits == map[]
    ensures var after := CommitOutcome(db, 0, CLAIM, OUTCOME).0;
            && after.operations
               == map[PARENT := Row(FRESH, Pending, None, None), CHILD := Row(CONTINUATION, Pending, None, None)]
            && after.nextUuid == db.nextUuid
  {
    BothInserted();
  }

  lemma StagedBoth()
    ensures var d := Dispatched(Launch("state"), STAGING);
            Rows(d, 0, 3, Row(FRESH, Pending, None, None), Row(CONTINUATION, Pending, None, None))
            && d.sends == map[] && d.jobs == map[]
  {
    var enqueue, claim, commit := Enqueue(UserMessage("hello"), None), ClaimEvent(10), CommitAttempt(CLAIM, OUTCOME);
    var a := Next(Launch("state"), Elsewhere(enqueue));
    var b := Next(a, Elsewhere(claim));
    OneMove(Launch("state"), Elsewhere(enqueue), []);
    assert [Elsewhere(enqueue)] + [] == [Elsewhere(enqueue)];
    MovesSplit(Launch("state"), [Elsewhere(enqueue)], [Elsewhere(claim)]);
    OneMove(a, Elsewhere(claim), []);
    assert [Elsewhere(claim)] + [] == [Elsewhere(claim)];
    MovesSplit(Launch("state"), [Elsewhere(enqueue)] + [Elsewhere(claim)], [Elsewhere(commit)]);
    OneMove(b, Elsewhere(commit), []);
    assert [Elsewhere(commit)] + [] == [Elsewhere(commit)];
    Claimed();
    CommittedOps(b.w.db);
  }

  // ---------------------------------------------------------------- the child is claimed twice

  lemma StalledPicks(d: System)
    requires Rows(d, 0, 3, Row(FRESH, Pending, None, None), Row(CONTINUATION, Pending, None, None)) && d.sends == map[]
    ensures var after := Next(d, Pick(CHILD, Submission, 1));
            Rows(after, 0, 4, Row(FRESH, Pending, None, None), STALLED.row) && Stalling(after)
            && after.sends == map[] && after.jobs == d.jobs
  {
  }

  lemma LeaseRunsOut(d: System)
    requires Rows(d, 0, 4, Row(FRESH, Pending, None, None), STALLED.row) && Stalling(d)
    ensures var after := Next(d, Elsewhere(Tick(1)));
            Rows(after, 1, 4, Row(FRESH, Pending, None, None), STALLED.row) && Stalling(after)
            && after.sends == d.sends && after.jobs == d.jobs
  {
  }

  lemma DeferrerPicks(d: System)
    requires Rows(d, 1, 4, Row(FRESH, Pending, None, None), STALLED.row) && Stalling(d)
    ensures var after := Next(d, Pick(CHILD, Submission, 5));
            Rows(after, 1, 5, Row(FRESH, Pending, None, None), DEFERRER.row) && Stalling(after)
            && WorkerAt(after, 4, DEFERRER, Reading) && after.sends == d.sends && after.jobs == d.jobs
  {
  }

  lemma DeferrerDecides(d: System)
    requires Rows(d, 1, 5, Row(FRESH, Pending, None, None), DEFERRER.row) && Stalling(d) && WorkerAt(d, 4, DEFERRER, Reading)
    ensures var after := Next(d, Decide(4, false, true));
            Rows(after, 1, 5, Row(FRESH, Pending, None, None), DEFERRER.row) && Stalling(after)
            && WorkerAt(after, 4, DEFERRER, Acting(Defer)) && after.sends == d.sends && after.jobs == d.jobs
  {
  }

  lemma DeferrerActs(d: System)
    requires Rows(d, 1, 5, Row(FRESH, Pending, None, None), DEFERRER.row) && Stalling(d)
    requires WorkerAt(d, 4, DEFERRER, Acting(Defer))
    ensures var after := Next(d, Act(4, 0, None));
            Rows(after, 1, 5, Row(FRESH, Pending, None, None), Row(CONTINUATION, Pending, None, None)) && Stalling(after)
            && after.sends == d.sends && after.jobs == d.jobs
  {
  }

  // ---------------------------------------------------------------- the parent succeeds

  predicate ChildPending(d: System, next: nat, parent: OpRow) {
    Rows(d, 1, next, parent, Row(CONTINUATION, Pending, None, None)) && Stalling(d)
  }

  lemma SubmitterPicks(d: System)
    requires ChildPending(d, 5, Row(FRESH, Pending, None, None)) && d.sends == map[] && d.jobs == map[]
    ensures var after := Next(d, Pick(PARENT, Submission, 5));
            ChildPending(after, 6, SUBMITTER.row) && WorkerAt(after, 5, SUBMITTER, Reading)
            && after.sends == map[] && after.jobs == map[]
  {
  }

  lemma SubmitterDecides(d: System)
    requires ChildPending(d, 6, SUBMITTER.row) && WorkerAt(d, 5, SUBMITTER, Reading) && d.sends == map[] && d.jobs == map[]
    ensures var after := Next(d, Decide(5, false, true));
            ChildPending(after, 6, SUBMITTER.row) && after.sends == map[] && after.jobs == map[]
            && WorkerAt(after, 5, SUBMITTER, Ready("gateway", FreshBody(PARENT, "question")))
  {
  }

  const CALL := Send(PARENT, "gateway", FreshBody(PARENT, "question"), InFlight)

  lemma SubmitterSends(d: System)
    requires ChildPending(d, 6, SUBMITTER.row) && d.sends == map[] && d.jobs == map[]
    requires WorkerAt(d, 5, SUBMITTER, Ready("gateway", FreshBody(PARENT, "question")))
    ensures var after := Next(d, StartSend(5));
            ChildPending(after, 6, SUBMITTER.row) && after.sends == map[5 := CALL] && after.jobs == map[]
            && WorkerAt(after, 5, SUBMITTER, Awaiting)
  {
  }

  lemma GatewayCreates(d: System)
    requires ChildPending(d, 6, SUBMITTER.row) && d.sends == map[5 := CALL] && d.jobs == map[]
    requires WorkerAt(d, 5, SUBMITTER, Awaiting)
    ensures var after := Next(d, Create(5, JOB));
            ChildPending(after, 6, SUBMITTER.row) && WorkerAt(after, 5, SUBMITTER, Awaiting)
            && after.sends == map[5 := CALL.(fate := Created)] && after.jobs == map[PARENT := Job(JOB, 5)]
  {
  }

  lemma GatewayAnswers(d: System)
    requires ChildPending(d, 6, SUBMITTER.row) && WorkerAt(d, 5, SUBMITTER, Awaiting)
    requires d.sends == map[5 := CALL.(fate := Created)] && d.jobs == map[PARENT := Job(JOB, 5)]
    ensures var after := Next(d, Answer(5, Acknowledgement));
            ChildPending(after, 6, SUBMITTER.row) && WorkerAt(after, 5, SUBMITTER, Acting(AcceptJob(JOB)))
  {
  }

  lemma SubmitterActs(d: System)
    requires ChildPending(d, 6, SUBMITTER.row) && WorkerAt(d, 5, SUBMITTER, Acting(AcceptJob(JOB)))
    ensures ChildPending(Next(d, Act(5, 0, None)), 6, Row(FRESH, Accepted, Some(JOB), None))
  {
  }

  lemma RetrieverClaims(d: System)
    requires ChildPending(d, 6, Row(FRESH, Accepted, Some(JOB), None))
    ensures var after := Next(d, Elsewhere(ClaimOp(PARENT, ResultRetrieval, 5)));
            ChildPending(after, 7, RETRIEVER.row) && RETRIEVER in after.w.opClaims
  {
  }

  lemma RetrieverCompletes(d: System)
    requires ChildPending(d, 7, RETRIEVER.row) && RETRIEVER in d.w.opClaims
    ensures ChildPending(Next(d, Elsewhere(CompleteOp(RETRIEVER, Succeeded, None, None))), 8,
                         Row(FRESH, Succeeded, Some(JOB), None))
  {
  }

  // ---------------------------------------------------------------- the stalled worker goes on

  lemma StalledDecides(d: System)
    requires ChildPending(d, 8, Row(FRESH, Succeeded, Some(JOB), None))
    ensures var after := Next(d, Decide(3, false, true));
            Rows(after, 1, 8, Row(FRESH, Succeeded, Some(JOB), None), Row(CONTINUATION, Pending, None, None))
            && WorkerAt(after, 3, STALLED, Ready("gateway", ContinuationBody(CHILD, JOB, "more")))
  {
  }

  /** The moves after staging, in three parts. */
  const CLAIMING: seq<Move> :=
    [Pick(CHILD, Submission, 1), Elsewhere(Tick(1)), Pick(CHILD, Submission, 5), Decide(4, false, true), Act(4, 0, None)]
  const SUBMITTING: seq<Move> :=
    [Pick(PARENT, Submission, 5), Decide(5, false, true), StartSend(5), Create(5, JOB), Answer(5, Acknowledgement), Act(5, 0, None)]
  const FINISHING: seq<Move> :=
    [Elsewhere(ClaimOp(PARENT, ResultRetrieval, 5)), Elsewhere(CompleteOp(RETRIEVER, Succeeded, None, None)), Decide(3, false, true)]

  /** Moves one after another, from the first. */
  lemma FirstMove(d: System, moves: seq<Move>)
    requires moves != []
    ensures Dispatched(d, moves) == Dispatched(Next(d, moves[0]), moves[1..])
  {
    OneMove(d, moves[0], moves[1..]);
    assert moves == [moves[0]] + moves[1..];
  }

  lemma ClaimingEnds(d: System)
    requires Rows(d, 0, 3, Row(FRESH, Pending, None, None), Row(CONTINUATION, Pending, None, None))
    requires d.sends == map[] && d.jobs == map[]
    ensures var after := Dispatched(d, CLAIMING);
            ChildPending(after, 5, Row(FRESH, Pending, None, None)) && after.sends == map[] && after.jobs == map[]
  {
    var m := CLAIMING;
    var d1 := Next(d, m[0]);
    var d2 := Next(d1, m[1]);
    var d3 := Next(d2, m[2]);
    var d4 := Next(d3, m[3]);
    StalledPicks(d);
    LeaseRunsOut(d1);
    DeferrerPicks(d2);
    DeferrerDecides(d3);
    DeferrerActs(d4);
    FirstMove(d, m);
    FirstMove(d1, m[1..]);
    FirstMove(d2, m[2..]);
    FirstMove(d3, m[3..]);
    FirstMove(d4, m[4..]);
  }

  lemma SubmittingEnds(d: System)
    requires ChildPending(d, 5, Row(FRESH, Pending, None, None)) && d.sends == map[] && d.jobs == map[]
    ensures ChildPending(Dispatched(d, SUBMITTING), 6, Row(FRESH, Accepted, Some(JOB), None))
  {
    var m := SUBMITTING;
    var d1 := Next(d, m[0]);
    var d2 := Next(d1, m[1]);
    var d3 := Next(d2, m[2]);
    var d4 := Next(d3, m[3]);
    var d5 := Next(d4, m[4]);
    SubmitterPicks(d);
    SubmitterDecides(d1);
    SubmitterSends(d2);
    GatewayCreates(d3);
    GatewayAnswers(d4);
    SubmitterActs(d5);
    FirstMove(d, m);
    FirstMove(d1, m[1..]);
    FirstMove(d2, m[2..]);
    FirstMove(d3, m[3..]);
    FirstMove(d4, m[4..]);
    FirstMove(d5, m[5..]);
  }

  lemma FinishingEnds(d: System)
    requires ChildPending(d, 6, Row(FRESH, Accepted, Some(JOB), None))
    ensures var after := Dispatched(d, FINISHING);
            Rows(after, 1, 8, Row(FRESH, Succeeded, Some(JOB), None), Row(CONTINUATION, Pending, None, None))
            && WorkerAt(after, 3, STALLED, Ready("gateway", ContinuationBody(CHILD, JOB, "more")))
  {
    var m := FINISHING;
    var d1 := Next(d, m[0]);
    var d2 := Next(d1, m[1]);
    RetrieverClaims(d);
    RetrieverCompletes(d1);
    StalledDecides(d2);
    FirstMove(d, m);
    FirstMove(d1, m[1..]);
    FirstMove(d2, m[2..]);
  }

  /** A worker of a continuation stalls past its lease; another one gives the operation back because the
      parent is unfinished; the parent succeeds, and the stalled worker reads on.  It may not call, and if
      it did, its call would be in flight for an operation that is pending and may still be withdrawn. */
  lemma LateCallBreaksThePromise()
    ensures var d := Dispatched(Launch("state"), STAGING + CLAIMING + SUBMITTING + FINISHING);
            && 3 in d.workers && d.workers[3].stage.Ready? && !MaySend(d, 3)
            && CHILD in d.w.db.operations && d.w.db.operations[CHILD].status.Pending?
            && OpenSend(Sent(d, 3), 3, CHILD) && !Promised(Sent(d, 3), CHILD)
  {
    StagedBoth();
    var staged := Dispatched(Launch("state"), STAGING);
    ClaimingEnds(staged);
    var claimed := Dispatched(staged, CLAIMING);
    SubmittingEnds(claimed);
    FinishingEnds(Dispatched(claimed, SUBMITTING));
    MovesSplit(Launch("state"), STAGING, CLAIMING);
    MovesSplit(Launch("state"), STAGING + CLAIMING, SUBMITTING);
    MovesSplit(Launch("state"), STAGING + CLAIMING + SUBMITTING, FINISHING);
    LateCall(Dispatched(Dispatched(claimed, SUBMITTING), FINISHING));
  }

  lemma LateCall(d: System)
    requires Rows(d, 1, 8, Row(FRESH, Succeeded, Some(JOB), None), Row(CONTINUATION, Pending, None, None))
    requires WorkerAt(d, 3, STALLED, Ready("gateway", ContinuationBody(CHILD, JOB, "more")))
    ensures !MaySend(d, 3) && OpenSend(Sent(d, 3), 3, CHILD) && !Promised(Sent(d, 3), CHILD)
  {
  }
}
