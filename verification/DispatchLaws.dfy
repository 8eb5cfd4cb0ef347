/** What the dispatcher does with every answer, in terms of the rows, and why operations end as failed. */
module DispatchLaws {
  import opened Prelude
  import opened StoreModel
  import opened StoreRuns
  import opened Settlement
  import opened CommitLaws
  import opened Dispatch
  import opened DispatchSafety

  // ---------------------------------------------------------------- a failed call, in row terms

  /** `after` is `before` with one row changed and nothing announced. */
  predicate RowBecomes(before: Db, after: Db, id: Uuid, row: OpRow) {
    after == before.(operations := before.operations[id := row])
  }

  /** `after` is `before` with the operation failed and announced once. */
  predicate FailsAndAnnounces(before: Db, after: Db, id: Uuid) {
    && id in before.operations && id in after.operations
    && after.operations == before.operations[id := after.operations[id]]
    && after.operations[id].status.Failed? && after.operations[id].lease.None? && after.operations[id].result.None?
    && after.operations[id].job == before.operations[id].job && after.operations[id].request == before.operations[id].request
    && Bodies(after.events) == Bodies(before.events) + [OperationCompleted(id, Kind(before.operations[id].hash), Failed)]
  }

  /** What a failed call leaves of an operation held in `Submitting`: a first call that was refused puts it
      back or ends it; anything that may have reached the gateway keeps it uncertain. */
  predicate FailureLeaves(before: Db, after: Db, claim: OpClaim, error: GatewayError, at: Time)
    requires claim.id in before.operations
  {
    var row := before.operations[claim.id];
    if claim.recovering || error.Uncertain? then
      RowBecomes(before, after, claim.id, row.(nextAttempt := at, lease := None))
    else if error.Retryable? then
      RowBecomes(before, after, claim.id, row.(status := Pending, nextAttempt := at, lease := None))
    else FailsAndAnnounces(before, after, claim.id)
  }

  /** Held by its claimant and being submitted or cancelled. */
  predicate HeldForCall(db: Db, now: Time, claim: OpClaim) {
    && OpClaimError(db, now, claim).None? && db.operations[claim.id].status.Submitting?
    && db.operations[claim.id].job.None? && db.operations[claim.id].result.None?
    && (claim.phase.Submission? || claim.phase.Cancellation?)
  }

  lemma RetryLeaves(db: Db, now: Time, claim: OpClaim, uncertain: bool, at: Time)
    requires HeldForCall(db, now, claim)
    ensures var row := db.operations[claim.id];
            RowBecomes(db, RecordRetry(db, now, claim, uncertain, at).0, claim.id,
                       row.(status := if uncertain then Submitting else Pending, nextAttempt := at, lease := None))
  {
  }

  lemma FailingLeaves(db: Db, now: Time, claim: OpClaim, result: Option<Json>, expires: Option<Time>)
    requires HeldForCall(db, now, claim) && result.None?
    ensures FailsAndAnnounces(db, CompleteOperation(db, now, claim, Failed, result, expires).0, claim.id)
  {
  }

  lemma GatewayFailureLeaves(db: Db, now: Time, claim: OpClaim, error: GatewayError, at: Time)
    requires HeldForCall(db, now, claim)
    ensures match GatewayFailure(claim, error)
            case Retry(uncertain) => FailureLeaves(db, RecordRetry(db, now, claim, uncertain, at).0, claim, error, at)
            case Settle(status) => FailureLeaves(db, CompleteOperation(db, now, claim, status, None, Some(at)).0, claim, error, at)
            case _ => false
  {
    RetryLeaves(db, now, claim, true, at);
    RetryLeaves(db, now, claim, false, at);
    FailingLeaves(db, now, claim, None, Some(at));
  }

  /** The rows after a worker wrote its action back. */
  function Performed(db: Db, now: Time, claim: OpClaim, action: Action, at: Time, result: Option<Json>): Db {
    match action
    case Defer => DeferOperation(db, now, claim, at).0
    case Retry(uncertain) => RecordRetry(db, now, claim, uncertain, at).0
    case Settle(status) => CompleteOperation(db, now, claim, status, result, Some(at)).0
    case AcceptJob(job) => RecordAccepted(db, now, claim, job, at).0
    case WithdrawNow => CompleteWithdrawal(db, now, claim, Some(at)).0
  }

  lemma StepPerforms(w: World, claim: OpClaim, action: Action, at: Time, result: Option<Json>)
    requires claim in w.opClaims
    ensures Apply(w, StoreStep(claim, action, at, result)).db == Performed(w.db, w.now, claim, action, at, result)
  {
  }

  lemma ActingApplies(d: System, t: Uuid, at: Time, result: Option<Json>)
    requires t in d.workers && d.workers[t].stage.Acting?
    ensures Next(d, Act(t, at, result)).w == Apply(d.w, StoreStep(d.workers[t].claim, d.workers[t].stage.action, at, result))
  {
  }

  /** A worker whose call, or whose lookup before it, failed, and that writes back while it holds its claim. */
  lemma FailedCallsLeave(d: System, t: Uuid, move: Move, error: GatewayError, at: Time)
    requires move == Answer(t, Failure(error)) || move == LookUp(t, LookupFailed(error))
    requires Possible(d, move) && d.workers[t].claim in d.w.opClaims
    requires HeldForCall(d.w.db, d.w.now, d.workers[t].claim)
    ensures FailureLeaves(d.w.db, Next(Next(d, move), Act(t, at, None)).w.db, d.workers[t].claim, error, at)
  {
    var claim := d.workers[t].claim;
    FailureIsToBeWritten(d, t, move, error);
    StepPerforms(d.w, claim, GatewayFailure(claim, error), at, None);
    ActingApplies(Next(d, move), t, at, None);
    GatewayFailureLeaves(d.w.db, d.w.now, claim, error, at);
  }

  lemma FailureIsToBeWritten(d: System, t: Uuid, move: Move, error: GatewayError)
    requires move == Answer(t, Failure(error)) || move == LookUp(t, LookupFailed(error))
    requires Possible(d, move)
    ensures var mid := Next(d, move);
            && mid.w == d.w && t in mid.workers && mid.workers[t].claim == d.workers[t].claim
            && mid.workers[t].stage == Acting(GatewayFailure(d.workers[t].claim, error))
  {
  }

  /** A worker whose call was acknowledged, or whose job was found, and that writes back while it holds its
      claim: the job is recorded, or the cancellation succeeds. */
  lemma AcknowledgedCallsLeave(d: System, t: Uuid, move: Move, at: Time)
    requires move == Answer(t, Acknowledgement) || move == LookUp(t, Found)
    requires Possible(d, move) && d.workers[t].claim in d.w.opClaims
    requires HeldForCall(d.w.db, d.w.now, d.workers[t].claim) && (move.LookUp? ==> d.workers[t].claim.phase.Submission?)
    ensures var claim := d.workers[t].claim; var after := Next(Next(d, move), Act(t, at, None)).w.db;
            var row := d.w.db.operations[claim.id];
            if claim.phase.Submission? then
              claim.id in d.jobs
              && RowBecomes(d.w.db, after, claim.id,
                            row.(status := Accepted, job := Some(d.jobs[claim.id].id), nextAttempt := at, lease := None))
            else
              && claim.id in after.operations && after.operations[claim.id].status.Succeeded?
              && Bodies(after.events)
                 == Bodies(d.w.db.events) + [OperationCompleted(claim.id, Kind(row.hash), Succeeded)]
  {
  }

  // ---------------------------------------------------------------- decisions, in row terms

  /** The other operation that the request needs: it exists and is a model call, for a continuation on the
      same connection. */
  predicate DependencyFits(operations: map<Uuid, OpRow>, request: Request) {
    match request
    case LlmContinuation(connection, previous, _) =>
      previous in operations && Kind(operations[previous].hash).Llm? && Connection(operations[previous].hash) == Some(connection)
    case CancelLlm(target) => target in operations && Kind(operations[target].hash).Llm?
    case _ => true
  }

  /** The other operation is not far enough for the call, but may still get there. */
  predicate DependencyUnfinished(operations: map<Uuid, OpRow>, request: Request, recovering: bool) {
    match request
    case LlmContinuation(_, previous, _) =>
      previous in operations && (operations[previous].status.Pending? || operations[previous].status.Submitting?
                                 || operations[previous].status.Accepted?)
    case CancelLlm(target) =>
      target in operations
      && (operations[target].status.Pending? || operations[target].status.Submitting?
          || (operations[target].job.None? && (operations[target].status.Accepted? || recovering)))
    case _ => false
  }

  /** There is nothing left to cancel. */
  predicate TargetOver(operations: map<Uuid, OpRow>, request: Request) {
    request.CancelLlm? && request.target in operations && Terminal(operations[request.target].status)
  }

  predicate CallPhase(claim: OpClaim) {
    && claim.row.request == Some(claim.row.hash)
    && match claim.row.hash
       case CancelLlm(_) => claim.phase.Cancellation?
       case WithdrawOp(_) => false
       case _ => claim.phase.Submission?
  }

  /** A worker calls the gateway, or looks the key up first, exactly if its connection is configured, its
      dependency was read, fits and allows the call, and there is something left to do. */
  lemma DecisionCallsIff(operations: map<Uuid, OpRow>, claim: OpClaim, readFails: bool, configured: bool)
    requires CallPhase(claim)
    ensures var stage := Decision(operations, claim, readFails, configured); var request := claim.row.hash;
            && (stage.Ready? || stage.Looking? <==>
                  && configured && (Dependent(request) ==> !readFails) && DependencyFits(operations, request)
                  && Sendable(operations, request) && (TargetOver(operations, request) ==> claim.recovering))
            && (stage.Looking? ==> claim.recovering && claim.phase.Submission?)
            && (stage.Ready? && claim.phase.Submission? ==> !claim.recovering)
  {
  }

  /** What it does otherwise. */
  lemma DecisionOtherwise(operations: map<Uuid, OpRow>, claim: OpClaim, readFails: bool, configured: bool)
    requires CallPhase(claim)
    ensures var stage := Decision(operations, claim, readFails, configured); var request := claim.row.hash;
            && (stage == Acting(Defer) <==>
                  Dependent(request) && !readFails && DependencyFits(operations, request)
                  && DependencyUnfinished(operations, request, claim.recovering))
            && (Dependent(request) && readFails ==> stage == Acting(Retry(claim.recovering)))
            && (stage == Acting(Settle(Succeeded)) <==>
                  !readFails && DependencyFits(operations, request) && TargetOver(operations, request) && !claim.recovering)
            && (stage == Acting(Settle(Failed)) ==>
                  !claim.recovering && (!configured || DependencyUnusable(operations, request)))
  {
  }

  /** The other operation will never allow the call. */
  predicate DependencyUnusable(operations: map<Uuid, OpRow>, request: Request) {
    || !DependencyFits(operations, request)
    || (request.LlmContinuation? && request.previous in operations
        && (operations[request.previous].status.Failed? || operations[request.previous].status.Cancelled?
            || operations[request.previous].status.Unknown?
            || (operations[request.previous].status.Succeeded? && operations[request.previous].job.None?)))
    || (request.CancelLlm? && request.target in operations && Connection(operations[request.target].hash).None?)
  }

  // ---------------------------------------------------------------- every run

  /** The move at which it was decided that the operation fails: a first call was definitely refused, or the
      platform itself can never make it. */
  predicate Dooms(d: System, move: Move, id: Uuid) {
    Possible(d, move)
    && match move
       case Answer(t, reply) =>
         d.workers[t].claim.id == id && !d.workers[t].claim.recovering
         && reply.Failure? && (reply.error.Rejected? || reply.error.InvalidRequest?)
       case Decide(t, _, configured) =>
         d.workers[t].claim.id == id && !d.workers[t].claim.recovering
         && (!configured || DependencyUnusable(d.w.db.operations, d.workers[t].claim.row.hash))
       case _ => false
  }

  predicate Doomed(init: Json, moves: seq<Move>, id: Uuid) {
    exists i :: 0 <= i < |moves| && Dooms(Dispatched(Launch(init), moves[..i]), moves[i], id)
  }

  predicate LookedUp(init: Json, moves: seq<Move>, t: Uuid) {
    exists i :: 0 <= i < |moves| && moves[i] == LookUp(t, NotFound) && Possible(Dispatched(Launch(init), moves[..i]), moves[i])
  }

  predicate Recovers(claim: OpClaim) { claim.recovering && claim.phase.Submission? }

  ghost predicate Traced(init: Json, moves: seq<Move>, d: System) {
    && (forall t :: t in d.workers && d.workers[t].stage == Acting(Settle(Failed)) ==> Doomed(init, moves, d.workers[t].claim.id))
    && (forall t :: t in d.workers && Recovers(d.workers[t].claim) && (d.workers[t].stage.Ready? || t in d.sends) ==>
          LookedUp(init, moves, t))
    && (forall id :: id in d.w.db.operations && d.w.db.operations[id].status.Failed? && d.w.db.operations[id].job.None? ==>
          Doomed(init, moves, id))
  }

  lemma StillDoomed(init: Json, moves: seq<Move>, last: Move)
    ensures forall id :: Doomed(init, moves, id) ==> Doomed(init, moves + [last], id)
    ensures forall id :: Dooms(Dispatched(Launch(init), moves), last, id) ==> Doomed(init, moves + [last], id)
    ensures forall t :: LookedUp(init, moves, t) ==> LookedUp(init, moves + [last], t)
    ensures forall t :: last == LookUp(t, NotFound) && Possible(Dispatched(Launch(init), moves), last) ==>
              LookedUp(init, moves + [last], t)
  {
    var all := moves + [last];
    assert all[..|moves|] == moves && all[|moves|] == last;
    forall id | Doomed(init, moves, id) ensures Doomed(init, all, id) {
      var i :| 0 <= i < |moves| && Dooms(Dispatched(Launch(init), moves[..i]), moves[i], id);
      assert all[..i] == moves[..i] && all[i] == moves[i];
    }
    forall t | LookedUp(init, moves, t) ensures LookedUp(init, all, t) {
      var i :| 0 <= i < |moves| && moves[i] == LookUp(t, NotFound) && Possible(Dispatched(Launch(init), moves[..i]), moves[i]);
      assert all[..i] == moves[..i] && all[i] == moves[i];
    }
  }

  /** Only a completion ends an operation as failed, and a result completes only what has a job. */
  ghost predicate NoNewFailure(a: Db, b: Db) {
    forall id :: id in b.operations && b.operations[id].status.Failed? && b.operations[id].job.None? ==>
      id in a.operations && a.operations[id].status.Failed? && a.operations[id].job.None?
  }

  lemma CommitFailsNothing(db: Db, now: Time, claim: ClaimedEvent, outcome: Outcome)
    ensures NoNewFailure(db, CommitOutcome(db, now, claim, outcome).0)
  {
    if CommitOutcome(db, now, claim, outcome).1.Ok? {
      CommitStoresTheOutcome(db, now, claim, outcome);
      NewRowsArePending(db.operations, CommitOutcome(db, now, claim, outcome).0.operations, outcome.operations,
                        claim.event.id, now);
    }
  }

  lemma RetrievalFailsNothing(db: Db, now: Time, op: OpClaim, status: OpStatus, result: Option<Json>, expires: Option<Time>)
    requires op.phase.ResultRetrieval? && forall id :: id in db.operations ==> RowInv(db.operations[id])
    ensures NoNewFailure(db, CompleteOperation(db, now, op, status, result, expires).0)
  {
    if op.id in db.operations { assert RowInv(db.operations[op.id]); }
  }

  lemma HandlersFailNothing(w: World, step: Step)
    requires HandlerStep(step)
    ensures NoNewFailure(w.db, Apply(w, step).db)
  {
    if step.CommitAttempt? { CommitFailsNothing(w.db, w.now, step.claim, step.outcome); }
  }

  lemma OthersFailNothing(w: World, step: Step)
    requires !HandlerStep(step) && !step.CompleteOp?
    ensures NoNewFailure(w.db, Apply(w, step).db)
  {
  }

  lemma NotDispatchingFailsNothing(w: World, step: Step)
    requires NotDispatching(step) && forall id :: id in w.db.operations ==> RowInv(w.db.operations[id])
    ensures NoNewFailure(w.db, Apply(w, step).db)
  {
    if HandlerStep(step) {
      HandlersFailNothing(w, step);
    } else if step.CompleteOp? {
      RetrievalFailsNothing(w.db, w.now, step.op, step.status, step.result, step.expires);
    } else {
      OthersFailNothing(w, step);
    }
  }

  /** What a worker writes back fails its own operation or none. */
  lemma ActFailsOnlyTheDoomed(w: World, claim: OpClaim, action: Action, at: Time, result: Option<Json>, id: Uuid)
    requires var after := Apply(w, StoreStep(claim, action, at, result)).db;
             id in after.operations && after.operations[id].status.Failed? && after.operations[id].job.None?
    ensures (id in w.db.operations && w.db.operations[id].status.Failed? && w.db.operations[id].job.None?)
            || (id == claim.id && action == Settle(Failed))
  {
    var step := StoreStep(claim, action, at, result);
    if !step.CompleteOp? { OthersFailNothing(w, step); }
  }

  predicate StageMove(move: Move) { move.Decide? || move.LookUp? || move.Answer? }

  /** What such a move touches. */
  lemma StageMoveFrame(d: System, move: Move)
    requires StageMove(move) && Possible(d, move)
    ensures var next := Next(d, move);
            && next.w == d.w && next.sends == d.sends && next.jobs == d.jobs && move.token in next.workers
            && next.workers == d.workers[move.token := d.workers[move.token].(stage := next.workers[move.token].stage)]
  {
  }

  predicate WellStaged(d: System, move: Move)
    requires StageMove(move) && Possible(d, move)
  {
    var claim := d.workers[move.token].claim; var next := Next(d, move);
    move.token in next.workers
    && (next.workers[move.token].stage == Acting(Settle(Failed)) ==> Dooms(d, move, claim.id))
    && (next.workers[move.token].stage.Ready? && Recovers(claim) ==> move == LookUp(move.token, NotFound))
  }

  lemma DecideIsWellStaged(d: System, move: Move)
    requires move.Decide? && Possible(d, move) && CallPhase(d.workers[move.token].claim)
    ensures WellStaged(d, move)
  {
    DecisionOtherwise(d.w.db.operations, d.workers[move.token].claim, move.readFails, move.configured);
    DecisionCallsIff(d.w.db.operations, d.workers[move.token].claim, move.readFails, move.configured);
  }

  lemma WithdrawalsAreWellStaged(d: System, move: Move)
    requires move.Decide? && Possible(d, move) && d.workers[move.token].claim.phase.Withdrawal?
    ensures WellStaged(d, move)
  {
  }

  lemma LookUpIsWellStaged(d: System, move: Move)
    requires move.LookUp? && Possible(d, move) && d.workers[move.token].claim.recovering
    ensures WellStaged(d, move)
  {
  }

  lemma AnswerIsWellStaged(d: System, move: Move)
    requires move.Answer? && Possible(d, move)
    ensures WellStaged(d, move)
  {
  }

  lemma StageMovesAreWellStaged(d: System, move: Move)
    requires Safe(d) && StageMove(move) && Possible(d, move)
    ensures WellStaged(d, move)
  {
    var claim := d.workers[move.token].claim;
    assert WorkerOk(d, move.token);
    match move
    case Decide(_, _, _) =>
      if claim.phase.Withdrawal? { WithdrawalsAreWellStaged(d, move); } else { DecideIsWellStaged(d, move); }
    case LookUp(_, _) => LookUpIsWellStaged(d, move);
    case Answer(_, _) => AnswerIsWellStaged(d, move);
  }

  /** A worker's stage changes, and nothing else. */
  lemma StageMoveIsTraced(init: Json, moves: seq<Move>, d: System, move: Move, next: System)
    requires d == Dispatched(Launch(init), moves) && Traced(init, moves, d) && StageMove(move) && Possible(d, move)
    requires WellStaged(d, move) && next == Next(d, move)
    requires next.w == d.w && next.sends == d.sends && move.token in next.workers
    requires next.workers == d.workers[move.token := d.workers[move.token].(stage := next.workers[move.token].stage)]
    ensures Traced(init, moves + [move], next)
  {
    StillDoomed(init, moves, move);
  }

  lemma PickIsTraced(init: Json, moves: seq<Move>, d: System, id: Uuid, phase: Phase, leaseFor: Time)
    requires d == Dispatched(Launch(init), moves) && Safe(d) && Traced(init, moves, d) && Possible(d, Pick(id, phase, leaseFor))
    ensures Traced(init, moves + [Pick(id, phase, leaseFor)], Next(d, Pick(id, phase, leaseFor)))
  {
    OthersFailNothing(d.w, ClaimOp(id, phase, leaseFor));
    TokensAreNew(d, d.w.db.nextUuid);
    PickFrame(d, id, phase, leaseFor);
    PickedIsTraced(init, moves, d, Pick(id, phase, leaseFor), Next(d, Pick(id, phase, leaseFor)));
  }

  lemma PickFrame(d: System, id: Uuid, phase: Phase, leaseFor: Time)
    requires Possible(d, Pick(id, phase, leaseFor))
    ensures var next := Next(d, Pick(id, phase, leaseFor));
            && next.sends == d.sends && next.w == Apply(d.w, ClaimOp(id, phase, leaseFor))
            && forall t :: t in next.workers && !(t in d.workers && next.workers[t] == d.workers[t]) ==>
                 t == d.w.db.nextUuid && next.workers[t].stage.Reading?
  {
  }

  lemma PickedIsTraced(init: Json, moves: seq<Move>, d: System, move: Move, next: System)
    requires Traced(init, moves, d) && next.sends == d.sends && NoNewFailure(d.w.db, next.w.db)
    requires d.w.db.nextUuid !in d.sends
    requires forall t :: t in next.workers && !(t in d.workers && next.workers[t] == d.workers[t]) ==>
               t == d.w.db.nextUuid && next.workers[t].stage.Reading?
    ensures Traced(init, moves + [move], next)
  {
    StillDoomed(init, moves, move);
  }

  lemma SendIsTraced(init: Json, moves: seq<Move>, d: System, t: Uuid)
    requires d == Dispatched(Launch(init), moves) && Traced(init, moves, d) && Possible(d, StartSend(t))
    ensures Traced(init, moves + [StartSend(t)], Next(d, StartSend(t)))
  {
    StillDoomed(init, moves, StartSend(t));
  }

  lemma ConclusionIsTraced(init: Json, moves: seq<Move>, d: System, move: Move)
    requires d == Dispatched(Launch(init), moves) && Traced(init, moves, d) && Possible(d, move)
    requires move.Create? || move.Refuse?
    ensures Traced(init, moves + [move], Next(d, move))
  {
    StillDoomed(init, moves, move);
  }

  lemma ElsewhereIsTraced(init: Json, moves: seq<Move>, d: System, step: Step)
    requires d == Dispatched(Launch(init), moves) && Safe(d) && Traced(init, moves, d) && NotDispatching(step)
    ensures Traced(init, moves + [Elsewhere(step)], Next(d, Elsewhere(step)))
  {
    StillDoomed(init, moves, Elsewhere(step));
    NotDispatchingFailsNothing(d.w, step);
  }

  lemma ActIsTraced(init: Json, moves: seq<Move>, d: System, t: Uuid, at: Time, result: Option<Json>)
    requires d == Dispatched(Launch(init), moves) && Traced(init, moves, d) && Possible(d, Act(t, at, result))
    ensures Traced(init, moves + [Act(t, at, result)], Next(d, Act(t, at, result)))
  {
    StillDoomed(init, moves, Act(t, at, result));
    var k := d.workers[t];
    var after := Next(d, Act(t, at, result));
    forall id | id in after.w.db.operations && after.w.db.operations[id].status.Failed? && after.w.db.operations[id].job.None?
      ensures Doomed(init, moves + [Act(t, at, result)], id)
    {
      ActFailsOnlyTheDoomed(d.w, k.claim, k.stage.action, at, result, id);
    }
  }

  lemma MoveIsTraced(init: Json, moves: seq<Move>, d: System, move: Move)
    requires d == Dispatched(Launch(init), moves) && Safe(d) && Traced(init, moves, d)
    ensures Traced(init, moves + [move], Next(d, move))
  {
    if !Possible(d, move) {
      StillDoomed(init, moves, move);
    } else {
      match move
      case Elsewhere(step) => ElsewhereIsTraced(init, moves, d, step);
      case Pick(id, phase, leaseFor) => PickIsTraced(init, moves, d, id, phase, leaseFor);
      case StartSend(t) => SendIsTraced(init, moves, d, t);
      case Create(_, _) => ConclusionIsTraced(init, moves, d, move);
      case Refuse(_) => ConclusionIsTraced(init, moves, d, move);
      case Act(t, at, result) => ActIsTraced(init, moves, d, t, at, result);
      case _ =>
        StageMoveFrame(d, move);
        StageMovesAreWellStaged(d, move);
        StageMoveIsTraced(init, moves, d, move, Next(d, move));
    }
  }

  lemma {:induction false} MovesAreTraced(init: Json, moves: seq<Move>)
    ensures Safe(Dispatched(Launch(init), moves)) && Traced(init, moves, Dispatched(Launch(init), moves))
  {
    LaunchIsSafe(init);
    MovesKeepSafe(Launch(init), moves);
    if moves != [] {
      var before := moves[..|moves| - 1];
      MovesAreTraced(init, before);
      MoveIsTraced(init, before, Dispatched(Launch(init), before), moves[|moves| - 1]);
      assert before + [moves[|moves| - 1]] == moves;
    }
  }

  // ---------------------------------------------------------------- main results

  /** In every run an operation that ended as failed without ever having a job was doomed by a definite refusal
      of a first call, or by a request that the platform can never make; never by a refusal that may be
      retried, by an uncertain answer, or while an earlier attempt was uncertain. */
  lemma OperationsFailForAReason(init: Json, moves: seq<Move>, id: Uuid)
    requires var rows := Dispatched(Launch(init), moves).w.db.operations;
             id in rows && rows[id].status.Failed? && rows[id].job.None?
    ensures Doomed(init, moves, id)
  {
    MovesAreTraced(init, moves);
  }

  /** In every run a worker that calls after an uncertain attempt has looked the key up before, and found
      nothing. */
  lemma RecoveriesLookFirst(init: Json, moves: seq<Move>, t: Uuid)
    requires var d := Dispatched(Launch(init), moves); t in d.sends && t in d.workers && Recovers(d.workers[t].claim)
    ensures LookedUp(init, moves, t)
  {
    MovesAreTraced(init, moves);
  }

  /** In every run every call says what the stored request asks for. */
  lemma CallsSayWhatWasAsked(init: Json, moves: seq<Move>, t: Uuid)
    requires t in Dispatched(Launch(init), moves).sends
    ensures var d := Dispatched(Launch(init), moves); var send := d.sends[t]; var rows := d.w.db.operations;
            && send.op in rows
            && match rows[send.op].hash
               case LlmFresh(connection, content) => send.connection == connection && send.body == FreshBody(send.op, content)
               case LlmContinuation(connection, previous, messages) =>
                 && previous in rows && rows[previous].status.Succeeded? && rows[previous].job.Some?
                 && send.connection == connection && send.body == ContinuationBody(send.op, rows[previous].job.value, messages)
               case ExecutionCall(connection, machine, generation, payload) =>
                 send.connection == connection && send.body == ExecutionBody(send.op, machine, generation, payload)
               case CancelLlm(target) =>
                 && target in rows && rows[target].job.Some? && Connection(rows[target].hash) == Some(send.connection)
                 && send.body == CancelBody(rows[target].job.value)
               case WithdrawOp(_) => false
  {
    MovesAreTraced(init, moves);
    assert SendOk(Dispatched(Launch(init), moves), t);
  }
}
