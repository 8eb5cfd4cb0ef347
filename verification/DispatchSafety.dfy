/** What the dispatcher guarantees in every run: an operation that may have reached the gateway is
    never pending or failed for lack of submission, a withdrawn operation never runs, and every
    call for an operation carries the same body. */
module DispatchSafety {
  import opened Prelude
  import opened StoreModel
  import opened StoreRuns
  import opened Settlement
  import opened Dispatch

  // ---------------------------------------------------------------- what may have reached the gateway

  /** A call for `id` that was not definitely refused. */
  predicate OpenSend(d: System, token: Uuid, id: Uuid) {
    token in d.sends && d.sends[token].op == id && !d.sends[token].fate.Refused?
  }

  ghost predicate NoOpenSend(d: System, id: Uuid) { forall t :: t in d.sends ==> !OpenSend(d, t, id) }

  ghost predicate Untouched(d: System, id: Uuid) { NoOpenSend(d, id) && id !in d.jobs }

  /** Pending, or ended without the gateway having acknowledged a job. */
  predicate Unsubmitted(row: OpRow) {
    row.status.Pending? || ((row.status.Failed? || row.status.Cancelled?) && row.job.None?)
  }

  // ---------------------------------------------------------------- the body of a call

  predicate Sendable(operations: map<Uuid, OpRow>, request: Request) {
    match request
    case LlmFresh(_, _) => true
    case ExecutionCall(_, _, _, _) => true
    case LlmContinuation(connection, previous, _) =>
      && previous in operations && operations[previous].status.Succeeded? && operations[previous].job.Some?
    case CancelLlm(target) =>
      && target in operations && operations[target].job.Some? && Connection(operations[target].hash).Some?
      && !operations[target].status.Pending? && !operations[target].status.Submitting?
    case WithdrawOp(_) => false
  }

  function TheConnection(operations: map<Uuid, OpRow>, request: Request): string
    requires Sendable(operations, request)
  {
    if request.CancelLlm? then Connection(operations[request.target].hash).value else Connection(request).value
  }

  /** The one body every call for an operation carries. */
  function TheBody(operations: map<Uuid, OpRow>, id: Uuid, request: Request): Body
    requires Sendable(operations, request)
  {
    match request
    case LlmFresh(_, content) => FreshBody(id, content)
    case ExecutionCall(_, machine, generation, payload) => ExecutionBody(id, machine, generation, payload)
    case LlmContinuation(_, previous, messages) => ContinuationBody(id, operations[previous].job.value, messages)
    case CancelLlm(target) => CancelBody(operations[target].job.value)
  }

  predicate Carries(operations: map<Uuid, OpRow>, id: Uuid, request: Request, connection: string, body: Body) {
    && Sendable(operations, request)
    && connection == TheConnection(operations, request) && body == TheBody(operations, id, request)
  }

  // ---------------------------------------------------------------- the invariant

  predicate Holds(db: Db, claim: OpClaim) {
    claim.id in db.operations && db.operations[claim.id].lease.Some?
    && db.operations[claim.id].lease.value.token == claim.token
  }

  predicate OwnCallRefused(d: System, token: Uuid) { token in d.sends ==> d.sends[token].fate.Refused? }

  ghost predicate ActionOk(d: System, token: Uuid, claim: OpClaim, action: Action) {
    match action
    case Defer => Dependent(claim.row.hash) && (Holds(d.w.db, claim) ==> NoOpenSend(d, claim.id))
    case Retry(uncertain) => !uncertain ==> !claim.recovering && OwnCallRefused(d, token)
    case Settle(status) =>
      if claim.phase.Cancellation? && status.Succeeded? then true
      else status.Failed? && !claim.recovering && OwnCallRefused(d, token)
    case AcceptJob(job) => claim.phase.Submission? && claim.id in d.jobs && d.jobs[claim.id].id == job
    case WithdrawNow => claim.phase.Withdrawal?
  }

  ghost predicate StageOk(d: System, token: Uuid, claim: OpClaim, stage: Stage) {
    match stage
    case Reading => token !in d.sends
    case Looking(connection, body) =>
      && token !in d.sends && claim.recovering && claim.phase.Submission?
      && Carries(d.w.db.operations, claim.id, claim.row.hash, connection, body)
    case Ready(connection, body) =>
      token !in d.sends && Carries(d.w.db.operations, claim.id, claim.row.hash, connection, body)
    case Awaiting => token in d.sends
    case Acting(action) => ActionOk(d, token, claim, action)
    case Finished => true
  }

  ghost predicate WorkerOk(d: System, token: Uuid)
    requires token in d.workers
  {
    var claim := d.workers[token].claim;
    && claim.token == token < d.w.db.nextUuid && claim in d.w.opClaims && ClaimFits(d.w.db, claim)
    && !claim.phase.ResultRetrieval? && claim.row.request == Some(claim.row.hash)
    && StageOk(d, token, claim, d.workers[token].stage)
  }

  predicate SendOk(d: System, token: Uuid)
    requires token in d.sends
  {
    var send := d.sends[token];
    && token in d.workers && d.workers[token].claim.id == send.op && send.op in d.w.db.operations
    && Carries(d.w.db.operations, send.op, d.w.db.operations[send.op].hash, send.connection, send.body)
  }

  predicate JobOk(d: System, id: Uuid)
    requires id in d.jobs
  {
    OpenSend(d, d.jobs[id].origin, id) && d.sends[d.jobs[id].origin].fate.Created?
  }

  ghost predicate OthersDone(d: System, id: Uuid) {
    forall t :: t in d.workers && d.workers[t].claim.id == id ==> d.workers[t].stage.Finished?
  }

  /** The first holder since the operation was last pending is alone. */
  ghost predicate Alone(d: System, token: Uuid, claim: OpClaim) {
    && (forall t :: t in d.sends && t != token ==> !OpenSend(d, t, claim.id))
    && (!Dependent(claim.row.hash) ==>
          forall t :: t in d.workers && t != token && d.workers[t].claim.id == claim.id ==>
            d.workers[t].stage.Finished?)
  }

  ghost predicate OpOk(d: System, id: Uuid)
    requires id in d.w.db.operations
  {
    var row := d.w.db.operations[id];
    && RowInv(row)
    && (Unsubmitted(row) ==> Untouched(d, id) && (!Dependent(row.hash) ==> OthersDone(d, id)))
    && (row.job.Some? ==> id in d.jobs && d.jobs[id].id == row.job.value)
  }

  ghost predicate HolderOk(d: System, token: Uuid)
    requires token in d.workers
  {
    var claim := d.workers[token].claim;
    Holds(d.w.db, claim) && d.w.db.operations[claim.id].status.Submitting? && !claim.recovering ==>
      Alone(d, token, claim)
  }

  /** Workers, calls, jobs and rows agree with each other. */
  ghost predicate Linked(d: System) {
    && (forall t :: t in d.workers ==> WorkerOk(d, t))
    && (forall t :: t in d.workers ==> HolderOk(d, t))
    && (forall t :: t in d.sends ==> SendOk(d, t))
    && (forall id :: id in d.jobs ==> JobOk(d, id))
    && (forall id :: id in d.w.db.operations ==> OpOk(d, id))
  }

  ghost predicate Safe(d: System) { SettlementInv(d.w) && Linked(d) }

  // ---------------------------------------------------------------- steps of everybody else

  predicate LeaseKept(a: OpRow, b: OpRow, bound: nat) {
    b.lease.Some? ==> (a.lease.Some? && a.lease.value.token == b.lease.value.token) || b.lease.value.token >= bound
  }

  /** What others do to a row: only an accepted one changes its status. */
  predicate RowKept(a: OpRow, b: OpRow, bound: nat) {
    && b.hash == a.hash && b.job == a.job && LeaseKept(a, b, bound)
    && (if a.status.Accepted? then b.status.Accepted? || Terminal(b.status) else b.status == a.status)
  }

  ghost predicate TableKept(a: Db, b: Db) {
    && a.nextUuid <= b.nextUuid
    && (forall id :: id in a.operations ==> id in b.operations && RowKept(a.operations[id], b.operations[id], a.nextUuid))
    && (forall id :: id in b.operations && id !in a.operations ==>
          b.operations[id].status.Pending? && b.operations[id].job.None?)
  }

  lemma {:induction false} InsertOpsKeepsTable(operations: map<Uuid, OpRow>, source: Uuid, now: Time, ops: seq<NewOp>)
    requires InsertOps(operations, source, now, ops).Some?
    ensures var after := InsertOps(operations, source, now, ops).value;
            && (forall id :: id in operations ==> id in after && after[id] == operations[id])
            && (forall id :: id in after && id !in operations ==> after[id].status.Pending? && after[id].job.None?)
  {
    if ops != [] { InsertOpsKeepsTable(operations, source, now, ops[..|ops| - 1]); }
  }

  lemma CommitKeepsTable(db: Db, now: Time, claim: ClaimedEvent, outcome: Outcome)
    ensures TableKept(db, CommitOutcome(db, now, claim, outcome).0)
  {
    if CommitOutcome(db, now, claim, outcome).1.Ok? {
      InsertOpsKeepsTable(db.operations, claim.event.id, now, outcome.operations);
      CancelWaitsExtends(db.(operations := InsertOps(db.operations, claim.event.id, now, outcome.operations).value,
                             waits := InsertWaits(db.waits, outcome.waits).value), now, outcome.cancelledWaits);
    }
  }

  lemma HandlersKeepTable(w: World, step: Step)
    requires HandlerStep(step)
    ensures TableKept(w.db, Apply(w, step).db)
  {
    if step.CommitAttempt? { CommitKeepsTable(w.db, w.now, step.claim, step.outcome); }
  }

  lemma ClaimHoldersKeepTable(w: World, step: Step)
    requires SettlementInv(w) && NotDispatching(step)
    requires step.DeferOp? || step.AcceptOp? || step.RenewOp? || step.RetryOp? || step.StillPending?
    ensures TableKept(w.db, Apply(w, step).db)
  {
    if Enabled(w, step) { assert ClaimFits(w.db, step.op); }
  }

  lemma SettlersKeepTable(w: World, step: Step)
    requires NotDispatching(step) && (step.FinishWithdrawal? || step.CompleteOp?)
    ensures TableKept(w.db, Apply(w, step).db)
  {
  }

  lemma ClaimAndDeleteKeepTable(w: World, step: Step)
    requires NotDispatching(step) && (step.ClaimOp? || step.DeleteRequest?)
    ensures TableKept(w.db, Apply(w, step).db)
  {
  }

  lemma InboxStepsKeepTable(w: World, step: Step)
    requires step.Tick? || step.Enqueue? || step.Resolve? || step.Expire?
    ensures TableKept(w.db, Apply(w, step).db)
  {
  }

  lemma OthersKeepTable(w: World, step: Step)
    requires SettlementInv(w) && NotDispatching(step)
    ensures TableKept(w.db, Apply(w, step).db)
  {
    match step
    case Tick(_) => InboxStepsKeepTable(w, step);
    case Enqueue(_, _) => InboxStepsKeepTable(w, step);
    case Resolve(_, _, _) => InboxStepsKeepTable(w, step);
    case Expire(_) => InboxStepsKeepTable(w, step);
    case ClaimOp(_, _, _) => ClaimAndDeleteKeepTable(w, step);
    case DeleteRequest(_) => ClaimAndDeleteKeepTable(w, step);
    case FinishWithdrawal(_, _) => SettlersKeepTable(w, step);
    case CompleteOp(_, _, _, _) => SettlersKeepTable(w, step);
    case DeferOp(_, _) => ClaimHoldersKeepTable(w, step);
    case AcceptOp(_, _, _) => ClaimHoldersKeepTable(w, step);
    case RenewOp(_, _) => ClaimHoldersKeepTable(w, step);
    case RetryOp(_, _, _) => ClaimHoldersKeepTable(w, step);
    case StillPending(_, _) => ClaimHoldersKeepTable(w, step);
    case _ => HandlersKeepTable(w, step);
  }

  lemma ClaimsAreKept(w: World, step: Step)
    ensures w.opClaims <= Apply(w, step).opClaims
  {
  }

  // ---------------------------------------------------------------- a change of the tables

  /** The row lost its holder, and if it is now unsubmitted then nothing reached the gateway. */
  ghost predicate Released(d: System, id: Uuid, a: OpRow, b: OpRow) {
    && b.hash == a.hash && b.lease.None?
    && (Unsubmitted(b) ==> Untouched(d, id) && (!Dependent(b.hash) ==> OthersDone(d, id)))
    && (b.job.Some? ==> id in d.jobs && d.jobs[id].id == b.job.value)
  }

  /** The row was claimed with a token nobody had before. */
  predicate Taken(a: OpRow, b: OpRow, bound: nat) {
    && (a.status.Pending? || a.status.Submitting?) && b.status.Submitting?
    && b.hash == a.hash && b.job == a.job && b.lease.Some? && b.lease.value.token >= bound
  }

  ghost predicate RowChange(d: System, id: Uuid, a: OpRow, b: OpRow) {
    RowInv(b) && OpProgress(a, b)
    && (RowKept(a, b, d.w.db.nextUuid) || Taken(a, b, d.w.db.nextUuid) || Released(d, id, a, b))
  }

  predicate NewRow(row: OpRow) { RowInv(row) && row.status.Pending? && row.job.None? }

  ghost predicate TableChange(d: System, b: Db) {
    var a := d.w.db;
    && a.nextUuid <= b.nextUuid
    && (forall id :: id in a.operations ==> id in b.operations && RowChange(d, id, a.operations[id], b.operations[id]))
    && (forall id :: id in b.operations && id !in a.operations ==> NewRow(b.operations[id]))
  }

  /** Dependencies that allow a call stay so, and the body never changes. */
  lemma BodiesAreFixed(d: System, b: Db, id: Uuid, request: Request)
    requires Linked(d) && TableChange(d, b) && Sendable(d.w.db.operations, request)
    ensures Sendable(b.operations, request)
    ensures TheConnection(b.operations, request) == TheConnection(d.w.db.operations, request)
    ensures TheBody(b.operations, id, request) == TheBody(d.w.db.operations, id, request)
  {
    var a := d.w.db;
    match request
    case LlmContinuation(_, previous, _) => assert RowChange(d, previous, a.operations[previous], b.operations[previous]);
    case CancelLlm(target) => assert RowChange(d, target, a.operations[target], b.operations[target]);
    case _ =>
  }

  /** Nobody gets a lease back. */
  lemma HoldersHeldBefore(d: System, b: Db, t: Uuid)
    requires Linked(d) && TableChange(d, b) && t in d.workers && Holds(b, d.workers[t].claim)
    ensures Holds(d.w.db, d.workers[t].claim)
  {
    var id := d.workers[t].claim.id;
    assert WorkerOk(d, t) && RowChange(d, id, d.w.db.operations[id], b.operations[id]);
  }

  lemma ActionSurvives(d: System, w': World, t: Uuid, action: Action)
    requires Linked(d) && TableChange(d, w'.db) && t in d.workers
    requires ActionOk(d, t, d.workers[t].claim, action)
    ensures ActionOk(d.(w := w'), t, d.workers[t].claim, action)
  {
    var claim := d.workers[t].claim;
    var d' := d.(w := w');
    if action.Defer? && Holds(w'.db, claim) {
      HoldersHeldBefore(d, w'.db, t);
      assert NoOpenSend(d', claim.id);
    }
  }

  lemma StageSurvives(d: System, w': World, t: Uuid)
    requires Linked(d) && TableChange(d, w'.db) && t in d.workers
    ensures StageOk(d.(w := w'), t, d.workers[t].claim, d.workers[t].stage)
  {
    var k := d.workers[t];
    assert WorkerOk(d, t);
    match k.stage
    case Looking(_, _) => BodiesAreFixed(d, w'.db, k.claim.id, k.claim.row.hash);
    case Ready(_, _) => BodiesAreFixed(d, w'.db, k.claim.id, k.claim.row.hash);
    case Acting(action) => ActionSurvives(d, w', t, action);
    case _ =>
  }

  lemma HolderSurvives(d: System, w': World, t: Uuid)
    requires Linked(d) && TableChange(d, w'.db) && t in d.workers
    ensures HolderOk(d.(w := w'), t)
  {
    var k := d.workers[t];
    assert WorkerOk(d, t) && HolderOk(d, t);
    assert RowChange(d, k.claim.id, d.w.db.operations[k.claim.id], w'.db.operations[k.claim.id]);
  }

  lemma SendSurvives(d: System, w': World, t: Uuid)
    requires Linked(d) && TableChange(d, w'.db) && t in d.sends
    ensures SendOk(d.(w := w'), t)
  {
    var send := d.sends[t];
    assert SendOk(d, t);
    assert RowChange(d, send.op, d.w.db.operations[send.op], w'.db.operations[send.op]);
    BodiesAreFixed(d, w'.db, send.op, d.w.db.operations[send.op].hash);
  }

  lemma NewRowIsUntouched(d: System, id: Uuid)
    requires Linked(d) && id !in d.w.db.operations
    ensures Untouched(d, id) && OthersDone(d, id)
  {
    forall t | t in d.sends ensures !OpenSend(d, t, id) { assert SendOk(d, t); }
    forall t | t in d.workers ensures d.workers[t].claim.id != id { assert WorkerOk(d, t); }
    assert id in d.jobs ==> JobOk(d, id);
  }

  lemma OpSurvives(d: System, w': World, id: Uuid)
    requires Linked(d) && TableChange(d, w'.db) && id in w'.db.operations
    ensures OpOk(d.(w := w'), id)
  {
    var d' := d.(w := w');
    if id in d.w.db.operations {
      assert OpOk(d, id) && RowChange(d, id, d.w.db.operations[id], w'.db.operations[id]);
      assert Untouched(d, id) ==> Untouched(d', id);
      assert OthersDone(d, id) ==> OthersDone(d', id);
    } else {
      NewRowIsUntouched(d, id);
      assert Untouched(d', id) && OthersDone(d', id);
    }
  }

  lemma TablesSurvive(d: System, w': World)
    requires Linked(d) && TableChange(d, w'.db) && d.w.opClaims <= w'.opClaims
    ensures Linked(d.(w := w'))
  {
    var d' := d.(w := w');
    forall t | t in d'.workers ensures WorkerOk(d', t) && HolderOk(d', t) {
      assert WorkerOk(d, t);
      assert RowChange(d, d.workers[t].claim.id, d.w.db.operations[d.workers[t].claim.id], w'.db.operations[d.workers[t].claim.id]);
      StageSurvives(d, w', t);
      HolderSurvives(d, w', t);
    }
    forall t | t in d'.sends ensures SendOk(d', t) { SendSurvives(d, w', t); }
    forall id | id in d'.jobs ensures JobOk(d', id) { assert JobOk(d, id); }
    forall id | id in d'.w.db.operations ensures OpOk(d', id) { OpSurvives(d, w', id); }
  }

  lemma ProgressIsTableChange(d: System, b: Db)
    requires Advances(d.w.db, b) && d.w.db.nextUuid <= b.nextUuid
    requires forall id :: id in d.w.db.operations ==>
               id in b.operations
               && (RowKept(d.w.db.operations[id], b.operations[id], d.w.db.nextUuid)
                   || Taken(d.w.db.operations[id], b.operations[id], d.w.db.nextUuid)
                   || Released(d, id, d.w.db.operations[id], b.operations[id]))
    requires forall id :: id in b.operations && id !in d.w.db.operations ==>
               b.operations[id].status.Pending? && b.operations[id].job.None?
    ensures TableChange(d, b)
  {
  }

  lemma OthersKeepLinked(d: System, step: Step)
    requires Safe(d) && NotDispatching(step)
    ensures Linked(d.(w := Apply(d.w, step)))
  {
    StepAdvances(d.w, step);
    OthersKeepTable(d.w, step);
    ClaimsAreKept(d.w, step);
    ProgressIsTableChange(d, Apply(d.w, step).db);
    TablesSurvive(d, Apply(d.w, step));
  }

  // ---------------------------------------------------------------- a worker moves on

  lemma OpIgnoresStage(d: System, t: Uuid, stage: Stage, id: Uuid)
    requires t in d.workers && (!d.workers[t].stage.Finished? || stage.Finished?)
    requires id in d.w.db.operations && OpOk(d, id)
    ensures OpOk(At(d, t, stage), id)
  {
    var d' := At(d, t, stage);
    assert Untouched(d, id) ==> Untouched(d', id);
    if OthersDone(d, id) {
      forall u | u in d'.workers && d'.workers[u].claim.id == id ensures d'.workers[u].stage.Finished? {
        assert u in d.workers && d.workers[u].claim.id == id;
      }
    }
  }

  lemma OthersIgnoreStage(d: System, t: Uuid, stage: Stage, u: Uuid)
    requires t in d.workers && u in d.workers && u != t && WorkerOk(d, u)
    ensures WorkerOk(At(d, t, stage), u)
  {
    var k := d.workers[u];
    var d' := At(d, t, stage);
    assert NoOpenSend(d, k.claim.id) ==> NoOpenSend(d', k.claim.id);
  }

  lemma HoldersIgnoreStage(d: System, t: Uuid, stage: Stage, u: Uuid)
    requires t in d.workers && (!d.workers[t].stage.Finished? || stage.Finished?)
    requires u in d.workers && HolderOk(d, u)
    ensures HolderOk(At(d, t, stage), u)
  {
    var claim := d.workers[u].claim;
    var d' := At(d, t, stage);
    if Alone(d, u, claim) {
      forall v | v in d'.sends && v != u ensures !OpenSend(d', v, claim.id) { assert !OpenSend(d, v, claim.id); }
      assert Alone(d', u, claim);
    }
  }

  lemma StageIgnoresStage(d: System, t: Uuid, stage: Stage)
    requires t in d.workers && WorkerOk(d, t) && StageOk(d, t, d.workers[t].claim, stage)
    ensures WorkerOk(At(d, t, stage), t)
  {
    var d' := At(d, t, stage);
    assert NoOpenSend(d, d.workers[t].claim.id) ==> NoOpenSend(d', d.workers[t].claim.id);
  }

  lemma Restaged(d: System, t: Uuid, stage: Stage)
    requires Linked(d) && t in d.workers && (!d.workers[t].stage.Finished? || stage.Finished?)
    requires StageOk(d, t, d.workers[t].claim, stage)
    ensures Linked(At(d, t, stage))
  {
    var d' := At(d, t, stage);
    forall u | u in d'.workers ensures WorkerOk(d', u) && HolderOk(d', u) {
      assert WorkerOk(d, u) && HolderOk(d, u);
      if u == t { StageIgnoresStage(d, t, stage); } else { OthersIgnoreStage(d, t, stage, u); }
      HoldersIgnoreStage(d, t, stage, u);
    }
    forall u | u in d'.sends ensures SendOk(d', u) { assert SendOk(d, u); }
    forall id | id in d'.jobs ensures JobOk(d', id) { assert JobOk(d, id); }
    forall id | id in d'.w.db.operations ensures OpOk(d', id) { OpIgnoresStage(d, t, stage, id); }
  }

  /** A dependency that makes a worker defer has never allowed a call. */
  lemma DeferredWereNeverSent(d: System, id: Uuid)
    requires Linked(d) && id in d.w.db.operations && !Sendable(d.w.db.operations, d.w.db.operations[id].hash)
    ensures NoOpenSend(d, id)
  {
    forall t | t in d.sends ensures !OpenSend(d, t, id) { assert SendOk(d, t); }
  }

  /** What a decision is, given only the rows. */
  lemma DecisionDefers(operations: map<Uuid, OpRow>, claim: OpClaim, readFails: bool, configured: bool)
    requires claim.row.request == Some(claim.row.hash)
    ensures Decision(operations, claim, readFails, configured) == Acting(Defer) ==>
              Dependent(claim.row.hash) && !Sendable(operations, claim.row.hash)
    ensures var stage := Decision(operations, claim, readFails, configured);
            stage.Looking? || stage.Ready? ==>
              Carries(operations, claim.id, claim.row.hash, stage.connection, stage.body)
              && (stage.Looking? ==> claim.recovering && claim.phase.Submission?)
  {
  }

  /** A worker that decides to give its operation back works for a continuation or a cancellation, and
      nothing that may have reached the gateway was ever sent for it, by anyone. */
  lemma DeferringWasNeverSent(d: System, t: Uuid, readFails: bool, configured: bool)
    requires Linked(d) && t in d.workers
    requires Decision(d.w.db.operations, d.workers[t].claim, readFails, configured) == Acting(Defer)
    ensures Dependent(d.workers[t].claim.row.hash) && NoOpenSend(d, d.workers[t].claim.id)
  {
    var claim := d.workers[t].claim;
    assert WorkerOk(d, t);
    DecisionDefers(d.w.db.operations, claim, readFails, configured);
    DeferredWereNeverSent(d, claim.id);
  }

  lemma DecisionIsOk(d: System, t: Uuid, readFails: bool, configured: bool)
    requires Linked(d) && t in d.workers && d.workers[t].stage.Reading?
    ensures StageOk(d, t, d.workers[t].claim, Decision(d.w.db.operations, d.workers[t].claim, readFails, configured))
  {
    var claim := d.workers[t].claim;
    assert WorkerOk(d, t);
    DecisionDefers(d.w.db.operations, claim, readFails, configured);
    if !Sendable(d.w.db.operations, claim.row.hash) { DeferredWereNeverSent(d, claim.id); }
  }

  lemma AnswerIsOk(d: System, t: Uuid, reply: Reply)
    requires Linked(d) && Possible(d, Answer(t, reply))
    ensures Linked(Next(d, Answer(t, reply)))
  {
    var claim := d.workers[t].claim;
    assert WorkerOk(d, t) && SendOk(d, t);
    match reply
    case Acknowledgement =>
      if claim.phase.Submission? { Restaged(d, t, Acting(AcceptJob(d.jobs[claim.id].id))); }
      else { Restaged(d, t, Acting(Settle(Succeeded))); }
    case Failure(error) => Restaged(d, t, Acting(GatewayFailure(claim, error)));
  }

  lemma LookUpIsOk(d: System, t: Uuid, found: LookupReply)
    requires Linked(d) && Possible(d, LookUp(t, found))
    ensures Linked(Next(d, LookUp(t, found)))
  {
    var k := d.workers[t];
    assert WorkerOk(d, t);
    match found
    case Found => Restaged(d, t, Acting(AcceptJob(d.jobs[k.claim.id].id)));
    case NotFound => Restaged(d, t, Ready(k.stage.connection, k.stage.body));
    case LookupFailed(error) => Restaged(d, t, Acting(GatewayFailure(k.claim, error)));
  }

  // ---------------------------------------------------------------- calls

  /** A worker that may start a call holds its operation or owns it alone. */
  lemma StarterExcludesOthers(d: System, t: Uuid)
    requires Linked(d) && CanStart(d, t)
    ensures var claim := d.workers[t].claim;
            && !Unsubmitted(d.w.db.operations[claim.id])
            && (Dependent(claim.row.hash) ==> Holds(d.w.db, claim))
  {
    var claim := d.workers[t].claim;
    assert WorkerOk(d, t) && OpOk(d, claim.id);
  }

  /** If the operation is unsubmitted then nothing of it has reached the gateway. */
  ghost predicate Promised(d: System, id: Uuid)
    requires id in d.w.db.operations
  {
    Unsubmitted(d.w.db.operations[id]) ==> Untouched(d, id)
  }

  /** Why the timing assumption is needed: sending a call, with or without a lease, keeps the promise
      exactly if the operation is not unsubmitted at that moment; a worker whose operation has no
      dependency always finds it so, any other while it holds its lease. */
  lemma CallsKeepThePromiseIff(d: System, t: Uuid)
    requires Linked(d) && t in d.workers && d.workers[t].stage.Ready?
    ensures var claim := d.workers[t].claim;
            && claim.id in d.w.db.operations
            && (Promised(Sent(d, t), claim.id) <==> !Unsubmitted(d.w.db.operations[claim.id]))
            && (MaySend(d, t) ==> !Unsubmitted(d.w.db.operations[claim.id]))
  {
    var claim := d.workers[t].claim;
    assert WorkerOk(d, t) && OpOk(d, claim.id);
    assert OpenSend(Sent(d, t), t, claim.id);
    if MaySend(d, t) { StarterExcludesOthers(d, t); }
  }

  lemma WorkerAfterStart(d: System, t: Uuid, u: Uuid)
    requires Linked(d) && CanStart(d, t) && u in d.workers
    ensures WorkerOk(Started(d, t), u)
  {
    var d' := Started(d, t);
    assert WorkerOk(d, u) && WorkerOk(d, t);
    StarterExcludesOthers(d, t);
    var k := d.workers[u];
    if u != t && k.stage == Acting(Defer) && Holds(d.w.db, k.claim) {
      forall v | v in d'.sends ensures !OpenSend(d', v, k.claim.id) {
        if v != t { assert !OpenSend(d, v, k.claim.id); }
      }
    }
  }

  lemma HolderAfterStart(d: System, t: Uuid, u: Uuid)
    requires Linked(d) && CanStart(d, t) && u in d.workers
    ensures HolderOk(Started(d, t), u)
  {
    var d' := Started(d, t);
    assert WorkerOk(d, u) && WorkerOk(d, t) && HolderOk(d, u);
    StarterExcludesOthers(d, t);
    var claim := d.workers[u].claim;
    if Alone(d, u, claim) && Holds(d.w.db, claim) {
      forall v | v in d'.sends && v != u ensures !OpenSend(d', v, claim.id) {
        if v != t { assert !OpenSend(d, v, claim.id); }
      }
      assert Alone(d', u, claim);
    }
  }

  lemma OpAfterStart(d: System, t: Uuid, id: Uuid)
    requires Linked(d) && CanStart(d, t) && id in d.w.db.operations
    ensures OpOk(Started(d, t), id)
  {
    var d' := Started(d, t);
    assert OpOk(d, id) && WorkerOk(d, t);
    StarterExcludesOthers(d, t);
    if Unsubmitted(d.w.db.operations[id]) {
      forall v | v in d'.sends ensures !OpenSend(d', v, id) {
        if v != t { assert !OpenSend(d, v, id); }
      }
    }
  }

  lemma StartIsOk(d: System, t: Uuid)
    requires Linked(d) && CanStart(d, t)
    ensures Linked(Started(d, t))
  {
    var d' := Started(d, t);
    assert WorkerOk(d, t);
    forall u | u in d'.workers ensures WorkerOk(d', u) && HolderOk(d', u) {
      WorkerAfterStart(d, t, u);
      HolderAfterStart(d, t, u);
    }
    forall u | u in d'.sends ensures SendOk(d', u) { if u != t { assert SendOk(d, u); } }
    forall id | id in d'.jobs ensures JobOk(d', id) { assert JobOk(d, id); }
    forall id | id in d'.w.db.operations ensures OpOk(d', id) { OpAfterStart(d, t, id); }
  }

  /** The gateway's decision opens no call and forgets no job. */
  lemma ResolvingOpensNothing(d: System, t: Uuid, created: Option<Uuid>)
    requires InFlightAt(d, t)
    ensures var d' := Concluded(d, t, created);
            && d'.sends.Keys == d.sends.Keys
            && (forall u, id :: OpenSend(d', u, id) ==> OpenSend(d, u, id))
            && (forall u :: OwnCallRefused(d, u) ==> OwnCallRefused(d', u))
  {
  }

  lemma ResolvingKeepsJobs(d: System, t: Uuid, created: Option<Uuid>)
    requires InFlightAt(d, t)
    ensures var d' := Concluded(d, t, created);
            && (forall id :: id in d.jobs ==> id in d'.jobs && d'.jobs[id] == d.jobs[id])
            && (forall id :: id in d'.jobs && id !in d.jobs ==> OpenSend(d, t, id))
  {
  }

  lemma WorkerAfterResolving(d: System, t: Uuid, created: Option<Uuid>, u: Uuid)
    requires Linked(d) && InFlightAt(d, t) && u in d.workers
    ensures WorkerOk(Concluded(d, t, created), u)
  {
    var d' := Concluded(d, t, created);
    ResolvingOpensNothing(d, t, created);
    ResolvingKeepsJobs(d, t, created);
    assert WorkerOk(d, u);
    assert NoOpenSend(d, d.workers[u].claim.id) ==> NoOpenSend(d', d.workers[u].claim.id);
  }

  lemma HolderAfterResolving(d: System, t: Uuid, created: Option<Uuid>, u: Uuid)
    requires Linked(d) && InFlightAt(d, t) && u in d.workers
    ensures HolderOk(Concluded(d, t, created), u)
  {
    var d' := Concluded(d, t, created);
    ResolvingOpensNothing(d, t, created);
    assert HolderOk(d, u);
    assert Alone(d, u, d.workers[u].claim) ==> Alone(d', u, d.workers[u].claim);
  }

  lemma OpAfterResolving(d: System, t: Uuid, created: Option<Uuid>, id: Uuid)
    requires Linked(d) && InFlightAt(d, t) && id in d.w.db.operations
    ensures OpOk(Concluded(d, t, created), id)
  {
    var d' := Concluded(d, t, created);
    ResolvingOpensNothing(d, t, created);
    ResolvingKeepsJobs(d, t, created);
    assert OpOk(d, id);
    assert Untouched(d, id) ==> Untouched(d', id);
    assert OthersDone(d, id) ==> OthersDone(d', id);
  }

  lemma ResolvingIsOk(d: System, t: Uuid, created: Option<Uuid>)
    requires Linked(d) && InFlightAt(d, t)
    ensures Linked(Concluded(d, t, created))
  {
    var d' := Concluded(d, t, created);
    forall u | u in d'.workers ensures WorkerOk(d', u) && HolderOk(d', u) {
      WorkerAfterResolving(d, t, created, u);
      HolderAfterResolving(d, t, created, u);
    }
    forall u | u in d'.sends ensures SendOk(d', u) { assert u in d.sends && SendOk(d, u); }
    forall id | id in d'.jobs ensures JobOk(d', id) { assert id in d.jobs ==> JobOk(d, id); }
    forall id | id in d'.w.db.operations ensures OpOk(d', id) { OpAfterResolving(d, t, created, id); }
  }

  // ---------------------------------------------------------------- a new claim

  lemma ClaimedRows(db: Db, now: Time, id: Uuid, phase: Phase, leaseFor: Time)
    requires !phase.ResultRetrieval?
    ensures var after := ClaimOperation(db, now, id, phase, leaseFor).0;
            && db.nextUuid <= after.nextUuid && after.operations.Keys == db.operations.Keys
            && (forall other :: other in db.operations && other != id ==> after.operations[other] == db.operations[other])
            && (id in db.operations ==>
                  after.operations[id] == db.operations[id] || Taken(db.operations[id], after.operations[id], db.nextUuid))
  {
  }

  lemma ClaimChangesTable(d: System, id: Uuid, phase: Phase, leaseFor: Time)
    requires Safe(d) && !phase.ResultRetrieval?
    ensures TableChange(d, ClaimOperation(d.w.db, d.w.now, id, phase, leaseFor).0)
  {
    ClaimedRows(d.w.db, d.w.now, id, phase, leaseFor);
    ClaimAdvances(d.w, id, phase, leaseFor);
    TakenChangesTable(d, id, ClaimOperation(d.w.db, d.w.now, id, phase, leaseFor).0);
  }

  lemma ClaimAdvances(w: World, id: Uuid, phase: Phase, leaseFor: Time)
    requires SettlementInv(w)
    ensures Advances(w.db, ClaimOperation(w.db, w.now, id, phase, leaseFor).0)
  {
    ClaimOrDeleteAdvances(w, ClaimOp(id, phase, leaseFor));
    assert Apply(w, ClaimOp(id, phase, leaseFor)).db == ClaimOperation(w.db, w.now, id, phase, leaseFor).0;
  }

  lemma TakenChangesTable(d: System, id: Uuid, b: Db)
    requires Linked(d) && Advances(d.w.db, b) && d.w.db.nextUuid <= b.nextUuid && b.operations.Keys == d.w.db.operations.Keys
    requires forall other :: other in d.w.db.operations && other != id ==> b.operations[other] == d.w.db.operations[other]
    requires id in d.w.db.operations ==>
               b.operations[id] == d.w.db.operations[id] || Taken(d.w.db.operations[id], b.operations[id], d.w.db.nextUuid)
    ensures TableChange(d, b)
  {
    ProgressIsTableChange(d, b);
  }

  lemma ClaimReturns(db: Db, now: Time, id: Uuid, phase: Phase, leaseFor: Time)
    requires ClaimOperation(db, now, id, phase, leaseFor).1.Some? && !phase.ResultRetrieval?
    requires id in db.operations && RowInv(db.operations[id])
    ensures var (db', claimed) := ClaimOperation(db, now, id, phase, leaseFor); var claim := claimed.value;
            && claim.id == id && claim.phase == phase && claim.token == db.nextUuid < db'.nextUuid
            && claim.row.request == Some(claim.row.hash) && ClaimFits(db', claim)
            && (!claim.recovering ==> Unsubmitted(db.operations[id]))
  {
  }

  lemma UnsubmittedIsAlone(d: System, t: Uuid, claim: OpClaim)
    requires claim.id in d.w.db.operations && OpOk(d, claim.id) && Unsubmitted(d.w.db.operations[claim.id])
    requires claim.row.hash == d.w.db.operations[claim.id].hash
    ensures Alone(d, t, claim)
  {
  }

  lemma TokensAreNew(d: System, t: Uuid)
    requires Linked(d) && t >= d.w.db.nextUuid
    ensures t !in d.workers && t !in d.sends
  {
    assert t in d.workers ==> WorkerOk(d, t);
    assert t in d.sends ==> SendOk(d, t);
  }

  /** A worker joins `d` with a claim that is alone or knows that it is not the first. */
  lemma Joined(d: System, claim: OpClaim)
    requires Linked(d) && claim.token !in d.workers && claim.token !in d.sends
    requires claim.token < d.w.db.nextUuid && claim in d.w.opClaims && ClaimFits(d.w.db, claim)
    requires !claim.phase.ResultRetrieval? && claim.row.request == Some(claim.row.hash)
    requires Holds(d.w.db, claim) && d.w.db.operations[claim.id].status.Submitting?
    requires !claim.recovering ==> Alone(d, claim.token, claim)
    ensures Linked(d.(workers := d.workers[claim.token := Worker(claim, Reading)]))
  {
    var d' := d.(workers := d.workers[claim.token := Worker(claim, Reading)]);
    forall u | u in d'.workers ensures WorkerOk(d', u) && HolderOk(d', u) {
      if u == claim.token { JoinerIsOk(d, claim); } else { OthersIgnoreJoiner(d, claim, u); }
    }
    forall u | u in d'.sends ensures SendOk(d', u) { assert SendOk(d, u); }
    forall id | id in d'.jobs ensures JobOk(d', id) { assert JobOk(d, id); }
    forall id | id in d'.w.db.operations ensures OpOk(d', id) { OpsIgnoreJoiner(d, claim, id); }
  }

  lemma JoinerIsOk(d: System, claim: OpClaim)
    requires Linked(d) && claim.token !in d.workers && claim.token !in d.sends
    requires claim.token < d.w.db.nextUuid && claim in d.w.opClaims && ClaimFits(d.w.db, claim)
    requires !claim.phase.ResultRetrieval? && claim.row.request == Some(claim.row.hash)
    requires !claim.recovering ==> Alone(d, claim.token, claim)
    ensures var d' := d.(workers := d.workers[claim.token := Worker(claim, Reading)]);
            WorkerOk(d', claim.token) && HolderOk(d', claim.token)
  {
    var d' := d.(workers := d.workers[claim.token := Worker(claim, Reading)]);
    assert Alone(d, claim.token, claim) ==> Alone(d', claim.token, claim);
  }

  lemma OthersIgnoreJoiner(d: System, claim: OpClaim, u: Uuid)
    requires Linked(d) && claim.token !in d.workers && u in d.workers
    requires Holds(d.w.db, claim)
    ensures var d' := d.(workers := d.workers[claim.token := Worker(claim, Reading)]);
            WorkerOk(d', u) && HolderOk(d', u)
  {
    var d' := d.(workers := d.workers[claim.token := Worker(claim, Reading)]);
    assert WorkerOk(d, u) && HolderOk(d, u);
    var other := d.workers[u].claim;
    assert NoOpenSend(d, other.id) ==> NoOpenSend(d', other.id);
    if other.id != claim.id { assert Alone(d, u, other) ==> Alone(d', u, other); }
  }

  lemma OpsIgnoreJoiner(d: System, claim: OpClaim, id: Uuid)
    requires Linked(d) && claim.token !in d.workers && id in d.w.db.operations
    requires claim.id in d.w.db.operations && d.w.db.operations[claim.id].status.Submitting?
    ensures OpOk(d.(workers := d.workers[claim.token := Worker(claim, Reading)]), id)
  {
    var d' := d.(workers := d.workers[claim.token := Worker(claim, Reading)]);
    assert OpOk(d, id);
    assert Untouched(d, id) ==> Untouched(d', id);
    if id != claim.id { assert OthersDone(d, id) ==> OthersDone(d', id); }
  }

  lemma PickIsOk(d: System, id: Uuid, phase: Phase, leaseFor: Time)
    requires Safe(d) && !phase.ResultRetrieval?
    ensures Linked(Picked(d, id, phase, leaseFor))
  {
    var (db, claimed) := ClaimOperation(d.w.db, d.w.now, id, phase, leaseFor);
    var w' := Apply(d.w, ClaimOp(id, phase, leaseFor));
    ClaimChangesTable(d, id, phase, leaseFor);
    TablesSurvive(d, w');
    if claimed.Some? {
      assert OpOk(d, id);
      ClaimReturns(d.w.db, d.w.now, id, phase, leaseFor);
      TokensAreNew(d, claimed.value.token);
      if !claimed.value.recovering { UnsubmittedIsAlone(d, claimed.value.token, claimed.value); }
      assert !claimed.value.recovering ==> Alone(d.(w := w'), claimed.value.token, claimed.value);
      Joined(d.(w := w'), claimed.value);
    }
  }

  // ---------------------------------------------------------------- writing back

  /** A worker that finishes leaves everything else as it was. */
  lemma FinishedIsOk(d: System, t: Uuid)
    requires Linked(d) && t in d.workers
    ensures Linked(At(d, t, Finished))
  {
    Restaged(d, t, Finished);
  }

  /** A worker may make its operation unsubmitted only if nothing of it reached the gateway. */
  lemma GivingUpIsSafe(d: System, t: Uuid, action: Action)
    requires Linked(d) && t in d.workers && d.workers[t].stage == Acting(action)
    requires Holds(d.w.db, d.workers[t].claim) && d.w.db.operations[d.workers[t].claim.id].status.Submitting?
    requires action == Defer || action == Retry(false) || (action.Settle? && action.status.Failed?)
    ensures var d' := At(d, t, Finished); var claim := d.workers[t].claim;
            Untouched(d', claim.id) && (!Dependent(claim.row.hash) ==> OthersDone(d', claim.id))
  {
    var d' := At(d, t, Finished);
    var claim := d.workers[t].claim;
    assert WorkerOk(d, t) && HolderOk(d, t);
    assert NoOpenSend(d, claim.id) by {
      if action != Defer { assert Alone(d, t, claim); }
    }
    assert NoOpenSend(d', claim.id);
    assert claim.id in d.jobs ==> JobOk(d, claim.id);
  }

  lemma NothingChanges(d: System)
    requires Linked(d)
    ensures TableChange(d, d.w.db)
  {
    forall id | id in d.w.db.operations ensures RowChange(d, id, d.w.db.operations[id], d.w.db.operations[id]) {
      assert OpOk(d, id);
    }
  }

  /** The holder's row is replaced and loses its lease. */
  lemma HolderWrites(d: System, claim: OpClaim, db: Db)
    requires Linked(d) && Advances(d.w.db, db) && claim.id in d.w.db.operations
    requires db.nextUuid >= d.w.db.nextUuid
    requires db.operations.Keys == d.w.db.operations.Keys
    requires forall id :: id in d.w.db.operations && id != claim.id ==> db.operations[id] == d.w.db.operations[id]
    requires Released(d, claim.id, d.w.db.operations[claim.id], db.operations[claim.id])
    ensures TableChange(d, db)
  {
    ProgressIsTableChange(d, db);
  }

  /** What a holder's write does to its row, if the store takes it. */
  lemma WrittenRow(w: World, claim: OpClaim, action: Action, at: Time, result: Option<Json>)
    requires claim in w.opClaims && !claim.phase.ResultRetrieval? && !action.WithdrawNow?
    ensures var db' := Apply(w, StoreStep(claim, action, at, result)).db;
            Apply(w, StoreStep(claim, action, at, result)).opClaims == w.opClaims
            && (db' != w.db ==>
              && Holds(w.db, claim) && w.db.operations[claim.id].status.Submitting?
              && db'.nextUuid >= w.db.nextUuid && db'.operations.Keys == w.db.operations.Keys
              && (forall id :: id in w.db.operations && id != claim.id ==> db'.operations[id] == w.db.operations[id])
              && var a := w.db.operations[claim.id]; var b := db'.operations[claim.id];
                 b.hash == a.hash && b.lease.None?
                 && (if action.AcceptJob? then b.job == Some(action.job) && b.status.Accepted? else b.job == a.job)
                 && (action.Retry? && action.uncertain ==> b.status.Submitting?)
                 && (action.Settle? ==> b.status == action.status))
  {
  }

  lemma WriteReleases(d: System, t: Uuid, db: Db)
    requires Linked(d) && t in d.workers && d.workers[t].stage.Acting? && !d.workers[t].stage.action.WithdrawNow?
    requires Holds(d.w.db, d.workers[t].claim) && d.w.db.operations[d.workers[t].claim.id].status.Submitting?
    requires d.workers[t].claim.id in db.operations
    requires var a := d.w.db.operations[d.workers[t].claim.id]; var b := db.operations[d.workers[t].claim.id];
             var action := d.workers[t].stage.action;
             b.hash == a.hash && b.lease.None?
             && (if action.AcceptJob? then b.job == Some(action.job) && b.status.Accepted? else b.job == a.job)
             && (action.Retry? && action.uncertain ==> b.status.Submitting?)
             && (action.Settle? ==> b.status == action.status)
    ensures var id := d.workers[t].claim.id; Released(At(d, t, Finished), id, d.w.db.operations[id], db.operations[id])
  {
    var action := d.workers[t].stage.action;
    var id := d.workers[t].claim.id;
    assert WorkerOk(d, t) && OpOk(d, id);
    if action == Defer || action == Retry(false) || (action.Settle? && action.status.Failed?) {
      GivingUpIsSafe(d, t, action);
    }
  }

  lemma WriteIsOk(d: System, t: Uuid, at: Time, result: Option<Json>)
    requires Safe(d) && t in d.workers && d.workers[t].stage.Acting? && !d.workers[t].stage.action.WithdrawNow?
    ensures Linked(Acted(d, t, at, result))
  {
    var k := d.workers[t];
    var step := StoreStep(k.claim, k.stage.action, at, result);
    var d1 := At(d, t, Finished);
    assert WorkerOk(d, t);
    FinishedIsOk(d, t);
    WrittenRow(d.w, k.claim, k.stage.action, at, result);
    var db := Apply(d.w, step).db;
    if db == d.w.db {
      NothingChanges(d1);
    } else {
      StepAdvances(d.w, step);
      WriteReleases(d, t, db);
      HolderWrites(d1, k.claim, db);
    }
    TablesSurvive(d1, Apply(d.w, step));
  }

  /** The rows a completed withdrawal leaves. */
  ghost predicate WithdrawalEffect(a: Db, b: Db, claim: OpClaim, withdrawn: bool, expires: Option<Time>) {
    && claim.row.hash.WithdrawOp? && claim.id in a.operations && claim.row.hash.target in a.operations
    && b.operations.Keys == a.operations.Keys && b.nextUuid >= a.nextUuid
    && var target := claim.row.hash.target;
    && (forall id :: id in a.operations && id != claim.id && id != target ==> b.operations[id] == a.operations[id])
    && b.operations[claim.id] == Settled(a.operations[claim.id], Succeeded, Some(WithdrawnResult(withdrawn)), expires)
    && (target != claim.id ==>
          b.operations[target] == if withdrawn
            then Settled(a.operations[target], Cancelled, a.operations[target].result, expires)
            else a.operations[target])
    && (withdrawn ==> a.operations[target].status.Pending? && target != claim.id)
  }

  lemma WithdrawnRows(db: Db, now: Time, claim: OpClaim, expires: Option<Time>)
    requires CompleteWithdrawal(db, now, claim, expires).1.Ok?
    ensures var (db', withdrawn) := CompleteWithdrawal(db, now, claim, expires);
            WithdrawalEffect(db, db', claim, withdrawn.value, expires)
  {
  }

  lemma EffectChangesTable(d: System, b: Db, claim: OpClaim, withdrawn: bool, expires: Option<Time>)
    requires Linked(d) && Advances(d.w.db, b) && WithdrawalEffect(d.w.db, b, claim, withdrawn, expires)
    ensures TableChange(d, b)
  {
    var a := d.w.db;
    forall id | id in a.operations
      ensures RowKept(a.operations[id], b.operations[id], a.nextUuid) || Released(d, id, a.operations[id], b.operations[id])
    {
      assert OpOk(d, id);
    }
    ProgressIsTableChange(d, b);
  }

  lemma WithdrawalChangesTable(d: System, claim: OpClaim, expires: Option<Time>)
    requires Safe(d)
    ensures TableChange(d, CompleteWithdrawal(d.w.db, d.w.now, claim, expires).0)
  {
    var (db, withdrawn) := CompleteWithdrawal(d.w.db, d.w.now, claim, expires);
    if withdrawn.Err? {
      NothingChanges(d);
    } else {
      WithdrawalAdvances(d.w.db, d.w.now, claim, expires);
      WithdrawnRows(d.w.db, d.w.now, claim, expires);
      EffectChangesTable(d, db, claim, withdrawn.value, expires);
    }
  }

  lemma WithdrawIsOk(d: System, t: Uuid, at: Time, result: Option<Json>)
    requires Safe(d) && t in d.workers && d.workers[t].stage == Acting(WithdrawNow)
    ensures Linked(Acted(d, t, at, result))
  {
    var claim := d.workers[t].claim;
    var d1 := At(d, t, Finished);
    assert WorkerOk(d, t);
    FinishedIsOk(d, t);
    WithdrawalChangesTable(d1, claim, Some(at));
    WithdrawalIsAStep(d.w, claim, Some(at));
    TablesSurvive(d1, Apply(d.w, FinishWithdrawal(claim, Some(at))));
  }

  lemma WithdrawalIsAStep(w: World, claim: OpClaim, expires: Option<Time>)
    requires claim in w.opClaims
    ensures Apply(w, FinishWithdrawal(claim, expires)) == w.(db := CompleteWithdrawal(w.db, w.now, claim, expires).0)
  {
  }

  // ---------------------------------------------------------------- every move

  lemma ActIsOk(d: System, t: Uuid, at: Time, result: Option<Json>)
    requires Safe(d) && t in d.workers && d.workers[t].stage.Acting?
    ensures Linked(Acted(d, t, at, result))
  {
    if d.workers[t].stage.action.WithdrawNow? { WithdrawIsOk(d, t, at, result); } else { WriteIsOk(d, t, at, result); }
  }

  lemma DecideIsOk(d: System, t: Uuid, readFails: bool, configured: bool)
    requires Linked(d) && t in d.workers && d.workers[t].stage.Reading?
    ensures Linked(Next(d, Decide(t, readFails, configured)))
  {
    DecisionIsOk(d, t, readFails, configured);
    Restaged(d, t, Decision(d.w.db.operations, d.workers[t].claim, readFails, configured));
  }

  lemma MoveKeepsLinked(d: System, move: Move)
    requires Safe(d) && Possible(d, move)
    ensures Linked(Next(d, move))
  {
    match move
    case Elsewhere(step) => OthersKeepLinked(d, step);
    case Pick(id, phase, leaseFor) => PickIsOk(d, id, phase, leaseFor);
    case Decide(t, readFails, configured) => DecideIsOk(d, t, readFails, configured);
    case LookUp(t, found) => LookUpIsOk(d, t, found);
    case StartSend(t) => StartIsOk(d, t);
    case Create(t, job) => ResolvingIsOk(d, t, Some(job));
    case Refuse(t) => ResolvingIsOk(d, t, None);
    case Answer(t, reply) => AnswerIsOk(d, t, reply);
    case Act(t, at, result) => ActIsOk(d, t, at, result);
  }

  /** The store takes no step or one step on a move. */
  function StoreMove(d: System, move: Move): Step {
    if !Possible(d, move) then Tick(0)
    else match move
      case Elsewhere(step) => step
      case Pick(id, phase, leaseFor) => ClaimOp(id, phase, leaseFor)
      case Act(t, at, result) => StoreStep(d.workers[t].claim, d.workers[t].stage.action, at, result)
      case _ => Tick(0)
  }

  lemma MovesAreStoreSteps(d: System, move: Move)
    ensures Next(d, move).w == Apply(d.w, StoreMove(d, move))
  {
  }

  lemma MoveKeepsSafe(d: System, move: Move)
    requires Safe(d)
    ensures Safe(Next(d, move)) && Progress(d.w.db, Next(d, move).w.db)
  {
    MovesAreStoreSteps(d, move);
    StepAdvances(d.w, StoreMove(d, move));
    if Possible(d, move) { MoveKeepsLinked(d, move); }
  }

  lemma LaunchIsSafe(init: Json)
    ensures Safe(Launch(init))
  {
    NothingYet(init);
  }

  lemma {:induction false} MovesKeepSafe(d: System, moves: seq<Move>)
    requires Safe(d)
    ensures Safe(Dispatched(d, moves)) && Progress(d.w.db, Dispatched(d, moves).w.db)
  {
    if moves == [] {
      SameRowsAdvance(d.w.db, d.w.db);
    } else {
      var before := Dispatched(d, moves[..|moves| - 1]);
      MovesKeepSafe(d, moves[..|moves| - 1]);
      MoveKeepsSafe(before, moves[|moves| - 1]);
      ProgressTwice(d.w.db, before.w.db, Dispatched(d, moves).w.db);
    }
  }

  lemma {:induction false} MovesSplit(d: System, first: seq<Move>, rest: seq<Move>)
    ensures Dispatched(d, first + rest) == Dispatched(Dispatched(d, first), rest)
  {
    if rest == [] {
      assert first + rest == first;
    } else {
      var n := |rest| - 1;
      assert (first + rest)[..|first| + n] == first + rest[..n];
      MovesSplit(d, first, rest[..n]);
    }
  }

  // ---------------------------------------------------------------- main results

  /** Once a call for an operation may have reached the gateway, or a job exists under its key, the
      operation is never pending again and never ends as unsubmitted; in flight calls count whoever
      made them, including workers that lost their lease long ago. */
  lemma UncertaintyIsNeverDowngraded(init: Json, moves: seq<Move>, id: Uuid, token: Uuid)
    requires var d := Dispatched(Launch(init), moves);
             id in d.w.db.operations && (OpenSend(d, token, id) || id in d.jobs)
    ensures var row := Dispatched(Launch(init), moves).w.db.operations[id];
            !row.status.Pending? && !((row.status.Failed? || row.status.Cancelled?) && row.job.None?)
  {
    LaunchIsSafe(init);
    MovesKeepSafe(Launch(init), moves);
    assert OpOk(Dispatched(Launch(init), moves), id);
  }

  /** A job id the store knows is the one the gateway made for the operation. */
  lemma AcceptedJobsExist(init: Json, moves: seq<Move>, id: Uuid)
    requires var d := Dispatched(Launch(init), moves); id in d.w.db.operations && d.w.db.operations[id].job.Some?
    ensures var d := Dispatched(Launch(init), moves);
            id in d.jobs && d.jobs[id].id == d.w.db.operations[id].job.value
  {
    LaunchIsSafe(init);
    MovesKeepSafe(Launch(init), moves);
    assert OpOk(Dispatched(Launch(init), moves), id);
  }

  /** All calls for one operation, by any workers at any time, go to the same gateway with the same
      key and the same body. */
  lemma ResubmissionsAreIdentical(init: Json, moves: seq<Move>, a: Uuid, b: Uuid)
    requires var d := Dispatched(Launch(init), moves); a in d.sends && b in d.sends && d.sends[a].op == d.sends[b].op
    ensures var d := Dispatched(Launch(init), moves);
            d.sends[a].body == d.sends[b].body && d.sends[a].connection == d.sends[b].connection
  {
    LaunchIsSafe(init);
    MovesKeepSafe(Launch(init), moves);
    var d := Dispatched(Launch(init), moves);
    assert SendOk(d, a) && SendOk(d, b);
  }

  lemma WithdrawnStaysUntouched(d: System, moves: seq<Move>, target: Uuid)
    requires Safe(d) && target in d.w.db.operations
    requires d.w.db.operations[target].status.Cancelled? && d.w.db.operations[target].job.None?
    ensures Untouched(Dispatched(d, moves), target)
  {
    MovesKeepSafe(d, moves);
    assert OpProgress(d.w.db.operations[target], Dispatched(d, moves).w.db.operations[target]);
    assert OpOk(Dispatched(d, moves), target);
  }

  lemma WithdrawnTarget(db: Db, now: Time, claim: OpClaim, at: Time)
    requires CompleteWithdrawal(db, now, claim, Some(at)).1 == Ok(true)
    requires forall id :: id in db.operations ==> RowInv(db.operations[id])
    ensures var operations := CompleteWithdrawal(db, now, claim, Some(at)).0.operations;
            claim.row.hash.WithdrawOp? && claim.row.hash.target in operations
            && operations[claim.row.hash.target].status.Cancelled? && operations[claim.row.hash.target].job.None?
  {
    WithdrawnRows(db, now, claim, Some(at));
  }

  lemma WithdrawingCancelsTheTarget(d: System, token: Uuid, at: Time)
    requires Safe(d) && token in d.workers && d.workers[token].stage == Acting(WithdrawNow)
    requires CompleteWithdrawal(d.w.db, d.w.now, d.workers[token].claim, Some(at)).1 == Ok(true)
    ensures var operations := Acted(d, token, at, None).w.db.operations; var claim := d.workers[token].claim;
            claim.row.hash.WithdrawOp? && claim.row.hash.target in operations
            && operations[claim.row.hash.target].status.Cancelled? && operations[claim.row.hash.target].job.None?
  {
    var claim := d.workers[token].claim;
    assert claim in d.w.opClaims by { assert WorkerOk(d, token); }
    ActedWithdrawal(d, token, at);
    WithdrawnTarget(d.w.db, d.w.now, claim, at);
  }

  lemma ActedWithdrawal(d: System, token: Uuid, at: Time)
    requires token in d.workers && d.workers[token].stage == Acting(WithdrawNow)
    requires d.workers[token].claim in d.w.opClaims
    ensures Acted(d, token, at, None).w.db == CompleteWithdrawal(d.w.db, d.w.now, d.workers[token].claim, Some(at)).0
  {
    WithdrawalIsAStep(d.w, d.workers[token].claim, Some(at));
  }

  lemma OneMove(d: System, move: Move, later: seq<Move>)
    ensures Dispatched(d, [move] + later) == Dispatched(Next(d, move), later)
  {
    MovesSplit(d, [move], later);
    assert [move][..0] == [];
  }

  lemma ActIsAMove(d: System, token: Uuid, at: Time)
    requires token in d.workers && d.workers[token].stage.Acting?
    ensures Next(d, Act(token, at, None)) == Acted(d, token, at, None)
  {
  }

  lemma UntouchedFromNowOn(d: System, token: Uuid, at: Time, later: seq<Move>)
    requires Safe(d) && token in d.workers && d.workers[token].stage == Acting(WithdrawNow)
    requires CompleteWithdrawal(d.w.db, d.w.now, d.workers[token].claim, Some(at)).1 == Ok(true)
    ensures Untouched(Dispatched(d, [Act(token, at, None)] + later), d.workers[token].claim.row.hash.target)
  {
    OneMove(d, Act(token, at, None), later);
    MoveKeepsSafe(d, Act(token, at, None));
    ActIsAMove(d, token, at);
    WithdrawingCancelsTheTarget(d, token, at);
    WithdrawnStaysUntouched(Acted(d, token, at, None), later, d.workers[token].claim.row.hash.target);
  }

  /** If a withdrawal reports `withdrawn: true`, the gateway holds no job for the target, then or at
      any later step, and no call for it is or will be in flight. */
  lemma WithdrawnNeverRuns(init: Json, moves: seq<Move>, token: Uuid, at: Time, later: seq<Move>)
    requires var d := Dispatched(Launch(init), moves);
             && token in d.workers && d.workers[token].stage == Acting(WithdrawNow)
             && CompleteWithdrawal(d.w.db, d.w.now, d.workers[token].claim, Some(at)).1 == Ok(true)
    ensures var d := Dispatched(Launch(init), moves);
            Untouched(Dispatched(Launch(init), moves + ([Act(token, at, None)] + later)),
                      d.workers[token].claim.row.hash.target)
  {
    LaunchIsSafe(init);
    MovesKeepSafe(Launch(init), moves);
    MovesSplit(Launch(init), moves, [Act(token, at, None)] + later);
    UntouchedFromNowOn(Dispatched(Launch(init), moves), token, at, later);
  }
}
