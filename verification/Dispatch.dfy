/** The dispatcher, its workers and the gateway around the store.  A worker reads what it needs,
    decides, calls the gateway and writes back in separate steps, so that any other worker may act
    in between; it may stall for ever at any point and goes on after losing its lease. */
module Dispatch {
  import opened Prelude
  import opened StoreModel
  import opened StoreRuns
  import opened Settlement

  // ---------------------------------------------------------------- calls to the gateway

  datatype Body =
    | FreshBody(key: Uuid, content: Json)
    | ContinuationBody(key: Uuid, previousJob: Uuid, messages: Json)
    | ExecutionBody(key: Uuid, machine: Uuid, generation: Option<Uuid>, payload: Json)
    | CancelBody(job: Uuid)

  datatype Fate = InFlight | Created | Refused

  datatype Send = Send(op: Uuid, connection: string, body: Body, fate: Fate)

  /** `origin` is the call that made the gateway create the job. */
  datatype Job = Job(id: Uuid, origin: Uuid)

  datatype GatewayError = Rejected | Retryable | Uncertain | InvalidRequest

  datatype Reply = Acknowledgement | Failure(error: GatewayError)

  datatype LookupReply = Found | NotFound | LookupFailed(error: GatewayError)

  // ---------------------------------------------------------------- workers

  datatype Action =
    | Defer
    | Retry(uncertain: bool)
    | Settle(status: OpStatus)
    | AcceptJob(job: Uuid)
    | WithdrawNow

  datatype Stage =
    | Reading
    | Looking(connection: string, body: Body)
    | Ready(connection: string, body: Body)
    | Awaiting
    | Acting(action: Action)
    | Finished

  datatype Worker = Worker(claim: OpClaim, stage: Stage)

  /** Workers and their calls are known by the lease token of the claim they work on: a worker
      calls the gateway at most once to submit or cancel. */
  datatype System = System(w: World, workers: map<Uuid, Worker>, sends: map<Uuid, Send>, jobs: map<Uuid, Job>)

  function Launch(init: Json): System { System(Start(init), map[], map[], map[]) }

  // ---------------------------------------------------------------- decisions

  /** `fail_value`: a claim that may follow an earlier call never fails its operation. */
  function FailValue(claim: OpClaim): Action { if claim.recovering then Retry(true) else Settle(Failed) }

  function GatewayFailure(claim: OpClaim, error: GatewayError): Action {
    match error
    case Rejected => if claim.recovering then Retry(true) else Settle(Failed)
    case Retryable => Retry(claim.recovering)
    case Uncertain => Retry(true)
    case InvalidRequest => FailValue(claim)
  }

  datatype Prepared = Submit(connection: string, body: Body) | Instead(action: Action)

  /** `submission_body`; `readFails` says that the dependency could not be read. */
  function SubmissionBody(operations: map<Uuid, OpRow>, claim: OpClaim, request: Request, readFails: bool): Prepared {
    match request
    case LlmFresh(connection, content) => Submit(connection, FreshBody(claim.id, content))
    case LlmContinuation(connection, previous, messages) =>
      if readFails then Instead(Retry(claim.recovering))
      else if previous !in operations then Instead(FailValue(claim))
      else
        var parent := operations[previous];
        if !Kind(parent.hash).Llm? || Connection(parent.hash) != Some(connection) then Instead(FailValue(claim))
        else (match parent.status
              case Pending => Instead(Defer)
              case Submitting => Instead(Defer)
              case Accepted => Instead(Defer)
              case Failed => Instead(FailValue(claim))
              case Cancelled => Instead(FailValue(claim))
              case Unknown => Instead(FailValue(claim))
              case Succeeded =>
                if parent.job.None? then Instead(FailValue(claim))
                else Submit(connection, ContinuationBody(claim.id, parent.job.value, messages)))
    case ExecutionCall(connection, machine, generation, payload) =>
      Submit(connection, ExecutionBody(claim.id, machine, generation, payload))
    case CancelLlm(_) => Instead(FailValue(claim))
    case WithdrawOp(_) => Instead(FailValue(claim))
  }

  /** `submit` up to its first gateway call; `configured` says that the connection names a gateway
      of the right kind. */
  function DecideSubmission(operations: map<Uuid, OpRow>, claim: OpClaim, readFails: bool, configured: bool): Stage {
    if claim.row.request.None? then Acting(FailValue(claim))
    else match SubmissionBody(operations, claim, claim.row.request.value, readFails)
      case Instead(action) => Acting(action)
      case Submit(connection, body) =>
        if !configured then Acting(FailValue(claim))
        else if claim.recovering then Looking(connection, body)
        else Ready(connection, body)
  }

  /** `cancel` up to its gateway call. */
  function DecideCancellation(operations: map<Uuid, OpRow>, claim: OpClaim, readFails: bool, configured: bool): Stage {
    if !claim.row.hash.CancelLlm? then Acting(FailValue(claim))
    else if readFails then Acting(Retry(claim.recovering))
    else if claim.row.hash.target !in operations then Acting(FailValue(claim))
    else
      var target := operations[claim.row.hash.target];
      if !Kind(target.hash).Llm? then Acting(FailValue(claim))
      else if target.status.Pending? || target.status.Submitting? then Acting(Defer)
      else if Terminal(target.status) && !claim.recovering then Acting(Settle(Succeeded))
      else if target.job.None? then Acting(Defer)
      else if Connection(target.hash).None? || !configured then Acting(FailValue(claim))
      else Ready(Connection(target.hash).value, CancelBody(target.job.value))
  }

  function Decision(operations: map<Uuid, OpRow>, claim: OpClaim, readFails: bool, configured: bool): Stage {
    match claim.phase
    case Submission => DecideSubmission(operations, claim, readFails, configured)
    case Cancellation => DecideCancellation(operations, claim, readFails, configured)
    case Withdrawal => Acting(WithdrawNow)
    case ResultRetrieval => Finished
  }

  // ---------------------------------------------------------------- steps

  datatype Move =
    | Elsewhere(step: Step)
    | Pick(id: Uuid, phase: Phase, leaseFor: Time)
    | Decide(token: Uuid, readFails: bool, configured: bool)
    | LookUp(token: Uuid, found: LookupReply)
    | StartSend(token: Uuid)
    | Create(token: Uuid, job: Uuid)
    | Refuse(token: Uuid)
    | Answer(token: Uuid, reply: Reply)
    | Act(token: Uuid, at: Time, result: Option<Json>)

  /** What everybody but the dispatcher may do: handlers, result workers, sweeps, wait replies and
      lease renewals. */
  predicate NotDispatching(step: Step) {
    match step
    case ClaimOp(_, phase, _) => phase.ResultRetrieval?
    case DeferOp(op, _) => op.phase.ResultRetrieval?
    case AcceptOp(op, _, _) => op.phase.ResultRetrieval?
    case RetryOp(op, _, _) => op.phase.ResultRetrieval?
    case FinishWithdrawal(op, _) => op.phase.ResultRetrieval?
    case CompleteOp(op, _, _, _) => op.phase.ResultRetrieval?
    case _ => true
  }

  predicate Dependent(request: Request) { request.LlmContinuation? || request.CancelLlm? }

  /** Workers of operations with a dependency make no call after losing their lease; the others
      may call at any time. */
  predicate MaySend(d: System, token: Uuid)
    requires token in d.workers
  {
    var claim := d.workers[token].claim;
    Dependent(claim.row.hash) ==> OpClaimError(d.w.db, d.w.now, claim).None?
  }

  function StoreStep(claim: OpClaim, action: Action, at: Time, result: Option<Json>): Step {
    match action
    case Defer => DeferOp(claim, at)
    case Retry(uncertain) => RetryOp(claim, uncertain, at)
    case Settle(status) => CompleteOp(claim, status, result, Some(at))
    case AcceptJob(job) => AcceptOp(claim, job, at)
    case WithdrawNow => FinishWithdrawal(claim, Some(at))
  }

  function At(d: System, token: Uuid, stage: Stage): System
    requires token in d.workers
  {
    d.(workers := d.workers[token := d.workers[token].(stage := stage)])
  }

  predicate InFlightAt(d: System, token: Uuid) { token in d.sends && d.sends[token].fate.InFlight? }

  predicate Possible(d: System, move: Move) {
    match move
    case Elsewhere(step) => NotDispatching(step)
    case Pick(_, phase, _) => !phase.ResultRetrieval?
    case Decide(token, _, _) => token in d.workers && d.workers[token].stage.Reading?
    case LookUp(token, found) =>
      && token in d.workers && d.workers[token].stage.Looking?
      && (found.Found? ==> d.workers[token].claim.id in d.jobs)
    case StartSend(token) => CanStart(d, token)
    case Create(token, _) => InFlightAt(d, token)
    case Refuse(token) => InFlightAt(d, token)
    case Answer(token, reply) =>
      && token in d.workers && d.workers[token].stage.Awaiting? && token in d.sends
      && (reply.Acknowledgement? ==> d.sends[token].fate.Created?)
      && (reply.Acknowledgement? && d.workers[token].claim.phase.Submission? ==> d.workers[token].claim.id in d.jobs)
      && (reply.Failure? && !reply.error.Uncertain? ==> d.sends[token].fate.Refused?)
    case Act(token, _, _) => token in d.workers && d.workers[token].stage.Acting?
  }

  predicate CanStart(d: System, token: Uuid) {
    token in d.workers && d.workers[token].stage.Ready? && MaySend(d, token)
  }

  function Picked(d: System, id: Uuid, phase: Phase, leaseFor: Time): System {
    var claimed := ClaimOperation(d.w.db, d.w.now, id, phase, leaseFor).1;
    var d' := d.(w := Apply(d.w, ClaimOp(id, phase, leaseFor)));
    if claimed.None? then d'
    else d'.(workers := d.workers[claimed.value.token := Worker(claimed.value, Reading)])
  }

  /** A worker's call goes out, whether or not it still has its lease. */
  function Sent(d: System, token: Uuid): System
    requires token in d.workers && d.workers[token].stage.Ready?
  {
    var k := d.workers[token];
    At(d, token, Awaiting).(sends := d.sends[token := Send(k.claim.id, k.stage.connection, k.stage.body, InFlight)])
  }

  function Started(d: System, token: Uuid): System
    requires CanStart(d, token)
  {
    Sent(d, token)
  }

  /** The gateway decides a call: a job is created at most once for each key. */
  function Concluded(d: System, token: Uuid, created: Option<Uuid>): System
    requires InFlightAt(d, token)
  {
    var send := d.sends[token];
    d.(sends := d.sends[token := send.(fate := if created.Some? then Created else Refused)],
       jobs := if created.None? || send.body.CancelBody? || send.op in d.jobs then d.jobs
               else d.jobs[send.op := Job(created.value, token)])
  }

  function Acted(d: System, token: Uuid, at: Time, result: Option<Json>): System
    requires token in d.workers && d.workers[token].stage.Acting?
  {
    var k := d.workers[token];
    At(d, token, Finished).(w := Apply(d.w, StoreStep(k.claim, k.stage.action, at, result)))
  }

  function Next(d: System, move: Move): System {
    if !Possible(d, move) then d
    else match move
      case Elsewhere(step) => d.(w := Apply(d.w, step))
      case Pick(id, phase, leaseFor) => Picked(d, id, phase, leaseFor)
      case Decide(token, readFails, configured) =>
        At(d, token, Decision(d.w.db.operations, d.workers[token].claim, readFails, configured))
      case LookUp(token, found) =>
        var k := d.workers[token];
        At(d, token, match found
                     case Found => Acting(AcceptJob(d.jobs[k.claim.id].id))
                     case NotFound => Ready(k.stage.connection, k.stage.body)
                     case LookupFailed(error) => Acting(GatewayFailure(k.claim, error)))
      case StartSend(token) => Started(d, token)
      case Create(token, job) => Concluded(d, token, Some(job))
      case Refuse(token) => Concluded(d, token, None)
      case Answer(token, reply) =>
        var k := d.workers[token];
        At(d, token, match reply
                     case Acknowledgement =>
                       if k.claim.phase.Submission? then Acting(AcceptJob(d.jobs[k.claim.id].id))
                       else Acting(Settle(Succeeded))
                     case Failure(error) => Acting(GatewayFailure(k.claim, error)))
      case Act(token, at, result) => Acted(d, token, at, result)
  }

  function Dispatched(d: System, moves: seq<Move>): System {
    if moves == [] then d else Next(Dispatched(d, moves[..|moves| - 1]), moves[|moves| - 1])
  }
}
