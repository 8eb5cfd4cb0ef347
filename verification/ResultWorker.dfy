/** Fetching results: what a result worker asks the gateway for, and what it records of the answer. */
module ResultRetrievalObject {
  import opened Prelude
  import opened StoreModel
  import opened StoreRuns
  import opened StoreObject
  import opened Settlement
  import opened Dispatch
  import opened DispatchSafety

  // ---------------------------------------------------------------- what the gateway answers

  /** A response that is absent, does not decode as the operation's result type, or does. */
  datatype Payload = Absent | Unreadable | Readable(value: Json)

  datatype JobOutcome =
    | JobPending
    | JobSucceeded(response: Payload)
    | JobFailed(response: Payload)
    | JobCancelled
    | JobUnknown

  /** Where an execution job ran; the generation is not always known. */
  datatype Metadata = Metadata(machine: Uuid, generation: Option<Uuid>)

  datatype GatewayJob = GatewayJob(execution: Option<Metadata>, outcome: JobOutcome)

  datatype JobReply = JobFound(job: GatewayJob) | JobError

  // ---------------------------------------------------------------- what is recorded

  datatype Conclusion = TryAgain | StillRunning | Conclude(status: OpStatus, result: Option<Json>)

  function FailureConclusion(kind: OpKind, response: Payload): Conclusion {
    if !kind.Execution? || response.Absent? then Conclude(Failed, None)
    else if response.Unreadable? then TryAgain
    else Conclude(Failed, Some(response.value))
  }

  function OutcomeConclusion(kind: OpKind, outcome: JobOutcome): Conclusion {
    match outcome
    case JobPending => StillRunning
    case JobSucceeded(response) => if response.Readable? then Conclude(Succeeded, Some(response.value)) else TryAgain
    case JobFailed(response) => FailureConclusion(kind, response)
    case JobCancelled => Conclude(Cancelled, None)
    case JobUnknown => Conclude(Unknown, None)
  }

  /** `validate_execution_identity`: the job ran on the machine, and in no other generation than the one asked for. */
  predicate SameIdentity(job: GatewayJob, machine: Uuid, expected: Option<Uuid>) {
    && job.execution.Some? && job.execution.value.machine == machine
    && (expected.Some? && job.execution.value.generation.Some? ==> expected == job.execution.value.generation)
  }

  /** `execution_request_identity`; `stored` is the request as read back, if it could be. */
  function RequestIdentity(claim: OpClaim, stored: Option<Request>): Option<(Uuid, Option<Uuid>)> {
    if stored.Some? && stored.value.ExecutionCall? && Connection(claim.row.hash) == Some(stored.value.connection)
    then Some((stored.value.machine, stored.value.generation)) else None
  }

  /** `process_result_claim`; `configured` says that the connection names a gateway of the right kind. */
  function ConclusionOf(claim: OpClaim, stored: Option<Request>, configured: bool, reply: JobReply): Conclusion {
    if Connection(claim.row.hash).None? || claim.row.job.None? || !configured then TryAgain
    else
      var kind := Kind(claim.row.hash);
      var identity := RequestIdentity(claim, stored);
      if kind.Execution? && identity.None? then TryAgain
      else if reply.JobError? then TryAgain
      else if kind.Execution? && !SameIdentity(reply.job, identity.value.0, identity.value.1) then TryAgain
      else OutcomeConclusion(kind, reply.job.outcome)
  }

  function Retrieved(db: Db, now: Time, claim: OpClaim, conclusion: Conclusion, at: Time): Db {
    match conclusion
    case TryAgain => RecordRetry(db, now, claim, false, at).0
    case StillRunning => RecordPendingResult(db, now, claim, at).0
    case Conclude(status, result) => CompleteOperation(db, now, claim, status, result, Some(at)).0
  }

  function StoredRequest(operations: map<Uuid, OpRow>, id: Uuid, readFails: bool): Option<Request> {
    if readFails || id !in operations then None else operations[id].request
  }

  class ResultWorker {
    const store: Store

    constructor (shared: Store)
      ensures store == shared
    {
      store := shared;
    }

    method RetryResult(now: Time, claim: OpClaim, at: Time)
      modifies store
      ensures store.View() == RecordRetry(old(store.View()), now, claim, false, at).0
    {
      var _ := store.RecordOperationRetry(now, claim, false, at);
    }

    method CompleteFailure(now: Time, claim: OpClaim, response: Payload, at: Time)
      modifies store
      ensures store.View()
           == Retrieved(old(store.View()), now, claim, FailureConclusion(Kind(claim.row.hash), response), at)
    {
      var result := None;
      if !response.Absent? && Kind(claim.row.hash).Execution? {
        if response.Unreadable? { RetryResult(now, claim, at); return; }
        result := Some(response.value);
      }
      var _ := store.CompleteClaimed(now, claim, Failed, result, Some(at));
    }

    method CompleteSuccess(now: Time, claim: OpClaim, response: Payload, at: Time)
      requires Kind(claim.row.hash).Llm? || Kind(claim.row.hash).Execution?
      modifies store
      ensures store.View()
           == Retrieved(old(store.View()), now, claim,
                        OutcomeConclusion(Kind(claim.row.hash), JobSucceeded(response)), at)
    {
      if response.Readable? {
        var _ := store.CompleteClaimed(now, claim, Succeeded, Some(response.value), Some(at));
      } else {
        RetryResult(now, claim, at);
      }
    }

    method ProcessResultClaim(now: Time, claim: OpClaim, readFails: bool, configured: bool, reply: JobReply, at: Time)
      requires Kind(claim.row.hash).Llm? || Kind(claim.row.hash).Execution?
      modifies store
      ensures var stored := StoredRequest(old(store.operations), claim.id, readFails);
              store.View() == Retrieved(old(store.View()), now, claim, ConclusionOf(claim, stored, configured, reply), at)
    {
      if Connection(claim.row.hash).None? || claim.row.job.None? || !configured { RetryResult(now, claim, at); return; }
      var identity := None;
      if Kind(claim.row.hash).Execution? {
        identity := RequestIdentity(claim, StoredRequest(store.operations, claim.id, readFails));
        if identity.None? { RetryResult(now, claim, at); return; }
      }
      match reply {
        case JobError => RetryResult(now, claim, at);
        case JobFound(job) =>
          if identity.Some? && !SameIdentity(job, identity.value.0, identity.value.1) {
            RetryResult(now, claim, at);
            return;
          }
          match job.outcome {
            case JobPending => var _ := store.RecordOperationPendingResult(now, claim, at);
            case JobSucceeded(response) => CompleteSuccess(now, claim, response, at);
            case JobFailed(response) => CompleteFailure(now, claim, response, at);
            case JobCancelled => var _ := store.CompleteClaimed(now, claim, Cancelled, None, Some(at));
            case JobUnknown => var _ := store.CompleteClaimed(now, claim, Unknown, None, Some(at));
          }
      }
    }
  }

  // ---------------------------------------------------------------- result claims over whole runs

  /** A result claim was handed out for an accepted operation and names its job. */
  ghost predicate ResultClaimOk(db: Db, claim: OpClaim) {
    && claim.id in db.operations && claim.row.hash == db.operations[claim.id].hash
    && claim.row.job.Some? && db.operations[claim.id].job == claim.row.job
    && (db.operations[claim.id].status.Accepted? || Terminal(db.operations[claim.id].status))
  }

  ghost predicate ResultClaimsOk(w: World) {
    forall claim :: claim in w.opClaims && claim.phase.ResultRetrieval? ==> ResultClaimOk(w.db, claim)
  }

  lemma ClaimStillOk(a: Db, b: Db, claim: OpClaim)
    requires ResultClaimOk(a, claim) && Progress(a, b)
    ensures ResultClaimOk(b, claim)
  {
    assert OpProgress(a.operations[claim.id], b.operations[claim.id]);
  }

  lemma NewResultClaim(db: Db, now: Time, id: Uuid, leaseFor: Time)
    requires TablesInv(db) && ClaimOperation(db, now, id, ResultRetrieval, leaseFor).1.Some?
    ensures ResultClaimOk(ClaimOperation(db, now, id, ResultRetrieval, leaseFor).0,
                          ClaimOperation(db, now, id, ResultRetrieval, leaseFor).1.value)
  {
    assert RowInv(db.operations[id]);
  }

  lemma StepKeepsResultClaims(w: World, step: Step)
    requires SettlementInv(w) && ResultClaimsOk(w)
    ensures SettlementInv(Apply(w, step)) && ResultClaimsOk(Apply(w, step))
  {
    StepAdvances(w, step);
    var w' := Apply(w, step);
    forall claim | claim in w'.opClaims && claim.phase.ResultRetrieval? ensures ResultClaimOk(w'.db, claim) {
      if claim in w.opClaims {
        ClaimStillOk(w.db, w'.db, claim);
      } else {
        NewResultClaim(w.db, w.now, step.id, step.leaseFor);
      }
    }
  }

  lemma {:induction false} RunKeepsResultClaims(init: Json, steps: seq<Step>)
    ensures SettlementInv(Run(Start(init), steps)) && ResultClaimsOk(Run(Start(init), steps))
  {
    if steps == [] {
      NothingYet(init);
    } else {
      RunKeepsResultClaims(init, steps[..|steps| - 1]);
      StepKeepsResultClaims(Run(Start(init), steps[..|steps| - 1]), steps[|steps| - 1]);
    }
  }

  // ---------------------------------------------------------------- main results

  /** In every run a result worker has what it needs: its claim names the job and the connection of a
      model call or an execution, and for as long as it holds the lease the operation is accepted and
      its request is stored.  The retries for missing data are never taken by a holder. */
  lemma ResultClaimsAreComplete(init: Json, steps: seq<Step>, claim: OpClaim)
    requires claim in Run(Start(init), steps).opClaims && claim.phase.ResultRetrieval?
    ensures var w := Run(Start(init), steps);
            && claim.row.job.Some? && Connection(claim.row.hash).Some?
            && (Kind(claim.row.hash).Llm? || Kind(claim.row.hash).Execution?)
            && claim.id in w.db.operations && w.db.operations[claim.id].hash == claim.row.hash
            && w.db.operations[claim.id].job == claim.row.job
            && (OpClaimError(w.db, w.now, claim).None? ==>
                  && w.db.operations[claim.id].status.Accepted?
                  && StoredRequest(w.db.operations, claim.id, false) == Some(claim.row.hash)
                  && (Kind(claim.row.hash).Execution? ==>
                        RequestIdentity(claim, w.db.operations[claim.id].request).Some?))
  {
    RunKeepsResultClaims(init, steps);
    var w := Run(Start(init), steps);
    assert ResultClaimOk(w.db, claim) && RowInv(w.db.operations[claim.id]);
  }

  /** The answer settles the operation: the job is final, readable, and of the machine asked for. */
  predicate Final(claim: OpClaim, readFails: bool, configured: bool, reply: JobReply) {
    && configured && reply.JobFound? && !reply.job.outcome.JobPending?
    && (reply.job.outcome.JobSucceeded? ==> reply.job.outcome.response.Readable?)
    && (claim.row.hash.ExecutionCall? ==>
          && !readFails && SameIdentity(reply.job, claim.row.hash.machine, claim.row.hash.generation)
          && (reply.job.outcome.JobFailed? ==> !reply.job.outcome.response.Unreadable?))
  }

  /** The status a final job gives its operation. */
  predicate Matches(outcome: JobOutcome, status: OpStatus) {
    match outcome
    case JobPending => false
    case JobSucceeded(_) => status.Succeeded?
    case JobFailed(_) => status.Failed?
    case JobCancelled => status.Cancelled?
    case JobUnknown => status.Unknown?
  }

  /** The response a final job leaves behind: that of a success, or of an execution that failed. */
  function LeftBy(claim: OpClaim, outcome: JobOutcome): Option<Json> {
    match outcome
    case JobSucceeded(Readable(value)) => Some(value)
    case JobFailed(Readable(value)) => if claim.row.hash.ExecutionCall? then Some(value) else None
    case _ => None
  }

  /** In every run the worker that holds an operation settles it exactly if the answer is final, with
      the job's own status and response and announced once; otherwise the operation stays accepted and is only
      rescheduled.  A worker that lost its lease changes nothing. */
  lemma ResultsAreFaithful(
      init: Json, steps: seq<Step>, claim: OpClaim, readFails: bool, configured: bool, reply: JobReply, at: Time)
    requires claim in Run(Start(init), steps).opClaims && claim.phase.ResultRetrieval?
    ensures var w := Run(Start(init), steps);
            var stored := StoredRequest(w.db.operations, claim.id, readFails);
            var after := Retrieved(w.db, w.now, claim, ConclusionOf(claim, stored, configured, reply), at);
            && claim.id in w.db.operations && claim.id in after.operations
            && (OpClaimError(w.db, w.now, claim).Some? ==> after == w.db)
            && (OpClaimError(w.db, w.now, claim).None? && Final(claim, readFails, configured, reply) ==>
                  && Matches(reply.job.outcome, after.operations[claim.id].status)
                  && after.operations[claim.id].result == LeftBy(claim, reply.job.outcome)
                  && after.operations[claim.id].requestExpires == Some(at)
                  && Bodies(after.events) == Bodies(w.db.events)
                       + [OperationCompleted(claim.id, Kind(claim.row.hash), after.operations[claim.id].status)])
            && (OpClaimError(w.db, w.now, claim).None? && !Final(claim, readFails, configured, reply) ==>
                  after == SetOp(w.db, claim.id, w.db.operations[claim.id].(nextAttempt := at, lease := None))
                  && after.operations[claim.id].status.Accepted?)
  {
    ResultClaimsAreComplete(init, steps, claim);
    var w := Run(Start(init), steps);
    var stored := StoredRequest(w.db.operations, claim.id, readFails);
    if OpClaimError(w.db, w.now, claim).None? { ConclusionIsFinal(claim, stored, readFails, configured, reply); }
    RetrievedIs(w.db, w.now, claim, ConclusionOf(claim, stored, configured, reply), at);
  }

  lemma ConclusionIsFinal(claim: OpClaim, stored: Option<Request>, readFails: bool, configured: bool, reply: JobReply)
    requires claim.row.job.Some? && (Kind(claim.row.hash).Llm? || Kind(claim.row.hash).Execution?)
    requires stored == if readFails then None else Some(claim.row.hash)
    ensures var conclusion := ConclusionOf(claim, stored, configured, reply);
            && (conclusion.Conclude? <==> Final(claim, readFails, configured, reply))
            && (conclusion.Conclude? ==>
                  Matches(reply.job.outcome, conclusion.status) && conclusion.result == LeftBy(claim, reply.job.outcome))
  {
  }

  lemma RetrievedIs(db: Db, now: Time, claim: OpClaim, conclusion: Conclusion, at: Time)
    requires claim.phase.ResultRetrieval? && claim.id in db.operations && claim.row.hash == db.operations[claim.id].hash
    requires conclusion.Conclude? ==> Terminal(conclusion.status)
    requires OpClaimError(db, now, claim).None? ==> db.operations[claim.id].status.Accepted?
    ensures var after := Retrieved(db, now, claim, conclusion, at);
            && claim.id in after.operations
            && (OpClaimError(db, now, claim).Some? ==> after == db)
            && (OpClaimError(db, now, claim).None? && conclusion.Conclude? ==>
                  && after.operations[claim.id].status == conclusion.status
                  && after.operations[claim.id].result == conclusion.result
                  && after.operations[claim.id].requestExpires == Some(at)
                  && Bodies(after.events)
                     == Bodies(db.events) + [OperationCompleted(claim.id, Kind(claim.row.hash), conclusion.status)])
            && (OpClaimError(db, now, claim).None? && !conclusion.Conclude? ==>
                  after == SetOp(db, claim.id, db.operations[claim.id].(nextAttempt := at, lease := None)))
  {
  }

  lemma {:induction false} MovesKeepResultClaims(init: Json, moves: seq<Move>)
    ensures SettlementInv(Dispatched(Launch(init), moves).w) && ResultClaimsOk(Dispatched(Launch(init), moves).w)
  {
    if moves == [] {
      NothingYet(init);
    } else {
      var d := Dispatched(Launch(init), moves[..|moves| - 1]);
      MovesKeepResultClaims(init, moves[..|moves| - 1]);
      MoveKeepsResultClaims(d, moves[|moves| - 1]);
    }
  }

  lemma MoveKeepsResultClaims(d: System, move: Move)
    requires SettlementInv(d.w) && ResultClaimsOk(d.w)
    ensures SettlementInv(Next(d, move).w) && ResultClaimsOk(Next(d, move).w)
  {
    if Possible(d, move) {
      match move
      case Elsewhere(step) => StepKeepsResultClaims(d.w, step);
      case Pick(id, phase, leaseFor) => StepKeepsResultClaims(d.w, ClaimOp(id, phase, leaseFor));
      case Act(token, at, result) =>
        var k := d.workers[token];
        StepKeepsResultClaims(d.w, StoreStep(k.claim, k.stage.action, at, result));
      case _ =>
    }
  }

  /** The job a result worker asks for is the one the gateway made for the operation. */
  lemma AskedJobIsTheOperationsOwn(init: Json, moves: seq<Move>, claim: OpClaim)
    requires claim in Dispatched(Launch(init), moves).w.opClaims && claim.phase.ResultRetrieval?
    ensures var d := Dispatched(Launch(init), moves);
            claim.id in d.jobs && claim.row.job == Some(d.jobs[claim.id].id)
  {
    MovesKeepResultClaims(init, moves);
    var d := Dispatched(Launch(init), moves);
    assert ResultClaimOk(d.w.db, claim);
    AcceptedJobsExist(init, moves, claim.id);
  }
}
