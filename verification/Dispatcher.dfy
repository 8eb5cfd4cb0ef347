/** The dispatcher's own methods over the store object.  One call of a method is one schedule of the
    moves in `Dispatch`: a worker that reads, calls the gateway and writes back with nobody in between. */
module DispatcherObject {
  import opened Prelude
  import opened StoreModel
  import opened StoreRuns
  import opened StoreObject
  import opened Dispatch
  import opened DispatchSafety
  import opened DispatchLaws

  /** Writing back is the store's step of the corresponding move. */
  lemma WritingBackIsAMove(d: System, token: Uuid, at: Time, result: Option<Json>)
    requires token in d.workers && d.workers[token].stage.Acting? && d.workers[token].claim in d.w.opClaims
    ensures Next(d, Act(token, at, result)).w.db
         == Performed(d.w.db, d.w.now, d.workers[token].claim, d.workers[token].stage.action, at, result)
  {
    StepPerforms(d.w, d.workers[token].claim, d.workers[token].stage.action, at, result);
    ActingApplies(d, token, at, result);
  }

  /** What a worker meets: whether its dependency can be read, whether its connection names a gateway of
      the right kind, and what the gateway answers to a lookup and to the call; `job` is the id it gives. */
  datatype Setting = Setting(readFails: bool, configured: bool, lookup: LookupReply, reply: Reply, job: Uuid)

  function Answered(claim: OpClaim, setting: Setting): Action {
    match setting.reply
    case Acknowledgement => if claim.phase.Submission? then AcceptJob(setting.job) else Settle(Succeeded)
    case Failure(error) => GatewayFailure(claim, error)
  }

  /** What a worker that decided on `stage` finally writes back. */
  function FinalAction(claim: OpClaim, stage: Stage, setting: Setting): Action {
    if stage.Acting? then stage.action
    else if stage.Looking? && setting.lookup.Found? then AcceptJob(setting.job)
    else if stage.Looking? && setting.lookup.LookupFailed? then GatewayFailure(claim, setting.lookup.error)
    else Answered(claim, setting)
  }

  class Dispatcher {
    const store: Store

    constructor (shared: Store)
      ensures store == shared
    {
      store := shared;
    }

    /** A failure of the store to take the write is only logged. */
    method WriteBack(now: Time, claim: OpClaim, action: Action, at: Time, outcome: Option<Json>)
      modifies store
      ensures store.View() == Performed(old(store.View()), now, claim, action, at, outcome)
    {
      match action {
        case Defer => var _ := store.DeferClaimed(now, claim, at);
        case Retry(uncertain) => var _ := store.RecordOperationRetry(now, claim, uncertain, at);
        case Settle(status) => var _ := store.CompleteClaimed(now, claim, status, outcome, Some(at));
        case AcceptJob(job) => var _ := store.RecordOperationAccepted(now, claim, job, at);
        case WithdrawNow => var _ := store.CompleteWithdrawalFor(now, claim, Some(at));
      }
    }

    method FailValueOf(now: Time, claim: OpClaim, at: Time)
      modifies store
      ensures store.View() == Performed(old(store.View()), now, claim, FailValue(claim), at, None)
      ensures HeldForCall(old(store.View()), now, claim) ==>
                FailureLeaves(old(store.View()), store.View(), claim, InvalidRequest, at)
    {
      if HeldForCall(store.View(), now, claim) { GatewayFailureLeaves(store.View(), now, claim, InvalidRequest, at); }
      if claim.recovering {
        WriteBack(now, claim, Retry(true), at, None);
      } else {
        WriteBack(now, claim, Settle(Failed), at, None);
      }
    }

    method GatewayFailed(now: Time, claim: OpClaim, error: GatewayError, at: Time)
      modifies store
      ensures store.View() == Performed(old(store.View()), now, claim, GatewayFailure(claim, error), at, None)
      ensures HeldForCall(old(store.View()), now, claim) ==>
                FailureLeaves(old(store.View()), store.View(), claim, error, at)
    {
      if HeldForCall(store.View(), now, claim) { GatewayFailureLeaves(store.View(), now, claim, error, at); }
      match error {
        case Rejected =>
          if !claim.recovering { FailValueOf(now, claim, at); } else { WriteBack(now, claim, Retry(true), at, None); }
        case Retryable => WriteBack(now, claim, Retry(claim.recovering), at, None);
        case Uncertain => WriteBack(now, claim, Retry(true), at, None);
        case InvalidRequest => FailValueOf(now, claim, at);
      }
    }

    /** `submission_body`: either a body to send, or nothing because the claim was given back, or a
        failure that the caller records. */
    method SubmissionBodyOf(now: Time, claim: OpClaim, request: Request, readFails: bool, at: Time)
      returns (prepared: Result<Option<(string, Body)>, ()>)
      modifies store
      ensures match SubmissionBody(old(store.operations), claim, request, readFails)
              case Submit(connection, body) =>
                prepared == Ok(Some((connection, body))) && store.View() == old(store.View())
              case Instead(action) =>
                if prepared.Err? then action == FailValue(claim) && store.View() == old(store.View())
                else prepared.value.None?
                     && store.View() == Performed(old(store.View()), now, claim, action, at, None)
    {
      match request {
        case LlmFresh(connection, content) => return Ok(Some((connection, FreshBody(claim.id, content))));
        case LlmContinuation(connection, previous, messages) =>
          if readFails {
            WriteBack(now, claim, Retry(claim.recovering), at, None);
            return Ok(None);
          }
          if previous !in store.operations { return Err(()); }
          var parent := store.operations[previous];
          if !Kind(parent.hash).Llm? || Connection(parent.hash) != Some(connection) { return Err(()); }
          match parent.status {
            case Succeeded =>
            case Failed => return Err(());
            case Cancelled => return Err(());
            case Unknown => return Err(());
            case _ =>
              WriteBack(now, claim, Defer, at, None);
              return Ok(None);
          }
          if parent.job.None? { return Err(()); }
          return Ok(Some((connection, ContinuationBody(claim.id, parent.job.value, messages))));
        case ExecutionCall(connection, machine, generation, payload) =>
          return Ok(Some((connection, ExecutionBody(claim.id, machine, generation, payload))));
        case _ => return Err(());
      }
    }

    /** `finish_submission` */
    method FinishSubmission(now: Time, claim: OpClaim, connection: string, body: Body, setting: Setting, at: Time)
      requires claim.phase.Submission?
      modifies store
      ensures store.View()
           == Performed(old(store.View()), now, claim,
                        FinalAction(claim, if claim.recovering then Looking(connection, body) else Ready(connection, body),
                                    setting), at, None)
      ensures HeldForCall(old(store.View()), now, claim) && claim.recovering && setting.lookup.LookupFailed? ==>
                FailureLeaves(old(store.View()), store.View(), claim, setting.lookup.error, at)
      ensures HeldForCall(old(store.View()), now, claim) && (claim.recovering ==> setting.lookup.NotFound?)
              && setting.reply.Failure? ==>
                FailureLeaves(old(store.View()), store.View(), claim, setting.reply.error, at)
    {
      if claim.recovering {
        match setting.lookup {
          case Found =>
            WriteBack(now, claim, AcceptJob(setting.job), at, None);
            return;
          case NotFound =>
          case LookupFailed(error) =>
            GatewayFailed(now, claim, error, at);
            return;
        }
      }
      match setting.reply {
        case Acknowledgement => WriteBack(now, claim, AcceptJob(setting.job), at, None);
        case Failure(error) => GatewayFailed(now, claim, error, at);
      }
    }

    /** `submit` */
    method SubmitClaimed(now: Time, claim: OpClaim, setting: Setting, at: Time)
      requires claim.phase.Submission?
      modifies store
      ensures var stage := DecideSubmission(old(store.operations), claim, setting.readFails, setting.configured);
              store.View() == Performed(old(store.View()), now, claim, FinalAction(claim, stage, setting), at, None)
    {
      if claim.row.request.None? { FailValueOf(now, claim, at); return; }
      var prepared := SubmissionBodyOf(now, claim, claim.row.request.value, setting.readFails, at);
      if prepared.Err? { FailValueOf(now, claim, at); return; }
      if prepared.value.None? { return; }
      if !setting.configured { FailValueOf(now, claim, at); return; }
      var (connection, body) := prepared.value.value;
      FinishSubmission(now, claim, connection, body, setting, at);
    }

    /** `cancel`; `outcome` is the recorded result. */
    method CancelTarget(now: Time, claim: OpClaim, setting: Setting, at: Time)
      requires claim.phase.Cancellation?
      modifies store
      ensures var stage := DecideCancellation(old(store.operations), claim, setting.readFails, setting.configured);
              store.View() == Performed(old(store.View()), now, claim, FinalAction(claim, stage, setting), at, None)
    {
      if !claim.row.hash.CancelLlm? { FailValueOf(now, claim, at); return; }
      if setting.readFails { WriteBack(now, claim, Retry(claim.recovering), at, None); return; }
      if claim.row.hash.target !in store.operations { FailValueOf(now, claim, at); return; }
      var target := store.operations[claim.row.hash.target];
      if !Kind(target.hash).Llm? { FailValueOf(now, claim, at); return; }
      match target.status {
        case Pending => WriteBack(now, claim, Defer, at, None); return;
        case Submitting => WriteBack(now, claim, Defer, at, None); return;
        case Accepted =>
        case _ =>
          if !claim.recovering { WriteBack(now, claim, Settle(Succeeded), at, None); return; }
      }
      if target.job.None? { WriteBack(now, claim, Defer, at, None); return; }
      if Connection(target.hash).None? || !setting.configured { FailValueOf(now, claim, at); return; }
      match setting.reply {
        case Acknowledgement => WriteBack(now, claim, Settle(Succeeded), at, None);
        case Failure(error) => GatewayFailed(now, claim, error, at);
      }
    }

    /** `withdraw` */
    method WithdrawTarget(now: Time, claim: OpClaim, at: Time)
      modifies store
      ensures store.View() == CompleteWithdrawal(old(store.View()), now, claim, Some(at)).0
    {
      WriteBack(now, claim, WithdrawNow, at, None);
    }
  }

  // ---------------------------------------------------------------- a method's run is a schedule

  /** The answers are ones the gateway can give: it knows one job for each key. */
  predicate Plausible(d: System, claim: OpClaim, setting: Setting) {
    && (setting.lookup.Found? ==> claim.id in d.jobs)
    && (claim.id in d.jobs ==> setting.job == d.jobs[claim.id].id)
  }

  function ConclusionMoves(token: Uuid, setting: Setting): seq<Move> {
    if setting.reply.Acknowledgement? then [Create(token, setting.job)]
    else if setting.reply.error.Uncertain? then [] else [Refuse(token)]
  }

  /** The moves of one call and its answer. */
  function CallMoves(token: Uuid, setting: Setting): seq<Move> {
    [StartSend(token)] + ConclusionMoves(token, setting) + [Answer(token, setting.reply)]
  }

  function TalkMoves(token: Uuid, stage: Stage, setting: Setting): seq<Move> {
    if stage.Acting? then []
    else if stage.Looking? then
      [LookUp(token, setting.lookup)] + if setting.lookup.NotFound? then CallMoves(token, setting) else []
    else CallMoves(token, setting)
  }

  /** Everything a worker does, from reading the rows to writing back. */
  function Schedule(d: System, token: Uuid, setting: Setting, at: Time): seq<Move>
    requires token in d.workers
  {
    var stage := Decision(d.w.db.operations, d.workers[token].claim, setting.readFails, setting.configured);
    [Decide(token, setting.readFails, setting.configured)] + TalkMoves(token, stage, setting) + [Act(token, at, None)]
  }

  predicate Working(d: System, token: Uuid, claim: OpClaim, stage: Stage) {
    token in d.workers && d.workers[token].claim == claim && d.workers[token].stage == stage
  }

  /** `token` waits for an answer to a call that the gateway concluded as `setting.reply` says. */
  predicate CallConcluded(d: System, token: Uuid, claim: OpClaim, setting: Setting) {
    && Working(d, token, claim, Awaiting) && token in d.sends
    && (setting.reply.Acknowledgement? ==> d.sends[token].fate.Created?)
    && (setting.reply.Acknowledgement? && claim.phase.Submission? ==>
          claim.id in d.jobs && d.jobs[claim.id].id == setting.job)
    && (setting.reply.Failure? && !setting.reply.error.Uncertain? ==> d.sends[token].fate.Refused?)
  }

  lemma CallGoesOut(d: System, token: Uuid, claim: OpClaim, connection: string, body: Body)
    requires Working(d, token, claim, Ready(connection, body)) && MaySend(d, token)
    ensures var sent := Next(d, StartSend(token));
            && Working(sent, token, claim, Awaiting) && sent.w == d.w && sent.jobs == d.jobs
            && InFlightAt(sent, token) && sent.sends[token] == Send(claim.id, connection, body, InFlight)
  {
  }

  lemma CallIsConcluded(d: System, token: Uuid, claim: OpClaim, setting: Setting)
    requires Working(d, token, claim, Awaiting) && InFlightAt(d, token) && Plausible(d, claim, setting)
    requires d.sends[token].op == claim.id && (claim.phase.Submission? ==> !d.sends[token].body.CancelBody?)
    ensures var after := Dispatched(d, ConclusionMoves(token, setting));
            CallConcluded(after, token, claim, setting) && after.w == d.w
  {
    if setting.reply.Acknowledgement? {
      OneMove(d, Create(token, setting.job), []);
      assert [Create(token, setting.job)] + [] == [Create(token, setting.job)];
    } else if !setting.reply.error.Uncertain? {
      OneMove(d, Refuse(token), []);
      assert [Refuse(token)] + [] == [Refuse(token)];
    }
  }

  lemma CallIsAnswered(d: System, token: Uuid, claim: OpClaim, setting: Setting)
    requires CallConcluded(d, token, claim, setting)
    ensures var after := Next(d, Answer(token, setting.reply));
            Working(after, token, claim, Acting(Answered(claim, setting))) && after.w == d.w
  {
  }

  lemma CallEnds(d: System, token: Uuid, claim: OpClaim, connection: string, body: Body, setting: Setting)
    requires Working(d, token, claim, Ready(connection, body)) && MaySend(d, token) && Plausible(d, claim, setting)
    requires claim.phase.Submission? ==> !body.CancelBody?
    ensures var after := Dispatched(d, CallMoves(token, setting));
            Working(after, token, claim, Acting(Answered(claim, setting))) && after.w == d.w
  {
    var sent := Next(d, StartSend(token));
    var conclusion := ConclusionMoves(token, setting);
    var answer := Answer(token, setting.reply);
    CallGoesOut(d, token, claim, connection, body);
    CallIsConcluded(sent, token, claim, setting);
    var concluded := Dispatched(sent, conclusion);
    CallIsAnswered(concluded, token, claim, setting);
    assert CallMoves(token, setting) == [StartSend(token)] + (conclusion + [answer]);
    OneMove(d, StartSend(token), conclusion + [answer]);
    MovesSplit(sent, conclusion, [answer]);
    OneMove(concluded, answer, []);
    assert [answer] + [] == [answer];
  }

  lemma TalkEnds(d: System, token: Uuid, claim: OpClaim, stage: Stage, setting: Setting)
    requires Working(d, token, claim, stage) && MaySend(d, token) && Plausible(d, claim, setting)
    requires stage.Acting? || stage.Looking? || stage.Ready?
    requires stage.Looking? ==> claim.phase.Submission? && !stage.body.CancelBody?
    requires stage.Ready? && claim.phase.Submission? ==> !stage.body.CancelBody?
    ensures var after := Dispatched(d, TalkMoves(token, stage, setting));
            Working(after, token, claim, Acting(FinalAction(claim, stage, setting))) && after.w == d.w
  {
    if stage.Looking? {
      var looked := Next(d, LookUp(token, setting.lookup));
      OneMove(d, LookUp(token, setting.lookup), TalkMoves(token, stage, setting)[1..]);
      assert TalkMoves(token, stage, setting) == [LookUp(token, setting.lookup)] + TalkMoves(token, stage, setting)[1..];
      if setting.lookup.NotFound? {
        assert TalkMoves(token, stage, setting)[1..] == CallMoves(token, setting);
        CallEnds(looked, token, claim, stage.connection, stage.body, setting);
      }
    } else if stage.Ready? {
      CallEnds(d, token, claim, stage.connection, stage.body, setting);
    }
  }

  /** What `SubmitClaimed` and `CancelTarget` leave behind is what the schedule of the same claim leaves,
      so every run of the methods is among the runs that `DispatchSafety` speaks about. */
  lemma MethodsAreSchedules(d: System, token: Uuid, setting: Setting, at: Time)
    requires token in d.workers && d.workers[token].stage.Reading? && d.workers[token].claim in d.w.opClaims
    requires MaySend(d, token) && Plausible(d, d.workers[token].claim, setting)
    requires d.workers[token].claim.phase.Submission? || d.workers[token].claim.phase.Cancellation?
    ensures var claim := d.workers[token].claim;
            var stage := Decision(d.w.db.operations, claim, setting.readFails, setting.configured);
            Dispatched(d, Schedule(d, token, setting, at)).w.db
              == Performed(d.w.db, d.w.now, claim, FinalAction(claim, stage, setting), at, None)
  {
    var claim := d.workers[token].claim;
    var stage := Decision(d.w.db.operations, claim, setting.readFails, setting.configured);
    var decide := Decide(token, setting.readFails, setting.configured);
    var talk := TalkMoves(token, stage, setting);
    var act := Act(token, at, None);
    assert Schedule(d, token, setting, at) == [decide] + (talk + [act]);
    OneMove(d, decide, talk + [act]);
    MovesSplit(Next(d, decide), talk, [act]);
    TalkEnds(Next(d, decide), token, claim, stage, setting);
    var done := Dispatched(Next(d, decide), talk);
    assert [act] == [act] + [];
    OneMove(done, act, []);
    WritingBackIsAMove(done, token, at, None);
  }
}
