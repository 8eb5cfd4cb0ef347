/** What the turn machine guarantees over whole sessions: the operations that are out are exactly those
    its phase waits for, no completion is ever unexpected, and no user input is lost. */
module TurnSafety {
  import opened Prelude
  import opened ToolPlan
  import opened ToolScheduling
  import opened Turn

  // ---------------------------------------------------------------- operations of a plan

  lemma {:induction false} RangeOfEntries(prepared: seq<Entry>, calls: seq<Call>, after: seq<Call>, first: OpId)
    requires forall j :: 0 <= j < |prepared| ==>
               prepared[j].ordinal < |after| && after[prepared[j].ordinal].status.Submitted?
               && after[prepared[j].ordinal].status.operation == first + j
    ensures forall op :: first <= op < first + |prepared| ==> op in SubmittedOperations(after)
  {
    forall op | first <= op < first + |prepared| ensures op in SubmittedOperations(after) {
      var i := prepared[op - first].ordinal;
      assert after[i].status.Submitted? && after[i].status.operation == op;
    }
  }

  /** Exactly the operations from `from` on and before `to` are added to those that are out. */
  ghost predicate Submits(before: seq<Call>, after: seq<Call>, from: OpId, to: OpId) {
    forall op: OpId :: op in SubmittedOperations(after) <==> op in SubmittedOperations(before) || from <= op < to
  }

  /** Every operation that is out after staging was out before or is new. */
  lemma StagedWereOutOrNew(calls: seq<Call>, after: seq<Call>, prepared: seq<Entry>, next: OpId)
    requires |after| == |calls| && forall i :: 0 <= i < |calls| ==> Staged(calls[i], after[i], i, prepared, next)
    ensures forall op: OpId :: op in SubmittedOperations(after) ==>
              op in SubmittedOperations(calls) || next <= op < next + |prepared|
  {
    forall op: OpId | op in SubmittedOperations(after)
      ensures op in SubmittedOperations(calls) || next <= op < next + |prepared|
    {
      var i :| 0 <= i < |after| && after[i].status.Submitted? && after[i].status.operation == op;
      assert Staged(calls[i], after[i], i, prepared, next);
    }
  }

  lemma OutStaysOut(calls: seq<Call>, after: seq<Call>)
    requires |after| == |calls| && forall i :: 0 <= i < |calls| && calls[i].status.Submitted? ==> after[i] == calls[i]
    ensures forall op: OpId :: op in SubmittedOperations(calls) ==> op in SubmittedOperations(after)
  {
    forall op: OpId | op in SubmittedOperations(calls) ensures op in SubmittedOperations(after) {
      var i :| 0 <= i < |calls| && calls[i].status.Submitted? && calls[i].status.operation == op;
      assert after[i] == calls[i];
    }
  }

  /** Staging adds exactly the new operations to those that are out. */
  lemma StagingSubmits(plan: Plan, shells: Shells, next: OpId)
    requires PlanInv(plan, shells, next) && plan.active < |plan.segments| && OrdinalsValid(plan)
    ensures var pass := RunPass(plan.calls, shells, plan.segments[plan.active].ordinals);
            var after := Stage(pass.calls, pass.prepared, next);
            Submits(plan.calls, after, next, next + |pass.prepared|)
  {
    var ordinals := plan.segments[plan.active].ordinals;
    assert SegmentOk(plan.calls, plan.segments[plan.active]);
    var pass := RunPass(plan.calls, shells, ordinals);
    StagingMoves(plan.calls, shells, ordinals, next);
    PreparedAreDistinct(plan.calls, shells, ordinals, pass);
    StagedAt(pass.calls, pass.prepared, next);
    StagedSubmits(plan.calls, shells, ordinals, pass, Stage(pass.calls, pass.prepared, next), next);
  }

  lemma PreparedAreDistinct(calls: seq<Call>, shells: Shells, ordinals: seq<nat>, pass: Pass)
    requires PassInv(calls, shells, ordinals, pass)
    ensures forall j, k :: 0 <= j < k < |pass.prepared| ==> pass.prepared[j].ordinal != pass.prepared[k].ordinal
  {
    forall j, k | 0 <= j < k < |pass.prepared| ensures pass.prepared[j].ordinal != pass.prepared[k].ordinal {
      assert PreparedApart(pass.prepared[j], pass.prepared[k]);
    }
  }

  lemma StagedSubmits(calls: seq<Call>, shells: Shells, ordinals: seq<nat>, pass: Pass, after: seq<Call>, next: OpId)
    requires forall k :: 0 <= k < |ordinals| ==> ordinals[k] < |calls|
    requires pass == RunPass(calls, shells, ordinals) && PassInv(calls, shells, ordinals, pass) && |after| == |calls|
    requires forall i :: 0 <= i < |calls| ==> Staged(calls[i], after[i], i, pass.prepared, next)
    requires forall j :: 0 <= j < |pass.prepared| ==>
               after[pass.prepared[j].ordinal].status == Submitted(next + j, pass.prepared[j].progress)
    requires forall i :: 0 <= i < |calls| && (forall j :: 0 <= j < |pass.prepared| ==> pass.prepared[j].ordinal != i) ==>
               after[i] == pass.calls[i]
    ensures Submits(calls, after, next, next + |pass.prepared|)
  {
    RangeOfEntries(pass.prepared, calls, after, next);
    StagedWereOutOrNew(calls, after, pass.prepared, next);
    forall i | 0 <= i < |calls| && calls[i].status.Submitted? ensures after[i] == calls[i] {
      NotPrepared(calls, shells, ordinals, i);
    }
    OutStaysOut(calls, after);
  }

  lemma NotPrepared(calls: seq<Call>, shells: Shells, ordinals: seq<nat>, i: nat)
    requires forall k :: 0 <= k < |ordinals| ==> ordinals[k] < |calls|
    requires i < |calls| && calls[i].status.Submitted?
    requires PassInv(calls, shells, ordinals, RunPass(calls, shells, ordinals))
    ensures RunPass(calls, shells, ordinals).calls[i] == calls[i]
    ensures forall j :: 0 <= j < |RunPass(calls, shells, ordinals).prepared| ==>
              RunPass(calls, shells, ordinals).prepared[j].ordinal != i
  {
    PassCompletes(calls, shells, ordinals);
    var prepared := RunPass(calls, shells, ordinals).prepared;
    forall j | 0 <= j < |prepared| ensures prepared[j].ordinal != i {
      assert PreparedOk(calls, shells, prepared[j]);
    }
  }

  lemma SameSubmitted(a: seq<Call>, b: seq<Call>)
    requires |a| == |b|
    requires forall i :: 0 <= i < |a| ==> a[i] == b[i] || (!a[i].status.Submitted? && !b[i].status.Submitted?)
    ensures SubmittedOperations(a) == SubmittedOperations(b)
  {
  }

  /** Scheduling puts out the operations it numbers and no others. */
  lemma {:induction false} SchedulingSubmits(plan: Plan, shells: Shells, next: OpId)
    requires PlanInv(plan, shells, next) && OrdinalsValid(plan)
    ensures next <= ScheduleReady(plan, shells, next).1
    ensures Submits(plan.calls, ScheduleReady(plan, shells, next).0.calls, next, ScheduleReady(plan, shells, next).1)
    decreases Unfinished(plan.calls), 1
  {
    if plan.active < |plan.segments| {
      assert SegmentOk(plan.calls, plan.segments[plan.active]);
      var pass := RunPass(plan.calls, shells, plan.segments[plan.active].ordinals);
      if pass.prepared != [] {
        StagingSubmits(plan, shells, next);
      } else {
        PassCompletes(plan.calls, shells, plan.segments[plan.active].ordinals);
        SameSubmitted(plan.calls, pass.calls);
        if pass.immediate { ReschedulingSubmits(plan, shells, next, pass); }
      }
    }
  }

  lemma {:induction false} ReschedulingSubmits(plan: Plan, shells: Shells, next: OpId, pass: Pass)
    requires PlanInv(plan, shells, next) && OrdinalsValid(plan) && plan.active < |plan.segments|
    requires pass == RunPass(plan.calls, shells, plan.segments[plan.active].ordinals)
    requires pass.prepared == [] && pass.immediate
    requires SubmittedOperations(pass.calls) == SubmittedOperations(plan.calls)
    ensures next <= ScheduleReady(plan, shells, next).1
    ensures Submits(plan.calls, ScheduleReady(plan, shells, next).0.calls, next, ScheduleReady(plan, shells, next).1)
    decreases Unfinished(plan.calls), 0
  {
    var ordinals := plan.segments[plan.active].ordinals;
    PassCompletes(plan.calls, shells, ordinals);
    FinishingKeepsInv(plan, pass.calls, shells, next);
    AdvancingKeepsInv(plan.(calls := pass.calls), shells, next);
    ImmediateMakesProgress(plan.calls, shells, ordinals);
    AdvanceKeepsCalls(plan.(calls := pass.calls));
    SchedulingSubmits(Advance(plan.(calls := pass.calls)), shells, next);
  }

  /** A completion takes its own operation, and only that, from those that are out. */
  lemma CompletionSubmits(plan: Plan, shells: Shells, next: OpId, operation: OpId, outcome: ExecutionOutcome)
    requires PlanInv(plan, shells, next) && ApplyCompletion(plan, shells, operation, outcome).Ok?
    ensures var (plan', _) := ApplyCompletion(plan, shells, operation, outcome).value;
            forall op: OpId :: op in SubmittedOperations(plan'.calls) <==> op in SubmittedOperations(plan.calls) && op != operation
  {
    FoundIsSubmitted(plan.calls, operation);
    var i := FindSubmitted(plan.calls, operation).value;
    var (applied, shells') := ApplyOutcome(plan.calls[i].status.progress, outcome, shells);
    var calls := plan.calls[i := plan.calls[i].(status := StatusAfter(applied))];
    AdvanceKeepsCalls(plan.(calls := calls));
    forall op | op in SubmittedOperations(plan.calls) && op != operation ensures op in SubmittedOperations(calls) {
      var j :| 0 <= j < |plan.calls| && plan.calls[j].status.Submitted? && plan.calls[j].status.operation == op;
      assert calls[j] == plan.calls[j];
    }
    forall op | op in SubmittedOperations(calls) ensures op in SubmittedOperations(plan.calls) && op != operation {
      var j :| 0 <= j < |calls| && calls[j].status.Submitted? && calls[j].status.operation == op;
      assert calls[j] == plan.calls[j];
      assert if i < j then NoConflict(plan.calls[i], plan.calls[j]) else NoConflict(plan.calls[j], plan.calls[i]);
    }
  }

  lemma CompleteHasNoneOut(plan: Plan)
    requires IsComplete(plan)
    ensures SubmittedOperations(plan.calls) == {}
  {
  }

  // ---------------------------------------------------------------- sessions

  /** The harness with the completions it has received and the user inputs that have arrived. */
  datatype Session = Session(h: Harness, completed: set<OpId>, arrived: seq<string>)

  predicate Outstanding(s: Session, operation: OpId) { operation in s.h.staged && operation !in s.completed }

  /** Each completion arrives once, for an operation that is out, with the kind it was staged as. */
  predicate Arrives(s: Session, event: Event) {
    match event
    case LlmCompleted(operation, _) => Outstanding(s, operation) && s.h.staged[operation].LlmOp?
    case ExecutionCompleted(operation, _) => Outstanding(s, operation) && s.h.staged[operation].ExecutionOp?
    case _ => true
  }

  /** An event whose handling fails changes nothing. */
  function Happens(config: Config, s: Session, event: Event): Session {
    if !Arrives(s, event) || HandleEvent(config, s.h, event).Err? then s
    else
      Session(HandleEvent(config, s.h, event).value,
              match event
              case LlmCompleted(operation, _) => s.completed + {operation}
              case ExecutionCompleted(operation, _) => s.completed + {operation}
              case _ => s.completed,
              if event.UserInput? then s.arrived + [event.text] else s.arrived)
  }

  function After(config: Config, events: seq<Event>): Session {
    if events == [] then Session(Initial(), {}, [])
    else Happens(config, After(config, events[..|events| - 1]), events[|events| - 1])
  }

  // ---------------------------------------------------------------- the invariant

  function Held(phase: Phase): seq<string> {
    if phase.Compacting? && phase.initial.Some? then [phase.initial.value] else []
  }

  /** The operations that are out, by phase. */
  ghost predicate AwaitsExactly(staged: map<OpId, OpKind>, completed: set<OpId>, phase: Phase) {
    && (forall op: OpId :: op in staged && op !in completed <==> op in CancellationTargets(phase))
    && (forall op :: op in CancellationTargets(phase) ==>
          op in staged && staged[op] == if phase.ExecutingTools? then ExecutionOp else LlmOp)
  }

  ghost predicate PhaseOk(h: Harness, phase: Phase) {
    match phase
    case AwaitingLlm(_) => true
    case ExecutingTools(plan) => PlanInv(plan, h.shells, h.next) && ToolScheduling.Active(plan) && SomeSubmitted(plan)
    case Compacting(_, digest, attempt, trigger, initial) =>
      && digest == Digest(h.projection) && 1 <= attempt <= MAX_COMPACTION_ATTEMPTS
      && (initial.Some? ==> trigger.PreTurn?)
    case Cancelling => false
  }

  ghost predicate Numbered(h: Harness, completed: set<OpId>) {
    && ShellsOk(h.shells)
    && (forall op: OpId :: op in h.staged <==> op < h.next)
    && (forall op :: op in completed ==> op in h.staged)
  }

  ghost predicate NothingOut(h: Harness, completed: set<OpId>) { forall op :: op in h.staged ==> op in completed }

  ghost predicate RunningOk(h: Harness, completed: set<OpId>, arrived: seq<string>) {
    if h.active.None? then NothingOut(h, completed) && arrived == h.given
    else
      var turn := h.active.value;
      && AwaitsExactly(h.staged, completed, turn.phase) && PhaseOk(h, turn.phase) && turn.llmAttempts <= 1
      && arrived == h.given + Held(turn.phase) + turn.steering
  }

  ghost predicate SessionInv(s: Session) {
    Numbered(s.h, s.completed)
    && if s.h.cancelled then true
       else if s.h.failed then NothingOut(s.h, s.completed)
       else RunningOk(s.h, s.completed, s.arrived)
  }

  ghost predicate HandledOk(h: Harness, completed: set<OpId>, arrived: seq<string>) {
    Numbered(h, completed) && !h.cancelled
    && if h.failed then NothingOut(h, completed) else RunningOk(h, completed, arrived)
  }

  // ---------------------------------------------------------------- staging keeps it

  lemma {:induction false} InputsOfUsers(inputs: seq<string>)
    ensures Inputs(AsUsers(inputs)) == inputs
  {
    if inputs != [] {
      var n := |inputs| - 1;
      assert AsUsers(inputs)[..n] == AsUsers(inputs[..n]);
      InputsOfUsers(inputs[..n]);
    } else {
      assert AsUsers(inputs) == [];
    }
  }

  lemma {:induction false} NoInputs(messages: seq<Message>)
    requires forall i :: 0 <= i < |messages| ==> !messages[i].User?
    ensures Inputs(messages) == []
  {
    if messages != [] { NoInputs(messages[..|messages| - 1]); }
  }

  /** The next request to the model is all that is out, and everything that arrived was given. */
  lemma AwaitingIsOk(h: Harness, turn: ActiveTurn, completed: set<OpId>, arrived: seq<string>)
    requires Numbered(h, completed) && NothingOut(h, completed) && turn.llmAttempts <= 1
    requires arrived == h.given + turn.steering && !h.failed && !h.cancelled
    ensures HandledOk(Awaiting(h, turn), completed, arrived) && !Awaiting(h, turn).failed
  {
  }

  lemma CompactionIsOk(h: Harness, turn: ActiveTurn, trigger: Trigger, initial: Option<string>,
                       completed: set<OpId>, arrived: seq<string>)
    requires Numbered(h, completed) && NothingOut(h, completed) && turn.llmAttempts <= 1
    requires (initial.Some? ==> trigger.PreTurn?) && !h.failed && !h.cancelled
    requires arrived == h.given + (if initial.Some? then [initial.value] else []) + turn.steering
    ensures var h' := StageCompaction(h, turn, trigger, initial); HandledOk(h', completed, arrived) && !h'.failed
  {
  }

  lemma BoundaryIsOk(config: Config, h: Harness, turn: ActiveTurn, completed: set<OpId>, arrived: seq<string>)
    requires Numbered(h, completed) && NothingOut(h, completed) && turn.llmAttempts <= 1
    requires arrived == h.given + turn.steering && !h.failed && !h.cancelled
    ensures var h' := StageAfterBoundary(config, h, turn); HandledOk(h', completed, arrived) && !h'.failed
  {
    if NeedsCompaction(config, h) {
      CompactionIsOk(h, turn, MidTurn, None, completed, arrived);
    } else {
      InputsOfUsers(turn.steering);
      AwaitingIsOk(Extend(config, h, AsUsers(turn.steering)), turn.(steering := []), completed, arrived);
    }
  }

  lemma AfterPlanIsOk(config: Config, h: Harness, turn: ActiveTurn, plan: Plan, completed: set<OpId>, arrived: seq<string>)
    requires IsComplete(plan) && Numbered(h, completed) && NothingOut(h, completed) && turn.llmAttempts <= 1
    requires arrived == h.given + turn.steering && !h.failed && !h.cancelled
    ensures var h' := AfterPlan(config, h, turn, plan); HandledOk(h', completed, arrived) && !h'.failed
  {
    NoInputs(ResultMessages(plan));
    BoundaryIsOk(config, Extend(config, h, ResultMessages(plan)), turn, completed, arrived);
  }

  // ---------------------------------------------------------------- tools

  ghost predicate PlanOut(h: Harness, completed: set<OpId>, plan: Plan) {
    && PlanInv(plan, h.shells, h.next) && ToolScheduling.Active(plan)
    && (forall op: OpId :: op in h.staged && op !in completed <==> op in SubmittedOperations(plan.calls))
    && (forall op: OpId :: op in SubmittedOperations(plan.calls) ==> h.staged[op].ExecutionOp?)
  }

  lemma ScheduledIsOut(h: Harness, turn: ActiveTurn, plan: Plan, completed: set<OpId>)
    requires Numbered(h, completed) && PlanOut(h, completed, plan) && OrdinalsValid(plan)
    ensures var (plan', next) := ScheduleReady(plan, h.shells, h.next);
            next >= h.next
            && Numbered(StagedExecutions(h, next), completed) && PlanOut(StagedExecutions(h, next), completed, plan')
            && (IsComplete(plan') ==> NothingOut(StagedExecutions(h, next), completed))
            && (!IsComplete(plan') ==> SomeSubmitted(plan'))
  {
    ScheduleNeverSticks(plan, h.shells, h.next);
    SchedulingSubmits(plan, h.shells, h.next);
    var (plan', next) := ScheduleReady(plan, h.shells, h.next);
    if IsComplete(plan') { CompleteHasNoneOut(plan'); }
  }

  lemma RunToolsIsOk(config: Config, h: Harness, turn: ActiveTurn, plan: Plan, completed: set<OpId>, arrived: seq<string>)
    requires Numbered(h, completed) && PlanOut(h, completed, plan) && OrdinalsValid(plan) && turn.llmAttempts <= 1
    requires arrived == h.given + turn.steering && !h.failed && !h.cancelled
    ensures var h' := RunTools(config, h, turn, plan); HandledOk(h', completed, arrived) && !h'.failed
  {
    ScheduledIsOut(h, turn, plan, completed);
    var (plan', next) := ScheduleReady(plan, h.shells, h.next);
    var h' := StagedExecutions(h, next).(active := Some(turn.(phase := ExecutingTools(plan'))));
    if IsComplete(plan') {
      AfterPlanIsOk(config, h', turn, plan', completed, arrived);
    } else {
      assert AwaitsExactly(h'.staged, completed, ExecutingTools(plan'));
    }
  }

  lemma NothingSubmitted(calls: seq<Call>)
    requires Parsed(calls)
    ensures SubmittedOperations(calls) == {}
  {
  }

  // ---------------------------------------------------------------- every event

  lemma UserInputIsOk(config: Config, s: Session, text: string)
    requires SessionInv(s) && !s.h.failed && !s.h.cancelled
    ensures var h' := HandleUserMessage(config, s.h, text);
            HandledOk(h', s.completed, s.arrived + [text]) && !h'.failed
  {
    var turn := ActiveTurn(Cancelling, [], 0);
    if s.h.active.None? {
      if NeedsCompaction(config, s.h) {
        CompactionIsOk(s.h, turn, PreTurn, Some(text), s.completed, s.arrived + [text]);
      } else {
        AwaitingIsOk(s.h.(projection := s.h.projection + [User(text)], given := s.h.given + [text],
                          estimate := Some(if s.h.estimate.None?
                                           then RequestTokens(config, s.h.projection + [User(text)])
                                           else s.h.estimate.value + config.tokens(User(text)))),
                     turn, s.completed, s.arrived + [text]);
      }
    }
  }

  /** What holds once the one operation that was out has completed. */
  ghost predicate Free(h: Harness, turn: ActiveTurn, completed: set<OpId>, arrived: seq<string>) {
    && Numbered(h, completed) && NothingOut(h, completed) && turn.llmAttempts <= 1
    && !h.failed && !h.cancelled && arrived == h.given + Held(turn.phase) + turn.steering
  }

  /** The harness once a reply is in the projection. */
  function Read(h: Harness, reply: Turn.Response): Harness {
    h.(estimate := if reply.usage.Some? then reply.usage else h.estimate,
       projection := h.projection + [Assistant(reply.text)])
  }

  lemma ReplyWithPlanIsOk(config: Config, h: Harness, turn: ActiveTurn, reply: Turn.Response, completed: set<OpId>, arrived: seq<string>)
    requires Free(h, turn, completed, arrived) && turn.phase.AwaitingLlm? && reply.provider
    requires ParsePlan(reply.items, reply.stop).Ok? && ParsePlan(reply.items, reply.stop).value.Some?
    ensures HandledOk(HandleReply(config, h, turn, reply), completed, arrived)
  {
    var plan := ParsePlan(reply.items, reply.stop).value.value;
    PlannedOrdinalsAreValid(reply.items, reply.stop);
    if IsComplete(plan) {
      AfterPlanIsOk(config, Read(h, reply), turn, plan, completed, arrived);
    } else {
      NewPlanIsOk(plan.calls, h.shells, h.next);
      NothingSubmitted(plan.calls);
      assert PlanOut(Read(h, reply), completed, plan);
      RunToolsIsOk(config, Read(h, reply), turn, plan, completed, arrived);
    }
  }

  lemma ReplyIsOk(config: Config, h: Harness, turn: ActiveTurn, reply: Turn.Response, completed: set<OpId>, arrived: seq<string>)
    requires Free(h, turn, completed, arrived) && turn.phase.AwaitingLlm?
    ensures HandledOk(HandleReply(config, h, turn, reply), completed, arrived)
  {
    var parsed := ParsePlan(reply.items, reply.stop);
    if reply.provider && parsed.Ok? {
      if parsed.value.Some? {
        ReplyWithPlanIsOk(config, h, turn, reply, completed, arrived);
      } else {
        BoundaryIsOk(config, Read(h, reply), turn, completed, arrived);
      }
    }
  }

  lemma LlmOutcomeIsOk(config: Config, h: Harness, turn: ActiveTurn, outcome: LlmOutcome, completed: set<OpId>, arrived: seq<string>)
    requires Free(h, turn, completed, arrived) && turn.phase.AwaitingLlm?
    ensures var handled := HandleLlmOutcome(config, h, turn, outcome);
            if handled.Ok? then HandledOk(handled.value, completed, arrived) else outcome.NotAnLlm? && handled.error.WrongResult?
  {
    if outcome.LlmSucceeded? {
      ReplyIsOk(config, h, turn, outcome.reply, completed, arrived);
    } else if outcome.LlmUnknown? && turn.llmAttempts < 1 {
      AwaitingIsOk(h, turn.(llmAttempts := turn.llmAttempts + 1), completed, arrived);
    }
  }

  lemma CompactedIsOk(config: Config, h: Harness, turn: ActiveTurn, reply: Turn.Response, completed: set<OpId>, arrived: seq<string>)
    requires Free(h, turn, completed, arrived) && turn.phase.Compacting? && turn.phase.digest == Digest(h.projection)
    ensures var handled := HandleCompacted(config, h, turn, reply);
            if handled.Ok? then HandledOk(handled.value, completed, arrived)
            else handled.error.GenerationOverflow? && h.generation >= MAX_GENERATION
  {
    if HandleCompacted(config, h, turn, reply).Ok? && reply.provider && reply.stop.Stop? && reply.compaction.Some? {
      var projection := config.retain(h.projection) + [Native(reply.compaction.value)];
      var compacted := h.(generation := h.generation + 1, projection := projection,
                          estimate := Some(RequestTokens(config, projection)));
      var held := if turn.phase.initial.Some? then [turn.phase.initial.value] else [];
      InputsOfUsers(held + turn.steering);
      assert h.given + (held + turn.steering) == h.given + held + turn.steering;
      AwaitingIsOk(Extend(config, compacted, AsUsers(held + turn.steering)), turn.(steering := []), completed, arrived);
    }
  }

  lemma CompactionOutcomeIsOk(config: Config, h: Harness, turn: ActiveTurn, outcome: LlmOutcome, completed: set<OpId>, arrived: seq<string>)
    requires Free(h, turn, completed, arrived) && turn.phase.Compacting? && PhaseOk(h, turn.phase)
    ensures var handled := HandleCompactionOutcome(config, h, turn, outcome);
            if handled.Ok? then HandledOk(handled.value, completed, arrived)
            else (outcome.NotAnLlm? && handled.error.WrongResult?)
                 || (handled.error.GenerationOverflow? && h.generation >= MAX_GENERATION)
  {
    if outcome.LlmSucceeded? { CompactedIsOk(config, h, turn, outcome.reply, completed, arrived); }
  }

  /** What handling a completion of the language model can lead to. */
  ghost predicate ExpectedError(h: Harness, event: Event, error: HandlerError) {
    match error
    case WrongResult =>
      (event.LlmCompleted? && event.llm.NotAnLlm?) || (event.ExecutionCompleted? && event.execution.NotAnExecution?)
    case GenerationOverflow => event.LlmCompleted? && h.generation >= MAX_GENERATION
    case Unsupported => event.WaitResumed?
    case _ => false
  }

  lemma LlmCompletionIsOk(config: Config, s: Session, operation: OpId, outcome: LlmOutcome)
    requires SessionInv(s) && !s.h.failed && !s.h.cancelled && Arrives(s, LlmCompleted(operation, outcome))
    ensures var handled := HandleLlmCompletion(config, s.h, operation, outcome);
            if handled.Ok? then HandledOk(handled.value, s.completed + {operation}, s.arrived)
            else ExpectedError(s.h, LlmCompleted(operation, outcome), handled.error)
  {
    var completed := s.completed + {operation};
    assert s.h.active.Some?;
    var turn := s.h.active.value;
    assert operation in CancellationTargets(turn.phase);
    assert Free(s.h, turn, completed, s.arrived);
    match turn.phase
    case AwaitingLlm(_) => LlmOutcomeIsOk(config, s.h, turn, outcome, completed, s.arrived);
    case Compacting(_, _, _, _, _) => CompactionOutcomeIsOk(config, s.h, turn, outcome, completed, s.arrived);
    case _ =>
  }

  /** A completed tool call leaves the rest of its plan out. */
  lemma AppliedIsOut(h: Harness, plan: Plan, operation: OpId, outcome: ExecutionOutcome, completed: set<OpId>)
    requires Numbered(h, completed) && PlanOut(h, completed, plan) && operation in h.staged
    requires ApplyCompletion(plan, h.shells, operation, outcome).Ok?
    ensures var (plan', shells) := ApplyCompletion(plan, h.shells, operation, outcome).value;
            OrdinalsValid(plan') && Numbered(h.(shells := shells), completed + {operation})
            && PlanOut(h.(shells := shells), completed + {operation}, plan')
  {
    CompletionsMakeProgress(plan, h.shells, h.next, operation, outcome);
    CompletionSubmits(plan, h.shells, h.next, operation, outcome);
    var (plan', shells) := ApplyCompletion(plan, h.shells, operation, outcome).value;
    ValidOrdinals(plan', shells, h.next);
  }

  lemma SubmittedIsFound(plan: Plan, operation: OpId)
    requires operation in SubmittedOperations(plan.calls)
    ensures FindSubmitted(plan.calls, operation).Some?
  {
    FoundIsSubmitted(plan.calls, operation);
  }

  lemma ExecutionCompletionIsOk(config: Config, s: Session, operation: OpId, outcome: ExecutionOutcome)
    requires SessionInv(s) && !s.h.failed && !s.h.cancelled && Arrives(s, ExecutionCompleted(operation, outcome))
    ensures var handled := HandleExecutionCompletion(config, s.h, operation, outcome);
            if handled.Ok? then HandledOk(handled.value, s.completed + {operation}, s.arrived)
            else ExpectedError(s.h, ExecutionCompleted(operation, outcome), handled.error)
  {
    assert s.h.active.Some?;
    var turn := s.h.active.value;
    assert operation in CancellationTargets(turn.phase) && turn.phase.ExecutingTools?;
    var plan := turn.phase.plan;
    SubmittedIsFound(plan, operation);
    assert PlanOut(s.h, s.completed, plan);
    var applied := ApplyCompletion(plan, s.h.shells, operation, outcome);
    if applied.Ok? {
      AppliedIsOut(s.h, plan, operation, outcome, s.completed);
      RunToolsIsOk(config, s.h.(shells := applied.value.1), turn, applied.value.0, s.completed + {operation}, s.arrived);
    }
  }

  lemma EventKeepsInv(config: Config, s: Session, event: Event)
    requires SessionInv(s)
    ensures SessionInv(Happens(config, s, event))
    ensures Arrives(s, event) && !s.h.failed && !s.h.cancelled && HandleEvent(config, s.h, event).Err? ==>
              ExpectedError(s.h, event, HandleEvent(config, s.h, event).error)
  {
    if Arrives(s, event) && !s.h.failed && !s.h.cancelled {
      match event
      case UserInput(text) => UserInputIsOk(config, s, text);
      case LlmCompleted(operation, outcome) => LlmCompletionIsOk(config, s, operation, outcome);
      case ExecutionCompleted(operation, outcome) => ExecutionCompletionIsOk(config, s, operation, outcome);
      case _ =>
    }
  }

  lemma {:induction false} EventsKeepInv(config: Config, events: seq<Event>)
    ensures SessionInv(After(config, events))
  {
    if events == [] {
      assert Initial().staged == map[] && Initial().active.None?;
    } else {
      EventsKeepInv(config, events[..|events| - 1]);
      EventKeepsInv(config, After(config, events[..|events| - 1]), events[|events| - 1]);
    }
  }

  // ---------------------------------------------------------------- main results

  /** Before failure and cancellation the operations that are out are exactly the one model call the
      phase awaits, or exactly the submitted tool calls, or none when the session is idle; once the
      session has failed none is out. */
  lemma OutstandingIsWhatThePhaseAwaits(config: Config, events: seq<Event>, operation: OpId)
    ensures var s := After(config, events);
            && (!s.h.failed && !s.h.cancelled ==>
                  (Outstanding(s, operation) <==>
                     s.h.active.Some? && operation in CancellationTargets(s.h.active.value.phase)))
            && (s.h.failed && !s.h.cancelled ==> !Outstanding(s, operation))
  {
    EventsKeepInv(config, events);
  }

  /** No completion is unexpected: with the store's events the handler never reports a mismatched
      operation, a missing turn, an invalid plan or a changed projection. */
  lemma CompletionsAreExpected(config: Config, events: seq<Event>, event: Event)
    requires var s := After(config, events);
             Arrives(s, event) && !s.h.failed && !s.h.cancelled && HandleEvent(config, s.h, event).Err?
    ensures var s := After(config, events); ExpectedError(s.h, event, HandleEvent(config, s.h, event).error)
  {
    EventsKeepInv(config, events);
    EventKeepsInv(config, After(config, events), event);
  }

  /** While the session is neither failed nor cancelled, the inputs that arrived are those given to the
      model, then the held pre-turn input, then the pending steering, in order of arrival. */
  lemma SteeringIsConserved(config: Config, events: seq<Event>)
    ensures var s := After(config, events);
            !s.h.failed && !s.h.cancelled ==>
              s.arrived == if s.h.active.None? then s.h.given
                           else s.h.given + Held(s.h.active.value.phase) + s.h.active.value.steering
  {
    EventsKeepInv(config, events);
  }

  /** A turn retries an uncertain model call at most once and an uncertain compaction at most once. */
  lemma RetriesAreBounded(config: Config, events: seq<Event>)
    ensures var s := After(config, events);
            !s.h.failed && !s.h.cancelled && s.h.active.Some? ==>
              s.h.active.value.llmAttempts <= 1
              && (s.h.active.value.phase.Compacting? ==>
                    s.h.active.value.phase.attempt <= MAX_COMPACTION_ATTEMPTS
                    && s.h.active.value.phase.digest == Digest(s.h.projection))
  {
    EventsKeepInv(config, events);
  }
}
