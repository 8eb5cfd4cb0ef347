/** The turn machine of the harness: what it awaits, what it holds back from the model, and when it
    compacts. */
module Turn {
  import opened Prelude
  import opened ToolPlan
  import opened ToolScheduling

  // ---------------------------------------------------------------- messages and state

  datatype Message =
    | User(input: string)
    | Assistant(response: string)
    | ToolResult(call: string, result: string)
    | Native(item: string)

  /** A collision-free fingerprint of the projection. */
  datatype Digest = Digest(projection: seq<Message>)

  datatype Trigger = PreTurn | MidTurn

  datatype Phase =
    | AwaitingLlm(operation: OpId)
    | ExecutingTools(plan: Plan)
    | Compacting(operation: OpId, digest: Digest, attempt: nat, trigger: Trigger, initial: Option<string>)
    | Cancelling

  datatype ActiveTurn = ActiveTurn(phase: Phase, steering: seq<string>, llmAttempts: nat)

  datatype OpKind = LlmOp | ExecutionOp

  /** `given` logs every user input ever put into the projection, `staged` every operation ever asked
      for; `next` numbers them. */
  datatype Harness = Harness(
    active: Option<ActiveTurn>, projection: seq<Message>, estimate: Option<nat>, generation: nat, shells: Shells,
    failed: bool, cancelled: bool, given: seq<string>, staged: map<OpId, OpKind>, next: OpId)

  function Initial(): Harness { Harness(None, [], None, 1, Shells(map[], 1000), false, false, [], map[], 0) }

  /** What the configuration fixes: the tokens of a request without messages, the tokens of a message
      and of a message list, and the limit at which the projection is compacted. */
  datatype Config = Config(fixedTokens: nat, tokens: Message -> nat, limit: nat, retain: seq<Message> -> seq<Message>)

  const MAX_GENERATION: nat := 0xFFFF_FFFF
  const MAX_COMPACTION_ATTEMPTS: nat := 2

  function Total(config: Config, messages: seq<Message>): nat {
    if messages == [] then 0
    else Total(config, messages[..|messages| - 1]) + config.tokens(messages[|messages| - 1])
  }

  function RequestTokens(config: Config, messages: seq<Message>): nat { config.fixedTokens + Total(config, messages) }

  predicate NeedsCompaction(config: Config, h: Harness) {
    h.estimate.GetOr(RequestTokens(config, h.projection)) >= config.limit
  }

  function Inputs(messages: seq<Message>): seq<string> {
    if messages == [] then []
    else
      var last := messages[|messages| - 1];
      Inputs(messages[..|messages| - 1]) + if last.User? then [last.input] else []
  }

  function AsUsers(inputs: seq<string>): seq<Message> {
    seq(|inputs|, i requires 0 <= i < |inputs| => User(inputs[i]))
  }

  /** `extend_projection` */
  function Extend(config: Config, h: Harness, messages: seq<Message>): Harness {
    h.(projection := h.projection + messages, given := h.given + Inputs(messages),
       estimate := if h.estimate.Some? then Some(h.estimate.value + Total(config, messages)) else None)
  }

  // ---------------------------------------------------------------- events and outcomes

  datatype Response = Response(
    provider: bool, text: string, items: seq<Item>, stop: StopReason, usage: Option<nat>, compaction: Option<string>)

  datatype LlmOutcome = LlmSucceeded(reply: Response) | NotAnLlm | LlmUnknown | LlmFailed | LlmCancelled

  datatype Event =
    | UserInput(text: string)
    | LlmCompleted(operation: OpId, llm: LlmOutcome)
    | ExecutionCompleted(operation: OpId, execution: ExecutionOutcome)
    | CancelRequested
    | WaitResumed

  datatype HandlerError =
    | NoActiveTurn
    | NotAwaitingLlm
    | LlmMismatch
    | NotExecutingTools
    | ToolMismatch
    | InvalidOrdinal
    | ProjectionChanged
    | WrongResult
    | GenerationOverflow
    | Unsupported

  type Handled = Result<Harness, HandlerError>

  // ---------------------------------------------------------------- staging

  function StagedLlm(h: Harness): Harness { h.(staged := h.staged[h.next := LlmOp], next := h.next + 1) }

  function Executions(staged: map<OpId, OpKind>, first: OpId, next: OpId): (all: map<OpId, OpKind>)
    requires first <= next
    ensures forall op :: op in all <==> op in staged || first <= op < next
    ensures forall op :: op in all ==>
              if first <= op < next then all[op] == ExecutionOp else op in staged && all[op] == staged[op]
  {
    if first == next then staged else Executions(staged, first, next - 1)[next - 1 := ExecutionOp]
  }

  function StagedExecutions(h: Harness, next: OpId): Harness
    requires h.next <= next
  {
    h.(staged := Executions(h.staged, h.next, next), next := next)
  }

  function Awaiting(h: Harness, turn: ActiveTurn): Harness {
    StagedLlm(h).(active := Some(turn.(phase := AwaitingLlm(h.next))))
  }

  function StageCompaction(h: Harness, turn: ActiveTurn, trigger: Trigger, initial: Option<string>): Harness {
    StagedLlm(h).(active := Some(turn.(phase := Compacting(h.next, Digest(h.projection), 1, trigger, initial))))
  }

  function StageAfterBoundary(config: Config, h: Harness, turn: ActiveTurn): Harness {
    if NeedsCompaction(config, h) then StageCompaction(h, turn, MidTurn, None)
    else Awaiting(Extend(config, h, AsUsers(turn.steering)), turn.(steering := []))
  }

  function Fail(h: Harness): Harness { h.(active := None, failed := true) }

  // ---------------------------------------------------------------- user messages

  function HandleUserMessage(config: Config, h: Harness, text: string): Harness {
    if h.active.Some? then h.(active := Some(h.active.value.(steering := h.active.value.steering + [text])))
    else
      var turn := ActiveTurn(Cancelling, [], 0);
      if NeedsCompaction(config, h) then StageCompaction(h, turn, PreTurn, Some(text))
      else
        var pushed := h.(projection := h.projection + [User(text)], given := h.given + [text],
                         estimate := Some(if h.estimate.None?
                                          then RequestTokens(config, h.projection + [User(text)])
                                          else h.estimate.value + config.tokens(User(text))));
        Awaiting(pushed, turn)
  }

  // ---------------------------------------------------------------- tool plans

  function ResultMessages(plan: Plan): seq<Message>
    requires IsComplete(plan)
  {
    var results := OrderedResults(plan).value;
    seq(|results|, i requires 0 <= i < |results| => ToolResult(results[i].0, results[i].1))
  }

  function AfterPlan(config: Config, h: Harness, turn: ActiveTurn, plan: Plan): Harness
    requires IsComplete(plan)
  {
    StageAfterBoundary(config, Extend(config, h, ResultMessages(plan)), turn)
  }

  lemma {:induction false} SchedulingCountsUp(plan: Plan, shells: Shells, next: OpId)
    requires OrdinalsValid(plan)
    ensures next <= ScheduleReady(plan, shells, next).1
    decreases Unfinished(plan.calls)
  {
    if plan.active < |plan.segments| {
      var ordinals := plan.segments[plan.active].ordinals;
      var pass := RunPass(plan.calls, shells, ordinals);
      if pass.prepared == [] && pass.immediate {
        ImmediateMakesProgress(plan.calls, shells, ordinals);
        AdvanceKeepsCalls(plan.(calls := pass.calls));
        SchedulingCountsUp(Advance(plan.(calls := pass.calls)), shells, next);
      }
    }
  }

  /** `schedule_ready`, then `finish_completed_tool_plan`. */
  function RunTools(config: Config, h: Harness, turn: ActiveTurn, plan: Plan): Harness
    requires OrdinalsValid(plan)
  {
    var (plan', next) := ScheduleReady(plan, h.shells, h.next);
    SchedulingCountsUp(plan, h.shells, h.next);
    var h' := StagedExecutions(h, next).(active := Some(turn.(phase := ExecutingTools(plan'))));
    if IsComplete(plan') then AfterPlan(config, h', turn, plan') else h'
  }

  lemma PlannedOrdinalsAreValid(items: seq<Item>, stop: StopReason)
    ensures ParsePlan(items, stop).Ok? && ParsePlan(items, stop).value.Some? ==>
              var plan := ParsePlan(items, stop).value.value;
              Parsed(plan.calls) && plan == NewPlan(plan.calls) && OrdinalsValid(plan)
  {
    if ParsePlan(items, stop).Ok? && ParsePlan(items, stop).value.Some? {
      ParsedCallsAreFresh(items);
      var plan := ParsePlan(items, stop).value.value;
      NewPlanIsOk(plan.calls, Shells(map[], 0), 0);
      ValidOrdinals(plan, Shells(map[], 0), 0);
    }
  }

  // ---------------------------------------------------------------- language model outcomes

  function HandleReply(config: Config, h: Harness, turn: ActiveTurn, reply: Response): Harness {
    if !reply.provider then Fail(h)
    else
      var plan := ParsePlan(reply.items, reply.stop);
      var read := h.(estimate := if reply.usage.Some? then reply.usage else h.estimate,
                     projection := h.projection + [Assistant(reply.text)]);
      if plan.Err? then Fail(read)
      else if plan.value.Some? then
        PlannedOrdinalsAreValid(reply.items, reply.stop);
        if IsComplete(plan.value.value) then AfterPlan(config, read, turn, plan.value.value)
        else RunTools(config, read, turn, plan.value.value)
      else match reply.stop
        case Stop => if turn.steering != [] then StageAfterBoundary(config, read, turn) else read.(active := None)
        case Refusal => if turn.steering != [] then StageAfterBoundary(config, read, turn) else read.(active := None)
        case PauseTurn => StageAfterBoundary(config, read, turn)
        case Length => Fail(read)
        case ContentFilter => Fail(read)
        case ToolUse => Fail(read)
  }

  function HandleLlmOutcome(config: Config, h: Harness, turn: ActiveTurn, outcome: LlmOutcome): Handled {
    match outcome
    case LlmSucceeded(reply) => Ok(HandleReply(config, h, turn, reply))
    case NotAnLlm => Err(WrongResult)
    case LlmUnknown =>
      if turn.llmAttempts < 1 then Ok(Awaiting(h, turn.(llmAttempts := turn.llmAttempts + 1))) else Ok(Fail(h))
    case LlmFailed => Ok(Fail(h))
    case LlmCancelled => Ok(Fail(h))
  }

  function HandleCompacted(config: Config, h: Harness, turn: ActiveTurn, reply: Response): Handled
    requires turn.phase.Compacting?
  {
    if Digest(h.projection) != turn.phase.digest then Err(ProjectionChanged)
    else if !reply.provider || !reply.stop.Stop? || reply.compaction.None? then Ok(Fail(h))
    else if h.generation >= MAX_GENERATION then Err(GenerationOverflow)
    else
      var projection := config.retain(h.projection) + [Native(reply.compaction.value)];
      var compacted := h.(generation := h.generation + 1, projection := projection,
                          estimate := Some(RequestTokens(config, projection)));
      var held := if turn.phase.initial.Some? then [turn.phase.initial.value] else [];
      Ok(Awaiting(Extend(config, compacted, AsUsers(held + turn.steering)), turn.(steering := [])))
  }

  function HandleCompactionOutcome(config: Config, h: Harness, turn: ActiveTurn, outcome: LlmOutcome): Handled
    requires turn.phase.Compacting?
  {
    match outcome
    case LlmSucceeded(reply) => HandleCompacted(config, h, turn, reply)
    case NotAnLlm => Err(WrongResult)
    case LlmUnknown =>
      if turn.phase.attempt < MAX_COMPACTION_ATTEMPTS then
        var retried := turn.(phase := turn.phase.(operation := h.next, attempt := turn.phase.attempt + 1));
        Ok(StagedLlm(h).(active := Some(retried)))
      else Ok(Fail(h))
    case LlmFailed => Ok(Fail(h))
    case LlmCancelled => Ok(Fail(h))
  }

  // ---------------------------------------------------------------- the handler

  function HandleLlmCompletion(config: Config, h: Harness, operation: OpId, outcome: LlmOutcome): Handled {
    if h.active.None? then Err(NoActiveTurn)
    else
      var turn := h.active.value;
      match turn.phase
      case AwaitingLlm(expected) =>
        if expected != operation then Err(LlmMismatch) else HandleLlmOutcome(config, h, turn, outcome)
      case Compacting(expected, _, _, _, _) =>
        if expected != operation then Err(LlmMismatch) else HandleCompactionOutcome(config, h, turn, outcome)
      case ExecutingTools(_) => Err(NotAwaitingLlm)
      case Cancelling => Err(NotAwaitingLlm)
  }

  function HandleExecutionCompletion(config: Config, h: Harness, operation: OpId, outcome: ExecutionOutcome): Handled {
    if h.active.None? then Err(NoActiveTurn)
    else if !h.active.value.phase.ExecutingTools? then Err(NotExecutingTools)
    else
      var turn := h.active.value;
      var applied := ApplyCompletion(turn.phase.plan, h.shells, operation, outcome);
      if applied.Err? then Err(if applied.error.NotSubmitted? then ToolMismatch else WrongResult)
      else if !OrdinalsValid(applied.value.0) then Err(InvalidOrdinal)
      else Ok(RunTools(config, h.(shells := applied.value.1), turn, applied.value.0))
  }

  /** The operations a cancellation request has to withdraw. */
  function CancellationTargets(phase: Phase): set<OpId> {
    match phase
    case AwaitingLlm(operation) => {operation}
    case Compacting(operation, _, _, _, _) => {operation}
    case ExecutingTools(plan) => SubmittedOperations(plan.calls)
    case Cancelling => {}
  }

  function SubmittedOperations(calls: seq<Call>): set<OpId> {
    set i | 0 <= i < |calls| && calls[i].status.Submitted? :: calls[i].status.operation
  }

  /** `cancellation::begin` as far as the turn goes: steering is dropped and the phase given up. */
  function BeginCancelling(h: Harness): Harness {
    h.(cancelled := true,
       active := if h.active.Some? then Some(h.active.value.(phase := Cancelling, steering := [])) else None)
  }

  function HandleEvent(config: Config, h: Harness, event: Event): Handled {
    if h.failed || h.cancelled then Ok(h)
    else match event
      case UserInput(text) => Ok(HandleUserMessage(config, h, text))
      case LlmCompleted(operation, outcome) => HandleLlmCompletion(config, h, operation, outcome)
      case ExecutionCompleted(operation, outcome) => HandleExecutionCompletion(config, h, operation, outcome)
      case CancelRequested => Ok(BeginCancelling(h))
      case WaitResumed => Err(Unsupported)
  }
}
