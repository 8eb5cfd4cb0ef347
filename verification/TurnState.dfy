/** The harness state as the handler mutates it: the active turn, the context window and the operations
    it asks for. */
module TurnObject {
  import opened Prelude
  import opened ToolPlan
  import opened ToolScheduling
  import opened ToolPlanObject
  import opened Turn

  class HarnessState {
    var active: Option<ActiveTurn>
    var projection: seq<Message>
    var estimate: Option<nat>
    var generation: nat
    var shells: Shells
    var failed: bool
    var cancelled: bool
    var given: seq<string>
    var staged: map<OpId, OpKind>
    var next: OpId

    function View(): Harness
      reads this
    {
      Harness(active, projection, estimate, generation, shells, failed, cancelled, given, staged, next)
    }

    constructor ()
      ensures View() == Initial()
    {
      active, projection, estimate, generation := None, [], None, 1;
      shells, failed, cancelled, given, staged, next := Shells(map[], 1000), false, false, [], map[], 0;
    }

    /** Stages one request to the language model. */
    method RequestLlm() returns (operation: OpId)
      modifies this`staged, this`next
      ensures View() == StagedLlm(old(View())) && operation == old(next)
    {
      operation := next;
      staged := staged[operation := LlmOp];
      next := next + 1;
    }

    method ExtendProjection(config: Config, messages: seq<Message>)
      modifies this`projection, this`given, this`estimate
      ensures View() == Extend(config, old(View()), messages)
    {
      if estimate.Some? { estimate := Some(estimate.value + Total(config, messages)); }
      given := given + Inputs(messages);
      projection := projection + messages;
    }

    method ApplyTerminal()
      modifies this`active, this`failed
      ensures View() == Fail(old(View()))
    {
      active := None;
      failed := true;
    }

    method StageCompactionFor(turn: ActiveTurn, trigger: Trigger, initial: Option<string>)
      modifies this
      ensures View() == StageCompaction(old(View()), turn, trigger, initial)
    {
      var digest := Digest(projection);
      var operation := RequestLlm();
      active := Some(turn.(phase := Compacting(operation, digest, 1, trigger, initial)));
    }

    method AwaitLlm(turn: ActiveTurn)
      modifies this
      ensures View() == Awaiting(old(View()), turn)
    {
      var operation := RequestLlm();
      active := Some(turn.(phase := AwaitingLlm(operation)));
    }

    method StageAfterBoundaryOf(config: Config, turn: ActiveTurn)
      modifies this
      ensures View() == StageAfterBoundary(config, old(View()), turn)
    {
      if NeedsCompaction(config, View()) {
        StageCompactionFor(turn, MidTurn, None);
        return;
      }
      ExtendProjection(config, AsUsers(turn.steering));
      AwaitLlm(turn.(steering := []));
    }

    method UserMessage(config: Config, text: string)
      modifies this
      ensures View() == HandleUserMessage(config, old(View()), text)
    {
      if active.Some? {
        var turn := active.value;
        active := Some(turn.(steering := turn.steering + [text]));
        return;
      }
      var turn := ActiveTurn(Cancelling, [], 0);
      if NeedsCompaction(config, View()) {
        StageCompactionFor(turn, PreTurn, Some(text));
        return;
      }
      projection := projection + [User(text)];
      given := given + [text];
      estimate := Some(if estimate.None? then RequestTokens(config, projection)
                       else estimate.value + config.tokens(User(text)));
      AwaitLlm(turn);
    }

    method FinishCompletedToolPlan(config: Config, turn: ActiveTurn, plan: Plan) returns (finished: bool)
      modifies this
      ensures finished <==> IsComplete(plan)
      ensures finished ==> View() == AfterPlan(config, old(View()), turn, plan)
      ensures !finished ==> View() == old(View())
    {
      if !IsComplete(plan) { return false; }
      ExtendProjection(config, ResultMessages(plan));
      StageAfterBoundaryOf(config, turn);
      finished := true;
    }

    /** Schedules what is ready and goes on to the next request once the plan is complete. */
    method ScheduleTools(config: Config, turn: ActiveTurn, stored: ToolPlanState)
      requires OrdinalsValid(stored.View())
      modifies this, stored
      ensures View() == RunTools(config, old(View()), turn, old(stored.View()))
    {
      SchedulingCountsUp(stored.View(), shells, next);
      var after := stored.Schedule(shells, next);
      staged := Executions(staged, next, after);
      next := after;
      var plan := Plan(stored.calls, stored.segments, stored.active);
      active := Some(turn.(phase := ExecutingTools(plan)));
      var _ := FinishCompletedToolPlan(config, turn, plan);
    }

    method LlmReply(config: Config, turn: ActiveTurn, reply: Turn.Response)
      modifies this
      ensures View() == HandleReply(config, old(View()), turn, reply)
    {
      if !reply.provider { ApplyTerminal(); return; }
      var plan := ParsePlan(reply.items, reply.stop);
      if reply.usage.Some? { estimate := reply.usage; }
      projection := projection + [Assistant(reply.text)];
      if plan.Err? { ApplyTerminal(); return; }
      if plan.value.Some? {
        PlannedOrdinalsAreValid(reply.items, reply.stop);
        if IsComplete(plan.value.value) {
          var _ := FinishCompletedToolPlan(config, turn, plan.value.value);
        } else {
          var stored := new ToolPlanState(plan.value.value.calls);
          ScheduleTools(config, turn, stored);
        }
        return;
      }
      match reply.stop {
        case PauseTurn => StageAfterBoundaryOf(config, turn);
        case Length => ApplyTerminal();
        case ContentFilter => ApplyTerminal();
        case ToolUse => assert false;
        case _ =>
          if turn.steering != [] { StageAfterBoundaryOf(config, turn); } else { active := None; }
      }
    }

    method LlmOutcomeFor(config: Config, turn: ActiveTurn, outcome: LlmOutcome) returns (error: Option<HandlerError>)
      modifies this
      ensures var spec := HandleLlmOutcome(config, old(View()), turn, outcome);
              if spec.Ok? then error.None? && View() == spec.value
              else error == Some(spec.error) && View() == old(View())
    {
      error := None;
      match outcome {
        case LlmSucceeded(reply) => LlmReply(config, turn, reply);
        case NotAnLlm => error := Some(WrongResult);
        case LlmUnknown =>
          if turn.llmAttempts < 1 { AwaitLlm(turn.(llmAttempts := turn.llmAttempts + 1)); } else { ApplyTerminal(); }
        case _ => ApplyTerminal();
      }
    }

    method CompactionReply(config: Config, turn: ActiveTurn, reply: Turn.Response) returns (error: Option<HandlerError>)
      requires turn.phase.Compacting?
      modifies this
      ensures var spec := HandleCompacted(config, old(View()), turn, reply);
              if spec.Ok? then error.None? && View() == spec.value
              else error == Some(spec.error) && View() == old(View())
    {
      if Digest(projection) != turn.phase.digest { return Some(ProjectionChanged); }
      error := None;
      if !reply.provider || !reply.stop.Stop? || reply.compaction.None? { ApplyTerminal(); return; }
      if generation >= MAX_GENERATION { return Some(GenerationOverflow); }
      generation := generation + 1;
      projection := config.retain(projection) + [Native(reply.compaction.value)];
      estimate := Some(RequestTokens(config, projection));
      var input := [];
      if turn.phase.initial.Some? { input := [turn.phase.initial.value]; }
      ExtendProjection(config, AsUsers(input + turn.steering));
      AwaitLlm(turn.(steering := []));
    }

    method CompactionOutcomeFor(config: Config, turn: ActiveTurn, outcome: LlmOutcome) returns (error: Option<HandlerError>)
      requires turn.phase.Compacting?
      modifies this
      ensures var spec := HandleCompactionOutcome(config, old(View()), turn, outcome);
              if spec.Ok? then error.None? && View() == spec.value
              else error == Some(spec.error) && View() == old(View())
    {
      error := None;
      match outcome {
        case LlmSucceeded(reply) => error := CompactionReply(config, turn, reply);
        case NotAnLlm => error := Some(WrongResult);
        case LlmUnknown =>
          if turn.phase.attempt < MAX_COMPACTION_ATTEMPTS {
            var operation := RequestLlm();
            active := Some(turn.(phase := turn.phase.(operation := operation, attempt := turn.phase.attempt + 1)));
          } else {
            ApplyTerminal();
          }
        case _ => ApplyTerminal();
      }
    }

    method LlmCompletion(config: Config, operation: OpId, outcome: LlmOutcome) returns (error: Option<HandlerError>)
      modifies this
      ensures var spec := HandleLlmCompletion(config, old(View()), operation, outcome);
              if spec.Ok? then error.None? && View() == spec.value
              else error == Some(spec.error) && View() == old(View())
    {
      if active.None? { return Some(NoActiveTurn); }
      var turn := active.value;
      match turn.phase {
        case AwaitingLlm(expected) =>
          if expected != operation { return Some(LlmMismatch); }
          error := LlmOutcomeFor(config, turn, outcome);
        case Compacting(expected, _, _, _, _) =>
          if expected != operation { return Some(LlmMismatch); }
          error := CompactionOutcomeFor(config, turn, outcome);
        case _ => error := Some(NotAwaitingLlm);
      }
    }

    /** `handle_execution_completion` */
    method ExecutionCompletion(config: Config, operation: OpId, outcome: ExecutionOutcome)
      returns (error: Option<HandlerError>)
      modifies this
      ensures var spec := HandleExecutionCompletion(config, old(View()), operation, outcome);
              if spec.Ok? then error.None? && View() == spec.value
              else error == Some(spec.error) && View() == old(View())
    {
      if active.None? { return Some(NoActiveTurn); }
      var turn := active.value;
      if !turn.phase.ExecutingTools? { return Some(NotExecutingTools); }
      var stored := new ToolPlanState.Restored(turn.phase.plan);
      var applied := stored.Apply(shells, operation, outcome);
      if applied.Err? { return Some(if applied.error.NotSubmitted? then ToolMismatch else WrongResult); }
      if !OrdinalsValid(stored.View()) { return Some(InvalidOrdinal); }
      error := None;
      shells := applied.value;
      ScheduleTools(config, turn, stored);
    }

    /** `handle` */
    method Handle(config: Config, event: Event) returns (error: Option<HandlerError>)
      modifies this
      ensures var spec := HandleEvent(config, old(View()), event);
              if spec.Ok? then error.None? && View() == spec.value
              else error == Some(spec.error) && View() == old(View())
    {
      error := None;
      if failed || cancelled { return; }
      match event {
        case UserInput(text) => UserMessage(config, text);
        case LlmCompleted(operation, outcome) => error := LlmCompletion(config, operation, outcome);
        case ExecutionCompleted(operation, outcome) => error := ExecutionCompletion(config, operation, outcome);
        case CancelRequested => var _ := BeginCancellation();
        case WaitResumed => error := Some(Unsupported);
      }
    }

    /** Returns the operations to withdraw. */
    method BeginCancellation() returns (targets: set<OpId>)
      modifies this`active, this`cancelled
      ensures View() == BeginCancelling(old(View()))
      ensures targets == if old(active).Some? then CancellationTargets(old(active).value.phase) else {}
    {
      targets := {};
      if active.Some? {
        var turn := active.value;
        targets := CancellationTargets(turn.phase);
        active := Some(turn.(phase := Cancelling, steering := []));
      }
      cancelled := true;
    }
  }
}
