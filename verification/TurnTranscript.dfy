/** What each event adds to the projection, and where it leaves the turn: every reply and every tool result
    reaches the model, in order, and a turn goes on, ends or fails for stated reasons only. */
module TurnTranscript {
  import opened Prelude
  import opened ToolPlan
  import opened ToolScheduling
  import opened Turn
  import opened TurnSafety
  import opened TurnProjection

  // ---------------------------------------------------------------- what an event says

  predicate Live(h: Harness) { !h.failed && !h.cancelled }

  /** One result for each call, in the order of the calls. */
  function Results(calls: seq<Call>): seq<Message>
    requires forall i :: 0 <= i < |calls| ==> calls[i].status.Completed?
  {
    seq(|calls|, i requires 0 <= i < |calls| => ToolResult(calls[i].id, calls[i].status.snapshot))
  }

  /** The reply of an awaited model call, if the event brings one that is to be read. */
  function ReplyTo(h: Harness, event: Event): Option<Turn.Response> {
    if h.active.Some? && h.active.value.phase.AwaitingLlm? && event.LlmCompleted? && event.llm.LlmSucceeded?
       && event.llm.reply.provider
    then Some(event.llm.reply) else None
  }

  /** The plan once its ready calls are scheduled. */
  function Scheduled(plan: Plan, shells: Shells, next: OpId): Plan
    requires OrdinalsValid(plan)
  {
    if IsComplete(plan) then plan else ScheduleReady(plan, shells, next).0
  }

  /** The plan as the event leaves it: a new one, or the active one with a call completed. */
  function PlanAfter(h: Harness, event: Event): Option<Plan> {
    if ReplyTo(h, event).Some? then
      var reply := ReplyTo(h, event).value;
      var parsed := ParsePlan(reply.items, reply.stop);
      if parsed.Ok? && parsed.value.Some? && OrdinalsValid(parsed.value.value)
      then Some(Scheduled(parsed.value.value, h.shells, h.next)) else None
    else if event.ExecutionCompleted? && h.active.Some? && h.active.value.phase.ExecutingTools? then
      var applied := ApplyCompletion(h.active.value.phase.plan, h.shells, event.operation, event.execution);
      if applied.Ok? && OrdinalsValid(applied.value.0)
      then Some(ScheduleReady(applied.value.0, applied.value.1, h.next).0) else None
    else None
  }

  predicate FinishesPlan(h: Harness, event: Event) { PlanAfter(h, event).Some? && IsComplete(PlanAfter(h, event).value) }

  /** What the event adds besides inputs: the reply, then the results of a plan it finished. */
  function Said(h: Harness, event: Event): seq<Message> {
    (if ReplyTo(h, event).Some? then [Assistant(ReplyTo(h, event).value.text)] else [])
    + (if FinishesPlan(h, event) then Results(PlanAfter(h, event).value.calls) else [])
  }

  /** `after` has `said` and then the inputs given meanwhile at the end of its projection. */
  predicate Extends(before: Harness, after: Harness, said: seq<Message>) {
    && after.generation == before.generation
    && |before.given| <= |after.given| && after.given[..|before.given|] == before.given
    && after.projection == before.projection + said + AsUsers(after.given[|before.given|..])
  }

  lemma NothingSaid(before: Harness, after: Harness)
    requires after.generation == before.generation && after.given == before.given && after.projection == before.projection
    ensures Extends(before, after, [])
  {
    assert after.given[|before.given|..] == [] && AsUsers([]) == [];
    assert before.projection + [] + [] == before.projection;
  }

  lemma InputsGiven(before: Harness, after: Harness, said: seq<Message>, inputs: seq<string>)
    requires after.generation == before.generation && after.given == before.given + inputs
    requires after.projection == before.projection + said + AsUsers(inputs)
    ensures Extends(before, after, said)
  {
    assert after.given[|before.given|..] == inputs;
  }

  lemma OnlySaid(before: Harness, after: Harness, said: seq<Message>)
    requires after.generation == before.generation && after.given == before.given
    requires after.projection == before.projection + said
    ensures Extends(before, after, said)
  {
    assert AsUsers([]) == [] && before.projection + said + [] == before.projection + said;
    InputsGiven(before, after, said, []);
  }

  lemma ExtendsThenMore(a: Harness, b: Harness, c: Harness, said: seq<Message>, more: seq<Message>)
    requires b.generation == a.generation && b.given == a.given && b.projection == a.projection + said
    requires Extends(b, c, more)
    ensures Extends(a, c, said + more)
  {
    var users := AsUsers(c.given[|a.given|..]);
    assert a.projection + said + more + users == a.projection + (said + more) + users;
  }

  // ---------------------------------------------------------------- boundaries

  /** The next request to the model, or a compaction that holds the steering back. */
  predicate GoesOn(config: Config, before: Harness, after: Harness, turn: ActiveTurn, said: seq<Message>) {
    && Live(after) && after.active.Some? && after.next == before.next + 1
    && after.staged == before.staged[before.next := LlmOp] && after.active.value.llmAttempts == turn.llmAttempts
    && var tokens := if before.estimate.Some? then before.estimate.value + Total(config, said)
                     else RequestTokens(config, before.projection + said);
       if tokens >= config.limit then
         && after.active.value.phase == Compacting(before.next, Digest(before.projection + said), 1, MidTurn, None)
         && after.active.value.steering == turn.steering && after.given == before.given
       else
         && after.active.value.phase == AwaitingLlm(before.next) && after.active.value.steering == []
         && after.given == before.given + turn.steering
  }

  lemma BoundarySays(config: Config, h: Harness, turn: ActiveTurn)
    requires Live(h)
    ensures var after := StageAfterBoundary(config, h, turn); Extends(h, after, []) && GoesOn(config, h, after, turn, [])
  {
    var after := StageAfterBoundary(config, h, turn);
    assert h.projection + [] == h.projection;
    if NeedsCompaction(config, h) {
      NothingSaid(h, after);
    } else {
      InputsOfUsers(turn.steering);
      InputsGiven(h, after, [], turn.steering);
    }
  }

  lemma ResultsSay(plan: Plan)
    requires IsComplete(plan)
    ensures ResultMessages(plan) == Results(plan.calls) && Inputs(ResultMessages(plan)) == [] && Plain(ResultMessages(plan))
  {
    NoInputs(ResultMessages(plan));
  }

  /** A finished plan gives the model one result for each call, in call order, and then, unless the projection
      has to be compacted first, the steering. */
  lemma FinishedPlansSay(config: Config, h: Harness, turn: ActiveTurn, plan: Plan)
    requires Live(h) && IsComplete(plan)
    ensures var after := AfterPlan(config, h, turn, plan);
            Extends(h, after, Results(plan.calls)) && GoesOn(config, h, after, turn, Results(plan.calls))
  {
    ResultsSay(plan);
    var said := Results(plan.calls);
    var mid := Extend(config, h, said);
    assert mid.given == h.given + [] == h.given;
    BoundarySays(config, mid, turn);
    var after := StageAfterBoundary(config, mid, turn);
    ExtendsThenMore(h, mid, after, said, []);
    assert said + [] == said && mid.projection + [] == mid.projection;
    assert Total(config, []) == 0;
  }

  /** The turn with its plan scheduled. */
  predicate WaitsForTools(before: Harness, after: Harness, turn: ActiveTurn, plan: Plan) {
    Live(after) && after.active == Some(turn.(phase := ExecutingTools(plan)))
  }

  lemma RunToolsSay(config: Config, h: Harness, turn: ActiveTurn, plan: Plan)
    requires Live(h) && OrdinalsValid(plan)
    ensures var after := RunTools(config, h, turn, plan); var scheduled := ScheduleReady(plan, h.shells, h.next).0;
            if IsComplete(scheduled) then Extends(h, after, Results(scheduled.calls))
            else Extends(h, after, []) && WaitsForTools(h, after, turn, scheduled)
  {
    var (scheduled, next) := ScheduleReady(plan, h.shells, h.next);
    SchedulingCountsUp(plan, h.shells, h.next);
    var staged := StagedExecutions(h, next).(active := Some(turn.(phase := ExecutingTools(scheduled))));
    if IsComplete(scheduled) {
      FinishedPlansSay(config, staged, turn, scheduled);
    } else {
      NothingSaid(h, staged);
    }
  }

  /** Once scheduling finishes the plan, the turn goes on from there. */
  lemma RunToolsGoOn(config: Config, h: Harness, turn: ActiveTurn, plan: Plan)
    requires Live(h) && OrdinalsValid(plan) && IsComplete(ScheduleReady(plan, h.shells, h.next).0)
    ensures var after := RunTools(config, h, turn, plan); var (scheduled, next) := ScheduleReady(plan, h.shells, h.next);
            next >= h.next && GoesOn(config, StagedExecutions(h, next), after, turn, Results(scheduled.calls))
  {
    var (scheduled, next) := ScheduleReady(plan, h.shells, h.next);
    SchedulingCountsUp(plan, h.shells, h.next);
    FinishedPlansSay(config, StagedExecutions(h, next).(active := Some(turn.(phase := ExecutingTools(scheduled)))), turn, scheduled);
  }

  // ---------------------------------------------------------------- replies

  lemma PlannedReplySays(config: Config, h: Harness, turn: ActiveTurn, reply: Turn.Response)
    requires Live(h) && reply.provider
    requires ParsePlan(reply.items, reply.stop).Ok? && ParsePlan(reply.items, reply.stop).value.Some?
    ensures var plan := ParsePlan(reply.items, reply.stop).value.value; var after := HandleReply(config, h, turn, reply);
            && OrdinalsValid(plan)
            && var scheduled := Scheduled(plan, h.shells, h.next);
               if IsComplete(scheduled) then Extends(Read(h, reply), after, Results(scheduled.calls))
               else Extends(Read(h, reply), after, []) && WaitsForTools(h, after, turn, scheduled)
  {
    var plan := ParsePlan(reply.items, reply.stop).value.value;
    PlannedOrdinalsAreValid(reply.items, reply.stop);
    if IsComplete(plan) {
      FinishedPlansSay(config, Read(h, reply), turn, plan);
    } else {
      RunToolsSay(config, Read(h, reply), turn, plan);
    }
  }

  /** A reply without calls ends the turn if the model stopped and nothing was steered, fails it if it was cut
      off, and otherwise leads to the next request. */
  predicate PlainReplyLeads(config: Config, h: Harness, turn: ActiveTurn, reply: Turn.Response, after: Harness) {
    var read := Read(h, reply);
    match reply.stop
    case PauseTurn => GoesOn(config, read, after, turn, [])
    case Length => after.failed && after.active.None?
    case ContentFilter => after.failed && after.active.None?
    case ToolUse => after.failed && after.active.None?
    case _ =>
      if turn.steering != [] then GoesOn(config, read, after, turn, [])
      else Live(after) && after.active.None? && after.staged == h.staged
  }

  lemma PlainReplySays(config: Config, h: Harness, turn: ActiveTurn, reply: Turn.Response)
    requires Live(h) && reply.provider
    requires ParsePlan(reply.items, reply.stop).Ok? && ParsePlan(reply.items, reply.stop).value.None?
    ensures var after := HandleReply(config, h, turn, reply);
            Extends(Read(h, reply), after, []) && PlainReplyLeads(config, h, turn, reply, after)
  {
    var read, after := Read(h, reply), HandleReply(config, h, turn, reply);
    BoundarySays(config, read, turn);
    if after == StageAfterBoundary(config, read, turn) {
    } else {
      NothingSaid(read, after);
    }
  }

  lemma UnreadableReplySays(config: Config, h: Harness, turn: ActiveTurn, reply: Turn.Response)
    requires Live(h) && (!reply.provider || ParsePlan(reply.items, reply.stop).Err?)
    ensures var after := HandleReply(config, h, turn, reply);
            && after.failed && after.active.None?
            && Extends(if reply.provider then Read(h, reply) else h, after, [])
  {
    NothingSaid(if reply.provider then Read(h, reply) else h, HandleReply(config, h, turn, reply));
  }

  /** What a reply adds: its text, then the results of its plan if they are all known at once. */
  function ReplySaid(h: Harness, reply: Turn.Response): seq<Message> {
    if !reply.provider then []
    else
      var parsed := ParsePlan(reply.items, reply.stop);
      [Assistant(reply.text)]
      + if parsed.Ok? && parsed.value.Some? && OrdinalsValid(parsed.value.value)
           && IsComplete(Scheduled(parsed.value.value, h.shells, h.next))
        then Results(Scheduled(parsed.value.value, h.shells, h.next).calls) else []
  }

  lemma ReplySays(config: Config, h: Harness, turn: ActiveTurn, reply: Turn.Response)
    requires Live(h)
    ensures Extends(h, HandleReply(config, h, turn, reply), ReplySaid(h, reply))
  {
    var parsed := ParsePlan(reply.items, reply.stop);
    var after := HandleReply(config, h, turn, reply);
    if !reply.provider || parsed.Err? {
      UnreadableReplySays(config, h, turn, reply);
      if reply.provider { ExtendsThenMore(h, Read(h, reply), after, [Assistant(reply.text)], []); }
    } else if parsed.value.Some? {
      PlannedReplySays(config, h, turn, reply);
      var scheduled := Scheduled(parsed.value.value, h.shells, h.next);
      ExtendsThenMore(h, Read(h, reply), after, [Assistant(reply.text)],
                      if IsComplete(scheduled) then Results(scheduled.calls) else []);
    } else {
      PlainReplySays(config, h, turn, reply);
      ExtendsThenMore(h, Read(h, reply), after, [Assistant(reply.text)], []);
    }
  }

  // ---------------------------------------------------------------- every event

  /** The event replaced the projection: what is retained, the compaction item, and the inputs held so far. */
  predicate Compacts(config: Config, before: Harness, after: Harness, event: Event) {
    && event.LlmCompleted? && event.llm.LlmSucceeded? && event.llm.reply.compaction.Some?
    && before.active.Some? && before.active.value.phase.Compacting?
    && after.generation == before.generation + 1
    && |before.given| <= |after.given| && after.given[..|before.given|] == before.given
    && after.given[|before.given|..] == Held(before.active.value.phase) + before.active.value.steering
    && after.projection == config.retain(before.projection) + [Native(event.llm.reply.compaction.value)]
                           + AsUsers(after.given[|before.given|..])
  }

  lemma InputSays(config: Config, h: Harness, text: string)
    requires Live(h)
    ensures Extends(h, HandleUserMessage(config, h, text), [])
  {
    var after := HandleUserMessage(config, h, text);
    if h.active.None? && !NeedsCompaction(config, h) {
      assert AsUsers([text]) == [User(text)] && h.projection + [] == h.projection;
      InputsGiven(h, after, [], [text]);
    } else {
      NothingSaid(h, after);
    }
  }

  lemma CompactionReplaces(config: Config, h: Harness, turn: ActiveTurn, reply: Turn.Response, after: Harness, event: Event)
    requires h.active == Some(turn) && turn.phase.Compacting? && event.LlmCompleted? && event.llm == LlmSucceeded(reply)
    requires reply.compaction.Some? && after.generation == h.generation + 1
    requires after.given == h.given + (Held(turn.phase) + turn.steering)
    requires after.projection == config.retain(h.projection) + [Native(reply.compaction.value)]
                                 + AsUsers(Held(turn.phase) + turn.steering)
    ensures Compacts(config, h, after, event)
  {
    assert after.given[|h.given|..] == Held(turn.phase) + turn.steering;
  }

  lemma CompactionSays(config: Config, h: Harness, turn: ActiveTurn, reply: Turn.Response, event: Event)
    requires Live(h) && h.active == Some(turn) && turn.phase.Compacting? && HandleCompacted(config, h, turn, reply).Ok?
    requires event.LlmCompleted? && event.llm == LlmSucceeded(reply)
    ensures var after := HandleCompacted(config, h, turn, reply).value;
            Extends(h, after, []) || Compacts(config, h, after, event)
  {
    var after := HandleCompacted(config, h, turn, reply).value;
    if after.generation == h.generation {
      CompactionFailed(config, h, turn, reply);
      NothingSaid(h, after);
    } else {
      CompactionIs(config, h, turn, reply);
      InputsOfUsers(Held(turn.phase) + turn.steering);
      CompactionReplaces(config, h, turn, reply, after, event);
    }
  }

  lemma CompactionFailed(config: Config, h: Harness, turn: ActiveTurn, reply: Turn.Response)
    requires turn.phase.Compacting? && HandleCompacted(config, h, turn, reply).Ok?
    requires HandleCompacted(config, h, turn, reply).value.generation == h.generation
    ensures HandleCompacted(config, h, turn, reply).value == Fail(h)
  {
  }

  lemma LlmCompletionSays(config: Config, h: Harness, operation: OpId, outcome: LlmOutcome)
    requires Live(h) && HandleLlmCompletion(config, h, operation, outcome).Ok?
    ensures var after := HandleLlmCompletion(config, h, operation, outcome).value;
            Extends(h, after, Said(h, LlmCompleted(operation, outcome)))
            || Compacts(config, h, after, LlmCompleted(operation, outcome))
  {
    var turn := h.active.value;
    var after := HandleLlmCompletion(config, h, operation, outcome).value;
    if !outcome.LlmSucceeded? {
      NothingSaid(h, after);
    } else if turn.phase.AwaitingLlm? {
      ReplySays(config, h, turn, outcome.reply);
    } else {
      CompactionSays(config, h, turn, outcome.reply, LlmCompleted(operation, outcome));
    }
  }

  lemma ExecutionCompletionSays(config: Config, h: Harness, operation: OpId, outcome: ExecutionOutcome)
    requires Live(h) && HandleExecutionCompletion(config, h, operation, outcome).Ok?
    ensures var after := HandleExecutionCompletion(config, h, operation, outcome).value;
            Extends(h, after, Said(h, ExecutionCompleted(operation, outcome)))
  {
    var turn := h.active.value;
    var applied := ApplyCompletion(turn.phase.plan, h.shells, operation, outcome).value;
    RunToolsSay(config, h.(shells := applied.1), turn, applied.0);
    var scheduled := ScheduleReady(applied.0, applied.1, h.next).0;
    assert PlanAfter(h, ExecutionCompleted(operation, outcome)) == Some(scheduled);
    if IsComplete(scheduled) { assert [] + Results(scheduled.calls) == Results(scheduled.calls); }
  }

  /** Every event that is handled in a live session appends what it said and the inputs it gave, in this
      order, or is the compaction that replaces the projection. */
  lemma EventsExtendTheTranscript(config: Config, h: Harness, event: Event)
    requires Live(h) && HandleEvent(config, h, event).Ok?
    ensures var after := HandleEvent(config, h, event).value;
            Extends(h, after, Said(h, event)) || Compacts(config, h, after, event)
  {
    match event
    case UserInput(text) => InputSays(config, h, text);
    case LlmCompleted(operation, outcome) => LlmCompletionSays(config, h, operation, outcome);
    case ExecutionCompleted(operation, outcome) => ExecutionCompletionSays(config, h, operation, outcome);
    case CancelRequested => NothingSaid(h, HandleEvent(config, h, event).value);
  }

  // ---------------------------------------------------------------- whole sessions

  /** What an event adds to a session's transcript. */
  function Added(config: Config, s: Session, event: Event): seq<Message> {
    var after := Happens(config, s, event);
    if after == s || !Live(s.h) || |after.h.given| < |s.h.given| then []
    else (if after.h.generation == s.h.generation then Said(s.h, event) else []) + AsUsers(after.h.given[|s.h.given|..])
  }

  /** Replies, tool results and inputs since the last compaction, event by event. */
  function Transcript(config: Config, events: seq<Event>): seq<Message> {
    if events == [] then []
    else
      var init, last := events[..|events| - 1], events[|events| - 1];
      var s := After(config, init);
      (if Happens(config, s, last).h.generation == s.h.generation then Transcript(config, init) else [])
      + Added(config, s, last)
  }

  lemma PlainSaid(h: Harness, event: Event)
    ensures Plain(Said(h, event))
  {
  }

  lemma EventAddsToTranscript(config: Config, s: Session, event: Event)
    ensures var after := Happens(config, s, event);
            if after.h.generation == s.h.generation then
              after.h.projection == s.h.projection + Added(config, s, event) && Plain(Added(config, s, event))
            else
              SinceCompaction(after.h.projection) == Added(config, s, event)
  {
    var after := Happens(config, s, event);
    if after == s || !Live(s.h) {
      assert s.h.projection + [] == s.h.projection;
    } else {
      EventsExtendTheTranscript(config, s.h, event);
      PlainSaid(s.h, event);
      var given := after.h.given[|s.h.given|..];
      if Compacts(config, s.h, after.h, event) {
        UsersAfterTheItem(config.retain(s.h.projection), event.llm.reply.compaction.value, given);
        assert [] + AsUsers(given) == AsUsers(given);
      } else {
        ExtendsAppends(s.h, after.h, Said(s.h, event));
      }
    }
  }

  lemma ExtendsAppends(before: Harness, after: Harness, said: seq<Message>)
    requires Extends(before, after, said)
    ensures after.projection == before.projection + (said + AsUsers(after.given[|before.given|..]))
  {
    var users := AsUsers(after.given[|before.given|..]);
    assert before.projection + said + users == before.projection + (said + users);
  }

  lemma UsersAfterTheItem(retained: seq<Message>, item: string, inputs: seq<string>)
    ensures SinceCompaction(retained + [Native(item)] + AsUsers(inputs)) == AsUsers(inputs)
  {
    var projection := retained + [Native(item)];
    assert projection[|projection| - 1] == Native(item) && SinceCompaction(projection) == [];
    SinceCompactionJoins(projection, AsUsers(inputs));
    assert [] + AsUsers(inputs) == AsUsers(inputs);
  }

  /** In every session what stands in the projection after its last compaction item is exactly the replies
      handled, the results of the plans finished and the inputs given since, in the order of the events. */
  lemma {:induction false} ProjectionIsTheTranscript(config: Config, events: seq<Event>)
    ensures SinceCompaction(After(config, events).h.projection) == Transcript(config, events)
    ensures After(config, events).h.generation == 1 ==> After(config, events).h.projection == Transcript(config, events)
    ensures After(config, events).h.generation >= 1
  {
    if events != [] {
      var init, last := events[..|events| - 1], events[|events| - 1];
      var s := After(config, init);
      ProjectionIsTheTranscript(config, init);
      EventAddsToTranscript(config, s, last);
      GenerationsRise(config, s, last);
      var after := Happens(config, s, last);
      if after.h.generation == s.h.generation {
        SinceCompactionJoins(s.h.projection, Added(config, s, last));
      } else {
        assert [] + Added(config, s, last) == Added(config, s, last);
      }
    }
  }

  lemma GenerationsRise(config: Config, s: Session, event: Event)
    ensures var after := Happens(config, s, event);
            after.h.generation == s.h.generation || after.h.generation == s.h.generation + 1
  {
    if Happens(config, s, event) != s && Live(s.h) { EventsExtendTheTranscript(config, s.h, event); }
  }

  // ---------------------------------------------------------------- how a turn goes on

  /** Why the turn is over without failure: the model stopped, called nothing, and nothing is left to say. */
  predicate ModelIsDone(h: Harness, event: Event) {
    && ReplyTo(h, event).Some? && h.active.value.steering == []
    && var reply := ReplyTo(h, event).value;
       ParsePlan(reply.items, reply.stop) == Ok(None) && (reply.stop.Stop? || reply.stop.Refusal?)
  }

  /** Why the turn fails. */
  predicate TurnIsLost(h: Harness, event: Event) {
    && event.LlmCompleted? && h.active.Some?
    && var turn := h.active.value;
       match event.llm
       case LlmFailed => true
       case LlmCancelled => true
       case NotAnLlm => false
       case LlmUnknown =>
         if turn.phase.Compacting? then turn.phase.attempt >= MAX_COMPACTION_ATTEMPTS else turn.llmAttempts >= 1
       case LlmSucceeded(reply) =>
         || !reply.provider
         || (turn.phase.Compacting? && (!reply.stop.Stop? || reply.compaction.None?))
         || (turn.phase.AwaitingLlm?
             && (ParsePlan(reply.items, reply.stop).Err?
                 || (ParsePlan(reply.items, reply.stop).value.None? && (reply.stop.Length? || reply.stop.ContentFilter?))))
  }

  lemma NoCallsMeansNoToolUse(items: seq<Item>, stop: StopReason)
    ensures ParsePlan(items, stop) == Ok(None) ==> !stop.ToolUse?
  {
  }

  lemma ReplyLeads(config: Config, h: Harness, turn: ActiveTurn, reply: Turn.Response, event: Event)
    requires Live(h) && h.active == Some(turn) && turn.phase.AwaitingLlm? && event.LlmCompleted?
    requires event.llm == LlmSucceeded(reply)
    ensures var after := HandleReply(config, h, turn, reply);
            && (after.failed <==> TurnIsLost(h, event))
            && (!after.failed && after.active.None? <==> ModelIsDone(h, event))
  {
    var parsed := ParsePlan(reply.items, reply.stop);
    NoCallsMeansNoToolUse(reply.items, reply.stop);
    if !reply.provider || parsed.Err? {
      UnreadableReplySays(config, h, turn, reply);
    } else if parsed.value.None? {
      PlainReplySays(config, h, turn, reply);
    } else {
      PlannedReplyLeads(config, h, turn, reply);
    }
  }

  lemma PlannedReplyLeads(config: Config, h: Harness, turn: ActiveTurn, reply: Turn.Response)
    requires Live(h) && reply.provider
    requires ParsePlan(reply.items, reply.stop).Ok? && ParsePlan(reply.items, reply.stop).value.Some?
    ensures var after := HandleReply(config, h, turn, reply); Live(after) && after.active.Some?
  {
    var plan := ParsePlan(reply.items, reply.stop).value.value;
    PlannedOrdinalsAreValid(reply.items, reply.stop);
    if IsComplete(plan) {
      FinishedPlansSay(config, Read(h, reply), turn, plan);
    } else {
      RunToolsSay(config, Read(h, reply), turn, plan);
      if IsComplete(ScheduleReady(plan, h.shells, h.next).0) { RunToolsGoOn(config, Read(h, reply), turn, plan); }
    }
  }

  lemma CompactionLeads(config: Config, h: Harness, turn: ActiveTurn, reply: Turn.Response)
    requires Live(h) && h.active == Some(turn) && turn.phase.Compacting? && HandleCompacted(config, h, turn, reply).Ok?
    ensures var after := HandleCompacted(config, h, turn, reply).value;
            && (after.failed <==> !reply.provider || !reply.stop.Stop? || reply.compaction.None?)
            && (!after.failed ==> after.active == Some(turn.(phase := AwaitingLlm(h.next), steering := [])))
  {
  }

  /** In a live session a turn fails and a turn ends for exactly the stated reasons; in every other case it
      goes on. */
  lemma TurnsEndForAReason(config: Config, h: Harness, event: Event)
    requires Live(h) && h.active.Some? && HandleEvent(config, h, event).Ok? && !event.CancelRequested?
    ensures var after := HandleEvent(config, h, event).value;
            && (after.failed <==> TurnIsLost(h, event))
            && (!after.failed && after.active.None? <==> ModelIsDone(h, event))
  {
    var turn := h.active.value;
    match event
    case LlmCompleted(operation, outcome) =>
      if outcome.LlmSucceeded? {
        if turn.phase.AwaitingLlm? {
          ReplyLeads(config, h, turn, outcome.reply, event);
        } else {
          CompactionLeads(config, h, turn, outcome.reply);
        }
      }
    case ExecutionCompleted(operation, outcome) =>
      var applied := ApplyCompletion(turn.phase.plan, h.shells, operation, outcome).value;
      var fed := h.(shells := applied.1);
      RunToolsSay(config, fed, turn, applied.0);
      if IsComplete(ScheduleReady(applied.0, fed.shells, fed.next).0) { RunToolsGoOn(config, fed, turn, applied.0); }
    case _ =>
  }

  /** Where a model outcome that is not a reply leaves a live turn: an unknown one is asked for again, with the
      same compaction if it was one. */
  lemma UnknownOutcomesAreRetried(config: Config, h: Harness, operation: OpId)
    requires Live(h) && h.active.Some? && HandleEvent(config, h, LlmCompleted(operation, LlmUnknown)).Ok?
    requires !TurnIsLost(h, LlmCompleted(operation, LlmUnknown))
    ensures var after := HandleEvent(config, h, LlmCompleted(operation, LlmUnknown)).value; var turn := h.active.value;
            && after == h.(active := after.active, staged := h.staged[h.next := LlmOp], next := h.next + 1)
            && after.active == Some(if turn.phase.Compacting?
                                    then turn.(phase := turn.phase.(operation := h.next, attempt := turn.phase.attempt + 1))
                                    else turn.(phase := AwaitingLlm(h.next), llmAttempts := turn.llmAttempts + 1))
  {
  }

  /** Input during a turn waits for its boundary; otherwise it starts a turn, which asks the model at once or,
      if the projection is at its limit, compacts it first and holds the input. */
  lemma InputIsHeldOrAsked(config: Config, h: Harness, text: string)
    requires Live(h)
    ensures var after := HandleUserMessage(config, h, text);
            if h.active.Some? then after == h.(active := Some(h.active.value.(steering := h.active.value.steering + [text])))
            else
              && after.active.Some? && after.active.value.steering == [] && after.active.value.llmAttempts == 0
              && after.staged == h.staged[h.next := LlmOp] && after.next == h.next + 1
              && if (if h.estimate.Some? then h.estimate.value else RequestTokens(config, h.projection)) >= config.limit
                 then after.active.value.phase == Compacting(h.next, Digest(h.projection), 1, PreTurn, Some(text))
                      && after.projection == h.projection
                 else after.active.value.phase == AwaitingLlm(h.next) && after.projection == h.projection + [User(text)]
  {
  }
}
