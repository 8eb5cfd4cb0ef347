/** What the model sees of the inputs it was given: nothing that entered the projection leaves it
    except by a compaction. */
module TurnProjection {
  import opened Prelude
  import opened ToolPlan
  import opened ToolScheduling
  import opened Turn
  import opened TurnSafety

  /** What follows the last compaction item. */
  function SinceCompaction(messages: seq<Message>): seq<Message> {
    if messages == [] || messages[|messages| - 1].Native? then []
    else SinceCompaction(messages[..|messages| - 1]) + [messages[|messages| - 1]]
  }

  predicate Plain(messages: seq<Message>) { forall i :: 0 <= i < |messages| ==> !messages[i].Native? }

  /** The inputs in the projection since its last compaction are exactly those given from the `k`-th on;
      before the first compaction they are all that were ever given. */
  predicate Projected(h: Harness, k: nat) {
    && 1 <= h.generation && k <= |h.given|
    && (h.generation == 1 ==> k == 0 && Inputs(h.projection) == h.given)
    && Inputs(SinceCompaction(h.projection)) == h.given[k..]
  }

  /** How many inputs had been given when the last compaction succeeded; only that raises the generation. */
  function GivenBefore(config: Config, events: seq<Event>): nat {
    if events == [] then 0
    else
      var before := After(config, events[..|events| - 1]);
      if After(config, events).h.generation != before.h.generation then |before.h.given|
      else GivenBefore(config, events[..|events| - 1])
  }

  lemma {:induction false} InputsJoin(a: seq<Message>, b: seq<Message>)
    ensures Inputs(a + b) == Inputs(a) + Inputs(b)
  {
    if b == [] {
      assert a + b == a;
    } else {
      assert (a + b)[..|a + b| - 1] == a + b[..|b| - 1];
      InputsJoin(a, b[..|b| - 1]);
    }
  }

  lemma {:induction false} SinceCompactionJoins(a: seq<Message>, b: seq<Message>)
    requires Plain(b)
    ensures SinceCompaction(a + b) == SinceCompaction(a) + b
  {
    if b == [] {
      assert a + b == a;
    } else {
      var n := |b| - 1;
      assert (a + b)[..|a| + n] == a + b[..n];
      assert (a + b)[|a| + n] == b[n];
      SinceCompactionJoins(a, b[..n]);
      assert b == b[..n] + [b[n]];
    }
  }

  lemma GivenFrom(given: seq<string>, more: seq<string>, k: nat)
    requires k <= |given|
    ensures (given + more)[k..] == given[k..] + more
  {
  }

  /** `messages` are appended, and the inputs among them logged. */
  lemma AppendingProjects(h: Harness, h': Harness, messages: seq<Message>, k: nat)
    requires Projected(h, k) && Plain(messages) && h'.generation == h.generation
    requires h'.projection == h.projection + messages && h'.given == h.given + Inputs(messages)
    ensures Projected(h', k)
  {
    InputsJoin(h.projection, messages);
    SinceCompactionJoins(h.projection, messages);
    InputsJoin(SinceCompaction(h.projection), messages);
    GivenFrom(h.given, Inputs(messages), k);
  }

  /** `h'` was reached without a compaction, and what is projected still is. */
  predicate StillProjected(h: Harness, h': Harness, k: nat) { h'.generation == h.generation && Projected(h', k) }

  lemma OneInput(text: string)
    ensures Inputs([User(text)]) == [text]
  {
    assert [User(text)][..0] == [];
  }

  lemma UserMessageProjects(config: Config, h: Harness, text: string, k: nat)
    requires Projected(h, k)
    ensures StillProjected(h, HandleUserMessage(config, h, text), k)
  {
    if h.active.None? && !NeedsCompaction(config, h) {
      OneInput(text);
      AppendingProjects(h, HandleUserMessage(config, h, text), [User(text)], k);
    }
  }

  lemma BoundaryProjects(config: Config, h: Harness, turn: ActiveTurn, k: nat)
    requires Projected(h, k)
    ensures StillProjected(h, StageAfterBoundary(config, h, turn), k)
  {
    if !NeedsCompaction(config, h) {
      AppendingProjects(h, StageAfterBoundary(config, h, turn), AsUsers(turn.steering), k);
    }
  }

  lemma PlanProjects(config: Config, h: Harness, turn: ActiveTurn, plan: Plan, k: nat)
    requires Projected(h, k) && IsComplete(plan)
    ensures StillProjected(h, AfterPlan(config, h, turn, plan), k)
  {
    AppendingProjects(h, Extend(config, h, ResultMessages(plan)), ResultMessages(plan), k);
    BoundaryProjects(config, Extend(config, h, ResultMessages(plan)), turn, k);
  }

  lemma ToolsProject(config: Config, h: Harness, turn: ActiveTurn, plan: Plan, k: nat)
    requires Projected(h, k) && OrdinalsValid(plan)
    ensures StillProjected(h, RunTools(config, h, turn, plan), k)
  {
    var (plan', next) := ScheduleReady(plan, h.shells, h.next);
    SchedulingCountsUp(plan, h.shells, h.next);
    var h' := StagedExecutions(h, next).(active := Some(turn.(phase := ExecutingTools(plan'))));
    assert Projected(h', k);
    if IsComplete(plan') { PlanProjects(config, h', turn, plan', k); }
  }

  lemma ReadProjects(h: Harness, reply: Turn.Response, k: nat)
    requires Projected(h, k)
    ensures StillProjected(h, Read(h, reply), k)
  {
    NoInputs([Assistant(reply.text)]);
    AppendingProjects(h, Read(h, reply), [Assistant(reply.text)], k);
  }

  lemma PlannedReplyProjects(config: Config, h: Harness, turn: ActiveTurn, reply: Turn.Response, k: nat)
    requires Projected(Read(h, reply), k) && reply.provider
    requires ParsePlan(reply.items, reply.stop).Ok? && ParsePlan(reply.items, reply.stop).value.Some?
    ensures StillProjected(h, HandleReply(config, h, turn, reply), k)
  {
    var plan := ParsePlan(reply.items, reply.stop).value.value;
    PlannedOrdinalsAreValid(reply.items, reply.stop);
    if IsComplete(plan) {
      PlanProjects(config, Read(h, reply), turn, plan, k);
    } else {
      ToolsProject(config, Read(h, reply), turn, plan, k);
    }
  }

  /** Without a plan the reply only ends the turn, fails it or leads to the next request. */
  lemma PlainReplyShape(config: Config, h: Harness, turn: ActiveTurn, reply: Turn.Response)
    requires ParsePlan(reply.items, reply.stop).Ok? ==> ParsePlan(reply.items, reply.stop).value.None?
    ensures var after := HandleReply(config, h, turn, reply); var read := Read(h, reply);
            after == Fail(h) || after == Fail(read) || after == read.(active := None)
            || after == StageAfterBoundary(config, read, turn)
  {
  }

  lemma PlainReplyProjects(config: Config, h: Harness, turn: ActiveTurn, reply: Turn.Response, k: nat)
    requires Projected(h, k) && StillProjected(h, Read(h, reply), k)
    requires StillProjected(h, StageAfterBoundary(config, Read(h, reply), turn), k)
    requires ParsePlan(reply.items, reply.stop).Ok? ==> ParsePlan(reply.items, reply.stop).value.None?
    ensures StillProjected(h, HandleReply(config, h, turn, reply), k)
  {
    PlainReplyShape(config, h, turn, reply);
    var after := HandleReply(config, h, turn, reply);
    if after != StageAfterBoundary(config, Read(h, reply), turn) {
      var from := if after == Fail(h) then h else Read(h, reply);
      assert after.projection == from.projection && after.given == from.given && after.generation == from.generation;
    }
  }

  lemma ReplyProjects(config: Config, h: Harness, turn: ActiveTurn, reply: Turn.Response, k: nat)
    requires Projected(h, k)
    ensures StillProjected(h, HandleReply(config, h, turn, reply), k)
  {
    ReadProjects(h, reply, k);
    var parsed := ParsePlan(reply.items, reply.stop);
    if reply.provider && parsed.Ok? && parsed.value.Some? {
      PlannedReplyProjects(config, h, turn, reply, k);
    } else if parsed.Ok? && parsed.value.Some? {
      assert HandleReply(config, h, turn, reply) == Fail(h);
    } else {
      BoundaryProjects(config, Read(h, reply), turn, k);
      PlainReplyProjects(config, h, turn, reply, k);
    }
  }

  // ---------------------------------------------------------------- compaction

  lemma CompactionIs(config: Config, h: Harness, turn: ActiveTurn, reply: Turn.Response)
    requires turn.phase.Compacting? && HandleCompacted(config, h, turn, reply).Ok?
    requires HandleCompacted(config, h, turn, reply).value.generation != h.generation
    ensures reply.compaction.Some?
    ensures var after := HandleCompacted(config, h, turn, reply).value; var inputs := Held(turn.phase) + turn.steering;
            && after.generation == h.generation + 1 && after.given == h.given + Inputs(AsUsers(inputs))
            && after.projection == config.retain(h.projection) + [Native(reply.compaction.value)] + AsUsers(inputs)
  {
  }

  lemma AfterTheItem(retained: seq<Message>, item: string, inputs: seq<string>)
    ensures Inputs(SinceCompaction(retained + [Native(item)] + AsUsers(inputs))) == inputs
    ensures Inputs(AsUsers(inputs)) == inputs
  {
    var projection := retained + [Native(item)];
    assert projection[|projection| - 1] == Native(item) && SinceCompaction(projection) == [];
    SinceCompactionJoins(projection, AsUsers(inputs));
    InputsOfUsers(inputs);
    assert [] + AsUsers(inputs) == AsUsers(inputs);
  }

  /** A compaction that succeeds gives the held input and then the steering, and nothing else of the
      inputs stands after its compaction item. */
  lemma CompactionGivesWhatWasHeld(config: Config, h: Harness, turn: ActiveTurn, reply: Turn.Response)
    requires turn.phase.Compacting? && HandleCompacted(config, h, turn, reply).Ok?
    requires HandleCompacted(config, h, turn, reply).value.generation != h.generation
    ensures var after := HandleCompacted(config, h, turn, reply).value;
            && after.given == h.given + Held(turn.phase) + turn.steering
            && Inputs(SinceCompaction(after.projection)) == Held(turn.phase) + turn.steering
            && after.generation == h.generation + 1
  {
    CompactionIs(config, h, turn, reply);
    var inputs := Held(turn.phase) + turn.steering;
    AfterTheItem(config.retain(h.projection), reply.compaction.value, inputs);
    assert h.given + inputs == h.given + Held(turn.phase) + turn.steering;
  }

  /** Whether or not the handler compacted, it left the inputs projected from the right one on. */
  predicate ProjectedAfter(h: Harness, h': Harness, k: nat) {
    Projected(h', if h'.generation != h.generation then |h.given| else k)
  }

  lemma CompactedProjects(config: Config, h: Harness, turn: ActiveTurn, reply: Turn.Response, k: nat)
    requires Projected(h, k) && turn.phase.Compacting?
    ensures HandleCompacted(config, h, turn, reply).Ok? ==>
              ProjectedAfter(h, HandleCompacted(config, h, turn, reply).value, k)
  {
    var handled := HandleCompacted(config, h, turn, reply);
    if handled.Ok? && handled.value.generation != h.generation {
      CompactionGivesWhatWasHeld(config, h, turn, reply);
      assert handled.value.given[|h.given|..] == Held(turn.phase) + turn.steering;
    }
  }

  lemma LlmCompletionProjects(config: Config, h: Harness, operation: OpId, outcome: LlmOutcome, k: nat)
    requires Projected(h, k) && HandleLlmCompletion(config, h, operation, outcome).Ok?
    ensures ProjectedAfter(h, HandleLlmCompletion(config, h, operation, outcome).value, k)
  {
    var turn := h.active.value;
    if outcome.LlmSucceeded? {
      if turn.phase.AwaitingLlm? {
        ReplyProjects(config, h, turn, outcome.reply, k);
      } else {
        CompactedProjects(config, h, turn, outcome.reply, k);
      }
    }
  }

  lemma ExecutionCompletionProjects(config: Config, h: Harness, operation: OpId, outcome: ExecutionOutcome, k: nat)
    requires Projected(h, k) && HandleExecutionCompletion(config, h, operation, outcome).Ok?
    ensures StillProjected(h, HandleExecutionCompletion(config, h, operation, outcome).value, k)
  {
    var turn := h.active.value;
    var applied := ApplyCompletion(turn.phase.plan, h.shells, operation, outcome).value;
    ToolsProject(config, h.(shells := applied.1), turn, applied.0, k);
  }

  lemma EventProjects(config: Config, h: Harness, event: Event, k: nat)
    requires Projected(h, k) && HandleEvent(config, h, event).Ok?
    ensures ProjectedAfter(h, HandleEvent(config, h, event).value, k)
  {
    if !h.failed && !h.cancelled {
      match event
      case UserInput(text) => UserMessageProjects(config, h, text, k);
      case LlmCompleted(operation, outcome) => LlmCompletionProjects(config, h, operation, outcome, k);
      case ExecutionCompleted(operation, outcome) => ExecutionCompletionProjects(config, h, operation, outcome, k);
      case _ =>
    }
  }

  /** What has arrived and was not given yet. */
  function Waiting(h: Harness): seq<string> {
    if h.active.None? then [] else Held(h.active.value.phase) + h.active.value.steering
  }

  lemma Accounted(h: Harness, k: nat)
    requires Projected(h, k)
    ensures h.given[..k] + Inputs(SinceCompaction(h.projection)) + Waiting(h)
         == if h.active.None? then h.given else h.given + Held(h.active.value.phase) + h.active.value.steering
  {
    assert h.given == h.given[..k] + h.given[k..];
    if h.active.Some? {
      var held, steering := Held(h.active.value.phase), h.active.value.steering;
      assert h.given + (held + steering) == h.given + held + steering;
    }
  }

  // ---------------------------------------------------------------- main results

  /** In every session the inputs after the last compaction item are exactly those given since that
      compaction, in order; `GivenBefore` counts the ones given earlier. */
  lemma {:induction false} GivenInputsAreProjected(config: Config, events: seq<Event>)
    ensures Projected(After(config, events).h, GivenBefore(config, events))
  {
    if events != [] {
      var before := After(config, events[..|events| - 1]);
      var k := GivenBefore(config, events[..|events| - 1]);
      GivenInputsAreProjected(config, events[..|events| - 1]);
      var event := events[|events| - 1];
      if HandleEvent(config, before.h, event).Ok? { EventProjects(config, before.h, event, k); }
    }
  }

  /** While the session is neither failed nor cancelled, every input that arrived was given before the last
      compaction, or stands in the projection after it, or is held for the compaction under way, or is
      pending steering: these four, one after another, are the inputs in order of arrival. */
  lemma ArrivedInputsAreAccountedFor(config: Config, events: seq<Event>)
    ensures var s := After(config, events); var k := GivenBefore(config, events);
            !s.h.failed && !s.h.cancelled ==>
              && k <= |s.h.given|
              && s.arrived == s.h.given[..k] + Inputs(SinceCompaction(s.h.projection)) + Waiting(s.h)
  {
    GivenInputsAreProjected(config, events);
    SteeringIsConserved(config, events);
    Accounted(After(config, events).h, GivenBefore(config, events));
  }
}
