/** The tool plan as the turn stores and mutates it. */
module ToolPlanObject {
  import opened Prelude
  import opened ToolPlan
  import opened ToolScheduling

  /** `build_segments` */
  method BuildSegments(calls: seq<Call>) returns (segments: seq<Segment>)
    ensures segments == Segments(calls, |calls|)
    ensures Flat(segments) == PendingOrdinals(calls, |calls|)
    ensures forall s :: 0 <= s < |segments| - 1 ==>
              segments[s].scheduling.Exclusive? || segments[s + 1].scheduling.Exclusive?
  {
    segments := [];
    for i := 0 to |calls|
      invariant segments == Segments(calls, i)
    {
      if calls[i].status.Pending? {
        var scheduling := SchedulingOf(calls[i].tool);
        var last := |segments| - 1;
        if scheduling.ParallelSafe? && |segments| > 0 && segments[last].scheduling.ParallelSafe? {
          segments := segments[last := segments[last].(ordinals := segments[last].ordinals + [i])];
        } else {
          segments := segments + [Segment(scheduling, [i])];
        }
      }
    }
    SegmentsKeepTheOrder(calls, |calls|);
  }

  /** What `ScheduleReady` is, by the outcome of its first pass. */
  lemma SchedulingByPass(plan: Plan, shells: Shells, next: OpId)
    requires OrdinalsValid(plan) && plan.active < |plan.segments|
    ensures var pass := RunPass(plan.calls, shells, plan.segments[plan.active].ordinals);
            var rest := Advance(plan.(calls := pass.calls));
            && (pass.prepared != [] ==>
                  ScheduleReady(plan, shells, next)
                  == (plan.(calls := Stage(pass.calls, pass.prepared, next)), next + |pass.prepared|))
            && (pass.prepared == [] && !pass.immediate ==>
                  ScheduleReady(plan, shells, next) == (plan.(calls := pass.calls), next))
            && (pass.prepared == [] && pass.immediate ==>
                  OrdinalsValid(rest) && Unfinished(rest.calls) < Unfinished(plan.calls)
                  && ScheduleReady(plan, shells, next) == ScheduleReady(rest, shells, next))
  {
    var pass := RunPass(plan.calls, shells, plan.segments[plan.active].ordinals);
    AdvanceKeepsCalls(plan.(calls := pass.calls));
    if pass.immediate { ImmediateMakesProgress(plan.calls, shells, plan.segments[plan.active].ordinals); }
  }

  class ToolPlanState {
    var calls: seq<Call>
    var segments: seq<Segment>
    var active: nat

    function View(): Plan
      reads this
    {
      Plan(calls, segments, active)
    }

    constructor (parsed: seq<Call>)
      ensures View() == NewPlan(parsed)
    {
      var cut := BuildSegments(parsed);
      calls, segments, active := parsed, cut, 0;
    }

    /** A stored plan, as it was saved. */
    constructor Restored(plan: Plan)
      ensures View() == plan
    {
      calls, segments, active := plan.calls, plan.segments, plan.active;
    }

    method AdvanceCompletedSegments()
      modifies this`active
      ensures View() == Advance(old(View()))
    {
      while active < |segments|
        invariant Advance(View()) == Advance(old(View()))
        decreases |segments| - active
      {
        var complete := true;
        var ordinals := segments[active].ordinals;
        for k := 0 to |ordinals|
          invariant complete <==> SegmentDone(calls, Segment(segments[active].scheduling, ordinals[..k]))
        {
          if ordinals[k] >= |calls| || !calls[ordinals[k]].status.Completed? { complete := false; }
          assert ordinals[..k + 1] == ordinals[..k] + [ordinals[k]];
        }
        assert ordinals[..|ordinals|] == ordinals;
        if !complete { break; }
        active := active + 1;
      }
    }

    /** One call of the active segment is looked at. */
    method Consider(shells: Shells, ordinal: nat, busyBefore: set<SessionId>, preparedBefore: seq<Entry>, immediateBefore: bool)
      returns (busy: set<SessionId>, prepared: seq<Entry>, immediate: bool)
      requires ordinal < |calls|
      modifies this`calls
      ensures Pass(calls, busy, prepared, immediate)
           == PassOne(Pass(old(calls), busyBefore, preparedBefore, immediateBefore), shells, ordinal)
    {
      busy, prepared, immediate := busyBefore, preparedBefore, immediateBefore;
      var call := calls[ordinal];
      var resource := Resource(call);
      if resource.Some? && resource.value in busy { return; }
      match Prepare(call, shells) {
        case Nothing =>
        case Denied(snapshot) =>
          calls := calls[ordinal := call.(status := Completed(snapshot))];
          immediate := true;
        case Go(progress) =>
          if resource.None? { resource := ProgressSession(progress); }
          if resource.Some? { busy := busy + {resource.value}; }
          prepared := prepared + [Entry(ordinal, progress)];
      }
    }

    method StagePrepared(prepared: seq<Entry>, first: OpId)
      requires forall k :: 0 <= k < |prepared| ==> prepared[k].ordinal < |calls|
      modifies this`calls
      ensures calls == Stage(old(calls), prepared, first)
    {
      for k := 0 to |prepared|
        invariant |calls| == |old(calls)| && calls == Stage(old(calls), prepared[..k], first)
      {
        assert prepared[..k + 1][..k] == prepared[..k];
        var ordinal := prepared[k].ordinal;
        calls := calls[ordinal := calls[ordinal].(status := Submitted(first + k, prepared[k].progress))];
      }
      assert prepared[..|prepared|] == prepared;
    }

    method RunOnePass(shells: Shells) returns (prepared: seq<Entry>, immediate: bool)
      requires OrdinalsValid(View()) && active < |segments|
      modifies this`calls
      ensures var pass := RunPass(old(calls), shells, segments[active].ordinals);
              calls == pass.calls && prepared == pass.prepared && immediate == pass.immediate
    {
      var ordinals := segments[active].ordinals;
      var busy := SubmittedResources(calls);
      prepared, immediate := [], false;
      for k := 0 to |ordinals|
        invariant |calls| == |old(calls)|
        invariant Pass(calls, busy, prepared, immediate) == RunPass(old(calls), shells, ordinals[..k])
      {
        assert ordinals[..k + 1][..k] == ordinals[..k];
        busy, prepared, immediate := Consider(shells, ordinals[k], busy, prepared, immediate);
      }
      assert ordinals[..|ordinals|] == ordinals;
    }

    /** `schedule_ready` */
    method Schedule(shells: Shells, next: OpId) returns (after: OpId)
      requires OrdinalsValid(View())
      modifies this
      ensures (View(), after) == ScheduleReady(old(View()), shells, next)
    {
      after := next;
      while active < |segments|
        invariant OrdinalsValid(View()) && after == next
        invariant ScheduleReady(View(), shells, next) == ScheduleReady(old(View()), shells, next)
        decreases Unfinished(calls)
      {
        ghost var plan := View();
        SchedulingByPass(plan, shells, next);
        ghost var pass := RunPass(calls, shells, segments[active].ordinals);
        var prepared, immediate := RunOnePass(shells);
        assert View() == plan.(calls := pass.calls);
        if |prepared| > 0 {
          StagePrepared(prepared, next);
          after := next + |prepared|;
          return;
        }
        if !immediate { return; }
        AdvanceCompletedSegments();
      }
    }

    /** `apply_completion` */
    method Apply(shells: Shells, operation: OpId, outcome: ExecutionOutcome) returns (result: Result<Shells, PlanError>)
      modifies this
      ensures var spec := ApplyCompletion(old(View()), shells, operation, outcome);
              if spec.Err? then View() == old(View()) && result == Err(spec.error)
              else (View(), result) == (spec.value.0, Ok(spec.value.1))
    {
      FoundIsSubmitted(calls, operation);
      var found := FindSubmitted(calls, operation);
      if found.None? { return Err(NotSubmitted); }
      if outcome.NotAnExecution? { return Err(NotExecution); }
      var call := calls[found.value];
      var (applied, shells') := ApplyOutcome(call.status.progress, outcome, shells);
      match applied {
        case Again(progress) => calls := calls[found.value := call.(status := Ready(progress))];
        case Finish(snapshot) => calls := calls[found.value := call.(status := Completed(snapshot))];
      }
      AdvanceCompletedSegments();
      result := Ok(shells');
    }
  }
}
