/** What each call of a tool plan becomes, step by step: how it is started, what every outcome of its
    operations leads to, and that a planned patch is not done before it was carried out. */
module ToolLaws {
  import opened Prelude
  import opened ToolPlan
  import opened ToolScheduling

  // ---------------------------------------------------------------- one completion

  /** The response an outcome brings, if it brings one. */
  function ResponseOf(outcome: ExecutionOutcome): Option<Response> {
    match outcome
    case Succeeded(response) => Some(response)
    case FailedWith(response) => Some(response)
    case _ => None
  }

  /** The session a shell call is on once the process has been observed: its own, or a new one for a process
      that keeps running. */
  function SessionAfter(session: Option<SessionId>, o: Observation, shells: Shells): Option<SessionId> {
    if session.None? && o.active then Some(shells.next) else session
  }

  /** Running processes are tracked under the handle observed, finished ones that are drained are not. */
  ghost predicate ShellsFollow(session: Option<SessionId>, o: Observation, before: Shells, after: Shells) {
    var s := SessionAfter(session, o, before);
    && after.next == (if session.None? && o.active then before.next + 1 else before.next)
    && (o.active ==> s.value in after.tracked && after.tracked[s.value] == o.handle)
    && (!o.active && s.Some? && !o.hasMore ==> s.value !in after.tracked)
    && (!o.active && s.Some? && o.hasMore ==> after.tracked == before.tracked)
    && forall other :: Some(other) != s ==>
         (other in after.tracked <==> other in before.tracked)
         && (other in before.tracked ==> after.tracked[other] == before.tracked[other])
  }

  ghost predicate ShellLeads(progress: Progress, o: Observation, before: Shells, status: Status, after: Shells)
    requires progress.Shell?
  {
    if !o.decodes || !o.sameGeneration then status == Completed("invalid_execution_response") && after == before
    else if o.active && progress.session.None? && before.next >= 0x7FFF_FFFF then
      status == Completed("execution_session_limit") && after == before
    else
      && ShellsFollow(progress.session, o, before, after)
      && status == if o.hasMore && progress.pagesRead + 1 < 16
                   then Ready(Shell(Drain, Some(o.handle), SessionAfter(progress.session, o, before), progress.pagesRead + 1))
                   else Completed(o.text)
  }

  /** What a submitted call becomes by an outcome of its operation. */
  ghost predicate OutcomeLeads(progress: Progress, outcome: ExecutionOutcome, before: Shells, status: Status, after: Shells) {
    var response := ResponseOf(outcome);
    if response.Some? then
      if progress.Shell? then ShellLeads(progress, response.value.observation, before, status, after)
      else
        && after == before
        && status == if progress.Patch? && progress.patchPhase.Reading? && response.value.planned
                     then Ready(Patch(Mutating, Some(response.value.generation)))
                     else Completed(response.value.observation.text)
    else
      && after == before
      && match outcome
         case UnknownOutcome(message) =>
           status == if progress.Patch? && progress.patchPhase.Mutating?
                     then Ready(Patch(Reconciling, progress.generation)) else Completed(message)
         case FailedWithout(message) => status == Completed(message)
         case _ => status == Completed("execution_cancelled")
  }

  lemma FoundIs(plan: Plan, shells: Shells, next: OpId, i: nat)
    requires PlanInv(plan, shells, next) && i < |plan.calls| && plan.calls[i].status.Submitted?
    ensures FindSubmitted(plan.calls, plan.calls[i].status.operation) == Some(i)
  {
    var operation := plan.calls[i].status.operation;
    FoundIsSubmitted(plan.calls, operation);
    var j := FindSubmitted(plan.calls, operation).value;
    assert j < i ==> NoConflict(plan.calls[j], plan.calls[i]);
    assert i < j ==> NoConflict(plan.calls[i], plan.calls[j]);
  }

  lemma ShellOutcomeLeads(progress: Progress, o: Observation, shells: Shells)
    requires progress.Shell?
    ensures ShellLeads(progress, o, shells, StatusAfter(ApplyShell(progress, o, shells).0), ApplyShell(progress, o, shells).1)
  {
  }

  lemma ApplyingLeads(progress: Progress, outcome: ExecutionOutcome, shells: Shells)
    requires !outcome.NotAnExecution?
    ensures var (applied, after) := ApplyOutcome(progress, outcome, shells);
            OutcomeLeads(progress, outcome, shells, StatusAfter(applied), after)
  {
    if ResponseOf(outcome).Some? && progress.Shell? {
      ShellOutcomeLeads(progress, ResponseOf(outcome).value.observation, shells);
    }
  }

  /** A completion changes the call that awaits it, as its outcome says, and no other. */
  lemma CompletionsLead(plan: Plan, shells: Shells, next: OpId, i: nat, outcome: ExecutionOutcome)
    requires PlanInv(plan, shells, next) && i < |plan.calls| && plan.calls[i].status.Submitted?
    requires !outcome.NotAnExecution?
    ensures var result := ApplyCompletion(plan, shells, plan.calls[i].status.operation, outcome);
            && result.Ok?
            && var (after, shells') := result.value;
               && |after.calls| == |plan.calls| && after.segments == plan.segments
               && OutcomeLeads(plan.calls[i].status.progress, outcome, shells, after.calls[i].status, shells')
               && after.calls[i] == plan.calls[i].(status := after.calls[i].status)
               && forall j :: 0 <= j < |plan.calls| && j != i ==> after.calls[j] == plan.calls[j]
  {
    FoundIs(plan, shells, next, i);
    var call := plan.calls[i];
    var (applied, shells') := ApplyOutcome(call.status.progress, outcome, shells);
    ApplyingLeads(call.status.progress, outcome, shells);
    AdvanceKeepsCalls(plan.(calls := plan.calls[i := call.(status := StatusAfter(applied))]));
  }

  // ---------------------------------------------------------------- scheduling

  /** How a call is first carried out, or why it cannot be. */
  predicate StartsAs(call: Call, shells: Shells, status: Status) {
    if !call.input.valid then status == Completed("invalid_tool_arguments")
    else match call.tool
      case ExecCommand => status.Submitted? && status.progress == Shell(Start, None, None, 0)
      case WriteStdin =>
        if call.input.session.Some? && call.input.session.value in shells.tracked
        then status.Submitted?
             && status.progress == Shell(Interact, Some(shells.tracked[call.input.session.value]), call.input.session, 0)
        else status == Completed("invalid_tool_arguments")
      case ViewImage => status.Submitted? && status.progress == Image
      case ApplyPatch => status.Submitted? && status.progress == Patch(Reading, None)
  }

  /** What scheduling may make of a call: nothing, its start, or the next operation it is ready for. */
  predicate ScheduledAs(before: Call, after: Call, shells: Shells, first: OpId) {
    || after == before
    || (after == before.(status := after.status)
        && (after.status.Submitted? ==> after.status.operation >= first)
        && match before.status
           case Pending => StartsAs(before, shells, after.status)
           case Ready(progress) =>
             if progress.Shell? && progress.handle.None? then after.status == Completed("invalid_execution_state")
             else if progress.Image? || (progress.Patch? && progress.patchPhase.Reading?)
             then after.status == Completed("invalid_filesystem_state")
             else after.status.Submitted? && after.status.progress == progress
           case Submitted(_, _) => false
           case Completed(_) => false)
  }

  predicate AllScheduledAs(before: seq<Call>, after: seq<Call>, shells: Shells, first: OpId) {
    |after| == |before| && forall i :: 0 <= i < |before| ==> ScheduledAs(before[i], after[i], shells, first)
  }

  lemma PreparedIsScheduled(call: Call, shells: Shells, operation: OpId, first: OpId)
    requires first <= operation
    ensures match Prepare(call, shells)
            case Nothing => true
            case Denied(snapshot) => ScheduledAs(call, call.(status := Completed(snapshot)), shells, first)
            case Go(progress) => ScheduledAs(call, call.(status := Submitted(operation, progress)), shells, first)
  {
  }

  lemma {:induction false} PassSchedules(calls: seq<Call>, shells: Shells, ordinals: seq<nat>, first: OpId)
    requires forall k :: 0 <= k < |ordinals| ==> ordinals[k] < |calls|
    ensures AllScheduledAs(calls, RunPass(calls, shells, ordinals).calls, shells, first)
  {
    if ordinals != [] {
      var n := |ordinals| - 1;
      PassSchedules(calls, shells, ordinals[..n], first);
      PassCompletes(calls, shells, ordinals[..n]);
      PreparedIsScheduled(calls[ordinals[n]], shells, first, first);
    }
  }

  lemma StagingSchedules(plan: Plan, shells: Shells, next: OpId)
    requires PlanInv(plan, shells, next) && plan.active < |plan.segments| && OrdinalsValid(plan)
    ensures var pass := RunPass(plan.calls, shells, plan.segments[plan.active].ordinals);
            AllScheduledAs(plan.calls, Stage(pass.calls, pass.prepared, next), shells, next)
  {
    var ordinals := plan.segments[plan.active].ordinals;
    assert SegmentOk(plan.calls, plan.segments[plan.active]);
    var pass := RunPass(plan.calls, shells, ordinals);
    var after := Stage(pass.calls, pass.prepared, next);
    StagingMoves(plan.calls, shells, ordinals, next);
    PassSchedules(plan.calls, shells, ordinals, next);
    forall j, k | 0 <= j < k < |pass.prepared| ensures pass.prepared[j].ordinal != pass.prepared[k].ordinal {
      assert PreparedApart(pass.prepared[j], pass.prepared[k]);
    }
    StagedAt(pass.calls, pass.prepared, next);
    StagedAreScheduled(plan.calls, shells, pass, after, next);
  }

  lemma StagedAreScheduled(calls: seq<Call>, shells: Shells, pass: Pass, after: seq<Call>, next: OpId)
    requires |pass.calls| == |calls| == |after|
    requires forall j :: 0 <= j < |pass.prepared| ==> PreparedOk(calls, shells, pass.prepared[j])
    requires forall i :: 0 <= i < |calls| ==> Staged(calls[i], after[i], i, pass.prepared, next)
    requires forall j :: 0 <= j < |pass.prepared| ==>
               pass.prepared[j].ordinal < |after| && after[pass.prepared[j].ordinal].status.Submitted?
    requires forall i :: 0 <= i < |calls| && (forall j :: 0 <= j < |pass.prepared| ==> pass.prepared[j].ordinal != i) ==>
               after[i] == pass.calls[i]
    requires AllScheduledAs(calls, pass.calls, shells, next)
    ensures AllScheduledAs(calls, after, shells, next)
  {
    forall i | 0 <= i < |calls| ensures ScheduledAs(calls[i], after[i], shells, next) {
      assert Staged(calls[i], after[i], i, pass.prepared, next);
      if after[i] != calls[i] && !Done(after[i]) {
        var j :| 0 <= j < |pass.prepared| && pass.prepared[j].ordinal == i
                 && after[i] == calls[i].(status := Submitted(next + j, pass.prepared[j].progress));
        assert PreparedOk(calls, shells, pass.prepared[j]);
        PreparedIsScheduled(calls[i], shells, next + j, next);
      } else if Done(after[i]) {
        assert forall j :: 0 <= j < |pass.prepared| ==> pass.prepared[j].ordinal != i;
      }
    }
  }

  lemma ScheduledTwice(a: seq<Call>, b: seq<Call>, c: seq<Call>, shells: Shells, first: OpId)
    requires AllScheduledAs(a, b, shells, first) && AllScheduledAs(b, c, shells, first)
    requires forall i :: 0 <= i < |a| ==> b[i] == a[i] || Done(b[i])
    ensures AllScheduledAs(a, c, shells, first)
  {
    forall i | 0 <= i < |a| ensures ScheduledAs(a[i], c[i], shells, first) {
      assert ScheduledAs(a[i], b[i], shells, first) && ScheduledAs(b[i], c[i], shells, first);
    }
  }

  /** Scheduling starts pending calls as their tool asks, submits ready calls for the operation they are ready
      for, refuses what cannot be carried out, and leaves all other calls alone. */
  lemma {:induction false} SchedulingStartsCalls(plan: Plan, shells: Shells, next: OpId)
    requires PlanInv(plan, shells, next) && OrdinalsValid(plan)
    ensures AllScheduledAs(plan.calls, ScheduleReady(plan, shells, next).0.calls, shells, next)
    decreases Unfinished(plan.calls), 1
  {
    if plan.active < |plan.segments| {
      assert SegmentOk(plan.calls, plan.segments[plan.active]);
      var pass := RunPass(plan.calls, shells, plan.segments[plan.active].ordinals);
      if pass.prepared != [] {
        StagingSchedules(plan, shells, next);
      } else {
        PassSchedules(plan.calls, shells, plan.segments[plan.active].ordinals, next);
        if pass.immediate { ReschedulingStartsCalls(plan, shells, next, pass); }
      }
    }
  }

  lemma {:induction false} ReschedulingStartsCalls(plan: Plan, shells: Shells, next: OpId, pass: Pass)
    requires PlanInv(plan, shells, next) && OrdinalsValid(plan) && plan.active < |plan.segments|
    requires pass == RunPass(plan.calls, shells, plan.segments[plan.active].ordinals)
    requires pass.prepared == [] && pass.immediate && AllScheduledAs(plan.calls, pass.calls, shells, next)
    ensures AllScheduledAs(plan.calls, ScheduleReady(plan, shells, next).0.calls, shells, next)
    decreases Unfinished(plan.calls), 0
  {
    var ordinals := plan.segments[plan.active].ordinals;
    PassCompletes(plan.calls, shells, ordinals);
    FinishingKeepsInv(plan, pass.calls, shells, next);
    AdvancingKeepsInv(plan.(calls := pass.calls), shells, next);
    ImmediateMakesProgress(plan.calls, shells, ordinals);
    AdvanceKeepsCalls(plan.(calls := pass.calls));
    SchedulingStartsCalls(Advance(plan.(calls := pass.calls)), shells, next);
    ScheduledTwice(plan.calls, pass.calls, ScheduleReady(plan, shells, next).0.calls, shells, next);
  }

  // ---------------------------------------------------------------- patches over whole plans

  /** The executions of a plan before and after each completion, all of them accepted. */
  ghost predicate Trace(t: seq<Execution>, completions: seq<Completion>) {
    && |t| == |completions| + 1 && (forall n :: 0 <= n < |t| ==> ExecutionInv(t[n]))
    && forall n :: 0 <= n < |completions| ==> Fed(t[n], completions[n], t[n + 1])
  }

  ghost predicate Fed(before: Execution, completion: Completion, after: Execution)
    requires ExecutionInv(before)
  {
    Feed(before, completion.operation, completion.outcome) == Some(after)
  }

  /** Every plan that is played to some point has such a trace. */
  lemma {:induction false} PlaysAreTraces(e: Execution, completions: seq<Completion>) returns (t: seq<Execution>)
    requires ExecutionInv(e) && Play(e, completions).Some?
    ensures Trace(t, completions) && t[0] == e && t[|completions|] == Play(e, completions).value
    decreases |completions|
  {
    if completions == [] {
      t := [e];
    } else {
      var n := |completions| - 1;
      var init := PlaysAreTraces(e, completions[..n]);
      t := init + [Play(e, completions).value];
      forall m | 0 <= m < |completions| ensures Fed(t[m], completions[m], t[m + 1]) {
        if m < n { assert Fed(init[m], completions[..n][m], init[m + 1]); }
      }
    }
  }

  /** What one completion does to a call that does not await it. */
  lemma FeedLeavesOthers(e: Execution, operation: OpId, outcome: ExecutionOutcome, i: nat)
    requires ExecutionInv(e) && Feed(e, operation, outcome).Some? && i < |e.plan.calls|
    requires !(e.plan.calls[i].status.Submitted? && e.plan.calls[i].status.operation == operation)
    ensures var after := Feed(e, operation, outcome).value;
            |after.plan.calls| == |e.plan.calls| && ScheduledAs(e.plan.calls[i], after.plan.calls[i], after.shells, e.next)
  {
    FoundIsSubmitted(e.plan.calls, operation);
    var k := FindSubmitted(e.plan.calls, operation).value;
    CompletionsLead(e.plan, e.shells, e.next, k, outcome);
    CompletionsMakeProgress(e.plan, e.shells, e.next, operation, outcome);
    var (plan, shells) := ApplyCompletion(e.plan, e.shells, operation, outcome).value;
    ValidOrdinals(plan, shells, e.next);
    SchedulingStartsCalls(plan, shells, e.next);
  }

  /** What one completion does to the call that awaits it. */
  lemma FeedLeadsItsCall(e: Execution, operation: OpId, outcome: ExecutionOutcome, i: nat)
    requires ExecutionInv(e) && Feed(e, operation, outcome).Some? && i < |e.plan.calls|
    requires e.plan.calls[i].status.Submitted? && e.plan.calls[i].status.operation == operation
    ensures var after := Feed(e, operation, outcome).value;
            |after.plan.calls| == |e.plan.calls|
            && exists mid: Call ::
                 mid == e.plan.calls[i].(status := mid.status)
                 && OutcomeLeads(e.plan.calls[i].status.progress, outcome, e.shells, mid.status, after.shells)
                 && ScheduledAs(mid, after.plan.calls[i], after.shells, e.next)
  {
    FoundIsSubmitted(e.plan.calls, operation);
    CompletionsLead(e.plan, e.shells, e.next, i, outcome);
    CompletionsMakeProgress(e.plan, e.shells, e.next, operation, outcome);
    var (plan, shells) := ApplyCompletion(e.plan, e.shells, operation, outcome).value;
    ValidOrdinals(plan, shells, e.next);
    SchedulingStartsCalls(plan, shells, e.next);
    var mid := plan.calls[i];
    assert ScheduledAs(mid, Feed(e, operation, outcome).value.plan.calls[i], shells, e.next);
  }

  /** The mutations of the patch are out. */
  predicate MutatingAt(e: Execution, i: nat, generation: nat) {
    i < |e.plan.calls| && e.plan.calls[i].status.Submitted?
    && e.plan.calls[i].status.progress == Patch(Mutating, Some(generation))
  }

  predicate ReadyToMutate(e: Execution, i: nat, generation: nat) {
    i < |e.plan.calls| && e.plan.calls[i].status == Ready(Patch(Mutating, Some(generation)))
  }

  /** The completion tells that call `i` has read its files and planned its mutations. */
  predicate PlansPatch(e: Execution, completion: Completion, i: nat, generation: nat) {
    && i < |e.plan.calls| && e.plan.calls[i].status.Submitted? && e.plan.calls[i].status.operation == completion.operation
    && e.plan.calls[i].status.progress.Patch? && e.plan.calls[i].status.progress.patchPhase.Reading?
    && ResponseOf(completion.outcome).Some?
    && ResponseOf(completion.outcome).value.planned && ResponseOf(completion.outcome).value.generation == generation
  }

  lemma PlanningMakesReady(e: Execution, completion: Completion, i: nat, generation: nat)
    requires ExecutionInv(e) && PlansPatch(e, completion, i, generation)
    requires Feed(e, completion.operation, completion.outcome).Some?
    ensures var after := Feed(e, completion.operation, completion.outcome).value;
            ReadyToMutate(after, i, generation) || MutatingAt(after, i, generation)
  {
    FeedLeadsItsCall(e, completion.operation, completion.outcome, i);
  }

  lemma ReadyStaysReady(e: Execution, completion: Completion, i: nat, generation: nat)
    requires ExecutionInv(e) && ReadyToMutate(e, i, generation)
    requires Feed(e, completion.operation, completion.outcome).Some?
    ensures var after := Feed(e, completion.operation, completion.outcome).value;
            ReadyToMutate(after, i, generation) || MutatingAt(after, i, generation)
  {
    FeedLeavesOthers(e, completion.operation, completion.outcome, i);
  }

  lemma {:induction false} ReadyUntilMutated(t: seq<Execution>, completions: seq<Completion>, k: nat, n: nat, i: nat, generation: nat)
    requires Trace(t, completions) && k < n <= |completions| && PlansPatch(t[k], completions[k], i, generation)
    ensures ReadyToMutate(t[n], i, generation) || exists j :: k < j <= n && MutatingAt(t[j], i, generation)
  {
    assert Fed(t[n - 1], completions[n - 1], t[n]);
    if n - 1 == k {
      PlanningMakesReady(t[k], completions[k], i, generation);
    } else {
      ReadyUntilMutated(t, completions, k, n - 1, i, generation);
      if ReadyToMutate(t[n - 1], i, generation) { ReadyStaysReady(t[n - 1], completions[n - 1], i, generation); }
    }
  }

  /** In every plan a patch that was planned completes only after its mutations were submitted, in the
      generation its files were read in. */
  lemma PlannedPatchesAreCarriedOut(t: seq<Execution>, completions: seq<Completion>, k: nat, n: nat, i: nat, generation: nat)
    requires Trace(t, completions) && k < n <= |completions| && PlansPatch(t[k], completions[k], i, generation)
    requires i < |t[n].plan.calls| && t[n].plan.calls[i].status.Completed?
    ensures exists j :: k < j < n && MutatingAt(t[j], i, generation)
  {
    ReadyUntilMutated(t, completions, k, n, i, generation);
  }
}
