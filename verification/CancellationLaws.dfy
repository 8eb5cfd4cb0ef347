/** What one handled completion does to every target, process and discovery, and what a whole cancellation
    needs before it lets go of a model call or a process. */
module CancellationLaws {
  import opened Prelude
  import opened Cancellation
  import opened CancellationSafety

  // ---------------------------------------------------------------- outcomes

  predicate Reports(outcome: Outcome, execution: Execution) {
    match outcome
    case Succeeded(ExecutionResult(executions)) => execution in executions
    case Failed(executions) => execution in executions
    case Unknown(executions) => execution in executions
    case _ => false
  }

  ghost predicate ReportsFinished(outcome: Outcome) { exists handle: Handle :: Reports(outcome, Execution(handle, true)) }

  ghost predicate ReportsNothing(outcome: Outcome) { forall execution: Execution :: !Reports(outcome, execution) }

  predicate Failing(outcome: Outcome) { outcome.Failed? || outcome.Unknown? }

  lemma ReportedIs(outcome: Outcome)
    ensures forall execution: Execution :: Reports(outcome, execution) <==> execution in ExecutionsFrom(outcome)
    ensures ReportsFinished(outcome) <==> AnyFinished(ExecutionsFrom(outcome))
    ensures ReportsNothing(outcome) <==> ExecutionsFrom(outcome) == []
  {
    var executions := ExecutionsFrom(outcome);
    if executions != [] { assert Reports(outcome, executions[0]); }
    if i :| 0 <= i < |executions| && executions[i].finished {
      assert Reports(outcome, Execution(executions[i].handle, true));
    }
    if ReportsFinished(outcome) {
      var handle :| Reports(outcome, Execution(handle, true));
      var i :| 0 <= i < |executions| && executions[i] == Execution(handle, true);
    }
  }

  // ---------------------------------------------------------------- one completion

  /** `b` staged `operation` as `role`; `c` did not know it. */
  predicate StagedAnew(c: Cancel, b: Cancel, operation: OpId, role: Role) {
    operation !in c.staged && operation in b.staged && b.staged[operation] == role
  }

  predicate Terminating(c: Cancel, b: Cancel, p: Process, attempt: nat) {
    p.control.TerminateRequested? && p.control.attempt == attempt
    && StagedAnew(c, b, p.control.operation, TerminateProcess(p.handle))
  }

  /** Process `p` becomes `q` when `o` completes: an interrupt that reports the execution finished settles it,
      any other is followed by a terminate; a failed terminate is repeated once. */
  ghost predicate ProcessGoesOn(c: Cancel, o: OpId, outcome: Outcome, p: Process, b: Cancel, q: Process) {
    && q.session == p.session && q.handle == p.handle
    && match p.control
       case InterruptRequested(w) =>
         if w != o then q == p
         else if ReportsFinished(outcome) then q.control.ProcessSettled?
         else Terminating(c, b, q, 1)
       case TerminateRequested(w, attempt) =>
         if w != o then q == p
         else if Failing(outcome) && attempt < 2 then Terminating(c, b, q, attempt + 1)
         else q.control.ProcessSettled?
       case ProcessSettled => q == p
  }

  predicate Tracks(processes: seq<Process>, handle: Handle) { exists i :: 0 <= i < |processes| && processes[i].handle == handle }

  ghost predicate HandlesApart(processes: seq<Process>) {
    forall i, j :: 0 <= i < j < |processes| ==> processes[i].handle != processes[j].handle
  }

  /** A process the outcome reported unfinished and nobody had been cleaning up. */
  predicate Appears(c: Cancel, outcome: Outcome, b: Cancel, q: Process) {
    && q.session.None? && q.control.InterruptRequested? && StagedAnew(c, b, q.control.operation, InterruptProcess(q.handle))
    && Reports(outcome, Execution(q.handle, false)) && !Tracks(c.processes, q.handle)
  }

  predicate DiscoveryEnds(c: Cancel, o: OpId, outcome: Outcome) {
    c.discovery.Some? && c.discovery.value.operation == o && (outcome.Succeeded? || c.discovery.value.attempt >= 2)
  }

  /** Whether the executions that the outcome of `o` reports are cleaned up. */
  predicate Discloses(c: Cancel, o: OpId, outcome: Outcome)
    requires o in c.staged
  {
    c.staged[o].LlmOriginal? || c.staged[o].ExecutionOriginal? || DiscoveryEnds(c, o, outcome)
  }

  ghost predicate AllInterrupted(outcome: Outcome, processes: seq<Process>) {
    forall handle: Handle :: Reports(outcome, Execution(handle, false)) ==> Tracks(processes, handle)
  }

  ghost predicate ProcessesGoOn(c: Cancel, o: OpId, outcome: Outcome, b: Cancel)
    requires o in c.staged
  {
    && |c.processes| <= |b.processes|
    && (forall i :: 0 <= i < |c.processes| ==> ProcessGoesOn(c, o, outcome, c.processes[i], b, b.processes[i]))
    && (|c.processes| < |b.processes| ==> Discloses(c, o, outcome))
    && (forall i :: |c.processes| <= i < |b.processes| ==> Appears(c, outcome, b, b.processes[i]))
    && (Discloses(c, o, outcome) ==> AllInterrupted(outcome, b.processes))
    && (HandlesApart(c.processes) ==> HandlesApart(b.processes))
  }

  predicate CancelsModel(c: Cancel, b: Cancel, t: Target, attempt: nat) {
    t.control.LlmCancellationRequested? && t.control.attempt == attempt
    && StagedAnew(c, b, t.control.control, LlmCancel(t.operation))
  }

  ghost predicate TrackIsLost(t: Target, outcome: Outcome) {
    t.kind.ExecutionTarget? && outcome.Unknown? && ReportsNothing(outcome)
  }

  /** Target `t` becomes `u` when `o` completes. */
  ghost predicate TargetGoesOn(c: Cancel, o: OpId, outcome: Outcome, t: Target, b: Cancel, u: Target) {
    && u.operation == t.operation && u.kind == t.kind
    && (u.originalCompleted <==> t.originalCompleted || t.operation == o)
    && if t.operation == o then
         if TrackIsLost(t, outcome) then u.control.AwaitingDiscovery?
         else if t.control.AwaitingCompletion? then u.control.Settled?
         else u.control == t.control
       else match t.control
         case WithdrawalRequested(w) =>
           if w != o then u == t
           else if outcome == Succeeded(WithdrawResult(true)) then u.control.Settled?
           else if t.kind.LlmTarget? then CancelsModel(c, b, u, 1)
           else if t.originalCompleted then u.control.Settled?
           else u.control.AwaitingCompletion?
         case LlmCancellationRequested(w, attempt) =>
           if w != o then u == t
           else if Failing(outcome) && attempt < 2 then CancelsModel(c, b, u, attempt + 1)
           else u.control.Settled?
         case AwaitingDiscovery => if DiscoveryEnds(c, o, outcome) then u.control.Settled? else u == t
         case AwaitingCompletion => u == t
         case Settled => u == t
  }

  ghost predicate TargetsGoOn(c: Cancel, o: OpId, outcome: Outcome, b: Cancel) {
    && |b.targets| == |c.targets|
    && forall i :: 0 <= i < |c.targets| ==> TargetGoesOn(c, o, outcome, c.targets[i], b, b.targets[i])
  }

  predicate Looks(c: Cancel, b: Cancel, attempt: nat) {
    b.discovery.Some? && b.discovery.value.attempt == attempt && StagedAnew(c, b, b.discovery.value.operation, DiscoveryOp)
  }

  /** Processes are looked for as soon as track of an execution is lost, and once more after a failure. */
  ghost predicate DiscoveryGoesOn(c: Cancel, o: OpId, outcome: Outcome, b: Cancel)
    requires o in c.staged
  {
    if c.discovery.None? then
      if c.staged[o].ExecutionOriginal? && outcome.Unknown? && ReportsNothing(outcome) then Looks(c, b, 1) else b.discovery.None?
    else if c.discovery.value.operation != o then b.discovery == c.discovery
    else if DiscoveryEnds(c, o, outcome) then b.discovery.None?
    else Looks(c, b, c.discovery.value.attempt + 1)
  }

  // ---------------------------------------------------------------- what is interrupted

  ghost predicate Interrupted(c: Cancel, executions: seq<Execution>, b: Cancel) {
    && |c.processes| <= |b.processes| && b.processes[..|c.processes|] == c.processes
    && (forall i :: |c.processes| <= i < |b.processes| ==> Added(c, executions, b, b.processes[i]))
    && (forall i :: 0 <= i < |executions| ==> executions[i].finished || Tracks(b.processes, executions[i].handle))
    && (HandlesApart(c.processes) ==> HandlesApart(b.processes))
  }

  predicate Added(c: Cancel, executions: seq<Execution>, b: Cancel, q: Process) {
    && q.session.None? && q.control.InterruptRequested? && c.next <= q.control.operation < b.next
    && q.control.operation in b.staged && b.staged[q.control.operation] == InterruptProcess(q.handle)
    && Execution(q.handle, false) in executions && !Tracks(c.processes, q.handle)
  }

  lemma KnownIsTracked(processes: seq<Process>, handle: Handle)
    ensures KnownHandle(processes, handle) <==> Tracks(processes, handle)
  {
  }

  lemma OneMoreInterrupted(c: Cancel, executions: seq<Execution>, b: Cancel, execution: Execution)
    requires Interrupted(c, executions, b) && c.next <= b.next
    ensures Interrupted(c, executions + [execution], if execution.finished then b else StageInterrupt(b, None, execution.handle))
  {
    var next := if execution.finished then b else StageInterrupt(b, None, execution.handle);
    KnownIsTracked(b.processes, execution.handle);
    forall i | |c.processes| <= i < |next.processes| ensures Added(c, executions + [execution], next, next.processes[i]) {
      if i < |b.processes| {
        assert Added(c, executions, b, b.processes[i]);
      } else {
        forall j | 0 <= j < |c.processes| ensures c.processes[j].handle != execution.handle {
          assert b.processes[j] == c.processes[j];
        }
      }
    }
    forall i | 0 <= i < |executions + [execution]|
      ensures (executions + [execution])[i].finished || Tracks(next.processes, (executions + [execution])[i].handle)
    {
      if i < |executions| {
        assert executions[i].finished || Tracks(b.processes, executions[i].handle);
        if !executions[i].finished { StillTracked(b.processes, next.processes, executions[i].handle); }
      } else if !execution.finished && !KnownHandle(b.processes, execution.handle) {
        assert next.processes[|b.processes|].handle == execution.handle;
      }
    }
  }

  lemma StillTracked(a: seq<Process>, b: seq<Process>, handle: Handle)
    requires |a| <= |b| && b[..|a|] == a && Tracks(a, handle)
    ensures Tracks(b, handle)
  {
    var i :| 0 <= i < |a| && a[i].handle == handle;
    assert b[i] == a[i];
  }

  lemma {:induction false} InterruptedAre(c: Cancel, executions: seq<Execution>)
    ensures c.next <= InterruptAll(c, executions).next && Interrupted(c, executions, InterruptAll(c, executions))
  {
    if executions != [] {
      var n := |executions| - 1;
      InterruptedAre(c, executions[..n]);
      assert executions == executions[..n] + [executions[n]];
      OneMoreInterrupted(c, executions[..n], InterruptAll(c, executions[..n]), executions[n]);
    }
  }

  /** The reported executions of a completed original or of an ended discovery are interrupted. */
  lemma DisclosedGoOn(c: Cancel, completed: set<OpId>, o: OpId, outcome: Outcome, mid: Cancel, b: Cancel)
    requires CancelInv(c, completed) && o in c.staged && Discloses(c, o, outcome) && ProcessForControl(c.processes, o).None?
    requires mid.processes == c.processes && mid.next == c.next && mid.staged == c.staged
    requires b.processes == InterruptAll(mid, ExecutionsFrom(outcome)).processes
    requires var i := InterruptAll(mid, ExecutionsFrom(outcome));
             i.next <= b.next && forall w :: w in i.staged ==> w in b.staged && b.staged[w] == i.staged[w]
    ensures ProcessesGoOn(c, o, outcome, b)
  {
    var executions := ExecutionsFrom(outcome);
    var after := InterruptAll(mid, executions);
    ReportedIs(outcome);
    InterruptedAre(mid, executions);
    forall i | 0 <= i < |c.processes| ensures ProcessGoesOn(c, o, outcome, c.processes[i], b, b.processes[i]) {
      assert b.processes[i] == after.processes[..|c.processes|][i];
      assert !ControlledBy(c.processes[i].control, o);
    }
    forall i | |c.processes| <= i < |b.processes| ensures Appears(c, outcome, b, b.processes[i]) {
      assert Added(mid, executions, after, after.processes[i]);
    }
    forall handle: Handle | Reports(outcome, Execution(handle, false)) ensures Tracks(b.processes, handle) {
      var i :| 0 <= i < |executions| && executions[i] == Execution(handle, false);
    }
  }

  // ---------------------------------------------------------------- the processes

  lemma ControlledProcessesGoOn(c: Cancel, completed: set<OpId>, o: OpId, outcome: Outcome)
    requires CancelInv(c, completed) && Arrives(c, completed, o, outcome) && ForProcess(c.staged[o]) && Awaited(c, o)
    ensures HandleProcess(c, o, outcome).Ok? && ProcessesGoOn(c, o, outcome, HandleProcess(c, o, outcome).value)
  {
    ReportedIs(outcome);
    var found := ProcessForControl(c.processes, o).value;
    var b := HandleProcess(c, o, outcome).value;
    assert DiscoveryOk(c.staged, completed, c.discovery);
    forall i | 0 <= i < |c.processes| ensures ProcessGoesOn(c, o, outcome, c.processes[i], b, b.processes[i]) {
      assert ProcessOk(c.staged, completed, c.processes[i]);
      if i != found && ControlledBy(c.processes[i].control, o) { ProcessIsFound(c, completed, i, o); }
    }
    forall i, j | 0 <= i < j < |b.processes| && HandlesApart(c.processes) ensures b.processes[i].handle != b.processes[j].handle {
      assert c.processes[i].handle != c.processes[j].handle;
    }
  }

  lemma OriginalProcessesGoOn(c: Cancel, completed: set<OpId>, o: OpId, kind: TargetKind, outcome: Outcome)
    requires CancelInv(c, completed) && Arrives(c, completed, o, outcome) && c.staged[o] == OriginalRole(kind)
    requires HandleOriginal(c, o, kind, outcome).Ok?
    ensures ProcessesGoOn(c, o, outcome, HandleOriginal(c, o, kind, outcome).value)
  {
    NotAProcess(c, completed, o);
    InterruptedAll(c, completed, ExecutionsFrom(outcome));
    DisclosedGoOn(c, completed, o, outcome, c, HandleOriginal(c, o, kind, outcome).value);
  }

  lemma DiscoveryProcessesGoOn(c: Cancel, completed: set<OpId>, o: OpId, outcome: Outcome)
    requires CancelInv(c, completed) && Arrives(c, completed, o, outcome) && c.discovery.Some? && c.discovery.value.operation == o
    requires HandleDiscovery(c, outcome).Ok?
    ensures ProcessesGoOn(c, o, outcome, HandleDiscovery(c, outcome).value)
  {
    assert c.staged[o] == DiscoveryOp;
    NotAProcess(c, completed, o);
    var b := HandleDiscovery(c, outcome).value;
    if DiscoveryEnds(c, o, outcome) {
      DisclosedGoOn(c, completed, o, outcome, c.(discovery := None, targets := SettleDiscovered(c.targets)), b);
    } else {
      OthersLeaveProcesses(c, completed, o, outcome, b);
    }
  }

  lemma OthersLeaveProcesses(c: Cancel, completed: set<OpId>, o: OpId, outcome: Outcome, b: Cancel)
    requires CancelInv(c, completed) && o in c.staged && !ForProcess(c.staged[o]) && !Discloses(c, o, outcome)
    requires b.processes == c.processes
    ensures ProcessesGoOn(c, o, outcome, b)
  {
    NotAProcess(c, completed, o);
    forall i | 0 <= i < |c.processes| ensures ProcessGoesOn(c, o, outcome, c.processes[i], b, b.processes[i]) {
      assert !ControlledBy(c.processes[i].control, o);
    }
  }

  lemma ControlsLeaveProcesses(c: Cancel, o: OpId, outcome: Outcome)
    ensures HandleWithdrawal(c, o, outcome).Ok? ==> HandleWithdrawal(c, o, outcome).value.processes == c.processes
    ensures HandleLlmCancellation(c, o, outcome).Ok? ==> HandleLlmCancellation(c, o, outcome).value.processes == c.processes
  {
  }

  lemma DispatchedProcessesGoOn(c: Cancel, completed: set<OpId>, o: OpId, outcome: Outcome)
    requires CancelInv(c, completed) && Arrives(c, completed, o, outcome) && Awaited(c, o)
    requires Dispatch(c, o, KindOf(c.staged[o]), outcome).Ok?
    ensures ProcessesGoOn(c, o, outcome, Dispatch(c, o, KindOf(c.staged[o]), outcome).value)
  {
    if ForProcess(c.staged[o]) {
      ControlledProcessesGoOn(c, completed, o, outcome);
    } else {
      NotAProcess(c, completed, o);
      match c.staged[o]
      case LlmOriginal => OriginalProcessesGoOn(c, completed, o, LlmTarget, outcome);
      case ExecutionOriginal => OriginalProcessesGoOn(c, completed, o, ExecutionTarget, outcome);
      case DiscoveryOp => DiscoveryProcessesGoOn(c, completed, o, outcome);
      case _ =>
        ControlsLeaveProcesses(c, o, outcome);
        OthersLeaveProcesses(c, completed, o, outcome, Dispatch(c, o, KindOf(c.staged[o]), outcome).value);
    }
  }

  lemma ProcessesStep(c: Cancel, completed: set<OpId>, o: OpId, outcome: Outcome)
    requires CancelInv(c, completed) && Arrives(c, completed, o, outcome) && Awaited(c, o)
    ensures var handled := HandleCompletion(c, o, KindOf(c.staged[o]), outcome);
            handled.Ok? && ProcessesGoOn(c, o, outcome, handled.value)
  {
    AwaitedIsDispatched(c, completed, o, outcome);
    DispatchedProcessesGoOn(c, completed, o, outcome);
    LifecycleKeepsProcesses(c, o, outcome, Dispatch(c, o, KindOf(c.staged[o]), outcome).value);
  }

  lemma LifecycleKeepsProcesses(c: Cancel, o: OpId, outcome: Outcome, b: Cancel)
    requires o in c.staged && ProcessesGoOn(c, o, outcome, b)
    ensures ProcessesGoOn(c, o, outcome, Lifecycle(b))
  {
    var after := Lifecycle(b);
    assert after.processes == b.processes && after.staged == b.staged;
    forall i | 0 <= i < |c.processes| ensures ProcessGoesOn(c, o, outcome, c.processes[i], after, after.processes[i]) {
      assert ProcessGoesOn(c, o, outcome, c.processes[i], b, b.processes[i]);
    }
    forall i | |c.processes| <= i < |after.processes| ensures Appears(c, outcome, after, after.processes[i]) {
      assert Appears(c, outcome, b, b.processes[i]);
    }
  }

  // ---------------------------------------------------------------- the targets and the discovery

  lemma ControlledTargetsGoOn(c: Cancel, completed: set<OpId>, o: OpId, outcome: Outcome, b: Cancel)
    requires CancelInv(c, completed) && Arrives(c, completed, o, outcome) && ForProcess(c.staged[o])
    requires b.targets == c.targets && b.discovery == c.discovery
    ensures TargetsGoOn(c, o, outcome, b) && DiscoveryGoesOn(c, o, outcome, b)
  {
    assert DiscoveryOk(c.staged, completed, c.discovery);
    forall i | 0 <= i < |c.targets| ensures TargetGoesOn(c, o, outcome, c.targets[i], b, b.targets[i]) {
      assert TargetOk(c.staged, completed, c.discovery.Some?, c.targets[i]);
    }
  }

  lemma ProcessControlsLeaveTargets(c: Cancel, o: OpId, outcome: Outcome)
    ensures var handled := HandleProcess(c, o, outcome);
            handled.Ok? ==> handled.value.targets == c.targets && handled.value.discovery == c.discovery
  {
  }

  /** The target waiting for `o` moves on; the others are left alone. */
  ghost predicate OnlyTarget(c: Cancel, o: OpId, outcome: Outcome, b: Cancel, found: nat) {
    && found < |c.targets| && |b.targets| == |c.targets| && b.discovery == c.discovery
    && (forall i :: 0 <= i < |c.targets| && i != found ==> b.targets[i] == c.targets[i])
    && IsControl(c.targets[found].control, o) && TargetGoesOn(c, o, outcome, c.targets[found], b, b.targets[found])
  }

  lemma OnlyTargetGoesOn(c: Cancel, completed: set<OpId>, o: OpId, outcome: Outcome, b: Cancel, found: nat)
    requires CancelInv(c, completed) && Arrives(c, completed, o, outcome) && (c.staged[o].Withdraw? || c.staged[o].LlmCancel?)
    requires OnlyTarget(c, o, outcome, b, found)
    ensures TargetsGoOn(c, o, outcome, b) && DiscoveryGoesOn(c, o, outcome, b)
  {
    assert DiscoveryOk(c.staged, completed, c.discovery);
    forall i | 0 <= i < |c.targets| ensures TargetGoesOn(c, o, outcome, c.targets[i], b, b.targets[i]) {
      assert TargetOk(c.staged, completed, c.discovery.Some?, c.targets[i]);
      if i != found && IsControl(c.targets[i].control, o) {
        ControlIsFound(c, completed, i, o);
        ControlIsFound(c, completed, found, o);
      }
    }
  }

  lemma WithdrawalGoesOn(c: Cancel, completed: set<OpId>, o: OpId, outcome: Outcome)
    requires CancelInv(c, completed) && Arrives(c, completed, o, outcome) && c.staged[o].Withdraw? && Awaited(c, o)
    requires HandleWithdrawal(c, o, outcome).Ok?
    ensures var b := HandleWithdrawal(c, o, outcome).value;
            TargetsGoOn(c, o, outcome, b) && DiscoveryGoesOn(c, o, outcome, b)
  {
    var found := TargetForControl(c.targets, o).value;
    assert TargetOk(c.staged, completed, c.discovery.Some?, c.targets[found]);
    OnlyTargetGoesOn(c, completed, o, outcome, HandleWithdrawal(c, o, outcome).value, found);
  }

  lemma LlmCancellationGoesOn(c: Cancel, completed: set<OpId>, o: OpId, outcome: Outcome)
    requires CancelInv(c, completed) && Arrives(c, completed, o, outcome) && c.staged[o].LlmCancel? && Awaited(c, o)
    requires HandleLlmCancellation(c, o, outcome).Ok?
    ensures var b := HandleLlmCancellation(c, o, outcome).value;
            TargetsGoOn(c, o, outcome, b) && DiscoveryGoesOn(c, o, outcome, b)
  {
    var found := TargetForControl(c.targets, o).value;
    assert TargetOk(c.staged, completed, c.discovery.Some?, c.targets[found]);
    OnlyTargetGoesOn(c, completed, o, outcome, HandleLlmCancellation(c, o, outcome).value, found);
  }

  lemma OriginalGoesOn(c: Cancel, completed: set<OpId>, o: OpId, kind: TargetKind, outcome: Outcome)
    requires CancelInv(c, completed) && Arrives(c, completed, o, outcome) && c.staged[o] == OriginalRole(kind)
    requires HandleOriginal(c, o, kind, outcome).Ok?
    ensures var b := HandleOriginal(c, o, kind, outcome).value;
            TargetsGoOn(c, o, outcome, b) && DiscoveryGoesOn(c, o, outcome, b)
  {
    var b := HandleOriginal(c, o, kind, outcome).value;
    var found := TargetOf(c.targets, o).value;
    ReportedIs(outcome);
    InterruptedAll(c, completed, ExecutionsFrom(outcome));
    assert DiscoveryOk(c.staged, completed, c.discovery);
    forall i | 0 <= i < |c.targets| ensures TargetGoesOn(c, o, outcome, c.targets[i], b, b.targets[i]) {
      assert TargetOk(c.staged, completed, c.discovery.Some?, c.targets[i]);
      if i != found { assert c.targets[i].operation != c.targets[found].operation; }
    }
  }

  lemma DiscoveryStep(c: Cancel, completed: set<OpId>, o: OpId, outcome: Outcome)
    requires CancelInv(c, completed) && Arrives(c, completed, o, outcome) && c.discovery.Some? && c.discovery.value.operation == o
    requires HandleDiscovery(c, outcome).Ok?
    ensures var b := HandleDiscovery(c, outcome).value;
            TargetsGoOn(c, o, outcome, b) && DiscoveryGoesOn(c, o, outcome, b)
  {
    var b := HandleDiscovery(c, outcome).value;
    assert c.staged[o] == DiscoveryOp;
    if DiscoveryEnds(c, o, outcome) {
      DiscoveryEnded(c, completed);
      InterruptedAll(c.(discovery := None, targets := SettleDiscovered(c.targets)), completed + {o}, ExecutionsFrom(outcome));
    }
    forall i | 0 <= i < |c.targets| ensures TargetGoesOn(c, o, outcome, c.targets[i], b, b.targets[i]) {
      assert TargetOk(c.staged, completed, true, c.targets[i]);
    }
  }

  lemma DispatchedTargetsGoOn(c: Cancel, completed: set<OpId>, o: OpId, outcome: Outcome)
    requires CancelInv(c, completed) && Arrives(c, completed, o, outcome) && Awaited(c, o)
    requires Dispatch(c, o, KindOf(c.staged[o]), outcome).Ok?
    ensures var b := Dispatch(c, o, KindOf(c.staged[o]), outcome).value;
            TargetsGoOn(c, o, outcome, b) && DiscoveryGoesOn(c, o, outcome, b)
  {
    if ForProcess(c.staged[o]) {
      ProcessControlsLeaveTargets(c, o, outcome);
      ControlledTargetsGoOn(c, completed, o, outcome, Dispatch(c, o, KindOf(c.staged[o]), outcome).value);
    } else {
      NotAProcess(c, completed, o);
      match c.staged[o]
      case LlmOriginal => OriginalGoesOn(c, completed, o, LlmTarget, outcome);
      case ExecutionOriginal => OriginalGoesOn(c, completed, o, ExecutionTarget, outcome);
      case DiscoveryOp => DiscoveryStep(c, completed, o, outcome);
      case Withdraw(_) => WithdrawalGoesOn(c, completed, o, outcome);
      case LlmCancel(_) => LlmCancellationGoesOn(c, completed, o, outcome);
      case _ =>
    }
  }

  lemma LifecycleKeepsTargets(c: Cancel, o: OpId, outcome: Outcome, b: Cancel)
    requires o in c.staged && TargetsGoOn(c, o, outcome, b) && DiscoveryGoesOn(c, o, outcome, b)
    ensures TargetsGoOn(c, o, outcome, Lifecycle(b)) && DiscoveryGoesOn(c, o, outcome, Lifecycle(b))
  {
    var after := Lifecycle(b);
    assert after.targets == b.targets && after.staged == b.staged;
    forall i | 0 <= i < |c.targets| ensures TargetGoesOn(c, o, outcome, c.targets[i], after, after.targets[i]) {
      assert TargetGoesOn(c, o, outcome, c.targets[i], b, b.targets[i]);
    }
  }

  lemma TargetsStep(c: Cancel, completed: set<OpId>, o: OpId, outcome: Outcome)
    requires CancelInv(c, completed) && Arrives(c, completed, o, outcome) && Awaited(c, o)
    ensures var handled := HandleCompletion(c, o, KindOf(c.staged[o]), outcome);
            handled.Ok? && TargetsGoOn(c, o, outcome, handled.value) && DiscoveryGoesOn(c, o, outcome, handled.value)
  {
    AwaitedIsDispatched(c, completed, o, outcome);
    DispatchedTargetsGoOn(c, completed, o, outcome);
    LifecycleKeepsTargets(c, o, outcome, Dispatch(c, o, KindOf(c.staged[o]), outcome).value);
  }

  // ---------------------------------------------------------------- the turn, what is tracked, what failed

  predicate AllSettled(c: Cancel) {
    && c.discovery.None?
    && (forall i :: 0 <= i < |c.targets| ==> c.targets[i].control.Settled?)
    && (forall i :: 0 <= i < |c.processes| ==> c.processes[i].control.ProcessSettled?)
  }

  predicate SettledNow(c: Cancel, b: Cancel, session: SessionId) {
    exists i :: 0 <= i < |c.processes| && i < |b.processes| && c.processes[i].session == Some(session)
                && !c.processes[i].control.ProcessSettled? && b.processes[i].control.ProcessSettled?
  }

  ghost predicate TrackedUntilSettled(c: Cancel, b: Cancel) {
    forall session: SessionId ::
      && (session in b.tracked <==> session in c.tracked && !SettledNow(c, b, session))
      && (session in b.tracked ==> b.tracked[session] == c.tracked[session])
  }

  /** Which failures are recorded: those of cleanup operations, but not that of a discovery's last attempt. */
  predicate Recorded(c: Cancel, o: OpId, outcome: Outcome)
    requires o in c.staged
  {
    Failing(outcome)
    && (c.staged[o].LlmCancel? || c.staged[o].TerminateProcess? || (c.staged[o].DiscoveryOp? && !DiscoveryEnds(c, o, outcome)))
  }

  ghost predicate Accounts(c: Cancel, o: OpId, outcome: Outcome, b: Cancel)
    requires o in c.staged
  {
    && b.turnActive == c.turnActive && TrackedUntilSettled(c, b)
    && b.failures == if Recorded(c, o, outcome) then c.failures + 1 else c.failures
  }

  lemma SameProcessesAccount(c: Cancel, b: Cancel)
    requires |c.processes| <= |b.processes| && b.processes[..|c.processes|] == c.processes && b.tracked == c.tracked
    ensures TrackedUntilSettled(c, b)
  {
    forall session: SessionId ensures !SettledNow(c, b, session) {
      forall i | 0 <= i < |c.processes| ensures b.processes[i] == c.processes[i] {
        assert b.processes[..|c.processes|][i] == b.processes[i];
      }
    }
  }

  lemma ProcessAccounts(c: Cancel, completed: set<OpId>, o: OpId, outcome: Outcome)
    requires CancelInv(c, completed) && Arrives(c, completed, o, outcome) && ForProcess(c.staged[o]) && Awaited(c, o)
    requires HandleProcess(c, o, outcome).Ok?
    ensures Accounts(c, o, outcome, HandleProcess(c, o, outcome).value)
  {
    var found := ProcessForControl(c.processes, o).value;
    var b := HandleProcess(c, o, outcome).value;
    assert ProcessOk(c.staged, completed, c.processes[found]);
    forall session: SessionId ensures SettledNow(c, b, session)
        <==> b.processes[found].control.ProcessSettled? && c.processes[found].session == Some(session)
    {
      if b.processes[found].control.ProcessSettled? && c.processes[found].session == Some(session) {
        assert !c.processes[found].control.ProcessSettled?;
      }
    }
  }

  lemma OriginalAccounts(c: Cancel, completed: set<OpId>, o: OpId, kind: TargetKind, outcome: Outcome)
    requires CancelInv(c, completed) && o in c.staged && c.staged[o] == OriginalRole(kind)
    requires HandleOriginal(c, o, kind, outcome).Ok?
    ensures Accounts(c, o, outcome, HandleOriginal(c, o, kind, outcome).value)
  {
    InterruptedAll(c, completed, ExecutionsFrom(outcome));
    SameProcessesAccount(c, HandleOriginal(c, o, kind, outcome).value);
  }

  lemma DiscoveryAccounts(c: Cancel, completed: set<OpId>, o: OpId, outcome: Outcome)
    requires CancelInv(c, completed) && c.discovery.Some? && c.discovery.value.operation == o
    requires HandleDiscovery(c, outcome).Ok?
    ensures Accounts(c, o, outcome, HandleDiscovery(c, outcome).value)
  {
    assert DiscoveryOk(c.staged, completed, c.discovery);
    if DiscoveryEnds(c, o, outcome) {
      DiscoveryEnded(c, completed);
      InterruptedAll(c.(discovery := None, targets := SettleDiscovered(c.targets)), completed + {o}, ExecutionsFrom(outcome));
    }
    SameProcessesAccount(c, HandleDiscovery(c, outcome).value);
  }

  lemma ControlAccounts(c: Cancel, o: OpId, outcome: Outcome)
    requires o in c.staged
    ensures c.staged[o].Withdraw? && HandleWithdrawal(c, o, outcome).Ok? ==> Accounts(c, o, outcome, HandleWithdrawal(c, o, outcome).value)
    ensures c.staged[o].LlmCancel? && HandleLlmCancellation(c, o, outcome).Ok? ==>
              Accounts(c, o, outcome, HandleLlmCancellation(c, o, outcome).value)
  {
    ControlsLeaveProcesses(c, o, outcome);
    var withdrawn, cancelled := HandleWithdrawal(c, o, outcome), HandleLlmCancellation(c, o, outcome);
    if withdrawn.Ok? { SameProcessesAccount(c, withdrawn.value); }
    if cancelled.Ok? { SameProcessesAccount(c, cancelled.value); }
  }

  lemma DispatchedAccounts(c: Cancel, completed: set<OpId>, o: OpId, outcome: Outcome)
    requires CancelInv(c, completed) && Arrives(c, completed, o, outcome) && Awaited(c, o)
    requires Dispatch(c, o, KindOf(c.staged[o]), outcome).Ok?
    ensures Accounts(c, o, outcome, Dispatch(c, o, KindOf(c.staged[o]), outcome).value)
  {
    if ForProcess(c.staged[o]) {
      ProcessAccounts(c, completed, o, outcome);
    } else {
      NotAProcess(c, completed, o);
      match c.staged[o]
      case LlmOriginal => OriginalAccounts(c, completed, o, LlmTarget, outcome);
      case ExecutionOriginal => OriginalAccounts(c, completed, o, ExecutionTarget, outcome);
      case DiscoveryOp => DiscoveryAccounts(c, completed, o, outcome);
      case _ => ControlAccounts(c, o, outcome);
    }
  }

  lemma CompleteMeansAllSettled(c: Cancel, completed: set<OpId>)
    requires CancelInv(c, completed)
    ensures CancellationComplete(c) <==> AllSettled(c)
  {
    assert forall i :: 0 <= i < |c.targets| ==> TargetOk(c.staged, completed, c.discovery.Some?, c.targets[i]);
  }

  /** With everything settled the turn is over and nothing is tracked any more; until then both go on. */
  ghost predicate TurnGoesOn(c: Cancel, o: OpId, outcome: Outcome, b: Cancel)
    requires o in c.staged
  {
    && b.failures == (if Recorded(c, o, outcome) then c.failures + 1 else c.failures)
    && if AllSettled(b) then !b.turnActive && b.tracked == map[] else b.turnActive == c.turnActive && TrackedUntilSettled(c, b)
  }

  lemma LifecycleAccounts(c: Cancel, completed: set<OpId>, o: OpId, outcome: Outcome, mid: Cancel)
    requires o in c.staged && CancelInv(mid, completed) && Accounts(c, o, outcome, mid)
    ensures TurnGoesOn(c, o, outcome, Lifecycle(mid))
  {
    CompleteMeansAllSettled(mid, completed);
    var b := Lifecycle(mid);
    assert AllSettled(b) <==> AllSettled(mid);
  }

  /** The table of a cancellation. Whatever completion it was waiting for is handled, and moves exactly what
      it is about: the targets, the processes, the search for processes, and the turn. */
  lemma CompletionsMoveOn(c: Cancel, completed: set<OpId>, o: OpId, outcome: Outcome)
    requires CancelInv(c, completed) && Arrives(c, completed, o, outcome) && Awaited(c, o)
    ensures var handled := HandleCompletion(c, o, KindOf(c.staged[o]), outcome);
            && handled.Ok? && TargetsGoOn(c, o, outcome, handled.value) && DiscoveryGoesOn(c, o, outcome, handled.value)
            && ProcessesGoOn(c, o, outcome, handled.value) && TurnGoesOn(c, o, outcome, handled.value)
  {
    TargetsStep(c, completed, o, outcome);
    ProcessesStep(c, completed, o, outcome);
    AwaitedIsDispatched(c, completed, o, outcome);
    DispatchedAccounts(c, completed, o, outcome);
    LifecycleAccounts(c, completed + {o}, o, outcome, Dispatch(c, o, KindOf(c.staged[o]), outcome).value);
  }

  // ---------------------------------------------------------------- beginning

  predicate Withdrawing(known: map<OpId, Role>, c: Cancel, t: Target, original: (OpId, TargetKind)) {
    && t.operation == original.0 && t.kind == original.1 && !t.originalCompleted && t.control.WithdrawalRequested?
    && t.control.control !in known && t.control.control in c.staged && c.staged[t.control.control] == Withdraw(original.0)
  }

  predicate Interrupting(known: map<OpId, Role>, c: Cancel, p: Process, handles: seq<(SessionId, Handle)>) {
    && p.session.Some? && (p.session.value, p.handle) in handles && p.control.InterruptRequested?
    && p.control.operation !in known && p.control.operation in c.staged
    && c.staged[p.control.operation] == InterruptProcess(p.handle)
  }

  ghost predicate AllWithdrawing(known: map<OpId, Role>, c: Cancel, originals: seq<(OpId, TargetKind)>) {
    && |c.targets| == |originals|
    && forall i :: 0 <= i < |originals| ==> Withdrawing(known, c, c.targets[i], originals[i])
  }

  ghost predicate AllInterrupting(known: map<OpId, Role>, c: Cancel, handles: seq<(SessionId, Handle)>) {
    && HandlesApart(c.processes)
    && (forall i :: 0 <= i < |c.processes| ==> Interrupting(known, c, c.processes[i], handles))
    && (forall i :: 0 <= i < |handles| ==> Tracks(c.processes, handles[i].1))
  }

  /** Everything waits for its first control, and the turn is on exactly if there is anything. */
  ghost predicate Starts(s: Session) {
    && CancelInv(s.c, s.completed) && HandlesApart(s.c.processes) && s.c.discovery.None?
    && (forall i :: 0 <= i < |s.c.targets| ==> !s.c.targets[i].originalCompleted && s.c.targets[i].control.WithdrawalRequested?)
    && (forall i :: 0 <= i < |s.c.processes| ==> s.c.processes[i].control.InterruptRequested?)
  }

  lemma {:induction false} TargetsBegin(c: Cancel, originals: seq<(OpId, TargetKind)>)
    requires c.targets == [] && forall o: OpId :: o in c.staged <==> o < c.next
    ensures var b := BeginTargets(c, originals);
            && AllWithdrawing(c.staged, b, originals) && c.next <= b.next && forall o: OpId :: o in b.staged <==> o < b.next
    ensures var b := BeginTargets(c, originals);
            b.processes == c.processes && b.discovery == c.discovery && b.failures == c.failures
            && b.tracked == c.tracked && b.turnActive == c.turnActive
  {
    if originals != [] {
      var n := |originals| - 1;
      TargetsBegin(c, originals[..n]);
      var mid, b := BeginTargets(c, originals[..n]), BeginTargets(c, originals);
      forall i | 0 <= i < |originals| ensures Withdrawing(c.staged, b, b.targets[i], originals[i]) {
        if i < n { assert Withdrawing(c.staged, mid, mid.targets[i], originals[..n][i]); }
      }
    }
  }

  lemma OneMoreInterrupting(known: map<OpId, Role>, c: Cancel, handles: seq<(SessionId, Handle)>, handle: (SessionId, Handle))
    requires AllInterrupting(known, c, handles) && c.next !in known && c.next !in c.staged
    ensures AllInterrupting(known, StageInterrupt(c, Some(handle.0), handle.1), handles + [handle])
  {
    var b := StageInterrupt(c, Some(handle.0), handle.1);
    KnownIsTracked(c.processes, handle.1);
    forall i | 0 <= i < |b.processes| ensures Interrupting(known, b, b.processes[i], handles + [handle]) {
      if i < |c.processes| { assert Interrupting(known, c, c.processes[i], handles); }
      else { assert (handles + [handle])[|handles|] == handle; }
    }
    forall i | 0 <= i < |handles + [handle]| ensures Tracks(b.processes, (handles + [handle])[i].1) {
      if i < |handles| {
        StillTracked(c.processes, b.processes, handles[i].1);
      } else if !Tracks(c.processes, handle.1) {
        assert b.processes[|c.processes|].handle == handle.1;
      }
    }
  }

  lemma {:induction false} ProcessesBegin(known: map<OpId, Role>, c: Cancel, handles: seq<(SessionId, Handle)>)
    requires c.processes == [] && (forall o: OpId :: o in c.staged <==> o < c.next) && forall o :: o in known ==> o < c.next
    ensures var b := BeginProcesses(c, handles);
            && AllInterrupting(known, b, handles) && c.next <= b.next && (forall o: OpId :: o in b.staged <==> o < b.next)
            && (forall o :: o in c.staged ==> b.staged[o] == c.staged[o])
    ensures var b := BeginProcesses(c, handles);
            b.targets == c.targets && b.discovery == c.discovery && b.failures == c.failures
            && b.tracked == c.tracked && b.turnActive == c.turnActive
  {
    if handles != [] {
      var n := |handles| - 1;
      ProcessesBegin(known, c, handles[..n]);
      assert handles == handles[..n] + [handles[n]];
      OneMoreInterrupting(known, BeginProcesses(c, handles[..n]), handles[..n], handles[n]);
    }
  }

  lemma BegunIsComplete(known: map<OpId, Role>, b: Cancel, originals: seq<(OpId, TargetKind)>, tracked: seq<(SessionId, Handle)>)
    requires AllWithdrawing(known, b, originals) && AllInterrupting(known, b, tracked) && b.discovery.None?
    ensures CancellationComplete(b) <==> originals == [] && tracked == []
  {
    forall i | 0 <= i < |b.processes| ensures b.processes[i].control.InterruptRequested? && tracked != [] {
      assert Interrupting(known, b, b.processes[i], tracked);
    }
    if originals != [] {
      assert Withdrawing(known, b, b.targets[0], originals[0]);
    } else if tracked != [] {
      assert Tracks(b.processes, tracked[0].1);
      assert Interrupting(known, b, b.processes[0], tracked);
    }
  }

  lemma LifecycleKeepsBegun(known: map<OpId, Role>, b: Cancel, originals: seq<(OpId, TargetKind)>, tracked: seq<(SessionId, Handle)>)
    requires AllWithdrawing(known, b, originals) && AllInterrupting(known, b, tracked)
    ensures AllWithdrawing(known, Lifecycle(b), originals) && AllInterrupting(known, Lifecycle(b), tracked)
  {
    var c := Lifecycle(b);
    assert c.targets == b.targets && c.processes == b.processes && c.staged == b.staged;
    forall i | 0 <= i < |originals| ensures Withdrawing(known, c, c.targets[i], originals[i]) {
      assert Withdrawing(known, b, b.targets[i], originals[i]);
    }
    forall i | 0 <= i < |c.processes| ensures Interrupting(known, c, c.processes[i], tracked) {
      assert Interrupting(known, b, b.processes[i], tracked);
    }
  }

  lemma BegunStarts(known: map<OpId, Role>, s: Session, originals: seq<(OpId, TargetKind)>, tracked: seq<(SessionId, Handle)>)
    requires CancelInv(s.c, s.completed) && s.c.discovery.None?
    requires AllWithdrawing(known, s.c, originals) && AllInterrupting(known, s.c, tracked)
    ensures Starts(s)
  {
    forall i | 0 <= i < |s.c.targets| ensures !s.c.targets[i].originalCompleted && s.c.targets[i].control.WithdrawalRequested? {
      assert Withdrawing(known, s.c, s.c.targets[i], originals[i]);
    }
    forall i | 0 <= i < |s.c.processes| ensures s.c.processes[i].control.InterruptRequested? {
      assert Interrupting(known, s.c, s.c.processes[i], tracked);
    }
  }

  lemma TargetsKeptBegun(known: map<OpId, Role>, a: Cancel, b: Cancel, originals: seq<(OpId, TargetKind)>)
    requires AllWithdrawing(known, a, originals) && b.targets == a.targets
    requires forall o :: o in a.staged ==> o in b.staged && b.staged[o] == a.staged[o]
    ensures AllWithdrawing(known, b, originals)
  {
    forall i | 0 <= i < |originals| ensures Withdrawing(known, b, b.targets[i], originals[i]) {
      assert Withdrawing(known, a, a.targets[i], originals[i]);
    }
  }

  /** A cancellation begins by withdrawing every operation that is out, in order, and interrupting every
      process that is tracked, each handle once; with neither the turn is over at once. */
  lemma BeginningSays(staged: map<OpId, Role>, completed: set<OpId>, next: OpId, turnActive: bool,
                      originals: seq<(OpId, TargetKind)>, tracked: seq<(SessionId, Handle)>, sessions: map<SessionId, Handle>)
    requires (forall o: OpId :: o in staged <==> o < next) && (forall o :: o in completed ==> o in staged)
    requires OriginalsOk(staged, completed, originals)
    requires forall o :: o in staged && o !in completed ==> IsOriginal(originals, o)
    ensures var c := Begin(staged, next, turnActive, originals, tracked, sessions);
            && Starts(Session(c, completed)) && AllWithdrawing(staged, c, originals) && AllInterrupting(staged, c, tracked)
            && c.failures == 0
            && if originals == [] && tracked == [] then !c.turnActive && c.tracked == map[]
               else c.turnActive == turnActive && c.tracked == sessions
  {
    var blank := Cancel([], [], None, 0, sessions, turnActive, staged, next);
    BeginIsOk(staged, completed, next, turnActive, originals, tracked, sessions);
    TargetsBegin(blank, originals);
    var mid := BeginTargets(blank, originals);
    ProcessesBegin(staged, mid, tracked);
    var b := BeginProcesses(mid, tracked);
    TargetsKeptBegun(staged, mid, b, originals);
    BegunIsComplete(staged, b, originals, tracked);
    LifecycleKeepsBegun(staged, b, originals, tracked);
    BegunStarts(staged, Session(Lifecycle(b), completed), originals, tracked);
  }

  // ---------------------------------------------------------------- processes over whole cancellations

  predicate Answers(s: Session, event: Completion, role: Role) {
    Arrives(s.c, s.completed, event.operation, event.outcome) && s.c.staged[event.operation] == role
  }

  /** An interrupt of `handle` reported it finished. */
  ghost predicate FoundFinished(s: Session, events: seq<Completion>, handle: Handle) {
    events != [] &&
      var earlier, last := events[..|events| - 1], events[|events| - 1];
      FoundFinished(s, earlier, handle)
      || (Answers(After(s, earlier), last, InterruptProcess(handle)) && ReportsFinished(last.outcome))
  }

  /** A terminate of `handle` succeeded, or was itself cancelled. */
  predicate Terminated(s: Session, events: seq<Completion>, handle: Handle) {
    events != [] &&
      var earlier, last := events[..|events| - 1], events[|events| - 1];
      Terminated(s, earlier, handle)
      || (Answers(After(s, earlier), last, TerminateProcess(handle)) && !Failing(last.outcome))
  }

  function FailedTerminates(s: Session, events: seq<Completion>, handle: Handle): nat {
    if events == [] then 0
    else
      var earlier, last := events[..|events| - 1], events[|events| - 1];
      var failed := Answers(After(s, earlier), last, TerminateProcess(handle)) && Failing(last.outcome);
      FailedTerminates(s, earlier, handle) + if failed then 1 else 0
  }

  ghost predicate ProcessIsWhere(s: Session, events: seq<Completion>, p: Process) {
    var over := FoundFinished(s, events, p.handle) || Terminated(s, events, p.handle);
    var failed := FailedTerminates(s, events, p.handle);
    match p.control
    case InterruptRequested(_) => !over && failed == 0
    case TerminateRequested(_, attempt) => !over && failed == attempt - 1
    case ProcessSettled => over || failed >= 2
  }

  /** Only the process of that handle waits for an interrupt or a terminate of it. */
  lemma AnsweredProcess(c: Cancel, completed: set<OpId>, o: OpId, handle: Handle)
    requires CancelInv(c, completed) && o in c.staged && o !in completed
    requires c.staged[o] == InterruptProcess(handle) || c.staged[o] == TerminateProcess(handle)
    ensures Awaited(c, o) && Tracks(c.processes, handle)
    ensures exists i :: 0 <= i < |c.processes| && c.processes[i].handle == handle && ControlledBy(c.processes[i].control, o)
  {
    assert Awaited(c, o) || Orphan(c, o);
    var i := ProcessForControl(c.processes, o).value;
    assert ProcessOk(c.staged, completed, c.processes[i]);
  }

  lemma {:induction false} NobodyAnsweredYet(s: Session, events: seq<Completion>, handle: Handle)
    requires CancelInv(s.c, s.completed) && !Tracks(After(s, events).c.processes, handle)
    ensures !FoundFinished(s, events, handle) && !Terminated(s, events, handle) && FailedTerminates(s, events, handle) == 0
  {
    if events != [] {
      var earlier, last := events[..|events| - 1], events[|events| - 1];
      AfterKeepsInv(s, earlier);
      var now := After(s, earlier);
      HappensMovesOn(now, last);
      assert !Tracks(now.c.processes, handle);
      NobodyAnsweredYet(s, earlier, handle);
      if Answers(now, last, InterruptProcess(handle)) || Answers(now, last, TerminateProcess(handle)) {
        AnsweredProcess(now.c, now.completed, last.operation, handle);
      }
    }
  }

  /** What an event does, if anything: it is not awaited, or it moves everything on. */
  ghost predicate MovesOn(s: Session, event: Completion) {
    var o, next := event.operation, Happens(s, event);
    if Arrives(s.c, s.completed, o, event.outcome) && Awaited(s.c, o) then
      && next.completed == s.completed + {o} && TargetsGoOn(s.c, o, event.outcome, next.c)
      && DiscoveryGoesOn(s.c, o, event.outcome, next.c) && ProcessesGoOn(s.c, o, event.outcome, next.c)
      && TurnGoesOn(s.c, o, event.outcome, next.c)
    else next == s && (Arrives(s.c, s.completed, o, event.outcome) ==> s.c.staged[o].Withdraw? && Orphan(s.c, o))
  }

  lemma HappensMovesOn(s: Session, event: Completion)
    requires CancelInv(s.c, s.completed)
    ensures MovesOn(s, event) && |s.c.processes| <= |Happens(s, event).c.processes|
    ensures forall i :: 0 <= i < |s.c.processes| ==> Happens(s, event).c.processes[i].handle == s.c.processes[i].handle
    ensures HandlesApart(s.c.processes) ==> HandlesApart(Happens(s, event).c.processes)
  {
    if Arrives(s.c, s.completed, event.operation, event.outcome) {
      CompletionsAreHandled(s.c, s.completed, event.operation, event.outcome);
      if Awaited(s.c, event.operation) {
        CompletionsMoveOn(s.c, s.completed, event.operation, event.outcome);
        var next := Happens(s, event).c;
        assert forall i :: 0 <= i < |s.c.processes| ==>
          ProcessGoesOn(s.c, event.operation, event.outcome, s.c.processes[i], next, next.processes[i]);
      }
    }
  }

  lemma {:induction false} AfterKeepsApart(s: Session, events: seq<Completion>)
    requires CancelInv(s.c, s.completed) && HandlesApart(s.c.processes)
    ensures CancelInv(After(s, events).c, After(s, events).completed) && HandlesApart(After(s, events).c.processes)
  {
    AfterKeepsInv(s, events);
    if events != [] {
      var earlier, last := events[..|events| - 1], events[|events| - 1];
      AfterKeepsApart(s, earlier);
      HappensMovesOn(After(s, earlier), last);
    }
  }

  /** An answer about process `i` is the completion its control waits for. */
  lemma AnswersAreControls(s: Session, event: Completion, i: nat)
    requires CancelInv(s.c, s.completed) && HandlesApart(s.c.processes) && i < |s.c.processes|
    requires Arrives(s.c, s.completed, event.operation, event.outcome)
    ensures var p := s.c.processes[i];
            && (Answers(s, event, InterruptProcess(p.handle)) <==> p.control == InterruptRequested(event.operation))
            && (Answers(s, event, TerminateProcess(p.handle))
                <==> p.control.TerminateRequested? && p.control.operation == event.operation)
    ensures ControlledBy(s.c.processes[i].control, event.operation) ==> Awaited(s.c, event.operation)
  {
    var p, o := s.c.processes[i], event.operation;
    assert ProcessOk(s.c.staged, s.completed, p);
    if s.c.staged[o] == InterruptProcess(p.handle) || s.c.staged[o] == TerminateProcess(p.handle) {
      AnsweredProcess(s.c, s.completed, o, p.handle);
      var j :| 0 <= j < |s.c.processes| && s.c.processes[j].handle == p.handle && ControlledBy(s.c.processes[j].control, o);
      assert j == i;
    }
  }

  lemma KnownProcessIsWhere(s: Session, events: seq<Completion>, i: nat)
    requires events != [] && CancelInv(s.c, s.completed) && HandlesApart(s.c.processes)
    requires var now := After(s, events[..|events| - 1]);
             i < |now.c.processes| && ProcessIsWhere(s, events[..|events| - 1], now.c.processes[i])
    ensures i < |After(s, events).c.processes| && ProcessIsWhere(s, events, After(s, events).c.processes[i])
  {
    var earlier, last := events[..|events| - 1], events[|events| - 1];
    AfterKeepsApart(s, earlier);
    var now := After(s, earlier);
    HappensMovesOn(now, last);
    assert ProcessOk(now.c.staged, now.completed, now.c.processes[i]);
    if Arrives(now.c, now.completed, last.operation, last.outcome) {
      AnswersAreControls(now, last, i);
      if Awaited(now.c, last.operation) {
        assert ProcessGoesOn(now.c, last.operation, last.outcome, now.c.processes[i], After(s, events).c, After(s, events).c.processes[i]);
      }
    }
  }

  lemma NewProcessIsWhere(s: Session, events: seq<Completion>, i: nat)
    requires events != [] && CancelInv(s.c, s.completed) && HandlesApart(s.c.processes)
    requires |After(s, events[..|events| - 1]).c.processes| <= i < |After(s, events).c.processes|
    ensures ProcessIsWhere(s, events, After(s, events).c.processes[i])
  {
    var earlier, last := events[..|events| - 1], events[|events| - 1];
    AfterKeepsApart(s, earlier);
    var now := After(s, earlier);
    HappensMovesOn(now, last);
    var q := After(s, events).c.processes[i];
    assert Appears(now.c, last.outcome, After(s, events).c, q);
    NobodyAnsweredYet(s, earlier, q.handle);
    if Answers(now, last, InterruptProcess(q.handle)) || Answers(now, last, TerminateProcess(q.handle)) {
      AnsweredProcess(now.c, now.completed, last.operation, q.handle);
    }
  }

  lemma {:induction false} ProcessesAreWhere(s: Session, events: seq<Completion>, i: nat)
    requires Starts(s) && i < |After(s, events).c.processes|
    ensures ProcessIsWhere(s, events, After(s, events).c.processes[i])
  {
    if events != [] {
      var earlier := events[..|events| - 1];
      if i < |After(s, earlier).c.processes| {
        ProcessesAreWhere(s, earlier, i);
        KnownProcessIsWhere(s, events, i);
      } else {
        NewProcessIsWhere(s, events, i);
      }
    }
  }

  /** Whatever completions a cancellation has seen, it has let go of a process exactly if the interrupt reported
      it finished, a terminate got through, or two terminates failed. */
  lemma ProcessesSettleForAReason(s: Session, events: seq<Completion>, i: nat)
    requires Starts(s) && i < |After(s, events).c.processes|
    ensures var p := After(s, events).c.processes[i];
            p.control.ProcessSettled? <==>
              FoundFinished(s, events, p.handle) || Terminated(s, events, p.handle) || FailedTerminates(s, events, p.handle) >= 2
  {
    ProcessesAreWhere(s, events, i);
    AfterKeepsInv(s, events);
    assert ProcessOk(After(s, events).c.staged, After(s, events).completed, After(s, events).c.processes[i]);
  }

  // ---------------------------------------------------------------- targets over whole cancellations

  /** The withdrawal of `target` was answered, and the answer was taken. */
  predicate WithdrawalAnswered(s: Session, events: seq<Completion>, target: OpId) {
    events != [] &&
      var earlier, last := events[..|events| - 1], events[|events| - 1];
      WithdrawalAnswered(s, earlier, target)
      || (Answers(After(s, earlier), last, Withdraw(target)) && last.operation in After(s, events).completed)
  }

  predicate Withdrawn(s: Session, events: seq<Completion>, target: OpId) {
    events != [] &&
      var earlier, last := events[..|events| - 1], events[|events| - 1];
      Withdrawn(s, earlier, target)
      || (Answers(After(s, earlier), last, Withdraw(target)) && last.outcome == Succeeded(WithdrawResult(true)))
  }

  predicate ModelCancelled(s: Session, events: seq<Completion>, target: OpId) {
    events != [] &&
      var earlier, last := events[..|events| - 1], events[|events| - 1];
      ModelCancelled(s, earlier, target)
      || (Answers(After(s, earlier), last, LlmCancel(target)) && !Failing(last.outcome))
  }

  function FailedModelCancels(s: Session, events: seq<Completion>, target: OpId): nat {
    if events == [] then 0
    else
      var earlier, last := events[..|events| - 1], events[|events| - 1];
      var failed := Answers(After(s, earlier), last, LlmCancel(target)) && Failing(last.outcome);
      FailedModelCancels(s, earlier, target) + if failed then 1 else 0
  }

  /** Track of the execution `target` was lost: it completed unknown and reported nothing. */
  ghost predicate Lost(s: Session, events: seq<Completion>, target: OpId) {
    events != [] &&
      var earlier, last := events[..|events| - 1], events[|events| - 1];
      Lost(s, earlier, target)
      || (Answers(After(s, earlier), last, ExecutionOriginal) && last.operation == target
          && last.outcome.Unknown? && ReportsNothing(last.outcome))
  }

  /** ... and a search for processes has ended since. */
  ghost predicate SearchedSince(s: Session, events: seq<Completion>, target: OpId) {
    events != [] &&
      var earlier, last := events[..|events| - 1], events[|events| - 1];
      SearchedSince(s, earlier, target)
      || (Lost(s, earlier, target) && Answers(After(s, earlier), last, DiscoveryOp)
          && DiscoveryEnds(After(s, earlier).c, last.operation, last.outcome))
  }

  ghost predicate TargetIsWhere(s: Session, events: seq<Completion>, t: Target) {
    if t.kind.LlmTarget? then
      var over := Withdrawn(s, events, t.operation) || ModelCancelled(s, events, t.operation);
      var failed := FailedModelCancels(s, events, t.operation);
      match t.control
      case WithdrawalRequested(_) => !over && failed == 0
      case LlmCancellationRequested(_, attempt) => !over && failed == attempt - 1
      case Settled => over || failed >= 2
      case _ => false
    else
      match t.control
      case WithdrawalRequested(_) => !WithdrawalAnswered(s, events, t.operation) && !Lost(s, events, t.operation)
      case AwaitingCompletion => WithdrawalAnswered(s, events, t.operation) && !t.originalCompleted && !Lost(s, events, t.operation)
      case AwaitingDiscovery => Lost(s, events, t.operation) && !SearchedSince(s, events, t.operation) && t.originalCompleted
      case Settled =>
        && t.originalCompleted
        && if Lost(s, events, t.operation) then SearchedSince(s, events, t.operation) else WithdrawalAnswered(s, events, t.operation)
      case LlmCancellationRequested(_, _) => false
  }

  /** An answer about target `i` is the completion its control waits for, unless track of it was lost before. */
  lemma AnswersAreTargets(s: Session, event: Completion, i: nat)
    requires CancelInv(s.c, s.completed) && i < |s.c.targets|
    requires Arrives(s.c, s.completed, event.operation, event.outcome)
    ensures var t, o := s.c.targets[i], event.operation;
            && (Answers(s, event, LlmCancel(t.operation)) <==> t.control.LlmCancellationRequested? && t.control.control == o)
            && (t.control == WithdrawalRequested(o) ==> Answers(s, event, Withdraw(t.operation)))
            && (Answers(s, event, Withdraw(t.operation)) && Awaited(s.c, o) ==> t.control == WithdrawalRequested(o))
            && (Answers(s, event, Withdraw(t.operation)) && t.kind.LlmTarget? ==> Awaited(s.c, o))
            && (t.operation == o || IsControl(t.control, o) ==> Awaited(s.c, o))
  {
    var t, o := s.c.targets[i], event.operation;
    assert TargetOk(s.c.staged, s.completed, s.c.discovery.Some?, t);
    TargetIsFound(s.c.targets, i);
    assert Awaited(s.c, o) || Orphan(s.c, o);
    if (s.c.staged[o] == LlmCancel(t.operation) || s.c.staged[o] == Withdraw(t.operation)) && Awaited(s.c, o) {
      var j := TargetForControl(s.c.targets, o).value;
      assert TargetOk(s.c.staged, s.completed, s.c.discovery.Some?, s.c.targets[j]);
      TargetIsFound(s.c.targets, j);
    }
  }

  lemma ModelTargetMoves(s: Session, events: seq<Completion>, i: nat)
    requires events != [] && CancelInv(s.c, s.completed)
    requires var now := After(s, events[..|events| - 1]);
             && i < |now.c.targets| && now.c.targets[i].kind.LlmTarget?
             && TargetIsWhere(s, events[..|events| - 1], now.c.targets[i])
    ensures i < |After(s, events).c.targets| && TargetIsWhere(s, events, After(s, events).c.targets[i])
  {
    var earlier, last := events[..|events| - 1], events[|events| - 1];
    AfterKeepsInv(s, earlier);
    var now := After(s, earlier);
    HappensMovesOn(now, last);
    assert TargetOk(now.c.staged, now.completed, now.c.discovery.Some?, now.c.targets[i]);
    if Arrives(now.c, now.completed, last.operation, last.outcome) {
      AnswersAreTargets(now, last, i);
      if Awaited(now.c, last.operation) {
        assert TargetGoesOn(now.c, last.operation, last.outcome, now.c.targets[i], After(s, events).c, After(s, events).c.targets[i]);
      }
    }
  }

  lemma DiscoveriesAreAnswered(s: Session, event: Completion)
    requires CancelInv(s.c, s.completed) && Arrives(s.c, s.completed, event.operation, event.outcome)
    ensures s.c.staged[event.operation] == DiscoveryOp
            <==> s.c.discovery.Some? && s.c.discovery.value.operation == event.operation
  {
    assert Awaited(s.c, event.operation) || Orphan(s.c, event.operation);
  }

  lemma {:induction false} OnlyTheLostAreSearched(s: Session, events: seq<Completion>, target: OpId)
    ensures SearchedSince(s, events, target) ==> Lost(s, events, target)
  {
    if events != [] { OnlyTheLostAreSearched(s, events[..|events| - 1], target); }
  }

  lemma ExecutionTargetMoves(s: Session, events: seq<Completion>, i: nat)
    requires events != [] && CancelInv(s.c, s.completed)
    requires var now := After(s, events[..|events| - 1]);
             && i < |now.c.targets| && now.c.targets[i].kind.ExecutionTarget?
             && TargetIsWhere(s, events[..|events| - 1], now.c.targets[i])
    ensures i < |After(s, events).c.targets| && TargetIsWhere(s, events, After(s, events).c.targets[i])
  {
    var earlier, last := events[..|events| - 1], events[|events| - 1];
    OnlyTheLostAreSearched(s, earlier, After(s, earlier).c.targets[i].operation);
    AfterKeepsInv(s, earlier);
    var now := After(s, earlier);
    HappensMovesOn(now, last);
    assert TargetOk(now.c.staged, now.completed, now.c.discovery.Some?, now.c.targets[i]);
    if Arrives(now.c, now.completed, last.operation, last.outcome) {
      AnswersAreTargets(now, last, i);
      DiscoveriesAreAnswered(now, last);
      if Awaited(now.c, last.operation) {
        assert TargetGoesOn(now.c, last.operation, last.outcome, now.c.targets[i], After(s, events).c, After(s, events).c.targets[i]);
      }
    }
  }

  lemma {:induction false} TargetsAreWhere(s: Session, events: seq<Completion>, i: nat)
    requires Starts(s) && i < |s.c.targets|
    ensures |After(s, events).c.targets| == |s.c.targets| && TargetIsWhere(s, events, After(s, events).c.targets[i])
    ensures var t := After(s, events).c.targets[i]; t.operation == s.c.targets[i].operation && t.kind == s.c.targets[i].kind
  {
    if events == [] {
      assert TargetOk(s.c.staged, s.completed, s.c.discovery.Some?, s.c.targets[i]);
    } else {
      var earlier, last := events[..|events| - 1], events[|events| - 1];
      TargetsAreWhere(s, earlier, i);
      AfterKeepsInv(s, earlier);
      var now := After(s, earlier);
      HappensMovesOn(now, last);
      if now.c.targets[i].kind.LlmTarget? { ModelTargetMoves(s, events, i); } else { ExecutionTargetMoves(s, events, i); }
      if Happens(now, last) != now {
        assert TargetGoesOn(now.c, last.operation, last.outcome, now.c.targets[i], After(s, events).c, After(s, events).c.targets[i]);
      }
    }
  }

  /** Whatever completions a cancellation has seen, it has let go of a model call exactly if the call was withdrawn,
      was cancelled at the gateway, or could not be cancelled twice. */
  lemma ModelCallsSettleForAReason(s: Session, events: seq<Completion>, i: nat)
    requires Starts(s) && i < |s.c.targets| && s.c.targets[i].kind.LlmTarget?
    ensures var t := s.c.targets[i].operation;
            && |After(s, events).c.targets| == |s.c.targets|
            && (After(s, events).c.targets[i].control.Settled? <==>
                  Withdrawn(s, events, t) || ModelCancelled(s, events, t) || FailedModelCancels(s, events, t) >= 2)
  {
    TargetsAreWhere(s, events, i);
    AfterKeepsInv(s, events);
    assert TargetOk(After(s, events).c.staged, After(s, events).completed, After(s, events).c.discovery.Some?, After(s, events).c.targets[i]);
  }

  /** ... and of an execution exactly if it completed and either track of it was lost and a search has ended since,
      or its withdrawal was answered. */
  lemma ExecutionsSettleForAReason(s: Session, events: seq<Completion>, i: nat)
    requires Starts(s) && i < |s.c.targets| && s.c.targets[i].kind.ExecutionTarget?
    ensures var t := s.c.targets[i].operation;
            && |After(s, events).c.targets| == |s.c.targets|
            && (After(s, events).c.targets[i].control.Settled? <==>
                  && t in After(s, events).completed
                  && if Lost(s, events, t) then SearchedSince(s, events, t) else WithdrawalAnswered(s, events, t))
  {
    TargetsAreWhere(s, events, i);
    AfterKeepsInv(s, events);
    assert TargetOk(After(s, events).c.staged, After(s, events).completed, After(s, events).c.discovery.Some?, After(s, events).c.targets[i]);
  }

  /** The turn goes on exactly as long as a target, a process or a search is not settled. */
  lemma {:induction false} TurnEndsWithTheLastSettled(s: Session, events: seq<Completion>)
    requires Starts(s) && (s.c.turnActive <==> !AllSettled(s.c))
    ensures After(s, events).c.turnActive <==> !AllSettled(After(s, events).c)
  {
    if events != [] {
      var earlier, last := events[..|events| - 1], events[|events| - 1];
      TurnEndsWithTheLastSettled(s, earlier);
      AfterKeepsInv(s, earlier);
      var now := After(s, earlier);
      HappensMovesOn(now, last);
      HappensKeepsInv(now, last);
      CompleteMeansAllSettled(now.c, now.completed);
      CompleteMeansAllSettled(Happens(now, last).c, Happens(now, last).completed);
    }
  }
}
