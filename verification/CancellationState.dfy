/** The cancellation state as its handlers mutate it. */
module CancellationObject {
  import opened Prelude
  import opened Cancellation

  class CancellationState {
    var targets: seq<Target>
    var processes: seq<Process>
    var discovery: Option<Discovery>
    var failures: nat
    var tracked: map<SessionId, Handle>
    var turnActive: bool
    var staged: map<OpId, Role>
    var next: OpId

    function View(): Cancel
      reads this
    {
      Cancel(targets, processes, discovery, failures, tracked, turnActive, staged, next)
    }

    /** `begin` */
    constructor (known: map<OpId, Role>, first: OpId, active: bool, originals: seq<(OpId, TargetKind)>,
                 handles: seq<(SessionId, Handle)>, sessions: map<SessionId, Handle>)
      ensures View() == Begin(known, first, active, originals, handles, sessions)
    {
      targets, processes, discovery, failures := [], [], None, 0;
      tracked, turnActive, staged, next := sessions, active, known, first;
      new;
      ghost var blank := View();
      for i := 0 to |originals|
        invariant View() == BeginTargets(blank, originals[..i])
      {
        assert originals[..i + 1][..i] == originals[..i];
        var control := Stage(Withdraw(originals[i].0));
        targets := targets + [Target(originals[i].0, originals[i].1, false, WithdrawalRequested(control))];
      }
      assert originals[..|originals|] == originals;
      ghost var begun := View();
      for i := 0 to |handles|
        invariant View() == BeginProcesses(begun, handles[..i])
      {
        assert handles[..i + 1][..i] == handles[..i];
        Interrupt(Some(handles[i].0), handles[i].1);
      }
      assert handles[..|handles|] == handles;
      SetLifecycleStatus();
    }

    method Stage(role: Role) returns (operation: OpId)
      modifies this`staged, this`next
      ensures View() == StageOp(old(View()), role) && operation == old(next)
    {
      operation := next;
      staged := staged[operation := role];
      next := next + 1;
    }

    method Interrupt(session: Option<SessionId>, handle: Handle)
      modifies this
      ensures View() == StageInterrupt(old(View()), session, handle)
    {
      if KnownHandle(processes, handle) { return; }
      var operation := Stage(InterruptProcess(handle));
      processes := processes + [Process(session, handle, InterruptRequested(operation))];
    }

    method InterruptActive(executions: seq<Execution>)
      modifies this
      ensures View() == InterruptAll(old(View()), executions)
    {
      for i := 0 to |executions|
        invariant View() == InterruptAll(old(View()), executions[..i])
      {
        assert executions[..i + 1][..i] == executions[..i];
        if !executions[i].finished { Interrupt(None, executions[i].handle); }
      }
      assert executions[..|executions|] == executions;
    }

    method Terminate(index: nat, attempt: nat)
      requires index < |processes|
      modifies this
      ensures View() == StageTerminate(old(View()), index, attempt)
    {
      var operation := Stage(TerminateProcess(processes[index].handle));
      processes := processes[index := processes[index].(control := TerminateRequested(operation, attempt))];
    }

    method Discover(attempt: nat)
      modifies this
      ensures View() == StageDiscovery(old(View()), attempt)
    {
      var operation := Stage(DiscoveryOp);
      discovery := Some(Discovery(operation, attempt));
    }

    method SetLifecycleStatus()
      modifies this
      ensures View() == Lifecycle(old(View()))
    {
      if CancellationComplete(View()) {
        turnActive := false;
        tracked := map[];
      }
    }

    method Withdrawn(operation: OpId, outcome: Outcome) returns (error: Option<CancelError>)
      modifies this
      ensures Agrees(error, old(View()), HandleWithdrawal(old(View()), operation, outcome))
    {
      var found := TargetForControl(targets, operation);
      if found.None? { return Some(NotAControl); }
      if outcome.Succeeded? && !outcome.result.WithdrawResult? { return Some(WrongResult); }
      error := None;
      var target := targets[found.value];
      if outcome.Succeeded? && outcome.result.withdrawn {
        targets := targets[found.value := target.(originalCompleted := true, control := Settled)];
        return;
      }
      match target.kind {
        case LlmTarget =>
          var control := Stage(LlmCancel(target.operation));
          targets := targets[found.value := target.(control := LlmCancellationRequested(control, 1))];
        case ExecutionTarget =>
          targets := targets[found.value := target.(control := if target.originalCompleted then Settled else AwaitingCompletion)];
      }
    }

    method LlmCancelled(operation: OpId, outcome: Outcome) returns (error: Option<CancelError>)
      modifies this
      ensures Agrees(error, old(View()), HandleLlmCancellation(old(View()), operation, outcome))
    {
      var found := TargetForControl(targets, operation);
      if found.None? { return Some(NotAControl); }
      var target := targets[found.value];
      if !target.control.LlmCancellationRequested? { return Some(InvalidControl); }
      error := None;
      match outcome {
        case Succeeded(result) =>
          if !result.LlmCancelResult? { return Some(WrongResult); }
          targets := targets[found.value := target.(control := Settled)];
        case Cancelled =>
          targets := targets[found.value := target.(control := Settled)];
        case _ =>
          failures := failures + 1;
          if target.control.attempt < MAX_CLEANUP_ATTEMPTS {
            var control := Stage(LlmCancel(target.operation));
            targets := targets[found.value :=
              target.(control := LlmCancellationRequested(control, target.control.attempt + 1))];
          } else {
            targets := targets[found.value := target.(control := Settled)];
          }
      }
    }

    method OriginalCompleted(operation: OpId, kind: TargetKind, outcome: Outcome) returns (error: Option<CancelError>)
      modifies this
      ensures Agrees(error, old(View()), HandleOriginal(old(View()), operation, kind, outcome))
    {
      if outcome.Succeeded? && !(if kind.LlmTarget? then outcome.result.LlmResult? else outcome.result.ExecutionResult?) {
        return Some(WrongResult);
      }
      var found := TargetOf(targets, operation);
      if found.None? { return Some(NotATarget); }
      if targets[found.value].kind != kind { return Some(WrongTargetKind); }
      error := None;
      InterruptingKeepsTargets(View(), ExecutionsFrom(outcome));
      InterruptActive(ExecutionsFrom(outcome));
      targets := targets[found.value := targets[found.value].(originalCompleted := true)];
      var target := targets[found.value];
      if UncertainExecution(kind, outcome) {
        targets := targets[found.value := target.(control := AwaitingDiscovery)];
        if discovery.None? { Discover(1); }
      } else if target.control.AwaitingCompletion? {
        targets := targets[found.value := target.(control := Settled)];
      }
    }

    method Settle(index: nat)
      requires index < |processes|
      modifies this
      ensures View() == SettleProcess(old(View()), index)
    {
      var session := processes[index].session;
      processes := processes[index := processes[index].(control := ProcessSettled)];
      if session.Some? { tracked := tracked - {session.value}; }
    }

    method ProcessControlled(operation: OpId, outcome: Outcome) returns (error: Option<CancelError>)
      modifies this
      ensures Agrees(error, old(View()), HandleProcess(old(View()), operation, outcome))
    {
      if outcome.Succeeded? && !outcome.result.ExecutionResult? { return Some(WrongResult); }
      var found := ProcessForControl(processes, operation);
      if found.None? { return Some(NotAControl); }
      error := None;
      match processes[found.value].control {
        case InterruptRequested(_) =>
          if AnyFinished(ExecutionsFrom(outcome)) { Settle(found.value); } else { Terminate(found.value, 1); }
        case TerminateRequested(_, attempt) =>
          if outcome.Succeeded? || outcome.Cancelled? { Settle(found.value); return; }
          failures := failures + 1;
          if attempt < MAX_CLEANUP_ATTEMPTS { Terminate(found.value, attempt + 1); } else { Settle(found.value); }
        case ProcessSettled =>
      }
    }

    method Discovered(outcome: Outcome) returns (error: Option<CancelError>)
      requires discovery.Some?
      modifies this
      ensures Agrees(error, old(View()), HandleDiscovery(old(View()), outcome))
    {
      if outcome.Succeeded? && !outcome.result.ExecutionResult? { return Some(WrongResult); }
      error := None;
      var attempt := discovery.value.attempt;
      if !outcome.Succeeded? && attempt < MAX_CLEANUP_ATTEMPTS {
        if !outcome.Cancelled? { failures := failures + 1; }
        Discover(attempt + 1);
        return;
      }
      discovery := None;
      ghost var found := targets;
      for i := 0 to |targets|
        invariant |targets| == |found| && forall j :: i <= j < |found| ==> targets[j] == found[j]
        invariant forall j :: 0 <= j < i ==> targets[j] == SettleDiscovered(found)[j]
        invariant View() == old(View()).(discovery := None, targets := targets)
      {
        if targets[i].control.AwaitingDiscovery? { targets := targets[i := targets[i].(control := Settled)]; }
      }
      assert targets == SettleDiscovered(found);
      InterruptActive(ExecutionsFrom(outcome));
    }

    /** `handle_completion` */
    method Complete(operation: OpId, kind: CompletionKind, outcome: Outcome) returns (error: Option<CancelError>)
      modifies this
      ensures Agrees(error, old(View()), HandleCompletion(old(View()), operation, kind, outcome))
    {
      match kind {
        case WithdrawKind => error := Withdrawn(operation, outcome);
        case LlmCancellationKind => error := LlmCancelled(operation, outcome);
        case LlmKind => error := OriginalCompleted(operation, LlmTarget, outcome);
        case ExecutionKind =>
          if ProcessForControl(processes, operation).Some? {
            error := ProcessControlled(operation, outcome);
          } else if discovery.Some? && discovery.value.operation == operation {
            error := Discovered(outcome);
          } else {
            error := OriginalCompleted(operation, ExecutionTarget, outcome);
          }
      }
      if error.None? { SetLifecycleStatus(); }
    }

    /** A handler that fails has changed nothing; one that succeeds left the specified state. */
    predicate Agrees(error: Option<CancelError>, before: Cancel, spec: Handled)
      reads this
    {
      if spec.Ok? then error.None? && View() == spec.value else error == Some(spec.error) && View() == before
    }
  }

  lemma {:induction false} InterruptingKeepsTargets(c: Cancel, executions: seq<Execution>)
    ensures InterruptAll(c, executions).targets == c.targets && InterruptAll(c, executions).discovery == c.discovery
  {
    if executions != [] { InterruptingKeepsTargets(c, executions[..|executions| - 1]); }
  }
}
