/** Cancelling a turn: withdrawing what is out, interrupting what runs, and looking for processes whose
    fate is uncertain. */
module Cancellation {
  import opened Prelude

  type OpId = nat
  type SessionId = int
  type Handle = nat

  datatype TargetKind = LlmTarget | ExecutionTarget

  datatype Control =
    | WithdrawalRequested(control: OpId)
    | LlmCancellationRequested(control: OpId, attempt: nat)
    | AwaitingCompletion
    | AwaitingDiscovery
    | Settled

  datatype Target = Target(operation: OpId, kind: TargetKind, originalCompleted: bool, control: Control)

  datatype ProcessControl =
    | InterruptRequested(operation: OpId)
    | TerminateRequested(operation: OpId, attempt: nat)
    | ProcessSettled

  datatype Process = Process(session: Option<SessionId>, handle: Handle, control: ProcessControl)

  datatype Discovery = Discovery(operation: OpId, attempt: nat)

  /** Why an operation was staged. */
  datatype Role =
    | LlmOriginal
    | ExecutionOriginal
    | LlmCancel(target: OpId)
    | Withdraw(target: OpId)
    | InterruptProcess(handle: Handle)
    | TerminateProcess(handle: Handle)
    | DiscoveryOp

  /** `staged` logs every operation the session knows; `next` numbers new ones; `tracked` are the
      processes the harness still tracks. */
  datatype Cancel = Cancel(
    targets: seq<Target>, processes: seq<Process>, discovery: Option<Discovery>, failures: nat,
    tracked: map<SessionId, Handle>, turnActive: bool, staged: map<OpId, Role>, next: OpId)

  const MAX_CLEANUP_ATTEMPTS: nat := 2

  // ---------------------------------------------------------------- outcomes

  datatype Execution = Execution(handle: Handle, finished: bool)

  datatype OperationResult = WithdrawResult(withdrawn: bool) | LlmCancelResult | LlmResult | ExecutionResult(executions: seq<Execution>)

  /** A failure may carry the execution response it came with. */
  datatype Outcome =
    | Succeeded(result: OperationResult)
    | Failed(reported: seq<Execution>)
    | Unknown(reported: seq<Execution>)
    | Cancelled

  datatype CancelError = NotAControl | WrongResult | InvalidControl | NotATarget | WrongTargetKind

  type Handled = Result<Cancel, CancelError>

  function ExecutionsFrom(outcome: Outcome): seq<Execution> {
    match outcome
    case Succeeded(ExecutionResult(executions)) => executions
    case Succeeded(_) => []
    case Failed(reported) => reported
    case Unknown(reported) => reported
    case Cancelled => []
  }

  // ---------------------------------------------------------------- staging

  function StageOp(c: Cancel, role: Role): Cancel { c.(staged := c.staged[c.next := role], next := c.next + 1) }

  predicate KnownHandle(processes: seq<Process>, handle: Handle) {
    exists i :: 0 <= i < |processes| && processes[i].handle == handle
  }

  function StageInterrupt(c: Cancel, session: Option<SessionId>, handle: Handle): Cancel {
    if KnownHandle(c.processes, handle) then c
    else StageOp(c, InterruptProcess(handle)).(processes := c.processes + [Process(session, handle, InterruptRequested(c.next))])
  }

  /** Interrupts every reported execution that has not finished. */
  function InterruptAll(c: Cancel, executions: seq<Execution>): Cancel {
    if executions == [] then c
    else
      var last := executions[|executions| - 1];
      var rest := InterruptAll(c, executions[..|executions| - 1]);
      if last.finished then rest else StageInterrupt(rest, None, last.handle)
  }

  function StageTerminate(c: Cancel, index: nat, attempt: nat): Cancel
    requires index < |c.processes|
  {
    StageOp(c, TerminateProcess(c.processes[index].handle)).(processes :=
      c.processes[index := c.processes[index].(control := TerminateRequested(c.next, attempt))])
  }

  function StageDiscovery(c: Cancel, attempt: nat): Cancel {
    StageOp(c, DiscoveryOp).(discovery := Some(Discovery(c.next, attempt)))
  }

  function SetControl(c: Cancel, index: nat, control: Control): Cancel
    requires index < |c.targets|
  {
    c.(targets := c.targets[index := c.targets[index].(control := control)])
  }

  // ---------------------------------------------------------------- beginning

  /** Each target is withdrawn by an operation of its own, in order. */
  function BeginTargets(c: Cancel, targets: seq<(OpId, TargetKind)>): Cancel {
    if targets == [] then c
    else
      var last := targets[|targets| - 1];
      var rest := BeginTargets(c, targets[..|targets| - 1]);
      StageOp(rest, Withdraw(last.0)).(
        targets := rest.targets + [Target(last.0, last.1, false, WithdrawalRequested(rest.next))])
  }

  function BeginProcesses(c: Cancel, tracked: seq<(SessionId, Handle)>): Cancel {
    if tracked == [] then c
    else
      var last := tracked[|tracked| - 1];
      StageInterrupt(BeginProcesses(c, tracked[..|tracked| - 1]), Some(last.0), last.1)
  }

  /** `begin`: `staged` are the operations the session asked for so far, `originals` those that are out. */
  function Begin(staged: map<OpId, Role>, next: OpId, turnActive: bool, originals: seq<(OpId, TargetKind)>,
                 tracked: seq<(SessionId, Handle)>, sessions: map<SessionId, Handle>): Cancel
  {
    var blank := Cancel([], [], None, 0, sessions, turnActive, staged, next);
    Lifecycle(BeginProcesses(BeginTargets(blank, originals), tracked))
  }

  predicate CancellationComplete(c: Cancel) {
    && c.discovery.None?
    && (forall i :: 0 <= i < |c.targets| ==>
          c.targets[i].control.Settled? || (c.targets[i].originalCompleted && c.targets[i].control.AwaitingCompletion?))
    && (forall i :: 0 <= i < |c.processes| ==> c.processes[i].control.ProcessSettled?)
  }

  /** `set_lifecycle_status` */
  function Lifecycle(c: Cancel): Cancel {
    if CancellationComplete(c) then c.(turnActive := false, tracked := map[]) else c
  }

  // ---------------------------------------------------------------- finding what a completion is for

  predicate IsControl(control: Control, operation: OpId) {
    (control.WithdrawalRequested? || control.LlmCancellationRequested?) && control.control == operation
  }

  function TargetForControl(targets: seq<Target>, operation: OpId): (found: Option<nat>)
    ensures found.Some? ==> found.value < |targets| && IsControl(targets[found.value].control, operation)
    ensures found.None? ==> forall i :: 0 <= i < |targets| ==> !IsControl(targets[i].control, operation)
  {
    if targets == [] then None
    else
      var rest := TargetForControl(targets[..|targets| - 1], operation);
      if rest.Some? then rest
      else if IsControl(targets[|targets| - 1].control, operation) then Some(|targets| - 1)
      else None
  }

  function TargetOf(targets: seq<Target>, operation: OpId): (found: Option<nat>)
    ensures found.Some? ==> found.value < |targets| && targets[found.value].operation == operation
    ensures found.None? ==> forall i :: 0 <= i < |targets| ==> targets[i].operation != operation
  {
    if targets == [] then None
    else
      var rest := TargetOf(targets[..|targets| - 1], operation);
      if rest.Some? then rest
      else if targets[|targets| - 1].operation == operation then Some(|targets| - 1)
      else None
  }

  predicate ControlledBy(control: ProcessControl, operation: OpId) {
    (control.InterruptRequested? || control.TerminateRequested?) && control.operation == operation
  }

  function ProcessForControl(processes: seq<Process>, operation: OpId): (found: Option<nat>)
    ensures found.Some? ==> found.value < |processes| && ControlledBy(processes[found.value].control, operation)
    ensures found.None? ==> forall i :: 0 <= i < |processes| ==> !ControlledBy(processes[i].control, operation)
  {
    if processes == [] then None
    else
      var rest := ProcessForControl(processes[..|processes| - 1], operation);
      if rest.Some? then rest
      else if ControlledBy(processes[|processes| - 1].control, operation) then Some(|processes| - 1)
      else None
  }

  // ---------------------------------------------------------------- completions

  function HandleWithdrawal(c: Cancel, operation: OpId, outcome: Outcome): Handled {
    var found := TargetForControl(c.targets, operation);
    if found.None? then Err(NotAControl)
    else if outcome.Succeeded? && !outcome.result.WithdrawResult? then Err(WrongResult)
    else
      var target := c.targets[found.value];
      if outcome.Succeeded? && outcome.result.withdrawn then
        Ok(c.(targets := c.targets[found.value := target.(originalCompleted := true, control := Settled)]))
      else if target.kind.LlmTarget? then
        Ok(SetControl(StageOp(c, LlmCancel(target.operation)), found.value, LlmCancellationRequested(c.next, 1)))
      else
        Ok(SetControl(c, found.value, if target.originalCompleted then Settled else AwaitingCompletion))
  }

  function HandleLlmCancellation(c: Cancel, operation: OpId, outcome: Outcome): Handled {
    var found := TargetForControl(c.targets, operation);
    if found.None? then Err(NotAControl)
    else
      var target := c.targets[found.value];
      if !target.control.LlmCancellationRequested? then Err(InvalidControl)
      else match outcome
        case Succeeded(result) =>
          if result.LlmCancelResult? then Ok(SetControl(c, found.value, Settled)) else Err(WrongResult)
        case Cancelled => Ok(SetControl(c, found.value, Settled))
        case _ =>
          var noted := c.(failures := c.failures + 1);
          if target.control.attempt < MAX_CLEANUP_ATTEMPTS then
            Ok(SetControl(StageOp(noted, LlmCancel(target.operation)), found.value,
                          LlmCancellationRequested(c.next, target.control.attempt + 1)))
          else Ok(SetControl(noted, found.value, Settled))
  }

  predicate UncertainExecution(kind: TargetKind, outcome: Outcome) {
    kind.ExecutionTarget? && outcome.Unknown? && outcome.reported == []
  }

  function HandleOriginal(c: Cancel, operation: OpId, kind: TargetKind, outcome: Outcome): Handled {
    if outcome.Succeeded? && !(if kind.LlmTarget? then outcome.result.LlmResult? else outcome.result.ExecutionResult?)
    then Err(WrongResult)
    else
      var found := TargetOf(c.targets, operation);
      if found.None? then Err(NotATarget)
      else if c.targets[found.value].kind != kind then Err(WrongTargetKind)
      else
        var interrupted := InterruptAll(c, ExecutionsFrom(outcome));
        var target := c.targets[found.value].(originalCompleted := true);
        if UncertainExecution(kind, outcome) then
          var awaiting := interrupted.(targets := c.targets[found.value := target.(control := AwaitingDiscovery)]);
          Ok(if awaiting.discovery.None? then StageDiscovery(awaiting, 1) else awaiting)
        else
          Ok(interrupted.(targets := c.targets[found.value :=
            if target.control.AwaitingCompletion? then target.(control := Settled) else target]))
  }

  function SettleProcess(c: Cancel, index: nat): Cancel
    requires index < |c.processes|
  {
    var process := c.processes[index];
    c.(processes := c.processes[index := process.(control := ProcessSettled)],
       tracked := if process.session.Some? then c.tracked - {process.session.value} else c.tracked)
  }

  predicate AnyFinished(executions: seq<Execution>) { exists i :: 0 <= i < |executions| && executions[i].finished }

  function HandleProcess(c: Cancel, operation: OpId, outcome: Outcome): Handled {
    if outcome.Succeeded? && !outcome.result.ExecutionResult? then Err(WrongResult)
    else
      var found := ProcessForControl(c.processes, operation);
      if found.None? then Err(NotAControl)
      else match c.processes[found.value].control
        case InterruptRequested(_) =>
          if AnyFinished(ExecutionsFrom(outcome)) then Ok(SettleProcess(c, found.value))
          else Ok(StageTerminate(c, found.value, 1))
        case TerminateRequested(_, attempt) =>
          if outcome.Succeeded? || outcome.Cancelled? then Ok(SettleProcess(c, found.value))
          else
            var noted := c.(failures := c.failures + 1);
            if attempt < MAX_CLEANUP_ATTEMPTS then Ok(StageTerminate(noted, found.value, attempt + 1))
            else Ok(SettleProcess(noted, found.value))
        case ProcessSettled => Ok(c)
  }

  function SettleDiscovered(targets: seq<Target>): seq<Target> {
    seq(|targets|, i requires 0 <= i < |targets| =>
      if targets[i].control.AwaitingDiscovery? then targets[i].(control := Settled) else targets[i])
  }

  function HandleDiscovery(c: Cancel, outcome: Outcome): Handled
    requires c.discovery.Some?
  {
    if outcome.Succeeded? && !outcome.result.ExecutionResult? then Err(WrongResult)
    else if !outcome.Succeeded? && c.discovery.value.attempt < MAX_CLEANUP_ATTEMPTS then
      var noted := if outcome.Cancelled? then c else c.(failures := c.failures + 1);
      Ok(StageDiscovery(noted, c.discovery.value.attempt + 1))
    else
      Ok(InterruptAll(c.(discovery := None, targets := SettleDiscovered(c.targets)), ExecutionsFrom(outcome)))
  }

  datatype CompletionKind = LlmKind | ExecutionKind | LlmCancellationKind | WithdrawKind

  function Dispatch(c: Cancel, operation: OpId, kind: CompletionKind, outcome: Outcome): Handled {
    match kind
    case WithdrawKind => HandleWithdrawal(c, operation, outcome)
    case LlmCancellationKind => HandleLlmCancellation(c, operation, outcome)
    case LlmKind => HandleOriginal(c, operation, LlmTarget, outcome)
    case ExecutionKind =>
      if ProcessForControl(c.processes, operation).Some? then HandleProcess(c, operation, outcome)
      else if c.discovery.Some? && c.discovery.value.operation == operation then HandleDiscovery(c, outcome)
      else HandleOriginal(c, operation, ExecutionTarget, outcome)
  }

  /** `handle_completion` */
  function HandleCompletion(c: Cancel, operation: OpId, kind: CompletionKind, outcome: Outcome): Handled {
    var handled := Dispatch(c, operation, kind, outcome);
    if handled.Err? then handled else Ok(Lifecycle(handled.value))
  }

  function KindOf(role: Role): CompletionKind {
    match role
    case LlmOriginal => LlmKind
    case ExecutionOriginal => ExecutionKind
    case LlmCancel(_) => LlmCancellationKind
    case Withdraw(_) => WithdrawKind
    case InterruptProcess(_) => ExecutionKind
    case TerminateProcess(_) => ExecutionKind
    case DiscoveryOp => ExecutionKind
  }
}
