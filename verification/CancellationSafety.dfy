/** Cancellation ends, stays ended, and fails in exactly one way: on the completion of a withdrawal
    whose target was meanwhile sent to process discovery. */
module CancellationSafety {
  import opened Prelude
  import opened Cancellation

  // ---------------------------------------------------------------- the measure

  function ControlWeight(control: Control): nat {
    match control
    case WithdrawalRequested(_) => 3
    case LlmCancellationRequested(_, attempt) => if attempt < MAX_CLEANUP_ATTEMPTS then 2 else 1
    case AwaitingDiscovery => 1
    case AwaitingCompletion => 0
    case Settled => 0
  }

  function TargetWeight(target: Target): nat {
    (if target.originalCompleted then 0 else 4) + ControlWeight(target.control)
  }

  function TargetsWeight(targets: seq<Target>): nat {
    if targets == [] then 0
    else TargetsWeight(targets[..|targets| - 1]) + TargetWeight(targets[|targets| - 1])
  }

  function DiscoveryWeight(discovery: Option<Discovery>): nat {
    if discovery.None? then 0 else if discovery.value.attempt < MAX_CLEANUP_ATTEMPTS then 2 else 1
  }

  function ProcessWeight(control: ProcessControl): nat {
    match control
    case InterruptRequested(_) => 3
    case TerminateRequested(_, attempt) => if attempt < MAX_CLEANUP_ATTEMPTS then 2 else 1
    case ProcessSettled => 0
  }

  function ProcessesWeight(processes: seq<Process>): nat {
    if processes == [] then 0
    else ProcessesWeight(processes[..|processes| - 1]) + ProcessWeight(processes[|processes| - 1].control)
  }

  /** Lexicographic: targets first, then discovery, then processes. */
  predicate Lighter(a: Cancel, b: Cancel) {
    || TargetsWeight(b.targets) < TargetsWeight(a.targets)
    || (TargetsWeight(b.targets) == TargetsWeight(a.targets)
        && (DiscoveryWeight(b.discovery) < DiscoveryWeight(a.discovery)
            || (DiscoveryWeight(b.discovery) == DiscoveryWeight(a.discovery)
                && ProcessesWeight(b.processes) < ProcessesWeight(a.processes))))
  }

  lemma {:induction false} LighterTarget(targets: seq<Target>, i: nat, target: Target)
    requires i < |targets|
    ensures TargetsWeight(targets[i := target]) == TargetsWeight(targets) - TargetWeight(targets[i]) + TargetWeight(target)
  {
    var n := |targets| - 1;
    if i == n {
      assert targets[i := target][..n] == targets[..n];
    } else {
      assert targets[i := target][..n] == targets[..n][i := target];
      LighterTarget(targets[..n], i, target);
    }
  }

  lemma {:induction false} LighterProcess(processes: seq<Process>, i: nat, process: Process)
    requires i < |processes|
    ensures ProcessesWeight(processes[i := process])
         == ProcessesWeight(processes) - ProcessWeight(processes[i].control) + ProcessWeight(process.control)
  {
    var n := |processes| - 1;
    if i == n {
      assert processes[i := process][..n] == processes[..n];
    } else {
      assert processes[i := process][..n] == processes[..n][i := process];
      LighterProcess(processes[..n], i, process);
    }
  }

  lemma {:induction false} DiscoveredAreLighter(targets: seq<Target>)
    ensures TargetsWeight(SettleDiscovered(targets)) <= TargetsWeight(targets)
  {
    if targets != [] {
      var n := |targets| - 1;
      assert SettleDiscovered(targets)[..n] == SettleDiscovered(targets[..n]);
      DiscoveredAreLighter(targets[..n]);
    }
  }

  // ---------------------------------------------------------------- the invariant

  function OriginalRole(kind: TargetKind): Role { if kind.LlmTarget? then LlmOriginal else ExecutionOriginal }

  predicate Out(staged: map<OpId, Role>, completed: set<OpId>, operation: OpId, role: Role) {
    operation in staged && staged[operation] == role && operation !in completed
  }

  predicate TargetOk(staged: map<OpId, Role>, completed: set<OpId>, discovering: bool, t: Target) {
    && t.operation in staged && staged[t.operation] == OriginalRole(t.kind)
    && (t.originalCompleted <==> t.operation in completed)
    && match t.control
       case WithdrawalRequested(o) => Out(staged, completed, o, Withdraw(t.operation))
       case LlmCancellationRequested(o, attempt) =>
         Out(staged, completed, o, LlmCancel(t.operation)) && t.kind.LlmTarget? && 1 <= attempt <= MAX_CLEANUP_ATTEMPTS
       case AwaitingCompletion => t.kind.ExecutionTarget? && !t.originalCompleted
       case AwaitingDiscovery => t.kind.ExecutionTarget? && t.originalCompleted && discovering
       case Settled => t.kind.ExecutionTarget? ==> t.originalCompleted
  }

  predicate ForProcess(role: Role) { role.InterruptProcess? || role.TerminateProcess? }

  predicate ProcessOk(staged: map<OpId, Role>, completed: set<OpId>, process: Process) {
    match process.control
    case InterruptRequested(o) => Out(staged, completed, o, InterruptProcess(process.handle))
    case TerminateRequested(o, attempt) =>
      Out(staged, completed, o, TerminateProcess(process.handle)) && 1 <= attempt <= MAX_CLEANUP_ATTEMPTS
    case ProcessSettled => true
  }

  predicate ProcessesApart(a: ProcessControl, b: ProcessControl) {
    !a.ProcessSettled? && !b.ProcessSettled? ==> a.operation != b.operation
  }

  predicate DiscoveryOk(staged: map<OpId, Role>, completed: set<OpId>, discovery: Option<Discovery>) {
    discovery.Some? ==>
      Out(staged, completed, discovery.value.operation, DiscoveryOp) && 1 <= discovery.value.attempt <= MAX_CLEANUP_ATTEMPTS
  }

  ghost predicate TargetsOk(c: Cancel, completed: set<OpId>) {
    && (forall i :: 0 <= i < |c.targets| ==> TargetOk(c.staged, completed, c.discovery.Some?, c.targets[i]))
    && (forall i, j :: 0 <= i < j < |c.targets| ==> c.targets[i].operation != c.targets[j].operation)
  }

  ghost predicate ProcessesOk(c: Cancel, completed: set<OpId>) {
    && (forall i :: 0 <= i < |c.processes| ==> ProcessOk(c.staged, completed, c.processes[i]))
    && (forall i, j :: 0 <= i < j < |c.processes| ==> ProcessesApart(c.processes[i].control, c.processes[j].control))
  }

  ghost predicate Numbered(c: Cancel, completed: set<OpId>) {
    && (forall o: OpId :: o in c.staged <==> o < c.next)
    && (forall o :: o in completed ==> o in c.staged)
  }

  /** The completion of `o` will be matched with the control, process or target it is for. */
  predicate Awaited(c: Cancel, o: OpId)
    requires o in c.staged
  {
    match c.staged[o]
    case LlmOriginal => TargetOf(c.targets, o).Some?
    case ExecutionOriginal => TargetOf(c.targets, o).Some?
    case LlmCancel(_) => TargetForControl(c.targets, o).Some?
    case Withdraw(_) => TargetForControl(c.targets, o).Some?
    case InterruptProcess(_) => ProcessForControl(c.processes, o).Some?
    case TerminateProcess(_) => ProcessForControl(c.processes, o).Some?
    case DiscoveryOp => c.discovery.Some? && c.discovery.value.operation == o
  }

  /** A withdrawal whose target no longer refers to it. */
  predicate Orphan(c: Cancel, o: OpId)
    requires o in c.staged
  {
    && c.staged[o].Withdraw? && TargetForControl(c.targets, o).None?
    && TargetOf(c.targets, c.staged[o].target).Some?
    && c.targets[TargetOf(c.targets, c.staged[o].target).value].kind.ExecutionTarget?
    && c.targets[TargetOf(c.targets, c.staged[o].target).value].originalCompleted
  }

  ghost predicate Covered(c: Cancel, completed: set<OpId>) {
    forall o :: o in c.staged && o !in completed ==> Awaited(c, o) || Orphan(c, o)
  }

  ghost predicate CancelInv(c: Cancel, completed: set<OpId>) {
    && Numbered(c, completed) && TargetsOk(c, completed) && ProcessesOk(c, completed)
    && DiscoveryOk(c.staged, completed, c.discovery) && Covered(c, completed)
  }

  // ---------------------------------------------------------------- finding

  lemma TargetIsFound(targets: seq<Target>, i: nat)
    requires i < |targets| && forall j, k :: 0 <= j < k < |targets| ==> targets[j].operation != targets[k].operation
    ensures TargetOf(targets, targets[i].operation) == Some(i)
  {
    var found := TargetOf(targets, targets[i].operation);
    assert found.Some?;
  }

  lemma ControlIsFound(c: Cancel, completed: set<OpId>, i: nat, o: OpId)
    requires TargetsOk(c, completed) && i < |c.targets| && IsControl(c.targets[i].control, o)
    ensures TargetForControl(c.targets, o) == Some(i)
  {
    var found := TargetForControl(c.targets, o);
    assert found.Some?;
    assert TargetOk(c.staged, completed, c.discovery.Some?, c.targets[i]);
    assert TargetOk(c.staged, completed, c.discovery.Some?, c.targets[found.value]);
  }

  lemma ProcessIsFound(c: Cancel, completed: set<OpId>, i: nat, o: OpId)
    requires ProcessesOk(c, completed) && i < |c.processes| && ControlledBy(c.processes[i].control, o)
    ensures ProcessForControl(c.processes, o) == Some(i)
  {
    var found := ProcessForControl(c.processes, o);
    assert found.Some?;
    assert found.value < i ==> ProcessesApart(c.processes[found.value].control, c.processes[i].control);
    assert i < found.value ==> ProcessesApart(c.processes[i].control, c.processes[found.value].control);
  }

  // ---------------------------------------------------------------- interrupting

  /** Interrupting stages process operations and adds processes; nothing else changes. */
  ghost predicate Interrupts(a: Cancel, b: Cancel) {
    && b == a.(processes := b.processes, staged := b.staged, next := b.next) && a.next <= b.next
    && |a.processes| <= |b.processes| && b.processes[..|a.processes|] == a.processes
    && (forall o: OpId :: o in b.staged <==> o in a.staged || a.next <= o < b.next)
    && (forall o :: o in a.staged ==> b.staged[o] == a.staged[o])
    && (forall o :: a.next <= o < b.next ==> b.staged[o].InterruptProcess?)
  }

  lemma StagedInterrupt(c: Cancel, completed: set<OpId>, session: Option<SessionId>, handle: Handle)
    requires CancelInv(c, completed)
    ensures Interrupts(c, StageInterrupt(c, session, handle)) && CancelInv(StageInterrupt(c, session, handle), completed)
  {
    if !KnownHandle(c.processes, handle) {
      var b := StageInterrupt(c, session, handle);
      var n := |c.processes|;
      assert ProcessIsNew(c, completed, b, n);
      forall i, j | 0 <= i < j < |b.processes| ensures ProcessesApart(b.processes[i].control, b.processes[j].control) {
        assert ProcessOk(c.staged, completed, c.processes[i]);
        if j < n { assert ProcessesApart(c.processes[i].control, c.processes[j].control); }
      }
      forall o | o in b.staged && o !in completed ensures Awaited(b, o) || Orphan(b, o) {
        if o == c.next {
          ProcessIsFound(b, completed, n, o);
        } else {
          assert Awaited(c, o) || Orphan(c, o);
          if ForProcess(c.staged[o]) {
            var i := ProcessForControl(c.processes, o).value;
            ProcessIsFound(b, completed, i, o);
          }
        }
      }
    }
  }

  ghost predicate ProcessIsNew(c: Cancel, completed: set<OpId>, b: Cancel, n: nat) {
    |b.processes| == n + 1 && forall i :: 0 <= i < |b.processes| ==> ProcessOk(b.staged, completed, b.processes[i])
  }

  lemma InterruptsTwice(a: Cancel, b: Cancel, c: Cancel)
    requires Interrupts(a, b) && Interrupts(b, c)
    ensures Interrupts(a, c)
  {
    assert c.processes[..|a.processes|] == c.processes[..|b.processes|][..|a.processes|];
  }

  lemma {:induction false} InterruptedAll(c: Cancel, completed: set<OpId>, executions: seq<Execution>)
    requires CancelInv(c, completed)
    ensures Interrupts(c, InterruptAll(c, executions)) && CancelInv(InterruptAll(c, executions), completed)
  {
    if executions != [] {
      var n := |executions| - 1;
      InterruptedAll(c, completed, executions[..n]);
      var mid := InterruptAll(c, executions[..n]);
      if !executions[n].finished {
        StagedInterrupt(mid, completed, None, executions[n].handle);
        InterruptsTwice(c, mid, StageInterrupt(mid, None, executions[n].handle));
      }
    }
  }

  // ---------------------------------------------------------------- one target changes

  /** Target `i` becomes `t` when `o`, its control or its original, completes; a withdrawal it still
      waited for is kept unless the target is sent to discovery. */
  ghost predicate TargetMove(c: Cancel, completed: set<OpId>, o: OpId, i: nat, t: Target, b: Cancel) {
    && i < |c.targets| && o in c.staged && o !in completed
    && (IsControl(c.targets[i].control, o) || c.targets[i].operation == o)
    && t.operation == c.targets[i].operation && t.kind == c.targets[i].kind
    && b == c.(targets := c.targets[i := t], staged := b.staged, next := b.next, failures := b.failures)
    && ((b.next == c.next && b.staged == c.staged)
        || (b.next == c.next + 1 && b.staged == c.staged[c.next := LlmCancel(t.operation)] && IsControl(t.control, c.next)))
    && TargetOk(b.staged, completed + {o}, b.discovery.Some?, t)
    && (t.control.WithdrawalRequested? || t.control.LlmCancellationRequested? ==>
          t.control == c.targets[i].control || t.control.control == c.next)
    && (IsControl(c.targets[i].control, o) ==> !IsControl(t.control, o))
    && (c.targets[i].operation == o ==>
          t.control == c.targets[i].control
          || (t.kind.ExecutionTarget? && t.originalCompleted && !t.control.LlmCancellationRequested?
              && !c.targets[i].control.LlmCancellationRequested?))
  }

  lemma MovedTargetsOk(c: Cancel, completed: set<OpId>, o: OpId, i: nat, t: Target, b: Cancel)
    requires CancelInv(c, completed) && TargetMove(c, completed, o, i, t, b)
    ensures TargetsOk(b, completed + {o}) && ProcessesOk(b, completed + {o})
    ensures DiscoveryOk(b.staged, completed + {o}, b.discovery) && Numbered(b, completed + {o})
  {
    assert TargetOk(c.staged, completed, c.discovery.Some?, c.targets[i]);
    forall j | 0 <= j < |b.targets| ensures TargetOk(b.staged, completed + {o}, b.discovery.Some?, b.targets[j]) {
      if j != i {
        assert TargetOk(c.staged, completed, c.discovery.Some?, c.targets[j]);
        assert c.targets[j].operation != c.targets[i].operation;
      }
    }
    forall j | 0 <= j < |b.processes| ensures ProcessOk(b.staged, completed + {o}, b.processes[j]) {
      assert ProcessOk(c.staged, completed, c.processes[j]);
    }
  }

  lemma MovedCovered(c: Cancel, completed: set<OpId>, o: OpId, i: nat, t: Target, b: Cancel, w: OpId)
    requires CancelInv(c, completed) && TargetMove(c, completed, o, i, t, b)
    requires TargetsOk(b, completed + {o}) && w in b.staged && w !in completed + {o}
    ensures Awaited(b, w) || Orphan(b, w)
  {
    assert TargetOk(c.staged, completed, c.discovery.Some?, c.targets[i]);
    if w == c.next {
      ControlIsFound(b, completed + {o}, i, w);
    } else {
      assert Awaited(c, w) || Orphan(c, w);
      match c.staged[w]
      case InterruptProcess(_) =>
      case TerminateProcess(_) =>
      case DiscoveryOp =>
      case LlmOriginal => OriginalStillThere(c, completed, i, t, b, w);
      case ExecutionOriginal => OriginalStillThere(c, completed, i, t, b, w);
      case LlmCancel(_) => ControlStillThere(c, completed, o, i, t, b, w);
      case Withdraw(_) =>
        if TargetForControl(c.targets, w).Some? { ControlStillThere(c, completed, o, i, t, b, w); }
        else { OrphanStillThere(c, completed, o, i, t, b, w); }
    }
  }

  lemma OriginalStillThere(c: Cancel, completed: set<OpId>, i: nat, t: Target, b: Cancel, w: OpId)
    requires i < |c.targets| && t.operation == c.targets[i].operation && b.targets == c.targets[i := t]
    requires TargetOf(c.targets, w).Some?
    ensures TargetOf(b.targets, w).Some?
  {
    var j := TargetOf(c.targets, w).value;
    assert b.targets[j].operation == w;
  }

  lemma ControlStillThere(c: Cancel, completed: set<OpId>, o: OpId, i: nat, t: Target, b: Cancel, w: OpId)
    requires CancelInv(c, completed) && TargetMove(c, completed, o, i, t, b) && TargetsOk(b, completed + {o})
    requires w in c.staged && w != o && w in b.staged && b.staged[w] == c.staged[w]
    requires (c.staged[w].LlmCancel? || c.staged[w].Withdraw?) && TargetForControl(c.targets, w).Some?
    ensures Awaited(b, w) || Orphan(b, w)
  {
    var j := TargetForControl(c.targets, w).value;
    assert TargetOk(c.staged, completed, c.discovery.Some?, c.targets[j]);
    if IsControl(b.targets[j].control, w) {
      ControlIsFound(b, completed + {o}, j, w);
    } else {
      assert j == i && c.targets[i].operation == o;
      TargetIsFound(b.targets, i);
      if k :| 0 <= k < |b.targets| && IsControl(b.targets[k].control, w) {
        assert TargetOk(b.staged, completed + {o}, b.discovery.Some?, b.targets[k]);
        assert k == i;
      }
    }
  }

  lemma OrphanStillThere(c: Cancel, completed: set<OpId>, o: OpId, i: nat, t: Target, b: Cancel, w: OpId)
    requires CancelInv(c, completed) && TargetMove(c, completed, o, i, t, b) && TargetsOk(b, completed + {o})
    requires w in c.staged && w != c.next && w in b.staged && b.staged[w] == c.staged[w] && Orphan(c, w)
    ensures Orphan(b, w)
  {
    var target := c.staged[w].target;
    var j := TargetOf(c.targets, target).value;
    TargetIsFound(b.targets, j);
    assert TargetOk(c.staged, completed, c.discovery.Some?, c.targets[i]);
    assert TargetOk(b.staged, completed + {o}, b.discovery.Some?, t);
    forall k | 0 <= k < |b.targets| ensures !IsControl(b.targets[k].control, w) {
      if k != i { assert !IsControl(c.targets[k].control, w); }
      else { assert !IsControl(c.targets[i].control, w); }
    }
  }

  lemma TargetMoved(c: Cancel, completed: set<OpId>, o: OpId, i: nat, t: Target, b: Cancel)
    requires CancelInv(c, completed) && TargetMove(c, completed, o, i, t, b)
    ensures CancelInv(b, completed + {o})
  {
    MovedTargetsOk(c, completed, o, i, t, b);
    forall w | w in b.staged && w !in completed + {o} ensures Awaited(b, w) || Orphan(b, w) {
      MovedCovered(c, completed, o, i, t, b, w);
    }
  }

  // ---------------------------------------------------------------- discovery

  lemma DiscoveryStaged(c: Cancel, completed: set<OpId>)
    requires CancelInv(c, completed) && c.discovery.None?
    ensures CancelInv(StageDiscovery(c, 1), completed)
  {
    var b := StageDiscovery(c, 1);
    forall i | 0 <= i < |b.targets| ensures TargetOk(b.staged, completed, true, b.targets[i]) {
      assert TargetOk(c.staged, completed, false, c.targets[i]);
    }
    forall i | 0 <= i < |b.processes| ensures ProcessOk(b.staged, completed, b.processes[i]) {
      assert ProcessOk(c.staged, completed, c.processes[i]);
    }
    forall o | o in b.staged && o !in completed ensures Awaited(b, o) || Orphan(b, o) {
      if o != c.next { assert Awaited(c, o) || Orphan(c, o); }
    }
  }

  lemma DiscoveryRetried(c: Cancel, completed: set<OpId>, failures: nat)
    requires CancelInv(c, completed) && c.discovery.Some? && c.discovery.value.attempt < MAX_CLEANUP_ATTEMPTS
    ensures var o := c.discovery.value.operation;
            var b := StageDiscovery(c.(failures := failures), c.discovery.value.attempt + 1);
            CancelInv(b, completed + {o}) && Lighter(c, b)
  {
    var o := c.discovery.value.operation;
    var b := StageDiscovery(c.(failures := failures), c.discovery.value.attempt + 1);
    forall i | 0 <= i < |b.targets| ensures TargetOk(b.staged, completed + {o}, true, b.targets[i]) {
      assert TargetOk(c.staged, completed, true, c.targets[i]);
    }
    forall i | 0 <= i < |b.processes| ensures ProcessOk(b.staged, completed + {o}, b.processes[i]) {
      assert ProcessOk(c.staged, completed, c.processes[i]);
    }
    forall w | w in b.staged && w !in completed + {o} ensures Awaited(b, w) || Orphan(b, w) {
      if w != c.next { assert Awaited(c, w) || Orphan(c, w); }
    }
  }

  lemma DiscoveryEnded(c: Cancel, completed: set<OpId>)
    requires CancelInv(c, completed) && c.discovery.Some?
    ensures var o := c.discovery.value.operation;
            var b := c.(discovery := None, targets := SettleDiscovered(c.targets));
            CancelInv(b, completed + {o}) && Lighter(c, b)
  {
    var o := c.discovery.value.operation;
    var b := c.(discovery := None, targets := SettleDiscovered(c.targets));
    DiscoveredAreLighter(c.targets);
    forall i | 0 <= i < |b.targets| ensures TargetOk(b.staged, completed + {o}, false, b.targets[i]) {
      assert TargetOk(c.staged, completed, true, c.targets[i]);
    }
    forall i | 0 <= i < |b.processes| ensures ProcessOk(b.staged, completed + {o}, b.processes[i]) {
      assert ProcessOk(c.staged, completed, c.processes[i]);
    }
    assert TargetsOk(b, completed + {o});
    forall w | w in b.staged && w !in completed + {o} ensures Awaited(b, w) || Orphan(b, w) {
      assert Awaited(c, w) || Orphan(c, w);
      SettledStillCovers(c, completed, b, w);
    }
  }

  lemma SettledStillCovers(c: Cancel, completed: set<OpId>, b: Cancel, w: OpId)
    requires CancelInv(c, completed) && b == c.(discovery := None, targets := SettleDiscovered(c.targets))
    requires w in c.staged && w !in completed && (Awaited(c, w) || Orphan(c, w)) && !c.staged[w].DiscoveryOp?
    requires forall j, k :: 0 <= j < k < |b.targets| ==> b.targets[j].operation != b.targets[k].operation
    ensures Awaited(b, w) || Orphan(b, w)
  {
    if TargetForControl(c.targets, w).Some? {
      assert IsControl(b.targets[TargetForControl(c.targets, w).value].control, w);
    }
    if TargetOf(c.targets, w).Some? {
      assert b.targets[TargetOf(c.targets, w).value].operation == w;
    }
    if Orphan(c, w) {
      var j := TargetOf(c.targets, c.staged[w].target).value;
      TargetIsFound(b.targets, j);
      assert forall k :: 0 <= k < |b.targets| ==> IsControl(b.targets[k].control, w) ==> IsControl(c.targets[k].control, w);
    }
  }

  // ---------------------------------------------------------------- processes

  /** Process `i`'s control completes and is replaced by a settled one or by the next one staged. */
  lemma ProcessMoved(c: Cancel, completed: set<OpId>, o: OpId, i: nat, control: ProcessControl, b: Cancel)
    requires CancelInv(c, completed) && i < |c.processes| && ControlledBy(c.processes[i].control, o)
    requires b == c.(processes := c.processes[i := c.processes[i].(control := control)], staged := b.staged,
                     next := b.next, failures := b.failures, tracked := b.tracked)
    requires if control.ProcessSettled? then b.staged == c.staged && b.next == c.next
             else control.TerminateRequested? && control.operation == c.next && 1 <= control.attempt <= MAX_CLEANUP_ATTEMPTS
                  && b.staged == c.staged[c.next := TerminateProcess(c.processes[i].handle)] && b.next == c.next + 1
    ensures CancelInv(b, completed + {o})
  {
    assert ProcessOk(c.staged, completed, c.processes[i]);
    forall j | 0 <= j < |b.processes| ensures ProcessOk(b.staged, completed + {o}, b.processes[j]) {
      assert ProcessOk(c.staged, completed, c.processes[j]);
      if j < i { assert ProcessesApart(c.processes[j].control, c.processes[i].control); }
      if i < j { assert ProcessesApart(c.processes[i].control, c.processes[j].control); }
    }
    forall j, k | 0 <= j < k < |b.processes| ensures ProcessesApart(b.processes[j].control, b.processes[k].control) {
      assert ProcessesApart(c.processes[j].control, c.processes[k].control);
      assert ProcessOk(c.staged, completed, c.processes[j]) && ProcessOk(c.staged, completed, c.processes[k]);
    }
    forall j | 0 <= j < |b.targets| ensures TargetOk(b.staged, completed + {o}, b.discovery.Some?, b.targets[j]) {
      assert TargetOk(c.staged, completed, c.discovery.Some?, c.targets[j]);
    }
    forall w | w in b.staged && w !in completed + {o} ensures Awaited(b, w) || Orphan(b, w) {
      ProcessesStillCover(c, completed, o, i, b, w);
    }
  }

  lemma ProcessesStillCover(c: Cancel, completed: set<OpId>, o: OpId, i: nat, b: Cancel, w: OpId)
    requires CancelInv(c, completed) && i < |c.processes| && ControlledBy(c.processes[i].control, o)
    requires ProcessesOk(b, completed + {o}) && b.targets == c.targets && b.discovery == c.discovery
    requires |b.processes| == |c.processes| && forall j :: 0 <= j < |c.processes| && j != i ==> b.processes[j] == c.processes[j]
    requires w in b.staged && w !in completed + {o}
    requires (b.next == c.next && b.staged == c.staged)
             || (b.next == c.next + 1 && b.staged == c.staged[c.next := TerminateProcess(c.processes[i].handle)] && ControlledBy(b.processes[i].control, c.next))
    ensures Awaited(b, w) || Orphan(b, w)
  {
    if w == c.next {
      ProcessIsFound(b, completed + {o}, i, w);
    } else {
      assert Awaited(c, w) || Orphan(c, w);
      if ForProcess(c.staged[w]) {
        var j := ProcessForControl(c.processes, w).value;
        ProcessIsFound(b, completed + {o}, j, w);
      }
    }
  }

  // ---------------------------------------------------------------- beginning

  predicate IsOriginal(originals: seq<(OpId, TargetKind)>, o: OpId) {
    exists i :: 0 <= i < |originals| && originals[i].0 == o
  }

  /** The originals are out, are known under their kinds, and are distinct. */
  ghost predicate OriginalsOk(staged: map<OpId, Role>, completed: set<OpId>, originals: seq<(OpId, TargetKind)>) {
    && (forall i :: 0 <= i < |originals| ==> Out(staged, completed, originals[i].0, OriginalRole(originals[i].1)))
    && (forall i, j :: 0 <= i < j < |originals| ==> originals[i].0 != originals[j].0)
  }

  predicate Remaining(originals: seq<(OpId, TargetKind)>, n: nat, o: OpId) {
    exists i :: n <= i < |originals| && originals[i].0 == o
  }

  /** While targets are being withdrawn one by one, the rest of the originals are not covered yet. */
  ghost predicate CoveredBut(c: Cancel, completed: set<OpId>, originals: seq<(OpId, TargetKind)>, n: nat) {
    forall o :: o in c.staged && o !in completed ==> Awaited(c, o) || Remaining(originals, n, o)
  }

  ghost predicate Begun(c: Cancel, b: Cancel, completed: set<OpId>, originals: seq<(OpId, TargetKind)>, n: nat)
    requires n <= |originals|
  {
    && b.processes == [] && b.discovery.None? && Numbered(b, completed) && TargetsOk(b, completed)
    && |b.targets| == n && c.next <= b.next
    && (forall o :: o in c.staged ==> o in b.staged && b.staged[o] == c.staged[o])
    && (forall i :: 0 <= i < n ==> b.targets[i].operation == originals[i].0)
    && CoveredBut(b, completed, originals, n)
  }

  lemma NoneBegun(c: Cancel, completed: set<OpId>, originals: seq<(OpId, TargetKind)>)
    requires c.targets == [] && c.processes == [] && c.discovery.None? && Numbered(c, completed)
    requires forall o :: o in c.staged && o !in completed ==> IsOriginal(originals, o)
    ensures Begun(c, c, completed, originals, 0)
  {
    forall o | o in c.staged && o !in completed ensures Remaining(originals, 0, o) {
      assert IsOriginal(originals, o);
    }
  }

  lemma {:induction false} TargetsBegun(c: Cancel, completed: set<OpId>, originals: seq<(OpId, TargetKind)>, n: nat)
    requires c.targets == [] && c.processes == [] && c.discovery.None? && Numbered(c, completed) && n <= |originals|
    requires OriginalsOk(c.staged, completed, originals)
    requires forall o :: o in c.staged && o !in completed ==> IsOriginal(originals, o)
    ensures Begun(c, BeginTargets(c, originals[..n]), completed, originals, n)
  {
    if n == 0 {
      NoneBegun(c, completed, originals);
    } else {
      TargetsBegun(c, completed, originals, n - 1);
      var mid := BeginTargets(c, originals[..n - 1]);
      assert originals[..n][..n - 1] == originals[..n - 1];
      assert BeginTargets(c, originals[..n]) == WithTarget(mid, originals[n - 1]);
      OneMoreTarget(c, mid, completed, originals, n - 1);
    }
  }

  function WithTarget(c: Cancel, original: (OpId, TargetKind)): Cancel {
    StageOp(c, Withdraw(original.0)).(
      targets := c.targets + [Target(original.0, original.1, false, WithdrawalRequested(c.next))])
  }

  lemma OneMoreIsOk(c: Cancel, completed: set<OpId>, original: (OpId, TargetKind))
    requires Numbered(c, completed) && TargetsOk(c, completed) && c.discovery.None?
    requires Out(c.staged, completed, original.0, OriginalRole(original.1))
    requires forall i :: 0 <= i < |c.targets| ==> c.targets[i].operation != original.0
    ensures Numbered(WithTarget(c, original), completed) && TargetsOk(WithTarget(c, original), completed)
  {
    var b := WithTarget(c, original);
    forall i | 0 <= i < |b.targets| ensures TargetOk(b.staged, completed, false, b.targets[i]) {
      if i < |c.targets| { assert TargetOk(c.staged, completed, false, c.targets[i]); }
    }
  }

  lemma OneMoreTarget(first: Cancel, c: Cancel, completed: set<OpId>, originals: seq<(OpId, TargetKind)>, n: nat)
    requires n < |originals| && Begun(first, c, completed, originals, n)
    requires OriginalsOk(first.staged, completed, originals)
    ensures Begun(first, WithTarget(c, originals[n]), completed, originals, n + 1)
  {
    var b := WithTarget(c, originals[n]);
    assert forall i :: 0 <= i < |originals| ==> Out(first.staged, completed, originals[i].0, OriginalRole(originals[i].1));
    OneMoreIsOk(c, completed, originals[n]);
    assert OriginalsOk(b.staged, completed, originals);
    forall o | o in b.staged && o !in completed ensures Awaited(b, o) || Remaining(originals, n + 1, o) {
      OneMoreCovered(c, completed, originals, n, b, o);
    }
  }

  lemma OneMoreCovered(c: Cancel, completed: set<OpId>, originals: seq<(OpId, TargetKind)>, n: nat, b: Cancel, o: OpId)
    requires n < |originals| && |c.targets| == n && b == WithTarget(c, originals[n]) && c.processes == [] && c.discovery.None?
    requires CoveredBut(c, completed, originals, n) && TargetsOk(b, completed)
    requires OriginalsOk(b.staged, completed, originals) && o in b.staged && o !in completed && c.next !in c.staged
    ensures Awaited(b, o) || Remaining(originals, n + 1, o)
  {
    if o == c.next {
      ControlIsFound(b, completed, n, o);
    } else if Awaited(c, o) {
      if TargetOf(c.targets, o).Some? { assert b.targets[TargetOf(c.targets, o).value].operation == o; }
      if TargetForControl(c.targets, o).Some? {
        assert IsControl(b.targets[TargetForControl(c.targets, o).value].control, o);
      }
    } else {
      assert Remaining(originals, n, o);
      var i :| n <= i < |originals| && originals[i].0 == o;
      assert Out(b.staged, completed, originals[i].0, OriginalRole(originals[i].1));
      if i == n { assert b.targets[n].operation == o; }
    }
  }

  lemma {:induction false} ProcessesBegun(c: Cancel, completed: set<OpId>, tracked: seq<(SessionId, Handle)>)
    requires CancelInv(c, completed)
    ensures CancelInv(BeginProcesses(c, tracked), completed)
  {
    if tracked != [] {
      var n := |tracked| - 1;
      ProcessesBegun(c, completed, tracked[..n]);
      StagedInterrupt(BeginProcesses(c, tracked[..n]), completed, Some(tracked[n].0), tracked[n].1);
    }
  }

  lemma LifecycleKeepsInv(c: Cancel, completed: set<OpId>)
    requires CancelInv(c, completed)
    ensures CancelInv(Lifecycle(c), completed)
  {
    var b := Lifecycle(c);
    forall o | o in b.staged && o !in completed ensures Awaited(b, o) || Orphan(b, o) {
      assert Awaited(c, o) || Orphan(c, o);
    }
  }

  /** A session in which exactly `originals` are out starts cancelling in order. */
  lemma BeginIsOk(staged: map<OpId, Role>, completed: set<OpId>, next: OpId, turnActive: bool,
                  originals: seq<(OpId, TargetKind)>, tracked: seq<(SessionId, Handle)>, sessions: map<SessionId, Handle>)
    requires (forall o: OpId :: o in staged <==> o < next) && (forall o :: o in completed ==> o in staged)
    requires OriginalsOk(staged, completed, originals)
    requires forall o :: o in staged && o !in completed ==> IsOriginal(originals, o)
    ensures CancelInv(Begin(staged, next, turnActive, originals, tracked, sessions), completed)
  {
    var blank := Cancel([], [], None, 0, sessions, turnActive, staged, next);
    TargetsBegun(blank, completed, originals, |originals|);
    assert originals[..|originals|] == originals;
    var begun := BeginTargets(blank, originals);
    forall o | o in begun.staged && o !in completed ensures Awaited(begun, o) || Orphan(begun, o) {
      assert !Remaining(originals, |originals|, o);
    }
    ProcessesBegun(begun, completed, tracked);
    LifecycleKeepsInv(BeginProcesses(begun, tracked), completed);
  }

  // ---------------------------------------------------------------- one completion

  /** Outcomes carry results of their operation's kind; a failed model call carries no execution. */
  predicate WellTyped(role: Role, outcome: Outcome) {
    match role
    case LlmOriginal => if outcome.Succeeded? then outcome.result.LlmResult? else ExecutionsFrom(outcome) == []
    case LlmCancel(_) => outcome.Succeeded? ==> outcome.result.LlmCancelResult?
    case Withdraw(_) => outcome.Succeeded? ==> outcome.result.WithdrawResult?
    case _ => outcome.Succeeded? ==> outcome.result.ExecutionResult?
  }

  /** Completions arrive once for what is out; a target that was withdrawn completed before its
      withdrawal did, because the store announces it first. */
  predicate Arrives(c: Cancel, completed: set<OpId>, o: OpId, outcome: Outcome) {
    && o in c.staged && o !in completed && WellTyped(c.staged[o], outcome)
    && (c.staged[o].Withdraw? && outcome.Succeeded? && outcome.result.withdrawn ==> c.staged[o].target in completed)
  }

  ghost predicate StepOk(c: Cancel, completed: set<OpId>, o: OpId, handled: Handled) {
    handled.Ok? && CancelInv(handled.value, completed + {o}) && Lighter(c, handled.value)
  }

  lemma WithdrawalIsOk(c: Cancel, completed: set<OpId>, o: OpId, outcome: Outcome)
    requires CancelInv(c, completed) && Arrives(c, completed, o, outcome) && c.staged[o].Withdraw? && Awaited(c, o)
    ensures StepOk(c, completed, o, HandleWithdrawal(c, o, outcome))
  {
    var i := TargetForControl(c.targets, o).value;
    var t := c.targets[i];
    assert TargetOk(c.staged, completed, c.discovery.Some?, t);
    var b := HandleWithdrawal(c, o, outcome).value;
    LighterTarget(c.targets, i, b.targets[i]);
    assert b.targets == c.targets[i := b.targets[i]];
    TargetMoved(c, completed, o, i, b.targets[i], b);
  }

  lemma LlmCancellationMoves(c: Cancel, completed: set<OpId>, o: OpId, outcome: Outcome, i: nat)
    requires CancelInv(c, completed) && Arrives(c, completed, o, outcome) && c.staged[o].LlmCancel?
    requires TargetForControl(c.targets, o) == Some(i)
    ensures var handled := HandleLlmCancellation(c, o, outcome);
            && handled.Ok? && |handled.value.targets| == |c.targets|
            && TargetMove(c, completed, o, i, handled.value.targets[i], handled.value)
            && TargetWeight(handled.value.targets[i]) < TargetWeight(c.targets[i])
  {
    assert TargetOk(c.staged, completed, c.discovery.Some?, c.targets[i]);
    var b := HandleLlmCancellation(c, o, outcome).value;
    assert b.targets == c.targets[i := b.targets[i]];
  }

  lemma LlmCancellationIsOk(c: Cancel, completed: set<OpId>, o: OpId, outcome: Outcome)
    requires CancelInv(c, completed) && Arrives(c, completed, o, outcome) && c.staged[o].LlmCancel? && Awaited(c, o)
    ensures StepOk(c, completed, o, HandleLlmCancellation(c, o, outcome))
  {
    var i := TargetForControl(c.targets, o).value;
    LlmCancellationMoves(c, completed, o, outcome, i);
    var b := HandleLlmCancellation(c, o, outcome).value;
    LighterTarget(c.targets, i, b.targets[i]);
    TargetMoved(c, completed, o, i, b.targets[i], b);
  }

  lemma OriginalIsOk(c: Cancel, completed: set<OpId>, o: OpId, kind: TargetKind, outcome: Outcome)
    requires CancelInv(c, completed) && Arrives(c, completed, o, outcome)
    requires c.staged[o] == OriginalRole(kind) && Awaited(c, o)
    ensures StepOk(c, completed, o, HandleOriginal(c, o, kind, outcome))
  {
    var i := TargetOf(c.targets, o).value;
    assert TargetOk(c.staged, completed, c.discovery.Some?, c.targets[i]);
    var mid := InterruptAll(c, ExecutionsFrom(outcome));
    InterruptedAll(c, completed, ExecutionsFrom(outcome));
    if UncertainExecution(kind, outcome) {
      UncertainIsOk(c, completed, o, i, outcome);
    } else {
      var b := HandleOriginal(c, o, kind, outcome).value;
      assert b.targets == mid.targets[i := b.targets[i]];
      LighterTarget(c.targets, i, b.targets[i]);
      TargetMoved(mid, completed, o, i, b.targets[i], b);
    }
  }

  lemma UncertainIsOk(c: Cancel, completed: set<OpId>, o: OpId, i: nat, outcome: Outcome)
    requires CancelInv(c, completed) && Arrives(c, completed, o, outcome) && c.staged[o].ExecutionOriginal?
    requires UncertainExecution(ExecutionTarget, outcome) && TargetOf(c.targets, o) == Some(i)
    ensures StepOk(c, completed, o, HandleOriginal(c, o, ExecutionTarget, outcome))
  {
    assert TargetOk(c.staged, completed, c.discovery.Some?, c.targets[i]);
    var discovering := if c.discovery.None? then StageDiscovery(c, 1) else c;
    if c.discovery.None? { DiscoveryStaged(c, completed); }
    var t := c.targets[i].(originalCompleted := true, control := AwaitingDiscovery);
    var b := discovering.(targets := c.targets[i := t]);
    assert HandleOriginal(c, o, ExecutionTarget, outcome).value == b;
    LighterTarget(c.targets, i, t);
    TargetMoved(discovering, completed, o, i, t, b);
  }

  lemma ProcessIsOk(c: Cancel, completed: set<OpId>, o: OpId, outcome: Outcome)
    requires CancelInv(c, completed) && Arrives(c, completed, o, outcome) && ForProcess(c.staged[o]) && Awaited(c, o)
    ensures StepOk(c, completed, o, HandleProcess(c, o, outcome))
  {
    var i := ProcessForControl(c.processes, o).value;
    assert ProcessOk(c.staged, completed, c.processes[i]);
    var b := HandleProcess(c, o, outcome).value;
    LighterProcess(c.processes, i, b.processes[i]);
    assert b.processes == c.processes[i := b.processes[i]];
    ProcessMoved(c, completed, o, i, b.processes[i].control, b);
  }

  lemma DiscoveryIsOk(c: Cancel, completed: set<OpId>, outcome: Outcome)
    requires CancelInv(c, completed) && c.discovery.Some?
    requires Arrives(c, completed, c.discovery.value.operation, outcome)
    ensures StepOk(c, completed, c.discovery.value.operation, HandleDiscovery(c, outcome))
  {
    assert c.staged[c.discovery.value.operation] == DiscoveryOp;
    if !outcome.Succeeded? && c.discovery.value.attempt < MAX_CLEANUP_ATTEMPTS {
      DiscoveryRetried(c, completed, if outcome.Cancelled? then c.failures else c.failures + 1);
      assert c.(failures := c.failures) == c;
    } else {
      DiscoveryIsOver(c, completed, ExecutionsFrom(outcome));
    }
  }

  lemma DiscoveryIsOver(c: Cancel, completed: set<OpId>, found: seq<Execution>)
    requires CancelInv(c, completed) && c.discovery.Some?
    ensures var b := InterruptAll(c.(discovery := None, targets := SettleDiscovered(c.targets)), found);
            CancelInv(b, completed + {c.discovery.value.operation}) && Lighter(c, b)
  {
    var mid := c.(discovery := None, targets := SettleDiscovered(c.targets));
    DiscoveryEnded(c, completed);
    InterruptedAll(mid, completed + {c.discovery.value.operation}, found);
    DiscoveryLightens(c, mid, InterruptAll(mid, found));
  }

  lemma DiscoveryLightens(c: Cancel, mid: Cancel, b: Cancel)
    requires c.discovery.Some? && mid.discovery.None? && TargetsWeight(mid.targets) <= TargetsWeight(c.targets)
    requires Interrupts(mid, b)
    ensures Lighter(c, b)
  {
  }

  // ---------------------------------------------------------------- every completion

  lemma LighterAfterLifecycle(a: Cancel, b: Cancel)
    requires Lighter(a, b)
    ensures Lighter(a, Lifecycle(b))
  {
  }

  lemma AwaitedIsDispatched(c: Cancel, completed: set<OpId>, o: OpId, outcome: Outcome)
    requires CancelInv(c, completed) && Arrives(c, completed, o, outcome) && Awaited(c, o)
    ensures StepOk(c, completed, o, Dispatch(c, o, KindOf(c.staged[o]), outcome))
  {
    match c.staged[o]
    case LlmOriginal => OriginalIsOk(c, completed, o, LlmTarget, outcome);
    case ExecutionOriginal =>
      NotAProcess(c, completed, o);
      OriginalIsOk(c, completed, o, ExecutionTarget, outcome);
    case LlmCancel(_) => LlmCancellationIsOk(c, completed, o, outcome);
    case Withdraw(_) => WithdrawalIsOk(c, completed, o, outcome);
    case InterruptProcess(_) => ProcessIsOk(c, completed, o, outcome);
    case TerminateProcess(_) => ProcessIsOk(c, completed, o, outcome);
    case DiscoveryOp =>
      NotAProcess(c, completed, o);
      DiscoveryIsOk(c, completed, outcome);
  }

  lemma NotAProcess(c: Cancel, completed: set<OpId>, o: OpId)
    requires CancelInv(c, completed) && o in c.staged && !ForProcess(c.staged[o])
    ensures ProcessForControl(c.processes, o).None?
    ensures c.discovery.Some? && c.discovery.value.operation == o ==> c.staged[o].DiscoveryOp?
  {
    assert forall i :: 0 <= i < |c.processes| ==> ProcessOk(c.staged, completed, c.processes[i]);
  }

  /** A completion that arrives is handled, brings the cancellation nearer to its end and keeps it in
      order, if it is awaited; it is refused, as no control's completion, if it is an orphan. */
  lemma CompletionsAreHandled(c: Cancel, completed: set<OpId>, o: OpId, outcome: Outcome)
    requires CancelInv(c, completed) && Arrives(c, completed, o, outcome)
    ensures var handled := HandleCompletion(c, o, KindOf(c.staged[o]), outcome);
            if Awaited(c, o)
            then handled.Ok? && CancelInv(handled.value, completed + {o}) && Lighter(c, handled.value)
            else c.staged[o].Withdraw? && handled == Err(NotAControl)
  {
    if Awaited(c, o) {
      AwaitedIsDispatched(c, completed, o, outcome);
      var b := Dispatch(c, o, KindOf(c.staged[o]), outcome).value;
      LifecycleKeepsInv(b, completed + {o});
      LighterAfterLifecycle(c, b);
    }
  }

  /** The withdrawals nobody waits for any more. */
  predicate Overtaken(c: Cancel, completed: set<OpId>, o: OpId) {
    o in c.staged && o !in completed && !Awaited(c, o)
  }

  /** The completion that sends a target to discovery while its withdrawal is still out. */
  predicate Overtakes(c: Cancel, o: OpId, outcome: Outcome, withdrawal: OpId) {
    && o in c.staged && c.staged[o].ExecutionOriginal? && UncertainExecution(ExecutionTarget, outcome)
    && TargetOf(c.targets, o).Some?
    && c.targets[TargetOf(c.targets, o).value].control == WithdrawalRequested(withdrawal)
  }

  // ---------------------------------------------------------------- completeness is for ever

  lemma StillComplete(c: Cancel, completed: set<OpId>, o: OpId, outcome: Outcome)
    requires CancelInv(c, completed) && Arrives(c, completed, o, outcome) && CancellationComplete(c)
    ensures var handled := HandleCompletion(c, o, KindOf(c.staged[o]), outcome);
            handled.Ok? ==> CancellationComplete(handled.value) && handled.value.next == c.next
  {
    assert TargetForControl(c.targets, o).None? && ProcessForControl(c.processes, o).None?;
    if TargetOf(c.targets, o).Some? {
      assert TargetOk(c.staged, completed, false, c.targets[TargetOf(c.targets, o).value]);
    }
  }

  // ---------------------------------------------------------------- runs

  datatype Completion = Completion(operation: OpId, outcome: Outcome)

  datatype Session = Session(c: Cancel, completed: set<OpId>)

  /** A completion that fails to be handled leaves everything as it was. */
  function Happens(s: Session, event: Completion): Session {
    if !Arrives(s.c, s.completed, event.operation, event.outcome) then s
    else
      var handled := HandleCompletion(s.c, event.operation, KindOf(s.c.staged[event.operation]), event.outcome);
      if handled.Err? then s else Session(handled.value, s.completed + {event.operation})
  }

  function After(s: Session, events: seq<Completion>): Session {
    if events == [] then s else Happens(After(s, events[..|events| - 1]), events[|events| - 1])
  }

  lemma HappensKeepsInv(s: Session, event: Completion)
    requires CancelInv(s.c, s.completed)
    ensures CancelInv(Happens(s, event).c, Happens(s, event).completed)
    ensures CancellationComplete(s.c) ==> CancellationComplete(Happens(s, event).c) && Happens(s, event).c.next == s.c.next
  {
    if Arrives(s.c, s.completed, event.operation, event.outcome) {
      CompletionsAreHandled(s.c, s.completed, event.operation, event.outcome);
      if CancellationComplete(s.c) { StillComplete(s.c, s.completed, event.operation, event.outcome); }
    }
  }

  lemma {:induction false} AfterKeepsInv(s: Session, events: seq<Completion>)
    requires CancelInv(s.c, s.completed)
    ensures CancelInv(After(s, events).c, After(s, events).completed)
    ensures CancellationComplete(s.c) ==> CancellationComplete(After(s, events).c) && After(s, events).c.next == s.c.next
  {
    if events != [] {
      AfterKeepsInv(s, events[..|events| - 1]);
      HappensKeepsInv(After(s, events[..|events| - 1]), events[|events| - 1]);
    }
  }

  // ---------------------------------------------------------------- main results

  /** Once a cancellation is complete it stays complete and stages no further operation. */
  lemma CompleteForEver(s: Session, before: seq<Completion>, later: seq<Completion>)
    requires CancelInv(s.c, s.completed) && CancellationComplete(After(s, before).c)
    ensures var done := After(s, before);
            CancellationComplete(After(done, later).c) && After(done, later).c.next == done.c.next
  {
    AfterKeepsInv(s, before);
    AfterKeepsInv(After(s, before), later);
  }

  /** With nothing left to complete, the cancellation is complete. */
  lemma QuietMeansComplete(s: Session, events: seq<Completion>)
    requires CancelInv(s.c, s.completed)
    requires forall o :: o in After(s, events).c.staged ==> o in After(s, events).completed
    ensures CancellationComplete(After(s, events).c)
  {
    AfterKeepsInv(s, events);
    var c, completed := After(s, events).c, After(s, events).completed;
    forall i | 0 <= i < |c.targets| ensures c.targets[i].control.Settled? {
      assert TargetOk(c.staged, completed, c.discovery.Some?, c.targets[i]);
    }
    forall i | 0 <= i < |c.processes| ensures c.processes[i].control.ProcessSettled? {
      assert ProcessOk(c.staged, completed, c.processes[i]);
    }
  }

  /** The session after `n` completions chosen by `choose`, whatever it looks at. */
  function Driven(s: Session, choose: Session -> Completion, n: nat): Session
    decreases n
  {
    if n == 0 then s else Driven(Happens(s, choose(s)), choose, n - 1)
  }

  /** Whichever completions arrive in whichever order, after finitely many of them the next one can no
      longer be handled: only finitely many cleanup operations are ever staged. */
  lemma {:induction false} CancellationTerminates(s: Session, choose: Session -> Completion)
    requires CancelInv(s.c, s.completed)
    ensures exists n: nat :: var last := Driven(s, choose, n); Happens(last, choose(last)) == last
    decreases TargetsWeight(s.c.targets), DiscoveryWeight(s.c.discovery), ProcessesWeight(s.c.processes)
  {
    var next := Happens(s, choose(s));
    if next == s {
      assert Driven(s, choose, 0) == s;
    } else {
      HappensKeepsInv(s, choose(s));
      CompletionsAreHandled(s.c, s.completed, choose(s).operation, choose(s).outcome);
      CancellationTerminates(next, choose);
      var n: nat :| var last := Driven(next, choose, n); Happens(last, choose(last)) == last;
      assert Driven(s, choose, n + 1) == Driven(next, choose, n);
    }
  }

  /** A completion is refused exactly if it is that of an overtaken withdrawal. */
  lemma RefusedExactlyWhenOvertaken(s: Session, events: seq<Completion>, event: Completion)
    requires CancelInv(s.c, s.completed)
    requires var now := After(s, events); Arrives(now.c, now.completed, event.operation, event.outcome)
    ensures var now := After(s, events);
            HandleCompletion(now.c, event.operation, KindOf(now.c.staged[event.operation]), event.outcome).Err?
            <==> Overtaken(now.c, now.completed, event.operation)
  {
    AfterKeepsInv(s, events);
    var now := After(s, events);
    CompletionsAreHandled(now.c, now.completed, event.operation, event.outcome);
  }

  lemma ControlsLeaveWaiting(c: Cancel, completed: set<OpId>, o: OpId, outcome: Outcome, i: nat, withdrawal: OpId)
    requires CancelInv(c, completed) && Arrives(c, completed, o, outcome) && Awaited(c, o)
    requires c.staged[o].Withdraw? || c.staged[o].LlmCancel? || ForProcess(c.staged[o])
    requires Dispatch(c, o, KindOf(c.staged[o]), outcome).Ok?
    requires i < |c.targets| && c.targets[i].control == WithdrawalRequested(withdrawal) && withdrawal != o
    ensures var b := Dispatch(c, o, KindOf(c.staged[o]), outcome).value;
            |b.targets| == |c.targets| && b.targets[i].control == c.targets[i].control
  {
  }

  /** A target still waiting for its withdrawal is left alone by every other completion, except that an
      uncertain completion of its execution sends it to discovery. */
  lemma WaitingTargetsAreLeftAlone(c: Cancel, completed: set<OpId>, o: OpId, outcome: Outcome, i: nat, withdrawal: OpId)
    requires CancelInv(c, completed) && Arrives(c, completed, o, outcome) && Awaited(c, o)
    requires Dispatch(c, o, KindOf(c.staged[o]), outcome).Ok?
    requires i < |c.targets| && c.targets[i].control == WithdrawalRequested(withdrawal) && withdrawal != o
    ensures var b := Dispatch(c, o, KindOf(c.staged[o]), outcome).value;
            && |b.targets| == |c.targets|
            && b.targets[i].control == if Overtakes(c, o, outcome, withdrawal) then AwaitingDiscovery else c.targets[i].control
  {
    match c.staged[o]
    case LlmOriginal => OriginalLeavesWaiting(c, completed, o, LlmTarget, outcome, i, withdrawal);
    case ExecutionOriginal =>
      NotAProcess(c, completed, o);
      OriginalLeavesWaiting(c, completed, o, ExecutionTarget, outcome, i, withdrawal);
    case DiscoveryOp =>
      NotAProcess(c, completed, o);
      DiscoveryLeavesWaiting(c, completed, outcome, i);
    case _ => ControlsLeaveWaiting(c, completed, o, outcome, i, withdrawal);
  }

  lemma OriginalLeavesWaiting(c: Cancel, completed: set<OpId>, o: OpId, kind: TargetKind, outcome: Outcome, i: nat, withdrawal: OpId)
    requires CancelInv(c, completed) && Arrives(c, completed, o, outcome) && Awaited(c, o)
    requires c.staged[o] == OriginalRole(kind) && HandleOriginal(c, o, kind, outcome).Ok?
    requires i < |c.targets| && c.targets[i].control == WithdrawalRequested(withdrawal)
    ensures var b := HandleOriginal(c, o, kind, outcome).value;
            && |b.targets| == |c.targets|
            && b.targets[i].control == if Overtakes(c, o, outcome, withdrawal) then AwaitingDiscovery else c.targets[i].control
  {
    assert TargetOk(c.staged, completed, c.discovery.Some?, c.targets[i]);
    var found := TargetOf(c.targets, o).value;
    assert TargetOk(c.staged, completed, c.discovery.Some?, c.targets[found]);
  }

  lemma DiscoveryLeavesWaiting(c: Cancel, completed: set<OpId>, outcome: Outcome, i: nat)
    requires CancelInv(c, completed) && c.discovery.Some? && HandleDiscovery(c, outcome).Ok?
    requires i < |c.targets| && c.targets[i].control.WithdrawalRequested?
    ensures var b := HandleDiscovery(c, outcome).value;
            |b.targets| == |c.targets| && b.targets[i].control == c.targets[i].control
  {
    var o := c.discovery.value.operation;
    if outcome.Succeeded? || c.discovery.value.attempt >= MAX_CLEANUP_ATTEMPTS {
      DiscoveryEnded(c, completed);
      InterruptedAll(c.(discovery := None, targets := SettleDiscovered(c.targets)), completed + {o}, ExecutionsFrom(outcome));
    }
  }

  /** A withdrawal is overtaken by nothing but an uncertain completion of its execution. */
  lemma OvertakenByUncertaintyOnly(c: Cancel, completed: set<OpId>, o: OpId, outcome: Outcome, withdrawal: OpId)
    requires CancelInv(c, completed) && Arrives(c, completed, o, outcome) && Awaited(c, o)
    requires withdrawal in c.staged && c.staged[withdrawal].Withdraw? && withdrawal !in completed
    requires withdrawal != o && Awaited(c, withdrawal)
    ensures var b := HandleCompletion(c, o, KindOf(c.staged[o]), outcome).value;
            Overtaken(b, completed + {o}, withdrawal) <==> Overtakes(c, o, outcome, withdrawal)
  {
    var i := TargetForControl(c.targets, withdrawal).value;
    assert TargetOk(c.staged, completed, c.discovery.Some?, c.targets[i]);
    AwaitedIsDispatched(c, completed, o, outcome);
    WaitingTargetsAreLeftAlone(c, completed, o, outcome, i, withdrawal);
    CompletionsAreHandled(c, completed, o, outcome);
    var mid := Dispatch(c, o, KindOf(c.staged[o]), outcome).value;
    var b := HandleCompletion(c, o, KindOf(c.staged[o]), outcome).value;
    assert b.targets == mid.targets && b.staged == mid.staged;
    RolesAreKept(c, completed, o, outcome, withdrawal);
    if Overtakes(c, o, outcome, withdrawal) {
      NobodyElseWaits(c, completed, o, outcome, i, withdrawal);
    } else {
      ControlIsFound(b, completed + {o}, i, withdrawal);
    }
  }

  lemma RolesAreKept(c: Cancel, completed: set<OpId>, o: OpId, outcome: Outcome, w: OpId)
    requires CancelInv(c, completed) && Arrives(c, completed, o, outcome) && Awaited(c, o) && w in c.staged
    ensures var handled := Dispatch(c, o, KindOf(c.staged[o]), outcome);
            handled.Ok? && w in handled.value.staged && handled.value.staged[w] == c.staged[w]
  {
    AwaitedIsDispatched(c, completed, o, outcome);
    match c.staged[o]
    case LlmOriginal => OriginalKeepsRoles(c, completed, o, LlmTarget, outcome, w);
    case ExecutionOriginal =>
      NotAProcess(c, completed, o);
      OriginalKeepsRoles(c, completed, o, ExecutionTarget, outcome, w);
    case DiscoveryOp =>
      NotAProcess(c, completed, o);
      DiscoveryKeepsRoles(c, completed, outcome, w);
    case _ =>
  }

  lemma OriginalKeepsRoles(c: Cancel, completed: set<OpId>, o: OpId, kind: TargetKind, outcome: Outcome, w: OpId)
    requires CancelInv(c, completed) && HandleOriginal(c, o, kind, outcome).Ok? && w in c.staged
    ensures var b := HandleOriginal(c, o, kind, outcome).value; w in b.staged && b.staged[w] == c.staged[w]
  {
    InterruptedAll(c, completed, ExecutionsFrom(outcome));
  }

  lemma DiscoveryKeepsRoles(c: Cancel, completed: set<OpId>, outcome: Outcome, w: OpId)
    requires CancelInv(c, completed) && c.discovery.Some? && HandleDiscovery(c, outcome).Ok? && w in c.staged
    ensures var b := HandleDiscovery(c, outcome).value; w in b.staged && b.staged[w] == c.staged[w]
  {
    if outcome.Succeeded? || c.discovery.value.attempt >= MAX_CLEANUP_ATTEMPTS {
      DiscoveryEnded(c, completed);
      InterruptedAll(c.(discovery := None, targets := SettleDiscovered(c.targets)),
                     completed + {c.discovery.value.operation}, ExecutionsFrom(outcome));
    }
  }

  lemma NobodyElseWaits(c: Cancel, completed: set<OpId>, o: OpId, outcome: Outcome, i: nat, withdrawal: OpId)
    requires CancelInv(c, completed) && Arrives(c, completed, o, outcome) && Awaited(c, o) && withdrawal != o
    requires i < |c.targets| && c.targets[i].control == WithdrawalRequested(withdrawal)
    requires Overtakes(c, o, outcome, withdrawal)
    ensures var b := HandleCompletion(c, o, KindOf(c.staged[o]), outcome);
            b.Ok? && TargetForControl(b.value.targets, withdrawal).None?
  {
    AwaitedIsDispatched(c, completed, o, outcome);
    NotAProcess(c, completed, o);
    var found := TargetOf(c.targets, o).value;
    assert TargetOk(c.staged, completed, c.discovery.Some?, c.targets[i]);
    assert TargetOk(c.staged, completed, c.discovery.Some?, c.targets[found]);
    assert found == i;
    var b := HandleCompletion(c, o, KindOf(c.staged[o]), outcome).value;
    assert b.targets == c.targets[i := c.targets[i].(originalCompleted := true, control := AwaitingDiscovery)];
    forall j | 0 <= j < |b.targets| ensures !IsControl(b.targets[j].control, withdrawal) {
      if j != i { assert TargetOk(c.staged, completed, c.discovery.Some?, c.targets[j]); }
    }
  }

  // ---------------------------------------------------------------- refusals over whole cancellations

  lemma {:induction false} InterruptingKeepsControls(c: Cancel, executions: seq<Execution>)
    ensures InterruptAll(c, executions).targets == c.targets
  {
    if executions != [] { InterruptingKeepsControls(c, executions[..|executions| - 1]); }
  }

  /** No target ever starts to wait for an earlier operation. */
  predicate NoControlReturns(a: seq<Target>, b: seq<Target>, w: OpId) {
    |a| == |b| && forall i :: 0 <= i < |b| ==> IsControl(b[i].control, w) ==> IsControl(a[i].control, w)
  }

  lemma OriginalReturnsNoControl(c: Cancel, o: OpId, kind: TargetKind, outcome: Outcome, w: OpId)
    requires HandleOriginal(c, o, kind, outcome).Ok?
    ensures NoControlReturns(c.targets, HandleOriginal(c, o, kind, outcome).value.targets, w)
  {
    InterruptingKeepsControls(c, ExecutionsFrom(outcome));
  }

  lemma DiscoveryReturnsNoControl(c: Cancel, outcome: Outcome, w: OpId)
    requires c.discovery.Some? && HandleDiscovery(c, outcome).Ok?
    ensures NoControlReturns(c.targets, HandleDiscovery(c, outcome).value.targets, w)
  {
    InterruptingKeepsControls(c.(discovery := None, targets := SettleDiscovered(c.targets)), ExecutionsFrom(outcome));
  }

  /** New controls are numbered from `next` on. */
  lemma ControlsReturnNoControl(c: Cancel, o: OpId, outcome: Outcome, w: OpId)
    requires w < c.next
    ensures var handled := HandleWithdrawal(c, o, outcome);
            handled.Ok? ==> NoControlReturns(c.targets, handled.value.targets, w)
    ensures var handled := HandleLlmCancellation(c, o, outcome);
            handled.Ok? ==> NoControlReturns(c.targets, handled.value.targets, w)
    ensures var handled := HandleProcess(c, o, outcome);
            handled.Ok? ==> NoControlReturns(c.targets, handled.value.targets, w)
  {
  }

  lemma WithdrawalsStayAnswered(c: Cancel, o: OpId, kind: CompletionKind, outcome: Outcome, w: OpId)
    requires w < c.next && Dispatch(c, o, kind, outcome).Ok?
    ensures NoControlReturns(c.targets, Dispatch(c, o, kind, outcome).value.targets, w)
  {
    match kind
    case LlmKind => OriginalReturnsNoControl(c, o, LlmTarget, outcome, w);
    case ExecutionKind =>
      ControlsReturnNoControl(c, o, outcome, w);
      if ProcessForControl(c.processes, o).None? {
        if c.discovery.Some? && c.discovery.value.operation == o {
          DiscoveryReturnsNoControl(c, outcome, w);
        } else {
          OriginalReturnsNoControl(c, o, ExecutionTarget, outcome, w);
        }
      }
    case _ => ControlsReturnNoControl(c, o, outcome, w);
  }

  lemma OvertakenForEver(c: Cancel, completed: set<OpId>, o: OpId, outcome: Outcome, w: OpId)
    requires CancelInv(c, completed) && Arrives(c, completed, o, outcome) && Awaited(c, o) && w != o
    requires Overtaken(c, completed, w) && c.staged[w].Withdraw?
    ensures var b := HandleCompletion(c, o, KindOf(c.staged[o]), outcome).value; Overtaken(b, completed + {o}, w)
  {
    AwaitedIsDispatched(c, completed, o, outcome);
    RolesAreKept(c, completed, o, outcome, w);
    WithdrawalsStayAnswered(c, o, KindOf(c.staged[o]), outcome, w);
    var mid := Dispatch(c, o, KindOf(c.staged[o]), outcome).value;
    var b := HandleCompletion(c, o, KindOf(c.staged[o]), outcome).value;
    assert b.targets == mid.targets && b.staged == mid.staged;
    assert TargetForControl(b.targets, w).None? by {
      forall i | 0 <= i < |b.targets| ensures !IsControl(b.targets[i].control, w) {
        assert !IsControl(c.targets[i].control, w);
      }
    }
  }

  /** `event` arrives in `s` and is an execution of `target` with an unknown outcome that reports nothing. */
  predicate LosesTrack(s: Session, event: Completion, target: OpId) {
    && Arrives(s.c, s.completed, event.operation, event.outcome) && event.operation == target
    && s.c.staged[target].ExecutionOriginal? && UncertainExecution(ExecutionTarget, event.outcome)
  }

  lemma OvertakesIffLosesTrack(s: Session, event: Completion, w: OpId)
    requires CancelInv(s.c, s.completed) && Arrives(s.c, s.completed, event.operation, event.outcome)
    requires w in s.c.staged && s.c.staged[w].Withdraw? && Awaited(s.c, w) && event.operation != w
    requires Awaited(s.c, event.operation)
    ensures Overtakes(s.c, event.operation, event.outcome, w) <==> LosesTrack(s, event, s.c.staged[w].target)
  {
    var i := TargetForControl(s.c.targets, w).value;
    assert TargetOk(s.c.staged, s.completed, s.c.discovery.Some?, s.c.targets[i]);
    TargetIsFound(s.c.targets, i);
    if TargetOf(s.c.targets, event.operation).Some? {
      var j := TargetOf(s.c.targets, event.operation).value;
      assert TargetOk(s.c.staged, s.completed, s.c.discovery.Some?, s.c.targets[j]);
    }
  }

  predicate LostTrack(s: Session, events: seq<Completion>, target: OpId) {
    exists i :: 0 <= i < |events| && LosesTrack(After(s, events[..i]), events[i], target)
  }

  lemma LostTrackNext(s: Session, events: seq<Completion>, target: OpId)
    requires events != []
    ensures var n := |events| - 1;
            LostTrack(s, events, target) <==>
              LostTrack(s, events[..n], target) || LosesTrack(After(s, events[..n]), events[n], target)
  {
    var n := |events| - 1;
    assert forall i :: 0 <= i < n ==> events[..n][..i] == events[..i] && events[..n][i] == events[i];
  }

  /** What one more event does to an unanswered withdrawal. */
  lemma OneMoreEvent(s: Session, event: Completion, w: OpId)
    requires CancelInv(s.c, s.completed) && w in s.c.staged && s.c.staged[w].Withdraw?
    requires w !in Happens(s, event).completed
    ensures var next := Happens(s, event);
            && w in next.c.staged && next.c.staged[w] == s.c.staged[w] && w !in s.completed
            && (Overtaken(next.c, next.completed, w)
                <==> Overtaken(s.c, s.completed, w) || LosesTrack(s, event, s.c.staged[w].target))
  {
    var o := event.operation;
    if Arrives(s.c, s.completed, o, event.outcome) {
      CompletionsAreHandled(s.c, s.completed, o, event.outcome);
      if Awaited(s.c, o) {
        RolesAreKept(s.c, s.completed, o, event.outcome, w);
        if Awaited(s.c, w) {
          OvertakenByUncertaintyOnly(s.c, s.completed, o, event.outcome, w);
          OvertakesIffLosesTrack(s, event, w);
        } else {
          OvertakenForEver(s.c, s.completed, o, event.outcome, w);
        }
      }
    }
  }

  lemma {:induction false} OvertakenIffLostTrack(s: Session, events: seq<Completion>, w: OpId)
    requires CancelInv(s.c, s.completed) && w in s.c.staged && s.c.staged[w].Withdraw? && Awaited(s.c, w)
    requires w !in After(s, events).completed
    ensures var now := After(s, events);
            && w in now.c.staged && now.c.staged[w] == s.c.staged[w]
            && (Overtaken(now.c, now.completed, w) <==> LostTrack(s, events, s.c.staged[w].target))
  {
    if events != [] {
      var init, last := events[..|events| - 1], events[|events| - 1];
      AfterKeepsInv(s, init);
      StaysUnanswered(After(s, init), last, w);
      OvertakenIffLostTrack(s, init, w);
      OneMoreEvent(After(s, init), last, w);
      LostTrackNext(s, events, s.c.staged[w].target);
    }
  }

  lemma StaysUnanswered(s: Session, event: Completion, w: OpId)
    ensures w !in Happens(s, event).completed ==> w !in s.completed
  {
  }

  lemma {:induction false} BeginningCompletesNothing(c: Cancel, originals: seq<(OpId, TargetKind)>)
    requires c.targets == []
    ensures forall i :: 0 <= i < |BeginTargets(c, originals).targets| ==> !BeginTargets(c, originals).targets[i].originalCompleted
  {
    if originals != [] { BeginningCompletesNothing(c, originals[..|originals| - 1]); }
  }

  lemma {:induction false} InterruptingBeginsNothing(c: Cancel, tracked: seq<(SessionId, Handle)>)
    ensures BeginProcesses(c, tracked).targets == c.targets
  {
    if tracked != [] { InterruptingBeginsNothing(c, tracked[..|tracked| - 1]); }
  }

  /** Whatever completions a cancellation has seen since it began, the completion of a withdrawal is refused
      exactly if an execution that was its target completed earlier with an unknown outcome that reported
      nothing. */
  lemma WithdrawalRefusedIffTrackWasLost(
      staged: map<OpId, Role>, completed: set<OpId>, next: OpId, turnActive: bool, originals: seq<(OpId, TargetKind)>,
      tracked: seq<(SessionId, Handle)>, sessions: map<SessionId, Handle>, events: seq<Completion>, w: OpId, outcome: Outcome)
    requires (forall o: OpId :: o in staged <==> o < next) && (forall o :: o in completed ==> o in staged)
    requires OriginalsOk(staged, completed, originals)
    requires forall o :: o in staged && o !in completed ==> IsOriginal(originals, o)
    requires var s := Session(Begin(staged, next, turnActive, originals, tracked, sessions), completed);
             && w in s.c.staged && s.c.staged[w].Withdraw?
             && Arrives(After(s, events).c, After(s, events).completed, w, outcome)
    ensures var s := Session(Begin(staged, next, turnActive, originals, tracked, sessions), completed);
            var now := After(s, events);
            HandleCompletion(now.c, w, WithdrawKind, outcome).Err? <==> LostTrack(s, events, s.c.staged[w].target)
  {
    BeginIsOk(staged, completed, next, turnActive, originals, tracked, sessions);
    var blank := Cancel([], [], None, 0, sessions, turnActive, staged, next);
    BeginningCompletesNothing(blank, originals);
    InterruptingBeginsNothing(BeginTargets(blank, originals), tracked);
    var s := Session(Begin(staged, next, turnActive, originals, tracked, sessions), completed);
    UnansweredFromTheStart(s, events, w);
    assert Awaited(s.c, w);
    OvertakenIffLostTrack(s, events, w);
    AfterKeepsInv(s, events);
    CompletionsAreHandled(After(s, events).c, After(s, events).completed, w, outcome);
  }

  lemma {:induction false} UnansweredFromTheStart(s: Session, events: seq<Completion>, w: OpId)
    ensures w !in After(s, events).completed ==> w !in s.completed
  {
    if events != [] {
      StaysUnanswered(After(s, events[..|events| - 1]), events[|events| - 1], w);
      UnansweredFromTheStart(s, events[..|events| - 1], w);
    }
  }

  /** One execution is out when the cancellation begins. */
  function OneExecution(): Cancel {
    Begin(map[0 := ExecutionOriginal], 1, true, [(0, ExecutionTarget)], [], map[])
  }

  lemma OneExecutionIs()
    ensures OneExecution() == Cancel([Target(0, ExecutionTarget, false, WithdrawalRequested(1))], [], None, 0, map[], true,
                                     map[0 := ExecutionOriginal, 1 := Withdraw(0)], 2)
    ensures CancelInv(OneExecution(), {})
  {
    var originals := [(0 as OpId, ExecutionTarget)];
    assert IsOriginal(originals, 0) by { assert originals[0].0 == 0; }
    BeginIsOk(map[0 := ExecutionOriginal], {}, 1, true, originals, [], map[]);
    assert originals[..0] == [];
  }

  const WAITING := Target(0, ExecutionTarget, false, WithdrawalRequested(1))
  const LOST := Target(0, ExecutionTarget, true, AwaitingDiscovery)

  lemma UncertainStep(c: Cancel)
    requires c.targets == [WAITING] && c.processes == [] && c.discovery.None?
    ensures HandleCompletion(c, 0, ExecutionKind, Unknown([])) == Ok(StageDiscovery(c.(targets := [LOST]), 1))
  {
    assert [WAITING][..0] == [];
    assert TargetOf([WAITING], 0) == Some(0);
    assert [WAITING][0 := LOST] == [LOST];
  }

  lemma LostWithdrawal(c: Cancel)
    requires c.targets == [LOST]
    ensures HandleCompletion(c, 1, WithdrawKind, Succeeded(WithdrawResult(false))) == Err(NotAControl)
  {
    assert TargetForControl(c.targets, 1).None?;
  }

  lemma HandledHappens(s: Session, event: Completion, kind: CompletionKind, c: Cancel)
    requires Arrives(s.c, s.completed, event.operation, event.outcome) && KindOf(s.c.staged[event.operation]) == kind
    requires HandleCompletion(s.c, event.operation, kind, event.outcome) == Ok(c)
    ensures Happens(s, event) == Session(c, s.completed + {event.operation})
  {
  }

  lemma UncertainFirst()
    ensures Happens(Session(OneExecution(), {}), Completion(0, Unknown([])))
         == Session(StageDiscovery(OneExecution().(targets := [LOST]), 1), {0})
  {
    OneExecutionIs();
    UncertainStep(OneExecution());
    HandledHappens(Session(OneExecution(), {}), Completion(0, Unknown([])), ExecutionKind,
                   StageDiscovery(OneExecution().(targets := [LOST]), 1));
  }

  lemma OvertakenState(c: Cancel)
    requires c == StageDiscovery(OneExecution().(targets := [LOST]), 1)
    ensures 1 in c.staged && c.staged[1] == Withdraw(0) && c.targets == [LOST]
  {
    OneExecutionIs();
  }

  /** The concrete case: one execution is out and its outcome is unknown before the answer to its
      withdrawal arrives; that answer, an ordinary one, is refused. */
  lemma OvertakenWithdrawalIsRefused()
    ensures var overtaken := Happens(Session(OneExecution(), {}), Completion(0, Unknown([])));
            && CancelInv(OneExecution(), {})
            && Arrives(overtaken.c, overtaken.completed, 1, Succeeded(WithdrawResult(false)))
            && HandleCompletion(overtaken.c, 1, WithdrawKind, Succeeded(WithdrawResult(false))) == Err(NotAControl)
  {
    OneExecutionIs();
    UncertainFirst();
    var c := StageDiscovery(OneExecution().(targets := [LOST]), 1);
    OvertakenState(c);
    LostWithdrawal(c);
  }
}
