/** One assistant message's tool calls: how they are cut into segments, scheduled, and fed the results
    of their execution operations. */
module ToolPlan {
  import opened Prelude

  type OpId = nat
  type SessionId = int

  // ---------------------------------------------------------------- calls

  datatype Tool = ExecCommand | WriteStdin | ApplyPatch | ViewImage

  datatype Scheduling = ParallelSafe | Exclusive

  function SchedulingOf(tool: Tool): Scheduling { if tool.ApplyPatch? then Exclusive else ParallelSafe }

  datatype Handle = Handle(generation: nat, execution: nat)

  /** `session` is what a `write_stdin` call names; `valid` says that its arguments decode. */
  datatype Input = Input(session: Option<SessionId>, valid: bool)

  datatype ShellPhase = Start | Interact | Drain

  datatype PatchPhase = Reading | Mutating | Reconciling

  datatype Progress =
    | Shell(phase: ShellPhase, handle: Option<Handle>, session: Option<SessionId>, pagesRead: nat)
    | Image
    | Patch(patchPhase: PatchPhase, generation: Option<nat>)

  datatype Status =
    | Pending
    | Ready(progress: Progress)
    | Submitted(operation: OpId, progress: Progress)
    | Completed(snapshot: string)

  datatype Call = Call(id: string, tool: Tool, input: Input, status: Status)

  datatype Segment = Segment(scheduling: Scheduling, ordinals: seq<nat>)

  datatype Plan = Plan(calls: seq<Call>, segments: seq<Segment>, active: nat)

  /** The shell sessions the harness tracks; `next` is the next session id. */
  datatype Shells = Shells(tracked: map<SessionId, Handle>, next: SessionId)

  const MAX_OUTPUT_PAGES_PER_CALL: nat := 16
  const MAX_SESSION_ID: int := 0x7FFF_FFFF

  // ---------------------------------------------------------------- parsing an assistant message

  datatype StopReason = Stop | Refusal | PauseTurn | Length | ContentFilter | ToolUse

  /** One content item: a call, or anything else.  `tool` is what the catalog knows under its name,
      `kindMatches` that it was called as the kind it is defined as, `problem` what is wrong with its
      arguments. */
  datatype Item =
    | OtherItem
    | CallItem(id: string, named: bool, tool: Option<Tool>, kindMatches: bool, input: Input, problem: Option<string>)

  datatype ParseError = BadCallId | DuplicateCallId | UnknownTool | WrongKind | NoCallableItems | UnexpectedCalls

  predicate HasId(calls: seq<Call>, id: string) { exists i :: 0 <= i < |calls| && calls[i].id == id }

  function ParseCalls(items: seq<Item>): Result<seq<Call>, ParseError> {
    if items == [] then Ok([])
    else
      var rest := ParseCalls(items[..|items| - 1]);
      var item := items[|items| - 1];
      if rest.Err? || item.OtherItem? then rest
      else if item.id == "" then Err(BadCallId)
      else if HasId(rest.value, item.id) then Err(DuplicateCallId)
      else if !item.named then Err(BadCallId)
      else if item.tool.None? then Err(UnknownTool)
      else if !item.kindMatches then Err(WrongKind)
      else
        var status := if item.problem.Some? then Completed(item.problem.value) else Pending;
        Ok(rest.value + [Call(item.id, item.tool.value, item.input, status)])
  }

  function ParsePlan(items: seq<Item>, stop: StopReason): Result<Option<Plan>, ParseError> {
    var calls := ParseCalls(items);
    if calls.Err? then Err(calls.error)
    else if calls.value == [] then (if stop.ToolUse? then Err(NoCallableItems) else Ok(None))
    else if !stop.ToolUse? then Err(UnexpectedCalls)
    else Ok(Some(NewPlan(calls.value)))
  }

  /** Parsed calls have distinct ids and are pending or already finished with an error. */
  lemma {:induction false} ParsedCallsAreFresh(items: seq<Item>)
    requires ParseCalls(items).Ok?
    ensures var calls := ParseCalls(items).value;
            && (forall i :: 0 <= i < |calls| ==> calls[i].status.Pending? || calls[i].status.Completed?)
            && (forall i, j :: 0 <= i < j < |calls| ==> calls[i].id != calls[j].id)
  {
    if items != [] { ParsedCallsAreFresh(items[..|items| - 1]); }
  }

  // ---------------------------------------------------------------- segments

  /** Consecutive parallel calls share a segment, an exclusive call has its own; calls that failed to
      parse are in none. */
  function Segments(calls: seq<Call>, n: nat): seq<Segment>
    requires n <= |calls|
  {
    if n == 0 then []
    else
      var rest := Segments(calls, n - 1);
      var call := calls[n - 1];
      if !call.status.Pending? then rest
      else if SchedulingOf(call.tool).ParallelSafe? && rest != [] && rest[|rest| - 1].scheduling.ParallelSafe?
      then rest[|rest| - 1 := Segment(ParallelSafe, rest[|rest| - 1].ordinals + [n - 1])]
      else rest + [Segment(SchedulingOf(call.tool), [n - 1])]
  }

  function NewPlan(calls: seq<Call>): Plan { Plan(calls, Segments(calls, |calls|), 0) }

  predicate Done(call: Call) { call.status.Completed? }

  predicate SegmentDone(calls: seq<Call>, segment: Segment) {
    forall k :: 0 <= k < |segment.ordinals| ==> segment.ordinals[k] < |calls| && Done(calls[segment.ordinals[k]])
  }

  /** `advance_completed_segments` */
  function Advance(plan: Plan): Plan
    decreases |plan.segments| - plan.active
  {
    if plan.active < |plan.segments| && SegmentDone(plan.calls, plan.segments[plan.active])
    then Advance(plan.(active := plan.active + 1))
    else plan
  }

  predicate IsComplete(plan: Plan) { forall i :: 0 <= i < |plan.calls| ==> Done(plan.calls[i]) }

  /** One result message for each call, in the order of the calls. */
  function OrderedResults(plan: Plan): Option<seq<(string, string)>> {
    if !IsComplete(plan) then None
    else Some(seq(|plan.calls|, i requires 0 <= i < |plan.calls| => (plan.calls[i].id, plan.calls[i].status.snapshot)))
  }

  // ---------------------------------------------------------------- preparing operations

  datatype Prepared = Nothing | Denied(snapshot: string) | Go(progress: Progress)

  function PrepareNew(call: Call, shells: Shells): Prepared {
    if !call.input.valid then Denied("invalid_tool_arguments")
    else match call.tool
      case ExecCommand => Go(Shell(Start, None, None, 0))
      case WriteStdin =>
        if call.input.session.Some? && call.input.session.value in shells.tracked
        then Go(Shell(Interact, Some(shells.tracked[call.input.session.value]), call.input.session, 0))
        else Denied("invalid_tool_arguments")
      case ViewImage => Go(Image)
      case ApplyPatch => Go(Patch(Reading, None))
  }

  function PrepareReady(progress: Progress): Prepared {
    match progress
    case Shell(_, handle, _, _) => if handle.None? then Denied("invalid_execution_state") else Go(progress)
    case Image => Denied("invalid_filesystem_state")
    case Patch(phase, _) => if phase.Reading? then Denied("invalid_filesystem_state") else Go(progress)
  }

  function Prepare(call: Call, shells: Shells): Prepared {
    match call.status
    case Pending => PrepareNew(call, shells)
    case Ready(progress) => PrepareReady(progress)
    case Submitted(_, _) => Nothing
    case Completed(_) => Nothing
  }

  function ProgressSession(progress: Progress): Option<SessionId> {
    if progress.Shell? then progress.session else None
  }

  /** The shell session a call needs for itself. */
  function Resource(call: Call): Option<SessionId> {
    match call.status
    case Pending => if call.tool.WriteStdin? then call.input.session else None
    case Ready(progress) => ProgressSession(progress)
    case Submitted(_, progress) => ProgressSession(progress)
    case Completed(_) => None
  }

  function AsSet(session: Option<SessionId>): set<SessionId> { if session.Some? then {session.value} else {} }

  function SubmittedResources(calls: seq<Call>): set<SessionId> {
    set i | 0 <= i < |calls| && calls[i].status.Submitted? && ProgressSession(calls[i].status.progress).Some?
          :: ProgressSession(calls[i].status.progress).value
  }

  // ---------------------------------------------------------------- one pass over the active segment

  datatype Entry = Entry(ordinal: nat, progress: Progress)

  datatype Pass = Pass(calls: seq<Call>, busy: set<SessionId>, prepared: seq<Entry>, immediate: bool)

  function PassOne(pass: Pass, shells: Shells, ordinal: nat): Pass
    requires ordinal < |pass.calls|
  {
    var call := pass.calls[ordinal];
    var resource := Resource(call);
    if resource.Some? && resource.value in pass.busy then pass
    else match Prepare(call, shells)
      case Nothing => pass
      case Denied(snapshot) =>
        pass.(calls := pass.calls[ordinal := call.(status := Completed(snapshot))], immediate := true)
      case Go(progress) =>
        pass.(busy := pass.busy + AsSet(if resource.Some? then resource else ProgressSession(progress)),
              prepared := pass.prepared + [Entry(ordinal, progress)])
  }

  function RunPass(calls: seq<Call>, shells: Shells, ordinals: seq<nat>): (pass: Pass)
    requires forall k :: 0 <= k < |ordinals| ==> ordinals[k] < |calls|
    ensures |pass.calls| == |calls|
    ensures forall j :: 0 <= j < |pass.prepared| ==> pass.prepared[j].ordinal < |calls|
  {
    if ordinals == [] then Pass(calls, SubmittedResources(calls), [], false)
    else PassOne(RunPass(calls, shells, ordinals[..|ordinals| - 1]), shells, ordinals[|ordinals| - 1])
  }

  function Stage(calls: seq<Call>, prepared: seq<Entry>, firstOp: OpId): (staged: seq<Call>)
    requires forall k :: 0 <= k < |prepared| ==> prepared[k].ordinal < |calls|
    ensures |staged| == |calls|
  {
    if prepared == [] then calls
    else
      var n := |prepared| - 1;
      var rest := Stage(calls, prepared[..n], firstOp);
      rest[prepared[n].ordinal := rest[prepared[n].ordinal].(status := Submitted(firstOp + n, prepared[n].progress))]
  }

  function Unfinished(calls: seq<Call>): nat {
    if calls == [] then 0 else (if Done(calls[0]) then 0 else 1) + Unfinished(calls[1..])
  }

  predicate OrdinalsValid(plan: Plan) {
    forall s, k :: 0 <= s < |plan.segments| && 0 <= k < |plan.segments[s].ordinals| ==>
      plan.segments[s].ordinals[k] < |plan.calls|
  }

  // ---------------------------------------------------------------- completing operations

  datatype Observation = Observation(
    decodes: bool, sameGeneration: bool, handle: Handle, active: bool, hasMore: bool, text: string)

  /** `planned` says that a patch could be planned from the files read. */
  datatype Response = Response(observation: Observation, generation: nat, planned: bool)

  datatype ExecutionOutcome =
    | Succeeded(response: Response)
    | NotAnExecution
    | FailedWith(response: Response)
    | FailedWithout(message: string)
    | UnknownOutcome(message: string)
    | CancelledOutcome

  datatype Applied = Again(progress: Progress) | Finish(snapshot: string)

  /** `shell_tools::apply_response`, with the sessions it leaves. */
  function ApplyShell(progress: Progress, o: Observation, shells: Shells): (Applied, Shells)
    requires progress.Shell?
  {
    if !o.decodes || !o.sameGeneration then (Finish("invalid_execution_response"), shells)
    else if o.active && progress.session.None? && shells.next >= MAX_SESSION_ID then
      (Finish("execution_session_limit"), shells)
    else
      var session := if o.active && progress.session.None? then Some(shells.next) else progress.session;
      var shells' :=
        if o.active then
          Shells(shells.tracked[session.value := o.handle],
                 if progress.session.None? then shells.next + 1 else shells.next)
        else if session.Some? && !o.hasMore then shells.(tracked := shells.tracked - {session.value})
        else shells;
      var pages := progress.pagesRead + 1;
      if o.hasMore && pages < MAX_OUTPUT_PAGES_PER_CALL
      then (Again(Shell(Drain, Some(o.handle), session, pages)), shells')
      else (Finish(o.text), shells')
  }

  function ApplyResponse(progress: Progress, response: Response, shells: Shells): (Applied, Shells) {
    match progress
    case Shell(_, _, _, _) => ApplyShell(progress, response.observation, shells)
    case Image => (Finish(response.observation.text), shells)
    case Patch(phase, _) =>
      if phase.Reading? && response.planned then (Again(Patch(Mutating, Some(response.generation))), shells)
      else (Finish(response.observation.text), shells)
  }

  function ApplyOutcome(progress: Progress, outcome: ExecutionOutcome, shells: Shells): (Applied, Shells)
    requires !outcome.NotAnExecution?
  {
    match outcome
    case Succeeded(response) => ApplyResponse(progress, response, shells)
    case FailedWith(response) => ApplyResponse(progress, response, shells)
    case FailedWithout(message) => (Finish(message), shells)
    case UnknownOutcome(message) =>
      if progress.Patch? && progress.patchPhase.Mutating?
      then (Again(Patch(Reconciling, progress.generation)), shells)
      else (Finish(message), shells)
    case CancelledOutcome => (Finish("execution_cancelled"), shells)
  }

  function FindSubmitted(calls: seq<Call>, operation: OpId): Option<nat> {
    if calls == [] then None
    else if calls[0].status.Submitted? && calls[0].status.operation == operation then Some(0)
    else
      var rest := FindSubmitted(calls[1..], operation);
      if rest.None? then None else Some(rest.value + 1)
  }

  datatype PlanError = NotSubmitted | NotExecution

  function StatusAfter(applied: Applied): Status {
    match applied
    case Again(progress) => Ready(progress)
    case Finish(snapshot) => Completed(snapshot)
  }

  lemma {:induction false} FoundIsSubmitted(calls: seq<Call>, operation: OpId)
    ensures var found := FindSubmitted(calls, operation);
            && (found.Some? ==> found.value < |calls| && calls[found.value].status.Submitted?
                                && calls[found.value].status.operation == operation)
            && (found.None? ==> forall i :: 0 <= i < |calls| ==>
                                  !(calls[i].status.Submitted? && calls[i].status.operation == operation))
  {
    if calls != [] {
      FoundIsSubmitted(calls[1..], operation);
      if FindSubmitted(calls, operation).None? {
        forall i | 0 <= i < |calls| ensures !(calls[i].status.Submitted? && calls[i].status.operation == operation) {
          if i > 0 { assert calls[i] == calls[1..][i - 1]; }
        }
      }
    }
  }

  function ApplyCompletion(plan: Plan, shells: Shells, operation: OpId, outcome: ExecutionOutcome)
    : Result<(Plan, Shells), PlanError>
  {
    var found := FindSubmitted(plan.calls, operation);
    if found.None? then Err(NotSubmitted)
    else if outcome.NotAnExecution? then Err(NotExecution)
    else
      FoundIsSubmitted(plan.calls, operation);
      var call := plan.calls[found.value];
      var (applied, shells') := ApplyOutcome(call.status.progress, outcome, shells);
      var calls := plan.calls[found.value := call.(status := StatusAfter(applied))];
      Ok((Advance(plan.(calls := calls)), shells'))
  }
}
