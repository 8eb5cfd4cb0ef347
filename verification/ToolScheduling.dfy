/** The scheduler of a tool plan: it never sticks, never runs conflicting calls side by side, and every
    execution result brings the plan nearer to its end. */
module ToolScheduling {
  import opened Prelude
  import opened ToolPlan

  // ---------------------------------------------------------------- the schedule

  /** Calls still to be done are not undone by a pass, and an immediate completion is new. */
  lemma {:induction false} LessUnfinished(a: seq<Call>, b: seq<Call>)
    requires |a| == |b| && forall i :: 0 <= i < |a| ==> Done(a[i]) ==> Done(b[i])
    ensures Unfinished(b) <= Unfinished(a)
    ensures (exists i :: 0 <= i < |a| && Done(b[i]) && !Done(a[i])) ==> Unfinished(b) < Unfinished(a)
  {
    if a != [] {
      assert Done(a[0]) ==> Done(b[0]);
      forall i | 0 <= i < |a[1..]| ensures Done(a[1..][i]) ==> Done(b[1..][i]) {
        assert a[1..][i] == a[i + 1] && b[1..][i] == b[i + 1];
      }
      LessUnfinished(a[1..], b[1..]);
      if i :| 0 <= i < |a| && Done(b[i]) && !Done(a[i]) {
        if i > 0 { assert a[1..][i - 1] == a[i] && b[1..][i - 1] == b[i]; }
      }
    }
  }

  /** A pass only completes unfinished calls of the segment. */
  lemma {:induction false} PassCompletes(calls: seq<Call>, shells: Shells, ordinals: seq<nat>)
    requires forall k :: 0 <= k < |ordinals| ==> ordinals[k] < |calls|
    ensures var pass := RunPass(calls, shells, ordinals);
            && (forall i :: 0 <= i < |calls| && pass.calls[i] != calls[i] ==>
                  i in ordinals && !Done(calls[i]) && !calls[i].status.Submitted?
                  && Done(pass.calls[i]) && pass.calls[i] == calls[i].(status := pass.calls[i].status))
            && (pass.immediate <==> exists i :: 0 <= i < |calls| && pass.calls[i] != calls[i])
  {
    if ordinals != [] {
      var n := |ordinals| - 1;
      PassCompletes(calls, shells, ordinals[..n]);
      var before := RunPass(calls, shells, ordinals[..n]);
      var pass := RunPass(calls, shells, ordinals);
      assert ordinals[n] in ordinals;
      if pass.calls != before.calls {
        assert pass.calls[ordinals[n]] != calls[ordinals[n]];
      }
      if before.immediate && pass.calls == before.calls {
        var i :| 0 <= i < |calls| && before.calls[i] != calls[i];
        assert pass.calls[i] != calls[i];
      }
    }
  }

  lemma ImmediateMakesProgress(calls: seq<Call>, shells: Shells, ordinals: seq<nat>)
    requires forall k :: 0 <= k < |ordinals| ==> ordinals[k] < |calls|
    requires RunPass(calls, shells, ordinals).immediate
    ensures Unfinished(RunPass(calls, shells, ordinals).calls) < Unfinished(calls)
  {
    PassCompletes(calls, shells, ordinals);
    LessUnfinished(calls, RunPass(calls, shells, ordinals).calls);
  }

  lemma {:induction false} AdvanceKeepsCalls(plan: Plan)
    ensures Advance(plan).calls == plan.calls && Advance(plan).segments == plan.segments
    ensures plan.active <= Advance(plan).active
    ensures plan.active <= |plan.segments| ==> Advance(plan).active <= |plan.segments|
    ensures forall s :: plan.active <= s < Advance(plan).active ==> s < |plan.segments| && SegmentDone(plan.calls, plan.segments[s])
    ensures Advance(plan).active < |plan.segments| ==> !SegmentDone(plan.calls, plan.segments[Advance(plan).active])
    decreases |plan.segments| - plan.active
  {
    if plan.active < |plan.segments| && SegmentDone(plan.calls, plan.segments[plan.active]) {
      AdvanceKeepsCalls(plan.(active := plan.active + 1));
    }
  }

  /** `schedule_ready`, with operation ids counted up from `next`. */
  function ScheduleReady(plan: Plan, shells: Shells, next: OpId): (Plan, OpId)
    requires OrdinalsValid(plan)
    decreases Unfinished(plan.calls)
  {
    if plan.active >= |plan.segments| then (plan, next)
    else
      var ordinals := plan.segments[plan.active].ordinals;
      var pass := RunPass(plan.calls, shells, ordinals);
      if pass.prepared != [] then
        (plan.(calls := Stage(pass.calls, pass.prepared, next)), next + |pass.prepared|)
      else if pass.immediate then
        ImmediateMakesProgress(plan.calls, shells, ordinals);
        AdvanceKeepsCalls(plan.(calls := pass.calls));
        ScheduleReady(Advance(plan.(calls := pass.calls)), shells, next)
      else (plan.(calls := pass.calls), next)
  }

  // ---------------------------------------------------------------- the invariant

  predicate ShellBelow(session: Option<SessionId>, shells: Shells) { session.Some? ==> session.value < shells.next }

  /** What each stored status promises. */
  predicate CallOk(call: Call, shells: Shells, next: OpId) {
    match call.status
    case Pending => true
    case Completed(_) => true
    case Ready(progress) =>
      && ShellBelow(ProgressSession(progress), shells)
      && (match progress
          case Shell(_, handle, _, pages) => handle.Some? && 1 <= pages < MAX_OUTPUT_PAGES_PER_CALL && !call.tool.ApplyPatch? && !call.tool.ViewImage?
          case Image => false
          case Patch(phase, _) => !phase.Reading? && call.tool.ApplyPatch?)
    case Submitted(operation, progress) =>
      && operation < next && ShellBelow(ProgressSession(progress), shells)
      && (match progress
          case Shell(_, _, _, pages) => pages < MAX_OUTPUT_PAGES_PER_CALL && !call.tool.ApplyPatch? && !call.tool.ViewImage?
          case Image => call.tool.ViewImage?
          case Patch(_, _) => call.tool.ApplyPatch?)
  }

  predicate ShellsOk(shells: Shells) { forall s :: s in shells.tracked ==> s < shells.next }

  /** Two submitted calls are different operations on different shell sessions. */
  predicate NoConflict(a: Call, b: Call) {
    a.status.Submitted? && b.status.Submitted? ==>
      && a.status.operation != b.status.operation
      && (ProgressSession(a.status.progress).Some? ==> ProgressSession(a.status.progress) != ProgressSession(b.status.progress))
  }

  predicate SegmentOk(calls: seq<Call>, segment: Segment) {
    && (segment.scheduling.Exclusive? ==> |segment.ordinals| == 1)
    && (forall k :: 0 <= k < |segment.ordinals| ==>
          segment.ordinals[k] < |calls| && SchedulingOf(calls[segment.ordinals[k]].tool) == segment.scheduling)
    && (forall k, l :: 0 <= k < l < |segment.ordinals| ==> segment.ordinals[k] != segment.ordinals[l])
  }

  ghost predicate Apart(segments: seq<Segment>) {
    forall s, t, i :: 0 <= s < |segments| && 0 <= t < |segments| && i in segments[s].ordinals && i in segments[t].ordinals
                      ==> s == t
  }

  /** Unfinished calls lie at or after the active segment, and those after it are untouched. */
  ghost predicate Homed(plan: Plan, i: nat)
    requires i < |plan.calls|
  {
    Done(plan.calls[i])
    || exists s :: plan.active <= s < |plan.segments| && i in plan.segments[s].ordinals
                   && (s == plan.active || plan.calls[i].status.Pending?)
  }

  ghost predicate PlanInv(plan: Plan, shells: Shells, next: OpId) {
    && plan.active <= |plan.segments| && ShellsOk(shells)
    && (forall s :: 0 <= s < |plan.segments| ==> SegmentOk(plan.calls, plan.segments[s]))
    && Apart(plan.segments)
    && (forall i :: 0 <= i < |plan.calls| ==> CallOk(plan.calls[i], shells, next))
    && (forall i :: 0 <= i < |plan.calls| ==> Homed(plan, i))
    && (forall i, j :: 0 <= i < j < |plan.calls| ==> NoConflict(plan.calls[i], plan.calls[j]))
  }

  /** The active segment has something left to do. */
  ghost predicate Active(plan: Plan) {
    plan.active < |plan.segments| ==> !SegmentDone(plan.calls, plan.segments[plan.active])
  }

  lemma ValidOrdinals(plan: Plan, shells: Shells, next: OpId)
    requires PlanInv(plan, shells, next)
    ensures OrdinalsValid(plan)
  {
    forall s, k | 0 <= s < |plan.segments| && 0 <= k < |plan.segments[s].ordinals|
      ensures plan.segments[s].ordinals[k] < |plan.calls|
    {
      assert SegmentOk(plan.calls, plan.segments[s]);
    }
  }

  // ---------------------------------------------------------------- cutting a plan into segments

  /** The ordinals of a segment are pending calls before `n`. */
  predicate PendingBefore(calls: seq<Call>, segment: Segment, n: nat)
    requires n <= |calls|
  {
    forall k :: 0 <= k < |segment.ordinals| ==> segment.ordinals[k] < n && calls[segment.ordinals[k]].status.Pending?
  }

  ghost predicate InSome(segments: seq<Segment>, i: nat) { exists s :: 0 <= s < |segments| && i in segments[s].ordinals }

  ghost predicate CutInv(calls: seq<Call>, segments: seq<Segment>, n: nat)
    requires n <= |calls|
  {
    && (forall s :: 0 <= s < |segments| ==>
          SegmentOk(calls, segments[s]) && segments[s].ordinals != [] && PendingBefore(calls, segments[s], n))
    && Apart(segments)
    && (forall i :: 0 <= i < n && calls[i].status.Pending? ==> InSome(segments, i))
  }

  function Flat(segments: seq<Segment>): seq<nat> {
    if segments == [] then [] else Flat(segments[..|segments| - 1]) + segments[|segments| - 1].ordinals
  }

  function PendingOrdinals(calls: seq<Call>, n: nat): seq<nat>
    requires n <= |calls|
  {
    if n == 0 then []
    else PendingOrdinals(calls, n - 1) + if calls[n - 1].status.Pending? then [n - 1] else []
  }

  /** The segments hold the pending calls in order; two parallel segments never meet. */
  lemma {:induction false} SegmentsKeepTheOrder(calls: seq<Call>, n: nat)
    requires n <= |calls|
    ensures Flat(Segments(calls, n)) == PendingOrdinals(calls, n)
    ensures var segments := Segments(calls, n);
            forall s :: 0 <= s < |segments| - 1 ==>
              segments[s].scheduling.Exclusive? || segments[s + 1].scheduling.Exclusive?
  {
    if n > 0 {
      SegmentsKeepTheOrder(calls, n - 1);
      var rest := Segments(calls, n - 1);
      var all := Segments(calls, n);
      if calls[n - 1].status.Pending? {
        if |all| == |rest| {
          assert all[..|all| - 1] == rest[..|rest| - 1];
          assert Flat(all) == Flat(rest) + [n - 1];
        } else {
          assert all[..|rest|] == rest;
        }
      }
    }
  }

  lemma InSomeStill(rest: seq<Segment>, all: seq<Segment>, i: nat)
    requires InSome(rest, i) && |rest| <= |all|
    requires forall s, j :: 0 <= s < |rest| && j in rest[s].ordinals ==> j in all[s].ordinals
    ensures InSome(all, i)
  {
    var s :| 0 <= s < |rest| && i in rest[s].ordinals;
    assert i in all[s].ordinals;
  }

  /** Every ordinal of `all` is the new one, in the last segment, or an old one where it was. */
  ghost predicate Grown(rest: seq<Segment>, all: seq<Segment>, n: nat) {
    && |rest| <= |all|
    && (forall s, j :: 0 <= s < |rest| && j in rest[s].ordinals ==> j in all[s].ordinals)
    && (forall s, j :: 0 <= s < |all| && j in all[s].ordinals ==>
          (j == n && s == |all| - 1) || (j < n && s < |rest| && j in rest[s].ordinals))
    && |all| > 0 && n in all[|all| - 1].ordinals
  }

  lemma GrownApart(rest: seq<Segment>, all: seq<Segment>, n: nat)
    requires Apart(rest) && Grown(rest, all, n)
    ensures Apart(all)
  {
  }

  lemma GrownCovers(calls: seq<Call>, rest: seq<Segment>, all: seq<Segment>, n: nat)
    requires n < |calls| && Grown(rest, all, n)
    requires forall i :: 0 <= i < n && calls[i].status.Pending? ==> InSome(rest, i)
    ensures forall i :: 0 <= i < n + 1 && calls[i].status.Pending? ==> InSome(all, i)
  {
    forall i | 0 <= i < n + 1 && calls[i].status.Pending? ensures InSome(all, i) {
      if i < n { InSomeStill(rest, all, i); }
    }
  }

  lemma OrdinalsBelow(calls: seq<Call>, segment: Segment, n: nat)
    requires n <= |calls| && PendingBefore(calls, segment, n)
    ensures forall j :: j in segment.ordinals ==> j < n
  {
  }

  lemma OpeningGrows(calls: seq<Call>, rest: seq<Segment>, n: nat, added: Segment)
    requires n < |calls| && CutInv(calls, rest, n) && added.ordinals == [n]
    ensures Grown(rest, rest + [added], n)
  {
    forall s | 0 <= s < |rest| ensures forall j :: j in rest[s].ordinals ==> j < n { OrdinalsBelow(calls, rest[s], n); }
  }

  lemma OpeningCuts(calls: seq<Call>, rest: seq<Segment>, n: nat)
    requires n < |calls| && CutInv(calls, rest, n) && calls[n].status.Pending?
    ensures CutInv(calls, rest + [Segment(SchedulingOf(calls[n].tool), [n])], n + 1)
  {
    var all := rest + [Segment(SchedulingOf(calls[n].tool), [n])];
    OpeningGrows(calls, rest, n, Segment(SchedulingOf(calls[n].tool), [n]));
    GrownApart(rest, all, n);
    GrownCovers(calls, rest, all, n);
    forall s | 0 <= s < |all|
      ensures SegmentOk(calls, all[s]) && all[s].ordinals != [] && PendingBefore(calls, all[s], n + 1)
    {
      if s < |rest| { assert SegmentOk(calls, rest[s]) && PendingBefore(calls, rest[s], n); }
    }
  }

  lemma JoinedSegment(calls: seq<Call>, last: Segment, n: nat)
    requires n < |calls| && SegmentOk(calls, last) && PendingBefore(calls, last, n) && calls[n].status.Pending?
    requires last.scheduling.ParallelSafe? && SchedulingOf(calls[n].tool).ParallelSafe?
    ensures var joined := Segment(ParallelSafe, last.ordinals + [n]);
            SegmentOk(calls, joined) && PendingBefore(calls, joined, n + 1)
  {
  }

  lemma JoiningGrows(calls: seq<Call>, rest: seq<Segment>, n: nat)
    requires n < |calls| && CutInv(calls, rest, n) && rest != []
    ensures Grown(rest, rest[|rest| - 1 := Segment(ParallelSafe, rest[|rest| - 1].ordinals + [n])], n)
  {
    forall s | 0 <= s < |rest| ensures forall j :: j in rest[s].ordinals ==> j < n { OrdinalsBelow(calls, rest[s], n); }
  }

  lemma JoiningCuts(calls: seq<Call>, rest: seq<Segment>, n: nat)
    requires n < |calls| && CutInv(calls, rest, n) && calls[n].status.Pending?
    requires rest != [] && rest[|rest| - 1].scheduling.ParallelSafe? && SchedulingOf(calls[n].tool).ParallelSafe?
    ensures CutInv(calls, rest[|rest| - 1 := Segment(ParallelSafe, rest[|rest| - 1].ordinals + [n])], n + 1)
  {
    var last := |rest| - 1;
    var all := rest[last := Segment(ParallelSafe, rest[last].ordinals + [n])];
    JoiningGrows(calls, rest, n);
    GrownApart(rest, all, n);
    GrownCovers(calls, rest, all, n);
    JoinedSegment(calls, rest[last], n);
    forall s | 0 <= s < |all|
      ensures SegmentOk(calls, all[s]) && all[s].ordinals != [] && PendingBefore(calls, all[s], n + 1)
    {
      if s < last { assert SegmentOk(calls, rest[s]) && PendingBefore(calls, rest[s], n); }
    }
  }

  lemma SkippingCuts(calls: seq<Call>, rest: seq<Segment>, n: nat)
    requires n < |calls| && CutInv(calls, rest, n) && !calls[n].status.Pending?
    ensures CutInv(calls, rest, n + 1)
  {
    forall s | 0 <= s < |rest| ensures PendingBefore(calls, rest[s], n + 1) { assert PendingBefore(calls, rest[s], n); }
  }

  lemma {:induction false} SegmentsAreCut(calls: seq<Call>, n: nat)
    requires n <= |calls|
    ensures CutInv(calls, Segments(calls, n), n)
  {
    if n > 0 {
      SegmentsAreCut(calls, n - 1);
      var rest := Segments(calls, n - 1);
      CuttingOneMore(calls, rest, n - 1);
    }
  }

  lemma CuttingOneMore(calls: seq<Call>, rest: seq<Segment>, n: nat)
    requires n < |calls| && CutInv(calls, rest, n) && rest == Segments(calls, n)
    ensures CutInv(calls, Segments(calls, n + 1), n + 1)
  {
    if !calls[n].status.Pending? {
      SkippingCuts(calls, rest, n);
      assert Segments(calls, n + 1) == rest;
    } else if SchedulingOf(calls[n].tool).ParallelSafe? && rest != [] && rest[|rest| - 1].scheduling.ParallelSafe? {
      JoiningCuts(calls, rest, n);
      assert Segments(calls, n + 1) == rest[|rest| - 1 := Segment(ParallelSafe, rest[|rest| - 1].ordinals + [n])];
    } else {
      OpeningCuts(calls, rest, n);
      assert Segments(calls, n + 1) == rest + [Segment(SchedulingOf(calls[n].tool), [n])];
    }
  }

  /** A plan as the parser leaves it: calls are pending, or completed because they did not parse. */
  predicate Parsed(calls: seq<Call>) {
    forall i :: 0 <= i < |calls| ==> calls[i].status.Pending? || calls[i].status.Completed?
  }

  lemma NewPlanIsOk(calls: seq<Call>, shells: Shells, next: OpId)
    requires Parsed(calls) && ShellsOk(shells)
    ensures PlanInv(NewPlan(calls), shells, next) && Active(NewPlan(calls))
  {
    SegmentsAreCut(calls, |calls|);
    var plan := NewPlan(calls);
    forall i | 0 <= i < |calls| ensures Homed(plan, i) {
      if calls[i].status.Pending? {
        assert InSome(plan.segments, i);
        var s :| 0 <= s < |plan.segments| && i in plan.segments[s].ordinals;
      }
    }
    if plan.segments != [] {
      assert PendingBefore(calls, plan.segments[0], |calls|);
      assert plan.segments[0].ordinals[0] < |calls|;
    }
  }

  // ---------------------------------------------------------------- what a pass prepares

  /** A prepared call is an unfinished call of the segment with the operation `Prepare` made for it. */
  predicate PreparedOk(calls: seq<Call>, shells: Shells, entry: Entry) {
    entry.ordinal < |calls| && Prepare(calls[entry.ordinal], shells) == Go(entry.progress)
  }

  /** Two prepared calls are different and on different shell sessions. */
  predicate PreparedApart(a: Entry, b: Entry) {
    a.ordinal != b.ordinal && (ProgressSession(a.progress).Some? ==> ProgressSession(a.progress) != ProgressSession(b.progress))
  }

  ghost predicate PassInv(calls: seq<Call>, shells: Shells, ordinals: seq<nat>, pass: Pass) {
    && |pass.calls| == |calls|
    && (forall i :: 0 <= i < |calls| && i !in ordinals ==> pass.calls[i] == calls[i])
    && (forall j :: 0 <= j < |pass.prepared| ==>
          PreparedOk(calls, shells, pass.prepared[j]) && pass.prepared[j].ordinal in ordinals
          && pass.calls[pass.prepared[j].ordinal] == calls[pass.prepared[j].ordinal])
    && (forall j, k :: 0 <= j < k < |pass.prepared| ==> PreparedApart(pass.prepared[j], pass.prepared[k]))
    && SubmittedResources(calls) <= pass.busy
    && (forall j :: 0 <= j < |pass.prepared| ==>
          ProgressSession(pass.prepared[j].progress).Some? ==>
            ProgressSession(pass.prepared[j].progress).value in pass.busy
            && ProgressSession(pass.prepared[j].progress).value !in SubmittedResources(calls))
    && (pass.prepared == [] ==> pass.busy == SubmittedResources(calls))
  }

  /** For a pending or ready call the resource is the session of the operation prepared for it. */
  lemma ResourceIsSession(call: Call, shells: Shells)
    requires Prepare(call, shells).Go?
    ensures Resource(call).Some? ==> Resource(call) == ProgressSession(Prepare(call, shells).progress)
    ensures ProgressSession(Prepare(call, shells).progress).Some? ==>
              Resource(call) == ProgressSession(Prepare(call, shells).progress)
  {
  }

  lemma PassOneKeepsInv(calls: seq<Call>, shells: Shells, ordinals: seq<nat>, pass: Pass, ordinal: nat)
    requires PassInv(calls, shells, ordinals, pass) && ordinal < |calls| && ordinal !in ordinals
    ensures PassInv(calls, shells, ordinals + [ordinal], PassOne(pass, shells, ordinal))
  {
    var call := calls[ordinal];
    if Prepare(call, shells).Go? { ResourceIsSession(call, shells); }
  }

  lemma {:induction false} PassIsOk(calls: seq<Call>, shells: Shells, ordinals: seq<nat>)
    requires forall k :: 0 <= k < |ordinals| ==> ordinals[k] < |calls|
    requires forall k, l :: 0 <= k < l < |ordinals| ==> ordinals[k] != ordinals[l]
    ensures PassInv(calls, shells, ordinals, RunPass(calls, shells, ordinals))
  {
    if ordinals != [] {
      var n := |ordinals| - 1;
      PassIsOk(calls, shells, ordinals[..n]);
      PassOneKeepsInv(calls, shells, ordinals[..n], RunPass(calls, shells, ordinals[..n]), ordinals[n]);
      assert ordinals[..n] + [ordinals[n]] == ordinals;
    }
  }

  /** A call of the segment that a pass leaves alone is finished, submitted, or waits for its session. */
  lemma {:induction false} LeftAloneForAReason(calls: seq<Call>, shells: Shells, ordinals: seq<nat>, i: nat)
    requires forall k :: 0 <= k < |ordinals| ==> ordinals[k] < |calls|
    requires i in ordinals && RunPass(calls, shells, ordinals).prepared == []
    requires !RunPass(calls, shells, ordinals).immediate
    ensures i < |calls|
    ensures Done(calls[i]) || calls[i].status.Submitted?
            || (Resource(calls[i]).Some? && Resource(calls[i]).value in SubmittedResources(calls))
  {
    var n := |ordinals| - 1;
    var before := RunPass(calls, shells, ordinals[..n]);
    assert before.prepared == [] && !before.immediate;
    PassCompletes(calls, shells, ordinals[..n]);
    QuietPass(calls, shells, ordinals[..n]);
    if i in ordinals[..n] {
      LeftAloneForAReason(calls, shells, ordinals[..n], i);
    } else {
      assert ordinals[n] == i;
    }
  }

  lemma {:induction false} QuietPass(calls: seq<Call>, shells: Shells, ordinals: seq<nat>)
    requires forall k :: 0 <= k < |ordinals| ==> ordinals[k] < |calls|
    requires RunPass(calls, shells, ordinals).prepared == []
    ensures RunPass(calls, shells, ordinals).busy == SubmittedResources(calls)
  {
    if ordinals != [] { QuietPass(calls, shells, ordinals[..|ordinals| - 1]); }
  }

  // ---------------------------------------------------------------- staging

  lemma {:induction false} StagedAt(calls: seq<Call>, prepared: seq<Entry>, first: OpId)
    requires forall k :: 0 <= k < |prepared| ==> prepared[k].ordinal < |calls|
    requires forall j, k :: 0 <= j < k < |prepared| ==> prepared[j].ordinal != prepared[k].ordinal
    ensures forall j :: 0 <= j < |prepared| ==>
              Stage(calls, prepared, first)[prepared[j].ordinal]
              == calls[prepared[j].ordinal].(status := Submitted(first + j, prepared[j].progress))
    ensures forall i :: 0 <= i < |calls| && (forall j :: 0 <= j < |prepared| ==> prepared[j].ordinal != i) ==>
              Stage(calls, prepared, first)[i] == calls[i]
  {
    if prepared != [] { StagedAt(calls, prepared[..|prepared| - 1], first); }
  }

  /** How scheduling may change a call: not at all, to finished, or to the submitted operation of an entry. */
  ghost predicate Staged(before: Call, after: Call, i: nat, prepared: seq<Entry>, first: OpId) {
    || after == before
    || (Done(after) && after == before.(status := after.status))
    || (exists j :: 0 <= j < |prepared| && prepared[j].ordinal == i
          && after == before.(status := Submitted(first + j, prepared[j].progress)))
  }

  lemma StagingMoves(calls: seq<Call>, shells: Shells, ordinals: seq<nat>, first: OpId)
    requires forall k :: 0 <= k < |ordinals| ==> ordinals[k] < |calls|
    requires forall k, l :: 0 <= k < l < |ordinals| ==> ordinals[k] != ordinals[l]
    ensures var pass := RunPass(calls, shells, ordinals); var after := Stage(pass.calls, pass.prepared, first);
            PassInv(calls, shells, ordinals, pass)
            && (forall i :: 0 <= i < |calls| ==> Staged(calls[i], after[i], i, pass.prepared, first))
            && (forall j :: 0 <= j < |pass.prepared| ==> after[pass.prepared[j].ordinal].status.Submitted?)
  {
    var pass := RunPass(calls, shells, ordinals);
    var after := Stage(pass.calls, pass.prepared, first);
    PassIsOk(calls, shells, ordinals);
    PassCompletes(calls, shells, ordinals);
    forall j, k | 0 <= j < k < |pass.prepared| ensures pass.prepared[j].ordinal != pass.prepared[k].ordinal {
      assert PreparedApart(pass.prepared[j], pass.prepared[k]);
    }
    StagedAt(pass.calls, pass.prepared, first);
    forall i | 0 <= i < |calls| ensures Staged(calls[i], after[i], i, pass.prepared, first) {
      if j :| 0 <= j < |pass.prepared| && pass.prepared[j].ordinal == i {
        assert pass.calls[pass.prepared[j].ordinal] == calls[pass.prepared[j].ordinal];
      } else {
        assert after[i] == pass.calls[i];
      }
    }
  }

  lemma SubmittedIsOk(call: Call, shells: Shells, next: OpId, operation: OpId, progress: Progress, later: OpId)
    requires CallOk(call, shells, next) && ShellsOk(shells) && Prepare(call, shells) == Go(progress)
    requires operation < later
    ensures CallOk(call.(status := Submitted(operation, progress)), shells, later)
  {
  }

  lemma StagedCallIsOk(before: Call, after: Call, i: nat, shells: Shells, prepared: seq<Entry>, next: OpId)
    requires Staged(before, after, i, prepared, next) && CallOk(before, shells, next) && ShellsOk(shells)
    requires forall j :: 0 <= j < |prepared| && prepared[j].ordinal == i ==> Prepare(before, shells) == Go(prepared[j].progress)
    ensures CallOk(after, shells, next + |prepared|)
  {
    if after != before && !Done(after) {
      var j :| 0 <= j < |prepared| && prepared[j].ordinal == i
               && after == before.(status := Submitted(next + j, prepared[j].progress));
      SubmittedIsOk(before, shells, next, next + j, prepared[j].progress, next + |prepared|);
    }
  }

  lemma SubmittedSessions(calls: seq<Call>, i: nat)
    requires i < |calls| && calls[i].status.Submitted? && ProgressSession(calls[i].status.progress).Some?
    ensures ProgressSession(calls[i].status.progress).value in SubmittedResources(calls)
  {
  }

  lemma StagedApart(calls: seq<Call>, after: seq<Call>, shells: Shells, ordinals: seq<nat>, next: OpId, i: nat, j: nat)
    requires i < j < |calls| == |after| && forall k :: 0 <= k < |ordinals| ==> ordinals[k] < |calls|
    requires CallOk(calls[i], shells, next) && CallOk(calls[j], shells, next) && NoConflict(calls[i], calls[j])
    requires var pass := RunPass(calls, shells, ordinals);
             PassInv(calls, shells, ordinals, pass)
             && Staged(calls[i], after[i], i, pass.prepared, next) && Staged(calls[j], after[j], j, pass.prepared, next)
    ensures NoConflict(after[i], after[j])
  {
    var prepared := RunPass(calls, shells, ordinals).prepared;
    if after[i].status.Submitted? && after[j].status.Submitted? {
      if after[i] == calls[i] && after[j] == calls[j] {
      } else if after[i] == calls[i] {
        var k :| 0 <= k < |prepared| && prepared[k].ordinal == j
                 && after[j] == calls[j].(status := Submitted(next + k, prepared[k].progress));
        if ProgressSession(calls[i].status.progress).Some? { SubmittedSessions(calls, i); }
      } else if after[j] == calls[j] {
        var k :| 0 <= k < |prepared| && prepared[k].ordinal == i
                 && after[i] == calls[i].(status := Submitted(next + k, prepared[k].progress));
        if ProgressSession(calls[j].status.progress).Some? { SubmittedSessions(calls, j); }
      } else {
        var k :| 0 <= k < |prepared| && prepared[k].ordinal == i
                 && after[i] == calls[i].(status := Submitted(next + k, prepared[k].progress));
        var l :| 0 <= l < |prepared| && prepared[l].ordinal == j
                 && after[j] == calls[j].(status := Submitted(next + l, prepared[l].progress));
        assert if k < l then PreparedApart(prepared[k], prepared[l]) else PreparedApart(prepared[l], prepared[k]);
      }
    }
  }

  lemma ToolsKept(plan: Plan, after: seq<Call>)
    requires |after| == |plan.calls| && forall i :: 0 <= i < |after| ==> after[i].tool == plan.calls[i].tool
    requires forall s :: 0 <= s < |plan.segments| ==> SegmentOk(plan.calls, plan.segments[s])
    ensures forall s :: 0 <= s < |plan.segments| ==> SegmentOk(after, plan.segments[s])
  {
    forall s | 0 <= s < |plan.segments| ensures SegmentOk(after, plan.segments[s]) {
      assert SegmentOk(plan.calls, plan.segments[s]);
    }
  }

  lemma StagingKeepsInv(plan: Plan, shells: Shells, next: OpId)
    requires PlanInv(plan, shells, next) && plan.active < |plan.segments| && OrdinalsValid(plan)
    ensures var pass := RunPass(plan.calls, shells, plan.segments[plan.active].ordinals);
            PlanInv(plan.(calls := Stage(pass.calls, pass.prepared, next)), shells, next + |pass.prepared|)
  {
    var ordinals := plan.segments[plan.active].ordinals;
    assert SegmentOk(plan.calls, plan.segments[plan.active]);
    var pass := RunPass(plan.calls, shells, ordinals);
    var after := Stage(pass.calls, pass.prepared, next);
    StagingMoves(plan.calls, shells, ordinals, next);
    var plan' := plan.(calls := after);
    forall i | 0 <= i < |after| ensures CallOk(after[i], shells, next + |pass.prepared|) && after[i].tool == plan.calls[i].tool {
      assert CallOk(plan.calls[i], shells, next) && Staged(plan.calls[i], after[i], i, pass.prepared, next);
      assert forall j :: 0 <= j < |pass.prepared| ==> PreparedOk(plan.calls, shells, pass.prepared[j]);
      StagedCallIsOk(plan.calls[i], after[i], i, shells, pass.prepared, next);
    }
    ToolsKept(plan, after);
    forall i | 0 <= i < |after| ensures Homed(plan', i) {
      assert Homed(plan, i) && Staged(plan.calls[i], after[i], i, pass.prepared, next);
      StillHomed(plan, after, i, pass.prepared, next);
    }
    forall i, j | 0 <= i < j < |after| ensures NoConflict(after[i], after[j]) {
      assert CallOk(plan.calls[i], shells, next) && CallOk(plan.calls[j], shells, next);
      StagedApart(plan.calls, after, shells, ordinals, next, i, j);
    }
  }

  lemma StillHomed(plan: Plan, after: seq<Call>, i: nat, prepared: seq<Entry>, next: OpId)
    requires plan.active < |plan.segments| && i < |plan.calls| == |after| && Homed(plan, i)
    requires Staged(plan.calls[i], after[i], i, prepared, next)
    requires forall j :: 0 <= j < |prepared| ==> prepared[j].ordinal in plan.segments[plan.active].ordinals
    ensures Homed(plan.(calls := after), i)
  {
    if !Done(after[i]) {
      if after[i] == plan.calls[i] {
        var s :| plan.active <= s < |plan.segments| && i in plan.segments[s].ordinals
                 && (s == plan.active || plan.calls[i].status.Pending?);
      } else {
        assert i in plan.segments[plan.active].ordinals;
      }
    }
  }

  /** Finishing calls, and moving past finished segments, keeps the plan in order. */
  lemma FinishingKeepsInv(plan: Plan, after: seq<Call>, shells: Shells, next: OpId)
    requires PlanInv(plan, shells, next) && |after| == |plan.calls|
    requires forall i :: 0 <= i < |after| ==>
               after[i] == plan.calls[i] || (Done(after[i]) && after[i] == plan.calls[i].(status := after[i].status))
    ensures PlanInv(plan.(calls := after), shells, next)
  {
    var plan' := plan.(calls := after);
    ToolsKept(plan, after);
    forall i | 0 <= i < |after| ensures Homed(plan', i) && CallOk(after[i], shells, next) {
      assert Homed(plan, i) && CallOk(plan.calls[i], shells, next);
      if !Done(after[i]) {
        var s :| plan.active <= s < |plan.segments| && i in plan.segments[s].ordinals
                 && (s == plan.active || plan.calls[i].status.Pending?);
      }
    }
    forall i, j | 0 <= i < j < |after| ensures NoConflict(after[i], after[j]) {
      assert NoConflict(plan.calls[i], plan.calls[j]);
    }
  }

  lemma AdvancingKeepsInv(plan: Plan, shells: Shells, next: OpId)
    requires PlanInv(plan, shells, next)
    ensures PlanInv(Advance(plan), shells, next) && Active(Advance(plan))
  {
    var plan' := Advance(plan);
    AdvanceKeepsCalls(plan);
    forall i | 0 <= i < |plan'.calls| ensures Homed(plan', i) {
      assert Homed(plan, i);
      if !Done(plan.calls[i]) {
        var s :| plan.active <= s < |plan.segments| && i in plan.segments[s].ordinals
                 && (s == plan.active || plan.calls[i].status.Pending?);
        assert plan'.active <= s;
      }
    }
  }

  predicate SomeSubmitted(plan: Plan) { exists i :: 0 <= i < |plan.calls| && plan.calls[i].status.Submitted? }

  /** Something is left in the active segment and nothing could be prepared: a call is out. */
  lemma WaitingForACall(plan: Plan, shells: Shells, next: OpId)
    requires PlanInv(plan, shells, next) && Active(plan) && plan.active < |plan.segments| && OrdinalsValid(plan)
    requires var pass := RunPass(plan.calls, shells, plan.segments[plan.active].ordinals);
             pass.prepared == [] && !pass.immediate
    ensures SomeSubmitted(plan)
  {
    var ordinals := plan.segments[plan.active].ordinals;
    assert SegmentOk(plan.calls, plan.segments[plan.active]);
    var k :| 0 <= k < |ordinals| && !Done(plan.calls[ordinals[k]]);
    LeftAloneForAReason(plan.calls, shells, ordinals, ordinals[k]);
  }

  /** After scheduling the plan is complete or some call is out, and the plan is in order. */
  lemma {:induction false} ScheduleNeverSticks(plan: Plan, shells: Shells, next: OpId)
    requires PlanInv(plan, shells, next) && Active(plan) && OrdinalsValid(plan)
    ensures var (plan', next') := ScheduleReady(plan, shells, next);
            PlanInv(plan', shells, next') && Active(plan') && next <= next'
            && (IsComplete(plan') || SomeSubmitted(plan'))
    decreases Unfinished(plan.calls)
  {
    if plan.active >= |plan.segments| {
      forall i | 0 <= i < |plan.calls| ensures Done(plan.calls[i]) { assert Homed(plan, i); }
    } else {
      var ordinals := plan.segments[plan.active].ordinals;
      assert SegmentOk(plan.calls, plan.segments[plan.active]);
      var pass := RunPass(plan.calls, shells, ordinals);
      if pass.prepared != [] {
        StagingKeepsInv(plan, shells, next);
        StagedIsOut(plan, shells, next);
      } else if pass.immediate {
        PassCompletes(plan.calls, shells, ordinals);
        FinishingKeepsInv(plan, pass.calls, shells, next);
        AdvancingKeepsInv(plan.(calls := pass.calls), shells, next);
        ImmediateMakesProgress(plan.calls, shells, ordinals);
        AdvanceKeepsCalls(plan.(calls := pass.calls));
        ScheduleNeverSticks(Advance(plan.(calls := pass.calls)), shells, next);
      } else {
        WaitingForACall(plan, shells, next);
        PassCompletes(plan.calls, shells, ordinals);
        assert pass.calls == plan.calls;
      }
    }
  }

  lemma StagedIsOut(plan: Plan, shells: Shells, next: OpId)
    requires PlanInv(plan, shells, next) && plan.active < |plan.segments| && OrdinalsValid(plan)
    requires RunPass(plan.calls, shells, plan.segments[plan.active].ordinals).prepared != []
    ensures var pass := RunPass(plan.calls, shells, plan.segments[plan.active].ordinals);
            var plan' := plan.(calls := Stage(pass.calls, pass.prepared, next));
            Active(plan') && SomeSubmitted(plan')
  {
    var ordinals := plan.segments[plan.active].ordinals;
    assert SegmentOk(plan.calls, plan.segments[plan.active]);
    var pass := RunPass(plan.calls, shells, ordinals);
    StagingMoves(plan.calls, shells, ordinals, next);
    var out := pass.prepared[0].ordinal;
    assert out in ordinals && Stage(pass.calls, pass.prepared, next)[out].status.Submitted?;
    var k :| 0 <= k < |ordinals| && ordinals[k] == out;
  }

  // ---------------------------------------------------------------- the measure

  /** The most execution operations a call may still complete. */
  function Left(progress: Progress): nat {
    match progress
    case Shell(_, _, _, pages) => if pages < MAX_OUTPUT_PAGES_PER_CALL then MAX_OUTPUT_PAGES_PER_CALL - pages else 0
    case Image => 1
    case Patch(phase, _) => if phase.Reading? then 3 else if phase.Mutating? then 2 else 1
  }

  function Budget(tool: Tool): nat {
    match tool
    case ExecCommand => MAX_OUTPUT_PAGES_PER_CALL
    case WriteStdin => MAX_OUTPUT_PAGES_PER_CALL
    case ViewImage => 1
    case ApplyPatch => 3
  }

  function WorkOf(call: Call): nat {
    match call.status
    case Pending => Budget(call.tool)
    case Ready(progress) => Left(progress)
    case Submitted(_, progress) => Left(progress)
    case Completed(_) => 0
  }

  function Work(calls: seq<Call>): nat {
    if calls == [] then 0 else Work(calls[..|calls| - 1]) + WorkOf(calls[|calls| - 1])
  }

  lemma {:induction false} WorkIsMonotone(a: seq<Call>, b: seq<Call>)
    requires |a| == |b| && forall i :: 0 <= i < |a| ==> WorkOf(b[i]) <= WorkOf(a[i])
    ensures Work(b) <= Work(a)
  {
    if a != [] { WorkIsMonotone(a[..|a| - 1], b[..|a| - 1]); }
  }

  lemma {:induction false} LessWork(calls: seq<Call>, i: nat, call: Call)
    requires i < |calls| && WorkOf(call) < WorkOf(calls[i])
    ensures Work(calls[i := call]) < Work(calls)
  {
    var n := |calls| - 1;
    if i == n {
      assert calls[i := call][..n] == calls[..n];
    } else {
      assert calls[i := call][..n] == calls[..n][i := call];
      LessWork(calls[..n], i, call);
    }
  }

  /** Preparing an operation leaves a call as much to do as it had. */
  lemma PreparingKeepsWork(call: Call, shells: Shells, operation: OpId)
    requires Prepare(call, shells).Go?
    ensures WorkOf(call.(status := Submitted(operation, Prepare(call, shells).progress))) == WorkOf(call)
  {
  }

  lemma StagedKeepsWork(before: Call, after: Call, i: nat, shells: Shells, prepared: seq<Entry>, first: OpId)
    requires Staged(before, after, i, prepared, first)
    requires forall j :: 0 <= j < |prepared| && prepared[j].ordinal == i ==> Prepare(before, shells) == Go(prepared[j].progress)
    ensures WorkOf(after) <= WorkOf(before) && after.id == before.id
  {
    if after != before && !Done(after) {
      var j :| 0 <= j < |prepared| && prepared[j].ordinal == i
               && after == before.(status := Submitted(first + j, prepared[j].progress));
      PreparingKeepsWork(before, shells, first + j);
    }
  }

  lemma StagingKeepsWork(plan: Plan, shells: Shells, next: OpId)
    requires PlanInv(plan, shells, next) && plan.active < |plan.segments| && OrdinalsValid(plan)
    ensures var pass := RunPass(plan.calls, shells, plan.segments[plan.active].ordinals);
            var after := Stage(pass.calls, pass.prepared, next);
            Work(after) <= Work(plan.calls) && forall i :: 0 <= i < |plan.calls| ==> after[i].id == plan.calls[i].id
  {
    var ordinals := plan.segments[plan.active].ordinals;
    assert SegmentOk(plan.calls, plan.segments[plan.active]);
    var pass := RunPass(plan.calls, shells, ordinals);
    var after := Stage(pass.calls, pass.prepared, next);
    StagingMoves(plan.calls, shells, ordinals, next);
    StagedWork(plan.calls, after, shells, pass, ordinals, next);
  }

  lemma StagedWork(calls: seq<Call>, after: seq<Call>, shells: Shells, pass: Pass, ordinals: seq<nat>, next: OpId)
    requires |after| == |calls| && PassInv(calls, shells, ordinals, pass)
    requires forall i :: 0 <= i < |calls| ==> Staged(calls[i], after[i], i, pass.prepared, next)
    ensures Work(after) <= Work(calls) && forall i :: 0 <= i < |calls| ==> after[i].id == calls[i].id
  {
    forall i | 0 <= i < |calls| ensures WorkOf(after[i]) <= WorkOf(calls[i]) && after[i].id == calls[i].id {
      assert forall j :: 0 <= j < |pass.prepared| ==> PreparedOk(calls, shells, pass.prepared[j]);
      StagedKeepsWork(calls[i], after[i], i, shells, pass.prepared, next);
    }
    WorkIsMonotone(calls, after);
  }

  predicate SameIds(a: Plan, b: Plan) {
    |a.calls| == |b.calls| && forall i :: 0 <= i < |a.calls| ==> b.calls[i].id == a.calls[i].id
  }

  /** Scheduling adds no work and keeps the calls in place. */
  lemma {:induction false} SchedulingAddsNoWork(plan: Plan, shells: Shells, next: OpId)
    requires PlanInv(plan, shells, next) && OrdinalsValid(plan)
    ensures var (plan', _) := ScheduleReady(plan, shells, next);
            Work(plan'.calls) <= Work(plan.calls) && SameIds(plan, plan')
    decreases Unfinished(plan.calls)
  {
    if plan.active < |plan.segments| {
      var ordinals := plan.segments[plan.active].ordinals;
      assert SegmentOk(plan.calls, plan.segments[plan.active]);
      var pass := RunPass(plan.calls, shells, ordinals);
      if pass.prepared != [] {
        StagingKeepsWork(plan, shells, next);
      } else {
        PassCompletes(plan.calls, shells, ordinals);
        WorkIsMonotone(plan.calls, pass.calls);
        if pass.immediate {
          FinishingKeepsInv(plan, pass.calls, shells, next);
          AdvancingKeepsInv(plan.(calls := pass.calls), shells, next);
          ImmediateMakesProgress(plan.calls, shells, ordinals);
          AdvanceKeepsCalls(plan.(calls := pass.calls));
          SchedulingAddsNoWork(Advance(plan.(calls := pass.calls)), shells, next);
        }
      }
    }
  }

  // ---------------------------------------------------------------- completions

  lemma AppliedIsOk(call: Call, shells: Shells, next: OpId, outcome: ExecutionOutcome)
    requires CallOk(call, shells, next) && call.status.Submitted? && ShellsOk(shells) && !outcome.NotAnExecution?
    ensures var (applied, shells') := ApplyOutcome(call.status.progress, outcome, shells);
            && ShellsOk(shells') && shells.next <= shells'.next
            && CallOk(call.(status := StatusAfter(applied)), shells', next)
            && WorkOf(call.(status := StatusAfter(applied))) < WorkOf(call)
  {
  }

  lemma MoreSessionsAreOk(call: Call, a: Shells, b: Shells, next: OpId)
    requires CallOk(call, a, next) && a.next <= b.next
    ensures CallOk(call, b, next)
  {
  }

  /** A call that is out becomes ready or finished in its place. */
  lemma ApplyingKeepsInv(plan: Plan, shells: Shells, next: OpId, i: nat, call: Call, shells': Shells)
    requires PlanInv(plan, shells, next) && i < |plan.calls| && plan.calls[i].status.Submitted?
    requires call == plan.calls[i].(status := call.status) && !call.status.Submitted? && !call.status.Pending?
    requires ShellsOk(shells') && shells.next <= shells'.next && CallOk(call, shells', next)
    ensures PlanInv(plan.(calls := plan.calls[i := call]), shells', next)
  {
    var after := plan.calls[i := call];
    var plan' := plan.(calls := after);
    ToolsKept(plan, after);
    forall j | 0 <= j < |after| ensures Homed(plan', j) && CallOk(after[j], shells', next) {
      assert Homed(plan, j) && CallOk(plan.calls[j], shells, next);
      MoreSessionsAreOk(plan.calls[j], shells, shells', next);
      if !Done(after[j]) {
        var s :| plan.active <= s < |plan.segments| && j in plan.segments[s].ordinals
                 && (s == plan.active || plan.calls[j].status.Pending?);
      }
    }
    forall j, k | 0 <= j < k < |after| ensures NoConflict(after[j], after[k]) {
      assert NoConflict(plan.calls[j], plan.calls[k]);
    }
  }

  /** Every completion that is handled without error leaves strictly less work. */
  lemma CompletionsMakeProgress(plan: Plan, shells: Shells, next: OpId, operation: OpId, outcome: ExecutionOutcome)
    requires PlanInv(plan, shells, next)
    ensures var result := ApplyCompletion(plan, shells, operation, outcome);
            result.Ok? ==>
              var (plan', shells') := result.value;
              PlanInv(plan', shells', next) && Active(plan') && SameIds(plan, plan')
              && Work(plan'.calls) < Work(plan.calls)
  {
    var result := ApplyCompletion(plan, shells, operation, outcome);
    if result.Ok? {
      FoundIsSubmitted(plan.calls, operation);
      var i := FindSubmitted(plan.calls, operation).value;
      var call := plan.calls[i];
      assert CallOk(call, shells, next);
      AppliedIsOk(call, shells, next, outcome);
      var (applied, shells') := ApplyOutcome(call.status.progress, outcome, shells);
      var call' := call.(status := StatusAfter(applied));
      ApplyingKeepsInv(plan, shells, next, i, call', shells');
      LessWork(plan.calls, i, call');
      AdvancingKeepsInv(plan.(calls := plan.calls[i := call']), shells', next);
      AdvanceKeepsCalls(plan.(calls := plan.calls[i := call']));
    }
  }

  /** A completion is refused exactly if no submitted call waits for it or it is no execution result. */
  lemma CompletionAccepted(plan: Plan, shells: Shells, operation: OpId, outcome: ExecutionOutcome)
    ensures ApplyCompletion(plan, shells, operation, outcome).Ok? <==>
              (exists i :: 0 <= i < |plan.calls| && plan.calls[i].status.Submitted? && plan.calls[i].status.operation == operation)
              && !outcome.NotAnExecution?
  {
    FoundIsSubmitted(plan.calls, operation);
  }

  // ---------------------------------------------------------------- whole plans

  datatype Execution = Execution(plan: Plan, shells: Shells, next: OpId)

  ghost predicate ExecutionInv(e: Execution) { PlanInv(e.plan, e.shells, e.next) && Active(e.plan) }

  /** A new plan is scheduled once; every completion is applied and the rest scheduled again. */
  function Begin(calls: seq<Call>, shells: Shells, next: OpId): Execution
    requires Parsed(calls) && ShellsOk(shells)
  {
    NewPlanIsOk(calls, shells, next);
    ValidOrdinals(NewPlan(calls), shells, next);
    var (plan, next') := ScheduleReady(NewPlan(calls), shells, next);
    Execution(plan, shells, next')
  }

  function Feed(e: Execution, operation: OpId, outcome: ExecutionOutcome): Option<Execution>
    requires ExecutionInv(e)
  {
    var result := ApplyCompletion(e.plan, e.shells, operation, outcome);
    if result.Err? then None
    else
      CompletionsMakeProgress(e.plan, e.shells, e.next, operation, outcome);
      ValidOrdinals(result.value.0, result.value.1, e.next);
      var (plan, next) := ScheduleReady(result.value.0, result.value.1, e.next);
      Some(Execution(plan, result.value.1, next))
  }

  datatype Completion = Completion(operation: OpId, outcome: ExecutionOutcome)

  lemma FeedKeepsInv(e: Execution, operation: OpId, outcome: ExecutionOutcome)
    requires ExecutionInv(e) && Feed(e, operation, outcome).Some?
    ensures var e' := Feed(e, operation, outcome).value;
            ExecutionInv(e') && (IsComplete(e'.plan) || SomeSubmitted(e'.plan)) && SameIds(e.plan, e'.plan)
            && Work(e'.plan.calls) < Work(e.plan.calls)
  {
    var (plan, shells) := ApplyCompletion(e.plan, e.shells, operation, outcome).value;
    CompletionsMakeProgress(e.plan, e.shells, e.next, operation, outcome);
    ValidOrdinals(plan, shells, e.next);
    ScheduleNeverSticks(plan, shells, e.next);
    SchedulingAddsNoWork(plan, shells, e.next);
  }

  lemma BeginIsOk(calls: seq<Call>, shells: Shells, next: OpId)
    requires Parsed(calls) && ShellsOk(shells)
    ensures var e := Begin(calls, shells, next);
            ExecutionInv(e) && (IsComplete(e.plan) || SomeSubmitted(e.plan)) && SameIds(NewPlan(calls), e.plan)
            && Work(e.plan.calls) <= Work(calls)
  {
    NewPlanIsOk(calls, shells, next);
    ValidOrdinals(NewPlan(calls), shells, next);
    ScheduleNeverSticks(NewPlan(calls), shells, next);
    SchedulingAddsNoWork(NewPlan(calls), shells, next);
  }

  /** The plan after a series of completions, if each of them was accepted. */
  function Play(e: Execution, completions: seq<Completion>): (played: Option<Execution>)
    requires ExecutionInv(e)
    ensures played.Some? ==> ExecutionInv(played.value)
    decreases |completions|
  {
    if completions == [] then Some(e)
    else
      var n := |completions| - 1;
      var before := Play(e, completions[..n]);
      if before.None? then None
      else
        var after := Feed(before.value, completions[n].operation, completions[n].outcome);
        if after.None? then None
        else
          FeedKeepsInv(before.value, completions[n].operation, completions[n].outcome);
          after
  }

  /** After `n` completions: in order, never stuck, and at least `n` less to do. */
  ghost predicate Progressing(calls: seq<Call>, e: Execution, n: nat) {
    && ExecutionInv(e) && (IsComplete(e.plan) || SomeSubmitted(e.plan)) && SameIds(NewPlan(calls), e.plan)
    && n + Work(e.plan.calls) <= Work(calls)
  }

  lemma FeedProgresses(calls: seq<Call>, e: Execution, n: nat, completion: Completion)
    requires Progressing(calls, e, n) && Feed(e, completion.operation, completion.outcome).Some?
    ensures Progressing(calls, Feed(e, completion.operation, completion.outcome).value, n + 1)
  {
    FeedKeepsInv(e, completion.operation, completion.outcome);
  }

  lemma {:induction false} PlayProgresses(calls: seq<Call>, e: Execution, completions: seq<Completion>)
    requires Progressing(calls, e, 0)
    ensures Play(e, completions).Some? ==> Progressing(calls, Play(e, completions).value, |completions|)
    decreases |completions|
  {
    if completions != [] {
      var n := |completions| - 1;
      PlayProgresses(calls, e, completions[..n]);
      if Play(e, completions).Some? {
        FeedProgresses(calls, Play(e, completions[..n]).value, n, completions[n]);
      }
    }
  }

  lemma PlayedWork(calls: seq<Call>, shells: Shells, next: OpId, completions: seq<Completion>)
    requires Parsed(calls) && ShellsOk(shells)
    ensures BeginInv(calls, shells, next)
    ensures var played := Play(Begin(calls, shells, next), completions);
            played.Some? ==> Progressing(calls, played.value, |completions|)
  {
    BeginIsOk(calls, shells, next);
    PlayProgresses(calls, Begin(calls, shells, next), completions);
  }

  ghost predicate BeginInv(calls: seq<Call>, shells: Shells, next: OpId) {
    Parsed(calls) && ShellsOk(shells) && ExecutionInv(Begin(calls, shells, next))
  }

  // ---------------------------------------------------------------- main results

  /** Unfinished calls lie at or after the active segment, only the active segment has calls out, an
      exclusive call is out alone, and no two calls that are out share an operation or a session. */
  ghost predicate SafelyScheduled(plan: Plan) {
    && (forall i :: 0 <= i < |plan.calls| && !Done(plan.calls[i]) ==>
          exists s :: plan.active <= s < |plan.segments| && i in plan.segments[s].ordinals)
    && (forall i :: 0 <= i < |plan.calls| && plan.calls[i].status.Submitted? ==>
          plan.active < |plan.segments| && i in plan.segments[plan.active].ordinals)
    && (forall i, j :: 0 <= i < j < |plan.calls| && plan.calls[i].status.Submitted? && plan.calls[j].status.Submitted? ==>
          && SchedulingOf(plan.calls[i].tool).ParallelSafe? && SchedulingOf(plan.calls[j].tool).ParallelSafe?
          && NoConflict(plan.calls[i], plan.calls[j]))
  }

  lemma InvIsSafe(plan: Plan, shells: Shells, next: OpId)
    requires PlanInv(plan, shells, next)
    ensures SafelyScheduled(plan)
  {
    forall i | 0 <= i < |plan.calls| && !Done(plan.calls[i])
      ensures exists s :: plan.active <= s < |plan.segments| && i in plan.segments[s].ordinals
      ensures plan.calls[i].status.Submitted? ==>
                plan.active < |plan.segments| && i in plan.segments[plan.active].ordinals
    {
      assert Homed(plan, i);
      var s :| plan.active <= s < |plan.segments| && i in plan.segments[s].ordinals
               && (s == plan.active || plan.calls[i].status.Pending?);
    }
    forall i, j | 0 <= i < j < |plan.calls| && plan.calls[i].status.Submitted? && plan.calls[j].status.Submitted?
      ensures SchedulingOf(plan.calls[i].tool).ParallelSafe? && SchedulingOf(plan.calls[j].tool).ParallelSafe?
    {
      ExclusiveRunsAlone(plan, shells, next, i, j);
    }
  }

  /** In every state of every plan calls are safely scheduled, and the plan is complete or some call
      is out. */
  lemma SchedulingIsSafe(calls: seq<Call>, shells: Shells, next: OpId, completions: seq<Completion>)
    requires Parsed(calls) && ShellsOk(shells)
    ensures BeginInv(calls, shells, next)
    ensures var played := Play(Begin(calls, shells, next), completions);
            played.Some? ==>
              SafelyScheduled(played.value.plan) && (IsComplete(played.value.plan) || SomeSubmitted(played.value.plan))
  {
    PlayedWork(calls, shells, next, completions);
    var played := Play(Begin(calls, shells, next), completions);
    if played.Some? { InvIsSafe(played.value.plan, played.value.shells, played.value.next); }
  }

  lemma ExclusiveRunsAlone(plan: Plan, shells: Shells, next: OpId, i: nat, j: nat)
    requires PlanInv(plan, shells, next) && i < |plan.calls| && j < |plan.calls| && i != j
    requires plan.active < |plan.segments|
    requires i in plan.segments[plan.active].ordinals && j in plan.segments[plan.active].ordinals
    ensures SchedulingOf(plan.calls[i].tool).ParallelSafe? && SchedulingOf(plan.calls[j].tool).ParallelSafe?
  {
    var segment := plan.segments[plan.active];
    assert SegmentOk(plan.calls, segment);
    var k :| 0 <= k < |segment.ordinals| && segment.ordinals[k] == i;
    var l :| 0 <= l < |segment.ordinals| && segment.ordinals[l] == j;
  }

  /** A plan takes at most 16 completions for each shell call, three for each patch and one for each
      image, and when it is complete it has one result for each call in the order of the calls. */
  lemma PlansTerminate(calls: seq<Call>, shells: Shells, next: OpId, completions: seq<Completion>)
    requires Parsed(calls) && ShellsOk(shells)
    ensures BeginInv(calls, shells, next)
    ensures var played := Play(Begin(calls, shells, next), completions);
            played.Some? ==>
              && |completions| <= Work(calls)
              && (|completions| == Work(calls) ==> IsComplete(played.value.plan))
              && (IsComplete(played.value.plan) <==> OrderedResults(played.value.plan).Some?)
              && (IsComplete(played.value.plan) ==>
                    var results := OrderedResults(played.value.plan).value;
                    |results| == |calls| && forall i :: 0 <= i < |calls| ==> results[i].0 == calls[i].id)
  {
    PlayedWork(calls, shells, next, completions);
    var played := Play(Begin(calls, shells, next), completions);
    if played.Some? && |completions| == Work(calls) {
      NoWorkIsComplete(played.value.plan.calls, played.value.shells, played.value.next);
    }
  }

  lemma {:induction false} NoWorkIsComplete(calls: seq<Call>, shells: Shells, next: OpId)
    requires Work(calls) == 0 && forall i :: 0 <= i < |calls| ==> CallOk(calls[i], shells, next)
    ensures forall i :: 0 <= i < |calls| ==> Done(calls[i])
  {
    if calls != [] {
      assert CallOk(calls[|calls| - 1], shells, next);
      NoWorkIsComplete(calls[..|calls| - 1], shells, next);
    }
  }
}
