/** What a committed outcome is in the tables: every operation and wait it staged is there, as it was
    staged, and in every run the tables hold exactly what the commits put there. */
module CommitLaws {
  import opened Prelude
  import opened StoreModel
  import opened StoreRuns
  import opened Settlement
  import opened Sequential

  // ---------------------------------------------------------------- one commit

  /** A row as a new operation starts: due, unclaimed, never submitted, with its request stored. */
  predicate NewRow(row: OpRow, request: Request, source: Uuid, now: Time) {
    && row.status.Pending? && row.hash == request && row.request == Some(request) && row.source == source
    && row.job.None? && row.result.None? && row.lease.None? && row.nextAttempt <= now && row.requestExpires.None?
  }

  predicate Staged(ops: seq<NewOp>, id: Uuid) { exists i :: 0 <= i < |ops| && ops[i].id == id }

  predicate StagedWait(waits: seq<NewWait>, id: Uuid) { exists i :: 0 <= i < |waits| && waits[i].id == id }

  /** The old rows as they were, and one new row for each staged operation. */
  ghost predicate OpsStored(before: map<Uuid, OpRow>, after: map<Uuid, OpRow>, ops: seq<NewOp>, source: Uuid, now: Time) {
    && (forall id :: id in after <==> id in before || Staged(ops, id))
    && (forall id :: id in before ==> !Staged(ops, id) && after[id] == before[id])
    && (forall i :: 0 <= i < |ops| ==> ops[i].id in after && NewRow(after[ops[i].id], ops[i].request, source, now))
  }

  ghost predicate WaitsStored(before: map<Uuid, WaitRow>, after: map<Uuid, WaitRow>, waits: seq<NewWait>) {
    && (forall id :: id in after <==> id in before || StagedWait(waits, id))
    && (forall id :: id in before ==> !StagedWait(waits, id) && after[id] == before[id])
    && (forall i :: 0 <= i < |waits| ==>
          waits[i].id in after
          && after[waits[i].id] == WaitRow(waits[i].mode, waits[i].expires, WaitPending, None, None, None))
  }

  /** Exactly the listed waits that were pending are finished, by their deadline or by the handler. */
  ghost predicate WaitsCancelled(before: map<Uuid, WaitRow>, after: map<Uuid, WaitRow>, ids: seq<Uuid>, now: Time) {
    && after.Keys == before.Keys
    && forall id :: id in before ==>
         after[id] == if id in ids && before[id].status.WaitPending?
                      then before[id].(status := if !before[id].mode.ExternalOnly? && before[id].expires.Some?
                                                    && before[id].expires.value <= now then Expired else WaitCancelled,
                                       finished := Some(now))
                      else before[id]
  }

  lemma {:induction false} InsertedOps(before: map<Uuid, OpRow>, source: Uuid, now: Time, ops: seq<NewOp>)
    requires InsertOps(before, source, now, ops).Some?
    ensures OpsStored(before, InsertOps(before, source, now, ops).value, ops, source, now)
  {
    if ops != [] {
      var init, last := ops[..|ops| - 1], ops[|ops| - 1];
      InsertedOps(before, source, now, init);
      var mid := InsertOps(before, source, now, init).value;
      assert forall id :: Staged(ops, id) <==> Staged(init, id) || id == last.id by { StagedNext(ops); }
      forall i | 0 <= i < |ops| ensures i < |init| ==> ops[i].id in mid && ops[i].id != last.id {
        if i < |init| { assert init[i] == ops[i]; }
      }
    }
  }

  lemma NewRowsArePending(before: map<Uuid, OpRow>, after: map<Uuid, OpRow>, ops: seq<NewOp>, source: Uuid, now: Time)
    requires OpsStored(before, after, ops, source, now)
    ensures forall id :: id in after && id !in before ==> after[id].status.Pending?
  {
    forall id | id in after && id !in before ensures after[id].status.Pending? {
      var i :| 0 <= i < |ops| && ops[i].id == id;
      assert NewRow(after[ops[i].id], ops[i].request, source, now);
    }
  }

  lemma StagedNext(ops: seq<NewOp>)
    requires ops != []
    ensures forall id :: Staged(ops, id) <==> Staged(ops[..|ops| - 1], id) || id == ops[|ops| - 1].id
  {
    var init := ops[..|ops| - 1];
    forall id | Staged(init, id) ensures Staged(ops, id) {
      var i :| 0 <= i < |init| && init[i].id == id;
      assert ops[i].id == id;
    }
    forall id | Staged(ops, id) && id != ops[|ops| - 1].id ensures Staged(init, id) {
      var i :| 0 <= i < |ops| && ops[i].id == id;
      assert init[i].id == id;
    }
  }

  lemma {:induction false} InsertedWaits(before: map<Uuid, WaitRow>, waits: seq<NewWait>)
    requires InsertWaits(before, waits).Some?
    ensures WaitsStored(before, InsertWaits(before, waits).value, waits)
  {
    if waits != [] {
      var init, last := waits[..|waits| - 1], waits[|waits| - 1];
      InsertedWaits(before, init);
      var mid := InsertWaits(before, init).value;
      assert forall id :: StagedWait(waits, id) <==> StagedWait(init, id) || id == last.id by { StagedWaitNext(waits); }
      forall i | 0 <= i < |waits| ensures i < |init| ==> waits[i].id in mid && waits[i].id != last.id {
        if i < |init| { assert init[i] == waits[i]; }
      }
    }
  }

  lemma StagedWaitNext(waits: seq<NewWait>)
    requires waits != []
    ensures forall id :: StagedWait(waits, id) <==> StagedWait(waits[..|waits| - 1], id) || id == waits[|waits| - 1].id
  {
    var init := waits[..|waits| - 1];
    forall id | StagedWait(init, id) ensures StagedWait(waits, id) {
      var i :| 0 <= i < |init| && init[i].id == id;
      assert waits[i].id == id;
    }
    forall id | StagedWait(waits, id) && id != waits[|waits| - 1].id ensures StagedWait(init, id) {
      var i :| 0 <= i < |waits| && waits[i].id == id;
      assert init[i].id == id;
    }
  }

  lemma {:induction false} CancelledWaits(db: Db, now: Time, ids: seq<Uuid>)
    requires CancelWaits(db, now, ids).Ok?
    ensures WaitsCancelled(db.waits, CancelWaits(db, now, ids).value.waits, ids, now)
    ensures forall i :: 0 <= i < |ids| ==> ids[i] in db.waits
    ensures var after := CancelWaits(db, now, ids).value; after.operations == db.operations && after.session.status == db.session.status
  {
    if ids != [] {
      var init := ids[..|ids| - 1];
      CancelledWaits(db, now, init);
      assert forall id :: id in ids <==> id in init || id == ids[|ids| - 1];
    }
  }

  /** A commit that succeeds stores its whole outcome. */
  ghost predicate OutcomeStored(before: Db, after: Db, now: Time, claim: ClaimedEvent, outcome: Outcome) {
    && OpsStored(before.operations, after.operations, outcome.operations, claim.event.id, now)
    && (exists inserted: map<Uuid, WaitRow> ::
          WaitsStored(before.waits, inserted, outcome.waits)
          && WaitsCancelled(inserted, after.waits, outcome.cancelledWaits, now))
    && after.session.state == outcome.state && after.session.stateVersion == before.session.stateVersion + 1
    && after.session.status == (if outcome.status.Some? then outcome.status.value else before.session.status)
    && after.session.lease.None? && after.session.current.None?
  }

  /** The waits once the new ones are in and before the listed ones are cancelled. */
  lemma CommitRows(db: Db, now: Time, claim: ClaimedEvent, outcome: Outcome)
    requires CommitOutcome(db, now, claim, outcome).1.Ok?
    ensures var after := CommitOutcome(db, now, claim, outcome).0;
            var operations := InsertOps(db.operations, claim.event.id, now, outcome.operations);
            var waits := InsertWaits(db.waits, outcome.waits);
            && operations.Some? && waits.Some?
            && var resumed := CancelWaits(db.(operations := operations.value, waits := waits.value), now, outcome.cancelledWaits);
               resumed.Ok? && after == Acknowledged(resumed.value, claim, outcome)
  {
  }

  lemma CommitStoresTheOutcome(db: Db, now: Time, claim: ClaimedEvent, outcome: Outcome)
    requires CommitOutcome(db, now, claim, outcome).1.Ok?
    ensures OutcomeStored(db, CommitOutcome(db, now, claim, outcome).0, now, claim, outcome)
  {
    CommitRows(db, now, claim, outcome);
    var operations := InsertOps(db.operations, claim.event.id, now, outcome.operations).value;
    var waits := InsertWaits(db.waits, outcome.waits).value;
    InsertedOps(db.operations, claim.event.id, now, outcome.operations);
    InsertedWaits(db.waits, outcome.waits);
    var staged := db.(operations := operations, waits := waits);
    CancelledWaits(staged, now, outcome.cancelledWaits);
    SessionAfterStaging(staged, now, outcome.cancelledWaits);
    AcknowledgedKeepsRows(db, CancelWaits(staged, now, outcome.cancelledWaits).value, now, claim, outcome, waits);
  }

  lemma SessionAfterStaging(db: Db, now: Time, ids: seq<Uuid>)
    requires CancelWaits(db, now, ids).Ok?
    ensures CancelWaits(db, now, ids).value.session == db.session.(nextEvent := CancelWaits(db, now, ids).value.session.nextEvent)
  {
    CancelWaitsExtends(db, now, ids);
  }

  lemma AcknowledgedKeepsRows(db: Db, resumed: Db, now: Time, claim: ClaimedEvent, outcome: Outcome, inserted: map<Uuid, WaitRow>)
    requires OpsStored(db.operations, resumed.operations, outcome.operations, claim.event.id, now)
    requires WaitsStored(db.waits, inserted, outcome.waits)
    requires WaitsCancelled(inserted, resumed.waits, outcome.cancelledWaits, now)
    requires resumed.session == db.session.(nextEvent := resumed.session.nextEvent)
    ensures OutcomeStored(db, Acknowledged(resumed, claim, outcome), now, claim, outcome)
  {
  }

  /** A commit of a live claim fails exactly for an outcome the tables cannot take: a repeated id, a
      reference to no operation, a deadline that does not fit the mode, a cancelled wait that does not
      exist, or progress that is too large. */
  ghost predicate Acceptable(db: Db, outcome: Outcome) {
    && (forall i :: 0 <= i < |outcome.operations| ==>
          var op := outcome.operations[i];
          && op.id !in db.operations && !Staged(outcome.operations[..i], op.id)
          && (Reference(op.request).Some? ==>
                var target := Reference(op.request).value;
                target in db.operations || Staged(outcome.operations[..i], target)))
    && (forall i :: 0 <= i < |outcome.waits| ==>
          var wait := outcome.waits[i];
          && wait.id !in db.waits && !StagedWait(outcome.waits[..i], wait.id)
          && (wait.mode.ExternalOnly? <==> wait.expires.None?))
    && (forall i :: 0 <= i < |outcome.cancelledWaits| ==>
          outcome.cancelledWaits[i] in db.waits || StagedWait(outcome.waits, outcome.cancelledWaits[i]))
    && |outcome.progress| <= 20 && (forall i :: 0 <= i < |outcome.progress| ==> |outcome.progress[i]| <= 2048)
  }

  ghost predicate OpsAcceptable(before: map<Uuid, OpRow>, ops: seq<NewOp>) {
    forall i :: 0 <= i < |ops| ==>
      && ops[i].id !in before && !Staged(ops[..i], ops[i].id)
      && (Reference(ops[i].request).Some? ==>
            Reference(ops[i].request).value in before || Staged(ops[..i], Reference(ops[i].request).value))
  }

  ghost predicate OneOpAcceptable(before: map<Uuid, OpRow>, init: seq<NewOp>, op: NewOp) {
    && op.id !in before && !Staged(init, op.id)
    && (Reference(op.request).Some? ==> Reference(op.request).value in before || Staged(init, Reference(op.request).value))
  }

  lemma OpsAcceptableNext(before: map<Uuid, OpRow>, ops: seq<NewOp>)
    requires ops != []
    ensures OpsAcceptable(before, ops) <==>
              OpsAcceptable(before, ops[..|ops| - 1]) && OneOpAcceptable(before, ops[..|ops| - 1], ops[|ops| - 1])
  {
    var init := ops[..|ops| - 1];
    assert forall i :: 0 <= i < |init| ==> init[..i] == ops[..i] && init[i] == ops[i];
  }

  lemma {:induction false} InsertedIffAcceptable(before: map<Uuid, OpRow>, source: Uuid, now: Time, ops: seq<NewOp>)
    ensures InsertOps(before, source, now, ops).Some? <==> OpsAcceptable(before, ops)
  {
    if ops != [] {
      var init := ops[..|ops| - 1];
      InsertedIffAcceptable(before, source, now, init);
      OpsAcceptableNext(before, ops);
      if InsertOps(before, source, now, init).Some? { InsertedOps(before, source, now, init); }
    }
  }

  ghost predicate WaitsAcceptable(before: map<Uuid, WaitRow>, waits: seq<NewWait>) {
    forall i :: 0 <= i < |waits| ==>
      && waits[i].id !in before && !StagedWait(waits[..i], waits[i].id)
      && (waits[i].mode.ExternalOnly? <==> waits[i].expires.None?)
  }

  lemma WaitsAcceptableNext(before: map<Uuid, WaitRow>, waits: seq<NewWait>)
    requires waits != []
    ensures var init, last := waits[..|waits| - 1], waits[|waits| - 1];
            WaitsAcceptable(before, waits) <==>
              WaitsAcceptable(before, init) && last.id !in before && !StagedWait(init, last.id)
              && (last.mode.ExternalOnly? <==> last.expires.None?)
  {
    var init := waits[..|waits| - 1];
    assert forall i :: 0 <= i < |init| ==> init[..i] == waits[..i] && init[i] == waits[i];
  }

  lemma {:induction false} WaitsInsertedIffAcceptable(before: map<Uuid, WaitRow>, waits: seq<NewWait>)
    ensures InsertWaits(before, waits).Some? <==> WaitsAcceptable(before, waits)
  {
    if waits != [] {
      var init := waits[..|waits| - 1];
      WaitsInsertedIffAcceptable(before, init);
      WaitsAcceptableNext(before, waits);
      if InsertWaits(before, init).Some? { InsertedWaits(before, init); }
    }
  }

  lemma {:induction false} CancelledIffKnown(db: Db, now: Time, ids: seq<Uuid>)
    ensures CancelWaits(db, now, ids).Ok? <==> forall i :: 0 <= i < |ids| ==> ids[i] in db.waits
  {
    if ids != [] {
      var init := ids[..|ids| - 1];
      CancelledIffKnown(db, now, init);
      if CancelWaits(db, now, init).Ok? { CancelledWaits(db, now, init); }
    }
  }

  lemma AcceptableParts(db: Db, outcome: Outcome)
    ensures Acceptable(db, outcome) <==>
              && OpsAcceptable(db.operations, outcome.operations) && WaitsAcceptable(db.waits, outcome.waits)
              && (forall i :: 0 <= i < |outcome.cancelledWaits| ==>
                    outcome.cancelledWaits[i] in db.waits || StagedWait(outcome.waits, outcome.cancelledWaits[i]))
              && !ProgressTooLarge(outcome.progress)
  {
  }

  /** In every run the holder's commit is accepted exactly if the tables can take its outcome. */
  lemma HolderCommitsIffAcceptable(init: Json, steps: seq<Step>, claim: ClaimedEvent, outcome: Outcome)
    requires claim in Run(Start(init), steps).claims
    requires var w := Run(Start(init), steps); ClaimHeld(w.db, w.now, claim)
    ensures var w := Run(Start(init), steps);
            CommitOutcome(w.db, w.now, claim, outcome).1.Ok? <==> Acceptable(w.db, outcome)
  {
    var w := Run(Start(init), steps);
    RunKeepsHandlerInv(init, steps);
    HolderOwnsTheHead(w, init, claim);
    AcceptableParts(w.db, outcome);
    InsertedIffAcceptable(w.db.operations, claim.event.id, w.now, outcome.operations);
    WaitsInsertedIffAcceptable(w.db.waits, outcome.waits);
    if OpsAcceptable(w.db.operations, outcome.operations) && WaitsAcceptable(w.db.waits, outcome.waits) {
      InsertedWaits(w.db.waits, outcome.waits);
      CancelledIffKnown(w.db.(operations := InsertOps(w.db.operations, claim.event.id, w.now, outcome.operations).value,
                              waits := InsertWaits(w.db.waits, outcome.waits).value), w.now, outcome.cancelledWaits);
    }
  }

  // ---------------------------------------------------------------- every run

  /** Some commit of the log staged the operation with this request for this event. */
  predicate Origin(commits: seq<Commit>, id: Uuid, request: Request, source: Uuid) {
    exists k, i :: 0 <= k < |commits| && 0 <= i < |commits[k].outcome.operations|
                   && commits[k].outcome.operations[i] == NewOp(id, request) && commits[k].claim.event.id == source
  }

  predicate WaitOrigin(commits: seq<Commit>, id: Uuid, mode: WaitMode, expires: Option<Time>) {
    exists k, i :: 0 <= k < |commits| && 0 <= i < |commits[k].outcome.waits|
                   && commits[k].outcome.waits[i] == NewWait(id, mode, expires)
  }

  function StatusAfter(commits: seq<Commit>): SessionStatus {
    if commits == [] then Idle
    else
      var last := commits[|commits| - 1].outcome.status;
      if last.Some? then last.value else StatusAfter(commits[..|commits| - 1])
  }

  predicate HasOp(operations: map<Uuid, OpRow>, id: Uuid, request: Request, source: Uuid) {
    id in operations && operations[id].hash == request && operations[id].source == source
  }

  predicate HasWait(waits: map<Uuid, WaitRow>, id: Uuid, mode: WaitMode, expires: Option<Time>) {
    id in waits && waits[id].mode == mode && waits[id].expires == expires
  }

  /** The tables of operations and waits are what the log of commits put there. */
  ghost predicate Logged(w: World) {
    && (forall id, request, source :: Origin(w.commits, id, request, source) <==> HasOp(w.db.operations, id, request, source))
    && (forall id, mode, expires :: WaitOrigin(w.commits, id, mode, expires) <==> HasWait(w.db.waits, id, mode, expires))
    && w.db.session.status == StatusAfter(w.commits)
  }

  /** Nothing but a commit adds a row or sets the session's status. */
  ghost predicate RowsKept(a: Db, b: Db) {
    && a.operations.Keys == b.operations.Keys && a.waits.Keys == b.waits.Keys && a.session.status == b.session.status
    && (forall id :: id in a.operations ==>
          b.operations[id].hash == a.operations[id].hash && b.operations[id].source == a.operations[id].source)
    && (forall id :: id in a.waits ==>
          b.waits[id].mode == a.waits[id].mode && b.waits[id].expires == a.waits[id].expires)
  }

  lemma OtherHandlerStepsKeepRows(w: World, step: Step)
    requires HandlerStep(step) && !step.CommitAttempt?
    ensures RowsKept(w.db, Apply(w, step).db)
  {
  }

  lemma OpStepsKeepRows(w: World, step: Step)
    requires step.ClaimOp? || step.DeferOp? || step.AcceptOp? || step.RenewOp? || step.RetryOp? || step.StillPending?
             || step.DeleteRequest?
    ensures RowsKept(w.db, Apply(w, step).db)
  {
  }

  lemma SettlingStepsKeepRows(w: World, step: Step)
    requires step.FinishWithdrawal? || step.CompleteOp?
    ensures RowsKept(w.db, Apply(w, step).db)
  {
  }

  lemma WaitStepsKeepRows(w: World, step: Step)
    requires step.Resolve? || step.Expire? || step.Enqueue? || step.Tick?
    ensures RowsKept(w.db, Apply(w, step).db)
  {
  }

  lemma OtherStepsKeepRows(w: World, step: Step)
    requires !step.CommitAttempt?
    ensures RowsKept(w.db, Apply(w, step).db) && Apply(w, step).commits == w.commits
  {
    if HandlerStep(step) {
      OtherHandlerStepsKeepRows(w, step);
    } else {
      ProducersExtendTheInbox(w, step);
      match step
      case FinishWithdrawal(_, _) => SettlingStepsKeepRows(w, step);
      case CompleteOp(_, _, _, _) => SettlingStepsKeepRows(w, step);
      case Resolve(_, _, _) => WaitStepsKeepRows(w, step);
      case Expire(_) => WaitStepsKeepRows(w, step);
      case Enqueue(_, _) => WaitStepsKeepRows(w, step);
      case Tick(_) => WaitStepsKeepRows(w, step);
      case _ => OpStepsKeepRows(w, step);
    }
  }

  lemma OriginNext(commits: seq<Commit>, last: Commit)
    ensures forall id, request, source :: Origin(commits + [last], id, request, source) <==>
              Origin(commits, id, request, source)
              || (NewOp(id, request) in last.outcome.operations && last.claim.event.id == source)
  {
    var all := commits + [last];
    forall id, request, source | Origin(commits, id, request, source) ensures Origin(all, id, request, source) {
      var k, i :| 0 <= k < |commits| && 0 <= i < |commits[k].outcome.operations|
                  && commits[k].outcome.operations[i] == NewOp(id, request) && commits[k].claim.event.id == source;
      assert all[k] == commits[k];
    }
    forall id, request, source | NewOp(id, request) in last.outcome.operations && last.claim.event.id == source
      ensures Origin(all, id, request, source)
    {
      var i :| 0 <= i < |last.outcome.operations| && last.outcome.operations[i] == NewOp(id, request);
      assert all[|commits|] == last;
    }
    forall id, request, source | Origin(all, id, request, source)
      ensures Origin(commits, id, request, source)
              || (NewOp(id, request) in last.outcome.operations && last.claim.event.id == source)
    {
      var k, i :| 0 <= k < |all| && 0 <= i < |all[k].outcome.operations|
                  && all[k].outcome.operations[i] == NewOp(id, request) && all[k].claim.event.id == source;
      if k < |commits| { assert all[k] == commits[k]; }
    }
  }

  lemma WaitOriginNext(commits: seq<Commit>, last: Commit)
    ensures forall id, mode, expires :: WaitOrigin(commits + [last], id, mode, expires) <==>
              WaitOrigin(commits, id, mode, expires) || NewWait(id, mode, expires) in last.outcome.waits
  {
    var all := commits + [last];
    forall id, mode, expires | WaitOrigin(commits, id, mode, expires) ensures WaitOrigin(all, id, mode, expires) {
      var k, i :| 0 <= k < |commits| && 0 <= i < |commits[k].outcome.waits|
                  && commits[k].outcome.waits[i] == NewWait(id, mode, expires);
      assert all[k] == commits[k];
    }
    forall id, mode, expires | NewWait(id, mode, expires) in last.outcome.waits ensures WaitOrigin(all, id, mode, expires) {
      var i :| 0 <= i < |last.outcome.waits| && last.outcome.waits[i] == NewWait(id, mode, expires);
      assert all[|commits|] == last;
    }
    forall id, mode, expires | WaitOrigin(all, id, mode, expires)
      ensures WaitOrigin(commits, id, mode, expires) || NewWait(id, mode, expires) in last.outcome.waits
    {
      var k, i :| 0 <= k < |all| && 0 <= i < |all[k].outcome.waits|
                  && all[k].outcome.waits[i] == NewWait(id, mode, expires);
      if k < |commits| { assert all[k] == commits[k]; }
    }
  }

  lemma StoredOpsAreStaged(before: map<Uuid, OpRow>, after: map<Uuid, OpRow>, ops: seq<NewOp>, source: Uuid, now: Time)
    requires OpsStored(before, after, ops, source, now)
    ensures forall id, request, s :: HasOp(after, id, request, s) <==>
              HasOp(before, id, request, s) || (NewOp(id, request) in ops && s == source)
  {
    forall id, request, s | HasOp(after, id, request, s) && id !in before ensures NewOp(id, request) in ops && s == source {
      var i :| 0 <= i < |ops| && ops[i].id == id;
      assert NewRow(after[ops[i].id], ops[i].request, source, now);
      assert ops[i] == NewOp(id, request);
    }
    forall id, request | NewOp(id, request) in ops ensures HasOp(after, id, request, source) {
      var i :| 0 <= i < |ops| && ops[i] == NewOp(id, request);
      assert NewRow(after[ops[i].id], ops[i].request, source, now);
    }
  }

  lemma StoredWaitsAreStaged(before: map<Uuid, WaitRow>, inserted: map<Uuid, WaitRow>, after: map<Uuid, WaitRow>,
                             waits: seq<NewWait>, ids: seq<Uuid>, now: Time)
    requires WaitsStored(before, inserted, waits) && WaitsCancelled(inserted, after, ids, now)
    ensures forall id, mode, expires :: HasWait(after, id, mode, expires) <==>
              HasWait(before, id, mode, expires) || NewWait(id, mode, expires) in waits
  {
    forall id, mode, expires | HasWait(after, id, mode, expires) && id !in before
      ensures NewWait(id, mode, expires) in waits
    {
      assert id in inserted;
      var i :| 0 <= i < |waits| && waits[i].id == id;
      assert waits[i] == NewWait(id, mode, expires);
    }
    forall id, mode, expires | NewWait(id, mode, expires) in waits ensures HasWait(after, id, mode, expires) {
      var i :| 0 <= i < |waits| && waits[i] == NewWait(id, mode, expires);
      assert waits[i].id in inserted;
    }
  }

  lemma CommitKeepsLogged(w: World, claim: ClaimedEvent, outcome: Outcome)
    requires Logged(w) && claim in w.claims && CommitOutcome(w.db, w.now, claim, outcome).1.Ok?
    ensures Logged(Apply(w, CommitAttempt(claim, outcome)))
  {
    var w' := Apply(w, CommitAttempt(claim, outcome));
    CommitStoresTheOutcome(w.db, w.now, claim, outcome);
    var inserted: map<Uuid, WaitRow> :|
      WaitsStored(w.db.waits, inserted, outcome.waits) && WaitsCancelled(inserted, w'.db.waits, outcome.cancelledWaits, w.now);
    StoredOpsAreStaged(w.db.operations, w'.db.operations, outcome.operations, claim.event.id, w.now);
    StoredWaitsAreStaged(w.db.waits, inserted, w'.db.waits, outcome.waits, outcome.cancelledWaits, w.now);
    OriginNext(w.commits, Commit(claim, outcome));
    WaitOriginNext(w.commits, Commit(claim, outcome));
    assert w'.commits[..|w.commits|] == w.commits;
  }

  lemma RowsKeptKeepsLogged(w: World, w': World)
    requires Logged(w) && RowsKept(w.db, w'.db) && w'.commits == w.commits
    ensures Logged(w')
  {
    assert forall id :: id in w.db.operations <==> id in w'.db.operations by { assert w.db.operations.Keys == w'.db.operations.Keys; }
    assert forall id :: id in w.db.waits <==> id in w'.db.waits by { assert w.db.waits.Keys == w'.db.waits.Keys; }
  }

  lemma StepKeepsLogged(w: World, step: Step)
    requires Logged(w)
    ensures Logged(Apply(w, step))
  {
    if !step.CommitAttempt? {
      OtherStepsKeepRows(w, step);
      RowsKeptKeepsLogged(w, Apply(w, step));
    } else if Enabled(w, step) && CommitOutcome(w.db, w.now, step.claim, step.outcome).1.Ok? {
      CommitKeepsLogged(w, step.claim, step.outcome);
    } else {
      assert Apply(w, step) == w;
    }
  }

  /** In every run an operation is stored, with this request and for this event, exactly if an outcome
      committed for the event staged it; likewise waits; and the session has the status that the last
      commit which asked for one asked for. */
  lemma {:induction false} TablesHoldWhatWasCommitted(init: Json, steps: seq<Step>)
    ensures Logged(Run(Start(init), steps))
  {
    if steps != [] {
      TablesHoldWhatWasCommitted(init, steps[..|steps| - 1]);
      StepKeepsLogged(Run(Start(init), steps[..|steps| - 1]), steps[|steps| - 1]);
    }
  }
}
