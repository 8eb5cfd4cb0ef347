/** What the tables of operations and waits promise in every run: one completion event per settled
    operation, one resumption event per finished wait, and rows that never go back. */
module Settlement {
  import opened Prelude
  import opened StoreModel
  import opened StoreRuns

  // ---------------------------------------------------------------- counting announcements

  function Bodies(events: seq<EventRow>): seq<EventBody> {
    seq(|events|, i requires 0 <= i < |events| => events[i].body)
  }

  function Completions(log: seq<EventBody>, op: Uuid): nat {
    if log == [] then 0
    else
      var last := log[|log| - 1];
      Completions(log[..|log| - 1], op) + if last.OperationCompleted? && last.operation == op then 1 else 0
  }

  function Resumptions(log: seq<EventBody>, wait: Uuid): nat {
    if log == [] then 0
    else
      var last := log[|log| - 1];
      Resumptions(log[..|log| - 1], wait) + if last.WaitResumed? && last.wait == wait then 1 else 0
  }

  lemma {:induction false} CountedWhenPresent(log: seq<EventBody>, i: nat)
    requires i < |log|
    ensures log[i].OperationCompleted? ==> Completions(log, log[i].operation) > 0
    ensures log[i].WaitResumed? ==> Resumptions(log, log[i].wait) > 0
  {
    if i < |log| - 1 { CountedWhenPresent(log[..|log| - 1], i); }
  }

  lemma OneMore(log: seq<EventBody>, body: EventBody)
    ensures forall id :: Completions(log + [body], id)
              == Completions(log, id) + if body.OperationCompleted? && body.operation == id then 1 else 0
    ensures forall id :: Resumptions(log + [body], id)
              == Resumptions(log, id) + if body.WaitResumed? && body.wait == id then 1 else 0
  {
    assert (log + [body])[..|log|] == log;
  }

  // ---------------------------------------------------------------- invariants of the tables

  predicate RowInv(row: OpRow) {
    && (row.lease.Some? ==> row.status.Submitting? || row.status.Accepted?)
    && (!Terminal(row.status) ==> row.request == Some(row.hash))
    && (row.request.Some? ==> row.request == Some(row.hash))
    && (row.status.Pending? || row.status.Submitting? ==> row.job.None?)
    && (row.status.Accepted? ==> row.job.Some?)
    && (row.job.Some? ==> Kind(row.hash).Llm? || Kind(row.hash).Execution?)
  }

  predicate WaitInv(wait: WaitRow) {
    && (wait.mode.ExternalOnly? <==> wait.expires.None?)
    && (wait.status.WaitPending? <==> wait.finished.None?)
    && (wait.status.Resolved? ==> wait.response.Some? && wait.key.Some? && !wait.mode.ExpirationOnly?)
    && (wait.status.Resolved? || wait.status.WaitCancelled? ==>
          wait.expires.Some? ==> wait.finished.value < wait.expires.value)
    && (wait.status.Expired? ==> wait.expires.Some? && wait.expires.value <= wait.finished.value)
  }

  /** Each settled operation is announced once, truthfully, and no other operation is. */
  ghost predicate OpsAnnounced(log: seq<EventBody>, operations: map<Uuid, OpRow>) {
    && (forall id :: Completions(log, id) == if id in operations && Terminal(operations[id].status) then 1 else 0)
    && (forall i :: 0 <= i < |log| && log[i].OperationCompleted? ==>
          && log[i].operation in operations
          && log[i].outcome == operations[log[i].operation].status
          && log[i].kind == Kind(operations[log[i].operation].hash))
  }

  /** Each finished wait is announced once, with the reason it finished, and no other wait is. */
  ghost predicate WaitsAnnounced(log: seq<EventBody>, waits: map<Uuid, WaitRow>) {
    && (forall id :: Resumptions(log, id) == if id in waits && !waits[id].status.WaitPending? then 1 else 0)
    && (forall i :: 0 <= i < |log| && log[i].WaitResumed? ==>
          log[i].wait in waits && log[i].reason == waits[log[i].wait].status)
  }

  ghost predicate Announced(db: Db) {
    OpsAnnounced(Bodies(db.events), db.operations) && WaitsAnnounced(Bodies(db.events), db.waits)
  }

  lemma UnsettledIsUnannounced(log: seq<EventBody>, operations: map<Uuid, OpRow>, id: Uuid)
    requires OpsAnnounced(log, operations) && !(id in operations && Terminal(operations[id].status))
    ensures forall i :: 0 <= i < |log| && log[i].OperationCompleted? ==> log[i].operation != id
  {
    forall i | 0 <= i < |log| && log[i].OperationCompleted? ensures log[i].operation != id {
      CountedWhenPresent(log, i);
    }
  }

  lemma PendingIsUnannounced(log: seq<EventBody>, waits: map<Uuid, WaitRow>, id: Uuid)
    requires WaitsAnnounced(log, waits) && !(id in waits && !waits[id].status.WaitPending?)
    ensures forall i :: 0 <= i < |log| && log[i].WaitResumed? ==> log[i].wait != id
  {
    forall i | 0 <= i < |log| && log[i].WaitResumed? ensures log[i].wait != id {
      CountedWhenPresent(log, i);
    }
  }

  lemma ChangeUnsettled(log: seq<EventBody>, operations: map<Uuid, OpRow>, id: Uuid, row: OpRow)
    requires OpsAnnounced(log, operations) && !Terminal(row.status)
    requires !(id in operations && Terminal(operations[id].status))
    ensures OpsAnnounced(log, operations[id := row])
  {
    UnsettledIsUnannounced(log, operations, id);
  }

  lemma ChangeSettled(log: seq<EventBody>, operations: map<Uuid, OpRow>, id: Uuid, row: OpRow)
    requires OpsAnnounced(log, operations) && id in operations
    requires row.status == operations[id].status && row.hash == operations[id].hash
    ensures OpsAnnounced(log, operations[id := row])
  {
  }

  lemma AnnounceOp(log: seq<EventBody>, operations: map<Uuid, OpRow>, waits: map<Uuid, WaitRow>, id: Uuid, row: OpRow)
    requires OpsAnnounced(log, operations) && WaitsAnnounced(log, waits) && Terminal(row.status)
    requires !(id in operations && Terminal(operations[id].status))
    ensures OpsAnnounced(log + [OperationCompleted(id, Kind(row.hash), row.status)], operations[id := row])
    ensures WaitsAnnounced(log + [OperationCompleted(id, Kind(row.hash), row.status)], waits)
  {
    OneMore(log, OperationCompleted(id, Kind(row.hash), row.status));
    UnsettledIsUnannounced(log, operations, id);
  }

  lemma AnnounceWait(log: seq<EventBody>, operations: map<Uuid, OpRow>, waits: map<Uuid, WaitRow>, id: Uuid, wait: WaitRow)
    requires OpsAnnounced(log, operations) && WaitsAnnounced(log, waits) && !wait.status.WaitPending?
    requires !(id in waits && !waits[id].status.WaitPending?)
    ensures OpsAnnounced(log + [WaitResumed(id, wait.status)], operations)
    ensures WaitsAnnounced(log + [WaitResumed(id, wait.status)], waits[id := wait])
  {
    OneMore(log, WaitResumed(id, wait.status));
    PendingIsUnannounced(log, waits, id);
  }

  ghost predicate TablesInv(db: Db) {
    && Announced(db)
    && (forall id :: id in db.operations ==> RowInv(db.operations[id]))
    && (forall id :: id in db.waits ==> WaitInv(db.waits[id]))
  }

  predicate ClaimFits(db: Db, claim: OpClaim) {
    && claim.id in db.operations && claim.row.hash == db.operations[claim.id].hash
    && match claim.phase
       case Submission => Kind(claim.row.hash).Llm? || Kind(claim.row.hash).Execution?
       case ResultRetrieval => true
       case Cancellation => Kind(claim.row.hash).LlmCancellation?
       case Withdrawal => Kind(claim.row.hash).Withdraw?
  }

  ghost predicate SettlementInv(w: World) {
    TablesInv(w.db) && forall claim :: claim in w.opClaims ==> ClaimFits(w.db, claim)
  }

  // ---------------------------------------------------------------- progress

  /** How a row may change: requests and job ids are set once, settled rows are final. */
  predicate OpProgress(a: OpRow, b: OpRow) {
    && b.hash == a.hash && b.source == a.source
    && (a.job.Some? ==> b.job == a.job)
    && (Terminal(a.status) ==> b.status == a.status && b.result == a.result && b.job == a.job)
    && (a.status.Accepted? ==> b.status.Accepted? || Terminal(b.status))
  }

  predicate WaitProgress(a: WaitRow, b: WaitRow) {
    && b.mode == a.mode && b.expires == a.expires
    && (!a.status.WaitPending? ==> b == a)
  }

  predicate EventProgress(a: EventRow, b: EventRow) {
    b.id == a.id && b.sequence == a.sequence && b.body == a.body
  }

  ghost predicate Progress(a: Db, b: Db) {
    && (forall id :: id in a.operations ==> id in b.operations && OpProgress(a.operations[id], b.operations[id]))
    && (forall id :: id in a.waits ==> id in b.waits && WaitProgress(a.waits[id], b.waits[id]))
    && |a.events| <= |b.events|
    && (forall i :: 0 <= i < |a.events| ==> EventProgress(a.events[i], b.events[i]))
  }

  lemma ProgressTwice(a: Db, b: Db, c: Db)
    requires Progress(a, b) && Progress(b, c)
    ensures Progress(a, c)
  {
    forall id | id in a.operations ensures id in c.operations && OpProgress(a.operations[id], c.operations[id]) {
      assert OpProgress(a.operations[id], b.operations[id]) && OpProgress(b.operations[id], c.operations[id]);
    }
    forall id | id in a.waits ensures id in c.waits && WaitProgress(a.waits[id], c.waits[id]) {
      assert WaitProgress(a.waits[id], b.waits[id]) && WaitProgress(b.waits[id], c.waits[id]);
    }
    forall i | 0 <= i < |a.events| ensures EventProgress(a.events[i], c.events[i]) {
      assert EventProgress(a.events[i], b.events[i]) && EventProgress(b.events[i], c.events[i]);
    }
  }

  /** Both halves of what one transaction does to the tables. */
  ghost predicate Advances(a: Db, b: Db) { TablesInv(b) && Progress(a, b) }

  lemma RowChangeAdvances(db: Db, id: Uuid, row: OpRow)
    requires TablesInv(db) && id in db.operations && RowInv(row) && OpProgress(db.operations[id], row)
    requires Terminal(row.status) == Terminal(db.operations[id].status)
    ensures Advances(db, SetOp(db, id, row))
  {
    if Terminal(row.status) {
      ChangeSettled(Bodies(db.events), db.operations, id, row);
    } else {
      ChangeUnsettled(Bodies(db.events), db.operations, id, row);
    }
  }

  lemma SettleAdvances(db: Db, now: Time, id: Uuid, status: OpStatus, result: Option<Json>, expires: Option<Time>)
    requires TablesInv(db) && id in db.operations && !Terminal(db.operations[id].status) && Terminal(status)
    ensures Advances(db, SettleOp(db, now, id, status, result, expires))
  {
    var row := Settled(db.operations[id], status, result, expires);
    var db' := SettleOp(db, now, id, status, result, expires);
    AnnounceOp(Bodies(db.events), db.operations, db.waits, id, row);
    assert Bodies(db'.events) == Bodies(db.events) + [OperationCompleted(id, Kind(row.hash), row.status)];
  }

  lemma FinishAdvances(db: Db, now: Time, id: Uuid, wait: WaitRow, status: WaitStatus)
    requires TablesInv(db) && id in db.waits && db.waits[id].status.WaitPending? && !status.WaitPending?
    requires wait.mode == db.waits[id].mode && wait.expires == db.waits[id].expires
    requires WaitInv(wait.(status := status, finished := Some(now)))
    ensures Advances(db, FinishWait(db.(waits := db.waits[id := wait]), now, id, status))
  {
    var row := wait.(status := status, finished := Some(now));
    var db' := FinishWait(db.(waits := db.waits[id := wait]), now, id, status);
    AnnounceWait(Bodies(db.events), db.operations, db.waits, id, row);
    assert Bodies(db'.events) == Bodies(db.events) + [WaitResumed(id, status)];
    assert db'.waits == db.waits[id := row];
  }

  lemma {:induction false} InsertOpsAdds(db: Db, source: Uuid, now: Time, ops: seq<NewOp>)
    requires TablesInv(db) && InsertOps(db.operations, source, now, ops).Some?
    ensures Advances(db, db.(operations := InsertOps(db.operations, source, now, ops).value))
  {
    if ops == [] {
      assert db.(operations := db.operations) == db;
    } else {
      var n := |ops| - 1;
      InsertOpsAdds(db, source, now, ops[..n]);
      var mid := db.(operations := InsertOps(db.operations, source, now, ops[..n]).value);
      var row := InsertedOp(source, now, ops[n].request);
      ChangeUnsettled(Bodies(mid.events), mid.operations, ops[n].id, row);
      assert InsertOps(db.operations, source, now, ops).value == mid.operations[ops[n].id := row];
    }
  }

  lemma {:induction false} InsertWaitsAdds(db: Db, staged: seq<NewWait>)
    requires TablesInv(db) && InsertWaits(db.waits, staged).Some?
    ensures Advances(db, db.(waits := InsertWaits(db.waits, staged).value))
  {
    if staged == [] {
      assert db.(waits := db.waits) == db;
    } else {
      var n := |staged| - 1;
      InsertWaitsAdds(db, staged[..n]);
      var mid := db.(waits := InsertWaits(db.waits, staged[..n]).value);
      PendingIsUnannounced(Bodies(mid.events), mid.waits, staged[n].id);
    }
  }

  lemma {:induction false} CancelWaitsAdvances(db: Db, now: Time, ids: seq<Uuid>)
    requires TablesInv(db) && CancelWaits(db, now, ids).Ok?
    ensures Advances(db, CancelWaits(db, now, ids).value)
  {
    if ids != [] {
      var n := |ids| - 1;
      CancelWaitsAdvances(db, now, ids[..n]);
      var mid := CancelWaits(db, now, ids[..n]).value;
      var id := ids[n];
      if mid.waits[id].status.WaitPending? {
        assert mid.(waits := mid.waits[id := mid.waits[id]]) == mid;
        FinishAdvances(mid, now, id, mid.waits[id], if DeadlineReached(mid.waits[id], now) then Expired else WaitCancelled);
        ProgressTwice(db, mid, CancelWaits(db, now, ids).value);
      }
    }
  }

  // ---------------------------------------------------------------- every step

  lemma SameRowsAdvance(a: Db, b: Db)
    requires TablesInv(a) && b.operations == a.operations && b.waits == a.waits
    requires |b.events| == |a.events|
    requires forall i :: 0 <= i < |a.events| ==> EventProgress(a.events[i], b.events[i])
    ensures Advances(a, b)
  {
    assert Bodies(b.events) == Bodies(a.events);
  }

  lemma EnqueueAdvances(db: Db, now: Time, body: EventBody, key: Option<string>)
    requires TablesInv(db)
    ensures Advances(db, EnqueueExternal(db, now, body, key).0)
  {
    if EnqueueExternal(db, now, body, key).0 != db {
      OneMore(Bodies(db.events), body);
      assert Bodies(Append(db, now, body, key).events) == Bodies(db.events) + [body];
    }
  }

  lemma AdvancesTwice(a: Db, b: Db, c: Db)
    requires Advances(a, b) && Advances(b, c)
    ensures Advances(a, c)
  {
    ProgressTwice(a, b, c);
  }

  lemma CommitRowsAdvance(db: Db, now: Time, source: Uuid, outcome: Outcome)
    requires TablesInv(db)
    requires InsertOps(db.operations, source, now, outcome.operations).Some? && InsertWaits(db.waits, outcome.waits).Some?
    ensures Advances(db, db.(operations := InsertOps(db.operations, source, now, outcome.operations).value,
                             waits := InsertWaits(db.waits, outcome.waits).value))
  {
    var a := db.(operations := InsertOps(db.operations, source, now, outcome.operations).value);
    InsertOpsAdds(db, source, now, outcome.operations);
    InsertWaitsAdds(a, outcome.waits);
    AdvancesTwice(db, a, a.(waits := InsertWaits(a.waits, outcome.waits).value));
  }

  lemma AcknowledgedAdvances(db: Db, claim: ClaimedEvent, outcome: Outcome)
    requires TablesInv(db)
    ensures Advances(db, Acknowledged(db, claim, outcome))
  {
    SameRowsAdvance(db, Acknowledged(db, claim, outcome));
  }

  lemma CommitAdvances(db: Db, now: Time, claim: ClaimedEvent, outcome: Outcome)
    requires TablesInv(db) && CommitOutcome(db, now, claim, outcome).1.Ok?
    ensures Advances(db, CommitOutcome(db, now, claim, outcome).0)
  {
    var staged := db.(operations := InsertOps(db.operations, claim.event.id, now, outcome.operations).value,
                      waits := InsertWaits(db.waits, outcome.waits).value);
    CommitRowsAdvance(db, now, claim.event.id, outcome);
    var resumed := CancelWaits(staged, now, outcome.cancelledWaits).value;
    CancelWaitsAdvances(staged, now, outcome.cancelledWaits);
    AdvancesTwice(db, staged, resumed);
    AcknowledgedAdvances(resumed, claim, outcome);
    AdvancesTwice(db, resumed, Acknowledged(resumed, claim, outcome));
  }

  lemma SettleTwiceAdvances(db: Db, now: Time, a: Uuid, b: Uuid, result: Option<Json>, expires: Option<Time>)
    requires TablesInv(db) && a in db.operations && b in db.operations && a != b
    requires db.operations[a].status.Pending? && db.operations[b].status.Submitting?
    ensures Advances(db, SettleOp(SettleOp(db, now, a, Cancelled, db.operations[a].result, expires), now, b, Succeeded, result, expires))
  {
    var mid := SettleOp(db, now, a, Cancelled, db.operations[a].result, expires);
    SettleAdvances(db, now, a, Cancelled, db.operations[a].result, expires);
    SettleAdvances(mid, now, b, Succeeded, result, expires);
    AdvancesTwice(db, mid, SettleOp(mid, now, b, Succeeded, result, expires));
  }

  lemma WithdrawalAdvances(db: Db, now: Time, op: OpClaim, expires: Option<Time>)
    requires TablesInv(db) && CompleteWithdrawal(db, now, op, expires).1.Ok?
    ensures Advances(db, CompleteWithdrawal(db, now, op, expires).0)
  {
    var target := op.row.hash.target;
    var withdrawn := CompleteWithdrawal(db, now, op, expires).1.value;
    if withdrawn {
      SettleTwiceAdvances(db, now, target, op.id, Some(WithdrawnResult(true)), expires);
    } else {
      SettleAdvances(db, now, op.id, Succeeded, Some(WithdrawnResult(false)), expires);
    }
  }

  lemma WaitStepAdvances(db: Db, now: Time, id: Uuid, key: string, response: Json)
    requires TablesInv(db)
    ensures Advances(db, ResolveWait(db, now, id, key, response).0)
    ensures Advances(db, ExpireWait(db, now, id).0)
  {
    if id in db.waits {
      var wait := db.waits[id];
      if !wait.status.Resolved? && Resolvable(wait, now) {
        FinishAdvances(db, now, id, wait.(response := Some(response), key := Some(key)), Resolved);
      }
      if wait.status.WaitPending? && DeadlineReached(wait, now) {
        assert db.(waits := db.waits[id := wait]) == db;
        FinishAdvances(db, now, id, wait, Expired);
      }
    }
  }

  /** Everything a claim holder can do to the row it claimed, short of settling it. */
  lemma OpStepAdvances(w: World, step: Step)
    requires SettlementInv(w) && Enabled(w, step)
    requires step.DeferOp? || step.AcceptOp? || step.RenewOp? || step.RetryOp? || step.StillPending?
    ensures Advances(w.db, Apply(w, step).db)
  {
    var db, db' := w.db, Apply(w, step).db;
    if db' != db {
      assert ClaimFits(db, step.op) && RowInv(db.operations[step.op.id]);
      assert db' == SetOp(db, step.op.id, db'.operations[step.op.id]);
      RowChangeAdvances(db, step.op.id, db'.operations[step.op.id]);
    } else {
      SameRowsAdvance(db, db);
    }
  }

  lemma CompletionAdvances(db: Db, now: Time, op: OpClaim, status: OpStatus, result: Option<Json>, expires: Option<Time>)
    requires TablesInv(db)
    ensures Advances(db, CompleteOperation(db, now, op, status, result, expires).0)
  {
    if CompleteOperation(db, now, op, status, result, expires).1.Ok? {
      SettleAdvances(db, now, op.id, status, result, expires);
    } else {
      SameRowsAdvance(db, db);
    }
  }

  lemma HandlerStepAdvances(w: World, step: Step)
    requires TablesInv(w.db) && HandlerStep(step)
    ensures Advances(w.db, Apply(w, step).db)
  {
    if step.CommitAttempt? && Apply(w, step).db != w.db {
      CommitAdvances(w.db, w.now, step.claim, step.outcome);
    } else {
      SameRowsAdvance(w.db, Apply(w, step).db);
    }
  }

  lemma ClaimOrDeleteAdvances(w: World, step: Step)
    requires TablesInv(w.db) && (step.ClaimOp? || step.DeleteRequest?)
    ensures Advances(w.db, Apply(w, step).db)
  {
    var db' := Apply(w, step).db;
    if db' != w.db {
      RowChangeAdvances(w.db, step.id, db'.operations[step.id]);
    } else {
      SameRowsAdvance(w.db, w.db);
    }
  }

  lemma SettlingStepAdvances(w: World, step: Step)
    requires TablesInv(w.db) && (step.FinishWithdrawal? || step.CompleteOp?)
    ensures Advances(w.db, Apply(w, step).db)
  {
    if Apply(w, step).db == w.db {
      SameRowsAdvance(w.db, w.db);
    } else if step.CompleteOp? {
      CompletionAdvances(w.db, w.now, step.op, step.status, step.result, step.expires);
    } else {
      WithdrawalAdvances(w.db, w.now, step.op, step.expires);
    }
  }

  lemma TablesAdvance(w: World, step: Step)
    requires SettlementInv(w)
    ensures Advances(w.db, Apply(w, step).db)
  {
    if !Enabled(w, step) {
      SameRowsAdvance(w.db, w.db);
    } else if HandlerStep(step) {
      HandlerStepAdvances(w, step);
    } else {
      match step
      case Tick(_) => SameRowsAdvance(w.db, w.db);
      case Enqueue(body, key) => EnqueueAdvances(w.db, w.now, body, key);
      case ClaimOp(_, _, _) => ClaimOrDeleteAdvances(w, step);
      case DeleteRequest(_) => ClaimOrDeleteAdvances(w, step);
      case FinishWithdrawal(_, _) => SettlingStepAdvances(w, step);
      case CompleteOp(_, _, _, _) => SettlingStepAdvances(w, step);
      case Resolve(wait, key, response) => WaitStepAdvances(w.db, w.now, wait, key, response);
      case Expire(wait) => WaitStepAdvances(w.db, w.now, wait, "", "");
      case _ => OpStepAdvances(w, step);
    }
  }

  lemma NewClaimFits(db: Db, now: Time, id: Uuid, phase: Phase, leaseFor: Time)
    requires ClaimOperation(db, now, id, phase, leaseFor).1.Some?
    ensures ClaimFits(ClaimOperation(db, now, id, phase, leaseFor).0, ClaimOperation(db, now, id, phase, leaseFor).1.value)
  {
  }

  lemma StepAdvances(w: World, step: Step)
    requires SettlementInv(w)
    ensures Advances(w.db, Apply(w, step).db) && SettlementInv(Apply(w, step))
  {
    TablesAdvance(w, step);
    var w' := Apply(w, step);
    forall claim | claim in w'.opClaims ensures ClaimFits(w'.db, claim) {
      if claim in w.opClaims {
        ClaimStillFits(w.db, w'.db, claim);
      } else {
        NewClaimFits(w.db, w.now, step.id, step.phase, step.leaseFor);
      }
    }
  }

  lemma ClaimStillFits(a: Db, b: Db, claim: OpClaim)
    requires ClaimFits(a, claim) && Progress(a, b)
    ensures ClaimFits(b, claim)
  {
    assert OpProgress(a.operations[claim.id], b.operations[claim.id]);
  }

  lemma {:induction false} RunAdvances(w: World, steps: seq<Step>)
    requires SettlementInv(w)
    ensures SettlementInv(Run(w, steps)) && Progress(w.db, Run(w, steps).db)
  {
    if steps == [] {
      SameRowsAdvance(w.db, w.db);
    } else {
      var before := Run(w, steps[..|steps| - 1]);
      RunAdvances(w, steps[..|steps| - 1]);
      StepAdvances(before, steps[|steps| - 1]);
      ProgressTwice(w.db, before.db, Run(w, steps).db);
    }
  }

  lemma NothingYet(init: Json)
    ensures SettlementInv(Start(init))
  {
    assert Bodies([]) == [];
  }

  // ---------------------------------------------------------------- main results

  /** In every reachable state an operation has one truthful completion event exactly if it is
      settled, and it still has its request for as long as it is not. */
  lemma ExactlyOneCompletion(init: Json, steps: seq<Step>, id: Uuid)
    ensures var db := Run(Start(init), steps).db; var log := Bodies(db.events);
            && Completions(log, id) == (if id in db.operations && Terminal(db.operations[id].status) then 1 else 0)
            && (forall i :: 0 <= i < |log| && log[i].OperationCompleted? && log[i].operation == id ==>
                  id in db.operations && log[i] == OperationCompleted(id, Kind(db.operations[id].hash), db.operations[id].status))
            && (id in db.operations && !Terminal(db.operations[id].status) ==>
                  db.operations[id].request == Some(db.operations[id].hash))
  {
    NothingYet(init);
    RunAdvances(Start(init), steps);
    var db := Run(Start(init), steps).db;
    if id in db.operations { assert RowInv(db.operations[id]); }
  }

  /** Settled outcomes, gateway job ids, requests and announced events never change again. */
  lemma SettledForever(init: Json, steps: seq<Step>, more: seq<Step>, id: Uuid)
    requires id in Run(Start(init), steps).db.operations
    ensures var a := Run(Start(init), steps).db; var b := Run(Start(init), steps + more).db;
            && id in b.operations && OpProgress(a.operations[id], b.operations[id])
            && |a.events| <= |b.events|
            && forall i :: 0 <= i < |a.events| ==> EventProgress(a.events[i], b.events[i])
  {
    NothingYet(init);
    RunAdvances(Start(init), steps);
    RunSplits(Start(init), steps, more);
    RunAdvances(Run(Start(init), steps), more);
  }

  /** However replies, expiry sweeps and cancellations race, a wait finishes at most once, on the
      right side of its deadline, and its one resumption event says how. */
  lemma WaitRacesHaveOneWinner(init: Json, steps: seq<Step>, more: seq<Step>, id: Uuid)
    requires id in Run(Start(init), steps).db.waits
    ensures var a := Run(Start(init), steps).db; var b := Run(Start(init), steps + more).db;
            var log := Bodies(b.events);
            && id in b.waits && WaitProgress(a.waits[id], b.waits[id]) && WaitInv(b.waits[id])
            && Resumptions(log, id) == (if b.waits[id].status.WaitPending? then 0 else 1)
            && (forall i :: 0 <= i < |log| && log[i].WaitResumed? && log[i].wait == id ==>
                  log[i].reason == b.waits[id].status)
  {
    NothingYet(init);
    RunAdvances(Start(init), steps);
    RunSplits(Start(init), steps, more);
    RunAdvances(Run(Start(init), steps), more);
  }

  lemma {:induction false} TheResumption(events: seq<EventRow>, id: Uuid, i: nat)
    requires i < |events| && events[i].body.WaitResumed? && events[i].body.wait == id
    requires Resumptions(Bodies(events), id) == 1
    ensures ResumptionOf(events, id) == Some(events[i])
  {
    if i > 0 {
      assert Bodies(events) == [events[0].body] + Bodies(events[1..]);
      CountsSplit([events[0].body], Bodies(events[1..]), id);
      CountedWhenPresent(Bodies(events[1..]), i - 1);
      TheResumption(events[1..], id, i - 1);
    }
  }

  lemma {:induction false} CountsSplit(first: seq<EventBody>, rest: seq<EventBody>, id: Uuid)
    requires |first| == 1
    ensures Resumptions(first + rest, id) == Resumptions(rest, id)
              + if first[0].WaitResumed? && first[0].wait == id then 1 else 0
  {
    if rest == [] {
      assert first + rest == [] + first;
      OneMore([], first[0]);
      assert first == [] + [first[0]];
    } else {
      var n := |rest| - 1;
      assert (first + rest)[..n + 1] == first + rest[..n];
      CountsSplit(first, rest[..n], id);
    }
  }

  /** The event a reply was acknowledged with is in the inbox. */
  lemma AcknowledgedEvent(db: Db, now: Time, id: Uuid, key: string, response: Json)
    requires ResolveWait(db, now, id, key, response).1.Ok?
    ensures var (db', result) := ResolveWait(db, now, id, key, response);
            && id in db'.waits && db'.waits[id].status.Resolved?
            && db'.waits[id].key == Some(key) && db'.waits[id].response == Some(response)
            && result.value.event.body.WaitResumed? && result.value.event.body.wait == id
            && exists i :: 0 <= i < |db'.events| && db'.events[i] == result.value.event
  {
    var (db', result) := ResolveWait(db, now, id, key, response);
    if db.waits[id].status.Resolved? {
      FoundResumption(db.events, id);
    } else {
      assert db'.events[|db'.events| - 1] == result.value.event;
    }
  }

  lemma StillAnswered(a: Db, b: Db, now: Time, id: Uuid, i: nat, key: string, response: Json)
    requires TablesInv(b) && Progress(a, b) && id in a.waits && a.waits[id].status.Resolved?
    requires i < |a.events| && a.events[i].body.WaitResumed? && a.events[i].body.wait == id
    ensures var again := ResolveWait(b, now, id, key, response);
            && again.0 == b
            && (if a.waits[id].key == Some(key) && a.waits[id].response == Some(response)
                then again.1.Ok? && !again.1.value.newlyResolved && EventProgress(a.events[i], again.1.value.event)
                else again.1 == Err(IdempotencyConflict))
  {
    assert WaitProgress(a.waits[id], b.waits[id]);
    assert EventProgress(a.events[i], b.events[i]);
    TheResumption(b.events, id, i);
  }

  /** A reply sent to `w` and answered, and a reply to the same wait some steps later. */
  lemma ResentReply(w: World, more: seq<Step>, id: Uuid, key: string, response: Json, key': string, response': Json)
    requires SettlementInv(w) && ResolveWait(w.db, w.now, id, key, response).1.Ok?
    ensures var later := Run(Apply(w, Resolve(id, key, response)), more);
            var first := ResolveWait(w.db, w.now, id, key, response).1.value.event;
            var again := ResolveWait(later.db, later.now, id, key', response');
            && again.0 == later.db
            && (if key' == key && response' == response
                then again.1.Ok? && !again.1.value.newlyResolved && EventProgress(first, again.1.value.event)
                else again.1 == Err(IdempotencyConflict))
  {
    var next := Apply(w, Resolve(id, key, response));
    StepAdvances(w, Resolve(id, key, response));
    RunAdvances(next, more);
    AcknowledgedEvent(w.db, w.now, id, key, response);
    var first := ResolveWait(w.db, w.now, id, key, response).1.value.event;
    var i :| 0 <= i < |next.db.events| && next.db.events[i] == first;
    StillAnswered(next.db, Run(next, more).db, Run(next, more).now, id, i, key', response');
  }

  lemma OneStepRuns(w: World, step: Step, more: seq<Step>)
    ensures Run(w, [step] + more) == Run(Apply(w, step), more)
  {
    RunSplits(w, [step], more);
    assert [step][..0] == [];
  }

  /** Re-sending the accepted reply at any later time returns the original event and changes
      nothing; any other reply is refused. */
  lemma ResendingReturnsTheOriginal(
      init: Json, steps: seq<Step>, more: seq<Step>, id: Uuid, key: string, response: Json, key': string, response': Json)
    requires var w := Run(Start(init), steps); ResolveWait(w.db, w.now, id, key, response).1.Ok?
    ensures var w := Run(Start(init), steps);
            var later := Run(Start(init), steps + ([Resolve(id, key, response)] + more));
            var first := ResolveWait(w.db, w.now, id, key, response).1.value.event;
            var again := ResolveWait(later.db, later.now, id, key', response');
            && again.0 == later.db
            && (if key' == key && response' == response
                then again.1.Ok? && !again.1.value.newlyResolved && EventProgress(first, again.1.value.event)
                else again.1 == Err(IdempotencyConflict))
  {
    NothingYet(init);
    RunAdvances(Start(init), steps);
    RunSplits(Start(init), steps, [Resolve(id, key, response)] + more);
    OneStepRuns(Run(Start(init), steps), Resolve(id, key, response), more);
    ResentReply(Run(Start(init), steps), more, id, key, response, key', response');
  }

  lemma {:induction false} FoundResumption(events: seq<EventRow>, id: Uuid)
    requires ResumptionOf(events, id).Some?
    ensures exists i :: 0 <= i < |events| && events[i] == ResumptionOf(events, id).value
    ensures ResumptionOf(events, id).value.body.WaitResumed? && ResumptionOf(events, id).value.body.wait == id
  {
    if events[0].body.WaitResumed? && events[0].body.wait == id {
    } else {
      FoundResumption(events[1..], id);
      var i :| 0 <= i < |events[1..]| && events[1..][i] == ResumptionOf(events[1..], id).value;
      assert events[i + 1] == ResumptionOf(events, id).value;
    }
  }

  /** A successful withdrawal announces its target's cancellation before its own completion. */
  lemma WithdrawalAnnouncesTargetFirst(db: Db, now: Time, op: OpClaim, expires: Option<Time>)
    requires CompleteWithdrawal(db, now, op, expires).1 == Ok(true)
    requires op.id in db.operations && op.row.hash == db.operations[op.id].hash
    ensures var target := op.row.hash.target;
            Bodies(CompleteWithdrawal(db, now, op, expires).0.events)
              == Bodies(db.events) + [OperationCompleted(target, Kind(db.operations[target].hash), Cancelled),
                                      OperationCompleted(op.id, Withdraw, Succeeded)]
  {
  }
}
