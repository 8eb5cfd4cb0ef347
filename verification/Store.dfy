/** The store as an object that its callers share: one field for each table, one method for each
    transaction.  A method works on the fields; one that fails half-way restores what it found. */
module StoreObject {
  import opened Prelude
  import opened StoreModel

  // ---------------------------------------------------------------- a failed insert fails the transaction

  lemma {:induction false} FailedOpFailsAll(operations: map<Uuid, OpRow>, source: Uuid, now: Time, ops: seq<NewOp>, n: nat)
    requires n <= |ops| && InsertOps(operations, source, now, ops[..n]).None?
    ensures InsertOps(operations, source, now, ops).None?
    decreases |ops|
  {
    if n == |ops| {
      assert ops[..n] == ops;
    } else {
      assert ops[..|ops| - 1][..n] == ops[..n];
      FailedOpFailsAll(operations, source, now, ops[..|ops| - 1], n);
    }
  }

  lemma {:induction false} FailedWaitFailsAll(waits: map<Uuid, WaitRow>, staged: seq<NewWait>, n: nat)
    requires n <= |staged| && InsertWaits(waits, staged[..n]).None?
    ensures InsertWaits(waits, staged).None?
    decreases |staged|
  {
    if n == |staged| {
      assert staged[..n] == staged;
    } else {
      assert staged[..|staged| - 1][..n] == staged[..n];
      FailedWaitFailsAll(waits, staged[..|staged| - 1], n);
    }
  }

  lemma {:induction false} FailedCancelFailsAll(db: Db, now: Time, ids: seq<Uuid>, n: nat)
    requires n <= |ids| && CancelWaits(db, now, ids[..n]).Err?
    ensures CancelWaits(db, now, ids) == CancelWaits(db, now, ids[..n])
    decreases |ids|
  {
    if n == |ids| {
      assert ids[..n] == ids;
    } else {
      assert ids[..|ids| - 1][..n] == ids[..n];
      FailedCancelFailsAll(db, now, ids[..|ids| - 1], n);
    }
  }

  lemma {:induction false} CancelKeepsHandlerSide(db: Db, now: Time, ids: seq<Uuid>)
    ensures CancelWaits(db, now, ids).Ok? ==>
              var after := CancelWaits(db, now, ids).value;
              after.history == db.history && after.attempts == db.attempts && after.operations == db.operations
              && after.retries == db.retries
              && after.session == db.session.(nextEvent := after.session.nextEvent)
  {
    if ids != [] { CancelKeepsHandlerSide(db, now, ids[..|ids| - 1]); }
  }

  /** The part of a commit that inserts rows, cancels waits and checks the progress entries. */
  function StagedRows(db: Db, now: Time, source: Uuid, outcome: Outcome): Result<Db, StoreError> {
    var operations := InsertOps(db.operations, source, now, outcome.operations);
    var waits := InsertWaits(db.waits, outcome.waits);
    if operations.None? || waits.None? then Err(Database)
    else
      var resumed := CancelWaits(db.(operations := operations.value, waits := waits.value), now, outcome.cancelledWaits);
      if resumed.Ok? && ProgressTooLarge(outcome.progress) then Err(InvalidInput) else resumed
  }

  lemma CommitIsStaged(db: Db, now: Time, claim: ClaimedEvent, outcome: Outcome)
    ensures CommitOutcome(db, now, claim, outcome)
         == if !ClaimHeld(db, now, claim) || db.session.stateVersion != claim.version then (db, Err(StaleClaim))
            else
              var staged := StagedRows(db, now, claim.event.id, outcome);
              if staged.Err? then (db, Err(staged.error))
              else if !AttemptRunningAs(db.attempts, claim) then (db, Err(StaleClaim))
              else (Acknowledged(staged.value, claim, outcome), Ok(()))
  {
  }

  lemma StagingKeepsHandlerSide(db: Db, now: Time, source: Uuid, outcome: Outcome)
    ensures StagedRows(db, now, source, outcome).Ok? ==>
              var staged := StagedRows(db, now, source, outcome).value;
              staged.history == db.history && staged.attempts == db.attempts
              && staged.session == db.session.(nextEvent := staged.session.nextEvent)
  {
    var operations := InsertOps(db.operations, source, now, outcome.operations);
    var waits := InsertWaits(db.waits, outcome.waits);
    if operations.Some? && waits.Some? {
      CancelKeepsHandlerSide(db.(operations := operations.value, waits := waits.value), now, outcome.cancelledWaits);
    }
  }

  class Store {
    var session: SessionRow
    var events: seq<EventRow>
    var attempts: seq<AttemptRow>
    var history: seq<HistoryRow>
    var operations: map<Uuid, OpRow>
    var waits: map<Uuid, WaitRow>
    var retries: map<string, RetryRow>
    var nextUuid: nat

    function View(): Db
      reads this
    {
      Db(session, events, attempts, history, operations, waits, retries, nextUuid)
    }

    constructor (state: Json)
      ensures View() == NewSession(state)
    {
      session := SessionRow(Idle, state, 0, 1, 1, true, 0, None, None);
      events, attempts, history, operations, waits, retries, nextUuid := [], [], [], map[], map[], map[], 0;
    }

    method Rollback(saved: Db)
      modifies this
      ensures View() == saved
    {
      session, events, attempts, history := saved.session, saved.events, saved.attempts, saved.history;
      operations, waits, retries, nextUuid := saved.operations, saved.waits, saved.retries, saved.nextUuid;
    }

    method InsertEvent(now: Time, body: EventBody, key: Option<string>) returns (event: EventRow)
      modifies this
      ensures View() == Append(old(View()), now, body, key)
      ensures event == NewEvent(old(View()), now, body, key) && events == old(events) + [event]
    {
      event := EventRow(nextUuid, session.nextEvent, body, key, EventPending, now, 0);
      nextUuid := nextUuid + 1;
      events := events + [event];
      session := session.(nextEvent := session.nextEvent + 1);
    }

    method EnqueueExternalEvent(now: Time, body: EventBody, key: Option<string>)
      returns (result: Result<Enqueued, StoreError>)
      modifies this
      ensures (View(), result) == EnqueueExternal(old(View()), now, body, key)
    {
      if !External(body) { return Err(InvalidInput); }
      if key.Some? {
        var found := FindInput(events, body, key.value);
        if found.Some? {
          if found.value.body != body { return Err(IdempotencyConflict); }
          return Ok(Existing(found.value));
        }
      }
      var event := InsertEvent(now, body, key);
      result := Ok(Inserted(event));
    }

    method RetryBlockedEvent(now: Time, event: Uuid, expected: nat, key: string, request: Json)
      returns (result: Result<RetryRow, StoreError>)
      modifies this
      ensures (View(), result) == RetryBlocked(old(View()), now, event, expected, key, request)
    {
      if key in retries {
        if retries[key].request != request { return Err(IdempotencyConflict); }
        return Ok(retries[key]);
      }
      var head := Head(events);
      var matchesHead := false;
      if head.Some? { matchesHead := head.value.id == event && head.value.status.Blocked?; }
      if session.enabled || session.revision != expected || session.current.Some? || session.lease.Some?
         || !matchesHead
      {
        return Err(StaleProcessingRetry);
      }
      var baseline := ErroredCount(attempts, event);
      events := SetBaseline(SetEvent(events, event, EventPending, now), event, baseline);
      session := session.(enabled := true, revision := session.revision + 1);
      retries := retries[key := RetryRow(request, event, session.revision)];
      result := Ok(retries[key]);
    }

    method ClaimNextEvent(now: Time, leaseFor: Time) returns (claimed: Option<ClaimedEvent>)
      modifies this
      ensures (View(), claimed) == ClaimNext(old(View()), now, leaseFor)
    {
      if !Claimable(View(), now) { return None; }
      var event := Head(events).value;
      attempts := AbandonRunning(attempts, event.id);
      var token, attempt := nextUuid, nextUuid + 1;
      nextUuid := nextUuid + 2;
      session := session.(current := Some(event.id), lease := Some(Lease(token, now + leaseFor)));
      events := SetStatus(events, event.id, Processing);
      var through := session.nextHistory - 1;
      attempts := attempts + [AttemptRow(attempt, event.id, token, session.stateVersion, through, AttemptRunning)];
      claimed := Some(ClaimedEvent(event.(status := Processing), attempt, token, session.state,
                                   session.stateVersion, through));
    }

    method RenewEventClaim(now: Time, claim: ClaimedEvent, leaseFor: Time) returns (result: Result<(), StoreError>)
      modifies this
      ensures (View(), result) == RenewEvent(old(View()), now, claim, leaseFor)
    {
      if !ClaimHeld(View(), now, claim) { return Err(StaleClaim); }
      session := session.(lease := Some(Lease(session.lease.value.token, now + leaseFor)));
      result := Ok(());
    }

    method RecordHandlerFailure(now: Time, claim: ClaimedEvent, retryAt: Time, blocked: bool)
      returns (result: Result<(), StoreError>)
      modifies this
      ensures (View(), result) == RecordFailure(old(View()), now, claim, retryAt, blocked)
    {
      if !ClaimHeld(View(), now, claim) { return Err(StaleClaim); }
      attempts := FinishAttempt(attempts, claim, Errored);
      events := SetEvent(events, claim.event.id, if blocked then Blocked else EventPending, retryAt);
      if blocked {
        session := session.(enabled := false, revision := session.revision + 1);
      }
      session := session.(current := None, lease := None);
      result := Ok(());
    }

    method AbandonHandlerAttempt(now: Time, claim: ClaimedEvent, retryAt: Time)
      returns (result: Result<(), StoreError>)
      modifies this
      ensures (View(), result) == AbandonAttempt(old(View()), now, claim, retryAt)
    {
      if !ClaimHeld(View(), now, claim) { return Err(StaleClaim); }
      attempts := FinishAttempt(attempts, claim, Abandoned);
      events := SetEvent(events, claim.event.id, EventPending, retryAt);
      session := session.(current := None, lease := None);
      result := Ok(());
    }

    // -------------------------------------------------------------- committing an outcome

    method AppendHistory(source: Uuid, messages: seq<Json>) returns (next: nat)
      modifies `history
      ensures history == old(history) + NewHistory(session.nextHistory, source, messages)
      ensures next == session.nextHistory + |messages|
    {
      next := session.nextHistory;
      for i := 0 to |messages|
        invariant next == session.nextHistory + i
        invariant history == old(history) + NewHistory(session.nextHistory, source, messages[..i])
      {
        assert NewHistory(session.nextHistory, source, messages[..i + 1])
            == NewHistory(session.nextHistory, source, messages[..i]) + [HistoryRow(next, source, messages[i])];
        history := history + [HistoryRow(next, source, messages[i])];
        next := next + 1;
      }
      assert messages[..|messages|] == messages;
    }

    method InsertOperations(now: Time, source: Uuid, ops: seq<NewOp>) returns (ok: bool)
      modifies `operations
      ensures ok <==> InsertOps(old(operations), source, now, ops).Some?
      ensures ok ==> operations == InsertOps(old(operations), source, now, ops).value
    {
      for i := 0 to |ops|
        invariant InsertOps(old(operations), source, now, ops[..i]) == Some(operations)
      {
        assert ops[..i + 1][..i] == ops[..i];
        if !Insertable(operations, ops[i]) {
          FailedOpFailsAll(old(operations), source, now, ops, i + 1);
          return false;
        }
        operations := operations[ops[i].id := InsertedOp(source, now, ops[i].request)];
      }
      assert ops[..|ops|] == ops;
      ok := true;
    }

    method InsertNewWaits(staged: seq<NewWait>) returns (ok: bool)
      modifies `waits
      ensures ok <==> InsertWaits(old(waits), staged).Some?
      ensures ok ==> waits == InsertWaits(old(waits), staged).value
    {
      for i := 0 to |staged|
        invariant InsertWaits(old(waits), staged[..i]) == Some(waits)
      {
        assert staged[..i + 1][..i] == staged[..i];
        if !WaitInsertable(waits, staged[i]) {
          FailedWaitFailsAll(old(waits), staged, i + 1);
          return false;
        }
        waits := waits[staged[i].id := WaitRow(staged[i].mode, staged[i].expires, WaitPending, None, None, None)];
      }
      assert staged[..|staged|] == staged;
      ok := true;
    }

    method CancelPendingWaits(now: Time, ids: seq<Uuid>) returns (ok: bool)
      modifies this
      ensures ok <==> CancelWaits(old(View()), now, ids).Ok?
      ensures ok ==> View() == CancelWaits(old(View()), now, ids).value
      ensures !ok ==> CancelWaits(old(View()), now, ids) == Err(WaitNotFound)
    {
      for i := 0 to |ids|
        invariant CancelWaits(old(View()), now, ids[..i]) == Ok(View())
      {
        assert ids[..i + 1][..i] == ids[..i];
        if ids[i] !in waits {
          FailedCancelFailsAll(old(View()), now, ids, i + 1);
          return false;
        }
        var wait := waits[ids[i]];
        if wait.status.WaitPending? {
          var finish := if DeadlineReached(wait, now) then Expired else WaitCancelled;
          waits := waits[ids[i] := wait.(status := finish, finished := Some(now))];
          var _ := InsertEvent(now, WaitResumed(ids[i], finish), None);
        }
      }
      assert ids[..|ids|] == ids;
      ok := true;
    }

    /** Inserts what the outcome asks for; the caller rolls back on failure. */
    method StageOutcome(now: Time, source: Uuid, outcome: Outcome) returns (result: Result<nat, StoreError>)
      modifies this
      ensures result.Err? <==> StagedRows(old(View()), now, source, outcome).Err?
      ensures result.Err? ==> result.error == StagedRows(old(View()), now, source, outcome).error
      ensures result.Ok? ==>
                && result.value == old(session.nextHistory) + |outcome.history|
                && View() == StagedRows(old(View()), now, source, outcome).value.(
                     history := old(history) + NewHistory(old(session.nextHistory), source, outcome.history))
    {
      var nextHistory := AppendHistory(source, outcome.history);
      var opsOk := InsertOperations(now, source, outcome.operations);
      if !opsOk { return Err(Database); }
      var waitsOk := InsertNewWaits(outcome.waits);
      if !waitsOk { return Err(Database); }
      CancelIgnoresHistory(old(View()).(operations := operations, waits := waits), history, now, outcome.cancelledWaits);
      assert old(View()).(operations := operations, waits := waits).(history := history) == View();
      var cancelled := CancelPendingWaits(now, outcome.cancelledWaits);
      if !cancelled { return Err(WaitNotFound); }
      if ProgressTooLarge(outcome.progress) { return Err(InvalidInput); }
      result := Ok(nextHistory);
    }

    method CommitHandlerOutcome(now: Time, claim: ClaimedEvent, outcome: Outcome)
      returns (result: Result<(), StoreError>)
      modifies this
      ensures (View(), result) == CommitOutcome(old(View()), now, claim, outcome)
    {
      CommitIsStaged(View(), now, claim, outcome);
      if !ClaimHeld(View(), now, claim) || session.stateVersion != claim.version { return Err(StaleClaim); }
      var saved := View();
      StagingKeepsHandlerSide(saved, now, claim.event.id, outcome);
      var staged := StageOutcome(now, claim.event.id, outcome);
      if staged.Err? { Rollback(saved); return Err(staged.error); }
      session := session.(state := outcome.state,
                          status := if outcome.status.Some? then outcome.status.value else session.status,
                          stateVersion := session.stateVersion + 1, nextHistory := staged.value,
                          current := None, lease := None);
      events := SetStatus(events, claim.event.id, Handled);
      if !AttemptRunningAs(attempts, claim) { Rollback(saved); return Err(StaleClaim); }
      attempts := FinishAttempt(attempts, claim, Committed);
      result := Ok(());
    }

    // -------------------------------------------------------------- gateway operations

    method ClaimOperationFor(now: Time, id: Uuid, phase: Phase, leaseFor: Time) returns (claimed: Option<OpClaim>)
      modifies this
      ensures (View(), claimed) == ClaimOperation(old(View()), now, id, phase, leaseFor)
    {
      if id !in operations || !Eligible(operations[id], phase, now) { return None; }
      var recovering := operations[id].status.Submitting?;
      var token := nextUuid;
      nextUuid := nextUuid + 1;
      var row := operations[id];
      if row.status.Pending? { row := row.(status := Submitting); }
      row := row.(lease := Some(Lease(token, now + leaseFor)));
      operations := operations[id := row];
      claimed := Some(OpClaim(id, row, phase, token, recovering));
    }

    method DeferClaimed(now: Time, claim: OpClaim, retryAt: Time) returns (result: Result<(), StoreError>)
      modifies this
      ensures (View(), result) == DeferOperation(old(View()), now, claim, retryAt)
    {
      var error := OpClaimError(View(), now, claim);
      if error.Some? { return Err(error.value); }
      var current := operations[claim.id];
      if !(claim.phase.Submission? || claim.phase.Cancellation?) || !current.status.Submitting? {
        return Err(InvalidInput);
      }
      operations := operations[claim.id := current.(status := Pending, nextAttempt := retryAt, lease := None)];
      result := Ok(());
    }

    method RecordOperationAccepted(now: Time, claim: OpClaim, job: Uuid, checkAt: Time)
      returns (result: Result<(), StoreError>)
      modifies this
      ensures (View(), result) == RecordAccepted(old(View()), now, claim, job, checkAt)
    {
      var error := OpClaimError(View(), now, claim);
      if error.Some? { return Err(error.value); }
      var current := operations[claim.id];
      if !claim.phase.Submission? || !current.status.Submitting? || current.job.Some? { return Err(InvalidInput); }
      operations := operations[claim.id :=
        current.(status := Accepted, job := Some(job), lease := None, nextAttempt := checkAt)];
      result := Ok(());
    }

    method RenewOperationClaim(now: Time, claim: OpClaim, leaseFor: Time) returns (result: Result<(), StoreError>)
      modifies this
      ensures (View(), result) == RenewOperation(old(View()), now, claim, leaseFor)
    {
      var error := OpClaimError(View(), now, claim);
      if error.Some? { return Err(error.value); }
      var current := operations[claim.id];
      operations := operations[claim.id := current.(lease := Some(Lease(current.lease.value.token, now + leaseFor)))];
      result := Ok(());
    }

    method RecordOperationRetry(now: Time, claim: OpClaim, uncertain: bool, retryAt: Time)
      returns (result: Result<(), StoreError>)
      modifies this
      ensures (View(), result) == RecordRetry(old(View()), now, claim, uncertain, retryAt)
    {
      var error := OpClaimError(View(), now, claim);
      if error.Some? { return Err(error.value); }
      var current := operations[claim.id];
      var next := current.status;
      match claim.phase {
        case ResultRetrieval =>
          if !current.status.Accepted? { return Err(InvalidInput); }
        case Withdrawal =>
          return Err(InvalidInput);
        case _ =>
          if !current.status.Submitting? { return Err(InvalidInput); }
          next := if uncertain then Submitting else Pending;
      }
      operations := operations[claim.id := current.(status := next, nextAttempt := retryAt, lease := None)];
      result := Ok(());
    }

    method RecordOperationPendingResult(now: Time, claim: OpClaim, checkAt: Time)
      returns (result: Result<(), StoreError>)
      modifies this
      ensures (View(), result) == RecordPendingResult(old(View()), now, claim, checkAt)
    {
      var error := OpClaimError(View(), now, claim);
      if error.Some? { return Err(error.value); }
      var current := operations[claim.id];
      if !claim.phase.ResultRetrieval? || !current.status.Accepted? { return Err(InvalidInput); }
      operations := operations[claim.id := current.(nextAttempt := checkAt, lease := None)];
      result := Ok(());
    }

    method SettleRow(now: Time, id: Uuid, status: OpStatus, outcome: Option<Json>, expires: Option<Time>)
      returns (event: EventRow)
      requires id in operations
      modifies this
      ensures View() == SettleOp(old(View()), now, id, status, outcome, expires)
      ensures |events| > 0 && event == events[|events| - 1]
    {
      var row := operations[id];
      operations := operations[id := row.(status := status, result := outcome, lease := None)];
      if expires.Some? {
        operations := operations[id := operations[id].(requestExpires := expires)];
      }
      event := InsertEvent(now, OperationCompleted(id, Kind(row.hash), status), None);
    }

    method CompleteClaimed(now: Time, claim: OpClaim, status: OpStatus, outcome: Option<Json>, expires: Option<Time>)
      returns (result: Result<EventRow, StoreError>)
      modifies this
      ensures (View(), result) == CompleteOperation(old(View()), now, claim, status, outcome, expires)
    {
      if !Terminal(status) { return Err(InvalidInput); }
      var error := OpClaimError(View(), now, claim);
      if error.Some? { return Err(error.value); }
      var current := operations[claim.id];
      var valid := false;
      match claim.phase {
        case Submission => valid := current.status.Submitting? && status.Failed? && current.job.None?;
        case ResultRetrieval => valid := current.status.Accepted?;
        case Cancellation => valid := current.status.Submitting?;
        case Withdrawal =>
      }
      if !valid { return Err(InvalidInput); }
      var event := SettleRow(now, claim.id, status, outcome, expires);
      result := Ok(event);
    }

    method CompleteWithdrawalFor(now: Time, claim: OpClaim, expires: Option<Time>)
      returns (result: Result<bool, StoreError>)
      modifies this
      ensures (View(), result) == CompleteWithdrawal(old(View()), now, claim, expires)
    {
      if !claim.phase.Withdrawal? || !claim.row.hash.WithdrawOp? { return Err(InvalidInput); }
      var target := claim.row.hash.target;
      var error := OpClaimError(View(), now, claim);
      if error.Some? { return Err(error.value); }
      if !operations[claim.id].status.Submitting? { return Err(InvalidInput); }
      if target !in operations { return Err(OperationNotFound); }
      var withdrawn := operations[target].status.Pending? && operations[target].lease.None?;
      if withdrawn {
        var _ := SettleRow(now, target, Cancelled, operations[target].result, expires);
      }
      var _ := SettleRow(now, claim.id, Succeeded, Some(WithdrawnResult(withdrawn)), expires);
      result := Ok(withdrawn);
    }

    method DeleteExpiredOperationRequest(now: Time, id: Uuid) returns (deleted: bool)
      modifies this
      ensures (View(), deleted) == DeleteExpiredRequest(old(View()), now, id)
    {
      deleted := false;
      if id in operations && operations[id].request.Some? && operations[id].requestExpires.Some? {
        if operations[id].requestExpires.value <= now && Terminal(operations[id].status) {
          operations := operations[id := operations[id].(request := None, requestExpires := None)];
          deleted := true;
        }
      }
    }

    // -------------------------------------------------------------- waits

    method ResolveWaitFor(now: Time, id: Uuid, key: string, response: Json)
      returns (result: Result<WaitResolution, StoreError>)
      modifies this
      ensures (View(), result) == ResolveWait(old(View()), now, id, key, response)
    {
      if id !in waits { return Err(WaitNotFound); }
      var wait := waits[id];
      if wait.status.Resolved? {
        if wait.key != Some(key) || wait.response != Some(response) { return Err(IdempotencyConflict); }
        var event := ResumptionOf(events, id);
        if event.None? { return Err(Database); }
        return Ok(WaitResolution(event.value, false));
      }
      if !Resolvable(wait, now) { return Err(WaitNotResolvable); }
      waits := waits[id := wait.(status := Resolved, response := Some(response), key := Some(key), finished := Some(now))];
      assert View() == old(View()).(waits := waits);
      var event := InsertEvent(now, WaitResumed(id, Resolved), None);
      result := Ok(WaitResolution(event, true));
      ResolutionOverwrites(old(View()), id, wait.(response := Some(response), key := Some(key)), now);
    }

    method ExpireWaitFor(now: Time, id: Uuid) returns (result: Result<Option<EventRow>, StoreError>)
      modifies this
      ensures (View(), result) == ExpireWait(old(View()), now, id)
    {
      if id !in waits { return Err(WaitNotFound); }
      var wait := waits[id];
      if !wait.status.WaitPending? || !DeadlineReached(wait, now) { return Ok(None); }
      waits := waits[id := wait.(status := Expired, finished := Some(now))];
      var event := InsertEvent(now, WaitResumed(id, Expired), None);
      result := Ok(Some(event));
    }
  }

  lemma ResolutionOverwrites(db: Db, id: Uuid, wait: WaitRow, now: Time)
    ensures db.waits[id := wait][id := wait.(status := Resolved, finished := Some(now))]
         == db.waits[id := wait.(status := Resolved, finished := Some(now))]
  {
  }

  lemma {:induction false} CancelIgnoresHistory(db: Db, history: seq<HistoryRow>, now: Time, ids: seq<Uuid>)
    ensures var plain := CancelWaits(db, now, ids); var other := CancelWaits(db.(history := history), now, ids);
            && (plain.Ok? <==> other.Ok?)
            && (plain.Ok? ==> other.value == plain.value.(history := history))
            && (plain.Err? ==> plain == other)
  {
    if ids != [] { CancelIgnoresHistory(db, history, now, ids[..|ids| - 1]); }
  }
}
