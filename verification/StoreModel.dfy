/** The rows of one session and, for every `Store` transaction, the rows it leaves behind and
    the value it returns.  All transactions of a session take its row lock, so each one is a
    single step at one instant `now` of the database clock.  UUIDs are drawn from the counter
    `nextUuid`; a fingerprint is the fingerprinted text, which makes it collision-free. */
module StoreModel {
  import opened Prelude

  type Uuid = nat
  type Time = int
  type Json = string

  datatype StoreError =
    | InvalidInput
    | OperationNotFound
    | WaitNotFound
    | IdempotencyConflict
    | StaleClaim
    | WaitNotResolvable
    | StaleProcessingRetry
    | Database

  datatype Lease = Lease(token: Uuid, expires: Time)

  // ---------------------------------------------------------------- rows

  datatype SessionStatus = Idle | Running | Waiting | Cancelling | CancelledSession | FailedSession

  datatype SessionRow = SessionRow(
    status: SessionStatus, state: Json, stateVersion: nat, nextEvent: nat, nextHistory: nat,
    enabled: bool, revision: nat, current: Option<Uuid>, lease: Option<Lease>)

  datatype OpKind = Llm | Execution | LlmCancellation | Withdraw

  datatype OpStatus = Pending | Submitting | Accepted | Succeeded | Failed | Cancelled | Unknown

  predicate Terminal(status: OpStatus) {
    status.Succeeded? || status.Failed? || status.Cancelled? || status.Unknown?
  }

  datatype WaitStatus = WaitPending | Resolved | Expired | WaitCancelled

  datatype EventBody =
    | UserMessage(payload: Json)
    | CancellationRequested(payload: Json)
    | OperationCompleted(operation: Uuid, kind: OpKind, outcome: OpStatus)
    | WaitResumed(wait: Uuid, reason: WaitStatus)

  predicate External(body: EventBody) { body.UserMessage? || body.CancellationRequested? }

  predicate SameType(a: EventBody, b: EventBody) {
    (a.UserMessage? && b.UserMessage?) || (a.CancellationRequested? && b.CancellationRequested?)
  }

  datatype EventStatus = EventPending | Processing | Handled | Blocked

  datatype EventRow = EventRow(
    id: Uuid, sequence: nat, body: EventBody, key: Option<string>, status: EventStatus,
    nextAttempt: Time, baseline: nat)

  datatype AttemptStatus = AttemptRunning | Committed | Errored | Abandoned

  datatype AttemptRow = AttemptRow(
    id: Uuid, event: Uuid, token: Uuid, version: nat, through: int, status: AttemptStatus)

  datatype HistoryRow = HistoryRow(sequence: nat, source: Uuid, message: Json)

  datatype Request =
    | LlmFresh(connection: string, content: Json)
    | LlmContinuation(connection: string, previous: Uuid, messages: Json)
    | ExecutionCall(connection: string, machine: Uuid, generation: Option<Uuid>, payload: Json)
    | CancelLlm(target: Uuid)
    | WithdrawOp(target: Uuid)

  /** Requests are immutable: `request` is only ever dropped, and `hash` remembers what it was. */
  datatype OpRow = OpRow(
    hash: Request, request: Option<Request>, requestExpires: Option<Time>, source: Uuid,
    job: Option<Uuid>, status: OpStatus, result: Option<Json>, nextAttempt: Time,
    lease: Option<Lease>)

  function Kind(request: Request): OpKind {
    match request
    case LlmFresh(_, _) => Llm
    case LlmContinuation(_, _, _) => Llm
    case ExecutionCall(_, _, _, _) => Execution
    case CancelLlm(_) => LlmCancellation
    case WithdrawOp(_) => Withdraw
  }

  function Connection(request: Request): Option<string> {
    match request
    case LlmFresh(c, _) => Some(c)
    case LlmContinuation(c, _, _) => Some(c)
    case ExecutionCall(c, _, _, _) => Some(c)
    case CancelLlm(_) => None
    case WithdrawOp(_) => None
  }

  /** The operation a row refers to by foreign key, if any. */
  function Reference(request: Request): Option<Uuid> {
    match request
    case LlmContinuation(_, p, _) => Some(p)
    case CancelLlm(t) => Some(t)
    case WithdrawOp(t) => Some(t)
    case LlmFresh(_, _) => None
    case ExecutionCall(_, _, _, _) => None
  }

  datatype WaitMode = ExternalOnly | ExpirationOnly | Either

  datatype WaitRow = WaitRow(
    mode: WaitMode, expires: Option<Time>, status: WaitStatus, response: Option<Json>,
    key: Option<string>, finished: Option<Time>)

  datatype RetryRow = RetryRow(request: Json, event: Uuid, revision: nat)

  datatype Db = Db(
    session: SessionRow, events: seq<EventRow>, attempts: seq<AttemptRow>,
    history: seq<HistoryRow>, operations: map<Uuid, OpRow>, waits: map<Uuid, WaitRow>,
    retries: map<string, RetryRow>, nextUuid: nat)

  function NewSession(state: Json): Db {
    Db(SessionRow(Idle, state, 0, 1, 1, true, 0, None, None), [], [], [], map[], map[], map[], 0)
  }

  // ---------------------------------------------------------------- claims and outcomes

  datatype ClaimedEvent = ClaimedEvent(
    event: EventRow, attempt: Uuid, token: Uuid, state: Json, version: nat, through: int)

  datatype NewOp = NewOp(id: Uuid, request: Request)

  datatype NewWait = NewWait(id: Uuid, mode: WaitMode, expires: Option<Time>)

  datatype Outcome = Outcome(
    state: Json, status: Option<SessionStatus>, history: seq<Json>, operations: seq<NewOp>,
    waits: seq<NewWait>, cancelledWaits: seq<Uuid>, progress: seq<string>)

  datatype Phase = Submission | ResultRetrieval | Cancellation | Withdrawal

  /** `row` is the operation as the claim returned it; `recovering` tells that an earlier
      attempt may have reached the gateway. */
  datatype OpClaim = OpClaim(id: Uuid, row: OpRow, phase: Phase, token: Uuid, recovering: bool)

  datatype Enqueued = Inserted(event: EventRow) | Existing(event: EventRow)

  datatype WaitResolution = WaitResolution(event: EventRow, newlyResolved: bool)

  // ---------------------------------------------------------------- inbox

  function NewEvent(db: Db, now: Time, body: EventBody, key: Option<string>): EventRow {
    EventRow(db.nextUuid, db.session.nextEvent, body, key, EventPending, now, 0)
  }

  /** Every event, from whichever producer, is inserted with the next sequence. */
  function Append(db: Db, now: Time, body: EventBody, key: Option<string>): Db {
    db.(events := db.events + [NewEvent(db, now, body, key)],
        session := db.session.(nextEvent := db.session.nextEvent + 1),
        nextUuid := db.nextUuid + 1)
  }

  function FindInput(events: seq<EventRow>, body: EventBody, key: string): Option<EventRow> {
    if events == [] then None
    else if SameType(events[0].body, body) && events[0].key == Some(key) then Some(events[0])
    else FindInput(events[1..], body, key)
  }

  function EnqueueExternal(db: Db, now: Time, body: EventBody, key: Option<string>)
    : (Db, Result<Enqueued, StoreError>)
  {
    if !External(body) then (db, Err(InvalidInput))
    else
      var found := if key.Some? then FindInput(db.events, body, key.value) else None;
      if found.Some? then
        (db, if found.value.body == body then Ok(Existing(found.value)) else Err(IdempotencyConflict))
      else (Append(db, now, body, key), Ok(Inserted(NewEvent(db, now, body, key))))
  }

  /** The oldest unhandled event. */
  function Head(events: seq<EventRow>): Option<EventRow> {
    if events == [] then None
    else if events[0].status.Handled? then Head(events[1..])
    else Some(events[0])
  }

  function SetEvent(events: seq<EventRow>, id: Uuid, status: EventStatus, at: Time): seq<EventRow> {
    seq(|events|, i requires 0 <= i < |events| =>
      if events[i].id == id then events[i].(status := status, nextAttempt := at) else events[i])
  }

  function SetStatus(events: seq<EventRow>, id: Uuid, status: EventStatus): seq<EventRow> {
    seq(|events|, i requires 0 <= i < |events| =>
      if events[i].id == id then events[i].(status := status) else events[i])
  }

  function SetBaseline(events: seq<EventRow>, id: Uuid, baseline: nat): seq<EventRow> {
    seq(|events|, i requires 0 <= i < |events| =>
      if events[i].id == id then events[i].(baseline := baseline) else events[i])
  }

  // ---------------------------------------------------------------- handler attempts

  function FinishAttempt(attempts: seq<AttemptRow>, claim: ClaimedEvent, status: AttemptStatus): seq<AttemptRow> {
    seq(|attempts|, i requires 0 <= i < |attempts| =>
      if RunningAs(attempts[i], claim) then attempts[i].(status := status) else attempts[i])
  }

  predicate RunningAs(attempt: AttemptRow, claim: ClaimedEvent) {
    attempt.id == claim.attempt && attempt.token == claim.token && attempt.status.AttemptRunning?
  }

  function AbandonRunning(attempts: seq<AttemptRow>, event: Uuid): seq<AttemptRow> {
    seq(|attempts|, i requires 0 <= i < |attempts| =>
      if attempts[i].event == event && attempts[i].status.AttemptRunning?
      then attempts[i].(status := Abandoned) else attempts[i])
  }

  function ErroredCount(attempts: seq<AttemptRow>, event: Uuid): nat {
    if attempts == [] then 0
    else (if attempts[0].event == event && attempts[0].status.Errored? then 1 else 0)
         + ErroredCount(attempts[1..], event)
  }

  /** `handler_failure_count`: errored attempts since the last operator retry. */
  function FailureCount(db: Db, event: EventRow): int {
    ErroredCount(db.attempts, event.id) - event.baseline
  }

  predicate LeaseFree(lease: Option<Lease>, now: Time) { lease.None? || lease.value.expires <= now }

  predicate LeaseHeld(lease: Option<Lease>, token: Uuid, now: Time) {
    lease.Some? && lease.value.token == token && now < lease.value.expires
  }

  predicate Claimable(db: Db, now: Time) {
    var head := Head(db.events);
    db.session.enabled && LeaseFree(db.session.lease, now) && head.Some? &&
    (head.value.status.EventPending? || head.value.status.Processing?) && head.value.nextAttempt <= now
  }

  function ClaimNext(db: Db, now: Time, leaseFor: Time): (Db, Option<ClaimedEvent>) {
    if !Claimable(db, now) then (db, None)
    else
      var event := Head(db.events).value;
      var token, attempt := db.nextUuid, db.nextUuid + 1;
      var through := db.session.nextHistory - 1;
      var db' := db.(
        session := db.session.(current := Some(event.id), lease := Some(Lease(token, now + leaseFor))),
        events := SetStatus(db.events, event.id, Processing),
        attempts := AbandonRunning(db.attempts, event.id)
          + [AttemptRow(attempt, event.id, token, db.session.stateVersion, through, AttemptRunning)],
        nextUuid := db.nextUuid + 2);
      (db', Some(ClaimedEvent(event.(status := Processing), attempt, token, db.session.state,
                              db.session.stateVersion, through)))
  }

  /** `lock_valid_session_claim` */
  predicate ClaimHeld(db: Db, now: Time, claim: ClaimedEvent) {
    db.session.current == Some(claim.event.id) && LeaseHeld(db.session.lease, claim.token, now)
  }

  function RenewEvent(db: Db, now: Time, claim: ClaimedEvent, leaseFor: Time): (Db, Result<(), StoreError>) {
    if !ClaimHeld(db, now, claim) then (db, Err(StaleClaim))
    else (db.(session := db.session.(lease := Some(Lease(claim.token, now + leaseFor)))), Ok(()))
  }

  function Released(session: SessionRow): SessionRow { session.(current := None, lease := None) }

  function RecordFailure(db: Db, now: Time, claim: ClaimedEvent, retryAt: Time, blocked: bool)
    : (Db, Result<(), StoreError>)
  {
    if !ClaimHeld(db, now, claim) then (db, Err(StaleClaim))
    else
      var session := Released(db.session);
      (db.(attempts := FinishAttempt(db.attempts, claim, Errored),
           events := SetEvent(db.events, claim.event.id, if blocked then Blocked else EventPending, retryAt),
           session := if blocked then session.(enabled := false, revision := session.revision + 1) else session),
       Ok(()))
  }

  function AbandonAttempt(db: Db, now: Time, claim: ClaimedEvent, retryAt: Time): (Db, Result<(), StoreError>) {
    if !ClaimHeld(db, now, claim) then (db, Err(StaleClaim))
    else
      (db.(attempts := FinishAttempt(db.attempts, claim, Abandoned),
           events := SetEvent(db.events, claim.event.id, EventPending, retryAt),
           session := Released(db.session)),
       Ok(()))
  }

  function RetryBlocked(db: Db, now: Time, event: Uuid, expected: nat, key: string, request: Json)
    : (Db, Result<RetryRow, StoreError>)
  {
    if key in db.retries then
      (db, if db.retries[key].request == request then Ok(db.retries[key]) else Err(IdempotencyConflict))
    else
      var head := Head(db.events);
      var matches := head.Some? && head.value.id == event && head.value.status.Blocked?;
      if db.session.enabled || db.session.revision != expected || db.session.current.Some?
         || db.session.lease.Some? || !matches
      then (db, Err(StaleProcessingRetry))
      else
        var row := RetryRow(request, event, expected + 1);
        (db.(events := SetBaseline(SetEvent(db.events, event, EventPending, now), event,
                                   ErroredCount(db.attempts, event)),
             session := db.session.(enabled := true, revision := expected + 1),
             retries := db.retries[key := row]),
         Ok(row))
  }

  // ---------------------------------------------------------------- committing an outcome

  function NewHistory(start: nat, source: Uuid, messages: seq<Json>): seq<HistoryRow> {
    seq(|messages|, i requires 0 <= i < |messages| => HistoryRow(start + i, source, messages[i]))
  }

  /** Primary key, foreign keys and row checks of `session_operations`. */
  predicate Insertable(operations: map<Uuid, OpRow>, op: NewOp) {
    && op.id !in operations
    && (Reference(op.request).Some? ==> Reference(op.request).value in operations)
  }

  function InsertedOp(source: Uuid, now: Time, request: Request): OpRow {
    OpRow(request, Some(request), None, source, None, Pending, None, now, None)
  }

  function InsertOps(operations: map<Uuid, OpRow>, source: Uuid, now: Time, ops: seq<NewOp>)
    : Option<map<Uuid, OpRow>>
  {
    if ops == [] then Some(operations)
    else
      var rest := InsertOps(operations, source, now, ops[..|ops| - 1]);
      var op := ops[|ops| - 1];
      if rest.None? || !Insertable(rest.value, op) then None
      else Some(rest.value[op.id := InsertedOp(source, now, op.request)])
  }

  predicate WaitInsertable(waits: map<Uuid, WaitRow>, wait: NewWait) {
    wait.id !in waits && (wait.mode.ExternalOnly? <==> wait.expires.None?)
  }

  function InsertWaits(waits: map<Uuid, WaitRow>, staged: seq<NewWait>): Option<map<Uuid, WaitRow>> {
    if staged == [] then Some(waits)
    else
      var rest := InsertWaits(waits, staged[..|staged| - 1]);
      var wait := staged[|staged| - 1];
      if rest.None? || !WaitInsertable(rest.value, wait) then None
      else Some(rest.value[wait.id := WaitRow(wait.mode, wait.expires, WaitPending, None, None, None)])
  }

  /** A deadline that counts: one of a mode that expires, reached at `now`. */
  predicate DeadlineReached(wait: WaitRow, now: Time) {
    !wait.mode.ExternalOnly? && wait.expires.Some? && wait.expires.value <= now
  }

  function FinishWait(db: Db, now: Time, id: Uuid, status: WaitStatus): Db
    requires id in db.waits
  {
    Append(db.(waits := db.waits[id := db.waits[id].(status := status, finished := Some(now))]),
           now, WaitResumed(id, status), None)
  }

  function CancelWait(db: Db, now: Time, id: Uuid): Result<Db, StoreError> {
    if id !in db.waits then Err(WaitNotFound)
    else if !db.waits[id].status.WaitPending? then Ok(db)
    else Ok(FinishWait(db, now, id, if DeadlineReached(db.waits[id], now) then Expired else WaitCancelled))
  }

  function CancelWaits(db: Db, now: Time, ids: seq<Uuid>): Result<Db, StoreError> {
    if ids == [] then Ok(db)
    else
      var rest := CancelWaits(db, now, ids[..|ids| - 1]);
      if rest.Err? then rest else CancelWait(rest.value, now, ids[|ids| - 1])
  }

  predicate ProgressTooLarge(progress: seq<string>) {
    |progress| > 20 || exists i :: 0 <= i < |progress| && |progress[i]| > 2048
  }

  predicate AttemptRunningAs(attempts: seq<AttemptRow>, claim: ClaimedEvent) {
    exists i :: 0 <= i < |attempts| && RunningAs(attempts[i], claim)
  }

  /** The session, event and attempt rows once an outcome is committed. */
  function Acknowledged(db: Db, claim: ClaimedEvent, outcome: Outcome): Db {
    db.(session := Released(db.session).(
          state := outcome.state,
          status := if outcome.status.Some? then outcome.status.value else db.session.status,
          stateVersion := db.session.stateVersion + 1,
          nextHistory := db.session.nextHistory + |outcome.history|),
        history := db.history + NewHistory(db.session.nextHistory, claim.event.id, outcome.history),
        events := SetStatus(db.events, claim.event.id, Handled),
        attempts := FinishAttempt(db.attempts, claim, Committed))
  }

  function CommitOutcome(db: Db, now: Time, claim: ClaimedEvent, outcome: Outcome)
    : (Db, Result<(), StoreError>)
  {
    if !ClaimHeld(db, now, claim) || db.session.stateVersion != claim.version then (db, Err(StaleClaim))
    else
      var operations := InsertOps(db.operations, claim.event.id, now, outcome.operations);
      var waits := InsertWaits(db.waits, outcome.waits);
      if operations.None? || waits.None? then (db, Err(Database))
      else
        var resumed := CancelWaits(db.(operations := operations.value, waits := waits.value), now,
                                   outcome.cancelledWaits);
        if resumed.Err? then (db, Err(resumed.error))
        else if ProgressTooLarge(outcome.progress) then (db, Err(InvalidInput))
        else if !AttemptRunningAs(db.attempts, claim) then (db, Err(StaleClaim))
        else (Acknowledged(resumed.value, claim, outcome), Ok(()))
  }

  // ---------------------------------------------------------------- gateway operations

  predicate Eligible(row: OpRow, phase: Phase, now: Time) {
    && row.nextAttempt <= now && LeaseFree(row.lease, now)
    && match phase
       case Submission => (row.status.Pending? || row.status.Submitting?)
                          && (Kind(row.hash).Llm? || Kind(row.hash).Execution?)
       case ResultRetrieval => row.status.Accepted?
       case Cancellation => (row.status.Pending? || row.status.Submitting?) && Kind(row.hash).LlmCancellation?
       case Withdrawal => (row.status.Pending? || row.status.Submitting?) && Kind(row.hash).Withdraw?
  }

  /** The claim of one eligible operation; which one is picked is left to the caller. */
  function ClaimOperation(db: Db, now: Time, id: Uuid, phase: Phase, leaseFor: Time): (Db, Option<OpClaim>) {
    if id !in db.operations || !Eligible(db.operations[id], phase, now) then (db, None)
    else
      var row := db.operations[id];
      var row' := row.(status := if row.status.Pending? then Submitting else row.status,
                       lease := Some(Lease(db.nextUuid, now + leaseFor)));
      (db.(operations := db.operations[id := row'], nextUuid := db.nextUuid + 1),
       Some(OpClaim(id, row', phase, db.nextUuid, row.status.Submitting?)))
  }

  /** `lock_valid_operation_claim` */
  function OpClaimError(db: Db, now: Time, claim: OpClaim): Option<StoreError> {
    if claim.id !in db.operations then Some(OperationNotFound)
    else if !LeaseHeld(db.operations[claim.id].lease, claim.token, now) then Some(StaleClaim)
    else None
  }

  function SetOp(db: Db, id: Uuid, row: OpRow): Db { db.(operations := db.operations[id := row]) }

  function DeferOperation(db: Db, now: Time, claim: OpClaim, retryAt: Time): (Db, Result<(), StoreError>) {
    var error := OpClaimError(db, now, claim);
    if error.Some? then (db, Err(error.value))
    else
      var row := db.operations[claim.id];
      if !(claim.phase.Submission? || claim.phase.Cancellation?) || !row.status.Submitting?
      then (db, Err(InvalidInput))
      else (SetOp(db, claim.id, row.(status := Pending, nextAttempt := retryAt, lease := None)), Ok(()))
  }

  function RecordAccepted(db: Db, now: Time, claim: OpClaim, job: Uuid, checkAt: Time)
    : (Db, Result<(), StoreError>)
  {
    var error := OpClaimError(db, now, claim);
    if error.Some? then (db, Err(error.value))
    else
      var row := db.operations[claim.id];
      if !claim.phase.Submission? || !row.status.Submitting? || row.job.Some?
      then (db, Err(InvalidInput))
      else (SetOp(db, claim.id,
                  row.(status := Accepted, job := Some(job), nextAttempt := checkAt, lease := None)), Ok(()))
  }

  function RenewOperation(db: Db, now: Time, claim: OpClaim, leaseFor: Time): (Db, Result<(), StoreError>) {
    var error := OpClaimError(db, now, claim);
    if error.Some? then (db, Err(error.value))
    else (SetOp(db, claim.id, db.operations[claim.id].(lease := Some(Lease(claim.token, now + leaseFor)))), Ok(()))
  }

  function RecordRetry(db: Db, now: Time, claim: OpClaim, uncertain: bool, retryAt: Time)
    : (Db, Result<(), StoreError>)
  {
    var error := OpClaimError(db, now, claim);
    if error.Some? then (db, Err(error.value))
    else
      var row := db.operations[claim.id];
      var next := if (claim.phase.Submission? || claim.phase.Cancellation?) && row.status.Submitting?
                  then Some(if uncertain then Submitting else Pending)
                  else if claim.phase.ResultRetrieval? && row.status.Accepted? then Some(Accepted)
                  else None;
      if next.None? then (db, Err(InvalidInput))
      else (SetOp(db, claim.id, row.(status := next.value, nextAttempt := retryAt, lease := None)), Ok(()))
  }

  function RecordPendingResult(db: Db, now: Time, claim: OpClaim, checkAt: Time): (Db, Result<(), StoreError>) {
    var error := OpClaimError(db, now, claim);
    if error.Some? then (db, Err(error.value))
    else
      var row := db.operations[claim.id];
      if !claim.phase.ResultRetrieval? || !row.status.Accepted? then (db, Err(InvalidInput))
      else (SetOp(db, claim.id, row.(nextAttempt := checkAt, lease := None)), Ok(()))
  }

  function Expiring(current: Option<Time>, expires: Option<Time>): Option<Time> {
    if expires.Some? then expires else current
  }

  function Settled(row: OpRow, status: OpStatus, result: Option<Json>, expires: Option<Time>): OpRow {
    row.(status := status, result := result, lease := None,
         requestExpires := Expiring(row.requestExpires, expires))
  }

  /** Settling a row and announcing it are one transaction. */
  function SettleOp(db: Db, now: Time, id: Uuid, status: OpStatus, result: Option<Json>, expires: Option<Time>): Db
    requires id in db.operations
  {
    Append(SetOp(db, id, Settled(db.operations[id], status, result, expires)), now,
           OperationCompleted(id, Kind(db.operations[id].hash), status), None)
  }

  function CompleteOperation(db: Db, now: Time, claim: OpClaim, status: OpStatus, result: Option<Json>,
                             expires: Option<Time>)
    : (Db, Result<EventRow, StoreError>)
  {
    if !Terminal(status) then (db, Err(InvalidInput))
    else
      var error := OpClaimError(db, now, claim);
      if error.Some? then (db, Err(error.value))
      else
        var row := db.operations[claim.id];
        var valid := match claim.phase
                     case Submission => row.status.Submitting? && status.Failed? && row.job.None?
                     case ResultRetrieval => row.status.Accepted?
                     case Cancellation => row.status.Submitting?
                     case Withdrawal => false;
        if !valid then (db, Err(InvalidInput))
        else
          var db' := SettleOp(db, now, claim.id, status, result, expires);
          (db', Ok(db'.events[|db'.events| - 1]))
  }

  function WithdrawnResult(withdrawn: bool): Json {
    if withdrawn then "{\"kind\":\"withdraw\",\"value\":{\"withdrawn\":true}}"
    else "{\"kind\":\"withdraw\",\"value\":{\"withdrawn\":false}}"
  }

  /** The target is withdrawn only while it is pending and nobody holds it; its own completion
      is announced before that of the withdrawal. */
  function CompleteWithdrawal(db: Db, now: Time, claim: OpClaim, expires: Option<Time>)
    : (Db, Result<bool, StoreError>)
  {
    if !claim.phase.Withdrawal? || !claim.row.hash.WithdrawOp? then (db, Err(InvalidInput))
    else
      var error := OpClaimError(db, now, claim);
      if error.Some? then (db, Err(error.value))
      else if !db.operations[claim.id].status.Submitting? then (db, Err(InvalidInput))
      else
        var target := claim.row.hash.target;
        if target !in db.operations then (db, Err(OperationNotFound))
        else
          var withdrawn := db.operations[target].status.Pending? && db.operations[target].lease.None?;
          var mid := if withdrawn
                     then SettleOp(db, now, target, Cancelled, db.operations[target].result, expires)
                     else db;
          (SettleOp(mid, now, claim.id, Succeeded, Some(WithdrawnResult(withdrawn)), expires), Ok(withdrawn))
  }

  function DeleteExpiredRequest(db: Db, now: Time, id: Uuid): (Db, bool) {
    if id in db.operations && db.operations[id].request.Some? && db.operations[id].requestExpires.Some?
       && db.operations[id].requestExpires.value <= now && Terminal(db.operations[id].status)
    then (SetOp(db, id, db.operations[id].(request := None, requestExpires := None)), true)
    else (db, false)
  }

  // ---------------------------------------------------------------- waits

  function ResumptionOf(events: seq<EventRow>, wait: Uuid): Option<EventRow> {
    if events == [] then None
    else if events[0].body.WaitResumed? && events[0].body.wait == wait then Some(events[0])
    else ResumptionOf(events[1..], wait)
  }

  predicate Resolvable(wait: WaitRow, now: Time) {
    && wait.status.WaitPending? && !wait.mode.ExpirationOnly?
    && (wait.expires.Some? ==> now < wait.expires.value)
  }

  function ResolveWait(db: Db, now: Time, id: Uuid, key: string, response: Json)
    : (Db, Result<WaitResolution, StoreError>)
  {
    if id !in db.waits then (db, Err(WaitNotFound))
    else
      var wait := db.waits[id];
      if wait.status.Resolved? then
        if wait.key != Some(key) || wait.response != Some(response) then (db, Err(IdempotencyConflict))
        else
          var event := ResumptionOf(db.events, id);
          (db, if event.Some? then Ok(WaitResolution(event.value, false)) else Err(Database))
      else if !Resolvable(wait, now) then (db, Err(WaitNotResolvable))
      else
        var db' := FinishWait(db.(waits := db.waits[id := wait.(response := Some(response), key := Some(key))]),
                              now, id, Resolved);
        (db', Ok(WaitResolution(db'.events[|db'.events| - 1], true)))
  }

  function ExpireWait(db: Db, now: Time, id: Uuid): (Db, Result<Option<EventRow>, StoreError>) {
    if id !in db.waits then (db, Err(WaitNotFound))
    else if !db.waits[id].status.WaitPending? || !DeadlineReached(db.waits[id], now) then (db, Ok(None))
    else
      var db' := FinishWait(db, now, id, Expired);
      (db', Ok(Some(db'.events[|db'.events| - 1])))
  }
}
