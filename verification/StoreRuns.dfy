/** Runs of the store: any number of clients calling any transaction at any time with any claim
    the store ever handed out, including claims that expired or were already used. */
module StoreRuns {
  import opened Prelude
  import opened StoreModel

  /** Bookkeeping of one successful `commit_handler_outcome`. */
  datatype Commit = Commit(claim: ClaimedEvent, outcome: Outcome)

  datatype World = World(
    db: Db, now: Time, claims: set<ClaimedEvent>, opClaims: set<OpClaim>, commits: seq<Commit>)

  datatype Step =
    | Tick(elapsed: nat)
    | Enqueue(body: EventBody, inputKey: Option<string>)
    | RetryEvent(event: Uuid, expected: nat, key: string, request: Json)
    | ClaimEvent(leaseFor: Time)
    | RenewClaim(claim: ClaimedEvent, leaseFor: Time)
    | FailAttempt(claim: ClaimedEvent, retryAt: Time, blocked: bool)
    | Abandon(claim: ClaimedEvent, retryAt: Time)
    | CommitAttempt(claim: ClaimedEvent, outcome: Outcome)
    | ClaimOp(id: Uuid, phase: Phase, leaseFor: Time)
    | DeferOp(op: OpClaim, retryAt: Time)
    | AcceptOp(op: OpClaim, job: Uuid, checkAt: Time)
    | RenewOp(op: OpClaim, leaseFor: Time)
    | RetryOp(op: OpClaim, uncertain: bool, retryAt: Time)
    | StillPending(op: OpClaim, checkAt: Time)
    | FinishWithdrawal(op: OpClaim, expires: Option<Time>)
    | CompleteOp(op: OpClaim, status: OpStatus, result: Option<Json>, expires: Option<Time>)
    | DeleteRequest(id: Uuid)
    | Resolve(wait: Uuid, key: string, response: Json)
    | Expire(wait: Uuid)

  function Start(state: Json): World { World(NewSession(state), 0, {}, {}, []) }

  /** Claims can be used only by someone the store gave them to. */
  predicate Enabled(w: World, step: Step) {
    match step
    case RenewClaim(claim, _) => claim in w.claims
    case FailAttempt(claim, _, _) => claim in w.claims
    case Abandon(claim, _) => claim in w.claims
    case CommitAttempt(claim, _) => claim in w.claims
    case DeferOp(op, _) => op in w.opClaims
    case AcceptOp(op, _, _) => op in w.opClaims
    case RenewOp(op, _) => op in w.opClaims
    case RetryOp(op, _, _) => op in w.opClaims
    case StillPending(op, _) => op in w.opClaims
    case FinishWithdrawal(op, _) => op in w.opClaims
    case CompleteOp(op, _, _, _) => op in w.opClaims
    case _ => true
  }

  function Apply(w: World, step: Step): World {
    if !Enabled(w, step) then w
    else match step
      case Tick(elapsed) => w.(now := w.now + elapsed)
      case Enqueue(body, key) => w.(db := EnqueueExternal(w.db, w.now, body, key).0)
      case RetryEvent(event, expected, key, request) =>
        w.(db := RetryBlocked(w.db, w.now, event, expected, key, request).0)
      case ClaimEvent(leaseFor) =>
        var (db, claim) := ClaimNext(w.db, w.now, leaseFor);
        w.(db := db, claims := if claim.Some? then w.claims + {claim.value} else w.claims)
      case RenewClaim(claim, leaseFor) => w.(db := RenewEvent(w.db, w.now, claim, leaseFor).0)
      case FailAttempt(claim, retryAt, blocked) =>
        w.(db := RecordFailure(w.db, w.now, claim, retryAt, blocked).0)
      case Abandon(claim, retryAt) => w.(db := AbandonAttempt(w.db, w.now, claim, retryAt).0)
      case CommitAttempt(claim, outcome) =>
        var (db, result) := CommitOutcome(w.db, w.now, claim, outcome);
        w.(db := db, commits := if result.Ok? then w.commits + [Commit(claim, outcome)] else w.commits)
      case ClaimOp(id, phase, leaseFor) =>
        var (db, claim) := ClaimOperation(w.db, w.now, id, phase, leaseFor);
        w.(db := db, opClaims := if claim.Some? then w.opClaims + {claim.value} else w.opClaims)
      case DeferOp(op, retryAt) => w.(db := DeferOperation(w.db, w.now, op, retryAt).0)
      case AcceptOp(op, job, checkAt) => w.(db := RecordAccepted(w.db, w.now, op, job, checkAt).0)
      case RenewOp(op, leaseFor) => w.(db := RenewOperation(w.db, w.now, op, leaseFor).0)
      case RetryOp(op, uncertain, retryAt) => w.(db := RecordRetry(w.db, w.now, op, uncertain, retryAt).0)
      case StillPending(op, checkAt) => w.(db := RecordPendingResult(w.db, w.now, op, checkAt).0)
      case FinishWithdrawal(op, expires) => w.(db := CompleteWithdrawal(w.db, w.now, op, expires).0)
      case CompleteOp(op, status, result, expires) =>
        w.(db := CompleteOperation(w.db, w.now, op, status, result, expires).0)
      case DeleteRequest(id) => w.(db := DeleteExpiredRequest(w.db, w.now, id).0)
      case Resolve(wait, key, response) => w.(db := ResolveWait(w.db, w.now, wait, key, response).0)
      case Expire(wait) => w.(db := ExpireWait(w.db, w.now, wait).0)
  }

  function Run(w: World, steps: seq<Step>): World {
    if steps == [] then w else Apply(Run(w, steps[..|steps| - 1]), steps[|steps| - 1])
  }

  lemma {:induction false} RunSplits(w: World, first: seq<Step>, rest: seq<Step>)
    ensures Run(w, first + rest) == Run(Run(w, first), rest)
  {
    if rest == [] {
      assert first + rest == first;
    } else {
      var n := |rest| - 1;
      assert (first + rest)[..|first| + n] == first + rest[..n];
      RunSplits(w, first, rest[..n]);
    }
  }

  // ---------------------------------------------------------------- what every transaction keeps

  /** Producers only add pending events; the handler side of the session is untouched. */
  ghost predicate InboxExtended(a: Db, b: Db) {
    var n := |a.events|;
    && n <= |b.events| && b.events[..n] == a.events
    && b.session == a.session.(nextEvent := a.session.nextEvent + |b.events| - n)
    && b.attempts == a.attempts && b.history == a.history
    && a.nextUuid <= b.nextUuid
    && (forall i :: n <= i < |b.events| ==>
          && b.events[i].sequence == a.session.nextEvent + i - n
          && b.events[i].status.EventPending? && b.events[i].baseline == 0
          && a.nextUuid <= b.events[i].id < b.nextUuid)
    && (forall i, j :: n <= i < j < |b.events| ==> b.events[i].id < b.events[j].id)
  }

  lemma ExtendsTwice(a: Db, b: Db, c: Db)
    requires InboxExtended(a, b) && InboxExtended(b, c)
    ensures InboxExtended(a, c)
  {
    assert c.events[..|a.events|] == c.events[..|b.events|][..|a.events|];
    forall i | |a.events| <= i < |b.events| ensures c.events[i] == b.events[i] {
      assert c.events[i] == c.events[..|b.events|][i];
    }
  }

  lemma {:induction false} CancelWaitsExtends(db: Db, now: Time, ids: seq<Uuid>)
    requires CancelWaits(db, now, ids).Ok?
    ensures InboxExtended(db, CancelWaits(db, now, ids).value)
    ensures CancelWaits(db, now, ids).value.operations == db.operations
  {
    if ids != [] {
      var n := |ids| - 1;
      CancelWaitsExtends(db, now, ids[..n]);
      var mid := CancelWaits(db, now, ids[..n]).value;
      ExtendsTwice(db, mid, CancelWait(mid, now, ids[n]).value);
    }
  }

  predicate HandlerStep(step: Step) {
    step.RetryEvent? || step.ClaimEvent? || step.RenewClaim? || step.FailAttempt? || step.Abandon?
    || step.CommitAttempt?
  }

  lemma SettleExtends(db: Db, now: Time, id: Uuid, status: OpStatus, result: Option<Json>, expires: Option<Time>)
    requires id in db.operations
    ensures InboxExtended(db, SettleOp(db, now, id, status, result, expires))
  {
  }

  lemma WithdrawalExtends(db: Db, now: Time, op: OpClaim, expires: Option<Time>)
    ensures InboxExtended(db, CompleteWithdrawal(db, now, op, expires).0)
  {
    if CompleteWithdrawal(db, now, op, expires).1.Ok? {
      var target := op.row.hash.target;
      var withdrawn := db.operations[target].status.Pending? && db.operations[target].lease.None?;
      var mid := db;
      if withdrawn {
        mid := SettleOp(db, now, target, Cancelled, db.operations[target].result, expires);
        SettleExtends(db, now, target, Cancelled, db.operations[target].result, expires);
      }
      SettleExtends(mid, now, op.id, Succeeded, Some(WithdrawnResult(withdrawn)), expires);
      ExtendsTwice(db, mid, SettleOp(mid, now, op.id, Succeeded, Some(WithdrawnResult(withdrawn)), expires));
    }
  }

  lemma WaitStepsExtend(w: World, step: Step)
    requires step.Resolve? || step.Expire? || step.Enqueue? || step.Tick?
    ensures InboxExtended(w.db, Apply(w, step).db)
    ensures Apply(w, step).claims == w.claims && Apply(w, step).commits == w.commits
  {
  }

  lemma ClaimStepsExtend(w: World, step: Step)
    requires step.ClaimOp? || step.DeferOp? || step.AcceptOp? || step.RenewOp? || step.RetryOp? || step.StillPending?
             || step.DeleteRequest?
    ensures InboxExtended(w.db, Apply(w, step).db)
    ensures Apply(w, step).claims == w.claims && Apply(w, step).commits == w.commits
  {
  }

  lemma SettlingStepsExtend(w: World, step: Step)
    requires step.FinishWithdrawal? || step.CompleteOp?
    ensures InboxExtended(w.db, Apply(w, step).db)
    ensures Apply(w, step).claims == w.claims && Apply(w, step).commits == w.commits
  {
    if Enabled(w, step) {
      if step.FinishWithdrawal? {
        WithdrawalExtends(w.db, w.now, step.op, step.expires);
      } else if CompleteOperation(w.db, w.now, step.op, step.status, step.result, step.expires).1.Ok? {
        SettleExtends(w.db, w.now, step.op.id, step.status, step.result, step.expires);
      }
    }
  }

  /** All producers of events other than a commit leave the handler side alone. */
  lemma ProducersExtendTheInbox(w: World, step: Step)
    requires !HandlerStep(step)
    ensures InboxExtended(w.db, Apply(w, step).db)
    ensures Apply(w, step).claims == w.claims && Apply(w, step).commits == w.commits
  {
    match step
    case FinishWithdrawal(_, _) => SettlingStepsExtend(w, step);
    case CompleteOp(_, _, _, _) => SettlingStepsExtend(w, step);
    case Resolve(_, _, _) => WaitStepsExtend(w, step);
    case Expire(_) => WaitStepsExtend(w, step);
    case Enqueue(_, _) => WaitStepsExtend(w, step);
    case Tick(_) => WaitStepsExtend(w, step);
    case _ => ClaimStepsExtend(w, step);
  }
}
