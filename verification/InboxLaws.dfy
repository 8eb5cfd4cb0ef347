/** Keyed input is stored once: in every run, whatever happens in between, sending it again finds it. */
module InboxLaws {
  import opened Prelude
  import opened StoreModel
  import opened StoreRuns
  import opened CommitLaws

  // ---------------------------------------------------------------- what steps do to keys

  predicate SameInput(a: EventRow, b: EventRow) {
    a.id == b.id && a.sequence == b.sequence && a.body == b.body && a.key == b.key
  }

  ghost predicate InputsKept(a: Db, b: Db) {
    |a.events| <= |b.events| && forall i :: 0 <= i < |a.events| ==> SameInput(a.events[i], b.events[i])
  }

  /** Events may be added, but none with a key. */
  ghost predicate NoKeyAdded(a: Db, b: Db) {
    InputsKept(a, b) && forall i :: |a.events| <= i < |b.events| ==> b.events[i].key.None?
  }

  lemma NoKeyAddedTwice(a: Db, b: Db, c: Db)
    requires NoKeyAdded(a, b) && NoKeyAdded(b, c)
    ensures NoKeyAdded(a, c)
  {
    forall i | 0 <= i < |c.events| ensures if i < |a.events| then SameInput(a.events[i], c.events[i]) else c.events[i].key.None? {
      if i < |b.events| { assert SameInput(b.events[i], c.events[i]); }
    }
  }

  lemma {:induction false} CancellingAddsNoKey(db: Db, now: Time, ids: seq<Uuid>)
    requires CancelWaits(db, now, ids).Ok?
    ensures NoKeyAdded(db, CancelWaits(db, now, ids).value)
  {
    if ids != [] {
      var init := ids[..|ids| - 1];
      CancellingAddsNoKey(db, now, init);
      NoKeyAddedTwice(db, CancelWaits(db, now, init).value, CancelWaits(db, now, ids).value);
    }
  }

  lemma CommittingAddsNoKey(db: Db, now: Time, claim: ClaimedEvent, outcome: Outcome)
    ensures NoKeyAdded(db, CommitOutcome(db, now, claim, outcome).0)
  {
    if CommitOutcome(db, now, claim, outcome).1.Ok? {
      CommitRows(db, now, claim, outcome);
      var staged := db.(operations := InsertOps(db.operations, claim.event.id, now, outcome.operations).value,
                        waits := InsertWaits(db.waits, outcome.waits).value);
      CancellingAddsNoKey(staged, now, outcome.cancelledWaits);
    }
  }

  lemma SettlingAddsNoKey(db: Db, now: Time, op: OpClaim, expires: Option<Time>)
    ensures NoKeyAdded(db, CompleteWithdrawal(db, now, op, expires).0)
  {
    if CompleteWithdrawal(db, now, op, expires).1.Ok? {
      var target := op.row.hash.target;
      var withdrawn := db.operations[target].status.Pending? && db.operations[target].lease.None?;
      var mid := if withdrawn then SettleOp(db, now, target, Cancelled, db.operations[target].result, expires) else db;
      NoKeyAddedTwice(db, mid, SettleOp(mid, now, op.id, Succeeded, Some(WithdrawnResult(withdrawn)), expires));
    }
  }

  lemma HandlersAddNoKey(w: World, step: Step)
    requires HandlerStep(step)
    ensures NoKeyAdded(w.db, Apply(w, step).db)
  {
    if step.CommitAttempt? { CommittingAddsNoKey(w.db, w.now, step.claim, step.outcome); }
  }

  lemma WorkersAddNoKey(w: World, step: Step)
    requires !HandlerStep(step) && !step.Enqueue? && !step.FinishWithdrawal?
    ensures NoKeyAdded(w.db, Apply(w, step).db)
  {
  }

  /** Only new input brings a key. */
  lemma OthersAddNoKey(w: World, step: Step)
    requires !step.Enqueue?
    ensures NoKeyAdded(w.db, Apply(w, step).db)
  {
    if HandlerStep(step) {
      HandlersAddNoKey(w, step);
    } else if step.FinishWithdrawal? {
      SettlingAddsNoKey(w.db, w.now, step.op, step.expires);
    } else {
      WorkersAddNoKey(w, step);
    }
  }

  // ---------------------------------------------------------------- the invariant

  /** The event is the stored input of this type with this key. */
  predicate KeyedAs(event: EventRow, body: EventBody, key: string) { SameType(event.body, body) && event.key == Some(key) }

  ghost predicate KeysUnique(events: seq<EventRow>) {
    && (forall i :: 0 <= i < |events| && events[i].key.Some? ==> External(events[i].body))
    && (forall i, j :: 0 <= i < j < |events| && events[i].key.Some? ==>
          !KeyedAs(events[j], events[i].body, events[i].key.value))
  }

  lemma {:induction false} FoundInput(events: seq<EventRow>, body: EventBody, key: string)
    ensures var found := FindInput(events, body, key);
            && (found.None? <==> forall i :: 0 <= i < |events| ==> !KeyedAs(events[i], body, key))
            && (found.Some? ==> exists i :: 0 <= i < |events| && events[i] == found.value && KeyedAs(events[i], body, key))
  {
    if events != [] && !KeyedAs(events[0], body, key) {
      FoundInput(events[1..], body, key);
      if FindInput(events[1..], body, key).Some? {
        var i :| 0 <= i < |events[1..]| && events[1..][i] == FindInput(events[1..], body, key).value;
        assert events[i + 1] == events[1..][i];
      } else {
        forall i | 0 <= i < |events| ensures !KeyedAs(events[i], body, key) {
          if i > 0 { assert events[i] == events[1..][i - 1]; }
        }
      }
    }
  }

  lemma FoundAt(events: seq<EventRow>, body: EventBody, key: string, i: nat)
    requires i < |events| && KeyedAs(events[i], body, key) && KeysUnique(events) && External(body)
    ensures FindInput(events, body, key) == Some(events[i])
  {
    FoundInput(events, body, key);
    var j :| 0 <= j < |events| && events[j] == FindInput(events, body, key).value && KeyedAs(events[j], body, key);
    OnlyOne(events, body, key, if i < j then i else j, if i < j then j else i);
  }

  lemma OnlyOne(events: seq<EventRow>, body: EventBody, key: string, i: nat, j: nat)
    requires i <= j < |events| && KeysUnique(events) && KeyedAs(events[i], body, key) && KeyedAs(events[j], body, key)
    ensures i == j
  {
  }

  lemma EnqueueKeepsUnique(db: Db, now: Time, body: EventBody, key: Option<string>)
    requires KeysUnique(db.events)
    ensures KeysUnique(EnqueueExternal(db, now, body, key).0.events) && InputsKept(db, EnqueueExternal(db, now, body, key).0)
  {
    var after := EnqueueExternal(db, now, body, key).0;
    if after != db {
      if key.Some? { FoundInput(db.events, body, key.value); }
      var n := |db.events|;
      forall i | 0 <= i < n && after.events[i].key.Some?
        ensures !KeyedAs(after.events[n], after.events[i].body, after.events[i].key.value)
      {
        if key.Some? && key == after.events[i].key { assert !KeyedAs(db.events[i], body, key.value); }
      }
    }
  }

  lemma NoKeyKeepsUnique(a: Db, b: Db)
    requires KeysUnique(a.events) && NoKeyAdded(a, b)
    ensures KeysUnique(b.events)
  {
    forall i | 0 <= i < |b.events| && b.events[i].key.Some? ensures i < |a.events| && SameInput(a.events[i], b.events[i]) {}
  }

  lemma StepKeepsUnique(w: World, step: Step)
    requires KeysUnique(w.db.events)
    ensures KeysUnique(Apply(w, step).db.events) && InputsKept(w.db, Apply(w, step).db)
  {
    if step.Enqueue? {
      EnqueueKeepsUnique(w.db, w.now, step.body, step.inputKey);
    } else {
      OthersAddNoKey(w, step);
      NoKeyKeepsUnique(w.db, Apply(w, step).db);
    }
  }

  lemma {:induction false} RunKeepsUnique(w: World, steps: seq<Step>)
    requires KeysUnique(w.db.events)
    ensures KeysUnique(Run(w, steps).db.events) && InputsKept(w.db, Run(w, steps).db)
  {
    if steps != [] {
      RunKeepsUnique(w, steps[..|steps| - 1]);
      StepKeepsUnique(Run(w, steps[..|steps| - 1]), steps[|steps| - 1]);
    }
  }

  // ---------------------------------------------------------------- main results

  /** In every run no two external events have the same type and key. */
  lemma KeyedInputIsStoredOnce(init: Json, steps: seq<Step>, i: nat, j: nat)
    requires var events := Run(Start(init), steps).db.events;
             i < j < |events| && events[i].key.Some? && events[i].key == events[j].key
    ensures var events := Run(Start(init), steps).db.events; !SameType(events[i].body, events[j].body)
  {
    RunKeepsUnique(Start(init), steps);
    var events := Run(Start(init), steps).db.events;
    assert !KeyedAs(events[j], events[i].body, events[i].key.value);
  }

  /** An input that was taken, new or repeated. */
  function EventOf(enqueued: Enqueued): EventRow { enqueued.event }

  /** An accepted input is in the inbox, at the end if it is new, with the body and key that were sent. */
  lemma AcceptedInputIsStored(db: Db, now: Time, body: EventBody, key: Option<string>)
    requires EnqueueExternal(db, now, body, key).1.Ok?
    ensures var (after, result) := EnqueueExternal(db, now, body, key); var event := EventOf(result.value);
            && event.body == body && event.key == key && External(body)
            && (result.value.Inserted? ==>
                  after.events == db.events + [event] && event.sequence == db.session.nextEvent && event.status.EventPending?)
            && (result.value.Existing? ==> after == db && key.Some?)
            && exists i :: 0 <= i < |after.events| && after.events[i] == event
  {
    var (after, result) := EnqueueExternal(db, now, body, key);
    if result.value.Existing? {
      FoundInput(db.events, body, key.value);
    } else {
      assert after.events[|db.events|] == EventOf(result.value);
    }
  }

  lemma StillStored(a: Db, b: Db, now: Time, i: nat, body: EventBody, key: string)
    requires InputsKept(a, b) && KeysUnique(b.events) && External(body)
    requires i < |a.events| && KeyedAs(a.events[i], body, key)
    ensures var again := EnqueueExternal(b, now, body, Some(key));
            && again.0 == b
            && (if body == a.events[i].body
                then again.1.Ok? && again.1.value.Existing? && SameInput(a.events[i], EventOf(again.1.value))
                else again.1 == Err(IdempotencyConflict))
  {
    assert SameInput(a.events[i], b.events[i]);
    FoundAt(b.events, body, key, i);
  }

  /** Sending a keyed input again at any later time, with the same type and key, returns the event that was
      stored first and changes nothing if the body is the same, and conflicts if it is not. */
  lemma ResentInputFindsTheFirst(init: Json, steps: seq<Step>, more: seq<Step>, body: EventBody, key: string, body': EventBody)
    requires var w := Run(Start(init), steps); EnqueueExternal(w.db, w.now, body, Some(key)).1.Ok?
    requires SameType(body, body')
    ensures var w := Run(Start(init), steps);
            var first := EventOf(EnqueueExternal(w.db, w.now, body, Some(key)).1.value);
            var later := Run(Apply(w, Enqueue(body, Some(key))), more);
            var again := EnqueueExternal(later.db, later.now, body', Some(key));
            && again.0 == later.db
            && (if body' == body then again.1.Ok? && again.1.value.Existing? && SameInput(first, EventOf(again.1.value))
                else again.1 == Err(IdempotencyConflict))
  {
    RunKeepsUnique(Start(init), steps);
    var w := Run(Start(init), steps);
    var next := Apply(w, Enqueue(body, Some(key)));
    AcceptedInputIsStored(w.db, w.now, body, Some(key));
    StepKeepsUnique(w, Enqueue(body, Some(key)));
    RunKeepsUnique(next, more);
    var first := EventOf(EnqueueExternal(w.db, w.now, body, Some(key)).1.value);
    var i :| 0 <= i < |next.db.events| && next.db.events[i] == first;
    StillStored(next.db, Run(next, more).db, Run(next, more).now, i, body', key);
  }
}
