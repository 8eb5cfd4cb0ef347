/** The replayable log of session updates: emitting, pruning and paging. */
module UpdateLog {
  import opened Prelude

  type SessionId = nat
  type Time = int

  datatype Update = Update(sequence: int, kind: string, payload: string, source: Option<nat>, created: Time)

  /** `updates` is the table in sequence order; `retained` the first sequence a reader may still need. */
  datatype Log = Log(next: int, retained: int, updates: seq<Update>)

  datatype UpdateError = InvalidInput | SessionNotFound | UpdateCursorExpired

  datatype Page = Page(updates: seq<Update>, through: int, retained: int, hasMore: bool)

  function NewLog(): Log { Log(1, 1, []) }

  // ---------------------------------------------------------------- the three operations on one session

  function Emit(log: Log, kind: string, payload: string, source: Option<nat>, created: Time): Log {
    Log(log.next + 1, log.retained, log.updates + [Update(log.next, kind, payload, source, created)])
  }

  /** Rows with `after < sequence <= through`, at most `limit` of them. */
  function Select(rows: seq<Update>, after: int, through: int, limit: nat): seq<Update> {
    if rows == [] || limit == 0 then []
    else if after < rows[0].sequence <= through then [rows[0]] + Select(rows[1..], after, through, limit - 1)
    else Select(rows[1..], after, through, limit)
  }

  function PageOf(log: Log, after: int, requested: Option<int>, limit: int): Result<Page, UpdateError> {
    if after < 0 || limit < 1 || limit > 1000 then Err(InvalidInput)
    else if after < log.retained - 1 then Err(UpdateCursorExpired)
    else
      var current := log.next - 1;
      var through := requested.GetOr(current);
      if through < after || through > current then Err(InvalidInput)
      else
        var rows := Select(log.updates, after, through, limit + 1);
        Ok(Page(if |rows| > limit then rows[..limit] else rows, through, log.retained, |rows| > limit))
  }

  /** Rows created before `before`, at most `limit` of them. */
  function Old(rows: seq<Update>, before: Time, limit: nat): seq<Update> {
    if rows == [] || limit == 0 then []
    else if rows[0].created < before then [rows[0]] + Old(rows[1..], before, limit - 1)
    else Old(rows[1..], before, limit)
  }

  function Beyond(rows: seq<Update>, maximum: int): seq<Update> {
    if rows == [] then []
    else if rows[0].sequence <= maximum then Beyond(rows[1..], maximum)
    else [rows[0]] + Beyond(rows[1..], maximum)
  }

  function Max(a: int, b: int): int { if a < b then b else a }

  /** One session's turn in a pruning sweep: everything up to the last of its oldest expired rows goes,
      rows created later included. */
  function Prune(log: Log, before: Time): Log {
    var sequences := Old(log.updates, before, 1000);
    if sequences == [] then log
    else
      var maximum := sequences[|sequences| - 1].sequence;
      log.(updates := Beyond(log.updates, maximum), retained := Max(log.retained, maximum + 1))
  }

  // ---------------------------------------------------------------- the stored range

  /** The stored updates are exactly the range from `retained` to `next - 1`. */
  predicate GapFree(log: Log) {
    && 1 <= log.retained <= log.next && |log.updates| == log.next - log.retained
    && forall i :: 0 <= i < |log.updates| ==> log.updates[i].sequence == log.retained + i
  }

  predicate Consecutive(rows: seq<Update>, first: int) {
    forall i :: 0 <= i < |rows| ==> rows[i].sequence == first + i
  }

  function Least(a: int, b: int): int { if a < b then a else b }

  /** Rows at or before the cursor are skipped. */
  lemma {:induction false} SelectSkips(rows: seq<Update>, first: int, after: int, through: int, limit: nat)
    requires Consecutive(rows, first) && first - 1 <= after < first + |rows|
    ensures Select(rows, after, through, limit) == Select(rows[after + 1 - first..], after, through, limit)
  {
    if after == first - 1 {
      assert rows[0..] == rows;
    } else if limit != 0 {
      SelectSkips(rows[1..], first + 1, after, through, limit);
      assert rows[1..][after - first..] == rows[after + 1 - first..];
    }
  }

  /** Then come the rows up to the bound, as many as asked for. */
  lemma {:induction false} SelectTakes(rows: seq<Update>, first: int, after: int, through: int, limit: nat)
    requires Consecutive(rows, first) && after < first && first - 1 <= through < first + |rows|
    ensures Select(rows, after, through, limit) == rows[..Least(through + 1 - first, limit)]
  {
    if rows != [] && limit != 0 {
      if first <= through {
        SelectTakes(rows[1..], first + 1, after, through, limit - 1);
        var n := Least(through + 1 - first, limit);
        assert [rows[0]] + rows[1..][..n - 1] == rows[..n];
      } else {
        SelectsNothing(rows, first, after, through, limit);
      }
    }
  }

  lemma {:induction false} SelectsNothing(rows: seq<Update>, first: int, after: int, through: int, limit: nat)
    requires Consecutive(rows, first) && through < first
    ensures Select(rows, after, through, limit) == []
  {
    if rows != [] && limit != 0 { SelectsNothing(rows[1..], first + 1, after, through, limit); }
  }

  /** On a consecutive range a bounded range query is a slice. */
  lemma SelectIsASlice(rows: seq<Update>, first: int, after: int, through: int, limit: nat)
    requires Consecutive(rows, first) && first - 1 <= after <= through < first + |rows|
    ensures var from := after + 1 - first;
            Select(rows, after, through, limit) == rows[from..from + Least(through - after, limit)]
  {
    var from := after + 1 - first;
    var n := Least(through - after, limit);
    SelectSkips(rows, first, after, through, limit);
    SelectTakes(rows[from..], after + 1, after, through, limit);
    assert rows[from..][..n] == rows[from..from + n];
  }

  lemma {:induction false} OldAreRows(rows: seq<Update>, before: Time, limit: nat)
    ensures forall i :: 0 <= i < |Old(rows, before, limit)| ==> Old(rows, before, limit)[i] in rows
  {
    if rows != [] && limit != 0 {
      OldAreRows(rows[1..], before, if rows[0].created < before then limit - 1 else limit);
    }
  }

  lemma {:induction false} BeyondIsASuffix(rows: seq<Update>, first: int, maximum: int)
    requires Consecutive(rows, first) && first - 1 <= maximum < first + |rows|
    ensures Beyond(rows, maximum) == rows[maximum + 1 - first..]
  {
    if rows != [] {
      if maximum < first {
        BeyondIsASuffix(rows[1..], first + 1, first);
        BeyondKeepsAll(rows[1..], first + 1, maximum);
      } else {
        BeyondIsASuffix(rows[1..], first + 1, maximum);
        assert rows[1..][maximum - first..] == rows[maximum + 1 - first..];
      }
    }
  }

  lemma {:induction false} BeyondKeepsAll(rows: seq<Update>, first: int, maximum: int)
    requires Consecutive(rows, first) && maximum < first
    ensures Beyond(rows, maximum) == rows
  {
    if rows != [] { BeyondKeepsAll(rows[1..], first + 1, maximum); }
  }

  /** Pruning drops a prefix of the range and says so. */
  lemma PruneDropsAPrefix(log: Log, before: Time)
    requires GapFree(log)
    ensures var after := Prune(log, before);
            && GapFree(after) && after.next == log.next && log.retained <= after.retained
            && after.updates == log.updates[after.retained - log.retained..]
  {
    var sequences := Old(log.updates, before, 1000);
    if sequences != [] {
      OldAreRows(log.updates, before, 1000);
      var last := sequences[|sequences| - 1];
      assert last in log.updates;
      var i :| 0 <= i < |log.updates| && log.updates[i] == last;
      BeyondIsASuffix(log.updates, log.retained, last.sequence);
    }
  }

  /** Every expired row among the oldest thousand goes. */
  lemma {:induction false} OldestExpiredRowsGo(log: Log, before: Time)
    requires GapFree(log) && |Old(log.updates, before, 1000)| < 1000
    ensures forall u :: u in Prune(log, before).updates ==> u.created >= before
  {
    PruneDropsAPrefix(log, before);
    forall u | u in Prune(log, before).updates ensures u.created >= before {
      var after := Prune(log, before);
      var i :| 0 <= i < |after.updates| && after.updates[i] == u;
      assert log.updates[after.retained - log.retained + i] == u;
      if u.created < before {
        ExpiredAreFound(log.updates, before, 1000, after.retained - log.retained + i);
        OldestLast(log.updates, log.retained, before, 1000, u);
      }
    }
  }

  lemma {:induction false} ExpiredAreFound(rows: seq<Update>, before: Time, limit: nat, i: nat)
    requires i < |rows| && rows[i].created < before && |Old(rows, before, limit)| < limit
    ensures rows[i] in Old(rows, before, limit)
  {
    if i > 0 {
      ExpiredAreFound(rows[1..], before, if rows[0].created < before then limit - 1 else limit, i - 1);
    }
  }

  lemma {:induction false} OldestLast(rows: seq<Update>, first: int, before: Time, limit: nat, u: Update)
    requires Consecutive(rows, first) && u in Old(rows, before, limit)
    ensures var found := Old(rows, before, limit); u.sequence <= found[|found| - 1].sequence
    decreases |rows|
  {
    var rest := Old(rows[1..], before, if rows[0].created < before then limit - 1 else limit);
    if u in rest {
      OldestLast(rows[1..], first + 1, before, if rows[0].created < before then limit - 1 else limit, u);
    } else if rest != [] {
      OldAreRows(rows[1..], before, if rows[0].created < before then limit - 1 else limit);
      assert rest[|rest| - 1] in rows[1..];
    }
  }

  // ---------------------------------------------------------------- a reader among writers and sweeps

  /** `emitted` is everything ever emitted; the reader started after `start` and pages up to `through`,
      which its first page fixes. */
  datatype Reading = Reading(
    log: Log, emitted: seq<Update>, start: nat, through: Option<int>, cursor: nat, got: seq<Update>,
    expired: bool, finished: bool)

  datatype Action =
    | EmitOne(kind: string, payload: string, source: Option<nat>, created: Time)
    | Sweep(before: Time)
    | Read(limit: int)

  function Stepped(r: Reading, action: Action): Reading {
    match action
    case EmitOne(kind, payload, source, created) =>
      var log := Emit(r.log, kind, payload, source, created);
      r.(log := log, emitted := r.emitted + [log.updates[|log.updates| - 1]])
    case Sweep(before) => r.(log := Prune(r.log, before))
    case Read(limit) =>
      if r.expired || r.finished then r
      else match PageOf(r.log, r.cursor, r.through, limit)
        case Err(error) => if error.UpdateCursorExpired? then r.(expired := true) else r
        case Ok(page) =>
          r.(through := Some(page.through), got := r.got + page.updates, cursor := r.cursor + |page.updates|,
             finished := !page.hasMore)
  }

  function ReaderRun(start: nat, actions: seq<Action>): Reading {
    if actions == [] then Reading(NewLog(), [], start, None, start, [], false, false)
    else Stepped(ReaderRun(start, actions[..|actions| - 1]), actions[|actions| - 1])
  }

  ghost predicate LogInv(log: Log, emitted: seq<Update>) {
    && GapFree(log) && |emitted| == log.next - 1 && Consecutive(emitted, 1)
    && log.updates == emitted[log.retained - 1..]
  }

  ghost predicate ReaderInv(r: Reading) {
    if r.through.None? then r.cursor == r.start && r.got == [] && !r.finished
    else
      && r.start <= r.cursor <= r.through.value <= |r.emitted|
      && r.got == r.emitted[r.start..r.cursor]
      && (r.finished ==> r.cursor == r.through.value)
  }

  lemma RowsAreASlice(log: Log, emitted: seq<Update>, after: int, through: int, limit: nat)
    requires LogInv(log, emitted) && log.retained - 1 <= after <= through < log.next
    ensures Select(log.updates, after, through, limit) == emitted[after..after + Least(through - after, limit)]
  {
    SelectIsASlice(log.updates, log.retained, after, through, limit);
    SliceOfSuffix(emitted, log.retained - 1, after, Least(through - after, limit));
  }

  lemma FirstRows(emitted: seq<Update>, after: nat, many: nat, limit: nat)
    requires after + many <= |emitted|
    ensures var rows := emitted[after..after + many];
            (if |rows| > limit then rows[..limit] else rows) == emitted[after..after + Least(many, limit)]
  {
  }

  lemma PageIs(log: Log, after: int, requested: Option<int>, limit: int)
    requires PageOf(log, after, requested, limit).Ok?
    ensures var through := requested.GetOr(log.next - 1); var rows := Select(log.updates, after, through, limit + 1);
            && 0 <= after <= through < log.next && log.retained - 1 <= after && 1 <= limit
            && PageOf(log, after, requested, limit).value
               == Page(if |rows| > limit then rows[..limit] else rows, through, log.retained, |rows| > limit)
  {
  }

  /** What one page holds, in terms of everything ever emitted. */
  lemma PageIsASlice(log: Log, emitted: seq<Update>, after: int, requested: Option<int>, limit: int)
    requires LogInv(log, emitted) && PageOf(log, after, requested, limit).Ok?
    ensures var page := PageOf(log, after, requested, limit).value;
            && 0 <= after <= page.through <= |emitted| && log.retained - 1 <= after
            && page.through == requested.GetOr(|emitted|)
            && page.updates == emitted[after..after + Least(page.through - after, limit)]
            && (page.hasMore <==> after + limit < page.through)
  {
    var through := requested.GetOr(log.next - 1);
    PageIs(log, after, requested, limit);
    RowsAreASlice(log, emitted, after, through, limit + 1);
    PageOfSlice(log, emitted, after, through, limit, Select(log.updates, after, through, limit + 1));
  }

  lemma PageOfSlice(log: Log, emitted: seq<Update>, after: nat, through: int, limit: nat, rows: seq<Update>)
    requires after <= through <= |emitted|
    requires rows == emitted[after..after + Least(through - after, limit + 1)]
    ensures (if |rows| > limit then rows[..limit] else rows) == emitted[after..after + Least(through - after, limit)]
    ensures |rows| > limit <==> after + limit < through
  {
    var many := Least(through - after, limit + 1);
    FirstRows(emitted, after, many, limit);
    assert Least(many, limit) == Least(through - after, limit);
  }

  lemma SliceOfSuffix(s: seq<Update>, drop: nat, from: nat, n: nat)
    requires drop <= from && from + n <= |s|
    ensures s[drop..][from - drop..from - drop + n] == s[from..from + n]
  {
  }

  lemma EmitKeepsLogInv(log: Log, emitted: seq<Update>, kind: string, payload: string, source: Option<nat>, created: Time)
    requires LogInv(log, emitted)
    ensures var after := Emit(log, kind, payload, source, created);
            LogInv(after, emitted + [after.updates[|after.updates| - 1]])
  {
  }

  lemma PruneKeepsLogInv(log: Log, emitted: seq<Update>, before: Time)
    requires LogInv(log, emitted)
    ensures LogInv(Prune(log, before), emitted)
  {
    PruneDropsAPrefix(log, before);
    var after := Prune(log, before);
    assert emitted[log.retained - 1..][after.retained - log.retained..] == emitted[after.retained - 1..];
  }

  lemma NextSlice(s: seq<Update>, from: nat, to: nat, n: nat)
    requires from <= to && to + n <= |s|
    ensures s[from..to] + s[to..to + n] == s[from..to + n]
  {
  }

  lemma GotGrows(r: Reading, page: Page, limit: nat)
    requires ReaderInv(r) && !r.finished && r.cursor <= page.through <= |r.emitted|
    requires page.through == r.through.GetOr(|r.emitted|)
    requires page.updates == r.emitted[r.cursor..r.cursor + Least(page.through - r.cursor, limit)]
    requires page.hasMore <==> r.cursor + limit < page.through
    requires r.through.None? ==> r.start <= page.through
    ensures ReaderInv(r.(through := Some(page.through), got := r.got + page.updates,
                         cursor := r.cursor + |page.updates|, finished := !page.hasMore))
  {
    var n := Least(page.through - r.cursor, limit);
    NextSlice(r.emitted, r.start, r.cursor, n);
    assert r.emitted[r.cursor..r.cursor] == [];
  }

  lemma ReadKeepsReaderInv(r: Reading, limit: int)
    requires LogInv(r.log, r.emitted) && ReaderInv(r)
    ensures ReaderInv(Stepped(r, Read(limit)))
  {
    if !r.expired && !r.finished && PageOf(r.log, r.cursor, r.through, limit).Ok? {
      PageIsASlice(r.log, r.emitted, r.cursor, r.through, limit);
      GotGrows(r, PageOf(r.log, r.cursor, r.through, limit).value, limit);
    }
  }

  lemma StepKeepsReaderInv(r: Reading, action: Action)
    requires LogInv(r.log, r.emitted) && ReaderInv(r)
    ensures var r' := Stepped(r, action); LogInv(r'.log, r'.emitted) && ReaderInv(r')
  {
    match action
    case EmitOne(kind, payload, source, created) => EmitKeepsLogInv(r.log, r.emitted, kind, payload, source, created);
    case Sweep(before) => PruneKeepsLogInv(r.log, r.emitted, before);
    case Read(limit) => ReadKeepsReaderInv(r, limit);
  }

  lemma {:induction false} RunKeepsReaderInv(start: nat, actions: seq<Action>)
    ensures var r := ReaderRun(start, actions); LogInv(r.log, r.emitted) && ReaderInv(r) && r.start == start
  {
    if actions != [] {
      RunKeepsReaderInv(start, actions[..|actions| - 1]);
      StepKeepsReaderInv(ReaderRun(start, actions[..|actions| - 1]), actions[|actions| - 1]);
    }
  }

  // ---------------------------------------------------------------- main results

  /** In every state the log holds exactly the updates from `retained` to `next - 1`, as emitted. */
  lemma LogIsGapFree(start: nat, actions: seq<Action>)
    ensures var r := ReaderRun(start, actions);
            && GapFree(r.log) && |r.emitted| == r.log.next - 1 && Consecutive(r.emitted, 1)
            && r.log.updates == r.emitted[r.log.retained - 1..]
  {
    RunKeepsReaderInv(start, actions);
  }

  /** However pages interleave with emits and sweeps, a reader has received every update after its
      start exactly once and in order, and has received all of them up to `through` once it is told
      that there are no more. */
  lemma ReplayIsGapFree(start: nat, actions: seq<Action>)
    ensures var r := ReaderRun(start, actions);
            && (r.through.None? ==> r.got == [])
            && (r.through.Some? ==>
                  start <= r.cursor <= r.through.value <= |r.emitted| && r.got == r.emitted[start..r.cursor])
            && (r.finished ==> r.through.Some? && r.got == r.emitted[start..r.through.value])
  {
    RunKeepsReaderInv(start, actions);
  }

  /** A page request with valid arguments either expires, exactly when the next update it needs is
      gone, or moves the reader on. */
  lemma PagesExpireOrAdvance(start: nat, actions: seq<Action>, limit: int)
    requires 1 <= limit <= 1000
    requires var r := ReaderRun(start, actions); !r.expired && !r.finished && (r.through.None? ==> start <= |r.emitted|)
    ensures var r := ReaderRun(start, actions); var r' := Stepped(r, Read(limit));
            && (r'.expired <==> r.cursor + 1 < r.log.retained)
            && (!r'.expired ==>
                  r'.through.Some? && r'.cursor == Least(r'.through.value, r.cursor + limit)
                  && (r'.finished <==> r'.cursor == r'.through.value))
  {
    RunKeepsReaderInv(start, actions);
    var r := ReaderRun(start, actions);
    if PageOf(r.log, r.cursor, r.through, limit).Ok? {
      PageIsASlice(r.log, r.emitted, r.cursor, r.through, limit);
    }
  }

  /** A page holds the consecutive updates after the cursor, up to its limit, and says whether any are left. */
  predicate PageHolds(page: Page, after: int, limit: int) {
    && |page.updates| == Least(page.through - after, limit)
    && (forall i :: 0 <= i < |page.updates| ==> page.updates[i].sequence == after + 1 + i)
    && (page.hasMore <==> after + |page.updates| < page.through)
  }

  lemma PagesHold(log: Log, after: int, requested: Option<int>, limit: int)
    requires GapFree(log) && PageOf(log, after, requested, limit).Ok?
    ensures PageHolds(PageOf(log, after, requested, limit).value, after, limit)
  {
    var through := requested.GetOr(log.next - 1);
    SelectIsASlice(log.updates, log.retained, after, through, limit + 1);
    SlicesHold(log, after, through, limit);
  }

  lemma SlicesHold(log: Log, after: int, through: int, limit: nat)
    requires GapFree(log) && log.retained - 1 <= after <= through < log.next
    ensures var from := after + 1 - log.retained; var n := Least(through - after, limit + 1);
            var rows := log.updates[from..from + n];
            PageHolds(Page(if |rows| > limit then rows[..limit] else rows, through, log.retained, |rows| > limit), after, limit)
  {
  }

  // ---------------------------------------------------------------- the store's methods

  /** How many rows a sweep over `ids` removes. */
  function Removed(logs: map<SessionId, Log>, ids: seq<SessionId>, locked: set<SessionId>, before: Time): int
    requires forall i :: 0 <= i < |ids| ==> ids[i] in logs
  {
    if ids == [] then 0
    else
      var id := ids[|ids| - 1];
      Removed(logs, ids[..|ids| - 1], locked, before)
      + if id in locked then 0 else |logs[id].updates| - |Prune(logs[id], before).updates|
  }

  class UpdateStore {
    var logs: map<SessionId, Log>

    ghost predicate Valid()
      reads this
    {
      forall id :: id in logs ==> GapFree(logs[id])
    }

    constructor ()
      ensures Valid() && logs == map[]
    {
      logs := map[];
    }

    method CreateSession(id: SessionId)
      requires Valid() && id !in logs
      modifies this
      ensures Valid() && logs == old(logs)[id := NewLog()]
    {
      logs := logs[id := NewLog()];
    }

    method EmitUpdate(id: SessionId, kind: string, payload: string, source: Option<nat>, created: Time)
      requires Valid() && id in logs
      modifies this
      ensures Valid() && logs == old(logs)[id := Emit(old(logs)[id], kind, payload, source, created)]
    {
      var sequence := logs[id].next;
      logs := logs[id := logs[id].(next := sequence + 1)];
      var update := Update(sequence, kind, payload, source, created);
      logs := logs[id := logs[id].(updates := logs[id].updates + [update])];
    }

    method Updates(id: SessionId, after: int, requested: Option<int>, limit: int)
      returns (result: Result<Page, UpdateError>)
      requires Valid()
      ensures after < 0 || limit < 1 || limit > 1000 ==> result == Err(InvalidInput)
      ensures after >= 0 && 1 <= limit <= 1000 && id !in logs ==> result == Err(SessionNotFound)
      ensures after >= 0 && 1 <= limit <= 1000 && id in logs ==> result == PageOf(logs[id], after, requested, limit)
      ensures result.Ok? ==> PageHolds(result.value, after, limit)
    {
      if after < 0 || limit < 1 || limit > 1000 { return Err(InvalidInput); }
      if id !in logs { return Err(SessionNotFound); }
      var log := logs[id];
      var current, retained := log.next - 1, log.retained;
      if after < retained - 1 { return Err(UpdateCursorExpired); }
      var through := requested.GetOr(current);
      if through < after || through > current { return Err(InvalidInput); }
      var rows := Select(log.updates, after, through, limit + 1);
      var hasMore := |rows| > limit;
      result := Ok(Page(if hasMore then rows[..limit] else rows, through, retained, hasMore));
      PagesHold(log, after, requested, limit);
    }

    /** One session's turn in a sweep. */
    method PruneOne(before: Time, id: SessionId) returns (count: nat)
      requires Valid() && id in logs
      modifies this
      ensures Valid() && logs == old(logs)[id := Prune(old(logs)[id], before)]
      ensures count == |old(logs)[id].updates| - |logs[id].updates|
    {
      var log := logs[id];
      var sequences := Old(log.updates, before, 1000);
      count := 0;
      PruneDropsAPrefix(log, before);
      if |sequences| > 0 {
        var maximum := sequences[|sequences| - 1].sequence;
        var kept := Beyond(log.updates, maximum);
        logs := logs[id := log.(updates := kept, retained := Max(log.retained, maximum + 1))];
        count := |log.updates| - |kept|;
      }
    }

    /** `ids` are the sessions the sweep found expired rows for, `locked` those another transaction
        holds at their turn. */
    method PruneUpdates(before: Time, sessionLimit: int, ids: seq<SessionId>, locked: set<SessionId>)
      returns (result: Result<nat, UpdateError>)
      requires Valid() && |ids| <= Max(sessionLimit, 0)
      requires forall i :: 0 <= i < |ids| ==> ids[i] in logs
      requires forall i, j :: 0 <= i < j < |ids| ==> ids[i] != ids[j]
      modifies this
      ensures Valid() && logs.Keys == old(logs).Keys
      ensures result.Err? <==> sessionLimit < 1 || sessionLimit > 1000
      ensures result.Err? ==> logs == old(logs)
      ensures result.Ok? ==> forall id :: id in logs ==>
                logs[id] == if id in ids && id !in locked then Prune(old(logs)[id], before) else old(logs)[id]
      ensures result.Ok? ==> result.value == Removed(old(logs), ids, locked, before)
    {
      if sessionLimit < 1 || sessionLimit > 1000 { return Err(InvalidInput); }
      var removed: nat := 0;
      for i := 0 to |ids|
        invariant Valid() && logs.Keys == old(logs).Keys
        invariant forall id :: id in logs ==>
                    logs[id] == if id in ids[..i] && id !in locked then Prune(old(logs)[id], before) else old(logs)[id]
        invariant removed == Removed(old(logs), ids[..i], locked, before)
      {
        assert ids[..i + 1][..i] == ids[..i] && ids[i] !in ids[..i];
        if ids[i] !in locked {
          var count := PruneOne(before, ids[i]);
          removed := removed + count;
        }
      }
      assert ids[..|ids|] == ids;
      result := Ok(removed);
    }
  }
}
