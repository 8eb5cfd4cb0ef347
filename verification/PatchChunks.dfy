/** Applying the chunks of one update: locating each chunk in the old lines and splicing its new lines
    in, from the last chunk to the first. */
module PatchChunks {
  import opened Prelude

  type Line = string

  datatype Chunk = Chunk(context: Option<Line>, oldLines: seq<Line>, newLines: seq<Line>, endOfFile: bool)

  /** Lines `start .. start + length` are replaced by `lines`. */
  datatype Replacement = Replacement(start: nat, length: nat, lines: seq<Line>)

  /** The last error stands for the panic of an out-of-range splice. */
  datatype ChunkError = ContextNotFound | LinesNotFound | SpliceOutOfRange

  // ---------------------------------------------------------------- comparing lines

  /** `char::is_whitespace` */
  predicate IsSpace(c: char) {
    c == ' ' || '\t' <= c <= '\r' || c == '\U{85}' || c == '\U{A0}' || c == '\U{1680}' || '\U{2000}' <= c <= '\U{200A}'
    || c == '\U{2028}' || c == '\U{2029}' || c == '\U{202F}' || c == '\U{205F}' || c == '\U{3000}'
  }

  function TrimEnd(s: string): string {
    if s != "" && IsSpace(s[|s| - 1]) then TrimEnd(s[..|s| - 1]) else s
  }

  function TrimStart(s: string): string { if s != "" && IsSpace(s[0]) then TrimStart(s[1..]) else s }

  function Trim(s: string): string { TrimStart(TrimEnd(s)) }

  /** From the strictest comparison to the loosest. */
  datatype Level = Exact | IgnoringEnd | IgnoringEnds

  predicate SameLine(level: Level, a: Line, b: Line) {
    match level
    case Exact => a == b
    case IgnoringEnd => TrimEnd(a) == TrimEnd(b)
    case IgnoringEnds => Trim(a) == Trim(b)
  }

  predicate MatchesAt(level: Level, lines: seq<Line>, pattern: seq<Line>, index: nat) {
    index + |pattern| <= |lines| && forall k :: 0 <= k < |pattern| ==> SameLine(level, lines[index + k], pattern[k])
  }

  // ---------------------------------------------------------------- seeking

  function FirstMatch(level: Level, lines: seq<Line>, pattern: seq<Line>, from: nat): Option<nat>
    requires |pattern| <= |lines|
    decreases |lines| + 1 - from
  {
    if from > |lines| - |pattern| then None
    else if MatchesAt(level, lines, pattern, from) then Some(from)
    else FirstMatch(level, lines, pattern, from + 1)
  }

  /** Where the search begins: clamped so that the pattern fits. */
  function SearchStart(lines: seq<Line>, pattern: seq<Line>, start: nat, eof: bool): nat
    requires |pattern| <= |lines|
  {
    var last := |lines| - |pattern|;
    if eof || start > last then last else start
  }

  function Seek(lines: seq<Line>, pattern: seq<Line>, start: nat, eof: bool): Option<nat> {
    if pattern == [] then Some(if start < |lines| then start else |lines|)
    else if |pattern| > |lines| then None
    else
      var from := SearchStart(lines, pattern, start, eof);
      var exact := FirstMatch(Exact, lines, pattern, from);
      var ends := FirstMatch(IgnoringEnd, lines, pattern, from);
      if exact.Some? then exact else if ends.Some? then ends else FirstMatch(IgnoringEnds, lines, pattern, from)
  }

  predicate NoMatch(level: Level, lines: seq<Line>, pattern: seq<Line>, from: nat) {
    forall j :: from <= j <= |lines| ==> !MatchesAt(level, lines, pattern, j)
  }

  lemma {:induction false} FirstMatchIsFirst(level: Level, lines: seq<Line>, pattern: seq<Line>, from: nat)
    requires |pattern| <= |lines|
    ensures var found := FirstMatch(level, lines, pattern, from);
            && (found.None? <==> NoMatch(level, lines, pattern, from))
            && (found.Some? ==> from <= found.value && MatchesAt(level, lines, pattern, found.value))
            && (found.Some? ==> forall j :: from <= j < found.value ==> !MatchesAt(level, lines, pattern, j))
    decreases |lines| + 1 - from
  {
    if from > |lines| - |pattern| {
    } else if MatchesAt(level, lines, pattern, from) {
      assert !NoMatch(level, lines, pattern, from);
    } else {
      FirstMatchIsFirst(level, lines, pattern, from + 1);
    }
  }

  predicate Stricter(a: Level, b: Level) { (a.Exact? && !b.Exact?) || (a.IgnoringEnd? && b.IgnoringEnds?) }

  /** Found at `level`, and nothing was found at a stricter one. */
  predicate FoundAt(level: Level, lines: seq<Line>, pattern: seq<Line>, from: nat, index: nat) {
    && from <= index && MatchesAt(level, lines, pattern, index)
    && (forall j :: from <= j < index ==> !MatchesAt(level, lines, pattern, j))
    && (forall other :: Stricter(other, level) ==> NoMatch(other, lines, pattern, from))
  }

  /** `seek` returns the first match at the strictest level that has any, and nothing only if no level
      has one. */
  lemma SeekIsStrictest(lines: seq<Line>, pattern: seq<Line>, start: nat, eof: bool)
    requires pattern != []
    ensures var found := Seek(lines, pattern, start, eof);
            if |pattern| > |lines| then found.None?
            else
              var from := SearchStart(lines, pattern, start, eof);
              && (found.None? <==> forall level :: NoMatch(level, lines, pattern, from))
              && (found.Some? ==> exists level :: FoundAt(level, lines, pattern, from, found.value))
  {
    if |pattern| <= |lines| {
      var from := SearchStart(lines, pattern, start, eof);
      FirstMatchIsFirst(Exact, lines, pattern, from);
      FirstMatchIsFirst(IgnoringEnd, lines, pattern, from);
      FirstMatchIsFirst(IgnoringEnds, lines, pattern, from);
      var found := Seek(lines, pattern, start, eof);
      if found.Some? {
        var level := if FirstMatch(Exact, lines, pattern, from).Some? then Exact
                     else if FirstMatch(IgnoringEnd, lines, pattern, from).Some? then IgnoringEnd else IgnoringEnds;
        assert FoundAt(level, lines, pattern, from, found.value);
      } else {
        forall level ensures NoMatch(level, lines, pattern, from) {
          match level case Exact => case IgnoringEnd => case IgnoringEnds =>
        }
      }
    }
  }

  /** The loops of `seek`. */
  method SeekLines(lines: seq<Line>, pattern: seq<Line>, start: nat, eof: bool) returns (found: Option<nat>)
    ensures found == Seek(lines, pattern, start, eof)
  {
    if |pattern| == 0 { return Some(if start < |lines| then start else |lines|); }
    if |pattern| > |lines| { return None; }
    var finalStart := |lines| - |pattern|;
    var searchStart := if eof || start > finalStart then finalStart else start;
    var level := Exact;
    while true
      invariant level != Exact ==> FirstMatch(Exact, lines, pattern, searchStart).None?
      invariant level == IgnoringEnds ==> FirstMatch(IgnoringEnd, lines, pattern, searchStart).None?
      decreases match level case Exact => 2 case IgnoringEnd => 1 case IgnoringEnds => 0
    {
      var index := searchStart;
      while index <= finalStart
        invariant searchStart <= index <= finalStart + 1
        invariant FirstMatch(level, lines, pattern, searchStart) == FirstMatch(level, lines, pattern, index)
      {
        if MatchesAt(level, lines, pattern, index) { return Some(index); }
        index := index + 1;
      }
      match level {
        case Exact => level := IgnoringEnd;
        case IgnoringEnd => level := IgnoringEnds;
        case IgnoringEnds => return None;
      }
    }
  }

  // ---------------------------------------------------------------- locating

  datatype Located = Located(cursor: nat, replacements: seq<Replacement>)

  predicate EndsEmpty(lines: seq<Line>) { lines != [] && lines[|lines| - 1] == "" }

  function DropEmpty(lines: seq<Line>): seq<Line> { if EndsEmpty(lines) then lines[..|lines| - 1] else lines }

  /** The replacement for old lines that are not empty, if they are found at or after the cursor. */
  function LocateOld(lines: seq<Line>, chunk: Chunk, cursor: nat): Option<Replacement> {
    var start := Seek(lines, chunk.oldLines, cursor, chunk.endOfFile);
    if start.Some? then Some(Replacement(start.value, |chunk.oldLines|, chunk.newLines))
    else if EndsEmpty(chunk.oldLines) then
      var trimmed := DropEmpty(chunk.oldLines);
      var again := Seek(lines, trimmed, cursor, chunk.endOfFile);
      if again.None? then None else Some(Replacement(again.value, |trimmed|, DropEmpty(chunk.newLines)))
    else None
  }

  function ContextCursor(lines: seq<Line>, chunk: Chunk, cursor: nat): Option<nat> {
    if chunk.context.None? then Some(cursor)
    else
      var found := Seek(lines, [chunk.context.value], cursor, false);
      if found.None? then None else Some(found.value + 1)
  }

  function LocateOne(lines: seq<Line>, chunk: Chunk, so: Located): Result<Located, ChunkError> {
    var cursor := ContextCursor(lines, chunk, so.cursor);
    if cursor.None? then Err(ContextNotFound)
    else if chunk.oldLines == [] then
      Ok(Located(cursor.value, so.replacements + [Replacement(|lines|, 0, chunk.newLines)]))
    else
      var found := LocateOld(lines, chunk, cursor.value);
      if found.None? then Err(LinesNotFound)
      else Ok(Located(found.value.start + found.value.length, so.replacements + [found.value]))
  }

  function Locate(lines: seq<Line>, chunks: seq<Chunk>): Result<Located, ChunkError> {
    if chunks == [] then Ok(Located(0, []))
    else
      var rest := Locate(lines, chunks[..|chunks| - 1]);
      if rest.Err? then rest else LocateOne(lines, chunks[|chunks| - 1], rest.value)
  }

  // ---------------------------------------------------------------- what is located

  /** Found by the strictest comparison that finds anything from where the search begins. */
  ghost predicate SoughtAt(lines: seq<Line>, pattern: seq<Line>, start: nat, eof: bool, index: nat) {
    if pattern == [] then index == if start < |lines| then start else |lines|
    else |pattern| <= |lines|
         && exists level :: FoundAt(level, lines, pattern, SearchStart(lines, pattern, start, eof), index)
  }

  /** No comparison finds anything from there. */
  ghost predicate SoughtInVain(lines: seq<Line>, pattern: seq<Line>, start: nat, eof: bool) {
    pattern != []
    && (|pattern| <= |lines| ==> forall level :: NoMatch(level, lines, pattern, SearchStart(lines, pattern, start, eof)))
  }

  lemma SeekFinds(lines: seq<Line>, pattern: seq<Line>, start: nat, eof: bool)
    ensures var found := Seek(lines, pattern, start, eof);
            if found.Some? then SoughtAt(lines, pattern, start, eof, found.value)
            else SoughtInVain(lines, pattern, start, eof)
  {
    if pattern != [] { SeekIsStrictest(lines, pattern, start, eof); }
  }

  /** Where the search for the old lines begins: after the context line, if there is one. */
  ghost predicate StartsFrom(lines: seq<Line>, chunk: Chunk, cursor: nat, start: nat) {
    if chunk.context.None? then start == cursor
    else start > 0 && SoughtAt(lines, [chunk.context.value], cursor, false, start - 1)
  }

  /** The range is that of the chunk's old lines, or of all but an empty last one if only those are found,
      and it is replaced by the new lines, in the second case without an empty last one. */
  ghost predicate ReplacesOld(lines: seq<Line>, chunk: Chunk, start: nat, r: Replacement) {
    || (SoughtAt(lines, chunk.oldLines, start, chunk.endOfFile, r.start)
        && r.length == |chunk.oldLines| && r.lines == chunk.newLines)
    || (SoughtInVain(lines, chunk.oldLines, start, chunk.endOfFile) && EndsEmpty(chunk.oldLines)
        && SoughtAt(lines, chunk.oldLines[..|chunk.oldLines| - 1], start, chunk.endOfFile, r.start)
        && r.length == |chunk.oldLines| - 1
        && r.lines == if EndsEmpty(chunk.newLines) then chunk.newLines[..|chunk.newLines| - 1] else chunk.newLines)
  }

  lemma OldLinesAreReplaced(lines: seq<Line>, chunk: Chunk, start: nat)
    requires chunk.oldLines != []
    ensures var r := LocateOld(lines, chunk, start);
            if r.Some? then ReplacesOld(lines, chunk, start, r.value)
            else SoughtInVain(lines, chunk.oldLines, start, chunk.endOfFile)
                 && (EndsEmpty(chunk.oldLines) ==>
                       SoughtInVain(lines, chunk.oldLines[..|chunk.oldLines| - 1], start, chunk.endOfFile))
  {
    SeekFinds(lines, chunk.oldLines, start, chunk.endOfFile);
    SeekFinds(lines, DropEmpty(chunk.oldLines), start, chunk.endOfFile);
  }

  lemma ContextIsFound(lines: seq<Line>, chunk: Chunk, cursor: nat)
    ensures var start := ContextCursor(lines, chunk, cursor);
            if start.Some? then StartsFrom(lines, chunk, cursor, start.value)
            else chunk.context.Some? && SoughtInVain(lines, [chunk.context.value], cursor, false)
  {
    if chunk.context.Some? { SeekFinds(lines, [chunk.context.value], cursor, false); }
  }

  /** A located chunk replaces the old lines found after its context line by its new lines, or appends them if
      it has no old lines; the next chunk is sought from there. */
  lemma ChunkIsLocated(lines: seq<Line>, chunk: Chunk, so: Located)
    requires LocateOne(lines, chunk, so).Ok?
    ensures var after := LocateOne(lines, chunk, so).value;
            && |after.replacements| == |so.replacements| + 1 && after.replacements[..|so.replacements|] == so.replacements
            && exists start: nat ::
                 StartsFrom(lines, chunk, so.cursor, start)
                 && var r := after.replacements[|so.replacements|];
                    if chunk.oldLines == [] then r == Replacement(|lines|, 0, chunk.newLines) && after.cursor == start
                    else ReplacesOld(lines, chunk, start, r) && after.cursor == r.start + r.length
  {
    ContextIsFound(lines, chunk, so.cursor);
    var start := ContextCursor(lines, chunk, so.cursor).value;
    if chunk.oldLines != [] { OldLinesAreReplaced(lines, chunk, start); }
    assert StartsFrom(lines, chunk, so.cursor, start);
  }

  /** A chunk is refused only if its context line, or its old lines after it, are sought in vain. */
  lemma RefusedChunksAreNotThere(lines: seq<Line>, chunk: Chunk, so: Located)
    requires LocateOne(lines, chunk, so).Err?
    ensures match LocateOne(lines, chunk, so).error
            case ContextNotFound => chunk.context.Some? && SoughtInVain(lines, [chunk.context.value], so.cursor, false)
            case LinesNotFound =>
              exists start: nat ::
                StartsFrom(lines, chunk, so.cursor, start) && SoughtInVain(lines, chunk.oldLines, start, chunk.endOfFile)
            case SpliceOutOfRange => false
  {
    ContextIsFound(lines, chunk, so.cursor);
    var start := ContextCursor(lines, chunk, so.cursor);
    if start.Some? {
      OldLinesAreReplaced(lines, chunk, start.value);
      assert StartsFrom(lines, chunk, so.cursor, start.value);
    }
  }

  // ---------------------------------------------------------------- splicing

  /** A stable insertion: after every replacement that does not start later. */
  function Insert(sorted: seq<Replacement>, r: Replacement): seq<Replacement> {
    if sorted == [] || sorted[|sorted| - 1].start <= r.start then sorted + [r]
    else Insert(sorted[..|sorted| - 1], r) + [sorted[|sorted| - 1]]
  }

  function Sort(replacements: seq<Replacement>): seq<Replacement> {
    if replacements == [] then []
    else Insert(Sort(replacements[..|replacements| - 1]), replacements[|replacements| - 1])
  }

  function Splice(lines: seq<Line>, r: Replacement): Option<seq<Line>> {
    if r.start + r.length > |lines| then None
    else Some(lines[..r.start] + r.lines + lines[r.start + r.length..])
  }

  /** From the last replacement to the first. */
  function SpliceAll(lines: seq<Line>, sorted: seq<Replacement>): Option<seq<Line>>
    decreases |sorted|
  {
    if sorted == [] then Some(lines)
    else
      var spliced := Splice(lines, sorted[|sorted| - 1]);
      if spliced.None? then None else SpliceAll(spliced.value, sorted[..|sorted| - 1])
  }

  // ---------------------------------------------------------------- text

  function Split(s: string): seq<Line> {
    if s == "" then [""]
    else
      var rest := Split(s[..|s| - 1]);
      if s[|s| - 1] == '\n' then rest + [""] else Attach(rest, s[|s| - 1])
  }

  function Attach(lines: seq<Line>, c: char): seq<Line> {
    if lines == [] then [[c]] else lines[..|lines| - 1] + [lines[|lines| - 1] + [c]]
  }

  function Join(lines: seq<Line>): string {
    if lines == [] then ""
    else if |lines| == 1 then lines[0]
    else Join(lines[..|lines| - 1]) + "\n" + lines[|lines| - 1]
  }

  function LinesOf(source: string): seq<Line> { DropEmpty(Split(source)) }

  function ApplyChunks(source: string, chunks: seq<Chunk>): Result<string, ChunkError> {
    var lines := LinesOf(source);
    var located := Locate(lines, chunks);
    if located.Err? then Err(located.error)
    else
      var spliced := SpliceAll(lines, Sort(located.value.replacements));
      if spliced.None? then Err(SpliceOutOfRange) else Ok(Join(spliced.value + [""]))
  }

  // ---------------------------------------------------------------- the left-to-right rewrite

  function EndOf(r: Replacement): nat { r.start + r.length }

  /** Ranges one after another, from `from` on and within the lines. */
  predicate Disjoint(n: nat, sorted: seq<Replacement>, from: nat) {
    && (forall i :: 0 <= i < |sorted| ==> from <= sorted[i].start && EndOf(sorted[i]) <= n)
    && (forall i, j :: 0 <= i < j < |sorted| ==> EndOf(sorted[i]) <= sorted[j].start)
  }

  /** The lines from `from` on, with each range replaced. */
  function Rewrite(lines: seq<Line>, sorted: seq<Replacement>, from: nat): seq<Line>
    requires Disjoint(|lines|, sorted, from) && from <= |lines|
  {
    if sorted == [] then lines[from..]
    else lines[from..sorted[0].start] + sorted[0].lines + Rewrite(lines, sorted[1..], EndOf(sorted[0]))
  }

  lemma DisjointInit(n: nat, init: seq<Replacement>, r: Replacement, from: nat)
    requires Disjoint(n, init + [r], from)
    ensures from <= r.start && EndOf(r) <= n && Disjoint(r.start, init, from)
  {
    var all := init + [r];
    assert all[|init|] == r;
    forall i | 0 <= i < |init| ensures from <= init[i].start && EndOf(init[i]) <= r.start {
      assert all[i] == init[i];
    }
    forall i, j | 0 <= i < j < |init| ensures EndOf(init[i]) <= init[j].start {
      assert all[i] == init[i] && all[j] == init[j];
    }
  }

  lemma DisjointWithin(n: nat, m: nat, sorted: seq<Replacement>, from: nat)
    requires Disjoint(n, sorted, from) && n <= m
    ensures Disjoint(m, sorted, from)
  {
  }

  lemma RewriteEnd(lines: seq<Line>, r: Replacement, from: nat, spliced: seq<Line>)
    requires from <= r.start && EndOf(r) <= |lines| && spliced == lines[..r.start] + r.lines + lines[EndOf(r)..]
    ensures Disjoint(|lines|, [r], from) && Rewrite(lines, [r], from) == spliced[from..]
  {
    assert [r][1..] == [];
    assert Rewrite(lines, [], EndOf(r)) == lines[EndOf(r)..];
    assert spliced[from..] == lines[from..r.start] + r.lines + lines[EndOf(r)..];
  }

  /** A rewrite that ends before `r` sees the same lines whether `r` is already spliced in or not. */
  lemma {:induction false} RewriteBefore(lines: seq<Line>, init: seq<Replacement>, r: Replacement, from: nat, spliced: seq<Line>)
    requires Disjoint(|lines|, init + [r], from) && Disjoint(r.start, init, from) && from <= r.start && EndOf(r) <= |lines|
    requires spliced == lines[..r.start] + r.lines + lines[EndOf(r)..] && Disjoint(|spliced|, init, from)
    ensures Rewrite(spliced, init, from) == Rewrite(lines, init + [r], from)
  {
    if init == [] {
      assert init + [r] == [r];
      RewriteEnd(lines, r, from, spliced);
    } else {
      FirstOf(init, r);
      RewriteBefore(lines, init[1..], r, EndOf(init[0]), spliced);
      SameStart(lines, r, spliced, from, init[0].start);
    }
  }

  lemma FirstOf(init: seq<Replacement>, r: Replacement)
    requires init != []
    ensures (init + [r])[0] == init[0] && (init + [r])[1..] == init[1..] + [r]
  {
  }

  lemma SameStart(lines: seq<Line>, r: Replacement, spliced: seq<Line>, from: nat, to: nat)
    requires from <= to <= r.start && EndOf(r) <= |lines| && spliced == lines[..r.start] + r.lines + lines[EndOf(r)..]
    ensures spliced[from..to] == lines[from..to]
  {
  }

  lemma RewriteLast(lines: seq<Line>, init: seq<Replacement>, r: Replacement, from: nat)
    requires Disjoint(|lines|, init + [r], from) && from <= |lines|
    ensures var spliced := Splice(lines, r);
            spliced.Some? && Disjoint(|spliced.value|, init, from) && from <= |spliced.value|
            && Rewrite(spliced.value, init, from) == Rewrite(lines, init + [r], from)
  {
    DisjointInit(|lines|, init, r, from);
    DisjointWithin(r.start, |Splice(lines, r).value|, init, from);
    RewriteBefore(lines, init, r, from, Splice(lines, r).value);
  }

  /** Splicing disjoint ranges from the last to the first is the left-to-right rewrite. */
  lemma {:induction false} SplicingIsRewriting(lines: seq<Line>, sorted: seq<Replacement>)
    requires Disjoint(|lines|, sorted, 0)
    ensures SpliceAll(lines, sorted) == Some(Rewrite(lines, sorted, 0))
    decreases |sorted|
  {
    if sorted != [] {
      var init, r := sorted[..|sorted| - 1], sorted[|sorted| - 1];
      assert sorted == init + [r];
      RewriteLast(lines, init, r, 0);
      SplicingIsRewriting(Splice(lines, r).value, init);
    }
  }

  // ---------------------------------------------------------------- sorting what was located in order

  predicate AtEnd(n: nat, r: Replacement) { r.start == n && r.length == 0 }

  /** Each located range starts at or after the end of every earlier one. */
  predicate InOrder(n: nat, replacements: seq<Replacement>) {
    && (forall i :: 0 <= i < |replacements| ==> EndOf(replacements[i]) <= n)
    && (forall i, j :: 0 <= i < j < |replacements| ==>
          AtEnd(n, replacements[i]) || EndOf(replacements[i]) <= replacements[j].start)
  }

  function Early(n: nat, replacements: seq<Replacement>): seq<Replacement> {
    if replacements == [] then []
    else
      var last := replacements[|replacements| - 1];
      Early(n, replacements[..|replacements| - 1]) + if last.start < n then [last] else []
  }

  function Late(n: nat, replacements: seq<Replacement>): seq<Replacement> {
    if replacements == [] then []
    else
      var last := replacements[|replacements| - 1];
      Late(n, replacements[..|replacements| - 1]) + if last.start < n then [] else [last]
  }

  lemma {:induction false} InsertBetween(a: seq<Replacement>, b: seq<Replacement>, r: Replacement)
    requires forall i :: 0 <= i < |a| ==> a[i].start <= r.start
    requires forall i :: 0 <= i < |b| ==> r.start < b[i].start
    ensures Insert(a + b, r) == a + [r] + b
  {
    if b == [] {
      assert a + b == a;
      assert a + [r] + b == a + [r];
    } else {
      var n := |b| - 1;
      assert (a + b)[..|a| + n] == a + b[..n];
      InsertBetween(a, b[..n], r);
      assert a + [r] + b[..n] + [b[n]] == a + [r] + b;
    }
  }

  lemma {:induction false} EarlyAre(n: nat, replacements: seq<Replacement>)
    ensures forall x :: x in Early(n, replacements) ==> x in replacements && x.start < n
    ensures forall x :: x in Late(n, replacements) ==> x in replacements && x.start >= n
  {
    if replacements != [] {
      EarlyAre(n, replacements[..|replacements| - 1]);
      assert replacements[|replacements| - 1] in replacements;
    }
  }

  lemma InitInOrder(n: nat, replacements: seq<Replacement>)
    requires InOrder(n, replacements) && replacements != []
    ensures var init, last := replacements[..|replacements| - 1], replacements[|replacements| - 1];
            InOrder(n, init) && forall x :: x in init ==> AtEnd(n, x) || EndOf(x) <= last.start
  {
    var init, last := replacements[..|replacements| - 1], replacements[|replacements| - 1];
    forall x | x in init ensures AtEnd(n, x) || EndOf(x) <= last.start {
      var i :| 0 <= i < |init| && init[i] == x;
      assert replacements[i] == x && replacements[|replacements| - 1] == last;
    }
  }

  lemma {:induction false} EarlyAreDisjoint(n: nat, replacements: seq<Replacement>)
    requires InOrder(n, replacements)
    ensures Disjoint(n, Early(n, replacements), 0)
    ensures forall x :: x in Late(n, replacements) ==> AtEnd(n, x)
  {
    if replacements != [] {
      var init, last := replacements[..|replacements| - 1], replacements[|replacements| - 1];
      InitInOrder(n, replacements);
      EarlyAreDisjoint(n, init);
      EarlyAre(n, init);
      var early := Early(n, init);
      assert forall i :: 0 <= i < |early| ==> early[i] in early;
    }
  }

  lemma SortEarly(n: nat, early: seq<Replacement>, late: seq<Replacement>, last: Replacement)
    requires forall x :: x in early ==> EndOf(x) <= last.start
    requires forall x :: x in late ==> x.start >= n
    requires last.start < n
    ensures Insert(early + late, last) == early + [last] + late
  {
    assert forall i :: 0 <= i < |early| ==> early[i] in early;
    assert forall i :: 0 <= i < |late| ==> late[i] in late;
    InsertBetween(early, late, last);
  }

  lemma SortLate(n: nat, early: seq<Replacement>, late: seq<Replacement>, last: Replacement)
    requires forall x :: x in early ==> x.start < n
    requires forall x :: x in late ==> AtEnd(n, x)
    requires last.start >= n
    ensures Insert(early + late, last) == early + (late + [last])
  {
    var all := early + late;
    forall i | 0 <= i < |all| ensures all[i].start <= last.start {
      assert if i < |early| then all[i] in early else all[i] in late;
    }
    InsertBetween(all, [], last);
    assert all + [] == all;
    assert all + [last] + [] == early + (late + [last]);
  }

  lemma {:induction false} SortedIsEarlyThenLate(n: nat, replacements: seq<Replacement>)
    requires InOrder(n, replacements)
    ensures Sort(replacements) == Early(n, replacements) + Late(n, replacements)
  {
    if replacements != [] {
      var init, last := replacements[..|replacements| - 1], replacements[|replacements| - 1];
      InitInOrder(n, replacements);
      SortedIsEarlyThenLate(n, init);
      EarlyAre(n, init);
      EarlyAreDisjoint(n, init);
      if last.start < n { SortEarly(n, Early(n, init), Late(n, init), last); }
      else { SortLate(n, Early(n, init), Late(n, init), last); }
    }
  }

  function Appended(late: seq<Replacement>): seq<Line> {
    if late == [] then [] else late[0].lines + Appended(late[1..])
  }

  lemma {:induction false} RewriteAtEnd(lines: seq<Line>, late: seq<Replacement>, from: nat)
    requires from <= |lines| && forall i :: 0 <= i < |late| ==> AtEnd(|lines|, late[i])
    ensures Disjoint(|lines|, late, from) && Rewrite(lines, late, from) == lines[from..] + Appended(late)
  {
    var n := |lines|;
    if late != [] {
      RewriteAtEnd(lines, late[1..], n);
      assert lines[from..n] == lines[from..] && lines[n..] == [];
      assert late[0].start == n && EndOf(late[0]) == n;
      assert lines[from..] + late[0].lines + ([] + Appended(late[1..])) == lines[from..] + (late[0].lines + Appended(late[1..]));
    } else {
      assert lines[from..] + [] == lines[from..];
    }
  }

  lemma DisjointThenLate(n: nat, early: seq<Replacement>, late: seq<Replacement>, from: nat)
    requires Disjoint(n, early, from) && from <= n && forall i :: 0 <= i < |late| ==> AtEnd(n, late[i])
    ensures Disjoint(n, early + late, from)
  {
  }

  lemma {:induction false} LateIsAppended(lines: seq<Line>, early: seq<Replacement>, late: seq<Replacement>, from: nat)
    requires Disjoint(|lines|, early, from) && from <= |lines|
    requires forall i :: 0 <= i < |late| ==> AtEnd(|lines|, late[i])
    ensures Disjoint(|lines|, early + late, from)
    ensures Rewrite(lines, early + late, from) == Rewrite(lines, early, from) + Appended(late)
    decreases |early|
  {
    DisjointThenLate(|lines|, early, late, from);
    if early == [] {
      assert early + late == late;
      RewriteAtEnd(lines, late, from);
    } else {
      var rest := Rewrite(lines, early[1..], EndOf(early[0]));
      assert (early + late)[1..] == early[1..] + late && (early + late)[0] == early[0];
      LateIsAppended(lines, early[1..], late, EndOf(early[0]));
      Regroup(lines[from..early[0].start] + early[0].lines, rest, Appended(late));
    }
  }

  lemma Regroup(a: seq<Line>, b: seq<Line>, c: seq<Line>)
    ensures a + (b + c) == a + b + c
  {
  }

  /** When every located range starts at or after the end of the previous one, splicing keeps the
      untouched lines in order with each range replaced, and appends pure insertions in chunk order. */
  lemma OrderedChunksRewrite(lines: seq<Line>, replacements: seq<Replacement>)
    requires InOrder(|lines|, replacements)
    ensures var early, late := Early(|lines|, replacements), Late(|lines|, replacements);
            Disjoint(|lines|, early, 0)
            && SpliceAll(lines, Sort(replacements)) == Some(Rewrite(lines, early, 0) + Appended(late))
  {
    var early, late := Early(|lines|, replacements), Late(|lines|, replacements);
    EarlyAreDisjoint(|lines|, replacements);
    SortedIsEarlyThenLate(|lines|, replacements);
    assert forall i :: 0 <= i < |late| ==> late[i] in late;
    LateIsAppended(lines, early, late, 0);
    SplicingIsRewriting(lines, early + late);
  }

  // ---------------------------------------------------------------- when located ranges are in order

  /** Where the last range ends that is not an insertion at the end. */
  function LastEnd(n: nat, replacements: seq<Replacement>): nat {
    if replacements == [] then 0
    else
      var last := replacements[|replacements| - 1];
      if AtEnd(n, last) then LastEnd(n, replacements[..|replacements| - 1]) else EndOf(last)
  }

  /** The last range found leaves room for the old lines that were found for `chunk`. */
  predicate HasRoom(lines: seq<Line>, chunk: Chunk, so: Located) {
    var cursor := ContextCursor(lines, chunk, so.cursor);
    chunk.oldLines == [] || cursor.None?
    || var found := LocateOld(lines, chunk, cursor.value);
       found.Some? ==> LastEnd(|lines|, so.replacements) + found.value.length <= |lines|
  }

  predicate AllRoom(lines: seq<Line>, chunks: seq<Chunk>) {
    if chunks == [] then true
    else
      var rest := Locate(lines, chunks[..|chunks| - 1]);
      AllRoom(lines, chunks[..|chunks| - 1]) && (rest.Ok? ==> HasRoom(lines, chunks[|chunks| - 1], rest.value))
  }

  /** A search starts at `start` or, if the pattern does not fit there, at the last position where it does. */
  lemma SeekStartsNear(lines: seq<Line>, pattern: seq<Line>, start: nat, eof: bool)
    requires start <= |lines|
    ensures var found := Seek(lines, pattern, start, eof);
            found.Some? ==> found.value + |pattern| <= |lines|
                            && (start <= found.value || found.value == |lines| - |pattern|)
  {
    if pattern != [] && |pattern| <= |lines| {
      var from := SearchStart(lines, pattern, start, eof);
      FirstMatchIsFirst(Exact, lines, pattern, from);
      FirstMatchIsFirst(IgnoringEnd, lines, pattern, from);
      FirstMatchIsFirst(IgnoringEnds, lines, pattern, from);
    }
  }

  /** A context line never moves the cursor back. */
  lemma ContextMovesForward(lines: seq<Line>, chunk: Chunk, cursor: nat)
    requires cursor <= |lines|
    ensures var moved := ContextCursor(lines, chunk, cursor);
            moved.Some? ==> cursor <= moved.value <= |lines|
  {
    if chunk.context.Some? { SeekStartsNear(lines, [chunk.context.value], cursor, false); }
  }

  /** The range found for old lines is at or after the cursor, or as late as it can be. */
  lemma OldLinesAreFound(lines: seq<Line>, chunk: Chunk, cursor: nat)
    requires cursor <= |lines|
    ensures var r := LocateOld(lines, chunk, cursor);
            r.Some? ==> EndOf(r.value) <= |lines| && (cursor <= r.value.start || EndOf(r.value) == |lines|)
  {
    SeekStartsNear(lines, chunk.oldLines, cursor, chunk.endOfFile);
    SeekStartsNear(lines, DropEmpty(chunk.oldLines), cursor, chunk.endOfFile);
  }

  /** A located chunk starts at or after the cursor its context left exactly if its old lines fit there. */
  lemma LocatedAfterCursorIffFits(lines: seq<Line>, chunk: Chunk, so: Located)
    requires so.cursor <= |lines| && chunk.oldLines != [] && LocateOne(lines, chunk, so).Ok?
    ensures var after := LocateOne(lines, chunk, so).value; var r := after.replacements[|after.replacements| - 1];
            var cursor := ContextCursor(lines, chunk, so.cursor).value;
            && after.replacements == so.replacements + [r] && EndOf(r) <= |lines| && after.cursor == EndOf(r)
            && (cursor + r.length <= |lines| <==> cursor <= r.start) && so.cursor <= cursor
  {
    ContextMovesForward(lines, chunk, so.cursor);
    OldLinesAreFound(lines, chunk, ContextCursor(lines, chunk, so.cursor).value);
  }

  /** One more range is in order exactly if it starts at or after the end of the last one. */
  lemma {:induction false} InOrderAfterLast(n: nat, init: seq<Replacement>, r: Replacement)
    requires InOrder(n, init) && EndOf(r) <= n
    ensures InOrder(n, init + [r]) <==> AtEnd(n, r) || LastEnd(n, init) <= r.start
  {
    var all := init + [r];
    LastEndIsLatest(n, init);
    if AtEnd(n, r) || LastEnd(n, init) <= r.start {
      forall i, j | 0 <= i < j < |all| ensures AtEnd(n, all[i]) || EndOf(all[i]) <= all[j].start {
        if j < |init| { assert all[i] == init[i] && all[j] == init[j]; }
      }
    } else {
      var i :| 0 <= i < |init| && !AtEnd(n, init[i]) && EndOf(init[i]) == LastEnd(n, init);
      assert all[i] == init[i] && all[|init|] == r;
    }
  }

  lemma {:induction false} LastEndIsLatest(n: nat, replacements: seq<Replacement>)
    requires InOrder(n, replacements)
    ensures forall i :: 0 <= i < |replacements| ==>
              AtEnd(n, replacements[i]) || EndOf(replacements[i]) <= LastEnd(n, replacements)
    ensures LastEnd(n, replacements) > 0 ==>
              exists i :: 0 <= i < |replacements| && !AtEnd(n, replacements[i])
                          && EndOf(replacements[i]) == LastEnd(n, replacements)
  {
    if replacements != [] {
      var init, last := replacements[..|replacements| - 1], replacements[|replacements| - 1];
      InitInOrder(n, replacements);
      LastEndIsLatest(n, init);
      if AtEnd(n, last) {
        if LastEnd(n, init) > 0 {
          var i :| 0 <= i < |init| && !AtEnd(n, init[i]) && EndOf(init[i]) == LastEnd(n, init);
          assert replacements[i] == init[i];
        }
        forall i | 0 <= i < |replacements|
          ensures AtEnd(n, replacements[i]) || EndOf(replacements[i]) <= LastEnd(n, replacements)
        {
          if i < |init| { assert replacements[i] == init[i]; }
        }
      } else {
        forall i | 0 <= i < |replacements|
          ensures AtEnd(n, replacements[i]) || EndOf(replacements[i]) <= EndOf(last)
        {
          if i < |init| { assert replacements[i] in init; }
        }
      }
    }
  }

  /** The cursor is never before the end of the last range. */
  lemma {:induction false} CursorIsPastLast(lines: seq<Line>, chunks: seq<Chunk>)
    requires Locate(lines, chunks).Ok?
    ensures var so := Locate(lines, chunks).value;
            && LastEnd(|lines|, so.replacements) <= so.cursor <= |lines|
            && forall i :: 0 <= i < |so.replacements| ==> EndOf(so.replacements[i]) <= |lines|
  {
    if chunks != [] {
      var init, chunk := chunks[..|chunks| - 1], chunks[|chunks| - 1];
      CursorIsPastLast(lines, init);
      var so := Locate(lines, init).value;
      ContextMovesForward(lines, chunk, so.cursor);
      if chunk.oldLines != [] { LocatedAfterCursorIffFits(lines, chunk, so); }
      LastEndAppends(|lines|, so.replacements, Locate(lines, chunks).value.replacements);
    }
  }

  lemma LastEndAppends(n: nat, init: seq<Replacement>, all: seq<Replacement>)
    requires |all| == |init| + 1 && all[..|init|] == init
    ensures LastEnd(n, all) == if AtEnd(n, all[|init|]) then LastEnd(n, init) else EndOf(all[|init|])
  {
  }

  /** One chunk keeps the ranges in order exactly if it has room. */
  lemma OneMoreInOrderIffRoom(lines: seq<Line>, chunk: Chunk, so: Located)
    requires LocateOne(lines, chunk, so).Ok? && InOrder(|lines|, so.replacements)
    requires LastEnd(|lines|, so.replacements) <= so.cursor <= |lines|
    ensures InOrder(|lines|, LocateOne(lines, chunk, so).value.replacements) <==> HasRoom(lines, chunk, so)
  {
    var after := LocateOne(lines, chunk, so).value.replacements;
    var r := after[|after| - 1];
    if chunk.oldLines == [] {
      InOrderAfterLast(|lines|, so.replacements, r);
    } else {
      ContextMovesForward(lines, chunk, so.cursor);
      OldLinesAreFound(lines, chunk, ContextCursor(lines, chunk, so.cursor).value);
      InOrderAfterLast(|lines|, so.replacements, r);
    }
  }

  lemma StaysOutOfOrder(n: nat, init: seq<Replacement>, all: seq<Replacement>)
    requires !InOrder(n, init) && |all| == |init| + 1 && all[..|init|] == init
    ensures !InOrder(n, all)
  {
    assert forall i :: 0 <= i < |init| ==> init[i] == all[..|init|][i] == all[i];
  }

  /** Every located range starts at or after the end of the previous one exactly if every chunk has room. */
  lemma {:induction false} InOrderIffRoom(lines: seq<Line>, chunks: seq<Chunk>)
    requires Locate(lines, chunks).Ok?
    ensures InOrder(|lines|, Locate(lines, chunks).value.replacements) <==> AllRoom(lines, chunks)
  {
    if chunks != [] {
      var init, chunk := chunks[..|chunks| - 1], chunks[|chunks| - 1];
      var so := Locate(lines, init).value;
      InOrderIffRoom(lines, init);
      CursorIsPastLast(lines, init);
      var all := Locate(lines, chunks).value.replacements;
      if InOrder(|lines|, so.replacements) {
        OneMoreInOrderIffRoom(lines, chunk, so);
      } else {
        StaysOutOfOrder(|lines|, so.replacements, all);
      }
    }
  }

  /** If every chunk has room, the update is the left-to-right rewrite and never splices out of range. */
  lemma FittingChunksRewrite(source: string, chunks: seq<Chunk>)
    requires var lines := LinesOf(source); AllRoom(lines, chunks) && Locate(lines, chunks).Ok?
    ensures var lines := LinesOf(source); var replacements := Locate(lines, chunks).value.replacements;
            var early, late := Early(|lines|, replacements), Late(|lines|, replacements);
            Disjoint(|lines|, early, 0)
            && ApplyChunks(source, chunks) == Ok(Join(Rewrite(lines, early, 0) + Appended(late) + [""]))
  {
    var lines := LinesOf(source);
    InOrderIffRoom(lines, chunks);
    OrderedChunksRewrite(lines, Locate(lines, chunks).value.replacements);
  }

  // ---------------------------------------------------------------- when splicing panics

  /** How many lines the ranges add, less those they take away. */
  function Growth(replacements: seq<Replacement>): int {
    if replacements == [] then 0
    else Growth(replacements[..|replacements| - 1]) + |replacements[|replacements| - 1].lines|
         - replacements[|replacements| - 1].length
  }

  lemma {:induction false} GrowthOfLast(init: seq<Replacement>, last: Replacement)
    ensures Growth(init + [last]) == Growth(init) + |last.lines| - last.length
  {
    assert (init + [last])[..|init|] == init;
  }

  /** Range `i` ends within the lines that there are once the later ranges are spliced. */
  predicate InRange(n: nat, sorted: seq<Replacement>, i: nat)
    requires i < |sorted|
  {
    EndOf(sorted[i]) <= n + Growth(sorted[i + 1..])
  }

  predicate AllInRange(n: nat, sorted: seq<Replacement>) { forall i :: 0 <= i < |sorted| ==> InRange(n, sorted, i) }

  lemma InRangeOfInit(n: nat, m: nat, sorted: seq<Replacement>, i: nat)
    requires i < |sorted| - 1
    requires m == n + |sorted[|sorted| - 1].lines| - sorted[|sorted| - 1].length
    ensures InRange(m, sorted[..|sorted| - 1], i) <==> InRange(n, sorted, i)
  {
    var init, last := sorted[..|sorted| - 1], sorted[|sorted| - 1];
    assert sorted[i + 1..] == init[i + 1..] + [last];
    GrowthOfLast(init[i + 1..], last);
  }

  /** Splicing from the last range to the first panics exactly if some range ends beyond the lines left
      by the later ones. */
  lemma {:induction false} SplicesIffInRange(lines: seq<Line>, sorted: seq<Replacement>)
    ensures SpliceAll(lines, sorted).Some? <==> AllInRange(|lines|, sorted)
    decreases |sorted|
  {
    if sorted != [] {
      var n := |sorted| - 1;
      var init, last := sorted[..n], sorted[n];
      assert sorted[n + 1..] == [];
      assert InRange(|lines|, sorted, n) <==> EndOf(last) <= |lines|;
      var spliced := Splice(lines, last);
      if spliced.Some? {
        SplicesIffInRange(spliced.value, init);
        forall i | 0 <= i < n ensures InRange(|spliced.value|, init, i) <==> InRange(|lines|, sorted, i) {
          InRangeOfInit(|lines|, |spliced.value|, sorted, i);
        }
      }
    }
  }

  /** An update panics exactly if its chunks are found and some range ends beyond the lines left by the
      ranges after it. */
  lemma UpdatePanicsIff(source: string, chunks: seq<Chunk>)
    ensures var lines := LinesOf(source); var located := Locate(lines, chunks);
            ApplyChunks(source, chunks) == Err(SpliceOutOfRange)
            <==> located.Ok? && !AllInRange(|lines|, Sort(located.value.replacements))
  {
    var lines := LinesOf(source);
    NeverLocatedOutOfRange(lines, chunks);
    if Locate(lines, chunks).Ok? { SplicesIffInRange(lines, Sort(Locate(lines, chunks).value.replacements)); }
  }

  /** With room for every chunk an update never panics. */
  lemma RoomNeverPanics(source: string, chunks: seq<Chunk>)
    requires AllRoom(LinesOf(source), chunks)
    ensures ApplyChunks(source, chunks) != Err(SpliceOutOfRange)
  {
    NeverLocatedOutOfRange(LinesOf(source), chunks);
    if Locate(LinesOf(source), chunks).Ok? { FittingChunksRewrite(source, chunks); }
  }

  lemma {:induction false} NeverLocatedOutOfRange(lines: seq<Line>, chunks: seq<Chunk>)
    ensures Locate(lines, chunks) != Err(SpliceOutOfRange)
  {
    if chunks != [] { NeverLocatedOutOfRange(lines, chunks[..|chunks| - 1]); }
  }

  // ---------------------------------------------------------------- where it goes wrong

  lemma FoundOne(lines: seq<Line>, chunk: Chunk, so: Located, r: Replacement)
    requires chunk.context.None? && chunk.oldLines != [] && LocateOld(lines, chunk, so.cursor) == Some(r)
    ensures LocateOne(lines, chunk, so) == Ok(Located(EndOf(r), so.replacements + [r]))
  {
  }

  lemma RoomForOne(lines: seq<Line>, chunk: Chunk, so: Located, r: Replacement)
    requires chunk.context.None? && chunk.oldLines != [] && LocateOld(lines, chunk, so.cursor) == Some(r)
    ensures HasRoom(lines, chunk, so) <==> LastEnd(|lines|, so.replacements) + r.length <= |lines|
  {
  }

  lemma LocateNext(lines: seq<Line>, init: seq<Chunk>, chunk: Chunk, so: Located)
    requires Locate(lines, init) == Ok(so)
    ensures Locate(lines, init + [chunk]) == LocateOne(lines, chunk, so)
    ensures AllRoom(lines, init + [chunk]) ==> HasRoom(lines, chunk, so)
  {
    assert (init + [chunk])[..|init|] == init;
  }

  /** One chunk more, without context and found. */
  lemma OneMoreFound(lines: seq<Line>, init: seq<Chunk>, chunk: Chunk, so: Located, r: Replacement)
    requires Locate(lines, init) == Ok(so) && chunk.context.None? && chunk.oldLines != []
    requires LocateOld(lines, chunk, so.cursor) == Some(r)
    ensures Locate(lines, init + [chunk]) == Ok(Located(EndOf(r), so.replacements + [r]))
    ensures AllRoom(lines, init + [chunk]) ==> LastEnd(|lines|, so.replacements) + r.length <= |lines|
  {
    FoundOne(lines, chunk, so, r);
    RoomForOne(lines, chunk, so, r);
    LocateNext(lines, init, chunk, so);
  }

  /** The second of two chunks is sought from the end of the first. */
  lemma TwoChunks(lines: seq<Line>, first: Chunk, second: Chunk, r: Replacement, q: Replacement)
    requires first.context.None? && second.context.None? && first.oldLines != [] && second.oldLines != []
    requires LocateOld(lines, first, 0) == Some(r) && LocateOld(lines, second, EndOf(r)) == Some(q)
    ensures Locate(lines, [first] + [second]) == Ok(Located(EndOf(q), [r] + [q]))
    ensures AllRoom(lines, [first] + [second]) ==> LastEnd(|lines|, [r]) + q.length <= |lines|
  {
    OneMoreFound(lines, [], first, Located(0, []), r);
    assert [] + [first] == [first] && [] + [r] == [r];
    OneMoreFound(lines, [first], second, Located(EndOf(r), [r]), q);
  }

  lemma FoundFirst(lines: seq<Line>, pattern: seq<Line>, start: nat, at: nat)
    requires pattern != [] && |pattern| <= |lines| && at == SearchStart(lines, pattern, start, false)
    requires MatchesAt(Exact, lines, pattern, at)
    ensures Seek(lines, pattern, start, false) == Some(at)
  {
  }

  lemma SortTwo(r: Replacement, q: Replacement)
    requires r.start < q.start
    ensures Sort([r, q]) == [r, q]
  {
    assert [r, q][..1] == [r] && [r][..0] == [];
    assert Sort([r]) == [r];
  }

  /** The second chunk's line is sought from the end of the first, does not fit there, and is found
      inside the range of the first: the update splices out of range. */
  lemma OverlappingChunksPanic()
    ensures var first := Chunk(None, ["a", "b"], [], false); var second := Chunk(None, ["b"], [], false);
            ApplyChunks("a\nb\n", [first, second]) == Err(SpliceOutOfRange)
            && !AllRoom(LinesOf("a\nb\n"), [first, second])
  {
    var first, second := Chunk(None, ["a", "b"], [], false), Chunk(None, ["b"], [], false);
    TwoLines();
    var lines := ["a", "b"];
    FoundFirst(lines, ["a", "b"], 0, 0);
    FoundFirst(lines, ["b"], 2, 1);
    var r, q := Replacement(0, 2, []), Replacement(1, 1, []);
    TwoChunks(lines, first, second, r, q);
    assert [first] + [second] == [first, second] && [r] + [q] == [r, q];
    SortTwo(r, q);
    PanickingSplice(lines, r, q);
  }

  lemma PanickingSplice(lines: seq<Line>, r: Replacement, q: Replacement)
    requires lines == ["a", "b"] && r == Replacement(0, 2, []) && q == Replacement(1, 1, [])
    ensures SpliceAll(lines, [r, q]).None?
  {
    assert [r, q][..1] == [r];
    assert lines[..1] + [] + lines[2..] == ["a"];
    assert Splice(lines, q) == Some(["a"]) && Splice(["a"], r).None?;
  }

  /** The same without a panic: the second chunk is found inside the range of the first, which then
      replaces what the second wrote, and nothing says that it was lost. */
  lemma OverlappingChunkIsLost()
    ensures var first := Chunk(None, ["a", "b", "c"], ["x", "y", "z"], false);
            var second := Chunk(None, ["c"], ["w"], false);
            ApplyChunks("a\nb\nc\n", [first, second]) == Ok("x\ny\nz\n")
            && !AllRoom(LinesOf("a\nb\nc\n"), [first, second])
  {
    var first := Chunk(None, ["a", "b", "c"], ["x", "y", "z"], false);
    var second := Chunk(None, ["c"], ["w"], false);
    ThreeLines();
    var lines := ["a", "b", "c"];
    FoundFirst(lines, ["a", "b", "c"], 0, 0);
    FoundFirst(lines, ["c"], 3, 2);
    var r, q := Replacement(0, 3, ["x", "y", "z"]), Replacement(2, 1, ["w"]);
    TwoChunks(lines, first, second, r, q);
    assert [first] + [second] == [first, second] && [r] + [q] == [r, q];
    assert [r][..0] == [];
    SortTwo(r, q);
    LostSplice(lines, r, q);
    JoinThree();
  }

  lemma LostSplice(lines: seq<Line>, r: Replacement, q: Replacement)
    requires lines == ["a", "b", "c"] && r == Replacement(0, 3, ["x", "y", "z"]) && q == Replacement(2, 1, ["w"])
    ensures SpliceAll(lines, [r, q]) == Some(["x", "y", "z"])
  {
    assert [r, q][..1] == [r] && [r][..0] == [];
    assert lines[..2] + ["w"] + lines[3..] == ["a", "b", "w"];
    assert ["a", "b", "w"][..0] + ["x", "y", "z"] + ["a", "b", "w"][3..] == ["x", "y", "z"];
    assert SpliceAll(["x", "y", "z"], []) == Some(["x", "y", "z"]);
  }

  lemma TwoLines()
    ensures LinesOf("a\nb\n") == ["a", "b"]
  {
    SplitAB();
    assert "a\nb\n"[..3] == "a\nb";
    assert Split("a\nb\n") == ["a", "b", ""];
  }

  lemma SplitAB()
    ensures Split("a\nb") == ["a", "b"]
  {
    assert "a\nb"[..2] == "a\n" && "a\n"[..1] == "a" && "a"[..0] == "";
    assert Split("") == [""];
    assert [""][..0] == [] && Attach([""], 'a') == ["a"] by { assert "" + ['a'] == "a"; }
    assert Split("a") == ["a"];
    assert Split("a\n") == ["a", ""];
    assert ["a", ""][..1] == ["a"] && Attach(["a", ""], 'b') == ["a", "b"] by { assert "" + ['b'] == "b"; }
  }

  lemma ThreeLines()
    ensures LinesOf("a\nb\nc\n") == ["a", "b", "c"]
  {
    SplitAB();
    assert "a\nb\nc\n"[..5] == "a\nb\nc" && "a\nb\nc"[..4] == "a\nb\n" && "a\nb\n"[..3] == "a\nb";
    assert Split("a\nb\n") == ["a", "b", ""];
    assert ["a", "b", ""][..2] == ["a", "b"] && Attach(["a", "b", ""], 'c') == ["a", "b", "c"] by { assert "" + ['c'] == "c"; }
    assert Split("a\nb\nc") == ["a", "b", "c"];
    assert Split("a\nb\nc\n") == ["a", "b", "c", ""];
  }

  lemma JoinThree()
    ensures Join(["x", "y", "z"] + [""]) == "x\ny\nz\n"
  {
    var all := ["x", "y", "z", ""];
    assert ["x", "y", "z"] + [""] == all;
    assert all[..3] == ["x", "y", "z"] && ["x", "y", "z"][..2] == ["x", "y"] && ["x", "y"][..1] == ["x"];
    assert Join(["x"]) == "x";
    assert Join(["x", "y"]) == "x\ny";
    assert Join(["x", "y", "z"]) == "x\ny\nz";
    assert "x\ny\nz" + "\n" + "" == "x\ny\nz\n";
  }

  // ---------------------------------------------------------------- splitting and joining

  lemma {:induction false} SplitIsNonempty(s: string)
    ensures Split(s) != []
  {
    if s != "" { SplitIsNonempty(s[..|s| - 1]); }
  }

  lemma {:induction false} JoinAttach(lines: seq<Line>, c: char)
    requires lines != []
    ensures Join(Attach(lines, c)) == Join(lines) + [c]
  {
    var n := |lines| - 1;
    assert Attach(lines, c)[..n] == lines[..n];
    if n > 0 { assert Join(lines[..n]) + "\n" + (lines[n] + [c]) == Join(lines[..n]) + "\n" + lines[n] + [c]; }
  }

  lemma JoinNewline(lines: seq<Line>)
    requires lines != []
    ensures Join(lines + [""]) == Join(lines) + "\n"
  {
    assert (lines + [""])[..|lines|] == lines;
    assert Join(lines) + "\n" + "" == Join(lines) + "\n";
  }

  /** Joining what was split gives the text back. */
  lemma {:induction false} JoinSplit(s: string)
    ensures Join(Split(s)) == s
  {
    if s != "" {
      var init, c := s[..|s| - 1], s[|s| - 1];
      JoinSplit(init);
      SplitIsNonempty(init);
      if c == '\n' {
        JoinNewline(Split(init));
      } else {
        JoinAttach(Split(init), c);
      }
      assert s == init + [c];
    }
  }

  /** An update without chunks only adds the newline a nonempty file may lack at its end. */
  lemma NoChunksKeepTheText(source: string)
    ensures ApplyChunks(source, []) == Ok(if source == "" || source[|source| - 1] == '\n' then source else source + "\n")
  {
    var lines := Split(source);
    JoinSplit(source);
    SplitIsNonempty(source);
    if EndsEmpty(lines) {
      assert lines == lines[..|lines| - 1] + [""];
      EmptyLastLine(source);
    } else {
      JoinNewline(lines);
      EmptyLastLine(source);
      assert LinesOf(source) == lines && Locate(lines, []) == Ok(Located(0, [])) && Sort([]) == [];
    }
  }

  lemma {:induction false} EmptyLastLine(source: string)
    ensures EndsEmpty(Split(source)) <==> source == "" || source[|source| - 1] == '\n'
  {
    if source != "" { SplitIsNonempty(source[..|source| - 1]); }
  }

  // ---------------------------------------------------------------- the loops of `apply_chunks`

  lemma {:induction false} FailedChunkFailsAll(lines: seq<Line>, chunks: seq<Chunk>, n: nat)
    requires n <= |chunks| && Locate(lines, chunks[..n]).Err?
    ensures Locate(lines, chunks) == Locate(lines, chunks[..n])
    decreases |chunks|
  {
    if n == |chunks| {
      assert chunks[..n] == chunks;
    } else {
      assert chunks[..|chunks| - 1][..n] == chunks[..n];
      FailedChunkFailsAll(lines, chunks[..|chunks| - 1], n);
    }
  }

  method LocateOldLines(lines: seq<Line>, chunk: Chunk, cursor: nat) returns (r: Option<Replacement>)
    ensures r == LocateOld(lines, chunk, cursor)
  {
    var oldLines, newLines := chunk.oldLines, chunk.newLines;
    var start := SeekLines(lines, oldLines, cursor, chunk.endOfFile);
    if start.None? && EndsEmpty(oldLines) {
      oldLines := oldLines[..|oldLines| - 1];
      if EndsEmpty(newLines) { newLines := newLines[..|newLines| - 1]; }
      start := SeekLines(lines, oldLines, cursor, chunk.endOfFile);
    }
    r := if start.None? then None else Some(Replacement(start.value, |oldLines|, newLines));
  }

  method LocateChunk(lines: seq<Line>, chunk: Chunk, from: nat, found: seq<Replacement>)
    returns (error: Option<ChunkError>, cursor: nat, replacements: seq<Replacement>)
    ensures var located := LocateOne(lines, chunk, Located(from, found));
            if error.Some? then located == Err(error.value) else located == Ok(Located(cursor, replacements))
  {
    error, cursor, replacements := None, from, found;
    if chunk.context.Some? {
      var context := SeekLines(lines, [chunk.context.value], cursor, false);
      if context.None? { error := Some(ContextNotFound); return; }
      cursor := context.value + 1;
    }
    if chunk.oldLines == [] {
      replacements := replacements + [Replacement(|lines|, 0, chunk.newLines)];
      return;
    }
    var r := LocateOldLines(lines, chunk, cursor);
    if r.None? { error := Some(LinesNotFound); return; }
    replacements := replacements + [r.value];
    cursor := r.value.start + r.value.length;
  }

  method SpliceReverse(lines: seq<Line>, sorted: seq<Replacement>) returns (spliced: Option<seq<Line>>)
    ensures spliced == SpliceAll(lines, sorted)
  {
    var current := lines;
    assert sorted[..|sorted|] == sorted;
    for i := |sorted| downto 0
      invariant SpliceAll(current, sorted[..i]) == SpliceAll(lines, sorted)
    {
      assert sorted[..i + 1][..i] == sorted[..i];
      var r := sorted[i];
      if r.start + r.length > |current| { return None; }
      current := current[..r.start] + r.lines + current[r.start + r.length..];
    }
    spliced := Some(current);
  }

  method ApplyChunksTo(source: string, chunks: seq<Chunk>) returns (result: Result<string, ChunkError>)
    ensures result == ApplyChunks(source, chunks)
  {
    var lines := Split(source);
    if EndsEmpty(lines) { lines := lines[..|lines| - 1]; }
    var cursor, replacements := 0, [];
    for i := 0 to |chunks|
      invariant Locate(lines, chunks[..i]) == Ok(Located(cursor, replacements))
    {
      assert chunks[..i + 1][..i] == chunks[..i];
      var error;
      error, cursor, replacements := LocateChunk(lines, chunks[i], cursor, replacements);
      if error.Some? {
        FailedChunkFailsAll(lines, chunks, i + 1);
        return Err(error.value);
      }
    }
    assert chunks[..|chunks|] == chunks;
    var spliced := SpliceReverse(lines, Sort(replacements));
    if spliced.None? { return Err(SpliceOutOfRange); }
    result := Ok(Join(spliced.value + [""]));
  }
}
