/** Bounded command output: the first and the last bytes are kept, what falls between is counted, and
    the model sees at most a token budget of it. */
module OutputText {
  import opened Prelude

  /** A Unicode scalar value; text is measured in the bytes of its UTF-8 encoding. */
  datatype Char = Char(code: nat)

  type Str = seq<Char>

  function Width(c: Char): nat {
    if c.code < 0x80 then 1 else if c.code < 0x800 then 2 else if c.code < 0x1_0000 then 3 else 4
  }

  function Bytes(s: Str): nat { if s == [] then 0 else Bytes(s[..|s| - 1]) + Width(s[|s| - 1]) }

  const ACCUMULATOR_HALF_BYTES: nat := 24 * 1024

  lemma {:induction false} BytesAppend(a: Str, b: Str)
    ensures Bytes(a + b) == Bytes(a) + Bytes(b)
  {
    if b == [] {
      assert a + b == a;
    } else {
      assert (a + b)[..|a + b| - 1] == a + b[..|b| - 1];
      BytesAppend(a, b[..|b| - 1]);
    }
  }

  lemma BytesSplit(s: Str, k: nat)
    requires k <= |s|
    ensures Bytes(s) == Bytes(s[..k]) + Bytes(s[k..])
  {
    var a, b := s[..k], s[k..];
    assert a + b == s;
    BytesAppend(a, b);
  }

  lemma {:induction false} BytesAtLeast(s: Str)
    ensures |s| <= Bytes(s) <= 4 * |s|
  {
    if s != [] { BytesAtLeast(s[..|s| - 1]); }
  }

  // ---------------------------------------------------------------- character boundaries

  /** How many characters lie wholly within the first `budget` bytes. */
  function Floor(s: Str, budget: nat): (k: nat)
    ensures k <= |s|
  {
    if s == [] then 0
    else if Bytes(s) <= budget then |s|
    else Floor(s[..|s| - 1], budget)
  }

  /** How many characters it takes to cover the first `discard` bytes. */
  function Ceil(s: Str, discard: nat): (k: nat)
    ensures k <= |s|
  {
    if s == [] || Bytes(s[..|s| - 1]) < discard then |s| else Ceil(s[..|s| - 1], discard)
  }

  lemma {:induction false} FloorIsLargest(s: Str, budget: nat)
    ensures Bytes(s[..Floor(s, budget)]) <= budget
    ensures Floor(s, budget) < |s| ==> budget < Bytes(s[..Floor(s, budget) + 1])
  {
    if s != [] {
      if Bytes(s) <= budget {
        assert s[..|s|] == s;
      } else {
        var init := s[..|s| - 1];
        FloorIsLargest(init, budget);
        assert init[..Floor(init, budget)] == s[..Floor(s, budget)];
        if Floor(init, budget) < |init| {
          assert init[..Floor(init, budget) + 1] == s[..Floor(s, budget) + 1];
        } else {
          assert s[..|s|] == s;
        }
      }
    }
  }

  lemma {:induction false} CeilIsSmallest(s: Str, discard: nat)
    ensures Bytes(s) >= discard ==> Bytes(s[..Ceil(s, discard)]) >= discard
    ensures Ceil(s, discard) > 0 ==> Bytes(s[..Ceil(s, discard) - 1]) < discard
  {
    if s == [] {
    } else if Bytes(s[..|s| - 1]) < discard {
      assert s[..|s|] == s;
    } else {
      var init := s[..|s| - 1];
      CeilIsSmallest(init, discard);
      assert init[..Ceil(init, discard)] == s[..Ceil(s, discard)];
      if Ceil(init, discard) > 0 { assert init[..Ceil(init, discard) - 1] == s[..Ceil(s, discard) - 1]; }
    }
  }

  // ---------------------------------------------------------------- the accumulator

  datatype Output = Output(head: Str, tail: Str, total: nat, omitted: nat)

  function Empty(): Output { Output([], [], 0, 0) }

  function HeadRoom(o: Output): nat {
    if Bytes(o.head) < ACCUMULATOR_HALF_BYTES then ACCUMULATOR_HALF_BYTES - Bytes(o.head) else 0
  }

  /** How many characters of the appended text go to the head. */
  function ToHead(o: Output, text: Str): nat { if HeadRoom(o) == 0 then 0 else Floor(text, HeadRoom(o)) }

  function WithTail(o: Output, rest: Str): Output {
    if rest == [] then o
    else
      var tail := o.tail + rest;
      if Bytes(tail) <= ACCUMULATOR_HALF_BYTES then o.(tail := tail)
      else
        var k := Ceil(tail, Bytes(tail) - ACCUMULATOR_HALF_BYTES);
        o.(tail := tail[k..], omitted := o.omitted + Bytes(tail[..k]))
  }

  /** `append`: `raw` is the number of bytes before decoding, `text` what they decode to. */
  function Append(o: Output, raw: nat, text: Str): Output {
    var k := ToHead(o, text);
    WithTail(o.(total := o.total + raw, head := o.head + text[..k]), text[k..])
  }

  datatype Chunk = Chunk(raw: nat, text: Str)

  function AppendAll(chunks: seq<Chunk>): Output {
    if chunks == [] then Empty()
    else Append(AppendAll(chunks[..|chunks| - 1]), chunks[|chunks| - 1].raw, chunks[|chunks| - 1].text)
  }

  function TextOf(chunks: seq<Chunk>): Str {
    if chunks == [] then [] else TextOf(chunks[..|chunks| - 1]) + chunks[|chunks| - 1].text
  }

  function RawOf(chunks: seq<Chunk>): nat {
    if chunks == [] then 0 else RawOf(chunks[..|chunks| - 1]) + chunks[|chunks| - 1].raw
  }

  predicate Bounded(o: Output) { Bytes(o.head) <= ACCUMULATOR_HALF_BYTES && Bytes(o.tail) <= ACCUMULATOR_HALF_BYTES }

  /** The characters dropped from the front of the tail when `rest` arrives. */
  function DroppedBy(o: Output, rest: Str): Str {
    if rest == [] || Bytes(o.tail + rest) <= ACCUMULATOR_HALF_BYTES then []
    else (o.tail + rest)[..Ceil(o.tail + rest, Bytes(o.tail + rest) - ACCUMULATOR_HALF_BYTES)]
  }

  lemma TailKeepsASuffix(o: Output, rest: Str)
    ensures var after := WithTail(o, rest); var dropped := DroppedBy(o, rest);
            && after == o.(tail := after.tail, omitted := after.omitted)
            && o.tail + rest == dropped + after.tail && after.omitted == o.omitted + Bytes(dropped)
  {
    if rest == [] { assert o.tail + rest == o.tail; }
  }

  lemma TrimmedTo(tail: Str, limit: nat)
    requires Bytes(tail) > limit
    ensures var k := Ceil(tail, Bytes(tail) - limit);
            Bytes(tail[k..]) <= limit && Bytes(tail[..k]) + Bytes(tail[k..]) == Bytes(tail)
  {
    var k := Ceil(tail, Bytes(tail) - limit);
    CeilIsSmallest(tail, Bytes(tail) - limit);
    BytesSplit(tail, k);
  }

  lemma TailStaysBounded(o: Output, rest: Str)
    requires Bounded(o)
    ensures Bytes(WithTail(o, rest).tail) <= ACCUMULATOR_HALF_BYTES
    ensures Bytes(WithTail(o, rest).tail) + WithTail(o, rest).omitted == Bytes(o.tail) + o.omitted + Bytes(rest)
  {
    BytesAppend(o.tail, rest);
    if rest != [] && Bytes(o.tail + rest) > ACCUMULATOR_HALF_BYTES { TrimmedTo(o.tail + rest, ACCUMULATOR_HALF_BYTES); }
  }

  lemma HeadStaysBounded(o: Output, text: Str)
    requires Bounded(o)
    ensures var k := ToHead(o, text);
            Bytes(o.head + text[..k]) == Bytes(o.head) + Bytes(text[..k]) <= ACCUMULATOR_HALF_BYTES
            && Bytes(text) == Bytes(text[..k]) + Bytes(text[k..])
  {
    var k := ToHead(o, text);
    BytesAppend(o.head, text[..k]);
    BytesSplit(text, k);
    if HeadRoom(o) > 0 { FloorIsLargest(text, HeadRoom(o)); }
  }

  lemma AppendStaysBounded(o: Output, raw: nat, text: Str)
    requires Bounded(o)
    ensures var after := Append(o, raw, text);
            Bounded(after) && after.total == o.total + raw
            && Bytes(after.head) + Bytes(after.tail) + after.omitted
               == Bytes(o.head) + Bytes(o.tail) + o.omitted + Bytes(text)
  {
    HeadStaysBounded(o, text);
    var k := ToHead(o, text);
    var mid := o.(total := o.total + raw, head := o.head + text[..k]);
    TailStaysBounded(mid, text[k..]);
    TailKeepsASuffix(mid, text[k..]);
  }

  /** After any appends head and tail are each at most 24 KiB, and head, tail and omitted bytes add up to
      the decoded bytes appended. */
  lemma {:induction false} OutputIsBounded(chunks: seq<Chunk>)
    ensures var o := AppendAll(chunks);
            Bounded(o) && Bytes(o.head) + Bytes(o.tail) + o.omitted == Bytes(TextOf(chunks)) && o.total == RawOf(chunks)
  {
    if chunks != [] {
      OutputIsBounded(chunks[..|chunks| - 1]);
      BytesAppend(TextOf(chunks[..|chunks| - 1]), chunks[|chunks| - 1].text);
      AppendStaysBounded(AppendAll(chunks[..|chunks| - 1]), chunks[|chunks| - 1].raw, chunks[|chunks| - 1].text);
    }
  }

  // ---------------------------------------------------------------- order

  /** Head, the omitted characters and tail make up the text, in order. */
  ghost predicate InOrder(o: Output, text: Str) {
    exists dropped: Str :: text == o.head + dropped + o.tail && Bytes(dropped) == o.omitted
  }

  /** Characters of the new text would enter the head past characters that did not. */
  predicate Overtakes(o: Output, text: Str) { (o.tail != [] || o.omitted > 0) && ToHead(o, text) > 0 }

  /** Nothing that entered the tail would have fitted into the head. */
  predicate HeadFull(o: Output, text: Str) {
    o.tail != [] || o.omitted > 0 ==> |o.head| < |text| && HeadRoom(o) < Width(text[|o.head|])
  }

  lemma NothingDropped(o: Output, text: Str)
    requires InOrder(o, text) && o.tail == [] && o.omitted == 0
    ensures o.head == text
  {
    var dropped :| text == o.head + dropped + o.tail && Bytes(dropped) == o.omitted;
    BytesAtLeast(dropped);
    assert dropped == [];
  }

  lemma FourParts(head: Str, dropped: Str, tail: Str, rest: Str, more: Str, after: Str)
    requires tail + rest == more + after
    ensures head + dropped + tail + rest == head + (dropped + more) + after
  {
    assert head + dropped + tail + rest == head + dropped + (tail + rest);
    assert head + dropped + (more + after) == head + (dropped + more) + after;
  }

  /** Text that goes to the tail follows what is already there. */
  lemma TailInOrder(o: Output, all: Str, rest: Str)
    requires InOrder(o, all)
    ensures InOrder(WithTail(o, rest), all + rest)
  {
    var dropped :| all == o.head + dropped + o.tail && Bytes(dropped) == o.omitted;
    TailKeepsASuffix(o, rest);
    TailInOrderBy(o, all, rest, dropped, DroppedBy(o, rest), WithTail(o, rest));
  }

  lemma TailInOrderBy(o: Output, all: Str, rest: Str, dropped: Str, more: Str, after: Output)
    requires all == o.head + dropped + o.tail && Bytes(dropped) == o.omitted
    requires after.head == o.head && o.tail + rest == more + after.tail && after.omitted == o.omitted + Bytes(more)
    ensures InOrder(after, all + rest)
  {
    FourParts(o.head, dropped, o.tail, rest, more, after.tail);
    BytesAppend(dropped, more);
  }

  lemma HeadInOrder(o: Output, raw: nat, all: Str, text: Str)
    requires InOrder(o, all) && (ToHead(o, text) > 0 ==> o.tail == [] && o.omitted == 0)
    ensures var k := ToHead(o, text);
            InOrder(o.(total := o.total + raw, head := o.head + text[..k]), all + text[..k])
  {
    var k := ToHead(o, text);
    if k > 0 {
      NothingDropped(o, all);
      assert all + text[..k] == (o.head + text[..k]) + [] + o.tail;
      assert Bytes([]) == 0;
    } else {
      var dropped :| all == o.head + dropped + o.tail && Bytes(dropped) == o.omitted;
      assert all + text[..k] == (o.head + text[..k]) + dropped + o.tail;
    }
  }

  lemma AppendInOrder(o: Output, raw: nat, all: Str, text: Str)
    requires InOrder(o, all) && !Overtakes(o, text)
    ensures InOrder(Append(o, raw, text), all + text)
  {
    var k := ToHead(o, text);
    HeadInOrder(o, raw, all, text);
    ThenTailInOrder(o, raw, all, text, k, o.(total := o.total + raw, head := o.head + text[..k]));
  }

  lemma ThenTailInOrder(o: Output, raw: nat, all: Str, text: Str, k: nat, mid: Output)
    requires k == ToHead(o, text) && mid == o.(total := o.total + raw, head := o.head + text[..k])
    requires InOrder(mid, all + text[..k])
    ensures InOrder(Append(o, raw, text), all + text)
  {
    TailInOrder(mid, all + text[..k], text[k..]);
    TwoParts(all, text, k);
  }

  lemma TwoParts(all: Str, text: Str, k: nat)
    requires k <= |text|
    ensures all + text[..k] + text[k..] == all + text
  {
    assert text[..k] + text[k..] == text;
  }

  lemma OrderedAppend(o: Output, raw: nat, all: Str, text: Str)
    requires Bounded(o) && InOrder(o, all) && HeadFull(o, all) && !Overtakes(o, text)
    ensures InOrder(Append(o, raw, text), all + text) && HeadFull(Append(o, raw, text), all + text)
  {
    AppendInOrder(o, raw, all, text);
    FullHeadStaysFull(o, raw, all, text);
  }

  lemma FullHeadStaysFull(o: Output, raw: nat, all: Str, text: Str)
    requires Bounded(o) && InOrder(o, all) && HeadFull(o, all) && !Overtakes(o, text)
    ensures HeadFull(Append(o, raw, text), all + text)
  {
    var after := Append(o, raw, text);
    if o.tail != [] || o.omitted > 0 {
      assert after.head == o.head by { assert text[..0] == []; }
      assert (all + text)[|o.head|] == all[|o.head|];
    } else {
      NothingDropped(o, all);
      if ToHead(o, text) < |text| {
        FirstLeftOut(o, text);
        assert (all + text)[|all| + ToHead(o, text)] == text[ToHead(o, text)];
      } else {
        assert text[|text|..] == [];
      }
    }
  }

  /** The first character that does not go to the head would not fit there. */
  lemma FirstLeftOut(o: Output, text: Str)
    requires Bounded(o) && ToHead(o, text) < |text|
    ensures var k := ToHead(o, text); HeadRoom(o.(head := o.head + text[..k])) < Width(text[k])
  {
    var k := ToHead(o, text);
    HeadStaysBounded(o, text);
    FloorIsLargest(text, HeadRoom(o));
    OneMoreChar(text, k);
    FullOrNot(o, text, k);
  }

  lemma OneMoreChar(s: Str, k: nat)
    requires k < |s|
    ensures Bytes(s[..k + 1]) == Bytes(s[..k]) + Width(s[k])
  {
    assert s[..k + 1][..k] == s[..k];
  }

  lemma FullOrNot(o: Output, text: Str, k: nat)
    requires Bounded(o) && k == ToHead(o, text) < |text| && Bytes(o.head + text[..k]) == Bytes(o.head) + Bytes(text[..k])
    requires HeadRoom(o) > 0 ==> HeadRoom(o) < Bytes(text[..k]) + Width(text[k])
    ensures HeadRoom(o.(head := o.head + text[..k])) < Width(text[k])
  {
    if HeadRoom(o) == 0 { assert text[..0] == []; }
  }

  /** An append that overtakes puts into the head a character that is not the next one of the text. */
  lemma OvertakingBreaksTheHead(o: Output, raw: nat, all: Str, text: Str)
    requires Bounded(o) && InOrder(o, all) && HeadFull(o, all) && Overtakes(o, text)
    ensures !InOrder(Append(o, raw, text), all + text)
  {
    var k := ToHead(o, text);
    var after := Append(o, raw, text);
    FloorIsLargest(text, HeadRoom(o));
    BytesSplit(text[..k], 1);
    assert text[..k][..1] == [text[0]];
    assert Bytes([text[0]]) == Width(text[0]) by { assert [text[0]][..0] == []; }
    var n := |o.head|;
    assert after.head[n] == text[0];
    assert (all + text)[n] == all[n];
    forall dropped: Str ensures all + text != after.head + dropped + after.tail {
      assert (after.head + dropped + after.tail)[n] == after.head[n];
    }
  }

  predicate NeverOvertakes(chunks: seq<Chunk>) {
    chunks == []
    || (NeverOvertakes(chunks[..|chunks| - 1]) && !Overtakes(AppendAll(chunks[..|chunks| - 1]), chunks[|chunks| - 1].text))
  }

  ghost predicate AlwaysInOrder(chunks: seq<Chunk>) {
    forall n :: 0 <= n <= |chunks| ==> InOrder(AppendAll(chunks[..n]), TextOf(chunks[..n]))
  }

  lemma {:induction false} InOrderWhileNotOvertaking(chunks: seq<Chunk>)
    requires NeverOvertakes(chunks)
    ensures InOrder(AppendAll(chunks), TextOf(chunks)) && HeadFull(AppendAll(chunks), TextOf(chunks))
  {
    if chunks == [] {
      assert TextOf(chunks) == Empty().head + [] + Empty().tail && Bytes([]) == 0;
    } else {
      var init, last := chunks[..|chunks| - 1], chunks[|chunks| - 1];
      InOrderWhileNotOvertaking(init);
      OutputIsBounded(init);
      OrderedAppend(AppendAll(init), last.raw, TextOf(init), last.text);
    }
  }

  /** The kept output is head, omission and tail of the text in order, at every moment, exactly if no
      append finds room in the head after text has gone to the tail. */
  lemma {:induction false} InOrderIffNeverOvertaking(chunks: seq<Chunk>)
    ensures AlwaysInOrder(chunks) <==> NeverOvertakes(chunks)
  {
    if chunks == [] {
      InOrderWhileNotOvertaking(chunks);
      assert forall n :: 0 <= n <= |chunks| ==> chunks[..n] == [];
    } else {
      var init, last := chunks[..|chunks| - 1], chunks[|chunks| - 1];
      InOrderIffNeverOvertaking(init);
      assert chunks[..|chunks|] == chunks;
      assert forall n :: 0 <= n <= |init| ==> init[..n] == chunks[..n];
      if NeverOvertakes(chunks) { InOrderWhileNotOvertaking(chunks); }
      if AlwaysInOrder(chunks) {
        assert AlwaysInOrder(init);
        InOrderWhileNotOvertaking(init);
        OutputIsBounded(init);
        if Overtakes(AppendAll(init), last.text) {
          OvertakingBreaksTheHead(AppendAll(init), last.raw, TextOf(init), last.text);
        }
      }
      if NeverOvertakes(chunks) {
        forall n | 0 <= n <= |chunks| ensures InOrder(AppendAll(chunks[..n]), TextOf(chunks[..n])) {
          if n < |chunks| { assert AlwaysInOrder(init) && init[..n] == chunks[..n]; }
        }
      }
    }
  }

  // ---------------------------------------------------------------- single-byte text

  predicate SingleByte(s: Str) { forall i :: 0 <= i < |s| ==> Width(s[i]) == 1 }

  lemma {:induction false} SingleByteLength(s: Str)
    requires SingleByte(s)
    ensures Bytes(s) == |s|
  {
    if s != [] { SingleByteLength(s[..|s| - 1]); }
  }

  predicate AllSingleByte(chunks: seq<Chunk>) { forall i :: 0 <= i < |chunks| ==> SingleByte(chunks[i].text) }

  lemma {:induction false} SingleByteTogether(chunks: seq<Chunk>)
    requires AllSingleByte(chunks)
    ensures SingleByte(TextOf(chunks))
  {
    if chunks != [] { SingleByteTogether(chunks[..|chunks| - 1]); }
  }

  lemma {:induction false} SingleByteNeverOvertakes(chunks: seq<Chunk>)
    requires AllSingleByte(chunks)
    ensures NeverOvertakes(chunks)
  {
    if chunks != [] {
      var init := chunks[..|chunks| - 1];
      SingleByteNeverOvertakes(init);
      InOrderWhileNotOvertaking(init);
      SingleByteTogether(init);
    }
  }

  /** For single-byte text head and tail are the true prefix and suffix, and the head is full before
      anything else is kept. */
  lemma SingleByteOutput(chunks: seq<Chunk>)
    requires AllSingleByte(chunks)
    ensures var o, text := AppendAll(chunks), TextOf(chunks);
            && |o.head| <= ACCUMULATOR_HALF_BYTES && |o.tail| <= ACCUMULATOR_HALF_BYTES
            && |o.head| + o.omitted + |o.tail| == |text|
            && o.head == text[..|o.head|] && o.tail == text[|text| - |o.tail|..]
            && (|o.head| < |text| ==> |o.head| == ACCUMULATOR_HALF_BYTES)
  {
    var o, text := AppendAll(chunks), TextOf(chunks);
    SingleByteNeverOvertakes(chunks);
    InOrderWhileNotOvertaking(chunks);
    OutputIsBounded(chunks);
    SingleByteTogether(chunks);
    var dropped :| text == o.head + dropped + o.tail && Bytes(dropped) == o.omitted;
    SingleByteParts(o, text, dropped);
  }

  lemma SingleByteParts(o: Output, text: Str, dropped: Str)
    requires text == o.head + dropped + o.tail && Bytes(dropped) == o.omitted && SingleByte(text)
    requires Bounded(o) && HeadFull(o, text)
    ensures |o.head| <= ACCUMULATOR_HALF_BYTES && |o.tail| <= ACCUMULATOR_HALF_BYTES
    ensures |o.head| + o.omitted + |o.tail| == |text|
    ensures o.head == text[..|o.head|] && o.tail == text[|text| - |o.tail|..]
    ensures |o.head| < |text| ==> |o.head| == ACCUMULATOR_HALF_BYTES
  {
    assert SingleByte(o.head) by { assert forall i :: 0 <= i < |o.head| ==> o.head[i] == text[i]; }
    assert SingleByte(dropped) by { assert forall i :: 0 <= i < |dropped| ==> dropped[i] == text[|o.head| + i]; }
    assert SingleByte(o.tail) by {
      assert forall i :: 0 <= i < |o.tail| ==> o.tail[i] == text[|o.head| + |dropped| + i];
    }
    SingleByteLength(o.head);
    SingleByteLength(dropped);
    SingleByteLength(o.tail);
  }

  // ---------------------------------------------------------------- where order is lost

  const LETTER := Char(0x61)
  const ACCENT := Char(0xE9)

  function Letters(n: nat): Str { seq(n, i => LETTER) }

  lemma LettersAre(n: nat)
    ensures |Letters(n)| == n && Bytes(Letters(n)) == n
  {
    SingleByteLength(Letters(n));
  }

  /** What the appends of `LaterLetterComesFirst` leave, one after another. */
  lemma AlmostFull(n: nat)
    requires n == ACCUMULATOR_HALF_BYTES - 1
    ensures AppendAll([Chunk(n, Letters(n))]) == Output(Letters(n), [], n, 0)
  {
    var chunks := [Chunk(n, Letters(n))];
    LettersAre(n);
    assert chunks[..0] == [];
    assert Bytes([]) == 0 && HeadRoom(Empty()) == ACCUMULATOR_HALF_BYTES;
    assert Floor(Letters(n), ACCUMULATOR_HALF_BYTES) == n;
    assert Letters(n)[..n] == Letters(n) && Letters(n)[n..] == [];
    assert [] + Letters(n) == Letters(n);
  }

  lemma OneMoreChunk(chunks: seq<Chunk>, chunk: Chunk)
    ensures AppendAll(chunks + [chunk]) == Append(AppendAll(chunks), chunk.raw, chunk.text)
    ensures TextOf(chunks + [chunk]) == TextOf(chunks) + chunk.text
    ensures NeverOvertakes(chunks + [chunk]) ==> !Overtakes(AppendAll(chunks), chunk.text)
  {
    assert (chunks + [chunk])[..|chunks|] == chunks;
  }

  /** One byte short of a full head, a two-byte character goes to the tail; the letter that comes after
      it still fits into the head, and is kept before it. */
  lemma LaterLetterComesFirst()
    ensures var n := ACCUMULATOR_HALF_BYTES - 1;
            var chunks := [Chunk(n, Letters(n))] + [Chunk(2, [ACCENT])] + [Chunk(1, [LETTER])];
            && AppendAll(chunks) == Output(Letters(n) + [LETTER], [ACCENT], n + 3, 0)
            && TextOf(chunks) == Letters(n) + [ACCENT] + [LETTER]
            && !InOrder(AppendAll(chunks), TextOf(chunks)) && !NeverOvertakes(chunks)
  {
    var n := ACCUMULATOR_HALF_BYTES - 1;
    var letters, accent, letter := Chunk(n, Letters(n)), Chunk(2, [ACCENT]), Chunk(1, [LETTER]);
    LettersAre(n);
    AlmostFull(n);
    OneMoreChunk([], letters);
    assert [] + [letters] == [letters] && [] + Letters(n) == Letters(n);
    OneMoreChunk([letters], accent);
    AccentToTail(AppendAll([letters]));
    OneMoreChunk([letters] + [accent], letter);
    LetterToHead(AppendAll([letters] + [accent]));
    NotInOrder(Letters(n));
  }

  lemma NotInOrder(letters: Str)
    ensures forall o: Output :: o.head == letters + [LETTER] && o.tail == [ACCENT] && o.omitted == 0 ==>
              !InOrder(o, letters + [ACCENT] + [LETTER])
  {
    forall o: Output, dropped: Str | o.head == letters + [LETTER] && o.tail == [ACCENT]
      ensures letters + [ACCENT] + [LETTER] != o.head + dropped + o.tail
    {
      assert (o.head + dropped + o.tail)[|letters|] == LETTER;
      assert (letters + [ACCENT] + [LETTER])[|letters|] == ACCENT;
    }
  }

  lemma OneChar(c: Char)
    ensures Bytes([c]) == Width(c) && [c][..0] == [] && [c][..1] == [c] && [c][0..] == [c] && [c][1..] == []
    ensures forall budget :: Floor([c], budget) == if Width(c) <= budget then 1 else 0
  {
    assert [c][..0] == [];
  }

  lemma AccentToTail(o: Output)
    requires Bytes(o.head) == ACCUMULATOR_HALF_BYTES - 1 && o.tail == [] && o.omitted == 0
    ensures Append(o, 2, [ACCENT]) == Output(o.head, [ACCENT], o.total + 2, 0)
  {
    OneChar(ACCENT);
    assert o.head + [] == o.head && [] + [ACCENT] == [ACCENT];
  }

  lemma LetterToHead(o: Output)
    requires Bytes(o.head) == ACCUMULATOR_HALF_BYTES - 1
    ensures Append(o, 1, [LETTER]) == Output(o.head + [LETTER], o.tail, o.total + 1, o.omitted)
    ensures ToHead(o, [LETTER]) == 1
  {
    OneChar(LETTER);
  }

  // ---------------------------------------------------------------- what the model sees

  function Ascii(s: string): Str { seq(|s|, i requires 0 <= i < |s| => Char(s[i] as int)) }

  function Decimal(n: nat): string { if n < 10 then [Digit(n)] else Decimal(n / 10) + [Digit(n % 10)] }

  function Digit(n: nat): char
    requires n < 10
  {
    ('0' as int + n) as char
  }

  function Shown(o: Output): Str {
    if o.omitted == 0 then o.head + o.tail
    else o.head + Ascii("\n... " + Decimal(o.omitted) + " bytes omitted ...\n") + o.tail
  }

  function Marker(o: Output): Str {
    Ascii("\n... model output truncated (original token count: " + Decimal((o.total + 3) / 4) + ") ...\n")
  }

  function ModelText(o: Output, maxTokens: nat): Str {
    var text, budget := Shown(o), maxTokens * 4;
    if Bytes(text) <= budget then text
    else if budget == 0 then []
    else if Bytes(Marker(o)) >= budget then text[..Floor(text, budget)]
    else
      var remaining := budget - Bytes(Marker(o));
      Abridged(text, Marker(o), remaining)
  }

  /** The first half of the budget's bytes, the marker, and as many of the last bytes as still fit. */
  function Abridged(text: Str, marker: Str, remaining: nat): Str
    requires remaining < Bytes(text)
  {
    var head := Floor(text, remaining / 2);
    FloorIsLargest(text, remaining / 2);
    var kept := remaining - Bytes(text[..head]);
    text[..head] + marker + text[Ceil(text, Bytes(text) - kept)..]
  }

  lemma SuffixWithin(text: Str, kept: nat)
    requires kept <= Bytes(text)
    ensures Bytes(text[Ceil(text, Bytes(text) - kept)..]) <= kept
  {
    var k := Ceil(text, Bytes(text) - kept);
    CeilIsSmallest(text, Bytes(text) - kept);
    BytesSplit(text, k);
  }

  predicate PrefixOf(text: Str, seen: Str) { exists k :: 0 <= k <= |text| && seen == text[..k] }

  predicate Around(text: Str, marker: Str, seen: Str) {
    exists h, t :: 0 <= h <= |text| && 0 <= t <= |text| && seen == text[..h] + marker + text[t..]
  }

  lemma AbridgedFits(text: Str, marker: Str, remaining: nat)
    requires remaining < Bytes(text)
    ensures Bytes(Abridged(text, marker, remaining)) <= Bytes(marker) + remaining
    ensures Around(text, marker, Abridged(text, marker, remaining))
  {
    var head := Floor(text, remaining / 2);
    FloorIsLargest(text, remaining / 2);
    var kept := remaining - Bytes(text[..head]);
    SuffixWithin(text, kept);
    ThreeParts(text[..head], marker, text[Ceil(text, Bytes(text) - kept)..]);
  }

  lemma ThreeParts(a: Str, b: Str, c: Str)
    ensures Bytes(a + b + c) == Bytes(a) + Bytes(b) + Bytes(c)
  {
    BytesAppend(a + b, c);
    BytesAppend(a, b);
  }

  /** The model never sees more than four bytes for each token of its budget: the whole text if it fits,
      otherwise a prefix and a suffix of it around a marker, or only a prefix. */
  lemma ModelTextIsBounded(o: Output, maxTokens: nat)
    ensures var text, seen := Shown(o), ModelText(o, maxTokens);
            && Bytes(seen) <= 4 * maxTokens
            && (if Bytes(text) <= 4 * maxTokens then seen == text else PrefixOf(text, seen) || Around(text, Marker(o), seen))
  {
    var text, budget := Shown(o), maxTokens * 4;
    if Bytes(text) > budget {
      if budget == 0 {
        assert ModelText(o, maxTokens) == text[..0];
      } else if Bytes(Marker(o)) >= budget {
        FloorIsLargest(text, budget);
      } else {
        AbridgedFits(text, Marker(o), budget - Bytes(Marker(o)));
      }
    }
  }

  // ---------------------------------------------------------------- nothing is cut without need

  lemma FloorWastesLittle(text: Str, budget: nat)
    requires budget < Bytes(text)
    ensures budget - 4 < Bytes(text[..Floor(text, budget)]) <= budget
  {
    var k := Floor(text, budget);
    FloorIsLargest(text, budget);
    assert text[..|text|] == text;
    OneMoreChar(text, k);
  }

  lemma SuffixWastesLittle(text: Str, kept: nat)
    requires kept < Bytes(text)
    ensures kept - 4 < Bytes(text[Ceil(text, Bytes(text) - kept)..]) <= kept
  {
    var k := Ceil(text, Bytes(text) - kept);
    CeilIsSmallest(text, Bytes(text) - kept);
    SuffixWithin(text, kept);
    BytesSplit(text, k);
    assert text[..0] == [];
    if k > 0 { OneMoreChar(text, k - 1); }
  }

  /** Half of the room for the beginning of the text, the rest for its end, each used up to a character. */
  predicate HalfAndHalf(text: Str, marker: Str, seen: Str, remaining: nat) {
    exists h, t :: 0 <= h <= |text| && 0 <= t <= |text| && HalvesAt(text, marker, seen, remaining, h, t)
  }

  predicate HalvesAt(text: Str, marker: Str, seen: Str, remaining: nat, h: nat, t: nat)
    requires h <= |text| && t <= |text|
  {
    && seen == text[..h] + marker + text[t..] && remaining / 2 - 4 < Bytes(text[..h]) <= remaining / 2
    && remaining - 4 < Bytes(text[..h]) + Bytes(text[t..]) <= remaining
  }

  lemma AbridgedWastesLittle(text: Str, marker: Str, remaining: nat)
    requires remaining < Bytes(text)
    ensures HalfAndHalf(text, marker, Abridged(text, marker, remaining), remaining)
    ensures Bytes(marker) + remaining - 4 < Bytes(Abridged(text, marker, remaining))
  {
    var h := Floor(text, remaining / 2);
    FloorWastesLittle(text, remaining / 2);
    var kept := remaining - Bytes(text[..h]);
    var t := Ceil(text, Bytes(text) - kept);
    SuffixWastesLittle(text, kept);
    ThreeParts(text[..h], marker, text[t..]);
    assert HalvesAt(text, marker, Abridged(text, marker, remaining), remaining, h, t);
  }

  /** A text that is too long is shown up to the last character that fits: its beginning and its end around the
      marker in equal parts, or its beginning alone if there is no room for the marker. */
  lemma ModelTextWastesLittle(o: Output, maxTokens: nat)
    requires Bytes(Shown(o)) > 4 * maxTokens
    ensures var text, seen := Shown(o), ModelText(o, maxTokens);
            && 4 * maxTokens - 4 < Bytes(seen)
            && if Bytes(Marker(o)) < 4 * maxTokens then HalfAndHalf(text, Marker(o), seen, 4 * maxTokens - Bytes(Marker(o)))
               else PrefixOf(text, seen)
  {
    var text, budget := Shown(o), maxTokens * 4;
    if budget == 0 {
      assert ModelText(o, maxTokens) == text[..0];
    } else if Bytes(Marker(o)) >= budget {
      FloorWastesLittle(text, budget);
    } else {
      AbridgedWastesLittle(text, Marker(o), budget - Bytes(Marker(o)));
    }
  }

  /** The tail is used only once the head is full up to a character, and bytes are dropped only once the tail is. */
  predicate FilledUp(o: Output) {
    && (o.tail != [] || o.omitted > 0 ==> ACCUMULATOR_HALF_BYTES - 4 < Bytes(o.head))
    && (o.omitted > 0 ==> ACCUMULATOR_HALF_BYTES - 4 < Bytes(o.tail))
  }

  lemma TailFillsUp(o: Output, rest: Str)
    requires Bounded(o) && FilledUp(o) && (rest != [] ==> ACCUMULATOR_HALF_BYTES - 4 < Bytes(o.head))
    ensures FilledUp(WithTail(o, rest))
  {
    BytesAppend(o.tail, rest);
    if rest != [] && Bytes(o.tail + rest) > ACCUMULATOR_HALF_BYTES { SuffixWastesLittle(o.tail + rest, ACCUMULATOR_HALF_BYTES); }
  }

  lemma HeadFillsUp(o: Output, text: Str)
    requires Bounded(o)
    ensures var k := ToHead(o, text); k < |text| ==> ACCUMULATOR_HALF_BYTES - 4 < Bytes(o.head + text[..k])
  {
    var k := ToHead(o, text);
    BytesAppend(o.head, text[..k]);
    if k < |text| && HeadRoom(o) > 0 {
      FloorIsLargest(text, HeadRoom(o));
      OneMoreChar(text, k);
    }
  }

  lemma AppendFillsUp(o: Output, raw: nat, text: Str)
    requires Bounded(o) && FilledUp(o)
    ensures FilledUp(Append(o, raw, text))
  {
    var k := ToHead(o, text);
    var mid := o.(total := o.total + raw, head := o.head + text[..k]);
    HeadStaysBounded(o, text);
    HeadFillsUp(o, text);
    TailFillsUp(mid, text[k..]);
  }

  /** Whatever was appended, output is cut only where both halves are full up to a character. */
  lemma {:induction false} NothingIsCutWithoutNeed(chunks: seq<Chunk>)
    ensures FilledUp(AppendAll(chunks))
  {
    if chunks != [] {
      var o, last := AppendAll(chunks[..|chunks| - 1]), chunks[|chunks| - 1];
      NothingIsCutWithoutNeed(chunks[..|chunks| - 1]);
      OutputIsBounded(chunks[..|chunks| - 1]);
      AppendFillsUp(o, last.raw, last.text);
    }
  }

  // ---------------------------------------------------------------- the object

  class OutputAccumulator {
    var head: Str
    var tail: Str
    var totalBytes: nat
    var omittedBytes: nat

    function View(): Output
      reads this
    {
      Output(head, tail, totalBytes, omittedBytes)
    }

    constructor ()
      ensures View() == Empty()
    {
      head, tail, totalBytes, omittedBytes := [], [], 0, 0;
    }

    /** Fills the head; returns what is left of the text. */
    method FillHead(text: Str) returns (remainder: Str)
      modifies this`head
      ensures var k := ToHead(old(View()), text);
              head == old(head) + text[..k] && remainder == text[k..]
    {
      remainder := text;
      assert text[0..] == text && head + text[..0] == head;
      if Bytes(head) < ACCUMULATOR_HALF_BYTES {
        var available := ACCUMULATOR_HALF_BYTES - Bytes(head);
        var split := FloorCharBoundary(remainder, available);
        head := head + remainder[..split];
        remainder := remainder[split..];
      }
    }

    method PushTail(remainder: Str)
      modifies this`tail, this`omittedBytes
      ensures View() == WithTail(old(View()), remainder)
    {
      if remainder != [] {
        tail := tail + remainder;
        if Bytes(tail) > ACCUMULATOR_HALF_BYTES {
          var discard := Bytes(tail) - ACCUMULATOR_HALF_BYTES;
          var boundary := CeilCharBoundary(tail, discard);
          omittedBytes := omittedBytes + Bytes(tail[..boundary]);
          tail := tail[boundary..];
        }
      }
    }

    method AppendText(raw: nat, text: Str)
      requires Bounded(View())
      modifies this
      ensures View() == Append(old(View()), raw, text) && Bounded(View())
    {
      AppendStaysBounded(View(), raw, text);
      totalBytes := totalBytes + raw;
      var remainder := FillHead(text);
      PushTail(remainder);
    }
  }

  /** `floor_char_boundary`: steps back to a boundary, returned as a number of characters. */
  method FloorCharBoundary(value: Str, limit: nat) returns (k: nat)
    ensures k == Floor(value, limit)
    ensures Bytes(value[..k]) <= limit
  {
    k := |value|;
    assert value[..|value|] == value;
    while k > 0 && Bytes(value[..k]) > limit
      invariant k <= |value| && Floor(value[..k], limit) == Floor(value, limit)
    {
      assert value[..k][..k - 1] == value[..k - 1];
      k := k - 1;
    }
    FloorIsLargest(value, limit);
    assert k == 0 ==> value[..k] == [];
  }

  /** `ceil_char_boundary`: steps on to a boundary, returned as a number of characters; a limit beyond the
      end is the end. */
  method CeilCharBoundary(value: Str, limit: nat) returns (k: nat)
    ensures k == Ceil(value, limit)
    ensures if limit <= Bytes(value) then Bytes(value[..k]) >= limit else k == |value|
    ensures k > 0 ==> Bytes(value[..k - 1]) < limit
  {
    k := 0;
    assert value[..|value|] == value;
    while k < |value| && Bytes(value[..k]) < limit
      invariant k <= |value| && (k > 0 ==> Bytes(value[..k - 1]) < limit)
    {
      k := k + 1;
    }
    if k < |value| { BytesSplit(value, k); }
    CeilIsUnique(value, limit, k);
  }

  lemma {:induction false} CeilIsUnique(value: Str, limit: nat, k: nat)
    requires k <= |value| && (k < |value| ==> Bytes(value[..k]) >= limit) && (k > 0 ==> Bytes(value[..k - 1]) < limit)
    ensures Ceil(value, limit) == k
  {
    if value != [] {
      var init := value[..|value| - 1];
      if k < |value| {
        BytesSplit(init, k);
        assert init[..k] == value[..k];
        if k > 0 { assert init[..k - 1] == value[..k - 1]; }
        CeilIsUnique(init, limit, k);
      } else {
        assert value[..k - 1] == init;
      }
    }
  }
}
