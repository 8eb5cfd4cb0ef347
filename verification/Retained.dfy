/** Which user messages survive a compaction. */
module Retained {
  import opened Prelude
  import opened OutputText

  datatype Detail = Low | Auto | High | Original

  datatype Part = TextPart(text: Str) | ImagePart(detail: Detail)

  datatype Message = UserMessage(content: seq<Part>) | OtherMessage(id: nat)

  const RETAINED_USER_TOKEN_BUDGET: nat := 64_000

  function PartTokens(part: Part): nat {
    match part
    case TextPart(text) => (Bytes(text) + 3) / 4
    case ImagePart(detail) =>
      match detail
      case Low => 85
      case Auto => 1_844
      case High => 1_844
      case Original => 10_000
  }

  function ContentTokens(content: seq<Part>): nat {
    if content == [] then 0 else ContentTokens(content[..|content| - 1]) + PartTokens(content[|content| - 1])
  }

  function Tokens(message: Message): nat {
    if message.UserMessage? then 4 + ContentTokens(message.content) else 0
  }

  function Total(messages: seq<Message>): nat {
    if messages == [] then 0 else Total(messages[..|messages| - 1]) + Tokens(messages[|messages| - 1])
  }

  function Users(messages: seq<Message>): seq<Message> {
    if messages == [] then []
    else
      var last := messages[|messages| - 1];
      Users(messages[..|messages| - 1]) + if last.UserMessage? then [last] else []
  }

  // ---------------------------------------------------------------- truncating one message

  /** The last bytes of a text, from a character boundary on. */
  function LastBytes(text: Str, budget: nat): Str {
    if budget >= Bytes(text) then text else text[Ceil(text, Bytes(text) - budget)..]
  }

  /** The last parts that fit into `remaining` tokens, the first of them possibly cut. */
  function LastParts(content: seq<Part>, remaining: nat): seq<Part> {
    if content == [] then []
    else
      var part := content[|content| - 1];
      if PartTokens(part) <= remaining then
        LastParts(content[..|content| - 1], remaining - PartTokens(part)) + [part]
      else if part.TextPart? && remaining > 0 && LastBytes(part.text, 4 * remaining) != [] then
        [TextPart(LastBytes(part.text, 4 * remaining))]
      else []
  }

  function Truncate(message: Message, budget: nat): Option<Message> {
    if !message.UserMessage? then None
    else
      var selected := LastParts(message.content, if budget < 4 then 0 else budget - 4);
      if selected == [] then None else Some(UserMessage(selected))
  }

  // ---------------------------------------------------------------- retaining

  function Retain(messages: seq<Message>, remaining: nat): seq<Message> {
    if messages == [] then []
    else
      var init, last := messages[..|messages| - 1], messages[|messages| - 1];
      if !last.UserMessage? then Retain(init, remaining)
      else if Tokens(last) <= remaining then Retain(init, remaining - Tokens(last)) + [last]
      else if remaining > 0 && Truncate(last, remaining).Some? then [Truncate(last, remaining).value]
      else []
  }

  /** The message at which the budget runs out, with what is left of the budget there. */
  datatype Cut = NoCut | CutAt(message: Message, remaining: nat)

  function WhereCut(messages: seq<Message>, remaining: nat): Cut {
    if messages == [] then NoCut
    else
      var init, last := messages[..|messages| - 1], messages[|messages| - 1];
      if !last.UserMessage? then WhereCut(init, remaining)
      else if Tokens(last) <= remaining then WhereCut(init, remaining - Tokens(last))
      else CutAt(last, remaining)
  }

  // ---------------------------------------------------------------- the bound

  lemma LastBytesFit(text: Str, budget: nat)
    ensures Bytes(LastBytes(text, budget)) <= budget
  {
    if budget < Bytes(text) { SuffixWithin(text, budget); }
  }

  lemma {:induction false} AppendTokens(parts: seq<Part>, part: Part)
    ensures ContentTokens(parts + [part]) == ContentTokens(parts) + PartTokens(part)
  {
    assert (parts + [part])[..|parts|] == parts;
  }

  lemma {:induction false} LastPartsFit(content: seq<Part>, remaining: nat)
    ensures ContentTokens(LastParts(content, remaining)) <= remaining
  {
    if content != [] {
      var init, part := content[..|content| - 1], content[|content| - 1];
      if PartTokens(part) <= remaining {
        LastPartsFit(init, remaining - PartTokens(part));
        AppendTokens(LastParts(init, remaining - PartTokens(part)), part);
      } else if part.TextPart? && remaining > 0 {
        LastBytesFit(part.text, 4 * remaining);
        AppendTokens([], TextPart(LastBytes(part.text, 4 * remaining)));
        assert [] + [TextPart(LastBytes(part.text, 4 * remaining))] == [TextPart(LastBytes(part.text, 4 * remaining))];
      }
    }
  }

  predicate EndsWithEmptyText(content: seq<Part>) {
    content != [] && content[|content| - 1] == TextPart([])
  }

  /** With no tokens left only empty texts are kept. */
  lemma NothingFits(content: seq<Part>)
    ensures LastParts(content, 0) != [] <==> EndsWithEmptyText(content)
    ensures ContentTokens(LastParts(content, 0)) == 0
  {
    LastPartsFit(content, 0);
    if content != [] && content[|content| - 1].TextPart? { BytesAtLeast(content[|content| - 1].text); }
  }

  /** A truncated message exceeds its budget exactly if fewer than four tokens are left and it ends with
      an empty text. */
  lemma TruncatedFits(message: Message, budget: nat)
    requires message.UserMessage? && budget > 0 && Truncate(message, budget).Some?
    ensures Tokens(Truncate(message, budget).value) <= budget <==> !(budget < 4 && EndsWithEmptyText(message.content))
    ensures budget < 4 ==> Tokens(Truncate(message, budget).value) == 4
  {
    LastPartsFit(message.content, if budget < 4 then 0 else budget - 4);
    NothingFits(message.content);
  }

  lemma {:induction false} AppendTotal(messages: seq<Message>, message: Message)
    ensures Total(messages + [message]) == Total(messages) + Tokens(message)
  {
    assert (messages + [message])[..|messages|] == messages;
  }

  /** The budget runs out on a message that ends with an empty text while one to three tokens are left. */
  predicate Overruns(cut: Cut) {
    cut.CutAt? && 1 <= cut.remaining <= 3 && cut.message.UserMessage? && EndsWithEmptyText(cut.message.content)
  }

  lemma {:induction false} RetainedWithin(messages: seq<Message>, remaining: nat)
    ensures Total(Retain(messages, remaining)) <= remaining <==> !Overruns(WhereCut(messages, remaining))
  {
    if messages != [] {
      var init, last := messages[..|messages| - 1], messages[|messages| - 1];
      if !last.UserMessage? {
        RetainedWithin(init, remaining);
      } else if Tokens(last) <= remaining {
        RetainedWithin(init, remaining - Tokens(last));
        AppendTotal(Retain(init, remaining - Tokens(last)), last);
      } else if remaining > 0 {
        if Truncate(last, remaining).Some? {
          TruncatedFits(last, remaining);
          AppendTotal([], Truncate(last, remaining).value);
          assert [] + [Truncate(last, remaining).value] == [Truncate(last, remaining).value];
        } else {
          NothingFits(last.content);
        }
      }
    }
  }

  /** The retained messages hold at most 64 000 estimated tokens, except exactly when the budget runs out
      with one to three tokens left on a message whose last part is an empty text. */
  lemma RetainedTokens(messages: seq<Message>)
    ensures Total(Retain(messages, RETAINED_USER_TOKEN_BUDGET)) <= RETAINED_USER_TOKEN_BUDGET
            <==> !Overruns(WhereCut(messages, RETAINED_USER_TOKEN_BUDGET))
  {
    RetainedWithin(messages, RETAINED_USER_TOKEN_BUDGET);
  }

  // ---------------------------------------------------------------- a recent suffix

  predicate TextEndsWith(text: Str, end: Str) { |end| <= |text| && end == text[|text| - |end|..] }

  /** `b` is `a` from part `k` on, part `k` possibly cut to the end of its text. */
  predicate EndFrom(a: seq<Part>, b: seq<Part>, k: nat) {
    && k <= |a|
    && (b == a[k..]
        || (k < |a| && b != [] && b[1..] == a[k + 1..]
            && a[k].TextPart? && b[0].TextPart? && TextEndsWith(a[k].text, b[0].text)))
  }

  ghost predicate EndOfContent(a: seq<Part>, b: seq<Part>) { exists k: nat :: EndFrom(a, b, k) }

  lemma {:induction false} LastPartsAreTheEnd(content: seq<Part>, remaining: nat)
    ensures EndOfContent(content, LastParts(content, remaining))
  {
    var n := |content|;
    if content == [] {
      assert EndFrom(content, LastParts(content, remaining), n);
    } else {
      var init, part := content[..n - 1], content[n - 1];
      if PartTokens(part) <= remaining {
        var rest := LastParts(init, remaining - PartTokens(part));
        LastPartsAreTheEnd(init, remaining - PartTokens(part));
        EndGrows(init, rest, part);
        assert init + [part] == content;
      } else if LastParts(content, remaining) == [] {
        assert EndFrom(content, [], n);
      } else {
        TextEnd(part.text, 4 * remaining);
        assert EndFrom(content, [TextPart(LastBytes(part.text, 4 * remaining))], n - 1);
      }
    }
  }

  lemma TextEnd(text: Str, budget: nat)
    ensures TextEndsWith(text, LastBytes(text, budget))
  {
    assert text == text[0..];
  }

  lemma EndGrows(a: seq<Part>, b: seq<Part>, part: Part)
    requires EndOfContent(a, b)
    ensures EndOfContent(a + [part], b + [part])
  {
    var k: nat :| EndFrom(a, b, k);
    if b == a[k..] {
      assert b + [part] == (a + [part])[k..];
    } else {
      assert (b + [part])[1..] == (a + [part])[k + 1..];
    }
    assert EndFrom(a + [part], b + [part], k);
  }

  /** `kept` are the users from `k` on, the oldest of them possibly truncated to its end. */
  ghost predicate SuffixFrom(users: seq<Message>, kept: seq<Message>, k: nat) {
    && k <= |users|
    && (kept == users[k..]
        || (k < |users| && kept != [] && kept[1..] == users[k + 1..]
            && users[k].UserMessage? && kept[0].UserMessage? && EndOfContent(users[k].content, kept[0].content)))
  }

  ghost predicate RecentSuffix(users: seq<Message>, kept: seq<Message>) { exists k: nat :: SuffixFrom(users, kept, k) }

  lemma SuffixGrows(users: seq<Message>, kept: seq<Message>, message: Message)
    requires RecentSuffix(users, kept)
    ensures RecentSuffix(users + [message], kept + [message])
  {
    var k: nat :| SuffixFrom(users, kept, k);
    if kept == users[k..] {
      assert kept + [message] == (users + [message])[k..];
    } else {
      assert (kept + [message])[1..] == (users + [message])[k + 1..];
    }
    assert SuffixFrom(users + [message], kept + [message], k);
  }

  lemma {:induction false} RetainIsASuffix(messages: seq<Message>, remaining: nat)
    ensures RecentSuffix(Users(messages), Retain(messages, remaining))
  {
    if messages == [] {
      assert SuffixFrom(Users(messages), [], 0);
    } else {
      var init, last := messages[..|messages| - 1], messages[|messages| - 1];
      if !last.UserMessage? {
        RetainIsASuffix(init, remaining);
        assert Users(init) + [] == Users(init);
      } else if Tokens(last) <= remaining {
        RetainIsASuffix(init, remaining - Tokens(last));
        SuffixGrows(Users(init), Retain(init, remaining - Tokens(last)), last);
      } else {
        CutSuffix(Users(init), last, remaining);
      }
    }
  }

  lemma CutSuffix(users: seq<Message>, last: Message, remaining: nat)
    requires last.UserMessage?
    ensures var kept := if remaining > 0 && Truncate(last, remaining).Some? then [Truncate(last, remaining).value] else [];
            RecentSuffix(users + [last], kept)
  {
    var all, n := users + [last], |users|;
    if remaining > 0 && Truncate(last, remaining).Some? {
      LastPartsAreTheEnd(last.content, if remaining < 4 then 0 else remaining - 4);
      var kept := [Truncate(last, remaining).value];
      assert SuffixFrom(all, kept, n);
    } else {
      assert SuffixFrom(all, [], n + 1);
    }
  }

  /** The retained messages are the most recent user messages in their original order, the oldest
      possibly truncated to its end. */
  lemma RetainedAreRecent(messages: seq<Message>)
    ensures RecentSuffix(Users(messages), Retain(messages, RETAINED_USER_TOKEN_BUDGET))
  {
    RetainIsASuffix(messages, RETAINED_USER_TOKEN_BUDGET);
  }

  // ---------------------------------------------------------------- as much as fits

  /** Up to a character, the end of a text that fits into `room` tokens; nothing if not even a character does. */
  predicate CutOf(part: Part, room: nat, cut: seq<Part>) {
    if part.TextPart? && room > 0 then
      if cut == [] then Bytes(part.text) == 0
      else |cut| == 1 && cut[0].TextPart? && TextEndsWith(part.text, cut[0].text)
           && 4 * room - 4 < Bytes(cut[0].text) <= 4 * room
    else cut == []
  }

  /** The parts from `k` on are kept whole, the one before them does not fit whole and is cut. */
  predicate PartsFrom(content: seq<Part>, limit: nat, kept: seq<Part>, k: nat, cut: seq<Part>) {
    && k <= |content| && kept == cut + content[k..] && ContentTokens(content[k..]) <= limit
    && if k == 0 then cut == []
       else limit < ContentTokens(content[k - 1..]) && CutOf(content[k - 1], limit - ContentTokens(content[k..]), cut)
  }

  ghost predicate MostParts(content: seq<Part>, limit: nat, kept: seq<Part>) {
    exists k: nat, cut :: PartsFrom(content, limit, kept, k, cut)
  }

  lemma TextCutIsMost(text: Str, room: nat)
    requires room > 0 && Bytes(text) > 4 * room
    ensures var cut := LastBytes(text, 4 * room);
            TextEndsWith(text, cut) && 4 * room - 4 < Bytes(cut) <= 4 * room && cut != []
  {
    TextEnd(text, 4 * room);
    SuffixWastesLittle(text, 4 * room);
    BytesAtLeast(LastBytes(text, 4 * room));
  }

  lemma DropLater<T>(s: seq<T>, k: nat, last: T)
    requires k <= |s|
    ensures (s + [last])[k..] == s[k..] + [last]
  {
  }

  lemma PartsGrowAt(content: seq<Part>, limit: nat, kept: seq<Part>, part: Part, k: nat, cut: seq<Part>)
    requires PartsFrom(content, limit, kept, k, cut)
    ensures PartsFrom(content + [part], limit + PartTokens(part), kept + [part], k, cut)
  {
    DropLater(content, k, part);
    AppendTokens(content[k..], part);
    assert kept + [part] == cut + (content[k..] + [part]);
    if k > 0 {
      DropLater(content, k - 1, part);
      AppendTokens(content[k - 1..], part);
    }
  }

  lemma PartsGrow(content: seq<Part>, limit: nat, kept: seq<Part>, part: Part)
    requires MostParts(content, limit, kept)
    ensures MostParts(content + [part], limit + PartTokens(part), kept + [part])
  {
    var k: nat, cut :| PartsFrom(content, limit, kept, k, cut);
    PartsGrowAt(content, limit, kept, part, k, cut);
  }

  lemma CutPartIsCut(part: Part, room: nat)
    requires PartTokens(part) > room
    ensures CutOf(part, room, CutPart(part, room))
  {
    if part.TextPart? && room > 0 { TextCutIsMost(part.text, room); }
  }

  lemma LastPartIsCut(init: seq<Part>, part: Part, remaining: nat)
    requires PartTokens(part) > remaining
    ensures PartsFrom(init + [part], remaining, CutPart(part, remaining), |init| + 1, CutPart(part, remaining))
  {
    var content, n := init + [part], |init| + 1;
    CutPartIsCut(part, remaining);
    AppendTokens([], part);
    assert content[n..] == [] && content[n - 1..] == [] + [part];
    assert CutPart(part, remaining) + content[n..] == CutPart(part, remaining);
  }

  lemma CutIsMostParts(init: seq<Part>, part: Part, remaining: nat)
    requires PartTokens(part) > remaining
    ensures MostParts(init + [part], remaining, LastParts(init + [part], remaining))
  {
    var content := init + [part];
    assert content[..|content| - 1] == init;
    assert LastParts(content, remaining) == CutPart(part, remaining);
    LastPartIsCut(init, part, remaining);
  }

  lemma {:induction false} LastPartsAreMost(content: seq<Part>, remaining: nat)
    ensures MostParts(content, remaining, LastParts(content, remaining))
  {
    if content == [] {
      assert PartsFrom(content, remaining, [], 0, []);
    } else {
      var init, part := content[..|content| - 1], content[|content| - 1];
      assert content == init + [part];
      if PartTokens(part) <= remaining {
        LastPartsAreMost(init, remaining - PartTokens(part));
        PartsGrow(init, remaining - PartTokens(part), LastParts(init, remaining - PartTokens(part)), part);
      } else {
        CutIsMostParts(init, part, remaining);
      }
    }
  }

  /** What a message of at most `room` tokens has for its parts. */
  function ForParts(room: nat): nat { if room < 4 then 0 else room - 4 }

  /** As many of a message's last parts as fit besides the four tokens of a message; nothing without a token left. */
  ghost predicate CutMessage(message: Message, room: nat, cut: seq<Message>)
    requires message.UserMessage?
  {
    if room == 0 then cut == []
    else
      exists parts :: MostParts(message.content, ForParts(room), parts)
                      && cut == if parts == [] then [] else [UserMessage(parts)]
  }

  /** The user messages from `k` on are kept whole, the one before them does not fit whole and is cut. */
  ghost predicate MessagesFrom(users: seq<Message>, budget: nat, kept: seq<Message>, k: nat, cut: seq<Message>) {
    && k <= |users| && kept == cut + users[k..] && Total(users[k..]) <= budget
    && if k == 0 then cut == []
       else budget < Total(users[k - 1..]) && users[k - 1].UserMessage? && CutMessage(users[k - 1], budget - Total(users[k..]), cut)
  }

  ghost predicate MostMessages(users: seq<Message>, budget: nat, kept: seq<Message>) {
    exists k: nat, cut :: MessagesFrom(users, budget, kept, k, cut)
  }

  lemma MessagesGrowAt(users: seq<Message>, budget: nat, kept: seq<Message>, message: Message, k: nat, cut: seq<Message>)
    requires MessagesFrom(users, budget, kept, k, cut)
    ensures MessagesFrom(users + [message], budget + Tokens(message), kept + [message], k, cut)
  {
    DropLater(users, k, message);
    AppendTotal(users[k..], message);
    assert kept + [message] == cut + (users[k..] + [message]);
    if k > 0 {
      DropLater(users, k - 1, message);
      AppendTotal(users[k - 1..], message);
    }
  }

  lemma MessagesGrow(users: seq<Message>, budget: nat, kept: seq<Message>, message: Message)
    requires Tokens(message) <= budget && MostMessages(users, budget - Tokens(message), kept)
    ensures MostMessages(users + [message], budget, kept + [message])
  {
    var k: nat, cut :| MessagesFrom(users, budget - Tokens(message), kept, k, cut);
    MessagesGrowAt(users, budget - Tokens(message), kept, message, k, cut);
    assert MessagesFrom(users + [message], budget, kept + [message], k, cut);
  }

  function CutKept(last: Message, remaining: nat): seq<Message> {
    if remaining > 0 && Truncate(last, remaining).Some? then [Truncate(last, remaining).value] else []
  }

  lemma KeptIsCut(last: Message, remaining: nat)
    requires last.UserMessage?
    ensures CutMessage(last, remaining, CutKept(last, remaining))
  {
    LastPartsAreMost(last.content, ForParts(remaining));
    var parts := LastParts(last.content, ForParts(remaining));
    if remaining > 0 { assert CutKept(last, remaining) == if parts == [] then [] else [UserMessage(parts)]; }
  }

  lemma LastMessageIsCut(users: seq<Message>, last: Message, remaining: nat)
    requires last.UserMessage? && Tokens(last) > remaining
    ensures MessagesFrom(users + [last], remaining, CutKept(last, remaining), |users| + 1, CutKept(last, remaining))
  {
    var all, n, cut := users + [last], |users| + 1, CutKept(last, remaining);
    assert all[n..] == [] && all[n - 1..] == [last];
    OneMessage(last);
    KeptIsCut(last, remaining);
    assert cut + all[n..] == cut;
  }

  lemma NothingToRetain(budget: nat)
    ensures MostMessages([], budget, [])
  {
    assert MessagesFrom([], budget, [], 0, []);
  }

  lemma CutIsMost(users: seq<Message>, last: Message, remaining: nat)
    requires last.UserMessage? && Tokens(last) > remaining
    ensures MostMessages(users + [last], remaining, CutKept(last, remaining))
  {
    LastMessageIsCut(users, last, remaining);
  }

  lemma UsersAre(messages: seq<Message>)
    requires messages != []
    ensures var init, last := messages[..|messages| - 1], messages[|messages| - 1];
            Users(messages) == if last.UserMessage? then Users(init) + [last] else Users(init)
  {
  }

  lemma {:induction false} RetainIsMost(messages: seq<Message>, remaining: nat)
    ensures MostMessages(Users(messages), remaining, Retain(messages, remaining))
  {
    if messages == [] {
      NothingToRetain(remaining);
    } else {
      var init, last := messages[..|messages| - 1], messages[|messages| - 1];
      UsersAre(messages);
      if !last.UserMessage? {
        RetainIsMost(init, remaining);
      } else if Tokens(last) <= remaining {
        RetainIsMost(init, remaining - Tokens(last));
        MessagesGrow(Users(init), remaining, Retain(init, remaining - Tokens(last)), last);
        assert Retain(messages, remaining) == Retain(init, remaining - Tokens(last)) + [last];
      } else {
        CutIsMost(Users(init), last, remaining);
      }
    }
  }

  /** No more is left out than has to be: all user messages from some point on, whole, where one more does not
      fit, and of that one the last parts that still fit, the first of them cut to the last character that does. */
  lemma RetainedAreMost(messages: seq<Message>)
    ensures MostMessages(Users(messages), RETAINED_USER_TOKEN_BUDGET, Retain(messages, RETAINED_USER_TOKEN_BUDGET))
  {
    RetainIsMost(messages, RETAINED_USER_TOKEN_BUDGET);
  }

  // ---------------------------------------------------------------- where the bound fails

  const OLDER := UserMessage([ImagePart(Low), TextPart([])])

  /** A text of 63 995 tokens. */
  const RECENT := UserMessage([TextPart(Letters(255_980))])

  /** The recent message leaves one token of the budget, and the older one ends with an empty text, which
      is kept as a message of four tokens: three too many are retained. */
  lemma EmptyTextOverruns()
    ensures var retained := Retain([OLDER] + [RECENT], RETAINED_USER_TOKEN_BUDGET);
            && retained == [UserMessage([TextPart([])])] + [RECENT]
            && Total(retained) == RETAINED_USER_TOKEN_BUDGET + 3
            && Overruns(WhereCut([OLDER] + [RECENT], RETAINED_USER_TOKEN_BUDGET))
  {
    RecentTokens();
    assert ([OLDER] + [RECENT])[..1] == [OLDER];
    OneTokenLeft();
    AppendTotal([UserMessage([TextPart([])])], RECENT);
  }

  lemma RecentTokens()
    ensures Tokens(RECENT) == 63_999
  {
    var text := TextPart(Letters(255_980));
    LettersAre(255_980);
    AppendTokens([], text);
    assert [] + [text] == [text];
  }

  lemma OneTokenLeft()
    ensures Retain([OLDER], 1) == [UserMessage([TextPart([])])] && Total(Retain([OLDER], 1)) == 4
    ensures WhereCut([OLDER], 1) == CutAt(OLDER, 1) && Overruns(CutAt(OLDER, 1))
  {
    var parts := [ImagePart(Low), TextPart([])];
    OlderTokens();
    OlderParts();
    assert Truncate(UserMessage(parts), 1) == Some(UserMessage([TextPart([])]));
    assert [UserMessage(parts)][..0] == [];
    OneMessage(UserMessage([TextPart([])]));
  }

  lemma OlderTokens()
    ensures Tokens(UserMessage([ImagePart(Low), TextPart([])])) == 89
    ensures Tokens(UserMessage([TextPart([])])) == 4
  {
    AppendTokens([ImagePart(Low)], TextPart([]));
    AppendTokens([], ImagePart(Low));
    AppendTokens([], TextPart([]));
    assert [ImagePart(Low)] + [TextPart([])] == [ImagePart(Low), TextPart([])];
    assert [] + [ImagePart(Low)] == [ImagePart(Low)] && [] + [TextPart([])] == [TextPart([])];
  }

  lemma OlderParts()
    ensures LastParts([ImagePart(Low), TextPart([])], 0) == [TextPart([])]
  {
    assert [ImagePart(Low), TextPart([])][..1] == [ImagePart(Low)];
    assert LastParts([ImagePart(Low)], 0) == [];
  }

  lemma OneMessage(message: Message)
    ensures Total([message]) == Tokens(message)
  {
    AppendTotal([], message);
    assert [] + [message] == [message];
  }

  // ---------------------------------------------------------------- the loops

  lemma NextPart(content: seq<Part>, i: nat, remaining: nat)
    requires 0 < i <= |content|
    ensures var part := content[i - 1];
            if PartTokens(part) <= remaining
            then LastParts(content[..i], remaining) == LastParts(content[..i - 1], remaining - PartTokens(part)) + [part]
            else LastParts(content[..i], remaining) == CutPart(part, remaining)
  {
    assert content[..i][..i - 1] == content[..i - 1];
  }

  /** What is kept of a part that does not fit. */
  function CutPart(part: Part, remaining: nat): seq<Part> {
    if part.TextPart? && remaining > 0 && LastBytes(part.text, 4 * remaining) != []
    then [TextPart(LastBytes(part.text, 4 * remaining))]
    else []
  }

  method SelectParts(content: seq<Part>, budget: nat) returns (selected: seq<Part>)
    ensures selected == LastParts(content, budget)
  {
    var remaining: nat := budget;
    var i := |content|;
    selected := [];
    assert content[..i] == content;
    while i > 0
      invariant 0 <= i <= |content|
      invariant LastParts(content, budget) == LastParts(content[..i], remaining) + selected
    {
      var part := content[i - 1];
      NextPart(content, i, remaining);
      if PartTokens(part) > remaining {
        if part.TextPart? && remaining > 0 {
          var tail := LastBytes(part.text, 4 * remaining);
          if tail != [] { selected := [TextPart(tail)] + selected; }
        }
        return;
      }
      selected := [part] + selected;
      remaining := remaining - PartTokens(part);
      i := i - 1;
    }
  }

  method TruncateUserMessage(message: Message, budget: nat) returns (truncated: Option<Message>)
    ensures truncated == Truncate(message, budget)
  {
    if !message.UserMessage? { return None; }
    var selected := SelectParts(message.content, if budget < 4 then 0 else budget - 4);
    truncated := if selected == [] then None else Some(UserMessage(selected));
  }

  method RetainedUserMessages(messages: seq<Message>) returns (retained: seq<Message>)
    ensures retained == Retain(messages, RETAINED_USER_TOKEN_BUDGET)
  {
    var remaining := RETAINED_USER_TOKEN_BUDGET;
    var i := |messages|;
    retained := [];
    assert messages[..i] == messages;
    while i > 0
      invariant 0 <= i <= |messages|
      invariant Retain(messages, RETAINED_USER_TOKEN_BUDGET) == Retain(messages[..i], remaining) + retained
    {
      var message := messages[i - 1];
      assert messages[..i][..i - 1] == messages[..i - 1];
      if message.UserMessage? {
        var tokens := Tokens(message);
        if tokens > remaining {
          if remaining > 0 {
            var truncated := TruncateUserMessage(message, remaining);
            if truncated.Some? { retained := [truncated.value] + retained; }
          }
          return;
        }
        retained := [message] + retained;
        remaining := remaining - tokens;
      }
      i := i - 1;
    }
  }
}
