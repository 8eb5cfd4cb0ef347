/** What a reply of the model calls, and when it is refused. */
module ReplyLaws {
  import opened Prelude
  import opened ToolPlan

  /** The items that are calls, in order. */
  function Called(items: seq<Item>): seq<Item> {
    if items == [] then []
    else Called(items[..|items| - 1]) + if items[|items| - 1].CallItem? then [items[|items| - 1]] else []
  }

  /** The call an item asks for: to be made, or already answered with what is wrong with its arguments. */
  predicate CallFor(item: Item, call: Call) {
    && item.CallItem? && call.id == item.id && item.tool == Some(call.tool) && call.input == item.input
    && call.status == if item.problem.Some? then Completed(item.problem.value) else Pending
  }

  predicate CallsFor(called: seq<Item>, calls: seq<Call>) {
    |calls| == |called| && forall i :: 0 <= i < |called| ==> CallFor(called[i], calls[i])
  }

  predicate Calls(items: seq<Item>, id: string) { exists j :: 0 <= j < |items| && items[j].CallItem? && items[j].id == id }

  /** What is wrong with item `k`, seen after the items before it. */
  predicate Fault(items: seq<Item>, k: nat, error: ParseError)
    requires k < |items|
  {
    && items[k].CallItem?
    && var repeated := Calls(items[..k], items[k].id);
       match error
       case BadCallId => items[k].id == "" || (!repeated && !items[k].named)
       case DuplicateCallId => items[k].id != "" && repeated
       case UnknownTool => items[k].id != "" && !repeated && items[k].named && items[k].tool.None?
       case WrongKind => items[k].id != "" && !repeated && items[k].named && items[k].tool.Some? && !items[k].kindMatches
       case _ => false
  }

  predicate Faulty(items: seq<Item>, k: nat)
    requires k < |items|
  {
    Fault(items, k, BadCallId) || Fault(items, k, DuplicateCallId) || Fault(items, k, UnknownTool) || Fault(items, k, WrongKind)
  }

  predicate FirstFault(items: seq<Item>, k: nat, error: ParseError) {
    k < |items| && Fault(items, k, error) && forall j :: 0 <= j < k ==> !Faulty(items, j)
  }

  lemma FaultsStay(items: seq<Item>, k: nat)
    requires items != [] && k < |items| - 1
    ensures forall error :: Fault(items, k, error) <==> Fault(items[..|items| - 1], k, error)
  {
    assert items[..|items| - 1][..k] == items[..k];
  }

  lemma {:induction false} CallsHaveIds(items: seq<Item>, calls: seq<Call>, id: string)
    requires CallsFor(Called(items), calls)
    ensures HasId(calls, id) <==> Calls(items, id)
  {
    if items != [] {
      var init, last := items[..|items| - 1], items[|items| - 1];
      OneMoreCalls(items, id);
      if last.CallItem? {
        var n := |calls| - 1;
        assert forall i :: 0 <= i < n ==> Called(init)[i] == Called(items)[i];
        CallsHaveIds(init, calls[..n], id);
        assert CallFor(Called(items)[n], calls[n]);
        assert HasId(calls, id) <==> HasId(calls[..n], id) || calls[n].id == id;
      } else {
        CallsHaveIds(init, calls, id);
      }
    }
  }

  lemma OneMoreCalls(items: seq<Item>, id: string)
    requires items != []
    ensures var init, last := items[..|items| - 1], items[|items| - 1];
            Calls(items, id) <==> Calls(init, id) || (last.CallItem? && last.id == id)
  {
    var init := items[..|items| - 1];
    if j :| 0 <= j < |init| && init[j].CallItem? && init[j].id == id { assert items[j] == init[j]; }
    if j :| 0 <= j < |items| && items[j].CallItem? && items[j].id == id { assert j < |init| ==> init[j] == items[j]; }
  }

  /** Every item that is a call becomes one call, in order; an error is that of the first item that has a fault. */
  lemma {:induction false} CallsAreParsed(items: seq<Item>)
    ensures var parsed := ParseCalls(items);
            if parsed.Ok? then CallsFor(Called(items), parsed.value) && forall k :: 0 <= k < |items| ==> !Faulty(items, k)
            else exists k: nat :: FirstFault(items, k, parsed.error)
  {
    if items != [] {
      var init, n := items[..|items| - 1], |items| - 1;
      CallsAreParsed(init);
      forall k | 0 <= k < n ensures Faulty(items, k) <==> Faulty(init, k) { FaultsStay(items, k); }
      if ParseCalls(init).Err? {
        var k: nat :| FirstFault(init, k, ParseCalls(init).error);
        FaultsStay(items, k);
        assert FirstFault(items, k, ParseCalls(items).error);
      } else if items[n].CallItem? {
        LastCallIsParsed(items);
      }
    }
  }

  lemma CallsGrow(called: seq<Item>, calls: seq<Call>, item: Item, call: Call)
    requires CallsFor(called, calls) && CallFor(item, call)
    ensures CallsFor(called + [item], calls + [call])
  {
  }

  /** What the parser makes of the last item, given what it made of those before it. */
  lemma LastFault(items: seq<Item>, calls: seq<Call>)
    requires items != [] && items[|items| - 1].CallItem?
    requires HasId(calls, items[|items| - 1].id) <==> Calls(items[..|items| - 1], items[|items| - 1].id)
    ensures var n := |items| - 1; var item := items[n];
            && (Fault(items, n, BadCallId) <==> item.id == "" || (!HasId(calls, item.id) && !item.named))
            && (Fault(items, n, DuplicateCallId) <==> item.id != "" && HasId(calls, item.id))
            && (Fault(items, n, UnknownTool) <==> item.id != "" && !HasId(calls, item.id) && item.named && item.tool.None?)
            && (Fault(items, n, WrongKind) <==>
                  item.id != "" && !HasId(calls, item.id) && item.named && item.tool.Some? && !item.kindMatches)
  {
  }

  lemma LastCallIsParsed(items: seq<Item>)
    requires items != [] && items[|items| - 1].CallItem? && ParseCalls(items[..|items| - 1]).Ok?
    requires CallsFor(Called(items[..|items| - 1]), ParseCalls(items[..|items| - 1]).value)
    requires forall k :: 0 <= k < |items| - 1 ==> !Faulty(items, k)
    ensures var parsed := ParseCalls(items);
            if parsed.Ok? then CallsFor(Called(items), parsed.value) && !Faulty(items, |items| - 1)
            else FirstFault(items, |items| - 1, parsed.error)
  {
    var init, item := items[..|items| - 1], items[|items| - 1];
    var calls := ParseCalls(init).value;
    CallsHaveIds(init, calls, item.id);
    LastFault(items, calls);
    if ParseCalls(items).Ok? {
      CallsGrow(Called(init), calls, item, ParseCalls(items).value[|calls|]);
    }
  }

  /** A reply has a plan exactly if it stopped for tools, calls some, and no call has a fault; the plan holds one
      call for each item that is a call, in order. */
  lemma PlansHoldWhatWasCalled(items: seq<Item>, stop: StopReason)
    ensures var parsed := ParsePlan(items, stop); var sound := forall k :: 0 <= k < |items| ==> !Faulty(items, k);
            && (parsed.Ok? <==> sound && (stop.ToolUse? <==> Called(items) != []))
            && (parsed.Ok? ==>
                  && (parsed.value.Some? <==> Called(items) != [])
                  && (parsed.value.Some? ==> CallsFor(Called(items), parsed.value.value.calls)))
            && (parsed.Err? && sound ==> parsed.error == if stop.ToolUse? then NoCallableItems else UnexpectedCalls)
            && (parsed.Err? && !sound ==> exists k: nat :: FirstFault(items, k, parsed.error))
  {
    CallsAreParsed(items);
    var calls := ParseCalls(items);
    if calls.Err? {
      var k: nat :| FirstFault(items, k, calls.error);
      assert Faulty(items, k);
    }
  }
}
