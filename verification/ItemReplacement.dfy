/** What replace_request_items makes of a payload, stated without its loop:
    every line lands in one row of its own, those rows are exactly the active
    ones, no row is deleted or renumbered, and automatic numbers are new. */
module ItemReplacement {
  import opened Common
  import opened Workflow
  import opened Procurement
  import opened Commands

  /** How many of the first k lines ask for a new row. */
  function NewLines(lines: seq<ItemInput>, k: nat): nat
    requires k <= |lines|
  {
    if k == 0 then 0 else NewLines(lines, k - 1) + if lines[k - 1].itemId.None? then 1 else 0
  }

  /** The row that line k lands in, when `stored` rows exist before line 0. */
  function RowOf(stored: nat, lines: seq<ItemInput>, k: nat): nat
    requires k < |lines|
  {
    if lines[k].itemId.Some? then lines[k].itemId.value else stored + NewLines(lines, k)
  }

  /** The row shows what the line says. */
  predicate Carries(item: Item, line: ItemInput) {
    && item.kind == line.kind && item.category == line.category && item.model == line.model
    && item.columns == line.columns
    && item.name == Strip(line.name) && item.quantity == line.quantity
    && item.unit == Strip(line.unit) && item.active
    && item.warehouse == line.warehouse.GetOr(line.kind != Service)
    && !(item.kind == Service && item.warehouse)
    && (line.no.Some? ==> item.no == line.no.value)
  }

  /** The numbers of the lines' rows, pairwise different and none in `seen`. */
  predicate FreshNumbers(items: seq<Item>, stored: nat, lines: seq<ItemInput>, seen: set<nat>) {
    && (forall k :: 0 <= k < |lines| ==>
          RowOf(stored, lines, k) < |items| && items[RowOf(stored, lines, k)].no !in seen)
    && (forall j, k :: 0 <= j < k < |lines| ==> items[RowOf(stored, lines, j)].no != items[RowOf(stored, lines, k)].no)
  }

  predicate Untouched(i: nat, stored: nat, lines: seq<ItemInput>) {
    forall k :: 0 <= k < |lines| ==> RowOf(stored, lines, k) != i
  }

  lemma {:induction false} NewLinesTail(lines: seq<ItemInput>, k: nat)
    requires 0 < k <= |lines|
    ensures NewLines(lines, k) == NewLines(lines[1..], k - 1) + if lines[0].itemId.None? then 1 else 0
  {
    if k > 1 { NewLinesTail(lines, k - 1); }
  }

  lemma RowOfTail(stored: nat, lines: seq<ItemInput>)
    requires lines != []
    ensures var stored' := if lines[0].itemId.None? then stored + 1 else stored;
      forall k :: 0 < k < |lines| ==> RowOf(stored, lines, k) == RowOf(stored', lines[1..], k - 1)
  {
    forall k | 0 < k < |lines| ensures RowOf(stored, lines, k) ==
      RowOf(if lines[0].itemId.None? then stored + 1 else stored, lines[1..], k - 1)
    {
      NewLinesTail(lines, k);
    }
  }

  /** Result of the payload loop from any loop state. */
  predicate LoopResult(before: nat, d: LineState, lines: seq<ItemInput>, d': LineState) {
    && |d.items| <= |d'.items| == |d.items| + NewLines(lines, |lines|)
    && (forall i :: 0 <= i < |d.items| ==> d'.items[i].no == d.items[i].no)
    && (forall i :: 0 <= i < |d.items| && Untouched(i, |d.items|, lines) ==> d'.items[i] == d.items[i])
    && FreshNumbers(d'.items, |d.items|, lines, d.seen)
    && (forall k :: 0 <= k < |lines| ==> Carries(d'.items[RowOf(|d.items|, lines, k)], lines[k]))
    && (forall k :: 0 <= k < |lines| && lines[k].itemId.Some? ==> lines[k].itemId.value < before)
    && d'.kept == d.kept + (set k | 0 <= k < |lines| && lines[k].itemId.Some? :: lines[k].itemId.value)
  }

  /** One turn of the loop, seen from its line. */
  predicate HeadStep(before: nat, d: LineState, line: ItemInput, d1: LineState) {
    var r0 := if line.itemId.Some? then line.itemId.value else |d.items|;
    && r0 < |d1.items| == |d.items| + (if line.itemId.None? then 1 else 0)
    && Carries(d1.items[r0], line)
    && d1.items[r0].no !in d.seen && d1.seen == d.seen + {d1.items[r0].no}
    && (forall i :: 0 <= i < |d.items| && i != r0 ==> d1.items[i] == d.items[i])
    && (forall i :: 0 <= i < |d.items| ==> d1.items[i].no == d.items[i].no)
    && (line.itemId.Some? ==> r0 < before)
    && d1.kept == if line.itemId.Some? then d.kept + {r0} else d.kept
  }

  lemma {:induction false} LinesLand(w: World, request: nat, before: nat, d: LineState, lines: seq<ItemInput>,
                                     d': LineState)
    requires before <= |d.items|
    requires ReplaceLines(w, request, before, d, lines) == Ok(d')
    ensures LoopResult(before, d, lines, d')
    decreases |lines|
  {
    if lines != [] {
      var d1 := ReplaceLine(w, request, before, d, lines[0]).value;
      LinesLand(w, request, before, d1, lines[1..], d');
      assert HeadStep(before, d, lines[0], d1);
      HeadLands(before, d, lines, d1, d');
    }
  }

  lemma HeadLands(before: nat, d: LineState, lines: seq<ItemInput>, d1: LineState, d': LineState)
    requires lines != [] && before <= |d.items|
    requires HeadStep(before, d, lines[0], d1) && LoopResult(before, d1, lines[1..], d')
    ensures LoopResult(before, d, lines, d')
  {
    hide Carries, FreshNumbers, Untouched, RowOf;
    NewLinesTail(lines, |lines|);
    HeadStays(before, d, lines, d1, d');
    NumbersStayFresh(before, d, lines, d1, d');
    OthersStay(before, d, lines, d1, d');
    LinesCarried(before, d, lines, d1, d');
    KeptAfterHead(lines, d.kept, d1.kept, d'.kept);
  }

  lemma LinesCarried(before: nat, d: LineState, lines: seq<ItemInput>, d1: LineState, d': LineState)
    requires lines != [] && before <= |d.items|
    requires HeadStep(before, d, lines[0], d1) && LoopResult(before, d1, lines[1..], d')
    ensures forall k :: 0 <= k < |lines| ==>
      RowOf(|d.items|, lines, k) < |d'.items| && Carries(d'.items[RowOf(|d.items|, lines, k)], lines[k])
    ensures forall k :: 0 <= k < |lines| && lines[k].itemId.Some? ==> lines[k].itemId.value < before
  {
    hide Carries;
    var rest, n, n1 := lines[1..], |d.items|, |d1.items|;
    RowOfTail(n, lines);
    HeadStays(before, d, lines, d1, d');
    forall k | 0 < k < |lines|
      ensures RowOf(n, lines, k) < |d'.items| && Carries(d'.items[RowOf(n, lines, k)], lines[k])
      ensures lines[k].itemId.Some? ==> lines[k].itemId.value < before
    {
      assert lines[k] == rest[k - 1] && RowOf(n, lines, k) == RowOf(n1, rest, k - 1);
    }
  }

  /** Later lines cannot reach the head's row: its number has been seen. */
  lemma HeadStays(before: nat, d: LineState, lines: seq<ItemInput>, d1: LineState, d': LineState)
    requires lines != [] && before <= |d.items|
    requires HeadStep(before, d, lines[0], d1) && LoopResult(before, d1, lines[1..], d')
    ensures var r0 := RowOf(|d.items|, lines, 0); r0 < |d1.items| && d'.items[r0] == d1.items[r0]
  {
    hide Carries;
    var rest, n1, r0 := lines[1..], |d1.items|, RowOf(|d.items|, lines, 0);
    forall k | 0 <= k < |rest| ensures RowOf(n1, rest, k) != r0 {
      assert d1.items[r0].no in d1.seen;
      assert d'.items[r0].no == d1.items[r0].no;
    }
    assert Untouched(r0, n1, rest);
  }

  lemma NumbersStayFresh(before: nat, d: LineState, lines: seq<ItemInput>, d1: LineState, d': LineState)
    requires lines != [] && before <= |d.items|
    requires HeadStep(before, d, lines[0], d1) && LoopResult(before, d1, lines[1..], d')
    ensures FreshNumbers(d'.items, |d.items|, lines, d.seen)
  {
    hide Carries;
    var rest, n, n1, r0 := lines[1..], |d.items|, |d1.items|, RowOf(|d.items|, lines, 0);
    RowOfTail(n, lines);
    HeadStays(before, d, lines, d1, d');
    forall k | 0 < k < |lines|
      ensures RowOf(n, lines, k) == RowOf(n1, rest, k - 1) < |d'.items| && d'.items[RowOf(n, lines, k)].no !in d1.seen
    {}
    forall j, k | 0 <= j < k < |lines|
      ensures d'.items[RowOf(n, lines, j)].no != d'.items[RowOf(n, lines, k)].no
    {
      if j == 0 { assert d'.items[r0].no in d1.seen; }
      else { assert RowOf(n1, rest, j - 1) == RowOf(n, lines, j) && RowOf(n1, rest, k - 1) == RowOf(n, lines, k); }
    }
  }

  lemma OthersStay(before: nat, d: LineState, lines: seq<ItemInput>, d1: LineState, d': LineState)
    requires lines != [] && before <= |d.items|
    requires HeadStep(before, d, lines[0], d1) && LoopResult(before, d1, lines[1..], d')
    ensures forall i :: 0 <= i < |d.items| && Untouched(i, |d.items|, lines) ==> d'.items[i] == d.items[i]
  {
    hide Carries;
    var rest, n, n1 := lines[1..], |d.items|, |d1.items|;
    RowOfTail(n, lines);
    forall i | 0 <= i < n && Untouched(i, n, lines) ensures d'.items[i] == d.items[i] {
      assert RowOf(n, lines, 0) != i;
      assert Untouched(i, n1, rest) by {
        forall k | 0 <= k < |rest| ensures RowOf(n1, rest, k) != i { assert RowOf(n, lines, k + 1) != i; }
      }
    }
  }

  lemma KeptAfterHead(lines: seq<ItemInput>, kept: set<nat>, kept1: set<nat>, kept': set<nat>)
    requires lines != []
    requires kept1 == if lines[0].itemId.Some? then kept + {lines[0].itemId.value} else kept
    requires kept'
      == kept1 + (set k | 0 <= k < |lines[1..]| && lines[1..][k].itemId.Some? :: lines[1..][k].itemId.value)
    ensures kept' == kept + (set k | 0 <= k < |lines| && lines[k].itemId.Some? :: lines[k].itemId.value)
  {
    var all := set k | 0 <= k < |lines| && lines[k].itemId.Some? :: lines[k].itemId.value;
    var tail := set k | 0 <= k < |lines[1..]| && lines[1..][k].itemId.Some? :: lines[1..][k].itemId.value;
    forall x | x in tail ensures x in all {
      var k :| 0 <= k < |lines[1..]| && lines[1..][k].itemId.Some? && lines[1..][k].itemId.value == x;
      assert lines[k + 1].itemId.value == x;
    }
    forall x | x in all ensures x in kept' {
      var k :| 0 <= k < |lines| && lines[k].itemId.Some? && lines[k].itemId.value == x;
      if k > 0 { assert lines[1..][k - 1].itemId.value == x; }
    }
  }

  /** Automatic numbers are at least `bound`. */
  predicate AutomaticFrom(bound: nat, items: seq<Item>, stored: nat, lines: seq<ItemInput>) {
    forall k :: 0 <= k < |lines| && lines[k].itemId.None? && lines[k].no.None? ==>
      RowOf(stored, lines, k) < |items| && bound <= items[RowOf(stored, lines, k)].no
  }

  lemma {:induction false} AutomaticNumbers(w: World, request: nat, before: nat, d: LineState, lines: seq<ItemInput>,
                                            d': LineState)
    requires before <= |d.items|
    requires ReplaceLines(w, request, before, d, lines) == Ok(d')
    ensures d.nextNo <= d'.nextNo
    ensures AutomaticFrom(d.nextNo, d'.items, |d.items|, lines)
    decreases |lines|
  {
    if lines != [] {
      var d1 := ReplaceLine(w, request, before, d, lines[0]).value;
      AutomaticNumbers(w, request, before, d1, lines[1..], d');
      LinesLand(w, request, before, d1, lines[1..], d');
      HeadIsAutomatic(before, d, lines, d1, d');
    }
  }

  lemma HeadIsAutomatic(before: nat, d: LineState, lines: seq<ItemInput>, d1: LineState, d': LineState)
    requires lines != [] && before <= |d.items| && d.nextNo <= d1.nextNo
    requires |d1.items| == |d.items| + if lines[0].itemId.None? then 1 else 0
    requires lines[0].itemId.None? && lines[0].no.None? ==> d1.items[|d.items|].no == d.nextNo
    requires |d1.items| <= |d'.items| && forall i :: 0 <= i < |d1.items| ==> d'.items[i].no == d1.items[i].no
    requires AutomaticFrom(d1.nextNo, d'.items, |d1.items|, lines[1..])
    ensures AutomaticFrom(d.nextNo, d'.items, |d.items|, lines)
  {
    RowOfTail(|d.items|, lines);
    forall k | 0 < k < |lines| && lines[k].itemId.None? && lines[k].no.None?
      ensures RowOf(|d.items|, lines, k) < |d'.items| && d.nextNo <= d'.items[RowOf(|d.items|, lines, k)].no
    {
      assert lines[k] == lines[1..][k - 1];
    }
  }

  /** Every line has a row of its own that shows it, the active rows are exactly
      those, and the remaining rows only lost their flag. */
  predicate ExactlyThePayload(before: seq<Item>, lines: seq<ItemInput>, items: seq<Item>) {
    && |items| == |before| + NewLines(lines, |lines|)
    && (forall k :: 0 <= k < |lines| ==>
          RowOf(|before|, lines, k) < |items| && Carries(items[RowOf(|before|, lines, k)], lines[k]))
    && (forall j, k :: 0 <= j < k < |lines| ==> RowOf(|before|, lines, j) != RowOf(|before|, lines, k))
    && (forall i :: 0 <= i < |items| ==> (items[i].active <==> !Untouched(i, |before|, lines)))
    && (forall i :: 0 <= i < |before| && !items[i].active ==> items[i] == before[i].(active := false))
  }

  lemma ReplacementLoop(w: World, actor: nat, expected: nat, s: Aggregate, requestType: Option<RequestType>,
                        asset: Patch<nat>, lines: seq<ItemInput>, t: Aggregate)
    requires DoReplaceItems(w, actor, expected, s, requestType, asset, lines) == Ok(t)
    ensures ReplaceLines(w, s.request.id, |s.items|, StartLines(s.items), lines).Ok?
    ensures var d' := ReplaceLines(w, s.request.id, |s.items|, StartLines(s.items), lines).value;
      t.items == Deactivate(d'.items, |s.items|, d'.kept)
    ensures DistinctNumbers(t.items)
  {
    hide ReplaceLines, DistinctNumbers, MaxNo, Deactivate;
  }

  /** replace_request_items, read off its result: exactly the payload is active,
      no row is deleted or renumbered, numbers are unique, and an automatic
      number differs from every stored number and from every earlier line's. */
  lemma ReplacementMeaning(w: World, actor: nat, expected: nat, s: Aggregate, requestType: Option<RequestType>,
                           asset: Patch<nat>, lines: seq<ItemInput>, t: Aggregate)
    requires DoReplaceItems(w, actor, expected, s, requestType, asset, lines) == Ok(t)
    ensures ExactlyThePayload(s.items, lines, t.items)
    ensures forall i :: 0 <= i < |s.items| ==> t.items[i].no == s.items[i].no
    ensures DistinctNumbers(t.items)
    ensures AutomaticFrom(MaxNo(s.items) + 1, t.items, |s.items|, lines)
  {
    hide Carries, DistinctNumbers, ExactlyThePayload, LoopResult, DoReplaceItems, AutomaticFrom, ReplaceLines,
      Deactivate;
    ReplacementLoop(w, actor, expected, s, requestType, asset, lines, t);
    var d, n := StartLines(s.items), |s.items|;
    var d' := ReplaceLines(w, s.request.id, n, d, lines).value;
    LinesLand(w, s.request.id, n, d, lines, d');
    AutomaticNumbers(w, s.request.id, n, d, lines, d');
    PayloadIsActive(s.items, lines, d, d', t.items);
  }

  lemma PayloadIsActive(stored: seq<Item>, lines: seq<ItemInput>, d: LineState, d': LineState, items: seq<Item>)
    requires d.items == stored && d.kept == {} && LoopResult(|stored|, d, lines, d')
    requires |stored| <= |d'.items| && items == Deactivate(d'.items, |stored|, d'.kept)
    requires AutomaticFrom(d.nextNo, d'.items, |stored|, lines)
    ensures ExactlyThePayload(stored, lines, items)
    ensures forall i :: 0 <= i < |stored| ==> items[i].no == stored[i].no
    ensures AutomaticFrom(d.nextNo, items, |stored|, lines)
  {
    hide NewLines, RowOf, Untouched, Carries;
    PayloadRowsStay(stored, lines, d, d', items);
  }

  /** Deactivation spares the rows of the payload. */
  lemma PayloadRowsStay(stored: seq<Item>, lines: seq<ItemInput>, d: LineState, d': LineState, items: seq<Item>)
    requires d.items == stored && d.kept == {} && LoopResult(|stored|, d, lines, d')
    requires |stored| <= |d'.items| && items == Deactivate(d'.items, |stored|, d'.kept)
    ensures forall k :: 0 <= k < |lines| ==>
      RowOf(|stored|, lines, k) < |items| && items[RowOf(|stored|, lines, k)] == d'.items[RowOf(|stored|, lines, k)]
    ensures forall i :: 0 <= i < |items| ==> (items[i].active <==> !Untouched(i, |stored|, lines))
  {
    hide NewLines;
    var n := |stored|;
    KeptAreTouched(stored, lines, d'.kept);
    forall i | n <= i < |items| ensures !Untouched(i, n, lines) { var k := LineOfNewRow(n, lines, |lines|, i); }
    forall k | 0 <= k < |lines|
      ensures RowOf(n, lines, k) < |items| && items[RowOf(n, lines, k)] == d'.items[RowOf(n, lines, k)]
    {
      hide RowOf;
      assert !Untouched(RowOf(n, lines, k), n, lines);
    }
  }

  lemma KeptAreTouched(stored: seq<Item>, lines: seq<ItemInput>, kept: set<nat>)
    requires kept == set k | 0 <= k < |lines| && lines[k].itemId.Some? :: lines[k].itemId.value
    requires forall i :: i in kept ==> i < |stored|
    ensures forall i :: 0 <= i < |stored| ==> (i in kept <==> !Untouched(i, |stored|, lines))
  {
    forall i | 0 <= i < |stored| && i in kept ensures !Untouched(i, |stored|, lines) {
      var k :| 0 <= k < |lines| && lines[k].itemId.Some? && lines[k].itemId.value == i;
      assert RowOf(|stored|, lines, k) == i;
    }
  }

  /** A new line asks for a number that a stored row already has. */
  predicate AsksForStoredNumber(stored: seq<Item>, lines: seq<ItemInput>) {
    exists k, i :: 0 <= k < |lines| && 0 <= i < |stored| && lines[k].itemId.None? && lines[k].no == Some(stored[i].no)
  }

  /** The loop compares explicit numbers with the payload only. When it passes,
      the unique index rejects the request exactly if a new line asks for the
      number of a stored row. */
  lemma UniqueIndexFiresExactly(w: World, request: nat, stored: seq<Item>, lines: seq<ItemInput>, d': LineState)
    requires DistinctNumbers(stored)
    requires ReplaceLines(w, request, |stored|, StartLines(stored), lines) == Ok(d')
    ensures !DistinctNumbers(Deactivate(d'.items, |stored|, d'.kept)) <==> AsksForStoredNumber(stored, lines)
  {
    hide ReplaceLines, NewLines, RowOf, Carries, Deactivate, LoopResult, ExactlyThePayload, FreshNumbers, ShowsNumbers,
      DistinctNumbers, AutomaticFrom;
    var n, d, items := |stored|, StartLines(stored), Deactivate(d'.items, |stored|, d'.kept);
    LinesLand(w, request, n, d, lines, d');
    AutomaticNumbers(w, request, n, d, lines, d');
    PayloadIsActive(stored, lines, d, d', items);
    NumbersShown(stored, lines, d, d', items);
    if AsksForStoredNumber(stored, lines) { ClashWhenAsked(stored, lines, items); }
    else { NoClashOtherwise(stored, lines, items); }
  }

  lemma NumbersShown(stored: seq<Item>, lines: seq<ItemInput>, d: LineState, d': LineState, items: seq<Item>)
    requires d.items == stored && d.kept == {} && d.seen == {} && LoopResult(|stored|, d, lines, d')
    requires |stored| <= |d'.items| && items == Deactivate(d'.items, |stored|, d'.kept)
    ensures |items| == |stored| + NewLines(lines, |lines|)
    ensures FreshNumbers(items, |stored|, lines, {}) && ShowsNumbers(items, |stored|, lines)
  {
    hide NewLines, RowOf, Untouched;
    PayloadRowsStay(stored, lines, d, d', items);
  }

  predicate ShowsNumbers(items: seq<Item>, stored: nat, lines: seq<ItemInput>) {
    forall k :: 0 <= k < |lines| && lines[k].no.Some? ==>
      RowOf(stored, lines, k) < |items| && items[RowOf(stored, lines, k)].no == lines[k].no.value
  }

  lemma ClashWhenAsked(stored: seq<Item>, lines: seq<ItemInput>, items: seq<Item>)
    requires |stored| <= |items| && forall i :: 0 <= i < |stored| ==> items[i].no == stored[i].no
    requires ShowsNumbers(items, |stored|, lines) && AsksForStoredNumber(stored, lines)
    ensures !DistinctNumbers(items)
  {
    var k, i :| 0 <= k < |lines| && 0 <= i < |stored| && lines[k].itemId.None? && lines[k].no == Some(stored[i].no);
    assert items[RowOf(|stored|, lines, k)].no == items[i].no && i < RowOf(|stored|, lines, k);
  }

  lemma NoClashOtherwise(stored: seq<Item>, lines: seq<ItemInput>, items: seq<Item>)
    requires DistinctNumbers(stored) && |items| == |stored| + NewLines(lines, |lines|)
    requires forall i :: 0 <= i < |stored| ==> items[i].no == stored[i].no
    requires FreshNumbers(items, |stored|, lines, {}) && ShowsNumbers(items, |stored|, lines)
    requires AutomaticFrom(MaxNo(stored) + 1, items, |stored|, lines) && !AsksForStoredNumber(stored, lines)
    ensures DistinctNumbers(items)
  {
    var n := |stored|;
    forall i, j | 0 <= i < j < |items| ensures items[i].no != items[j].no {
      if j >= n {
        var b := LineOfNewRow(n, lines, |lines|, j);
        if i >= n { var a := LineOfNewRow(n, lines, |lines|, i); }
        else if lines[b].no.Some? { assert lines[b].no != Some(stored[i].no); }
      }
    }
  }

  /** Every appended row belongs to a line. */
  lemma {:induction false} LineOfNewRow(stored: nat, lines: seq<ItemInput>, k: nat, i: nat) returns (j: nat)
    requires k <= |lines| && stored <= i < stored + NewLines(lines, k)
    ensures j < k && lines[j].itemId.None? && RowOf(stored, lines, j) == i
  {
    if lines[k - 1].itemId.None? && i == stored + NewLines(lines, k - 1) { j := k - 1; }
    else { j := LineOfNewRow(stored, lines, k - 1, i); }
  }
}
