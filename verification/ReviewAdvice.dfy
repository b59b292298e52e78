/** What advice the review rows carry after a manager has saved it, by either path,
    and that nothing else in the review tables has changed. */
module ReviewAdvice {
  import opened Common
  import opened Money
  import opened Workflow
  import opened Procurement
  import opened Commands
  import opened Invariants
  import opened ReviewInvariant

  // ----- save_review_items

  /** Quantity times price in cents, half to even, if there is a price. */
  predicate IsEstimate(total: Option<nat>, quantity: nat, price: Option<nat>) {
    if price.Some? then total == Some(RoundHalfEven(quantity * price.value)) else total.None?
  }

  /** The row carries the line: its supplier with that supplier's name, its price and
      columns, and the total that follows; a submitted total is that one. */
  predicate CarriesAdvice(w: World, row: ReviewItem, item: Item, line: ReviewInput) {
    && row.supplierId == line.supplierId && (row.supplierName.Some? <==> line.supplierId.Some?)
    && (line.supplierId.Some? ==>
          && w.UsableSupplier(line.supplierId.value)
          && row.supplierName == Some(w.suppliers[line.supplierId.value].name))
    && row.unitPrice == line.unitPrice && row.columns == line.columns
    && IsEstimate(row.totalPrice, item.quantity, line.unitPrice)
    && (line.totalPrice.Some? ==> row.totalPrice == line.totalPrice)
  }

  /** The last line about item `i`. */
  function LineFor(advice: seq<ReviewInput>, i: nat): (line: Option<ReviewInput>)
    ensures line.Some? ==> line.value in advice && line.value.item == i
    ensures line.None? ==> forall k :: 0 <= k < |advice| ==> advice[k].item != i
  {
    if advice == [] then None
    else
      var later := LineFor(advice[1..], i);
      if later.Some? then later else if advice[0].item == i then Some(advice[0]) else None
  }

  /** One turn of the loop writes the line into its row and touches no other. */
  lemma LineLands(w: World, items: seq<Item>, r: nat, stored: seq<ReviewItem>, rows: seq<ReviewItem>,
                  line: ReviewInput, rows': seq<ReviewItem>)
    requires line.item < |items| && line.item in ReviewedItems(stored, r)
    requires UniqueReviewItems(stored) && SameKeys(rows, stored)
    requires ReviewLine(w, items, r, stored, rows, line) == Ok(rows')
    ensures SameKeys(rows', stored)
    ensures forall j :: 0 <= j < |rows| ==>
      if rows[j].review == r && rows[j].item == line.item then CarriesAdvice(w, rows'[j], items[line.item], line)
      else rows'[j] == rows[j]
  {
    hide Unadvised, RoundHalfEven;
    var k := FindReviewItem(stored, r, line.item).value;
    forall j | 0 <= j < |rows| ensures rows[j].review == r && rows[j].item == line.item <==> j == k {
      assert Shown(rows[j]) == Shown(stored[j]);
    }
  }

  lemma {:induction false} LinesLand(w: World, items: seq<Item>, r: nat, stored: seq<ReviewItem>,
                                     rows: seq<ReviewItem>, advice: seq<ReviewInput>, rows': seq<ReviewItem>)
    requires forall k :: 0 <= k < |advice| ==> advice[k].item < |items| && advice[k].item in ReviewedItems(stored, r)
    requires UniqueReviewItems(stored) && SameKeys(rows, stored)
    requires ReviewLines(w, items, r, stored, rows, advice) == Ok(rows')
    ensures SameKeys(rows', stored)
    ensures forall j :: 0 <= j < |rows| ==> Told(w, items, r, advice, rows[j], rows'[j])
    decreases |advice|
  {
    hide ReviewLine, CarriesAdvice, UniqueReviewItems, ReviewedItems;
    if advice != [] {
      var rest := advice[1..];
      var rows1 := ReviewLine(w, items, r, stored, rows, advice[0]).value;
      LineLands(w, items, r, stored, rows, advice[0], rows1);
      LinesLand(w, items, r, stored, rows1, rest, rows');
      forall j | 0 <= j < |rows| ensures Told(w, items, r, advice, rows[j], rows'[j]) {
        assert Shown(rows1[j]) == Shown(stored[j]) == Shown(rows[j]);
        assert Told(w, items, r, rest, rows1[j], rows'[j]);
      }
    }
  }

  /** A row of the round that a line is about carries the last such line; any other row
      is unchanged. */
  predicate Told(w: World, items: seq<Item>, r: nat, advice: seq<ReviewInput>, row: ReviewItem, row': ReviewItem) {
    var line := LineFor(advice, row.item);
    if row.review == r && line.Some?
    then row.item < |items| && CarriesAdvice(w, row', items[row.item], line.value)
    else row' == row
  }

  /** After save_review_items the open round has exactly one row for each active item,
      with the last line about it; every row of another round is unchanged. */
  lemma AdviceIsStored(c: Call, s: Aggregate, used: set<string>, t: Aggregate)
    requires RoundsOk(s) && SnapshotsOk(s) && c.command.SaveReviewItems? && Exec(c, s, used) == Ok(t)
    ensures UniqueReviewItems(t.reviewItems) && t.reviews != [] && t.reviews[|t.reviews| - 1].status == Open
    ensures var r := |t.reviews| - 1;
      && ReviewedItems(t.reviewItems, r) == (set i | i in Actives(s.items))
      && (forall j :: 0 <= j < |t.reviewItems| && t.reviewItems[j].review == r ==>
            Carried(c.world, s.items, c.command.advice, t.reviewItems[j]))
      && (forall j :: 0 <= j < |s.reviewItems| && s.reviewItems[j].review != r ==>
            j < |t.reviewItems| && t.reviewItems[j] == s.reviewItems[j])
  {
    hide Actives, WithSnapshots, WithOpenReview, CarriesAdvice, Exec, ReviewedItems, UniqueReviewItems, LineFor;
    var advice := c.command.advice;
    var (u, r) := OpenRound(s, c.actor);
    OpenRoundListsActive(s, c.actor);
    OpenRoundIsLast(s, c.actor);
    AdvicePayload(c, s, used, t);
    LinesLand(c.world, s.items, r, u.reviewItems, u.reviewItems, advice, t.reviewItems);
    KeysCarryOver(u.reviewItems, t.reviewItems, r);
    forall j | 0 <= j < |t.reviewItems| && t.reviewItems[j].review == r
      ensures Carried(c.world, s.items, advice, t.reviewItems[j])
    {
      RowIsListed(t.reviewItems, r, j);
      assert Shown(t.reviewItems[j]) == Shown(u.reviewItems[j]);
      assert Told(c.world, s.items, r, advice, u.reviewItems[j], t.reviewItems[j]);
    }
    forall j | 0 <= j < |s.reviewItems| && s.reviewItems[j].review != r ensures t.reviewItems[j] == s.reviewItems[j] {
      assert u.reviewItems[..|s.reviewItems|][j] == s.reviewItems[j];
      assert Told(c.world, s.items, r, advice, u.reviewItems[j], t.reviewItems[j]);
    }
  }

  /** Some line is about the row's item, and the row carries the last of them. */
  predicate Carried(w: World, items: seq<Item>, advice: seq<ReviewInput>, row: ReviewItem) {
    var line := LineFor(advice, row.item);
    line.Some? && row.item < |items| && CarriesAdvice(w, row, items[row.item], line.value)
  }

  lemma RowIsListed(rows: seq<ReviewItem>, r: nat, j: nat)
    requires j < |rows| && rows[j].review == r
    ensures rows[j].item in ReviewedItems(rows, r)
  {}

  lemma KeysCarryOver(a: seq<ReviewItem>, b: seq<ReviewItem>, r: nat)
    requires SameKeys(b, a) && UniqueReviewItems(a)
    ensures UniqueReviewItems(b) && ReviewedItems(b, r) == ReviewedItems(a, r)
  {
    forall j | 0 <= j < |a| ensures a[j].review == b[j].review && a[j].item == b[j].item {
      assert Shown(a[j]) == Shown(b[j]);
    }
  }

  lemma AdvicePayload(c: Call, s: Aggregate, used: set<string>, t: Aggregate)
    requires c.command.SaveReviewItems? && Exec(c, s, used) == Ok(t)
    ensures var advice := c.command.advice; var (u, r) := OpenRound(s, c.actor);
      && (forall k :: 0 <= k < |advice| ==> advice[k].item in Actives(s.items))
      && (forall i :: i in Actives(s.items) ==> exists k :: 0 <= k < |advice| && advice[k].item == i)
      && t.reviews == u.reviews
      && ReviewLines(c.world, s.items, r, u.reviewItems, u.reviewItems, advice) == Ok(t.reviewItems)
  {
    hide Actives, OpenRound, ReviewLines, CurrentHandler;
    var advice := c.command.advice;
    var named := set k | 0 <= k < |advice| :: advice[k].item;
    assert forall k :: 0 <= k < |advice| ==> advice[k].item in named;
    assert named == (set i | i in Actives(s.items));
    forall i | i in Actives(s.items) ensures exists k :: 0 <= k < |advice| && advice[k].item == i {
      assert i in named;
    }
  }

  // ----- save_review_fields

  /** The supplier of the round: a name clears the id, an id brings its name along, and
      without either both stay unless they are cleared. */
  predicate NamesAsAsked(w: World, before: Review, after: Review, f: ReviewFields) {
    match (f.supplierName, f.supplierId)
    case (Put(Some(name)), _) => after.supplierId.None? && after.supplierName == Some(Strip(name))
    case (_, Put(Some(id))) =>
      w.UsableSupplier(id) && after.supplierId == Some(id) && after.supplierName == Some(w.suppliers[id].name)
    case (name, id) =>
      && after.supplierName == (if name.Keep? then before.supplierName else None)
      && after.supplierId == (if id.Keep? then before.supplierId else None)
  }

  /** The prices: the submitted one or the one before, with the total that follows from
      it; without a price the total stays and none may be submitted. */
  predicate PricedAsAsked(quantity: nat, before: Review, after: Review, f: ReviewFields) {
    && after.unitPrice == (if f.unitPrice.Keep? then before.unitPrice else f.unitPrice.value)
    && (if after.unitPrice.Some? then IsEstimate(after.totalPrice, quantity, after.unitPrice)
        else after.totalPrice == before.totalPrice && (f.totalPrice.Put? ==> f.totalPrice.value.None?))
    && (f.totalPrice.Put? && f.totalPrice.value.Some? ==> after.totalPrice == f.totalPrice.value)
  }

  ghost predicate AdvisedAs(w: World, quantity: nat, before: Review, after: Review, f: ReviewFields) {
    && NamesAsAsked(w, before, after, f) && PricedAsAsked(quantity, before, after, f)
    && WrittenOver(before.columns, after.columns, f.columns) && SameRound(after, before)
  }

  lemma AdvisedMeaning(w: World, quantity: nat, before: Review, f: ReviewFields, after: Review)
    requires AdvisedReview(w, quantity, before, f) == Ok(after)
    ensures AdvisedAs(w, quantity, before, after, f)
  {
    hide Strip, RoundHalfEven;
  }

  /** The review item repeats the round. */
  predicate Repeats(row: ReviewItem, round: Review) {
    && row.supplierId == round.supplierId && row.supplierName == round.supplierName
    && row.unitPrice == round.unitPrice && row.totalPrice == round.totalPrice
    && (forall name :: name in MIRRORED ==> Column(row.columns, name) == Column(round.columns, name))
    && Column(row.columns, "item_remark") == Column(round.columns, "review_remark")
  }

  lemma MirroredRepeats(row: ReviewItem, round: Review)
    ensures Repeats(row.(supplierId := round.supplierId, supplierName := round.supplierName,
                         unitPrice := round.unitPrice, totalPrice := round.totalPrice,
                         columns := row.columns + MirroredAdvice(round.columns)), round)
  {
    assert "item_remark" !in MIRRORED;
  }

  /** After save_review_fields the open round carries the advice, its one row repeats it
      for the only active item, and every other round and row is unchanged. */
  lemma FieldsAreStored(c: Call, s: Aggregate, used: set<string>, t: Aggregate)
    requires RoundsOk(s) && SnapshotsOk(s) && c.command.SaveReviewFields? && Exec(c, s, used) == Ok(t)
    ensures |Actives(s.items)| == 1 && t.reviews != [] && |s.reviews| <= |t.reviews| <= |s.reviews| + 1
    ensures var r, i := |t.reviews| - 1, Actives(s.items)[0];
      var before := if r < |s.reviews| then s.reviews[r] else BlankRound(r + 1, c.actor);
      && before.status == Open && AdvisedAs(c.world, s.items[i].quantity, before, t.reviews[r], c.command.review)
      && t.reviews[..r] == s.reviews[..r]
      && (exists j :: 0 <= j < |t.reviewItems| && t.reviewItems[j].review == r)
      && (forall j :: 0 <= j < |t.reviewItems| && t.reviewItems[j].review == r ==>
            t.reviewItems[j].item == i && Repeats(t.reviewItems[j], t.reviews[r]))
      && (forall j :: 0 <= j < |s.reviewItems| && s.reviewItems[j].review != r ==>
            j < |t.reviewItems| && t.reviewItems[j] == s.reviewItems[j])
  {
    hide Actives, WithOpenReview, RowsOf, Exec, AdvisedAs, Repeats, BlankRound, UniqueReviewItems, SnapshotsOk,
      MirroredAdvice, Snapshot;
    OpenRoundIsLast(s, c.actor);
    var (reviews, r) := WithOpenReview(s.reviews, c.actor);
    var row := FieldsShape(c, s, used, t);
    AdvisedMeaning(c.world, s.items[Actives(s.items)[0]].quantity, reviews[r], c.command.review, t.reviews[r]);
    OpenedBlank(s, c.actor);
    RowsRepeat(s, r, Actives(s.items)[0], row, t.reviews[r], t.reviewItems);
  }

  lemma RowsRepeat(s: Aggregate, r: nat, i: nat, row: ReviewItem, round: Review, rows: seq<ReviewItem>)
    requires SnapshotsOk(s) && RoundsOk(s) && |Actives(s.items)| == 1 && i == Actives(s.items)[0]
    requires r < |s.reviews| ==> s.reviews[r].status == Open
    requires var ks := RowsOf(s.reviewItems, r);
      && row == (if ks == [] then Snapshot(r, i, s.items[i]) else s.reviewItems[ks[0]])
      && var row' := row.(supplierId := round.supplierId, supplierName := round.supplierName,
                          unitPrice := round.unitPrice, totalPrice := round.totalPrice,
                          columns := row.columns + MirroredAdvice(round.columns));
        rows == if ks == [] then s.reviewItems + [row'] else s.reviewItems[ks[0] := row']
    ensures exists j :: 0 <= j < |rows| && rows[j].review == r
    ensures forall j :: 0 <= j < |rows| && rows[j].review == r ==> rows[j].item == i && Repeats(rows[j], round)
    ensures forall j :: 0 <= j < |s.reviewItems| && s.reviewItems[j].review != r ==>
      j < |rows| && rows[j] == s.reviewItems[j]
  {
    hide Actives, RowsOf, Repeats, UniqueReviewItems, SnapshotsOk, RoundsOk, MirroredAdvice;
    MirroredRepeats(row, round);
    OneRowOnly(s, r, i);
    var ks, n := RowsOf(s.reviewItems, r), |s.reviewItems|;
    assert rows[if ks == [] then n else ks[0]].review == r;
    assert forall j :: 0 <= j < n && s.reviewItems[j].review != r ==> j !in ks;
  }

  lemma OpenedBlank(s: Aggregate, actor: nat)
    requires RoundsOk(s)
    ensures var (reviews, r) := WithOpenReview(s.reviews, actor);
      reviews == if r < |s.reviews| then s.reviews else s.reviews + [BlankRound(r + 1, actor)]
  {
    hide OpenReview, LatestReview;
    OpenRoundIsLast(s, actor);
    if s.reviews != [] {
      var last := LatestReview(s.reviews);
      assert s.reviews[|s.reviews| - 1].round <= s.reviews[last.value].round;
    }
  }

  /** The open round has a row for the single active item at most. */
  lemma OneRowOnly(s: Aggregate, r: nat, i: nat)
    requires SnapshotsOk(s) && RoundsOk(s) && |Actives(s.items)| == 1 && i == Actives(s.items)[0]
    requires r < |s.reviews| ==> s.reviews[r].status == Open
    ensures forall k :: 0 <= k < |s.reviewItems| && s.reviewItems[k].review == r ==> s.reviewItems[k].item == i
    ensures var ks := RowsOf(s.reviewItems, r);
      |ks| <= 1 && forall k :: 0 <= k < |s.reviewItems| && s.reviewItems[k].review == r ==> ks == [k]
  {
    hide Actives, RowsOf;
    forall k | 0 <= k < |s.reviewItems| && s.reviewItems[k].review == r ensures s.reviewItems[k].item == i {
      assert s.reviewItems[k].item in Actives(s.items);
    }
    var ks := RowsOf(s.reviewItems, r);
    if |ks| > 1 { FirstTwoDiffer(ks); }
    forall j | 0 <= j < |ks| ensures ks[j] == ks[0] {
      assert s.reviewItems[ks[j]].item == i == s.reviewItems[ks[0]].item;
    }
    assert |ks| <= 1;
    forall k | 0 <= k < |s.reviewItems| && s.reviewItems[k].review == r ensures ks == [k] { assert k in ks; }
  }

  lemma FirstTwoDiffer(ks: seq<nat>)
    requires NoDuplicates(ks) && |ks| > 1
    ensures ks[0] != ks[1]
  {}

  lemma FieldsShape(c: Call, s: Aggregate, used: set<string>, t: Aggregate) returns (row: ReviewItem)
    requires c.command.SaveReviewFields? && Exec(c, s, used) == Ok(t)
    ensures var (reviews, r) := WithOpenReview(s.reviews, c.actor); var ids := Actives(s.items);
      var ks := RowsOf(s.reviewItems, r);
      && |ids| == 1 && |t.reviews| == |reviews| && t.reviews == reviews[r := t.reviews[r]]
      && AdvisedReview(c.world, s.items[ids[0]].quantity, reviews[r], c.command.review) == Ok(t.reviews[r])
      && row == (if ks == [] then Snapshot(r, ids[0], s.items[ids[0]]) else s.reviewItems[ks[0]])
      && var new_ := t.reviews[r];
        var row' := row.(supplierId := new_.supplierId, supplierName := new_.supplierName, unitPrice := new_.unitPrice,
                         totalPrice := new_.totalPrice, columns := row.columns + MirroredAdvice(new_.columns));
        t.reviewItems == if ks == [] then s.reviewItems + [row'] else s.reviewItems[ks[0] := row']
  {
    hide Actives, WithOpenReview, RowsOf, AdvisedReview, Snapshot, MirroredAdvice, CurrentHandler;
    var (reviews, r) := WithOpenReview(s.reviews, c.actor);
    var i, ks := Actives(s.items)[0], RowsOf(s.reviewItems, r);
    row := if ks == [] then Snapshot(r, i, s.items[i]) else s.reviewItems[ks[0]];
  }

  // ----- rounds and decisions

  /** A round starts without advice, supplier or contract, and so does a snapshot. */
  lemma RoundStartsBlank(round: nat, reviewer: nat, r: nat, i: nat, item: Item)
    ensures var b := BlankRound(round, reviewer);
      && b.round == round && b.reviewer == reviewer && b.supplierId.None? && b.supplierName.None?
      && b.unitPrice.None? && b.totalPrice.None? && b.opinion.None?
      && Column(b.columns, "need_contract") == Some("false")
    ensures var row := Snapshot(r, i, item);
      && row.supplierId.None? && row.supplierName.None? && row.unitPrice.None? && row.totalPrice.None?
      && Column(row.columns, "need_contract") == Some("false")
  {}

  /** A decision closes the last round with its verdict, and the reason of a rejection; the
      advice in it, and all earlier rounds, stay. */
  lemma DecisionIsStored(c: Call, s: Aggregate, used: set<string>, t: Aggregate)
    requires RoundsOk(s) && (c.command.RejectRequest? || c.command.SendToPurchaser?) && Exec(c, s, used) == Ok(t)
    ensures t.reviews != [] && |s.reviews| <= |t.reviews| <= |s.reviews| + 1
    ensures var r := |t.reviews| - 1;
      var before := if r < |s.reviews| then s.reviews[r] else BlankRound(r + 1, c.actor);
      && before.status == Open && t.reviews[..r] == s.reviews[..r]
      && t.reviews[r].status == Closed
      && t.reviews[r].verdict == Some(if c.command.RejectRequest? then RejectedBy else Approved)
      && t.reviews[r].opinion == (if c.command.RejectRequest? then Some(c.command.reason) else before.opinion)
      && t.reviews[r] == before.(status := Closed, verdict := t.reviews[r].verdict, opinion := t.reviews[r].opinion)
  {
    hide WithOpenReview, WithSnapshots, Actives, Exec, BlankRound;
    DecisionConcludes(c, s, used, t);
    OpenRoundIsLast(s, c.actor);
    OpenedBlank(s, c.actor);
  }
}
