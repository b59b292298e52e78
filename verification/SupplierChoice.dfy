/** What a recorded purchase says, and which suppliers it can name: the path by
    supplier id refuses blacklisted suppliers, the path by name does not. */
module SupplierChoice {
  import opened Common
  import opened Money
  import opened Workflow
  import opened Procurement
  import opened Commands
  import opened Effects
  import opened Invariants
  import opened Lifecycle

  /** After a successful purchase or re-save the item's execution carries the
      submitted price and the rounded total of the item's quantity, a first purchase
      names the caller, and no other execution has changed. The supplier is
      blacklisted exactly if none was given by id and the last round names a
      blacklisted one. */
  lemma PurchaseRecords(w: World, actor: nat, expected: nat, s: Aggregate, itemId: nat, f: PurchaseFields,
                        token: Option<string>, allowUpdate: bool, used: set<string>, t: Aggregate) returns (e: nat)
    requires ExecutionsOk(s)
    requires DoSavePurchaseItem(w, actor, expected, s, itemId, f, token, allowUpdate, used) == Ok(t)
    ensures itemId < |s.items| && e < |t.executions| && Records(t.executions[e], s.items[itemId], itemId, f)
    ensures e < |s.executions| <==> FindExecution(s.executions, itemId).Some?
    ensures e >= |s.executions| ==> t.executions[e].purchaser == actor
    ensures f.supplierId.Some? ==>
      w.UsableSupplier(t.executions[e].supplier) && !w.Blacklisted(t.executions[e].supplier)
    ensures w.newSupplier !in w.suppliers ==>
      (w.Blacklisted(t.executions[e].supplier) <==> f.supplierId.None? && NamesBlacklisted(w, s.reviews))
    ensures SameNames(t.reviews, s.reviews)
    ensures forall d :: 0 <= d < |t.executions| && d != e ==> d < |s.executions| && t.executions[d] == s.executions[d]
  {
    hide FindExecution, Actives, LineTotal, LatestReview, Strip, Records;
    var found := FindExecution(s.executions, itemId);
    e := if found.Some? then found.value else |s.executions|;
    if found.Some? { assert ExecutionOk(s.executions[e], s.items, s.request.id); }
    RecordsAt(w, actor, expected, s, itemId, f, token, allowUpdate, used, t, e);
  }

  lemma RecordsAt(w: World, actor: nat, expected: nat, s: Aggregate, itemId: nat, f: PurchaseFields,
                  token: Option<string>, allowUpdate: bool, used: set<string>, t: Aggregate, i: nat)
    requires DoSavePurchaseItem(w, actor, expected, s, itemId, f, token, allowUpdate, used) == Ok(t)
    requires var e := FindExecution(s.executions, itemId); i == if e.Some? then e.value else |s.executions|
    requires itemId < |s.items|
    requires i < |s.executions| ==> s.executions[i].quantity == s.items[itemId].quantity
    ensures i < |t.executions| && Records(t.executions[i], s.items[itemId], itemId, f)
  {
    hide FindExecution, LineTotal, LatestReview, Strip;
  }

  /** The execution says what was submitted for the item. */
  predicate Records(x: Execution, item: Item, itemId: nat, f: PurchaseFields) {
    && x.item == itemId && x.quantity == item.quantity && x.unitPrice == f.unitPrice && x.columns == f.columns
    && x.total == LineTotal(item.quantity, f.unitPrice)
    && (f.totalPrice.Some? ==> f.totalPrice.value == x.total)
    && (f.supplierId.Some? ==> f.supplierId.value == x.supplier)
  }

  /** By id: exactly the usable suppliers that are not blacklisted. */
  lemma ByIdExactly(w: World, reviews: seq<Review>, id: nat)
    ensures ResolveSupplier(w, reviews, Some(id)).Ok? <==> w.UsableSupplier(id) && !w.suppliers[id].blacklisted
    ensures ResolveSupplier(w, reviews, Some(id)).Ok? ==> ResolveSupplier(w, reviews, Some(id)).value == (id, reviews)
  {}

  predicate NamesSupplier(reviews: seq<Review>) {
    var r := LatestReview(reviews);
    r.Some? && reviews[r.value].supplierName.Some? && Strip(reviews[r.value].supplierName.value) != ""
  }

  /** The last round's name leads to a blacklisted supplier. */
  predicate NamesBlacklisted(w: World, reviews: seq<Review>) {
    && NamesSupplier(reviews)
    && var name := Strip(reviews[LatestReview(reviews).value].supplierName.value);
      name in w.supplierNamed && w.Blacklisted(w.supplierNamed[name])
  }

  /** The same rounds with the same proposed names. */
  predicate SameNames(a: seq<Review>, b: seq<Review>) {
    |a| == |b| && forall k :: 0 <= k < |a| ==> a[k].round == b[k].round && a[k].supplierName == b[k].supplierName
  }

  lemma {:induction false} SameNamesSameLatest(a: seq<Review>, b: seq<Review>)
    requires SameNames(a, b)
    ensures LatestReview(a) == LatestReview(b)
  {
    if a != [] { SameNamesSameLatest(a[..|a| - 1], b[..|b| - 1]); }
  }

  lemma SameNamesSameBlacklist(w: World, a: seq<Review>, b: seq<Review>)
    requires SameNames(a, b)
    ensures NamesBlacklisted(w, a) == NamesBlacklisted(w, b)
  {
    hide LatestReview, Strip;
    SameNamesSameLatest(a, b);
  }

  /** By name: whenever the last round names somebody, blacklisted or not; the
      supplier is the active one of that name or a new one, and is written back to
      that round only. */
  lemma ByNameExactly(w: World, reviews: seq<Review>)
    ensures ResolveSupplier(w, reviews, None).Ok? <==> NamesSupplier(reviews)
    ensures NamesSupplier(reviews) ==>
      var r := LatestReview(reviews).value;
      var name := Strip(reviews[r].supplierName.value);
      var (id, reviews') := ResolveSupplier(w, reviews, None).value;
      && id == (if name in w.supplierNamed then w.supplierNamed[name] else w.newSupplier)
      && (w.newSupplier !in w.suppliers ==> (w.Blacklisted(id) <==> NamesBlacklisted(w, reviews)))
      && (w.SuppliersOk() ==> id == w.newSupplier || (w.UsableSupplier(id) && w.suppliers[id].name == name))
      && |reviews'| == |reviews| && reviews'[r].supplierId == Some(id)
      && forall k :: 0 <= k < |reviews| && k != r ==> reviews'[k] == reviews[k]
  {
    hide LatestReview, Strip;
  }

  // ----- runs

  /** Whatever blacklisted supplier an execution uses, the last round names one. */
  predicate BlacklistExplained(w: World, s: Aggregate) {
    forall e :: 0 <= e < |s.executions| && w.Blacklisted(s.executions[e].supplier) ==> NamesBlacklisted(w, s.reviews)
  }

  lemma PurchaseExplained(w: World, actor: nat, expected: nat, s: Aggregate, itemId: nat, f: PurchaseFields,
                          token: Option<string>, allowUpdate: bool, used: set<string>, t: Aggregate)
    requires ExecutionsOk(s) && BlacklistExplained(w, s) && w.newSupplier !in w.suppliers
    requires DoSavePurchaseItem(w, actor, expected, s, itemId, f, token, allowUpdate, used) == Ok(t)
    ensures BlacklistExplained(w, t)
  {
    hide DoSavePurchaseItem, NamesBlacklisted, SameNames, Records, ExecutionsOk;
    var e := PurchaseRecords(w, actor, expected, s, itemId, f, token, allowUpdate, used, t);
    SameNamesSameBlacklist(w, t.reviews, s.reviews);
  }

  lemma StepExplained(c: Call, s: Aggregate, used: set<string>, t: Aggregate)
    requires Inv(s) && BlacklistExplained(c.world, s) && c.world.newSupplier !in c.world.suppliers
    requires Exec(c, s, used) == Ok(t)
    ensures BlacklistExplained(c.world, t)
  {
    hide DoReplaceItems, DoSaveApplicantFields, DoSaveReviewItems, DoSaveReviewFields, DoSendToReview, DoReject,
      DoSendToPurchaser, DoBeginPurchase, DoSavePurchaseItem, DoSendToWarehouse, DoAppendReceipt, DoSaveWarehouseFields,
      DoFinish, NamesBlacklisted, ItemsOk, RoundsOk, SnapshotsOk, ReceiptsOk, Actives, Logged, BlacklistExplained;
    ExecEffects(c, s, t, used);
    match c.command
    case SavePurchaseFields(f) =>
      PurchaseExplained(c.world, c.actor, c.expected, s, Actives(s.items)[0], f, None, true, used, t);
    case SavePurchaseItem(i, token, f) =>
      PurchaseExplained(c.world, c.actor, c.expected, s, i, f, Some(token), false, used, t);
    case _ => OthersExplained(c.world, s, t);
  }

  lemma OthersExplained(w: World, s: Aggregate, t: Aggregate)
    requires BlacklistExplained(w, s) && t.executions == s.executions && (s.executions != [] ==> t.reviews == s.reviews)
    ensures BlacklistExplained(w, t)
  {
    hide NamesBlacklisted;
  }

  /** The clock says nothing about suppliers. */
  lemma ExplainedAlike(w: World, v: World, s: Aggregate)
    requires v.AgreesWith(w)
    ensures BlacklistExplained(v, s) == BlacklistExplained(w, s)
  {
    hide LatestReview, Strip;
    assert NamesBlacklisted(v, s.reviews) == NamesBlacklisted(w, s.reviews);
    assert forall id :: v.Blacklisted(id) == w.Blacklisted(id);
  }

  /** Over every run with one supplier table: if the last round names no blacklisted
      supplier, no execution uses one. */
  lemma {:induction false} RunsAvoidBlacklist(w: World, actor: nat, id: nat, building: nat, s: Aggregate,
                                              turns: seq<Turn>)
    requires w.newSupplier !in w.suppliers && NewRequest(w, actor, id, building) == Ok(s)
    requires forall k :: 0 <= k < |turns| ==> turns[k].call.world.AgreesWith(w)
    ensures BlacklistExplained(w, Run(s, turns))
  {
    hide Exec, Inv, BlacklistExplained, NewRequest;
    FreshRequestOk(w, actor, id, building, s);
    if turns == [] { FreshExplained(w, actor, id, building, s); }
    else {
      var front, last := turns[..|turns| - 1], turns[|turns| - 1];
      RunsAvoidBlacklist(w, actor, id, building, s, front);
      ReachableOk(s, front);
      var u := Run(s, front);
      var r := Exec(last.call, u, last.used);
      if r.Ok? {
        ExplainedAlike(w, last.call.world, u);
        StepExplained(last.call, u, last.used, r.value);
        ExplainedAlike(w, last.call.world, r.value);
      }
    }
  }

  lemma FreshExplained(w: World, actor: nat, id: nat, building: nat, s: Aggregate)
    requires NewRequest(w, actor, id, building) == Ok(s)
    ensures BlacklistExplained(w, s)
  {}
}
