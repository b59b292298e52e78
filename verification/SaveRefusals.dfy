/** What speaks against a saving command, stated without the order of the checks, and that
    it is accepted only if nothing does and refused only for what does. */
module SaveRefusals {
  import opened Common
  import opened Money
  import opened Workflow
  import opened Procurement
  import opened Commands
  import opened Invariants
  import opened ItemInvariant
  import opened MoveRefusals

  /** Against a saving command of the person in `role` who holds the request. */
  predicate WrongMoment(e: ErrorCode, c: Call, q: Request, role: Role, status: Status) {
    match e
    case PermissionDenied => !c.world.HasRole(c.actor, role) || q.handler != Some(c.actor)
    case BuildingNotAllowed => role == BuildingManager && Elsewhere(c.world, c.actor, q.building)
    case InvalidStatus => q.status != status
    case ConcurrentModification => c.expected != q.version
    case _ => false
  }

  // ----- advice

  /** An active supplier of the table. */
  predicate OnOffer(w: World, id: nat) { id in w.suppliers && w.suppliers[id].active }

  /** A total may only be submitted with a price, and then it is the rounded one. */
  predicate WrongTotal(quantity: nat, price: Option<nat>, total: Option<nat>) {
    total.Some? && (price.None? || total.value != RoundHalfEven(quantity * price.value))
  }

  predicate AgainstAdvice(e: ErrorCode, c: Call, s: Aggregate)
    requires c.command.SaveReviewItems?
  {
    var advice := c.command.advice;
    match e
    case MissingRequiredFields =>
      || (exists i :: 0 <= i < |s.items| && s.items[i].active && forall k :: 0 <= k < |advice| ==> advice[k].item != i)
      || (exists k :: 0 <= k < |advice| && !(advice[k].item < |s.items| && s.items[advice[k].item].active))
    case SupplierNotFound =>
      exists k :: 0 <= k < |advice| && advice[k].supplierId.Some? && !OnOffer(c.world, advice[k].supplierId.value)
    case ValidationError =>
      || advice == []
      || exists k :: 0 <= k < |advice| && advice[k].item < |s.items|
                     && WrongTotal(s.items[advice[k].item].quantity, advice[k].unitPrice, advice[k].totalPrice)
    case _ => WrongMoment(e, c, s.request, BuildingManager, PendingReview)
  }

  predicate AgainstLine(e: ErrorCode, w: World, items: seq<Item>, line: ReviewInput)
    requires line.item < |items|
  {
    match e
    case SupplierNotFound => line.supplierId.Some? && !OnOffer(w, line.supplierId.value)
    case ValidationError => WrongTotal(items[line.item].quantity, line.unitPrice, line.totalPrice)
    case _ => false
  }

  lemma {:induction false} AdviceLinesExactly(w: World, items: seq<Item>, r: nat, stored: seq<ReviewItem>,
                                              rows: seq<ReviewItem>, advice: seq<ReviewInput>)
    requires forall k :: 0 <= k < |advice| ==> advice[k].item < |items|
    requires |stored| <= |rows|
    ensures var x := ReviewLines(w, items, r, stored, rows, advice);
      && (x.Ok? ==> forall e, k :: 0 <= k < |advice| ==> !AgainstLine(e, w, items, advice[k]))
      && (x.Err? ==> exists k :: 0 <= k < |advice| && AgainstLine(x.error, w, items, advice[k]))
    decreases |advice|
  {
    if advice != [] {
      hide RoundHalfEven, Snapshot, FindReviewItem;
      var first, rest := ReviewLine(w, items, r, stored, rows, advice[0]), advice[1..];
      if first.Ok? {
        AdviceLinesExactly(w, items, r, stored, first.value, rest);
        assert forall k :: 0 < k < |advice| ==> advice[k] == rest[k - 1];
        var x := ReviewLines(w, items, r, stored, first.value, rest);
        if x.Err? {
          var k :| 0 <= k < |rest| && AgainstLine(x.error, w, items, rest[k]);
          assert AgainstLine(x.error, w, items, advice[k + 1]);
        }
      }
    }
  }

  /** The two sets of items agree exactly if every active item is advised and every
      advised item is active. */
  lemma CoverageExactly(items: seq<Item>, advice: seq<ReviewInput>)
    ensures (set k | 0 <= k < |advice| :: advice[k].item) == (set i | i in Actives(items)) <==>
      && (forall i :: 0 <= i < |items| && items[i].active ==> exists k :: 0 <= k < |advice| && advice[k].item == i)
      && (forall k :: 0 <= k < |advice| ==> advice[k].item < |items| && items[advice[k].item].active)
  {
    hide Actives;
    var named, ids := set k | 0 <= k < |advice| :: advice[k].item, Actives(items);
    assert forall k :: 0 <= k < |advice| ==> advice[k].item in named;
    if named == (set i | i in ids) {
      forall i | 0 <= i < |items| && items[i].active ensures exists k :: 0 <= k < |advice| && advice[k].item == i {
        assert i in ids && i in named;
      }
      forall k | 0 <= k < |advice| ensures advice[k].item < |items| && items[advice[k].item].active {
        assert advice[k].item in (set i | i in ids);
      }
    }
  }

  lemma AdviceAccepted(c: Call, s: Aggregate, used: set<string>)
    requires c.command.SaveReviewItems? && Exec(c, s, used).Ok?
    ensures forall e :: !AgainstAdvice(e, c, s)
  {
    hide Actives, OpenRound, ReviewLines, WrongTotal;
    var advice := c.command.advice;
    CoverageExactly(s.items, advice);
    var (u, r) := OpenRound(s, c.actor);
    AdviceLinesExactly(c.world, s.items, r, u.reviewItems, u.reviewItems, advice);
    forall k | 0 <= k < |advice|
      ensures !AgainstLine(SupplierNotFound, c.world, s.items, advice[k])
      ensures !AgainstLine(ValidationError, c.world, s.items, advice[k])
    {}
  }

  lemma AdviceRefused(c: Call, s: Aggregate, used: set<string>)
    requires c.command.SaveReviewItems? && Exec(c, s, used).Err?
    ensures AgainstAdvice(Exec(c, s, used).error, c, s)
  {
    hide Actives, OpenRound, ReviewLines, WrongTotal;
    var advice := c.command.advice;
    CoverageExactly(s.items, advice);
    var (u, r) := OpenRound(s, c.actor);
    if forall k :: 0 <= k < |advice| ==> advice[k].item < |s.items| && s.items[advice[k].item].active {
      AdviceLinesExactly(c.world, s.items, r, u.reviewItems, u.reviewItems, advice);
    }
  }

  /** The price a round has, or gets from the fields. */
  function PriceAfter(reviews: seq<Review>, f: ReviewFields): Option<nat> {
    match f.unitPrice
    case Put(price) => price
    case Keep => if OpenReview(reviews).Some? then reviews[OpenReview(reviews).value].unitPrice else None
  }

  predicate AgainstFields(e: ErrorCode, c: Call, s: Aggregate)
    requires c.command.SaveReviewFields?
  {
    var f := c.command.review;
    match e
    case MultiItemNotSupported => |Actives(s.items)| != 1
    case SupplierNotFound =>
      (match (f.supplierName, f.supplierId)
       case (Put(Some(_)), _) => false
       case (_, Put(Some(id))) => !OnOffer(c.world, id)
       case _ => false)
    case ValidationError =>
      |Actives(s.items)| == 1 && f.totalPrice.Put?
      && WrongTotal(s.items[Actives(s.items)[0]].quantity, PriceAfter(s.reviews, f), f.totalPrice.value)
    case _ => WrongMoment(e, c, s.request, BuildingManager, PendingReview)
  }

  lemma FieldsExactly(c: Call, s: Aggregate, used: set<string>)
    requires c.command.SaveReviewFields?
    ensures Exec(c, s, used).Ok? ==> forall e :: !AgainstFields(e, c, s)
    ensures Exec(c, s, used).Err? ==> AgainstFields(Exec(c, s, used).error, c, s)
  {
    hide Actives, OpenReview, LatestReview, RowsOf, RoundHalfEven, Snapshot, MirroredAdvice, Strip, Unadvised;
  }

  // ----- the header

  /** The applicant before submission, or the manager of the building during review. */
  predicate MayEditHeader(c: Call, q: Request) {
    || (c.world.HasRole(c.actor, Applicant) && q.applicant == c.actor && q.status in {Status.Draft, Rejected})
    || (c.world.HasRole(c.actor, BuildingManager) && q.handler == Some(c.actor) && q.status == PendingReview
        && c.world.InBuilding(c.actor, q.building))
  }

  predicate AgainstHeader(e: ErrorCode, c: Call, s: Aggregate)
    requires c.command.SaveApplicantFields?
  {
    match e
    case InvalidStatus => !MayEditHeader(c, s.request)
    case ConcurrentModification => c.expected != s.request.version
    case MultiItemNotSupported => |Actives(s.items)| > 1
    case ValidationError => c.command.quantity == Put(Some(0))
    case _ => false
  }

  lemma HeaderExactly(c: Call, s: Aggregate, used: set<string>)
    requires ItemsOk(s) && c.command.SaveApplicantFields?
    ensures Exec(c, s, used).Ok? ==> forall e :: !AgainstHeader(e, c, s)
    ensures Exec(c, s, used).Err? ==> AgainstHeader(Exec(c, s, used).error, c, s)
  {
    hide Actives, DistinctNumbers, MirrorItem, EditedHeader;
    var x := c.command;
    LegacyInsertNeverClashes(c.world, c.actor, c.expected, s, x.name, x.quantity, x.unit, x.columns);
  }

  // ----- purchases

  /** The name the last round proposes. */
  function Proposed(reviews: seq<Review>): Option<string> {
    if LatestReview(reviews).Some? then reviews[LatestReview(reviews).value].supplierName else None
  }

  predicate AgainstSupplier(e: ErrorCode, w: World, reviews: seq<Review>, supplierId: Option<nat>) {
    match (e, supplierId)
    case (SupplierNotFound, Some(id)) => !OnOffer(w, id)
    case (SupplierBlacklisted, Some(id)) => OnOffer(w, id) && w.suppliers[id].blacklisted
    case (SupplierNotFound, None) =>
      LatestReview(reviews).None? || (Proposed(reviews).Some? && Strip(Proposed(reviews).value) == "")
    case (InternalError, None) => LatestReview(reviews).Some? && Proposed(reviews).None?
    case _ => false
  }

  lemma SupplierExactly(w: World, reviews: seq<Review>, supplierId: Option<nat>)
    ensures var r := ResolveSupplier(w, reviews, supplierId);
      && (r.Ok? ==> forall e :: !AgainstSupplier(e, w, reviews, supplierId))
      && (r.Err? ==> AgainstSupplier(r.error, w, reviews, supplierId)
                     && r.error in {SupplierNotFound, SupplierBlacklisted, InternalError})
    ensures forall e :: AgainstSupplier(e, w, reviews, supplierId) ==>
      e in {SupplierNotFound, SupplierBlacklisted, InternalError}
  {
    hide LatestReview, Strip;
  }

  predicate AgainstPurchase(e: ErrorCode, c: Call, s: Aggregate, i: nat, f: PurchaseFields, token: Option<string>,
                            again: bool, used: set<string>) {
    match e
    case DuplicateOperation => token.Some? && token.value in used
    case RequestItemNotFound => i >= |s.items|
    case InvalidRequestItem => i < |s.items| && !s.items[i].active
    case ItemAlreadyPurchased => Bought(s.executions, i) && !again
    case ValidationError =>
      i < |s.items| && f.totalPrice.Some? && f.totalPrice.value != RoundHalfEven(s.items[i].quantity * f.unitPrice)
    case _ =>
      || AgainstSupplier(e, c.world, s.reviews, f.supplierId)
      || WrongMoment(e, c, s.request, Purchaser, Purchasing)
  }

  lemma PurchaseExactly(c: Call, s: Aggregate, i: nat, f: PurchaseFields, token: Option<string>, again: bool,
                        used: set<string>)
    requires ItemsOk(s) && ExecutionsOk(s)
    ensures var r := DoSavePurchaseItem(c.world, c.actor, c.expected, s, i, f, token, again, used);
      && (r.Ok? ==> forall e :: !AgainstPurchase(e, c, s, i, f, token, again, used))
      && (r.Err? ==> AgainstPurchase(r.error, c, s, i, f, token, again, used))
  {
    hide FindExecution, LatestReview, RoundHalfEven, Actives, DistinctNumbers, ResolveSupplier, AgainstSupplier;
    SupplierExactly(c.world, s.reviews, f.supplierId);
    assert i < |s.items| ==> RowOk(s.items[i], s.request.id);
    assert forall x :: 0 <= x < |s.executions| ==> ExecutionOk(s.executions[x], s.items, s.request.id);
  }

  predicate AgainstLegacyPurchase(e: ErrorCode, c: Call, s: Aggregate, used: set<string>)
    requires c.command.SavePurchaseFields?
  {
    if |Actives(s.items)| != 1 then e == MultiItemNotSupported
    else AgainstPurchase(e, c, s, Actives(s.items)[0], c.command.fields, None, true, used)
  }

  lemma LegacyPurchaseExactly(c: Call, s: Aggregate, used: set<string>)
    requires ItemsOk(s) && ExecutionsOk(s) && c.command.SavePurchaseFields?
    ensures Exec(c, s, used).Ok? ==> forall e :: !AgainstLegacyPurchase(e, c, s, used)
    ensures Exec(c, s, used).Err? ==> AgainstLegacyPurchase(Exec(c, s, used).error, c, s, used)
  {
    hide Actives, AgainstPurchase, DoSavePurchaseItem, ItemsOk, ExecutionsOk;
    var ids := Actives(s.items);
    if |ids| == 1 { PurchaseExactly(c, s, ids[0], c.command.fields, None, true, used); }
  }

  // ----- receipts

  predicate AgainstReceipt(e: ErrorCode, c: Call, s: Aggregate, token: string, x: nat, quantity: nat,
                           used: set<string>) {
    match e
    case DuplicateOperation => token in used
    case ExecutionNotFound => x >= |s.executions|
    case WarehouseNotRequired =>
      x < |s.executions| && s.executions[x].item < |s.items| && !s.items[s.executions[x].item].warehouse
    case OverReceipt => x < |s.executions| && Received(s.receipts, x) + quantity > s.executions[x].quantity
    case ValidationError => quantity == 0
    case _ => WrongMoment(e, c, s.request, WarehouseManager, PendingWarehouse)
  }

  lemma ReceiptExactly(c: Call, s: Aggregate, token: string, x: nat, quantity: nat, used: set<string>)
    requires ItemsOk(s) && ExecutionsOk(s)
    ensures var r := DoAppendReceipt(c.world, c.actor, c.expected, s, token, x, quantity, used);
      && (r.Ok? ==> forall e :: !AgainstReceipt(e, c, s, token, x, quantity, used))
      && (r.Err? ==> AgainstReceipt(r.error, c, s, token, x, quantity, used))
  {
    hide Received, Actives, FindExecution, DistinctNumbers;
    assert x < |s.executions| ==> ExecutionOk(s.executions[x], s.items, s.request.id);
    assert x < |s.executions| ==> RowOk(s.items[s.executions[x].item], s.request.id);
  }

  /** The legacy receipt is for one warehouse item, one execution and nothing received. */
  predicate Single(s: Aggregate) {
    && (exists i :: 0 <= i < |s.items| && OnlyForWarehouse(s.items, i))
    && |s.executions| == 1 && forall k :: 0 <= k < |s.receipts| ==> s.receipts[k].execution != 0
  }

  predicate ForWarehouse(items: seq<Item>, i: nat)
    requires i < |items|
  {
    items[i].active && items[i].warehouse
  }

  predicate OnlyForWarehouse(items: seq<Item>, i: nat)
    requires i < |items|
  {
    ForWarehouse(items, i) && forall j :: 0 <= j < |items| && ForWarehouse(items, j) ==> j == i
  }

  predicate AgainstLegacyReceipt(e: ErrorCode, c: Call, s: Aggregate, used: set<string>)
    requires c.command.SaveWarehouseFields?
  {
    var x := c.command;
    if x.received == 0 then e == ValidationError
    else if !Single(s) then e == MultiItemNotSupported
    else
      || (e == ValidationError && x.received < s.executions[0].quantity && !x.remark)
      || AgainstReceipt(e, c, s, LegacyToken(s.request.id, c.expected), 0, x.received, used)
  }

  lemma {:induction false} WarehouseItemsAre(items: seq<Item>, ids: seq<nat>)
    requires forall k :: 0 <= k < |ids| ==> ids[k] < |items|
    requires NoDuplicates(ids)
    ensures var r := WarehouseItems(items, ids);
      NoDuplicates(r) && forall i :: i in r <==> i in ids && items[i].warehouse
  {
    if ids != [] {
      WarehouseItemsAre(items, ids[1..]);
      assert ids == [ids[0]] + ids[1..];
    }
  }

  lemma SingleExactly(s: Aggregate)
    ensures |WarehouseItems(s.items, Actives(s.items))| == 1 <==>
      exists i :: 0 <= i < |s.items| && OnlyForWarehouse(s.items, i)
  {
    hide Actives, WarehouseItems;
    var ids := WarehouseItems(s.items, Actives(s.items));
    WarehouseItemsAre(s.items, Actives(s.items));
    assert forall i :: i in ids <==> 0 <= i < |s.items| && ForWarehouse(s.items, i);
    if |ids| == 1 {
      assert ids[0] in ids;
      assert OnlyForWarehouse(s.items, ids[0]);
    }
    if i: nat :| i < |s.items| && OnlyForWarehouse(s.items, i) {
      assert forall x :: x in ids <==> x in [i];
      SameElementsSameLength(ids, [i]);
    }
  }

  lemma LegacyReceiptExactly(c: Call, s: Aggregate, used: set<string>)
    requires ItemsOk(s) && ExecutionsOk(s) && c.command.SaveWarehouseFields?
    ensures Exec(c, s, used).Ok? ==> forall e :: !AgainstLegacyReceipt(e, c, s, used)
    ensures Exec(c, s, used).Err? ==> AgainstLegacyReceipt(Exec(c, s, used).error, c, s, used)
  {
    hide Actives, WarehouseItems, AgainstReceipt, DoAppendReceipt, ItemsOk, ExecutionsOk, LegacyToken;
    SingleExactly(s);
    ReceiptExactly(c, s, LegacyToken(s.request.id, c.expected), 0, c.command.received, used);
  }
}
