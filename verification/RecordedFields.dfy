/** What the header edits and the receipts leave in the rows, field by field, and what the
    derived status of an item says. */
module RecordedFields {
  import opened Common
  import opened Workflow
  import opened Procurement
  import opened Fulfillment
  import opened Commands
  import opened Effects
  import opened Invariants
  import opened FulfillmentInvariant

  // ----- the header

  /** The submitted value, or the one before if the field was left out. */
  predicate IsPatched<T(==)>(before: Option<T>, after: Option<T>, patch: Patch<T>) {
    match patch case Keep => after == before case Put(value) => after == value
  }

  /** save_applicant_fields writes exactly the submitted fields of the header. */
  lemma HeaderIsPatched(c: Call, s: Aggregate, used: set<string>, t: Aggregate)
    requires c.command.SaveApplicantFields? && Exec(c, s, used) == Ok(t)
    ensures var (q, q', x) := (s.request, t.request, c.command);
      && IsPatched(q.deviceName, q'.deviceName, x.name) && IsPatched(q.quantity, q'.quantity, x.quantity)
      && IsPatched(q.unit, q'.unit, x.unit) && WrittenOver(q.columns, q'.columns, x.columns)
      && q' == q.(version := q.version + 1, deviceName := q'.deviceName, quantity := q'.quantity, unit := q'.unit,
                  columns := q'.columns)
  {
    hide Actives, MirrorItem, DistinctNumbers;
  }

  predicate Filled(q: Request) {
    q.deviceName.GetOr("") != "" && q.quantity.GetOr(0) != 0 && q.unit.GetOr("") != ""
  }

  /** The item shows the header. */
  predicate ShowsHeader(item: Item, q: Request) {
    && q.deviceName == Some(item.name) && q.quantity == Some(item.quantity) && q.unit == Some(item.unit) && item.active
    && Column(item.columns, "brand_snapshot") == Column(q.columns, "brand")
    && Column(item.columns, "model_snapshot") == Column(q.columns, "model")
    && Column(item.columns, "item_reason") == Column(q.columns, "application_reason")
  }

  /** Once name, quantity and unit are filled in, the single active item shows the header
      and keeps its other fields; the first one is equipment for the warehouse with
      number 1. Before that the items stay. */
  lemma ItemShowsHeader(c: Call, s: Aggregate, used: set<string>, t: Aggregate) returns (i: nat)
    requires ItemsOk(s) && c.command.SaveApplicantFields? && Exec(c, s, used) == Ok(t)
    ensures !Filled(t.request) ==> t.items == s.items
    ensures Filled(t.request) ==>
      && i < |t.items| && ShowsHeader(t.items[i], t.request)
      && (forall j :: 0 <= j < |s.items| && j != i ==> j < |t.items| && t.items[j] == s.items[j] && !s.items[j].active)
      && (if i < |s.items| then KeepsRest(s.items[i], t.items[i]) && |t.items| == |s.items|
          else IsFirstItem(t.items[i], t.request.id) && |t.items| == 1 && s.items == [])
  {
    hide DistinctNumbers, Actives, Column;
    var ids := Actives(s.items);
    i := if ids == [] then |s.items| else ids[0];
    assert forall j :: 0 <= j < |s.items| && s.items[j].active ==> j in ids;
    assert |ids| <= 1;
    MirroredNames(t.request.columns);
  }

  lemma MirroredNames(header: Columns)
    ensures forall before: Columns :: var after := before + MirroredColumns(header);
      && Column(after, "brand_snapshot") == Column(header, "brand")
      && Column(after, "model_snapshot") == Column(header, "model")
      && Column(after, "item_reason") == Column(header, "application_reason")
    ensures Column(MirroredColumns(header), "brand_snapshot") == Column(header, "brand")
    ensures Column(MirroredColumns(header), "model_snapshot") == Column(header, "model")
    ensures Column(MirroredColumns(header), "item_reason") == Column(header, "application_reason")
  {}

  predicate KeepsRest(before: Item, after: Item) {
    && after.request == before.request && after.no == before.no && after.kind == before.kind
    && after.category == before.category && after.model == before.model && after.warehouse == before.warehouse
    && after.active == before.active
  }

  predicate IsFirstItem(item: Item, request: nat) {
    && item.request == request && item.no == 1 && item.kind == Equipment && item.category.None? && item.model.None?
    && item.warehouse
  }

  /** replace_request_items changes the type and the asset of the header, if submitted,
      and nothing else there; the asset exists, and is in the building unless an
      administrator calls. */
  lemma ReplaceHeader(c: Call, s: Aggregate, used: set<string>, t: Aggregate)
    requires c.command.ReplaceItems? && Exec(c, s, used) == Ok(t)
    ensures var (q, q', x, w) := (s.request, t.request, c.command, c.world);
      && q'.requestType == (if x.requestType.Some? then x.requestType.value else q.requestType)
      && IsPatched(q.sourceAsset, q'.sourceAsset, x.asset)
      && q' == q.(version := q.version + 1, requestType := q'.requestType, sourceAsset := q'.sourceAsset)
      && (x.asset.Put? && x.asset.value.Some? ==>
            && x.asset.value.value in w.assets
            && (w.assets[x.asset.value.value] == q.building || w.HasRole(c.actor, Admin)))
  {
    hide Actives, ReplaceLines, MaxNo, Deactivate, DistinctNumbers;
  }

  // ----- receipts

  /** A receipt is one row more, by the caller, for the execution and the quantity it
      names, and raises the total of that execution alone. */
  lemma ReceiptIsRecorded(c: Call, s: Aggregate, used: set<string>, t: Aggregate)
    requires Receives(c.command) && Exec(c, s, used) == Ok(t)
    ensures var x := if c.command.AppendReceipt? then c.command.execution else 0;
      && x < |s.executions| && |t.receipts| == |s.receipts| + 1 && s.receipts <= t.receipts
      && var r := t.receipts[|s.receipts|];
        && r.execution == x && r.keeper == c.actor && r.quantity == c.command.received
        && forall e :: Received(t.receipts, e) == Received(s.receipts, e) + if e == x then c.command.received else 0
  {
    hide Received, Actives, WarehouseItems, LegacyToken;
    var x := if c.command.AppendReceipt? then c.command.execution else 0;
    forall e: nat
      ensures Received(t.receipts, e) == Received(s.receipts, e) + if e == x then c.command.received else 0
    {
      ReceiveOne(s.receipts, Receipt(x, c.actor, c.command.received), e);
    }
  }

  // ----- the derived status

  /** What each status says about an item, its execution and what has arrived. */
  ghost predicate Says(status: FulfillmentStatus, s: Aggregate, i: nat)
    requires i < |s.items|
  {
    var item := s.items[i];
    match status
    case Inactive => !item.active
    case PendingPurchase => item.active && forall e :: 0 <= e < |s.executions| ==> s.executions[e].item != i
    case Purchased =>
      item.active && item.warehouse && exists e: nat :: IsBoughtBy(s, i, e) && Received(s.receipts, e) == 0
    case PartiallyReceived =>
      item.active && item.warehouse
      && exists e: nat :: IsBoughtBy(s, i, e) && 0 < Received(s.receipts, e) < s.executions[e].quantity
    case Fulfilled =>
      item.active
      && exists e: nat :: IsBoughtBy(s, i, e)
                          && (item.warehouse ==> Received(s.receipts, e) == s.executions[e].quantity)
  }

  predicate IsBoughtBy(s: Aggregate, i: nat, e: nat) { e < |s.executions| && s.executions[e].item == i }

  /** In every reachable request the status of an item is the one whose words are true. */
  lemma StatusSays(s: Aggregate, i: nat)
    requires ItemsOk(s) && ExecutionsOk(s) && ReceiptsOk(s) && i < |s.items|
    ensures forall status :: ItemStatus(s, i) == Ok(status) <==> Says(status, s, i)
  {
    hide Received, FindExecution, Actives, DistinctNumbers, ExecutionOk;
    var e := FindExecution(s.executions, i);
    if e.Some? {
      assert IsBoughtBy(s, i, e.value);
      assert forall d: nat :: IsBoughtBy(s, i, d) ==> d == e.value;
      assert ExecutionOk(s.executions[e.value], s.items, s.request.id);
      QuantityPositive(s, e.value);
      if !s.items[i].warehouse {
        assert forall k :: 0 <= k < |s.receipts| ==> ReceiptOk(s.receipts[k], s);
        NothingReceived(s.receipts, e.value);
      }
    } else { assert forall d: nat :: !IsBoughtBy(s, i, d); }
    forall status ensures ItemStatus(s, i) == Ok(status) <==> Says(status, s, i) {
      match status
      case Inactive =>
      case PendingPurchase =>
      case Purchased =>
      case PartiallyReceived =>
      case Fulfilled =>
    }
  }

  lemma QuantityPositive(s: Aggregate, e: nat)
    requires ItemsOk(s) && e < |s.executions| && ExecutionOk(s.executions[e], s.items, s.request.id)
    ensures s.executions[e].quantity > 0
  {
    assert RowOk(s.items[s.executions[e].item], s.request.id);
  }
}
