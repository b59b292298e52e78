/** What each command of ProcurementService does to the rows of one request:
    the specification the imperative service (Service.dfy) is proved against.
    `used` is the set of action tokens in the whole operation log. */
module Commands {
  import opened Common
  import opened Money
  import opened Workflow
  import opened Procurement
  import opened Fulfillment

  datatype ItemInput = ItemInput(
    itemId: Option<nat>, no: Option<nat>, kind: Kind, category: Option<nat>, model: Option<nat>,
    name: string, quantity: nat, unit: string, warehouse: Option<bool>, columns: Columns)

  datatype ReviewInput = ReviewInput(
    item: nat, supplierId: Option<nat>, unitPrice: Option<nat>, totalPrice: Option<nat>, columns: Columns)

  datatype ReviewFields = ReviewFields(
    supplierId: Patch<nat>, supplierName: Patch<string>, unitPrice: Patch<nat>, totalPrice: Patch<nat>,
    columns: Columns)

  datatype PurchaseFields = PurchaseFields(
    supplierId: Option<nat>, unitPrice: nat, totalPrice: Option<nat>, columns: Columns)

  datatype Command =
    | ReplaceItems(requestType: Option<RequestType>, asset: Patch<nat>, lines: seq<ItemInput>)
    | SaveApplicantFields(name: Patch<string>, quantity: Patch<nat>, unit: Patch<string>, columns: Columns)
    | SaveReviewItems(advice: seq<ReviewInput>)
    | SaveReviewFields(review: ReviewFields)
    | SendToReview(again: bool, token: string, assignee: Option<nat>)
    | RejectRequest(token: string, reason: string)
    | SendToPurchaser(token: string, assignee: Option<nat>)
    | BeginPurchase(token: string)
    | SavePurchaseFields(fields: PurchaseFields)
    | SavePurchaseItem(item: nat, token: string, fields: PurchaseFields)
    | SendToWarehouse(token: string, assignee: Option<nat>)
    | SaveWarehouseFields(received: nat, remark: bool)
    | AppendReceipt(token: string, execution: nat, received: nat)
    | Finish(token: string)

  /** One call of an endpoint: who calls, what, against which version, and the
      surroundings at that moment. */
  datatype Call = Call(world: World, actor: nat, expected: nat, command: Command)

  // ----- checks shared by the commands

  /** _require_current_handler */
  function CurrentHandler(w: World, actor: nat, q: Request, role: Role): Outcome {
    if !w.HasRole(actor, role) then Fail(PermissionDenied)
    else if q.handler != Some(actor) then Fail(PermissionDenied)
    else if role == BuildingManager && !w.BelongsTo(actor, q.building) then Fail(BuildingNotAllowed)
    else Pass
  }

  /** The compare-and-set of bump_version: the request row moves to the next
      version only while the expected version and an allowed status stand. */
  predicate CasHolds(q: Request, expected: nat, allowed: set<Status>) {
    q.version == expected && q.status in allowed
  }

  function Bump(q: Request, expected: nat, allowed: set<Status>): Result<Request> {
    if CasHolds(q, expected, allowed) then Ok(q.(version := q.version + 1)) else Err(ConcurrentModification)
  }

  /** The schema bounds: positive quantities and numbers, at least one line. */
  predicate SchemaOk(c: Command) {
    match c
    case ReplaceItems(_, _, lines) =>
      lines != [] && forall k :: 0 <= k < |lines| ==> lines[k].quantity > 0 && lines[k].no != Some(0)
    case SaveApplicantFields(_, quantity, _, _) => quantity != Put(Some(0))
    case SaveReviewItems(advice) => advice != []
    case SaveWarehouseFields(received, _) => received > 0
    case AppendReceipt(_, _, received) => received > 0
    case _ => true
  }

  // ----- replace_request_items

  /** Loop state: the rows so far, the next automatic number, the rows kept and
      the numbers seen. */
  datatype LineState = LineState(items: seq<Item>, nextNo: nat, kept: set<nat>, seen: set<nat>)

  function LineValues(old_: Item, line: ItemInput): Item {
    old_.(kind := line.kind, category := line.category, model := line.model,
          name := Strip(line.name), quantity := line.quantity, unit := Strip(line.unit),
          warehouse := line.warehouse.GetOr(line.kind != Service), active := true, columns := line.columns)
  }

  function LineChecks(w: World, line: ItemInput): Outcome {
    if line.kind == Service && line.warehouse == Some(true) then Fail(ValidationError)
    else if line.model.None? then Pass
    else if line.model.value !in w.models then Fail(EquipmentModelNotFound)
    else if line.category.Some? && w.models[line.model.value] != line.category.value then Fail(ModelCategoryMismatch)
    else Pass
  }

  function BlankItem(request: nat, no: nat): Item {
    Item(request, no, Equipment, None, None, "", 0, "", false, false, map[])
  }

  /** One turn of the payload loop; `before` is the number of stored rows. */
  function ReplaceLine(w: World, request: nat, before: nat, d: LineState, line: ItemInput): Result<LineState>
    requires before <= |d.items|
  {
    var checked := LineChecks(w, line);
    :- checked;
    if line.itemId.None? then
      var no := line.no.GetOr(d.nextNo);
      :- Check(no !in d.seen, ValidationError);
      Ok(LineState(d.items + [LineValues(BlankItem(request, no), line)],
               if no + 1 > d.nextNo then no + 1 else d.nextNo, d.kept, d.seen + {no}))
    else
      var i := line.itemId.value;
      :- Check(i < before, RequestItemNotFound);
      var no := d.items[i].no;
      :- Check(line.no.None? || line.no.value == no, ValidationError);
      :- Check(no !in d.seen, ValidationError);
      Ok(LineState(d.items[i := LineValues(d.items[i], line)], d.nextNo, d.kept + {i}, d.seen + {no}))
  }

  function ReplaceLines(w: World, request: nat, before: nat, d: LineState,
                        lines: seq<ItemInput>): (r: Result<LineState>)
    requires before <= |d.items|
    ensures r.Ok? ==> |d.items| <= |r.value.items|
    decreases |lines|
  {
    if lines == [] then Ok(d)
    else
      var d' :- ReplaceLine(w, request, before, d, lines[0]);
      ReplaceLines(w, request, before, d', lines[1..])
  }

  /** Stored rows that the payload did not mention become inactive. */
  function Deactivate(items: seq<Item>, before: nat, kept: set<nat>): seq<Item>
    requires before <= |items|
  {
    seq(|items|, i requires 0 <= i < |items| =>
      if i < before && i !in kept then items[i].(active := false) else items[i])
  }

  function StartLines(items: seq<Item>): LineState { LineState(items, MaxNo(items) + 1, {}, {}) }

  function AssetCheck(w: World, actor: nat, q: Request, asset: Patch<nat>): Outcome {
    match asset
    case Put(Some(a)) =>
      if a !in w.assets then Fail(AssetNotFound)
      else if w.assets[a] != q.building && !w.HasRole(actor, Admin) then Fail(BuildingNotAllowed)
      else Pass
    case _ => Pass
  }

  function DoReplaceItems(w: World, actor: nat, expected: nat, s: Aggregate,
                          requestType: Option<RequestType>, asset: Patch<nat>,
                          lines: seq<ItemInput>): Result<Aggregate> {
    var q := s.request;
    :- Check(q.status in {Status.Draft, Rejected}, InvalidStatus);
    :- Check(q.applicant == actor, PermissionDenied);
    :- Check(w.HasRole(actor, Applicant), PermissionDenied);
    :- Check(q.version == expected, ConcurrentModification);
    :- AssetCheck(w, actor, q, asset);
    var d :- ReplaceLines(w, q.id, |s.items|, StartLines(s.items), lines);
    var items := Deactivate(d.items, |s.items|, d.kept);
    :- Check(DistinctNumbers(items), IntegrityError);
    var q' :- Bump(q, expected, {Status.Draft, Rejected});
    Ok(s.(items := items,
          request := q'.(requestType := requestType.GetOr(q.requestType), sourceAsset := asset.Over(q.sourceAsset))))
  }

  // ----- save_applicant_fields (legacy single-item path)

  predicate ApplicantMayEdit(w: World, actor: nat, q: Request) {
    w.HasRole(actor, Applicant) && q.applicant == actor && q.status in {Status.Draft, Rejected}
  }

  predicate ManagerMayEdit(w: World, actor: nat, q: Request) {
    && w.HasRole(actor, BuildingManager) && q.handler == Some(actor)
    && q.status == PendingReview && w.InBuilding(actor, q.building)
  }

  function EditedHeader(q: Request, name: Patch<string>, quantity: Patch<nat>, unit: Patch<string>,
                        columns: Columns): Request {
    q.(deviceName := name.Over(q.deviceName), quantity := quantity.Over(q.quantity), unit := unit.Over(q.unit),
       columns := q.columns + columns)
  }

  /** The columns the single item takes over from the header. */
  function MirroredColumns(header: Columns): Columns {
    map["brand_snapshot" := Column(header, "brand"), "model_snapshot" := Column(header, "model"),
        "item_reason" := Column(header, "application_reason")]
  }

  /** The single item mirrors the header fields once all three are filled in. */
  function MirrorItem(q: Request, items: seq<Item>): seq<Item> {
    if q.deviceName.GetOr("") == "" || q.quantity.GetOr(0) == 0 || q.unit.GetOr("") == "" then items
    else
      var ids := Actives(items);
      if ids == [] then
        items + [Item(q.id, 1, Equipment, None, None, q.deviceName.value, q.quantity.value, q.unit.value, true, true,
                      MirroredColumns(q.columns))]
      else
        var item := items[ids[0]];
        items[ids[0] := item.(name := q.deviceName.value, quantity := q.quantity.value, unit := q.unit.value,
                              columns := item.columns + MirroredColumns(q.columns))]
  }

  function DoSaveApplicantFields(w: World, actor: nat, expected: nat, s: Aggregate,
                                 name: Patch<string>, quantity: Patch<nat>, unit: Patch<string>,
                                 columns: Columns): Result<Aggregate> {
    var q := s.request;
    var manager := ManagerMayEdit(w, actor, q);
    :- Check(ApplicantMayEdit(w, actor, q) || manager, InvalidStatus);
    :- Check(q.version == expected, ConcurrentModification);
    var q' :- Bump(q, expected, if manager then {PendingReview} else {Status.Draft, Rejected});
    var header := EditedHeader(q', name, quantity, unit, columns);
    :- Check(|Actives(s.items)| <= 1, MultiItemNotSupported);
    var items := MirrorItem(header, s.items);
    :- Check(DistinctNumbers(items), IntegrityError);
    Ok(s.(request := header, items := items))
  }

  /** The reply of save_applicant_fields: the required header fields that are still empty,
      in this order. */
  function MissingHeader(q: Request): seq<string> {
    MissingColumns(q.columns, ["device_profession"])
    + (if q.deviceName.GetOr("") == "" then ["device_name"] else [])
    + (if q.quantity.None? then ["quantity"] else [])
    + (if q.unit.GetOr("") == "" then ["unit"] else [])
    + MissingColumns(q.columns, ["application_reason"])
  }

  function MissingColumns(columns: Columns, names: seq<string>): seq<string> {
    if names == [] then []
    else
      var rest := MissingColumns(columns, names[1..]);
      if Column(columns, names[0]).GetOr("") == "" then [names[0]] + rest else rest
  }

  /** The reply of save_review_fields; the flag need_contract is the text "true" when set. */
  function MissingAdvice(r: Review): seq<string> {
    (if r.unitPrice.None? then ["estimated_unit_price"] else [])
    + MissingColumns(r.columns, ["payment_method", "expected_arrival_date", "warranty_info"])
    + (if r.supplierId.None? && r.supplierName.GetOr("") == "" then ["proposed_supplier"] else [])
    + (if Column(r.columns, "need_contract") == Some("true") && Column(r.columns, "contract_type").GetOr("") == ""
       then ["contract_type"] else [])
  }

  // ----- review rounds

  /** The columns of a new round or snapshot. */
  function Unadvised(): Columns { map["need_contract" := Some("false")] }

  /** _get_or_create_review: the reviews afterwards and the open one's row id. */
  function WithOpenReview(reviews: seq<Review>, reviewer: nat): (r: (seq<Review>, nat))
    ensures r.1 < |r.0| && r.0[r.1].status == Open
  {
    var open := OpenReview(reviews);
    if open.Some? then (reviews, open.value)
    else (reviews + [BlankRound(NextRound(reviews), reviewer)], |reviews|)
  }

  function BlankRound(round: nat, reviewer: nat): Review {
    Review(round, Open, None, None, reviewer, None, None, None, None, Unadvised())
  }

  function Snapshot(r: nat, i: nat, item: Item): ReviewItem {
    ReviewItem(r, i, item.quantity, item.kind, item.name, item.unit,
               Column(item.columns, "brand_snapshot"), Column(item.columns, "model_snapshot"),
               None, None, None, None, Unadvised())
  }

  /** _ensure_review_snapshots: one snapshot for each of `ids` without one. */
  function WithSnapshots(items: seq<Item>, r: nat, existing: set<nat>, rows: seq<ReviewItem>,
                         ids: seq<nat>): seq<ReviewItem>
    requires forall k :: 0 <= k < |ids| ==> ids[k] < |items|
    decreases |ids|
  {
    if ids == [] then rows
    else
      var rows' := if ids[0] in existing then rows else rows + [Snapshot(r, ids[0], items[ids[0]])];
      WithSnapshots(items, r, existing, rows', ids[1..])
  }

  function ReviewedItems(rows: seq<ReviewItem>, r: nat): set<nat> {
    set k | 0 <= k < |rows| && rows[k].review == r :: rows[k].item
  }

  /** The open round with a snapshot of every active item. */
  function OpenRound(s: Aggregate, reviewer: nat): (r: (Aggregate, nat))
    ensures r.1 < |r.0.reviews| && r.0.reviews[r.1].status == Open
  {
    var (reviews, r) := WithOpenReview(s.reviews, reviewer);
    (s.(reviews := reviews,
        reviewItems := WithSnapshots(s.items, r, ReviewedItems(s.reviewItems, r), s.reviewItems, Actives(s.items))), r)
  }

  /** The price check of both review paths. */
  function EstimateTotal(quantity: nat, unitPrice: Option<nat>, supplied: Option<nat>,
                         kept: Option<nat>): Result<Option<nat>> {
    if unitPrice.Some? then
      var total := LineTotal(quantity, unitPrice.value);
      if supplied.Some? && supplied.value != total then Err(ValidationError) else Ok(Some(total))
    else if supplied.Some? then Err(ValidationError)
    else Ok(kept)
  }

  function ReviewLine(w: World, items: seq<Item>, r: nat, stored: seq<ReviewItem>, rows: seq<ReviewItem>,
                      line: ReviewInput): Result<seq<ReviewItem>>
    requires line.item < |items| && |stored| <= |rows|
  {
    var found := line.supplierId.None? || w.UsableSupplier(line.supplierId.value);
    :- Check(found, SupplierNotFound);
    var total :- EstimateTotal(items[line.item].quantity, line.unitPrice, line.totalPrice, None);
    var k := FindReviewItem(stored, r, line.item);
    var row := if k.Some? then rows[k.value] else Snapshot(r, line.item, items[line.item]);
    var named := if line.supplierId.Some? then Some(w.suppliers[line.supplierId.value].name) else None;
    var row' := row.(supplierId := line.supplierId, supplierName := named, unitPrice := line.unitPrice,
                     totalPrice := total, columns := line.columns);
    Ok(if k.Some? then rows[k.value := row'] else rows + [row'])
  }

  function ReviewLines(w: World, items: seq<Item>, r: nat, stored: seq<ReviewItem>, rows: seq<ReviewItem>,
                       advice: seq<ReviewInput>): Result<seq<ReviewItem>>
    requires forall k :: 0 <= k < |advice| ==> advice[k].item < |items|
    requires |stored| <= |rows|
    decreases |advice|
  {
    if advice == [] then Ok(rows)
    else
      var rows' :- ReviewLine(w, items, r, stored, rows, advice[0]);
      ReviewLines(w, items, r, stored, rows', advice[1..])
  }

  function DoSaveReviewItems(w: World, actor: nat, expected: nat, s: Aggregate,
                             advice: seq<ReviewInput>): Result<Aggregate> {
    var q := s.request;
    :- CurrentHandler(w, actor, q, BuildingManager);
    :- Check(q.status == PendingReview, InvalidStatus);
    :- Check(q.version == expected, ConcurrentModification);
    var named := set k | 0 <= k < |advice| :: advice[k].item;
    var ids := Actives(s.items);
    :- Check(named == (set i | i in ids), MissingRequiredFields);
    var (t, r) := OpenRound(s, actor);
    assert forall k :: 0 <= k < |advice| ==> advice[k].item in named;
    var rows :- ReviewLines(w, s.items, r, t.reviewItems, t.reviewItems, advice);
    var q' :- Bump(q, expected, {PendingReview});
    Ok(t.(request := q', reviewItems := rows))
  }

  /** The round with the legacy advice: a supplier by name clears the id, one by id
      brings its name along; the total follows from the price. */
  function AdvisedReview(w: World, quantity: nat, old_: Review, f: ReviewFields): Result<Review> {
    var named := f.supplierName.Put? && f.supplierName.value.Some?;
    var chosen := !named && f.supplierId.Put? && f.supplierId.value.Some?;
    :- Check(!chosen || w.UsableSupplier(f.supplierId.value.value), SupplierNotFound);
    var supplierId := if named then None else f.supplierId.Over(old_.supplierId);
    var supplierName :=
      if named then Some(Strip(f.supplierName.value.value))
      else if chosen then Some(w.suppliers[f.supplierId.value.value].name)
      else f.supplierName.Over(old_.supplierName);
    var unitPrice := f.unitPrice.Over(old_.unitPrice);
    var total :- EstimateTotal(quantity, unitPrice, f.totalPrice.Over(None), old_.totalPrice);
    Ok(old_.(supplierId := supplierId, supplierName := supplierName, unitPrice := unitPrice,
             totalPrice := total, columns := old_.columns + f.columns))
  }

  const MIRRORED :=
    {"supplier_contact_name", "supplier_contact_info", "supplier_link", "need_contract", "contract_type",
     "payment_method", "expected_arrival_date", "warranty_info"}

  /** The columns the review item takes over from the round. */
  function MirroredAdvice(round: Columns): Columns {
    (map name | name in MIRRORED :: Column(round, name)) + map["item_remark" := Column(round, "review_remark")]
  }

  function DoSaveReviewFields(w: World, actor: nat, expected: nat, s: Aggregate, f: ReviewFields): Result<Aggregate> {
    var q := s.request;
    :- CurrentHandler(w, actor, q, BuildingManager);
    :- Check(q.status == PendingReview, InvalidStatus);
    :- Check(q.version == expected, ConcurrentModification);
    var (reviews, r) := WithOpenReview(s.reviews, actor);
    var ids := Actives(s.items);
    :- Check(|ids| == 1, MultiItemNotSupported);
    var item := s.items[ids[0]];
    var new_ :- AdvisedReview(w, item.quantity, reviews[r], f);
    var ks := RowsOf(s.reviewItems, r);
    var row := if ks == [] then Snapshot(r, ids[0], item) else s.reviewItems[ks[0]];
    var row' := row.(supplierId := new_.supplierId, supplierName := new_.supplierName, unitPrice := new_.unitPrice,
                     totalPrice := new_.totalPrice, columns := row.columns + MirroredAdvice(new_.columns));
    var q' :- Bump(q, expected, {PendingReview});
    Ok(s.(request := q', reviews := reviews[r := new_],
          reviewItems := if ks == [] then s.reviewItems + [row'] else s.reviewItems[ks[0] := row']))
  }

  // ----- transitions

  function ValidateActor(w: World, actor: nat, q: Request, rule: Rule): Outcome {
    if !w.HasRole(actor, rule.required) then Fail(PermissionDenied)
    else if rule.required == Applicant && q.applicant != actor then Fail(PermissionDenied)
    else if rule.required != Applicant && q.handler != Some(actor) then Fail(PermissionDenied)
    else if rule.required == BuildingManager && !w.BelongsTo(actor, q.building) then Fail(BuildingNotAllowed)
    else Pass
  }

  function NextHandler(w: World, q: Request, rule: Rule, assignee: Option<nat>): Result<Option<nat>> {
    if rule.clearHandler then Ok(None)
    else if rule.assignToApplicant then Ok(Some(q.applicant))
    else if rule.target.None? then Ok(q.handler)
    else if assignee.None? then Err(InvalidHandler)
    else
      var building := if rule.target.value == BuildingManager then Some(q.building) else None;
      if w.ValidHandler(assignee.value, rule.target.value, building) then Ok(assignee)
    else Err(InvalidHandler)
  }

  /** WorkflowService.transition */
  function Transition(w: World, actor: nat, expected: nat, s: Aggregate, op: Operation, token: string,
                      assignee: Option<nat>, toOverride: Option<Status>, summary: Option<string>,
                      used: set<string>): Result<Aggregate> {
    var q := s.request;
    :- Check(token !in used, DuplicateOperation);
    var rule := RuleOf(op);
    var to := toOverride.GetOr(rule.to);
    :- ValidateActor(w, actor, q, rule);
    :- Check(q.version == expected, ConcurrentModification);
    :- Check(q.status == rule.from, InvalidStatus);
    var handler :- if to == Completed then Ok(None) else NextHandler(w, q, rule, assignee);
    var q' :- Bump(q, expected, {rule.from});
    Ok(s.(request := q'.(status := to, handler := handler),
          log := s.log + [LogEntry(actor, handler, Some(token), Moved(op), Some(rule.from), to, summary, w.now)]))
  }

  // ----- notifications

  function NotifyHandler(w: World, s: Aggregate, event: Event, token: string): Aggregate {
    if s.request.handler.Some? && w.HasFeishu(s.request.handler.value)
    then s.(outbox := s.outbox + [Note(event, token, s.request.handler.value)])
    else s
  }

  function Insert(x: nat, sorted: seq<nat>): seq<nat> {
    if sorted == [] || x < sorted[0] then [x] + sorted
    else if x == sorted[0] then sorted
    else [sorted[0]] + Insert(x, sorted[1..])
  }

  /** The applicant, the last reviewer and the first purchaser, once each, ascending. */
  function Receivers(s: Aggregate): seq<nat> {
    var r := LatestReview(s.reviews);
    var e := FirstExecution(s.executions);
    var one := [s.request.applicant];
    var two := if r.Some? then Insert(s.reviews[r.value].reviewer, one) else one;
    if e.Some? then Insert(s.executions[e.value].purchaser, two) else two
  }

  function CompletionNotes(w: World, receivers: seq<nat>, token: string): seq<Note> {
    if receivers == [] then []
    else (if w.HasFeishu(receivers[0]) then [Note(CompletedEvent, token, receivers[0])] else [])
         + CompletionNotes(w, receivers[1..], token)
  }

  function NotifyCompletion(w: World, s: Aggregate, token: string): Aggregate {
    s.(outbox := s.outbox + CompletionNotes(w, Receivers(s), token))
  }

  // ----- submit_review, reject, submit_purchaser

  function DoSendToReview(w: World, actor: nat, expected: nat, s: Aggregate, again: bool, token: string,
                          assignee: Option<nat>, used: set<string>): Result<Aggregate> {
    var ids := Actives(s.items);
    :- Check(ids != [] && forall i :: i in ids ==> IsComplete(s.items[i]), MissingRequiredFields);
    var op := if again then ResubmitReview else SubmitReview;
    var t :- Transition(w, actor, expected, s, op, token, assignee, None, None, used);
    Ok(NotifyHandler(w, t, PendingReviewEvent, token))
  }

  function Conclude(s: Aggregate, r: nat, verdict: Verdict, opinion: Option<string>): Aggregate
    requires r < |s.reviews|
  {
    var old_ := s.reviews[r];
    s.(reviews := s.reviews[r := old_.(status := Closed, verdict := Some(verdict),
                                      opinion := if opinion.Some? then opinion else old_.opinion)])
  }

  function DoReject(w: World, actor: nat, expected: nat, s: Aggregate, token: string, reason: string,
                    used: set<string>): Result<Aggregate> {
    var q := s.request;
    :- CurrentHandler(w, actor, q, BuildingManager);
    var (t, r) := OpenRound(s, actor);
    var closed := Conclude(t, r, RejectedBy, Some(reason));
    Transition(w, actor, expected, closed, Reject, token, None, None, Some(reason), used)
  }

  function DoSendToPurchaser(w: World, actor: nat, expected: nat, s: Aggregate, token: string, assignee: Option<nat>,
                             used: set<string>): Result<Aggregate> {
    var q := s.request;
    :- CurrentHandler(w, actor, q, BuildingManager);
    var (t, r) := OpenRound(s, actor);
    :- Check(|RowsOf(t.reviewItems, r)| == |Actives(t.items)|, MissingRequiredFields);
    var closed := Conclude(t, r, Approved, None);
    var u :- Transition(w, actor, expected, closed, SubmitPurchaser, token, assignee, None, None, used);
    Ok(NotifyHandler(w, u, PendingPurchaseEvent, token))
  }

  function DoBeginPurchase(w: World, actor: nat, expected: nat, s: Aggregate, token: string,
                           used: set<string>): Result<Aggregate> {
    Transition(w, actor, expected, s, StartPurchase, token, None, None, None, used)
  }

  // ----- purchasing

  /** _resolve_purchase_supplier: the supplier, and the reviews with the name
      path's choice written back. */
  function ResolveSupplier(w: World, reviews: seq<Review>, supplierId: Option<nat>): Result<(nat, seq<Review>)> {
    if supplierId.Some? then
      var id := supplierId.value;
      if !w.UsableSupplier(id) then Err(SupplierNotFound)
      else if w.suppliers[id].blacklisted then Err(SupplierBlacklisted)
      else Ok((id, reviews))
    else
      var r := LatestReview(reviews);
      if r.None? then Err(SupplierNotFound)
      else if reviews[r.value].supplierName.None? then Err(InternalError)
      else
        var name := Strip(reviews[r.value].supplierName.value);
        if name == "" then Err(SupplierNotFound)
        else
          var id := if name in w.supplierNamed then w.supplierNamed[name] else w.newSupplier;
          Ok((id, reviews[r.value := reviews[r.value].(supplierId := Some(id))]))
  }

  function DoSavePurchaseItem(w: World, actor: nat, expected: nat, s: Aggregate, itemId: nat, f: PurchaseFields,
                              token: Option<string>, allowUpdate: bool, used: set<string>): Result<Aggregate> {
    var q := s.request;
    :- CurrentHandler(w, actor, q, Purchaser);
    :- Check(q.status == Purchasing, InvalidStatus);
    :- Check(q.version == expected, ConcurrentModification);
    :- Check(token.None? || token.value !in used, DuplicateOperation);
    var (supplier, reviews) :- ResolveSupplier(w, s.reviews, f.supplierId);
    :- Check(itemId < |s.items| && s.items[itemId].request == q.id, RequestItemNotFound);
    var item := s.items[itemId];
    var e := FindExecution(s.executions, itemId);
    :- ValidateExecution(item, if e.Some? then Some(s.executions[e.value]) else None);
    :- Check(e.None? || allowUpdate, ItemAlreadyPurchased);
    var total := LineTotal(item.quantity, f.unitPrice);
    :- Check(f.totalPrice.None? || f.totalPrice.value == total, ValidationError);
    var executions :=
      if e.None? then
        s.executions + [Execution(q.id, itemId, actor, supplier, f.unitPrice, item.quantity, total, f.columns)]
      else
        s.executions[e.value := s.executions[e.value].(supplier := supplier, unitPrice := f.unitPrice, total := total,
                                                       columns := f.columns)];
    var q' :- Bump(q, expected, {Purchasing});
    Ok(s.(request := q', reviews := reviews, executions := executions,
          log := if token.None? then s.log
                 else s.log
                   + [LogEntry(actor, Some(actor), token, PurchaseItem, Some(q.status), q.status, None, w.now)]))
  }

  function DoSavePurchaseFields(w: World, actor: nat, expected: nat, s: Aggregate, f: PurchaseFields,
                                used: set<string>): Result<Aggregate> {
    var ids := Actives(s.items);
    :- Check(|ids| == 1, MultiItemNotSupported);
    DoSavePurchaseItem(w, actor, expected, s, ids[0], f, None, true, used)
  }

  // ----- warehouse and completion

  predicate NeedsWarehouse(s: Aggregate) {
    exists i :: i in Actives(s.items) && s.items[i].warehouse
  }

  function DoSendToWarehouse(w: World, actor: nat, expected: nat, s: Aggregate, token: string, assignee: Option<nat>,
                             used: set<string>): Result<Aggregate> {
    var ready := Actives(s.items) != [] && AllExecuted(s.items, s.executions);
    :- Check(ready, MissingRequiredFields);
    var needs := NeedsWarehouse(s);
    var t :- Transition(w, actor, expected, s, SubmitWarehouse, token, assignee,
                        Some(if needs then PendingWarehouse else Completed), None, used);
    Ok(if needs then NotifyHandler(w, t, PendingWarehouseEvent, token) else NotifyCompletion(w, t, token))
  }

  function DoAppendReceipt(w: World, actor: nat, expected: nat, s: Aggregate, token: string, e: nat, quantity: nat,
                           used: set<string>): Result<Aggregate> {
    var q := s.request;
    :- CurrentHandler(w, actor, q, WarehouseManager);
    :- Check(q.status == PendingWarehouse, InvalidStatus);
    :- Check(q.version == expected, ConcurrentModification);
    :- Check(token !in used, DuplicateOperation);
    :- Check(e < |s.executions| && s.executions[e].request == q.id, ExecutionNotFound);
    var execution := s.executions[e];
    :- Check(execution.item < |s.items|, FulfillmentInvariantViolation);
    :- ValidateReceipt(s.items[execution.item], execution, Received(s.receipts, e), quantity);
    var q' :- Bump(q, expected, {PendingWarehouse});
    Ok(s.(request := q', receipts := s.receipts + [Receipt(e, actor, quantity)],
          log := s.log
            + [LogEntry(actor, Some(actor), Some(token), Action.AppendReceipt, Some(q.status), q.status, None, w.now)]))
  }

  /** str() of a non-negative integer. */
  function Decimal(n: nat): string {
    if n < 10 then ['0' + n as char] else Decimal(n / 10) + ['0' + (n % 10) as char]
  }

  function LegacyToken(request: nat, expected: nat): string {
    "legacy-" + Decimal(request) + "-" + Decimal(expected)
  }

  function WarehouseItems(items: seq<Item>, ids: seq<nat>): seq<nat>
    requires forall k :: 0 <= k < |ids| ==> ids[k] < |items|
  {
    if ids == [] then []
    else (if items[ids[0]].warehouse then [ids[0]] else []) + WarehouseItems(items, ids[1..])
  }

  function DoSaveWarehouseFields(w: World, actor: nat, expected: nat, s: Aggregate, received: nat, remark: bool,
                                 used: set<string>): Result<Aggregate> {
    var single := |WarehouseItems(s.items, Actives(s.items))| == 1 && |s.executions| == 1;
    :- Check(single, MultiItemNotSupported);
    :- Check(forall k :: 0 <= k < |s.receipts| ==> s.receipts[k].execution != 0, MultiItemNotSupported);
    :- Check(received >= s.executions[0].quantity || remark, ValidationError);
    DoAppendReceipt(w, actor, expected, s, LegacyToken(s.request.id, expected), 0, received, used)
  }

  /** The fulfilment check of complete: every active item is derived (which may
      raise), then every warehouse item must be fulfilled. */
  function CompletionCheck(s: Aggregate, ids: seq<nat>): Result<bool>
    requires forall k :: 0 <= k < |ids| ==> ids[k] < |s.items|
  {
    if ids == [] then Ok(true)
    else
      var status :- ItemStatus(s, ids[0]);
      var rest :- CompletionCheck(s, ids[1..]);
      Ok((s.items[ids[0]].warehouse ==> status == Fulfilled) && rest)
  }

  function DoFinish(w: World, actor: nat, expected: nat, s: Aggregate, token: string,
                    used: set<string>): Result<Aggregate> {
    var done :- CompletionCheck(s, Actives(s.items));
    :- Check(done, MissingRequiredFields);
    var t :- Transition(w, actor, expected, s, Complete, token, None, None, None, used);
    Ok(NotifyCompletion(w, t, token))
  }

  // ----- all commands

  /** create_draft */
  function NewRequest(w: World, actor: nat, id: nat, building: nat): Result<Aggregate> {
    var applicant := w.HasRole(actor, Applicant);
    :- Check(applicant, PermissionDenied);
    :- Check(w.BelongsTo(actor, building), BuildingNotAllowed);
    Ok(Aggregate(Request(id, building, actor, Status.Draft, Some(actor), 0, None, None, None, Purchase, None, map[]),
                 [], [], [], [], [],
                 [LogEntry(actor, Some(actor), None, CreateDraft, None, Status.Draft, None, w.now)], []))
  }

  function Exec(c: Call, s: Aggregate, used: set<string>): Result<Aggregate> {
    var w, a, v := c.world, c.actor, c.expected;
    :- Check(SchemaOk(c.command), ValidationError);
    match c.command
    case ReplaceItems(requestType, asset, lines) => DoReplaceItems(w, a, v, s, requestType, asset, lines)
    case SaveApplicantFields(name, quantity, unit, columns) =>
      DoSaveApplicantFields(w, a, v, s, name, quantity, unit, columns)
    case SaveReviewItems(advice) => DoSaveReviewItems(w, a, v, s, advice)
    case SaveReviewFields(review) => DoSaveReviewFields(w, a, v, s, review)
    case SendToReview(again, token, assignee) => DoSendToReview(w, a, v, s, again, token, assignee, used)
    case RejectRequest(token, reason) => DoReject(w, a, v, s, token, reason, used)
    case SendToPurchaser(token, assignee) => DoSendToPurchaser(w, a, v, s, token, assignee, used)
    case BeginPurchase(token) => DoBeginPurchase(w, a, v, s, token, used)
    case SavePurchaseFields(fields) => DoSavePurchaseFields(w, a, v, s, fields, used)
    case SavePurchaseItem(item, token, fields) => DoSavePurchaseItem(w, a, v, s, item, fields, Some(token), false, used)
    case SendToWarehouse(token, assignee) => DoSendToWarehouse(w, a, v, s, token, assignee, used)
    case SaveWarehouseFields(received, remark) => DoSaveWarehouseFields(w, a, v, s, received, remark, used)
    case AppendReceipt(token, execution, received) => DoAppendReceipt(w, a, v, s, token, execution, received, used)
    case Finish(token) => DoFinish(w, a, v, s, token, used)
  }
}
