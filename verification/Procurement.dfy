/** The rows of one purchase request and the queries the repository runs on
    them. Rows are never deleted, so a table is a sequence and a row's id is its
    index. Quantities are in thousandths, prices in cents. */
module Procurement {
  import opened Common
  import opened Workflow

  datatype Kind = Equipment | Component | Material | Service | Tool

  datatype RequestType = Purchase | Maintenance | Fault | Retirement

  /** Descriptive columns by name; an absent name is a null column. No rule reads them. */
  type Columns = map<string, Option<string>>

  function Column(columns: Columns, name: string): Option<string> {
    if name in columns then columns[name] else None
  }

  /** Submitted columns are written, the others stay. */
  ghost predicate WrittenOver(before: Columns, after: Columns, written: Columns) {
    forall name: string :: Column(after, name) == if name in written then written[name] else Column(before, name)
  }

  datatype Request = Request(
    id: nat, building: nat, applicant: nat,
    status: Status, handler: Option<nat>, version: nat,
    deviceName: Option<string>, quantity: Option<nat>, unit: Option<string>,
    requestType: RequestType, sourceAsset: Option<nat>, columns: Columns)

  datatype Item = Item(
    request: nat, no: nat, kind: Kind, category: Option<nat>, model: Option<nat>,
    name: string, quantity: nat, unit: string, warehouse: bool, active: bool, columns: Columns)

  datatype ReviewStatus = Open | Closed

  datatype Verdict = Approved | RejectedBy

  datatype Review = Review(
    round: nat, status: ReviewStatus, verdict: Option<Verdict>, opinion: Option<string>,
    reviewer: nat, supplierId: Option<nat>, supplierName: Option<string>,
    unitPrice: Option<nat>, totalPrice: Option<nat>, columns: Columns)

  /** The six fields after the keys are the snapshot of the item. */
  datatype ReviewItem = ReviewItem(
    review: nat, item: nat,
    quantity: nat, kind: Kind, name: string, unit: string, brand: Option<string>, modelName: Option<string>,
    supplierId: Option<nat>, supplierName: Option<string>, unitPrice: Option<nat>, totalPrice: Option<nat>,
    columns: Columns)

  datatype Execution = Execution(
    request: nat, item: nat, purchaser: nat, supplier: nat,
    unitPrice: nat, quantity: nat, total: nat, columns: Columns)

  datatype Receipt = Receipt(execution: nat, keeper: nat, quantity: nat)

  datatype Action = CreateDraft | Moved(op: Operation) | PurchaseItem | AppendReceipt

  datatype LogEntry = LogEntry(
    operator: nat, assignedTo: Option<nat>, token: Option<string>, action: Action,
    from: Option<Status>, to: Status, summary: Option<string>, at: int)

  datatype Event = PendingReviewEvent | PendingPurchaseEvent | PendingWarehouseEvent | CompletedEvent

  /** A row of notification_outbox; its dedup key is built from all three. */
  datatype Note = Note(event: Event, token: string, receiver: nat)

  datatype Aggregate = Aggregate(
    request: Request, items: seq<Item>, reviews: seq<Review>, reviewItems: seq<ReviewItem>,
    executions: seq<Execution>, receipts: seq<Receipt>, log: seq<LogEntry>, outbox: seq<Note>)

  // ----- request items

  /** Ids of the active items. */
  function Actives(items: seq<Item>): (ids: seq<nat>)
    ensures forall i :: i in ids <==> 0 <= i < |items| && items[i].active
    ensures forall k :: 0 <= k < |ids| ==> ids[k] < |items| && items[ids[k]].active
    ensures NoDuplicates(ids)
  {
    if items == [] then []
    else
      var n := |items| - 1;
      Actives(items[..n]) + if items[n].active then [n] else []
  }

  function MaxNo(items: seq<Item>): (no: nat)
    ensures forall i :: 0 <= i < |items| ==> items[i].no <= no
    ensures items == [] ==> no == 0
  {
    if items == [] then 0
    else
      var n := |items| - 1;
      var m := MaxNo(items[..n]);
      if items[n].no > m then items[n].no else m
  }

  predicate DistinctNumbers(items: seq<Item>) {
    forall i, j :: 0 <= i < j < |items| ==> items[i].no != items[j].no
  }

  predicate IsComplete(item: Item) {
    Strip(item.name) != "" && item.quantity > 0 && Strip(item.unit) != ""
  }

  // ----- review rounds

  /** get_active_review: the open review with the highest round. */
  function OpenReview(reviews: seq<Review>): (r: Option<nat>)
    ensures r.Some? ==> r.value < |reviews| && reviews[r.value].status == Open
    ensures r.Some? ==> forall i :: 0 <= i < |reviews| && reviews[i].status == Open ==>
      reviews[i].round <= reviews[r.value].round
    ensures r.None? ==> forall i :: 0 <= i < |reviews| ==> reviews[i].status != Open
  {
    if reviews == [] then None
    else
      var n := |reviews| - 1;
      var before := OpenReview(reviews[..n]);
      if reviews[n].status == Open && (before.None? || reviews[before.value].round <= reviews[n].round)
      then Some(n) else before
  }

  /** get_latest_review: the review with the highest round. */
  function LatestReview(reviews: seq<Review>): (r: Option<nat>)
    ensures r.None? <==> reviews == []
    ensures r.Some? ==> r.value < |reviews|
    ensures r.Some? ==> forall i :: 0 <= i < |reviews| ==> reviews[i].round <= reviews[r.value].round
  {
    if reviews == [] then None
    else
      var n := |reviews| - 1;
      var before := LatestReview(reviews[..n]);
      if before.None? || reviews[before.value].round <= reviews[n].round then Some(n) else before
  }

  function NextRound(reviews: seq<Review>): nat {
    var latest := LatestReview(reviews);
    if latest.None? then 1 else reviews[latest.value].round + 1
  }

  /** Row id of the review item of item `i` in review `r`. */
  function FindReviewItem(rows: seq<ReviewItem>, r: nat, i: nat): (k: Option<nat>)
    ensures k.Some? ==> k.value < |rows| && rows[k.value].review == r && rows[k.value].item == i
    ensures k.None? ==> forall j :: 0 <= j < |rows| ==> !(rows[j].review == r && rows[j].item == i)
  {
    if rows == [] then None
    else
      var n := |rows| - 1;
      if rows[n].review == r && rows[n].item == i then Some(n) else FindReviewItem(rows[..n], r, i)
  }

  /** Row ids of the items of review `r`. */
  function RowsOf(rows: seq<ReviewItem>, r: nat): (ks: seq<nat>)
    ensures forall k :: k in ks <==> 0 <= k < |rows| && rows[k].review == r
    ensures forall j :: 0 <= j < |ks| ==> ks[j] < |rows| && rows[ks[j]].review == r
    ensures NoDuplicates(ks)
  {
    if rows == [] then []
    else
      var n := |rows| - 1;
      var before := RowsOf(rows[..n], r);
      assert n !in before;
      before + if rows[n].review == r then [n] else []
  }

  // ----- executions and receipts

  function FindExecution(executions: seq<Execution>, item: nat): (e: Option<nat>)
    ensures e.Some? ==> e.value < |executions| && executions[e.value].item == item
    ensures e.None? ==> forall k :: 0 <= k < |executions| ==> executions[k].item != item
  {
    if executions == [] then None
    else
      var n := |executions| - 1;
      if executions[n].item == item then Some(n) else FindExecution(executions[..n], item)
  }

  /** get_execution: the execution of the lowest item id. */
  function FirstExecution(executions: seq<Execution>): (e: Option<nat>)
    ensures e.None? <==> executions == []
    ensures e.Some? ==> e.value < |executions|
    ensures e.Some? ==> forall k :: 0 <= k < |executions| ==> executions[e.value].item <= executions[k].item
  {
    if executions == [] then None
    else
      var n := |executions| - 1;
      var before := FirstExecution(executions[..n]);
      if before.None? || executions[n].item < executions[before.value].item then Some(n) else before
  }

  /** get_received_total: what has been received so far for execution `e`. */
  function Received(receipts: seq<Receipt>, e: nat): nat {
    if receipts == [] then 0
    else
      var n := |receipts| - 1;
      Received(receipts[..n], e) + if receipts[n].execution == e then receipts[n].quantity else 0
  }

  // ----- action tokens

  function Tokens(log: seq<LogEntry>): set<string> {
    set k | 0 <= k < |log| && log[k].token.Some? :: log[k].token.value
  }
}
