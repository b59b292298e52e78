/** What every reachable request keeps. Each predicate is inductive together with
    the ones before it; StepKeepsInvariant (Lifecycle.dfy) closes the induction. */
module Invariants {
  import opened Common
  import opened Money
  import opened Workflow
  import opened Procurement
  import opened Commands

  predicate RowOk(item: Item, request: nat) {
    item.request == request && item.no > 0 && item.quantity > 0 && !(item.kind == Service && item.warehouse)
  }

  /** Items: well-formed, uniquely numbered, and never all inactive; only a draft
      may have none. */
  predicate ItemsOk(s: Aggregate) {
    && (forall i :: 0 <= i < |s.items| ==> RowOk(s.items[i], s.request.id))
    && DistinctNumbers(s.items)
    && (Actives(s.items) == [] ==> s.items == [] && s.request.status == Status.Draft)
  }

  /** Custody: somebody holds the request until it completes, and the applicant
      holds drafts and rejected requests. */
  predicate CustodyOk(q: Request) {
    && (q.handler.None? <==> q.status == Completed)
    && (q.status in {Status.Draft, Rejected} ==> q.handler == Some(q.applicant))
  }

  predicate Decided(status: Status) { status in {PendingPurchase, Purchasing, PendingWarehouse, Completed} }

  /** Rounds are numbered 1..n; only the last can be open, and only during
      review, in its handler's name; all closed rounds were rejected except that
      a decided request ends in an approved one. */
  predicate RoundsOk(s: Aggregate) {
    var n := |s.reviews|;
    && (forall k :: 0 <= k < n ==> s.reviews[k].round == k + 1)
    && (forall k :: 0 <= k < n && s.reviews[k].status == Open ==>
          k == n - 1 && s.request.status == PendingReview && s.request.handler == Some(s.reviews[k].reviewer))
    && (forall k :: 0 <= k < n && s.reviews[k].status == Closed ==>
          s.reviews[k].verdict == Some(if Decided(s.request.status) && k == n - 1 then Approved else RejectedBy))
    && (Decided(s.request.status) ==> n > 0 && s.reviews[n - 1].status == Closed)
  }

  predicate UniqueReviewItems(rows: seq<ReviewItem>) {
    forall j, k :: 0 <= j < k < |rows| ==> !(rows[j].review == rows[k].review && rows[j].item == rows[k].item)
  }

  /** Review items belong to a round, once per item; the open round lists active
      items only, the approved round lists exactly the active items. */
  predicate SnapshotsOk(s: Aggregate) {
    && (forall k :: 0 <= k < |s.reviewItems| ==>
          s.reviewItems[k].review < |s.reviews| && s.reviewItems[k].item < |s.items|)
    && UniqueReviewItems(s.reviewItems)
    && (forall k :: 0 <= k < |s.reviewItems| && s.reviews[s.reviewItems[k].review].status == Open ==>
          s.items[s.reviewItems[k].item].active)
    && (Decided(s.request.status) && s.reviews != [] ==>
          ReviewedItems(s.reviewItems, |s.reviews| - 1) == (set i | i in Actives(s.items)))
  }

  /** Executions exist from purchasing on, at most one per item, for active items,
      with the item's quantity and the rounded total; after purchasing every
      active item has one. */
  predicate ExecutionsOk(s: Aggregate) {
    && (s.executions != [] ==> s.request.status in {Purchasing, PendingWarehouse, Completed})
    && (forall e :: 0 <= e < |s.executions| ==> ExecutionOk(s.executions[e], s.items, s.request.id))
    && (forall d, e :: 0 <= d < e < |s.executions| ==> s.executions[d].item != s.executions[e].item)
    && (s.request.status in {PendingWarehouse, Completed} ==>
          forall i :: i in Actives(s.items) ==> FindExecution(s.executions, i).Some?)
  }

  predicate ExecutionOk(e: Execution, items: seq<Item>, request: nat) {
    && e.request == request && e.item < |items| && items[e.item].active
    && e.quantity == items[e.item].quantity && e.total == LineTotal(e.quantity, e.unitPrice)
  }

  /** Receipts exist from the warehouse stage on, for warehouse items, never
      beyond the purchased quantity; a completed request received all of it. */
  predicate ReceiptsOk(s: Aggregate) {
    && (s.receipts != [] ==> s.request.status in {PendingWarehouse, Completed})
    && (forall k :: 0 <= k < |s.receipts| ==> ReceiptOk(s.receipts[k], s))
    && (forall e :: 0 <= e < |s.executions| ==> Received(s.receipts, e) <= s.executions[e].quantity)
    && (s.request.status == Completed ==>
          forall e ::
            (0 <= e < |s.executions| && s.executions[e].item < |s.items| && s.items[s.executions[e].item].warehouse) ==>
              Received(s.receipts, e) == s.executions[e].quantity)
  }

  predicate ReceiptOk(r: Receipt, s: Aggregate) {
    && r.quantity > 0 && r.execution < |s.executions|
    && s.executions[r.execution].item < |s.items| && s.items[s.executions[r.execution].item].warehouse
  }

  predicate Inv(s: Aggregate) {
    ItemsOk(s) && CustodyOk(s.request) && RoundsOk(s) && SnapshotsOk(s) && ExecutionsOk(s) && ReceiptsOk(s)
  }
}
