/** ExecutionsOk and ReceiptsOk are kept; conservation of received quantity; what
    a completed request means; the fulfilment branches that cannot be reached. */
module FulfillmentInvariant {
  import opened Common
  import opened Money
  import opened Workflow
  import opened Procurement
  import opened Fulfillment
  import opened Commands
  import opened Effects
  import opened Invariants

  // ----- executions

  lemma PurchaseKeepsExecutions(w: World, actor: nat, expected: nat, s: Aggregate, itemId: nat, f: PurchaseFields,
                                token: Option<string>, allowUpdate: bool, used: set<string>, t: Aggregate)
    requires ExecutionsOk(s)
    requires DoSavePurchaseItem(w, actor, expected, s, itemId, f, token, allowUpdate, used) == Ok(t)
    ensures ExecutionsOk(t)
    ensures |s.executions| <= |t.executions|
    ensures forall e :: 0 <= e < |s.executions| ==>
      t.executions[e].item == s.executions[e].item && t.executions[e].quantity == s.executions[e].quantity
    ensures s.request.status == Purchasing
  {
    hide ResolveSupplier, Actives, LineTotal, FindExecution;
  }

  lemma StepKeepsExecutions(c: Call, s: Aggregate, used: set<string>, t: Aggregate)
    requires ExecutionsOk(s) && Exec(c, s, used) == Ok(t)
    ensures ExecutionsOk(t)
    ensures |s.executions| <= |t.executions|
    ensures forall e :: 0 <= e < |s.executions| ==>
      t.executions[e].item == s.executions[e].item && t.executions[e].quantity == s.executions[e].quantity
  {
    hide Actives, DoReplaceItems, DoSaveApplicantFields, DoSaveReviewItems, DoSaveReviewFields, DoSendToReview,
      DoReject, DoSendToPurchaser, DoBeginPurchase, DoSavePurchaseItem, DoAppendReceipt, DoFinish, LegacyToken,
      WarehouseItems, NeedsWarehouse, Receivers, CompletionNotes, ExecutionOk, FindExecution, DoSendToWarehouse;
    ExecEffects(c, s, t, used);
    match c.command
    case SavePurchaseFields(f) =>
      PurchaseKeepsExecutions(c.world, c.actor, c.expected, s, Actives(s.items)[0], f, None, true, used, t);
    case SavePurchaseItem(i, token, f) =>
      PurchaseKeepsExecutions(c.world, c.actor, c.expected, s, i, f, Some(token), false, used, t);
    case SendToWarehouse(_, _) => SubmittedIsExecuted(c, s, used, t);
    case _ =>
  }

  lemma SubmittedIsExecuted(c: Call, s: Aggregate, used: set<string>, t: Aggregate)
    requires c.command.SendToWarehouse? && Exec(c, s, used) == Ok(t)
    ensures AllExecuted(s.items, s.executions)
  {
    hide Actives, NeedsWarehouse, Receivers, CompletionNotes, FindExecution, Transition;
  }

  // ----- receipts

  lemma {:induction false} NothingReceived(receipts: seq<Receipt>, e: nat)
    requires forall k :: 0 <= k < |receipts| ==> receipts[k].execution != e
    ensures Received(receipts, e) == 0
  {
    if receipts != [] { NothingReceived(receipts[..|receipts| - 1], e); }
  }

  lemma ReceiveOne(receipts: seq<Receipt>, r: Receipt, e: nat)
    ensures Received(receipts + [r], e) == Received(receipts, e) + if r.execution == e then r.quantity else 0
  {
    assert (receipts + [r])[..|receipts|] == receipts;
  }

  lemma ReceiptKeepsReceipts(w: World, actor: nat, expected: nat, s: Aggregate, token: string, e: nat, quantity: nat,
                             used: set<string>, t: Aggregate)
    requires ExecutionsOk(s) && ReceiptsOk(s)
    requires DoAppendReceipt(w, actor, expected, s, token, e, quantity, used) == Ok(t)
    ensures ReceiptsOk(t)
    ensures s.receipts <= t.receipts
    ensures forall d :: 0 <= d < |s.executions| ==> Received(s.receipts, d) <= Received(t.receipts, d)
  {
    hide Received, FindExecution, Actives, ExecutionOk;
    forall d | 0 <= d < |s.executions|
      ensures Received(s.receipts, d) <= Received(t.receipts, d) <= t.executions[d].quantity
    {
      ReceiveOne(s.receipts, Receipt(e, actor, quantity), d);
    }
  }

  /** complete's check: true exactly if every listed warehouse item is fulfilled. */
  lemma {:induction false} CompletionCheckMeaning(s: Aggregate, ids: seq<nat>)
    requires forall k :: 0 <= k < |ids| ==> ids[k] < |s.items|
    requires CompletionCheck(s, ids).Ok?
    ensures CompletionCheck(s, ids).value <==>
      forall k :: 0 <= k < |ids| && s.items[ids[k]].warehouse ==> ItemStatus(s, ids[k]) == Ok(Fulfilled)
  {
    hide ItemStatus;
    if ids != [] {
      CompletionCheckMeaning(s, ids[1..]);
      assert forall k :: 0 <= k < |ids[1..]| ==> ids[1..][k] == ids[k + 1];
    }
  }

  lemma FinishMeansReceived(c: Call, s: Aggregate, used: set<string>, t: Aggregate)
    requires ExecutionsOk(s) && ReceiptsOk(s) && s.request.status == PendingWarehouse
    requires c.command.Finish? && Exec(c, s, used) == Ok(t)
    ensures forall e :: 0 <= e < |s.executions| && s.items[s.executions[e].item].warehouse ==>
      Received(s.receipts, e) == s.executions[e].quantity
  {
    hide Received, Transition, CompletionNotes, Receivers, CompletionCheck, Actives, FindExecution;
    var ids := Actives(s.items);
    CompletionCheckMeaning(s, ids);
    forall e | 0 <= e < |s.executions| && s.items[s.executions[e].item].warehouse
      ensures Received(s.receipts, e) == s.executions[e].quantity
    {
      var i := s.executions[e].item;
      assert ExecutionOk(s.executions[e], s.items, s.request.id);
      assert i in ids;
      var k :| 0 <= k < |ids| && ids[k] == i;
      assert ItemStatus(s, ids[k]) == Ok(Fulfilled);
      assert FindExecution(s.executions, i) == Some(e);
    }
  }

  lemma StepKeepsReceipts(c: Call, s: Aggregate, used: set<string>, t: Aggregate)
    requires ExecutionsOk(s) && ReceiptsOk(s) && Exec(c, s, used) == Ok(t)
    ensures ReceiptsOk(t) && s.receipts <= t.receipts
    ensures forall e :: 0 <= e < |s.executions| ==> Received(s.receipts, e) <= Received(t.receipts, e)
  {
    hide Actives, DoReplaceItems, DoSaveApplicantFields, DoSaveReviewItems, DoSaveReviewFields, DoSendToReview,
      DoReject, DoSendToPurchaser, DoBeginPurchase, DoSavePurchaseItem, DoAppendReceipt, DoFinish, DoSendToWarehouse,
      LegacyToken, WarehouseItems, FindExecution, Received, ExecutionOk;
    ExecEffects(c, s, t, used);
    StepKeepsExecutions(c, s, used, t);
    match c.command
    case AppendReceipt(token, e, q) => ReceiptKeepsReceipts(c.world, c.actor, c.expected, s, token, e, q, used, t);
    case SaveWarehouseFields(q, _) =>
      ReceiptKeepsReceipts(c.world, c.actor, c.expected, s, LegacyToken(s.request.id, c.expected), 0, q, used, t);
    case Finish(_) => FinishMeansReceived(c, s, used, t);
    case SendToWarehouse(_, _) => if t.request.status == Completed { NothingToReceive(s); }
    case SavePurchaseFields(_) => ReceivedOfNothing();
    case SavePurchaseItem(_, _, _) => ReceivedOfNothing();
    case _ =>
  }

  lemma ReceivedOfNothing()
    ensures forall e :: Received([], e) == 0
  {}

  lemma NothingToReceive(s: Aggregate)
    requires ExecutionsOk(s) && !NeedsWarehouse(s)
    ensures forall e :: 0 <= e < |s.executions| && s.executions[e].item < |s.items| ==>
      !s.items[s.executions[e].item].warehouse
  {
    hide Actives, FindExecution;
    forall e | 0 <= e < |s.executions| ensures !s.items[s.executions[e].item].warehouse {
      assert ExecutionOk(s.executions[e], s.items, s.request.id);
      assert s.executions[e].item in Actives(s.items);
    }
  }

  // ----- what completion means

  /** Execution `e` is the only one of item `i`, buys all of it, and all of it
      arrived if it goes through the warehouse. */
  predicate FulfilledBy(s: Aggregate, i: nat, e: nat) {
    && i < |s.items| && e < |s.executions| && s.executions[e].item == i
    && s.executions[e].quantity == s.items[i].quantity
    && (s.items[i].warehouse ==> Received(s.receipts, e) == s.items[i].quantity)
    && (forall d :: 0 <= d < |s.executions| && s.executions[d].item == i ==> d == e)
  }

  /** A completed request: every active item has exactly one execution, for its
      full quantity; every active warehouse item was received to the last
      thousandth; and every active item derives as FULFILLED. */
  lemma CompletedMeansFulfilled(s: Aggregate, i: nat)
    requires ExecutionsOk(s) && ReceiptsOk(s) && s.request.status == Completed
    requires i < |s.items| && s.items[i].active
    ensures exists e :: FulfilledBy(s, i, e)
    ensures ItemStatus(s, i) == Ok(Fulfilled)
  {
    hide Received, Actives, FindExecution;
    assert i in Actives(s.items);
    var e := FindExecution(s.executions, i).value;
    assert ExecutionOk(s.executions[e], s.items, s.request.id);
    assert FulfilledBy(s, i, e);
    StatusNeverRaises(s, i);
  }

  // ----- unreachable branches

  lemma StatusNeverRaises(s: Aggregate, i: nat)
    requires ExecutionsOk(s) && ReceiptsOk(s) && i < |s.items|
    ensures ItemStatus(s, i).Ok?
  {
    hide Received, Actives, FindExecution;
    var e := FindExecution(s.executions, i);
    if e.Some? && !s.items[i].warehouse {
      assert forall k :: 0 <= k < |s.receipts| ==> ReceiptOk(s.receipts[k], s);
      NothingReceived(s.receipts, e.value);
    }
  }

  lemma {:induction false} CheckNeverRaises(s: Aggregate, ids: seq<nat>)
    requires ExecutionsOk(s) && ReceiptsOk(s)
    requires forall k :: 0 <= k < |ids| ==> ids[k] < |s.items|
    ensures CompletionCheck(s, ids).Ok?
  {
    hide ItemStatus, ExecutionsOk, ReceiptsOk;
    if ids != [] { StatusNeverRaises(s, ids[0]); CheckNeverRaises(s, ids[1..]); }
  }
}
