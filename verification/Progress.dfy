/** After the decision every successful command other than a legacy re-save uses
    up work, so runs are bounded; and no reachable request is ever stuck. */
module Progress {
  import opened Common
  import opened Workflow
  import opened Procurement
  import opened Commands
  import opened Effects
  import opened Invariants
  import opened FulfillmentInvariant
  import opened Lifecycle

  // ----- the measure

  function StatusWork(status: Status): nat {
    match status
    case PendingPurchase => 3
    case Purchasing => 2
    case PendingWarehouse => 1
    case _ => 0
  }

  /** How many of `ids` have no execution yet. */
  function Unbought(executions: seq<Execution>, ids: seq<nat>): nat {
    if ids == [] then 0
    else Unbought(executions, ids[1..]) + if FindExecution(executions, ids[0]).None? then 1 else 0
  }

  function ReceivedFor(s: Aggregate, i: nat): nat {
    var e := FindExecution(s.executions, i);
    if e.None? then 0 else Received(s.receipts, e.value)
  }

  function OwedFor(s: Aggregate, i: nat): nat
    requires i < |s.items|
  {
    var item, received := s.items[i], ReceivedFor(s, i);
    if item.warehouse && received < item.quantity then item.quantity - received else 0
  }

  /** Thousandths the warehouse still has to receive. */
  function Owed(s: Aggregate, ids: seq<nat>): nat
    requires forall k :: 0 <= k < |ids| ==> ids[k] < |s.items|
  {
    if ids == [] then 0 else OwedFor(s, ids[0]) + Owed(s, ids[1..])
  }

  function Work(s: Aggregate): nat {
    StatusWork(s.request.status) + Unbought(s.executions, Actives(s.items)) + Owed(s, Actives(s.items))
  }

  /** A legacy save of an item that already has its execution. */
  predicate Resaves(c: Command, s: Aggregate) {
    c.SavePurchaseFields? && |Actives(s.items)| == 1 && FindExecution(s.executions, Actives(s.items)[0]).Some?
  }

  // ----- the measure falls

  lemma FindAfterAppend(executions: seq<Execution>, x: Execution, i: nat)
    ensures FindExecution(executions + [x], i)
      == if x.item == i then Some(|executions|) else FindExecution(executions, i)
  {
    assert (executions + [x])[..|executions|] == executions;
  }

  lemma {:induction false} OneBought(executions: seq<Execution>, x: Execution, ids: seq<nat>)
    requires NoDuplicates(ids) && FindExecution(executions, x.item).None?
    ensures Unbought(executions + [x], ids) + (if x.item in ids then 1 else 0) == Unbought(executions, ids)
  {
    if ids != [] {
      FindAfterAppend(executions, x, ids[0]);
      OneBought(executions, x, ids[1..]);
      assert x.item in ids <==> x.item == ids[0] || x.item in ids[1..];
    }
  }

  lemma {:induction false} SameOwed(s: Aggregate, t: Aggregate, ids: seq<nat>)
    requires t.items == s.items && forall k :: 0 <= k < |ids| ==> ids[k] < |s.items|
    requires forall k :: 0 <= k < |ids| ==> ReceivedFor(t, ids[k]) == ReceivedFor(s, ids[k])
    ensures Owed(t, ids) == Owed(s, ids)
  {
    hide ReceivedFor;
    if ids != [] { SameOwed(s, t, ids[1..]); }
  }

  lemma {:induction false} LessOwed(s: Aggregate, t: Aggregate, ids: seq<nat>, i: nat, quantity: nat)
    requires t.items == s.items && (forall k :: 0 <= k < |ids| ==> ids[k] < |s.items|)
    requires NoDuplicates(ids) && i < |s.items| && s.items[i].warehouse
    requires forall k :: 0 <= k < |ids| && ids[k] != i ==> ReceivedFor(t, ids[k]) == ReceivedFor(s, ids[k])
    requires ReceivedFor(t, i) == ReceivedFor(s, i) + quantity <= s.items[i].quantity
    ensures Owed(t, ids) + (if i in ids then quantity else 0) == Owed(s, ids)
  {
    hide ReceivedFor;
    if ids != [] {
      LessOwed(s, t, ids[1..], i, quantity);
      assert i in ids <==> i == ids[0] || i in ids[1..];
    }
  }

  lemma PurchaseShape(w: World, actor: nat, expected: nat, s: Aggregate, itemId: nat, f: PurchaseFields,
                      token: Option<string>, allowUpdate: bool, used: set<string>, t: Aggregate)
    requires DoSavePurchaseItem(w, actor, expected, s, itemId, f, token, allowUpdate, used) == Ok(t)
    requires FindExecution(s.executions, itemId).None?
    ensures itemId < |s.items| && s.items[itemId].active && s.request.status == Purchasing
    ensures |t.executions| == |s.executions| + 1
    ensures var x := t.executions[|s.executions|]; x.item == itemId && t.executions == s.executions + [x]
  {
    hide FindExecution, ResolveSupplier;
  }

  lemma PurchaseUsesWork(w: World, actor: nat, expected: nat, s: Aggregate, itemId: nat, f: PurchaseFields,
                         token: Option<string>, allowUpdate: bool, used: set<string>, t: Aggregate)
    requires Inv(s)
    requires DoSavePurchaseItem(w, actor, expected, s, itemId, f, token, allowUpdate, used) == Ok(t)
    requires t.items == s.items && t.receipts == s.receipts && t.request.status == s.request.status
    requires FindExecution(s.executions, itemId).None?
    ensures Work(t) + 1 == Work(s)
  {
    hide ItemsOk, RoundsOk, SnapshotsOk, ExecutionsOk, DoSavePurchaseItem, FindExecution, Actives, Received;
    PurchaseShape(w, actor, expected, s, itemId, f, token, allowUpdate, used, t);
    var ids, x := Actives(s.items), t.executions[|s.executions|];
    assert itemId in ids;
    OneBought(s.executions, x, ids);
    forall k | 0 <= k < |ids| ensures ReceivedFor(t, ids[k]) == ReceivedFor(s, ids[k]) {
      FindAfterAppend(s.executions, x, ids[k]);
      NothingReceived(s.receipts, |s.executions|);
    }
    SameOwed(s, t, ids);
  }

  lemma ReceiptShape(w: World, actor: nat, expected: nat, s: Aggregate, token: string, e: nat, quantity: nat,
                     used: set<string>, t: Aggregate)
    requires ExecutionsOk(s)
    requires DoAppendReceipt(w, actor, expected, s, token, e, quantity, used) == Ok(t)
    ensures e < |s.executions| && t.receipts == s.receipts + [Receipt(e, actor, quantity)]
    ensures quantity > 0 && Received(s.receipts, e) + quantity <= s.executions[e].quantity
    ensures s.executions[e].item < |s.items| && s.items[s.executions[e].item].warehouse
    ensures s.items[s.executions[e].item].active && s.executions[e].quantity == s.items[s.executions[e].item].quantity
  {
    hide Received, FindExecution, Actives;
    assert e < |s.executions|;
    assert ExecutionOk(s.executions[e], s.items, s.request.id);
  }

  lemma ReceiptUsesWork(w: World, actor: nat, expected: nat, s: Aggregate, token: string, e: nat, quantity: nat,
                        used: set<string>, t: Aggregate)
    requires Inv(s)
    requires DoAppendReceipt(w, actor, expected, s, token, e, quantity, used) == Ok(t)
    requires t.items == s.items && t.executions == s.executions && t.request.status == s.request.status
    ensures Work(t) + quantity == Work(s) && quantity > 0
  {
    hide ItemsOk, RoundsOk, SnapshotsOk, DoAppendReceipt, FindExecution, Actives, Received, ReceiptsOk, ExecutionOk;
    ReceiptShape(w, actor, expected, s, token, e, quantity, used, t);
    var ids, i := Actives(s.items), s.executions[e].item;
    assert i in ids;
    assert FindExecution(s.executions, i) == Some(e);
    forall d: nat ensures Received(t.receipts, d) == Received(s.receipts, d) + if d == e then quantity else 0 {
      ReceiveOne(s.receipts, Receipt(e, actor, quantity), d);
    }
    LessOwed(s, t, ids, i, quantity);
  }

  /** Every successful command after the decision, other than a re-save, uses up work. */
  lemma StepUsesWork(c: Call, s: Aggregate, used: set<string>, t: Aggregate)
    requires Inv(s) && Decided(s.request.status) && Exec(c, s, used) == Ok(t) && !Resaves(c.command, s)
    ensures Work(t) < Work(s)
  {
    hide Inv, DoReplaceItems, DoSaveApplicantFields, DoSaveReviewItems, DoSaveReviewFields, DoSendToReview, DoReject,
      DoSendToPurchaser, DoBeginPurchase, DoSavePurchaseItem, DoSendToWarehouse, DoAppendReceipt, DoFinish, Actives,
      LegacyToken, WarehouseItems, FindExecution, Received, Unbought;
    ExecEffects(c, s, t, used);
    match c.command
    case SavePurchaseFields(f) =>
      PurchaseUsesWork(c.world, c.actor, c.expected, s, Actives(s.items)[0], f, None, true, used, t);
    case SavePurchaseItem(i, token, f) =>
      FirstPurchase(c.world, c.actor, c.expected, s, i, f, Some(token), used, t);
      PurchaseUsesWork(c.world, c.actor, c.expected, s, i, f, Some(token), false, used, t);
    case AppendReceipt(token, e, q) => ReceiptUsesWork(c.world, c.actor, c.expected, s, token, e, q, used, t);
    case SaveWarehouseFields(q, _) =>
      ReceiptUsesWork(c.world, c.actor, c.expected, s, LegacyToken(s.request.id, c.expected), 0, q, used, t);
    case _ => OwedOfRows(s, t);
  }

  lemma FirstPurchase(w: World, actor: nat, expected: nat, s: Aggregate, itemId: nat, f: PurchaseFields,
                      token: Option<string>, used: set<string>, t: Aggregate)
    requires DoSavePurchaseItem(w, actor, expected, s, itemId, f, token, false, used) == Ok(t)
    ensures FindExecution(s.executions, itemId).None?
  {
    hide FindExecution, ResolveSupplier;
  }

  lemma OwedOfRows(s: Aggregate, t: Aggregate)
    requires t.items == s.items && t.executions == s.executions && t.receipts == s.receipts
    ensures Owed(t, Actives(t.items)) == Owed(s, Actives(s.items))
  {
    hide Actives, FindExecution, Received;
    SameOwed(s, t, Actives(s.items));
  }

  predicate AllSucceed(s: Aggregate, turns: seq<Turn>) {
    forall k :: 0 <= k < |turns| ==>
      var u := Run(s, turns[..k]);
      Exec(turns[k].call, u, turns[k].used).Ok? && !Resaves(turns[k].call.command, u)
  }

  /** Termination: from a decided request, a run of successful commands without
      legacy re-saves has at most Work(s) turns. */
  lemma {:induction false} RunsAreBounded(s: Aggregate, turns: seq<Turn>)
    requires Inv(s) && Decided(s.request.status) && AllSucceed(s, turns)
    ensures Work(Run(s, turns)) + |turns| <= Work(s)
  {
    hide Exec, Inv, Work, Resaves;
    if turns != [] {
      var n := |turns| - 1;
      var front, last := turns[..n], turns[n];
      assert AllSucceed(s, front) by {
        forall k | 0 <= k < n ensures front[k] == turns[k] && front[..k] == turns[..k] {}
      }
      RunsAreBounded(s, front);
      ReachableOk(s, front);
      RunAdvances(s, front);
      StepUsesWork(last.call, Run(s, front), last.used, Run(s, turns));
    }
  }
}
