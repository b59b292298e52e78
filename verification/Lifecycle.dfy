/** Runs of one request from create_draft, and what holds over all of them. */
module Lifecycle {
  import opened Common
  import opened Money
  import opened Workflow
  import opened Procurement
  import opened Fulfillment
  import opened Commands
  import opened Effects
  import opened Invariants
  import opened ItemInvariant
  import opened ReviewInvariant
  import opened FulfillmentInvariant

  /** One call, and the action tokens in the operation log when it arrives. */
  datatype Turn = Turn(call: Call, used: set<string>)

  /** A failing call is rolled back as a whole. */
  function After(s: Aggregate, turn: Turn): Aggregate {
    match Exec(turn.call, s, turn.used) case Ok(t) => t case Err(_) => s
  }

  function Run(s: Aggregate, turns: seq<Turn>): Aggregate {
    if turns == [] then s else After(Run(s, turns[..|turns| - 1]), turns[|turns| - 1])
  }

  lemma FreshRequestOk(w: World, actor: nat, id: nat, building: nat, s: Aggregate)
    requires NewRequest(w, actor, id, building) == Ok(s)
    ensures Inv(s)
  {}

  lemma StepKeepsCustody(c: Call, s: Aggregate, used: set<string>, t: Aggregate)
    requires CustodyOk(s.request) && Exec(c, s, used) == Ok(t)
    ensures CustodyOk(t.request)
  {
    hide Exec, NeedsWarehouse, LegacyToken;
    ExecEffects(c, s, t, used);
  }

  lemma StepKeepsInvariant(c: Call, s: Aggregate, used: set<string>, t: Aggregate)
    requires Inv(s) && Exec(c, s, used) == Ok(t)
    ensures Inv(t)
  {
    hide Exec, ItemsOk, CustodyOk, RoundsOk, SnapshotsOk, ExecutionsOk, ReceiptsOk;
    StepKeepsItems(c, s, used, t);
    StepKeepsCustody(c, s, used, t);
    StepKeepsRounds(c, s, used, t);
    StepKeepsSnapshots(c, s, used, t);
    StepKeepsExecutions(c, s, used, t);
    StepKeepsReceipts(c, s, used, t);
  }

  /** Every reachable request satisfies the invariant. */
  lemma {:induction false} ReachableOk(s: Aggregate, turns: seq<Turn>)
    requires Inv(s)
    ensures Inv(Run(s, turns))
  {
    hide Exec, Inv;
    if turns != [] {
      var front, last := turns[..|turns| - 1], turns[|turns| - 1];
      ReachableOk(s, front);
      var u := Run(s, front);
      var r := Exec(last.call, u, last.used);
      if r.Ok? { StepKeepsInvariant(last.call, u, last.used, r.value); }
    }
  }

  /** Completion, over all runs: however the request got there, every active item
      has one execution for its full quantity, every active warehouse item was
      received exactly, and every active item is FULFILLED. */
  lemma CompletedRunIsFulfilled(w: World, actor: nat, id: nat, building: nat, s: Aggregate, turns: seq<Turn>)
    requires NewRequest(w, actor, id, building) == Ok(s)
    requires Run(s, turns).request.status == Completed
    ensures var t := Run(s, turns); forall i :: 0 <= i < |t.items| && t.items[i].active ==>
      ItemStatus(t, i) == Ok(Fulfilled) && exists e :: FulfilledBy(t, i, e)
  {
    hide Exec, ItemStatus, FulfilledBy, Run, NewRequest;
    FreshRequestOk(w, actor, id, building, s);
    ReachableOk(s, turns);
    var t := Run(s, turns);
    forall i | 0 <= i < |t.items| && t.items[i].active
      ensures ItemStatus(t, i) == Ok(Fulfilled) && exists e :: FulfilledBy(t, i, e)
    {
      CompletedMeansFulfilled(t, i);
    }
  }

  // ----- money

  function LinesOf(executions: seq<Execution>): seq<Line> {
    if executions == [] then []
    else [Line(executions[0].quantity, executions[0].unitPrice)] + LinesOf(executions[1..])
  }

  /** The sum of the stored totals. */
  function Spent(executions: seq<Execution>): nat {
    if executions == [] then 0 else executions[0].total + Spent(executions[1..])
  }

  lemma {:induction false} SpentIsRounded(executions: seq<Execution>)
    requires forall e :: e in executions ==> e.total == LineTotal(e.quantity, e.unitPrice)
    ensures Spent(executions) == RoundedTotal(LinesOf(executions)) && |LinesOf(executions)| == |executions|
  {
    hide LineTotal;
    if executions != [] {
      SpentIsRounded(executions[1..]);
      assert LinesOf(executions)[1..] == LinesOf(executions[1..]);
    }
  }

  /** In every reachable request each stored total is the rounded product, also
      after legacy re-saves, and n totals together are within n half cents of the
      exact sum. */
  lemma ReachableTotals(w: World, actor: nat, id: nat, building: nat, s: Aggregate, turns: seq<Turn>)
    requires NewRequest(w, actor, id, building) == Ok(s)
    ensures var es := Run(s, turns).executions;
      && (forall e :: e in es ==> e.total == RoundHalfEven(e.quantity * e.unitPrice))
      && -500 * |es| <= 1000 * Spent(es) - ExactTotal(LinesOf(es)) <= 500 * |es|
  {
    hide Exec, Run, NewRequest, RoundHalfEven;
    FreshRequestOk(w, actor, id, building, s);
    ReachableOk(s, turns);
    var t := Run(s, turns);
    assert forall k :: 0 <= k < |t.executions| ==> ExecutionOk(t.executions[k], t.items, t.request.id);
    SpentIsRounded(t.executions);
    SumWithinHalfCents(LinesOf(t.executions));
  }

  // ----- conservation

  /** What never goes back from `a` to `b`: executions keep their item and
      quantity, receipts are only appended, received totals only grow and stay
      within the purchase, and after the decision an item's status only advances. */
  predicate Advances(a: Aggregate, b: Aggregate) {
    && |a.executions| <= |b.executions| && a.receipts <= b.receipts
    && (Decided(a.request.status) ==> Decided(b.request.status) && b.items == a.items)
    && (forall e :: 0 <= e < |a.executions| ==>
          && b.executions[e].item == a.executions[e].item && b.executions[e].quantity == a.executions[e].quantity
          && Received(a.receipts, e) <= Received(b.receipts, e) <= b.executions[e].quantity)
  }

  lemma StepAdvances(c: Call, s: Aggregate, used: set<string>, t: Aggregate)
    requires Inv(s) && Exec(c, s, used) == Ok(t)
    ensures Advances(s, t)
  {
    hide Exec, ItemsOk, CustodyOk, RoundsOk, SnapshotsOk, ExecutionsOk, NeedsWarehouse, LegacyToken, Actives;
    ExecEffects(c, s, t, used);
    StepKeepsExecutions(c, s, used, t);
    StepKeepsReceipts(c, s, used, t);
  }

  lemma {:induction false} RunAdvances(s: Aggregate, turns: seq<Turn>)
    requires Inv(s)
    ensures Advances(s, Run(s, turns))
  {
    hide Exec;
    if turns != [] {
      var front, last := turns[..|turns| - 1], turns[|turns| - 1];
      RunAdvances(s, front);
      ReachableOk(s, front);
      var u := Run(s, front);
      if Exec(last.call, u, last.used).Ok? {
        StepAdvances(last.call, u, last.used, Exec(last.call, u, last.used).value);
      }
    }
  }

  /** From the decision on, the derived status of an item only moves forward. */
  lemma StatusOnlyAdvances(s: Aggregate, turns: seq<Turn>, i: nat)
    requires Inv(s) && Decided(s.request.status) && i < |s.items|
    ensures var t := Run(s, turns);
      && i < |t.items| && ItemStatus(s, i).Ok? && ItemStatus(t, i).Ok?
      && Rank(ItemStatus(s, i).value) <= Rank(ItemStatus(t, i).value)
  {
    hide Exec, Run, Received, Actives, FindExecution;
    var t := Run(s, turns);
    ReachableOk(s, turns);
    RunAdvances(s, turns);
    StatusNeverRaises(s, i);
    StatusNeverRaises(t, i);
    var e := FindExecution(s.executions, i);
    if e.Some? { assert FindExecution(t.executions, i) == e; }
  }

  // ----- unreachable errors

  /** No command on a reachable request ever raises the fulfilment invariant
      error, and only the explicit numbers of replace_request_items can meet a
      table constraint. */
  lemma InvariantErrorsUnreachable(c: Call, s: Aggregate, used: set<string>)
    requires Inv(s)
    ensures Exec(c, s, used) != Err(FulfillmentInvariantViolation)
    ensures Exec(c, s, used) == Err(IntegrityError) ==> c.command.ReplaceItems?
  {
    hide ItemsOk, RoundsOk, SnapshotsOk, ExecutionsOk, ReceiptsOk, DoReplaceItems, DoSaveApplicantFields,
      DoSaveReviewItems, DoSaveReviewFields, DoSendToReview, DoReject, DoSendToPurchaser, DoBeginPurchase,
      DoSavePurchaseItem, DoSendToWarehouse, DoAppendReceipt, DoFinish, Actives, LegacyToken, WarehouseItems, Received;
    match c.command
    case ReplaceItems(requestType, asset, lines) =>
      ReplaceRaises(c.world, c.actor, c.expected, s, requestType, asset, lines);
    case SaveApplicantFields(name, quantity, unit, columns) =>
      LegacyInsertNeverClashes(c.world, c.actor, c.expected, s, name, quantity, unit, columns);
      ApplicantFieldsRaise(c.world, c.actor, c.expected, s, name, quantity, unit, columns);
    case SaveReviewItems(_) => AdviceRaises(c, s, used);
    case SaveReviewFields(_) => AdviceRaises(c, s, used);
    case SavePurchaseFields(f) =>
      if |Actives(s.items)| == 1 {
        PurchaseRaises(c.world, c.actor, c.expected, s, Actives(s.items)[0], f, None, true, used);
      }
    case SavePurchaseItem(i, token, f) =>
      PurchaseRaises(c.world, c.actor, c.expected, s, i, f, Some(token), false, used);
    case AppendReceipt(token, e, q) => ReceiptRaises(c.world, c.actor, c.expected, s, token, e, q, used);
    case SaveWarehouseFields(q, _) =>
      ReceiptRaises(c.world, c.actor, c.expected, s, LegacyToken(s.request.id, c.expected), 0, q, used);
    case _ => MovesRaise(c, s, used);
  }

  lemma {:induction false} LinesRaise(w: World, request: nat, before: nat, d: LineState, lines: seq<ItemInput>)
    requires before <= |d.items|
    ensures ReplaceLines(w, request, before, d, lines) != Err(FulfillmentInvariantViolation)
    decreases |lines|
  {
    if lines != [] && ReplaceLine(w, request, before, d, lines[0]).Ok? {
      LinesRaise(w, request, before, ReplaceLine(w, request, before, d, lines[0]).value, lines[1..]);
    }
  }

  lemma ReplaceRaises(w: World, actor: nat, expected: nat, s: Aggregate, requestType: Option<RequestType>,
                      asset: Patch<nat>, lines: seq<ItemInput>)
    ensures DoReplaceItems(w, actor, expected, s, requestType, asset, lines) != Err(FulfillmentInvariantViolation)
  {
    hide ReplaceLines, MaxNo, DistinctNumbers;
    LinesRaise(w, s.request.id, |s.items|, StartLines(s.items), lines);
  }

  lemma ApplicantFieldsRaise(w: World, actor: nat, expected: nat, s: Aggregate, name: Patch<string>,
                             quantity: Patch<nat>, unit: Patch<string>, columns: Columns)
    ensures DoSaveApplicantFields(w, actor, expected, s, name, quantity, unit, columns)
      != Err(FulfillmentInvariantViolation)
  {
    hide MirrorItem, Actives, DistinctNumbers;
  }

  lemma {:induction false} AdviceLinesRaise(w: World, items: seq<Item>, r: nat, stored: seq<ReviewItem>,
                                            rows: seq<ReviewItem>, advice: seq<ReviewInput>)
    requires forall k :: 0 <= k < |advice| ==> advice[k].item < |items|
    requires |stored| <= |rows|
    ensures ReviewLines(w, items, r, stored, rows, advice) !in {Err(FulfillmentInvariantViolation), Err(IntegrityError)}
    decreases |advice|
  {
    hide FindReviewItem;
    if advice != [] && ReviewLine(w, items, r, stored, rows, advice[0]).Ok? {
      AdviceLinesRaise(w, items, r, stored, ReviewLine(w, items, r, stored, rows, advice[0]).value, advice[1..]);
    }
  }

  lemma AdviceRaises(c: Call, s: Aggregate, used: set<string>)
    requires c.command.SaveReviewItems? || c.command.SaveReviewFields?
    ensures Exec(c, s, used) !in {Err(FulfillmentInvariantViolation), Err(IntegrityError)}
  {
    hide ReviewLines, Actives, WithSnapshots, WithOpenReview, RowsOf;
    if c.command.SaveReviewItems? {
      var advice := c.command.advice;
      var named := set k | 0 <= k < |advice| :: advice[k].item;
      if named == (set i | i in Actives(s.items)) {
        assert forall k :: 0 <= k < |advice| ==> advice[k].item in named;
        var (u, r) := OpenRound(s, c.actor);
        AdviceLinesRaise(c.world, s.items, r, u.reviewItems, u.reviewItems, advice);
      }
    }
  }

  lemma PurchaseRaises(w: World, actor: nat, expected: nat, s: Aggregate, itemId: nat, f: PurchaseFields,
                       token: Option<string>, allowUpdate: bool, used: set<string>)
    requires Inv(s)
    ensures DoSavePurchaseItem(w, actor, expected, s, itemId, f, token, allowUpdate, used)
      !in {Err(FulfillmentInvariantViolation), Err(IntegrityError)}
  {
    hide ItemsOk, RoundsOk, SnapshotsOk, ReceiptsOk, FindExecution, LatestReview, Actives;
    var e := FindExecution(s.executions, itemId);
    if e.Some? { assert ExecutionOk(s.executions[e.value], s.items, s.request.id); }
  }

  lemma ReceiptRaises(w: World, actor: nat, expected: nat, s: Aggregate, token: string, e: nat, quantity: nat,
                      used: set<string>)
    requires Inv(s)
    ensures DoAppendReceipt(w, actor, expected, s, token, e, quantity, used)
      !in {Err(FulfillmentInvariantViolation), Err(IntegrityError)}
  {
    hide RoundsOk, SnapshotsOk, ReceiptsOk, FindExecution, Actives, Received, DistinctNumbers;
    if e < |s.executions| { assert ExecutionOk(s.executions[e], s.items, s.request.id); }
  }

  lemma MovesRaise(c: Call, s: Aggregate, used: set<string>)
    requires ExecutionsOk(s) && ReceiptsOk(s) && OperationOf(c.command).Some?
    ensures Exec(c, s, used) !in {Err(FulfillmentInvariantViolation), Err(IntegrityError)}
  {
    hide ExecutionsOk, ReceiptsOk, Actives, CompletionCheck, WithSnapshots, WithOpenReview, RowsOf, Receivers,
      CompletionNotes, AllExecuted, NeedsWarehouse, IsComplete;
    CheckNeverRaises(s, Actives(s.items));
  }
}
