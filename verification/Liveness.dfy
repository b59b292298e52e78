/** No reachable request is stuck: with a staffed directory and one usable
    supplier, from every reachable request that is not completed some finite run
    of successful commands completes it. */
module Liveness {
  import opened Common
  import opened Workflow
  import opened Procurement
  import opened Fulfillment
  import opened Commands
  import opened Effects
  import opened Invariants
  import opened ReviewInvariant
  import opened FulfillmentInvariant
  import opened Lifecycle
  import opened Progress

  /** Whoever holds the request may take it on. */
  predicate StaffedOk(w: World, s: Aggregate) {
    var q := s.request;
    && (q.status in {Status.Draft, Rejected} ==> w.HasRole(q.applicant, Applicant))
    && (q.status == PendingReview ==>
          q.handler.Some? && w.HasRole(q.handler.value, BuildingManager) && w.BelongsTo(q.handler.value, q.building))
    && (q.status in {Status.PendingPurchase, Purchasing} ==> q.handler.Some? && w.HasRole(q.handler.value, Purchaser))
    && (q.status == PendingWarehouse ==> q.handler.Some? && w.HasRole(q.handler.value, WarehouseManager))
  }

  /** A manager for the building, a purchaser, a warehouse manager and a supplier. */
  predicate Staffs(w: World, building: nat, manager: nat, purchaser: nat, keeper: nat, supplier: nat) {
    && w.ValidHandler(manager, BuildingManager, Some(building))
    && w.ValidHandler(purchaser, Purchaser, None)
    && w.ValidHandler(keeper, WarehouseManager, None)
    && w.UsableSupplier(supplier) && !w.suppliers[supplier].blacklisted
  }

  lemma FreshStaffed(w: World, actor: nat, id: nat, building: nat, s: Aggregate)
    requires NewRequest(w, actor, id, building) == Ok(s)
    ensures StaffedOk(w, s)
  {}

  /** The right person keeps holding the request under one directory; a rejection
      hands it back to the applicant, who must still be one. */
  lemma StepKeepsStaffed(c: Call, s: Aggregate, used: set<string>, t: Aggregate)
    requires StaffedOk(c.world, s) && Exec(c, s, used) == Ok(t)
    requires c.command.RejectRequest? ==> c.world.HasRole(s.request.applicant, Applicant)
    ensures StaffedOk(c.world, t)
  {
    hide Exec, LegacyToken, NeedsWarehouse, ValidateActor;
    ExecEffects(c, s, t, used);
  }

  /** An unstaffed request is stuck: nobody can change its status or its handler. */
  lemma UnstaffedStuck(c: Call, s: Aggregate, used: set<string>, t: Aggregate)
    requires CustodyOk(s.request) && !StaffedOk(c.world, s) && Exec(c, s, used) == Ok(t)
    ensures !StaffedOk(c.world, t) && SameCustody(s, t)
  {
    hide Exec, LegacyToken, NeedsWarehouse;
    ExecEffects(c, s, t, used);
  }

  /** So under that directory no run ever completes it. */
  lemma {:induction false} UnstaffedNeverCompletes(w: World, s: Aggregate, turns: seq<Turn>)
    requires Inv(s) && !StaffedOk(w, s)
    requires forall k :: 0 <= k < |turns| ==> turns[k].call.world.AgreesWith(w)
    ensures !StaffedOk(w, Run(s, turns)) && Run(s, turns).request.status == s.request.status != Completed
  {
    hide Exec, StaffedOk, ItemsOk, RoundsOk, SnapshotsOk, ExecutionsOk, ReceiptsOk;
    if turns == [] { UnstaffedIsOpen(w, s); }
    else {
      var front, last := turns[..|turns| - 1], turns[|turns| - 1];
      UnstaffedNeverCompletes(w, s, front);
      ReachableOk(s, front);
      var u := Run(s, front);
      var r := Exec(last.call, u, last.used);
      if r.Ok? {
        StaffedAlike(w, last.call.world, u);
        UnstaffedStuck(last.call, u, last.used, r.value);
        StaffedAlike(w, last.call.world, r.value);
      }
    }
  }

  /** The clock says nothing about people. */
  lemma StaffedAlike(w: World, v: World, s: Aggregate)
    requires v.AgreesWith(w)
    ensures StaffedOk(v, s) == StaffedOk(w, s)
    ensures v.HasRole(s.request.applicant, Applicant) == w.HasRole(s.request.applicant, Applicant)
  {}

  lemma UnstaffedIsOpen(w: World, s: Aggregate)
    requires !StaffedOk(w, s)
    ensures s.request.status != Completed
  {}

  // ----- fresh tokens

  lemma LongestOf(used: set<string>) returns (n: nat)
    ensures forall x :: x in used ==> |x| <= n
  {
    n := 0;
    if used != {} {
      var x :| x in used;
      var m := LongestOf(used - {x});
      n := if |x| > m then |x| else m;
    }
  }

  lemma FreshToken(used: set<string>) returns (token: string)
    ensures token !in used
  {
    var n := LongestOf(used);
    token := seq(n + 1, _ => 'x');
  }

  // ----- one step forward

  const ONE_LINE := ItemInput(None, None, Equipment, None, None, "item", 1000, "pc", None, map[])

  /** 3 before the request is fit for submission, 2 when fit, 1 under review, 0 after. */
  function Phase(s: Aggregate): nat {
    if s.request.status in {Status.Draft, Rejected} then
      if Actives(s.items) != [] && forall i :: i in Actives(s.items) ==> IsComplete(s.items[i]) then 2 else 3
    else if s.request.status == PendingReview then 1
    else 0
  }

  predicate Forward(w: World, s: Aggregate, used: set<string>, c: Call) {
    && c.world == w && Exec(c, s, used).Ok?
    && var t := Exec(c, s, used).value;
      Phase(t) < Phase(s) || (Phase(t) == Phase(s) == 0 && Work(t) < Work(s))
  }

  lemma OneLineIsFit(stored: seq<Item>, w: World, request: nat)
    requires DistinctNumbers(stored)
    ensures ReplaceLines(w, request, |stored|, StartLines(stored), [ONE_LINE]).Ok?
    ensures var d := ReplaceLines(w, request, |stored|, StartLines(stored), [ONE_LINE]).value;
      var items := Deactivate(d.items, |stored|, d.kept);
      DistinctNumbers(items) && Actives(items) == [|stored|] && IsComplete(items[|stored|])
  {
    hide MaxNo, IsComplete, Strip, DistinctNumbers, Actives;
    var n, no := |stored|, MaxNo(stored) + 1;
    var d1 := LineState(stored + [LineValues(BlankItem(request, no), ONE_LINE)], no + 1, {}, {} + {no});
    assert ReplaceLine(w, request, n, StartLines(stored), ONE_LINE) == Ok(d1);
    assert [ONE_LINE][1..] == [] && ReplaceLines(w, request, n, d1, []) == Ok(d1);
    var items := Deactivate(d1.items, n, {});
    OnlyActive(items, n);
    NewNumberIsDistinct(stored, items);
    LineIsComplete(BlankItem(request, no));
  }

  lemma LineIsComplete(blank: Item)
    ensures IsComplete(LineValues(blank, ONE_LINE))
  {
    assert Strip("item") == "item" && Strip("pc") == "pc";
  }

  lemma NewNumberIsDistinct(stored: seq<Item>, items: seq<Item>)
    requires DistinctNumbers(stored) && |items| == |stored| + 1 && items[|stored|].no == MaxNo(stored) + 1
    requires forall i :: 0 <= i < |stored| ==> items[i].no == stored[i].no
    ensures DistinctNumbers(items)
  {}

  lemma OnlyActive(items: seq<Item>, n: nat)
    requires |items| == n + 1 && items[n].active && forall i :: 0 <= i < n ==> !items[i].active
    ensures Actives(items) == [n]
  {
    hide Actives;
    var ids := Actives(items);
    SameElementsSameLength(ids, [n]);
  }

  lemma ForwardToFit(w: World, s: Aggregate, used: set<string>) returns (c: Call)
    requires Inv(s) && StaffedOk(w, s) && Phase(s) == 3
    ensures Forward(w, s, used, c)
  {
    hide ReplaceLines, DistinctNumbers, Deactivate, RoundsOk, SnapshotsOk, ExecutionsOk, ReceiptsOk, MaxNo, Actives,
      IsComplete;
    c := Call(w, s.request.applicant, s.request.version, ReplaceItems(None, Keep, [ONE_LINE]));
    OneLineIsFit(s.items, w, s.request.id);
    assert SchemaOk(c.command);
  }

  lemma ForwardToReview(w: World, s: Aggregate, used: set<string>, manager: nat) returns (c: Call)
    requires Inv(s) && StaffedOk(w, s) && Phase(s) == 2
    requires w.ValidHandler(manager, BuildingManager, Some(s.request.building))
    ensures Forward(w, s, used, c)
  {
    hide ItemsOk, RoundsOk, SnapshotsOk, ExecutionsOk, ReceiptsOk, Actives, IsComplete;
    var token := FreshToken(used);
    c := Call(w, s.request.applicant, s.request.version,
      SendToReview(s.request.status == Rejected, token, Some(manager)));
  }

  lemma ForwardToDecision(w: World, s: Aggregate, used: set<string>, purchaser: nat) returns (c: Call)
    requires Inv(s) && StaffedOk(w, s) && Phase(s) == 1
    requires w.ValidHandler(purchaser, Purchaser, None)
    ensures Forward(w, s, used, c)
  {
    hide ItemsOk, RoundsOk, SnapshotsOk, ExecutionsOk, ReceiptsOk, Actives, IsComplete, RowsOf, WithSnapshots,
      WithOpenReview;
    var token := FreshToken(used);
    var actor := s.request.handler.value;
    CountCheckNeverFires(s, actor);
    c := Call(w, actor, s.request.version, SendToPurchaser(token, Some(purchaser)));
  }

  lemma SomeUnbought(items: seq<Item>, executions: seq<Execution>) returns (i: nat)
    requires !AllExecuted(items, executions)
    ensures i < |items| && items[i].active && FindExecution(executions, i).None?
  {
    hide FindExecution;
    i :| i in Actives(items) && FindExecution(executions, i).None?;
  }

  lemma PurchaseSucceeds(w: World, s: Aggregate, used: set<string>, supplier: nat) returns (c: Call)
    requires Inv(s) && StaffedOk(w, s) && s.request.status == Purchasing
    requires w.UsableSupplier(supplier) && !w.suppliers[supplier].blacklisted
    requires !AllExecuted(s.items, s.executions)
    ensures c.world == w && Exec(c, s, used).Ok? && !Resaves(c.command, s)
  {
    hide RoundsOk, SnapshotsOk, ExecutionsOk, ReceiptsOk, Actives, FindExecution, AllExecuted, DistinctNumbers,
      Received;
    var i := SomeUnbought(s.items, s.executions);
    assert RowOk(s.items[i], s.request.id);
    var token := FreshToken(used);
    c := Call(w, s.request.handler.value, s.request.version,
      SavePurchaseItem(i, token, PurchaseFields(Some(supplier), 0, None, map[])));
  }

  lemma SubmissionSucceeds(w: World, s: Aggregate, used: set<string>, keeper: nat) returns (c: Call)
    requires Inv(s) && StaffedOk(w, s) && s.request.status == Purchasing
    requires w.ValidHandler(keeper, WarehouseManager, None) && AllExecuted(s.items, s.executions)
    ensures c.world == w && Exec(c, s, used).Ok? && !Resaves(c.command, s)
  {
    hide RoundsOk, SnapshotsOk, ExecutionsOk, ReceiptsOk, Actives, AllExecuted, DistinctNumbers, Received,
      NeedsWarehouse, CompletionNotes, Receivers;
    var token := FreshToken(used);
    c := Call(w, s.request.handler.value, s.request.version, SendToWarehouse(token, Some(keeper)));
  }

  lemma FinishSucceeds(w: World, s: Aggregate, used: set<string>) returns (c: Call)
    requires Inv(s) && StaffedOk(w, s) && s.request.status == PendingWarehouse
    requires CompletionCheck(s, Actives(s.items)) == Ok(true)
    ensures c.world == w && Exec(c, s, used).Ok? && !Resaves(c.command, s)
  {
    hide ItemsOk, RoundsOk, SnapshotsOk, ExecutionsOk, ReceiptsOk, Actives, Received, CompletionNotes, Receivers,
      CompletionCheck;
    var token := FreshToken(used);
    c := Call(w, s.request.handler.value, s.request.version, Finish(token));
  }

  /** An unfinished warehouse item can receive everything it still lacks. */
  lemma ReceiptSucceeds(w: World, s: Aggregate, used: set<string>) returns (c: Call)
    requires Inv(s) && StaffedOk(w, s) && s.request.status == PendingWarehouse
    requires CompletionCheck(s, Actives(s.items)) == Ok(false)
    ensures c.world == w && Exec(c, s, used).Ok? && !Resaves(c.command, s)
  {
    hide RoundsOk, SnapshotsOk, Actives, Received, CompletionCheck, FindExecution, DistinctNumbers;
    var ids := Actives(s.items);
    CompletionCheckMeaning(s, ids);
    var k :| 0 <= k < |ids| && s.items[ids[k]].warehouse && ItemStatus(s, ids[k]) != Ok(Fulfilled);
    var i := ids[k];
    assert i in ids;
    StatusNeverRaises(s, i);
    var e := FindExecution(s.executions, i).value;
    assert ExecutionOk(s.executions[e], s.items, s.request.id);
    var missing := s.executions[e].quantity - Received(s.receipts, e);
    var token := FreshToken(used);
    c := Call(w, s.request.handler.value, s.request.version, Command.AppendReceipt(token, e, missing));
  }

  lemma BeginSucceeds(w: World, s: Aggregate, used: set<string>) returns (c: Call)
    requires Inv(s) && StaffedOk(w, s) && s.request.status == Status.PendingPurchase
    ensures c.world == w && Exec(c, s, used).Ok? && !Resaves(c.command, s)
  {
    hide ItemsOk, RoundsOk, SnapshotsOk, ExecutionsOk, ReceiptsOk;
    var token := FreshToken(used);
    c := Call(w, s.request.handler.value, s.request.version, BeginPurchase(token));
  }

  lemma NextStep(w: World, s: Aggregate, used: set<string>, m: nat, p: nat, k: nat, supplier: nat) returns (c: Call)
    requires Inv(s) && StaffedOk(w, s) && s.request.status != Completed
    requires Staffs(w, s.request.building, m, p, k, supplier)
    ensures Forward(w, s, used, c)
  {
    hide Inv, Exec, StaffedOk, Work, Actives, IsComplete, Resaves, AllExecuted, CompletionCheck;
    if Phase(s) == 3 { c := ForwardToFit(w, s, used); }
    else if Phase(s) == 2 { c := ForwardToReview(w, s, used, m); }
    else if Phase(s) == 1 { c := ForwardToDecision(w, s, used, p); }
    else {
      if s.request.status == Status.PendingPurchase { c := BeginSucceeds(w, s, used); }
      else if s.request.status == Purchasing {
        if AllExecuted(s.items, s.executions) { c := SubmissionSucceeds(w, s, used, k); }
        else { c := PurchaseSucceeds(w, s, used, supplier); }
      } else {
        assert ExecutionsOk(s) && ReceiptsOk(s) by { TablesOf(s); }
        CheckNeverRaises(s, Actives(s.items));
        if CompletionCheck(s, Actives(s.items)).value { c := FinishSucceeds(w, s, used); }
        else { c := ReceiptSucceeds(w, s, used); }
      }
      var t := Exec(c, s, used).value;
      StepUsesWork(c, s, used, t);
      StepAdvances(c, s, used, t);
    }
  }

  lemma TablesOf(s: Aggregate) requires Inv(s) ensures ExecutionsOk(s) && ReceiptsOk(s) {}

  // ----- whole runs

  lemma {:induction false} RunCons(s: Aggregate, turn: Turn, turns: seq<Turn>)
    ensures Run(s, [turn] + turns) == Run(After(s, turn), turns)
  {
    hide After;
    var all := [turn] + turns;
    if turns == [] {
      assert all[..0] == [];
      assert Run(s, all[..0]) == s;
    } else {
      var n := |turns| - 1;
      RunCons(s, turn, turns[..n]);
      assert all[..|all| - 1] == [turn] + turns[..n];
    }
  }

  /** Each turn is called in the fixed world, at any time, with the tokens that are then in the
      log: those of other requests (`foreign`) and this request's own. */
  predicate Genuine(w: World, foreign: set<string>, s: Aggregate, turns: seq<Turn>) {
    forall k :: 0 <= k < |turns| ==>
      && turns[k].call.world.AgreesWith(w)
      && turns[k].used == foreign + Tokens(Run(s, turns[..k]).log)
      && Exec(turns[k].call, Run(s, turns[..k]), turns[k].used).Ok?
  }

  /** One more genuine turn. */
  lemma GenuineSnoc(w: World, foreign: set<string>, s: Aggregate, turns: seq<Turn>, c: Call, t: Aggregate)
    requires Genuine(w, foreign, s, turns) && c.world.AgreesWith(w)
    requires Exec(c, Run(s, turns), foreign + Tokens(Run(s, turns).log)) == Ok(t)
    ensures var more := turns + [Turn(c, foreign + Tokens(Run(s, turns).log))];
      Genuine(w, foreign, s, more) && Run(s, more) == t
  {
    hide Exec, Tokens, Run;
    var n, turn := |turns|, Turn(c, foreign + Tokens(Run(s, turns).log));
    var more := turns + [turn];
    RunSnoc(s, turns, turn);
    forall k | 0 <= k <= n
      ensures more[k].call.world.AgreesWith(w) && more[k].used == foreign + Tokens(Run(s, more[..k]).log)
      ensures Exec(more[k].call, Run(s, more[..k]), more[k].used).Ok?
    {
      assert more[..k] == turns[..k];
      if k == n { assert turns[..k] == turns; } else { assert more[k] == turns[k]; }
    }
  }

  lemma RunSnoc(s: Aggregate, turns: seq<Turn>, turn: Turn)
    ensures Run(s, turns + [turn]) == After(Run(s, turns), turn)
  {
    hide After;
    assert (turns + [turn])[..|turns|] == turns;
  }

  /** Completion stays reachable. */
  lemma {:induction false} CompletionReachable(w: World, s: Aggregate, foreign: set<string>, m: nat, p: nat, k: nat,
                                               supplier: nat)
      returns (turns: seq<Turn>)
    requires Inv(s) && StaffedOk(w, s) && Staffs(w, s.request.building, m, p, k, supplier)
    ensures Genuine(w, foreign, s, turns) && Run(s, turns).request.status == Completed
    decreases Phase(s), Work(s)
  {
    hide Inv, Exec, StaffedOk, Work, Phase, Actives, Staffs, Tokens;
    if s.request.status == Completed { turns := []; }
    else {
      var used := foreign + Tokens(s.log);
      var c := NextStep(w, s, used, m, p, k, supplier);
      var t := Exec(c, s, used).value;
      StepKeepsInvariant(c, s, used, t);
      ForwardIsNoRejection(w, s, used, c);
      StepKeepsStaffed(c, s, used, t);
      SameBuilding(c, s, used, t);
      var rest := CompletionReachable(w, t, foreign, m, p, k, supplier);
      turns := [Turn(c, used)] + rest;
      RunCons(s, Turn(c, used), rest);
      GenuineCons(w, foreign, s, Turn(c, used), rest);
    }
  }

  lemma ForwardIsNoRejection(w: World, s: Aggregate, used: set<string>, c: Call)
    requires Forward(w, s, used, c)
    ensures !c.command.RejectRequest?
  {
    hide Exec, Work, IsComplete, Actives, Framed, ValidateActor, LegacyToken;
    ExecEffects(c, s, Exec(c, s, used).value, used);
  }

  /** Every genuine run from create_draft keeps its request in the right hands, so its
      completion stays reachable. */
  lemma {:induction false} GenuineRunsAreStaffed(w: World, actor: nat, id: nat, building: nat, s: Aggregate,
                                                 foreign: set<string>, turns: seq<Turn>)
    requires NewRequest(w, actor, id, building) == Ok(s) && Genuine(w, foreign, s, turns)
    ensures StaffedOk(w, Run(s, turns)) && Run(s, turns).request.applicant == actor && w.HasRole(actor, Applicant)
  {
    hide Exec, StaffedOk, Tokens, NewRequest;
    if turns == [] {
      FreshStaffed(w, actor, id, building, s);
      FreshApplicant(w, actor, id, building, s);
    } else {
      var n := |turns| - 1;
      var front, last := turns[..n], turns[n];
      assert forall k :: 0 <= k < n ==> front[k] == turns[k] && front[..k] == turns[..k];
      GenuineRunsAreStaffed(w, actor, id, building, s, foreign, front);
      var u, t := Run(s, front), Run(s, turns);
      StaffedAlike(w, last.call.world, u);
      StaffedAlike(w, last.call.world, t);
      StepKeepsStaffed(last.call, u, last.used, t);
      SameBuilding(last.call, u, last.used, t);
    }
  }

  lemma FreshApplicant(w: World, actor: nat, id: nat, building: nat, s: Aggregate)
    requires NewRequest(w, actor, id, building) == Ok(s)
    ensures s.request.applicant == actor && w.HasRole(actor, Applicant)
  {}

  /** The assumptions can be met: here is a directory, a request and a run. */
  lemma SomeRequestCompletes() returns (w: World, s: Aggregate, turns: seq<Turn>)
    ensures NewRequest(w, 0, 0, 0) == Ok(s) && Genuine(w, {}, s, turns) && Run(s, turns).request.status == Completed
  {
    hide Exec, Run, Genuine, Work, Phase;
    var everybody := Employee({Applicant, BuildingManager, Purchaser, WarehouseManager}, {0}, true, true);
    w := World(map[0 := everybody], map[0 := Supplier("s", true, false)], map["s" := 0], 1, map[], map[], 0);
    s := NewRequest(w, 0, 0, 0).value;
    FreshRequestOk(w, 0, 0, 0, s);
    FreshStaffed(w, 0, 0, 0, s);
    assert Staffs(w, 0, 0, 0, 0, 0);
    turns := CompletionReachable(w, s, {}, 0, 0, 0, 0);
  }

  lemma SameBuilding(c: Call, s: Aggregate, used: set<string>, t: Aggregate)
    requires Exec(c, s, used) == Ok(t)
    ensures t.request.building == s.request.building && t.request.applicant == s.request.applicant
  {
    hide Exec, Logged;
    ExecEffects(c, s, t, used);
  }

  lemma GenuineCons(w: World, foreign: set<string>, s: Aggregate, turn: Turn, rest: seq<Turn>)
    requires turn.call.world.AgreesWith(w) && turn.used == foreign + Tokens(s.log)
    requires Exec(turn.call, s, turn.used).Ok?
    requires Genuine(w, foreign, After(s, turn), rest)
    ensures Genuine(w, foreign, s, [turn] + rest)
  {
    hide Exec, After, Tokens;
    var all := [turn] + rest;
    forall k | 0 < k < |all|
      ensures Run(s, all[..k]) == Run(After(s, turn), rest[..k - 1]) && all[k] == rest[k - 1]
    {
      assert all[..k] == [turn] + rest[..k - 1];
      RunCons(s, turn, rest[..k - 1]);
    }
    assert all[..0] == [] && Run(s, all[..0]) == s;
  }
}
