/** ProcurementService and WorkflowService over the stored rows of one request,
    statement by statement. Each method is proved against its specification in
    Commands.dfy; Handle adds the surrounding transaction, which undoes all writes
    of a call that raises. */
module Service {
  import opened Common
  import opened Money
  import opened Workflow
  import opened Procurement
  import opened Fulfillment
  import opened Commands
  import opened Lifecycle

  /** The call ends as specified: with the specified rows, or the specified error. */
  predicate Agrees(spec: Result<Aggregate>, r: Result<()>, now: Aggregate) {
    match spec case Ok(t) => r == Ok(()) && now == t case Err(e) => r == Err(e)
  }

  class RequestStore {
    var request: Request
    var items: seq<Item>
    var reviews: seq<Review>
    var reviewItems: seq<ReviewItem>
    var executions: seq<Execution>
    var receipts: seq<Receipt>
    var log: seq<LogEntry>
    var outbox: seq<Note>

    function Rows(): Aggregate
      reads this
    {
      Aggregate(request, items, reviews, reviewItems, executions, receipts, log, outbox)
    }

    constructor (s: Aggregate)
      ensures Rows() == s
    {
      request, items, reviews, reviewItems := s.request, s.items, s.reviews, s.reviewItems;
      executions, receipts, log, outbox := s.executions, s.receipts, s.log, s.outbox;
    }

    /** ProcurementRepository.bump_version: true if one row was updated. */
    method BumpVersion(expected: nat, allowed: set<Status>) returns (updated: bool)
      modifies this`request
      ensures updated <==> CasHolds(old(request), expected, allowed)
      ensures request == if updated then old(request).(version := old(request).version + 1) else old(request)
    {
      updated := request.version == expected && request.status in allowed;
      if updated { request := request.(version := request.version + 1); }
    }

    // ----- editing items

    method ReplaceRequestItems(w: World, actor: nat, expected: nat, requestType: Option<RequestType>, asset: Patch<nat>,
                               lines: seq<ItemInput>) returns (r: Result<()>)
      modifies this
      ensures Agrees(DoReplaceItems(w, actor, expected, old(Rows()), requestType, asset, lines), r, Rows())
    {
      hide DistinctNumbers, StartLines, ReplaceLines, Deactivate, AssetCheck;
      var editable := request.status in {Status.Draft, Rejected};
      :- Check(editable, InvalidStatus);
      :- Check(request.applicant == actor, PermissionDenied);
      :- Check(w.HasRole(actor, Applicant), PermissionDenied);
      :- Check(request.version == expected, ConcurrentModification);
      :- AssetCheck(w, actor, request, asset);
      var before := |items|;
      var kept := WriteLines(w, before, lines);
      if kept.Err? { return Err(kept.error); }
      DropLines(before, kept.value);
      :- Check(DistinctNumbers(items), IntegrityError);
      var updated := BumpVersion(expected, {Status.Draft, Rejected});
      if !updated { return Err(ConcurrentModification); }
      request := request.(requestType := requestType.GetOr(request.requestType),
        sourceAsset := asset.Over(request.sourceAsset));
      return Ok(());
    }

    /** The payload loop of replace_request_items; returns the kept row ids. */
    method WriteLines(w: World, before: nat, lines: seq<ItemInput>) returns (r: Result<set<nat>>)
      requires before == |items|
      modifies this`items
      ensures r.Ok? ==> before <= |items|
      ensures match old(ReplaceLines(w, request.id, before, StartLines(items), lines))
        case Err(e) => r == Err(e)
        case Ok(d) => r == Ok(d.kept) && items == d.items
    {
      hide MaxNo, LineChecks;
      var next: nat := MaxNo(items) + 1;
      var kept: set<nat>, seen: set<nat> := {}, {};
      var k := 0;
      while k < |lines|
        invariant 0 <= k <= |lines| && before <= |items|
        invariant old(ReplaceLines(w, request.id, before, StartLines(items), lines))
               == ReplaceLines(w, request.id, before, LineState(items, next, kept, seen), lines[k..])
      {
        var line := lines[k];
        assert lines[k..][0] == line && lines[k..][1..] == lines[k + 1..];
        :- LineChecks(w, line);
        var no: nat;
        if line.itemId.None? {
          no := line.no.GetOr(next);
          :- Check(no !in seen, ValidationError);
          items := items + [LineValues(BlankItem(request.id, no), line)];
          if no + 1 > next { next := no + 1; }
        } else {
          var i := line.itemId.value;
          :- Check(i < before, RequestItemNotFound);
          no := items[i].no;
          :- Check(line.no.None? || line.no.value == no, ValidationError);
          :- Check(no !in seen, ValidationError);
          kept := kept + {i};
          items := items[i := LineValues(items[i], line)];
        }
        seen := seen + {no};
        k := k + 1;
      }
      return Ok(kept);
    }

    /** The stored rows the payload did not keep become inactive. */
    method DropLines(before: nat, kept: set<nat>)
      requires before <= |items|
      modifies this`items
      ensures items == Deactivate(old(items), before, kept)
    {
      for i := 0 to before
        invariant |items| == |old(items)|
        invariant forall k :: 0 <= k < |items| ==>
          items[k] == if k < i && k !in kept then old(items)[k].(active := false) else old(items)[k]
      {
        if i !in kept { items := items[i := items[i].(active := false)]; }
      }
    }

    method SaveApplicantFields(w: World, actor: nat, expected: nat, name: Patch<string>, quantity: Patch<nat>,
                               unit: Patch<string>, columns: Columns)
        returns (r: Result<()>, missing: seq<string>)
      modifies this
      ensures Agrees(DoSaveApplicantFields(w, actor, expected, old(Rows()), name, quantity, unit, columns), r, Rows())
      ensures r.Ok? ==> missing == MissingHeader(request)
    {
      missing := [];
      hide Actives, DistinctNumbers, MirrorItem, EditedHeader, ManagerMayEdit, ApplicantMayEdit;
      var manager := ManagerMayEdit(w, actor, request);
      :- Check(ApplicantMayEdit(w, actor, request) || manager, InvalidStatus);
      :- Check(request.version == expected, ConcurrentModification);
      var updated := BumpVersion(expected, if manager then {PendingReview} else {Status.Draft, Rejected});
      if !updated { return Err(ConcurrentModification), []; }
      WriteHeader(name, quantity, unit, columns);
      var ids := Actives(items);
      :- Check(|ids| <= 1, MultiItemNotSupported);
      MirrorHeader();
      :- Check(DistinctNumbers(items), IntegrityError);
      return Ok(()), MissingHeader(request);
    }

    /** The submitted columns, one setattr each. */
    method WriteHeader(name: Patch<string>, quantity: Patch<nat>, unit: Patch<string>, columns: Columns)
      modifies this`request
      ensures request == EditedHeader(old(request), name, quantity, unit, columns)
    {
      if name.Put? { request := request.(deviceName := name.value); }
      if quantity.Put? { request := request.(quantity := quantity.value); }
      if unit.Put? { request := request.(unit := unit.value); }
      request := request.(columns := request.columns + columns);
    }

    /** Copies the completed header into the only item, which is created if missing. */
    method MirrorHeader()
      modifies this`items
      ensures items == MirrorItem(request, old(items))
    {
      hide Actives, MirroredColumns;
      var ids := Actives(items);
      assert map[] + MirroredColumns(request.columns) == MirroredColumns(request.columns);
      if request.deviceName.GetOr("") != "" && request.quantity.GetOr(0) != 0 && request.unit.GetOr("") != "" {
        var k := if ids == [] then |items| else ids[0];
        if ids == [] { items := items + [Item(request.id, 1, Equipment, None, None, "", 0, "", true, true, map[])]; }
        items := items[k := items[k].(
          name := request.deviceName.value, quantity := request.quantity.value, unit := request.unit.value,
          columns := items[k].columns + MirroredColumns(request.columns))];
      }
    }

    // ----- reviews

    /** _get_or_create_review and _ensure_review_snapshots. */
    method OpenReviewRound(reviewer: nat) returns (k: nat)
      modifies this`reviews, this`reviewItems
      ensures (Rows(), k) == OpenRound(old(Rows()), reviewer)
    {
      hide Actives;
      k := GetOrCreateReview(reviewer);
      EnsureSnapshots(k);
    }

    method GetOrCreateReview(reviewer: nat) returns (k: nat)
      modifies this`reviews
      ensures (reviews, k) == WithOpenReview(old(reviews), reviewer)
    {
      var open := OpenReview(reviews);
      if open.Some? { return open.value; }
      k := |reviews|;
      reviews := reviews + [BlankRound(NextRound(reviews), reviewer)];
    }

    method EnsureSnapshots(r: nat)
      modifies this`reviewItems
      ensures reviewItems == WithSnapshots(items, r, ReviewedItems(old(reviewItems), r), old(reviewItems),
        Actives(items))
    {
      hide Actives;
      var existing := ReviewedItems(reviewItems, r);
      var ids := Actives(items);
      var k := 0;
      while k < |ids|
        invariant 0 <= k <= |ids|
        invariant WithSnapshots(items, r, existing, old(reviewItems), ids)
               == WithSnapshots(items, r, existing, reviewItems, ids[k..])
      {
        assert ids[k..][0] == ids[k] && ids[k..][1..] == ids[k + 1..];
        if ids[k] !in existing { reviewItems := reviewItems + [Snapshot(r, ids[k], items[ids[k]])]; }
        k := k + 1;
      }
    }

    method SaveReviewItems(w: World, actor: nat, expected: nat, advice: seq<ReviewInput>) returns (r: Result<()>)
      modifies this
      ensures Agrees(DoSaveReviewItems(w, actor, expected, old(Rows()), advice), r, Rows())
    {
      hide Actives, OpenRound, ReviewLines, CurrentHandler;
      var allowed := CurrentHandler(w, actor, request, BuildingManager);
      :- allowed;
      :- Check(request.status == PendingReview, InvalidStatus);
      :- Check(request.version == expected, ConcurrentModification);
      var named := set k | 0 <= k < |advice| :: advice[k].item;
      var ids := Actives(items);
      :- Check(named == (set i | i in ids), MissingRequiredFields);
      assert forall k :: 0 <= k < |advice| ==> advice[k].item in named;
      var review := OpenReviewRound(actor);
      var written := WriteAllAdvice(w, review, advice);
      :- written;
      var updated := BumpVersion(expected, {PendingReview});
      if !updated { return Err(ConcurrentModification); }
      return Ok(());
    }

    method WriteAllAdvice(w: World, review: nat, advice: seq<ReviewInput>) returns (r: Outcome)
      requires forall k :: 0 <= k < |advice| ==> advice[k].item < |items|
      modifies this`reviewItems
      ensures match ReviewLines(w, items, review, old(reviewItems), old(reviewItems), advice)
        case Err(e) => r == Fail(e)
        case Ok(rows) => r == Pass && reviewItems == rows
    {
      hide ReviewLine;
      var stored, k := reviewItems, 0;
      while k < |advice|
        invariant 0 <= k <= |advice| && |stored| <= |reviewItems|
        invariant ReviewLines(w, items, review, stored, stored, advice)
               == ReviewLines(w, items, review, stored, reviewItems, advice[k..])
      {
        assert advice[k..][0] == advice[k] && advice[k..][1..] == advice[k + 1..];
        var line := WriteAdvice(w, review, stored, advice[k]);
        if line.Fail? { return line; }
        k := k + 1;
      }
      return Pass;
    }

    method WriteAdvice(w: World, review: nat, stored: seq<ReviewItem>, line: ReviewInput) returns (r: Outcome)
      requires line.item < |items| && |stored| <= |reviewItems|
      modifies this`reviewItems
      ensures match ReviewLine(w, items, review, stored, old(reviewItems), line)
        case Err(e) => r == Fail(e)
        case Ok(rows) => r == Pass && reviewItems == rows && |stored| <= |rows|
    {
      if line.supplierId.Some? && !w.UsableSupplier(line.supplierId.value) { return Fail(SupplierNotFound); }
      var total := EstimateTotal(items[line.item].quantity, line.unitPrice, line.totalPrice, None);
      if total.Err? { return Fail(total.error); }
      var k := FindReviewItem(stored, review, line.item);
      var row := if k.Some? then k.value else |reviewItems|;
      if k.None? { reviewItems := reviewItems + [Snapshot(review, line.item, items[line.item])]; }
      reviewItems := reviewItems[row := reviewItems[row].(supplierId := line.supplierId)];
      reviewItems := reviewItems[row := reviewItems[row].(
        supplierName := if line.supplierId.Some? then Some(w.suppliers[line.supplierId.value].name) else None)];
      reviewItems := reviewItems[row := reviewItems[row].(unitPrice := line.unitPrice, totalPrice := total.value)];
      reviewItems := reviewItems[row := reviewItems[row].(columns := line.columns)];
      return Pass;
    }

    method SaveReviewFields(w: World, actor: nat, expected: nat, f: ReviewFields)
        returns (r: Result<()>, missing: seq<string>)
      modifies this
      ensures Agrees(DoSaveReviewFields(w, actor, expected, old(Rows()), f), r, Rows())
      ensures r.Ok? ==> var open := WithOpenReview(old(reviews), actor).1;
        open < |reviews| && missing == MissingAdvice(reviews[open])
    {
      missing := [];
      hide Actives, WithOpenReview, RowsOf, AdvisedReview, CurrentHandler, Snapshot, MirroredAdvice, MissingAdvice,
        BlankRound, Unadvised;
      var allowed := CurrentHandler(w, actor, request, BuildingManager);
      :- allowed;
      :- Check(request.status == PendingReview, InvalidStatus);
      :- Check(request.version == expected, ConcurrentModification);
      var k := GetOrCreateReview(actor);
      var ids := Actives(items);
      :- Check(|ids| == 1, MultiItemNotSupported);
      var review :- AdviseReview(w, reviews[k], items[ids[0]].quantity, f);
      reviews := reviews[k := review];
      MirrorAdvice(k, ids[0], review);
      var updated := BumpVersion(expected, {PendingReview});
      if !updated { return Err(ConcurrentModification), []; }
      return Ok(()), MissingAdvice(reviews[k]);
    }

    /** Copies the advice into the first row of the round, which is created if missing. */
    method MirrorAdvice(k: nat, i: nat, review: Review)
      requires i < |items|
      modifies this`reviewItems
      ensures var rows := RowsOf(old(reviewItems), k);
        var row := if rows == [] then Snapshot(k, i, items[i]) else old(reviewItems)[rows[0]];
        var row' := row.(supplierId := review.supplierId, supplierName := review.supplierName,
                         unitPrice := review.unitPrice, totalPrice := review.totalPrice,
                         columns := row.columns + MirroredAdvice(review.columns));
        reviewItems == if rows == [] then old(reviewItems) + [row'] else old(reviewItems)[rows[0] := row']
    {
      hide RowsOf, Snapshot, MirroredAdvice;
      var rows := RowsOf(reviewItems, k);
      var row := if rows == [] then |reviewItems| else rows[0];
      if rows == [] { reviewItems := reviewItems + [Snapshot(k, i, items[i])]; }
      reviewItems := reviewItems[row := reviewItems[row].(
        supplierId := review.supplierId, supplierName := review.supplierName, unitPrice := review.unitPrice,
        totalPrice := review.totalPrice, columns := reviewItems[row].columns + MirroredAdvice(review.columns))];
    }

    /** The assignments to the open round. */
    method AdviseReview(w: World, old_: Review, quantity: nat, f: ReviewFields) returns (r: Result<Review>)
      ensures r == AdvisedReview(w, quantity, old_, f)
    {
      hide EstimateTotal, Strip;
      var review := old_;
      if f.supplierName.Put? && f.supplierName.value.Some? {
        review := review.(supplierName := Some(Strip(f.supplierName.value.value)), supplierId := None);
      } else {
        if f.supplierId.Put? && f.supplierId.value.Some? {
          var id := f.supplierId.value.value;
          :- Check(w.UsableSupplier(id), SupplierNotFound);
          review := review.(supplierName := Some(w.suppliers[id].name));
        } else {
          review := review.(supplierName := f.supplierName.Over(review.supplierName));
        }
        review := review.(supplierId := f.supplierId.Over(review.supplierId));
      }
      review := review.(unitPrice := f.unitPrice.Over(review.unitPrice));
      var total :- EstimateTotal(quantity, review.unitPrice, f.totalPrice.Over(None), review.totalPrice);
      review := review.(totalPrice := total, columns := review.columns + f.columns);
      return Ok(review);
    }

    // ----- transitions

    /** WorkflowService.transition */
    method Move(w: World, actor: nat, expected: nat, op: Operation, token: string, assignee: Option<nat>,
                toOverride: Option<Status>, summary: Option<string>, used: set<string>) returns (r: Result<()>)
      modifies this
      ensures Agrees(Transition(w, actor, expected, old(Rows()), op, token, assignee, toOverride, summary, used), r,
        Rows())
    {
      hide NextHandler, ValidateActor;
      var unused := token !in used;
      :- Check(unused, DuplicateOperation);
      var rule := RuleOf(op);
      var to := toOverride.GetOr(rule.to);
      :- ValidateActor(w, actor, request, rule);
      :- Check(request.version == expected, ConcurrentModification);
      :- Check(request.status == rule.from, InvalidStatus);
      var handler: Option<nat> := None;
      if to != Completed { handler :- NextHandler(w, request, rule, assignee); }
      var updated := BumpVersion(expected, {rule.from});
      if !updated { return Err(ConcurrentModification); }
      request := request.(status := to, handler := handler);
      log := log + [LogEntry(actor, handler, Some(token), Moved(op), Some(rule.from), to, summary, w.now)];
      return Ok(());
    }

    method NotifyAssignee(w: World, event: Event, token: string)
      modifies this`outbox
      ensures Rows() == NotifyHandler(w, old(Rows()), event, token)
    {
      if request.handler.Some? && w.HasFeishu(request.handler.value) {
        outbox := outbox + [Note(event, token, request.handler.value)];
      }
    }

    method NotifyParticipants(w: World, token: string)
      modifies this`outbox
      ensures Rows() == NotifyCompletion(w, old(Rows()), token)
    {
      hide Receivers;
      var receivers, k := Receivers(Rows()), 0;
      while k < |receivers|
        invariant 0 <= k <= |receivers|
        invariant old(outbox) + CompletionNotes(w, receivers, token)
               == outbox + CompletionNotes(w, receivers[k..], token)
      {
        assert receivers[k..][0] == receivers[k] && receivers[k..][1..] == receivers[k + 1..];
        if w.HasFeishu(receivers[k]) { outbox := outbox + [Note(CompletedEvent, token, receivers[k])]; }
        k := k + 1;
      }
    }

    method SubmitForReview(w: World, actor: nat, expected: nat, again: bool, token: string, assignee: Option<nat>,
                           used: set<string>)
        returns (r: Result<()>)
      modifies this
      ensures Agrees(DoSendToReview(w, actor, expected, old(Rows()), again, token, assignee, used), r, Rows())
    {
      hide Actives, IsComplete, Transition;
      var ids := Actives(items);
      :- Check(ids != [] && forall i :: i in ids ==> IsComplete(items[i]), MissingRequiredFields);
      var op := if again then ResubmitReview else SubmitReview;
      var moved := Move(w, actor, expected, op, token, assignee, None, None, used);
      if moved.Err? { return moved; }
      NotifyAssignee(w, PendingReviewEvent, token);
      return Ok(());
    }

    method ConcludeReview(k: nat, verdict: Verdict, opinion: Option<string>)
      requires k < |reviews|
      modifies this`reviews
      ensures Rows() == Conclude(old(Rows()), k, verdict, opinion)
    {
      var review := reviews[k].(status := Closed, verdict := Some(verdict));
      if opinion.Some? { review := review.(opinion := opinion); }
      reviews := reviews[k := review];
    }

    method RejectWithReason(w: World, actor: nat, expected: nat, token: string, reason: string,
                            used: set<string>) returns (r: Result<()>)
      modifies this
      ensures Agrees(DoReject(w, actor, expected, old(Rows()), token, reason, used), r, Rows())
    {
      hide Transition, WithSnapshots, WithOpenReview;
      var allowed := CurrentHandler(w, actor, request, BuildingManager);
      :- allowed;
      var k := OpenReviewRound(actor);
      ConcludeReview(k, RejectedBy, Some(reason));
      r := Move(w, actor, expected, Reject, token, None, None, Some(reason), used);
    }

    method ApproveForPurchase(w: World, actor: nat, expected: nat, token: string, assignee: Option<nat>,
                              used: set<string>)
        returns (r: Result<()>)
      modifies this
      ensures Agrees(DoSendToPurchaser(w, actor, expected, old(Rows()), token, assignee, used), r, Rows())
    {
      hide Actives, RowsOf, Transition, WithSnapshots, WithOpenReview;
      var allowed := CurrentHandler(w, actor, request, BuildingManager);
      :- allowed;
      var k := OpenReviewRound(actor);
      :- Check(|RowsOf(reviewItems, k)| == |Actives(items)|, MissingRequiredFields);
      ConcludeReview(k, Approved, None);
      var moved := Move(w, actor, expected, SubmitPurchaser, token, assignee, None, None, used);
      if moved.Err? { return moved; }
      NotifyAssignee(w, PendingPurchaseEvent, token);
      return Ok(());
    }

    // ----- purchasing

    method SavePurchase(w: World, actor: nat, expected: nat, itemId: nat, f: PurchaseFields, token: Option<string>,
                        allowUpdate: bool, used: set<string>) returns (r: Result<()>)
      modifies this
      ensures Agrees(DoSavePurchaseItem(w, actor, expected, old(Rows()), itemId, f, token, allowUpdate, used), r,
        Rows())
    {
      hide FindExecution, ResolveSupplier, ValidateExecution, CurrentHandler, LineTotal;
      var allowed := CurrentHandler(w, actor, request, Purchaser);
      :- allowed;
      :- Check(request.status == Purchasing, InvalidStatus);
      :- Check(request.version == expected, ConcurrentModification);
      :- Check(token.None? || token.value !in used, DuplicateOperation);
      var found :- ResolveSupplier(w, reviews, f.supplierId);
      var supplier := found.0;
      reviews := found.1;
      :- Check(itemId < |items| && items[itemId].request == request.id, RequestItemNotFound);
      var item := items[itemId];
      var e := FindExecution(executions, itemId);
      :- ValidateExecution(item, if e.Some? then Some(executions[e.value]) else None);
      :- Check(e.None? || allowUpdate, ItemAlreadyPurchased);
      var total := LineTotal(item.quantity, f.unitPrice);
      :- Check(f.totalPrice.None? || f.totalPrice.value == total, ValidationError);
      if e.None? {
        var bought := Execution(request.id, itemId, actor, supplier, f.unitPrice, item.quantity, total, f.columns);
        executions := executions + [bought];
      } else {
        UpdateExecution(e.value, supplier, f.unitPrice, total, f.columns);
      }
      var updated := BumpVersion(expected, {Purchasing});
      if !updated { return Err(ConcurrentModification); }
      if token.Some? {
        var status := request.status;
        log := log + [LogEntry(actor, Some(actor), token, PurchaseItem, Some(status), status, None, w.now)];
      }
      return Ok(());
    }

    method UpdateExecution(e: nat, supplier: nat, unitPrice: nat, total: nat, columns: Columns)
      requires e < |executions|
      modifies this`executions
      ensures var updated := old(executions[e]).(supplier := supplier, unitPrice := unitPrice, total := total,
        columns := columns);
        executions == old(executions)[e := updated]
    {
      executions := executions[e := executions[e].(supplier := supplier)];
      executions := executions[e := executions[e].(unitPrice := unitPrice)];
      executions := executions[e := executions[e].(total := total)];
      executions := executions[e := executions[e].(columns := columns)];
    }

    method SavePurchaseLegacy(w: World, actor: nat, expected: nat, f: PurchaseFields,
                              used: set<string>) returns (r: Result<()>)
      modifies this
      ensures Agrees(DoSavePurchaseFields(w, actor, expected, old(Rows()), f, used), r, Rows())
    {
      hide Actives, DoSavePurchaseItem;
      var ids := Actives(items);
      :- Check(|ids| == 1, MultiItemNotSupported);
      r := SavePurchase(w, actor, expected, ids[0], f, None, true, used);
    }

    // ----- warehouse

    method SubmitToWarehouse(w: World, actor: nat, expected: nat, token: string, assignee: Option<nat>,
                             used: set<string>)
        returns (r: Result<()>)
      modifies this
      ensures Agrees(DoSendToWarehouse(w, actor, expected, old(Rows()), token, assignee, used), r, Rows())
    {
      hide Actives, AllExecuted, Transition, CompletionNotes, Receivers;
      var ids := Actives(items);
      :- Check(ids != [] && AllExecuted(items, executions), MissingRequiredFields);
      var needs := exists i :: i in ids && items[i].warehouse;
      var moved := Move(w, actor, expected, SubmitWarehouse, token, assignee,
                        Some(if needs then PendingWarehouse else Completed), None, used);
      if moved.Err? { return moved; }
      if needs { NotifyAssignee(w, PendingWarehouseEvent, token); } else { NotifyParticipants(w, token); }
      return Ok(());
    }

    method ReceiveGoods(w: World, actor: nat, expected: nat, token: string, e: nat, quantity: nat, used: set<string>)
        returns (r: Result<()>)
      modifies this
      ensures Agrees(DoAppendReceipt(w, actor, expected, old(Rows()), token, e, quantity, used), r, Rows())
    {
      hide ValidateReceipt, Received;
      var allowed := CurrentHandler(w, actor, request, WarehouseManager);
      :- allowed;
      :- Check(request.status == PendingWarehouse, InvalidStatus);
      :- Check(request.version == expected, ConcurrentModification);
      :- Check(token !in used, DuplicateOperation);
      :- Check(e < |executions| && executions[e].request == request.id, ExecutionNotFound);
      :- Check(executions[e].item < |items|, FulfillmentInvariantViolation);
      :- ValidateReceipt(items[executions[e].item], executions[e], Received(receipts, e), quantity);
      receipts := receipts + [Receipt(e, actor, quantity)];
      var updated := BumpVersion(expected, {PendingWarehouse});
      if !updated { return Err(ConcurrentModification); }
      var status := request.status;
      log := log + [LogEntry(actor, Some(actor), Some(token), Action.AppendReceipt, Some(status), status, None, w.now)];
      return Ok(());
    }

    method ReceiveGoodsLegacy(w: World, actor: nat, expected: nat, received: nat, remark: bool,
                              used: set<string>) returns (r: Result<()>)
      modifies this
      ensures Agrees(DoSaveWarehouseFields(w, actor, expected, old(Rows()), received, remark, used), r, Rows())
    {
      hide Actives, WarehouseItems, DoAppendReceipt, LegacyToken;
      var single := |WarehouseItems(items, Actives(items))| == 1 && |executions| == 1;
      :- Check(single, MultiItemNotSupported);
      :- Check(forall k :: 0 <= k < |receipts| ==> receipts[k].execution != 0, MultiItemNotSupported);
      :- Check(received >= executions[0].quantity || remark, ValidationError);
      r := ReceiveGoods(w, actor, expected, LegacyToken(request.id, expected), 0, received, used);
    }

    /** The loop of complete that derives every active item's fulfilment. */
    method AllFulfilled() returns (r: Result<bool>)
      ensures r == CompletionCheck(Rows(), Actives(items))
    {
      hide Actives, ItemStatus;
      var ids, done, k := Actives(items), true, |Actives(items)|;
      k := 0;
      while k < |ids|
        invariant 0 <= k <= |ids|
        invariant CompletionCheck(Rows(), ids)
               == match CompletionCheck(Rows(), ids[k..]) case Ok(b) => Ok(done && b) case Err(e) => Err(e)
      {
        assert ids[k..][0] == ids[k] && ids[k..][1..] == ids[k + 1..];
        var status :- ItemStatus(Rows(), ids[k]);
        done := done && (items[ids[k]].warehouse ==> status == Fulfilled);
        k := k + 1;
      }
      return Ok(done);
    }

    method CompleteRequest(w: World, actor: nat, expected: nat, token: string,
                           used: set<string>) returns (r: Result<()>)
      modifies this
      ensures Agrees(DoFinish(w, actor, expected, old(Rows()), token, used), r, Rows())
    {
      hide Actives, CompletionCheck, Transition, CompletionNotes, Receivers;
      var done := AllFulfilled();
      if done.Err? { return Err(done.error); }
      :- Check(done.value, MissingRequiredFields);
      var moved := Move(w, actor, expected, Complete, token, None, None, None, used);
      if moved.Err? { return moved; }
      NotifyParticipants(w, token);
      return Ok(());
    }

    // ----- one call as one transaction

    method Dispatch(c: Call, used: set<string>) returns (r: Result<()>)
      modifies this
      ensures Agrees(Exec(c, old(Rows()), used), r, Rows())
    {
      hide DoReplaceItems, DoSaveApplicantFields, DoSaveReviewItems, DoSaveReviewFields, DoSendToReview, DoReject,
        DoSendToPurchaser, DoBeginPurchase, DoSavePurchaseItem, DoSavePurchaseFields, DoSendToWarehouse,
        DoAppendReceipt, DoSaveWarehouseFields, DoFinish, SchemaOk;
      var w, a, v := c.world, c.actor, c.expected;
      :- Check(SchemaOk(c.command), ValidationError);
      match c.command
      case ReplaceItems(requestType, asset, lines) => r := ReplaceRequestItems(w, a, v, requestType, asset, lines);
      case SaveApplicantFields(name, quantity, unit, columns) =>
        var missing: seq<string>;
        r, missing := SaveApplicantFields(w, a, v, name, quantity, unit, columns);
      case SaveReviewItems(advice) => r := SaveReviewItems(w, a, v, advice);
      case SaveReviewFields(review) =>
        var missing: seq<string>;
        r, missing := SaveReviewFields(w, a, v, review);
      case SendToReview(again, token, assignee) => r := SubmitForReview(w, a, v, again, token, assignee, used);
      case RejectRequest(token, reason) => r := RejectWithReason(w, a, v, token, reason, used);
      case SendToPurchaser(token, assignee) => r := ApproveForPurchase(w, a, v, token, assignee, used);
      case BeginPurchase(token) => r := StartPurchasing(w, a, v, token, used);
      case SavePurchaseFields(fields) => r := SavePurchaseLegacy(w, a, v, fields, used);
      case SavePurchaseItem(item, token, fields) => r := SavePurchase(w, a, v, item, fields, Some(token), false, used);
      case SendToWarehouse(token, assignee) => r := SubmitToWarehouse(w, a, v, token, assignee, used);
      case SaveWarehouseFields(received, remark) => r := ReceiveGoodsLegacy(w, a, v, received, remark, used);
      case AppendReceipt(token, execution, received) => r := ReceiveGoods(w, a, v, token, execution, received, used);
      case Finish(token) => r := CompleteRequest(w, a, v, token, used);
    }

    method StartPurchasing(w: World, actor: nat, expected: nat, token: string,
                           used: set<string>) returns (r: Result<()>)
      modifies this
      ensures Agrees(DoBeginPurchase(w, actor, expected, old(Rows()), token, used), r, Rows())
    {
      hide Transition;
      r := Move(w, actor, expected, StartPurchase, token, None, None, None, used);
    }

    method Rollback(s: Aggregate)
      modifies this
      ensures Rows() == s
    {
      request, items, reviews, reviewItems := s.request, s.items, s.reviews, s.reviewItems;
      executions, receipts, log, outbox := s.executions, s.receipts, s.log, s.outbox;
    }

    /** The whole HTTP request is one transaction: an error leaves no trace. */
    method Handle(c: Call, used: set<string>) returns (r: Result<()>)
      modifies this
      ensures Rows() == After(old(Rows()), Turn(c, used))
      ensures r.Ok? <==> Exec(c, old(Rows()), used).Ok?
      ensures r.Err? ==> Exec(c, old(Rows()), used) == Err(r.error)
    {
      hide Exec;
      var begin := Rows();
      r := Dispatch(c, used);
      if r.Err? { Rollback(begin); }
    }
  }
}
