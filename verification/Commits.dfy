/** What a transaction brings to its commit: the guard of its compare-and-set, its
    action token, and rows that only extend or edit the tables it read. */
module Commits {
  import opened Common
  import opened Workflow
  import opened Procurement
  import opened Fulfillment
  import opened Commands
  import opened Effects
  import opened Invariants
  import opened ReviewInvariant
  import opened FulfillmentInvariant
  import opened DedupKeys

  /** The statuses in the WHERE clause of the call's UPDATE. */
  function Allowed(c: Call, q: Request): set<Status> {
    match c.command
    case ReplaceItems(_, _, _) => {Status.Draft, Rejected}
    case SaveApplicantFields(_, _, _, _) =>
      if ManagerMayEdit(c.world, c.actor, q) then {PendingReview} else {Status.Draft, Rejected}
    case SaveReviewItems(_) => {PendingReview}
    case SaveReviewFields(_) => {PendingReview}
    case SavePurchaseFields(_) => {Purchasing}
    case SavePurchaseItem(_, _, _) => {Purchasing}
    case SaveWarehouseFields(_, _) => {PendingWarehouse}
    case AppendReceipt(_, _, _) => {PendingWarehouse}
    case _ => {RuleOf(OperationOf(c.command).value).from}
  }

  /** A call that succeeds on a state passes its own compare-and-set there. */
  lemma SuccessPassesCas(c: Call, s: Aggregate, used: set<string>, t: Aggregate)
    requires Exec(c, s, used) == Ok(t)
    ensures CasHolds(s.request, c.expected, Allowed(c, s.request))
  {
    if c.command.SaveApplicantFields? { ApplicantCas(c, s, used); }
    else if c.command.ReplaceItems? { ReplaceCas(c, s, used); }
    else {
      hide Exec, LegacyToken, NeedsWarehouse, ValidateActor;
      ExecEffects(c, s, t, used);
    }
  }

  lemma ApplicantCas(c: Call, s: Aggregate, used: set<string>)
    requires c.command.SaveApplicantFields? && Exec(c, s, used).Ok?
    ensures CasHolds(s.request, c.expected, Allowed(c, s.request))
  {
    hide MirrorItem, Actives, DistinctNumbers;
  }

  lemma ReplaceCas(c: Call, s: Aggregate, used: set<string>)
    requires c.command.ReplaceItems? && Exec(c, s, used).Ok?
    ensures CasHolds(s.request, c.expected, Allowed(c, s.request))
  {
    hide ReplaceLines, MaxNo, DistinctNumbers;
  }

  predicate TokenFree(c: Call, q: Request, used: set<string>) {
    var token := TokenOf(c.command, q.id, c.expected);
    token.None? || token.value !in used
  }

  /** The token log only decides whether a call is a duplicate. */
  lemma OnlyTheTokenMatters(c: Call, s: Aggregate, used: set<string>, used': set<string>, t: Aggregate)
    requires Exec(c, s, used) == Ok(t) && TokenFree(c, s.request, used')
    ensures Exec(c, s, used') == Ok(t)
  {
    hide DoReplaceItems, DoSaveApplicantFields, DoSaveReviewItems, DoSaveReviewFields, Actives, RowsOf, WithSnapshots,
      WithOpenReview, CompletionCheck, CompletionNotes, Receivers, NeedsWarehouse, LegacyToken, WarehouseItems,
      Received, FindExecution, ResolveSupplier, AllExecuted, IsComplete, NextHandler, ValidateActor;
    match c.command
    case SavePurchaseFields(_) => PurchaseToken(c, s, used, used');
    case SavePurchaseItem(_, _, _) => PurchaseToken(c, s, used, used');
    case SaveWarehouseFields(_, _) => ReceiptToken(c, s, used, used');
    case AppendReceipt(_, _, _) => ReceiptToken(c, s, used, used');
    case SendToReview(_, _, _) => MoveToken(c, s, used, used');
    case RejectRequest(_, _) => MoveToken(c, s, used, used');
    case SendToPurchaser(_, _) => MoveToken(c, s, used, used');
    case BeginPurchase(_) => MoveToken(c, s, used, used');
    case SendToWarehouse(_, _) => MoveToken(c, s, used, used');
    case Finish(_) => MoveToken(c, s, used, used');
    case _ =>
  }

  lemma TransitionToken(w: World, actor: nat, expected: nat, s: Aggregate, op: Operation, token: string,
                        assignee: Option<nat>, to: Option<Status>, summary: Option<string>,
                        used: set<string>, used': set<string>)
    requires Transition(w, actor, expected, s, op, token, assignee, to, summary, used).Ok? && token !in used'
    ensures Transition(w, actor, expected, s, op, token, assignee, to, summary, used')
         == Transition(w, actor, expected, s, op, token, assignee, to, summary, used)
  {
    hide NextHandler, ValidateActor;
  }

  lemma MoveToken(c: Call, s: Aggregate, used: set<string>, used': set<string>)
    requires OperationOf(c.command).Some? && Exec(c, s, used).Ok? && TokenFree(c, s.request, used')
    ensures Exec(c, s, used') == Exec(c, s, used)
  {
    hide Transition, Actives, RowsOf, WithSnapshots, WithOpenReview, CompletionCheck, CompletionNotes, Receivers,
      NeedsWarehouse, AllExecuted, IsComplete, LegacyToken;
    var w, a, v := c.world, c.actor, c.expected;
    match c.command
    case SendToReview(again, token, assignee) =>
      var op := if again then ResubmitReview else SubmitReview;
      TransitionToken(w, a, v, s, op, token, assignee, None, None, used, used');
    case RejectRequest(token, reason) =>
      var (u, r) := OpenRound(s, a);
      var closed := Conclude(u, r, RejectedBy, Some(reason));
      TransitionToken(w, a, v, closed, Reject, token, None, None, Some(reason), used, used');
    case SendToPurchaser(token, assignee) =>
      var (u, r) := OpenRound(s, a);
      var closed := Conclude(u, r, Approved, None);
      TransitionToken(w, a, v, closed, SubmitPurchaser, token, assignee, None, None, used, used');
    case BeginPurchase(token) =>
      TransitionToken(w, a, v, s, StartPurchase, token, None, None, None, used, used');
    case SendToWarehouse(token, assignee) =>
      TransitionToken(w, a, v, s, SubmitWarehouse, token, assignee,
                      Some(if NeedsWarehouse(s) then PendingWarehouse else Completed), None, used, used');
    case Finish(token) =>
      TransitionToken(w, a, v, s, Complete, token, None, None, None, used, used');
  }

  lemma PurchaseToken(c: Call, s: Aggregate, used: set<string>, used': set<string>)
    requires Purchases(c.command) && Exec(c, s, used).Ok? && TokenFree(c, s.request, used')
    ensures Exec(c, s, used') == Exec(c, s, used)
  {
    hide Actives, FindExecution, ResolveSupplier, ValidateExecution, LegacyToken;
  }

  lemma ReceiptToken(c: Call, s: Aggregate, used: set<string>, used': set<string>)
    requires Receives(c.command) && Exec(c, s, used).Ok? && TokenFree(c, s.request, used')
    ensures Exec(c, s, used') == Exec(c, s, used)
  {
    hide Actives, Received, ValidateReceipt, LegacyToken, WarehouseItems;
  }

  // ----- tables grow

  predicate Grows(s: Aggregate, t: Aggregate) {
    && |s.items| <= |t.items| && |s.reviews| <= |t.reviews| && |s.reviewItems| <= |t.reviewItems|
    && |s.executions| <= |t.executions| && |s.receipts| <= |t.receipts|
    && |s.log| <= |t.log| && |s.outbox| <= |t.outbox|
  }

  lemma StepGrows(c: Call, s: Aggregate, used: set<string>, t: Aggregate)
    requires Inv(s) && Exec(c, s, used) == Ok(t)
    ensures Grows(s, t)
  {
    hide Exec, Inv, WithOpenReview, WithSnapshots, Conclude, LegacyToken, NeedsWarehouse, ValidateActor, RowsOf,
      Actives;
    assert ItemsOk(s) && RoundsOk(s) && SnapshotsOk(s) && ExecutionsOk(s) && ReceiptsOk(s) by { Parts(s); }
    ExecEffects(c, s, t, used);
    StepKeepsExecutions(c, s, used, t);
    StepKeepsReceipts(c, s, used, t);
    NewNotes(c, s, used, t);
    if c.command.ReplaceItems? { ReplaceGrows(c, s, used, t); }
    if c.command.SaveApplicantFields? { ApplicantFieldsKeepActives(c, s, used, t); }
    if EditsReviews(c.command) { ReviewTablesGrow(c, s, used, t); }
    if Purchases(c.command) { PurchaseKeepsRounds(c, s, used, t); }
  }

  lemma Parts(s: Aggregate)
    requires Inv(s)
    ensures ItemsOk(s) && RoundsOk(s) && SnapshotsOk(s) && ExecutionsOk(s) && ReceiptsOk(s) && CustodyOk(s.request)
  {}

  lemma ReviewTablesGrow(c: Call, s: Aggregate, used: set<string>, t: Aggregate)
    requires RoundsOk(s) && SnapshotsOk(s) && EditsReviews(c.command) && Exec(c, s, used) == Ok(t)
    ensures |s.reviews| <= |t.reviews| && |s.reviewItems| <= |t.reviewItems|
  {
    hide Exec, WithOpenReview, WithSnapshots, RowsOf, Actives, ReviewedItems, UniqueReviewItems;
    OpenRoundIsLast(s, c.actor);
    OpenRoundListsActive(s, c.actor);
    if c.command.SaveReviewItems? { SaveReviewItemsKeys(c, s, used, t); }
    else if c.command.SaveReviewFields? { SaveReviewFieldsKeys(c, s, used, t); }
    else { VerdictTables(c, s, used, t); }
  }

  lemma VerdictTables(c: Call, s: Aggregate, used: set<string>, t: Aggregate)
    requires c.command.RejectRequest? || c.command.SendToPurchaser?
    requires Exec(c, s, used) == Ok(t)
    ensures var (u, r) := OpenRound(s, c.actor); |t.reviews| == |u.reviews| && t.reviewItems == u.reviewItems
  {
    hide WithOpenReview, WithSnapshots, RowsOf, Actives, NextHandler, ValidateActor;
  }

  // ----- notifications

  /** The rows a call adds to the outbox all carry its token and are different. */
  lemma NewNotes(c: Call, s: Aggregate, used: set<string>, t: Aggregate)
    requires Exec(c, s, used) == Ok(t)
    ensures s.outbox <= t.outbox && NoDuplicates(t.outbox[|s.outbox|..])
    ensures forall k :: |s.outbox| <= k < |t.outbox| ==>
      TokenOf(c.command, s.request.id, c.expected) == Some(t.outbox[k].token)
  {
    if OperationOf(c.command).None? {
      hide Exec, Logged, LegacyToken;
      ExecEffects(c, s, t, used);
    } else { MoveNotes(c, s, used, t); }
  }

  lemma MoveNotes(c: Call, s: Aggregate, used: set<string>, t: Aggregate)
    requires OperationOf(c.command).Some? && Exec(c, s, used) == Ok(t)
    ensures s.outbox <= t.outbox && NoDuplicates(t.outbox[|s.outbox|..])
    ensures forall k :: |s.outbox| <= k < |t.outbox| ==>
      TokenOf(c.command, s.request.id, c.expected) == Some(t.outbox[k].token)
  {
    hide Actives, RowsOf, WithSnapshots, WithOpenReview, CompletionCheck, CompletionNotes, Receivers, NeedsWarehouse,
      AllExecuted, IsComplete, LegacyToken, NextHandler, ValidateActor, Exec;
    var token := TokenOf(c.command, s.request.id, c.expected).value;
    match c.command
    case SendToReview(_, _, _) => HandlerNotes(c, s, used, t);
    case SendToPurchaser(_, _) => HandlerNotes(c, s, used, t);
    case SendToWarehouse(_, _) =>
      if NeedsWarehouse(s) { HandlerNotes(c, s, used, t); } else { ClosingNotes(c, s, used, t); }
    case Finish(_) => ClosingNotes(c, s, used, t);
    case RejectRequest(_, _) => NoNotes(c, s, used, t);
    case BeginPurchase(_) => NoNotes(c, s, used, t);
  }

  lemma NoNotes(c: Call, s: Aggregate, used: set<string>, t: Aggregate)
    requires c.command.RejectRequest? || c.command.BeginPurchase?
    requires Exec(c, s, used) == Ok(t)
    ensures t.outbox == s.outbox
  {
    hide WithSnapshots, WithOpenReview, NextHandler, ValidateActor, Actives;
  }

  lemma HandlerNotes(c: Call, s: Aggregate, used: set<string>, t: Aggregate)
    requires c.command.SendToReview? || c.command.SendToPurchaser? || (c.command.SendToWarehouse? && NeedsWarehouse(s))
    requires Exec(c, s, used) == Ok(t)
    ensures t.outbox == s.outbox
      || (|t.outbox| == |s.outbox| + 1 && s.outbox <= t.outbox && t.outbox[|s.outbox|].token == c.command.token)
  {
    hide Actives, RowsOf, WithSnapshots, WithOpenReview, NeedsWarehouse, AllExecuted, IsComplete, NextHandler,
      ValidateActor, CompletionNotes, Receivers;
  }

  lemma ClosingNotes(c: Call, s: Aggregate, used: set<string>, t: Aggregate)
    requires c.command.Finish? || (c.command.SendToWarehouse? && !NeedsWarehouse(s))
    requires Exec(c, s, used) == Ok(t)
    ensures s.outbox <= t.outbox && NoDuplicates(t.outbox[|s.outbox|..])
    ensures forall k :: |s.outbox| <= k < |t.outbox| ==> t.outbox[k].token == c.command.token
  {
    hide CompletionNotes, Receivers, Exec;
    var moved := ClosingShape(c, s, used, t);
    ReceiversAscending(moved);
    var notes := CompletionNotes(c.world, Receivers(moved), c.command.token);
    CompletionNotesDistinct(c.world, Receivers(moved), c.command.token);
    assert t.outbox[|s.outbox|..] == notes;
    forall k | |s.outbox| <= k < |t.outbox| ensures t.outbox[k].token == c.command.token {
      assert t.outbox[k] == notes[k - |s.outbox|] && t.outbox[k] in notes;
    }
  }

  lemma ClosingShape(c: Call, s: Aggregate, used: set<string>, t: Aggregate) returns (moved: Aggregate)
    requires c.command.Finish? || (c.command.SendToWarehouse? && !NeedsWarehouse(s))
    requires Exec(c, s, used) == Ok(t)
    ensures t.outbox == s.outbox + CompletionNotes(c.world, Receivers(moved), c.command.token)
  {
    hide CompletionNotes, Receivers, Actives, CompletionCheck, NeedsWarehouse, AllExecuted, NextHandler, ValidateActor;
    var op := if c.command.Finish? then Complete else SubmitWarehouse;
    var to := if c.command.Finish? then None else Some(Completed);
    var assignee := if c.command.Finish? then None else c.command.assignee;
    moved := Transition(c.world, c.actor, c.expected, s, op, c.command.token, assignee, to, None, used).value;
  }
}
