/** What any successful command may change: the version always advances by one,
    the identity of the request never changes, each table is written only by the
    commands that own it, and the log either stays or grows by one entry. */
module Effects {
  import opened Common
  import opened Workflow
  import opened Procurement
  import opened Fulfillment
  import opened Commands

  function OperationOf(c: Command): Option<Operation> {
    match c
    case SendToReview(again, _, _) => Some(if again then ResubmitReview else SubmitReview)
    case RejectRequest(_, _) => Some(Reject)
    case SendToPurchaser(_, _) => Some(SubmitPurchaser)
    case BeginPurchase(_) => Some(StartPurchase)
    case SendToWarehouse(_, _) => Some(SubmitWarehouse)
    case Finish(_) => Some(Complete)
    case _ => None
  }

  function TokenOf(c: Command, request: nat, expected: nat): Option<string> {
    match c
    case SendToReview(_, token, _) => Some(token)
    case RejectRequest(token, _) => Some(token)
    case SendToPurchaser(token, _) => Some(token)
    case BeginPurchase(token) => Some(token)
    case SavePurchaseItem(_, token, _) => Some(token)
    case SendToWarehouse(token, _) => Some(token)
    case SaveWarehouseFields(_, _) => Some(LegacyToken(request, expected))
    case AppendReceipt(token, _, _) => Some(token)
    case Finish(token) => Some(token)
    case _ => None
  }

  predicate EditsItems(c: Command) { c.ReplaceItems? || c.SaveApplicantFields? }
  predicate EditsReviews(c: Command) {
    c.SaveReviewItems? || c.SaveReviewFields? || c.RejectRequest? || c.SendToPurchaser?
  }
  predicate Purchases(c: Command) { c.SavePurchaseItem? || c.SavePurchaseFields? }
  predicate Receives(c: Command) { c.AppendReceipt? || c.SaveWarehouseFields? }

  /** Where operation `op` leads from `s`. */
  predicate LeadsTo(op: Operation, s: Aggregate, to: Status) {
    if op == SubmitWarehouse then to == if NeedsWarehouse(s) then PendingWarehouse else Completed
    else to == RuleOf(op).to
  }

  predicate SameCustody(s: Aggregate, t: Aggregate) {
    t.request.status == s.request.status && t.request.handler == s.request.handler
  }

  /** The log entry of a status change and the custody it hands over. */
  predicate MoveRecorded(c: Call, s: Aggregate, t: Aggregate, op: Operation, e: LogEntry) {
    && s.request.status == RuleOf(op).from && LeadsTo(op, s, t.request.status)
    && ValidateActor(c.world, c.actor, s.request, RuleOf(op)).Pass?
    && e.action == Moved(op) && e.operator == c.actor
    && e.from == Some(s.request.status) && e.to == t.request.status
    && e.assignedTo == t.request.handler
    && (t.request.status == Completed ==> t.request.handler.None?)
    && (RuleOf(op).assignToApplicant ==> t.request.handler == Some(s.request.applicant))
    && (op == StartPurchase ==> t.request.handler == s.request.handler)
    && (RuleOf(op).target.Some? && t.request.status != Completed ==>
          && t.request.handler.Some?
          && c.world.ValidHandler(t.request.handler.value, RuleOf(op).target.value,
               if RuleOf(op).target.value == BuildingManager then Some(s.request.building) else None))
  }

  /** The log entry of an item purchase or a receipt: custody stays. */
  predicate WorkRecorded(c: Call, s: Aggregate, t: Aggregate, e: LogEntry) {
    && SameCustody(s, t)
    && e.action == (if Purchases(c.command) then PurchaseItem else Action.AppendReceipt)
    && e.operator == c.actor && e.assignedTo == Some(c.actor) && e.summary == None
    && e.from == Some(s.request.status) && e.to == s.request.status
  }

  predicate Logged(c: Call, s: Aggregate, t: Aggregate, used: set<string>) {
    var op := OperationOf(c.command);
    var token := TokenOf(c.command, s.request.id, c.expected);
    if token.None? then t.log == s.log && SameCustody(s, t)
    else
      && |t.log| == |s.log| + 1 && t.log == s.log + [t.log[|s.log|]]
      && t.log[|s.log|].token == token && token.value !in used && t.log[|s.log|].at == c.world.now
      && (op.Some? ==> MoveRecorded(c, s, t, op.value, t.log[|s.log|]))
      && (op.None? ==> WorkRecorded(c, s, t, t.log[|s.log|]))
  }

  /** Only version, status and handler may differ. */
  predicate SameHeader(q: Request, q': Request) {
    q' == q.(version := q'.version, status := q'.status, handler := q'.handler)
  }

  predicate Framed(c: Call, s: Aggregate, t: Aggregate) {
    && t.request.id == s.request.id && t.request.building == s.request.building
    && t.request.applicant == s.request.applicant
    && c.expected == s.request.version && t.request.version == s.request.version + 1
    && (!EditsItems(c.command) ==> t.items == s.items && SameHeader(s.request, t.request))
    && (!EditsReviews(c.command) ==> t.reviewItems == s.reviewItems)
    && (!EditsReviews(c.command) && !Purchases(c.command) ==> t.reviews == s.reviews)
    && (!Purchases(c.command) ==> t.executions == s.executions)
    && (!Receives(c.command) ==> t.receipts == s.receipts)
    && (OperationOf(c.command).None? ==> t.outbox == s.outbox)
    && (EditsItems(c.command) ==> s.request.status in {Status.Draft, Rejected, PendingReview})
    && (EditsReviews(c.command) ==> s.request.status == PendingReview)
    && (Purchases(c.command) ==> s.request.status == Purchasing)
    && (Receives(c.command) ==> s.request.status == PendingWarehouse)
  }

  /** What WorkflowService.transition leaves behind. */
  lemma TransitionEffects(w: World, actor: nat, expected: nat, s: Aggregate, op: Operation, token: string,
                          assignee: Option<nat>, to: Option<Status>, summary: Option<string>,
                          used: set<string>, t: Aggregate)
    requires Transition(w, actor, expected, s, op, token, assignee, to, summary, used) == Ok(t)
    ensures token !in used && expected == s.request.version && s.request.status == RuleOf(op).from
    ensures ValidateActor(w, actor, s.request, RuleOf(op)).Pass?
    ensures t == s.(request := t.request, log := t.log)
    ensures var (q, q') := (s.request, t.request);
      && q' == q.(version := q.version + 1, status := to.GetOr(RuleOf(op).to), handler := q'.handler)
      && t.log == s.log + [LogEntry(actor, q'.handler, Some(token), Moved(op), Some(q.status), q'.status, summary,
                                    w.now)]
    ensures if t.request.status == Completed then t.request.handler.None?
            else NextHandler(w, s.request, RuleOf(op), assignee) == Ok(t.request.handler)
  {}

  /** A status change whose preparation touches only the review tables and whose
      aftermath touches only the outbox. */
  lemma MoveEffects(c: Call, s: Aggregate, prepared: Aggregate, moved: Aggregate, t: Aggregate, op: Operation,
                    token: string, assignee: Option<nat>, to: Option<Status>, summary: Option<string>,
                    used: set<string>)
    requires OperationOf(c.command) == Some(op) && TokenOf(c.command, s.request.id, c.expected) == Some(token)
    requires prepared == s.(reviews := prepared.reviews, reviewItems := prepared.reviewItems)
    requires prepared != s ==> EditsReviews(c.command)
    requires Transition(c.world, c.actor, c.expected, prepared, op, token, assignee, to, summary, used) == Ok(moved)
    requires to
      == if op == SubmitWarehouse then Some(if NeedsWarehouse(s) then PendingWarehouse else Completed) else None
    requires t == moved.(outbox := t.outbox)
    ensures Framed(c, s, t) && Logged(c, s, t, used)
  {
    hide Transition, NeedsWarehouse, ValidateActor, LegacyToken;
    TransitionEffects(c.world, c.actor, c.expected, prepared, op, token, assignee, to, summary, used, moved);
  }

  lemma EditEffects(c: Call, s: Aggregate, t: Aggregate, used: set<string>)
    requires c.command.ReplaceItems? || c.command.SaveApplicantFields?
    requires Exec(c, s, used) == Ok(t)
    ensures Framed(c, s, t) && Logged(c, s, t, used)
  {
    hide Actives, ReplaceLines, Deactivate, MirrorItem, DistinctNumbers, MaxNo;
  }

  lemma AdviceEffects(c: Call, s: Aggregate, t: Aggregate, used: set<string>)
    requires c.command.SaveReviewItems? || c.command.SaveReviewFields?
    requires Exec(c, s, used) == Ok(t)
    ensures Framed(c, s, t) && Logged(c, s, t, used)
  {
    hide Actives, WithOpenReview, WithSnapshots, ReviewLines, EstimateTotal, RowsOf, OpenReview;
  }

  lemma SendToReviewEffects(c: Call, s: Aggregate, t: Aggregate, used: set<string>)
    requires c.command.SendToReview?
    requires var x := c.command;
      DoSendToReview(c.world, c.actor, c.expected, s, x.again, x.token, x.assignee, used) == Ok(t)
    ensures Framed(c, s, t) && Logged(c, s, t, used)
  {
    hide Actives, IsComplete, Transition, Framed, Logged;
    var op := if c.command.again then ResubmitReview else SubmitReview;
    var x := Transition(c.world, c.actor, c.expected, s, op, c.command.token, c.command.assignee, None, None, used);
    MoveEffects(c, s, s, x.value, t, op, c.command.token, c.command.assignee, None, None, used);
  }

  lemma RejectEffects(c: Call, s: Aggregate, t: Aggregate, used: set<string>)
    requires c.command.RejectRequest?
    requires DoReject(c.world, c.actor, c.expected, s, c.command.token, c.command.reason, used) == Ok(t)
    ensures Framed(c, s, t) && Logged(c, s, t, used)
  {
    hide Actives, WithOpenReview, WithSnapshots, Transition, Framed, Logged;
    var (u, r) := OpenRound(s, c.actor);
    var p := Conclude(u, r, RejectedBy, Some(c.command.reason));
    MoveEffects(c, s, p, t, t, Reject, c.command.token, None, None, Some(c.command.reason), used);
  }

  lemma SendToPurchaserEffects(c: Call, s: Aggregate, t: Aggregate, used: set<string>)
    requires c.command.SendToPurchaser?
    requires DoSendToPurchaser(c.world, c.actor, c.expected, s, c.command.token, c.command.assignee, used) == Ok(t)
    ensures Framed(c, s, t) && Logged(c, s, t, used)
  {
    hide Actives, WithOpenReview, WithSnapshots, RowsOf, Transition, Framed, Logged;
    var (u, r) := OpenRound(s, c.actor);
    var p := Conclude(u, r, Approved, None);
    var token, assignee := c.command.token, c.command.assignee;
    var x := Transition(c.world, c.actor, c.expected, p, SubmitPurchaser, token, assignee, None, None, used);
    MoveEffects(c, s, p, x.value, t, SubmitPurchaser, c.command.token, c.command.assignee, None, None, used);
  }

  lemma BeginPurchaseEffects(c: Call, s: Aggregate, t: Aggregate, used: set<string>)
    requires c.command.BeginPurchase?
    requires DoBeginPurchase(c.world, c.actor, c.expected, s, c.command.token, used) == Ok(t)
    ensures Framed(c, s, t) && Logged(c, s, t, used)
  {
    hide Transition, Framed, Logged;
    MoveEffects(c, s, s, t, t, StartPurchase, c.command.token, None, None, None, used);
  }

  lemma SendToWarehouseEffects(c: Call, s: Aggregate, t: Aggregate, used: set<string>)
    requires c.command.SendToWarehouse?
    requires DoSendToWarehouse(c.world, c.actor, c.expected, s, c.command.token, c.command.assignee, used) == Ok(t)
    ensures Framed(c, s, t) && Logged(c, s, t, used)
  {
    hide Actives, AllExecuted, NeedsWarehouse, CompletionNotes, Receivers, Transition, Framed, Logged;
    var to := Some(if NeedsWarehouse(s) then PendingWarehouse else Completed);
    var token, assignee := c.command.token, c.command.assignee;
    var x := Transition(c.world, c.actor, c.expected, s, SubmitWarehouse, token, assignee, to, None, used);
    MoveEffects(c, s, s, x.value, t, SubmitWarehouse, c.command.token, c.command.assignee, to, None, used);
  }

  lemma FinishEffects(c: Call, s: Aggregate, t: Aggregate, used: set<string>)
    requires c.command.Finish?
    requires DoFinish(c.world, c.actor, c.expected, s, c.command.token, used) == Ok(t)
    ensures Framed(c, s, t) && Logged(c, s, t, used)
  {
    hide Actives, CompletionCheck, CompletionNotes, Receivers, Transition, Framed, Logged;
    var x := Transition(c.world, c.actor, c.expected, s, Complete, c.command.token, None, None, None, used);
    MoveEffects(c, s, s, x.value, t, Complete, c.command.token, None, None, None, used);
  }

  lemma PurchaseEffects(c: Call, s: Aggregate, t: Aggregate, item: nat, f: PurchaseFields, token: Option<string>,
                        allowUpdate: bool, used: set<string>)
    requires Purchases(c.command) && token == TokenOf(c.command, s.request.id, c.expected)
    requires DoSavePurchaseItem(c.world, c.actor, c.expected, s, item, f, token, allowUpdate, used) == Ok(t)
    ensures Framed(c, s, t) && Logged(c, s, t, used)
  {
    hide ResolveSupplier, FindExecution, ValidateExecution, LegacyToken;
  }

  lemma ReceiptEffects(c: Call, s: Aggregate, t: Aggregate, token: string, e: nat, quantity: nat, used: set<string>)
    requires Receives(c.command) && Some(token) == TokenOf(c.command, s.request.id, c.expected)
    requires DoAppendReceipt(c.world, c.actor, c.expected, s, token, e, quantity, used) == Ok(t)
    ensures Framed(c, s, t) && Logged(c, s, t, used)
  {
    hide Received, ValidateReceipt, LegacyToken;
  }

  lemma ExecEffects(c: Call, s: Aggregate, t: Aggregate, used: set<string>)
    requires Exec(c, s, used) == Ok(t)
    ensures Framed(c, s, t) && Logged(c, s, t, used)
  {
    hide Framed, Logged, DoReplaceItems, DoSaveApplicantFields, DoSaveReviewItems, DoSaveReviewFields,
      DoSendToReview, DoReject, DoSendToPurchaser, DoBeginPurchase, DoSavePurchaseItem, DoSendToWarehouse,
      DoAppendReceipt, DoFinish, Actives, WarehouseItems, LegacyToken;
    match c.command
    case SendToReview(_, _, _) => SendToReviewEffects(c, s, t, used);
    case RejectRequest(_, _) => RejectEffects(c, s, t, used);
    case SendToPurchaser(_, _) => SendToPurchaserEffects(c, s, t, used);
    case BeginPurchase(_) => BeginPurchaseEffects(c, s, t, used);
    case SendToWarehouse(_, _) => SendToWarehouseEffects(c, s, t, used);
    case Finish(_) => FinishEffects(c, s, t, used);
    case SavePurchaseFields(f) => PurchaseEffects(c, s, t, Actives(s.items)[0], f, None, true, used);
    case SavePurchaseItem(item, token, f) => PurchaseEffects(c, s, t, item, f, Some(token), false, used);
    case SaveWarehouseFields(received, _) =>
      ReceiptEffects(c, s, t, LegacyToken(s.request.id, c.expected), 0, received, used);
    case AppendReceipt(token, e, received) => ReceiptEffects(c, s, t, token, e, received, used);
    case ReplaceItems(_, _, _) => EditEffects(c, s, t, used);
    case SaveApplicantFields(_, _, _, _) => EditEffects(c, s, t, used);
    case SaveReviewItems(_) => AdviceEffects(c, s, t, used);
    case SaveReviewFields(_) => AdviceEffects(c, s, t, used);
  }
}
