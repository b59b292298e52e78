/** What speaks against a status change, stated without the order of the checks, and that
    a change is accepted only if nothing does and refused only for what does. */
module MoveRefusals {
  import opened Common
  import opened Workflow
  import opened Procurement
  import opened Fulfillment
  import opened Commands
  import opened Invariants
  import opened ReviewInvariant
  import opened FulfillmentInvariant

  // ----- who and when

  /** Against a status change; `handedTo` is whom it asks to take over, if anybody must. */
  predicate WrongMove(e: ErrorCode, c: Call, q: Request, op: Operation, token: string, mustName: bool,
                      handedTo: Option<nat>, used: set<string>) {
    var role := RuleOf(op).required;
    match e
    case DuplicateOperation => token in used
    case PermissionDenied =>
      || !c.world.HasRole(c.actor, role)
      || (if role == Applicant then q.applicant != c.actor else q.handler != Some(c.actor))
    case BuildingNotAllowed => role == BuildingManager && Elsewhere(c.world, c.actor, q.building)
    case InvalidStatus => q.status != RuleOf(op).from
    case ConcurrentModification => c.expected != q.version
    case InvalidHandler => mustName && !(handedTo.Some? && CanTakeOver(c.world, handedTo.value, q, op))
    case _ => false
  }

  /** Neither in the building nor an administrator. */
  predicate Elsewhere(w: World, who: nat, building: nat) { !w.InBuilding(who, building) && !w.HasRole(who, Admin) }

  /** A reachable employee with the role of the next stage; a manager of that building. */
  predicate CanTakeOver(w: World, who: nat, q: Request, op: Operation) {
    && RuleOf(op).target.Some? && who in w.staff && w.staff[who].reachable && w.HasRole(who, RuleOf(op).target.value)
    && (RuleOf(op).target.value == BuildingManager ==> w.InBuilding(who, q.building))
  }

  lemma RuleShape(op: Operation)
    ensures RuleOf(op).target.Some? ==> !RuleOf(op).clearHandler && !RuleOf(op).assignToApplicant
    ensures op != SubmitWarehouse ==> (RuleOf(op).to == Completed ==> RuleOf(op).target.None?)
  {}

  predicate MustName(op: Operation, to: Option<Status>) {
    RuleOf(op).target.Some? && to.GetOr(RuleOf(op).to) != Completed
  }

  lemma MoveAccepted(c: Call, s: Aggregate, op: Operation, token: string, handedTo: Option<nat>, to: Option<Status>,
                     summary: Option<string>, used: set<string>)
    requires Transition(c.world, c.actor, c.expected, s, op, token, handedTo, to, summary, used).Ok?
    ensures forall e :: !WrongMove(e, c, s.request, op, token, MustName(op, to), handedTo, used)
  {
    hide RuleOf;
    RuleShape(op);
  }

  lemma MoveRefused(c: Call, s: Aggregate, op: Operation, token: string, handedTo: Option<nat>, to: Option<Status>,
                    summary: Option<string>, used: set<string>)
    requires Transition(c.world, c.actor, c.expected, s, op, token, handedTo, to, summary, used).Err?
    ensures var r := Transition(c.world, c.actor, c.expected, s, op, token, handedTo, to, summary, used);
      WrongMove(r.error, c, s.request, op, token, MustName(op, to), handedTo, used)
  {
    hide RuleOf;
    RuleShape(op);
  }

  // ----- review

  predicate AgainstReviewMove(e: ErrorCode, c: Call, s: Aggregate, used: set<string>)
    requires c.command.SendToReview?
  {
    var x, op := c.command, if c.command.again then ResubmitReview else SubmitReview;
    || (e == MissingRequiredFields && !(exists i :: 0 <= i < |s.items| && s.items[i].active))
    || (e == MissingRequiredFields && exists i :: 0 <= i < |s.items| && s.items[i].active && !IsComplete(s.items[i]))
    || WrongMove(e, c, s.request, op, x.token, true, x.assignee, used)
  }

  lemma ReviewMoveExactly(c: Call, s: Aggregate, used: set<string>)
    requires c.command.SendToReview?
    ensures Exec(c, s, used).Ok? ==> forall e :: !AgainstReviewMove(e, c, s, used)
    ensures Exec(c, s, used).Err? ==> AgainstReviewMove(Exec(c, s, used).error, c, s, used)
  {
    hide Actives, IsComplete, Transition, WrongMove;
    var x, op := c.command, if c.command.again then ResubmitReview else SubmitReview;
    var r := Transition(c.world, c.actor, c.expected, s, op, x.token, x.assignee, None, None, used);
    if r.Ok? { MoveAccepted(c, s, op, x.token, x.assignee, None, None, used); }
    else { MoveRefused(c, s, op, x.token, x.assignee, None, None, used); }
    if Actives(s.items) != [] { assert Actives(s.items)[0] in Actives(s.items); }
    assert MustName(op, None);
  }

  predicate AgainstReject(e: ErrorCode, c: Call, s: Aggregate, used: set<string>)
    requires c.command.RejectRequest?
  {
    WrongMove(e, c, s.request, Reject, c.command.token, false, None, used)
  }

  predicate AgainstApproval(e: ErrorCode, c: Call, s: Aggregate, used: set<string>)
    requires c.command.SendToPurchaser?
  {
    WrongMove(e, c, s.request, SubmitPurchaser, c.command.token, true, c.command.assignee, used)
  }

  /** Whoever may decide is the handler that both decisions check first. */
  lemma DeciderIsHandler(c: Call, q: Request, op: Operation, token: string, mustName: bool, who: Option<nat>,
                         used: set<string>)
    requires op == Reject || op == SubmitPurchaser
    ensures CurrentHandler(c.world, c.actor, q, BuildingManager).Fail? ==>
      WrongMove(CurrentHandler(c.world, c.actor, q, BuildingManager).error, c, q, op, token, mustName, who, used)
  {}

  lemma RejectExactly(c: Call, s: Aggregate, used: set<string>)
    requires c.command.RejectRequest?
    ensures Exec(c, s, used).Ok? ==> forall e :: !AgainstReject(e, c, s, used)
    ensures Exec(c, s, used).Err? ==> AgainstReject(Exec(c, s, used).error, c, s, used)
  {
    hide Actives, WithOpenReview, WithSnapshots, Transition, WrongMove, CurrentHandler;
    var x := c.command;
    var (u, n) := OpenRound(s, c.actor);
    var closed := Conclude(u, n, RejectedBy, Some(x.reason));
    DeciderIsHandler(c, s.request, Reject, x.token, false, None, used);
    var r := Transition(c.world, c.actor, c.expected, closed, Reject, x.token, None, None, Some(x.reason), used);
    if r.Ok? { MoveAccepted(c, closed, Reject, x.token, None, None, Some(x.reason), used); }
    else { MoveRefused(c, closed, Reject, x.token, None, None, Some(x.reason), used); }
    assert !MustName(Reject, None);
  }

  lemma ApprovalExactly(c: Call, s: Aggregate, used: set<string>)
    requires RoundsOk(s) && SnapshotsOk(s) && c.command.SendToPurchaser?
    ensures Exec(c, s, used).Ok? ==> forall e :: !AgainstApproval(e, c, s, used)
    ensures Exec(c, s, used).Err? ==> AgainstApproval(Exec(c, s, used).error, c, s, used)
  {
    hide Actives, WithOpenReview, WithSnapshots, RowsOf, Transition, WrongMove, CurrentHandler, RoundsOk, SnapshotsOk;
    var x, op := c.command, SubmitPurchaser;
    var (u, n) := OpenRound(s, c.actor);
    CountCheckNeverFires(s, c.actor);
    var closed := Conclude(u, n, Approved, None);
    DeciderIsHandler(c, s.request, op, x.token, true, x.assignee, used);
    var r := Transition(c.world, c.actor, c.expected, closed, op, x.token, x.assignee, None, None, used);
    if r.Ok? { MoveAccepted(c, closed, op, x.token, x.assignee, None, None, used); }
    else { MoveRefused(c, closed, op, x.token, x.assignee, None, None, used); }
    assert MustName(op, None);
  }

  // ----- purchasing and warehouse

  predicate AgainstBegin(e: ErrorCode, c: Call, s: Aggregate, used: set<string>)
    requires c.command.BeginPurchase?
  {
    WrongMove(e, c, s.request, StartPurchase, c.command.token, false, None, used)
  }

  lemma BeginExactly(c: Call, s: Aggregate, used: set<string>)
    requires c.command.BeginPurchase?
    ensures Exec(c, s, used).Ok? ==> forall e :: !AgainstBegin(e, c, s, used)
    ensures Exec(c, s, used).Err? ==> AgainstBegin(Exec(c, s, used).error, c, s, used)
  {
    hide Transition, WrongMove;
    var r := Transition(c.world, c.actor, c.expected, s, StartPurchase, c.command.token, None, None, None, used);
    if r.Ok? { MoveAccepted(c, s, StartPurchase, c.command.token, None, None, None, used); }
    else { MoveRefused(c, s, StartPurchase, c.command.token, None, None, None, used); }
    assert !MustName(StartPurchase, None);
  }

  /** An active item that goes through the warehouse. */
  predicate SomeForWarehouse(items: seq<Item>) { exists i :: 0 <= i < |items| && items[i].active && items[i].warehouse }

  predicate Bought(executions: seq<Execution>, i: nat) { exists x :: 0 <= x < |executions| && executions[x].item == i }

  predicate AgainstWarehouse(e: ErrorCode, c: Call, s: Aggregate, used: set<string>)
    requires c.command.SendToWarehouse?
  {
    var x := c.command;
    || (e == MissingRequiredFields && forall i :: 0 <= i < |s.items| ==> !s.items[i].active)
    || (e == MissingRequiredFields && exists i :: 0 <= i < |s.items| && s.items[i].active && !Bought(s.executions, i))
    || WrongMove(e, c, s.request, SubmitWarehouse, x.token, SomeForWarehouse(s.items), x.assignee, used)
  }

  lemma ReadyForWarehouse(s: Aggregate)
    ensures Actives(s.items) != [] && AllExecuted(s.items, s.executions) <==>
      && (exists i :: 0 <= i < |s.items| && s.items[i].active)
      && forall i :: 0 <= i < |s.items| && s.items[i].active ==> Bought(s.executions, i)
    ensures NeedsWarehouse(s) <==> SomeForWarehouse(s.items)
  {
    hide Actives, FindExecution;
    if Actives(s.items) != [] { assert Actives(s.items)[0] in Actives(s.items); }
    forall i ensures i in Actives(s.items) <==> 0 <= i < |s.items| && s.items[i].active {}
  }

  lemma WarehouseExactly(c: Call, s: Aggregate, used: set<string>)
    requires c.command.SendToWarehouse?
    ensures Exec(c, s, used).Ok? ==> forall e :: !AgainstWarehouse(e, c, s, used)
    ensures Exec(c, s, used).Err? ==> AgainstWarehouse(Exec(c, s, used).error, c, s, used)
  {
    hide Transition, WrongMove, Actives, AllExecuted, NeedsWarehouse, SomeForWarehouse, Bought, CompletionNotes,
      Receivers;
    var x, op := c.command, SubmitWarehouse;
    ReadyForWarehouse(s);
    var to := Some(if NeedsWarehouse(s) then PendingWarehouse else Completed);
    var r := Transition(c.world, c.actor, c.expected, s, op, x.token, x.assignee, to, None, used);
    if r.Ok? { MoveAccepted(c, s, op, x.token, x.assignee, to, None, used); }
    else { MoveRefused(c, s, op, x.token, x.assignee, to, None, used); }
    assert MustName(op, to) == NeedsWarehouse(s);
  }

  /** All of the item has arrived. */
  predicate Arrived(s: Aggregate, i: nat)
    requires i < |s.items|
  {
    exists x :: 0 <= x < |s.executions| && s.executions[x].item == i
                && Received(s.receipts, x) == s.executions[x].quantity
  }

  predicate AgainstFinish(e: ErrorCode, c: Call, s: Aggregate, used: set<string>)
    requires c.command.Finish?
  {
    || (e == MissingRequiredFields &&
          exists i :: 0 <= i < |s.items| && s.items[i].active && s.items[i].warehouse && !Arrived(s, i))
    || WrongMove(e, c, s.request, Complete, c.command.token, false, None, used)
  }

  lemma StatusIsArrival(s: Aggregate, i: nat)
    requires ExecutionsOk(s) && i < |s.items| && s.items[i].active && s.items[i].warehouse
    ensures ItemStatus(s, i) == Ok(Fulfilled) <==> Arrived(s, i)
  {
    hide Received, FindExecution, ExecutionOk;
    if Arrived(s, i) {
      var x :| 0 <= x < |s.executions| && s.executions[x].item == i
               && Received(s.receipts, x) == s.executions[x].quantity;
      assert FindExecution(s.executions, i) == Some(x);
    }
  }

  lemma CheckIsArrival(s: Aggregate)
    requires ExecutionsOk(s) && ReceiptsOk(s)
    ensures CompletionCheck(s, Actives(s.items)).Ok?
    ensures CompletionCheck(s, Actives(s.items)).value <==>
      forall i :: 0 <= i < |s.items| && s.items[i].active && s.items[i].warehouse ==> Arrived(s, i)
  {
    hide ItemStatus, ExecutionsOk, ReceiptsOk, CompletionCheck, Actives, Arrived;
    var ids := Actives(s.items);
    CheckNeverRaises(s, ids);
    CompletionCheckMeaning(s, ids);
    forall i | 0 <= i < |s.items| && s.items[i].active && s.items[i].warehouse
      ensures ItemStatus(s, i) == Ok(Fulfilled) <==> Arrived(s, i)
    {
      StatusIsArrival(s, i);
    }
    forall i | 0 <= i < |s.items| && s.items[i].active ensures exists k :: 0 <= k < |ids| && ids[k] == i {
      assert i in ids;
    }
  }

  lemma FinishExactly(c: Call, s: Aggregate, used: set<string>)
    requires ExecutionsOk(s) && ReceiptsOk(s) && c.command.Finish?
    ensures Exec(c, s, used).Ok? ==> forall e :: !AgainstFinish(e, c, s, used)
    ensures Exec(c, s, used).Err? ==> AgainstFinish(Exec(c, s, used).error, c, s, used)
  {
    hide Transition, WrongMove, Actives, CompletionCheck, Arrived, ExecutionsOk, ReceiptsOk, CompletionNotes, Receivers;
    var token := c.command.token;
    CheckIsArrival(s);
    var r := Transition(c.world, c.actor, c.expected, s, Complete, token, None, None, None, used);
    if r.Ok? { MoveAccepted(c, s, Complete, token, None, None, None, used); }
    else { MoveRefused(c, s, Complete, token, None, None, None, used); }
    assert !MustName(Complete, None);
  }
}
