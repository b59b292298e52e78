/** When a command is accepted and what a refusal says. In every reachable request a
    command is accepted if and only if nothing speaks against it, and the error of a
    refusal is one that does. */
module Acceptance {
  import opened Common
  import opened Workflow
  import opened Procurement
  import opened Commands
  import opened Invariants
  import opened Lifecycle
  import opened Timeline
  import opened MoveRefusals
  import opened ReplaceRefusals
  import S = SaveRefusals

  /** The error `e` would be justified. */
  predicate Against(e: ErrorCode, c: Call, s: Aggregate, used: set<string>) {
    match c.command
    case ReplaceItems(_, _, _) => AgainstReplace(e, c, s)
    case SaveApplicantFields(_, _, _, _) => S.AgainstHeader(e, c, s)
    case SaveReviewItems(_) => S.AgainstAdvice(e, c, s)
    case SaveReviewFields(_) => S.AgainstFields(e, c, s)
    case SendToReview(_, _, _) => AgainstReviewMove(e, c, s, used)
    case RejectRequest(_, _) => AgainstReject(e, c, s, used)
    case SendToPurchaser(_, _) => AgainstApproval(e, c, s, used)
    case BeginPurchase(_) => AgainstBegin(e, c, s, used)
    case SavePurchaseFields(_) => S.AgainstLegacyPurchase(e, c, s, used)
    case SavePurchaseItem(i, token, fields) => S.AgainstPurchase(e, c, s, i, fields, Some(token), false, used)
    case SendToWarehouse(_, _) => AgainstWarehouse(e, c, s, used)
    case SaveWarehouseFields(_, _) => S.AgainstLegacyReceipt(e, c, s, used)
    case AppendReceipt(token, x, quantity) => S.AgainstReceipt(e, c, s, token, x, quantity, used)
    case Finish(_) => AgainstFinish(e, c, s, used)
  }

  lemma AcceptedExactly(c: Call, s: Aggregate, used: set<string>)
    requires Inv(s)
    ensures Exec(c, s, used).Ok? <==> forall e :: !Against(e, c, s, used)
    ensures Exec(c, s, used).Err? ==> Against(Exec(c, s, used).error, c, s, used)
  {
    hide Exec, ItemsOk, RoundsOk, SnapshotsOk, ExecutionsOk, ReceiptsOk, AgainstReplace, S.AgainstHeader,
      S.AgainstAdvice, S.AgainstFields, AgainstReviewMove, AgainstReject, AgainstApproval, AgainstBegin,
      S.AgainstLegacyPurchase, S.AgainstPurchase, AgainstWarehouse, S.AgainstLegacyReceipt, S.AgainstReceipt,
      AgainstFinish;
    match c.command {
      case ReplaceItems(_, _, _) => ReplaceExactly(c, s, used);
      case SaveApplicantFields(_, _, _, _) => S.HeaderExactly(c, s, used);
      case SaveReviewItems(_) =>
        if Exec(c, s, used).Ok? { S.AdviceAccepted(c, s, used); } else { S.AdviceRefused(c, s, used); }
      case SaveReviewFields(_) => S.FieldsExactly(c, s, used);
      case SendToReview(_, _, _) => ReviewMoveExactly(c, s, used);
      case RejectRequest(_, _) => RejectExactly(c, s, used);
      case SendToPurchaser(_, _) => ApprovalExactly(c, s, used);
      case BeginPurchase(_) => BeginExactly(c, s, used);
      case SavePurchaseFields(_) => S.LegacyPurchaseExactly(c, s, used);
      case SavePurchaseItem(i, token, fields) => ItemPurchaseExactly(c, s, used);
      case SendToWarehouse(_, _) => WarehouseExactly(c, s, used);
      case SaveWarehouseFields(_, _) => S.LegacyReceiptExactly(c, s, used);
      case AppendReceipt(token, x, quantity) => PlainReceiptExactly(c, s, used);
      case Finish(_) => FinishExactly(c, s, used);
    }
    if Exec(c, s, used).Ok? {
      forall e ensures !Against(e, c, s, used) {}
    } else {
      assert Against(Exec(c, s, used).error, c, s, used);
    }
  }

  lemma ItemPurchaseExactly(c: Call, s: Aggregate, used: set<string>)
    requires Inv(s) && c.command.SavePurchaseItem?
    ensures var x := c.command;
      && (Exec(c, s, used).Ok? ==>
            forall e :: !S.AgainstPurchase(e, c, s, x.item, x.fields, Some(x.token), false, used))
      && (Exec(c, s, used).Err? ==>
            S.AgainstPurchase(Exec(c, s, used).error, c, s, x.item, x.fields, Some(x.token), false, used))
  {
    hide DoSavePurchaseItem, ItemsOk, ExecutionsOk, RoundsOk, SnapshotsOk, ReceiptsOk, S.AgainstPurchase;
    S.PurchaseExactly(c, s, c.command.item, c.command.fields, Some(c.command.token), false, used);
  }

  lemma PlainReceiptExactly(c: Call, s: Aggregate, used: set<string>)
    requires Inv(s) && c.command.AppendReceipt?
    ensures var x := c.command;
      && (Exec(c, s, used).Ok? ==> forall e :: !S.AgainstReceipt(e, c, s, x.token, x.execution, x.received, used))
      && (Exec(c, s, used).Err? ==>
            S.AgainstReceipt(Exec(c, s, used).error, c, s, x.token, x.execution, x.received, used))
  {
    hide DoAppendReceipt, ItemsOk, ExecutionsOk, RoundsOk, SnapshotsOk, ReceiptsOk;
    S.ReceiptExactly(c, s, c.command.token, c.command.execution, c.command.received, used);
  }

  /** So it is after every run from create_draft. */
  lemma ReachableAcceptsExactly(w: World, actor: nat, id: nat, building: nat, s: Aggregate, turns: seq<Turn>, c: Call,
                                used: set<string>)
    requires NewRequest(w, actor, id, building) == Ok(s)
    ensures var t := Run(s, turns);
      && (Exec(c, t, used).Ok? <==> forall e :: !Against(e, c, t, used))
      && (Exec(c, t, used).Err? ==> Against(Exec(c, t, used).error, c, t, used))
  {
    hide Exec, Run, NewRequest, Against, Inv;
    FreshRequestOk(w, actor, id, building, s);
    ReachableOk(s, turns);
    AcceptedExactly(c, Run(s, turns), used);
  }

  /** A draft can be created by an applicant for a building of theirs, administrators for
      any, and belongs to them; it starts empty at version 0. */
  lemma CreatedExactly(w: World, actor: nat, id: nat, building: nat)
    ensures var r := NewRequest(w, actor, id, building);
      && (r.Ok? <==> w.HasRole(actor, Applicant) && !Elsewhere(w, actor, building))
      && (r == Err(PermissionDenied) <==> !w.HasRole(actor, Applicant))
      && (r == Err(BuildingNotAllowed) <==> w.HasRole(actor, Applicant) && Elsewhere(w, actor, building))
      && (r.Ok? ==> var s := r.value; var q := s.request;
            && q.id == id && q.building == building && q.applicant == actor && q.handler == Some(actor)
            && q.status == Status.Draft && q.version == 0 && q.requestType == Purchase && q.sourceAsset.None?
            && q.deviceName.None? && q.quantity.None? && q.unit.None? && q.columns == map[]
            && s.items == [] && s.reviews == [] && s.reviewItems == [] && s.executions == [] && s.receipts == []
            && s.outbox == [] && |s.log| == 1 && s.log[0].token.None? && s.log[0].at == w.now)
  {}

  /** The list of allowed actions offers a save exactly if neither person nor status
      speaks against it; a manager outside the building is offered a header edit that
      will be refused. */
  lemma OfferedExactly(c: Call, s: Aggregate, used: set<string>)
    requires CustodyOk(s.request) && SaveAction(c.command).Some? && !c.command.ReplaceItems?
    ensures SaveAction(c.command).value in AllowedActions(c.world, c.actor, s.request) <==>
      || (c.command.SaveApplicantFields? && (S.MayEditHeader(c, s.request) || IsManagerElsewhere(c, s.request)))
      || (!c.command.SaveApplicantFields? && AtTheRightMoment(c, s.request))
  {}

  predicate IsManagerElsewhere(c: Call, q: Request) {
    && c.world.HasRole(c.actor, BuildingManager) && q.handler == Some(c.actor) && q.status == PendingReview
    && !c.world.InBuilding(c.actor, q.building)
  }

  predicate AtTheRightMoment(c: Call, q: Request) {
    var x := c.command;
    var (role, status) := if x.SaveReviewItems? || x.SaveReviewFields? then (BuildingManager, PendingReview)
      else if x.SavePurchaseItem? || x.SavePurchaseFields? then (Purchaser, Purchasing)
      else (WarehouseManager, PendingWarehouse);
    !S.WrongMoment(PermissionDenied, c, q, role, status) && !S.WrongMoment(InvalidStatus, c, q, role, status)
  }
}
