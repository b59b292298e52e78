/** Review snapshots and the items they were taken from: quantity, kind, name, unit,
    brand and model. Every command keeps them equal except the legacy header edit of a
    manager during review; for that one the exact condition is given. */
module SnapshotDrift {
  import opened Common
  import opened Workflow
  import opened Procurement
  import opened Commands
  import opened Effects
  import opened Invariants
  import opened ReviewInvariant
  import opened Lifecycle

  /** The last round is still open, or it is the approval. */
  predicate RoundStands(reviews: seq<Review>) {
    reviews != [] && (reviews[|reviews| - 1].status == Open || reviews[|reviews| - 1].verdict == Some(Approved))
  }

  predicate RowsMatch(items: seq<Item>, rows: seq<ReviewItem>, r: nat) {
    forall k :: 0 <= k < |rows| && rows[k].review == r ==>
      rows[k].item < |items| && Shows(rows[k], items[rows[k].item])
  }

  /** The six snapshot fields of the row are those of the item. */
  predicate Shows(row: ReviewItem, item: Item) {
    && row.quantity == item.quantity && row.kind == item.kind && row.name == item.name && row.unit == item.unit
    && row.brand == Column(item.columns, "brand_snapshot") && row.modelName == Column(item.columns, "model_snapshot")
  }

  lemma SnapshotShows(row: ReviewItem, r: nat, i: nat, item: Item)
    requires Shown(row) == Shown(Snapshot(r, i, item))
    ensures Shows(row, item) && row.review == r && row.item == i
  {
    hide Column, Unadvised;
  }

  /** Every row of the open or approved last round shows its item as it is. */
  predicate SnapshotsMatch(s: Aggregate) {
    RoundStands(s.reviews) ==> RowsMatch(s.items, s.reviewItems, |s.reviews| - 1)
  }

  predicate ManagerEdits(c: Command, s: Aggregate) { c.SaveApplicantFields? && s.request.status == PendingReview }

  /** Before review and after a rejection no round stands. */
  lemma NoRoundStands(s: Aggregate)
    requires RoundsOk(s) && s.request.status in {Status.Draft, Rejected}
    ensures !RoundStands(s.reviews)
  {}

  lemma SameRoundsStand(a: seq<Review>, b: seq<Review>)
    requires SameRounds(a, b)
    ensures RoundStands(a) == RoundStands(b)
  {}

  /** Opening a round takes matching snapshots and leaves the old ones. */
  lemma OpeningMatches(s: Aggregate, reviewer: nat)
    requires RoundsOk(s) && SnapshotsOk(s) && SnapshotsMatch(s)
    ensures var (u, r) := OpenRound(s, reviewer); RowsMatch(s.items, u.reviewItems, r)
  {
    hide Actives, WithSnapshots, WithOpenReview;
    OpenRoundIsLast(s, reviewer);
    OpenRoundListsActive(s, reviewer);
    var (u, r) := OpenRound(s, reviewer);
    var n := |s.reviewItems|;
    forall k | 0 <= k < |u.reviewItems| && u.reviewItems[k].review == r
      ensures u.reviewItems[k].item < |s.items|
      ensures Shows(u.reviewItems[k], s.items[u.reviewItems[k].item])
    {
      var i := u.reviewItems[k].item;
      if k < n { assert u.reviewItems[..n][k] == s.reviewItems[k]; }
      else { SnapshotShows(u.reviewItems[k], r, i, s.items[i]); }
    }
  }

  lemma AdviceKeepsMatch(c: Call, s: Aggregate, used: set<string>, t: Aggregate)
    requires RoundsOk(s) && SnapshotsOk(s) && SnapshotsMatch(s) && c.command.SaveReviewItems? &&
      Exec(c, s, used) == Ok(t)
    requires t.items == s.items
    ensures SnapshotsMatch(t)
  {
    hide Exec, OpenRound;
    SaveReviewItemsKeys(c, s, used, t);
    OpeningMatches(s, c.actor);
    OpenRoundIndex(s, c.actor);
  }

  lemma OpenRoundIndex(s: Aggregate, reviewer: nat)
    requires RoundsOk(s)
    ensures var (u, r) := OpenRound(s, reviewer); r == |u.reviews| - 1 && u.items == s.items
  {
    hide WithOpenReview, WithSnapshots, Actives, ReviewedItems;
    OpenRoundIsLast(s, reviewer);
  }

  lemma FieldsKeepMatch(c: Call, s: Aggregate, used: set<string>, t: Aggregate)
    requires RoundsOk(s) && SnapshotsOk(s) && SnapshotsMatch(s) && c.command.SaveReviewFields? &&
      Exec(c, s, used) == Ok(t)
    requires t.items == s.items
    ensures SnapshotsMatch(t)
  {
    hide Exec, Actives, WithOpenReview, RowsOf;
    OpenRoundIsLast(s, c.actor);
    SaveReviewFieldsKeys(c, s, used, t);
    var n := |s.reviewItems|;
    assert |t.reviewItems| > n ==> forall k :: 0 <= k < n ==> t.reviewItems[k] == t.reviewItems[..n][k];
  }

  lemma ApprovalKeepsMatch(c: Call, s: Aggregate, used: set<string>, t: Aggregate)
    requires RoundsOk(s) && SnapshotsOk(s) && SnapshotsMatch(s) && c.command.SendToPurchaser? &&
      Exec(c, s, used) == Ok(t)
    requires t.items == s.items
    ensures SnapshotsMatch(t)
  {
    hide Exec, OpenRound;
    DecisionConcludes(c, s, used, t);
    OpeningMatches(s, c.actor);
    OpenRoundIndex(s, c.actor);
  }

  lemma RejectionEndsMatch(c: Call, s: Aggregate, used: set<string>, t: Aggregate)
    requires RoundsOk(s) && c.command.RejectRequest? && Exec(c, s, used) == Ok(t)
    ensures !RoundStands(t.reviews)
  {
    hide Exec, OpenRound;
    DecisionConcludes(c, s, used, t);
    OpenRoundIndex(s, c.actor);
  }

  /** Every command but the manager's header edit keeps the snapshots equal. */
  lemma StepKeepsMatch(c: Call, s: Aggregate, used: set<string>, t: Aggregate)
    requires RoundsOk(s) && SnapshotsOk(s) && SnapshotsMatch(s) && Exec(c, s, used) == Ok(t)
    requires !ManagerEdits(c.command, s)
    ensures SnapshotsMatch(t)
  {
    hide Exec, RoundsOk, SnapshotsOk, RoundStands, RowsMatch, Logged;
    ExecEffects(c, s, t, used);
    if EditsItems(c.command) {
      if c.command.ReplaceItems? { ReplaceGrows(c, s, used, t); }
      NoRoundStands(s);
    }
    else if c.command.SaveReviewItems? { AdviceKeepsMatch(c, s, used, t); }
    else if c.command.SaveReviewFields? { FieldsKeepMatch(c, s, used, t); }
    else if c.command.SendToPurchaser? { ApprovalKeepsMatch(c, s, used, t); }
    else if c.command.RejectRequest? { RejectionEndsMatch(c, s, used, t); }
    else if Purchases(c.command) {
      PurchaseKeepsRounds(c, s, used, t);
      SameRoundsStand(t.reviews, s.reviews);
    }
  }

  // ----- the exception

  predicate HeaderComplete(q: Request) {
    q.deviceName.GetOr("") != "" && q.quantity.GetOr(0) != 0 && q.unit.GetOr("") != ""
  }

  /** The header says something else about the item than the item does. */
  predicate Differs(header: Request, item: Item)
    requires HeaderComplete(header)
  {
    || header.deviceName.value != item.name || header.quantity.value != item.quantity
    || header.unit.value != item.unit
    || Column(header.columns, "brand") != Column(item.columns, "brand_snapshot")
    || Column(header.columns, "model") != Column(item.columns, "model_snapshot")
  }

  /** What a caller can check before the edit: the open round already lists the single
      active item, the edited header is complete, and it differs from that item. */
  predicate WouldDrift(s: Aggregate, edit: Command)
    requires edit.SaveApplicantFields?
  {
    var header := EditedHeader(s.request, edit.name, edit.quantity, edit.unit, edit.columns);
    var ids := Actives(s.items);
    && OpenReview(s.reviews).Some? && |ids| == 1
    && ids[0] in ReviewedItems(s.reviewItems, OpenReview(s.reviews).value)
    && HeaderComplete(header) && Differs(header, s.items[ids[0]])
  }

  /** The manager's edit breaks the match exactly then. */
  lemma EditBreaksMatchExactly(c: Call, s: Aggregate, used: set<string>, t: Aggregate)
    requires ItemsOk(s) && RoundsOk(s) && SnapshotsOk(s) && SnapshotsMatch(s)
    requires ManagerEdits(c.command, s) && Exec(c, s, used) == Ok(t)
    ensures !SnapshotsMatch(t) <==> WouldDrift(s, c.command)
  {
    hide Exec, Actives, OpenReview, ReviewedItems, Logged;
    ExecEffects(c, s, t, used);
    MirroredEdit(c, s, used, t);
    OpenIsLast(s);
    var i, n := Actives(s.items)[0], |s.reviews| - 1;
    if RoundStands(s.reviews) { OnlyRowOf(s, n, i); }
  }

  /** The edit writes the complete header into the single active item, and no other. */
  lemma MirroredEdit(c: Call, s: Aggregate, used: set<string>, t: Aggregate)
    requires ItemsOk(s) && ManagerEdits(c.command, s) && Exec(c, s, used) == Ok(t)
    ensures |Actives(s.items)| == 1 && t.reviews == s.reviews && t.reviewItems == s.reviewItems
    ensures var i := Actives(s.items)[0];
      var header := EditedHeader(s.request, c.command.name, c.command.quantity, c.command.unit, c.command.columns);
      && |t.items| == |s.items| && (forall j :: 0 <= j < |s.items| && j != i ==> t.items[j] == s.items[j])
      && (!HeaderComplete(header) ==> t.items[i] == s.items[i])
      && (HeaderComplete(header) ==>
            forall row :: Shows(row, s.items[i]) ==> (Shows(row, t.items[i]) <==> !Differs(header, s.items[i])))
  {
    hide Actives, DistinctNumbers, Column, Differs, Shows, EditedHeader;
    var i := Actives(s.items)[0];
    var q, e := s.request, c.command;
    var header := EditedHeader(q, e.name, e.quantity, e.unit, e.columns);
    if HeaderComplete(header) { MirrorDiffers(header, s.items[i]); }
    assert EditedHeader(q.(version := q.version + 1), e.name, e.quantity, e.unit, e.columns)
        == header.(version := q.version + 1) by { BumpedHeader(q, e); }
  }

  lemma BumpedHeader(q: Request, e: Command)
    requires e.SaveApplicantFields?
    ensures EditedHeader(q.(version := q.version + 1), e.name, e.quantity, e.unit, e.columns)
         == EditedHeader(q, e.name, e.quantity, e.unit, e.columns).(version := q.version + 1)
  {}

  /** What a complete header makes of the item, seen from a row that showed it. */
  lemma MirrorDiffers(header: Request, item: Item)
    requires HeaderComplete(header)
    ensures var item' := item.(name := header.deviceName.value, quantity := header.quantity.value,
                               unit := header.unit.value, columns := item.columns + MirroredColumns(header.columns));
      forall row :: Shows(row, item) ==> (Shows(row, item') <==> !Differs(header, item))
  {}

  lemma OpenIsLast(s: Aggregate)
    requires RoundsOk(s)
    ensures var n := |s.reviews|;
      OpenReview(s.reviews) == if n > 0 && s.reviews[n - 1].status == Open then Some(n - 1) else None
  {
    hide OpenReview;
  }

  /** Under review the open round lists at most the active items. */
  lemma OnlyRowOf(s: Aggregate, r: nat, i: nat)
    requires SnapshotsOk(s) && RoundsOk(s) && RoundStands(s.reviews) && s.request.status == PendingReview
    requires |Actives(s.items)| == 1 && i == Actives(s.items)[0] && r == |s.reviews| - 1
    ensures s.reviews[r].status == Open
    ensures forall k :: 0 <= k < |s.reviewItems| && s.reviewItems[k].review == r ==> s.reviewItems[k].item == i
    ensures i in ReviewedItems(s.reviewItems, r) <==>
      exists k :: 0 <= k < |s.reviewItems| && s.reviewItems[k].review == r
  {
    hide Actives;
    forall k | 0 <= k < |s.reviewItems| && s.reviewItems[k].review == r ensures s.reviewItems[k].item == i {
      assert s.reviewItems[k].item in Actives(s.items);
    }
  }

  // ----- runs

  /** No turn of the run is an edit that would drift. */
  predicate NeverDrifts(s: Aggregate, turns: seq<Turn>) {
    forall k :: 0 <= k < |turns| && turns[k].call.command.SaveApplicantFields? ==>
      !WouldDrift(Run(s, turns[..k]), turns[k].call.command)
  }

  /** Without such an edit, every run keeps all snapshots of the standing round equal
      to the items, up to and beyond the approval. */
  lemma {:induction false} RunKeepsMatch(w: World, actor: nat, id: nat, building: nat, s: Aggregate, turns: seq<Turn>)
    requires NewRequest(w, actor, id, building) == Ok(s) && NeverDrifts(s, turns)
    ensures SnapshotsMatch(Run(s, turns))
  {
    hide Exec, Inv, SnapshotsMatch, WouldDrift, NewRequest;
    FreshRequestOk(w, actor, id, building, s);
    if turns == [] { FreshMatch(w, actor, id, building, s); }
    else {
      var n := |turns| - 1;
      var front, last := turns[..n], turns[n];
      assert forall k :: 0 <= k < n ==> front[k] == turns[k] && front[..k] == turns[..k];
      RunKeepsMatch(w, actor, id, building, s, front);
      ReachableOk(s, front);
      TurnKeepsMatch(Run(s, front), last);
    }
  }

  lemma FreshMatch(w: World, actor: nat, id: nat, building: nat, s: Aggregate)
    requires NewRequest(w, actor, id, building) == Ok(s)
    ensures SnapshotsMatch(s)
  {}

  lemma TurnKeepsMatch(u: Aggregate, turn: Turn)
    requires Inv(u) && SnapshotsMatch(u)
    requires turn.call.command.SaveApplicantFields? ==> !WouldDrift(u, turn.call.command)
    ensures SnapshotsMatch(After(u, turn))
  {
    hide Exec, ItemsOk, RoundsOk, SnapshotsOk, ExecutionsOk, ReceiptsOk, SnapshotsMatch, WouldDrift;
    var r := Exec(turn.call, u, turn.used);
    if r.Ok? {
      if ManagerEdits(turn.call.command, u) { EditBreaksMatchExactly(turn.call, u, turn.used, r.value); }
      else { StepKeepsMatch(turn.call, u, turn.used, r.value); }
    }
  }
}
