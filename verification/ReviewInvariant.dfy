/** RoundsOk and SnapshotsOk are kept, and with them the two unreachable branches
    of the review commands: the missing snapshot and the count mismatch. */
module ReviewInvariant {
  import opened Common
  import opened Workflow
  import opened Procurement
  import opened Commands
  import opened Effects
  import opened Invariants
  import opened ItemInvariant

  // ----- rounds

  /** The open round is the last one; opening a new one extends the numbering. */
  lemma OpenRoundIsLast(s: Aggregate, reviewer: nat)
    requires RoundsOk(s)
    ensures var (reviews, r) := WithOpenReview(s.reviews, reviewer);
      && r == |reviews| - 1 && reviews[r].round == r + 1
      && reviews[r].status == Open
      && (reviews == s.reviews
          || (|reviews| == |s.reviews| + 1 && reviews[..r] == s.reviews && reviews[r].reviewer == reviewer
              && forall k :: 0 <= k < r ==> s.reviews[k].status == Closed))
  {}

  /** Rounds carry over whenever their numbers, statuses and verdicts do. */
  predicate SameRounds(a: seq<Review>, b: seq<Review>) {
    |a| == |b| && forall k :: 0 <= k < |a| ==> SameRound(a[k], b[k])
  }

  predicate SameRound(a: Review, b: Review) {
    && a.round == b.round && a.status == b.status && a.verdict == b.verdict
    && a.reviewer == b.reviewer && a.opinion == b.opinion
  }

  /** Saving advice leaves the rounds as opening one would. */
  lemma AdviceShape(c: Call, s: Aggregate, used: set<string>, t: Aggregate)
    requires c.command.SaveReviewItems? || c.command.SaveReviewFields?
    requires Exec(c, s, used) == Ok(t)
    ensures SameRounds(t.reviews, WithOpenReview(s.reviews, c.actor).0)
    ensures s.request.handler == Some(c.actor)
  {
    hide WithSnapshots, WithOpenReview, Actives, RowsOf, ReviewLines, AdvisedReview, ReviewedItems, Snapshot;
    if c.command.SaveReviewFields? {
      var (reviews, r) := WithOpenReview(s.reviews, c.actor);
      AdvisedSame(c.world, s.items[Actives(s.items)[0]].quantity, reviews[r], c.command.review, t.reviews[r]);
    }
  }

  lemma AdvisedSame(w: World, quantity: nat, old_: Review, f: ReviewFields, new_: Review)
    requires AdvisedReview(w, quantity, old_, f) == Ok(new_)
    ensures SameRound(new_, old_)
  {
    hide EstimateTotal, Strip;
  }

  lemma AdviceKeepsRounds(c: Call, s: Aggregate, used: set<string>, t: Aggregate)
    requires RoundsOk(s) && Exec(c, s, used) == Ok(t)
    requires c.command.SaveReviewItems? || c.command.SaveReviewFields?
    ensures RoundsOk(t)
  {
    hide Exec, WithOpenReview;
    ExecEffects(c, s, t, used);
    AdviceShape(c, s, used, t);
    OpenRoundIsLast(s, c.actor);
  }

  lemma VerdictKeepsRounds(s: Aggregate, actor: nat, verdict: Verdict, opinion: Option<string>, t: Aggregate)
    requires RoundsOk(s) && s.request.status == PendingReview
    requires var (u, r) := OpenRound(s, actor); t.reviews == Conclude(u, r, verdict, opinion).reviews
    requires t.request.status == if verdict == Approved then PendingPurchase else Rejected
    ensures RoundsOk(t)
  {
    hide WithSnapshots, WithOpenReview;
    OpenRoundIsLast(s, actor);
  }

  lemma StepKeepsRounds(c: Call, s: Aggregate, used: set<string>, t: Aggregate)
    requires RoundsOk(s) && Exec(c, s, used) == Ok(t)
    ensures RoundsOk(t)
  {
    hide Actives, WithSnapshots, WithOpenReview, DoReplaceItems, DoSaveApplicantFields, DoSaveReviewItems,
      DoSaveReviewFields, DoSendToReview, DoBeginPurchase, DoSendToWarehouse, DoAppendReceipt, DoFinish, LegacyToken,
      RowsOf, Exec;
    ExecEffects(c, s, t, used);
    if c.command.SaveReviewItems? || c.command.SaveReviewFields? { AdviceKeepsRounds(c, s, used, t); }
    else if EditsReviews(c.command) { DecisionKeepsRounds(c, s, used, t); }
    else if Purchases(c.command) {
      PurchaseKeepsRounds(c, s, used, t);
    }
  }

  lemma DecisionKeepsRounds(c: Call, s: Aggregate, used: set<string>, t: Aggregate)
    requires RoundsOk(s) && Exec(c, s, used) == Ok(t)
    requires c.command.RejectRequest? || c.command.SendToPurchaser?
    ensures RoundsOk(t)
  {
    hide Actives, OpenRound, RowsOf, RoundsOk, NotifyHandler;
    ExecEffects(c, s, t, used);
    DecisionConcludes(c, s, used, t);
    if c.command.RejectRequest? { VerdictKeepsRounds(s, c.actor, RejectedBy, Some(c.command.reason), t); }
    else { VerdictKeepsRounds(s, c.actor, Approved, None, t); }
  }

  /** Both decisions close the round they opened or found, and nothing else. */
  lemma DecisionConcludes(c: Call, s: Aggregate, used: set<string>, t: Aggregate)
    requires Exec(c, s, used) == Ok(t)
    requires c.command.RejectRequest? || c.command.SendToPurchaser?
    ensures var (u, r) := OpenRound(s, c.actor);
      && t.reviewItems == u.reviewItems
      && t.reviews == if c.command.RejectRequest? then Conclude(u, r, RejectedBy, Some(c.command.reason)).reviews
                      else Conclude(u, r, Approved, None).reviews
  {
    hide Actives, OpenRound, RowsOf, CurrentHandler, NextHandler, ValidateActor;
  }

  lemma PurchaseKeepsRounds(c: Call, s: Aggregate, used: set<string>, t: Aggregate)
    requires Exec(c, s, used) == Ok(t) && Purchases(c.command)
    ensures SameRounds(t.reviews, s.reviews)
  {
    hide Actives, LatestReview, FindExecution;
  }

  // ----- snapshots

  /** The snapshot loop appends one row for each listed item that has none. */
  lemma {:induction false} SnapshotsAppended(items: seq<Item>, r: nat, existing: set<nat>, rows: seq<ReviewItem>,
                                             ids: seq<nat>)
    requires forall k :: 0 <= k < |ids| ==> ids[k] < |items|
    requires NoDuplicates(ids) && UniqueReviewItems(rows)
    requires forall i :: i in ids && i !in existing ==> i !in ReviewedItems(rows, r)
    ensures var rows' := WithSnapshots(items, r, existing, rows, ids);
      && |rows| <= |rows'| && rows'[..|rows|] == rows && UniqueReviewItems(rows')
      && (forall k :: |rows| <= k < |rows'| ==>
            rows'[k].item in ids && rows'[k] == Snapshot(r, rows'[k].item, items[rows'[k].item]))
      && ReviewedItems(rows', r) == ReviewedItems(rows, r) + (set i | i in ids && i !in existing)
    decreases |ids|
  {
    hide Unadvised;
    if ids != [] {
      var rows1 := if ids[0] in existing then rows else rows + [Snapshot(r, ids[0], items[ids[0]])];
      ReviewedAfterAppend(rows, r, Snapshot(r, ids[0], items[ids[0]]));
      assert forall i :: i in ids <==> i == ids[0] || i in ids[1..];
      SnapshotsAppended(items, r, existing, rows1, ids[1..]);
    }
  }

  lemma ReviewedAfterAppend(rows: seq<ReviewItem>, r: nat, row: ReviewItem)
    ensures ReviewedItems(rows + [row], r) == ReviewedItems(rows, r) + if row.review == r then {row.item} else {}
  {
    var rows' := rows + [row];
    assert rows'[|rows|] == row && rows'[..|rows|] == rows;
    forall i | i in ReviewedItems(rows, r) ensures i in ReviewedItems(rows', r) {
      var k :| 0 <= k < |rows| && rows[k].review == r && rows[k].item == i;
      assert rows'[k] == rows[k];
    }
  }

  /** After opening the round, it lists exactly the active items. */
  lemma OpenRoundListsActive(s: Aggregate, reviewer: nat)
    requires RoundsOk(s) && SnapshotsOk(s)
    ensures var (u, r) := OpenRound(s, reviewer);
      && UniqueReviewItems(u.reviewItems)
      && |s.reviewItems| <= |u.reviewItems| && u.reviewItems[..|s.reviewItems|] == s.reviewItems
      && (forall k :: |s.reviewItems| <= k < |u.reviewItems| ==>
            && u.reviewItems[k].item in Actives(s.items)
            && u.reviewItems[k] == Snapshot(r, u.reviewItems[k].item, s.items[u.reviewItems[k].item]))
      && ReviewedItems(u.reviewItems, r) == (set i | i in Actives(s.items))
  {
    hide Actives, WithSnapshots, WithOpenReview;
    OpenRoundIsLast(s, reviewer);
    var (reviews, r) := WithOpenReview(s.reviews, reviewer);
    SnapshotsAppended(s.items, r, ReviewedItems(s.reviewItems, r), s.reviewItems, Actives(s.items));
    forall i | i in ReviewedItems(s.reviewItems, r) ensures i in Actives(s.items) {
      var k :| 0 <= k < |s.reviewItems| && s.reviewItems[k].review == r && s.reviewItems[k].item == i;
    }
  }

  /** A round lists as many rows as it has items. */
  lemma RowCount(rows: seq<ReviewItem>, r: nat, ids: seq<nat>)
    requires UniqueReviewItems(rows) && NoDuplicates(ids)
    requires ReviewedItems(rows, r) == set i | i in ids
    ensures |RowsOf(rows, r)| == |ids|
  {
    var ks := RowsOf(rows, r);
    var named := seq(|ks|, j requires 0 <= j < |ks| => rows[ks[j]].item);
    forall i ensures i in named <==> i in ids {
      if i in ids {
        assert i in ReviewedItems(rows, r);
        var k :| 0 <= k < |rows| && rows[k].review == r && rows[k].item == i;
        assert k in ks;
        var j :| 0 <= j < |ks| && ks[j] == k;
        assert named[j] == i;
      }
      if i in named { assert i in ReviewedItems(rows, r); }
    }
    SameElementsSameLength(named, ids);
  }

  /** submit_purchaser: the count check never fires, in any reachable state. */
  lemma CountCheckNeverFires(s: Aggregate, actor: nat)
    requires RoundsOk(s) && SnapshotsOk(s)
    ensures var (u, r) := OpenRound(s, actor); |RowsOf(u.reviewItems, r)| == |Actives(u.items)|
  {
    hide Actives, RowsOf, WithSnapshots, WithOpenReview;
    OpenRoundListsActive(s, actor);
    var (u, r) := OpenRound(s, actor);
    RowCount(u.reviewItems, r, Actives(s.items));
  }

  /** The keys and the snapshot of a row, without the advice. */
  function Shown(row: ReviewItem): ReviewItem {
    row.(supplierId := None, supplierName := None, unitPrice := None, totalPrice := None, columns := Unadvised())
  }

  /** The same rows, up to the advice in them. */
  predicate SameKeys(a: seq<ReviewItem>, b: seq<ReviewItem>) {
    |a| == |b| && forall k :: 0 <= k < |a| ==> Shown(a[k]) == Shown(b[k])
  }

  /** save_review_items: every advised item already has its snapshot, so the loop
      edits rows in place and never inserts one. */
  lemma {:induction false} AdviceEditsInPlace(w: World, items: seq<Item>, r: nat, stored: seq<ReviewItem>,
                                              rows: seq<ReviewItem>, advice: seq<ReviewInput>, rows': seq<ReviewItem>)
    requires forall k :: 0 <= k < |advice| ==> advice[k].item < |items|
    requires forall k :: 0 <= k < |advice| ==> advice[k].item in ReviewedItems(stored, r)
    requires |stored| <= |rows|
    requires ReviewLines(w, items, r, stored, rows, advice) == Ok(rows')
    ensures SameKeys(rows', rows)
    decreases |advice|
  {
    if advice != [] {
      assert advice[0].item in ReviewedItems(stored, r);
      var rows1 := ReviewLine(w, items, r, stored, rows, advice[0]).value;
      AdviceEditsInPlace(w, items, r, stored, rows1, advice[1..], rows');
    }
  }

  lemma SameKeysSameItems(a: seq<ReviewItem>, b: seq<ReviewItem>, r: nat)
    requires SameKeys(a, b)
    ensures ReviewedItems(a, r) == ReviewedItems(b, r)
  {}

  lemma SaveReviewItemsKeys(c: Call, s: Aggregate, used: set<string>, t: Aggregate)
    requires RoundsOk(s) && SnapshotsOk(s) && c.command.SaveReviewItems? && Exec(c, s, used) == Ok(t)
    ensures SameKeys(t.reviewItems, OpenRound(s, c.actor).0.reviewItems)
    ensures t.reviews == OpenRound(s, c.actor).0.reviews
  {
    hide Actives, WithSnapshots, WithOpenReview, ReviewLines;
    var advice := c.command.advice;
    var (u, r) := OpenRound(s, c.actor);
    OpenRoundListsActive(s, c.actor);
    var named := set k | 0 <= k < |advice| :: advice[k].item;
    assert forall k :: 0 <= k < |advice| ==> advice[k].item in named;
    AdviceEditsInPlace(c.world, s.items, r, u.reviewItems, u.reviewItems, advice, t.reviewItems);
  }

  /** Opening the round, and then editing rows in place, keeps the snapshots of a
      request under review. */
  lemma OpenedKeepsSnapshots(s: Aggregate, actor: nat, t: Aggregate)
    requires RoundsOk(s) && SnapshotsOk(s)
    requires t.items == s.items && SameKeys(t.reviewItems, OpenRound(s, actor).0.reviewItems)
    requires |t.reviews| == |OpenRound(s, actor).0.reviews|
    ensures UniqueReviewItems(t.reviewItems)
    ensures forall k :: 0 <= k < |t.reviewItems| ==>
      t.reviewItems[k].review < |t.reviews| && t.reviewItems[k].item < |t.items|
    ensures forall k :: 0 <= k < |t.reviewItems| && t.reviewItems[k].review == |t.reviews| - 1 ==>
      t.items[t.reviewItems[k].item].active
    ensures ReviewedItems(t.reviewItems, |t.reviews| - 1) == (set i | i in Actives(t.items))
  {
    hide Actives, WithSnapshots, WithOpenReview;
    OpenRoundIsLast(s, actor);
    OpenRoundListsActive(s, actor);
    var (u, r) := OpenRound(s, actor);
    SameKeysSameItems(t.reviewItems, u.reviewItems, r);
    forall k | 0 <= k < |t.reviewItems| && t.reviewItems[k].review == r ensures t.items[t.reviewItems[k].item].active {
      assert t.reviewItems[k].item in ReviewedItems(t.reviewItems, r);
    }
    forall k | 0 <= k < |t.reviewItems|
      ensures t.reviewItems[k].review < |t.reviews| && t.reviewItems[k].item < |t.items|
    {
      if k < |s.reviewItems| { assert u.reviewItems[..|s.reviewItems|][k] == s.reviewItems[k]; }
    }
  }

  lemma SaveReviewFieldsKeys(c: Call, s: Aggregate, used: set<string>, t: Aggregate)
    requires c.command.SaveReviewFields? && Exec(c, s, used) == Ok(t)
    ensures var (reviews, r) := WithOpenReview(s.reviews, c.actor); var ids := Actives(s.items);
      && |ids| == 1 && SameRounds(t.reviews, reviews)
      && (if RowsOf(s.reviewItems, r) == [] then
            && |t.reviewItems| == |s.reviewItems| + 1 && t.reviewItems[..|s.reviewItems|] == s.reviewItems
            && Shown(t.reviewItems[|s.reviewItems|]) == Snapshot(r, ids[0], s.items[ids[0]])
          else SameKeys(t.reviewItems, s.reviewItems))
  {
    hide Actives, WithOpenReview, RowsOf, EstimateTotal;
  }

  lemma FieldsKeepSnapshots(c: Call, s: Aggregate, used: set<string>, t: Aggregate)
    requires RoundsOk(s) && SnapshotsOk(s) && c.command.SaveReviewFields? && Exec(c, s, used) == Ok(t)
    requires t.items == s.items && t.request.status == PendingReview && RoundsOk(t)
    ensures SnapshotsOk(t)
  {
    hide Actives, WithOpenReview, RowsOf, Exec;
    OpenRoundIsLast(s, c.actor);
    SaveReviewFieldsKeys(c, s, used, t);
    var (reviews, r) := WithOpenReview(s.reviews, c.actor);
    var n := |s.reviewItems|;
    if RowsOf(s.reviewItems, r) == [] {
      assert forall k :: 0 <= k < n ==> k !in RowsOf(s.reviewItems, r);
      assert Actives(s.items)[0] in Actives(s.items);
      assert forall k :: 0 <= k < n ==> t.reviewItems[k] == s.reviewItems[k] by {
        assert forall k :: 0 <= k < n ==> t.reviewItems[k] == t.reviewItems[..n][k];
      }
    }
  }

  lemma ApplicantFieldsKeepActives(c: Call, s: Aggregate, used: set<string>, t: Aggregate)
    requires ItemsOk(s) && c.command.SaveApplicantFields? && Exec(c, s, used) == Ok(t)
    ensures |s.items| <= |t.items|
    ensures s.request.status == PendingReview ==> Actives(t.items) == Actives(s.items)
  {
    hide DistinctNumbers, Actives, MirrorItem;
    var q := s.request;
    var edit := c.command;
    var header := EditedHeader(q.(version := q.version + 1), edit.name, edit.quantity, edit.unit, edit.columns);
    assert t.items == MirrorItem(header, s.items);
    MirrorGrows(header, s.items);
  }

  lemma MirrorGrows(q: Request, items: seq<Item>)
    ensures |items| <= |MirrorItem(q, items)|
    ensures Actives(items) != [] ==> Actives(MirrorItem(q, items)) == Actives(items)
  {
    if Actives(items) != [] { SameActives(items, MirrorItem(q, items)); }
  }

  lemma EditsKeepSnapshots(c: Call, s: Aggregate, used: set<string>, t: Aggregate)
    requires ItemsOk(s) && RoundsOk(s) && SnapshotsOk(s) && EditsItems(c.command) && Exec(c, s, used) == Ok(t)
    ensures SnapshotsOk(t)
  {
    hide Exec, Actives, DistinctNumbers;
    ExecEffects(c, s, t, used);
    if c.command.SaveApplicantFields? {
      ApplicantFieldsKeepActives(c, s, used, t);
      assert forall i :: 0 <= i < |s.items| && s.items[i].active && s.request.status == PendingReview ==>
        i in Actives(s.items) && i in Actives(t.items);
    } else {
      ReplaceGrows(c, s, used, t);
    }
  }

  lemma ReplaceGrows(c: Call, s: Aggregate, used: set<string>, t: Aggregate)
    requires c.command.ReplaceItems? && Exec(c, s, used) == Ok(t)
    ensures |s.items| <= |t.items| && s.request.status in {Status.Draft, Rejected}
  {
    hide DistinctNumbers, ReplaceLines, MaxNo;
  }

  lemma VerdictKeepsSnapshots(c: Call, s: Aggregate, used: set<string>, t: Aggregate)
    requires RoundsOk(s) && SnapshotsOk(s) && RoundsOk(t) && Exec(c, s, used) == Ok(t)
    requires c.command.RejectRequest? || c.command.SendToPurchaser?
    ensures SnapshotsOk(t)
  {
    hide Actives, OpenRound, RowsOf, ReviewedItems, Exec, Logged, Shown, BlankRound, Unadvised, UniqueReviewItems;
    ExecEffects(c, s, t, used);
    DecisionConcludes(c, s, used, t);
    OpenedKeepsSnapshots(s, c.actor, t);
  }

  lemma StepKeepsSnapshots(c: Call, s: Aggregate, used: set<string>, t: Aggregate)
    requires ItemsOk(s) && RoundsOk(s) && SnapshotsOk(s) && RoundsOk(t) && Exec(c, s, used) == Ok(t)
    ensures SnapshotsOk(t)
  {
    hide Exec, Actives, WithOpenReview, WithSnapshots, RowsOf, ReviewedItems, DistinctNumbers;
    ExecEffects(c, s, t, used);
    if EditsItems(c.command) { EditsKeepSnapshots(c, s, used, t); }
    else if c.command.SaveReviewItems? {
      SaveReviewItemsKeys(c, s, used, t);
      OpenedKeepsSnapshots(s, c.actor, t);
    } else if c.command.SaveReviewFields? { FieldsKeepSnapshots(c, s, used, t); }
    else if EditsReviews(c.command) { VerdictKeepsSnapshots(c, s, used, t); }
    else if Purchases(c.command) { PurchaseKeepsRounds(c, s, used, t); }
  }
}
