/** The timeline view of the operation log, the rejection record, and the list of
    allowed actions. */
module Timeline {
  import opened Common
  import opened Workflow
  import opened Procurement
  import opened Commands
  import opened Effects
  import opened Invariants
  import opened ReviewInvariant
  import opened Lifecycle

  /** The filter of PurchaseRecordRepository.timeline. In SQL a null from_status
      makes the comparison unknown, hence the separate CREATE_DRAFT case. */
  predicate OnTimeline(e: LogEntry) {
    e.action == CreateDraft || (e.from.Some? && e.from.value != e.to)
  }

  function TimelineOf(log: seq<LogEntry>): seq<LogEntry> {
    if log == [] then []
    else
      var n := |log| - 1;
      TimelineOf(log[..n]) + if OnTimeline(log[n]) then [log[n]] else []
  }

  /** Entry `e` continues the path after entry `d`: it starts where `d` ended,
      follows an edge, and was made by the person `d` assigned. */
  predicate Follows(d: LogEntry, e: LogEntry) {
    e.action.Moved? && e.from == Some(d.to) && Edge(d.to, e.to) && d.assignedTo == Some(e.operator)
  }

  predicate Starts(e: LogEntry, applicant: nat) {
    e.action == CreateDraft && e.to == Status.Draft && e.operator == applicant && e.assignedTo == Some(applicant)
  }

  /** The timeline is a path in the transition graph from creation to the current
      status and handler. */
  predicate TimelineOk(s: Aggregate) {
    var path := TimelineOf(s.log);
    && path != [] && Starts(path[0], s.request.applicant)
    && (forall k :: 0 < k < |path| ==> Follows(path[k - 1], path[k]))
    && path[|path| - 1].to == s.request.status && path[|path| - 1].assignedTo == s.request.handler
  }

  lemma TimelineAppend(log: seq<LogEntry>, e: LogEntry)
    ensures TimelineOf(log + [e]) == TimelineOf(log) + if OnTimeline(e) then [e] else []
  {
    assert (log + [e])[..|log|] == log;
  }

  /** Every edge in the table changes the status. */
  lemma MovesChangeStatus(op: Operation, s: Aggregate, to: Status)
    requires LeadsTo(op, s, to)
    ensures RuleOf(op).from != to && Edge(RuleOf(op).from, to)
  {
    assert RuleOf(op).to == to || (op == SubmitWarehouse && to == Completed);
  }

  /** Whoever the workflow lets act holds the request. */
  lemma ActorIsHandler(w: World, actor: nat, q: Request, op: Operation)
    requires CustodyOk(q) && ValidateActor(w, actor, q, RuleOf(op)).Pass? && q.status == RuleOf(op).from
    ensures q.handler == Some(actor)
  {}

  lemma StepKeepsTimeline(c: Call, s: Aggregate, used: set<string>, t: Aggregate)
    requires CustodyOk(s.request) && TimelineOk(s) && Exec(c, s, used) == Ok(t)
    ensures TimelineOk(t)
  {
    hide Exec, TimelineOf, LegacyToken, Edge, NeedsWarehouse, LeadsTo, ValidateActor;
    ExecEffects(c, s, t, used);
    if t.log != s.log {
      var e := t.log[|s.log|];
      TimelineAppend(s.log, e);
      if OperationOf(c.command).Some? {
        var op := OperationOf(c.command).value;
        MovesChangeStatus(op, s, t.request.status);
        ActorIsHandler(c.world, c.actor, s.request, op);
        assert OnTimeline(e);
      } else {
        assert !OnTimeline(e);
      }
    }
  }

  // ----- rejections

  function RejectedRounds(reviews: seq<Review>): seq<(nat, Option<string>)> {
    if reviews == [] then []
    else
      var n := |reviews| - 1;
      var last := reviews[n];
      RejectedRounds(reviews[..n])
      + if last.status == Closed && last.verdict == Some(RejectedBy) then [(last.reviewer, last.opinion)] else []
  }

  function RejectEntries(log: seq<LogEntry>): seq<(nat, Option<string>)> {
    if log == [] then []
    else
      var n := |log| - 1;
      RejectEntries(log[..n]) + if log[n].action == Moved(Reject) then [(log[n].operator, log[n].summary)] else []
  }

  /** Rejected rounds and REJECT log entries tell the same story: same order, same
      people, same reasons. */
  predicate RejectionsOk(s: Aggregate) { RejectedRounds(s.reviews) == RejectEntries(s.log) }

  lemma {:induction false} SameRejections(a: seq<Review>, b: seq<Review>)
    requires SameRounds(a, b)
    ensures RejectedRounds(a) == RejectedRounds(b)
  {
    if a != [] { SameRejections(a[..|a| - 1], b[..|b| - 1]); }
  }

  lemma RejectEntriesAppend(log: seq<LogEntry>, e: LogEntry)
    ensures RejectEntries(log + [e])
      == RejectEntries(log) + if e.action == Moved(Reject) then [(e.operator, e.summary)] else []
  {
    assert (log + [e])[..|log|] == log;
  }

  /** Opening a round, and later edits of it, leave the rejections alone. */
  lemma OpeningKeepsRejections(s: Aggregate, reviewer: nat)
    requires RoundsOk(s)
    ensures var (reviews, r) := WithOpenReview(s.reviews, reviewer);
      RejectedRounds(reviews) == RejectedRounds(s.reviews) == RejectedRounds(reviews[..r])
  {
    OpenRoundIsLast(s, reviewer);
    var (reviews, r) := WithOpenReview(s.reviews, reviewer);
    assert reviews[..|reviews| - 1] == reviews[..r];
  }

  lemma VerdictRecorded(s: Aggregate, actor: nat, verdict: Verdict, opinion: Option<string>)
    requires RoundsOk(s) && s.request.handler == Some(actor)
    ensures var (u, r) := OpenRound(s, actor); var v := Conclude(u, r, verdict, opinion);
      opinion.Some? || verdict == Approved ==>
        RejectedRounds(v.reviews)
        == RejectedRounds(s.reviews) + if verdict == RejectedBy then [(actor, opinion)] else []
  {
    hide WithSnapshots, WithOpenReview;
    OpenRoundIsLast(s, actor);
    OpeningKeepsRejections(s, actor);
    var (u, r) := OpenRound(s, actor);
    var v := Conclude(u, r, verdict, opinion);
    assert v.reviews[..|v.reviews| - 1] == u.reviews[..r];
  }

  lemma RejectShape(c: Call, s: Aggregate, used: set<string>, t: Aggregate)
    requires c.command.RejectRequest? && Exec(c, s, used) == Ok(t)
    ensures var (u, r) := OpenRound(s, c.actor); t.reviews == Conclude(u, r, RejectedBy, Some(c.command.reason)).reviews
    ensures |t.log| == |s.log| + 1 && t.log == s.log + [t.log[|s.log|]]
    ensures t.log[|s.log|].operator == c.actor && t.log[|s.log|].summary == Some(c.command.reason) &&
      t.log[|s.log|].action == Moved(Reject)
    ensures s.request.handler == Some(c.actor)
  {
    hide WithSnapshots, WithOpenReview, Actives;
  }

  lemma ApproveShape(c: Call, s: Aggregate, used: set<string>, t: Aggregate)
    requires c.command.SendToPurchaser? && Exec(c, s, used) == Ok(t)
    ensures var (u, r) := OpenRound(s, c.actor); t.reviews == Conclude(u, r, Approved, None).reviews
    ensures s.request.handler == Some(c.actor)
  {
    hide WithSnapshots, WithOpenReview, Actives, RowsOf;
  }

  lemma StepKeepsRejections(c: Call, s: Aggregate, used: set<string>, t: Aggregate)
    requires RoundsOk(s) && RejectionsOk(s) && Exec(c, s, used) == Ok(t)
    ensures RejectionsOk(t)
  {
    hide Exec, LegacyToken, WithOpenReview, WithSnapshots, RejectedRounds, RejectEntries, RoundsOk, Conclude,
      NeedsWarehouse, ValidateActor;
    ExecEffects(c, s, t, used);
    if t.log != s.log { RejectEntriesAppend(s.log, t.log[|s.log|]); }
    if c.command.RejectRequest? {
      RejectShape(c, s, used, t);
      VerdictRecorded(s, c.actor, RejectedBy, Some(c.command.reason));
    } else if c.command.SendToPurchaser? {
      ApproveShape(c, s, used, t);
      VerdictRecorded(s, c.actor, Approved, None);
    } else if EditsReviews(c.command) {
      AdviceShape(c, s, used, t);
      OpeningKeepsRejections(s, c.actor);
      SameRejections(t.reviews, WithOpenReview(s.reviews, c.actor).0);
    } else if Purchases(c.command) {
      PurchaseKeepsRounds(c, s, used, t);
      SameRejections(t.reviews, s.reviews);
    }
  }

  // ----- allowed actions

  datatype ActionName = SaveApplicant | SaveReview | SavePurchase | SaveWarehouse | Advance(op: Operation)

  /** _allowed_actions */
  function AllowedActions(w: World, user: nat, q: Request): seq<ActionName> {
    if q.handler != Some(user) then []
    else match q.status
      case Draft => if w.HasRole(user, Applicant) then [SaveApplicant, Advance(SubmitReview)] else []
      case Rejected => if w.HasRole(user, Applicant) then [SaveApplicant, Advance(ResubmitReview)] else []
      case PendingReview =>
        if w.HasRole(user, BuildingManager)
        then [SaveApplicant, Advance(Reject), SaveReview, Advance(SubmitPurchaser)] else []
      case PendingPurchase => if w.HasRole(user, Purchaser) then [Advance(StartPurchase)] else []
      case Purchasing => if w.HasRole(user, Purchaser) then [SavePurchase, Advance(SubmitWarehouse)] else []
      case PendingWarehouse => if w.HasRole(user, WarehouseManager) then [SaveWarehouse, Advance(Complete)] else []
      case Completed => []
  }

  /** The workflow accepts exactly the listed transitions, up to the version, the
      token, the building of a manager and the next handler. In particular
      everything it accepts is listed. */
  lemma AcceptedExactlyWhenListed(w: World, actor: nat, expected: nat, s: Aggregate, op: Operation, token: string,
                                  assignee: Option<nat>, to: Option<Status>, summary: Option<string>, used: set<string>)
    requires CustodyOk(s.request)
    ensures Transition(w, actor, expected, s, op, token, assignee, to, summary, used).Ok? <==>
      && Advance(op) in AllowedActions(w, actor, s.request)
      && token !in used && expected == s.request.version
      && (RuleOf(op).required == BuildingManager ==> w.BelongsTo(actor, s.request.building))
      && (to.GetOr(RuleOf(op).to) == Completed || NextHandler(w, s.request, RuleOf(op), assignee).Ok?)
  {
    hide NextHandler;
  }

  /** The entry of the list that stands for a saving command. */
  function SaveAction(c: Command): Option<ActionName> {
    match c
    case ReplaceItems(_, _, _) => Some(SaveApplicant)
    case SaveApplicantFields(_, _, _, _) => Some(SaveApplicant)
    case SaveReviewItems(_) => Some(SaveReview)
    case SaveReviewFields(_) => Some(SaveReview)
    case SavePurchaseFields(_) => Some(SavePurchase)
    case SavePurchaseItem(_, _, _) => Some(SavePurchase)
    case SaveWarehouseFields(_, _) => Some(SaveWarehouse)
    case AppendReceipt(_, _, _) => Some(SaveWarehouse)
    case _ => None
  }

  /** A saving command succeeds only if the list offers it. */
  lemma SavesAreListed(c: Call, s: Aggregate, used: set<string>)
    requires CustodyOk(s.request) && Exec(c, s, used).Ok? && SaveAction(c.command).Some?
    ensures SaveAction(c.command).value in AllowedActions(c.world, c.actor, s.request)
  {
    hide Actives, ReplaceLines, MirrorItem, WithOpenReview, OpenRound, ReviewLines, EstimateTotal, RowsOf,
      ResolveSupplier, FindExecution, Received, WarehouseItems, LegacyToken, MaxNo, DistinctNumbers;
  }

  // ----- over whole runs

  lemma FreshTimeline(w: World, actor: nat, id: nat, building: nat, s: Aggregate)
    requires NewRequest(w, actor, id, building) == Ok(s)
    ensures TimelineOk(s) && RejectionsOk(s)
  {
    hide TimelineOf, RejectEntries, RejectedRounds;
    OneEntry(s.log[0]);
  }

  lemma OneEntry(e: LogEntry)
    requires e.action == CreateDraft
    ensures TimelineOf([e]) == [e] && RejectEntries([e]) == RejectedRounds([])
  {
    assert [e][..0] == [];
  }

  /** Every run from create_draft leaves a connected timeline that ends at the
      current status and handler, and a matching rejection record. */
  lemma {:induction false} RunTimeline(w: World, actor: nat, id: nat, building: nat, s: Aggregate, turns: seq<Turn>)
    requires NewRequest(w, actor, id, building) == Ok(s)
    ensures Inv(Run(s, turns)) && TimelineOk(Run(s, turns)) && RejectionsOk(Run(s, turns))
  {
    hide Exec, Inv, TimelineOk, RejectionsOk, NewRequest;
    if turns == [] {
      FreshRequestOk(w, actor, id, building, s);
      FreshTimeline(w, actor, id, building, s);
    } else {
      var front, last := turns[..|turns| - 1], turns[|turns| - 1];
      RunTimeline(w, actor, id, building, s, front);
      TurnKeepsTimeline(Run(s, front), last);
    }
  }

  lemma TurnKeepsTimeline(u: Aggregate, turn: Turn)
    requires Inv(u) && TimelineOk(u) && RejectionsOk(u)
    ensures Inv(After(u, turn)) && TimelineOk(After(u, turn)) && RejectionsOk(After(u, turn))
  {
    hide Exec, TimelineOk, RejectionsOk, ItemsOk, CustodyOk, RoundsOk, SnapshotsOk, ExecutionsOk, ReceiptsOk;
    var r := Exec(turn.call, u, turn.used);
    if r.Ok? {
      StepKeepsInvariant(turn.call, u, turn.used, r.value);
      StepKeepsTimeline(turn.call, u, turn.used, r.value);
      StepKeepsRejections(turn.call, u, turn.used, r.value);
    }
  }
}
