/** Concrete runs from create_draft on which three natural expectations fail: a
    review snapshot that differs from the quantity bought, a purchase from a
    blacklisted supplier, and an explicit item number that meets the unique index. */
module WitnessRuns {
  import opened Common
  import opened Money
  import opened Workflow
  import opened Procurement
  import opened Commands
  import opened Invariants
  import opened Lifecycle
  import opened Liveness
  import opened SnapshotDrift
  import opened Timeline
  import opened TimelineOrder
  import opened MissingFields

  const EVERYBODY := Employee({Applicant, BuildingManager, Purchaser, WarehouseManager}, {0}, true, false)

  /** One employee with every role; the only supplier, "v", is blacklisted. */
  const SHOP := World(map[0 := EVERYBODY], map[7 := Supplier("v", true, true)], map["v" := 7], 8, map[], map[], 0)

  // ----- the states of the run

  const COPIED := MirroredColumns(map[])

  function Header(status: Status, version: nat, quantity: nat): Request {
    Request(0, 0, 0, status, Some(0), version, Some("x"), Some(quantity), Some("p"), Purchase, None, map[])
  }

  function Piece(quantity: nat): Item {
    Item(0, 1, Equipment, None, None, "x", quantity, "p", true, true, COPIED)
  }

  function Round(status: ReviewStatus, verdict: Option<Verdict>, supplier: Option<nat>): Review {
    Review(1, status, verdict, None, 0, supplier, Some("v"), Some(5), Some(5), Unadvised())
  }

  const SHOWN := ReviewItem(
    0, 0, 1000, Equipment, "x", "p", None, None, None, Some("v"), Some(5), Some(5),
    Unadvised() + MirroredAdvice(Unadvised()))

  function Created(at: int): LogEntry { LogEntry(0, Some(0), None, CreateDraft, None, Status.Draft, None, at) }

  function MoveEntry(token: string, op: Operation): LogEntry {
    LogEntry(0, Some(0), Some(token), Moved(op), Some(RuleOf(op).from), RuleOf(op).to, None, 0)
  }

  const SUBMITTED := [Created(0), MoveEntry("t1", SubmitReview)]
  const APPROVED := SUBMITTED + [MoveEntry("t2", SubmitPurchaser)]
  const STARTED := APPROVED + [MoveEntry("t3", StartPurchase)]

  function DraftOf(at: int): Aggregate {
    Aggregate(Header(Status.Draft, 1, 1000), [Piece(1000)], [], [], [], [], [Created(at)], [])
  }

  function Submitted(at: int): Aggregate {
    DraftOf(at).(request := Header(PendingReview, 2, 1000), log := [Created(at), MoveEntry("t1", SubmitReview)])
  }

  const DRAFT := DraftOf(0)
  const IN_REVIEW := Submitted(0)
  const ADVISED := IN_REVIEW.(
    request := Header(PendingReview, 3, 1000), reviews := [Round(Open, None, None)], reviewItems := [SHOWN])
  const EDITED := ADVISED.(request := Header(PendingReview, 4, 2000), items := [Piece(2000)])
  const DECIDED := EDITED.(
    request := Header(Status.PendingPurchase, 5, 2000), reviews := [Round(Closed, Some(Approved), None)],
      log := APPROVED)
  const BUYING := DECIDED.(request := Header(Purchasing, 6, 2000), log := STARTED)
  const BOUGHT := BUYING.(
    request := Header(Purchasing, 7, 2000), reviews := [Round(Closed, Some(Approved), Some(7))],
    executions := [Execution(0, 0, 0, 7, 5, 2000, 10, map[])],
    log := STARTED + [LogEntry(0, Some(0), Some("t4"), PurchaseItem, Some(Purchasing), Purchasing, None, 0)])

  // ----- its calls

  function By(version: nat, c: Command): Call { Call(SHOP, 0, version, c) }

  const FILL_IN := Command.SaveApplicantFields(Put(Some("x")), Put(Some(1000)), Put(Some("p")), map[])
  const ADVISE := Command.SaveReviewFields(ReviewFields(Keep, Put(Some("v")), Put(Some(5)), Keep, map[]))
  const DOUBLE := Command.SaveApplicantFields(Keep, Put(Some(2000)), Keep, map[])
  const BUY := Command.SavePurchaseItem(0, "t4", PurchaseFields(None, 5, None, map[]))

  lemma ActiveOne(q: nat)
    ensures Actives([Piece(q)]) == [0]
  {
    assert [Piece(q)][..0] == [];
  }

  lemma FillIn(s: Aggregate, at: int)
    requires NewRequest(SHOP.(now := at), 0, 0, 0) == Ok(s)
    ensures Exec(By(0, FILL_IN), s, {} + Tokens(s.log)) == Ok(DraftOf(at))
  {
    var none: Columns := map[];
    assert none + none == none;
    var q := s.request;
    assert q == Request(0, 0, 0, Status.Draft, Some(0), 0, None, None, None, Purchase, None, none);
    assert SHOP.HasRole(0, Applicant);
    assert ApplicantMayEdit(SHOP, 0, q) && !ManagerMayEdit(SHOP, 0, q);
    assert EditedHeader(q.(version := 1), FILL_IN.name, FILL_IN.quantity, FILL_IN.unit, FILL_IN.columns) ==
      DraftOf(at).request;
    assert Actives([]) == [] && MirrorItem(DraftOf(at).request, []) == [Piece(1000)];
    hide Actives, MirrorItem, EditedHeader, ApplicantMayEdit, ManagerMayEdit;
    assert DoSaveApplicantFields(SHOP, 0, 0, s, FILL_IN.name, FILL_IN.quantity, FILL_IN.unit, FILL_IN.columns) ==
      Ok(DraftOf(at));
  }

  lemma SubmitMove(at: int)
    ensures Transition(SHOP, 0, 1, DraftOf(at), SubmitReview, "t1", Some(0), None, None, {} + Tokens(DraftOf(at).log))
         == Ok(Submitted(at))
  {
    var used := {} + Tokens(DraftOf(at).log);
    assert "t1" !in used;
    hide Tokens;
    assert SHOP.HasRole(0, Applicant) && SHOP.ValidHandler(0, BuildingManager, Some(0));
    assert DraftOf(at).log + [MoveEntry("t1", SubmitReview)] == Submitted(at).log;
  }

  lemma DraftIsFit(at: int)
    ensures Actives(DraftOf(at).items) == [0] && IsComplete(DraftOf(at).items[0])
  {
    ActiveOne(1000);
    assert Strip("x") == "x" && Strip("p") == "p";
    hide Strip, Actives;
  }

  lemma Submit(at: int)
    ensures var d := DraftOf(at);
      Exec(By(1, SendToReview(false, "t1", Some(0))), d, {} + Tokens(d.log)) == Ok(Submitted(at))
  {
    DraftIsFit(at);
    SubmitMove(at);
    hide Actives, Strip, IsComplete, Transition, Tokens, ValidateActor, ApplicantMayEdit, NextHandler;
    var d := DraftOf(at);
    assert DoSendToReview(SHOP, 0, 1, d, false, "t1", Some(0), {} + Tokens(d.log)) == Ok(Submitted(at));
  }

  const BLANK := BlankRound(1, 0)

  lemma OpensBlank()
    ensures WithOpenReview([], 0) == ([BLANK], 0)
  {
    assert OpenReview([]) == None && NextRound([]) == 1 && [] + [BLANK] == [BLANK];
  }

  lemma AdvisesBlank()
    ensures AdvisedReview(SHOP, 1000, BLANK, ADVISE.review) == Ok(Round(Open, None, None))
    ensures var row := Snapshot(0, 0, Piece(1000));
      row.(supplierName := Some("v"), unitPrice := Some(5), totalPrice := Some(5),
           columns := row.columns + MirroredAdvice(Unadvised())) == SHOWN
  {
    assert Strip("v") == "v";
    assert Unadvised() + map[] == Unadvised();
    hide Unadvised, MirroredAdvice;
  }

  lemma Advise()
    ensures Exec(By(2, ADVISE), IN_REVIEW, {} + Tokens(IN_REVIEW.log)) == Ok(ADVISED)
  {
    ActiveOne(1000);
    OpensBlank();
    AdvisesBlank();
    assert RowsOf([], 0) == [];
    assert [BLANK][0 := Round(Open, None, None)] == ADVISED.reviews && [] + [SHOWN] == ADVISED.reviewItems;
    hide Actives, WithOpenReview, AdvisedReview, RowsOf, Snapshot, MirroredAdvice, Unadvised;
    assert CurrentHandler(SHOP, 0, IN_REVIEW.request, BuildingManager).Pass?;
    hide CurrentHandler;
    assert DoSaveReviewFields(SHOP, 0, 2, IN_REVIEW, ADVISE.review) == Ok(ADVISED);
  }

  lemma Double()
    ensures Exec(By(3, DOUBLE), ADVISED, {} + Tokens(ADVISED.log)) == Ok(EDITED)
  {
    hide Unadvised, MirroredAdvice;
    ActiveOne(1000);
    var none: Columns := map[];
    assert none + none == none && COPIED + COPIED == COPIED;
    assert ManagerMayEdit(SHOP, 0, ADVISED.request);
    assert EditedHeader(ADVISED.request.(version := 4), DOUBLE.name, DOUBLE.quantity, DOUBLE.unit, DOUBLE.columns) ==
      EDITED.request;
    assert MirrorItem(EDITED.request, [Piece(1000)]) == [Piece(2000)];
    hide Actives, MirrorItem, EditedHeader, ApplicantMayEdit, ManagerMayEdit;
    assert DoSaveApplicantFields(SHOP, 0, 3, ADVISED, DOUBLE.name, DOUBLE.quantity, DOUBLE.unit, DOUBLE.columns) ==
      Ok(EDITED);
  }

  lemma NothingToOpen()
    ensures OpenRound(EDITED, 0) == (EDITED, 0) && |RowsOf(EDITED.reviewItems, 0)| == 1
  {
    hide Unadvised, MirroredAdvice;
    ActiveOne(2000);
    assert OpenReview(EDITED.reviews) == Some(0);
    assert 0 in ReviewedItems(EDITED.reviewItems, 0) by { assert EDITED.reviewItems[0].review == 0; }
    assert WithSnapshots(EDITED.items, 0, ReviewedItems(EDITED.reviewItems, 0), EDITED.reviewItems, [0]) ==
      EDITED.reviewItems;
    assert EDITED.reviewItems[..0] == [];
  }

  lemma Decide()
    ensures Exec(By(4, SendToPurchaser("t2", Some(0))), EDITED, {} + Tokens(EDITED.log)) == Ok(DECIDED)
  {
    hide Unadvised, MirroredAdvice, MirroredColumns;
    ActiveOne(2000);
    NothingToOpen();
    hide Actives, OpenRound, RowsOf;
    var used := {} + Tokens(EDITED.log);
    assert "t2" !in used;
    var closed := Conclude(EDITED, 0, Approved, None);
    assert closed.reviews == DECIDED.reviews;
    assert Transition(SHOP, 0, 4, closed, SubmitPurchaser, "t2", Some(0), None, None, used) == Ok(DECIDED);
    hide Transition, Tokens, Conclude;
    assert DoSendToPurchaser(SHOP, 0, 4, EDITED, "t2", Some(0), used) == Ok(DECIDED);
  }

  lemma Begin()
    ensures Exec(By(5, BeginPurchase("t3")), DECIDED, {} + Tokens(DECIDED.log)) == Ok(BUYING)
  {
    hide Unadvised, MirroredAdvice, MirroredColumns;
    var used := {} + Tokens(DECIDED.log);
    assert "t3" !in used;
    assert Transition(SHOP, 0, 5, DECIDED, StartPurchase, "t3", None, None, None, used) == Ok(BUYING);
  }

  lemma Buy()
    ensures Exec(By(6, BUY), BUYING, {} + Tokens(BUYING.log)) == Ok(BOUGHT)
  {
    hide Unadvised, MirroredAdvice, MirroredColumns;
    assert Strip("v") == "v";
    assert BUYING.reviews[..0] == [] && LatestReview(BUYING.reviews) == Some(0);
    assert BUYING.reviews[0 := BUYING.reviews[0].(supplierId := Some(7))] == BOUGHT.reviews;
    assert ResolveSupplier(SHOP, BUYING.reviews, None) == Ok((7, BOUGHT.reviews));
    hide Strip, LatestReview, ResolveSupplier;
    var used := {} + Tokens(BUYING.log);
    assert "t4" !in used;
    assert FindExecution([], 0) == None;
    assert LineTotal(2000, 5) == 10;
    assert [] + [Execution(0, 0, 0, 7, 5, 2000, 10, map[])] == BOUGHT.executions;
    assert CurrentHandler(SHOP, 0, BUYING.request, Purchaser).Pass?;
    hide Tokens, FindExecution, LineTotal, CurrentHandler;
    assert DoSavePurchaseItem(SHOP, 0, 6, BUYING, 0, BUY.fields, Some("t4"), false, used) == Ok(BOUGHT);
  }

  // ----- the runs

  /** Four calls bring the request under review with advice for 1000 thousandths. */
  lemma ReachAdvised() returns (s: Aggregate, turns: seq<Turn>)
    ensures NewRequest(SHOP, 0, 0, 0) == Ok(s) && Genuine(SHOP, {}, s, turns) && Run(s, turns) == ADVISED
  {
    s := NewRequest(SHOP, 0, 0, 0).value;
    hide Exec, Tokens, Genuine;
    FillIn(s, 0);
    turns := Begun(s);
    turns := Extended(s, turns, By(0, FILL_IN), DRAFT);
    Submit(0);
    turns := Extended(s, turns, By(1, SendToReview(false, "t1", Some(0))), IN_REVIEW);
    Advise();
    turns := Extended(s, turns, By(2, ADVISE), ADVISED);
  }

  lemma Begun(s: Aggregate) returns (turns: seq<Turn>)
    ensures Genuine(SHOP, {}, s, turns) && Run(s, turns) == s
  {
    turns := [];
  }

  lemma Extended(s: Aggregate, turns: seq<Turn>, c: Call, t: Aggregate) returns (more: seq<Turn>)
    requires Genuine(SHOP, {}, s, turns) && c.world == SHOP
    requires Exec(c, Run(s, turns), {} + Tokens(Run(s, turns).log)) == Ok(t)
    ensures Genuine(SHOP, {}, s, more) && Run(s, more) == t
  {
    hide Exec, Tokens, Genuine, Run;
    GenuineSnoc(SHOP, {}, s, turns, c, t);
    more := turns + [Turn(c, {} + Tokens(Run(s, turns).log))];
  }

  /** The manager doubles the quantity after the advice and approves: the approved
      round still shows, and prices, the old quantity. */
  lemma SnapshotDriftRun() returns (s: Aggregate, turns: seq<Turn>)
    ensures NewRequest(SHOP, 0, 0, 0) == Ok(s) && Genuine(SHOP, {}, s, turns) && Run(s, turns) == DECIDED
    ensures DECIDED.request.status == Status.PendingPurchase && DECIDED.reviews[0].verdict == Some(Approved)
    ensures DECIDED.reviewItems[0].review == 0
    ensures DECIDED.reviewItems[0].quantity != DECIDED.items[DECIDED.reviewItems[0].item].quantity
    ensures !SnapshotsMatch(DECIDED)
  {
    hide Exec, Tokens, Genuine, NewRequest, Run;
    s, turns := ReachAdvised();
    Double();
    turns := Extended(s, turns, By(3, DOUBLE), EDITED);
    Decide();
    turns := Extended(s, turns, By(4, SendToPurchaser("t2", Some(0))), DECIDED);
  }

  /** Going on, the purchaser buys the new quantity, and by name from the blacklisted
      supplier. */
  lemma BlacklistedRun() returns (s: Aggregate, turns: seq<Turn>)
    ensures NewRequest(SHOP, 0, 0, 0) == Ok(s) && Genuine(SHOP, {}, s, turns) && Run(s, turns) == BOUGHT
    ensures SHOP.SuppliersOk() && SHOP.Blacklisted(BOUGHT.executions[0].supplier)
    ensures BOUGHT.executions[0].quantity == 2000 && BOUGHT.executions[0].total == 10
    ensures BOUGHT.reviewItems[0].quantity == 1000 && BOUGHT.reviewItems[0].totalPrice == Some(5)
  {
    hide Exec, Tokens, Genuine, NewRequest, Run;
    s, turns := SnapshotDriftRun();
    Begin();
    turns := Extended(s, turns, By(5, BeginPurchase("t3")), BUYING);
    Buy();
    turns := Extended(s, turns, By(6, BUY), BOUGHT);
  }

  // ----- the clock

  /** The submission reads a clock behind that of the creation: it is shown first. */
  lemma ClockTurnedBack() returns (s: Aggregate, turns: seq<Turn>)
    ensures NewRequest(SHOP.(now := 1), 0, 0, 0) == Ok(s) && Genuine(SHOP, {}, s, turns)
    ensures Run(s, turns) == Submitted(1)
    ensures TimelineOf(Run(s, turns).log) == [Created(1), MoveEntry("t1", SubmitReview)]
    ensures Display(Run(s, turns).log) == [MoveEntry("t1", SubmitReview), Created(1)]
  {
    hide Exec, Tokens, Genuine, Run, NewRequest, TimelineOf, Display;
    s := Dated();
    FillIn(s, 1);
    turns := Begun(s);
    turns := Extended(s, turns, By(0, FILL_IN), DraftOf(1));
    Submit(1);
    turns := Extended(s, turns, By(1, SendToReview(false, "t1", Some(0))), Submitted(1));
    LaterFirst();
  }

  lemma Dated() returns (s: Aggregate)
    ensures NewRequest(SHOP.(now := 1), 0, 0, 0) == Ok(s)
  {
    s := NewRequest(SHOP.(now := 1), 0, 0, 0).value;
  }

  lemma LaterFirst()
    ensures TimelineOf(Submitted(1).log) == [Created(1), MoveEntry("t1", SubmitReview)]
    ensures Display(Submitted(1).log) == [MoveEntry("t1", SubmitReview), Created(1)]
  {
    TwoReversed(Created(1), MoveEntry("t1", SubmitReview));
  }

  // ----- a reply without missing fields

  const NAME_BLANK := Command.SaveApplicantFields(
    Put(Some(" ")), Put(Some(1000)), Put(Some("p")),
    map["device_profession" := Some("d"), "application_reason" := Some("r")])

  /** The save of a blank name reports nothing missing, and every submission afterwards
      is refused for missing fields. */
  lemma BlankNameRun() returns (s: Aggregate, t: Aggregate)
    ensures NewRequest(SHOP, 0, 0, 0) == Ok(s) && Exec(By(0, NAME_BLANK), s, {}) == Ok(t)
    ensures MissingHeader(t.request) == []
    ensures forall token: string, assignee, used ::
      Exec(By(1, SendToReview(false, token, assignee)), t, used) == Err(MissingRequiredFields)
  {
    hide Exec, NewRequest, MissingHeader, Submittable;
    s, t := SavedBlank();
    NothingMissingExactly(By(0, NAME_BLANK), s, {}, t);
    BlankIsBlank();
    forall token: string, assignee, used
      ensures Exec(By(1, SendToReview(false, token, assignee)), t, used) == Err(MissingRequiredFields)
    {
      Refused(t, token, assignee, used);
    }
  }

  lemma BlankIsBlank() ensures Strip(" ") == "" {}

  lemma Refused(t: Aggregate, token: string, assignee: Option<nat>, used: set<string>)
    requires !Submittable(t.items)
    ensures Exec(By(1, SendToReview(false, token, assignee)), t, used) == Err(MissingRequiredFields)
  {
    hide DoSendToReview;
    SubmissionNeedsThat(SHOP, 0, 1, t, false, token, assignee, used);
  }

  lemma SavedBlank() returns (s: Aggregate, t: Aggregate)
    ensures NewRequest(SHOP, 0, 0, 0) == Ok(s) && s.request.quantity == None
    ensures Exec(By(0, NAME_BLANK), s, {}) == Ok(t) && MissingHeader(t.request) == []
    ensures t.request.deviceName == Some(" ")
  {
    s := NewRequest(SHOP, 0, 0, 0).value;
    var edit := NAME_BLANK;
    var header := EditedHeader(s.request.(version := 1), edit.name, edit.quantity, edit.unit, edit.columns);
    assert MissingColumns(header.columns, ["device_profession"]) == [] by { NoneLeft(header.columns); }
    assert MissingColumns(header.columns, ["application_reason"]) == [] by { NoneLeft(header.columns); }
    t := s.(request := header, items := MirrorItem(header, []));
    assert ApplicantMayEdit(SHOP, 0, s.request) && !ManagerMayEdit(SHOP, 0, s.request);
    assert Actives([]) == [];
    hide Actives, MirroredColumns, ApplicantMayEdit, ManagerMayEdit, MissingColumns;
  }

  lemma NoneLeft(columns: Columns)
    ensures forall name: string :: Column(columns, name).GetOr("") != "" ==> MissingColumns(columns, [name]) == []
  {}

  // ----- the unique index

  const ANOTHER := ItemInput(None, None, Equipment, None, None, "y", 1000, "p", None, map[])

  /** The draft after its first row was replaced: row 0, number 1, is inactive. */
  const REPLACED := DRAFT.(
    request := Header(Status.Draft, 2, 1000),
    items := [Piece(1000).(active := false), Item(0, 2, Equipment, None, None, "y", 1000, "p", true, true, map[])])

  /** A payload of one line is one turn of the loop. */
  lemma OneLine(before: nat, d: LineState, line: ItemInput, d1: LineState)
    requires before <= |d.items| && before <= |d1.items| && ReplaceLine(SHOP, 0, before, d, line) == Ok(d1)
    ensures ReplaceLines(SHOP, 0, before, d, [line]) == Ok(d1)
  {
    hide ReplaceLine;
    assert [line][1..] == [] && ReplaceLines(SHOP, 0, before, d1, []) == Ok(d1);
  }

  lemma ReplaceLoop()
    ensures MaxNo(DRAFT.items) == 1
    ensures ReplaceLines(SHOP, 0, 1, StartLines(DRAFT.items), [ANOTHER])
         == Ok(LineState(DRAFT.items + [REPLACED.items[1]], 3, {}, {} + {2}))
  {
    assert Strip("y") == "y" && Strip("p") == "p";
    assert DRAFT.items[..0] == [] && MaxNo(DRAFT.items) == 1;
    hide MaxNo, Strip, ReplaceLines;
    assert LineValues(BlankItem(0, 2), ANOTHER) == REPLACED.items[1];
    OneLine(1, StartLines(DRAFT.items), ANOTHER, LineState(DRAFT.items + [REPLACED.items[1]], 3, {}, {} + {2}));
  }

  lemma Replace()
    ensures Exec(By(1, ReplaceItems(None, Keep, [ANOTHER])), DRAFT, {} + Tokens(DRAFT.log)) == Ok(REPLACED)
  {
    hide ReplaceLines, StartLines, MaxNo;
    ReplaceLoop();
    assert Deactivate(DRAFT.items + [REPLACED.items[1]], 1, {}) == REPLACED.items;
    hide Deactivate;
    assert DoReplaceItems(SHOP, 0, 1, DRAFT, None, Keep, [ANOTHER]) == Ok(REPLACED);
  }

  lemma Ask()
    ensures var c := By(2, ReplaceItems(None, Keep, [ANOTHER.(no := Some(1))]));
      Exec(c, REPLACED, {} + Tokens(REPLACED.log)) == Err(IntegrityError)
  {
    var line := ANOTHER.(no := Some(1));
    var d := StartLines(REPLACED.items);
    var added := LineValues(BlankItem(0, 1), line);
    var d1 := LineState(REPLACED.items + [added], d.nextNo, {}, {} + {1});
    assert d.nextNo >= 3 by { assert REPLACED.items[1].no <= MaxNo(REPLACED.items); }
    hide MaxNo, Strip;
    OneLine(2, d, line, d1);
    var items := Deactivate(d1.items, 2, {});
    assert items[0].no == 1 && items[2].no == 1 && !DistinctNumbers(items);
    hide ReplaceLines, ReplaceLine, StartLines, Deactivate, DistinctNumbers;
    assert DoReplaceItems(SHOP, 0, 2, REPLACED, None, Keep, [line]) == Err(IntegrityError);
  }

  /** A reachable draft whose only row numbered 1 is inactive: a payload of one new
      line asking for number 1 passes the loop and meets the unique index. */
  lemma UniqueIndexFires() returns (s: Aggregate, turns: seq<Turn>, c: Call)
    ensures NewRequest(SHOP, 0, 0, 0) == Ok(s) && Genuine(SHOP, {}, s, turns) && Run(s, turns) == REPLACED
    ensures Inv(REPLACED) && REPLACED.items[0].no == 1 && !REPLACED.items[0].active && REPLACED.items[1].no != 1
    ensures c.command == ReplaceItems(None, Keep, [ANOTHER.(no := Some(1))])
    ensures Exec(c, REPLACED, {} + Tokens(REPLACED.log)) == Err(IntegrityError)
  {
    s := NewRequest(SHOP, 0, 0, 0).value;
    hide Exec, Tokens, Genuine, Inv, Run, NewRequest;
    FreshRequestOk(SHOP, 0, 0, 0, s);
    FillIn(s, 0);
    turns := Begun(s);
    turns := Extended(s, turns, By(0, FILL_IN), DRAFT);
    Replace();
    turns := Extended(s, turns, By(1, ReplaceItems(None, Keep, [ANOTHER])), REPLACED);
    ReachableOk(s, turns);
    Ask();
    c := By(2, ReplaceItems(None, Keep, [ANOTHER.(no := Some(1))]));
  }
}
