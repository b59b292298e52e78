/** Who is notified of what: every outbox row a command adds, stated without the code
    that adds it. */
module Notices {
  import opened Common
  import opened Workflow
  import opened Procurement
  import opened Fulfillment
  import opened Commands
  import opened Effects
  import opened Invariants
  import opened DedupKeys

  /** The event that tells a handler of a request in this status. */
  predicate Announces(event: Event, status: Status) {
    match event
    case PendingReviewEvent => status == PendingReview
    case PendingPurchaseEvent => status == Status.PendingPurchase
    case PendingWarehouseEvent => status == PendingWarehouse
    case CompletedEvent => status == Completed
  }

  function AssigneeOf(c: Command): Option<nat> {
    match c
    case SendToReview(_, _, assignee) => assignee
    case SendToPurchaser(_, assignee) => assignee
    case SendToWarehouse(_, assignee) => assignee
    case _ => None
  }

  predicate HandsOver(c: Command) { c.SendToReview? || c.SendToPurchaser? || c.SendToWarehouse? }

  /** The three submissions are one status change and one notice. */
  lemma HandOverShape(c: Call, s: Aggregate, used: set<string>, t: Aggregate)
      returns (op: Operation, to: Option<Status>, prepared: Aggregate, moved: Aggregate, event: Event)
    requires HandsOver(c.command) && Exec(c, s, used) == Ok(t) && t.request.status != Completed
    ensures OperationOf(c.command) == Some(op) && prepared.request == s.request && prepared.outbox == s.outbox
    ensures var x := c.command;
      Transition(c.world, c.actor, c.expected, prepared, op, x.token, AssigneeOf(x), to, None, used) == Ok(moved)
    ensures t == NotifyHandler(c.world, moved, event, c.command.token) && Announces(event, to.GetOr(RuleOf(op).to))
  {
    hide Actives, RowsOf, WithSnapshots, WithOpenReview, NeedsWarehouse, AllExecuted, IsComplete, CompletionNotes,
      Receivers, Transition, CurrentHandler;
    prepared, to, op := s, None, OperationOf(c.command).value;
    var x, v := c.command, c.expected;
    if x.SendToReview? { event := PendingReviewEvent; }
    else if x.SendToPurchaser? {
      var (u, r) := OpenRound(s, c.actor);
      prepared, event := Conclude(u, r, Approved, None), PendingPurchaseEvent;
    } else {
      event := PendingWarehouseEvent;
      to := StraightOn(c, s, used, t);
    }
    moved := Transition(c.world, c.actor, v, prepared, op, x.token, AssigneeOf(x), to, None, used).value;
  }

  lemma StraightOn(c: Call, s: Aggregate, used: set<string>, t: Aggregate) returns (to: Option<Status>)
    requires c.command.SendToWarehouse? && Exec(c, s, used) == Ok(t) && t.request.status != Completed
    ensures NeedsWarehouse(s) && to == Some(PendingWarehouse)
  {
    hide Actives, NeedsWarehouse, AllExecuted, CompletionNotes, Receivers, ValidateActor, NextHandler;
    to := Some(PendingWarehouse);
  }

  /** After a submission the request is with the person it names, and the outbox has one
      row more, for that person and with the event of the new status, exactly if the
      person has a Feishu identity. */
  lemma HandlerIsTold(c: Call, s: Aggregate, used: set<string>, t: Aggregate)
    requires HandsOver(c.command) && Exec(c, s, used) == Ok(t) && t.request.status != Completed
    ensures var who := AssigneeOf(c.command);
      && who.Some? && t.request.handler == who
      && |t.outbox| == |s.outbox| + (if c.world.HasFeishu(who.value) then 1 else 0) && s.outbox <= t.outbox
      && (c.world.HasFeishu(who.value) ==>
            var note := t.outbox[|s.outbox|];
            note.receiver == who.value && note.token == c.command.token && Announces(note.event, t.request.status))
  {
    hide Exec, Transition, ValidateActor;
    var op, to, prepared, moved, event := HandOverShape(c, s, used, t);
    var x, v := c.command, c.expected;
    TransitionEffects(c.world, c.actor, v, prepared, op, x.token, AssigneeOf(x), to, None, used, moved);
  }

  /** The applicant, the reviewer of the last round, and the purchaser of the lowest
      item that was bought. */
  ghost predicate TookPart(s: Aggregate, p: nat) {
    || p == s.request.applicant
    || (s.reviews != [] && p == s.reviews[|s.reviews| - 1].reviewer)
    || exists e :: 0 <= e < |s.executions| && p == s.executions[e].purchaser && IsLowest(s.executions, e)
  }

  ghost predicate IsLowest(executions: seq<Execution>, e: nat) {
    e < |executions| && forall d :: 0 <= d < |executions| ==> executions[e].item <= executions[d].item
  }

  lemma {:induction false} InsertAdds(x: nat, sorted: seq<nat>)
    ensures forall y :: y in Insert(x, sorted) <==> y == x || y in sorted
  {
    if sorted != [] && x > sorted[0] {
      InsertAdds(x, sorted[1..]);
      assert sorted == [sorted[0]] + sorted[1..];
    }
  }

  lemma LatestIsLast(reviews: seq<Review>)
    requires forall k :: 0 <= k < |reviews| ==> reviews[k].round == k + 1
    ensures LatestReview(reviews) == if reviews == [] then None else Some(|reviews| - 1)
  {
    hide LatestReview;
    var r := LatestReview(reviews);
    if reviews != [] { assert reviews[|reviews| - 1].round <= reviews[r.value].round; }
  }

  lemma ReceiversTookPart(s: Aggregate)
    requires RoundsOk(s) && ExecutionsOk(s)
    ensures forall p :: p in Receivers(s) <==> TookPart(s, p)
  {
    hide LatestReview, FirstExecution, Insert, ExecutionOk;
    LatestIsLast(s.reviews);
    var e := FirstExecution(s.executions);
    var one := [s.request.applicant];
    var two := if s.reviews == [] then one else Insert(s.reviews[|s.reviews| - 1].reviewer, one);
    if s.reviews != [] { InsertAdds(s.reviews[|s.reviews| - 1].reviewer, one); }
    if e.Some? {
      InsertAdds(s.executions[e.value].purchaser, two);
      assert IsLowest(s.executions, e.value);
      forall d: nat | IsLowest(s.executions, d) ensures d == e.value {
        assert s.executions[d].item == s.executions[e.value].item;
      }
    }
  }

  lemma {:induction false} NotesOf(w: World, receivers: seq<nat>, token: string)
    ensures forall n :: n in CompletionNotes(w, receivers, token) <==>
      n.event == CompletedEvent && n.token == token && n.receiver in receivers && w.HasFeishu(n.receiver)
  {
    if receivers != [] {
      NotesOf(w, receivers[1..], token);
      assert receivers == [receivers[0]] + receivers[1..];
      var head := if w.HasFeishu(receivers[0]) then [Note(CompletedEvent, token, receivers[0])] else [];
      assert CompletionNotes(w, receivers, token) == head + CompletionNotes(w, receivers[1..], token);
    }
  }

  /** By either path to completion exactly the participants with a Feishu identity are
      told, once each. */
  lemma ParticipantsAreTold(c: Call, s: Aggregate, used: set<string>, t: Aggregate)
    requires RoundsOk(s) && ExecutionsOk(s) && Exec(c, s, used) == Ok(t)
    requires s.request.status != Completed && t.request.status == Completed
    ensures s.outbox <= t.outbox && NoDuplicates(t.outbox[|s.outbox|..]) && TokenIn(c.command).Some?
    ensures forall n :: n in t.outbox[|s.outbox|..] <==>
      && n.event == CompletedEvent && Some(n.token) == TokenIn(c.command)
      && TookPart(s, n.receiver) && c.world.HasFeishu(n.receiver)
  {
    hide Receivers, CompletionNotes, Exec, TookPart, ExecutionsOk, RoundsOk, Logged;
    CompletionShape(c, s, used, t);
    ReceiversTookPart(s);
    ReceiversAscending(s);
    NotesOf(c.world, Receivers(s), c.command.token);
    CompletionNotesDistinct(c.world, Receivers(s), c.command.token);
    assert t.outbox[|s.outbox|..] == CompletionNotes(c.world, Receivers(s), c.command.token);
  }

  function TokenIn(c: Command): Option<string> {
    match c case SendToWarehouse(token, _) => Some(token) case Finish(token) => Some(token) case _ => None
  }

  lemma CompletionShape(c: Call, s: Aggregate, used: set<string>, t: Aggregate)
    requires Exec(c, s, used) == Ok(t) && s.request.status != Completed && t.request.status == Completed
    ensures c.command.SendToWarehouse? || c.command.Finish?
    ensures t.outbox == s.outbox + CompletionNotes(c.world, Receivers(s), c.command.token)
  {
    hide Exec, NeedsWarehouse, ValidateActor, LegacyToken;
    ExecEffects(c, s, t, used);
    if c.command.Finish? { FinishShape(c, s, used, t); } else { StraightShape(c, s, used, t); }
  }

  lemma FinishShape(c: Call, s: Aggregate, used: set<string>, t: Aggregate)
    requires c.command.Finish? && Exec(c, s, used) == Ok(t)
    ensures t.outbox == s.outbox + CompletionNotes(c.world, Receivers(s), c.command.token)
  {
    hide CompletionNotes, Insert, Actives, CompletionCheck, NextHandler, ValidateActor, LatestReview, FirstExecution;
  }

  lemma StraightShape(c: Call, s: Aggregate, used: set<string>, t: Aggregate)
    requires c.command.SendToWarehouse? && Exec(c, s, used) == Ok(t) && t.request.status == Completed
    ensures t.outbox == s.outbox + CompletionNotes(c.world, Receivers(s), c.command.token)
  {
    hide CompletionNotes, Insert, Actives, NeedsWarehouse, AllExecuted, ValidateActor, LatestReview, FirstExecution;
  }

  /** Nothing else writes to the outbox. */
  lemma OthersAreSilent(c: Call, s: Aggregate, used: set<string>, t: Aggregate)
    requires Exec(c, s, used) == Ok(t) && !HandsOver(c.command) && !c.command.Finish?
    ensures t.outbox == s.outbox
  {
    hide Exec, Logged, LegacyToken;
    ExecEffects(c, s, t, used);
    if c.command.RejectRequest? || c.command.BeginPurchase? { PlainMove(c, s, used, t); }
  }

  lemma PlainMove(c: Call, s: Aggregate, used: set<string>, t: Aggregate)
    requires (c.command.RejectRequest? || c.command.BeginPurchase?) && Exec(c, s, used) == Ok(t)
    ensures t.outbox == s.outbox
  {
    hide WithSnapshots, WithOpenReview, NextHandler, ValidateActor, Actives;
  }
}
