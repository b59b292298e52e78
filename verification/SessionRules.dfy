/** What an agent conversation allows: completion is final, links to requests need
    access, and the snapshot says why it was taken. */
module SessionRules {
  import opened Common
  import opened AgentSessions
  import opened ConcurrentSessions

  // ----- completion, one call at a time

  /** A completion keeps the state for the record, under the request it names, and
      closes the conversation. */
  lemma CompletionCloses(s: Session, requestId: Option<nat>, visible: Visibility, t: Session)
    requires Apply(s, Operation.Complete(requestId), visible) == Ok(t)
    ensures s.active && Fetch(s).Ok? && !t.active && t.cache.None? && t.snapshot.Some?
    ensures var last := Fetch(s).value.0; var request := if requestId.Some? then requestId else last.requestId;
      t.requestId == request && Rebuilt(t.snapshot.value, request) == Ok(last.(requestId := request))
  {
    hide SnapshotOf, Rebuilt;
    var last := Fetch(s).value.0;
    var request := if requestId.Some? then requestId else last.requestId;
    SnapshotRoundTrip(last.(requestId := request), "SESSION_COMPLETED", request);
  }

  /** Nothing happens to a closed conversation, and every call is refused. */
  lemma {:induction false} ClosedStays(s: Session, steps: seq<Step>)
    requires !s.active && s.cache.None?
    ensures Run(s, steps) == s
    ensures forall op: Operation, visible :: !op.Expire? ==> Apply(s, op, visible) == Err(InvalidSessionStatus)
  {
    hide Fetch;
    if steps != [] { ClosedStays(s, steps[..|steps| - 1]); }
  }

  /** So in every run, once a completion has been committed all three stores stay as it
      left them, and every later call but an expiry is refused. */
  lemma CompletionIsFinal(s: Session, steps: seq<Step>, k: nat, m: nat)
    requires k < m <= |steps| && steps[k].op.Complete? && Takes(Run(s, steps[..k]), steps[k])
    ensures Run(s, steps[..m]) == Run(s, steps[..k + 1])
    ensures !Run(s, steps[..m]).active && Run(s, steps[..m]).cache.None?
    ensures m < |steps| && !steps[m].op.Expire? ==>
      Apply(Run(s, steps[..m]), steps[m].op, steps[m].visible) == Err(InvalidSessionStatus)
    decreases m
  {
    hide Apply, Run;
    assert Run(s, steps[..k + 1]) == Apply(Run(s, steps[..k]), steps[k].op, steps[k].visible).value by {
      LastStep(s, steps, k);
    }
    CompletionCloses(Run(s, steps[..k]), steps[k].op.requestId, steps[k].visible, Run(s, steps[..k + 1]));
    if m > k + 1 {
      CompletionIsFinal(s, steps, k, m - 1);
      LastStep(s, steps, m - 1);
      ClosedStays(Run(s, steps[..m - 1]), [steps[m - 1]]);
      OneStep(Run(s, steps[..m - 1]), steps[m - 1]);
    }
    ClosedStays(Run(s, steps[..m]), []);
  }

  lemma LastStep(s: Session, steps: seq<Step>, k: nat)
    requires k < |steps|
    ensures Run(s, steps[..k + 1]) == AgentSessions.After(Run(s, steps[..k]), steps[k])
  {
    hide AgentSessions.After;
    assert steps[..k + 1][..k] == steps[..k];
  }

  lemma OneStep(s: Session, step: Step)
    ensures Run(s, [step]) == AgentSessions.After(s, step)
  {
    hide AgentSessions.After;
    assert [step][..0] == [];
    assert Run(s, []) == s;
  }

  // ----- completion among concurrent transactions

  /** The commit of a completion releases the lock and leaves a closed conversation. */
  lemma CompletionReleases(c: Conversation, e: Event)
    requires Writes(c, e) && e.commits && e.op.Complete?
    ensures var d := Advance(c, e); !d.stores.active && d.stores.cache.None? && d.lock.None?
    ensures Advance(c, e).tasks == c.tasks - {e.id}
  {}

  /** From then on no event changes a row, nobody gets the lock and nothing is written. */
  lemma {:induction false} ClosedForAll(c: Conversation, events: seq<Event>)
    requires !c.stores.active && c.lock.None?
    ensures var d := Concurrently(c, events);
      d.stores == c.stores.(cache := d.stores.cache) && d.lock.None? && forall e :: !Writes(d, e)
  {
    hide Looked, Finished;
    if events != [] { ClosedForAll(c, events[..|events| - 1]); }
  }

  /** The cache stays empty if and only if no transaction that began earlier still fills
      it; the entry is never read, since every call is refused. */
  lemma {:induction false} ClosedCacheExactly(c: Conversation, events: seq<Event>)
    requires !c.stores.active && c.lock.None? && c.stores.cache.None?
    ensures (forall k :: 0 <= k <= |events| ==> Concurrently(c, events[..k]).stores.cache.None?)
       <==> (forall k :: 0 <= k < |events| ==> !Refills(Concurrently(c, events[..k]), events[k]))
  {
    hide Looked, Finished, Refills, Advance;
    if events == [] { assert events[..0] == events; }
    else {
      var n := |events| - 1;
      var front := events[..n];
      assert events[..n + 1] == events;
      assert forall k :: 0 <= k <= n ==> front[..k] == events[..k];
      assert forall k :: 0 <= k < n ==> front[k] == events[k];
      ClosedCacheExactly(c, front);
      ClosedForAll(c, front);
      assert front[..n] == front;
      if Concurrently(c, front).stores.cache.None? { CacheAfter(Concurrently(c, front), events[n]); }
    }
  }

  predicate Refills(c: Conversation, e: Event) { e.Fill? && Fills(c, e.id) }

  lemma CacheAfter(c: Conversation, e: Event)
    requires !c.stores.active && c.lock.None? && c.stores.cache.None?
    ensures Advance(c, e).stores.cache.None? <==> !Refills(c, e)
  {
    hide Looked, Finished;
  }

  /** A transaction that saw the conversation closed carries nothing, so if no older one
      is left nothing ever refills the cache. */
  lemma {:induction false} NobodyLeft(c: Conversation, events: seq<Event>)
    requires !c.stores.active && c.lock.None? && c.stores.cache.None?
    requires forall id :: id in c.tasks ==> SawClosed(c.tasks[id])
    ensures Concurrently(c, events).stores == c.stores
    ensures forall id :: id in Concurrently(c, events).tasks ==> SawClosed(Concurrently(c, events).tasks[id])
  {
    hide Finished;
    if events != [] {
      var front := events[..|events| - 1];
      NobodyLeft(c, front);
      ClosedForAll(c, front);
    }
  }

  predicate SawClosed(t: Task) { !t.active && t.carried.None? }

  const CLOSE := Do(2, Operation.Complete(None), SEES_7, true)

  /** A late write-back does refill the cache of a completed conversation. */
  lemma LateFill() returns (c: Conversation, events: seq<Event>)
    ensures c == StartOf("a")
    ensures events == [Begin(1), Look(1), Begin(2), Lock(2), Look(2), CLOSE, Fill(1)]
    ensures !Concurrently(c, events).stores.active && Concurrently(c, events).stores.cache == Some(FIRST)
  {
    hide Concurrently, Rebuilt, SnapshotOf;
    c := Started();
    var s, t := c.stores, Task(None, true, Some(CREATED), None, false);
    var u := t.(carried := Some(FIRST));
    events := Then(c, [], Begin(1), Conversation(s, map[1 := t], None));
    events := Then(c, events, Look(1), Conversation(s, map[1 := u], None));
    events := Then(c, events, Begin(2), Conversation(s, map[1 := u, 2 := t], None));
    events := Then(c, events, Lock(2), Conversation(s, map[1 := u, 2 := t], Some(2)));
    events := Then(c, events, Look(2), Conversation(s, map[1 := u, 2 := u], Some(2)));
    assert map[1 := u, 2 := u] - {2} == map[1 := u];
    s := PersistedOver(s, Some(CREATED), FIRST, "SESSION_COMPLETED").(active := false, cache := None);
    events := Then(c, events, CLOSE, Conversation(s, map[1 := u], None));
    events := Then(c, events, Fill(1), Conversation(s.(cache := Some(FIRST)), map[1 := u], None));
  }

  // ----- links

  /** Somebody who could see the request named it in one of these calls. */
  ghost predicate Granted(calls: seq<Visibility>, request: Option<nat>) {
    request.None? || exists k :: 0 <= k < |calls| && request.value in calls[k] && calls[k][request.value]
  }

  function Callers(steps: seq<Step>): seq<Visibility> {
    if steps == [] then [] else Callers(steps[..|steps| - 1]) + [steps[|steps| - 1].visible]
  }

  lemma StillGranted(calls: seq<Visibility>, more: Visibility, request: Option<nat>)
    requires Granted(calls, request)
    ensures Granted(calls + [more], request)
  {
    if request.Some? {
      var k :| 0 <= k < |calls| && request.value in calls[k] && calls[k][request.value];
      assert (calls + [more])[k] == calls[k];
    }
  }

  lemma NewlyGranted(calls: seq<Visibility>, visible: Visibility, request: Option<nat>)
    requires Access(visible, request).Pass?
    ensures Granted(calls + [visible], request)
  {
    assert (calls + [visible])[|calls|] == visible;
  }

  /** Over every run, refused calls and failed commits included, the conversation and the
      cache name only requests that a caller was allowed to see. */
  lemma {:induction false} LinksAreGranted(action: string, steps: seq<Step>)
    ensures var s := Run(Opened(action), steps);
      Granted(Callers(steps), s.requestId) && (s.cache.Some? ==> Granted(Callers(steps), s.cache.value.requestId))
  {
    hide Granted, Rebuilt, SnapshotOf;
    if steps == [] { assert Granted([], None) by { NoLink(); } }
    else {
      var front, step := steps[..|steps| - 1], steps[|steps| - 1];
      LinksAreGranted(action, front);
      var before, calls := Run(Opened(action), front), Callers(front);
      StillGranted(calls, step.visible, before.requestId);
      if before.cache.Some? { StillGranted(calls, step.visible, before.cache.value.requestId); }
      if step.op.SaveState? && Access(step.visible, step.op.state.requestId).Pass? {
        NewlyGranted(calls, step.visible, step.op.state.requestId);
      }
      if step.op.Complete? && Access(step.visible, step.op.requestId).Pass? {
        NewlyGranted(calls, step.visible, step.op.requestId);
      }
      StepTakesLinks(before, step);
    }
  }

  lemma NoLink() ensures Granted([], None) {}

  /** Where the links of the next state come from. */
  lemma StepTakesLinks(s: Session, step: Step)
    ensures var t := AgentSessions.After(s, step);
      && IsLink(s, step, t.requestId)
      && (t.cache.Some? ==> IsLink(s, step, t.cache.value.requestId))
  {
    hide SnapshotOf;
    if s.cache.None? && s.snapshot.Some? && Rebuilt(s.snapshot.value, s.requestId).Ok? {
      RebuiltNames(s.snapshot.value, s.requestId);
    }
    hide Rebuilt;
  }

  predicate IsLink(s: Session, step: Step, request: Option<nat>) {
    || request == s.requestId || (s.cache.Some? && request == s.cache.value.requestId)
    || (step.op.SaveState? && request == step.op.state.requestId && Access(step.visible, request).Pass?)
    || (step.op.Complete? && request == step.op.requestId && Access(step.visible, request).Pass?)
  }

  lemma RebuiltNames(snapshot: Snapshot, requestId: Option<nat>)
    requires Rebuilt(snapshot, requestId).Ok?
    ensures Rebuilt(snapshot, requestId).value.requestId == requestId
  {}

  function CallersOf(events: seq<Event>): seq<Visibility> {
    if events == [] then []
    else
      var e := events[|events| - 1];
      CallersOf(events[..|events| - 1]) + if e.Do? then [e.visible] else []
  }

  /** Every link in the stores and in the open transactions was granted. */
  ghost predicate AllGranted(c: Conversation, calls: seq<Visibility>) {
    && Granted(calls, c.stores.requestId)
    && (c.stores.cache.Some? ==> Granted(calls, c.stores.cache.value.requestId))
    && forall id :: id in c.tasks ==> TaskGranted(c.tasks[id], calls)
  }

  ghost predicate TaskGranted(t: Task, calls: seq<Visibility>) {
    Granted(calls, t.requestId) && (t.carried.Some? ==> Granted(calls, t.carried.value.requestId))
  }

  lemma AllStillGranted(c: Conversation, calls: seq<Visibility>, more: Visibility)
    requires AllGranted(c, calls)
    ensures AllGranted(c, calls + [more])
  {
    hide Granted;
    forall request | Granted(calls, request) ensures Granted(calls + [more], request) {
      StillGranted(calls, more, request);
    }
    forall id | id in c.tasks ensures TaskGranted(c.tasks[id], calls + [more]) {
      assert TaskGranted(c.tasks[id], calls);
    }
  }

  lemma EventKeepsGranted(c: Conversation, e: Event, calls: seq<Visibility>)
    requires AllGranted(c, calls)
    requires e.Do? ==> forall request :: Access(e.visible, request).Pass? ==> Granted(calls, request)
    ensures AllGranted(Advance(c, e), calls)
  {
    hide Granted, Rebuilt, Looked, SnapshotOf, Written;
    if e.Look? && e.id in c.tasks && c.tasks[e.id].carried.None? && Looked(c.stores, c.tasks[e.id]).Ok? {
      assert TaskGranted(c.tasks[e.id], calls);
      LookedRequest(c.stores, c.tasks[e.id]);
    }
    if e.Do? && Holds(c, e.id) { assert TaskGranted(c.tasks[e.id], calls); }
    if e.Fill? && Fills(c, e.id) { assert TaskGranted(c.tasks[e.id], calls); }
    var d := Advance(c, e);
    forall id | id in d.tasks ensures TaskGranted(d.tasks[id], calls) {
      if id in c.tasks { assert TaskGranted(c.tasks[id], calls); }
    }
  }

  /** The same over every interleaving. */
  lemma {:induction false} ConcurrentLinksAreGranted(action: string, events: seq<Event>)
    ensures AllGranted(Concurrently(StartOf(action), events), CallersOf(events))
  {
    hide AllGranted, Granted, Advance, Access;
    var c := StartOf(action);
    if events == [] { NothingLinked(action); }
    else {
      var front, e := events[..|events| - 1], events[|events| - 1];
      ConcurrentLinksAreGranted(action, front);
      var calls := CallersOf(front);
      if e.Do? {
        AllStillGranted(Concurrently(c, front), calls, e.visible);
        forall request | Access(e.visible, request).Pass? ensures Granted(calls + [e.visible], request) {
          NewlyGranted(calls, e.visible, request);
        }
      } else { assert calls + [] == calls; }
      EventKeepsGranted(Concurrently(c, front), e, CallersOf(events));
    }
  }

  lemma NothingLinked(action: string)
    ensures AllGranted(StartOf(action), [])
  {}

  /** What a refusal of a link means: the request does not exist, or the caller may not
      see it; and any other link is accepted while the conversation is active. */
  lemma LinkRefusedExactly(s: Session, state: State, visible: Visibility)
    requires s.active
    ensures var r := Apply(s, SaveState(state), visible); var request := state.requestId;
      && (r == Err(RequirementNotFound) <==> request.Some? && request.value !in visible)
      && (r == Err(PermissionDenied) <==> request.Some? && request.value in visible && !visible[request.value])
      && (r.Ok? <==> request.None? || (request.value in visible && visible[request.value]))
  {}

  // ----- what the snapshot row says

  /** After a committed snapshot the row says why it was taken, and it is confirmed
      exactly if the reason is the user's confirmation. */
  lemma SnapshotTells(s: Session, reason: string, visible: Visibility, t: Session)
    requires Apply(s, SaveSnapshot(reason), visible) == Ok(t)
    ensures t.snapshot.Some? && t.snapshot.value.data.Some? && t.active
    ensures t.snapshot.value.confirmed <==> reason == "USER_CONFIRMED"
    ensures Lookup(t.snapshot.value.data.value, "snapshot_reason", Null) == Text(reason)
  {
    hide Rebuilt;
  }
}
