/** The transactions on one agent conversation, interleaved: the restores that take no
    lock and the writers that do, over rows read at the beginning of the transaction.
    What a restore promises, and exactly which events break it. */
module ConcurrentSessions {
  import opened Common
  import opened AgentSessions

  // ----- concurrent transactions

  /** One transaction: the rows as it saw them when it began, for a locked one with the
      conversation row as it is now; the state it carries; and whether that state came
      from the snapshot and has still to be put into the cache. */
  datatype Task = Task(
    requestId: Option<nat>, active: bool, snapshot: Option<Snapshot>, carried: Option<State>, owed: bool)

  /** `lock` is the transaction that holds the lock on the conversation row. */
  datatype Conversation = Conversation(stores: Session, tasks: map<nat, Task>, lock: Option<nat>)

  /** get_state is Begin, Look, after a miss Fill, and Leave; get_or_create_active fills
      after a hit too, and any transaction without the lock may do so here. The writers
      are Begin, Lock, for a snapshot or a completion Look and after a miss Fill, and Do.
      Leave is also a rollback; Evict is the expiry. */
  datatype Event =
    | Evict | Begin(id: nat) | Lock(id: nat) | Look(id: nat) | Fill(id: nat) | Leave(id: nat)
    | Do(id: nat, op: Operation, visible: Visibility, commits: bool)

  /** The row after an UPDATE of the columns that differ from those loaded. */
  function Written(current: Snapshot, loaded: Snapshot, new_: Snapshot): Snapshot {
    Snapshot(if new_.action == loaded.action then current.action else new_.action,
             if new_.data == loaded.data then current.data else new_.data,
             if new_.missing == loaded.missing then current.missing else new_.missing,
             if new_.confirmed == loaded.confirmed then current.confirmed else new_.confirmed)
  }

  function PersistedOver(s: Session, loaded: Option<Snapshot>, state: State, reason: string): Session {
    var new_ := SnapshotOf(state, reason);
    var both := s.snapshot.Some? && loaded.Some?;
    s.(snapshot := Some(if both then Written(s.snapshot.value, loaded.value, new_) else new_),
       requestId := state.requestId)
  }

  /** The stores after the write of a locked transaction. */
  function Finished(s: Session, t: Task, op: Operation, visible: Visibility): Result<Session> {
    match op
    case SaveState(state) =>
      :- Access(visible, state.requestId);
      Ok(s.(requestId := state.requestId, cache := Some(state)))
    case SaveSnapshot(reason) =>
      :- Check(t.carried.Some? && !t.owed, InternalError);
      Ok(PersistedOver(s, t.snapshot, t.carried.value, reason))
    case Complete(requestId) =>
      :- Check(t.carried.Some? && !t.owed, InternalError);
      :- Access(visible, requestId);
      Ok(PersistedOver(s, t.snapshot, Final(t.carried.value, requestId), "SESSION_COMPLETED")
         .(active := false, cache := None))
    case _ => Err(InternalError)
  }

  function Final(state: State, requestId: Option<nat>): State {
    if requestId.Some? then state.(requestId := requestId) else state
  }

  function Looked(s: Session, t: Task): Result<Task> {
    if !t.active then Err(InvalidSessionStatus)
    else if s.cache.Some? then Ok(t.(carried := s.cache))
    else
      var found := t.snapshot.Some?;
      :- Check(found, SessionExpired);
      var state :- Rebuilt(t.snapshot.value, t.requestId);
      Ok(t.(carried := Some(state), owed := true))
  }

  function Without(c: Conversation, id: nat): Conversation {
    Conversation(c.stores, c.tasks - {id}, if c.lock == Some(id) then None else c.lock)
  }

  predicate Holds(c: Conversation, id: nat) { c.lock == Some(id) && id in c.tasks }

  /** A locked transaction fills the cache only after a miss. */
  predicate Fills(c: Conversation, id: nat) {
    id in c.tasks && c.tasks[id].carried.Some? && (c.tasks[id].owed || c.lock != Some(id))
  }

  function Advance(c: Conversation, e: Event): Conversation {
    match e
    case Evict => c.(stores := c.stores.(cache := None))
    case Begin(id) =>
      if id in c.tasks then c
      else c.(tasks := c.tasks[id := Task(c.stores.requestId, c.stores.active, c.stores.snapshot, None, false)])
    case Lock(id) =>
      if id !in c.tasks || c.lock.Some? || c.tasks[id].carried.Some? then c
      else if !c.stores.active then Without(c, id)
      else
        var t := c.tasks[id].(requestId := c.stores.requestId, active := true);
        Conversation(c.stores, c.tasks[id := t], Some(id))
    case Look(id) =>
      if id !in c.tasks || c.tasks[id].carried.Some? then c
      else (match Looked(c.stores, c.tasks[id])
            case Ok(t) => c.(tasks := c.tasks[id := t])
            case Err(_) => Without(c, id))
    case Fill(id) =>
      if !Fills(c, id) then c
      else c.(stores := c.stores.(cache := c.tasks[id].carried), tasks := c.tasks[id := c.tasks[id].(owed := false)])
    case Leave(id) => Without(c, id)
    case Do(id, op, visible, commits) =>
      if !Holds(c, id) then c
      else
        var r := Finished(c.stores, c.tasks[id], op, visible);
        Without(c, id).(stores := if r.Err? then c.stores
                                  else if commits then r.value
                                  else c.stores.(cache := r.value.cache))
  }

  function Concurrently(c: Conversation, events: seq<Event>): Conversation {
    if events == [] then c else Advance(Concurrently(c, events[..|events| - 1]), events[|events| - 1])
  }

  // ----- what is promised, and exactly when it is kept

  /** The state last snapshotted and the request last written, by committed calls, and
      whether what was last put into the cache is a restored state. */
  datatype Ledger = Ledger(saved: State, request: Option<nat>, restored: bool)

  predicate Writes(c: Conversation, e: Event) {
    e.Do? && Holds(c, e.id) && Finished(c.stores, c.tasks[e.id], e.op, e.visible).Ok?
  }

  function Entered(c: Conversation, e: Event, l: Ledger): Ledger {
    if e.Fill? && Fills(c, e.id) then l.(restored := c.tasks[e.id].owed)
    else if !Writes(c, e) then l
    else if !e.commits then (if e.op.SaveState? then l.(restored := false) else l)
    else match e.op
      case SaveState(state) => Ledger(l.saved, state.requestId, false)
      case SaveSnapshot(_) => Ledger(c.tasks[e.id].carried.value, l.request, false)
      case Complete(requestId) =>
        Ledger(c.tasks[e.id].carried.value, if requestId.Some? then requestId else l.request, false)
      case _ => l
  }

  function Entries(c: Conversation, l: Ledger, events: seq<Event>): Ledger {
    if events == [] then l
    else
      var front := events[..|events| - 1];
      Entered(Concurrently(c, front), events[|events| - 1], Entries(c, l, front))
  }

  /** The promise: the three stores agree with the ledger, and a restored state is the
      last snapshotted one under the request last written. Besides, whoever holds the
      lock sees the row and carries its request, and what is owed was restored. */
  predicate Steady(c: Conversation, l: Ledger) {
    && Consistent(c.stores, l.saved, l.request)
    && (l.restored && c.stores.cache.Some? ==> c.stores.cache.value == l.saved.(requestId := l.request))
    && LockOk(c) && OwedOk(c)
  }

  predicate OwedOk(c: Conversation) {
    forall id :: id in c.tasks && c.tasks[id].owed ==> IsRestored(c.tasks[id])
  }

  predicate IsRestored(t: Task) {
    t.snapshot.Some? && t.carried.Some? && Rebuilt(t.snapshot.value, t.requestId) == Ok(t.carried.value)
  }

  predicate LockOk(c: Conversation) {
    c.lock.Some? ==>
      && c.lock.value in c.tasks && c.stores.active
      && var t := c.tasks[c.lock.value];
        t.requestId == c.stores.requestId && (t.carried.Some? ==> t.carried.value.requestId == c.stores.requestId)
  }

  /** Some column of the new row repeats the one loaded, so it is not written, while the
      stored one has come to say something else. */
  predicate Stale(current: Snapshot, loaded: Snapshot, new_: Snapshot) {
    || (new_.action == loaded.action && current.action != new_.action)
    || (new_.missing == loaded.missing && current.missing.GetOr([]) != new_.missing.GetOr([]))
    || (new_.data == loaded.data && PayloadOf(current.data.GetOr(map[])) != PayloadOf(new_.data.GetOr(map[])))
  }

  predicate StaleWrite(s: Session, t: Task, state: State, reason: string) {
    s.snapshot.Some? && t.snapshot.Some? && Stale(s.snapshot.value, t.snapshot.value, SnapshotOf(state, reason))
  }

  /** The two rows say the same to a restore. */
  predicate SameContent(a: Snapshot, b: Snapshot) {
    && a.action == b.action && a.missing.GetOr([]) == b.missing.GetOr([])
    && PayloadOf(a.data.GetOr(map[])) == PayloadOf(b.data.GetOr(map[]))
  }

  /** A row has come to say something else since the transaction read it. */
  predicate StaleView(s: Session, t: Task) {
    || t.requestId != s.requestId || t.snapshot.None? || s.snapshot.None?
    || !SameContent(t.snapshot.value, s.snapshot.value)
  }

  /** The events that break the promise: a restore from a row that has changed, a
      write-back under another request than the row names, a save_state of another
      request whose commit fails, and a snapshot written over columns that have changed. */
  predicate Spoils(c: Conversation, e: Event) {
    match e
    case Fill(id) =>
      Fills(c, id) && var t := c.tasks[id];
        if t.owed then StaleView(c.stores, t) else t.carried.value.requestId != c.stores.requestId
    case Do(id, SaveState(state), _, commits) => Writes(c, e) && !commits && state.requestId != c.stores.requestId
    case Do(id, SaveSnapshot(reason), _, commits) =>
      Writes(c, e) && commits && StaleWrite(c.stores, c.tasks[id], c.tasks[id].carried.value, reason)
    case Do(id, Complete(_), _, commits) =>
      Writes(c, e) && commits && StaleWrite(c.stores, c.tasks[id], c.tasks[id].carried.value, "SESSION_COMPLETED")
    case _ => false
  }

  /** The written row rebuilds the state exactly if no column was stale. */
  lemma WrittenRebuilds(current: Snapshot, loaded: Snapshot, state: State, reason: string, requestId: Option<nat>)
    ensures Rebuilt(Written(current, loaded, SnapshotOf(state, reason)), requestId)
         == Ok(state.(requestId := requestId))
       <==> !Stale(current, loaded, SnapshotOf(state, reason))
  {
    hide PayloadOf, StateData;
    PayloadRoundTrip(state, reason);
  }

  /** A row that is as it was loaded is never stale. */
  lemma UnchangedIsNotStale(row: Snapshot, new_: Snapshot)
    ensures !Stale(row, row, new_) && Written(row, row, new_) == new_
  {
    hide PayloadOf;
  }

  lemma PersistSpoilsExactly(s: Session, l: Ledger, t: Task, state: State, reason: string, final: State,
                             request: Option<nat>)
    requires Consistent(s, l.saved, l.request) && final == state.(requestId := request)
    ensures Rebuilt(PersistedOver(s, t.snapshot, final, reason).snapshot.value, request) == Ok(final)
       <==> !StaleWrite(s, t, state, reason)
  {
    hide Rebuilt, Written, Stale, StateData;
    assert SnapshotOf(final, reason) == SnapshotOf(state, reason) by { SameSnapshot(final, state, reason); }
    SnapshotRoundTrip(final, reason, request);
    if t.snapshot.Some? { WrittenRebuilds(s.snapshot.value, t.snapshot.value, final, reason, request); }
  }

  lemma SameSnapshot(a: State, b: State, reason: string)
    requires a == b.(requestId := a.requestId)
    ensures SnapshotOf(a, reason) == SnapshotOf(b, reason)
  {}

  /** A restore keeps the promise if and only if the rows still say what they said when
      the transaction read them, and a write-back if and only if it carries the request
      that the conversation row names. */
  lemma FillKeepsExactly(c: Conversation, l: Ledger, id: nat)
    requires Steady(c, l) && Fills(c, id)
    ensures Steady(Advance(c, Fill(id)), Entered(c, Fill(id), l)) <==>
      var t := c.tasks[id];
      if t.owed then !StaleView(c.stores, t) else t.carried.value.requestId == c.stores.requestId
  {
    hide Rebuilt, SameContent;
    var t := c.tasks[id];
    if t.owed {
      assert IsRestored(t);
      RestoresAlike(t.snapshot.value, t.requestId, c.stores.snapshot.value, c.stores.requestId);
    }
    FillKeepsOwed(c, id);
  }

  lemma FillKeepsOwed(c: Conversation, id: nat)
    requires OwedOk(c) && Fills(c, id)
    ensures OwedOk(Advance(c, Fill(id)))
  {
    hide IsRestored;
  }

  /** Two rows rebuild the same state exactly if they say the same. */
  lemma RestoresAlike(a: Snapshot, r: Option<nat>, b: Snapshot, q: Option<nat>)
    requires Rebuilt(a, r).Ok? && Rebuilt(b, q).Ok?
    ensures Rebuilt(a, r) == Rebuilt(b, q) <==> r == q && SameContent(a, b)
  {
    hide PayloadOf;
  }

  lemma WriteKeepsExactly(c: Conversation, l: Ledger, e: Event)
    requires Steady(c, l) && Writes(c, e)
    ensures Steady(Advance(c, e), Entered(c, e, l)) <==> !Spoils(c, e)
  {
    hide Rebuilt, PersistedOver, StaleWrite, IsRestored;
    var t := c.tasks[e.id];
    match e.op
    case SaveState(state) =>
      RebuiltRequest(c.stores.snapshot.value, c.stores.requestId, state.requestId);
    case SaveSnapshot(reason) =>
      PersistedRequest(c.stores, t.snapshot, t.carried.value, reason);
      PersistSpoilsExactly(c.stores, l, t, t.carried.value, reason, t.carried.value, l.request);
    case Complete(requestId) =>
      var final := Final(t.carried.value, requestId);
      PersistedRequest(c.stores, t.snapshot, final, "SESSION_COMPLETED");
      PersistSpoilsExactly(c.stores, l, t, t.carried.value, "SESSION_COMPLETED", final, final.requestId);
    case _ =>
  }

  lemma PersistedRequest(s: Session, loaded: Option<Snapshot>, state: State, reason: string)
    ensures var t := PersistedOver(s, loaded, state, reason);
      t.snapshot.Some? && t.requestId == state.requestId && t.cache == s.cache && t.active == s.active
  {}

  lemma RestKeeps(c: Conversation, l: Ledger, e: Event)
    requires Steady(c, l) && !Writes(c, e) && !e.Fill?
    ensures Steady(Advance(c, e), l)
  {
    hide Finished, Rebuilt, Looked;
    if e.Look? && e.id in c.tasks && c.tasks[e.id].carried.None? && Looked(c.stores, c.tasks[e.id]).Ok? {
      LookedRequest(c.stores, c.tasks[e.id]);
    }
  }

  lemma LookedRequest(s: Session, t: Task)
    requires Looked(s, t).Ok?
    ensures var t' := Looked(s, t).value;
      && t'.carried.Some? && t' == t.(carried := t'.carried, owed := t'.owed)
      && t'.carried.value.requestId == (if s.cache.Some? then s.cache.value.requestId else t.requestId)
      && (t'.owed ==> t.owed || IsRestored(t'))
  {
    hide PayloadOf;
  }

  /** One event keeps the promise if and only if it is none of those. */
  lemma EventKeepsExactly(c: Conversation, l: Ledger, e: Event)
    requires Steady(c, l)
    ensures Steady(Advance(c, e), Entered(c, e, l)) <==> !Spoils(c, e)
  {
    hide Consistent, LockOk, OwedOk, Finished, StaleWrite, StaleView, Steady;
    if Writes(c, e) { WriteKeepsExactly(c, l, e); }
    else if e.Fill? && Fills(c, e.id) { FillKeepsExactly(c, l, e.id); }
    else if !e.Fill? { RestKeeps(c, l, e); }
  }

  predicate NeverSpoilt(c: Conversation, events: seq<Event>) {
    forall k :: 0 <= k < |events| ==> !Spoils(Concurrently(c, events[..k]), events[k])
  }

  predicate AlwaysSteady(c: Conversation, l: Ledger, events: seq<Event>) {
    forall k :: 0 <= k <= |events| ==> Steady(Concurrently(c, events[..k]), Entries(c, l, events[..k]))
  }

  function StartOf(action: string): Conversation { Conversation(Opened(action), map[], None) }

  function FirstEntry(action: string): Ledger { Ledger(Opened(action).cache.value, None, false) }

  /** Over every interleaving: the promise holds all along if and only if none of those
      events occurs. */
  lemma {:induction false} SteadyExactly(action: string, events: seq<Event>)
    ensures var c, l := StartOf(action), FirstEntry(action);
      AlwaysSteady(c, l, events) <==> NeverSpoilt(c, events)
  {
    hide Steady, Spoils, Advance, Entered, Opened, NeverSpoilt, AlwaysSteady;
    var c, l := StartOf(action), FirstEntry(action);
    if events == [] {
      StartSteady(action);
      NothingYet(c, l);
    } else {
      var n := |events| - 1;
      var front, e := events[..n], events[n];
      SteadyExactly(action, front);
      LastEvent(c, l, events);
      var before, entries := Concurrently(c, front), Entries(c, l, front);
      if AlwaysSteady(c, l, front) { EventKeepsExactly(before, entries, e); }
    }
  }

  /** What holds of all events holds of all but the last and of the last. */
  lemma LastEvent(c: Conversation, l: Ledger, events: seq<Event>)
    requires events != []
    ensures var n := |events| - 1; var front := events[..n]; var before := Concurrently(c, front);
      && (NeverSpoilt(c, events) <==> NeverSpoilt(c, front) && !Spoils(before, events[n]))
      && (AlwaysSteady(c, l, events) <==>
            AlwaysSteady(c, l, front) && Steady(Advance(before, events[n]), Entered(before, events[n],
                                                                                    Entries(c, l, front))))
      && (AlwaysSteady(c, l, front) ==> Steady(before, Entries(c, l, front)))
  {
    hide Steady, Spoils, Advance, Entered;
    var n := |events| - 1;
    var front := events[..n];
    assert events[..n + 1] == events && front[..n] == front;
    assert forall k :: 0 <= k <= n ==> front[..k] == events[..k];
    assert forall k :: 0 <= k < n ==> front[k] == events[k];
  }

  lemma StartSteady(action: string)
    ensures Steady(StartOf(action), FirstEntry(action))
  {
    hide Rebuilt, SnapshotOf;
    OpenedConsistent(action);
  }

  lemma NothingYet(c: Conversation, l: Ledger)
    ensures NeverSpoilt(c, []) && (AlwaysSteady(c, l, []) <==> Steady(c, l))
  {
    hide Steady, Spoils;
    var none: seq<Event> := [];
    assert none[..0] == none;
  }

  /** So after every such interleaving, if the cache is lost, the last snapshotted state
      comes back under the request written last, and a restored cache entry is that too. */
  lemma ConcurrentRestore(action: string, events: seq<Event>)
    requires NeverSpoilt(StartOf(action), events)
    ensures var c, l := StartOf(action), Entries(StartOf(action), FirstEntry(action), events);
      var s, state := Concurrently(c, events).stores, l.saved.(requestId := l.request);
      Fetch(s.(cache := None)) == Ok((state, true)) && (l.restored && s.cache.Some? ==> s.cache.value == state)
  {
    hide Concurrently, Entries, Opened, Rebuilt, NeverSpoilt, LockOk, OwedOk;
    SteadyExactly(action, events);
    assert events[..|events|] == events;
  }


  // ----- transactions that are not interfered with

  predicate SameRows(s: Session, t: Session) { s.requestId == t.requestId && s.snapshot == t.snapshot }

  /** A write that changes a row meets no other open transaction, and a save_state of
      another request commits. */
  predicate Quiet(c: Conversation, e: Event) {
    Writes(c, e) ==>
      && (c.tasks.Keys == {e.id} || SameRows(Advance(c, e).stores, c.stores))
      && (e.op.SaveState? && e.op.state.requestId != c.stores.requestId ==> e.commits)
  }

  predicate Undisturbed(c: Conversation, events: seq<Event>) {
    forall k :: 0 <= k < |events| ==> Quiet(Concurrently(c, events[..k]), events[k])
  }

  /** Every open transaction sees the stored rows and carries the stored request. */
  predicate Current(c: Conversation) { forall id :: id in c.tasks ==> Sees(c.tasks[id], c.stores) }

  predicate Sees(t: Task, s: Session) {
    && t.requestId == s.requestId && t.snapshot == s.snapshot
    && (t.carried.Some? ==> t.carried.value.requestId == s.requestId)
  }

  lemma CurrentNeverSpoils(c: Conversation, l: Ledger, e: Event)
    requires Steady(c, l) && Current(c) && Quiet(c, e)
    ensures !Spoils(c, e)
  {
    hide Finished, Stale, Advance, Rebuilt;
    if e.Fill? && Fills(c, e.id) { assert Sees(c.tasks[e.id], c.stores); }
    if Writes(c, e) && c.stores.snapshot.Some? {
      var t := c.tasks[e.id];
      assert Sees(t, c.stores);
      forall new_: Snapshot ensures !Stale(c.stores.snapshot.value, c.stores.snapshot.value, new_) {
        UnchangedIsNotStale(c.stores.snapshot.value, new_);
      }
    }
  }

  lemma QuietKeepsCurrent(c: Conversation, l: Ledger, e: Event)
    requires Steady(c, l) && Current(c) && Quiet(c, e)
    ensures Current(Advance(c, e))
  {
    hide Finished, Looked, Rebuilt, Access;
    if e.Look? && e.id in c.tasks && c.tasks[e.id].carried.None? && Looked(c.stores, c.tasks[e.id]).Ok? {
      LookedRequest(c.stores, c.tasks[e.id]);
    }
    var d := Advance(c, e);
    assert SameRows(d.stores, c.stores) || d.tasks == map[] by {
      if Writes(c, e) && c.tasks.Keys == {e.id} { assert d.tasks.Keys == {}; }
    }
    forall id | id in d.tasks ensures Sees(d.tasks[id], d.stores) {
      if id in c.tasks { assert Sees(c.tasks[id], c.stores); }
    }
  }

  /** Only interference and lost commits break the promise. */
  lemma {:induction false} UndisturbedIsNeverSpoilt(action: string, events: seq<Event>)
    requires Undisturbed(StartOf(action), events)
    ensures NeverSpoilt(StartOf(action), events) && Current(Concurrently(StartOf(action), events))
  {
    hide Steady, Spoils, Advance, Quiet, Current, Entries, NeverSpoilt;
    var c := StartOf(action);
    if events == [] {
      NothingYet(c, FirstEntry(action));
      assert Current(c) by { NobodyThere(c); }
    } else {
      var n := |events| - 1;
      var front, e := events[..n], events[n];
      assert forall k :: 0 <= k < n ==> front[k] == events[k] && front[..k] == events[..k];
      UndisturbedIsNeverSpoilt(action, front);
      SteadyExactly(action, front);
      LastEvent(c, FirstEntry(action), events);
      CurrentNeverSpoils(Concurrently(c, front), Entries(c, FirstEntry(action), front), e);
      QuietKeepsCurrent(Concurrently(c, front), Entries(c, FirstEntry(action), front), e);
    }
  }

  // ----- transactions that are left alone

  /** The run of single steps: a fill is a get_state, a write is its operation. */
  function StepsOf(c: Conversation, events: seq<Event>): seq<Step> {
    if events == [] then []
    else
      var front := events[..|events| - 1];
      StepsOf(c, front) + StepOf(Concurrently(c, front), events[|events| - 1])
  }

  function StepOf(c: Conversation, e: Event): seq<Step> {
    match e
    case Evict => [Step(Expire, map[], true)]
    case Fill(id) => if Fills(c, id) then [Step(GetState, map[], true)] else []
    case Do(_, op, visible, commits) => if Writes(c, e) then [Step(op, visible, commits)] else []
    case _ => []
  }

  /** No other transaction is open at a write, and none at all at an expiry. */
  predicate LeftAlone(c: Conversation, events: seq<Event>) {
    forall k :: 0 <= k < |events| ==> Alone(Concurrently(c, events[..k]), events[k])
  }

  predicate Alone(c: Conversation, e: Event) {
    match e
    case Evict => c.tasks == map[]
    case Do(id, _, _, _) => Writes(c, e) ==> c.tasks.Keys == {id}
    case _ => true
  }

  /** Every open transaction still sees the rows and carries what a restore would give. */
  predicate InOrder(c: Conversation) {
    && (c.lock.Some? ==> c.lock.value in c.tasks && c.stores.active)
    && forall id :: id in c.tasks ==> TaskOk(c.stores, c.tasks[id])
  }

  predicate TaskOk(s: Session, t: Task) {
    && t.requestId == s.requestId && t.active == s.active && t.snapshot == s.snapshot
    && (t.carried.Some? ==> s.active && Fetch(s).Ok? && Fetch(s).value.0 == t.carried.value)
    && (t.carried.Some? && !t.owed ==> s.cache == t.carried)
  }

  lemma FillKeepsOrder(c: Conversation, id: nat)
    requires InOrder(c) && Fills(c, id)
    ensures InOrder(Advance(c, Fill(id)))
    ensures Advance(c, Fill(id)).stores == AgentSessions.After(c.stores, Step(GetState, map[], true))
  {
    hide Rebuilt;
    assert TaskOk(c.stores, c.tasks[id]);
  }

  lemma WriteIsStep(c: Conversation, e: Event)
    requires InOrder(c) && Writes(c, e) && Alone(c, e)
    ensures Advance(c, e).stores == AgentSessions.After(c.stores, Step(e.op, e.visible, e.commits))
    ensures InOrder(Advance(c, e))
  {
    hide Rebuilt, StateData, Written;
    assert TaskOk(c.stores, c.tasks[e.id]);
    if c.stores.snapshot.Some? {
      forall new_: Snapshot ensures Written(c.stores.snapshot.value, c.stores.snapshot.value, new_) == new_ {
        UnchangedIsNotStale(c.stores.snapshot.value, new_);
      }
    }
  }

  lemma RestKeepsOrder(c: Conversation, e: Event)
    requires InOrder(c) && Alone(c, e) && !Writes(c, e) && !(e.Fill? && Fills(c, e.id))
    ensures InOrder(Advance(c, e))
    ensures Advance(c, e).stores == if e.Evict? then c.stores.(cache := None) else c.stores
  {
    hide Rebuilt, Finished;
  }

  lemma EventIsStep(c: Conversation, e: Event)
    requires InOrder(c) && Alone(c, e)
    ensures InOrder(Advance(c, e)) && |StepOf(c, e)| <= 1
    ensures Advance(c, e).stores
         == if StepOf(c, e) == [] then c.stores else AgentSessions.After(c.stores, StepOf(c, e)[0])
  {
    hide InOrder, Alone, Finished, Looked, AgentSessions.After, Fetch, Access;
    if Writes(c, e) { WriteIsStep(c, e); }
    else if e.Fill? && Fills(c, e.id) { FillKeepsOrder(c, e.id); }
    else {
      RestKeepsOrder(c, e);
      ExpiryIsStep(c.stores);
    }
  }

  /** Transactions that nobody disturbs are atomic: the stores are those of a run of
      single steps. */
  lemma {:induction false} AloneIsAtomic(action: string, events: seq<Event>)
    requires LeftAlone(StartOf(action), events)
    ensures var c := StartOf(action);
      Concurrently(c, events).stores == Run(Opened(action), StepsOf(c, events)) && InOrder(Concurrently(c, events))
  {
    hide Advance, InOrder, Alone, StepOf, Opened, AgentSessions.After;
    var c := StartOf(action);
    if events == [] { NobodyThere(c); }
    else {
      var n := |events| - 1;
      var front, e := events[..n], events[n];
      assert forall k :: 0 <= k < n ==> front[k] == events[k] && front[..k] == events[..k];
      AloneIsAtomic(action, front);
      EventIsStep(Concurrently(c, front), e);
      OneMoreStep(Opened(action), StepsOf(c, front), StepOf(Concurrently(c, front), e));
    }
  }

  lemma OneMoreStep(s: Session, steps: seq<Step>, more: seq<Step>)
    requires |more| <= 1
    ensures Run(s, steps + more) == if more == [] then Run(s, steps) else AgentSessions.After(Run(s, steps), more[0])
  {
    hide AgentSessions.After;
    if more == [] { assert steps + more == steps; } else { assert (steps + more)[..|steps|] == steps; }
  }

  lemma NobodyThere(c: Conversation)
    requires c.tasks == map[] && c.lock.None?
    ensures InOrder(c) && Current(c)
  {}

  lemma ExpiryIsStep(s: Session)
    ensures AgentSessions.After(s, Step(Expire, map[], true)) == s.(cache := None)
  {}

  // ----- runs in which the promise fails

  /** One more event and the state after it. */
  lemma Then(c: Conversation, events: seq<Event>, e: Event, after: Conversation) returns (more: seq<Event>)
    requires Advance(Concurrently(c, events), e) == after
    ensures more == events + [e] && Concurrently(c, more) == after
  {
    more := events + [e];
    assert more[..|more| - 1] == events;
  }

  const FIRST := State(None, "a", map[], [], None, false, [], [])

  const CREATED := SnapshotOf(FIRST, "SESSION_CREATED")

  const WAITING := Task(None, true, Some(CREATED), None, false)

  /** A transaction that saves a state, and one that takes a snapshot. */
  function Saving(id: nat, state: State): seq<Event> { [Begin(id), Lock(id), Do(id, SaveState(state), SEES_7, true)] }

  const KEEP := [Begin(3), Lock(3), Look(3), Do(3, SaveSnapshot("r"), SEES_7, true)]

  lemma Saves(c: Conversation, events: seq<Event>, s: Session, tasks: map<nat, Task>, id: nat, state: State)
      returns (more: seq<Event>)
    requires Concurrently(c, events) == Conversation(s, tasks, None) && s.active && id !in tasks
    requires Access(SEES_7, state.requestId).Pass?
    ensures more == events + Saving(id, state)
    ensures Concurrently(c, more) == Conversation(s.(requestId := state.requestId, cache := Some(state)), tasks, None)
  {
    hide Concurrently;
    var own := Task(s.requestId, true, s.snapshot, None, false);
    more := Then(c, events, Begin(id), Conversation(s, tasks[id := own], None));
    more := Then(c, more, Lock(id), Conversation(s, tasks[id := own], Some(id)));
    assert tasks[id := own] - {id} == tasks;
    more := Then(c, more, Do(id, SaveState(state), SEES_7, true),
                 Conversation(s.(requestId := state.requestId, cache := Some(state)), tasks, None));
  }

  lemma Keeps(c: Conversation, events: seq<Event>, s: Session, tasks: map<nat, Task>) returns (more: seq<Event>)
    requires Concurrently(c, events) == Conversation(s, tasks, None) && s.active && 3 !in tasks && s.cache.Some?
    ensures more == events + KEEP
    ensures Concurrently(c, more) == Conversation(PersistedOver(s, s.snapshot, s.cache.value, "r"), tasks, None)
  {
    hide Concurrently, PersistedOver;
    var own := Task(s.requestId, true, s.snapshot, None, false);
    more := Then(c, events, Begin(3), Conversation(s, tasks[3 := own], None));
    more := Then(c, more, Lock(3), Conversation(s, tasks[3 := own], Some(3)));
    own := own.(carried := s.cache);
    more := Then(c, more, Look(3), Conversation(s, tasks[3 := own], Some(3)));
    assert tasks[3 := own] - {3} == tasks;
    more := Then(c, more, Do(3, SaveSnapshot("r"), SEES_7, true),
                 Conversation(PersistedOver(s, s.snapshot, s.cache.value, "r"), tasks, None));
  }

  /** The stores after the link to request 7, with transaction 1 still open. */
  function Linked(t: Task): Conversation {
    Conversation(Session(Some(LINKED), Some(7), true, Some(CREATED)), map[1 := t], None)
  }

  /** The old state is filled in over the link, and a snapshot of it undoes the link. */
  lemma Unlinks(c: Conversation, events: seq<Event>, t: Task) returns (more: seq<Event>)
    requires Concurrently(c, events) == Linked(t) && t.carried == Some(FIRST)
    ensures more == events + [Fill(1), Leave(1)] + KEEP
    ensures Concurrently(c, more).stores.requestId == None && Concurrently(c, more).stores.cache == Some(FIRST)
  {
    hide Concurrently, SnapshotOf;
    var s := Session(Some(FIRST), Some(7), true, Some(CREATED));
    more := Then(c, events, Fill(1), Conversation(s, map[1 := t.(owed := false)], None));
    assert map[1 := t.(owed := false)] - {1} == map[];
    more := Then(c, more, Leave(1), Conversation(s, map[], None));
    more := Keeps(c, more, s, map[]);
    PersistedRequest(s, s.snapshot, FIRST, "r");
  }

  lemma Started() returns (c: Conversation)
    ensures c == StartOf("a") == Conversation(Session(Some(FIRST), None, true, Some(CREATED)), map[], None)
    ensures Concurrently(c, []) == c && Rebuilt(CREATED, None) == Ok(FIRST)
  {
    c := StartOf("a");
    SnapshotRoundTrip(FIRST, "SESSION_CREATED", None);
    hide Rebuilt, SnapshotOf;
  }

  /** A restore that has missed the cache fills in the older state after a save_state,
      and the next snapshot takes the link to the request back. */
  lemma StaleFill() returns (c: Conversation, events: seq<Event>)
    ensures c == StartOf("a") && events == [Evict, Begin(1), Look(1)] + Saving(2, LINKED) + [Fill(1), Leave(1)] + KEEP
    ensures Concurrently(c, events[..6]).stores.requestId == Some(7)
    ensures Concurrently(c, events).stores.requestId == None
    ensures Concurrently(c, events).stores.cache == Some(FIRST)
  {
    hide Concurrently, Rebuilt, SnapshotOf;
    c := Started();
    var s, t := Session(None, None, true, Some(CREATED)), Task(None, true, Some(CREATED), None, false);
    events := Then(c, [], Evict, Conversation(s, map[], None));
    events := Then(c, events, Begin(1), Conversation(s, map[1 := t], None));
    t := t.(carried := Some(FIRST), owed := true);
    events := Then(c, events, Look(1), Conversation(s, map[1 := t], None));
    var six := Saves(c, events, s, map[1 := t], 2, LINKED);
    events := Unlinks(c, six, t);
    assert events[..6] == six;
  }

  /** So does get_or_create_active after a hit: it writes back what it read. */
  lemma StaleHit() returns (c: Conversation, events: seq<Event>)
    ensures c == StartOf("a") && events == [Begin(1), Look(1)] + Saving(2, LINKED) + [Fill(1), Leave(1)] + KEEP
    ensures Concurrently(c, events[..5]).stores.requestId == Some(7)
    ensures Concurrently(c, events).stores.requestId == None
    ensures Concurrently(c, events).stores.cache == Some(FIRST)
  {
    hide Concurrently, Rebuilt, SnapshotOf;
    c := Started();
    var t := Task(None, true, Some(CREATED), None, false);
    events := Then(c, [], Begin(1), Conversation(c.stores, map[1 := t], None));
    t := t.(carried := Some(FIRST));
    events := Then(c, events, Look(1), Conversation(c.stores, map[1 := t], None));
    var five := Saves(c, events, c.stores, map[1 := t], 2, LINKED);
    events := Unlinks(c, five, t);
    assert events[..5] == five;
  }

  const ASKING := State(None, "a", map["k" := Number(1)], ["m"], None, false, [], [])

  const AGAIN := Do(1, SaveSnapshot("r"), SEES_7, true)

  /** Transaction 1 begins; another one saves a state and a third takes a snapshot of it. */
  lemma Asks(c: Conversation) returns (events: seq<Event>)
    requires c == Conversation(Session(Some(FIRST), None, true, Some(CREATED)), map[], None)
    requires Concurrently(c, []) == c
    ensures events == [Begin(1)] + Saving(2, ASKING) + KEEP
    ensures Concurrently(c, events)
         == Conversation(Session(Some(ASKING), None, true, Some(SnapshotOf(ASKING, "r"))), map[1 := WAITING], None)
  {
    hide Concurrently, Rebuilt, SnapshotOf, Written;
    events := Then(c, [], Begin(1), Conversation(c.stores, map[1 := WAITING], None));
    events := Saves(c, events, c.stores, map[1 := WAITING], 2, ASKING);
    events := Keeps(c, events, c.stores.(cache := Some(ASKING)), map[1 := WAITING]);
    UnchangedIsNotStale(CREATED, SnapshotOf(ASKING, "r"));
  }

  /** A save_snapshot that began before another one committed, and waits for the lock
      while the cache expires, restores the older row: the later snapshot is lost. */
  lemma OlderSnapshot() returns (c: Conversation, events: seq<Event>)
    ensures c == StartOf("a")
    ensures events == [Begin(1)] + Saving(2, ASKING) + KEEP + [Evict, Lock(1), Look(1), Fill(1), AGAIN]
    ensures Concurrently(c, events[..8]).stores.snapshot == Some(SnapshotOf(ASKING, "r"))
    ensures var s := Concurrently(c, events).stores;
      && s.cache == Some(FIRST) && s.snapshot.Some?
      && Rebuilt(s.snapshot.value, s.requestId) == Ok(FIRST.(missing := ["m"]))
  {
    hide Concurrently, Rebuilt, SnapshotOf, Written;
    c := Started();
    var eight := Asks(c);
    var s, one := Session(None, None, true, Some(SnapshotOf(ASKING, "r"))), WAITING;
    events := Then(c, eight, Evict, Conversation(s, map[1 := one], None));
    events := Then(c, events, Lock(1), Conversation(s, map[1 := one], Some(1)));
    one := one.(carried := Some(FIRST), owed := true);
    events := Then(c, events, Look(1), Conversation(s, map[1 := one], Some(1)));
    s, one := s.(cache := Some(FIRST)), one.(owed := false);
    events := Then(c, events, Fill(1), Conversation(s, map[1 := one], Some(1)));
    assert map[1 := one] - {1} == map[];
    events := Then(c, events, AGAIN, Conversation(PersistedOver(s, Some(CREATED), FIRST, "r"), map[], None));
    MixedRow();
    assert events[..8] == eight;
  }

  /** Without any expiry: the state is set back, and the waiting save_snapshot takes it
      from the cache. Its missing fields are those it loaded, so they are not written. */
  lemma MixedSnapshot() returns (c: Conversation, events: seq<Event>)
    ensures c == StartOf("a")
    ensures events == [Begin(1)] + Saving(2, ASKING) + KEEP + Saving(4, FIRST) + [Lock(1), Look(1), AGAIN]
    ensures var s := Concurrently(c, events).stores;
      && s.cache == Some(FIRST) && s.snapshot.Some?
      && Rebuilt(s.snapshot.value, s.requestId) == Ok(FIRST.(missing := ["m"]))
  {
    hide Concurrently, Rebuilt, SnapshotOf, Written;
    c := Started();
    events := Asks(c);
    var s, one := Session(Some(ASKING), None, true, Some(SnapshotOf(ASKING, "r"))), WAITING;
    events := Saves(c, events, s, map[1 := one], 4, FIRST);
    s := s.(cache := Some(FIRST));
    events := Then(c, events, Lock(1), Conversation(s, map[1 := one], Some(1)));
    one := one.(carried := Some(FIRST));
    events := Then(c, events, Look(1), Conversation(s, map[1 := one], Some(1)));
    assert map[1 := one] - {1} == map[];
    events := Then(c, events, AGAIN, Conversation(PersistedOver(s, Some(CREATED), FIRST, "r"), map[], None));
    MixedRow();
  }

  lemma MixedRow()
    ensures Rebuilt(Written(SnapshotOf(ASKING, "r"), CREATED, SnapshotOf(FIRST, "r")), None)
         == Ok(FIRST.(missing := ["m"]))
  {
    PayloadRoundTrip(FIRST, "r");
    hide PayloadOf;
    assert StateData(FIRST, "r")["snapshot_reason"] != StateData(FIRST, "SESSION_CREATED")["snapshot_reason"];
  }
}
