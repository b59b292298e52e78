/** One agent conversation: a state cached in Redis, which may expire at any moment,
    over a snapshot in MySQL from which it is restored. */
module AgentSessions {
  import opened Common

  datatype Json =
    | Null | Flag(flag: bool) | Number(number: int) | Text(text: string)
    | List(elements: seq<Json>) | Object(fields: map<string, Json>)

  /** ConversationStatePayload */
  datatype State = State(
    requestId: Option<nat>, action: string, collected: map<string, Json>, missing: seq<string>,
    pendingField: Option<string>, awaiting: bool, recent: seq<map<string, Json>>, last: seq<map<string, Json>>)

  /** The columns of agent_session_state. */
  datatype Snapshot = Snapshot(
    action: string, data: Option<map<string, Json>>, missing: Option<seq<string>>, confirmed: bool)

  /** Cache entry, conversation row and snapshot row. */
  datatype Session = Session(cache: Option<State>, requestId: Option<nat>, active: bool, snapshot: Option<Snapshot>)

  // ----- the stored form

  function Objects(items: seq<map<string, Json>>): (r: seq<Json>)
    ensures |r| == |items| && forall k :: 0 <= k < |r| ==> r[k] == Object(items[k])
  {
    seq(|items|, k requires 0 <= k < |items| => Object(items[k]))
  }

  /** _snapshot_state_data */
  function StateData(state: State, reason: string): map<string, Json> {
    map["collected_data" := Object(state.collected),
        "pending_field" := if state.pendingField.Some? then Text(state.pendingField.value) else Null,
        "awaiting_confirmation" := Flag(state.awaiting),
        "recent_messages" := List(Objects(state.recent)),
        "last_recommendations" := List(Objects(state.last)),
        "snapshot_reason" := Text(reason)]
  }

  function SnapshotOf(state: State, reason: string): Snapshot {
    Snapshot(state.action, Some(StateData(state, reason)), Some(state.missing), reason == "USER_CONFIRMED")
  }

  const METADATA :=
    {"pending_field", "awaiting_confirmation", "recent_messages", "last_recommendations", "snapshot_reason"}

  /** What is not data is exactly what a snapshot writes besides it. */
  lemma MetadataIsWritten(state: State, reason: string)
    ensures METADATA == StateData(state, reason).Keys - {"collected_data"} && "collected_data" !in METADATA
  {}

  /** dict.get */
  function Lookup(data: map<string, Json>, key: string, default: Json): Json {
    if key in data then data[key] else default
  }

  function AsObjects(j: Json): Result<seq<map<string, Json>>> {
    if j.List? && forall k :: 0 <= k < |j.elements| ==> j.elements[k].Object?
    then Ok(seq(|j.elements|, k requires 0 <= k < |j.elements| => j.elements[k].fields))
    else Err(InternalError)
  }

  /** Without collected_data (old snapshots) everything but the metadata is data. */
  function Collected(data: map<string, Json>): Result<map<string, Json>> {
    var stored := Lookup(data, "collected_data", Null);
    if stored.Null? then Ok(map key | key in data && key !in METADATA :: data[key])
    else if stored.Object? then Ok(stored.fields)
    else Err(InternalError)
  }

  function PendingField(data: map<string, Json>): Result<Option<string>> {
    match Lookup(data, "pending_field", Null)
    case Null => Ok(None)
    case Text(s) => Ok(Some(s))
    case _ => Err(InternalError)
  }

  /** The part of a state that is kept in state_data. */
  datatype Payload = Payload(
    collected: map<string, Json>, pendingField: Option<string>, awaiting: bool, recent: seq<map<string, Json>>,
    last: seq<map<string, Json>>)

  /** A value of the wrong type fails validation. */
  function PayloadOf(data: map<string, Json>): Result<Payload> {
    var collected :- Collected(data);
    var pending :- PendingField(data);
    var awaiting := Lookup(data, "awaiting_confirmation", Flag(false));
    :- Check(awaiting.Flag?, InternalError);
    var recent :- AsObjects(Lookup(data, "recent_messages", List([])));
    var last :- AsObjects(Lookup(data, "last_recommendations", List([])));
    Ok(Payload(collected, pending, awaiting.flag, recent, last))
  }

  /** The state rebuilt from a snapshot. */
  function Rebuilt(snapshot: Snapshot, requestId: Option<nat>): Result<State> {
    var p :- PayloadOf(snapshot.data.GetOr(map[]));
    Ok(State(requestId, snapshot.action, p.collected, snapshot.missing.GetOr([]), p.pendingField, p.awaiting, p.recent,
             p.last))
  }

  lemma PayloadRoundTrip(state: State, reason: string)
    ensures PayloadOf(StateData(state, reason))
         == Ok(Payload(state.collected, state.pendingField, state.awaiting, state.recent, state.last))
  {
    var data := StateData(state, reason);
    assert Collected(data) == Ok(state.collected);
    ObjectsRoundTrip(state.recent);
    ObjectsRoundTrip(state.last);
  }

  /** A stored state comes back complete, except that the request is the one the
      conversation names now. */
  lemma SnapshotRoundTrip(state: State, reason: string, requestId: Option<nat>)
    ensures Rebuilt(SnapshotOf(state, reason), requestId) == Ok(state.(requestId := requestId))
  {
    hide PayloadOf, StateData;
    PayloadRoundTrip(state, reason);
  }

  lemma ObjectsRoundTrip(items: seq<map<string, Json>>)
    ensures AsObjects(List(Objects(items))) == Ok(items)
  {
    var j := List(Objects(items));
    assert forall k :: 0 <= k < |j.elements| ==> j.elements[k].Object?;
    assert seq(|j.elements|, k requires 0 <= k < |j.elements| => j.elements[k].fields) == items;
  }

  /** A snapshot without collected_data restores its non-metadata keys as data. */
  lemma LegacySnapshot(data: map<string, Json>, action: string, missing: Option<seq<string>>, requestId: Option<nat>)
    requires "collected_data" !in data && data.Keys !! METADATA
    ensures Rebuilt(Snapshot(action, Some(data), missing, false), requestId)
         == Ok(State(requestId, action, data, missing.GetOr([]), None, false, [], []))
  {
    assert (map key | key in data && key !in METADATA :: data[key]) == data;
    forall key | key in METADATA ensures key !in data { assert key !in data.Keys; }
    assert "pending_field" !in data && "awaiting_confirmation" !in data;
    assert "recent_messages" !in data && "last_recommendations" !in data;
    assert Objects([]) == [];
    ObjectsRoundTrip([]);
  }

  // ----- operations on the three stores

  /** Which requests exist, and whether the caller may see them. */
  type Visibility = map<nat, bool>

  function Access(visible: Visibility, requestId: Option<nat>): Outcome {
    if requestId.None? then Pass
    else if requestId.value !in visible then Fail(RequirementNotFound)
    else if !visible[requestId.value] then Fail(PermissionDenied)
    else Pass
  }

  /** _get_or_restore_state: the state and whether it came from the snapshot. */
  function Fetch(s: Session): Result<(State, bool)> {
    if s.cache.Some? then Ok((s.cache.value, false))
    else
      var found := s.snapshot.Some?;
      :- Check(found, SessionExpired);
      var state :- Rebuilt(s.snapshot.value, s.requestId);
      Ok((state, true))
  }

  datatype Operation =
    | GetState | SaveState(state: State) | SaveSnapshot(reason: string)
    | Complete(requestId: Option<nat>) | Expire

  function Persisted(s: Session, state: State, reason: string): Session {
    s.(snapshot := Some(SnapshotOf(state, reason)), requestId := state.requestId)
  }

  /** The stores after an operation that succeeds. */
  function Apply(s: Session, op: Operation, visible: Visibility): Result<Session> {
    match op
    case Expire => Ok(s.(cache := None))
    case GetState =>
      :- Check(s.active, InvalidSessionStatus);
      var got :- Fetch(s);
      Ok(s.(cache := Some(got.0)))
    case SaveState(state) =>
      :- Check(s.active, InvalidSessionStatus);
      :- Access(visible, state.requestId);
      Ok(s.(requestId := state.requestId, cache := Some(state)))
    case SaveSnapshot(reason) =>
      :- Check(s.active, InvalidSessionStatus);
      var got :- Fetch(s);
      Ok(Persisted(s.(cache := Some(got.0)), got.0, reason))
    case Complete(requestId) =>
      :- Check(s.active, InvalidSessionStatus);
      var got :- Fetch(s);
      :- Access(visible, requestId);
      var state := if requestId.Some? then got.0.(requestId := requestId) else got.0;
      Ok(Persisted(s, state, "SESSION_COMPLETED").(active := false, cache := None))
  }

  function Opened(action: string): Session {
    var state := State(None, action, map[], [], None, false, [], []);
    Session(Some(state), None, true, Some(SnapshotOf(state, "SESSION_CREATED")))
  }

  // ----- runs

  /** One operation as one step; `commits` is false if the transaction fails after the
      cache has been written, which MySQL undoes and Redis does not. */
  datatype Step = Step(op: Operation, visible: Visibility, commits: bool)

  /** The stores afterwards. A refused operation leaves the rows; only a completion
      refused after restoring the state has filled the cache. */
  function After(s: Session, step: Step): Session {
    match Apply(s, step.op, step.visible)
    case Ok(t) => if step.commits then t else s.(cache := t.cache)
    case Err(_) => if step.op.Complete? && s.active && Fetch(s).Ok? then s.(cache := Some(Fetch(s).value.0)) else s
  }

  function Run(s: Session, steps: seq<Step>): Session {
    if steps == [] then s else After(Run(s, steps[..|steps| - 1]), steps[|steps| - 1])
  }

  predicate Takes(s: Session, step: Step) { step.commits && Apply(s, step.op, step.visible).Ok? }

  /** The state last written to the snapshot row. */
  function LastSaved(s: Session, first: State, steps: seq<Step>): State {
    if steps == [] then first
    else
      var front, step := steps[..|steps| - 1], steps[|steps| - 1];
      var before := Run(s, front);
      if Takes(before, step) && (step.op.SaveSnapshot? || step.op.Complete?) && Fetch(before).Ok?
      then Fetch(before).value.0
      else LastSaved(s, first, front)
  }

  /** The request last written by save_state or complete. */
  function LastRequest(s: Session, steps: seq<Step>): Option<nat> {
    if steps == [] then s.requestId
    else
      var front, step := steps[..|steps| - 1], steps[|steps| - 1];
      if Takes(Run(s, front), step) && step.op.SaveState? then step.op.state.requestId
      else if Takes(Run(s, front), step) && step.op.Complete? && step.op.requestId.Some? then step.op.requestId
      else LastRequest(s, front)
  }

  /** The conversation and the cache name `request`, and the snapshot rebuilds `saved`. */
  predicate Consistent(s: Session, saved: State, request: Option<nat>) {
    && s.requestId == request
    && (s.cache.Some? ==> s.cache.value.requestId == request)
    && s.snapshot.Some? && Rebuilt(s.snapshot.value, s.requestId) == Ok(saved.(requestId := request))
  }

  lemma StepConsistent(s: Session, op: Operation, visible: Visibility, t: Session, saved: State, request: Option<nat>)
    requires Consistent(s, saved, request) && Apply(s, op, visible) == Ok(t)
    ensures Fetch(s).Ok?
    ensures Consistent(t, if op.SaveSnapshot? || op.Complete? then Fetch(s).value.0 else saved,
                       if op.SaveState? then op.state.requestId
                       else if op.Complete? && op.requestId.Some? then op.requestId else request)
  {
    hide SnapshotOf;
    var got := Fetch(s).value.0;
    match op
    case SaveSnapshot(reason) => SnapshotRoundTrip(got, reason, t.requestId);
    case Complete(requestId) =>
      var last := if requestId.Some? then got.(requestId := requestId) else got;
      SnapshotRoundTrip(last, "SESSION_COMPLETED", t.requestId);
    case SaveState(state) => RebuiltRequest(s.snapshot.value, s.requestId, state.requestId);
    case _ =>
  }

  lemma RefusalConsistent(s: Session, step: Step, saved: State, request: Option<nat>)
    requires Consistent(s, saved, request) && Apply(s, step.op, step.visible).Err?
    ensures Consistent(After(s, step), saved, request)
  {
    hide Rebuilt, Apply;
  }

  lemma RebuiltRequest(snapshot: Snapshot, a: Option<nat>, b: Option<nat>)
    requires Rebuilt(snapshot, a).Ok?
    ensures Rebuilt(snapshot, b) == Ok(Rebuilt(snapshot, a).value.(requestId := b))
  {}

  /** A save_state that names another request fails to commit. */
  predicate LosesLink(s: Session, step: Step) {
    && !step.commits && Apply(s, step.op, step.visible).Ok?
    && step.op.SaveState? && step.op.state.requestId != s.requestId
  }

  /** A failed commit spoils the agreement of the three stores exactly then. */
  lemma LostCommitExactly(s: Session, step: Step, saved: State, request: Option<nat>)
    requires Consistent(s, saved, request) && Apply(s, step.op, step.visible).Ok? && !step.commits
    ensures Consistent(After(s, step), saved, request) <==> !LosesLink(s, step)
  {
    hide Rebuilt, SnapshotOf;
  }

  predicate NoLinkLost(s: Session, steps: seq<Step>) {
    forall k :: 0 <= k < |steps| ==> !LosesLink(Run(s, steps[..k]), steps[k])
  }

  lemma NoLinkLostFront(s: Session, steps: seq<Step>)
    requires steps != [] && NoLinkLost(s, steps)
    ensures NoLinkLost(s, steps[..|steps| - 1]) && !LosesLink(Run(s, steps[..|steps| - 1]), steps[|steps| - 1])
  {
    hide Run, LosesLink;
    var front := steps[..|steps| - 1];
    assert forall k :: 0 <= k < |front| ==> front[k] == steps[k] && front[..k] == steps[..k];
  }

  lemma {:induction false} RunConsistent(action: string, steps: seq<Step>)
    requires NoLinkLost(Opened(action), steps)
    ensures var s := Opened(action);
      Consistent(Run(s, steps), LastSaved(s, s.cache.value, steps), LastRequest(s, steps))
  {
    hide Apply, Fetch, Consistent, Rebuilt, NoLinkLost, LosesLink;
    var s := Opened(action);
    if steps == [] {
      OpenedConsistent(action);
    } else {
      var front, step := steps[..|steps| - 1], steps[|steps| - 1];
      NoLinkLostFront(s, steps);
      RunConsistent(action, front);
      var before, saved, request := Run(s, front), LastSaved(s, s.cache.value, front), LastRequest(s, front);
      var r := Apply(before, step.op, step.visible);
      if r.Err? { RefusalConsistent(before, step, saved, request); }
      else if step.commits { StepConsistent(before, step.op, step.visible, r.value, saved, request); }
      else { LostCommitExactly(before, step, saved, request); }
    }
  }

  lemma OpenedConsistent(action: string)
    ensures var s := Opened(action); Consistent(s, s.cache.value, None) && s.requestId == None
  {
    hide SnapshotOf;
    SnapshotRoundTrip(Opened(action).cache.value, "SESSION_CREATED", None);
  }

  /** After any such run, if the cache is lost the state comes back exactly as last
      snapshotted, except that it names the request written last; and it is cached
      again unchanged. */
  lemma RestoreAfterEviction(action: string, steps: seq<Step>)
    requires NoLinkLost(Opened(action), steps)
    ensures var s := Opened(action); var lost := Run(s, steps).(cache := None);
      var state := LastSaved(s, s.cache.value, steps).(requestId := LastRequest(s, steps));
      && Fetch(lost) == Ok((state, true))
      && (lost.active ==> Apply(lost, GetState, map[]) == Ok(lost.(cache := Some(state)))
                          && Fetch(lost.(cache := Some(state))) == Ok((state, false)))
  {
    hide Run, LastSaved, LastRequest, Rebuilt, NoLinkLost;
    RunConsistent(action, steps);
  }

  /** Snapshot, lose the cache, restore: nothing changes. */
  lemma SnapshotThenRestore(action: string, steps: seq<Step>, reason: string, saved: Session)
    requires NoLinkLost(Opened(action), steps)
    requires var s := Run(Opened(action), steps); s.cache.Some? && Apply(s, SaveSnapshot(reason), map[]) == Ok(saved)
    ensures Fetch(saved.(cache := None)) == Ok((Run(Opened(action), steps).cache.value, true))
    ensures saved.requestId == Run(Opened(action), steps).requestId
  {
    hide Run, LastSaved, LastRequest, Rebuilt, SnapshotOf, NoLinkLost;
    var s := Run(Opened(action), steps);
    RunConsistent(action, steps);
    SnapshotRoundTrip(s.cache.value, reason, s.requestId);
  }

  // ----- a failed commit

  const LINKED := State(Some(7), "a", map[], [], None, false, [], [])

  const SEES_7: Visibility := map[7 := true]

  /** A save_state that fails to commit leaves its state in the cache, and the next
      snapshot writes the undone link. */
  lemma UndoneLink() returns (steps: seq<Step>)
    ensures steps == [Step(SaveState(LINKED), SEES_7, false), Step(SaveSnapshot("r"), map[], true)]
    ensures LastRequest(Opened("a"), steps) == None && Run(Opened("a"), steps).requestId == Some(7)
  {
    steps := [Step(SaveState(LINKED), SEES_7, false), Step(SaveSnapshot("r"), map[], true)];
    hide SnapshotOf;
    var s := Opened("a");
    assert steps[..1][..0] == [] && Run(s, steps[..1]) == s.(cache := Some(LINKED));
    assert steps[..1] == steps[..|steps| - 1];
    assert LastRequest(s, steps[..1]) == None;
  }

  // ----- the service

  class AgentSession {
    var cache: Option<State>
    var requestId: Option<nat>
    var active: bool
    var snapshot: Option<Snapshot>

    function Stores(): Session
      reads this
    {
      Session(cache, requestId, active, snapshot)
    }

    /** get_or_create_active for a new conversation. */
    constructor (action: string)
      ensures Stores() == Opened(action)
    {
      var state := State(None, action, map[], [], None, false, [], []);
      requestId, active, snapshot := None, true, Some(SnapshotOf(state, "SESSION_CREATED"));
      cache := Some(state);
    }

    method GetOrRestore() returns (r: Result<(State, bool)>)
      modifies this`cache
      ensures r == Fetch(old(Stores()))
      ensures cache == if r.Ok? then Some(r.value.0) else old(cache)
    {
      hide Rebuilt;
      if cache.Some? { return Ok((cache.value, false)); }
      if snapshot.None? { return Err(SessionExpired); }
      var state :- Rebuilt(snapshot.value, requestId);
      cache := Some(state);
      return Ok((state, true));
    }

    method Persist(state: State, reason: string)
      modifies this`snapshot, this`requestId
      ensures Stores() == Persisted(old(Stores()), state, reason)
    {
      var row := snapshot.GetOr(Snapshot("", None, None, false));
      row := row.(action := state.action, data := Some(StateData(state, reason)));
      row := row.(missing := Some(state.missing), confirmed := reason == "USER_CONFIRMED");
      snapshot := Some(row);
      requestId := state.requestId;
    }

    /** One of the operations, in one transaction: an error, also one at commit, undoes
        the rows but not the cache. */
    method Perform(step: Step) returns (r: Result<()>)
      modifies this
      ensures Stores() == After(old(Stores()), step)
      ensures match Apply(old(Stores()), step.op, step.visible)
        case Ok(_) => r == if step.commits then Ok(()) else Err(InternalError)
        case Err(e) => r == Err(e)
    {
      hide Apply, Fetch;
      var begin := Stores();
      r := Operate(step.op, step.visible);
      if r.Ok? && !step.commits {
        requestId, active, snapshot := begin.requestId, begin.active, begin.snapshot;
        r := Err(InternalError);
      }
    }

    /** The body of the transaction; nothing is written to a row before an error. */
    method Operate(op: Operation, visible: Visibility) returns (r: Result<()>)
      modifies this
      ensures Stores() == After(old(Stores()), Step(op, visible, true))
      ensures match Apply(old(Stores()), op, visible) case Ok(_) => r == Ok(()) case Err(e) => r == Err(e)
    {
      hide Fetch, SnapshotOf, StateData;
      if op.Expire? {
        cache := None;
        return Ok(());
      }
      :- Check(active, InvalidSessionStatus);
      if op.SaveState? {
        :- Access(visible, op.state.requestId);
        requestId := op.state.requestId;
        cache := Some(op.state);
        return Ok(());
      }
      var got :- GetOrRestore();
      var state := got.0;
      if op.SaveSnapshot? { Persist(state, op.reason); }
      if op.Complete? {
        if op.requestId.Some? {
          :- Access(visible, op.requestId);
          state := state.(requestId := op.requestId);
        }
        requestId := state.requestId;
        Persist(state, "SESSION_COMPLETED");
        active := false;
        cache := None;
      }
      return Ok(());
    }
  }
}
