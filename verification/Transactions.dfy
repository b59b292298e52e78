/** Concurrent requests as interleaved database transactions.
    Isolation: a transaction reads one snapshot, taken when it begins; its UPDATE
    of the request row is a current read that takes the row lock until the end of
    the transaction; its rows become visible at commit, together or not at all;
    the unique index on action_token is checked against committed rows. */
module Transactions {
  import opened Common
  import opened Workflow
  import opened Procurement
  import opened Commands
  import opened Effects
  import opened Invariants
  import opened Lifecycle
  import opened Commits

  /** All requests, and the action tokens logged by other operations (resending
      notifications, blacklisting suppliers). */
  datatype Database = Database(requests: map<nat, Aggregate>, other: set<string>)

  function AllTokens(db: Database): set<string> {
    db.other + set r, x | r in db.requests && x in Tokens(db.requests[r].log) :: x
  }

  datatype Transaction =
    | Reading(request: nat, call: Call, snapshot: Aggregate, seen: set<string>)
    | Updated(request: nat, call: Call, snapshot: Aggregate, seen: set<string>, result: Aggregate)

  datatype Change =
    | Created(request: nat, world: World, actor: nat, building: nat)
    | Committed(request: nat, call: Call)
    | Logged(token: string)

  datatype System = System(db: Database, open: map<nat, Transaction>, history: seq<Change>)

  datatype Event =
    | Create(id: nat, world: World, actor: nat, building: nat)
    | LogElsewhere(token: string)
    | Begin(tx: nat, request: nat, call: Call)
    | Update(tx: nat)
    | Commit(tx: nat)
    | Abort(tx: nat)

  const EMPTY := Database(map[], {})
  const START := System(EMPTY, map[], [])

  // ----- writing back

  /** A stored value is overwritten only if the transaction changed it. */
  function Pick<T(==)>(read: T, written: T, current: T): T {
    if written == read then current else written
  }

  /** Changed rows are overwritten, new rows appended, all others left alone. */
  function MergeRows<T(==)>(read: seq<T>, written: seq<T>, current: seq<T>): seq<T> {
    seq(|current|, i requires 0 <= i < |current| =>
      if i < |read| && i < |written| then Pick(read[i], written[i], current[i]) else current[i])
    + if |read| <= |written| then written[|read|..] else []
  }

  function MergeRequest(read: Request, written: Request, current: Request): Request {
    Request(current.id, current.building, current.applicant,
            Pick(read.status, written.status, current.status), Pick(read.handler, written.handler, current.handler),
            current.version + 1,
            Pick(read.deviceName, written.deviceName, current.deviceName),
            Pick(read.quantity, written.quantity, current.quantity), Pick(read.unit, written.unit, current.unit),
            Pick(read.requestType, written.requestType, current.requestType),
            Pick(read.sourceAsset, written.sourceAsset, current.sourceAsset),
            Pick(read.columns, written.columns, current.columns))
  }

  function Merge(read: Aggregate, written: Aggregate, current: Aggregate): Aggregate {
    Aggregate(MergeRequest(read.request, written.request, current.request),
              MergeRows(read.items, written.items, current.items),
              MergeRows(read.reviews, written.reviews, current.reviews),
              MergeRows(read.reviewItems, written.reviewItems, current.reviewItems),
              MergeRows(read.executions, written.executions, current.executions),
              MergeRows(read.receipts, written.receipts, current.receipts),
              MergeRows(read.log, written.log, current.log), MergeRows(read.outbox, written.outbox, current.outbox))
  }

  // ----- the interleaved system

  predicate LockHeld(open: map<nat, Transaction>, request: nat) {
    exists x :: x in open && open[x].Updated? && open[x].request == request
  }

  function End(sys: System, tx: nat): System { sys.(open := sys.open - {tx}) }

  /** One event; a disabled event changes nothing. */
  function Step(sys: System, e: Event): System {
    match e
    case Create(id, w, actor, building) =>
      var draft := NewRequest(w, actor, id, building);
      if id in sys.db.requests || draft.Err? then sys
      else sys.(db := sys.db.(requests := sys.db.requests[id := draft.value]),
                history := sys.history + [Created(id, w, actor, building)])
    case LogElsewhere(token) =>
      if token in AllTokens(sys.db) then sys
      else sys.(db := sys.db.(other := sys.db.other + {token}), history := sys.history + [Logged(token)])
    case Begin(tx, request, call) =>
      if tx in sys.open || request !in sys.db.requests then sys
      else sys.(open := sys.open[tx := Reading(request, call, sys.db.requests[request], AllTokens(sys.db))])
    case Update(tx) =>
      if tx !in sys.open || !sys.open[tx].Reading? || sys.open[tx].request !in sys.db.requests then sys
      else UpdateRow(sys, tx, sys.open[tx])
    case Commit(tx) =>
      if tx !in sys.open || !sys.open[tx].Updated? || sys.open[tx].request !in sys.db.requests then sys
      else CommitRows(sys, tx, sys.open[tx])
    case Abort(tx) => End(sys, tx)
  }

  /** The command runs on the snapshot; then its UPDATE meets the current row. */
  function UpdateRow(sys: System, tx: nat, x: Transaction): System
    requires x.Reading? && x.request in sys.db.requests
  {
    var r := Exec(x.call, x.snapshot, x.seen);
    if r.Err? then End(sys, tx)
    else if LockHeld(sys.open, x.request) then sys
    else if CasHolds(sys.db.requests[x.request].request, x.call.expected, Allowed(x.call, x.snapshot.request))
    then sys.(open := sys.open[tx := Updated(x.request, x.call, x.snapshot, x.seen, r.value)])
    else End(sys, tx)
  }

  function CommitRows(sys: System, tx: nat, x: Transaction): System
    requires x.Updated? && x.request in sys.db.requests
  {
    var current := sys.db.requests[x.request];
    if !TokenFree(x.call, x.snapshot.request, AllTokens(sys.db)) then End(sys, tx)
    else
      System(sys.db.(requests := sys.db.requests[x.request := Merge(x.snapshot, x.result, current)]),
             sys.open - {tx}, sys.history + [Committed(x.request, x.call)])
  }

  function Steps(events: seq<Event>): System {
    if events == [] then START else Step(Steps(events[..|events| - 1]), events[|events| - 1])
  }

  // ----- the serial system

  /** The same change made alone, on the whole database. */
  function Serially(db: Database, c: Change): Option<Database> {
    match c
    case Created(id, w, actor, building) =>
      var draft := NewRequest(w, actor, id, building);
      if id in db.requests || draft.Err? then None else Some(db.(requests := db.requests[id := draft.value]))
    case Logged(token) =>
      if token in AllTokens(db) then None else Some(db.(other := db.other + {token}))
    case Committed(request, call) =>
      if request !in db.requests then None
      else match Exec(call, db.requests[request], AllTokens(db))
        case Ok(t) => Some(db.(requests := db.requests[request := t]))
        case Err(_) => None
  }

  function Replay(history: seq<Change>): Option<Database> {
    if history == [] then Some(EMPTY)
    else match Replay(history[..|history| - 1])
      case None => None
      case Some(db) => Serially(db, history[|history| - 1])
  }

  // ----- refinement

  predicate RowsOk(db: Database) {
    forall r :: r in db.requests ==> Inv(db.requests[r]) && db.requests[r].request.id == r
  }

  /** A snapshot is never newer than the stored request, and equal versions mean
      equal rows. */
  predicate SnapshotOk(db: Database, x: Transaction) {
    && x.request in db.requests
    && x.snapshot.request.id == x.request
    && x.snapshot.request.version <= db.requests[x.request].request.version
    && (x.snapshot.request.version == db.requests[x.request].request.version ==> x.snapshot == db.requests[x.request])
  }

  predicate TransactionsOk(sys: System) {
    && (forall x :: x in sys.open ==> SnapshotOk(sys.db, sys.open[x]))
    && (forall x :: x in sys.open && sys.open[x].Updated? ==>
          && sys.open[x].snapshot == sys.db.requests[sys.open[x].request]
          && Exec(sys.open[x].call, sys.open[x].snapshot, sys.open[x].seen) == Ok(sys.open[x].result))
    && (forall x, y :: x in sys.open && y in sys.open && x != y && sys.open[x].Updated? && sys.open[y].Updated? ==>
          sys.open[x].request != sys.open[y].request)
  }

  predicate SystemOk(sys: System) {
    Replay(sys.history) == Some(sys.db) && RowsOk(sys.db) && TransactionsOk(sys)
  }

  lemma MergeOfUnchanged<T>(read: seq<T>, written: seq<T>)
    requires |read| <= |written|
    ensures MergeRows(read, written, read) == written
  {
    assert written == written[..|read|] + written[|read|..];
  }

  /** Writing back over the rows that were read gives the computed rows. */
  lemma MergeOntoSnapshot(c: Call, s: Aggregate, used: set<string>, t: Aggregate)
    requires Inv(s) && Exec(c, s, used) == Ok(t)
    ensures Merge(s, t, s) == t
  {
    hide Exec, Inv, MergeRows, Effects.Logged;
    ExecEffects(c, s, t, used);
    StepGrows(c, s, used, t);
    MergeOfUnchanged(s.items, t.items);
    MergeOfUnchanged(s.reviews, t.reviews);
    MergeOfUnchanged(s.reviewItems, t.reviewItems);
    MergeOfUnchanged(s.executions, t.executions);
    MergeOfUnchanged(s.receipts, t.receipts);
    MergeOfUnchanged(s.log, t.log);
    MergeOfUnchanged(s.outbox, t.outbox);
  }

  lemma ReplayAppend(history: seq<Change>, c: Change)
    ensures Replay(history + [c]) == match Replay(history) case None => None case Some(db) => Serially(db, c)
  {
    assert (history + [c])[..|history|] == history;
  }

  lemma CommitKeeps(sys: System, tx: nat)
    requires SystemOk(sys) && tx in sys.open && sys.open[tx].Updated?
    ensures SystemOk(CommitRows(sys, tx, sys.open[tx]))
  {
    hide Exec, Inv, Merge, Replay, AllTokens, NewRequest;
    var x := sys.open[tx];
    var s := sys.db.requests[x.request];
    if TokenFree(x.call, s.request, AllTokens(sys.db)) {
      OnlyTheTokenMatters(x.call, s, x.seen, AllTokens(sys.db), x.result);
      MergeOntoSnapshot(x.call, s, x.seen, x.result);
      StepKeepsInvariant(x.call, s, x.seen, x.result);
      Advanced(x.call, s, x.seen, x.result);
      ReplayAppend(sys.history, Committed(x.request, x.call));
    }
  }

  lemma Advanced(c: Call, s: Aggregate, used: set<string>, t: Aggregate)
    requires Exec(c, s, used) == Ok(t)
    ensures c.expected == s.request.version && t.request.version == s.request.version + 1 &&
      t.request.id == s.request.id
  {
    hide Exec, Effects.Logged;
    ExecEffects(c, s, t, used);
  }

  lemma UpdateKeeps(sys: System, tx: nat)
    requires SystemOk(sys) && tx in sys.open && sys.open[tx].Reading?
    ensures SystemOk(UpdateRow(sys, tx, sys.open[tx]))
  {
    hide Exec, Inv, Replay, Allowed, RowsOk;
    var x := sys.open[tx];
    var r := Exec(x.call, x.snapshot, x.seen);
    if r.Ok? { Advanced(x.call, x.snapshot, x.seen, r.value); }
  }

  lemma StepKeepsSystem(sys: System, e: Event)
    requires SystemOk(sys)
    ensures SystemOk(Step(sys, e))
  {
    hide Exec, Inv, Replay, UpdateRow, CommitRows, AllTokens, NewRequest;
    match e
    case Update(tx) => if tx in sys.open && sys.open[tx].Reading? { UpdateKeeps(sys, tx); }
    case Commit(tx) => if tx in sys.open && sys.open[tx].Updated? { CommitKeeps(sys, tx); }
    case Create(id, w, actor, building) =>
      ReplayAppend(sys.history, Created(id, w, actor, building));
      var draft := NewRequest(w, actor, id, building);
      if draft.Ok? { FreshRequestOk(w, actor, id, building, draft.value); FreshId(w, actor, id, building); }
    case LogElsewhere(token) => ReplayAppend(sys.history, Logged(token));
    case _ =>
  }

  lemma FreshId(w: World, actor: nat, id: nat, building: nat)
    requires NewRequest(w, actor, id, building).Ok?
    ensures NewRequest(w, actor, id, building).value.request.id == id
    ensures NewRequest(w, actor, id, building).value.request.version == 0
  {}

  /** Serializability: whatever the interleaving, the database is the one obtained
      by making the committed changes alone, one after another, in commit order;
      and every stored request satisfies the invariant. */
  lemma {:induction false} Serializable(events: seq<Event>)
    ensures Replay(Steps(events).history) == Some(Steps(events).db)
    ensures SystemOk(Steps(events))
  {
    hide Exec, Step, SystemOk, Replay, Inv;
    if events == [] { assert SystemOk(START) by { StartOk(); } }
    else {
      Serializable(events[..|events| - 1]);
      StepKeepsSystem(Steps(events[..|events| - 1]), events[|events| - 1]);
    }
    assert Replay(Steps(events).history) == Some(Steps(events).db) by { SystemParts(Steps(events)); }
  }

  lemma StartOk()
    ensures SystemOk(START)
  {}

  lemma SystemParts(sys: System)
    requires SystemOk(sys)
    ensures Replay(sys.history) == Some(sys.db) && RowsOk(sys.db)
  {}
}
