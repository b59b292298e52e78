/** What every committed history guarantees: the version counts commits, of calls
    sharing an expected version at most one commits, action tokens and outbox keys
    are unique in the whole database, and repeating a committed call does nothing. */
module Histories {
  import Workflow
  import opened Common
  import opened Procurement
  import opened Commands
  import opened Effects
  import opened Commits
  import opened DedupKeys
  import opened Transactions

  function CommitsOn(history: seq<Change>, r: nat): nat {
    if history == [] then 0
    else
      var n := |history| - 1;
      CommitsOn(history[..n], r) + if history[n].Committed? && history[n].request == r then 1 else 0
  }

  lemma ReplayLast(history: seq<Change>)
    requires history != [] && Replay(history).Some?
    ensures Replay(history[..|history| - 1]).Some?
    ensures Serially(Replay(history[..|history| - 1]).value, history[|history| - 1]) == Replay(history)
  {
    hide Serially;
  }

  /** The version of a request is the number of its committed calls. */
  lemma {:induction false} VersionCountsCommits(history: seq<Change>, r: nat)
    requires Replay(history).Some?
    ensures var db := Replay(history).value;
      if r in db.requests then db.requests[r].request.version == CommitsOn(history, r) else CommitsOn(history, r) == 0
  {
    hide Exec, Replay, NewRequest, AllTokens;
    if history == [] { assert Replay([]) == Some(EMPTY) by { Start(); } }
    else {
      var n := |history| - 1;
      ReplayLast(history);
      VersionCountsCommits(history[..n], r);
      var db := Replay(history[..n]).value;
      match history[n]
      case Committed(request, call) =>
        Advanced(call, db.requests[request], AllTokens(db), Exec(call, db.requests[request], AllTokens(db)).value);
      case Created(id, w, actor, building) => FreshId(w, actor, id, building);
      case Logged(_) =>
    }
  }

  lemma Start() ensures Replay([]) == Some(EMPTY) {}

  /** A commit expects exactly the commits that came before it. */
  lemma {:induction false} ExpectedCountsEarlier(history: seq<Change>, k: nat)
    requires Replay(history).Some? && k < |history| && history[k].Committed?
    ensures history[k].call.expected == CommitsOn(history[..k], history[k].request)
    ensures Replay(history[..k]).Some?
    decreases |history|
  {
    hide Exec, Replay, NewRequest, AllTokens;
    var n := |history| - 1;
    ReplayLast(history);
    if k == n {
      var db := Replay(history[..n]).value;
      var c := history[n];
      VersionCountsCommits(history[..n], c.request);
      Advanced(c.call, db.requests[c.request], AllTokens(db),
        Exec(c.call, db.requests[c.request], AllTokens(db)).value);
    } else {
      assert history[..n][..k] == history[..k];
      ExpectedCountsEarlier(history[..n], k);
    }
  }

  lemma {:induction false} CommitsGrow(history: seq<Change>, k: nat, r: nat)
    requires k <= |history|
    ensures CommitsOn(history[..k], r) <= CommitsOn(history, r)
    ensures k < |history| && history[k].Committed? && history[k].request == r ==>
      CommitsOn(history[..k], r) < CommitsOn(history, r)
  {
    if k < |history| {
      var n := |history| - 1;
      assert history[..n][..k] == history[..k];
      if k < n { CommitsGrow(history[..n], k, r); }
    } else { assert history[..k] == history; }
  }

  predicate InVersionOrder(a: Change, b: Change) {
    a.Committed? && b.Committed? && a.request == b.request ==> a.call.expected < b.call.expected
  }

  /** Of two calls on one request, the later commit expected a later version; so of
      all calls sharing an expected version at most one commits. */
  lemma AtMostOneCommitPerVersion(history: seq<Change>, j: nat, k: nat)
    requires Replay(history).Some? && j < k < |history|
    ensures InVersionOrder(history[j], history[k])
  {
    hide Replay;
    if history[j].Committed? && history[k].Committed? && history[j].request == history[k].request {
      ExpectedCountsEarlier(history, j);
      ExpectedCountsEarlier(history, k);
      assert history[..k][..j] == history[..j];
      CommitsGrow(history[..k], j, history[j].request);
    }
  }

  /** Repeating a committed call, at any later time, is refused. */
  lemma RetryIsRefused(history: seq<Change>, k: nat, used: set<string>)
    requires Replay(history).Some? && k < |history| && history[k].Committed?
    ensures history[k].request in Replay(history).value.requests
    ensures Exec(history[k].call, Replay(history).value.requests[history[k].request], used).Err?
  {
    hide Replay, Exec;
    var r, c := history[k].request, history[k].call;
    ExpectedCountsEarlier(history, k);
    CommitsGrow(history, k, r);
    VersionCountsCommits(history, r);
    var s := Replay(history).value.requests[r];
    if Exec(c, s, used).Ok? { Advanced(c, s, used, Exec(c, s, used).value); }
  }

  // ----- tokens and outbox keys

  predicate TokensOnce(log: seq<LogEntry>) {
    forall j, k :: 0 <= j < k < |log| && log[j].token.Some? ==> log[j].token != log[k].token
  }

  /** Every action token occurs once in the whole operation log. */
  predicate TokensDistinct(db: Database) {
    && (forall r :: r in db.requests ==> TokensOnce(db.requests[r].log) && Tokens(db.requests[r].log) !! db.other)
    && (forall q, r :: q in db.requests && r in db.requests && q != r ==>
          Tokens(db.requests[q].log) !! Tokens(db.requests[r].log))
  }

  /** Outbox rows differ within a request, and each carries a logged token of it. */
  predicate NotesOk(s: Aggregate) {
    NoDuplicates(s.outbox) && forall k :: 0 <= k < |s.outbox| ==> s.outbox[k].token in Tokens(s.log)
  }

  predicate KeysOk(db: Database) {
    TokensDistinct(db) && forall r :: r in db.requests ==> NotesOk(db.requests[r])
  }

  lemma TokensAppend(log: seq<LogEntry>, e: LogEntry)
    ensures Tokens(log + [e]) == Tokens(log) + if e.token.Some? then {e.token.value} else {}
  {
    var log' := log + [e];
    assert log'[|log|] == e;
    forall x | x in Tokens(log) ensures x in Tokens(log') {
      var k :| 0 <= k < |log| && log[k].token.Some? && log[k].token.value == x;
      assert log'[k] == log[k];
    }
  }

  lemma StepKeepsNotes(c: Call, s: Aggregate, used: set<string>, t: Aggregate)
    requires Exec(c, s, used) == Ok(t) && NotesOk(s) && TokensOnce(s.log) && Tokens(s.log) <= used
    ensures NotesOk(t) && TokensOnce(t.log)
    ensures var token := TokenOf(c.command, s.request.id, c.expected);
      && Tokens(t.log) == Tokens(s.log) + (if token.Some? then {token.value} else {})
      && (token.Some? ==> token.value !in used)
  {
    hide Exec, Tokens, LegacyToken, Framed, MoveRecorded, WorkRecorded;
    ExecEffects(c, s, t, used);
    NewNotes(c, s, used, t);
    var token := TokenOf(c.command, s.request.id, c.expected);
    if token.Some? {
      TokensAppend(s.log, t.log[|s.log|]);
      OldTokens(s.log);
    }
    assert t.outbox == s.outbox + t.outbox[|s.outbox|..];
  }

  lemma OldTokens(log: seq<LogEntry>)
    ensures forall k :: 0 <= k < |log| && log[k].token.Some? ==> log[k].token.value in Tokens(log)
  {}

  lemma OwnTokens(db: Database, r: nat)
    requires r in db.requests
    ensures Tokens(db.requests[r].log) <= AllTokens(db) && db.other <= AllTokens(db)
  {
    hide Tokens;
  }

  lemma ForeignToken(db: Database, token: string)
    requires token !in AllTokens(db)
    ensures forall r :: r in db.requests ==> token !in Tokens(db.requests[r].log)
    ensures token !in db.other
  {
    hide Tokens;
  }

  lemma CommitKeepsKeys(db: Database, r: nat, c: Call, t: Aggregate)
    requires KeysOk(db) && r in db.requests && Exec(c, db.requests[r], AllTokens(db)) == Ok(t)
    ensures KeysOk(db.(requests := db.requests[r := t]))
  {
    hide Exec, Tokens, AllTokens, NotesOk, TokensOnce, LegacyToken;
    OwnTokens(db, r);
    StepKeepsNotes(c, db.requests[r], AllTokens(db), t);
    var token := TokenOf(c.command, db.requests[r].request.id, c.expected);
    if token.Some? { ForeignToken(db, token.value); }
  }

  lemma FreshKeys(w: Workflow.World, actor: nat, id: nat, building: nat, s: Aggregate)
    requires NewRequest(w, actor, id, building) == Ok(s)
    ensures NotesOk(s) && TokensOnce(s.log) && Tokens(s.log) == {}
  {}

  lemma {:induction false} HistoryKeepsKeys(history: seq<Change>)
    requires Replay(history).Some?
    ensures KeysOk(Replay(history).value)
  {
    hide Exec, Replay, NewRequest, AllTokens, Tokens, NotesOk, TokensOnce;
    if history == [] { Start(); }
    else {
      var n := |history| - 1;
      ReplayLast(history);
      HistoryKeepsKeys(history[..n]);
      var db := Replay(history[..n]).value;
      match history[n]
      case Committed(r, c) => CommitKeepsKeys(db, r, c, Exec(c, db.requests[r], AllTokens(db)).value);
      case Created(id, w, actor, building) =>
        FreshKeys(w, actor, id, building, NewRequest(w, actor, id, building).value);
      case Logged(token) => ForeignToken(db, token);
    }
  }

  /** No two outbox rows of the database share a dedup key. */
  lemma OutboxKeysUnique(db: Database, q: nat, j: nat, r: nat, k: nat)
    requires KeysOk(db) && q in db.requests && r in db.requests
    requires j < |db.requests[q].outbox| && k < |db.requests[r].outbox|
    requires Key(db.requests[q].outbox[j]) == Key(db.requests[r].outbox[k])
    ensures q == r && j == k
  {
    hide Key, Tokens, TokensOnce;
    KeyInjective(db.requests[q].outbox[j], db.requests[r].outbox[k]);
    assert NotesOk(db.requests[q]) && NotesOk(db.requests[r]);
  }

  /** The guarantees of any interleaving of transactions. */
  lemma ConcurrentGuarantees(events: seq<Transactions.Event>)
    ensures var sys := Steps(events);
      && KeysOk(sys.db)
      && (forall r :: r in sys.db.requests ==> sys.db.requests[r].request.version == CommitsOn(sys.history, r))
      && (forall j, k :: 0 <= j < k < |sys.history| ==> InVersionOrder(sys.history[j], sys.history[k]))
  {
    hide Steps, Replay, KeysOk, SystemOk;
    Serializable(events);
    var sys := Steps(events);
    HistoryKeepsKeys(sys.history);
    forall r | r in sys.db.requests ensures sys.db.requests[r].request.version == CommitsOn(sys.history, r) {
      VersionCountsCommits(sys.history, r);
    }
    forall j, k | 0 <= j < k < |sys.history| ensures InVersionOrder(sys.history[j], sys.history[k]) {
      AtMostOneCommitPerVersion(sys.history, j, k);
    }
  }
}
