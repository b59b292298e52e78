/** Several dispatchers, administrators and producers on one outbox, interleaved at
    the granularity of database transactions and single sends. A row read FOR UPDATE
    stays locked until its transaction ends; claim_due skips locked rows, the other
    two wait for them. A send may succeed or fail; a crash loses the transaction. */
module OutboxWorkers {
  import opened Common
  import opened Outbox

  /** One open transaction: the rows it holds, as it read them, and what it has
      made of the first |draft| of them. */
  datatype Batch = Batch(now: int, ids: seq<nat>, view: seq<Notification>, draft: seq<Notification>)

  /** `attempts` counts, per row, the attempts committed since it was last queued. */
  datatype System = System(cfg: Settings, rows: seq<Notification>, attempts: seq<nat>, open: map<nat, Batch>)

  datatype Event =
    | Enqueue(request: nat, created: int)
    | Claim(worker: nat, now: int, size: nat)
    | ClaimOne(worker: nat, now: int, id: nat)
    | Send(worker: nat, ok: bool)
    | Commit(worker: nat)
    | Crash(worker: nat)
    | Resend(id: nat)

  function Locked(s: System): set<nat> {
    set w, k | w in s.open && 0 <= k < |s.open[w].ids| :: s.open[w].ids[k]
  }

  predicate Enabled(s: System, e: Event) {
    match e
    case Enqueue(_, _) => true
    case Claim(w, now, size) => w !in s.open
    case ClaimOne(w, now, id) => w !in s.open && id < |s.rows| && id !in Locked(s) && s.rows[id].status == Pending
    case Send(w, ok) => w in s.open && |s.open[w].draft| < |s.open[w].ids| == |s.open[w].view|
    case Commit(w) =>
      && w in s.open && |s.open[w].draft| == |s.open[w].ids|
      && InTable(s.open[w].ids, |s.rows|) && |s.attempts| == |s.rows|
    case Crash(w) => w in s.open
    case Resend(id) => id < |s.rows| == |s.attempts| && id !in Locked(s) && s.rows[id].status == Failed
  }

  function ViewOf(rows: seq<Notification>, ids: seq<nat>): (view: seq<Notification>)
    requires InTable(ids, |rows|)
    ensures |view| == |ids| && forall k :: 0 <= k < |ids| ==> view[k] == rows[ids[k]]
  {
    seq(|ids|, k requires 0 <= k < |ids| => rows[ids[k]])
  }

  /** Writes values to the rows with these ids. */
  function Written<T>(rows: seq<T>, ids: seq<nat>, values: seq<T>): (r: seq<T>)
    requires |values| == |ids| && InTable(ids, |rows|)
    ensures |r| == |rows|
  {
    if ids == [] then rows
    else
      var n := |ids| - 1;
      Written(rows, ids[..n], values[..n])[ids[n] := values[n]]
  }

  function Incremented(attempts: seq<nat>, ids: seq<nat>): seq<nat> {
    seq(|attempts|, i requires 0 <= i < |attempts| => if i in ids then attempts[i] + 1 else attempts[i])
  }

  function After(s: System, e: Event): System
    requires Enabled(s, e)
  {
    match e
    case Enqueue(request, created) => s.(rows := s.rows + [Fresh(request, created)], attempts := s.attempts + [0])
    case Claim(w, now, size) =>
      var ids := ClaimDue(s.cfg, s.rows, now, size, Locked(s));
      ClaimMeaning(s.cfg, s.rows, now, size, Locked(s));
      s.(open := s.open[w := Batch(now, ids, ViewOf(s.rows, ids), [])])
    case ClaimOne(w, now, id) => s.(open := s.open[w := Batch(now, [id], [s.rows[id]], [])])
    case Send(w, ok) =>
      var b := s.open[w];
      s.(open := s.open[w := b.(draft := b.draft + [AfterAttempt(s.cfg, b.view[|b.draft|], b.now, ok)])])
    case Commit(w) =>
      var b := s.open[w];
      s.(rows := Written(s.rows, b.ids, b.draft), attempts := Incremented(s.attempts, b.ids), open := s.open - {w})
    case Crash(w) => s.(open := s.open - {w})
    case Resend(id) => s.(rows := s.rows[id := Requeued(s.rows[id])], attempts := s.attempts[id := 0])
  }

  /** Events that are not enabled do nothing. */
  function Run(s: System, events: seq<Event>): System {
    if events == [] then s
    else
      var before := Run(s, events[..|events| - 1]);
      var e := events[|events| - 1];
      if Enabled(before, e) then After(before, e) else before
  }

  function Start(cfg: Settings): System { System(cfg, [], [], map[]) }

  // ----- the invariant

  /** A transaction's rows are as it read them: nobody else can write them. */
  predicate BatchOk(cfg: Settings, rows: seq<Notification>, b: Batch) {
    && NoDuplicates(b.ids) && InTable(b.ids, |rows|) && |b.view| == |b.ids| && |b.draft| <= |b.ids|
    && (forall k :: 0 <= k < |b.ids| ==>
          && b.view[k] == rows[b.ids[k]] && b.view[k].retries < cfg.maxRetries && b.view[k].status != Sent)
    && (forall k :: 0 <= k < |b.draft| ==> 
          b.draft[k] in {AfterAttempt(cfg, b.view[k], b.now, true), AfterAttempt(cfg, b.view[k], b.now, false)})
  }

  predicate Disjoint(a: Batch, b: Batch) {
    forall j, k :: 0 <= j < |a.ids| && 0 <= k < |b.ids| ==> a.ids[j] != b.ids[k]
  }

  /** The attempts behind a row: its retry count, plus the one that succeeded. */
  function Counted(n: Notification): nat { n.retries + if n.status == Sent then 1 else 0 }

  predicate TableOk(cfg: Settings, rows: seq<Notification>, attempts: seq<nat>) {
    && |attempts| == |rows|
    && forall i :: 0 <= i < |rows| ==> RowOk(cfg, rows[i]) && attempts[i] == Counted(rows[i])
  }

  predicate Inv(s: System) {
    && TableOk(s.cfg, s.rows, s.attempts)
    && (forall w :: w in s.open ==> BatchOk(s.cfg, s.rows, s.open[w]))
    && (forall v, w :: v in s.open && w in s.open && v != w ==> Disjoint(s.open[v], s.open[w]))
  }

  // ----- steps

  lemma LockedMeans(s: System, w: nat, k: nat)
    requires w in s.open && k < |s.open[w].ids|
    ensures s.open[w].ids[k] in Locked(s)
  {}

  lemma ClaimKeeps(s: System, w: nat, now: int, size: nat)
    requires Inv(s) && Enabled(s, Claim(w, now, size))
    ensures Inv(After(s, Claim(w, now, size)))
  {
    hide ClaimDue, Due, AfterAttempt, RowOk;
    var ids := ClaimDue(s.cfg, s.rows, now, size, Locked(s));
    ClaimMeaning(s.cfg, s.rows, now, size, Locked(s));
    var t := After(s, Claim(w, now, size));
    forall k | 0 <= k < |ids| ensures s.rows[ids[k]].retries < s.cfg.maxRetries && s.rows[ids[k]].status != Sent {
      DueMeans(s.cfg, s.rows[ids[k]], now);
    }
    FreeIsDisjoint(s, t.open[w]);
  }

  lemma DueMeans(cfg: Settings, n: Notification, now: int)
    requires Due(cfg, n, now)
    ensures n.retries < cfg.maxRetries && n.status != Sent
  {}

  lemma FreeIsDisjoint(s: System, b: Batch)
    requires forall k :: 0 <= k < |b.ids| ==> b.ids[k] !in Locked(s)
    ensures forall v :: v in s.open ==> Disjoint(s.open[v], b) && Disjoint(b, s.open[v])
  {
    forall v, j | v in s.open && 0 <= j < |s.open[v].ids| ensures s.open[v].ids[j] in Locked(s) {
      LockedMeans(s, v, j);
    }
  }

  lemma ClaimOneKeeps(s: System, w: nat, now: int, id: nat)
    requires Inv(s) && Enabled(s, ClaimOne(w, now, id)) && s.cfg.maxRetries > 0
    ensures Inv(After(s, ClaimOne(w, now, id)))
  {
    hide AfterAttempt, Locked;
    FreeIsDisjoint(s, After(s, ClaimOne(w, now, id)).open[w]);
  }

  lemma SendKeeps(s: System, w: nat, ok: bool)
    requires Inv(s) && Enabled(s, Send(w, ok))
    ensures Inv(After(s, Send(w, ok)))
  {
    hide AfterAttempt, Locked, BatchOk, TableOk;
    var t := After(s, Send(w, ok));
    SendKeepsBatch(s.cfg, s.rows, s.open[w], ok);
    assert forall v :: v in t.open ==> t.open[v].ids == s.open[v].ids;
    forall u, v | u in t.open && v in t.open && u != v ensures Disjoint(t.open[u], t.open[v]) {
      assert Disjoint(s.open[u], s.open[v]);
    }
  }

  lemma SendKeepsBatch(cfg: Settings, rows: seq<Notification>, b: Batch, ok: bool)
    requires BatchOk(cfg, rows, b) && |b.draft| < |b.ids|
    ensures BatchOk(cfg, rows, b.(draft := b.draft + [AfterAttempt(cfg, b.view[|b.draft|], b.now, ok)]))
  {
    hide AfterAttempt;
  }

  /** Writing distinct rows: each gets its value, the others stay. */
  lemma {:induction false} WrittenMeaning<T>(rows: seq<T>, ids: seq<nat>, values: seq<T>)
    requires |values| == |ids| && InTable(ids, |rows|) && NoDuplicates(ids)
    ensures forall k :: 0 <= k < |ids| ==> Written(rows, ids, values)[ids[k]] == values[k]
    ensures forall i :: 0 <= i < |rows| && i !in ids ==> Written(rows, ids, values)[i] == rows[i]
  {
    if ids != [] {
      var n := |ids| - 1;
      WrittenMeaning(rows, ids[..n], values[..n]);
      assert ids == ids[..n] + [ids[n]];
    }
  }

  lemma CommitKeepsTable(s: System, w: nat)
    requires Inv(s) && Enabled(s, Commit(w))
    ensures var t := After(s, Commit(w)); TableOk(t.cfg, t.rows, t.attempts)
  {
    hide AfterAttempt, Locked, RowOk, Counted;
    var b, t := s.open[w], After(s, Commit(w));
    WrittenMeaning(s.rows, b.ids, b.draft);
    forall i | 0 <= i < |s.rows| ensures RowOk(t.cfg, t.rows[i]) && t.attempts[i] == Counted(t.rows[i]) {
      if i in b.ids {
        var k :| 0 <= k < |b.ids| && b.ids[k] == i;
        var ok := b.draft[k] == AfterAttempt(s.cfg, b.view[k], b.now, true);
        AttemptKeepsRow(s.cfg, b.view[k], b.now, ok);
        AttemptCounts(s.cfg, b.view[k], b.now, ok);
      }
    }
  }

  lemma AttemptCounts(cfg: Settings, n: Notification, now: int, ok: bool)
    requires n.status != Sent
    ensures Counted(AfterAttempt(cfg, n, now, ok)) == Counted(n) + 1
  {}

  lemma CommitKeeps(s: System, w: nat)
    requires Inv(s) && Enabled(s, Commit(w))
    ensures Inv(After(s, Commit(w)))
  {
    hide AfterAttempt, Locked, TableOk, Written;
    var b, t := s.open[w], After(s, Commit(w));
    CommitKeepsTable(s, w);
    WrittenMeaning(s.rows, b.ids, b.draft);
    forall v | v in t.open ensures BatchOk(t.cfg, t.rows, t.open[v]) {
      var c := t.open[v];
      assert Disjoint(s.open[v], s.open[w]);
      forall k | 0 <= k < |c.ids| ensures t.rows[c.ids[k]] == s.rows[c.ids[k]] {
        assert c.ids[k] !in b.ids;
      }
    }
  }

  lemma ResendKeeps(s: System, id: nat)
    requires Inv(s) && Enabled(s, Resend(id)) && s.cfg.maxRetries > 0
    ensures Inv(After(s, Resend(id)))
  {
    hide AfterAttempt, Locked;
    forall v, k | v in s.open && 0 <= k < |s.open[v].ids| ensures s.open[v].ids[k] != id { LockedMeans(s, v, k); }
  }

  lemma EnqueueKeeps(s: System, request: nat, created: int)
    requires Inv(s) && s.cfg.maxRetries > 0
    ensures Inv(After(s, Enqueue(request, created)))
  {
    hide AfterAttempt, Locked;
  }

  lemma StepKeeps(s: System, e: Event)
    requires Inv(s) && Enabled(s, e) && s.cfg.maxRetries > 0
    ensures Inv(After(s, e)) && After(s, e).cfg == s.cfg
  {
    hide BatchOk, TableOk, Disjoint;
    match e
    case Enqueue(request, created) => EnqueueKeeps(s, request, created);
    case Claim(w, now, size) => ClaimKeeps(s, w, now, size);
    case ClaimOne(w, now, id) => ClaimOneKeeps(s, w, now, id);
    case Send(w, ok) => SendKeeps(s, w, ok);
    case Commit(w) => CommitKeeps(s, w);
    case Crash(w) =>
    case Resend(id) => ResendKeeps(s, id);
  }

  // ----- runs

  lemma {:induction false} ReachableOk(cfg: Settings, events: seq<Event>)
    requires cfg.maxRetries > 0
    ensures Inv(Run(Start(cfg), events)) && Run(Start(cfg), events).cfg == cfg
  {
    hide Inv, Enabled, After;
    if events == [] { assert Inv(Start(cfg)) by { StartOk(cfg); } }
    else {
      var front, e := events[..|events| - 1], events[|events| - 1];
      ReachableOk(cfg, front);
      var s := Run(Start(cfg), front);
      if Enabled(s, e) { StepKeeps(s, e); }
    }
  }

  lemma StartOk(cfg: Settings)
    ensures Inv(Start(cfg))
  {}

  /** In every reachable state: no row is held by two transactions; every row has
      had at most max_retries counted attempts since it was queued; PENDING rows have
      none and no retry time; FAILED rows lack a retry time exactly when exhausted. */
  lemma OutboxGuarantees(cfg: Settings, events: seq<Event>)
    requires cfg.maxRetries > 0
    ensures var s := Run(Start(cfg), events);
      && (forall v, w, j, k :: v in s.open && w in s.open && v != w ==>
            0 <= j < |s.open[v].ids| && 0 <= k < |s.open[w].ids| ==> s.open[v].ids[j] != s.open[w].ids[k])
      && |s.attempts| == |s.rows|
      && (forall i :: 0 <= i < |s.rows| ==>
            && s.attempts[i] <= cfg.maxRetries
            && (s.rows[i].status == Pending ==> s.attempts[i] == 0 && s.rows[i].nextRetry.None?)
            && (s.rows[i].status == Failed ==> (s.rows[i].nextRetry.None? <==> s.attempts[i] == cfg.maxRetries)))
  {
    hide Run, Start, BatchOk;
    ReachableOk(cfg, events);
    var s := Run(Start(cfg), events);
    assert forall v, w :: v in s.open && w in s.open && v != w ==> Disjoint(s.open[v], s.open[w]);
  }

  /** No unsent row is stranded: it is exhausted, or due from its retry time on. */
  lemma NobodyIsStranded(cfg: Settings, events: seq<Event>, i: nat, now: int)
    requires cfg.maxRetries > 0 && i < |Run(Start(cfg), events).rows|
    ensures var n := Run(Start(cfg), events).rows[i];
      n.status == Sent || Exhausted(n) || (n.nextRetry.GetOr(now) <= now ==> Due(cfg, n, now))
  {
    hide Run, Start, BatchOk, RowOk, Due;
    ReachableOk(cfg, events);
    NothingStranded(cfg, Run(Start(cfg), events).rows[i]);
  }

  /** A send always goes to a row that is not committed as SENT. */
  lemma SendsOnlyUnsent(s: System, w: nat, ok: bool)
    requires Inv(s) && Enabled(s, Send(w, ok))
    ensures var id := s.open[w].ids[|s.open[w].draft|]; id < |s.rows| && s.rows[id].status != Sent
  {
    assert BatchOk(s.cfg, s.rows, s.open[w]);
  }

  /** A committed SENT row never changes again. */
  lemma SentStepStays(s: System, e: Event, i: nat)
    requires Inv(s) && Enabled(s, e) && i < |s.rows| && s.rows[i].status == Sent
    ensures i < |After(s, e).rows| && After(s, e).rows[i] == s.rows[i]
  {
    hide AfterAttempt, Locked, RowOk, Written, ClaimDue;
    if e.Commit? {
      var b := s.open[e.worker];
      assert BatchOk(s.cfg, s.rows, b);
      WrittenMeaning(s.rows, b.ids, b.draft);
      forall k | 0 <= k < |b.ids| ensures b.ids[k] != i { assert b.view[k] == s.rows[b.ids[k]]; }
    }
  }

  lemma {:induction false} SentStays(s: System, events: seq<Event>, i: nat)
    requires Inv(s) && s.cfg.maxRetries > 0 && i < |s.rows| && s.rows[i].status == Sent
    ensures Inv(Run(s, events)) && Run(s, events).cfg == s.cfg
    ensures i < |Run(s, events).rows| && Run(s, events).rows[i] == s.rows[i]
  {
    hide Inv, Enabled, After;
    if events != [] {
      var front, e := events[..|events| - 1], events[|events| - 1];
      SentStays(s, front, i);
      var t := Run(s, front);
      if Enabled(t, e) {
        StepKeeps(t, e);
        SentStepStays(t, e, i);
      }
    }
  }
}
