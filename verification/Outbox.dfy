/** The notification outbox: which rows are due, what one delivery attempt does to a
    row, the retry delays, and dispatch_due as written. Sending is a parameter: `ok`
    says for each row whether the gateway accepts it. Times are whole seconds. */
module Outbox {
  import opened Common
  import opened Sorting

  /** notification_max_retries, _retry_base_seconds, _retry_max_seconds */
  datatype Settings = Settings(maxRetries: nat, base: nat, cap: nat)

  datatype Delivery = Pending | Sent | Failed

  datatype Notification = Notification(
    request: nat, status: Delivery, retries: nat, nextRetry: Option<int>, created: int, sentAt: Option<int>)

  // ----- retry delays

  function Power2(n: nat): (r: nat)
    ensures r >= 1
  {
    if n == 0 then 1 else 2 * Power2(n - 1)
  }

  function RetryDelay(cfg: Settings, count: nat): nat {
    var delay := cfg.base * Power2(if count == 0 then 0 else count - 1);
    if delay < cfg.cap then delay else cfg.cap
  }

  function TotalDelay(cfg: Settings, count: nat): nat {
    if count == 0 then 0 else TotalDelay(cfg, count - 1) + RetryDelay(cfg, count)
  }

  /** Waits never shrink and never exceed the cap. */
  lemma {:induction false} DelaysGrow(cfg: Settings, few: nat, many: nat)
    requires few <= many
    ensures RetryDelay(cfg, few) <= RetryDelay(cfg, many) <= cfg.cap
    decreases many
  {
    if few < many {
      DelaysGrow(cfg, few, many - 1);
      if many > 1 { Doubling(cfg.base, many - 2); }
    }
  }

  /** While the cap is not reached the waits add up to base * (2^n - 1). */
  lemma {:induction false} UncappedTotal(cfg: Settings, n: nat)
    requires n > 0 ==> cfg.base * Power2(n - 1) <= cfg.cap
    ensures TotalDelay(cfg, n) == cfg.base * Power2(n) - cfg.base
  {
    if n > 0 {
      Doubling(cfg.base, n - 1);
      if n > 1 { Doubling(cfg.base, n - 2); }
      hide Power2;
      UncappedTotal(cfg, n - 1);
    } else {
      assert Power2(0) == 1;
    }
  }

  lemma Doubling(base: nat, n: nat)
    ensures base * Power2(n + 1) == 2 * (base * Power2(n))
  {
    assert Power2(n + 1) == 2 * Power2(n);
    assert base * (2 * Power2(n)) == 2 * (base * Power2(n));
  }

  // ----- one row

  function Fresh(request: nat, created: int): Notification { Notification(request, Pending, 0, None, created, None) }

  predicate Due(cfg: Settings, n: Notification, now: int) {
    && n.retries < cfg.maxRetries
    && (n.status == Pending || (n.status == Failed && n.nextRetry.Some? && n.nextRetry.value <= now))
  }

  /** What one delivery attempt at time `now` does to a row. */
  function AfterAttempt(cfg: Settings, n: Notification, now: int, ok: bool): Notification {
    if ok then n.(status := Sent, sentAt := Some(now), nextRetry := None)
    else
      var count := n.retries + 1;
      n.(status := Failed, retries := count, sentAt := None,
         nextRetry := if count >= cfg.maxRetries then None else Some(now + RetryDelay(cfg, count)))
  }

  /** Manual re-queueing of a failed row. */
  function Requeued(n: Notification): Notification { n.(status := Pending, retries := 0, nextRetry := None) }

  predicate Exhausted(n: Notification) { n.status == Failed && n.nextRetry.None? }

  /** PENDING rows are untouched, FAILED rows have no retry time exactly when
      exhausted, SENT rows are finished. */
  predicate RowOk(cfg: Settings, n: Notification) {
    match n.status
    case Pending => n.retries == 0 && n.nextRetry.None?
    case Failed => 0 < n.retries <= cfg.maxRetries && (n.nextRetry.None? <==> n.retries >= cfg.maxRetries)
    case Sent => n.retries < cfg.maxRetries && n.nextRetry.None? && n.sentAt.Some?
  }

  /** A new row is well-formed, unsent, of the given request and time, and due at once. */
  lemma FreshIsDue(cfg: Settings, request: nat, created: int, now: int)
    requires cfg.maxRetries > 0
    ensures var n := Fresh(request, created);
      && n.request == request && n.created == created && n.sentAt.None? && RowOk(cfg, n) && Due(cfg, n, now)
  {}

  /** An attempt on a due row keeps it well-formed, and the next one has to wait the
      full delay. */
  lemma AttemptKeepsRow(cfg: Settings, n: Notification, now: int, ok: bool)
    requires RowOk(cfg, n) && n.retries < cfg.maxRetries && n.status != Sent
    ensures var m := AfterAttempt(cfg, n, now, ok);
      && RowOk(cfg, m)
      && (ok <==> m.status == Sent) && m.request == n.request && m.created == n.created
      && m.sentAt == (if ok then Some(now) else None) && m.retries == n.retries + (if ok then 0 else 1)
      && (!ok && m.nextRetry.Some? ==> forall t :: Due(cfg, m, t) <==> now + RetryDelay(cfg, m.retries) <= t)
      && (m.nextRetry.None? ==> forall t :: !Due(cfg, m, t))
  {
    hide RetryDelay;
  }

  /** Nothing is stranded: a well-formed row is sent, will be due from some time on,
      or is exhausted and can be re-queued. */
  lemma NothingStranded(cfg: Settings, n: Notification)
    requires RowOk(cfg, n) && cfg.maxRetries > 0
    ensures n.status == Sent || Exhausted(n) || forall t :: n.nextRetry.GetOr(t) <= t ==> Due(cfg, n, t)
    ensures Exhausted(n) ==> RowOk(cfg, Requeued(n)) && forall u :: Due(cfg, Requeued(n), u)
  {
  }

  // ----- claiming

  function Ids(n: nat): (r: seq<nat>)
    ensures |r| == n && forall k :: 0 <= k < n ==> r[k] == k
  {
    seq(n, k requires 0 <= k < n => k)
  }

  datatype Ticket = Ticket(created: int, id: nat)

  predicate Older(a: Ticket, b: Ticket) { a.created < b.created || (a.created == b.created && a.id < b.id) }

  function TicketsOf(cfg: Settings, rows: seq<Notification>, now: int, locked: set<nat>): (r: seq<Ticket>)
    ensures forall t :: t in r <==>
      t.id < |rows| && t == Ticket(rows[t.id].created, t.id) && Due(cfg, rows[t.id], now) && t.id !in locked
    ensures NoDuplicates(r)
  {
    if rows == [] then []
    else
      var n := |rows| - 1;
      var before := TicketsOf(cfg, rows[..n], now, locked);
      before + if Due(cfg, rows[n], now) && n !in locked then [Ticket(rows[n].created, n)] else []
  }

  /** claim_due: the due rows nobody holds, oldest first, at most `size`. */
  function ClaimDue(cfg: Settings, rows: seq<Notification>, now: int, size: nat, locked: set<nat>): seq<nat> {
    var tickets := Sort(Older, TicketsOf(cfg, rows, now, locked));
    var m := if size < |tickets| then size else |tickets|;
    seq(m, k requires 0 <= k < m => tickets[k].id)
  }

  lemma OlderIsTotal(tickets: seq<Ticket>)
    ensures StrictTotal(Older, Elements(tickets))
  {}

  /** Every claimed row is due and free, once each; a due free row is left behind
      only if the batch is full, and then every claimed row is older. */
  lemma ClaimMeaning(cfg: Settings, rows: seq<Notification>, now: int, size: nat, locked: set<nat>)
    ensures var ids := ClaimDue(cfg, rows, now, size, locked);
      && |ids| <= size && NoDuplicates(ids)
      && (forall k :: 0 <= k < |ids| ==> ids[k] < |rows| && ids[k] !in locked && Due(cfg, rows[ids[k]], now))
      && (forall i :: 0 <= i < |rows| && Due(cfg, rows[i], now) && i !in locked && i !in ids ==>
            && |ids| == size
            && forall k :: 0 <= k < |ids| ==> Older(Ticket(rows[ids[k]].created, ids[k]), Ticket(rows[i].created, i)))
  {
    hide TicketsOf, Sort, Due, Older;
    var tickets := TicketsOf(cfg, rows, now, locked);
    var sorted := Sort(Older, tickets);
    OlderIsTotal(tickets);
    SortOrdered(Older, Elements(tickets), tickets);
    SameMultisetSameElements(tickets, sorted);
    var ids := ClaimDue(cfg, rows, now, size, locked);
    forall k | 0 <= k < |sorted| ensures sorted[k] in tickets {}
    forall j, k | 0 <= j < k < |ids| ensures ids[j] != ids[k] { TicketsDiffer(sorted, j, k); }
    forall i | 0 <= i < |rows| && Due(cfg, rows[i], now) && i !in locked && i !in ids
      ensures |ids| == size
      ensures forall k :: 0 <= k < |ids| ==> Older(Ticket(rows[ids[k]].created, ids[k]), Ticket(rows[i].created, i))
    {
      assert Ticket(rows[i].created, i) in sorted;
      var p :| 0 <= p < |sorted| && sorted[p] == Ticket(rows[i].created, i);
      forall k | 0 <= k < |ids| ensures sorted[k].id != i { assert ids[k] in ids; }
    }
  }

  /** A claimed row was created before any due free row that is left behind, or at the
      same time under a smaller id. */
  lemma OldestFirst(cfg: Settings, rows: seq<Notification>, now: int, size: nat, locked: set<nat>, k: nat, i: nat)
    requires k < |ClaimDue(cfg, rows, now, size, locked)|
    requires i < |rows| && Due(cfg, rows[i], now) && i !in locked && i !in ClaimDue(cfg, rows, now, size, locked)
    ensures var id := ClaimDue(cfg, rows, now, size, locked)[k];
      id < |rows| && (rows[id].created < rows[i].created || (rows[id].created == rows[i].created && id < i))
  {
    hide ClaimDue, Due;
    ClaimMeaning(cfg, rows, now, size, locked);
  }

  lemma TicketsDiffer(sorted: seq<Ticket>, j: nat, k: nat)
    requires Ordered(Older, sorted) && j < k < |sorted|
    requires sorted[j].id == sorted[k].id ==> sorted[j] == sorted[k]
    ensures sorted[j].id != sorted[k].id
  {
    assert Older(sorted[j], sorted[k]);
  }

  // ----- a batch

  predicate InTable(ids: seq<nat>, n: nat) { forall k :: 0 <= k < |ids| ==> ids[k] < n }

  /** The rows after attempting `ids` one after the other. */
  function AfterBatch(cfg: Settings, rows: seq<Notification>, ids: seq<nat>, now: int,
                      ok: nat -> bool): (r: seq<Notification>)
    requires InTable(ids, |rows|)
    ensures |r| == |rows|
  {
    if ids == [] then rows
    else
      var n := |ids| - 1;
      var before := AfterBatch(cfg, rows, ids[..n], now, ok);
      before[ids[n] := AfterAttempt(cfg, before[ids[n]], now, ok(ids[n]))]
  }

  /** Each claimed row is attempted once; the others stay. */
  lemma {:induction false} BatchMeaning(cfg: Settings, rows: seq<Notification>, ids: seq<nat>, now: int,
                                        ok: nat -> bool)
    requires InTable(ids, |rows|) && NoDuplicates(ids)
    ensures var after := AfterBatch(cfg, rows, ids, now, ok);
      forall i :: 0 <= i < |rows| ==> after[i] == if i in ids then AfterAttempt(cfg, rows[i], now, ok(i)) else rows[i]
  {
    hide AfterAttempt;
    if ids != [] {
      var n := |ids| - 1;
      BatchMeaning(cfg, rows, ids[..n], now, ok);
      assert ids == ids[..n] + [ids[n]] && ids[n] !in ids[..n];
    }
  }

  function Count(rows: seq<Notification>, ids: seq<nat>, p: Notification -> bool): (n: nat)
    requires InTable(ids, |rows|)
    ensures n <= |ids|
  {
    if ids == [] then 0
    else Count(rows, ids[..|ids| - 1], p) + if p(rows[ids[|ids| - 1]]) then 1 else 0
  }

  lemma {:induction false} CountIgnores(rows: seq<Notification>, ids: seq<nat>,
                                        p: Notification -> bool, i: nat, n: Notification)
    requires InTable(ids, |rows|) && i < |rows| && i !in ids
    ensures Count(rows[i := n], ids, p) == Count(rows, ids, p)
  {
    if ids != [] { CountIgnores(rows, ids[..|ids| - 1], p, i, n); }
  }

  predicate IsSent(n: Notification) { n.status == Sent }
  predicate IsFailed(n: Notification) { n.status == Failed }
  predicate IsExhausted(n: Notification) { Exhausted(n) }

  /** A RESEND_NOTIFICATION entry of the operation log. */
  datatype Resent = Resent(request: nat, id: nat, token: string)

  function ResentTokens(log: seq<Resent>): set<string> { set k | 0 <= k < |log| :: log[k].token }

  predicate TokensOnce(log: seq<Resent>) { forall j, k :: 0 <= j < k < |log| ==> log[j].token != log[k].token }

  /** NotificationService over the committed rows. */
  class NotificationStore {
    const cfg: Settings
    var rows: seq<Notification>
    var log: seq<Resent>

    constructor (cfg: Settings)
      ensures this.cfg == cfg && rows == [] && log == []
    {
      this.cfg := cfg;
      rows, log := [], [];
    }

    method Enqueue(request: nat, created: int)
      modifies this`rows
      ensures rows == old(rows) + [Fresh(request, created)]
    {
      rows := rows + [Notification(request, Pending, 0, None, created, None)];
    }

    /** The assignments around one send. */
    method Deliver(id: nat, now: int, accepted: bool)
      requires id < |rows|
      modifies this`rows
      ensures rows == old(rows)[id := AfterAttempt(cfg, old(rows)[id], now, accepted)]
    {
      var n := rows[id];
      if !accepted {
        n := n.(retries := n.retries + 1);
        n := n.(status := Failed, sentAt := None);
        if n.retries >= cfg.maxRetries { n := n.(nextRetry := None); }
        else { n := n.(nextRetry := Some(now + RetryDelay(cfg, n.retries))); }
      } else {
        n := n.(status := Sent, sentAt := Some(now));
        n := n.(nextRetry := None);
      }
      rows := rows[id := n];
    }

    /** dispatch_due: `locked` are the rows other transactions hold. The four
        counters describe the rows it leaves behind. */
    method DispatchDue(now: int, size: nat, locked: set<nat>, ok: nat -> bool)
        returns (claimed: nat, sent: nat, failed: nat, exhausted: nat)
      modifies this`rows
      ensures var ids := ClaimDue(cfg, old(rows), now, size, locked);
        && InTable(ids, |old(rows)|) && rows == AfterBatch(cfg, old(rows), ids, now, ok)
        && claimed == |ids| && sent == Count(rows, ids, IsSent) && failed == Count(rows, ids, IsFailed)
        && exhausted == Count(rows, ids, IsExhausted)
      ensures claimed == sent + failed && exhausted <= failed
    {
      hide RetryDelay, ClaimDue, Due;
      ClaimMeaning(cfg, rows, now, size, locked);
      var ids := ClaimDue(cfg, rows, now, size, locked);
      sent, failed, exhausted := 0, 0, 0;
      var k := 0;
      while k < |ids|
        invariant k <= |ids| && |rows| == |old(rows)| && InTable(ids, |rows|)
        invariant rows == AfterBatch(cfg, old(rows), ids[..k], now, ok)
        invariant sent == Count(rows, ids[..k], IsSent) && failed == Count(rows, ids[..k], IsFailed)
        invariant exhausted == Count(rows, ids[..k], IsExhausted)
        invariant k == sent + failed && exhausted <= failed
      {
        var id := ids[k];
        ghost var before := rows;
        Deliver(id, now, ok(id));
        CountOneMore(before, ids, k, rows[id], IsSent);
        CountOneMore(before, ids, k, rows[id], IsFailed);
        CountOneMore(before, ids, k, rows[id], IsExhausted);
        assert ids[..k + 1][..k] == ids[..k];
        if ok(id) { sent := sent + 1; }
        else {
          failed := failed + 1;
          if rows[id].nextRetry.None? { exhausted := exhausted + 1; }
        }
        k := k + 1;
      }
      assert ids[..k] == ids;
      claimed := |ids|;
    }

    /** dispatch_one_as_admin: the row is read under its lock; only PENDING rows go. */
    method DispatchOne(admin: bool, id: nat, now: int, accepted: bool) returns (r: Result<Delivery>)
      modifies this`rows
      ensures r == if !admin then Err(PermissionDenied)
                   else if id >= |old(rows)| then Err(NotificationNotFound)
                   else if old(rows)[id].status != Pending then Err(InvalidNotificationStatus)
                   else Ok(if accepted then Sent else Failed)
      ensures rows == if r.Ok? then old(rows)[id := AfterAttempt(cfg, old(rows)[id], now, accepted)] else old(rows)
    {
      hide RetryDelay;
      if !admin { return Err(PermissionDenied); }
      if id >= |rows| { return Err(NotificationNotFound); }
      if rows[id].status != Pending { return Err(InvalidNotificationStatus); }
      Deliver(id, now, accepted);
      return Ok(rows[id].status);
    }

    /** resend: `used` are the tokens other operations have logged, `requests` the
        requests that exist. */
    method Resend(admin: bool, id: nat, token: string, used: set<string>, requests: set<nat>) returns (r: Result<()>)
      modifies this
      ensures r == if !admin then Err(PermissionDenied)
                   else if token in used + ResentTokens(old(log)) then Err(DuplicateOperation)
                   else if id >= |old(rows)| then Err(NotificationNotFound)
                   else if old(rows)[id].status != Failed then Err(InvalidNotificationStatus)
                   else if old(rows)[id].request !in requests then Err(RequirementNotFound)
                   else Ok(())
      ensures rows == if r.Ok? then old(rows)[id := Requeued(old(rows)[id])] else old(rows)
      ensures log == if r.Ok? then old(log) + [Resent(rows[id].request, id, token)] else old(log)
      ensures TokensOnce(old(log)) ==> TokensOnce(log)
    {
      if !admin { return Err(PermissionDenied); }
      if token in used + ResentTokens(log) { return Err(DuplicateOperation); }
      if id >= |rows| { return Err(NotificationNotFound); }
      if rows[id].status != Failed { return Err(InvalidNotificationStatus); }
      if rows[id].request !in requests { return Err(RequirementNotFound); }
      var n := rows[id].(status := Pending);
      n := n.(retries := 0);
      n := n.(nextRetry := None);
      rows := rows[id := n];
      assert forall k :: 0 <= k < |log| ==> log[k].token in ResentTokens(log);
      log := log + [Resent(n.request, id, token)];
      return Ok(());
    }
  }

  lemma CountOneMore(rows: seq<Notification>, ids: seq<nat>, k: nat, n: Notification, p: Notification -> bool)
    requires InTable(ids, |rows|) && NoDuplicates(ids) && k < |ids|
    ensures InTable(ids[..k], |rows|) && InTable(ids[..k + 1], |rows|)
    ensures Count(rows[ids[k] := n], ids[..k + 1], p) == Count(rows, ids[..k], p) + if p(n) then 1 else 0
  {
    assert ids[..k + 1][..k] == ids[..k];
    CountIgnores(rows, ids[..k], p, ids[k], n);
  }

  // ----- draining

  /** One dispatch by a single worker. */
  datatype Round = Round(now: int, size: nat, ok: nat -> bool)

  function AfterRound(cfg: Settings, rows: seq<Notification>, r: Round): (after: seq<Notification>)
    ensures |after| == |rows|
  {
    ClaimMeaning(cfg, rows, r.now, r.size, {});
    AfterBatch(cfg, rows, ClaimDue(cfg, rows, r.now, r.size, {}), r.now, r.ok)
  }

  function AfterRounds(cfg: Settings, rows: seq<Notification>, rounds: seq<Round>): (after: seq<Notification>)
    ensures |after| == |rows|
  {
    if rounds == [] then rows
    else AfterRound(cfg, AfterRounds(cfg, rows, rounds[..|rounds| - 1]), rounds[|rounds| - 1])
  }

  predicate RowsOk(cfg: Settings, rows: seq<Notification>) { forall i :: 0 <= i < |rows| ==> RowOk(cfg, rows[i]) }

  predicate Settled(rows: seq<Notification>) {
    forall i :: 0 <= i < |rows| ==> rows[i].status == Sent || Exhausted(rows[i])
  }

  /** Every retry time has passed. */
  predicate Late(rows: seq<Notification>, now: int) {
    forall i :: 0 <= i < |rows| && rows[i].nextRetry.Some? ==> rows[i].nextRetry.value <= now
  }

  predicate EachLate(cfg: Settings, rows: seq<Notification>, rounds: seq<Round>, size: nat) {
    forall k :: 0 <= k < |rounds| ==> rounds[k].size >= size && Late(AfterRounds(cfg, rows, rounds[..k]), rounds[k].now)
  }

  /** The attempts a row can still take. */
  function AttemptsLeft(cfg: Settings, n: Notification): nat {
    if n.status == Sent || n.retries >= cfg.maxRetries then 0 else cfg.maxRetries - n.retries
  }

  function Potential(cfg: Settings, rows: seq<Notification>): nat {
    if rows == [] then 0 else Potential(cfg, rows[..|rows| - 1]) + AttemptsLeft(cfg, rows[|rows| - 1])
  }

  lemma {:induction false} PotentialOrder(cfg: Settings, a: seq<Notification>, b: seq<Notification>)
    requires |a| == |b| && forall i :: 0 <= i < |a| ==> AttemptsLeft(cfg, b[i]) <= AttemptsLeft(cfg, a[i])
    ensures Potential(cfg, b) <= Potential(cfg, a)
    ensures (exists i :: 0 <= i < |a| && AttemptsLeft(cfg, b[i]) < AttemptsLeft(cfg, a[i])) ==>
      Potential(cfg, b) < Potential(cfg, a)
  {
    hide AttemptsLeft;
    if a != [] {
      var n := |a| - 1;
      PotentialOrder(cfg, a[..n], b[..n]);
      if i :| 0 <= i < |a| && AttemptsLeft(cfg, b[i]) < AttemptsLeft(cfg, a[i]) && i < n {
        assert AttemptsLeft(cfg, b[..n][i]) < AttemptsLeft(cfg, a[..n][i]);
      }
    }
  }

  /** What one round does to one row. */
  lemma RoundMeaning(cfg: Settings, rows: seq<Notification>, r: Round)
    requires RowsOk(cfg, rows)
    ensures var ids := ClaimDue(cfg, rows, r.now, r.size, {}); var after := AfterRound(cfg, rows, r);
      && RowsOk(cfg, after)
      && (forall i :: 0 <= i < |rows| && i !in ids ==> after[i] == rows[i])
      && (forall i :: i in ids ==> i < |rows| && AttemptsLeft(cfg, after[i]) < AttemptsLeft(cfg, rows[i])
                                   && (after[i].status == Sent || after[i].retries == rows[i].retries + 1))
  {
    hide ClaimDue, RetryDelay, AfterBatch;
    var ids := ClaimDue(cfg, rows, r.now, r.size, {});
    ClaimMeaning(cfg, rows, r.now, r.size, {});
    BatchMeaning(cfg, rows, ids, r.now, r.ok);
    forall i | i in ids ensures i < |rows| && Due(cfg, rows[i], r.now) { var k :| 0 <= k < |ids| && ids[k] == i; }
    forall i | i in ids ensures RowOk(cfg, AfterRound(cfg, rows, r)[i]) {
      AttemptKeepsRow(cfg, rows[i], r.now, r.ok(i));
    }
  }

  /** A late round works off some of the potential, unless everything is settled. */
  lemma RoundProgress(cfg: Settings, rows: seq<Notification>, r: Round)
    requires RowsOk(cfg, rows) && Late(rows, r.now) && r.size > 0 && cfg.maxRetries > 0
    ensures var after := AfterRound(cfg, rows, r);
      if Settled(rows) then after == rows else Potential(cfg, after) < Potential(cfg, rows)
  {
    hide ClaimDue, AfterRound, AttemptsLeft;
    var ids, after := ClaimDue(cfg, rows, r.now, r.size, {}), AfterRound(cfg, rows, r);
    RoundMeaning(cfg, rows, r);
    ClaimMeaning(cfg, rows, r.now, r.size, {});
    PotentialOrder(cfg, rows, after);
    assert |ids| > 0 ==> Due(cfg, rows[ids[0]], r.now);
    if Settled(rows) {
      assert forall i :: 0 <= i < |rows| ==> !Due(cfg, rows[i], r.now);
      assert |ids| == 0;
    } else {
      var i :| 0 <= i < |rows| && rows[i].status != Sent && !Exhausted(rows[i]);
      assert Due(cfg, rows[i], r.now);
      assert ids != [];
      assert ids[0] in ids;
    }
  }

  lemma ZeroPotentialIsSettled(cfg: Settings, rows: seq<Notification>)
    requires RowsOk(cfg, rows) && Potential(cfg, rows) == 0 && cfg.maxRetries > 0
    ensures Settled(rows)
  {
    forall i | 0 <= i < |rows| ensures AttemptsLeft(cfg, rows[i]) == 0 { PotentialOfOne(cfg, rows, i); }
  }

  lemma {:induction false} PotentialOfOne(cfg: Settings, rows: seq<Notification>, i: nat)
    requires i < |rows|
    ensures AttemptsLeft(cfg, rows[i]) <= Potential(cfg, rows)
  {
    if i < |rows| - 1 { PotentialOfOne(cfg, rows[..|rows| - 1], i); }
  }

  /** Repeated dispatch, each time past all retry times, drains the outbox: as many
      rounds as there are attempts left bring every row to SENT or exhausted. */
  lemma {:induction false} RoundsDrain(cfg: Settings, rows: seq<Notification>, rounds: seq<Round>)
    requires RowsOk(cfg, rows) && cfg.maxRetries > 0 && EachLate(cfg, rows, rounds, 1)
    ensures RowsOk(cfg, AfterRounds(cfg, rows, rounds))
    ensures var after := AfterRounds(cfg, rows, rounds);
      Settled(after) || Potential(cfg, after) + |rounds| <= Potential(cfg, rows)
    ensures |rounds| >= Potential(cfg, rows) ==> Settled(AfterRounds(cfg, rows, rounds))
  {
    hide RowsOk, Settled, Late, AfterRound, Potential;
    if rounds != [] {
      var n := |rounds| - 1;
      assert forall k :: 0 <= k < n ==> rounds[..n][..k] == rounds[..k];
      RoundsDrain(cfg, rows, rounds[..n]);
      var before := AfterRounds(cfg, rows, rounds[..n]);
      RoundMeaning(cfg, before, rounds[n]);
      RoundProgress(cfg, before, rounds[n]);
    }
    var after := AfterRounds(cfg, rows, rounds);
    if Potential(cfg, after) == 0 { ZeroPotentialIsSettled(cfg, after); }
  }

  /** With batches as large as the table, max_retries rounds are enough, whatever
      the table holds. */
  lemma {:induction false} FullRoundsDrain(cfg: Settings, rows: seq<Notification>, rounds: seq<Round>)
    requires RowsOk(cfg, rows) && cfg.maxRetries > 0 && EachLate(cfg, rows, rounds, |rows|)
    ensures RowsOk(cfg, AfterRounds(cfg, rows, rounds))
    ensures forall i :: 0 <= i < |rows| ==> var n := AfterRounds(cfg, rows, rounds)[i];
      n.status == Sent || Exhausted(n) || |rounds| <= n.retries < cfg.maxRetries
  {
    hide Late, AfterRound, ClaimDue, RetryDelay;
    if rounds != [] {
      var n := |rounds| - 1;
      assert forall k :: 0 <= k < n ==> rounds[..n][..k] == rounds[..k];
      FullRoundsDrain(cfg, rows, rounds[..n]);
      FullRound(cfg, AfterRounds(cfg, rows, rounds[..n]), rounds[n]);
    }
  }

  /** A late round with room for every row attempts every unsettled row. */
  lemma FullRound(cfg: Settings, rows: seq<Notification>, r: Round)
    requires RowsOk(cfg, rows) && Late(rows, r.now) && r.size >= |rows| && cfg.maxRetries > 0
    ensures RowsOk(cfg, AfterRound(cfg, rows, r))
    ensures forall i :: 0 <= i < |rows| ==> var n := AfterRound(cfg, rows, r)[i];
      if rows[i].status == Sent || Exhausted(rows[i]) then n == rows[i]
      else n.status == Sent || n.retries == rows[i].retries + 1
  {
    hide AfterRound, ClaimDue, AttemptsLeft;
    RoundMeaning(cfg, rows, r);
    ClaimMeaning(cfg, rows, r.now, r.size, {});
    var ids := ClaimDue(cfg, rows, r.now, r.size, {});
    forall i | 0 <= i < |rows| && i !in ids ensures |ids| < |rows| { BoundedDistinct(ids + [i], |rows|); }
    forall i | i in ids ensures i < |rows| && Due(cfg, rows[i], r.now) { var k :| 0 <= k < |ids| && ids[k] == i; }
  }

  lemma BoundedDistinct(ids: seq<nat>, n: nat)
    requires NoDuplicates(ids) && InTable(ids, n)
    ensures |ids| <= n
  {
    CardinalityOfDistinct(ids);
    CardinalityOfDistinct(Ids(n));
    var a: set<nat>, b: set<nat> := set i | i in ids, set i | i in Ids(n);
    forall i | i in a ensures i in b { assert Ids(n)[i] == i; }
    SubsetCardinality(a, b);
  }
}
