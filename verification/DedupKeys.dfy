/** The dedup key of an outbox row, "<prefix>:<action token>:<receiver id>", is
    injective although tokens may contain colons: prefixes and decimal numbers
    never do. */
module DedupKeys {
  import Workflow
  import opened Common
  import opened Procurement
  import opened Commands

  function Prefix(event: Event): string {
    match event
    case PendingReviewEvent => "REQUIREMENT_PENDING_REVIEW"
    case PendingPurchaseEvent => "REQUIREMENT_PENDING_PURCHASE"
    case PendingWarehouseEvent => "REQUIREMENT_PENDING_WAREHOUSE"
    case CompletedEvent => "COMPLETE"
  }

  function Key(n: Note): string {
    Prefix(n.event) + ":" + n.token + ":" + Decimal(n.receiver)
  }

  predicate ColonFree(s: string) { ':' !in s }

  lemma {:induction false} DecimalIsColonFree(n: nat)
    ensures ColonFree(Decimal(n)) && Decimal(n) != "" && (|Decimal(n)| == 1 <==> n < 10)
  {
    if n >= 10 { DecimalIsColonFree(n / 10); }
  }

  lemma {:induction false} DecimalInjective(a: nat, b: nat)
    requires Decimal(a) == Decimal(b)
    ensures a == b
  {
    LastDigit(a);
    LastDigit(b);
    var s := Decimal(a);
    DecimalIsColonFree(a);
    DecimalIsColonFree(b);
    if a >= 10 {
      assert s[..|s| - 1] == Decimal(a / 10);
      assert s[..|s| - 1] == Decimal(b / 10);
      DecimalInjective(a / 10, b / 10);
    }
  }

  lemma LastDigit(n: nat)
    ensures Decimal(n) != "" && Decimal(n)[|Decimal(n)| - 1] == '0' + (n % 10) as char
  {}

  /** A colon-free prefix ends at the first colon. */
  lemma FirstColon(p: string, x: string, q: string, y: string)
    requires ColonFree(p) && ColonFree(q) && p + ":" + x == q + ":" + y
    ensures p == q && x == y
  {
    var s := p + ":" + x;
    var t := q + ":" + y;
    assert s[|p|] == ':' && forall i :: 0 <= i < |p| ==> s[i] == p[i] != ':';
    assert t[|q|] == ':' && forall i :: 0 <= i < |q| ==> t[i] == q[i] != ':';
    assert |p| == |q|;
    assert p == s[..|p|] && q == t[..|q|];
    assert x == s[|p| + 1..] && y == t[|q| + 1..];
  }

  /** A colon-free suffix starts after the last colon. */
  lemma LastColon(x: string, p: string, y: string, q: string)
    requires ColonFree(p) && ColonFree(q) && x + ":" + p == y + ":" + q
    ensures p == q && x == y
  {
    var s := x + ":" + p;
    var t := y + ":" + q;
    assert s[|x|] == ':' && forall i :: |x| < i < |s| ==> s[i] == p[i - |x| - 1] != ':';
    assert t[|y|] == ':' && forall i :: |y| < i < |t| ==> t[i] == q[i - |y| - 1] != ':';
    assert |x| == |y|;
    assert x == s[..|x|] && y == t[..|y|];
    assert p == s[|x| + 1..] && q == t[|y| + 1..];
  }

  lemma PrefixesDiffer(a: Event, b: Event)
    ensures ColonFree(Prefix(a)) && (Prefix(a) == Prefix(b) ==> a == b)
  {
    assert |Prefix(PendingReviewEvent)| == 26 && |Prefix(PendingPurchaseEvent)| == 28;
    assert |Prefix(PendingWarehouseEvent)| == 29 && |Prefix(CompletedEvent)| == 8;
  }

  lemma KeyInjective(a: Note, b: Note)
    requires Key(a) == Key(b)
    ensures a == b
  {
    hide Decimal, Prefix;
    PrefixesDiffer(a.event, b.event);
    var restA, restB := a.token + ":" + Decimal(a.receiver), b.token + ":" + Decimal(b.receiver);
    assert Key(a) == Prefix(a.event) + ":" + restA && Key(b) == Prefix(b.event) + ":" + restB;
    PrefixesDiffer(b.event, a.event);
    FirstColon(Prefix(a.event), restA, Prefix(b.event), restB);
    DecimalIsColonFree(a.receiver);
    DecimalIsColonFree(b.receiver);
    LastColon(a.token, Decimal(a.receiver), b.token, Decimal(b.receiver));
    DecimalInjective(a.receiver, b.receiver);
  }

  // ----- rows one command enqueues

  predicate Ascending(s: seq<nat>) { forall i, j :: 0 <= i < j < |s| ==> s[i] < s[j] }

  lemma {:induction false} InsertAscending(x: nat, s: seq<nat>)
    requires Ascending(s)
    ensures Ascending(Insert(x, s)) && (forall y :: y in Insert(x, s) <==> y == x || y in s)
  {
    if s != [] && x > s[0] {
      InsertAscending(x, s[1..]);
      assert forall y :: y in s <==> y == s[0] || y in s[1..];
      var rest := Insert(x, s[1..]);
      forall j | 0 <= j < |rest| ensures s[0] < rest[j] { assert rest[j] in rest; }
    }
  }

  lemma ReceiversAscending(s: Aggregate)
    ensures Ascending(Receivers(s))
  {
    var one := [s.request.applicant];
    var r, e := LatestReview(s.reviews), FirstExecution(s.executions);
    if r.Some? { InsertAscending(s.reviews[r.value].reviewer, one); }
    var two := if r.Some? then Insert(s.reviews[r.value].reviewer, one) else one;
    if e.Some? { InsertAscending(s.executions[e.value].purchaser, two); }
  }

  lemma {:induction false} CompletionNotesDistinct(w: Workflow.World, receivers: seq<nat>, token: string)
    requires Ascending(receivers)
    ensures var notes := CompletionNotes(w, receivers, token);
      && NoDuplicates(notes)
      && forall n :: n in notes ==> n.token == token && n.receiver in receivers
  {
    if receivers != [] { CompletionNotesDistinct(w, receivers[1..], token); }
  }

  /** The token of a legacy receipt names its request and version. */
  lemma LegacyTokenInjective(request: nat, expected: nat, request': nat, expected': nat)
    requires LegacyToken(request, expected) == LegacyToken(request', expected')
    ensures request == request' && expected == expected'
  {
    var a, b := Decimal(request) + "-" + Decimal(expected), Decimal(request') + "-" + Decimal(expected');
    assert LegacyToken(request, expected) == "legacy-" + a && LegacyToken(request', expected') == "legacy-" + b;
    SamePrefix("legacy-", a, b);
    DecimalIsDigits(request);
    DecimalIsDigits(request');
    FirstDash(Decimal(request), Decimal(expected), Decimal(request'), Decimal(expected'));
    DecimalInjective(request, request');
    DecimalInjective(expected, expected');
  }

  lemma SamePrefix(p: string, a: string, b: string)
    requires p + a == p + b
    ensures a == b
  {
    assert (p + a)[|p|..] == a && (p + b)[|p|..] == b;
  }

  lemma {:induction false} DecimalIsDigits(n: nat)
    ensures '-' !in Decimal(n)
  {
    if n >= 10 { DecimalIsDigits(n / 10); }
  }

  lemma FirstDash(p: string, x: string, q: string, y: string)
    requires '-' !in p && '-' !in q && p + "-" + x == q + "-" + y
    ensures p == q && x == y
  {
    var s := p + "-" + x;
    var t := q + "-" + y;
    assert s[|p|] == '-' && forall i :: 0 <= i < |p| ==> s[i] == p[i] != '-';
    assert t[|q|] == '-' && forall i :: 0 <= i < |q| ==> t[i] == q[i] != '-';
    assert |p| == |q|;
    assert p == s[..|p|] && q == t[..|q|];
    assert x == s[|p| + 1..] && y == t[|q| + 1..];
  }
}
