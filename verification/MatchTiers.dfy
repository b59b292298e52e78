/** What the candidate pool shows, read off the history: which tier a purchase matches
    at, what a candidate says about its supplier, and in which order the pool stands. */
module MatchTiers {
  import opened Common
  import opened Sorting
  import opened CandidatePool

  // ----- tiers

  predicate InCategory(want: Selected, e: Evidence) { want.category.Some? && e.category == want.category }

  predicate SameModel(want: Selected, e: Evidence) { want.model.Some? && e.model == want.model }

  predicate Equal(a: Option<string>, b: Option<string>) { a.Some? && b.Some? && a.value == b.value && a.value != "" }

  predicate SameSnapshot(want: Selected, e: Evidence) {
    Equal(want.brandKey, e.brandKey) && Equal(want.modelKey, e.modelKey)
  }

  /** The row matches at this tier and at no tighter one. */
  predicate IsAt(want: Selected, e: Evidence, level: Level) {
    match level
    case ExactModel => SameModel(want, e)
    case ExactSnapshot => SameSnapshot(want, e) && !SameModel(want, e)
    case SameItem => e.nameKey == want.nameKey && !SameSnapshot(want, e) && !SameModel(want, e)
    case SameCategory => e.nameKey != want.nameKey && !SameSnapshot(want, e) && !SameModel(want, e)
  }

  /** Exactly the rows of the category match, each at the one tier that fits. */
  lemma LevelExactly(want: Selected, e: Evidence)
    ensures MatchLevel(want, e).Some? <==> InCategory(want, e)
    ensures forall level :: MatchLevel(want, e) == Some(level) <==> InCategory(want, e) && IsAt(want, e, level)
  {}

  function RowField(m: Match): Evidence { m.row }

  /** The matched rows are the rows of the category, in order, each with its tier, and
      stale exactly if older than the window. */
  lemma {:induction false} MatchedExactly(want: Selected, history: seq<Evidence>, staleBefore: int)
    ensures var matched := MatchAll(want, history, staleBefore);
      && Map(RowField, matched) == Filter((e: Evidence) => InCategory(want, e), history)
      && forall k :: 0 <= k < |matched| ==>
        IsAt(want, matched[k].row, matched[k].level) && (matched[k].stale <==> matched[k].row.purchasedAt < staleBefore)
  {
    hide MatchLevel, IsAt;
    if history != [] {
      var n := |history| - 1;
      MatchedExactly(want, history[..n], staleBefore);
      LevelExactly(want, history[n]);
    }
  }

  /** More agreement never gives a looser tier, and some beats none. */
  lemma AgreementTightens(want: Selected, d: Evidence, e: Evidence)
    requires InCategory(want, d) && InCategory(want, e)
    requires SameModel(want, d) ==> SameModel(want, e)
    requires SameSnapshot(want, d) ==> SameSnapshot(want, e)
    requires d.nameKey == want.nameKey ==> e.nameKey == want.nameKey
    ensures MatchLevel(want, d).Some? && MatchLevel(want, e).Some?
    ensures var (a, b) := (MatchLevel(want, e).value, MatchLevel(want, d).value);
      && Tier(a) <= Tier(b) && MatchScore(a) >= MatchScore(b)
      && (!SameModel(want, d) && !SameSnapshot(want, d) && d.nameKey != want.nameKey && e.nameKey == want.nameKey ==>
            Tier(a) < Tier(b) && MatchScore(a) > MatchScore(b))
  {}

  /** The match scores fall strictly along the tiers, from 100 over 95 and 80 to 60. */
  lemma ScoresFall(a: Level, b: Level)
    ensures Tier(a) < Tier(b) <==> MatchScore(a) > MatchScore(b)
    ensures MatchScore(LevelAt(0)) == 100.0 && MatchScore(LevelAt(1)) == 95.0
    ensures MatchScore(LevelAt(2)) == 80.0 && MatchScore(LevelAt(3)) == 60.0
  {}

  // ----- candidates

  /** The evidence of a supplier: all its rows at the tightest tier it reaches. */
  ghost predicate Evidences(matched: seq<Match>, c: Core) {
    && c.evidence != []
    && (forall m :: m in c.evidence <==> m in matched && m.row.supplier == c.supplier && m.level == c.level)
    && (forall m :: m in matched && m.row.supplier == c.supplier ==> Tier(c.level) <= Tier(m.level))
  }

  /** Name, activity and blacklisting are those of the first of the latest rows. */
  predicate SpeaksFor(c: Core, k: nat) {
    && k < |c.evidence|
    && (forall j :: 0 <= j < |c.evidence| ==> c.evidence[j].row.purchasedAt <= c.evidence[k].row.purchasedAt)
    && (forall j :: 0 <= j < k ==> c.evidence[j].row.purchasedAt < c.evidence[k].row.purchasedAt)
    && c.lastPurchasedAt == c.evidence[k].row.purchasedAt && c.name == c.evidence[k].row.supplierName
    && c.active == c.evidence[k].row.active && c.blacklisted == c.evidence[k].row.blacklisted
  }

  ghost predicate Summed(c: Core) {
    && (forall i :: i in c.items <==> exists m :: m in c.evidence && m.row.item == i)
    && (forall i :: i in c.executions <==> exists m :: m in c.evidence && m.row.execution == i)
    && (forall key :: key in c.productKeys <==> exists m :: m in c.evidence && m.row.productKey == key)
    && CompatibilityNotVerified in c.warnings && NoPriceData !in c.warnings && NoDeliveryData !in c.warnings
    && (LowSampleSize in c.warnings <==> |c.evidence| == 1)
    && (StaleHistory in c.warnings <==> exists m :: m in c.evidence && m.stale)
    && c.reasons == {History(c.level)}
  }

  /** The number of rows of the supplier at one tier. */
  function CountAt(c: Candidate, level: Level): nat { if level in c.counts then c.counts[level] else 0 }

  /** One candidate for every supplier with a matched row, and what it says. */
  lemma CandidateMeaning(matched: seq<Match>, k: nat)
    requires k < |Candidates(matched)|
    ensures var c := Candidates(matched)[k];
      Evidences(matched, c.core) && Summed(c.core) && exists i :: SpeaksFor(c.core, i)
  {
    hide SuppliersOf, RowsFor, AtLevel, Latest, BestLevel, Evidences, Summed, SpeaksFor;
    var id := SuppliersOf(matched)[k];
    SuppliersSeen(matched, id);
    var rows := RowsFor(matched, id);
    CoreEvidence(matched, rows, id);
    CoreSums(rows, id);
    var i := CoreSpeaks(rows, id);
  }

  lemma CoreEvidence(matched: seq<Match>, rows: seq<Match>, id: nat)
    requires rows != [] && rows == RowsFor(matched, id)
    ensures Evidences(matched, CoreOf(rows, id))
  {
    hide Latest;
    var best := BestLevel(rows);
    var m :| m in rows && m.level == best;
    assert m in AtLevel(rows, best);
  }

  lemma CoreSums(rows: seq<Match>, id: nat)
    requires rows != []
    ensures Summed(CoreOf(rows, id))
  {
    hide BestLevel, AtLevel, Latest;
  }

  lemma CoreSpeaks(rows: seq<Match>, id: nat) returns (i: nat)
    requires rows != []
    ensures SpeaksFor(CoreOf(rows, id), i)
  {
    hide BestLevel, AtLevel, Latest;
    i := FirstLatest(CoreOf(rows, id).evidence);
  }

  lemma LatestAfter(rows: seq<Match>)
    requires |rows| > 1
    ensures var n := |rows| - 1; var before := Latest(rows[..n]);
      Latest(rows) == if rows[n].row.purchasedAt > before.row.purchasedAt then rows[n] else before
  {}

  lemma {:induction false} FirstLatest(rows: seq<Match>) returns (i: nat)
    requires rows != []
    ensures i < |rows| && Latest(rows) == rows[i]
    ensures forall j :: 0 <= j < |rows| ==> rows[j].row.purchasedAt <= rows[i].row.purchasedAt
    ensures forall j :: 0 <= j < i ==> rows[j].row.purchasedAt < rows[i].row.purchasedAt
  {
    var n := |rows| - 1;
    if n == 0 { i := 0; }
    else {
      var front := rows[..n];
      i := FirstLatest(front);
      assert forall j :: 0 <= j < n ==> front[j] == rows[j];
      LatestAfter(rows);
      hide Latest;
      if rows[n].row.purchasedAt > rows[i].row.purchasedAt { i := n; }
    }
  }

  /** The counts are those of the tiers, and they add up to the number of purchases. */
  lemma CountsAddUp(matched: seq<Match>, k: nat)
    requires k < |Candidates(matched)|
    ensures var c := Candidates(matched)[k]; var id := c.core.supplier;
      && c.purchases == |Filter((m: Match) => m.row.supplier == id, matched)|
      && (forall level :: CountAt(c, level) == |AtLevel(RowsFor(matched, id), level)|)
      && CountAt(c, ExactModel) + CountAt(c, ExactSnapshot) + CountAt(c, SameItem) + CountAt(c, SameCategory)
         == c.purchases
  {
    hide SuppliersOf, AtLevel, Latest, BestLevel, Filter;
    var id := SuppliersOf(matched)[k];
    SuppliersSeen(matched, id);
    var rows := RowsFor(matched, id);
    forall level ensures CountAt(Candidates(matched)[k], level) == |AtLevel(rows, level)| {
      if level !in (set m | m in rows :: m.level) { NoneAtLevel(rows, level); }
    }
    TiersPartition(rows);
  }

  lemma {:induction false} TiersPartition(rows: seq<Match>)
    ensures |AtLevel(rows, ExactModel)| + |AtLevel(rows, ExactSnapshot)| + |AtLevel(rows, SameItem)|
      + |AtLevel(rows, SameCategory)| == |rows|
  {
    if rows != [] { TiersPartition(rows[..|rows| - 1]); }
  }

  // ----- the order of the pool

  /** The pool stands by tier, then by the latest purchase, then by supplier. */
  lemma PoolStands(matched: seq<Match>, t: nat, j: nat, k: nat)
    requires t < 4 && j < k < |Pool(matched, t)|
    ensures var (a, b) := (Pool(matched, t)[j].core, Pool(matched, t)[k].core);
      && Tier(a.level) <= Tier(b.level)
      && (a.level == b.level ==> a.lastPurchasedAt >= b.lastPurchasedAt)
      && (a.level == b.level && a.lastPurchasedAt == b.lastPurchasedAt ==> a.supplier < b.supplier)
  {
    hide Cores, Sort, StrictTotal, Included, Pool;
    var included := Included(matched, t);
    CoresDistinct(included);
    SortOrdered(PoolBefore, Elements(Cores(included)), Cores(included));
    PoolIsTop(matched, t);
    var p := Pool(matched, t);
    assert Map(CoreField, p)[j] == p[j].core && Map(CoreField, p)[k] == p[k].core;
    assert PoolBefore(p[j].core, p[k].core);
  }

  /** The pool never exceeds 20, and the loop goes on to the next tier exactly while fewer
      than 10 suppliers are eligible and fewer than 20 pooled. */
  lemma StopsAtTen(matched: seq<Match>)
    ensures var t := StopFrom(matched, 0);
      && |Pool(matched, t)| <= 20 && |Eligible(Pool(matched, t))| <= |Pool(matched, t)|
      && (t < 3 ==> |Eligible(Pool(matched, t))| >= 10 || |Pool(matched, t)| == 20)
      && (forall u :: 0 <= u < t ==> |Eligible(Pool(matched, u))| < 10 && |Pool(matched, u)| < 20)
  {
    hide Included, Sort, Candidates, Eligible, StopFrom;
    StopIsFirst(matched, 0);
    forall u | 0 <= u < StopFrom(matched, 0) ensures |Eligible(Pool(matched, u))| < 10 && |Pool(matched, u)| < 20 {
      assert !Stops(matched, u);
    }
    FilterCounts(Pool(matched, StopFrom(matched, 0)));
  }
}
