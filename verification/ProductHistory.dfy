/** One product candidate and its scores: the labels CandidateBuilder.products puts
    on a group of purchases agree with the scores ProductRanker computes later. */
module ProductHistory {
  import opened Calendar

  const HISTORY_WINDOW_MONTHS := 24

  datatype Purchase = Purchase(at: Moment, relevance: real, supplier: nat, active: bool, blacklisted: bool)

  datatype Label =
    | StrongHistory | RecentHistory | MultipleActiveSuppliers
    | StaleHistory | NoActiveSupplier | CompatibilityNotVerified

  datatype Product = Product(
    relevance: real, purchases: nat, last: Moment, activeSuppliers: set<nat>, labels: set<Label>)

  predicate Stale(p: Purchase, now: Moment) { Earlier(p.at, MonthsBefore(now, HISTORY_WINDOW_MONTHS)) }

  /** max(rows, key=purchased_at): the first of the latest. */
  function Latest(rows: seq<Purchase>): (p: Purchase)
    requires rows != []
  {
    var n := |rows| - 1;
    if n == 0 then rows[0]
    else
      var before := Latest(rows[..n]);
      if Earlier(before.at, rows[n].at) then rows[n] else before
  }

  lemma {:induction false} LatestIsLatest(rows: seq<Purchase>)
    requires rows != []
    ensures Latest(rows) in rows && forall p :: p in rows ==> NotAfter(p.at, Latest(rows).at)
  {
    var n := |rows| - 1;
    assert rows == rows[..n] + [rows[n]];
    if n > 0 {
      LatestIsLatest(rows[..n]);
      var before := Latest(rows[..n]);
      forall p | p in rows ensures NotAfter(p.at, Latest(rows).at) {
        OrderIsTotal(p.at, before.at, rows[n].at);
        OrderIsTotal(before.at, rows[n].at, p.at);
      }
    }
  }

  function BestRelevance(rows: seq<Purchase>): (r: real)
    requires rows != []
    ensures exists k :: 0 <= k < |rows| && rows[k].relevance == r
    ensures forall k :: 0 <= k < |rows| ==> rows[k].relevance <= r
  {
    var n := |rows| - 1;
    if n == 0 then rows[0].relevance
    else
      var before := BestRelevance(rows[..n]);
      if rows[n].relevance > before then rows[n].relevance else before
  }

  function ActiveSuppliers(rows: seq<Purchase>): set<nat> {
    set p | p in rows && p.active && !p.blacklisted :: p.supplier
  }

  /** The candidate built from one group of purchases. */
  function ProductOf(rows: seq<Purchase>, now: Moment): Product
    requires rows != []
  {
    var active := ActiveSuppliers(rows);
    Product(BestRelevance(rows), |rows|, Latest(rows).at, active,
            set l | l in ALL_LABELS && Earned(l, rows, active, now))
  }

  const ALL_LABELS :=
    {StrongHistory, RecentHistory, MultipleActiveSuppliers, StaleHistory, NoActiveSupplier, CompatibilityNotVerified}

  predicate Earned(l: Label, rows: seq<Purchase>, active: set<nat>, now: Moment) {
    match l
    case CompatibilityNotVerified => true
    case StaleHistory => exists p :: p in rows && Stale(p, now)
    case NoActiveSupplier => active == {}
    case StrongHistory => |rows| >= 4
    case RecentHistory => exists p :: p in rows && !Stale(p, now)
    case MultipleActiveSuppliers => |active| >= 2
  }

  function FrequencyScore(count: nat): real {
    if count >= 7 then 100.0 else if count >= 4 then 80.0 else if count >= 2 then 60.0 else 40.0
  }

  function CoverageScore(count: nat): real {
    if count >= 3 then 100.0 else if count == 2 then 70.0 else if count == 1 then 40.0 else 0.0
  }

  function ProductScore(p: Product, now: Moment): real {
    0.50 * p.relevance + 0.20 * FrequencyScore(p.purchases) + 0.15 * RecencyScore(p.last, now)
    + 0.15 * CoverageScore(|p.activeSuppliers|)
  }

  /** "Recent history", "the latest purchase is not stale" and "recency score at
      least 60" are the same thing. */
  lemma RecentThreeWays(rows: seq<Purchase>, now: Moment)
    requires rows != [] && Valid(now)
    ensures var p := ProductOf(rows, now);
      && (RecentHistory in p.labels <==> !Stale(Latest(rows), now))
      && (RecentHistory in p.labels <==> RecencyScore(p.last, now) >= 60.0)
  {
    hide Latest, MonthsBefore, BestRelevance;
    LatestIsLatest(rows);
    ScoreIsWindow(Latest(rows).at, now);
    var window := MonthsBefore(now, HISTORY_WINDOW_MONTHS);
    forall p | p in rows && !Stale(p, now) ensures !Stale(Latest(rows), now) {
      OrderIsTotal(window, p.at, Latest(rows).at);
    }
  }

  /** The other labels, too, are thresholds on the scores. */
  lemma LabelsAreThresholds(rows: seq<Purchase>, now: Moment)
    requires rows != []
    ensures var p := ProductOf(rows, now);
      && (StrongHistory in p.labels <==> FrequencyScore(p.purchases) >= 80.0)
      && (MultipleActiveSuppliers in p.labels <==> CoverageScore(|p.activeSuppliers|) >= 70.0)
      && (NoActiveSupplier in p.labels <==> CoverageScore(|p.activeSuppliers|) == 0.0)
  {
    hide Latest, MonthsBefore, BestRelevance, Stale, ActiveSuppliers;
    var active := ActiveSuppliers(rows);
    assert active == {} <==> |active| == 0;
  }

  /** Every product scores between 44 and 100; one with strong and recent history
      and several active suppliers at least 65.5. */
  lemma ProductScoreBounds(rows: seq<Purchase>, now: Moment)
    requires rows != [] && Valid(now)
    requires forall k :: 0 <= k < |rows| ==> 60.0 <= rows[k].relevance <= 100.0
    ensures var p := ProductOf(rows, now);
      && 44.0 <= ProductScore(p, now) <= 100.0
      && ({StrongHistory, RecentHistory, MultipleActiveSuppliers} <= p.labels ==> ProductScore(p, now) >= 65.5)
  {
    hide ProductOf, RecencyScore;
    RecentThreeWays(rows, now);
    LabelsAreThresholds(rows, now);
    RecencyRange(ProductOf(rows, now).last, now);
    RelevanceRange(rows, now);
  }

  lemma RelevanceRange(rows: seq<Purchase>, now: Moment)
    requires rows != [] && forall k :: 0 <= k < |rows| ==> 60.0 <= rows[k].relevance <= 100.0
    ensures 60.0 <= ProductOf(rows, now).relevance <= 100.0
  {
    hide BestRelevance, Latest, Stale, ActiveSuppliers;
  }

  lemma RecencyRange(last: Moment, now: Moment)
    ensures 40.0 <= RecencyScore(last, now) <= 100.0
  {}

  /** Relevance, frequency, recency and coverage count in the ratio 10 : 4 : 3 : 3. */
  lemma ScoreInParts(p: Product, now: Moment)
    ensures 20.0 * ProductScore(p, now) == 10.0 * p.relevance + 4.0 * FrequencyScore(p.purchases)
      + 3.0 * RecencyScore(p.last, now) + 3.0 * CoverageScore(|p.activeSuppliers|)
  {
    hide RecencyScore;
  }

  /** Frequency steps up at 2, 4 and 7 purchases, coverage at 1, 2 and 3 suppliers. */
  lemma ScoresStep(few: nat, many: nat)
    requires few < many
    ensures FrequencyScore(few) <= FrequencyScore(many) && CoverageScore(few) <= CoverageScore(many)
    ensures FrequencyScore(few) < FrequencyScore(many) <==> few < 2 <= many || few < 4 <= many || few < 7 <= many
    ensures CoverageScore(few) < CoverageScore(many) <==> few < 3
    ensures FrequencyScore(few) in {40.0, 60.0, 80.0, 100.0} && FrequencyScore(1) == 40.0
    ensures CoverageScore(0) == 0.0 && CoverageScore(1) == 40.0 && CoverageScore(2) == 70.0 && CoverageScore(3) == 100.0
  {}
}
