/** SupplierRanker: weighted scores relative to the cheapest and fastest supplier,
    sorted by a long key and cut to the best five. Decimals are exact reals here. */
module SupplierRanking {
  import opened Common
  import opened Sorting

  const MAX_SUPPLIER_RECOMMENDATIONS := 5

  datatype Candidate = Candidate(supplier: nat, relevance: real)

  datatype Features = Features(supplier: nat, price: Option<real>, delivery: Option<real>, evidence: nat)

  /** A candidate together with its features. */
  datatype Offer = Offer(supplier: nat, relevance: real, price: Option<real>, delivery: Option<real>, evidence: nat)

  datatype Breakdown = Breakdown(
    relevance: real, price: Option<real>, delivery: Option<real>, confidence: real,
    relevanceWeight: real, priceWeight: real, deliveryWeight: real, confidenceWeight: real)

  datatype Row = Row(offer: Offer, score: real, breakdown: Breakdown)

  datatype Ranked = Ranked(rank: nat, row: Row)

  // ----- scores

  function ConfidenceScore(count: nat): real {
    if count >= 7 then 100.0 else if count >= 4 then 80.0 else if count >= 2 then 60.0 else 40.0
  }

  function RatioScore(minimum: real, value: real): real
    requires value > 0.0
  {
    var ratio := 100.0 * minimum / value;
    if ratio < 0.0 then 0.0 else if ratio > 100.0 then 100.0 else ratio
  }

  predicate PositiveIfKnown(value: Option<real>) { value.Some? ==> value.value > 0.0 }

  /** The smallest of the known positive values. */
  function Minimum(values: seq<Option<real>>): (m: Option<real>)
    ensures m.Some? ==> m in values && m.value > 0.0
    ensures forall k :: 0 <= k < |values| && values[k].Some? && values[k].value > 0.0 ==>
      m.Some? && m.value <= values[k].value
  {
    if values == [] then None
    else
      var n := |values| - 1;
      var m := Minimum(values[..n]);
      if values[n].Some? && values[n].value > 0.0 && (m.None? || values[n].value < m.value) then values[n] else m
  }

  function Relative(best: Option<real>, value: Option<real>): Option<real>
    requires PositiveIfKnown(value)
  {
    if best.Some? && value.Some? then Some(RatioScore(best.value, value.value)) else None
  }

  function Score(relevance: real, price: Option<real>, delivery: Option<real>, confidence: real): (real, Breakdown) {
    var wp := if price.Some? then 0.30 else 0.0;
    var wd := if delivery.Some? then 0.20 else 0.0;
    var total := 0.40 + wp + wd + 0.10;
    var score := (0.40 * relevance + wp * price.GetOr(0.0) + wd * delivery.GetOr(0.0) + 0.10 * confidence) / total;
    (score, Breakdown(relevance, price, delivery, confidence, 0.40 / total, wp / total, wd / total, 0.10 / total))
  }

  predicate OfferOk(o: Offer) {
    o.relevance in {60.0, 80.0, 95.0, 100.0} && PositiveIfKnown(o.price) && PositiveIfKnown(o.delivery)
  }

  function ScoreRow(bestPrice: Option<real>, bestDelivery: Option<real>, o: Offer): Row
    requires PositiveIfKnown(o.price) && PositiveIfKnown(o.delivery)
  {
    var price, delivery := Relative(bestPrice, o.price), Relative(bestDelivery, o.delivery);
    var (score, breakdown) := Score(o.relevance, price, delivery, ConfidenceScore(o.evidence));
    Row(o, score, breakdown)
  }

  /** The sort key, component by component; a missing price or time comes last. */
  predicate Before(a: Row, b: Row) {
    if a.score != b.score then a.score > b.score
    else if a.breakdown.relevance != b.breakdown.relevance then a.breakdown.relevance > b.breakdown.relevance
    else if a.breakdown.confidence != b.breakdown.confidence then a.breakdown.confidence > b.breakdown.confidence
    else if a.offer.price != b.offer.price then Cheaper(a.offer.price, b.offer.price)
    else if a.offer.delivery != b.offer.delivery then Cheaper(a.offer.delivery, b.offer.delivery)
    else a.offer.supplier < b.offer.supplier
  }

  predicate Cheaper(a: Option<real>, b: Option<real>) { a.Some? && (b.None? || a.value < b.value) }

  // ----- ranking

  function Prices(offers: seq<Offer>): seq<Option<real>> { Map((o: Offer) => o.price, offers) }

  function Deliveries(offers: seq<Offer>): seq<Option<real>> { Map((o: Offer) => o.delivery, offers) }

  /** The input of rank: distinct suppliers with positive medians, as
      FeatureAggregator and CandidateBuilder produce them. */
  predicate OffersOk(offers: seq<Offer>) {
    && (forall k :: 0 <= k < |offers| ==> OfferOk(offers[k]))
    && (forall j, k :: 0 <= j < k < |offers| ==> offers[j].supplier != offers[k].supplier)
  }

  function ScoreRows(bestPrice: Option<real>, bestDelivery: Option<real>, offers: seq<Offer>): (rows: seq<Row>)
    requires forall k :: 0 <= k < |offers| ==> PositiveIfKnown(offers[k].price) && PositiveIfKnown(offers[k].delivery)
    ensures |rows| == |offers| && forall k :: 0 <= k < |rows| ==>
      rows[k] == ScoreRow(bestPrice, bestDelivery, offers[k])
  {
    seq(|offers|, k requires 0 <= k < |offers| => ScoreRow(bestPrice, bestDelivery, offers[k]))
  }

  function Rows(offers: seq<Offer>): (rows: seq<Row>)
    requires OffersOk(offers)
  {
    ScoreRows(Minimum(Prices(offers)), Minimum(Deliveries(offers)), offers)
  }

  function Cut(rows: seq<Row>, limit: nat): (r: seq<Ranked>) {
    var n := if limit < MAX_SUPPLIER_RECOMMENDATIONS then limit else MAX_SUPPLIER_RECOMMENDATIONS;
    var m := if n < |rows| then n else |rows|;
    seq(m, k requires 0 <= k < m => Ranked(k + 1, rows[k]))
  }

  /** What rank returns. */
  function Ranking(offers: seq<Offer>, limit: nat): seq<Ranked>
    requires OffersOk(offers)
  {
    Cut(Sort(Before, Rows(offers)), limit)
  }

  // ----- the order

  /** The key orders rows of distinct suppliers strictly and totally. */
  lemma KeyIsStrictTotal(offers: seq<Offer>)
    requires OffersOk(offers)
    ensures var rows := Rows(offers);
      StrictTotal(Before, Elements(rows)) && Within(rows, Elements(rows)) && NoDuplicates(rows)
  {
    hide Minimum, ScoreRow, OfferOk;
    var rows := Rows(offers);
    forall x, y | x in rows && y in rows && x != y ensures Before(x, y) || Before(y, x) {
      var i :| 0 <= i < |rows| && rows[i] == x;
      var j :| 0 <= j < |rows| && rows[j] == y;
      RowCarriesOffer(offers, i);
      RowCarriesOffer(offers, j);
    }
    forall j, k | 0 <= j < k < |rows| ensures rows[j] != rows[k] {
      RowCarriesOffer(offers, j);
      RowCarriesOffer(offers, k);
    }
  }

  lemma RowCarriesOffer(offers: seq<Offer>, k: nat)
    requires OffersOk(offers) && k < |offers|
    ensures Rows(offers)[k].offer == offers[k]
  {
    hide Minimum, Score;
  }

  lemma SameMinimum(a: seq<Option<real>>, b: seq<Option<real>>)
    requires forall v :: v in a <==> v in b
    ensures Minimum(a) == Minimum(b)
  {
    hide Minimum;
    var m, n := Minimum(a), Minimum(b);
    assert m.Some? ==> m in b;
    assert n.Some? ==> n in a;
  }

  lemma SameColumns(a: seq<Offer>, b: seq<Offer>)
    requires forall o :: o in a <==> o in b
    ensures Minimum(Prices(a)) == Minimum(Prices(b)) && Minimum(Deliveries(a)) == Minimum(Deliveries(b))
  {
    hide Minimum;
    ColumnsSeen(a, b);
    ColumnsSeen(b, a);
    SameMinimum(Prices(a), Prices(b));
    SameMinimum(Deliveries(a), Deliveries(b));
  }

  lemma ColumnsSeen(a: seq<Offer>, b: seq<Offer>)
    requires forall o :: o in a ==> o in b
    ensures forall v :: v in Prices(a) ==> v in Prices(b)
    ensures forall v :: v in Deliveries(a) ==> v in Deliveries(b)
  {
    forall k | 0 <= k < |a| ensures a[k].price in Prices(b) && a[k].delivery in Deliveries(b) {
      assert a[k] in b;
      var j :| 0 <= j < |b| && b[j] == a[k];
      assert Prices(b)[j] == a[k].price && Deliveries(b)[j] == a[k].delivery;
    }
  }

  /** Input order does not matter. */
  lemma RankingIgnoresOrder(a: seq<Offer>, b: seq<Offer>, limit: nat)
    requires OffersOk(a) && OffersOk(b) && multiset(a) == multiset(b)
    ensures Ranking(a, limit) == Ranking(b, limit)
  {
    hide Sort, Minimum, ScoreRow, StrictTotal, NoDuplicates;
    SameMultisetSameElements(a, b);
    SameColumns(a, b);
    KeyIsStrictTotal(a);
    KeyIsStrictTotal(b);
    RowsSeen(a, b);
    RowsSeen(b, a);
    DistinctSameMultiset(Rows(a), Rows(b));
    SortIgnoresOrder(Before, Elements(Rows(a)), Rows(a), Rows(b));
  }

  lemma RowsSeen(a: seq<Offer>, b: seq<Offer>)
    requires OffersOk(a) && OffersOk(b) && forall o :: o in a <==> o in b
    ensures forall r :: r in Rows(a) ==> r in Rows(b)
  {
    hide Minimum, ScoreRow;
    SameColumns(a, b);
    forall k | 0 <= k < |a| ensures Rows(a)[k] in Rows(b) {
      assert a[k] in b;
      var j :| 0 <= j < |b| && b[j] == a[k];
      assert Rows(b)[j] == Rows(a)[k];
    }
  }

  /** How many suppliers are ahead of offer x. */
  ghost function Standing(offers: seq<Offer>, x: nat): nat
    requires OffersOk(offers) && x < |offers|
  {
    |AheadAt(Before, Rows(offers), x)|
  }

  /** Ranks run from 1 to min(limit, 5, n), and an offer is listed at its standing,
      exactly if that is within the cut. */
  lemma RanksAreStandings(offers: seq<Offer>, limit: nat, x: nat)
    requires OffersOk(offers) && x < |offers|
    ensures var r := Ranking(offers, limit);
      && |r| <= limit && |r| <= MAX_SUPPLIER_RECOMMENDATIONS && |r| <= |offers|
      && (|r| == limit || |r| == MAX_SUPPLIER_RECOMMENDATIONS || |r| == |offers|)
      && (forall k :: 0 <= k < |r| ==> r[k].rank == k + 1)
      && (Standing(offers, x) < |r| ==> r[Standing(offers, x)].row == Rows(offers)[x])
      && (Standing(offers, x) >= |r| ==> forall k :: 0 <= k < |r| ==> r[k].row.offer != offers[x])
  {
    hide Sort, ScoreRow, Minimum, StrictTotal, NoDuplicates, Before;
    var rows := Rows(offers);
    KeyIsStrictTotal(offers);
    SortedPosition(Before, Elements(rows), rows, x);
    SortOrdered(Before, Elements(rows), rows);
    SortedOnce(offers, x, Standing(offers, x));
  }

  /** The offer occurs nowhere else in the sorted rows. */
  lemma SortedOnce(offers: seq<Offer>, x: nat, p: nat)
    requires OffersOk(offers) && x < |offers| && p < |offers|
    requires Ordered(Before, Sort(Before, Rows(offers))) && Sort(Before, Rows(offers))[p] == Rows(offers)[x]
    ensures forall k :: 0 <= k < |offers| && k != p ==> Sort(Before, Rows(offers))[k].offer != offers[x]
  {
    hide Sort, ScoreRow, Minimum, Ordered;
    var rows := Rows(offers);
    var sorted := Sort(Before, rows);
    SameMultisetSameElements(rows, sorted);
    forall k | 0 <= k < |offers| && k != p ensures sorted[k].offer != offers[x] {
      assert sorted[k] in rows;
      var j :| 0 <= j < |rows| && rows[j] == sorted[k];
      RowCarriesOffer(offers, j);
      if sorted[k].offer == offers[x] { assert j == x; OrderedDiffer(sorted, k, p); }
    }
  }

  /** Every ranked row is the row of one of the offers. */
  lemma RankedOffer(offers: seq<Offer>, limit: nat, k: nat) returns (j: nat)
    requires OffersOk(offers) && k < |Ranking(offers, limit)|
    ensures j < |offers| && Ranking(offers, limit)[k].row.offer == offers[j]
  {
    hide Sort, ScoreRow, Minimum, Before;
    var rows := Rows(offers);
    SameMultisetSameElements(rows, Sort(Before, rows));
    assert Ranking(offers, limit)[k].row in Sort(Before, rows);
    j :| 0 <= j < |rows| && rows[j] == Ranking(offers, limit)[k].row;
    RowCarriesOffer(offers, j);
  }

  lemma OrderedDiffer(s: seq<Row>, k: nat, p: nat)
    requires Ordered(Before, s) && k < |s| && p < |s| && k != p
    ensures s[k] != s[p]
  {
    assert if k < p then Before(s[k], s[p]) else Before(s[p], s[k]);
  }

  // ----- bounds

  /** The effective weights sum to 1, and the score is their combination of the
      components. */
  lemma ScoreIsConvex(relevance: real, price: Option<real>, delivery: Option<real>, confidence: real)
    ensures var (score, b) := Score(relevance, price, delivery, confidence);
      && b.relevanceWeight + b.priceWeight + b.deliveryWeight + b.confidenceWeight == 1.0
      && b.relevanceWeight > 0.0 && b.priceWeight >= 0.0 && b.deliveryWeight >= 0.0 && b.confidenceWeight > 0.0
      && score == b.relevanceWeight * relevance + b.priceWeight * price.GetOr(0.0)
                  + b.deliveryWeight * delivery.GetOr(0.0) + b.confidenceWeight * confidence
  {}

  /** Every score is at most 100, above 28 when a price or a delivery time counts,
      and at least 56 when neither does. */
  lemma ScoreBounds(offers: seq<Offer>, x: nat)
    requires OffersOk(offers) && x < |offers|
    ensures var row := Rows(offers)[x];
      && row.score <= 100.0
      && (row.breakdown.price.Some? || row.breakdown.delivery.Some? ==> row.score > 28.0)
      && (row.breakdown.price.None? && row.breakdown.delivery.None? ==> row.score >= 56.0)
  {
    hide Minimum;
    var o := offers[x];
    RelativeRange(Minimum(Prices(offers)), o.price);
    RelativeRange(Minimum(Deliveries(offers)), o.delivery);
  }

  lemma RelativeRange(best: Option<real>, value: Option<real>)
    requires PositiveIfKnown(value) && PositiveIfKnown(best)
    ensures Relative(best, value).Some? ==> 0.0 < Relative(best, value).value <= 100.0
  {
    if best.Some? && value.Some? { Quotient(best.value, value.value); }
  }

  lemma Quotient(m: real, v: real)
    requires m > 0.0 && v > 0.0
    ensures 100.0 * m / v > 0.0
  {}

  // ----- one supplier improves

  lemma RatioMonotone(m: real, n: real, v: real)
    requires m <= n && v > 0.0
    ensures RatioScore(m, v) <= RatioScore(n, v)
  {
    assert 100.0 * m / v <= 100.0 * n / v;
  }

  lemma RatioOfSmaller(m: real, v: real, w: real)
    requires 0.0 < m && 0.0 < w <= v
    ensures RatioScore(m, v) <= RatioScore(m, w)
  {
    assert 100.0 * m / v <= 100.0 * m / w by {
      var q := 100.0 * m / v;
      assert q * v == 100.0 * m && q > 0.0;
      assert q * w <= q * v;
    }
  }

  lemma RatioOfBest(v: real)
    requires v > 0.0
    ensures RatioScore(v, v) == 100.0
  {
    assert 100.0 * v / v == 100.0;
  }

  /** Lowering values[x] makes it the minimum or leaves the minimum alone. */
  lemma MinimumAfter(values: seq<Option<real>>, x: nat, better: real)
    requires x < |values| && values[x].Some? && 0.0 < better < values[x].value
    ensures var m, n := Minimum(values), Minimum(values[x := Some(better)]);
      && m.Some? && n.Some? && 0.0 < n.value <= m.value <= values[x].value
      && (n.value == better || (n == m && m.value <= better))
  {
    hide Minimum;
    var after := values[x := Some(better)];
    var m, n := Minimum(values), Minimum(after);
    assert after[x] == Some(better);
    var i :| 0 <= i < |values| && values[i] == m;
    assert i != x ==> after[i] == m;
    var j :| 0 <= j < |after| && after[j] == n;
    assert j != x ==> values[j] == n;
  }

  /** When one positive value is lowered, its own ratio score does not fall and no
      other one rises, although all are relative to the same minimum. */
  lemma RatiosAfterImprovement(values: seq<Option<real>>, x: nat, better: real, y: nat)
    requires x < |values| && values[x].Some? && 0.0 < better < values[x].value
    requires y < |values| && y != x && PositiveIfKnown(values[y])
    ensures var m, n := Minimum(values), Minimum(values[x := Some(better)]);
      && m.Some? && n.Some? && Relative(m, values[x]).value <= Relative(n, Some(better)).value
      && (values[y].Some? ==> Relative(n, values[y]).value <= Relative(m, values[y]).value)
  {
    hide Minimum, RatioScore;
    MinimumAfter(values, x, better);
    var m, n := Minimum(values), Minimum(values[x := Some(better)]);
    if values[y].Some? { RatioMonotone(n.value, m.value, values[y].value); }
    if n.value == better {
      RatioOfBest(better);
      RatioOfBest(values[x].value);
      RatioMonotone(m.value, values[x].value, values[x].value);
    } else {
      RatioOfSmaller(m.value, values[x].value, better);
    }
  }

  /** With the same components present, better components give a better score. */
  lemma ScoreMonotone(relevance: real, p: Option<real>, q: Option<real>, d: Option<real>, e: Option<real>,
                      confidence: real)
    requires p.Some? == q.Some? && d.Some? == e.Some?
    requires p.Some? ==> p.value <= q.value
    requires d.Some? ==> d.value <= e.value
    ensures Score(relevance, p, d, confidence).0 <= Score(relevance, q, e, confidence).0
  {}

  /** Supplier x asks a lower median price, everything else being equal. */
  predicate PriceDrop(offers: seq<Offer>, x: nat, better: real, after: seq<Offer>) {
    && OffersOk(offers) && x < |offers| && offers[x].price.Some? && 0.0 < better < offers[x].price.value
    && after == offers[x := offers[x].(price := Some(better))]
  }

  /** Supplier x delivers faster, everything else being equal. */
  predicate DeliveryDrop(offers: seq<Offer>, x: nat, better: real, after: seq<Offer>) {
    && OffersOk(offers) && x < |offers| && offers[x].delivery.Some? && 0.0 < better < offers[x].delivery.value
    && after == offers[x := offers[x].(delivery := Some(better))]
  }

  predicate Improvement(offers: seq<Offer>, x: nat, better: real, after: seq<Offer>) {
    PriceDrop(offers, x, better, after) || DeliveryDrop(offers, x, better, after)
  }

  lemma ImprovedOffersOk(offers: seq<Offer>, x: nat, better: real, after: seq<Offer>)
    requires Improvement(offers, x, better, after)
    ensures OffersOk(offers) && x < |offers| && OffersOk(after) && |after| == |offers|
  {
    assert forall k :: 0 <= k < |offers| ==> OfferOk(offers[k]) && after[k].supplier == offers[k].supplier;
    assert forall k :: 0 <= k < |offers| && k != x ==> after[k] == offers[k];
  }

  /** The columns that an improvement leaves alone, and the one it changes. */
  lemma ColumnsAfter(offers: seq<Offer>, x: nat, better: real, after: seq<Offer>)
    requires Improvement(offers, x, better, after)
    ensures PriceDrop(offers, x, better, after) ==>
      Prices(after) == Prices(offers)[x := Some(better)] && Deliveries(after) == Deliveries(offers)
    ensures DeliveryDrop(offers, x, better, after) ==>
      Deliveries(after) == Deliveries(offers)[x := Some(better)] && Prices(after) == Prices(offers)
  {}

  /** x's score does not fall; another supplier's does not rise. */
  lemma ScoresAfterImprovement(offers: seq<Offer>, x: nat, better: real, after: seq<Offer>, y: nat)
    requires Improvement(offers, x, better, after) && y < |offers| && y != x
    requires OffersOk(after)
    ensures Rows(offers)[x].score <= Rows(after)[x].score && Rows(after)[y].score <= Rows(offers)[y].score
  {
    hide Minimum, Relative, Score, ConfidenceScore;
    ColumnsAfter(offers, x, better, after);
    var o, y0 := offers[x], offers[y];
    var mp, np := Minimum(Prices(offers)), Minimum(Prices(after));
    var md, nd := Minimum(Deliveries(offers)), Minimum(Deliveries(after));
    RelativeKnown(mp, np, Prices(offers), Prices(after), x, y);
    RelativeKnown(md, nd, Deliveries(offers), Deliveries(after), x, y);
    if PriceDrop(offers, x, better, after) { RatiosAfterImprovement(Prices(offers), x, better, y); }
    if DeliveryDrop(offers, x, better, after) { RatiosAfterImprovement(Deliveries(offers), x, better, y); }
    ScoreMonotone(o.relevance, Relative(mp, o.price), Relative(np, after[x].price),
                  Relative(md, o.delivery), Relative(nd, after[x].delivery), ConfidenceScore(o.evidence));
    ScoreMonotone(y0.relevance, Relative(np, y0.price), Relative(mp, y0.price),
                  Relative(nd, y0.delivery), Relative(md, y0.delivery), ConfidenceScore(y0.evidence));
  }

  /** A known positive value has a ratio score, whoever else is in the list. */
  lemma RelativeKnown(m: Option<real>, n: Option<real>, values: seq<Option<real>>, after: seq<Option<real>>, x: nat,
                      y: nat)
    requires m == Minimum(values) && n == Minimum(after) && |after| == |values| && x < |values| && y < |values|
    requires PositiveIfKnown(values[x]) && PositiveIfKnown(after[x]) && PositiveIfKnown(values[y]) &&
      after[y] == values[y]
    ensures Relative(m, values[x]).Some? <==> values[x].Some?
    ensures Relative(n, after[x]).Some? <==> after[x].Some?
    ensures Relative(m, values[y]).Some? <==> values[y].Some?
    ensures Relative(n, values[y]).Some? <==> values[y].Some?
  {
    hide Minimum;
  }

  /** Nobody who was behind x overtakes it. */
  lemma NobodyOvertakes(offers: seq<Offer>, x: nat, better: real, after: seq<Offer>, y: nat)
    requires Improvement(offers, x, better, after) && y < |offers| && y != x
    requires OffersOk(after) && Before(Rows(offers)[x], Rows(offers)[y])
    ensures Before(Rows(after)[x], Rows(after)[y])
  {
    hide Minimum, Relative, ConfidenceScore;
    ScoresAfterImprovement(offers, x, better, after, y);
  }

  /** Rank monotonicity: a lower median price or delivery time never worsens the
      supplier's standing. */
  lemma ImprovementNeverHurts(offers: seq<Offer>, x: nat, better: real, after: seq<Offer>)
    requires Improvement(offers, x, better, after)
    ensures OffersOk(after) && Standing(after, x) <= Standing(offers, x)
  {
    hide Minimum, Before, ScoreRow, Improvement;
    ImprovedOffersOk(offers, x, better, after);
    KeyIsStrictTotal(offers);
    KeyIsStrictTotal(after);
    var rows, rows' := Rows(offers), Rows(after);
    forall y | y in AheadAt(Before, rows', x) ensures y in AheadAt(Before, rows, x) {
      assert y != x;
      if !Before(rows[y], rows[x]) { NobodyOvertakes(offers, x, better, after, y); assert false; }
    }
    SubsetCardinality(AheadAt(Before, rows', x), AheadAt(Before, rows, x));
  }

  // ----- units of money

  function Times(factor: real, amount: real): real { factor * amount }

  function Scaled(value: Option<real>, factor: real): Option<real> {
    if value.Some? then Some(Times(factor, value.value)) else None
  }

  function ScaleOffer(o: Offer, factor: real): Offer { o.(price := Scaled(o.price, factor)) }

  function ScalePrices(offers: seq<Offer>, factor: real): (r: seq<Offer>)
    ensures |r| == |offers| && forall k :: 0 <= k < |r| ==> r[k] == ScaleOffer(offers[k], factor)
  {
    seq(|offers|, k requires 0 <= k < |offers| => ScaleOffer(offers[k], factor))
  }

  lemma {:induction false} MinimumScales(values: seq<Option<real>>, scaled: seq<Option<real>>, factor: real)
    requires factor > 0.0 && |scaled| == |values|
    requires forall k :: 0 <= k < |values| ==> scaled[k] == Scaled(values[k], factor)
    ensures Minimum(scaled) == Scaled(Minimum(values), factor)
  {
    hide Times;
    if values != [] {
      var n := |values| - 1;
      MinimumScales(values[..n], scaled[..n], factor);
      var m := Minimum(values[..n]);
      if values[n].Some? {
        ProductSign(factor, values[n].value);
        if m.Some? { ProductOrder(factor, values[n].value, m.value); }
      }
    }
  }

  lemma ProductOrder(factor: real, a: real, b: real)
    requires factor > 0.0
    ensures a < b <==> Times(factor, a) < Times(factor, b)
  {
    assert factor * (b - a) == factor * b - factor * a;
  }

  lemma ProductSign(factor: real, a: real)
    requires factor > 0.0
    ensures a > 0.0 <==> Times(factor, a) > 0.0
  {}

  lemma RatioScales(m: real, v: real, factor: real)
    requires v > 0.0 && factor > 0.0
    ensures Times(factor, v) > 0.0 && RatioScore(Times(factor, m), Times(factor, v)) == RatioScore(m, v)
  {
    assert 100.0 * (factor * m) / (factor * v) == 100.0 * m / v by {
      var q := 100.0 * m / v;
      assert q * v == 100.0 * m;
      assert q * (factor * v) == factor * (q * v) == 100.0 * (factor * m);
    }
  }

  /** Scaling all prices by one positive factor changes no score. */
  lemma ScalingKeepsScores(offers: seq<Offer>, factor: real, x: nat)
    requires OffersOk(offers) && factor > 0.0 && x < |offers| && OffersOk(ScalePrices(offers, factor))
    ensures var a, b := Rows(offers)[x], Rows(ScalePrices(offers, factor))[x];
      b.offer == ScaleOffer(a.offer, factor) && b.score == a.score && b.breakdown == a.breakdown
  {
    hide Minimum, RatioScore, ConfidenceScore, Score, Times;
    var scaled := ScalePrices(offers, factor);
    MinimumScales(Prices(offers), Prices(scaled), factor);
    assert Deliveries(scaled) == Deliveries(offers);
    assert scaled[x].evidence == offers[x].evidence && scaled[x].relevance == offers[x].relevance;
    var m, v := Minimum(Prices(offers)), offers[x].price;
    if m.Some? && v.Some? { RatioScales(m.value, v.value, factor); }
  }

  lemma ScaledOffersOk(offers: seq<Offer>, factor: real)
    requires OffersOk(offers) && factor > 0.0
    ensures OffersOk(ScalePrices(offers, factor))
  {
    hide Times;
    forall k | 0 <= k < |offers| ensures OfferOk(ScaleOffer(offers[k], factor)) {
      if offers[k].price.Some? { ProductSign(factor, offers[k].price.value); }
    }
  }

  /** Nor any standing: the currency unit is irrelevant. */
  lemma ScalingKeepsStandings(offers: seq<Offer>, factor: real, x: nat)
    requires OffersOk(offers) && factor > 0.0 && x < |offers|
    ensures OffersOk(ScalePrices(offers, factor))
    ensures Standing(ScalePrices(offers, factor), x) == Standing(offers, x)
  {
    hide Minimum, ScoreRow, OfferOk, Before, Times, OffersOk, ScaleOffer;
    ScaledOffersOk(offers, factor);
    var scaled := ScalePrices(offers, factor);
    var rows, rows' := Rows(offers), Rows(scaled);
    forall y | 0 <= y < |offers| ensures Before(rows'[y], rows'[x]) == Before(rows[y], rows[x]) {
      ScalingKeepsScores(offers, factor, x);
      ScalingKeepsScores(offers, factor, y);
      ScaledRowsCompare(rows[y], rows[x], rows'[y], rows'[x], factor);
    }
    assert AheadAt(Before, rows', x) == AheadAt(Before, rows, x);
  }

  lemma ScaledRowsCompare(a: Row, b: Row, a': Row, b': Row, factor: real)
    requires factor > 0.0
    requires a' == a.(offer := ScaleOffer(a.offer, factor)) && b' == b.(offer := ScaleOffer(b.offer, factor))
    ensures Before(a', b') == Before(a, b)
  {
    hide Times;
    SameOrderScaled(a.offer.price, b.offer.price, factor);
  }

  lemma SameOrderScaled(a: Option<real>, b: Option<real>, factor: real)
    requires factor > 0.0
    ensures Scaled(a, factor) == Scaled(b, factor) <==> a == b
    ensures Cheaper(Scaled(a, factor), Scaled(b, factor)) <==> Cheaper(a, b)
  {
    hide Times;
    if a.Some? && b.Some? {
      ProductOrder(factor, a.value, b.value);
      ProductOrder(factor, b.value, a.value);
    }
  }

  // ----- the ranker

  function FeaturesOf(features: seq<Features>, supplier: nat): (f: Option<Features>)
    ensures f.Some? ==> f.value in features && f.value.supplier == supplier
    ensures f.None? ==> forall k :: 0 <= k < |features| ==> features[k].supplier != supplier
  {
    if features == [] then None
    else
      var n := |features| - 1;
      if features[n].supplier == supplier then Some(features[n]) else FeaturesOf(features[..n], supplier)
  }

  function Join(c: Candidate, f: Features): Offer { Offer(c.supplier, c.relevance, f.price, f.delivery, f.evidence) }

  predicate Covered(candidates: seq<Candidate>, features: seq<Features>) {
    forall k :: 0 <= k < |candidates| ==> FeaturesOf(features, candidates[k].supplier).Some?
  }

  function OfferOf(c: Candidate, features: seq<Features>): Offer
    requires FeaturesOf(features, c.supplier).Some?
  {
    Join(c, FeaturesOf(features, c.supplier).value)
  }

  function OffersOf(candidates: seq<Candidate>, features: seq<Features>): (r: seq<Offer>)
    requires Covered(candidates, features)
    ensures |r| == |candidates|
    ensures forall k :: 0 <= k < |r| ==> r[k] == OfferOf(candidates[k], features)
  {
    seq(|candidates|, k requires 0 <= k < |candidates| => OfferOf(candidates[k], features))
  }

  predicate MediansPositive(features: seq<Features>) {
    forall k :: 0 <= k < |features| ==> PositiveIfKnown(features[k].price) && PositiveIfKnown(features[k].delivery)
  }

  /** With one feature record per candidate, each candidate finds its own. */
  lemma AlignedOffers(candidates: seq<Candidate>, features: seq<Features>)
    requires |features| == |candidates|
    requires forall k :: 0 <= k < |candidates| ==> features[k].supplier == candidates[k].supplier
    requires forall i, j :: 0 <= i < j < |features| ==> features[i].supplier != features[j].supplier
    ensures Covered(candidates, features)
    ensures forall k :: 0 <= k < |candidates| ==>
      OffersOf(candidates, features)[k] == Join(candidates[k], features[k])
  {
    hide FeaturesOf;
    forall k | 0 <= k < |candidates| ensures FeaturesOf(features, candidates[k].supplier) == Some(features[k]) {
      FeaturesOfDistinct(features, k);
    }
  }

  /** rank, as written: the two minima are taken over the features, and each
      candidate's features are looked up by supplier. */
  function RankedBy(candidates: seq<Candidate>, features: seq<Features>, limit: nat): seq<Ranked>
    requires Covered(candidates, features) && MediansPositive(features)
  {
    Cut(Sort(Before, ScoreRows(Minimum(MedianPrices(features)), Minimum(MedianDeliveries(features)),
                               OffersOf(candidates, features))), limit)
  }

  function MedianPrices(features: seq<Features>): seq<Option<real>> { Map((f: Features) => f.price, features) }

  function MedianDeliveries(features: seq<Features>): seq<Option<real>> { Map((f: Features) => f.delivery, features) }

  lemma {:induction false} FeaturesOfDistinct(features: seq<Features>, k: nat)
    requires k < |features|
    requires forall i, j :: 0 <= i < j < |features| ==> features[i].supplier != features[j].supplier
    ensures FeaturesOf(features, features[k].supplier) == Some(features[k])
  {
    var n := |features| - 1;
    if k < n {
      assert features[..n][k] == features[k];
      FeaturesOfDistinct(features[..n], k);
    }
  }

  /** Called with one feature record per candidate, as recommend_suppliers does, it
      is the ranking of the joined offers. */
  lemma RankedByIsRanking(candidates: seq<Candidate>, features: seq<Features>, limit: nat)
    requires |features| == |candidates|
    requires forall k :: 0 <= k < |candidates| ==> features[k].supplier == candidates[k].supplier
    requires Covered(candidates, features) && MediansPositive(features) && OffersOk(OffersOf(candidates, features))
    ensures RankedBy(candidates, features, limit) == Ranking(OffersOf(candidates, features), limit)
  {
    hide Minimum, Sort, ScoreRow, FeaturesOf, OfferOk, MediansPositive, Cut, Before, Covered;
    var offers := OffersOf(candidates, features);
    assert forall k :: 0 <= k < |offers| ==> offers[k].supplier == features[k].supplier;
    forall k | 0 <= k < |offers|
      ensures features[k].price == offers[k].price && features[k].delivery == offers[k].delivery
    {
      FeaturesOfDistinct(features, k);
    }
    assert Prices(offers) == MedianPrices(features) && Deliveries(offers) == MedianDeliveries(features);
  }

  /** SupplierRanker.rank. Positive medians are what FeatureAggregator delivers;
      a candidate without features would be a KeyError. */
  method Rank(candidates: seq<Candidate>, features: seq<Features>, limit: nat) returns (ranked: seq<Ranked>)
    requires Covered(candidates, features) && MediansPositive(features)
    ensures ranked == RankedBy(candidates, features, limit)
  {
    hide Sort, ScoreRow, Before, Cut, FeaturesOf;
    var byId, prices, deliveries := IndexFeatures(features);
    var bestPrice, bestDelivery := Minimum(prices), Minimum(deliveries);
    ghost var rows := ScoreRows(bestPrice, bestDelivery, OffersOf(candidates, features));
    var scored: seq<Row> := [];
    for k := 0 to |candidates|
      invariant scored == rows[..k]
    {
      var c := candidates[k];
      scored := scored + [ScoreRow(bestPrice, bestDelivery, Join(c, byId[c.supplier]))];
    }
    assert scored == rows;
    ranked := Cut(Sort(Before, scored), limit);
  }

  /** by_id and the two columns the minima are taken from. */
  method IndexFeatures(features: seq<Features>)
      returns (byId: map<nat, Features>, prices: seq<Option<real>>, deliveries: seq<Option<real>>)
    ensures prices == MedianPrices(features) && deliveries == MedianDeliveries(features)
    ensures forall id :: id in byId <==> FeaturesOf(features, id).Some?
    ensures forall id :: id in byId ==> Some(byId[id]) == FeaturesOf(features, id)
  {
    byId, prices, deliveries := map[], [], [];
    for k := 0 to |features|
      invariant prices == MedianPrices(features[..k]) && deliveries == MedianDeliveries(features[..k])
      invariant forall id :: id in byId <==> FeaturesOf(features[..k], id).Some?
      invariant forall id :: id in byId ==> Some(byId[id]) == FeaturesOf(features[..k], id)
    {
      assert features[..k + 1][..k] == features[..k];
      byId := byId[features[k].supplier := features[k]];
      prices := prices + [features[k].price];
      deliveries := deliveries + [features[k].delivery];
    }
    assert features[..|features|] == features;
  }
}
