/** What the supplier ranking trades against what: relevance, price, delivery and
    confidence in the ratio 4 : 3 : 2 : 1. */
module RankingWeights {
  import opened Common
  import opened Sorting
  import opened SupplierRanking

  /** The parts of a component that counts: a missing one has none, and the others keep
      their ratio. */
  function Parts(price: Option<real>, delivery: Option<real>): real {
    5.0 + (if price.Some? then 3.0 else 0.0) + (if delivery.Some? then 2.0 else 0.0)
  }

  lemma WeightsInRatio(relevance: real, price: Option<real>, delivery: Option<real>, confidence: real)
    ensures var b := Score(relevance, price, delivery, confidence).1;
      && b.relevance == relevance && b.price == price && b.delivery == delivery && b.confidence == confidence
      && b.relevanceWeight == 4.0 * b.confidenceWeight
      && b.priceWeight == (if price.Some? then 3.0 * b.confidenceWeight else 0.0)
      && b.deliveryWeight == (if delivery.Some? then 2.0 * b.confidenceWeight else 0.0)
      && b.confidenceWeight * Parts(price, delivery) == 1.0
  {}

  /** So the score is a weighted sum in parts. */
  lemma ScoreInParts(relevance: real, price: Option<real>, delivery: Option<real>, confidence: real)
    ensures Parts(price, delivery) * Score(relevance, price, delivery, confidence).0
      == 4.0 * relevance + 3.0 * price.GetOr(0.0) + 2.0 * delivery.GetOr(0.0) + confidence
  {}

  /** More evidence never means less confidence, which steps up at 2, 4 and 7 rows. */
  lemma ConfidenceSteps(few: nat, many: nat)
    ensures few <= many ==> ConfidenceScore(few) <= ConfidenceScore(many)
    ensures few < many ==> (ConfidenceScore(few) < ConfidenceScore(many) <==>
      few < 2 <= many || few < 4 <= many || few < 7 <= many)
    ensures ConfidenceScore(few) in {40.0, 60.0, 80.0, 100.0} && ConfidenceScore(0) == 40.0
  {}

  /** The best value scores 100, and n times the best value scores 100 / n. */
  lemma RatioIsInverse(best: real, value: real)
    requires 0.0 < best <= value
    ensures RatioScore(best, value) * value == 100.0 * best && 0.0 < RatioScore(best, value) <= 100.0
    ensures RatioScore(best, best) == 100.0
  {
    RatioOfBest(best);
    RatioOfSmaller(best, value, best);
    Quotient(best, value);
  }

  /** Who is ahead in the key stands before. */
  lemma AheadStandsBefore(offers: seq<Offer>, x: nat, y: nat)
    requires OffersOk(offers) && x < |offers| && y < |offers| && Before(Rows(offers)[x], Rows(offers)[y])
    ensures Standing(offers, x) < Standing(offers, y)
  {
    hide ScoreRow, Minimum, Before, OfferOk;
    var rows := Rows(offers);
    KeyIsStrictTotal(offers);
    var ahead, behind := AheadAt(Before, rows, x), AheadAt(Before, rows, y);
    Transitive(rows, x, y);
    assert x in behind && x !in ahead by { Irreflexive(rows[x]); }
    SubsetCardinality(ahead + {x}, behind);
  }

  lemma Irreflexive(r: Row) ensures !Before(r, r) {}

  lemma Transitive(rows: seq<Row>, x: nat, y: nat)
    requires x < |rows| && y < |rows| && Before(rows[x], rows[y])
    ensures forall z :: z in AheadAt(Before, rows, x) ==> z in AheadAt(Before, rows, y)
  {
    forall z | z in AheadAt(Before, rows, x) ensures Before(rows[z], rows[y]) { Chain(rows[z], rows[x], rows[y]); }
  }

  lemma Chain(a: Row, b: Row, c: Row)
    requires Before(a, b) && Before(b, c)
    ensures Before(a, c)
  {}

  /** The trade-off: between two suppliers of equal relevance and confidence with known
      price and delivery, the one with the larger 3 * price ratio + 2 * delivery ratio
      stands before the other. */
  lemma TradeOff(offers: seq<Offer>, x: nat, y: nat)
    requires OffersOk(offers) && x < |offers| && y < |offers|
    requires var (a, b) := (Rows(offers)[x].breakdown, Rows(offers)[y].breakdown);
      && a.relevance == b.relevance && a.confidence == b.confidence
      && a.price.Some? && a.delivery.Some? && b.price.Some? && b.delivery.Some?
      && 3.0 * a.price.value + 2.0 * a.delivery.value > 3.0 * b.price.value + 2.0 * b.delivery.value
    ensures Standing(offers, x) < Standing(offers, y)
  {
    hide Minimum, Relative, ConfidenceScore, Score, Before;
    RowScore(offers, x);
    RowScore(offers, y);
    HigherScoreIsAhead(Rows(offers)[x], Rows(offers)[y]);
    AheadStandsBefore(offers, x, y);
  }

  lemma HigherScoreIsAhead(a: Row, b: Row) requires a.score > b.score ensures Before(a, b) {}

  /** Every row's score, in parts of its own breakdown. */
  lemma RowScore(offers: seq<Offer>, x: nat)
    requires OffersOk(offers) && x < |offers|
    ensures var row := Rows(offers)[x]; var b := row.breakdown;
      && row.offer == offers[x] && b.relevance == offers[x].relevance
      && b.confidence == ConfidenceScore(offers[x].evidence)
      && Parts(b.price, b.delivery) * row.score
        == 4.0 * b.relevance + 3.0 * b.price.GetOr(0.0) + 2.0 * b.delivery.GetOr(0.0) + b.confidence
  {
    hide Minimum, Relative, ConfidenceScore;
  }

  /** Ties in the score are broken by relevance, confidence, a lower known price, a
      shorter known delivery, and the supplier id, in this order. */
  lemma TieBreaks(offers: seq<Offer>, x: nat, y: nat)
    requires OffersOk(offers) && x < |offers| && y < |offers| && Rows(offers)[x].score == Rows(offers)[y].score
    ensures var (a, b, o, p) := (Rows(offers)[x].breakdown, Rows(offers)[y].breakdown, offers[x], offers[y]);
      && (a.relevance > b.relevance ==> Standing(offers, x) < Standing(offers, y))
      && (a.relevance == b.relevance ==>
            && (a.confidence > b.confidence ==> Standing(offers, x) < Standing(offers, y))
            && (a.confidence == b.confidence ==>
                  && (Sooner(o.price, p.price) ==> Standing(offers, x) < Standing(offers, y))
                  && (o.price == p.price ==>
                        && (Sooner(o.delivery, p.delivery) ==> Standing(offers, x) < Standing(offers, y))
                        && (o.delivery == p.delivery && o.supplier < p.supplier ==>
                              Standing(offers, x) < Standing(offers, y)))))
  {
    hide Minimum, ScoreRow, Standing;
    RowCarriesOffer(offers, x);
    RowCarriesOffer(offers, y);
    if Before(Rows(offers)[x], Rows(offers)[y]) { AheadStandsBefore(offers, x, y); }
  }

  /** A known value before a missing one, a lower before a higher. */
  predicate Sooner(a: Option<real>, b: Option<real>) {
    match (a, b) case (Some(v), Some(w)) => v < w case (Some(_), None) => true case _ => false
  }

  /** Cheaper by a tenth, slower by a ninth: the cheaper supplier stands first. */
  lemma CheaperBeatsFaster()
    ensures var offers := [Offer(1, 100.0, Some(100.0), Some(10.0), 7), Offer(2, 100.0, Some(110.0), Some(9.0), 7)];
      OffersOk(offers) && Standing(offers, 0) < Standing(offers, 1)
  {
    var x, y := Offer(1, 100.0, Some(100.0), Some(10.0), 7), Offer(2, 100.0, Some(110.0), Some(9.0), 7);
    var offers := [x, y];
    assert Prices(offers)[..1][..0] == [] && Deliveries(offers)[..1][..0] == [];
    assert Minimum(Prices(offers)[..1]) == Some(100.0) && Minimum(Prices(offers)) == Some(100.0);
    assert Minimum(Deliveries(offers)[..1]) == Some(10.0) && Minimum(Deliveries(offers)) == Some(9.0);
    assert RatioScore(100.0, 100.0) == 100.0 && RatioScore(9.0, 10.0) == 90.0 && RatioScore(9.0, 9.0) == 100.0;
    assert RatioScore(100.0, 110.0) < 91.0;
    hide Minimum, RatioScore, Standing;
    TradeOff(offers, 0, 1);
  }
}
