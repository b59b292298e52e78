/** What a supplier's features and the answer of recommend_suppliers say, read off the
    evidence and the request item. */
module RecommendationFacts {
  import opened Common
  import opened Sorting
  import opened CandidatePool
  import opened Recommendation

  // ----- samples

  function PriceOf(m: Match): real { m.row.price.GetOr(0.0) }

  /** Days from purchase to receipt of a warehouse row; a day has 86400 seconds. */
  function Days(m: Match): real { (m.row.receivedAt.GetOr(m.row.purchasedAt) - m.row.purchasedAt) as real / 86400.0 }

  predicate IsPriced(m: Match) { m.row.price.Some? && m.row.price.value > 0.0 }

  predicate IsDelivered(m: Match) {
    m.row.warehouse && m.row.receivedAt.Some? && m.row.receivedAt.value > m.row.purchasedAt
  }

  /** The price samples are the positive prices of the evidence, row by row. */
  lemma {:induction false} PricesAreSamples(evidence: seq<Match>)
    ensures PricesIn(evidence) == Map(PriceOf, Filter(IsPriced, evidence))
  {
    if evidence != [] { PricesAreSamples(evidence[..|evidence| - 1]); }
  }

  /** The delivery samples are the times, in days, of the warehouse rows received after
      the purchase. */
  lemma {:induction false} DaysAreSamples(evidence: seq<Match>)
    ensures DaysIn(evidence) == Map(Days, Filter(IsDelivered, evidence))
  {
    if evidence != [] { DaysAreSamples(evidence[..|evidence| - 1]); }
  }

  /** Counts and warnings agree with the samples, and the remaining fields are those of
      the candidate. */
  lemma SummaryCounts(c: Candidate)
    requires c.core.evidence != []
    ensures var s := Summarise(c); var evidence := c.core.evidence;
      && s.features.supplier == c.core.supplier && s.features.evidence == |evidence| && s.purchases == c.purchases
      && s.priceSamples == |Filter(IsPriced, evidence)| && s.deliverySamples == |Filter(IsDelivered, evidence)|
      && (s.features.delivery.Some? <==> s.deliverySamples > 0) && (s.features.price.Some? <==> s.priceSamples > 0)
      && (NoPriceData in s.warnings <==> s.priceSamples == 0 || NoPriceData in c.core.warnings)
      && (NoDeliveryData in s.warnings <==> s.deliverySamples == 0 || NoDeliveryData in c.core.warnings)
      && (forall w :: w !in {NoPriceData, NoDeliveryData} ==> (w in s.warnings <==> w in c.core.warnings))
      && (forall m :: m in evidence ==> m.row.purchasedAt <= s.lastPurchase)
      && (exists m :: m in evidence && m.row.purchasedAt == s.lastPurchase)
  {
    hide Median, PricesIn, DaysIn, Smallest, Largest, LastPurchase, LatestPriced, Filter;
    var evidence := c.core.evidence;
    PricesAreSamples(evidence);
    DaysAreSamples(evidence);
    var t := LastPurchase(evidence);
    var k :| 0 <= k < |evidence| && evidence[k].row.purchasedAt == t;
    assert evidence[k] in evidence;
  }

  /** The median delivery time halves its samples too. */
  lemma DeliveryMedian(c: Candidate)
    requires c.core.evidence != [] && Summarise(c).features.delivery.Some?
    ensures var m, days := Summarise(c).features.delivery.value, DaysIn(c.core.evidence);
      2 * AtMost(m, days) >= |days| && 2 * AtLeast(m, days) >= |days|
  {
    hide Median, PricesIn, DaysIn, Smallest, Largest, LastPurchase, LatestPriced, AtMost, AtLeast;
    MedianHalves(DaysIn(c.core.evidence));
  }

  /** The latest price is that of a priced row after which no priced row was bought, the
      larger execution id counting as later at the same time. */
  lemma LatestPriceIsLatest(c: Candidate)
    requires c.core.evidence != [] && Summarise(c).latestPrice.Some?
    ensures exists m :: IsLatest(m, c.core.evidence) && m.row.price == Summarise(c).latestPrice
  {
    hide Median, PricesIn, DaysIn, Smallest, Largest, LastPurchase, LatestPriced;
    var evidence := c.core.evidence;
    var k := LatestPriced(evidence).value;
    assert evidence[k] in evidence && IsPriced(evidence[k]);
    assert IsLatest(evidence[k], evidence);
  }

  predicate IsLatest(m: Match, evidence: seq<Match>) {
    && m in evidence && IsPriced(m)
    && forall other :: other in evidence && IsPriced(other) ==>
      other.row.purchasedAt < m.row.purchasedAt
      || (other.row.purchasedAt == m.row.purchasedAt && other.row.execution <= m.row.execution)
  }

  // ----- the answer

  /** An item names a product by its model, or by brand and model text; then the product
      has all its fields. */
  lemma SelectionExactly(item: ItemRef)
    ensures SelectedOf(item).Some? <==>
      item.model.Some? || (item.brandKey.GetOr("") != "" && item.modelKey.GetOr("") != "")
    ensures SelectedOf(item).Some? ==> var p := SelectedOf(item).value;
      && p.category == item.category && p.model == item.model && p.nameKey == item.nameKey
      && p.brandKey == item.brandKey && p.modelKey == item.modelKey
  {}

  /** The call answers if and only if the item exists, a product is chosen or named by
      the item, and it is of the item's category; a chosen product takes precedence. */
  lemma AnswersExactly(item: Option<ItemRef>, history: seq<Evidence>, chosen: Option<Selected>, limit: nat,
                       staleBefore: int)
    ensures var r := Recommend(item, history, chosen, limit, staleBefore);
      var product := if chosen.Some? || item.None? then chosen else SelectedOf(item.value);
      && (r.Ok? <==> item.Some? && product.Some? && product.value.category == item.value.category)
      && (r.Ok? ==> r.value.selected == product.value)
      && (r == Err(RequestItemNotFound) <==> item.None?)
      && (r == Err(SelectedProductRequired) <==> item.Some? && product.None?)
      && (r == Err(SelectedProductCategoryMismatch) <==>
            item.Some? && product.Some? && product.value.category != item.value.category)
  {
    hide MatchAll, FinalPool, SelectedOf, Eligible, Rejects, StopFrom;
  }

  /** What the ranker is told about a candidate: the score of its tier, its medians, and how
      much evidence there is. */
  lemma OfferSays(c: Candidate)
    requires c.core.evidence != []
    ensures var o, s := OfferOf(c), Summarise(c);
      && o.supplier == c.core.supplier && o.evidence == |c.core.evidence|
      && o.price == s.features.price && o.delivery == s.features.delivery
      && (match c.core.level
          case ExactModel => o.relevance == 100.0
          case ExactSnapshot => o.relevance == 95.0
          case SameItem => o.relevance == 80.0
          case SameCategory => o.relevance == 60.0)
  {
    hide Median, PricesIn, DaysIn, Smallest, Largest, LastPurchase, LatestPriced;
  }

  /** Nobody in the final pool goes unmentioned for another reason than rank: whoever is
      inactive or blacklisted is listed as excluded, and of the others as many are
      recommended as the limit and five allow. */
  lemma ReportIsComplete(item: Option<ItemRef>, history: seq<Evidence>, chosen: Option<Selected>, limit: nat,
                         staleBefore: int, report: Report)
    requires Recommend(item, history, chosen, limit, staleBefore) == Ok(report)
    ensures var rows := if item.value.category.Some? then history else [];
      var pool := FinalPool(MatchAll(report.selected, rows, staleBefore));
      && |report.excluded| + |Eligible(pool)| == |pool|
      && (forall c :: c in pool && !Recommendable(c) ==> exists x :: x in report.excluded && x.core == c.core)
      && |report.recommendations| <= |Eligible(pool)|
      && (|report.recommendations| == limit || |report.recommendations| == 5
          || |report.recommendations| == |Eligible(pool)|)
  {
    hide MatchAll, Pool, Eligible, Rejects, StopFrom, SelectedOf, OfferOf, Sort, R.Rows, R.OffersOk;
    var matched := MatchAll(report.selected, if item.value.category.Some? then history else [], staleBefore);
    var t := StopFrom(matched, 0);
    FilterPartitions(matched, t);
    OffersAreOk(matched, t);
    RankedCount(Offers(Eligible(FinalPool(matched))), limit);
    forall c | c in FinalPool(matched) && !Recommendable(c)
      ensures exists x :: x in report.excluded && x.core == c.core
    {
      PoolHasExecutions(matched, t, c);
      var x := Excluded(c.core, ExclusionOf(c.core).value);
      assert x in Rejects(FinalPool(matched));
    }
  }

  lemma RankedCount(offers: seq<R.Offer>, limit: nat)
    requires R.OffersOk(offers)
    ensures var n := |R.Ranking(offers, limit)|;
      n <= |offers| && n <= limit && n <= 5 && (n == limit || n == 5 || n == |offers|)
  {
    hide R.ScoreRow, R.Minimum, R.OfferOk;
  }
}
