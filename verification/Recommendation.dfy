/** recommend_suppliers from end to end: the selected product, the candidate pool,
    the features of each eligible supplier, and the ranking. */
module Recommendation {
  import opened Common
  import opened Sorting
  import opened CandidatePool
  import R = SupplierRanking

  // ----- features

  predicate Less(a: real, b: real) { a < b }

  /** statistics.median */
  function Median(values: seq<real>): real
    requires values != []
  {
    Middle(Sort(Less, values))
  }

  function Middle(sorted: seq<real>): real
    requires sorted != []
  {
    var n := |sorted|;
    if n % 2 == 1 then sorted[n / 2] else (sorted[n / 2 - 1] + sorted[n / 2]) / 2.0
  }

  predicate Ascending(s: seq<real>) { forall i, j :: 0 <= i < j < |s| ==> s[i] <= s[j] }

  lemma {:induction false} PlaceAscends(x: real, s: seq<real>)
    requires Ascending(s)
    ensures Ascending(Place(Less, x, s))
  {
    if s != [] && !(x < s[0]) {
      PlaceAscends(x, s[1..]);
      var rest := Place(Less, x, s[1..]);
      forall j | 0 <= j < |rest| ensures s[0] <= rest[j] {
        assert rest[j] in multiset(rest);
        assert rest[j] in s[1..] || rest[j] == x;
      }
    }
  }

  lemma {:induction false} SortAscends(s: seq<real>)
    ensures Ascending(Sort(Less, s))
  {
    if s != [] {
      SortAscends(s[..|s| - 1]);
      PlaceAscends(s[|s| - 1], Sort(Less, s[..|s| - 1]));
    }
  }

  function AtMost(m: real, values: seq<real>): nat { |Filter((v: real) => v <= m, values)| }

  function AtLeast(m: real, values: seq<real>): nat { |Filter((v: real) => v >= m, values)| }

  /** It is a median: at least half of the values lie on each side, repeated values
      counted as often as they occur. */
  lemma MedianHalves(values: seq<real>)
    requires values != []
    ensures 2 * AtMost(Median(values), values) >= |values| && 2 * AtLeast(Median(values), values) >= |values|
  {
    hide Sort, Middle, Filter, Ascending;
    var m := Median(values);
    SortAscends(values);
    MiddleHalves(Sort(Less, values));
    CountSort(Less, (v: real) => v <= m, values);
    CountSort(Less, (v: real) => v >= m, values);
  }

  lemma {:induction false} AscendingIsUnique(a: seq<real>, b: seq<real>)
    requires Ascending(a) && Ascending(b) && multiset(a) == multiset(b)
    ensures a == b
  {
    if a != [] {
      SameMultisetSameElements(a, b);
      assert a[0] in b && b[0] in a;
      TailsAgree(a, b);
      AscendingIsUnique(a[1..], b[1..]);
      assert a == [a[0]] + a[1..] && b == [b[0]] + b[1..];
    } else { SameMultisetSameElements(a, b); }
  }

  /** In whatever way the values are put in ascending order, the median is the one in the
      middle or the mean of the two in the middle. */
  lemma MedianIsMiddle(values: seq<real>, ascending: seq<real>)
    requires values != [] && Ascending(ascending) && multiset(ascending) == multiset(values)
    ensures |ascending| == |values|
    ensures 2.0 * Median(values) == ascending[(|values| - 1) / 2] + ascending[|values| / 2]
  {
    hide Sort;
    SortAscends(values);
    AscendingIsUnique(Sort(Less, values), ascending);
  }

  lemma MiddleHalves(sorted: seq<real>)
    requires sorted != [] && Ascending(sorted)
    ensures 2 * AtMost(Middle(sorted), sorted) >= |sorted| && 2 * AtLeast(Middle(sorted), sorted) >= |sorted|
  {
    hide AtMost, AtLeast;
    var n, m := |sorted|, Middle(sorted);
    FirstAtMost(sorted, (n + 1) / 2, m);
    LastAtLeast(sorted, n / 2, m);
  }

  lemma FirstAtMost(s: seq<real>, k: nat, m: real)
    requires k <= |s| && forall i :: 0 <= i < k ==> s[i] <= m
    ensures AtMost(m, s) >= k
  {
    hide Filter;
    var p := (v: real) => v <= m;
    assert s == s[..k] + s[k..];
    FilterAppend(p, s[..k], s[k..]);
    FilterAll(p, s[..k]);
  }

  lemma LastAtLeast(s: seq<real>, k: nat, m: real)
    requires k <= |s| && forall i :: k <= i < |s| ==> s[i] >= m
    ensures AtLeast(m, s) >= |s| - k
  {
    hide Filter;
    var p := (v: real) => v >= m;
    assert s == s[..k] + s[k..];
    FilterAppend(p, s[..k], s[k..]);
    FilterAll(p, s[k..]);
  }

  lemma MedianWithin(values: seq<real>, low: real, high: real)
    requires values != [] && forall v :: v in values ==> low <= v <= high
    ensures low <= Median(values) <= high
  {
    var sorted, n := Sort(Less, values), |values|;
    SameMultisetSameElements(values, sorted);
    assert sorted[n / 2] in values;
    if n % 2 == 0 { assert sorted[n / 2 - 1] in values; }
  }

  function Smallest(values: seq<real>): (m: real)
    requires values != []
    ensures m in values && forall v :: v in values ==> m <= v
  {
    var n := |values| - 1;
    assert values == values[..n] + [values[n]];
    if n == 0 then values[0]
    else
      var m := Smallest(values[..n]);
      if values[n] < m then values[n] else m
  }

  function Largest(values: seq<real>): (m: real)
    requires values != []
    ensures m in values && forall v :: v in values ==> v <= m
  {
    var n := |values| - 1;
    assert values == values[..n] + [values[n]];
    if n == 0 then values[0]
    else
      var m := Largest(values[..n]);
      if values[n] > m then values[n] else m
  }

  /** The known positive prices, in order. */
  function PricesIn(evidence: seq<Match>): (r: seq<real>)
    ensures forall v :: v in r ==> v > 0.0
  {
    if evidence == [] then []
    else
      var n := |evidence| - 1;
      var price := evidence[n].row.price;
      PricesIn(evidence[..n]) + if price.Some? && price.value > 0.0 then [price.value] else []
  }

  function DaysTaken(e: Evidence): Option<real> {
    if !e.warehouse || e.receivedAt.None? then None
    else Some((e.receivedAt.value - e.purchasedAt) as real / 86400.0)
  }

  /** The positive delivery times of the warehouse rows, in days. */
  function DaysIn(evidence: seq<Match>): (r: seq<real>)
    ensures forall v :: v in r ==> v > 0.0
  {
    if evidence == [] then []
    else
      var n := |evidence| - 1;
      var days := DaysTaken(evidence[n].row);
      DaysIn(evidence[..n]) + if days.Some? && days.value > 0.0 then [days.value] else []
  }

  /** SupplierFeatures; the ranker reads `features`. */
  datatype Summary = Summary(
    features: R.Features, purchases: nat, lastPurchase: int, minPrice: Option<real>, maxPrice: Option<real>,
    latestPrice: Option<real>, priceSamples: nat, deliverySamples: nat, warnings: set<Warning>)

  predicate Priced(e: Evidence) { e.price.Some? && e.price.value > 0.0 }

  /** sorted(..., key=(purchased_at, execution_id))[-1] of the priced rows. */
  function LatestPriced(evidence: seq<Match>): (k: Option<nat>)
    ensures k.Some? ==> k.value < |evidence| && Priced(evidence[k.value].row)
    ensures k.None? ==> forall i :: 0 <= i < |evidence| ==> !Priced(evidence[i].row)
    ensures k.Some? ==> forall i :: 0 <= i < |evidence| && Priced(evidence[i].row) ==>
      !PricedLater(evidence[i].row, evidence[k.value].row)
  {
    if evidence == [] then None
    else
      var n := |evidence| - 1;
      var before := LatestPriced(evidence[..n]);
      var e := evidence[n].row;
      if Priced(e) && (before.None? || !PricedLater(evidence[before.value].row, e)) then Some(n) else before
  }

  predicate PricedLater(a: Evidence, b: Evidence) {
    a.purchasedAt > b.purchasedAt || (a.purchasedAt == b.purchasedAt && a.execution > b.execution)
  }

  function LastPurchase(evidence: seq<Match>): (t: int)
    requires evidence != []
    ensures exists k :: 0 <= k < |evidence| && evidence[k].row.purchasedAt == t
    ensures forall k :: 0 <= k < |evidence| ==> evidence[k].row.purchasedAt <= t
  {
    var n := |evidence| - 1;
    var t := evidence[n].row.purchasedAt;
    if n == 0 then t
    else
      var before := LastPurchase(evidence[..n]);
      if t > before then t else before
  }

  function Summarise(c: Candidate): Summary
    requires c.core.evidence != []
  {
    var evidence := c.core.evidence;
    var prices, days := PricesIn(evidence), DaysIn(evidence);
    var latest := LatestPriced(evidence);
    Summary(FeaturesOf(c.core), c.purchases, LastPurchase(evidence),
            if prices != [] then Some(Smallest(prices)) else None,
            if prices != [] then Some(Largest(prices)) else None,
            if latest.Some? then evidence[latest.value].row.price else None, |prices|, |days|,
            c.core.warnings + (if prices == [] then {NoPriceData} else {})
              + (if days == [] then {NoDeliveryData} else {}))
  }

  /** What the ranker reads: it depends on the core only. */
  function FeaturesOf(c: Core): R.Features {
    var prices, days := PricesIn(c.evidence), DaysIn(c.evidence);
    R.Features(c.supplier, if prices != [] then Some(Median(prices)) else None,
               if days != [] then Some(Median(days)) else None, |c.evidence|)
  }

  /** The median price has half of the samples on each side, between the extremes;
      both medians are positive, which the ranker needs to divide by them; the latest
      price is a sample, and no priced row is later. */
  lemma SummaryMeaning(c: Candidate)
    requires c.core.evidence != []
    ensures var s := Summarise(c); var prices := PricesIn(c.core.evidence);
      && R.PositiveIfKnown(s.features.price) && R.PositiveIfKnown(s.features.delivery)
      && (s.features.price.Some? <==> prices != []) && (s.latestPrice.Some? <==> prices != [])
      && (prices != [] ==>
            && s.minPrice.value <= s.features.price.value <= s.maxPrice.value
            && s.minPrice.value <= s.latestPrice.value <= s.maxPrice.value
            && 2 * AtMost(s.features.price.value, prices) >= |prices|
            && 2 * AtLeast(s.features.price.value, prices) >= |prices|)
  {
    hide Median, PricesIn, DaysIn, Smallest, Largest, AtMost, AtLeast;
    var evidence := c.core.evidence;
    var prices := PricesIn(evidence);
    MediansArePositive(c.core);
    PricesAreThePriced(evidence);
    if prices != [] {
      assert prices[0] in prices;
      MedianWithin(prices, Smallest(prices), Largest(prices));
      MedianHalves(prices);
    }
  }

  lemma {:induction false} PricesAreThePriced(evidence: seq<Match>)
    ensures forall i :: 0 <= i < |evidence| && Priced(evidence[i].row) ==>
      evidence[i].row.price.value in PricesIn(evidence)
    ensures (forall i :: 0 <= i < |evidence| ==> !Priced(evidence[i].row)) ==> PricesIn(evidence) == []
  {
    if evidence != [] {
      var n := |evidence| - 1;
      var front := evidence[..n];
      PricesAreThePriced(front);
      assert forall i :: 0 <= i < n ==> front[i] == evidence[i];
      assert forall v :: v in PricesIn(front) ==> v in PricesIn(evidence);
    }
  }

  lemma MediansArePositive(c: Core)
    ensures R.PositiveIfKnown(FeaturesOf(c).price) && R.PositiveIfKnown(FeaturesOf(c).delivery)
  {
    hide Median, PricesIn, DaysIn, Smallest, Largest;
    var prices, days := PricesIn(c.evidence), DaysIn(c.evidence);
    if prices != [] { MedianWithin(prices, Smallest(prices), Largest(prices)); }
    if days != [] { MedianWithin(days, Smallest(days), Largest(days)); }
  }

  /** FeatureAggregator.supplier */
  method Aggregate(c: Candidate) returns (s: Summary)
    requires c.core.evidence != []
    ensures s == Summarise(c) && s.features == FeaturesOf(c.core)
  {
    hide Median, Smallest, Largest, LatestPriced, LastPurchase;
    var evidence := c.core.evidence;
    var prices, days := Samples(evidence);
    var warnings := c.core.warnings;
    if prices == [] { warnings := warnings + {NoPriceData}; }
    if days == [] { warnings := warnings + {NoDeliveryData}; }
    var latest := LatestPriced(evidence);
    s := Summary(R.Features(c.core.supplier, if prices != [] then Some(Median(prices)) else None,
                            if days != [] then Some(Median(days)) else None, |evidence|),
                 c.purchases, LastPurchase(evidence),
                 if prices != [] then Some(Smallest(prices)) else None,
                 if prices != [] then Some(Largest(prices)) else None,
                 if latest.Some? then evidence[latest.value].row.price else None, |prices|, |days|, warnings);
  }

  /** The price list and the delivery loop. */
  method Samples(evidence: seq<Match>) returns (prices: seq<real>, days: seq<real>)
    ensures prices == PricesIn(evidence) && days == DaysIn(evidence)
  {
    prices, days := [], [];
    for k := 0 to |evidence|
      invariant prices == PricesIn(evidence[..k]) && days == DaysIn(evidence[..k])
    {
      assert evidence[..k + 1][..k] == evidence[..k];
      var e := evidence[k].row;
      if e.price.Some? && e.price.value > 0.0 { prices := prices + [e.price.value]; }
      if e.warehouse && e.receivedAt.Some? {
        var taken := (e.receivedAt.value - e.purchasedAt) as real / 86400.0;
        if taken > 0.0 { days := days + [taken]; }
      }
    }
    assert evidence[..|evidence|] == evidence;
  }

  // ----- the offers of a pool

  function OfferOf(c: Candidate): R.Offer {
    var f := FeaturesOf(c.core);
    R.Offer(c.core.supplier, MatchScore(c.core.level), f.price, f.delivery, f.evidence)
  }

  function Offers(eligible: seq<Candidate>): (r: seq<R.Offer>) { Map(OfferOf, eligible) }

  /** The eligible suppliers are distinct. */
  lemma EligibleDistinct(matched: seq<Match>, t: nat)
    requires t < 4
    ensures var e := Eligible(Pool(matched, t));
      forall j, k :: 0 <= j < k < |e| ==> e[j].core.supplier != e[k].core.supplier
  {
    hide Cores, Sort, StrictTotal, PoolBefore, Included, Map, Pool, Eligible, NoDuplicates;
    var e, included := Eligible(Pool(matched, t)), Included(matched, t);
    var sorted := SortedCores(included);
    CoresDistinct(included);
    SortOrdered(PoolBefore, Elements(Cores(included)), Cores(included));
    PoolIsTop(matched, t);
    EligibleCores(Pool(matched, t));
    FilterOrdered(PoolBefore, (c: Core) => ExclusionOf(c).None?, Top(sorted));
    var cores := Map(CoreField, e);
    forall j, k | 0 <= j < k < |e| ensures e[j].core.supplier != e[k].core.supplier {
      assert PoolBefore(cores[j], cores[k]);
      FilterMembers((c: Core) => ExclusionOf(c).None?, Top(sorted));
      assert cores[j] in cores && cores[k] in cores;
      SortedMembers(included, cores[j], cores[k]);
    }
  }

  lemma SortedMembers(included: seq<Match>, x: Core, y: Core)
    requires x in Top(SortedCores(included)) && y in Top(SortedCores(included)) && PoolBefore(x, y)
    ensures x.supplier != y.supplier
  {
    hide Cores, Sort, PoolBefore;
    CoresDistinct(included);
    SameMultisetSameElements(Cores(included), SortedCores(included));
    assert x in Cores(included) && y in Cores(included);
    var i :| 0 <= i < |Cores(included)| && Cores(included)[i] == x;
    var j :| 0 <= j < |Cores(included)| && Cores(included)[j] == y;
    assert i != j by { IrreflexiveBefore(x); }
  }

  lemma IrreflexiveBefore(x: Core)
    ensures !PoolBefore(x, x)
  {}

  lemma OffersAreOk(matched: seq<Match>, t: nat)
    requires t < 4
    ensures R.OffersOk(Offers(Eligible(Pool(matched, t))))
  {
    hide Pool, Eligible, FeaturesOf;
    var e := Eligible(Pool(matched, t));
    EligibleDistinct(matched, t);
    forall k | 0 <= k < |e| ensures R.OfferOk(OfferOf(e[k])) { MediansArePositive(e[k].core); }
  }

  // ----- recommend_suppliers

  datatype ItemRef = ItemRef(
    category: Option<nat>, model: Option<nat>, nameKey: string, brandKey: Option<string>, modelKey: Option<string>)

  datatype Report = Report(selected: Selected, recommendations: seq<R.Ranked>, excluded: seq<Excluded>)

  /** selected_product_from_item */
  function SelectedOf(item: ItemRef): Option<Selected> {
    if item.model.Some? || (Known(item.brandKey) && Known(item.modelKey))
    then Some(Selected(item.category, item.model, item.nameKey, item.brandKey, item.modelKey))
    else None
  }

  /** The pool the loop ends with. */
  function FinalPool(matched: seq<Match>): seq<Candidate> { Pool(matched, StopFrom(matched, 0)) }

  function Recommend(item: Option<ItemRef>, history: seq<Evidence>, chosen: Option<Selected>, limit: nat,
                     staleBefore: int): Result<Report> {
    var found := item.Some?;
    :- Check(found, RequestItemNotFound);
    var selected := if chosen.Some? then chosen else SelectedOf(item.value);
    :- Check(selected.Some?, SelectedProductRequired);
    :- Check(selected.value.category == item.value.category, SelectedProductCategoryMismatch);
    var matched := MatchAll(selected.value, if item.value.category.Some? then history else [], staleBefore);
    OffersAreOk(matched, StopFrom(matched, 0));
    Ok(Report(selected.value, R.Ranking(Offers(Eligible(FinalPool(matched))), limit), Rejects(FinalPool(matched))))
  }

  method MatchSelectedProduct(selected: Selected, history: seq<Evidence>,
                              staleBefore: int) returns (matched: seq<Match>)
    ensures matched == MatchAll(selected, history, staleBefore)
  {
    hide MatchLevel;
    matched := [];
    for k := 0 to |history|
      invariant matched == MatchAll(selected, history[..k], staleBefore)
    {
      assert history[..k + 1][..k] == history[..k];
      var e := history[k];
      var level := MatchLevel(selected, e);
      if level.Some? { matched := matched + [Match(e, level.value, e.purchasedAt < staleBefore)]; }
    }
    assert history[..|history|] == history;
  }

  method RecommendSuppliers(item: Option<ItemRef>, history: seq<Evidence>, chosen: Option<Selected>, limit: nat,
                            staleBefore: int)
      returns (r: Result<Report>)
    ensures r == Recommend(item, history, chosen, limit, staleBefore)
  {
    hide MatchAll, Pool, Eligible, Rejects, StopFrom, SelectedOf, R.Ranking, R.RankedBy, FeaturesOf, R.OffersOk;
    var found := item.Some?;
    :- Check(found, RequestItemNotFound);
    var selected := if chosen.Some? then chosen else SelectedOf(item.value);
    :- Check(selected.Some?, SelectedProductRequired);
    :- Check(selected.value.category == item.value.category, SelectedProductCategoryMismatch);
    var matched := MatchSelectedProduct(selected.value, if item.value.category.Some? then history else [], staleBefore);
    var eligible, excluded := RelaxTiers(matched);
    OffersAreOk(matched, StopFrom(matched, 0));
    forall k | 0 <= k < |eligible| ensures eligible[k].core.evidence != [] {
      PoolHasExecutions(matched, StopFrom(matched, 0), eligible[k]);
    }
    var ranked := RankEligible(eligible, limit);
    return Ok(Report(selected.value, ranked, excluded));
  }

  /** One feature record per eligible candidate, then the ranker. */
  method RankEligible(eligible: seq<Candidate>, limit: nat) returns (ranked: seq<R.Ranked>)
    requires forall k :: 0 <= k < |eligible| ==> eligible[k].core.evidence != []
    requires R.OffersOk(Offers(eligible))
    ensures ranked == R.Ranking(Offers(eligible), limit)
  {
    hide FeaturesOf, R.OffersOk, R.Ranking, R.RankedBy, Summarise;
    var features: seq<R.Features> := [];
    for k := 0 to |eligible|
      invariant |features| == k
      invariant forall j :: 0 <= j < k ==> features[j] == FeaturesOf(eligible[j].core)
    {
      var s := Aggregate(eligible[k]);
      features := features + [s.features];
    }
    var candidates := Map((c: Candidate) => R.Candidate(c.core.supplier, MatchScore(c.core.level)), eligible);
    JoinedOffers(eligible, candidates, features);
    R.RankedByIsRanking(candidates, features, limit);
    ranked := R.Rank(candidates, features, limit);
  }

  /** Looking the features up by supplier gives each candidate its own. */
  lemma JoinedOffers(eligible: seq<Candidate>, candidates: seq<R.Candidate>, features: seq<R.Features>)
    requires R.OffersOk(Offers(eligible))
    requires candidates == Map((c: Candidate) => R.Candidate(c.core.supplier, MatchScore(c.core.level)), eligible)
    requires |features| == |eligible| && forall j :: 0 <= j < |features| ==> features[j] == FeaturesOf(eligible[j].core)
    ensures R.Covered(candidates, features) && R.MediansPositive(features)
    ensures forall k :: 0 <= k < |candidates| ==> features[k].supplier == candidates[k].supplier
    ensures R.OffersOf(candidates, features) == Offers(eligible)
  {
    hide FeaturesOf, R.FeaturesOf, R.OffersOf, R.Covered, MatchScore;
    var offers := Offers(eligible);
    forall k | 0 <= k < |offers| ensures offers[k].supplier == features[k].supplier == candidates[k].supplier {
      assert offers[k] == OfferOf(eligible[k]);
      FeaturesNameSupplier(eligible[k].core);
    }
    R.AlignedOffers(candidates, features);
    forall k | 0 <= k < |features|
      ensures R.PositiveIfKnown(features[k].price) && R.PositiveIfKnown(features[k].delivery)
    {
      MediansArePositive(eligible[k].core);
    }
    assert R.OffersOf(candidates, features) == offers;
  }

  lemma FeaturesNameSupplier(c: Core)
    ensures FeaturesOf(c).supplier == c.supplier
  {}

  predicate Recommendable(c: Candidate) { c.core.active && !c.core.blacklisted }

  /** What a successful call recommends: at most five suppliers, ranked 1, 2, ...,
      all of them in the final pool, active and not blacklisted; whoever is excluded
      is in the pool too and is one or the other. */
  lemma RecommendationsAreEligible(item: Option<ItemRef>, history: seq<Evidence>, chosen: Option<Selected>, limit: nat,
                                   staleBefore: int, report: Report)
    requires Recommend(item, history, chosen, limit, staleBefore) == Ok(report)
    ensures item.Some? && report.selected.category == item.value.category
    ensures var rows := if item.value.category.Some? then history else [];
      var pool := FinalPool(MatchAll(report.selected, rows, staleBefore));
      && |report.recommendations| <= limit && |report.recommendations| <= 5
      && (forall k :: 0 <= k < |report.recommendations| ==>
            && report.recommendations[k].rank == k + 1
            && exists c :: c in pool && Recommendable(c) && OfferOf(c) == report.recommendations[k].row.offer)
      && (forall x :: x in report.excluded ==>
            && (exists c :: c in pool && c.core == x.core)
            && x.reason == if x.core.blacklisted then ActiveBlacklist else SupplierInactive)
  {
    hide MatchAll, Pool, Eligible, Rejects, StopFrom, SelectedOf, R.Rows, OfferOf, R.OffersOk, Sort;
    var matched := MatchAll(report.selected, if item.value.category.Some? then history else [], staleBefore);
    var eligible := Eligible(FinalPool(matched));
    var offers := Offers(eligible);
    OffersAreOk(matched, StopFrom(matched, 0));
    FilterPartitions(matched, StopFrom(matched, 0));
    forall k | 0 <= k < |report.recommendations|
      ensures var o := report.recommendations[k].row.offer;
        exists c :: c in FinalPool(matched) && Recommendable(c) && OfferOf(c) == o
    {
      var j := R.RankedOffer(offers, limit, k);
      var c := eligible[j];
      assert c in eligible && c in FinalPool(matched) && OfferOf(c) == report.recommendations[k].row.offer;
    }
  }
}
