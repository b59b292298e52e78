/** From purchase history to the pool of eligible suppliers: CandidateBuilder,
    HardFilter and the tier-relaxation loop of recommend_suppliers. Brand, model and
    item names enter in normalised form; times are whole seconds. */
module CandidatePool {
  import opened Common
  import opened Sorting

  const TARGET_ELIGIBLE_CANDIDATE_COUNT := 10
  const MAX_CANDIDATE_POOL_SIZE := 20

  datatype Level = ExactModel | ExactSnapshot | SameItem | SameCategory

  /** Position in MATCH_ORDER. */
  function Tier(level: Level): nat {
    match level case ExactModel => 0 case ExactSnapshot => 1 case SameItem => 2 case SameCategory => 3
  }

  function MatchScore(level: Level): real {
    match level case ExactModel => 100.0 case ExactSnapshot => 95.0 case SameItem => 80.0 case SameCategory => 60.0
  }

  datatype Evidence = Evidence(
    item: nat, execution: nat, supplier: nat, supplierName: string, active: bool, blacklisted: bool, productKey: string,
    category: Option<nat>, model: Option<nat>, nameKey: string, brandKey: Option<string>, modelKey: Option<string>,
    price: Option<real>, warehouse: bool, purchasedAt: int, receivedAt: Option<int>)

  datatype Selected = Selected(
    category: Option<nat>, model: Option<nat>, nameKey: string, brandKey: Option<string>, modelKey: Option<string>)

  /** An evidence row with its match_level and stale flag. */
  datatype Match = Match(row: Evidence, level: Level, stale: bool)

  datatype Warning = LowSampleSize | StaleHistory | CompatibilityNotVerified | NoPriceData | NoDeliveryData

  datatype Reason = History(level: Level)

  /** Everything a candidate says except how many looser matches it also has. */
  datatype Core = Core(
    supplier: nat, name: string, active: bool, blacklisted: bool, level: Level, lastPurchasedAt: int,
    items: set<nat>, executions: set<nat>, productKeys: set<string>, evidence: seq<Match>,
    warnings: set<Warning>, reasons: set<Reason>)

  datatype Candidate = Candidate(core: Core, purchases: nat, counts: map<Level, nat>)

  datatype Exclusion = ActiveBlacklist | SupplierInactive | NoExecutionHistory

  // ----- matching

  predicate Known(key: Option<string>) { key.GetOr("") != "" }

  function MatchLevel(want: Selected, e: Evidence): Option<Level> {
    if want.category.None? || e.category != want.category then None
    else if want.model.Some? && e.model == want.model then Some(ExactModel)
    else if Known(want.brandKey) && Known(want.modelKey) && e.brandKey == want.brandKey && e.modelKey == want.modelKey
    then Some(ExactSnapshot)
    else if e.nameKey == want.nameKey then Some(SameItem)
    else Some(SameCategory)
  }

  /** match_selected_product */
  function MatchAll(want: Selected, history: seq<Evidence>, staleBefore: int): seq<Match> {
    if history == [] then []
    else
      var n := |history| - 1;
      var e := history[n];
      var level := MatchLevel(want, e);
      MatchAll(want, history[..n], staleBefore)
      + if level.Some? then [Match(e, level.value, e.purchasedAt < staleBefore)] else []
  }

  // ----- grouping by supplier

  function RowsFor(matched: seq<Match>, supplier: nat): (r: seq<Match>)
    ensures forall m :: m in r <==> m in matched && m.row.supplier == supplier
  {
    FilterMembers((m: Match) => m.row.supplier == supplier, matched);
    Filter((m: Match) => m.row.supplier == supplier, matched)
  }

  function AtLevel(matched: seq<Match>, level: Level): (r: seq<Match>)
    ensures forall m :: m in r <==> m in matched && m.level == level
  {
    FilterMembers((m: Match) => m.level == level, matched);
    Filter((m: Match) => m.level == level, matched)
  }

  /** The suppliers in order of first appearance: the keys of the grouping dict. */
  function SuppliersOf(matched: seq<Match>): (ids: seq<nat>)
    ensures NoDuplicates(ids)
  {
    if matched == [] then []
    else
      var n := |matched| - 1;
      var before := SuppliersOf(matched[..n]);
      if matched[n].row.supplier in before then before else before + [matched[n].row.supplier]
  }

  lemma OneMoreSupplier(rows: seq<Match>, m: Match)
    ensures SuppliersOf(rows + [m])
         == if m.row.supplier in SuppliersOf(rows) then SuppliersOf(rows) else SuppliersOf(rows) + [m.row.supplier]
  {
    assert (rows + [m])[..|rows|] == rows;
  }

  lemma OneMoreRow(rows: seq<Match>, m: Match, id: nat)
    ensures RowsFor(rows + [m], id) == RowsFor(rows, id) + if m.row.supplier == id then [m] else []
  {
    FilterLast((x: Match) => x.row.supplier == id, rows, m);
  }

  /** A supplier is listed exactly if it has rows. */
  lemma {:induction false} SuppliersSeen(matched: seq<Match>, id: nat)
    ensures id in SuppliersOf(matched) <==> RowsFor(matched, id) != []
  {
    if matched != [] {
      hide SuppliersOf, RowsFor;
      var n := |matched| - 1;
      assert matched == matched[..n] + [matched[n]];
      SuppliersSeen(matched[..n], id);
      OneMoreSupplier(matched[..n], matched[n]);
      OneMoreRow(matched[..n], matched[n], id);
    }
  }

  function BestLevel(rows: seq<Match>): (best: Level)
    requires rows != []
    ensures exists m :: m in rows && m.level == best
    ensures forall m :: m in rows ==> Tier(best) <= Tier(m.level)
  {
    var n := |rows| - 1;
    assert rows == rows[..n] + [rows[n]];
    if n == 0 then rows[0].level
    else
      var before := BestLevel(rows[..n]);
      if Tier(rows[n].level) < Tier(before) then rows[n].level else before
  }

  /** max(..., key=purchased_at): the first of the latest. */
  function Latest(rows: seq<Match>): (last: Match)
    requires rows != []
    ensures last in rows && forall m :: m in rows ==> m.row.purchasedAt <= last.row.purchasedAt
  {
    var n := |rows| - 1;
    assert rows == rows[..n] + [rows[n]];
    if n == 0 then rows[0]
    else
      var before := Latest(rows[..n]);
      if rows[n].row.purchasedAt > before.row.purchasedAt then rows[n] else before
  }

  function CoreOf(rows: seq<Match>, supplier: nat): Core
    requires rows != []
  {
    var best := BestLevel(rows);
    var strict := AtLevel(rows, best);
    var latest := Latest(strict);
    Core(supplier, latest.row.supplierName, latest.row.active, latest.row.blacklisted, best, latest.row.purchasedAt,
         set m | m in strict :: m.row.item, set m | m in strict :: m.row.execution,
         set m | m in strict :: m.row.productKey, strict,
         {CompatibilityNotVerified} + (if |strict| == 1 then {LowSampleSize} else {})
           + (if exists m :: m in strict && m.stale then {StaleHistory} else {}),
         {History(best)})
  }

  function CandidateOf(rows: seq<Match>, supplier: nat): Candidate
    requires rows != []
  {
    Candidate(CoreOf(rows, supplier), |rows|,
              map level | level in (set m | m in rows :: m.level) :: |AtLevel(rows, level)|)
  }

  /** CandidateBuilder.suppliers */
  function Candidates(matched: seq<Match>): (cs: seq<Candidate>)
    ensures |cs| == |SuppliersOf(matched)|
  {
    var ids := SuppliersOf(matched);
    assert forall k :: 0 <= k < |ids| ==> ids[k] in ids && RowsFor(matched, ids[k]) != [] by {
      forall k | 0 <= k < |ids| ensures RowsFor(matched, ids[k]) != [] {
        SuppliersSeen(matched, ids[k]);
      }
    }
    seq(|ids|, k requires 0 <= k < |ids| => CandidateOf(RowsFor(matched, ids[k]), ids[k]))
  }

  function CoreField(c: Candidate): Core { c.core }

  function Cores(matched: seq<Match>): seq<Core> { Map(CoreField, Candidates(matched)) }

  // ----- the loop

  function LevelAt(t: nat): (level: Level)
    requires t < 4
    ensures Tier(level) == t
  {
    match t case 0 => ExactModel case 1 => ExactSnapshot case 2 => SameItem case _ => SameCategory
  }

  /** `included` after the tiers 0..t. */
  function Included(matched: seq<Match>, t: nat): (r: seq<Match>)
    requires t < 4
    ensures forall m :: m in r <==> m in matched && Tier(m.level) <= t
  {
    (if t == 0 then [] else Included(matched, t - 1)) + AtLevel(matched, LevelAt(t))
  }

  /** Better tier first, then the latest purchase, then the supplier id. */
  predicate PoolBefore(a: Core, b: Core) {
    if a.level != b.level then Tier(a.level) < Tier(b.level)
    else if a.lastPurchasedAt != b.lastPurchasedAt then a.lastPurchasedAt > b.lastPurchasedAt
    else a.supplier < b.supplier
  }

  predicate CandidateBefore(a: Candidate, b: Candidate) { PoolBefore(a.core, b.core) }

  function Top<T>(s: seq<T>): seq<T> { if |s| <= MAX_CANDIDATE_POOL_SIZE then s else s[..MAX_CANDIDATE_POOL_SIZE] }

  /** raw_candidates after the tiers 0..t. */
  function Pool(matched: seq<Match>, t: nat): seq<Candidate>
    requires t < 4
  {
    Top(Sort(CandidateBefore, Candidates(Included(matched, t))))
  }

  function ExclusionOf(c: Core): Option<Exclusion> {
    if c.blacklisted then Some(ActiveBlacklist)
    else if !c.active then Some(SupplierInactive)
    else if c.executions == {} then Some(NoExecutionHistory)
    else None
  }

  function Eligible(cs: seq<Candidate>): (r: seq<Candidate>)
    ensures forall c :: c in r <==> c in cs && ExclusionOf(c.core).None?
  {
    FilterMembers((c: Candidate) => ExclusionOf(c.core).None?, cs);
    Filter((c: Candidate) => ExclusionOf(c.core).None?, cs)
  }

  datatype Excluded = Excluded(core: Core, reason: Exclusion)

  function Rejects(cs: seq<Candidate>): (r: seq<Excluded>)
    ensures forall x :: x in r <==> ExclusionOf(x.core) == Some(x.reason) && exists c :: c in cs && c.core == x.core
  {
    if cs == [] then []
    else
      var n := |cs| - 1;
      assert cs == cs[..n] + [cs[n]];
      var reason := ExclusionOf(cs[n].core);
      Rejects(cs[..n]) + if reason.Some? then [Excluded(cs[n].core, reason.value)] else []
  }

  predicate Stops(matched: seq<Match>, t: nat)
    requires t < 4
  {
    |Eligible(Pool(matched, t))| >= TARGET_ELIGIBLE_CANDIDATE_COUNT || |Pool(matched, t)| >= MAX_CANDIDATE_POOL_SIZE
  }

  /** The tier after which the loop ends, trying from tier t on. */
  function StopFrom(matched: seq<Match>, t: nat): (r: nat)
    requires t < 4
    ensures t <= r < 4
    decreases 4 - t
  {
    if t == 3 || Stops(matched, t) then t else StopFrom(matched, t + 1)
  }

  lemma {:induction false} StopIsFirst(matched: seq<Match>, t: nat)
    requires t < 4
    ensures StopFrom(matched, t) == 3 || Stops(matched, StopFrom(matched, t))
    ensures forall u :: t <= u < StopFrom(matched, t) ==> !Stops(matched, u)
    decreases 4 - t
  {
    hide Stops;
    if t < 3 && !Stops(matched, t) { StopIsFirst(matched, t + 1); }
  }

  // ----- relaxing a tier

  predicate Looser(a: seq<Match>, b: seq<Match>) {
    forall x, y :: x in a && y in b ==> Tier(x.level) < Tier(y.level)
  }

  /** Looser rows change nothing in the core of a supplier that already has rows. */
  lemma CoreStable(rows: seq<Match>, more: seq<Match>, supplier: nat)
    requires rows != [] && Looser(rows, more)
    ensures CoreOf(rows + more, supplier) == CoreOf(rows, supplier)
  {
    hide AtLevel, BestLevel, Latest;
    var best := BestLevel(rows);
    BestStable(rows, more);
    AtLevelAppend(rows, more, best);
    var r :| r in rows && r.level == best;
    NoneAtLevel(more, best);
    assert AtLevel(rows + more, best) == AtLevel(rows, best);
  }

  lemma BestStable(rows: seq<Match>, more: seq<Match>)
    requires rows != [] && Looser(rows, more)
    ensures BestLevel(rows + more) == BestLevel(rows)
  {
    hide BestLevel;
    var all := rows + more;
    var best, best' := BestLevel(rows), BestLevel(all);
    var m :| m in all && m.level == best';
    var r :| r in rows && r.level == best;
    assert r in rows + more;
  }

  lemma AtLevelAppend(a: seq<Match>, b: seq<Match>, level: Level)
    ensures AtLevel(a + b, level) == AtLevel(a, level) + AtLevel(b, level)
  {
    FilterAppend((m: Match) => m.level == level, a, b);
  }

  lemma NoneAtLevel(a: seq<Match>, level: Level)
    requires forall m :: m in a ==> m.level != level
    ensures AtLevel(a, level) == []
  {
    FilterNone((m: Match) => m.level == level, a);
  }

  lemma RowsForAppend(a: seq<Match>, b: seq<Match>, supplier: nat)
    ensures RowsFor(a + b, supplier) == RowsFor(a, supplier) + RowsFor(b, supplier)
  {
    FilterAppend((m: Match) => m.row.supplier == supplier, a, b);
  }

  lemma {:induction false} SuppliersAppend(a: seq<Match>, b: seq<Match>)
    ensures SuppliersOf(a) <= SuppliersOf(a + b)
  {
    if b == [] { assert a + b == a; }
    else {
      var n := |b| - 1;
      assert (a + b)[..|a| + n] == a + b[..n] && (a + b)[|a| + n] == b[n];
      SuppliersAppend(a, b[..n]);
    }
  }

  /** Relaxing keeps the cores found so far, in place, and adds looser ones. */
  lemma CoresGrow(a: seq<Match>, b: seq<Match>)
    requires Looser(a, b)
    ensures Cores(a) <= Cores(a + b)
    ensures forall x, y :: x in Cores(a) && y in Cores(a + b)[|Cores(a)|..] ==> PoolBefore(x, y)
  {
    hide SuppliersOf, CoreOf, RowsFor;
    SuppliersAppend(a, b);
    var ids, all := SuppliersOf(a), SuppliersOf(a + b);
    forall k | 0 <= k < |ids| ensures Cores(a + b)[k] == Cores(a)[k] {
      assert ids[k] in ids && all[k] == ids[k];
      SuppliersSeen(a, ids[k]);
      RowsForAppend(a, b, ids[k]);
      CoreStable(RowsFor(a, ids[k]), RowsFor(b, ids[k]), ids[k]);
    }
    forall j, k | 0 <= j < |ids| <= k < |all| ensures PoolBefore(Cores(a)[j], Cores(a + b)[k]) {
      LevelsOf(a, j);
      LevelsOf(a + b, k);
      var y :| y in a + b && y.row.supplier == all[k] && y.level == Cores(a + b)[k].level;
      assert all[k] !in ids;
      SuppliersSeen(a, all[k]);
      assert y !in RowsFor(a, all[k]);
      assert y in b;
    }
  }

  /** A core's level is that of one of its supplier's rows. */
  lemma LevelsOf(a: seq<Match>, k: nat)
    requires k < |SuppliersOf(a)|
    ensures Cores(a)[k].supplier == SuppliersOf(a)[k]
    ensures exists m :: m in a && m.row.supplier == SuppliersOf(a)[k] && m.level == Cores(a)[k].level
  {
    hide SuppliersOf, BestLevel, AtLevel, Latest, RowsFor;
    var id := SuppliersOf(a)[k];
    SuppliersSeen(a, id);
    var rows := RowsFor(a, id);
    var best := BestLevel(rows);
    var m :| m in rows && m.level == best;
  }

  // ----- the pool

  lemma CoresDistinct(matched: seq<Match>)
    ensures forall j, k :: 0 <= j < k < |Cores(matched)| ==> Cores(matched)[j].supplier != Cores(matched)[k].supplier
    ensures NoDuplicates(Cores(matched)) && StrictTotal(PoolBefore, Elements(Cores(matched)))
  {
    hide Cores, SuppliersOf, PoolBefore;
    var cores, ids := Cores(matched), SuppliersOf(matched);
    assert |cores| == |ids| by { CoresLength(matched); }
    forall k | 0 <= k < |cores| ensures cores[k].supplier == ids[k] { LevelsOf(matched, k); }
    OrderOnDistinct(cores);
  }

  lemma CoresLength(matched: seq<Match>)
    ensures |Cores(matched)| == |SuppliersOf(matched)|
  {}

  lemma OrderOnDistinct(cores: seq<Core>)
    requires forall j, k :: 0 <= j < k < |cores| ==> cores[j].supplier != cores[k].supplier
    ensures StrictTotal(PoolBefore, Elements(cores))
  {
    forall x, y | x in cores && y in cores && x != y ensures PoolBefore(x, y) || PoolBefore(y, x) {
      var i :| 0 <= i < |cores| && cores[i] == x;
      var j :| 0 <= j < |cores| && cores[j] == y;
    }
  }

  function SortedCores(matched: seq<Match>): seq<Core> { Sort(PoolBefore, Cores(matched)) }

  lemma RelaxationExtends(a: seq<Match>, b: seq<Match>)
    requires Looser(a, b)
    ensures SortedCores(a) <= SortedCores(a + b)
  {
    hide Cores, Sort, PoolBefore, StrictTotal, Looser;
    CoresGrow(a, b);
    var old_, all := Cores(a), Cores(a + b);
    var new_ := all[|old_|..];
    assert all == old_ + new_;
    CoresDistinct(a + b);
    SortGroups(PoolBefore, Elements(all), old_, new_);
  }

  /** The sorted cores at one tier are a prefix of those at any later tier. */
  lemma {:induction false} TiersExtend(matched: seq<Match>, t: nat, u: nat)
    requires t <= u < 4
    ensures SortedCores(Included(matched, t)) <= SortedCores(Included(matched, u))
    decreases u
  {
    hide SortedCores, AtLevel;
    if t < u {
      TiersExtend(matched, t, u - 1);
      RelaxationExtends(Included(matched, u - 1), AtLevel(matched, LevelAt(u)));
    }
  }

  lemma PoolIsTop(matched: seq<Match>, t: nat)
    requires t < 4
    ensures Map(CoreField, Pool(matched, t)) == Top(SortedCores(Included(matched, t)))
  {
    hide Sort, Included, Candidates;
    var cs := Candidates(Included(matched, t));
    SortCommutes(CandidateBefore, PoolBefore, CoreField, cs);
  }

  /** The pool at a tier is a prefix of the pool at any later tier, on every field
      but the counts of looser matches. */
  lemma PoolPrefix(matched: seq<Match>, t: nat, u: nat)
    requires t <= u < 4
    ensures Map(CoreField, Pool(matched, t)) <= Map(CoreField, Pool(matched, u))
  {
    hide SortedCores, Included, Map, Pool;
    PoolIsTop(matched, t);
    PoolIsTop(matched, u);
    TiersExtend(matched, t, u);
  }

  /** Filtering looks at the core only, so relaxing never drops or reorders an
      eligible supplier. */
  lemma EligiblePrefix(matched: seq<Match>, t: nat, u: nat)
    requires t <= u < 4
    ensures Map(CoreField, Eligible(Pool(matched, t))) <= Map(CoreField, Eligible(Pool(matched, u)))
  {
    hide Included, Map, Pool, Eligible;
    PoolPrefix(matched, t, u);
    EligibleCores(Pool(matched, t));
    EligibleCores(Pool(matched, u));
    FilterPrefix((c: Core) => ExclusionOf(c).None?, Map(CoreField, Pool(matched, t)), Map(CoreField, Pool(matched, u)));
  }

  lemma {:induction false} EligibleCores(cs: seq<Candidate>)
    ensures Map(CoreField, Eligible(cs)) == Filter((c: Core) => ExclusionOf(c).None?, Map(CoreField, cs))
  {
    if cs != [] {
      var n := |cs| - 1;
      EligibleCores(cs[..n]);
      assert Map(CoreField, cs)[..n] == Map(CoreField, cs[..n]);
    }
  }

  lemma FilterPrefix(p: Core -> bool, a: seq<Core>, b: seq<Core>)
    requires a <= b
    ensures Filter(p, a) <= Filter(p, b)
  {
    assert b == a + b[|a|..];
    FilterAppend(p, a, b[|a|..]);
  }

  // ----- against one computation over all evidence

  /** Adding the tiers one by one shows each row once: the candidates are those of
      the unordered evidence. */
  lemma SameLevelRows(matched: seq<Match>, t: nat, level: Level)
    requires t < 4
    ensures AtLevel(Included(matched, t), level) == if Tier(level) <= t then AtLevel(matched, level) else []
    decreases t
  {
    hide AtLevel;
    var last := LevelAt(t);
    if t > 0 {
      SameLevelRows(matched, t - 1, level);
      AtLevelAppend(Included(matched, t - 1), AtLevel(matched, last), level);
    } else {
      assert Included(matched, t) == AtLevel(matched, last);
    }
    if level == last { AtLevelTwice(matched, level); } else { NoneAtLevel(AtLevel(matched, last), level); }
  }

  lemma {:induction false} AtLevelTwice(matched: seq<Match>, level: Level)
    ensures AtLevel(AtLevel(matched, level), level) == AtLevel(matched, level)
  {
    FilterAll((m: Match) => m.level == level, AtLevel(matched, level));
  }

  /** Filtering by supplier and by level commute. */
  lemma FiltersCommute(matched: seq<Match>, supplier: nat, level: Level)
    ensures AtLevel(RowsFor(matched, supplier), level) == RowsFor(AtLevel(matched, level), supplier)
  {
    FilterSwap((m: Match) => m.level == level, (m: Match) => m.row.supplier == supplier, matched);
  }

  lemma SameCore(matched: seq<Match>, supplier: nat)
    requires RowsFor(matched, supplier) != []
    ensures RowsFor(Included(matched, 3), supplier) != []
    ensures CoreOf(RowsFor(Included(matched, 3), supplier), supplier) == CoreOf(RowsFor(matched, supplier), supplier)
  {
    hide AtLevel, RowsFor, BestLevel, Latest, Included;
    var a, b := RowsFor(Included(matched, 3), supplier), RowsFor(matched, supplier);
    assert forall m :: m in a <==> m in b;
    assert b[0] in a;
    SameBest(a, b);
    var best := BestLevel(b);
    FiltersCommute(matched, supplier, best);
    FiltersCommute(Included(matched, 3), supplier, best);
    SameLevelRows(matched, 3, best);
  }

  lemma SameBest(a: seq<Match>, b: seq<Match>)
    requires a != [] && b != [] && forall m :: m in a <==> m in b
    ensures BestLevel(a) == BestLevel(b)
  {
    hide BestLevel;
    var p, q := BestLevel(a), BestLevel(b);
    var x :| x in a && x.level == p;
    var y :| y in b && y.level == q;
  }

  /** After the last tier the sorted cores are those of all matched evidence. */
  lemma LastTierIsAll(matched: seq<Match>)
    ensures SortedCores(Included(matched, 3)) == SortedCores(matched)
  {
    hide Cores, Sort, PoolBefore, StrictTotal, Included;
    var a, b := Cores(Included(matched, 3)), Cores(matched);
    CoresDistinct(matched);
    CoresDistinct(Included(matched, 3));
    forall x ensures x in a <==> x in b { CoreSeen(matched, x); }
    DistinctSameMultiset(a, b);
    SortIgnoresOrder(PoolBefore, Elements(b), b, a);
  }

  lemma CoreMembership(matched: seq<Match>, x: Core)
    ensures x in Cores(matched) <==>
      RowsFor(matched, x.supplier) != [] && x == CoreOf(RowsFor(matched, x.supplier), x.supplier)
  {
    hide SuppliersOf, BestLevel, AtLevel, Latest, RowsFor;
    var ids := SuppliersOf(matched);
    if x in Cores(matched) {
      var k :| 0 <= k < |ids| && Cores(matched)[k] == x;
      assert ids[k] in ids;
    }
    if RowsFor(matched, x.supplier) != [] && x == CoreOf(RowsFor(matched, x.supplier), x.supplier) {
      SuppliersSeen(matched, x.supplier);
      var k :| 0 <= k < |ids| && ids[k] == x.supplier;
      assert Cores(matched)[k] == x;
    }
  }

  lemma CoreSeen(matched: seq<Match>, x: Core)
    ensures x in Cores(Included(matched, 3)) <==> x in Cores(matched)
  {
    hide Cores, CoreOf, RowsFor, Included;
    CoreMembership(matched, x);
    CoreMembership(Included(matched, 3), x);
    if RowsFor(matched, x.supplier) != [] { SameCore(matched, x.supplier); }
    if RowsFor(Included(matched, 3), x.supplier) != [] {
      assert RowsFor(Included(matched, 3), x.supplier)[0] in RowsFor(matched, x.supplier);
    }
  }

  /** The relaxation loop refines the one-shot computation: the final pool is the
      top 20 of all matched evidence, or a prefix of it with 10 eligible suppliers;
      it stops at the first tier with 10 eligible or 20 pooled, and no eligible
      supplier of an earlier tier is lost. */
  lemma LoopRefinesOneShot(matched: seq<Match>)
    ensures var t := StopFrom(matched, 0); var all := Top(SortedCores(matched));
      && Map(CoreField, Pool(matched, t)) <= all
      && (Map(CoreField, Pool(matched, t)) == all || |Eligible(Pool(matched, t))| >= TARGET_ELIGIBLE_CANDIDATE_COUNT)
      && (t == 3 || Stops(matched, t)) && (forall u :: 0 <= u < t ==> !Stops(matched, u))
      && (forall u :: 0 <= u < t ==>
            Map(CoreField, Eligible(Pool(matched, u))) <= Map(CoreField, Eligible(Pool(matched, t))))
  {
    hide SortedCores, Included, Map, Pool, Eligible, StopFrom;
    var t := StopFrom(matched, 0);
    StopIsFirst(matched, 0);
    LastTierIsAll(matched);
    PoolIsTop(matched, 3);
    PoolPrefix(matched, t, 3);
    forall u | 0 <= u < t
      ensures Map(CoreField, Eligible(Pool(matched, u))) <= Map(CoreField, Eligible(Pool(matched, t)))
    {
      EligiblePrefix(matched, u, t);
    }
  }

  /** Every candidate of a pool is eligible or excluded, never both, and an
      exclusion names the first rule that applies; every candidate has executions,
      so the last rule never does. */
  lemma FilterPartitions(matched: seq<Match>, t: nat)
    requires t < 4
    ensures var cs := Pool(matched, t);
      && |Eligible(cs)| + |Rejects(cs)| == |cs|
      && (forall c :: c in cs ==> (c in Eligible(cs) <==> !c.core.blacklisted && c.core.active))
      && (forall x :: x in Rejects(cs) ==>
            x.reason == if x.core.blacklisted then ActiveBlacklist else SupplierInactive)
  {
    hide Pool, Eligible, Rejects;
    var cs := Pool(matched, t);
    FilterCounts(cs);
    forall c | c in cs ensures c.core.executions != {} { PoolHasExecutions(matched, t, c); }
    forall x | x in Rejects(cs) ensures x.core.executions != {} {
      assert exists c :: c in cs && c.core == x.core;
    }
  }

  lemma {:induction false} FilterCounts(cs: seq<Candidate>)
    ensures |Eligible(cs)| + |Rejects(cs)| == |cs|
  {
    if cs != [] { FilterCounts(cs[..|cs| - 1]); }
  }

  lemma PoolHasExecutions(matched: seq<Match>, t: nat, c: Candidate)
    requires t < 4 && c in Pool(matched, t)
    ensures c.core.executions != {} && c.core.evidence != []
  {
    hide Sort, Included, SuppliersOf, BestLevel, RowsFor, Latest;
    var included := Included(matched, t);
    SameMultisetSameElements(Candidates(included), Sort(CandidateBefore, Candidates(included)));
    assert c in Candidates(included);
    var k :| 0 <= k < |Candidates(included)| && Candidates(included)[k] == c;
    var id := SuppliersOf(included)[k];
    CoreHasExecutions(RowsFor(included, id), id);
  }

  lemma CoreHasExecutions(rows: seq<Match>, id: nat)
    requires rows != []
    ensures CoreOf(rows, id).executions != {} && CoreOf(rows, id).evidence != []
  {
    hide BestLevel, AtLevel, Latest;
    var best := BestLevel(rows);
    var m :| m in rows && m.level == best;
    assert m.row.execution in CoreOf(rows, id).executions;
  }

  // ----- the imperative code

  /** CandidateBuilder.suppliers: group by supplier, then build one candidate each. */
  method BuildCandidates(matched: seq<Match>) returns (cs: seq<Candidate>)
    ensures cs == Candidates(matched)
  {
    hide CandidateOf, SuppliersOf, RowsFor;
    var order, grouped := GroupBySupplier(matched);
    cs := [];
    for k := 0 to |order|
      invariant cs == Candidates(matched)[..k]
    {
      SuppliersSeen(matched, order[k]);
      assert order[k] in order && Candidates(matched)[k] == CandidateOf(RowsFor(matched, order[k]), order[k]);
      cs := cs + [CandidateOf(grouped[order[k]], order[k])];
    }
    assert cs == Candidates(matched);
  }

  /** `grouped` is the grouping dict of the rows, `order` its keys as inserted. */
  ghost predicate Grouped(matched: seq<Match>, order: seq<nat>, grouped: map<nat, seq<Match>>) {
    && order == SuppliersOf(matched)
    && (forall id :: id in grouped <==> id in order)
    && (forall id :: id in grouped ==> grouped[id] == RowsFor(matched, id))
  }

  method GroupBySupplier(matched: seq<Match>) returns (order: seq<nat>, grouped: map<nat, seq<Match>>)
    ensures Grouped(matched, order, grouped)
  {
    hide Grouped;
    order, grouped := [], map[];
    NoRows();
    for k := 0 to |matched|
      invariant Grouped(matched[..k], order, grouped)
    {
      var id := matched[k].row.supplier;
      AddRow(matched, k, order, grouped);
      if id !in grouped { order, grouped := order + [id], grouped[id := []]; }
      grouped := grouped[id := grouped[id] + [matched[k]]];
    }
    assert matched[..|matched|] == matched;
  }

  lemma NoRows()
    ensures Grouped([], [], map[])
  {}

  /** What one more row does to the groups. */
  lemma AddRow(matched: seq<Match>, k: nat, order: seq<nat>, grouped: map<nat, seq<Match>>)
    requires k < |matched| && Grouped(matched[..k], order, grouped)
    ensures var id := matched[k].row.supplier;
      if id in grouped then Grouped(matched[..k + 1], order, grouped[id := grouped[id] + [matched[k]]])
      else Grouped(matched[..k + 1], order + [id], grouped[id := []][id := [] + [matched[k]]])
  {
    hide RowsFor, SuppliersOf;
    var before, after, id := matched[..k], matched[..k + 1], matched[k].row.supplier;
    assert after == before + [matched[k]];
    OneMoreSupplier(before, matched[k]);
    forall i ensures RowsFor(after, i) == RowsFor(before, i) + if i == id then [matched[k]] else [] {
      OneMoreRow(before, matched[k], i);
    }
    if id in grouped { assert Grouped(after, order, grouped[id := grouped[id] + [matched[k]]]); }
    else {
      SuppliersSeen(before, id);
      assert Grouped(after, order + [id], grouped[id := []][id := [] + [matched[k]]]);
    }
  }

  /** HardFilter.suppliers */
  method HardFilter(candidates: seq<Candidate>) returns (eligible: seq<Candidate>, excluded: seq<Excluded>)
    ensures eligible == Eligible(candidates) && excluded == Rejects(candidates)
  {
    eligible, excluded := [], [];
    for k := 0 to |candidates|
      invariant eligible == Eligible(candidates[..k]) && excluded == Rejects(candidates[..k])
    {
      assert candidates[..k + 1][..k] == candidates[..k];
      var c, code := candidates[k], None;
      if c.core.blacklisted { code := Some(ActiveBlacklist); }
      else if !c.core.active { code := Some(SupplierInactive); }
      else if c.core.executions == {} { code := Some(NoExecutionHistory); }
      if code.None? { eligible := eligible + [c]; } else { excluded := excluded + [Excluded(c.core, code.value)]; }
    }
    assert candidates[..|candidates|] == candidates;
  }

  lemma PoolOf(matched: seq<Match>, t: nat, included: seq<Match>)
    requires t < 4 && included == Included(matched, t)
    ensures Pool(matched, t) == Top(Sort(CandidateBefore, Candidates(included)))
  {}

  /** The loop of recommend_suppliers over MATCH_ORDER. */
  method RelaxTiers(matched: seq<Match>) returns (eligible: seq<Candidate>, excluded: seq<Excluded>)
    ensures var pool := Pool(matched, StopFrom(matched, 0)); eligible == Eligible(pool) && excluded == Rejects(pool)
  {
    hide Candidates, Sort, Eligible, Rejects, AtLevel, Pool, LevelAt, Top;
    var included: seq<Match> := [];
    eligible, excluded := [], [];
    for t := 0 to 4
      invariant included == if t == 0 then [] else Included(matched, t - 1)
      invariant t < 4 ==> StopFrom(matched, t) == StopFrom(matched, 0)
      invariant t > 0 ==> eligible == Eligible(Pool(matched, t - 1)) && excluded == Rejects(Pool(matched, t - 1))
      invariant t == 4 ==> StopFrom(matched, 0) == 3
    {
      included := included + AtLevel(matched, LevelAt(t));
      var raw := BuildCandidates(included);
      raw := Sort(CandidateBefore, raw);
      raw := Top(raw);
      PoolOf(matched, t, included);
      eligible, excluded := HardFilter(raw);
      if |eligible| >= TARGET_ELIGIBLE_CANDIDATE_COUNT || |raw| >= MAX_CANDIDATE_POOL_SIZE {
        break;
      }
    }
  }
}
