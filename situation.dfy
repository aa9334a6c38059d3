/**
 * The situation summary (rounds per cost tier, total rounds, classes present)
 * and the categorisation of the roster into cost tiers, each tier sorted by
 * price with Python's stable `sorted`.
 */
module Situation {
  import opened Wrappers
  import opened Domain

  const PremiumThreshold: int := 400_000
  const ModerateThreshold: int := 30_000

  predicate IsPremium(s: AvailableSystem) { s.costPerShot >= PremiumThreshold }
  predicate IsModerate(s: AvailableSystem) { ModerateThreshold <= s.costPerShot < PremiumThreshold }
  predicate IsEconomical(s: AvailableSystem) { s.costPerShot < ModerateThreshold }

  predicate IsDrone(s: AvailableSystem) { s.systemType == InterceptorDrone }
  predicate IsMobileGroup(s: AvailableSystem) { s.systemType == MobileGroup }
  predicate IsHelicopter(s: AvailableSystem) { s.systemType == Helicopter }

  /** A list comprehension with a condition: the entries satisfying `p`, in roster order. */
  function Filter(xs: seq<AvailableSystem>, p: AvailableSystem -> bool): (r: seq<AvailableSystem>)
    ensures |r| <= |xs|
    ensures forall x :: x in r <==> x in xs && p(x)
  {
    if xs == [] then [] else (if p(xs[0]) then [xs[0]] else []) + Filter(xs[1..], p)
  }

  /** `sum(s.missiles_available for s in xs if p(s))` */
  function MissilesWhere(xs: seq<AvailableSystem>, p: AvailableSystem -> bool): int
  {
    if xs == [] then 0
    else (if p(xs[0]) then xs[0].missilesAvailable else 0) + MissilesWhere(xs[1..], p)
  }

  /** `sum(s.missiles_available for s in xs)` */
  function TotalMissiles(xs: seq<AvailableSystem>): int
  {
    if xs == [] then 0 else xs[0].missilesAvailable + TotalMissiles(xs[1..])
  }

  /** Every entry lies in exactly one tier, so the tier totals add up to the total. */
  lemma {:induction false} TiersPartitionTotal(xs: seq<AvailableSystem>)
    ensures MissilesWhere(xs, IsPremium) + MissilesWhere(xs, IsModerate) + MissilesWhere(xs, IsEconomical)
            == TotalMissiles(xs)
  {
    if xs != [] {
      TiersPartitionTotal(xs[1..]);
    }
  }

  datatype Summary = Summary(
    premiumMissiles: int,
    moderateMissiles: int,
    economicalUnits: int,
    totalMissiles: int,
    systemTypes: set<SystemType>,
    systems: seq<AvailableSystem>)

  function Summarize(systems: seq<AvailableSystem>): (s: Summary)
    ensures s.premiumMissiles + s.moderateMissiles + s.economicalUnits == s.totalMissiles
    ensures s.systems == systems
    ensures forall t :: t in s.systemTypes <==> exists i :: 0 <= i < |systems| && systems[i].systemType == t
  {
    TiersPartitionTotal(systems);
    Summary(
      MissilesWhere(systems, IsPremium),
      MissilesWhere(systems, IsModerate),
      MissilesWhere(systems, IsEconomical),
      TotalMissiles(systems),
      set i | 0 <= i < |systems| :: systems[i].systemType,
      systems)
  }

  /** `[s.system_type.value for s in xs]` */
  function SystemValues(xs: seq<AvailableSystem>): (r: seq<string>)
    ensures |r| == |xs|
    ensures forall i :: 0 <= i < |xs| ==> r[i] == xs[i].systemType.Value()
  {
    seq(|xs|, i requires 0 <= i < |xs| => xs[i].systemType.Value())
  }

  // ---------------------------------------------------------------------------
  // Stable sort by price
  // ---------------------------------------------------------------------------

  /** `x` may stand before `y` in the sorted order (ties keep roster order). */
  predicate Precedes(x: AvailableSystem, y: AvailableSystem, descending: bool)
  {
    if descending then x.costPerShot >= y.costPerShot else x.costPerShot <= y.costPerShot
  }

  predicate SortedByCost(xs: seq<AvailableSystem>, descending: bool)
  {
    forall i, j :: 0 <= i < j < |xs| ==> Precedes(xs[i], xs[j], descending)
  }

  /** Places `x`, which came earlier in the roster, before every entry it ties with. */
  function Insert(x: AvailableSystem, ys: seq<AvailableSystem>, descending: bool): (r: seq<AvailableSystem>)
    ensures multiset(r) == multiset(ys) + multiset{x}
    ensures |r| == |ys| + 1
  {
    if ys == [] || Precedes(x, ys[0], descending) then [x] + ys
    else
      assert ys == [ys[0]] + ys[1..];
      [ys[0]] + Insert(x, ys[1..], descending)
  }

  lemma {:induction false} InsertKeepsSorted(x: AvailableSystem, ys: seq<AvailableSystem>, descending: bool)
    requires SortedByCost(ys, descending)
    ensures SortedByCost(Insert(x, ys, descending), descending)
  {
    if ys == [] || Precedes(x, ys[0], descending) {
      InsertFrontSorted(x, ys, descending);
    } else {
      var rest := Insert(x, ys[1..], descending);
      InsertKeepsSorted(x, ys[1..], descending);
      HeadPrecedesInserted(x, ys, descending);
      ConsSorted(ys[0], rest, descending);
    }
  }

  /** Putting `x` in front keeps the order when it precedes the old head. */
  lemma InsertFrontSorted(x: AvailableSystem, ys: seq<AvailableSystem>, descending: bool)
    requires SortedByCost(ys, descending)
    requires ys == [] || Precedes(x, ys[0], descending)
    ensures SortedByCost([x] + ys, descending)
  {
    var r := [x] + ys;
    forall i, j | 0 <= i < j < |r| ensures Precedes(r[i], r[j], descending) {
      if i > 0 {
        assert r[i] == ys[i - 1] && r[j] == ys[j - 1];
      } else if j > 1 {
        assert Precedes(ys[0], ys[j - 1], descending);
      }
    }
  }

  /** When `x` goes behind the head, the head precedes everything after it. */
  lemma HeadPrecedesInserted(x: AvailableSystem, ys: seq<AvailableSystem>, descending: bool)
    requires SortedByCost(ys, descending)
    requires ys != [] && !Precedes(x, ys[0], descending)
    ensures forall j :: 0 <= j < |Insert(x, ys[1..], descending)| ==>
      Precedes(ys[0], Insert(x, ys[1..], descending)[j], descending)
  {
    var rest := Insert(x, ys[1..], descending);
    forall j | 0 <= j < |rest| ensures Precedes(ys[0], rest[j], descending) {
      assert rest[j] in multiset(rest);
      assert rest[j] in multiset(ys[1..]) + multiset{x};
      if rest[j] != x {
        assert rest[j] in ys[1..];
        var k :| 0 <= k < |ys[1..]| && ys[1..][k] == rest[j];
        assert ys[k + 1] == rest[j];
      }
    }
  }

  /** A head that precedes every element of a sorted list extends it. */
  lemma ConsSorted(y: AvailableSystem, rest: seq<AvailableSystem>, descending: bool)
    requires SortedByCost(rest, descending)
    requires forall j :: 0 <= j < |rest| ==> Precedes(y, rest[j], descending)
    ensures SortedByCost([y] + rest, descending)
  {
    var r := [y] + rest;
    forall i, j | 0 <= i < j < |r| ensures Precedes(r[i], r[j], descending) {
      if i > 0 {
        assert r[i] == rest[i - 1] && r[j] == rest[j - 1];
      } else {
        assert r[j] == rest[j - 1];
      }
    }
  }

  /** Python's `sorted(xs, key=cost_per_shot, reverse=descending)`, which is stable. */
  function SortByCost(xs: seq<AvailableSystem>, descending: bool): (r: seq<AvailableSystem>)
    ensures multiset(r) == multiset(xs)
    ensures |r| == |xs|
    ensures SortedByCost(r, descending)
  {
    if xs == [] then []
    else
      assert xs == [xs[0]] + xs[1..];
      InsertKeepsSorted(xs[0], SortByCost(xs[1..], descending), descending);
      Insert(xs[0], SortByCost(xs[1..], descending), descending)
  }

  /** `y` sorts before `x` whatever their roster order: strictly cheaper (or dearer). */
  predicate Beats(y: AvailableSystem, x: AvailableSystem, descending: bool)
  {
    !Precedes(x, y, descending)
  }

  /**
   * The roster index of the first entry satisfying `p` that no other such entry
   * beats: the entry a stable sort of those entries puts first.
   */
  function FirstBestIndex(xs: seq<AvailableSystem>, p: AvailableSystem -> bool, descending: bool): (r: Option<nat>)
    ensures r.None? <==> forall i :: 0 <= i < |xs| ==> !p(xs[i])
    ensures r.Some? ==> r.value < |xs| && p(xs[r.value])
    ensures r.Some? ==> forall j :: 0 <= j < |xs| && p(xs[j]) ==> Precedes(xs[r.value], xs[j], descending)
    ensures r.Some? ==> forall j :: 0 <= j < r.value && p(xs[j]) ==> Beats(xs[r.value], xs[j], descending)
  {
    if xs == [] then None
    else
      var rest := FirstBestIndex(xs[1..], p, descending);
      if !p(xs[0]) then
        (if rest.None? then None else Some(rest.value + 1))
      else if rest.Some? && Beats(xs[1..][rest.value], xs[0], descending) then
        Some(rest.value + 1)
      else
        Some(0)
  }

  lemma {:induction false} FilterEmpty(xs: seq<AvailableSystem>, p: AvailableSystem -> bool)
    ensures Filter(xs, p) == [] <==> forall i :: 0 <= i < |xs| ==> !p(xs[i])
  {
    if Filter(xs, p) != [] {
      assert Filter(xs, p)[0] in Filter(xs, p);
    }
  }

  /** The head of the stably sorted entries satisfying `p` is the first best such entry. */
  lemma {:induction false} SortedHeadIsFirstBest(xs: seq<AvailableSystem>, p: AvailableSystem -> bool, descending: bool)
    requires FirstBestIndex(xs, p, descending).Some?
    ensures |SortByCost(Filter(xs, p), descending)| > 0
    ensures SortByCost(Filter(xs, p), descending)[0] == xs[FirstBestIndex(xs, p, descending).value]
  {
    var tail := xs[1..];
    if FirstBestIndex(tail, p, descending).Some? {
      SortedHeadIsFirstBest(tail, p, descending);
    }
    if p(xs[0]) {
      SortedHeadKeep(xs, p, descending);
    } else {
      SortedHeadSkip(xs, p, descending);
    }
  }

  /** The inductive step when the first entry does not qualify. */
  lemma SortedHeadSkip(xs: seq<AvailableSystem>, p: AvailableSystem -> bool, descending: bool)
    requires xs != [] && !p(xs[0]) && FirstBestIndex(xs, p, descending).Some?
    requires FirstBestIndex(xs[1..], p, descending).Some? ==>
      && |SortByCost(Filter(xs[1..], p), descending)| > 0
      && SortByCost(Filter(xs[1..], p), descending)[0] == xs[1..][FirstBestIndex(xs[1..], p, descending).value]
    ensures |SortByCost(Filter(xs, p), descending)| > 0
    ensures SortByCost(Filter(xs, p), descending)[0] == xs[FirstBestIndex(xs, p, descending).value]
  {
    var tail := xs[1..];
    assert Filter(xs, p) == Filter(tail, p);
    var rest := FirstBestIndex(tail, p, descending);
    assert xs[rest.value + 1] == tail[rest.value];
  }

  /** The inductive step when the first entry qualifies: it heads the sort unless the tail's best beats it. */
  lemma SortedHeadKeep(xs: seq<AvailableSystem>, p: AvailableSystem -> bool, descending: bool)
    requires xs != [] && p(xs[0])
    requires FirstBestIndex(xs[1..], p, descending).Some? ==>
      && |SortByCost(Filter(xs[1..], p), descending)| > 0
      && SortByCost(Filter(xs[1..], p), descending)[0] == xs[1..][FirstBestIndex(xs[1..], p, descending).value]
    ensures |SortByCost(Filter(xs, p), descending)| > 0
    ensures SortByCost(Filter(xs, p), descending)[0] == xs[FirstBestIndex(xs, p, descending).value]
  {
    var sf := SortByCost(Filter(xs[1..], p), descending);
    SortQualifyingHead(xs, p, descending);
    InsertHead(xs[0], sf, descending);
    var rest := FirstBestIndex(xs[1..], p, descending);
    if rest.Some? {
      var y := xs[1..][rest.value];
      assert xs[rest.value + 1] == y;
      if Beats(y, xs[0], descending) {
        FirstBestStep(xs, p, descending, Some(rest.value + 1));
      } else {
        FirstBestStep(xs, p, descending, Some(0));
      }
    } else {
      assert sf == [] by {
        FilterEmpty(xs[1..], p);
      }
      FirstBestStep(xs, p, descending, Some(0));
    }
  }

  /** One unfolding of the first-best search at a qualifying first entry. */
  lemma FirstBestStep(xs: seq<AvailableSystem>, p: AvailableSystem -> bool, descending: bool, r: Option<nat>)
    requires xs != [] && p(xs[0])
    requires r == (var rest := FirstBestIndex(xs[1..], p, descending);
                   if rest.Some? && Beats(xs[1..][rest.value], xs[0], descending) then Some(rest.value + 1) else Some(0))
    ensures FirstBestIndex(xs, p, descending) == r
  {
  }

  /** A qualifying first entry is inserted into the sorted qualifying rest. */
  lemma SortQualifyingHead(xs: seq<AvailableSystem>, p: AvailableSystem -> bool, descending: bool)
    requires xs != [] && p(xs[0])
    ensures SortByCost(Filter(xs, p), descending) == Insert(xs[0], SortByCost(Filter(xs[1..], p), descending), descending)
  {
    var f := Filter(xs[1..], p);
    assert Filter(xs, p) == [xs[0]] + f;
    assert ([xs[0]] + f)[1..] == f;
  }

  /** The head after inserting `x`: `x` itself unless the old head beats it. */
  lemma InsertHead(x: AvailableSystem, ys: seq<AvailableSystem>, descending: bool)
    ensures Insert(x, ys, descending)[0] == if ys == [] || Precedes(x, ys[0], descending) then x else ys[0]
  {
  }

  /** Filtering a list that starts with `x`. */
  lemma {:induction false} FilterCons(x: AvailableSystem, ys: seq<AvailableSystem>, q: AvailableSystem -> bool)
    ensures Filter([x] + ys, q) == (if q(x) then [x] else []) + Filter(ys, q)
  {
    assert ([x] + ys)[0] == x;
    assert ([x] + ys)[1..] == ys;
  }

  /** When `x` goes to the front, it also goes to the front of any sorted sub-list. */
  lemma {:induction false} FilterInsertFront(x: AvailableSystem, ys: seq<AvailableSystem>, q: AvailableSystem -> bool, descending: bool)
    requires SortedByCost(ys, descending)
    requires ys == [] || Precedes(x, ys[0], descending)
    ensures Insert(x, Filter(ys, q), descending) == [x] + Filter(ys, q)
  {
    var fy := Filter(ys, q);
    if fy != [] {
      assert fy[0] in ys;
      var k :| 0 <= k < |ys| && ys[k] == fy[0];
      assert k == 0 || Precedes(ys[0], ys[k], descending);
    }
  }

  /** When `x` goes behind `y`, filtering commutes with the insertion past `y`. */
  lemma {:induction false} FilterInsertBehind(x: AvailableSystem, y: AvailableSystem, tail: seq<AvailableSystem>,
                           q: AvailableSystem -> bool, descending: bool)
    requires !Precedes(x, y, descending)
    requires Filter(Insert(x, tail, descending), q) ==
      if q(x) then Insert(x, Filter(tail, q), descending) else Filter(tail, q)
    ensures Filter([y] + Insert(x, tail, descending), q) ==
      if q(x) then Insert(x, Filter([y] + tail, q), descending) else Filter([y] + tail, q)
  {
    FilterCons(y, Insert(x, tail, descending), q);
    FilterCons(y, tail, q);
    var ft := Filter(tail, q);
    if q(x) {
      if q(y) {
        var fy := [y] + ft;
        assert fy[0] == y && fy[1..] == ft;
        assert Insert(x, fy, descending) == [y] + Insert(x, ft, descending);
      } else {
        assert Filter([y] + tail, q) == ft;
      }
    }
  }

  lemma {:induction false} FilterInsert(x: AvailableSystem, ys: seq<AvailableSystem>, q: AvailableSystem -> bool, descending: bool)
    requires SortedByCost(ys, descending)
    ensures Filter(Insert(x, ys, descending), q) ==
      if q(x) then Insert(x, Filter(ys, q), descending) else Filter(ys, q)
  {
    if ys == [] || Precedes(x, ys[0], descending) {
      assert Insert(x, ys, descending) == [x] + ys;
      FilterCons(x, ys, q);
      FilterInsertFront(x, ys, q, descending);
    } else {
      var tail := ys[1..];
      assert ys == [ys[0]] + tail;
      assert SortedByCost(tail, descending);
      FilterInsert(x, tail, q, descending);
      assert Insert(x, ys, descending) == [ys[0]] + Insert(x, tail, descending);
      FilterInsertBehind(x, ys[0], tail, q, descending);
    }
  }

  /** Filtering a stably sorted list gives the stable sort of the filtered list. */
  lemma {:induction false} FilterSortCommute(xs: seq<AvailableSystem>, q: AvailableSystem -> bool, descending: bool)
    ensures Filter(SortByCost(xs, descending), q) == SortByCost(Filter(xs, q), descending)
  {
    if xs != [] {
      var tail := xs[1..];
      FilterSortCommute(tail, q, descending);
      FilterInsert(xs[0], SortByCost(tail, descending), q, descending);
      if q(xs[0]) {
        assert Filter(xs, q) == [xs[0]] + Filter(tail, q);
        assert ([xs[0]] + Filter(tail, q))[1..] == Filter(tail, q);
      } else {
        assert Filter(xs, q) == Filter(tail, q);
      }
    }
  }

  lemma {:induction false} FilterFilter(xs: seq<AvailableSystem>, p: AvailableSystem -> bool, q: AvailableSystem -> bool,
                                         pq: AvailableSystem -> bool)
    requires forall x :: pq(x) == (p(x) && q(x))
    ensures Filter(Filter(xs, p), q) == Filter(xs, pq)
  {
    if xs != [] {
      var tail := xs[1..];
      assert xs == [xs[0]] + tail;
      FilterFilter(tail, p, q, pq);
      FilterCons(xs[0], tail, p);
      FilterCons(xs[0], tail, pq);
      assert pq(xs[0]) == (p(xs[0]) && q(xs[0]));
      if p(xs[0]) {
        FilterCons(xs[0], Filter(tail, p), q);
        assert Filter(xs, p) == [xs[0]] + Filter(tail, p);
        assert Filter(Filter(xs, p), q) == (if q(xs[0]) then [xs[0]] else []) + Filter(tail, pq);
      } else {
        assert Filter(xs, p) == Filter(tail, p);
      }
    }
  }

  // ---------------------------------------------------------------------------
  // Categorisation
  // ---------------------------------------------------------------------------

  /** The tiers and the economical sub-lists the calculators read. */
  datatype Categories = Categories(
    premium: seq<AvailableSystem>,      // cost >= 400 000, dearest first
    moderate: seq<AvailableSystem>,     // 30 000 <= cost < 400 000, dearest first
    economical: seq<AvailableSystem>,   // cost < 30 000, cheapest first
    drones: seq<AvailableSystem>,
    mobileGroups: seq<AvailableSystem>,
    helicopters: seq<AvailableSystem>)

  function Categorize(systems: seq<AvailableSystem>): (c: Categories)
    ensures forall x :: x in c.premium <==> x in systems && IsPremium(x)
    ensures forall x :: x in c.moderate <==> x in systems && IsModerate(x)
    ensures forall x :: x in c.economical <==> x in systems && IsEconomical(x)
    ensures forall x :: x in c.drones <==> x in systems && IsEconomical(x) && IsDrone(x)
    ensures forall x :: x in c.mobileGroups <==> x in systems && IsEconomical(x) && IsMobileGroup(x)
    ensures forall x :: x in c.helicopters <==> x in systems && IsEconomical(x) && IsHelicopter(x)
  {
    var premium := SortByCost(Filter(systems, IsPremium), true);
    var moderate := SortByCost(Filter(systems, IsModerate), true);
    var economical := SortByCost(Filter(systems, IsEconomical), false);
    assert forall x :: x in economical <==> x in multiset(Filter(systems, IsEconomical));
    assert forall x :: x in premium <==> x in multiset(Filter(systems, IsPremium));
    assert forall x :: x in moderate <==> x in multiset(Filter(systems, IsModerate));
    Categories(premium, moderate, economical,
               Filter(economical, IsDrone), Filter(economical, IsMobileGroup), Filter(economical, IsHelicopter))
  }

  /** A list holding exactly the roster entries satisfying `p` is empty exactly when no entry does. */
  lemma EmptyIffNone(l: seq<AvailableSystem>, systems: seq<AvailableSystem>, p: AvailableSystem -> bool)
    requires forall x :: x in l <==> x in systems && p(x)
    ensures l == [] <==> forall i :: 0 <= i < |systems| ==> !p(systems[i])
  {
    if l != [] {
      assert l[0] in l;
    } else {
      forall i | 0 <= i < |systems| ensures !p(systems[i]) {
        assert systems[i] in systems;
      }
    }
  }

  /** Entry `i` is the first entry of the roster with the highest price. */
  predicate IsFirstDearest(systems: seq<AvailableSystem>, i: int)
  {
    && 0 <= i < |systems|
    && (forall j :: 0 <= j < |systems| ==> systems[j].costPerShot <= systems[i].costPerShot)
    && (forall j :: 0 <= j < i ==> systems[j].costPerShot < systems[i].costPerShot)
  }

  /** Entry `i` is the first entry of the roster with the lowest price. */
  predicate IsFirstCheapest(systems: seq<AvailableSystem>, i: int)
  {
    && 0 <= i < |systems|
    && (forall j :: 0 <= j < |systems| ==> systems[i].costPerShot <= systems[j].costPerShot)
    && (forall j :: 0 <= j < i ==> systems[i].costPerShot < systems[j].costPerShot)
  }

  /** Entry `i` satisfies `p`, and is the first of the cheapest entries that do. */
  predicate IsFirstCheapestWhere(systems: seq<AvailableSystem>, p: AvailableSystem -> bool, i: int)
  {
    && 0 <= i < |systems| && p(systems[i])
    && (forall j :: 0 <= j < |systems| && p(systems[j]) ==> systems[i].costPerShot <= systems[j].costPerShot)
    && (forall j :: 0 <= j < i && p(systems[j]) ==> systems[i].costPerShot < systems[j].costPerShot)
  }

  /** Entry `i` satisfies `p`, and is the first of the dearest entries that do. */
  predicate IsFirstDearestWhere(systems: seq<AvailableSystem>, p: AvailableSystem -> bool, i: int)
  {
    && 0 <= i < |systems| && p(systems[i])
    && (forall j :: 0 <= j < |systems| && p(systems[j]) ==> systems[j].costPerShot <= systems[i].costPerShot)
    && (forall j :: 0 <= j < i && p(systems[j]) ==> systems[j].costPerShot < systems[i].costPerShot)
  }

  /** The first best entry of a tier bounded below by a price is the roster's first dearest entry. */
  lemma UpperTierHead(xs: seq<AvailableSystem>, p: AvailableSystem -> bool, threshold: int, i: nat)
    requires forall x :: p(x) <==> x.costPerShot >= threshold
    requires FirstBestIndex(xs, p, true) == Some(i)
    ensures IsFirstDearest(xs, i)
  {
  }

  /** The first best entry of a tier bounded above by a price is the roster's first cheapest entry. */
  lemma LowerTierHead(xs: seq<AvailableSystem>, p: AvailableSystem -> bool, threshold: int, i: nat)
    requires forall x :: p(x) <==> x.costPerShot < threshold
    requires FirstBestIndex(xs, p, false) == Some(i)
    ensures IsFirstCheapest(xs, i)
  {
  }

  /** `premium[0]` is the first entry of the whole roster with the highest price. */
  lemma PremiumHead(systems: seq<AvailableSystem>) returns (i: nat)
    requires Categorize(systems).premium != []
    ensures IsFirstDearest(systems, i) && Categorize(systems).premium[0] == systems[i]
    ensures IsPremium(systems[i])
  {
    assert Categorize(systems).premium == SortByCost(Filter(systems, IsPremium), true);
    assert Categorize(systems).premium[0] in systems;
    SortedHeadIsFirstBest(systems, IsPremium, true);
    i := FirstBestIndex(systems, IsPremium, true).value;
    UpperTierHead(systems, IsPremium, PremiumThreshold, i);
  }

  /** `economical[0]` is the first entry of the whole roster with the lowest price. */
  lemma EconomicalHead(systems: seq<AvailableSystem>) returns (i: nat)
    requires Categorize(systems).economical != []
    ensures IsFirstCheapest(systems, i) && Categorize(systems).economical[0] == systems[i]
    ensures IsEconomical(systems[i])
  {
    assert Categorize(systems).economical == SortByCost(Filter(systems, IsEconomical), false);
    assert Categorize(systems).economical[0] in systems;
    SortedHeadIsFirstBest(systems, IsEconomical, false);
    i := FirstBestIndex(systems, IsEconomical, false).value;
    LowerTierHead(systems, IsEconomical, ModerateThreshold, i);
  }

  /** `moderate[0]` is the first moderate-tier entry with the highest price in that tier. */
  lemma ModerateHead(systems: seq<AvailableSystem>) returns (i: nat)
    requires Categorize(systems).moderate != []
    ensures i < |systems| && IsModerate(systems[i]) && Categorize(systems).moderate[0] == systems[i]
    ensures forall j :: 0 <= j < |systems| && IsModerate(systems[j]) ==> systems[j].costPerShot <= systems[i].costPerShot
    ensures forall j :: 0 <= j < i && IsModerate(systems[j]) ==> systems[j].costPerShot < systems[i].costPerShot
  {
    var r := FirstBestIndex(systems, IsModerate, true);
    assert Categorize(systems).moderate[0] in systems;
    SortedHeadIsFirstBest(systems, IsModerate, true);
    i := r.value;
  }

  predicate IsEconomicalDrone(s: AvailableSystem) { IsEconomical(s) && IsDrone(s) }
  predicate IsEconomicalMobileGroup(s: AvailableSystem) { IsEconomical(s) && IsMobileGroup(s) }
  predicate IsEconomicalHelicopter(s: AvailableSystem) { IsEconomical(s) && IsHelicopter(s) }

  /**
   * Selecting one class out of the cheapest-first economical list equals sorting
   * that class's economical entries: its head is the first cheapest of them.
   */
  lemma {:induction false} EconomicalClass(systems: seq<AvailableSystem>, cls: AvailableSystem -> bool,
                                            econCls: AvailableSystem -> bool)
    requires forall x :: econCls(x) == (IsEconomical(x) && cls(x))
    ensures Filter(Categorize(systems).economical, cls) == SortByCost(Filter(systems, econCls), false)
  {
    FilterSortCommute(Filter(systems, IsEconomical), cls, false);
    FilterFilter(systems, IsEconomical, cls, econCls);
  }

  /** `drones[0]` is the first cheapest economical interceptor drone of the roster. */
  lemma DroneHead(systems: seq<AvailableSystem>) returns (i: nat)
    requires Categorize(systems).drones != []
    ensures i < |systems| && IsEconomicalDrone(systems[i]) && Categorize(systems).drones[0] == systems[i]
    ensures forall j :: 0 <= j < |systems| && IsEconomicalDrone(systems[j]) ==> systems[i].costPerShot <= systems[j].costPerShot
    ensures forall j :: 0 <= j < i && IsEconomicalDrone(systems[j]) ==> systems[i].costPerShot < systems[j].costPerShot
  {
    EconomicalClass(systems, IsDrone, IsEconomicalDrone);
    var r := FirstBestIndex(systems, IsEconomicalDrone, false);
    assert Categorize(systems).drones[0] in systems;
    SortedHeadIsFirstBest(systems, IsEconomicalDrone, false);
    i := r.value;
  }

  /** `mobile_groups[0]` is the first cheapest economical mobile firing group of the roster. */
  lemma MobileGroupHead(systems: seq<AvailableSystem>) returns (i: nat)
    requires Categorize(systems).mobileGroups != []
    ensures i < |systems| && IsEconomicalMobileGroup(systems[i]) && Categorize(systems).mobileGroups[0] == systems[i]
    ensures forall j :: 0 <= j < |systems| && IsEconomicalMobileGroup(systems[j]) ==> systems[i].costPerShot <= systems[j].costPerShot
    ensures forall j :: 0 <= j < i && IsEconomicalMobileGroup(systems[j]) ==> systems[i].costPerShot < systems[j].costPerShot
  {
    EconomicalClass(systems, IsMobileGroup, IsEconomicalMobileGroup);
    var r := FirstBestIndex(systems, IsEconomicalMobileGroup, false);
    assert Categorize(systems).mobileGroups[0] in systems;
    SortedHeadIsFirstBest(systems, IsEconomicalMobileGroup, false);
    i := r.value;
  }

  /** The helicopter list holds exactly the roster's economical helicopters, all of them. */
  lemma HelicopterCount(systems: seq<AvailableSystem>)
    ensures |Categorize(systems).helicopters| == |Filter(systems, IsEconomicalHelicopter)|
  {
    EconomicalClass(systems, IsHelicopter, IsEconomicalHelicopter);
  }
}
