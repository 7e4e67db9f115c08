/** Token budget allocation for the system prompt (internal/engine/prompt/budget.go). */
module Budget {
  import opened Common

  /** A prompt section; ideal is what a budget-aware section asks for. */
  datatype Section = Section(name: string, priority: int, minTokens: int, ideal: Option<int>)

  /** Weight in percent of the whole budget. */
  datatype Tier = Tier(minPriority: int, maxPriority: int, weight: nat, guaranteed: bool)

  const TIERS: seq<Tier> := [
    Tier(1, 9, 10, true),
    Tier(10, 19, 15, true),
    Tier(20, 29, 45, false),
    Tier(30, 49, 25, false),
    Tier(90, 99, 5, false)]

  const MIN_SYSTEM_PROMPT := 1000

  type Allocation = map<string, int>

  predicate InTier(p: int, i: nat)
    requires i < |TIERS|
  {
    TIERS[i].minPriority <= p <= TIERS[i].maxPriority
  }

  /** The first tier holding priority p, or -1. */
  predicate IsTier(p: int, t: int) {
    if t < 0 then t == -1 && forall i :: 0 <= i < |TIERS| ==> !InTier(p, i)
    else t < |TIERS| && InTier(p, t) && forall i :: 0 <= i < t ==> !InTier(p, i)
  }

  function TierOf(p: int): (t: int)
    ensures IsTier(p, t)
  {
    if InTier(p, 0) then 0 else if InTier(p, 1) then 1 else if InTier(p, 2) then 2
    else if InTier(p, 3) then 3 else if InTier(p, 4) then 4 else -1
  }

  method FindTierIndex(p: int) returns (t: int)
    ensures IsTier(p, t) && t == TierOf(p)
  {
    t := 0;
    while t < |TIERS|
      invariant 0 <= t <= |TIERS|
      invariant forall i :: 0 <= i < t ==> !InTier(p, i)
    {
      if TIERS[t].minPriority <= p && p <= TIERS[t].maxPriority {
        return;
      }
      t := t + 1;
    }
    t := -1;
  }

  /** What the sections may assume of their names and minimums. */
  ghost predicate Sane(ss: seq<Section>) {
    && (forall i, j :: 0 <= i < j < |ss| ==> ss[i].name != ss[j].name)
    && (forall s :: s in ss ==> s.minTokens >= 0)
  }

  // ----- Sums -----

  function Of(a: Allocation, name: string): int {
    if name in a then a[name] else 0
  }

  /** Everything allocated to these sections. */
  function Total(ss: seq<Section>, a: Allocation): int {
    if ss == [] then 0 else Total(ss[..|ss| - 1], a) + Of(a, ss[|ss| - 1].name)
  }

  function MinTotal(ss: seq<Section>): int {
    if ss == [] then 0 else MinTotal(ss[..|ss| - 1]) + ss[|ss| - 1].minTokens
  }

  ghost predicate KeysFrom(ss: seq<Section>, a: Allocation) {
    forall n :: n in a ==> exists s :: s in ss && s.name == n
  }

  lemma {:induction false} TotalSame(ss: seq<Section>, a: Allocation, b: Allocation)
    requires forall s :: s in ss ==> Of(a, s.name) == Of(b, s.name)
    ensures Total(ss, a) == Total(ss, b)
  {
    if ss != [] {
      TotalSame(ss[..|ss| - 1], a, b);
    }
  }

  lemma SanePrefix(ss: seq<Section>, n: nat)
    requires Sane(ss) && n <= |ss|
    ensures Sane(ss[..n])
  {
  }

  /** Changing one section's share changes the total by the difference. */
  lemma {:induction false} TotalUpdate(ss: seq<Section>, a: Allocation, s: Section, v: int)
    requires Sane(ss) && s in ss
    ensures Total(ss, a[s.name := v]) == Total(ss, a) - Of(a, s.name) + v
  {
    var n := |ss| - 1;
    var b := a[s.name := v];
    SanePrefix(ss, n);
    if ss[n] == s {
      TotalSame(ss[..n], a, b);
    } else {
      var i :| 0 <= i < |ss| && ss[i] == s;
      assert ss[..n][i] == s;
      TotalUpdate(ss[..n], a, s, v);
    }
  }

  lemma {:induction false} TotalEmpty(ss: seq<Section>)
    ensures Total(ss, map[]) == 0
  {
    if ss != [] {
      TotalEmpty(ss[..|ss| - 1]);
    }
  }

  // ----- Emergency -----

  predicate Guaranteed(s: Section) {
    TierOf(s.priority) >= 0 && TIERS[TierOf(s.priority)].guaranteed
  }

  function GuaranteedIn(ss: seq<Section>): seq<Section> {
    if ss == [] then []
    else GuaranteedIn(ss[..|ss| - 1]) + if Guaranteed(ss[|ss| - 1]) then [ss[|ss| - 1]] else []
  }

  lemma {:induction false} GuaranteedMembers(ss: seq<Section>)
    ensures forall s :: s in GuaranteedIn(ss) <==> s in ss && Guaranteed(s)
    ensures |GuaranteedIn(ss)| <= |ss|
  {
    if ss != [] {
      GuaranteedMembers(ss[..|ss| - 1]);
    }
  }

  /** The equal share of a guaranteed section. */
  function Share(ss: seq<Section>, budget: int): int {
    if GuaranteedIn(ss) == [] then 0 else Quotient(budget, |GuaranteedIn(ss)|)
  }

  /** An equal share for the guaranteed sections, given only where it covers the minimum. */
  ghost predicate IsEmergency(ss: seq<Section>, budget: int, a: Allocation) {
    && KeysFrom(ss, a)
    && forall s :: s in ss ==>
         if Guaranteed(s) && Share(ss, budget) >= s.minTokens
         then s.name in a && a[s.name] == Share(ss, budget)
         else s.name !in a
  }

  lemma {:induction false} TotalBounded(ss: seq<Section>, a: Allocation, m: nat)
    requires forall s :: s in ss ==> Of(a, s.name) <= if Guaranteed(s) then m else 0
    ensures Total(ss, a) <= m * |GuaranteedIn(ss)|
  {
    hide Guaranteed, Of;
    if ss != [] {
      var front := ss[..|ss| - 1];
      TotalBounded(front, a, m);
      assert m * (|GuaranteedIn(front)| + 1) == m * |GuaranteedIn(front)| + m;
    }
  }

  lemma ShareFits(b: int, n: nat)
    requires n > 0
    ensures Max(0, Quotient(b, n)) * n <= Max(0, b)
  {
  }

  lemma EmergencyFits(ss: seq<Section>, budget: int, a: Allocation)
    requires Sane(ss) && IsEmergency(ss, budget, a)
    ensures Total(ss, a) <= Max(0, budget)
  {
    var m := Max(0, Share(ss, budget));
    forall s | s in ss ensures Of(a, s.name) <= if Guaranteed(s) then m else 0 {
    }
    TotalBounded(ss, a, m);
    if GuaranteedIn(ss) != [] {
      ShareFits(budget, |GuaranteedIn(ss)|);
    }
  }

  method AllocateEmergency(ss: seq<Section>, budget: int) returns (a: Allocation)
    requires Sane(ss)
    ensures IsEmergency(ss, budget, a) && Total(ss, a) <= Max(0, budget)
  {
    hide Guaranteed, Sane, Total, GuaranteedIn;
    a := map[];
    var guaranteed := CollectGuaranteed(ss);
    GuaranteedMembers(ss);
    if guaranteed != [] {
      a := GrantEqual(ss, guaranteed, Quotient(budget, |guaranteed|));
    }
    SameNameSameSection(ss, guaranteed);
    EmergencyFits(ss, budget, a);
  }

  method CollectGuaranteed(ss: seq<Section>) returns (guaranteed: seq<Section>)
    ensures guaranteed == GuaranteedIn(ss)
  {
    hide IsTier;
    guaranteed := [];
    for i := 0 to |ss|
      invariant guaranteed == GuaranteedIn(ss[..i])
    {
      assert ss[..i + 1][..i] == ss[..i];
      var t := FindTierIndex(ss[i].priority);
      if t >= 0 && TIERS[t].guaranteed {
        guaranteed := guaranteed + [ss[i]];
      }
    }
    assert ss[..|ss|] == ss;
  }

  method GrantEqual(ss: seq<Section>, part: seq<Section>, per: int) returns (a: Allocation)
    requires Sane(ss) && forall s :: s in part ==> s in ss
    ensures forall n :: n in a ==> exists s :: s in part && s.name == n
    ensures forall s :: s in part ==> if per >= s.minTokens then s.name in a && a[s.name] == per else s.name !in a
  {
    SameNameSameSection(ss, part);
    hide Sane;
    a := map[];
    for i := 0 to |part|
      invariant forall n :: n in a ==> exists s :: s in part[..i] && s.name == n
      invariant forall k :: 0 <= k < i ==>
                  if per >= part[k].minTokens then part[k].name in a && a[part[k].name] == per else part[k].name !in a
    {
      assert part[..i + 1] == part[..i] + [part[i]];
      if per >= part[i].minTokens {
        a := a[part[i].name := per];
      }
    }
    assert part[..|part|] == part;
  }

  /** Names identify sections. */
  lemma SameNameSameSection(ss: seq<Section>, part: seq<Section>)
    requires Sane(ss) && forall s :: s in part ==> s in ss
    ensures forall s, t :: s in ss && t in part && s.name == t.name ==> s == t
  {
  }

  // ----- Within a tier -----

  /** Everybody has at least the minimum, or nothing. */
  ghost predicate MinOrNothing(ss: seq<Section>, a: Allocation) {
    && KeysFrom(ss, a)
    && forall s :: s in ss && s.name in a ==> a[s.name] >= s.minTokens
  }

  lemma {:induction false} TotalOfShares(ss: seq<Section>, a: Allocation, extra: int)
    requires forall s :: s in ss ==> s.name in a && a[s.name] == s.minTokens + extra
    ensures Total(ss, a) == MinTotal(ss) + |ss| * extra
  {
    if ss != [] {
      TotalOfShares(ss[..|ss| - 1], a, extra);
    }
  }

  lemma PartFits(r: nat, n: nat)
    requires n > 0
    ensures 0 <= r / n && n * (r / n) <= r && (r == 0 ==> r / n == 0)
  {
  }

  lemma SharesMeetMin(ss: seq<Section>, a: Allocation, extra: nat)
    requires KeysFrom(ss, a) && forall s :: s in ss ==> s.name in a && a[s.name] == s.minTokens + extra
    ensures MinOrNothing(ss, a)
  {
  }

  method SumMin(ss: seq<Section>) returns (minTotal: int)
    ensures minTotal == MinTotal(ss)
  {
    minTotal := 0;
    for i := 0 to |ss|
      invariant minTotal == MinTotal(ss[..i])
    {
      assert ss[..i + 1][..i] == ss[..i];
      minTotal := minTotal + ss[i].minTokens;
    }
    assert ss[..|ss|] == ss;
  }

  /** First fit: in order, a section gets its minimum exactly when that fits into what the
      sections before it have left. */
  ghost predicate IsFirstFit(ss: seq<Section>, budget: int, a: Allocation) {
    forall k :: 0 <= k < |ss| ==> FitsAt(ss, budget, a, k)
  }

  ghost predicate FitsAt(ss: seq<Section>, budget: int, a: Allocation, k: nat)
    requires k < |ss|
  {
    if ss[k].minTokens <= budget - Total(ss[..k], a) then ss[k].name in a && a[ss[k].name] == ss[k].minTokens
    else ss[k].name !in a
  }

  /** What the sections of one tier get out of the tier's budget. */
  ghost predicate IsTierShare(ss: seq<Section>, budget: int, a: Allocation) {
    if MinTotal(ss) <= budget then
      forall s :: s in ss ==> s.name in a && a[s.name] == s.minTokens + (budget - MinTotal(ss)) / |ss|
    else IsFirstFit(ss, budget, a)
  }

  /** A later section's share changes nothing for the earlier ones. */
  lemma FirstFitStep(ss: seq<Section>, budget: int, a: Allocation, b: Allocation, i: nat)
    requires Sane(ss) && i < |ss| && (b == a || b == a[ss[i].name := ss[i].minTokens])
    requires forall k :: 0 <= k < i ==> FitsAt(ss, budget, a, k)
    requires FitsAt(ss, budget, b, i)
    ensures forall k :: 0 <= k <= i ==> FitsAt(ss, budget, b, k)
  {
    forall k | 0 <= k < i ensures FitsAt(ss, budget, b, k) {
      assert FitsAt(ss, budget, a, k) && ss[k].name != ss[i].name;
      PrefixSame(ss, a, b, i, k);
    }
  }

  lemma PrefixSame(ss: seq<Section>, a: Allocation, b: Allocation, i: nat, k: nat)
    requires Sane(ss) && k <= i < |ss| && (b == a || b == a[ss[i].name := ss[i].minTokens])
    ensures Total(ss[..k], b) == Total(ss[..k], a)
  {
    forall s | s in ss[..k] ensures Of(a, s.name) == Of(b, s.name) {
      var j :| 0 <= j < k && ss[j] == s;
      assert ss[j].name != ss[i].name;
    }
    TotalSame(ss[..k], a, b);
  }

  lemma TotalNext(ss: seq<Section>, a: Allocation, i: nat)
    requires i < |ss|
    ensures Total(ss[..i + 1], a) == Total(ss[..i], a) + Of(a, ss[i].name)
  {
    assert ss[..i + 1][..i] == ss[..i];
  }

  /** Minimums in order, skipping whatever no longer fits. */
  method GrantWhatFits(ss: seq<Section>, budget: int) returns (a: Allocation)
    requires Sane(ss) && budget >= 0
    ensures IsFirstFit(ss, budget, a) && MinOrNothing(ss, a) && Total(ss, a) <= budget
  {
    a := map[];
    var remaining := budget;
    assert ss[..0] == [];
    for i := 0 to |ss|
      invariant Total(ss[..i], a) == budget - remaining && remaining >= 0
      invariant forall n :: n in a ==> exists k :: 0 <= k < i && ss[k].name == n && a[n] == ss[k].minTokens
      invariant forall k :: 0 <= k < i ==> FitsAt(ss, budget, a, k)
    {
      ghost var before := a;
      assert ss[i].name !in a;
      hide Total, Of, FitsAt;
      if ss[i].minTokens <= remaining {
        a := a[ss[i].name := ss[i].minTokens];
        remaining := remaining - ss[i].minTokens;
      }
      PrefixSame(ss, before, a, i, i);
      TotalNext(ss, a, i);
      FitsNow(ss, budget, before, a, i);
      FirstFitStep(ss, budget, before, a, i);
    }
    assert ss[..|ss|] == ss;
  }

  lemma FitsNow(ss: seq<Section>, budget: int, a: Allocation, b: Allocation, i: nat)
    requires i < |ss| && ss[i].name !in a && Total(ss[..i], b) == Total(ss[..i], a)
    requires b == if ss[i].minTokens <= budget - Total(ss[..i], a) then a[ss[i].name := ss[i].minTokens] else a
    ensures FitsAt(ss, budget, b, i) && Of(b, ss[i].name) == if b == a then 0 else ss[i].minTokens
  {
  }

  /** The same extra for everybody. */
  method AddEqual(ss: seq<Section>, before: Allocation, per: int) returns (a: Allocation)
    requires Sane(ss) && KeysFrom(ss, before) && forall s :: s in ss ==> s.name in before
    ensures KeysFrom(ss, a)
    ensures forall s :: s in ss ==> s.name in a
    ensures forall s :: s in ss ==> a[s.name] == before[s.name] + per
  {
    a := before;
    for i := 0 to |ss|
      invariant a.Keys == before.Keys
      invariant forall k :: 0 <= k < |ss| ==> ss[k].name in before && a[ss[k].name] == before[ss[k].name] + if k < i then per else 0
    {
      a := a[ss[i].name := a[ss[i].name] + per];
    }
  }

  method AllocateWithinTier(ss: seq<Section>, budget: int) returns (a: Allocation)
    requires Sane(ss) && budget >= 0
    ensures MinOrNothing(ss, a) && Total(ss, a) <= budget
    ensures IsTierShare(ss, budget, a)
  {
    if ss == [] {
      TotalEmpty(ss);
      return map[];
    }
    hide Total, MinTotal, Of, MinOrNothing, Sane, IsFirstFit;
    var minTotal := SumMin(ss);
    if minTotal > budget {
      a := GrantWhatFits(ss, budget);
      return;
    }
    a := GrantAll(ss, budget);
  }

  /** Everybody's minimum and an equal part of the rest. */
  method GrantAll(ss: seq<Section>, budget: int) returns (a: Allocation)
    requires Sane(ss) && ss != [] && MinTotal(ss) <= budget
    ensures MinOrNothing(ss, a) && Total(ss, a) <= budget
    ensures forall s :: s in ss ==> s.name in a && a[s.name] == s.minTokens + (budget - MinTotal(ss)) / |ss|
  {
    hide Total, MinTotal, Of, KeysFrom, Sane, MinOrNothing;
    a := GrantMin(ss);
    var minTotal := SumMin(ss);
    var remaining := budget - minTotal;
    if remaining > 0 {
      a := AddEqual(ss, a, remaining / |ss|);
    }
    PartFits(remaining, |ss|);
    TotalOfShares(ss, a, remaining / |ss|);
    SharesMeetMin(ss, a, remaining / |ss|);
  }

  method GrantMin(ss: seq<Section>) returns (a: Allocation)
    requires Sane(ss)
    ensures KeysFrom(ss, a)
    ensures forall s :: s in ss ==> s.name in a && a[s.name] == s.minTokens
  {
    a := map[];
    for i := 0 to |ss|
      invariant KeysFrom(ss, a)
      invariant forall k :: 0 <= k < i ==> ss[k].name in a && a[ss[k].name] == ss[k].minTokens
    {
      a := a[ss[i].name := ss[i].minTokens];
    }
  }

  // ----- Static: by tier -----

  function InTierOf(ss: seq<Section>, t: int): seq<Section> {
    if ss == [] then []
    else InTierOf(ss[..|ss| - 1], t) + if TierOf(ss[|ss| - 1].priority) == t then [ss[|ss| - 1]] else []
  }

  lemma {:induction false} TierMembers(ss: seq<Section>, t: int)
    ensures forall s :: s in InTierOf(ss, t) <==> s in ss && TierOf(s.priority) == t
  {
    hide TierOf;
    if ss != [] {
      TierMembers(ss[..|ss| - 1], t);
      assert ss == ss[..|ss| - 1] + [ss[|ss| - 1]];
    }
  }

  lemma {:induction false} TierSane(ss: seq<Section>, t: int)
    requires Sane(ss)
    ensures Sane(InTierOf(ss, t))
  {
    if ss != [] {
      var front, last := ss[..|ss| - 1], ss[|ss| - 1];
      SanePrefix(ss, |ss| - 1);
      TierSane(front, t);
      TierMembers(front, t);
      forall s | s in InTierOf(front, t) ensures s.name != last.name {
        var i :| 0 <= i < |front| && front[i] == s;
      }
      assert last in ss;
      hide TierOf, InTierOf;
      SaneAppend(InTierOf(front, t), last);
    }
  }

  lemma SaneAppend(ss: seq<Section>, last: Section)
    requires Sane(ss) && last.minTokens >= 0 && forall s :: s in ss ==> s.name != last.name
    ensures Sane(ss + [last])
  {
  }

  lemma InTierMembers(ss: seq<Section>, t: int)
    requires Sane(ss)
    ensures forall s :: s in InTierOf(ss, t) <==> s in ss && TierOf(s.priority) == t
    ensures Sane(InTierOf(ss, t))
  {
    TierMembers(ss, t);
    TierSane(ss, t);
  }

  /** The total over one tier's sections is the total over all, when only they have shares. */
  lemma {:induction false} TotalOfTier(ss: seq<Section>, t: int, a: Allocation)
    requires forall s :: s in ss && TierOf(s.priority) != t ==> s.name !in a
    ensures Total(ss, a) == Total(InTierOf(ss, t), a)
  {
    hide TierOf;
    if ss != [] {
      var front, s := ss[..|ss| - 1], ss[|ss| - 1];
      TotalOfTier(front, t, a);
      var part := InTierOf(ss, t);
      if TierOf(s.priority) == t {
        assert part[..|part| - 1] == InTierOf(front, t) && part[|part| - 1] == s;
      } else {
        assert part == InTierOf(front, t) && s in ss;
      }
    }
  }

  /** Totals of shares for different sections add up. */
  lemma {:induction false} TotalMerge(ss: seq<Section>, a: Allocation, b: Allocation)
    requires forall s :: s in ss ==> s.name !in a || s.name !in b
    ensures Total(ss, a + b) == Total(ss, a) + Total(ss, b)
  {
    if ss != [] {
      TotalMerge(ss[..|ss| - 1], a, b);
    }
  }

  /** Only sections of the first n tiers have shares. */
  ghost predicate FromTiers(ss: seq<Section>, a: Allocation, n: int) {
    forall s :: s in ss && s.name in a ==> 0 <= TierOf(s.priority) < n
  }

  lemma MergeTier(ss: seq<Section>, a: Allocation, part: Allocation, t: nat)
    requires Sane(ss) && t < |TIERS| && MinOrNothing(ss, a) && FromTiers(ss, a, t) && MinOrNothing(InTierOf(ss, t), part)
    ensures MinOrNothing(ss, a + part) && FromTiers(ss, a + part, t + 1)
    ensures Total(ss, a + part) == Total(ss, a) + Total(InTierOf(ss, t), part)
  {
    PartFromTier(ss, part, t);
    hide Sane, TierOf, Total, InTierOf;
    MergeMin(ss, a, part);
    hide MinOrNothing;
    TotalOfTier(ss, t, part);
    TotalMerge(ss, a, part);
  }

  /** Shares given within tier t belong to its sections. */
  lemma PartFromTier(ss: seq<Section>, part: Allocation, t: nat)
    requires Sane(ss) && t < |TIERS| && MinOrNothing(InTierOf(ss, t), part)
    ensures MinOrNothing(ss, part) && forall s :: s in ss && s.name in part ==> TierOf(s.priority) == t
  {
    hide TierOf;
    InTierMembers(ss, t);
    SameNameSameSection(ss, InTierOf(ss, t));
    hide Sane, InTierOf;
    forall s | s in ss && s.name in part ensures TierOf(s.priority) == t && s in InTierOf(ss, t) {
      var x :| x in InTierOf(ss, t) && x.name == s.name;
    }
  }

  lemma MergeMin(ss: seq<Section>, a: Allocation, b: Allocation)
    requires MinOrNothing(ss, a) && MinOrNothing(ss, b)
    ensures MinOrNothing(ss, a + b)
  {
  }

  /** A tier's percentage of the budget. */
  function TierPart(budget: int, t: nat): (part: int)
    requires t < |TIERS|
    ensures budget >= 0 ==> 0 <= part <= budget
  {
    budget * TIERS[t].weight / 100
  }

  /** What the first n tiers leave of the budget. */
  function Left(ss: seq<Section>, budget: int, n: nat): int
    requires n <= |TIERS|
    decreases n, 0
  {
    if n == 0 then budget
    else if InTierOf(ss, n - 1) == [] then Left(ss, budget, n - 1)
    else Left(ss, budget, n - 1) - TierBudget(ss, budget, n - 1)
  }

  /** A tier has its percentage of the whole budget, as far as it is left. */
  function TierBudget(ss: seq<Section>, budget: int, t: nat): int
    requires t < |TIERS|
    decreases t, 1
  {
    Min(TierPart(budget, t), Left(ss, budget, t))
  }

  /** The sections of tier t share the tier's budget, or get nothing when nothing is left. */
  ghost predicate IsStaticTier(ss: seq<Section>, budget: int, a: Allocation, t: nat)
    requires t < |TIERS|
  {
    if Left(ss, budget, t) > 0 then IsTierShare(InTierOf(ss, t), TierBudget(ss, budget, t), a)
    else forall s :: s in InTierOf(ss, t) ==> s.name !in a
  }

  /** The static allocation, tier by tier; sections of no tier get nothing. */
  ghost predicate IsStatic(ss: seq<Section>, budget: int, a: Allocation) {
    && KeysFrom(ss, a)
    && (forall s :: s in ss && TierOf(s.priority) < 0 ==> s.name !in a)
    && forall t :: 0 <= t < |TIERS| ==> IsStaticTier(ss, budget, a, t)
  }

  /** The weight of the tiers from n on. */
  function WeightFrom(n: nat): nat
    requires n <= |TIERS|
    decreases |TIERS| - n
  {
    if n == |TIERS| then 0 else TIERS[n].weight + WeightFrom(n + 1)
  }

  lemma {:induction false} LeftEnough(ss: seq<Section>, budget: nat, n: nat)
    requires n <= |TIERS|
    ensures 100 * Left(ss, budget, n) >= budget * WeightFrom(n)
    decreases n
  {
    if n == 0 {
      assert WeightFrom(0) == 100;
    } else {
      LeftEnough(ss, budget, n - 1);
      Percent(budget, TIERS[n - 1].weight, WeightFrom(n));
    }
  }

  lemma Percent(budget: nat, w: nat, rest: nat)
    ensures budget * (w + rest) == budget * w + budget * rest
    ensures 100 * (budget * w / 100) <= budget * w
  {
  }

  /** The tiers before it always leave a tier its percentage: a section's share does not
      depend on what is in other tiers. */
  lemma TierGetsItsPart(ss: seq<Section>, budget: nat, t: nat)
    requires t < |TIERS|
    ensures TierBudget(ss, budget, t) == budget * TIERS[t].weight / 100
    ensures budget > 0 ==> Left(ss, budget, t) > 0
  {
    LeftEnough(ss, budget, t);
    Percent(budget, TIERS[t].weight, WeightFrom(t + 1));
    hide Left;
    assert WeightFrom(t) >= 5;
    Cover(budget, WeightFrom(t));
  }

  lemma Cover(budget: nat, w: nat)
    requires w >= 5
    ensures budget * w >= 5 * budget
  {
  }

  /** The static allocation is each tier by itself, on its percentage of the budget. */
  lemma StaticExactly(ss: seq<Section>, budget: nat, a: Allocation)
    requires budget > 0
    ensures IsStatic(ss, budget, a) <==>
              && KeysFrom(ss, a)
              && (forall s :: s in ss && TierOf(s.priority) < 0 ==> s.name !in a)
              && forall t :: 0 <= t < |TIERS| ==> IsTierShare(InTierOf(ss, t), budget * TIERS[t].weight / 100, a)
  {
    forall t | 0 <= t < |TIERS|
      ensures IsStaticTier(ss, budget, a, t) <==> IsTierShare(InTierOf(ss, t), budget * TIERS[t].weight / 100, a)
    {
      TierGetsItsPart(ss, budget, t);
      hide IsTierShare, InTierOf, TierBudget, Left;
    }
    hide IsTierShare, InTierOf, IsStaticTier, KeysFrom, TierOf;
  }

  /** The two allocations give these sections the same. */
  ghost predicate AgreeOn(ss: seq<Section>, a: Allocation, b: Allocation) {
    forall s :: s in ss ==> (s.name in a <==> s.name in b) && (s.name in a ==> a[s.name] == b[s.name])
  }

  lemma ShareAgrees(ss: seq<Section>, budget: int, a: Allocation, b: Allocation)
    requires AgreeOn(ss, a, b) && IsTierShare(ss, budget, a)
    ensures IsTierShare(ss, budget, b)
  {
    if MinTotal(ss) > budget {
      hide MinTotal;
      forall k | 0 <= k < |ss| ensures FitsAt(ss, budget, b, k) {
        assert FitsAt(ss, budget, a, k) && ss[k] in ss;
        assert forall s :: s in ss[..k] ==> s in ss;
        TotalSame(ss[..k], a, b);
      }
    }
  }

  /** Tiers that are done are not touched by the share of tier t. */
  lemma EarlierAgree(ss: seq<Section>, a: Allocation, part: Allocation, u: nat, t: nat)
    requires Sane(ss) && u < t < |TIERS| && KeysFrom(InTierOf(ss, t), part)
    ensures AgreeOn(InTierOf(ss, u), a, a + part)
  {
    hide TierOf;
    InTierMembers(ss, t);
    InTierMembers(ss, u);
    SameNameSameSection(ss, InTierOf(ss, t));
  }

  lemma OwnAgree(ss: seq<Section>, a: Allocation, part: Allocation, t: nat)
    requires Sane(ss) && t < |TIERS| && FromTiers(ss, a, t)
    ensures AgreeOn(InTierOf(ss, t), part, a + part)
  {
    hide TierOf;
    InTierMembers(ss, t);
  }

  /** The tiers before t have what they get. */
  ghost predicate StaticUpto(ss: seq<Section>, budget: int, a: Allocation, t: int) {
    forall u :: 0 <= u < t && u < |TIERS| ==> IsStaticTier(ss, budget, a, u)
  }

  lemma StaticNext(ss: seq<Section>, budget: int, a: Allocation, part: Allocation, t: nat)
    requires Sane(ss) && t < |TIERS| && StaticUpto(ss, budget, a, t) && FromTiers(ss, a, t)
    requires Left(ss, budget, t) > 0
    requires KeysFrom(InTierOf(ss, t), part) && IsTierShare(InTierOf(ss, t), TierBudget(ss, budget, t), part)
    ensures StaticUpto(ss, budget, a + part, t + 1)
  {
    hide TierOf, Sane, KeysFrom, IsTierShare, FromTiers, AgreeOn, Left, TierBudget, InTierOf;
    forall u | 0 <= u <= t ensures IsStaticTier(ss, budget, a + part, u) {
      if u < t {
        assert IsStaticTier(ss, budget, a, u);
        EarlierAgree(ss, a, part, u, t);
        if Left(ss, budget, u) > 0 {
          ShareAgrees(InTierOf(ss, u), TierBudget(ss, budget, u), a, a + part);
        } else {
          NothingAgrees(InTierOf(ss, u), a, a + part);
        }
      } else {
        OwnAgree(ss, a, part, t);
        ShareAgrees(InTierOf(ss, t), TierBudget(ss, budget, t), part, a + part);
      }
    }
  }

  lemma NothingAgrees(ss: seq<Section>, a: Allocation, b: Allocation)
    requires AgreeOn(ss, a, b) && forall s :: s in ss ==> s.name !in a
    ensures forall s :: s in ss ==> s.name !in b
  {
  }

  /** The invariant of the loop over the tiers. */
  ghost predicate StaticLoop(ss: seq<Section>, budget: int, a: Allocation, t: nat, remaining: int) {
    && t <= |TIERS| && remaining == Left(ss, budget, t)
    && MinOrNothing(ss, a) && FromTiers(ss, a, t) && StaticUpto(ss, budget, a, t)
    && 0 <= remaining && Total(ss, a) <= budget - remaining
  }

  lemma StaticStep(ss: seq<Section>, budget: int, a: Allocation, t: nat, part: Allocation)
    requires Sane(ss) && t < |TIERS| && InTierOf(ss, t) != [] && Left(ss, budget, t) > 0
    requires MinOrNothing(ss, a) && FromTiers(ss, a, t) && StaticUpto(ss, budget, a, t)
    requires MinOrNothing(InTierOf(ss, t), part) && IsTierShare(InTierOf(ss, t), TierBudget(ss, budget, t), part)
    ensures Left(ss, budget, t + 1) == Left(ss, budget, t) - TierBudget(ss, budget, t)
    ensures MinOrNothing(ss, a + part) && FromTiers(ss, a + part, t + 1) && StaticUpto(ss, budget, a + part, t + 1)
    ensures Total(ss, a + part) == Total(ss, a) + Total(InTierOf(ss, t), part)
  {
    hide Sane, Total, InTierOf, IsTierShare, FromTiers, StaticUpto, TierBudget;
    assert KeysFrom(InTierOf(ss, t), part);
    assert Left(ss, budget, t + 1) == Left(ss, budget, t) - TierBudget(ss, budget, t);
    hide KeysFrom, MinOrNothing, Left;
    StaticNext(ss, budget, a, part, t);
    MergeTier(ss, a, part, t);
  }

  lemma StaticSkip(ss: seq<Section>, budget: int, a: Allocation, t: nat, remaining: int)
    requires t < |TIERS| && InTierOf(ss, t) == [] && StaticLoop(ss, budget, a, t, remaining)
    ensures StaticLoop(ss, budget, a, t + 1, remaining) && Left(ss, budget, t + 1) == remaining
  {
    hide TierOf, Total, TierBudget, InTierOf, MinOrNothing;
    assert Left(ss, budget, t + 1) == Left(ss, budget, t);
    hide Left;
    EmptyTier(ss, budget, a, t);
    hide IsStaticTier;
  }

  lemma EmptyTier(ss: seq<Section>, budget: int, a: Allocation, t: nat)
    requires t < |TIERS| && InTierOf(ss, t) == []
    ensures IsStaticTier(ss, budget, a, t)
  {
    hide TierOf, InTierOf, TierBudget, Left, IsTierShare;
    EmptyShare(TierBudget(ss, budget, t), a);
  }

  lemma EmptyShare(b: int, a: Allocation)
    ensures IsTierShare([], b, a)
  {
  }

  /** Nothing is left after the first n tiers, so the rest gets nothing. */
  lemma StaticBreak(ss: seq<Section>, budget: int, a: Allocation, n: nat, remaining: int)
    requires Sane(ss) && budget > 0 && StaticLoop(ss, budget, a, n, remaining) && remaining <= 0
    ensures IsStatic(ss, budget, a) && MinOrNothing(ss, a) && Total(ss, a) <= budget
  {
    hide TierOf, Total, Sane, InTierOf;
    forall t | n <= t < |TIERS| ensures IsStaticTier(ss, budget, a, t) {
      NothingLeft(ss, budget, n, t);
      InTierMembers(ss, t);
    }
  }

  lemma {:induction false} NothingLeft(ss: seq<Section>, budget: int, n: nat, t: nat)
    requires budget > 0 && n <= t <= |TIERS|
    ensures Left(ss, budget, n) == 0 ==> Left(ss, budget, t) == 0
    decreases t - n
  {
    if n < t {
      NothingLeft(ss, budget, n, t - 1);
    }
  }

  lemma StaticDone(ss: seq<Section>, budget: int, a: Allocation, remaining: int)
    requires StaticLoop(ss, budget, a, |TIERS|, remaining)
    ensures IsStatic(ss, budget, a) && MinOrNothing(ss, a) && Total(ss, a) <= budget
  {
    hide TierOf, Total, InTierOf, Left;
  }

  method AllocateStatic(ss: seq<Section>, budget: int) returns (a: Allocation)
    requires Sane(ss) && budget > 0
    ensures IsStatic(ss, budget, a) && MinOrNothing(ss, a) && Total(ss, a) <= budget
  {
    a := map[];
    var remaining := budget;
    StaticStart(ss, budget);
    hide *;
    for t := 0 to |TIERS|
      invariant StaticLoop(ss, budget, a, t, remaining) && remaining > 0
    {
      a, remaining := ServeTier(ss, budget, a, t, remaining);
      if remaining <= 0 {
        StaticBreak(ss, budget, a, t + 1, remaining);
        return;
      }
    }
    StaticDone(ss, budget, a, remaining);
  }

  lemma StaticStart(ss: seq<Section>, budget: int)
    requires budget > 0
    ensures StaticLoop(ss, budget, map[], 0, budget)
  {
    TotalEmpty(ss);
  }

  lemma RestIsLeft(ss: seq<Section>, budget: int, a: Allocation, t: nat, rest: int)
    requires t < |TIERS| && StaticLoop(ss, budget, a, t, rest)
    ensures rest == Left(ss, budget, t)
  {
  }

  /** One tier's turn. */
  method ServeTier(ss: seq<Section>, budget: int, before: Allocation, t: nat, rest: int)
    returns (a: Allocation, remaining: int)
    requires Sane(ss) && t < |TIERS| && budget > 0 && StaticLoop(ss, budget, before, t, rest) && rest > 0
    ensures StaticLoop(ss, budget, a, t + 1, remaining)
  {
    RestIsLeft(ss, budget, before, t, rest);
    hide Sane, Left, TierPart, InTierOf, TierOf, MinOrNothing, FromTiers, StaticUpto, IsTierShare, Total, KeysFrom;
    a, remaining := before, rest;
    var secs := Group(ss, t);
    if secs == [] {
      StaticSkip(ss, budget, a, t, remaining);
      return;
    }
    var tierBudget := TierPart(budget, t);
    if tierBudget > remaining {
      tierBudget := remaining;
    }
    var part := AllocateWithinTier(secs, tierBudget);
    StaticStep(ss, budget, a, t, part);
    a := a + part;
    remaining := remaining - tierBudget;
  }

  method Group(ss: seq<Section>, t: nat) returns (secs: seq<Section>)
    requires Sane(ss) && t < |TIERS|
    ensures secs == InTierOf(ss, t) && Sane(secs)
  {
    InTierMembers(ss, t);
    hide IsTier, Sane;
    secs := [];
    for i := 0 to |ss|
      invariant secs == InTierOf(ss[..i], t)
    {
      assert ss[..i + 1][..i] == ss[..i];
      var x := FindTierIndex(ss[i].priority);
      if x == t {
        secs := secs + [ss[i]];
      }
    }
    assert ss[..|ss|] == ss;
  }

  // ----- Dynamic: by demand -----

  datatype Demand = Demand(section: Section, ideal: int)

  function Estimate(s: Section, budget: int): int {
    if TierOf(s.priority) < 0 then s.minTokens else TierPart(budget, TierOf(s.priority))
  }

  /** What a section is taken to want: its own ideal, or its tier's part, but never less than its minimum. */
  function IdealOf(s: Section, budget: int, hasContext: bool): int {
    var declared := if hasContext && s.ideal.Some? then s.ideal.value else 0;
    Max(if declared == 0 then Estimate(s, budget) else declared, s.minTokens)
  }

  /** A section wants what it declares, as far as there is a context to ask it with, and
      otherwise its tier's percentage of the budget; never less than its minimum. */
  lemma IdealReads(s: Section, budget: nat, hasContext: bool, t: int)
    requires IsTier(s.priority, t)
    ensures var r, declares := IdealOf(s, budget, hasContext), hasContext && s.ideal.Some? && s.ideal.value != 0;
            && r >= s.minTokens
            && (declares && s.ideal.value >= s.minTokens ==> r == s.ideal.value)
            && (declares && s.ideal.value < s.minTokens ==> r == s.minTokens)
            && (!declares && t < 0 ==> r == s.minTokens)
            && (!declares && 0 <= t && 100 * s.minTokens <= budget * TIERS[t].weight ==>
                  100 * r <= budget * TIERS[t].weight < 100 * (r + 1))
            && (!declares && 0 <= t && 100 * s.minTokens > budget * TIERS[t].weight ==> r == s.minTokens)
  {
    assert TierOf(s.priority) == t;
    if t >= 0 {
      var x := budget * TIERS[t].weight;
      assert x / 100 * 100 <= x < x / 100 * 100 + 100;
    }
  }

  function Demands(ss: seq<Section>, budget: int, hasContext: bool): (r: seq<Demand>)
    ensures |r| == |ss| && forall i :: 0 <= i < |r| ==> r[i] == Demand(ss[i], IdealOf(ss[i], budget, hasContext))
  {
    seq(|ss|, i requires 0 <= i < |ss| => Demand(ss[i], IdealOf(ss[i], budget, hasContext)))
  }

  function DemandTotal(ds: seq<Demand>): int {
    if ds == [] then 0 else DemandTotal(ds[..|ds| - 1]) + ds[|ds| - 1].ideal
  }

  function SectionsOf(ds: seq<Demand>): (ss: seq<Section>)
    ensures |ss| == |ds| && forall i :: 0 <= i < |ss| ==> ss[i] == ds[i].section
  {
    seq(|ds|, i requires 0 <= i < |ds| => ds[i].section)
  }

  ghost predicate Reasonable(ds: seq<Demand>) {
    Sane(SectionsOf(ds)) && forall d :: d in ds ==> d.section.minTokens <= d.ideal
  }

  // When everything fits

  /** The part of the surplus that goes to a demand. */
  function Extra(surplus: int, ideal: int, total: int): int {
    if total > 0 then surplus * ideal / total else 0
  }

  ghost predicate IsProportional(ds: seq<Demand>, surplus: int, total: int, a: Allocation) {
    forall d :: d in ds ==> d.section.name in a && a[d.section.name] == d.ideal + Extra(surplus, d.ideal, total)
  }

  lemma DivisionBounds(x: int, t: int)
    requires t > 0
    ensures x - t < t * (x / t) <= x
  {
  }

  /** The proportional parts never add up to more than the surplus, and rounding loses
      less than one token a section. */
  lemma {:induction false} ProportionalTotal(ds: seq<Demand>, surplus: int, total: int, a: Allocation)
    requires total > 0 && IsProportional(ds, surplus, total, a)
    ensures var extras := Total(SectionsOf(ds), a) - DemandTotal(ds);
            total * extras <= surplus * DemandTotal(ds) <= total * extras + total * |ds|
  {
    if ds != [] {
      var front, d := ds[..|ds| - 1], ds[|ds| - 1];
      ProportionalTotal(front, surplus, total, a);
      assert SectionsOf(ds)[..|ds| - 1] == SectionsOf(front);
      var e := Extra(surplus, d.ideal, total);
      var before := Total(SectionsOf(front), a) - DemandTotal(front);
      assert Total(SectionsOf(ds), a) - DemandTotal(ds) == before + e;
      DivisionBounds(surplus * d.ideal, total);
      Spread(total, before, e, |front|);
      Spread(surplus, DemandTotal(front), d.ideal, 0);
    }
  }

  lemma Spread(t: int, x: int, y: int, n: int)
    ensures t * (x + y) == t * x + t * y && t * (n + 1) == t * n + t
  {
  }

  lemma {:induction false} AllIdeal(ds: seq<Demand>, a: Allocation)
    requires forall d :: d in ds ==> d.section.name in a && a[d.section.name] == d.ideal
    ensures Total(SectionsOf(ds), a) == DemandTotal(ds)
  {
    if ds != [] {
      AllIdeal(ds[..|ds| - 1], a);
      assert SectionsOf(ds)[..|ds| - 1] == SectionsOf(ds[..|ds| - 1]);
    }
  }

  lemma ProportionalFits(ds: seq<Demand>, budget: int, a: Allocation)
    requires DemandTotal(ds) <= budget && 0 <= DemandTotal(ds)
    requires IsProportional(ds, budget - DemandTotal(ds), DemandTotal(ds), a)
    ensures Total(SectionsOf(ds), a) <= budget
    ensures DemandTotal(ds) > 0 ==> budget - |ds| <= Total(SectionsOf(ds), a)
  {
    var t, s := DemandTotal(ds), budget - DemandTotal(ds);
    if t > 0 {
      ProportionalTotal(ds, s, t, a);
      var extras := Total(SectionsOf(ds), a) - t;
      Cancel(t, extras, s);
      Cancel(t, s, extras + |ds|);
    } else {
      AllIdeal(ds, a);
    }
  }

  lemma Cancel(t: int, x: int, y: int)
    requires t > 0 && t * x <= t * y
    ensures x <= y
  {
  }

  method GrantProportional(ds: seq<Demand>, budget: int) returns (a: Allocation)
    requires Reasonable(ds) && 0 <= DemandTotal(ds) <= budget
    ensures KeysFrom(SectionsOf(ds), a) && IsProportional(ds, budget - DemandTotal(ds), DemandTotal(ds), a)
    ensures Total(SectionsOf(ds), a) <= budget && (DemandTotal(ds) > 0 ==> budget - |ds| <= Total(SectionsOf(ds), a))
  {
    var total := DemandTotal(ds);
    var surplus := budget - total;
    ghost var ss := SectionsOf(ds);
    hide DemandTotal, Extra, Total;
    a := map[];
    for i := 0 to |ds|
      invariant KeysFrom(ss, a)
      invariant forall k :: 0 <= k < i ==>
                  ds[k].section.name in a && a[ds[k].section.name] == ds[k].ideal + Extra(surplus, ds[k].ideal, total)
    {
      assert ds[i].section == ss[i];
      assert forall k :: 0 <= k < i ==> ss[k].name != ss[i].name && ds[k].section == ss[k];
      a := a[ds[i].section.name := ds[i].ideal + Extra(surplus, ds[i].ideal, total)];
    }
    ProportionalFits(ds, budget, a);
  }

  // When it does not

  ghost predicate SortedBy(ds: seq<Demand>) {
    forall i, j :: 0 <= i < j < |ds| ==> ds[i].section.priority <= ds[j].section.priority
  }

  /** The exchange sort, in place. */
  method SortByPriority(ds: array<Demand>)
    modifies ds
    ensures SortedBy(ds[..]) && multiset(ds[..]) == multiset(old(ds[..]))
  {
    for i := 0 to ds.Length
      invariant SettledUpto(ds[..], i)
      invariant multiset(ds[..]) == multiset(old(ds[..]))
    {
      Settle(ds, i);
    }
  }

  /** The first i demands are in place: nothing after them belongs before them. */
  ghost predicate SettledUpto(ds: seq<Demand>, i: int) {
    forall p, q :: 0 <= p < i && p < q < |ds| ==> ds[p].section.priority <= ds[q].section.priority
  }

  /** The inner loop: the smallest of the rest comes to position i by exchanges. */
  method Settle(ds: array<Demand>, i: nat)
    requires i < ds.Length && SettledUpto(ds[..], i)
    modifies ds
    ensures SettledUpto(ds[..], i + 1) && multiset(ds[..]) == multiset(old(ds[..]))
  {
    hide SettledUpto;
    for j := i + 1 to ds.Length
      invariant SettledUpto(ds[..], i)
      invariant forall q :: i < q < j ==> ds[i].section.priority <= ds[q].section.priority
      invariant multiset(ds[..]) == multiset(old(ds[..]))
    {
      if ds[j].section.priority < ds[i].section.priority {
        ghost var before := ds[..];
        ds[i], ds[j] := ds[j], ds[i];
        assert ds[..] == before[i := before[j]][j := before[i]];
        ExchangeKeepsSettled(before, i, j);
      }
    }
    SettledNext(ds[..], i);
  }

  lemma SettledNext(s: seq<Demand>, i: nat)
    requires i < |s| && SettledUpto(s, i) && forall q :: i < q < |s| ==> s[i].section.priority <= s[q].section.priority
    ensures SettledUpto(s, i + 1)
  {
  }

  lemma ExchangeKeepsSettled(s: seq<Demand>, i: nat, j: nat)
    requires i < j < |s| && SettledUpto(s, i)
    ensures SettledUpto(s[i := s[j]][j := s[i]], i) && multiset(s[i := s[j]][j := s[i]]) == multiset(s)
  {
  }

  /** The trimmed allocation: every section between its minimum and its ideal, the whole
      budget used, and nobody above the minimum while somebody more important is short. */
  ghost predicate IsTrimmed(ds: seq<Demand>, budget: int, a: Allocation) {
    && KeysFrom(SectionsOf(ds), a) && Total(SectionsOf(ds), a) == budget
    && (forall d :: d in ds ==> d.section.name in a && d.section.minTokens <= a[d.section.name] <= d.ideal)
    && (forall d, e :: d in ds && e in ds && a[d.section.name] < d.ideal && d.section.priority < e.section.priority ==>
          a[e.section.name] == e.section.minTokens)
  }

  /** Progress of the greedy pass over the sorted demands: the first i have all they want
      (or the budget is gone), the rest their minimum. */
  ghost predicate GreedyAt(ds: seq<Demand>, i: int, a: Allocation) {
    && 0 <= i <= |ds|
    && (forall k :: 0 <= k < |ds| ==> ds[k].section.name in a)
    && (forall k :: 0 <= k < i ==> a[ds[k].section.name] == ds[k].ideal)
    && (forall k :: i <= k < |ds| ==> a[ds[k].section.name] == ds[k].section.minTokens)
  }

  /** The pass stopped at demand i, which got part of what it wanted. */
  ghost predicate GreedyStopped(ds: seq<Demand>, i: int, a: Allocation) {
    && 0 <= i < |ds|
    && (forall k :: 0 <= k < |ds| ==> ds[k].section.name in a)
    && (forall k :: 0 <= k < i ==> a[ds[k].section.name] == ds[k].ideal)
    && ds[i].section.minTokens <= a[ds[i].section.name] <= ds[i].ideal
    && (forall k :: i < k < |ds| ==> a[ds[k].section.name] == ds[k].section.minTokens)
  }

  ghost predicate DistinctNames(ds: seq<Demand>) {
    forall i, j :: 0 <= i < j < |ds| ==> ds[i].section.name != ds[j].section.name
  }

  method Greedy(ss: seq<Section>, sorted: seq<Demand>, before: Allocation, rest: int, ghost budget: int)
    returns (a: Allocation, ghost stop: nat)
    requires Sane(ss) && DistinctNames(sorted) && (forall d :: d in sorted ==> d.section in ss && d.section.minTokens <= d.ideal)
    requires KeysFrom(ss, before) && GreedyAt(sorted, 0, before) && rest == budget - Total(ss, before) > 0
    ensures KeysFrom(ss, a)
    ensures (GreedyStopped(sorted, stop, a) && Total(ss, a) == budget) || (GreedyAt(sorted, |sorted|, a) && Total(ss, a) < budget)
  {
    hide Total, Sane;
    a := before;
    var remaining := rest;
    for i := 0 to |sorted|
      invariant KeysFrom(ss, a) && GreedyAt(sorted, i, a)
      invariant remaining == budget - Total(ss, a) && remaining > 0
    {
      var d := sorted[i];
      var want := d.ideal - d.section.minTokens;
      if want <= 0 {
        continue;
      }
      if want > remaining {
        want := remaining;
      }
      TotalUpdate(ss, a, d.section, a[d.section.name] + want);
      a := a[d.section.name := a[d.section.name] + want];
      remaining := remaining - want;
      if remaining <= 0 {
        stop := i;
        return;
      }
    }
    stop := 0;
  }

  lemma TwiceCounted<T>(s: seq<T>, i: nat, j: nat)
    requires i < j < |s| && s[i] == s[j]
    ensures multiset(s)[s[i]] >= 2
  {
    assert s == s[..i] + [s[i]] + s[i + 1..j] + [s[j]] + s[j + 1..];
  }

  lemma {:induction false} OnceCounted<T>(s: seq<T>, x: T)
    requires forall i, j :: 0 <= i < j < |s| ==> s[i] != s[j]
    ensures multiset(s)[x] <= 1
  {
    if s != [] {
      var n := |s| - 1;
      OnceCounted(s[..n], x);
      assert s == s[..n] + [s[n]];
      if s[n] == x {
        assert x !in s[..n];
      }
    }
  }

  lemma SortKeepsNames(ds: seq<Demand>, sorted: seq<Demand>)
    requires DistinctNames(ds) && multiset(sorted) == multiset(ds)
    ensures DistinctNames(sorted) && forall d :: d in sorted <==> d in ds
  {
    assert forall d :: d in sorted <==> d in multiset(sorted);
    forall i, j | 0 <= i < j < |sorted| ensures sorted[i].section.name != sorted[j].section.name {
      assert sorted[i] in multiset(sorted) && sorted[j] in multiset(sorted);
      var p :| 0 <= p < |ds| && ds[p] == sorted[i];
      var q :| 0 <= q < |ds| && ds[q] == sorted[j];
      if sorted[i] == sorted[j] {
        TwiceCounted(sorted, i, j);
        OnceCounted(ds, sorted[i]);
      }
    }
  }

  lemma StoppedIsTrimmed(ds: seq<Demand>, sorted: seq<Demand>, stop: nat, budget: int, a: Allocation)
    requires (forall d :: d in sorted <==> d in ds) && SortedBy(sorted) && GreedyStopped(sorted, stop, a)
    requires KeysFrom(SectionsOf(ds), a) && Total(SectionsOf(ds), a) == budget
    requires forall d :: d in ds ==> d.section.minTokens <= d.ideal
    ensures IsTrimmed(ds, budget, a)
  {
    hide KeysFrom, Total;
    forall d | d in ds ensures d.section.name in a && d.section.minTokens <= a[d.section.name] <= d.ideal {
      var i :| 0 <= i < |sorted| && sorted[i] == d;
    }
    forall d, e | d in ds && e in ds && a[d.section.name] < d.ideal && d.section.priority < e.section.priority
      ensures a[e.section.name] == e.section.minTokens
    {
      var i :| 0 <= i < |sorted| && sorted[i] == d;
      var j :| 0 <= j < |sorted| && sorted[j] == e;
    }
  }

  /** The greedy pass cannot satisfy everybody when the demands exceed the budget. */
  lemma NotAllGranted(ds: seq<Demand>, sorted: seq<Demand>, budget: int, a: Allocation)
    requires (forall d :: d in sorted <==> d in ds) && GreedyAt(sorted, |sorted|, a) && budget < DemandTotal(ds)
    ensures Total(SectionsOf(ds), a) > budget
  {
    forall d | d in ds ensures d.section.name in a && a[d.section.name] == d.ideal {
      var i :| 0 <= i < |sorted| && sorted[i] == d;
    }
    AllIdeal(ds, a);
  }

  method Trim(ss: seq<Section>, ds: seq<Demand>, before: Allocation, rest: int, ghost budget: int) returns (a: Allocation)
    requires Reasonable(ds) && ss == SectionsOf(ds) && budget < DemandTotal(ds)
    requires KeysFrom(ss, before) && (forall s :: s in ss ==> s.name in before && before[s.name] == s.minTokens)
    requires rest == budget - Total(ss, before) > 0
    ensures IsTrimmed(ds, budget, a)
  {
    var sorted := new Demand[|ds|](i requires 0 <= i < |ds| => ds[i]);
    assert sorted[..] == ds;
    SortByPriority(sorted);
    var order := sorted[..];
    hide Total, DemandTotal, KeysFrom, IsTrimmed, SortedBy, GreedyStopped;
    SectionsMatch(ds);
    SortKeepsNames(ds, order);
    StartsAtMin(ss, order, before);
    hide Reasonable, Sane, DistinctNames;
    ghost var stop;
    a, stop := Greedy(ss, order, before, rest, budget);
    if GreedyAt(order, |order|, a) && Total(ss, a) < budget {
      NotAllGranted(ds, order, budget, a);
    }
    StoppedIsTrimmed(ds, order, stop, budget, a);
  }

  lemma StartsAtMin(ss: seq<Section>, order: seq<Demand>, a: Allocation)
    requires forall s :: s in ss ==> s.name in a && a[s.name] == s.minTokens
    requires forall d :: d in order ==> d.section in ss
    ensures GreedyAt(order, 0, a)
  {
  }

  lemma SectionsMatch(ds: seq<Demand>)
    requires Reasonable(ds)
    ensures DistinctNames(ds)
    ensures forall d :: d in ds ==> d.section in SectionsOf(ds)
  {
  }

  /** What the demand-driven allocation guarantees, by the three ways it can go. */
  ghost predicate IsDynamic(ss: seq<Section>, budget: int, hasContext: bool, a: Allocation) {
    var ds := Demands(ss, budget, hasContext);
    var wanted := DemandTotal(ds);
    if wanted <= budget then
      && IsProportional(ds, budget - wanted, wanted, a)
      && (wanted > 0 ==> budget - |ss| <= Total(ss, a))
    else if MinTotal(ss) < budget then IsTrimmed(ds, budget, a)
    else IsEmergency(ss, budget, a)
  }

  method CollectDemands(ss: seq<Section>, budget: int, hasContext: bool) returns (ds: seq<Demand>, total: int)
    ensures ds == Demands(ss, budget, hasContext) && total == DemandTotal(ds)
  {
    hide TierOf, Estimate;
    ds, total := [], 0;
    for i := 0 to |ss|
      invariant |ds| == i && forall k :: 0 <= k < i ==> ds[k] == Demand(ss[k], IdealOf(ss[k], budget, hasContext))
      invariant total == DemandTotal(ds)
    {
      var s := ss[i];
      var ideal := 0;
      if s.ideal.Some? && hasContext {
        ideal := s.ideal.value;
      }
      if ideal == 0 {
        ideal := Estimate(s, budget);
      }
      if ideal < s.minTokens {
        ideal := s.minTokens;
      }
      assert ideal == IdealOf(s, budget, hasContext);
      hide IdealOf;
      DemandAppend(ds, Demand(s, ideal));
      ds := ds + [Demand(s, ideal)];
      total := total + ideal;
    }
    assert ds == Demands(ss, budget, hasContext);
  }

  lemma DemandAppend(ds: seq<Demand>, d: Demand)
    ensures DemandTotal(ds + [d]) == DemandTotal(ds) + d.ideal
  {
  }

  lemma {:induction false} DemandsPositive(ds: seq<Demand>)
    requires forall d :: d in ds ==> d.ideal >= 0
    ensures DemandTotal(ds) >= 0
  {
    if ds != [] {
      DemandsPositive(ds[..|ds| - 1]);
    }
  }

  lemma DemandsReasonable(ss: seq<Section>, budget: int, hasContext: bool)
    requires Sane(ss)
    ensures var ds := Demands(ss, budget, hasContext);
            Reasonable(ds) && SectionsOf(ds) == ss && DemandTotal(ds) >= 0
  {
    hide Estimate, DemandTotal;
    var ds := Demands(ss, budget, hasContext);
    assert SectionsOf(ds) == ss;
    forall d | d in ds ensures 0 <= d.section.minTokens <= d.ideal {
      assert d.section in ss;
    }
    DemandsPositive(ds);
  }

  method AllocateDynamic(ss: seq<Section>, budget: int, hasContext: bool) returns (a: Allocation)
    requires Sane(ss) && budget >= 0
    ensures IsDynamic(ss, budget, hasContext, a) && Total(ss, a) <= budget
  {
    hide Sane, Total, DemandTotal, MinTotal, IsEmergency, IsTrimmed, IsProportional, Demands, KeysFrom, GuaranteedIn;
    var ds, totalDemand := CollectDemands(ss, budget, hasContext);
    DemandsReasonable(ss, budget, hasContext);
    if totalDemand <= budget {
      a := GrantProportional(ds, budget);
      return;
    }
    a := GrantMin(ss);
    var minTotal := SumMin(ss);
    TotalOfShares(ss, a, 0);
    if minTotal >= budget {
      a := AllocateEmergency(ss, budget);
      return;
    }
    a := Trim(ss, ds, a, budget - minTotal, budget);
    TrimmedTotal(ds, budget, a);
  }

  /** Everybody has a share, and it covers the minimum. */
  ghost predicate AllServed(ss: seq<Section>, a: Allocation) {
    forall s :: s in ss ==> s.name in a && a[s.name] >= s.minTokens
  }

  /** All sections are guaranteed and have the same minimum, which they fill the budget with. */
  ghost predicate EvenFit(ss: seq<Section>, budget: int) {
    MinTotal(ss) == budget && forall s :: s in ss ==> Guaranteed(s) && s.minTokens == budget / |ss|
  }

  /** When the sections want more than the budget, everybody gets the minimum if and only if
      the minimums leave something of it, except that an emergency allocation may happen to
      fit evenly. In particular, minimums that fit exactly are not enough. */
  lemma OverBudgetServesAllIff(ss: seq<Section>, budget: int, hasContext: bool, a: Allocation)
    requires Sane(ss) && budget >= 0 && IsDynamic(ss, budget, hasContext, a)
    requires DemandTotal(Demands(ss, budget, hasContext)) > budget
    ensures AllServed(ss, a) <==> MinTotal(ss) < budget || EvenFit(ss, budget)
  {
    assert ss == [] ==> Demands(ss, budget, hasContext) == [];
    hide DemandTotal, MinTotal, Guaranteed, Total, IsProportional, Estimate, IdealOf, GuaranteedIn, KeysFrom;
    if MinTotal(ss) < budget {
      var ds := Demands(ss, budget, hasContext);
      forall s | s in ss ensures s.name in a && a[s.name] >= s.minTokens {
        var i :| 0 <= i < |ss| && ss[i] == s;
        assert ds[i] in ds;
      }
    } else {
      hide IsTrimmed, Demands;
      EmergencyServesAllIff(ss, budget, a);
    }
  }

  lemma EmergencyServesAllIff(ss: seq<Section>, budget: int, a: Allocation)
    requires Sane(ss) && MinTotal(ss) >= budget >= 0 && IsEmergency(ss, budget, a) && ss != []
    ensures AllServed(ss, a) <==> EvenFit(ss, budget)
  {
    hide Guaranteed, MinTotal, GuaranteedIn;
    if forall s :: s in ss ==> Guaranteed(s) {
      AllGuaranteed(ss);
      var share := Share(ss, budget);
      assert share == budget / |ss|;
      if AllServed(ss, a) {
        MinBounded(ss, share);
        PartFits(budget, |ss|);
      }
    }
  }

  lemma {:induction false} AllGuaranteed(ss: seq<Section>)
    requires forall s :: s in ss ==> Guaranteed(s)
    ensures GuaranteedIn(ss) == ss
  {
    hide Guaranteed;
    if ss != [] {
      assert ss == ss[..|ss| - 1] + [ss[|ss| - 1]];
      AllGuaranteed(ss[..|ss| - 1]);
    }
  }

  /** Minimums of at most m each add up to |ss| * m only if all are m. */
  lemma {:induction false} MinBounded(ss: seq<Section>, m: int)
    requires forall s :: s in ss ==> s.minTokens <= m
    ensures MinTotal(ss) <= |ss| * m
    ensures MinTotal(ss) == |ss| * m ==> forall s :: s in ss ==> s.minTokens == m
  {
    if ss != [] {
      var front, last := ss[..|ss| - 1], ss[|ss| - 1];
      assert ss == front + [last];
      MinBounded(front, m);
      assert |ss| * m == |front| * m + m;
    }
  }

  /** A section that only needs the whole budget gets none of it. */
  lemma ExactFitStarves(a: Allocation)
    requires IsDynamic([Section("tools", 20, 1000, Some(2000))], 1000, true, a)
    ensures MinTotal([Section("tools", 20, 1000, Some(2000))]) == 1000 && "tools" !in a
  {
    var s := Section("tools", 20, 1000, Some(2000));
    var ss := [s];
    assert ss[..0] == [] && MinTotal(ss) == 1000;
    var ds := Demands(ss, 1000, true);
    assert ds == [Demand(s, 2000)] && ds[..0] == [];
    assert DemandTotal(ds) == 2000;
    assert s in ss && !Guaranteed(s);
  }

  lemma TrimmedTotal(ds: seq<Demand>, budget: int, a: Allocation)
    requires IsTrimmed(ds, budget, a)
    ensures Total(SectionsOf(ds), a) == budget
  {
  }

  /** Every path stays within the budget. */
  method Allocate(ss: seq<Section>, budget: int) returns (a: Allocation)
    requires Sane(ss)
    ensures Total(ss, a) <= Max(0, budget)
    ensures budget < MIN_SYSTEM_PROMPT ==> IsEmergency(ss, budget, a)
    ensures budget >= MIN_SYSTEM_PROMPT ==>
              if exists s :: s in ss && s.ideal.Some? then IsDynamic(ss, budget, false, a)
              else IsStatic(ss, budget, a) && MinOrNothing(ss, a)
  {
    hide Sane, Total, IsDynamic, IsEmergency, MinOrNothing, IsStatic;
    if budget < MIN_SYSTEM_PROMPT {
      a := AllocateEmergency(ss, budget);
      return;
    }
    for i := 0 to |ss|
      invariant forall k :: 0 <= k < i ==> ss[k].ideal.None?
    {
      if ss[i].ideal.Some? {
        a := AllocateDynamic(ss, budget, false);
        return;
      }
    }
    a := AllocateStatic(ss, budget);
  }
}
