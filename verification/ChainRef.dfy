/** Chain references "provider:endpoint" and the effective chain
    (internal/config/config.go, internal/provider/manager/manager.go). */
module ChainRef {
  import opened Common

  datatype Ref = Ref(prov: string, ep: string)

  function IndexOf(s: string, c: char): (i: int)
    ensures -1 <= i < |s|
    ensures i >= 0 ==> s[i] == c && forall k :: 0 <= k < i ==> s[k] != c
    ensures i == -1 <==> c !in s
  {
    if s == [] then -1
    else if s[0] == c then 0
    else
      var i := IndexOf(s[1..], c);
      if i < 0 then -1 else i + 1
  }

  /** The first ':' separates; without one, the first '.' does (legacy form). */
  function Parse(s: string): Option<Ref> {
    var colon := IndexOf(s, ':');
    var idx := if colon < 0 then IndexOf(s, '.') else colon;
    if idx < 0 then None
    else if idx == 0 || idx + 1 == |s| then None
    else Some(Ref(s[..idx], s[idx + 1..]))
  }

  function Format(r: Ref): string {
    r.prov + ":" + r.ep
  }

  predicate WellNamedProvider(p: string) {
    p != "" && ':' !in p
  }

  /** A formatted reference parses back to itself for exactly the provider names
      that are non-empty and colon-free, with a non-empty endpoint name. */
  lemma ParseFormat(r: Ref)
    ensures Parse(Format(r)) == Some(r) <==> WellNamedProvider(r.prov) && r.ep != ""
  {
    var s := Format(r);
    var n := |r.prov|;
    assert s[n] == ':' && s[..n] == r.prov && s[n + 1..] == r.ep;
    var i := IndexOf(s, ':');
    assert i <= n;
    if i < n {
      assert s[i] == r.prov[i];
    }
  }

  /** Every reference written with ':' is canonical: formatting what it parses
      to gives it back. A reference without ':' never is. */
  lemma CanonicalIffColon(s: string)
    requires Parse(s).Some?
    ensures Format(Parse(s).value) == s <==> ':' in s
    ensures WellNamedProvider(Parse(s).value.prov) && Parse(s).value.ep != ""
  {
  }

  /** Without ':' the first '.' separates: the legacy form. */
  lemma ParseLegacy(p: string, e: string)
    requires p != "" && e != "" && '.' !in p && ':' !in p + "." + e
    ensures Parse(p + "." + e) == Some(Ref(p, e))
  {
    var s, n := p + "." + e, |p|;
    assert s[n] == '.' && s[..n] == p && s[n + 1..] == e;
    assert forall k :: 0 <= k < n ==> s[k] == p[k];
  }

  /** An entry means nothing exactly when no separator splits it into two non-empty parts. */
  lemma ParsesToNothing(s: string)
    ensures Parse(s).None? <==>
              || (':' !in s && '.' !in s)
              || (':' in s && (s[0] == ':' || (s[|s| - 1] == ':' && ':' !in s[..|s| - 1])))
              || (':' !in s && '.' in s && (s[0] == '.' || (s[|s| - 1] == '.' && '.' !in s[..|s| - 1])))
  {
    if ':' in s {
      SplitsNowhere(s, ':');
    } else if '.' in s {
      SplitsNowhere(s, '.');
    }
  }

  lemma SplitsNowhere(s: string, c: char)
    requires c in s
    ensures IndexOf(s, c) == 0 <==> s[0] == c
    ensures IndexOf(s, c) + 1 == |s| <==> s[|s| - 1] == c && c !in s[..|s| - 1]
  {
  }

  lemma FormatInjective(a: Ref, b: Ref)
    requires WellNamedProvider(a.prov) && WellNamedProvider(b.prov) && Format(a) == Format(b)
    ensures a == b
  {
    SeparatorAt(a);
    SeparatorAt(b);
    var s, n := Format(a), |a.prov|;
    assert s[..n] == a.prov == b.prov && s[n + 1..] == a.ep == b.ep;
  }

  lemma SeparatorAt(r: Ref)
    requires ':' !in r.prov
    ensures IndexOf(Format(r), ':') == |r.prov|
  {
    var s := Format(r);
    assert s[|r.prov|] == ':';
    assert forall k :: 0 <= k < |r.prov| ==> s[k] == r.prov[k];
  }

  // ----- The effective chain -----

  function Dedup(s: seq<string>): (d: seq<string>)
    ensures Distinct(d)
    ensures forall x :: x in d <==> x in s
  {
    if s == [] then []
    else
      var last := s[|s| - 1];
      var d := Dedup(s[..|s| - 1]);
      if last in d then d else d + [last]
  }

  lemma {:induction false} DedupDistinct(s: seq<string>)
    requires Distinct(s)
    ensures Dedup(s) == s
  {
    if s != [] {
      DedupDistinct(s[..|s| - 1]);
    }
  }

  /** The list [primary, ...fallback] without duplicates, an empty primary left out. */
  function Effective(primary: string, fallback: seq<string>): (c: seq<string>)
    ensures Distinct(c)
  {
    Dedup(if primary == "" then fallback else [primary] + fallback)
  }

  /** b occurs in s, and a occurs before any b. */
  ghost predicate SeenBefore(s: seq<string>, a: string, b: string) {
    b in s && exists p :: 0 <= p < |s| && s[p] == a && b !in s[..p + 1]
  }

  lemma {:induction false} DedupOrder(s: seq<string>)
    ensures forall i, j :: 0 <= i < j < |Dedup(s)| ==> SeenBefore(s, Dedup(s)[i], Dedup(s)[j])
  {
    if s != [] {
      var n := |s| - 1;
      var front, d := s[..n], Dedup(s);
      DedupOrder(front);
      var e := Dedup(front);
      forall i, j | 0 <= i < j < |d| ensures SeenBefore(s, d[i], d[j]) {
        if j < |e| {
          assert SeenBefore(front, e[i], e[j]);
          var p :| 0 <= p < |front| && front[p] == e[i] && e[j] !in front[..p + 1];
          assert s[..p + 1] == front[..p + 1] && s[p] == d[i];
        } else {
          assert e[i] in e && e[i] in front;
          var p :| 0 <= p < |front| && front[p] == e[i];
          assert s[..p + 1] == front[..p + 1] && s[p] == d[i] && s[n] == d[j];
          assert forall x :: x in front[..p + 1] ==> x in front;
        }
      }
    }
  }

  lemma ShiftSeen(first: string, rest: seq<string>, a: string, b: string)
    requires SeenBefore([first] + rest, a, b) && a != first && b != first
    ensures SeenBefore(rest, a, b)
  {
    var all := [first] + rest;
    var p :| 0 <= p < |all| && all[p] == a && b !in all[..p + 1];
    assert all[..p + 1] == [first] + rest[..p];
    assert rest[p - 1] == a && rest[..p - 1 + 1] == rest[..p];
  }

  /** Nothing is seen before the first entry. */
  lemma FirstLeads(first: string, rest: seq<string>)
    ensures Dedup([first] + rest) != [] && Dedup([first] + rest)[0] == first
  {
    var all := [first] + rest;
    var e := Dedup(all);
    DedupOrder(all);
    assert all[0] == first && first in all && first in e;
    NoneBeforeFirst(all);
    hide Dedup, SeenBefore;
    var k :| 0 <= k < |e| && e[k] == first;
  }

  lemma NoneBeforeFirst(s: seq<string>)
    requires s != []
    ensures forall a :: !SeenBefore(s, a, s[0])
  {
    forall a ensures !SeenBefore(s, a, s[0]) {
      assert forall p :: 0 <= p < |s| && s[p] == a ==> s[..p + 1][0] == s[0];
    }
  }

  /** The effective chain has the primary, if there is one, and every fallback entry
      exactly once: the primary first, the rest in the order of first mention. */
  lemma EffectiveReads(primary: string, fallback: seq<string>)
    ensures var e := Effective(primary, fallback);
            && (forall c :: c in e <==> c in fallback || (c == primary && primary != ""))
            && (primary != "" ==> e != [] && e[0] == primary)
            && (forall i, j :: (if primary == "" then 0 else 1) <= i < j < |e| ==> SeenBefore(fallback, e[i], e[j]))
  {
    var e := Effective(primary, fallback);
    if primary == "" {
      DedupOrder(fallback);
    } else {
      DedupOrder([primary] + fallback);
      FirstLeads(primary, fallback);
      assert e == Dedup([primary] + fallback);
      hide Dedup, Effective, SeenBefore;
      forall i, j | 1 <= i < j < |e| ensures SeenBefore(fallback, e[i], e[j]) {
        assert e[0] != e[i] && e[0] != e[j];
        ShiftSeen(primary, fallback, e[i], e[j]);
      }
    }
  }

  function PrimaryOf(chain: seq<string>): string {
    if chain == [] then "" else chain[0]
  }

  function FallbackOf(chain: seq<string>): seq<string> {
    if chain == [] then [] else chain[1..]
  }

  /** Writing a chain back and reading it again gives the same chain for exactly
      the duplicate-free chains that do not start with an empty reference. */
  lemma WriteThenReadChain(chain: seq<string>)
    ensures Effective(PrimaryOf(chain), FallbackOf(chain)) == chain <==>
            Distinct(chain) && (chain != [] ==> chain[0] != "")
  {
    if chain != [] {
      assert [chain[0]] + chain[1..] == chain;
      if chain[0] == "" {
        DedupLength(chain[1..]);
      } else if Distinct(chain) {
        DedupDistinct(chain);
      }
    }
  }

  lemma {:induction false} DedupLength(s: seq<string>)
    ensures |Dedup(s)| <= |s|
  {
    if s != [] {
      DedupLength(s[..|s| - 1]);
    }
  }

  /** The chain without the entries that `drop` selects. */
  function Without(chain: seq<string>, drop: string -> bool): (r: seq<string>)
    ensures forall c :: c in r <==> c in chain && !drop(c)
    ensures |r| <= |chain| && (|r| == |chain| <==> r == chain)
  {
    if chain == [] then []
    else
      var c := chain[|chain| - 1];
      var r := Without(chain[..|chain| - 1], drop);
      if drop(c) then r else r + [c]
  }

  lemma {:induction false} WithoutDistinct(chain: seq<string>, drop: string -> bool)
    requires Distinct(chain)
    ensures Distinct(Without(chain, drop))
  {
    if chain != [] {
      WithoutDistinct(chain[..|chain| - 1], drop);
    }
  }

  /** Some a comes before some b. */
  ghost predicate Precedes(s: seq<string>, a: string, b: string) {
    exists p, q :: 0 <= p < q < |s| && s[p] == a && s[q] == b
  }

  /** The entries of part stand in the order they have in whole. */
  ghost predicate InOrder(whole: seq<string>, part: seq<string>) {
    forall i, j :: 0 <= i < j < |part| ==> Precedes(whole, part[i], part[j])
  }

  lemma {:induction false} WithoutInOrder(chain: seq<string>, drop: string -> bool)
    ensures InOrder(chain, Without(chain, drop))
  {
    if chain != [] {
      var n := |chain| - 1;
      var front, r := chain[..n], Without(chain, drop);
      WithoutInOrder(front, drop);
      var kept := Without(front, drop);
      forall i, j | 0 <= i < j < |r| ensures Precedes(chain, r[i], r[j]) {
        if j < |kept| {
          assert Precedes(front, kept[i], kept[j]);
          var p, q :| 0 <= p < q < |front| && front[p] == kept[i] && front[q] == kept[j];
          assert chain[p] == r[i] && chain[q] == r[j];
        } else {
          assert kept[i] in kept;
          var p :| 0 <= p < |front| && front[p] == kept[i];
          assert chain[p] == r[i] && chain[n] == r[j];
        }
      }
    }
  }

  predicate UnderProvider(entry: string, prov: string) {
    Parse(entry).Some? && Parse(entry).value.prov == prov
  }

  predicate RefersTo(entry: string, r: Ref) {
    Parse(entry) == Some(r)
  }

  function ToProvider(prov: string): string -> bool {
    c => UnderProvider(c, prov)
  }

  function ToRef(r: Ref): string -> bool {
    c => RefersTo(c, r)
  }

  lemma WithoutStep(chain: seq<string>, drop: string -> bool, i: nat)
    requires i < |chain|
    ensures Without(chain[..i + 1], drop) == Without(chain[..i], drop) + if drop(chain[i]) then [] else [chain[i]]
  {
    assert chain[..i + 1][..i] == chain[..i];
  }

  /** filterChainEntry: unparseable entries are kept. */
  method FilterEntry(chain: seq<string>, r: Ref) returns (out: seq<string>, removed: bool)
    ensures out == Without(chain, ToRef(r))
    ensures removed <==> |out| < |chain|
  {
    hide IndexOf, Parse, Without;
    out, removed := [], false;
    assert chain[..0] == [] && Without([], ToRef(r)) == [];
    for i := 0 to |chain|
      invariant out == Without(chain[..i], ToRef(r))
      invariant removed <==> |out| < i
    {
      WithoutStep(chain, ToRef(r), i);
      match Parse(chain[i]) {
        case None =>
          out := out + [chain[i]];
        case Some(e) =>
          if e == r {
            removed := true;
          } else {
            out := out + [chain[i]];
          }
      }
    }
    assert chain[..|chain|] == chain;
  }

  /** filterChainProvider. */
  method FilterProvider(chain: seq<string>, prov: string) returns (out: seq<string>, removed: nat)
    ensures out == Without(chain, ToProvider(prov))
    ensures removed == |chain| - |out|
  {
    hide IndexOf, Parse, Without;
    out, removed := [], 0;
    assert chain[..0] == [] && Without([], ToProvider(prov)) == [];
    for i := 0 to |chain|
      invariant out == Without(chain[..i], ToProvider(prov))
      invariant removed == i - |out|
    {
      WithoutStep(chain, ToProvider(prov), i);
      match Parse(chain[i]) {
        case None =>
          out := out + [chain[i]];
        case Some(e) =>
          if e.prov == prov {
            removed := removed + 1;
          } else {
            out := out + [chain[i]];
          }
      }
    }
    assert chain[..|chain|] == chain;
  }

  /** effectiveChain: the loop with its `seen` set. */
  method ComputeEffective(primary: string, fallback: seq<string>) returns (out: seq<string>)
    ensures out == Effective(primary, fallback)
  {
    out := [];
    var seen: set<string> := {};
    ghost var all := fallback;
    ghost var off := 0;
    if primary != "" {
      out := [primary];
      seen := {primary};
      all := [primary] + fallback;
      off := 1;
      assert all[..1] == [primary] && all[..1][..0] == [];
      assert Dedup(all[..1]) == [primary];
    }
    for i := 0 to |fallback|
      invariant out == Dedup(all[..off + i])
      invariant forall x :: x in seen <==> x in out
    {
      var e := fallback[i];
      assert all[..off + i + 1][..off + i] == all[..off + i];
      if e in seen {
        continue;
      }
      seen := seen + {e};
      out := out + [e];
    }
    assert all[..off + |fallback|] == all;
  }
}
