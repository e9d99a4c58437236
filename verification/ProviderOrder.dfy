/**
 The order in which op providers are preferred, and the selection rule as a function of which providers
 are registered: (priority descending, name ascending).
 */
module ProviderOrder {
  import opened Options

  /** Device-neutral capability record. */
  datatype Caps = Caps(device: nat, valid: bool, computeMajor: int, computeMinor: int, unitCount: int, features: nat)

  /** A capability predicate, or none at all. */
  datatype Supports = Always | When(test: Caps -> bool)

  /** `fn` is the kernel pointer; 0 is the null pointer. */
  datatype Provider = Provider(name: string, priority: int, supports: Supports, fn: nat)

  /** strcmp(a, b) < 0 */
  predicate NameLess(a: string, b: string) {
    if b == [] then false
    else if a == [] then true
    else if a[0] != b[0] then a[0] < b[0]
    else NameLess(a[1..], b[1..])
  }

  lemma {:induction false} NameTotal(a: string, b: string)
    ensures NameLess(a, b) || NameLess(b, a) || a == b
    ensures !(NameLess(a, b) && NameLess(b, a)) && (a == b ==> !NameLess(a, b))
  {
    if a != [] && b != [] && a[0] == b[0] {
      NameTotal(a[1..], b[1..]);
      assert a == [a[0]] + a[1..] && b == [b[0]] + b[1..];
    }
  }

  lemma {:induction false} NameTransitive(a: string, b: string, c: string)
    requires NameLess(a, b) && NameLess(b, c)
    ensures NameLess(a, c)
  {
    if a != [] && a[0] == b[0] && b[0] == c[0] { NameTransitive(a[1..], b[1..], c[1..]); }
  }

  predicate Better(a: Provider, b: Provider) {
    if a.priority != b.priority then a.priority > b.priority else NameLess(a.name, b.name)
  }

  /** Distinct names make the order strict and total. */
  lemma BetterTotal(a: Provider, b: Provider)
    ensures !(Better(a, b) && Better(b, a)) && !Better(a, a)
    ensures a.name != b.name ==> Better(a, b) || Better(b, a)
  {
    NameTotal(a.name, b.name);
    NameTotal(a.name, a.name);
  }

  lemma BetterTransitive(a: Provider, b: Provider, c: Provider)
    requires Better(a, b) && Better(b, c)
    ensures Better(a, c)
  {
    if a.priority == c.priority { NameTransitive(a.name, b.name, c.name); }
  }

  ghost predicate DistinctNames(ps: seq<Provider>) {
    forall i, j :: 0 <= i < j < |ps| ==> ps[i].name != ps[j].name
  }

  // ----- selection -----

  /** What one scan asks: capabilities, disabled names, and the provider to stay strictly below. */
  datatype Query = Query(caps: Caps, disabled: seq<string>, floor: Option<Provider>)

  predicate Supported(p: Provider, caps: Caps, disabled: seq<string>) {
    p.fn != 0 && p.name !in disabled && (p.supports.When? ==> p.supports.test(caps))
  }

  predicate Eligible(p: Provider, q: Query) {
    Supported(p, q.caps, q.disabled) && (q.floor.Some? ==> Better(q.floor.value, p))
  }

  /** p is what the seam promises: eligible, and better than every other eligible provider. */
  ghost predicate IsBest(ps: seq<Provider>, q: Query, p: Provider) {
    && p in ps && Eligible(p, q)
    && forall x :: x in ps && Eligible(x, q) && x.name != p.name ==> Better(p, x)
  }

  ghost predicate IsChoice(ps: seq<Provider>, q: Query, r: Option<Provider>) {
    match r
    case Some(p) => IsBest(ps, q, p)
    case None => forall x :: x in ps ==> !Eligible(x, q)
  }

  /** There is one best provider at most, so the answer depends only on which providers are registered. */
  lemma ChoiceUnique(ps: seq<Provider>, qs: seq<Provider>, q: Query, r: Option<Provider>, s: Option<Provider>)
    requires DistinctNames(ps) && (forall x :: x in ps <==> x in qs)
    requires IsChoice(ps, q, r) && IsChoice(qs, q, s)
    ensures r == s
  {
    if r.Some? && s.Some? {
      if r.value.name != s.value.name { BetterTotal(r.value, s.value); }
      SameName(ps, r.value, s.value);
    }
  }

  lemma SameName(ps: seq<Provider>, a: Provider, b: Provider)
    requires DistinctNames(ps) && a in ps && b in ps && a.name == b.name
    ensures a == b
  {
  }

  /** The choice as a value: the first eligible provider in selection order. */
  ghost function Choice(ps: seq<Provider>, q: Query): (r: Option<Provider>)
    requires DistinctNames(ps)
    ensures IsChoice(ps, q, r)
  {
    if ps == [] then None
    else
      var p, rest := ps[|ps| - 1], Choice(ps[..|ps| - 1], q);
      assert forall x :: x in ps <==> x == p || x in ps[..|ps| - 1];
      if !Eligible(p, q) then rest
      else if rest == None then Some(p)
      else
        BetterTotal(p, rest.value);
        if Better(p, rest.value) then
          assert forall x :: x in ps && Eligible(x, q) && x.name != p.name ==> Better(p, x) by {
            forall x | x in ps && Eligible(x, q) && x.name != p.name ensures Better(p, x) {
              if x.name != rest.value.name { BetterTransitive(p, rest.value, x); }
              else { SameName(ps[..|ps| - 1], x, rest.value); }
            }
          }
          Some(p)
        else rest
  }

  // ----- the selection order as a list -----

  ghost predicate Descending(ps: seq<Provider>) {
    forall i, j :: 0 <= i < j < |ps| ==> Better(ps[i], ps[j])
  }

  ghost function Insert(p: Provider, ps: seq<Provider>): (r: seq<Provider>)
    requires Descending(ps) && forall x :: x in ps ==> x.name != p.name
    ensures Descending(r) && multiset(r) == multiset(ps) + multiset{p}
  {
    if ps == [] then [p]
    else
      BetterTotal(p, ps[0]);
      if Better(p, ps[0]) then
        BetterThanAll(p, ps);
        [p] + ps
      else
        assert ps == [ps[0]] + ps[1..];
        var r := Insert(p, ps[1..]);
        StillFirst(p, ps, r);
        [ps[0]] + r
  }

  lemma BetterThanAll(p: Provider, ps: seq<Provider>)
    requires Descending(ps) && ps != [] && Better(p, ps[0])
    ensures Descending([p] + ps)
  {
    forall i | 0 <= i < |ps| ensures Better(p, ps[i]) { if i > 0 { BetterTransitive(p, ps[0], ps[i]); } }
  }

  lemma StillFirst(p: Provider, ps: seq<Provider>, r: seq<Provider>)
    requires Descending(ps) && ps != [] && Better(ps[0], p) && Descending(r)
    requires multiset(r) == multiset(ps[1..]) + multiset{p}
    ensures Descending([ps[0]] + r)
  {
    hide Better;
    forall i | 0 <= i < |r| ensures Better(ps[0], r[i]) {
      assert r[i] in multiset(r);
      if r[i] != p { assert r[i] in ps[1..]; }
    }
  }

  /** The registered providers in selection order. */
  ghost function Ranked(ps: seq<Provider>): (r: seq<Provider>)
    requires DistinctNames(ps)
    ensures Descending(r) && multiset(r) == multiset(ps)
  {
    if ps == [] then []
    else
      var init, p := ps[..|ps| - 1], ps[|ps| - 1];
      assert ps == init + [p];
      var r := Ranked(init);
      assert forall x :: x in r ==> x.name != p.name by {
        forall x | x in r ensures x.name != p.name { assert x in multiset(r); assert x in init; }
      }
      Insert(p, r)
  }

  /** A descending list is determined by what it contains. */
  lemma {:induction false} DescendingUnique(a: seq<Provider>, b: seq<Provider>)
    requires Descending(a) && Descending(b) && multiset(a) == multiset(b)
    ensures a == b
  {
    if a == [] {
      assert |multiset(b)| == 0;
    } else {
      assert |multiset(a)| == |multiset(b)|;
      HeadsAgree(a, b);
      TailOf(a);
      TailOf(b);
      hide Descending;
      DescendingUnique(a[1..], b[1..]);
    }
  }

  lemma TailOf(a: seq<Provider>)
    requires Descending(a) && a != []
    ensures Descending(a[1..]) && multiset(a[1..]) == multiset(a) - multiset{a[0]} && a == [a[0]] + a[1..]
  {
    hide Better;
    assert a == [a[0]] + a[1..];
  }

  lemma HeadsAgree(a: seq<Provider>, b: seq<Provider>)
    requires Descending(a) && Descending(b) && multiset(a) == multiset(b) && a != [] && b != []
    ensures a[0] == b[0]
  {
    hide Better;
    assert a[0] in multiset(b) && b[0] in multiset(a);
    var k :| 0 <= k < |b| && b[k] == a[0];
    var i :| 0 <= i < |a| && a[i] == b[0];
    BetterTotal(a[0], b[0]);
  }

  /** Whatever order the same providers were registered in, the selection order is the same. */
  lemma RankedOrderFree(ps: seq<Provider>, qs: seq<Provider>)
    requires DistinctNames(ps) && DistinctNames(qs) && multiset(ps) == multiset(qs)
    ensures Ranked(ps) == Ranked(qs) && forall q :: Choice(ps, q) == Choice(qs, q)
  {
    DescendingUnique(Ranked(ps), Ranked(qs));
    forall x ensures x in ps <==> x in qs { assert x in multiset(ps) <==> x in multiset(qs); }
    forall q ensures Choice(ps, q) == Choice(qs, q) { ChoiceUnique(ps, qs, q, Choice(ps, q), Choice(qs, q)); }
  }

  // ----- falling back down the list -----

  ghost function SupportedIn(ps: seq<Provider>, caps: Caps, disabled: seq<string>): (r: seq<Provider>)
    requires Descending(ps)
    ensures Descending(r) && forall x :: x in r <==> x in ps && Supported(x, caps, disabled)
  {
    if ps == [] then []
    else
      var r := SupportedIn(ps[1..], caps, disabled);
      assert forall x :: x in ps <==> x == ps[0] || x in ps[1..];
      if Supported(ps[0], caps, disabled) then
        assert forall x :: x in r ==> Better(ps[0], x) by {
          forall x | x in r
            ensures Better(ps[0], x)
          {
            var i :| 0 <= i < |ps[1..]| && ps[1..][i] == x;
            assert ps[i + 1] == x;
          }
        }
        [ps[0]] + r
      else r
  }

  /** The supported providers in selection order. */
  ghost function FallbackChain(ps: seq<Provider>, caps: Caps, disabled: seq<string>): (r: seq<Provider>)
    requires DistinctNames(ps)
    ensures Descending(r) && forall x :: x in r <==> x in ps && Supported(x, caps, disabled)
  {
    assert forall x :: x in Ranked(ps) <==> x in multiset(Ranked(ps));
    assert forall x :: x in ps <==> x in multiset(ps);
    SupportedIn(Ranked(ps), caps, disabled)
  }

  /** The selected provider heads the chain, falling back from each link yields the next, and the last
      link has no fallback: every supported provider is visited exactly once, in descending order. */
  lemma ChainVisitsAll(ps: seq<Provider>, caps: Caps, disabled: seq<string>, i: nat)
    requires DistinctNames(ps)
    ensures var c := FallbackChain(ps, caps, disabled);
      && Choice(ps, Query(caps, disabled, None)) == (if c == [] then None else Some(c[0]))
      && (i < |c| ==> Choice(ps, Query(caps, disabled, Some(c[i]))) == if i + 1 < |c| then Some(c[i + 1]) else None)
  {
    var c := FallbackChain(ps, caps, disabled);
    var q := Query(caps, disabled, None);
    ChainStep(ps, c, q, 0);
    if i < |c| {
      var q' := Query(caps, disabled, Some(c[i]));
      forall x | x in c ensures Better(c[i], x) <==> x in c[i + 1..] { BelowLink(c, i, x); }
      ChainStep(ps, c, q', i + 1);
    }
  }

  lemma BelowLink(c: seq<Provider>, i: nat, x: Provider)
    requires Descending(c) && i < |c| && x in c
    ensures Better(c[i], x) <==> x in c[i + 1..]
  {
    var k :| 0 <= k < |c| && c[k] == x;
    BetterTotal(c[i], x);
    if k > i { assert x == c[i + 1..][k - (i + 1)]; }
    if x in c[i + 1..] { var m :| 0 <= m < |c[i + 1..]| && c[i + 1..][m] == x; assert c[m + i + 1] == x; }
  }

  lemma ChainStep(ps: seq<Provider>, c: seq<Provider>, q: Query, k: nat)
    requires DistinctNames(ps) && Descending(c) && k <= |c|
    requires forall x :: x in c <==> x in ps && Supported(x, q.caps, q.disabled)
    requires forall x :: x in c ==> ((q.floor.Some? ==> Better(q.floor.value, x)) <==> x in c[k..])
    ensures Choice(ps, q) == if k < |c| then Some(c[k]) else None
  {
    if k < |c| {
      assert c[k] == c[k..][0];
      forall x | x in ps && Eligible(x, q) && x.name != c[k].name ensures Better(c[k], x) {
        assert x in c[k..];
        var m :| 0 <= m < |c[k..]| && c[k..][m] == x;
        assert c[m + k] == x;
      }
      ChoiceUnique(ps, ps, q, Some(c[k]), Choice(ps, q));
    } else {
      ChoiceUnique(ps, ps, q, None, Choice(ps, q));
    }
  }

  // ----- what the order is: highest priority first, then the name that comes first -----

  /** a is a proper prefix of b, or smaller at the first character where they differ. */
  ghost predicate ComesFirst(a: string, b: string) {
    exists k: nat :: k <= |a| && k <= |b| && a[..k] == b[..k] && (if k == |a| then k < |b| else k < |b| && a[k] < b[k])
  }

  ghost predicate FirstDifference(a: string, b: string, k: nat) {
    k <= |a| && k <= |b| && a[..k] == b[..k] && (k < |a| && k < |b| ==> a[k] != b[k])
  }

  lemma {:induction false} Differ(a: string, b: string) returns (k: nat)
    ensures FirstDifference(a, b, k)
    ensures NameLess(a, b) <==> (if k == |a| then k < |b| else k < |b| && a[k] < b[k])
  {
    if a == [] || b == [] || a[0] != b[0] {
      k := 0;
    } else {
      var n := Differ(a[1..], b[1..]);
      k := n + 1;
      assert a[..k] == [a[0]] + a[1..][..n] && b[..k] == [b[0]] + b[1..][..n];
    }
  }

  lemma OneDifference(a: string, b: string, k: nat, n: nat)
    requires FirstDifference(a, b, k) && n <= |a| && n <= |b| && a[..n] == b[..n]
    requires if n == |a| then n < |b| else n < |b| && a[n] < b[n]
    ensures k == n
  {
    PrefixAgrees(a, b, n);
    PrefixAgrees(a, b, k);
  }

  lemma PrefixAgrees(a: string, b: string, n: nat)
    requires n <= |a| && n <= |b| && a[..n] == b[..n]
    ensures forall i :: 0 <= i < n ==> a[i] == b[i]
  {
    forall i | 0 <= i < n ensures a[i] == b[i] { assert a[..n][i] == b[..n][i]; }
  }

  lemma NameOrder(a: string, b: string)
    ensures NameLess(a, b) <==> ComesFirst(a, b)
  {
    var k := Differ(a, b);
    if NameLess(a, b) {
      assert ComesFirst(a, b);
    }
    if ComesFirst(a, b) {
      var n: nat :| n <= |a| && n <= |b| && a[..n] == b[..n] && (if n == |a| then n < |b| else n < |b| && a[n] < b[n]);
      OneDifference(a, b, k, n);
    }
  }

  /** p is preferred to x. */
  ghost predicate Precedes(p: Provider, x: Provider) {
    p.priority > x.priority || (p.priority == x.priority && ComesFirst(p.name, x.name))
  }

  lemma BetterPrecedes(p: Provider, x: Provider)
    ensures Better(p, x) <==> Precedes(p, x)
  {
    NameOrder(p.name, x.name);
  }

  ghost predicate InOrder(ps: seq<Provider>) {
    forall k, l :: 0 <= k < l < |ps| ==> Precedes(ps[k], ps[l])
  }

  /** Of the supported providers p has the highest priority and, of those with this priority, the first name. */
  ghost predicate IsTop(ps: seq<Provider>, caps: Caps, disabled: seq<string>, p: Provider) {
    && p in ps && Supported(p, caps, disabled)
    && forall x :: x in ps && Supported(x, caps, disabled) ==>
         p.priority >= x.priority && (p.priority == x.priority && p.name != x.name ==> ComesFirst(p.name, x.name))
  }

  /** p is the first supported provider strictly below floor. */
  ghost predicate IsNext(ps: seq<Provider>, caps: Caps, disabled: seq<string>, floor: Provider, p: Provider) {
    && p in ps && Supported(p, caps, disabled) && Precedes(floor, p)
    && forall x :: x in ps && Supported(x, caps, disabled) && Precedes(floor, x) && x.name != p.name ==> Precedes(p, x)
  }

  /** The provider of this name has a next one below it, whose kernel is fn. */
  ghost predicate HasNext(ps: seq<Provider>, caps: Caps, disabled: seq<string>, name: string, fn: nat) {
    exists f: Provider, p: Provider :: f in ps && f.name == name && p.fn == fn && IsNext(ps, caps, disabled, f, p)
  }

  ghost predicate IsLowest(ps: seq<Provider>, caps: Caps, disabled: seq<string>, floor: Provider) {
    forall x :: x in ps && Supported(x, caps, disabled) ==> !Precedes(floor, x)
  }

  /** No supported provider lies below the one of this name. */
  ghost predicate HasNone(ps: seq<Provider>, caps: Caps, disabled: seq<string>, name: string) {
    exists f: Provider :: f in ps && f.name == name && IsLowest(ps, caps, disabled, f)
  }

  /** What selection promises, spelled out. */
  lemma ChoiceIsTop(ps: seq<Provider>, caps: Caps, disabled: seq<string>)
    requires DistinctNames(ps)
    ensures match Choice(ps, Query(caps, disabled, None))
      case Some(p) => IsTop(ps, caps, disabled, p)
      case None => forall x :: x in ps ==> !Supported(x, caps, disabled)
  {
    var q := Query(caps, disabled, None);
    var r := Choice(ps, q);
    hide Choice, Supported, Better;
    forall x | x in ps ensures Eligible(x, q) <==> Supported(x, caps, disabled) { }
    if r.Some? {
      var p := r.value;
      forall x | x in ps && Supported(x, caps, disabled)
        ensures p.priority >= x.priority
        ensures p.priority == x.priority && p.name != x.name ==> ComesFirst(p.name, x.name)
      {
        BetterPrecedes(p, x);
        if x.name == p.name { SameName(ps, x, p); }
      }
    }
  }

  lemma ChoiceIsNext(ps: seq<Provider>, caps: Caps, disabled: seq<string>, floor: Provider)
    requires DistinctNames(ps)
    ensures match Choice(ps, Query(caps, disabled, Some(floor)))
      case Some(p) => IsNext(ps, caps, disabled, floor, p)
      case None => IsLowest(ps, caps, disabled, floor)
  {
    var q := Query(caps, disabled, Some(floor));
    var r := Choice(ps, q);
    hide Choice, Supported, Better, Precedes;
    forall x ensures Better(floor, x) <==> Precedes(floor, x) { BetterPrecedes(floor, x); }
    if r.Some? {
      forall x ensures Better(r.value, x) <==> Precedes(r.value, x) { BetterPrecedes(r.value, x); }
    }
  }

  /** The reported order: highest priority first, equal priorities by name. */
  lemma RankedOrder(ps: seq<Provider>, i: nat, j: nat)
    requires DistinctNames(ps) && i < j < |Ranked(ps)|
    ensures Precedes(Ranked(ps)[i], Ranked(ps)[j])
  {
    BetterPrecedes(Ranked(ps)[i], Ranked(ps)[j]);
    hide Better, Precedes, Ranked;
  }
}
