/**
 Registration of providers, and exactly when the order of registration cannot matter.
 */
module ProviderRegistration {
  import opened Options
  import opened ProviderOrder

  const MAX_PROVIDERS := 4

  ghost predicate Named(ps: seq<Provider>, name: string) {
    exists x :: x in ps && x.name == name
  }

  /** Table fill: a null kernel, a fifth provider and a repeated name are ignored, anything else goes in last. */
  ghost function Register(ps: seq<Provider>, p: Provider): (r: seq<Provider>)
    ensures DistinctNames(ps) ==> DistinctNames(r)
    ensures |ps| <= 4 ==> ps <= r && |r| <= 4
    ensures p.fn != 0 && |ps| < 4 ==> exists x :: x in r && x.name == p.name
    ensures forall x :: x in r ==> x in ps || x == p
    ensures p.fn == 0 || |ps| >= 4 || Named(ps, p.name) <==> r == ps
    ensures r != ps ==> r == ps + [p]
  {
    if p.fn == 0 || |ps| >= MAX_PROVIDERS || Named(ps, p.name) then ps else ps + [p]
  }

  /** Registering rs one after another into an empty slot. */
  ghost function RegisterAll(rs: seq<Provider>): (r: seq<Provider>)
    ensures DistinctNames(r) && |r| <= MAX_PROVIDERS
    ensures forall x :: x in r ==> x in rs && x.fn != 0
  {
    if rs == [] then [] else
      assert forall x :: x in rs <==> x in rs[..|rs| - 1] || x == rs[|rs| - 1];
      Register(RegisterAll(rs[..|rs| - 1]), rs[|rs| - 1])
  }

  ghost function Names(rs: seq<Provider>): set<string> {
    set x | x in rs && x.fn != 0 :: x.name
  }

  /** At most four names, and one provider to a name. */
  ghost predicate Compatible(rs: seq<Provider>) {
    && |Names(rs)| <= MAX_PROVIDERS
    && forall x, y :: x in rs && y in rs && x.fn != 0 && y.fn != 0 && x.name == y.name ==> x == y
  }

  ghost predicate KeepsAll(rs: seq<Provider>) {
    forall x :: x in rs && x.fn != 0 ==> x in RegisterAll(rs)
  }

  /** Distinct names number as many as the providers that carry them. */
  lemma {:induction false} NamesCount(ps: seq<Provider>)
    requires DistinctNames(ps) && forall x :: x in ps ==> x.fn != 0
    ensures |Names(ps)| == |ps|
  {
    if ps != [] {
      var init, p := ps[..|ps| - 1], ps[|ps| - 1];
      NamesCount(init);
      assert p.name !in Names(init);
      assert Names(ps) == Names(init) + {p.name} by {
        forall s ensures s in Names(ps) <==> s in Names(init) + {p.name} {
          if s in Names(ps) { var x :| x in ps && x.fn != 0 && x.name == s; assert x == p || x in init; }
          if s in Names(init) { var x :| x in init && x.fn != 0 && x.name == s; assert x in ps; }
        }
      }
    }
  }

  lemma SubsetCount(a: set<string>, b: set<string>)
    requires a <= b
    ensures |a| <= |b|
    ensures |a| == |b| ==> a == b
  {
    assert b == a + (b - a);
  }

  /** x gets in whatever the order: at most four names, and its name is nobody else's. */
  ghost predicate Safe(rs: seq<Provider>, x: Provider) {
    |Names(rs)| <= MAX_PROVIDERS && forall y :: y in rs && y.fn != 0 && y.name == x.name ==> y == x
  }

  lemma {:induction false} SafeKeeps(rs: seq<Provider>, x: Provider)
    requires x in rs && x.fn != 0 && Safe(rs, x)
    ensures x in RegisterAll(rs)
  {
    var init, p := rs[..|rs| - 1], rs[|rs| - 1];
    assert forall y :: y in rs <==> y in init || y == p;
    SubsetCount(Names(init), Names(rs)) by { SubNames(init, rs); }
    if x in init {
      SafeKeeps(init, x);
    } else {
      var ps := RegisterAll(init);
      assert !Named(ps, x.name);
      NamesCount(ps);
      SubNames(ps, init);
      SubNames(init, rs);
      assert x.name !in Names(ps) && x.name in Names(rs);
      SubsetCount(Names(ps) + {x.name}, Names(rs));
    }
  }

  /** A provider in a compatible list is never turned away. */
  lemma CompatibleKeeps(rs: seq<Provider>)
    requires Compatible(rs)
    ensures KeepsAll(rs)
  {
    forall x | x in rs && x.fn != 0 ensures x in RegisterAll(rs) { SafeKeeps(rs, x); }
  }

  lemma SubNames(a: seq<Provider>, b: seq<Provider>)
    requires forall x :: x in a && x.fn != 0 ==> x in b
    ensures Names(a) <= Names(b)
  {
    forall s | s in Names(a) ensures s in Names(b) { var x :| x in a && x.fn != 0 && x.name == s; }
  }

  lemma KeepsCompatible(rs: seq<Provider>)
    requires KeepsAll(rs)
    ensures Compatible(rs)
  {
    var ps := RegisterAll(rs);
    NamesCount(ps);
    SubNames(rs, ps);
    SubsetCount(Names(rs), Names(ps));
    forall x, y | x in rs && y in rs && x.fn != 0 && y.fn != 0 && x.name == y.name ensures x == y {
      SameName(ps, x, y);
    }
  }

  /** What is registered stays registered. */
  lemma {:induction false} Stays(rs: seq<Provider>, more: seq<Provider>, x: Provider)
    requires x in RegisterAll(rs)
    ensures x in RegisterAll(rs + more)
  {
    if more == [] {
      assert rs + more == rs;
    } else {
      Stays(rs, more[..|more| - 1], x);
      assert (rs + more)[..|rs + more| - 1] == rs + more[..|more| - 1];
    }
  }

  lemma FirstRegisters(x: Provider, rest: seq<Provider>)
    requires x.fn != 0
    ensures x in RegisterAll([x] + rest)
  {
    assert [x][..0] == [];
    assert RegisterAll([x]) == Register(RegisterAll([]), x) == [x];
    Stays([x], rest, x);
  }

  /** The same lists of providers in another order hold the same elements. */
  lemma SameElements(rs: seq<Provider>, qs: seq<Provider>)
    requires multiset(rs) == multiset(qs)
    ensures forall x :: x in rs <==> x in qs
  {
    forall x ensures x in rs <==> x in qs { assert x in multiset(rs) <==> x in multiset(qs); }
  }

  lemma {:induction false} DistinctMultiset(a: seq<Provider>, b: seq<Provider>)
    requires DistinctNames(a) && DistinctNames(b) && forall x :: x in a <==> x in b
    ensures multiset(a) == multiset(b)
  {
    forall x ensures multiset(a)[x] == multiset(b)[x] {
      OneEach(a, x);
      OneEach(b, x);
    }
  }

  lemma {:induction false} OneEach(a: seq<Provider>, x: Provider)
    requires DistinctNames(a)
    ensures multiset(a)[x] == if x in a then 1 else 0
  {
    if a != [] {
      var init, p := a[..|a| - 1], a[|a| - 1];
      assert a == init + [p];
      OneEach(init, x);
    }
  }

  /** The reported selection order is free of registration order exactly for compatible registrations: at most
      four names and one provider to a name. Beyond that, which providers get in depends on who came first. */
  lemma OrderFreeIff(rs: seq<Provider>)
    ensures Compatible(rs) <==>
      (forall qs :: multiset(qs) == multiset(rs) ==> Ranked(RegisterAll(qs)) == Ranked(RegisterAll(rs)))
  {
    if Compatible(rs) {
      forall qs | multiset(qs) == multiset(rs) ensures Ranked(RegisterAll(qs)) == Ranked(RegisterAll(rs)) {
        SameElements(qs, rs);
        CompatibleKeeps(rs);
        assert Names(qs) == Names(rs);
        CompatibleKeeps(qs);
        DistinctMultiset(RegisterAll(qs), RegisterAll(rs));
        RankedOrderFree(RegisterAll(qs), RegisterAll(rs));
      }
    } else {
      var qs := OrderMatters(rs);
      assert multiset(qs) == multiset(rs) && Ranked(RegisterAll(qs)) != Ranked(RegisterAll(rs));
    }
  }

  /** An order in which a provider that was turned away gets in. */
  lemma OrderMatters(rs: seq<Provider>) returns (qs: seq<Provider>)
    requires !Compatible(rs)
    ensures multiset(qs) == multiset(rs) && Ranked(RegisterAll(qs)) != Ranked(RegisterAll(rs))
  {
    hide Better, RegisterAll, Compatible;
    var x := TurnedAway(rs);
    qs := Frontal(rs, x);
    InRanked(RegisterAll(qs), x);
    InRanked(RegisterAll(rs), x);
  }

  lemma TurnedAway(rs: seq<Provider>) returns (x: Provider)
    requires !Compatible(rs)
    ensures x in rs && x.fn != 0 && x !in RegisterAll(rs)
  {
    hide RegisterAll, Compatible;
    if forall x :: x in rs && x.fn != 0 ==> x in RegisterAll(rs) {
      KeepsCompatible(rs);
    }
    x :| x in rs && x.fn != 0 && x !in RegisterAll(rs);
  }

  lemma InRanked(ps: seq<Provider>, x: Provider)
    requires DistinctNames(ps)
    ensures x in Ranked(ps) <==> x in ps
  {
    assert x in multiset(Ranked(ps)) <==> x in multiset(ps);
  }

  // ----- the winners -----

  /** Some device can use it. */
  ghost predicate Usable(x: Provider) {
    x.fn != 0 && exists caps :: Supported(x, caps, [])
  }

  /** Every order of the registrations gives the same winner, or none, for every query. */
  ghost predicate SameWinners(rs: seq<Provider>) {
    forall qs, q :: multiset(qs) == multiset(rs) ==> Choice(RegisterAll(qs), q) == Choice(RegisterAll(rs), q)
  }

  ghost predicate UsableSafe(rs: seq<Provider>) {
    forall x :: x in rs && Usable(x) ==> Safe(rs, x)
  }

  /** The winners are free of registration order exactly when every provider some device can use is safe: a repeated
      name or a fifth one does no harm only where nobody can use the providers concerned. */
  lemma WinnersFreeIff(rs: seq<Provider>)
    ensures SameWinners(rs) <==> UsableSafe(rs)
  {
    hide Choice, RegisterAll, Usable, Safe;
    if UsableSafe(rs) {
      forall qs, q | multiset(qs) == multiset(rs) ensures Choice(RegisterAll(qs), q) == Choice(RegisterAll(rs), q) {
        SafeWinner(rs, qs, q);
      }
    } else {
      var x :| x in rs && Usable(x) && !Safe(rs, x);
      WinnerDiffers(rs, x);
    }
  }

  lemma EligibleUsable(x: Provider, q: Query)
    requires Eligible(x, q)
    ensures Usable(x)
  {
    assert Supported(x, q.caps, []);
  }

  lemma SafeWinner(rs: seq<Provider>, qs: seq<Provider>, q: Query)
    requires UsableSafe(rs) && multiset(qs) == multiset(rs)
    ensures Choice(RegisterAll(qs), q) == Choice(RegisterAll(rs), q)
  {
    SameElements(qs, rs);
    assert Names(qs) == Names(rs);
    var a, b := RegisterAll(qs), RegisterAll(rs);
    hide Choice, RegisterAll, Usable, Eligible;
    forall x | x in rs && Eligible(x, q) ensures x in a && x in b {
      EligibleUsable(x, q);
      assert Safe(rs, x) && Safe(qs, x);
      NotNull(x, q);
      SafeKeeps(rs, x);
      SafeKeeps(qs, x);
    }
    SameEligible(a, b, q, Choice(a, q), Choice(b, q));
  }

  lemma NotNull(x: Provider, q: Query)
    requires Eligible(x, q)
    ensures x.fn != 0
  {
  }

  lemma SameEligible(a: seq<Provider>, b: seq<Provider>, q: Query, r: Option<Provider>, s: Option<Provider>)
    requires DistinctNames(a) && IsChoice(a, q, r) && IsChoice(b, q, s)
    requires forall x :: Eligible(x, q) ==> (x in a <==> x in b)
    ensures r == s
  {
    hide Eligible;
    if r.Some? && s.Some? {
      if r.value.name != s.value.name { BetterTotal(r.value, s.value); }
      SameName(a, r.value, s.value);
    }
  }

  /** Registrations go in until the table is full. */
  lemma {:induction false} TableCount(rs: seq<Provider>)
    ensures |RegisterAll(rs)| < MAX_PROVIDERS ==> Names(RegisterAll(rs)) == Names(rs)
  {
    if rs != [] {
      var init, p := rs[..|rs| - 1], rs[|rs| - 1];
      assert forall y :: y in rs <==> y in init || y == p;
      var before, now := RegisterAll(init), RegisterAll(rs);
      if |now| < MAX_PROVIDERS {
        TableCount(init);
        SubNames(now, rs);
        forall name | name in Names(rs) ensures name in Names(now) {
          var x :| x in rs && x.fn != 0 && x.name == name;
          if x in init {
            assert name in Names(before);
            SubNames(before, now);
          } else {
            var y :| y in now && y.name == p.name;
          }
        }
      }
    }
  }

  lemma {:induction false} FullIgnores(rs: seq<Provider>, more: seq<Provider>)
    requires |RegisterAll(rs)| == MAX_PROVIDERS
    ensures RegisterAll(rs + more) == RegisterAll(rs)
  {
    if more == [] {
      assert rs + more == rs;
    } else {
      FullIgnores(rs, more[..|more| - 1]);
      assert (rs + more)[..|rs + more| - 1] == rs + more[..|more| - 1];
    }
  }

  /** The registrations of name, or the others, in order. */
  function Only(rs: seq<Provider>, name: string, same: bool): (r: seq<Provider>)
    ensures forall x :: x in r <==> x in rs && (x.name == name <==> same)
  {
    if rs == [] then []
    else
      var init, p := rs[..|rs| - 1], rs[|rs| - 1];
      assert forall x :: x in rs <==> x in init || x == p;
      Only(init, name, same) + if p.name == name <==> same then [p] else []
  }

  lemma {:induction false} OnlySplits(rs: seq<Provider>, name: string)
    ensures multiset(Only(rs, name, false) + Only(rs, name, true)) == multiset(rs)
  {
    if rs != [] {
      var init, p := rs[..|rs| - 1], rs[|rs| - 1];
      assert rs == init + [p];
      OnlySplits(init, name);
    }
  }

  lemma Frontal(rs: seq<Provider>, x: Provider) returns (qs: seq<Provider>)
    requires x in rs && x.fn != 0
    ensures multiset(qs) == multiset(rs) && x in RegisterAll(qs)
  {
    hide RegisterAll;
    var i :| 0 <= i < |rs| && rs[i] == x;
    qs := [x] + (rs[..i] + rs[i + 1..]);
    assert rs == rs[..i] + [x] + rs[i + 1..];
    FirstRegisters(x, rs[..i] + rs[i + 1..]);
  }

  /** An unsafe provider is turned away in some order. */
  lemma TurnedAwayIn(rs: seq<Provider>, x: Provider) returns (qs: seq<Provider>)
    requires x in rs && x.fn != 0 && !Safe(rs, x)
    ensures multiset(qs) == multiset(rs) && x !in RegisterAll(qs)
  {
    hide RegisterAll;
    if y :| y in rs && y.fn != 0 && y.name == x.name && y != x {
      qs := Frontal(rs, y);
      if x in RegisterAll(qs) { SameName(RegisterAll(qs), x, y); }
    } else {
      var others := Only(rs, x.name, false);
      OnlySplits(rs, x.name);
      qs := others + Only(rs, x.name, true);
      SubNames(rs, others + [x]);
      assert Names(rs) <= Names(others) + {x.name};
      SubsetCount(Names(rs), Names(others) + {x.name});
      NamesCount(RegisterAll(others));
      TableCount(others);
      FullIgnores(others, Only(rs, x.name, true));
    }
  }

  function NamesBut(ps: seq<Provider>, name: string): (r: seq<string>)
    ensures forall s :: s in r <==> s != name && exists x :: x in ps && x.name == s
  {
    if ps == [] then []
    else
      var init, p := ps[..|ps| - 1], ps[|ps| - 1];
      assert forall x :: x in ps <==> x in init || x == p;
      NamesBut(init, name) + if p.name == name then [] else [p.name]
  }

  /** With the others disabled, x wins in an order that registers it and not in one that turns it away. */
  lemma WinnerDiffers(rs: seq<Provider>, x: Provider)
    requires x in rs && Usable(x) && !Safe(rs, x)
    ensures !SameWinners(rs)
  {
    hide RegisterAll, Choice, Safe;
    var with := Frontal(rs, x);
    var without := TurnedAwayIn(rs, x);
    var caps :| Supported(x, caps, []);
    var q := Query(caps, NamesBut(RegisterAll(with), x.name), None);
    WinsAlone(RegisterAll(with), x, q);
    TwoWinners(rs, with, without, q);
  }

  lemma TwoWinners(rs: seq<Provider>, a: seq<Provider>, b: seq<Provider>, q: Query)
    requires multiset(a) == multiset(rs) == multiset(b) && Choice(RegisterAll(a), q) != Choice(RegisterAll(b), q)
    ensures !SameWinners(rs)
  {
    hide Choice, RegisterAll;
    var w := Choice(RegisterAll(rs), q);
    assert Choice(RegisterAll(a), q) != w || Choice(RegisterAll(b), q) != w;
  }

  lemma WinsAlone(ps: seq<Provider>, x: Provider, q: Query)
    requires DistinctNames(ps) && x in ps && Supported(x, q.caps, []) && q.disabled == NamesBut(ps, x.name)
    requires q.floor.None?
    ensures Choice(ps, q) == Some(x)
  {
    hide Choice;
    assert Eligible(x, q);
    var r := Choice(ps, q);
    assert r.Some? && Eligible(r.value, q) && r.value.name !in q.disabled;
    SameName(ps, r.value, x);
  }
}
