/**
 tools/gen_unicode_data.py: the builders of the category and whitespace tables, and the emitted lookups that
 search them. Building and then looking up gives back the classification itself.
 */
module RangeTables {
  import opened Options

  const OTHER := 0  // UCat::kOther, also the index of unassigned code points

  /** An inclusive run of code points of one category. */
  datatype Range = Range(start: nat, end: nat, cat: int)

  /** Sorted, disjoint, non-empty ranges below n. */
  ghost predicate Ordered(rs: seq<Range>, n: nat) {
    && (forall i :: 0 <= i < |rs| ==> rs[i].start <= rs[i].end < n)
    && (forall i, j :: 0 <= i < j < |rs| ==> rs[i].end < rs[j].start)
  }

  ghost predicate Inside(rs: seq<Range>, i: int, cp: nat) {
    0 <= i < |rs| && rs[i].start <= cp <= rs[i].end
  }

  ghost predicate Covered(rs: seq<Range>, cp: nat) {
    exists i :: Inside(rs, i, cp)
  }

  /** No range could be longer: a neighbour that touches it has another category. */
  ghost predicate Maximal(rs: seq<Range>) {
    forall i, j :: 0 <= i < |rs| && j == i + 1 < |rs| && rs[i].end + 1 == rs[j].start ==> rs[i].cat != rs[j].cat
  }

  /** rs is the table of f on the code points below n. */
  ghost predicate TableOf(rs: seq<Range>, f: nat -> int, n: nat) {
    && Ordered(rs, n) && Maximal(rs)
    && (forall i, cp: nat :: Inside(rs, i, cp) ==> f(cp) == rs[i].cat != OTHER)
    && (forall cp: nat :: cp < n && f(cp) != OTHER ==> Covered(rs, cp))
  }

  /** The last range does not run into a following one of category c. */
  ghost predicate EndsBefore(rs: seq<Range>, at: nat, c: int) {
    rs != [] && rs[|rs| - 1].end + 1 == at ==> rs[|rs| - 1].cat != c
  }

  // ----- building -----

  /** A finished run of unassigned code points adds nothing. */
  lemma SkipRun(rs: seq<Range>, f: nat -> int, a: nat, b: nat)
    requires TableOf(rs, f, a) && a <= b && forall c: nat :: a <= c < b ==> f(c) == OTHER
    ensures TableOf(rs, f, b)
  {
  }

  /** A finished run of a real category becomes one range. */
  lemma PushRun(rs: seq<Range>, f: nat -> int, a: nat, b: nat, cat: int)
    requires TableOf(rs, f, a) && a < b && cat != OTHER && EndsBefore(rs, a, cat)
    requires forall c: nat :: a <= c < b ==> f(c) == cat
    ensures TableOf(rs + [Range(a, b - 1, cat)], f, b)
  {
    var t := rs + [Range(a, b - 1, cat)];
    forall cp: nat | cp < b && f(cp) != OTHER ensures Covered(t, cp) {
      if cp < a {
        assert Covered(rs, cp);
        var i :| Inside(rs, i, cp);
        assert Inside(t, i, cp);
      } else {
        assert Inside(t, |rs|, cp);
      }
    }
    forall i, cp: nat | Inside(t, i, cp) ensures f(cp) == t[i].cat != OTHER {
      if i < |rs| { assert Inside(rs, i, cp); }
    }
  }

  lemma NoRanges(f: nat -> int)
    ensures TableOf([], f, 0)
  {
  }

  lemma NoneBelow(rs: seq<Range>, f: nat -> int)
    requires TableOf(rs, f, 0)
    ensures rs == []
  {
    assert |rs| == 0 || rs[0].end < 0;
  }

  lemma LastBelow(rs: seq<Range>, f: nat -> int, a: nat)
    requires TableOf(rs, f, a) && rs != []
    ensures rs[|rs| - 1].end < a
  {
  }

  /** build_category_ranges: one pass, with a last step whose impossible category -1 flushes the open run. */
  method BuildCategoryRanges(category: nat -> int, n: nat) returns (rs: seq<Range>)
    requires forall cp :: 0 <= category(cp) <= 7
    ensures TableOf(rs, category, n)
  {
    hide TableOf;
    rs := [];
    var runStart: Option<nat>, runCat := None, OTHER;
    ghost var a := 0;
    NoRanges(category);
    for cp := 0 to n + 1
      invariant a == (if runStart.Some? then runStart.value else 0) <= cp
      invariant runCat != OTHER ==> runStart.Some? && cp > 0
      invariant cp > 0 ==> a < cp
      invariant if cp <= n then TableOf(rs, category, a) && EndsBefore(rs, a, runCat) && runCat >= 0
                else TableOf(rs, category, n)
      invariant cp <= n ==> forall c: nat :: a <= c < cp ==> category(c) == runCat
    {
      var cat := if cp < n then category(cp) else -1;
      if cp == 0 { NoneBelow(rs, category); }
      if cat != runCat {
        if rs != [] { LastBelow(rs, category, a); }
        if runCat == OTHER { SkipRun(rs, category, a, cp); } else { PushRun(rs, category, a, cp, runCat); }
        if runCat != OTHER && runStart.Some? {
          rs := rs + [Range(runStart.value, cp - 1, runCat)];
        }
        runStart, runCat := Some(cp), cat;
        a := cp;
      }
    }
  }

  /** The whitespace predicate as a category function of one category. */
  function SpaceCategory(space: nat -> bool): nat -> int {
    (cp: nat) => if space(cp) then 1 else OTHER
  }

  /** The code points below n that are spaces, in order. */
  ghost predicate Listing(cps: seq<nat>, space: nat -> bool, n: nat) {
    && (forall c: nat :: c in cps <==> c < n && space(c))
    && (forall i, j :: 0 <= i < j < |cps| ==> cps[i] < cps[j])
  }

  method ListSpaces(space: nat -> bool, n: nat) returns (cps: seq<nat>)
    ensures Listing(cps, space, n)
  {
    cps := [];
    for cp := 0 to n
      invariant Listing(cps, space, cp)
    {
      assert forall i :: 0 <= i < |cps| ==> cps[i] in cps;
      if space(cp) { cps := cps + [cp]; }
    }
  }

  function After(cps: seq<nat>, i: nat): nat
    requires i <= |cps|
  {
    if i == 0 then 0 else cps[i - 1] + 1
  }

  /** Between two listed code points, and after the last, there is no space. */
  lemma NoSpaceBetween(cps: seq<nat>, space: nat -> bool, n: nat, i: nat)
    requires Listing(cps, space, n) && i <= |cps|
    ensures var upto := if i < |cps| then cps[i] else n;
            After(cps, i) <= upto && forall c: nat :: After(cps, i) <= c < upto ==> SpaceCategory(space)(c) == OTHER
  {
    var upto := if i < |cps| then cps[i] else n;
    assert forall k :: 0 <= k < |cps| ==> cps[k] in cps;
    forall c: nat | After(cps, i) <= c < upto ensures SpaceCategory(space)(c) == OTHER {
      if c in cps { var k :| 0 <= k < |cps| && cps[k] == c; }
    }
  }

  /** build_whitespace_ranges: collect the code points, then merge each with the range it touches. */
  method BuildWhitespaceRanges(space: nat -> bool, n: nat) returns (rs: seq<Range>)
    ensures TableOf(rs, SpaceCategory(space), n)
  {
    hide Listing, TableOf, SpaceCategory, After;
    var cps := ListSpaces(space, n);
    rs := [];
    ghost var f := SpaceCategory(space);
    EmptyTable(f, cps);
    for i := 0 to |cps|
      invariant TableOf(rs, f, After(cps, i)) && (rs != [] ==> rs[|rs| - 1].cat == 1)
    {
      var cp := cps[i];
      NoSpaceBetween(cps, space, n, i);
      SkipRun(rs, f, After(cps, i), cp);
      IsListed(cps, space, n, i);
      if rs != [] && cp == rs[|rs| - 1].end + 1 {
        GrowLast(rs, f, cp);
        rs := rs[|rs| - 1 := Range(rs[|rs| - 1].start, cp, 1)];
      } else {
        PushRun(rs, f, cp, cp + 1, 1);
        rs := rs + [Range(cp, cp, 1)];
      }
    }
    NoSpaceBetween(cps, space, n, |cps|);
    SkipRun(rs, f, After(cps, |cps|), n);
  }

  lemma EmptyTable(f: nat -> int, cps: seq<nat>)
    ensures TableOf([], f, After(cps, 0))
  {
  }

  lemma IsListed(cps: seq<nat>, space: nat -> bool, n: nat, i: nat)
    requires Listing(cps, space, n) && i < |cps|
    ensures SpaceCategory(space)(cps[i]) == 1 && After(cps, i + 1) == cps[i] + 1
  {
    assert cps[i] in cps;
  }

  lemma GrowLast(rs: seq<Range>, f: nat -> int, cp: nat)
    requires TableOf(rs, f, cp) && rs != [] && rs[|rs| - 1].end + 1 == cp && f(cp) == rs[|rs| - 1].cat == 1
    ensures TableOf(rs[|rs| - 1 := Range(rs[|rs| - 1].start, cp, 1)], f, cp + 1)
  {
    var l := |rs| - 1;
    var t := rs[l := Range(rs[l].start, cp, 1)];
    forall c: nat | c < cp + 1 && f(c) != OTHER ensures Covered(t, c) {
      if c < cp {
        assert Covered(rs, c);
        var i :| Inside(rs, i, c);
        assert Inside(t, i, c);
      } else {
        assert Inside(t, l, c);
      }
    }
    forall i, c: nat | Inside(t, i, c) ensures f(c) == t[i].cat != OTHER {
      if !(i == l && c == cp) { assert Inside(rs, i, c); }
    }
  }

  // ----- looking up -----

  /** std::upper_bound on the range starts: how many ranges start at or before v. */
  function UpperBound(rs: seq<Range>, v: nat): (k: nat)
    requires forall i, j :: 0 <= i < j < |rs| ==> rs[i].start < rs[j].start
    ensures k <= |rs|
    ensures (forall i :: 0 <= i < k ==> rs[i].start <= v) && (forall i :: k <= i < |rs| ==> v < rs[i].start)
  {
    if rs == [] then 0
    else if v < rs[|rs| - 1].start then UpperBound(rs[..|rs| - 1], v)
    else |rs|
  }

  /** Category: the range found, or kOther. */
  function Category(rs: seq<Range>, cp: nat): int
    requires forall i, j :: 0 <= i < j < |rs| ==> rs[i].start < rs[j].start
  {
    var k := UpperBound(rs, cp);
    if k == 0 then OTHER else if cp <= rs[k - 1].end then rs[k - 1].cat else OTHER
  }

  function IsWhitespace(rs: seq<Range>, cp: nat): bool
    requires forall i, j :: 0 <= i < j < |rs| ==> rs[i].start < rs[j].start
  {
    var k := UpperBound(rs, cp);
    k != 0 && cp <= rs[k - 1].end
  }

  /** Looking a code point up in the table of f gives f inside the range and kOther above it. */
  lemma LookupIsCategory(rs: seq<Range>, f: nat -> int, n: nat, cp: nat)
    requires TableOf(rs, f, n)
    ensures Category(rs, cp) == if cp < n then f(cp) else 0
  {
    var k := UpperBound(rs, cp);
    if cp < n && f(cp) != OTHER {
      assert Covered(rs, cp);
      var i :| Inside(rs, i, cp);
      assert forall j :: 0 <= j < k - 1 ==> rs[j].end < rs[k - 1].start;
    }
    if k > 0 && cp <= rs[k - 1].end { assert Inside(rs, k - 1, cp); }
  }

  lemma LookupIsSpace(rs: seq<Range>, space: nat -> bool, n: nat, cp: nat)
    requires TableOf(rs, SpaceCategory(space), n)
    ensures IsWhitespace(rs, cp) <==> cp < n && space(cp)
  {
    LookupIsCategory(rs, SpaceCategory(space), n, cp);
    var k := UpperBound(rs, cp);
    if k > 0 && cp <= rs[k - 1].end { assert Inside(rs, k - 1, cp); }
  }

  // ----- there is only one such table -----

  /** A table that agrees with another on its first k ranges starts its next one no later. */
  lemma StartsBy(rs: seq<Range>, ts: seq<Range>, f: nat -> int, n: nat, k: nat)
    requires TableOf(rs, f, n) && TableOf(ts, f, n) && k < |rs| && k <= |ts| && rs[..k] == ts[..k]
    ensures k < |ts| && ts[k].start <= rs[k].start
  {
    var cp := rs[k].start;
    assert Inside(rs, k, cp);
    assert Covered(ts, cp);
    assert forall i :: 0 <= i < k ==> ts[i] == ts[..k][i] == rs[..k][i] == rs[i];
    assert forall i :: 0 <= i < k ==> rs[i].end < rs[k].start;
    var j :| Inside(ts, j, cp);
    assert forall i :: 0 <= i < j ==> ts[i].end < ts[j].start;
  }

  /** And ends it no later, for a longer range would have been continued. */
  lemma EndsBy(rs: seq<Range>, ts: seq<Range>, f: nat -> int, n: nat, k: nat)
    requires TableOf(rs, f, n) && TableOf(ts, f, n) && k < |rs| && k < |ts| && rs[k].start == ts[k].start
    ensures ts[k].end <= rs[k].end
  {
    assert Inside(rs, k, rs[k].start) && Inside(ts, k, ts[k].start);
    var e := rs[k].end + 1;
    if e <= ts[k].end {
      assert Inside(ts, k, e);
      assert Covered(rs, e);
      var j :| Inside(rs, j, e);
      StepAfter(rs, n, k, j, e);
    }
  }

  lemma StepAfter(rs: seq<Range>, n: nat, k: nat, j: int, e: nat)
    requires Ordered(rs, n) && k < |rs| && Inside(rs, j, e) && e == rs[k].end + 1
    ensures j == k + 1 && rs[j].start == e
  {
    assert forall i :: 0 <= i < k ==> rs[i].end < rs[k].start;
    assert k < j;
    assert rs[k].end < rs[k + 1].start;
    assert forall i :: 0 <= i < j ==> rs[i].end < rs[j].start;
  }

  /** The sorted, disjoint, maximal table of a classification is unique. */
  lemma {:induction false} TableUnique(rs: seq<Range>, ts: seq<Range>, f: nat -> int, n: nat, k: nat)
    requires TableOf(rs, f, n) && TableOf(ts, f, n) && k <= |rs| && k <= |ts| && rs[..k] == ts[..k]
    ensures rs == ts
    decreases |rs| - k
  {
    if k < |rs| {
      StartsBy(rs, ts, f, n, k);
      StartsBy(ts, rs, f, n, k);
      EndsBy(rs, ts, f, n, k);
      EndsBy(ts, rs, f, n, k);
      assert Inside(rs, k, rs[k].start) && Inside(ts, k, rs[k].start);
      assert rs[..k + 1] == ts[..k + 1];
      TableUnique(rs, ts, f, n, k + 1);
    } else if k < |ts| {
      StartsBy(ts, rs, f, n, k);
    }
  }
}
