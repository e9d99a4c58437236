/**
 src/vt/op_provider.cpp: the registry of op providers with its cached selections, its memoised "none"
 answers, its capability records and its runtime disable list. Every public call is one step; `Valid`
 says that no cached answer ever differs from what a fresh scan would find.
 */
module OpProvider {
  import opened Options
  import opened ProviderOrder
  import opened ProviderRegistration

  const MAX_DISABLED := 8
  const MAX_NAME := 63

  /** One (op, device) entry. `selected` is the cached kernel pointer, 0 when there is none. */
  datatype Slot = Slot(providers: seq<Provider>, selected: nat, resolvedNone: bool, lastSelected: Option<string>,
                       selections: nat, declines: nat, fallbacks: nat)

  /** VT_CHECK failures surface as exceptions. */
  datatype Lookup = Kernel(fn: nat) | InvalidKey | NoKernel | UnknownProvider

  // ----- the disable list as a value -----

  /** Empty, over-long and repeated names are ignored, and so is a ninth. */
  function AddName(names: seq<string>, name: string): (r: seq<string>)
    ensures |name| > 63 || |names| >= 8 ==> r == names
    ensures forall x :: x in r ==> x in names || (x == name && x != [])
    ensures (forall i, j :: 0 <= i < j < |names| ==> names[i] != names[j]) ==>
      forall i, j :: 0 <= i < j < |r| ==> r[i] != r[j]
  {
    if name == [] || |name| > MAX_NAME || |names| >= MAX_DISABLED || name in names then names else names + [name]
  }

  function FirstComma(e: string): (n: nat)
    ensures n <= |e| && (n < |e| ==> e[n] == ',') && forall i :: 0 <= i < n ==> e[i] != ','
  {
    if e == [] || e[0] == ',' then 0 else 1 + FirstComma(e[1..])
  }

  /** The comma-separated names of the environment variable, added in order. */
  function ParseNames(e: string, names: seq<string>): seq<string>
    decreases |e|
  {
    if e == [] then names
    else
      var n := FirstComma(e);
      var next := AddName(names, e[..n]);
      if n == |e| then next else ParseNames(e[n + 1..], next)
  }

  /** Names with commas between them. */
  function JoinNames(ns: seq<string>): string {
    if ns == [] then "" else if |ns| == 1 then ns[0] else ns[0] + "," + JoinNames(ns[1..])
  }

  ghost predicate Listable(name: string) {
    0 < |name| <= 63 && ',' !in name
  }

  /** A list of up to eight different names is read back as it was written. */
  lemma ParseJoined(ns: seq<string>)
    requires |ns| <= 8 && forall i :: 0 <= i < |ns| ==> Listable(ns[i])
    requires forall i, j :: 0 <= i < j < |ns| ==> ns[i] != ns[j]
    ensures ParseNames(JoinNames(ns), []) == ns
  {
    ParseAfter([], ns);
    assert [] + ns == ns;
  }

  lemma {:induction false} ParseAfter(before: seq<string>, ns: seq<string>)
    requires |before + ns| <= 8 && forall i :: 0 <= i < |ns| ==> Listable(ns[i])
    requires forall i, j :: 0 <= i < j < |before + ns| ==> (before + ns)[i] != (before + ns)[j]
    ensures ParseNames(JoinNames(ns), before) == before + ns
    decreases |ns|
  {
    if ns != [] {
      var e := JoinNames(ns);
      assert Listable(ns[0]);
      assert e[..|ns[0]|] == ns[0] && (|ns| > 1 ==> e[|ns[0]|] == ',' && e[|ns[0]| + 1..] == JoinNames(ns[1..]));
      forall i | 0 <= i < |ns[0]| ensures e[i] != ',' { assert e[i] == ns[0][i]; }
      CommaAt(e, |ns[0]|);
      assert (forall i :: 0 <= i < |before| ==> (before + ns)[i] == before[i]) && (before + ns)[|before|] == ns[0];
      assert ns[0] !in before;
      assert (before + [ns[0]]) + ns[1..] == before + ns;
      ParseAfter(before + [ns[0]], ns[1..]);
    }
  }

  function RemoveName(names: seq<string>, name: string): seq<string> {
    if names == [] then []
    else if names[0] == name then names[1..]
    else [names[0]] + RemoveName(names[1..], name)
  }

  lemma {:induction false} CommaAt(e: string, n: nat)
    requires n <= |e| && (n < |e| ==> e[n] == ',') && forall i :: 0 <= i < n ==> e[i] != ','
    ensures FirstComma(e) == n
  {
    if n > 0 { CommaAt(e[1..], n - 1); }
  }

  lemma ParseNone(names: seq<string>)
    ensures ParseNames([], names) == names
  {
  }

  /** One pass of the parsing loop over the token e[p..q]. */
  lemma ParseStep(e: string, p: nat, q: nat, names: seq<string>)
    requires p < |e| && p <= q <= |e| && (q < |e| ==> e[q] == ',') && forall i :: p <= i < q ==> e[i] != ','
    ensures ParseNames(e[p..], names)
         == ParseNames(if q == |e| then e[|e|..] else e[q + 1..], AddName(names, e[p..q]))
  {
    CommaAt(e[p..], q - p);
    assert e[p..][..q - p] == e[p..q];
    if q < |e| { assert e[p..][q - p + 1..] == e[q + 1..]; } else { assert e[|e|..] == []; }
  }

  lemma {:induction false} RemoveAt(names: seq<string>, name: string, i: nat)
    requires i < |names| && names[i] == name && forall k :: 0 <= k < i ==> names[k] != name
    ensures RemoveName(names, name) == names[..i] + names[i + 1..]
  {
    if i > 0 {
      RemoveAt(names[1..], name, i - 1);
      assert names[..i] + names[i + 1..] == [names[0]] + (names[1..][..i - 1] + names[1..][i..]);
    }
  }

  lemma {:induction false} RemoveAbsent(names: seq<string>, name: string)
    requires name !in names
    ensures RemoveName(names, name) == names
  {
    if names != [] {
      RemoveAbsent(names[1..], name);
      assert names == [names[0]] + names[1..];
    }
  }

  class OpTable {
    const ops: nat
    const devices: nat
    const env: Option<string>  // VT_OP_PROVIDER_DISABLE
    const slots: array2<Slot>
    const caps: array<Caps>
    var names: seq<string>
    var envParsed: bool
    var liveCount: int
    var callStats: bool

    predicate Key(op: nat, dev: nat) { op < ops && dev < devices }

    /** The names disabled from now on, whether or not the environment has been read yet. */
    ghost function Disabled(): seq<string>
      reads this
    {
      if envParsed then names else if env.Some? then ParseNames(env.value, []) else []
    }

    /** The capability record a lookup on dev sees. */
    ghost function CapsOf(dev: nat): Caps
      requires dev < caps.Length
      reads caps
    {
      caps[dev].(device := dev)
    }

    /** What a fresh scan of the slot would select. */
    ghost function Winner(op: nat, dev: nat): Option<Provider>
      requires Key(op, dev) && slots.Length0 == ops && slots.Length1 == devices && caps.Length == devices
      requires DistinctNames(slots[op, dev].providers)
      reads this, slots, caps
    {
      Choice(slots[op, dev].providers, Query(CapsOf(dev), Disabled(), None))
    }

    /** A cached pointer is the fresh choice, a memoised "none" means there is none, never both. */
    ghost predicate Coherent(op: nat, dev: nat)
      requires Key(op, dev) && slots.Length0 == ops && slots.Length1 == devices && caps.Length == devices
      requires DistinctNames(slots[op, dev].providers)
      reads this, slots, caps
    {
      var s, w := slots[op, dev], Winner(op, dev);
      && (s.selected != 0 ==> w.Some? && w.value.fn == s.selected && s.lastSelected == Some(w.value.name))
      && (s.resolvedNone ==> w == None)
      && !(s.selected != 0 && s.resolvedNone)
    }

    ghost predicate Shape()
      reads this, slots
    {
      && slots.Length0 == ops && slots.Length1 == devices && caps.Length == devices
      && (forall op, dev :: 0 <= op < ops && 0 <= dev < devices ==>
            DistinctNames(slots[op, dev].providers) && |slots[op, dev].providers| <= MAX_PROVIDERS
            && forall x :: x in slots[op, dev].providers ==> x.fn != 0)
    }

    /** The lock-free exit may be taken only when nothing is disabled. */
    ghost predicate ListValid()
      reads this
    {
      && |names| <= MAX_DISABLED
      && (if envParsed then liveCount >= |names| else liveCount == -1 && names == [])
    }

    ghost predicate Valid()
      reads this, slots, caps
    {
      Shape() && ListValid() && forall op, dev :: 0 <= op < ops && 0 <= dev < devices ==> Coherent(op, dev)
    }

    constructor (ops: nat, devices: nat, env: Option<string>)
      ensures Valid() && fresh(slots) && fresh(caps) && this.ops == ops && this.devices == devices && this.env == env
      ensures forall op, dev :: 0 <= op < ops && 0 <= dev < devices ==> slots[op, dev].providers == []
    {
      this.ops, this.devices, this.env := ops, devices, env;
      slots := new Slot[ops, devices]((i, j) => Slot([], 0, false, None, 0, 0, 0));
      caps := new Caps[devices](i => Caps(0, false, 0, 0, 0, 0));
      names, envParsed, liveCount, callStats := [], false, -1, false;
    }

    // ----- disable list -----

    /** Reads the environment once; what is disabled does not change. */
    method EnsureEnvParsed()
      requires ListValid()
      modifies this`names, this`envParsed, this`liveCount
      ensures envParsed && ListValid() && Disabled() == old(Disabled())
    {
      hide ParseNames;
      if envParsed { return; }
      envParsed := true;
      if env.Some? { AddNames(env.value); }
      liveCount := |names|;
    }

    /** Adds the comma-separated names of e. */
    method AddNames(e: string)
      requires |names| <= MAX_DISABLED
      modifies this`names, this`liveCount
      ensures names == ParseNames(e, old(names)) && |names| <= MAX_DISABLED
    {
      hide ParseNames, AddName;
      var p := 0;
      assert e[0..] == e;
      while p < |e|
        invariant p <= |e| && |names| <= MAX_DISABLED
        invariant ParseNames(e[p..], names) == ParseNames(e, old(names))
      {
        var q := p;
        while q < |e| && e[q] != ','
          modifies {}
          invariant p <= q <= |e| && forall i :: p <= i < q ==> e[i] != ','
        {
          q := q + 1;
        }
        ParseStep(e, p, q, names);
        AddDisabled(e[p..q]);
        p := if q == |e| then q else q + 1;
      }
      assert e[p..] == [];
      ParseNone(names);
    }

    method AddDisabled(name: string)
      requires |names| <= MAX_DISABLED
      modifies this`names, this`liveCount
      ensures names == AddName(old(names), name) && |names| <= MAX_DISABLED
      ensures liveCount == if names == old(names) then old(liveCount) else |names|
    {
      if name == [] || |name| > MAX_NAME || |names| >= MAX_DISABLED { return; }
      for i := 0 to |names|
        modifies {}
        invariant name !in names[..i]
      {
        if names[i] == name { return; }
      }
      names := names + [name];
      liveCount := |names|;
    }

    /** Membership in the disable list, through the lock-free exit when it applies. */
    method OpProviderDisabled(name: string) returns (r: bool)
      requires ListValid()
      modifies this`names, this`envParsed, this`liveCount
      ensures ListValid() && Disabled() == old(Disabled()) && r == (name in Disabled())
    {
      if liveCount == 0 { return false; }
      EnsureEnvParsed();
      for i := 0 to |names|
        modifies {}
        invariant name !in names[..i]
      {
        if names[i] == name { return true; }
      }
      r := false;
    }

    method IsSupported(p: Provider, c: Caps) returns (r: bool)
      requires ListValid()
      modifies this`names, this`envParsed, this`liveCount
      ensures ListValid() && Disabled() == old(Disabled()) && r == Supported(p, c, Disabled())
      ensures r <==> p.fn != 0 && p.name !in Disabled() && (p.supports.Always? || p.supports.test(c))
    {
      if p.fn == 0 { return false; }
      var off := OpProviderDisabled(p.name);
      if off { return false; }
      r := match p.supports case Always => true case When(test) => test(c);
    }

    /** One linear scan for the best supported provider strictly below floor. */
    method Choose(ps: seq<Provider>, c: Caps, floor: Option<Provider>) returns (best: Option<Provider>)
      requires ListValid() && DistinctNames(ps)
      modifies this`names, this`envParsed, this`liveCount
      ensures ListValid() && Disabled() == old(Disabled()) && best == Choice(ps, Query(c, Disabled(), floor))
      ensures match best
        case Some(p) => if floor.Some? then IsNext(ps, c, Disabled(), floor.value, p) else IsTop(ps, c, Disabled(), p)
        case None =>
          if floor.Some? then IsLowest(ps, c, Disabled(), floor.value)
          else forall x :: x in ps ==> !Supported(x, c, Disabled())
    {
      if floor.Some? { ChoiceIsNext(ps, c, Disabled(), floor.value); } else { ChoiceIsTop(ps, c, Disabled()); }
      hide IsTop, IsNext, IsLowest, Precedes;
      best := None;
      ghost var q := Query(c, Disabled(), floor);
      for i := 0 to |ps|
        invariant ListValid() && Disabled() == q.disabled == old(Disabled())
        invariant best == Choice(ps[..i], q)
      {
        var p := ps[i];
        assert ps[..i + 1][..i] == ps[..i];
        var ok := IsSupported(p, c);
        if !ok { continue; }
        if floor.Some? && !Better(floor.value, p) { continue; }
        if best.None? || Better(p, best.value) { best := Some(p); }
      }
      assert ps[..|ps|] == ps;
    }

    // ----- caches -----

    /** Drops every cached answer and nothing else. */
    method InvalidateAll()
      requires slots.Length0 == ops && slots.Length1 == devices
      modifies slots
      ensures forall op, dev :: 0 <= op < ops && 0 <= dev < devices ==>
        slots[op, dev] == old(slots[op, dev]).(selected := 0, resolvedNone := false)
    {
      for i := 0 to ops
        invariant forall op, dev :: 0 <= op < ops && 0 <= dev < devices ==>
          slots[op, dev] == if op < i then old(slots[op, dev]).(selected := 0, resolvedNone := false)
            else old(slots[op, dev])
      {
        for j := 0 to devices
          invariant forall op, dev :: 0 <= op < ops && 0 <= dev < devices ==>
            slots[op, dev] == if op < i || (op == i && dev < j)
              then old(slots[op, dev]).(selected := 0, resolvedNone := false)
                              else old(slots[op, dev])
        {
          slots[i, j] := slots[i, j].(selected := 0, resolvedNone := false);
        }
      }
    }

    // ----- public calls -----

    /** Publishing capabilities re-opens every selection. */
    method SetDeviceProviderCaps(dev: nat, c: Caps) returns (ok: bool)
      requires Valid()
      modifies slots, caps
      ensures Valid() && ok == (dev < devices)
      ensures forall d :: 0 <= d < devices ==> CapsOf(d) == if d == dev then c.(device := dev) else old(CapsOf(d))
      ensures forall op, d :: 0 <= op < ops && 0 <= d < devices ==>
        slots[op, d] == if ok then old(slots[op, d]).(selected := 0, resolvedNone := false) else old(slots[op, d])
    {
      if dev >= devices { return false; }
      caps[dev] := c.(device := dev);
      InvalidateAll();
      ok := true;
    }

    /** Registration fills the table or is ignored; it never fails. None stands for a null name. */
    method RegisterOpProvider(op: nat, dev: nat, name: Option<string>, priority: int, supports: Supports, fn: nat)
      requires Valid()
      modifies slots
      ensures Valid()
      ensures forall o, d :: 0 <= o < ops && 0 <= d < devices && (o, d) != (op, dev) ==> slots[o, d] == old(slots[o, d])
      ensures Key(op, dev) ==> slots[op, dev].providers == if name.None? then old(slots[op, dev]).providers
        else Register(old(slots[op, dev]).providers, Provider(name.value, priority, supports, fn))
      ensures Key(op, dev) && slots[op, dev] != old(slots[op, dev]) ==>
        slots[op, dev] == old(slots[op, dev]).(providers := slots[op, dev].providers, selected := 0,
                                               resolvedNone := false)
    {
      if op >= ops || dev >= devices || fn == 0 || name.None? { return; }
      var p := Provider(name.value, priority, supports, fn);
      var ps := slots[op, dev].providers;
      if |ps| >= MAX_PROVIDERS { return; }
      for i := 0 to |ps|
        invariant forall k :: 0 <= k < i ==> ps[k].name != p.name
        modifies {}
      {
        if ps[i].name == p.name {
          assert Named(ps, p.name);
          return;
        }
      }
      assert !Named(ps, p.name);
      slots[op, dev] := slots[op, dev].(providers := ps + [p], selected := 0, resolvedNone := false);
      assert Coherent(op, dev);
      forall o, d | 0 <= o < ops && 0 <= d < devices && (o, d) != (op, dev)
        ensures Coherent(o, d)
      {
        assert old(Coherent(o, d));
      }
    }

    /** Resolution on a cache miss: publishes the winner, or memoises that there is none and counts the failure. */
    method Resolve(op: nat, dev: nat) returns (fn: nat)
      requires Valid() && Key(op, dev) && slots[op, dev].selected == 0
      modifies this`names, this`envParsed, this`liveCount, slots
      ensures Valid() && Disabled() == old(Disabled()) && Winner(op, dev) == old(Winner(op, dev))
      ensures forall o, d :: 0 <= o < ops && 0 <= d < devices && (o, d) != (op, dev) ==> slots[o, d] == old(slots[o, d])
      ensures match old(Winner(op, dev))
        case None =>
          fn == 0 && slots[op, dev] == old(slots[op, dev]).(fallbacks := old(slots[op, dev]).fallbacks + 1,
                                                            resolvedNone := true)
        case Some(p) =>
          fn == p.fn != 0 && slots[op, dev] == old(slots[op, dev]).(lastSelected := Some(p.name), selected := p.fn)
    {
      hide Choice, ParseNames, DistinctNames;
      assert Coherent(op, dev);
      var was := slots[op, dev];
      var chosen := Choose(was.providers, caps[dev].(device := dev), None);
      assert chosen == old(Winner(op, dev));
      if chosen.None? {
        slots[op, dev] := was.(fallbacks := was.fallbacks + 1, resolvedNone := true);
        fn := 0;
      } else {
        assert chosen.value in was.providers && chosen.value.fn != 0;
        slots[op, dev] := was.(lastSelected := Some(chosen.value.name), selected := chosen.value.fn);
        fn := chosen.value.fn;
      }
      assert Coherent(op, dev);
      forall o, d | 0 <= o < ops && 0 <= d < devices && (o, d) != (op, dev)
        ensures Coherent(o, d)
      {
        assert old(Coherent(o, d));
      }
    }

    /** The cached kernel or a fresh resolution: always the fresh choice. */
    method GetOp(op: nat, dev: nat) returns (r: Lookup)
      requires Valid()
      modifies this`names, this`envParsed, this`liveCount, slots
      ensures Valid() && Disabled() == old(Disabled())
      ensures forall o, d :: 0 <= o < ops && 0 <= d < devices && (o, d) != (op, dev) ==> slots[o, d] == old(slots[o, d])
      ensures r == if !Key(op, dev) then InvalidKey
                   else match old(Winner(op, dev)) case Some(p) => Kernel(p.fn) case None => NoKernel
      ensures Key(op, dev) ==>
        Winner(op, dev) == old(Winner(op, dev)) && slots[op, dev].providers == old(slots[op, dev]).providers
      ensures r.Kernel? ==>
        slots[op, dev].selected == r.fn && slots[op, dev].fallbacks == old(slots[op, dev]).fallbacks
        && slots[op, dev].selections == old(slots[op, dev]).selections + if callStats then 1 else 0
      ensures r.Kernel? ==>
        exists p :: IsTop(old(slots[op, dev].providers), old(CapsOf(dev)), old(Disabled()), p) && p.fn == r.fn
      ensures r == NoKernel ==>
        forall x :: x in old(slots[op, dev].providers) ==> !Supported(x, old(CapsOf(dev)), old(Disabled()))
      ensures r == NoKernel ==>
        slots[op, dev].resolvedNone && slots[op, dev].fallbacks == old(slots[op, dev]).fallbacks + 1
        && slots[op, dev].selections == old(slots[op, dev]).selections
    {
      hide Choice, ParseNames, DistinctNames;
      if op >= ops || dev >= devices { return InvalidKey; }
      ChoiceIsTop(slots[op, dev].providers, CapsOf(dev), Disabled());
      hide IsTop, Supported;
      assert Coherent(op, dev);
      var fn := slots[op, dev].selected;
      if fn == 0 {
        fn := Resolve(op, dev);
        if fn == 0 { return NoKernel; }
      }
      if callStats {
        label Resolved:
        assert Coherent(op, dev);
        slots[op, dev] := slots[op, dev].(selections := slots[op, dev].selections + 1);
        forall o, d | 0 <= o < ops && 0 <= d < devices ensures Coherent(o, d) { assert old@Resolved(Coherent(o, d)); }
      }
      r := Kernel(fn);
    }

    /** Is any kernel realized? Cached either way, and always the fresh answer; an invalid key throws (None). */
    method OpRegistered(op: nat, dev: nat) returns (r: Option<bool>)
      requires Valid()
      modifies this`names, this`envParsed, this`liveCount, slots
      ensures Valid() && Disabled() == old(Disabled())
      ensures forall o, d :: 0 <= o < ops && 0 <= d < devices && (o, d) != (op, dev) ==> slots[o, d] == old(slots[o, d])
      ensures r == if Key(op, dev) then Some(old(Winner(op, dev)).Some?) else None
      ensures Key(op, dev) ==> slots[op, dev].providers == old(slots[op, dev]).providers
      ensures r == Some(true) ==> slots[op, dev].selected == old(Winner(op, dev)).value.fn
      ensures r == Some(false) ==> slots[op, dev].resolvedNone
    {
      hide Choice, ParseNames, DistinctNames;
      if op >= ops || dev >= devices { return None; }
      assert Coherent(op, dev);
      var was := slots[op, dev];
      if was.selected != 0 { return Some(true); }
      if was.resolvedNone { return Some(false); }
      var chosen := Choose(was.providers, caps[dev].(device := dev), None);
      assert chosen == old(Winner(op, dev));
      if chosen.None? {
        slots[op, dev] := was.(resolvedNone := true);
        r := Some(false);
      } else {
        slots[op, dev] := was.(lastSelected := Some(chosen.value.name), selected := chosen.value.fn);
        r := Some(true);
      }
      assert Coherent(op, dev);
      forall o, d | 0 <= o < ops && 0 <= d < devices && (o, d) != (op, dev)
        ensures Coherent(o, d)
      {
        assert old(Coherent(o, d));
      }
    }

    /** The next provider strictly below the named one; the name need not be supported itself. */
    method GetOpFallback(op: nat, dev: nat, declining: string) returns (r: Lookup)
      requires Valid()
      modifies this`names, this`envParsed, this`liveCount, slots
      ensures Valid() && Disabled() == old(Disabled())
      ensures forall o, d :: 0 <= o < ops && 0 <= d < devices && (o, d) != (op, dev) ==> slots[o, d] == old(slots[o, d])
      ensures !Key(op, dev) ==> r == InvalidKey
      ensures Key(op, dev) && !Named(old(slots[op, dev]).providers, declining) ==>
        r == UnknownProvider && slots[op, dev] == old(slots[op, dev])
      ensures Key(op, dev) && Named(old(slots[op, dev]).providers, declining) ==>
        slots[op, dev] == old(slots[op, dev]).(declines := old(slots[op, dev]).declines + 1)
        && forall f :: f in old(slots[op, dev]).providers && f.name == declining ==>
             r == match Choice(old(slots[op, dev]).providers, Query(CapsOf(dev), Disabled(), Some(f)))
                  case Some(p) => Kernel(p.fn)
                  case None => NoKernel
      ensures r.Kernel? ==>
        Key(op, dev) && HasNext(old(slots[op, dev]).providers, CapsOf(dev), Disabled(), declining, r.fn)
      ensures r == NoKernel ==>
        Key(op, dev) && HasNone(old(slots[op, dev]).providers, CapsOf(dev), Disabled(), declining)
    {
      if op >= ops || dev >= devices { return InvalidKey; }
      hide IsNext, IsTop, IsLowest, Precedes, Supported;
      var ps := slots[op, dev].providers;
      var i := 0;
      while i < |ps| && ps[i].name != declining
        invariant i <= |ps| && forall k :: 0 <= k < i ==> ps[k].name != declining
        modifies {}
      {
        i := i + 1;
      }
      if i == |ps| { return UnknownProvider; }
      assert Named(ps, declining) by { assert ps[i] in ps; }
      forall f | f in ps && f.name == declining ensures f == ps[i] { SameName(ps, f, ps[i]); }
      var c := caps[dev].(device := dev);
      var next := Choose(ps, c, Some(ps[i]));
      slots[op, dev] := slots[op, dev].(declines := slots[op, dev].declines + 1);
      assert Coherent(op, dev) by { assert old(Coherent(op, dev)); }
      forall o, d | 0 <= o < ops && 0 <= d < devices && (o, d) != (op, dev)
        ensures Coherent(o, d)
      {
        assert old(Coherent(o, d));
      }
      if next.None? { return NoKernel; }
      r := Kernel(next.value.fn);
    }

    /** Disables or re-enables a provider by name. None stands for a null name. */
    method DisableOpProvider(name: Option<string>, disabled: bool)
      requires Valid()
      modifies this`names, this`envParsed, this`liveCount, slots
      ensures Valid()
      ensures Disabled() == if name.None? then old(Disabled())
        else if disabled then AddName(old(Disabled()), name.value) else RemoveName(old(Disabled()), name.value)
      ensures forall op, d :: 0 <= op < ops && 0 <= d < devices ==>
        slots[op, d] == if name.None? then old(slots[op, d])
          else old(slots[op, d]).(selected := 0, resolvedNone := false)
    {
      if name.None? { return; }
      EnsureEnvParsed();
      if disabled {
        AddDisabled(name.value);
      } else {
        var i := 0;
        while i < |names| && names[i] != name.value
          invariant i <= |names| && forall k :: 0 <= k < i ==> names[k] != name.value
          modifies {}
        {
          i := i + 1;
        }
        if i < |names| {
          RemoveAt(names, name.value, i);
          names := names[..i] + names[i + 1..];
        } else {
          RemoveAbsent(names, name.value);
        }
      }
      InvalidateAll();
    }

    /** The i-th provider in selection order, whatever order they were registered in; an invalid key throws (None). */
    method OpProviderNameAt(op: nat, dev: nat, i: int) returns (r: Option<Option<string>>)
      requires Valid()
      ensures r.Some? <==> Key(op, dev)
      ensures Key(op, dev) ==>
        var ps := slots[op, dev].providers;
        && |Ranked(ps)| == |ps| && (r.value == if 0 <= i < |ps| then Some(Ranked(ps)[i].name) else None)
        && InOrder(Ranked(ps))
    {
      if Key(op, dev) { AllRanked(slots[op, dev].providers); }
      hide Better, LeastBelow, Ranked, InOrder;
      if op >= ops || dev >= devices { return None; }
      var ps := slots[op, dev].providers;
      RankedLength(ps);
      if i < 0 || i >= |ps| { return Some(None); }
      var prev: Option<Provider> := None;
      for rank := 0 to i + 1
        invariant prev == if rank == 0 then None else Some(Ranked(ps)[rank - 1])
      {
        var best := ScanBelow(ps, prev);
        NextRank(ps, prev, rank);
        if best.None? { return Some(None); }
        prev := best;
      }
      r := Some(Some(prev.value.name));
    }
  }

  // ----- ranks -----

  /** The inner scan: the best provider strictly below prev, supported or not. */
  method ScanBelow(ps: seq<Provider>, prev: Option<Provider>) returns (best: Option<Provider>)
    ensures best == LeastBelow(ps, prev)
  {
    hide Better;
    best := None;
    for j := 0 to |ps|
      invariant best == LeastBelow(ps[..j], prev)
    {
      assert ps[..j + 1][..j] == ps[..j];
      if prev.Some? && !Better(prev.value, ps[j]) { continue; }
      if best.None? || Better(ps[j], best.value) { best := Some(ps[j]); }
    }
    assert ps[..|ps|] == ps;
  }

  lemma AllRanked(ps: seq<Provider>)
    requires DistinctNames(ps)
    ensures InOrder(Ranked(ps))
  {
    hide Better, Precedes, Ranked;
    forall k, l | 0 <= k < l < |Ranked(ps)| ensures Precedes(Ranked(ps)[k], Ranked(ps)[l]) { RankedOrder(ps, k, l); }
  }

  lemma RankedLength(ps: seq<Provider>)
    requires DistinctNames(ps)
    ensures |Ranked(ps)| == |ps|
  {
    assert |multiset(Ranked(ps))| == |multiset(ps)|;
  }

  ghost function LeastBelow(ps: seq<Provider>, prev: Option<Provider>): (r: Option<Provider>) {
    if ps == [] then None
    else
      var p, rest := ps[|ps| - 1], LeastBelow(ps[..|ps| - 1], prev);
      if prev.Some? && !Better(prev.value, p) then rest
      else if rest == None || Better(p, rest.value) then Some(p) else rest
  }

  lemma {:induction false} LeastBelowIs(ps: seq<Provider>, prev: Option<Provider>, w: Provider)
    requires DistinctNames(ps) && w in ps && (prev.Some? ==> Better(prev.value, w))
    requires forall x :: x in ps && x != w && (prev.Some? ==> Better(prev.value, x)) ==> Better(w, x)
    ensures LeastBelow(ps, prev) == Some(w)
  {
    var init, p := ps[..|ps| - 1], ps[|ps| - 1];
    assert forall x :: x in ps <==> x in init || x == p;
    if w in init {
      LeastBelowIs(init, prev, w);
      if p != w && (prev.Some? ==> Better(prev.value, p)) { BetterTotal(w, p); }
      BetterTotal(p, p);
    } else {
      LeastBelowAbove(init, prev);
    }
  }

  lemma {:induction false} LeastBelowAbove(ps: seq<Provider>, prev: Option<Provider>)
    ensures var r := LeastBelow(ps, prev); r.Some? ==> r.value in ps && (prev.Some? ==> Better(prev.value, r.value))
  {
    if ps != [] { LeastBelowAbove(ps[..|ps| - 1], prev); }
  }

  lemma NextRank(ps: seq<Provider>, prev: Option<Provider>, rank: nat)
    requires DistinctNames(ps) && rank < |Ranked(ps)| && prev == if rank == 0 then None else Some(Ranked(ps)[rank - 1])
    ensures LeastBelow(ps, prev) == Some(Ranked(ps)[rank])
  {
    hide Better, DistinctNames, LeastBelow;
    var r := Ranked(ps);
    var w := r[rank];
    InRanked(ps, w);
    hide Ranked;
    forall x | x in ps && x != w && (prev.Some? ==> Better(prev.value, x)) ensures Better(w, x) {
      InRanked(ps, x);
      var k :| 0 <= k < |r| && r[k] == x;
      if k < rank {
        if k < rank - 1 { assert Better(x, r[rank - 1]); }
        BetterTotal(r[rank - 1], x);
      }
    }
    LeastBelowIs(ps, prev, w);
  }
}
