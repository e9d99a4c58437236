/**
 Decoding token by token: one launch of the packed decode kernel advances the states of the rows' slots in
 place, in any order of its programs, and a series of launches decodes a series of tokens. Rows may change
 places, join and leave between launches; a state is followed by its slot.
 */
module DecodeLaunch {
  import opened Matrices
  import opened Recurrence
  import opened Buffers
  import opened Layout
  import opened Launches
  import opened StateLaunch
  import opened PackedDecode

  /** Row j of head h of a slot. */
  function StateRow(x: States, s: int, h: int, j: int): Vec {
    if 0 <= s < |x| && 0 <= h < |x[s]| then Row(x[s][h], j) else []
  }

  lemma StateRowIs(a: array4<real>, s: nat, h: nat, j: nat)
    requires s < a.Length0 && h < a.Length1 && j < a.Length2
    ensures |StateRow(Cells4(a), s, h, j)| == a.Length3 && StateRow(Cells4(a), s, h, j) == Row(StateView(a, s, h), j)
    ensures forall c :: 0 <= c < a.Length3 ==> StateRow(Cells4(a), s, h, j)[c] == a[s, h, j, c]
  {
    hide E;
    StateViewIs(a, s, h);
    forall c | 0 <= c < a.Length3 ensures StateRow(Cells4(a), s, h, j)[c] == a[s, h, j, c] {
      ViewCell(StateView(a, s, h), j, c);
      assert E(StateView(a, s, h), j, c) == a[s, h, j, c];
    }
  }

  lemma ViewCell(x: Mat, i: nat, c: nat)
    requires i < |x| && c < |x[i]|
    ensures E(x, i, c) == Row(x, i)[c]
  {
  }

  ghost predicate Sized(x: States, slots: nat, H: nat, V: nat, K: nat) {
    |x| == slots && forall s :: 0 <= s < slots ==> |x[s]| == H && forall h :: 0 <= h < H ==> Dim(x[s][h], V, K)
  }

  lemma StateRowExt(x: States, y: States, slots: nat, H: nat, V: nat, K: nat, s: int, h: int, j: int)
    requires Sized(x, slots, H, V, K) && Sized(y, slots, H, V, K)
    requires forall c :: 0 <= c < K ==> E4(x, s, h, j, c) == E4(y, s, h, j, c)
    ensures StateRow(x, s, h, j) == StateRow(y, s, h, j)
  {
    hide E;
    if 0 <= s < slots && 0 <= h < H && 0 <= j < V {
      forall c | 0 <= c < K ensures StateRow(x, s, h, j)[c] == StateRow(y, s, h, j)[c] {
        ViewCell(x[s][h], j, c);
        ViewCell(y[s][h], j, c);
        assert E4(x, s, h, j, c) == E4(y, s, h, j, c);
      }
    }
  }

  lemma PoolSized(a: array4<real>)
    ensures Sized(Cells4(a), a.Length0, a.Length1, a.Length2, a.Length3)
  {
    var x := Cells4(a);
    forall s, h | 0 <= s < a.Length0 && 0 <= h < a.Length1 ensures Dim(x[s][h], a.Length2, a.Length3) {
      assert x[s][h] == x[s][h];
    }
  }

  lemma StepLength(expo: Expo, hd: Head, j: int, r: Vec)
    ensures |RowState(expo, hd, j, r, 1)| == hd.K
    ensures forall c :: 0 <= c < hd.K ==> At(RowState(expo, hd, j, r, 1), c) == RowState(expo, hd, j, r, 1)[c]
  {
  }

  /** Row n of a launch is done for value row j of head h: its output, and its slot's next state. */
  ghost predicate TokenDone(expo: Expo, mt: Maths, p: Packed, scale: real, was: States, o: Cube, now: States,
                            n: nat, h: nat, j: nat)
    requires IsExp(expo) && IsSqrt(mt.sqrt) && ValidPacked(p) && n < |p.slots|
  {
    var hd, s := TokenHead(expo, mt, p, n, h), p.slots[n];
    && E3(o, n, h, j) == (if s < 0 then 0.0 else Output(expo, hd, scale, j, StateRow(was, s, h, j), 0))
    && (s >= 0 ==> StateRow(now, s, h, j) == RowState(expo, hd, j, StateRow(was, s, h, j), 1))
  }

  /** A program: value tile, row, value head. */
  type DecodePid = (nat, nat, nat)

  /** Two contents of the buffers differ at most in one program's places. */
  ghost predicate TokenKept(p: Packed, BV: nat, o: Cube, o': Cube, now: States, now': States, pid: DecodePid)
    requires pid.1 < |p.slots|
  {
    && (forall t, h, j :: !(t == pid.1 && h == pid.2 && InTile(BV, pid.0, j)) ==> E3(o', t, h, j) == E3(o, t, h, j))
    && (forall s, h, j :: !(s == p.slots[pid.1] && h == pid.2 && InTile(BV, pid.0, j)) ==>
          StateRow(now', s, h, j) == StateRow(now, s, h, j))
  }

  /** The buffers of a launch: an output row per batch row, and every slot inside the pool. */
  ghost predicate DecodeBuffers(p: Packed, o: array3<real>, pool: array4<real>) {
    && |p.slots| <= o.Length0 && o.Length1 == p.HV && o.Length2 == p.V
    && pool.Length1 == p.HV && pool.Length2 == p.V && pool.Length3 == p.K
    && forall n :: 0 <= n < |p.slots| ==> p.slots[n] < pool.Length0
  }

  method RunToken(expo: Expo, mt: Maths, p: Packed, scale: real, o: array3<real>, pool: array4<real>, BK: nat, BV: nat,
                  iV: nat, n: nat, h: nat)
    requires IsExp(expo) && IsSqrt(mt.sqrt) && ValidPacked(p) && p.K <= BK && n < |p.slots| && h < p.HV
    requires DecodeBuffers(p, o, pool)
    modifies o, pool
    ensures forall j: nat :: j < p.V && InTile(BV, iV, j) ==>
      TokenDone(expo, mt, p, scale, old(Cells4(pool)), Cells(o), Cells4(pool), n, h, j)
    ensures TokenKept(p, BV, old(Cells(o)), Cells(o), old(Cells4(pool)), Cells4(pool), (iV, n, h))
  {
    hide E, Row, TokenHead, Output, RowState, StateView, IsSqrt;
    ghost var s, was, o0 := p.slots[n], Cells4(pool), Cells(o);
    PoolSized(pool);
    if s >= 0 {
      forall j: nat | j < p.V
        ensures StateRow(was, s, h, j) == Row(StateView(pool, s, h), j)
      {
        StateRowIs(pool, s, h, j);
      }
    }
    Program(expo, mt, p, scale, o, pool, pool, n, h, iV, BK, BV);
    ghost var now := Cells4(pool);
    PoolSized(pool);
    forall x, hh, j | !(x == s && hh == h && InTile(BV, iV, j))
      ensures StateRow(now, x, hh, j) == StateRow(was, x, hh, j)
    {
      StateRowExt(now, was, pool.Length0, p.HV, p.V, p.K, x, hh, j);
    }
    forall j: nat | j < p.V && InTile(BV, iV, j) ensures TokenDone(expo, mt, p, scale, was, Cells(o), now, n, h, j) {
      assert In3(o, n, h, j);
      if s >= 0 {
        StateRowIs(pool, s, h, j);
        StepLength(expo, TokenHead(expo, mt, p, n, h), j, StateRow(was, s, h, j));
      }
    }
  }

  /** Rows with a state never share a slot. */
  ghost predicate SlotsApart(p: Packed) {
    forall m, n :: 0 <= m < n < |p.slots| && p.slots[m] >= 0 ==> p.slots[m] != p.slots[n]
  }

  /** A schedule of the decode grid: each program at most once. */
  ghost predicate DecodeGrid(p: Packed, order: seq<DecodePid>) {
    && (forall pid :: pid in order ==> pid.1 < |p.slots| && pid.2 < p.HV)
    && (forall x, y :: 0 <= x < y < |order| ==> order[x] != order[y])
  }

  /** One program leaves the finished rows of the others finished and their unfinished rows untouched. */
  lemma TokenStep(expo: Expo, mt: Maths, p: Packed, scale: real, BV: nat, was: States, o: Cube, o': Cube, now: States,
                  now': States,
                  pid: DecodePid, n: nat, h: nat, j: nat)
    requires IsExp(expo) && IsSqrt(mt.sqrt) && ValidPacked(p) && SlotsApart(p) && BV > 0 && n < |p.slots|
    requires pid.1 < |p.slots|
    requires TokenKept(p, BV, o, o', now, now', pid) && (j / BV, n, h) != pid
    ensures TokenDone(expo, mt, p, scale, was, o, now, n, h, j) ==>
      TokenDone(expo, mt, p, scale, was, o', now', n, h, j)
    ensures StateRow(now', p.slots[n], h, j) == StateRow(now, p.slots[n], h, j)
  {
    hide E3, TokenHead, Output, RowState, StateRow, InTile, IsSqrt, IsExp;
    TileOfRow(BV, pid.0, j);
    if p.slots[n] < 0 { NoSlot(now, p.slots[n], h, j); NoSlot(now', p.slots[n], h, j); }
  }

  lemma NoSlot(x: States, s: int, h: int, j: int)
    requires s < 0
    ensures StateRow(x, s, h, j) == []
  {
  }

  lemma OwnRow(expo: Expo, mt: Maths, p: Packed, scale: real, was: States, before: States, o: Cube, now: States, n: nat,
               h: nat, j: nat)
    requires IsExp(expo) && IsSqrt(mt.sqrt) && ValidPacked(p) && n < |p.slots|
    requires TokenDone(expo, mt, p, scale, before, o, now, n, h, j)
    requires StateRow(before, p.slots[n], h, j) == StateRow(was, p.slots[n], h, j)
    ensures TokenDone(expo, mt, p, scale, was, o, now, n, h, j)
  {
    hide E3, TokenHead, Output, RowState, StateRow, IsSqrt, IsExp;
  }

  /** One decode launch, its programs in any order: every scheduled row gets its token's output and its slot
      the next state; the slots of no row keep theirs. */
  method LaunchDecode(expo: Expo, mt: Maths, p: Packed, scale: real, o: array3<real>, pool: array4<real>, BK: nat,
                      BV: nat,
                      order: seq<DecodePid>)
    requires IsExp(expo) && IsSqrt(mt.sqrt) && ValidPacked(p) && p.K <= BK && BV > 0
    requires DecodeBuffers(p, o, pool) && SlotsApart(p) && DecodeGrid(p, order)
    modifies o, pool
    ensures forall n: nat, h: nat, j: nat ::
      n < |p.slots| && h < p.HV && j < p.V && RowScheduled(BV, order, n, h, j) ==>
      TokenDone(expo, mt, p, scale, old(Cells4(pool)), Cells(o), Cells4(pool), n, h, j)
    ensures forall s, h, j :: s !in p.slots ==> StateRow(Cells4(pool), s, h, j) == StateRow(old(Cells4(pool)), s, h, j)
  {
    hide TokenDone, TokenKept, StateRow, E3, E4, IsSqrt, IsExp, InTile;
    ghost var was := Cells4(pool);
    for x := 0 to |order|
      modifies o, pool
      invariant forall n: nat, h: nat, j: nat ::
        n < |p.slots| && h < p.HV && j < p.V && RowScheduled(BV, order[..x], n, h, j) ==>
        TokenDone(expo, mt, p, scale, was, Cells(o), Cells4(pool), n, h, j)
      invariant forall n: nat, h: nat, j: nat ::
        n < |p.slots| && h < p.HV && j < p.V && !RowScheduled(BV, order[..x], n, h, j) ==>
        StateRow(Cells4(pool), p.slots[n], h, j) == StateRow(was, p.slots[n], h, j)
      invariant forall s, h, j :: s !in p.slots ==> StateRow(Cells4(pool), s, h, j) == StateRow(was, s, h, j)
    {
      var (iV, n, h) := order[x];
      assert order[x] in order && order[..x + 1] == order[..x] + [(iV, n, h)];
      assert (iV, n, h) !in order[..x];
      ghost var before, o0 := Cells4(pool), Cells(o);
      RunToken(expo, mt, p, scale, o, pool, BK, BV, iV, n, h);
      ghost var now, o1 := Cells4(pool), Cells(o);
      forall n': nat, h': nat, j: nat | n' < |p.slots| && h' < p.HV && j < p.V
        ensures RowScheduled(BV, order[..x + 1], n', h', j) ==> TokenDone(expo, mt, p, scale, was, o1, now, n', h', j)
        ensures !RowScheduled(BV, order[..x + 1], n', h', j) ==>
          StateRow(now, p.slots[n'], h', j) == StateRow(was, p.slots[n'], h', j)
      {
        TileOfRow(BV, iV, j);
        if (j / BV, n', h') == (iV, n, h) {
          OwnRow(expo, mt, p, scale, was, before, o1, now, n, h, j);
        } else {
          TokenStep(expo, mt, p, scale, BV, was, o0, o1, before, now, (iV, n, h), n', h', j);
        }
      }
      forall s, h', j | s !in p.slots ensures StateRow(now, s, h', j) == StateRow(was, s, h', j) {
        OtherSlot(p, BV, o0, o1, before, now, (iV, n, h), s, h', j);
      }
    }
    assert order[..|order|] == order;
  }

  lemma OtherSlot(p: Packed, BV: nat, o: Cube, o': Cube, now: States, now': States, pid: DecodePid, s: int, h: int,
                  j: int)
    requires pid.1 < |p.slots| && TokenKept(p, BV, o, o', now, now', pid) && s !in p.slots
    ensures StateRow(now', s, h, j) == StateRow(now, s, h, j)
  {
    hide StateRow, E3, InTile;
  }

  // ----- a series of launches -----

  /** The first row on slot s, or the number of rows. */
  function RowWith(slots: seq<int>, s: int): (n: nat)
    ensures n <= |slots| && forall i :: 0 <= i < n ==> slots[i] != s
    ensures n < |slots| ==> slots[n] == s
  {
    if slots == [] || slots[0] == s then 0 else 1 + RowWith(slots[1..], s)
  }

  /** The launches slot s takes part in, each with its row, in order. */
  function Turns(toks: seq<Packed>, s: int): (r: seq<(nat, nat)>)
    ensures forall k :: 0 <= k < |r| ==>
      r[k].0 < |toks| && r[k].1 < |toks[r[k].0].slots| && toks[r[k].0].slots[r[k].1] == s
    ensures forall k, l :: 0 <= k < l < |r| ==> r[k].0 < r[l].0
  {
    if toks == [] then []
    else
      var i := |toks| - 1;
      var n := RowWith(toks[i].slots, s);
      Turns(toks[..i], s) + if n < |toks[i].slots| then [(i, n)] else []
  }

  /** The turns of a slot are exactly the rows it is given. */
  lemma {:induction false} TurnsExact(toks: seq<Packed>, s: nat, i: nat, n: nat)
    requires forall l :: 0 <= l < |toks| ==> SlotsApart(toks[l])
    ensures (i, n) in Turns(toks, s) <==> i < |toks| && n < |toks[i].slots| && toks[i].slots[n] == s
  {
    if 0 < |toks| && i < |toks| {
      var last := |toks| - 1;
      if i < last {
        TurnsExact(toks[..last], s, i, n);
      } else if n < |toks[last].slots| && toks[last].slots[n] == s {
        assert SlotsApart(toks[last]);
      }
    }
  }

  ghost predicate AllValid(toks: seq<Packed>) {
    forall i :: 0 <= i < |toks| ==> ValidPacked(toks[i])
  }

  /** The tokens fed to head h of slot s. */
  ghost function Fed(expo: Expo, mt: Maths, toks: seq<Packed>, s: int, h: nat): (r: seq<Head>)
    requires IsExp(expo) && IsSqrt(mt.sqrt) && AllValid(toks)
    ensures |r| == |Turns(toks, s)|
    ensures forall k :: 0 <= k < |r| ==> r[k] == TokenHead(expo, mt, toks[Turns(toks, s)[k].0], Turns(toks, s)[k].1, h)
  {
    var t := Turns(toks, s);
    seq(|t|, k requires 0 <= k < |t| => TokenHead(expo, mt, toks[t[k].0], t[k].1, h))
  }

  /** A state row after some one-token heads. */
  function Decoded(expo: Expo, hds: seq<Head>, j: int, r: Vec): Vec {
    if hds == [] then r else RowState(expo, hds[|hds| - 1], j, Decoded(expo, hds[..|hds| - 1], j, r), 1)
  }

  /** A series of launches did for row j of head h of slot s what the recurrence does. */
  ghost predicate SlotDecoded(expo: Expo, mt: Maths, toks: seq<Packed>, scale: real, was: States, outs: seq<Cube>,
                              now: States,
                              s: int, h: nat, j: nat)
    requires IsExp(expo) && IsSqrt(mt.sqrt) && AllValid(toks) && |outs| == |toks|
  {
    var t, hds, r := Turns(toks, s), Fed(expo, mt, toks, s, h), StateRow(was, s, h, j);
    && StateRow(now, s, h, j) == Decoded(expo, hds, j, r)
    && forall k: nat :: k < |t| ==>
          E3(outs[t[k].0], t[k].1, h, j) == Output(expo, hds[k], scale, j, Decoded(expo, hds[..k], j, r), 0)
  }

  /** Slot s's turn in launch p, after the ones before. */
  function Turn(p: Packed, i: nat, s: int): seq<(nat, nat)> {
    var n := RowWith(p.slots, s);
    if n < |p.slots| then [(i, n)] else []
  }

  lemma TurnsNext(toks: seq<Packed>, p: Packed, s: int)
    ensures Turns(toks + [p], s) == Turns(toks, s) + Turn(p, |toks|, s)
  {
    assert (toks + [p])[..|toks|] == toks;
  }

  lemma FedNext(expo: Expo, mt: Maths, toks: seq<Packed>, p: Packed, s: int, h: nat)
    requires IsExp(expo) && IsSqrt(mt.sqrt) && AllValid(toks) && AllValid(toks + [p]) && ValidPacked(p)
    ensures s !in p.slots ==> Fed(expo, mt, toks + [p], s, h) == Fed(expo, mt, toks, s, h)
    ensures s in p.slots ==>
      Fed(expo, mt, toks + [p], s, h) == Fed(expo, mt, toks, s, h) + [TokenHead(expo, mt, p, RowWith(p.slots, s), h)]
  {
    hide TokenHead, IsExp, IsSqrt, ValidPacked, AllValid, Turns;
    TurnsNext(toks, p, s);
    var f, f' := Fed(expo, mt, toks, s, h), Fed(expo, mt, toks + [p], s, h);
    assert forall k :: 0 <= k < |f| ==> f'[k] == f[k];
    if s in p.slots { assert f' == f + [TokenHead(expo, mt, p, RowWith(p.slots, s), h)]; } else { assert f' == f; }
  }

  lemma DecodedNext(expo: Expo, hds: seq<Head>, hd: Head, j: int, r: Vec)
    ensures Decoded(expo, hds + [hd], j, r) == RowState(expo, hd, j, Decoded(expo, hds, j, r), 1)
  {
    hide RowState;
    assert (hds + [hd])[..|hds|] == hds;
  }

  lemma SlotStep(expo: Expo, mt: Maths, toks: seq<Packed>, p: Packed, scale: real, was: States, outs: seq<Cube>,
                 o: Cube,
                 before: States, now: States, s: int, h: nat, j: nat)
    requires IsExp(expo) && IsSqrt(mt.sqrt) && AllValid(toks) && AllValid(toks + [p]) && ValidPacked(p)
    requires |outs| == |toks| && s >= 0
    requires SlotDecoded(expo, mt, toks, scale, was, outs, before, s, h, j)
    requires s !in p.slots ==> StateRow(now, s, h, j) == StateRow(before, s, h, j)
    requires forall n: nat :: n < |p.slots| && p.slots[n] == s ==>
      TokenDone(expo, mt, p, scale, before, o, now, n, h, j)
    ensures SlotDecoded(expo, mt, toks + [p], scale, was, outs + [o], now, s, h, j)
  {
    hide TokenHead, IsExp, IsSqrt, ValidPacked, AllValid, Turns, Fed, RowState, Output, Decoded, StateRow, E3;
    FedNext(expo, mt, toks, p, s, h);
    TurnsNext(toks, p, s);
    var n, hds, r := RowWith(p.slots, s), Fed(expo, mt, toks, s, h), StateRow(was, s, h, j);
    var t, t', hds' := Turns(toks, s), Turns(toks + [p], s), Fed(expo, mt, toks + [p], s, h);
    forall k: nat | k < |t'|
      ensures E3((outs + [o])[t'[k].0], t'[k].1, h, j)
           == Output(expo, hds'[k], scale, j, Decoded(expo, hds'[..k], j, r), 0)
    {
      assert hds'[..k] == hds[..k];
    }
    if n < |p.slots| { DecodedNext(expo, hds, TokenHead(expo, mt, p, n, h), j, r); }
  }

  /** What launch p needs of its buffers and schedule: every program of the grid runs once. */
  ghost predicate LaunchReady(p: Packed, o: array3<real>, pool: array4<real>, BK: nat, BV: nat, order: seq<DecodePid>) {
    && ValidPacked(p) && p.K <= BK && BV > 0 && DecodeBuffers(p, o, pool) && SlotsApart(p) && DecodeGrid(p, order)
    && forall n: nat, h: nat, j: nat :: n < |p.slots| && h < p.HV && j < p.V ==> RowScheduled(BV, order, n, h, j)
  }

  /** Decoding a series of tokens into one pool. outs are the contents of o after each launch. */
  method DecodeTokens(expo: Expo, mt: Maths, toks: seq<Packed>, scale: real, o: array3<real>, pool: array4<real>,
                      BK: nat, BV: nat, orders: seq<seq<DecodePid>>) returns (ghost outs: seq<Cube>)
    requires IsExp(expo) && IsSqrt(mt.sqrt) && |orders| == |toks|
    requires forall i :: 0 <= i < |toks| ==> LaunchReady(toks[i], o, pool, BK, BV, orders[i])
    modifies o, pool
    ensures |outs| == |toks| && AllValid(toks)
    ensures forall s: nat, h: nat, j: nat :: h < pool.Length1 && j < pool.Length2 ==>
      SlotDecoded(expo, mt, toks, scale, old(Cells4(pool)), outs, Cells4(pool), s, h, j)
    ensures forall i: nat, n: nat, h: nat, j: nat ::
      i < |toks| && n < |toks[i].slots| && toks[i].slots[n] < 0 && h < pool.Length1 && j < pool.Length2 ==>
        E3(outs[i], n, h, j) == 0.0
  {
    hide SlotDecoded, TokenDone, StateRow, E3, E4, IsSqrt, IsExp, Turns, Fed, DecodeGrid, SlotsApart;
    ghost var was := Cells4(pool);
    outs := [];
    forall s: nat, h: nat, j: nat ensures SlotDecoded(expo, mt, toks[..0], scale, was, outs, was, s, h, j) {
      NothingDecoded(expo, mt, toks[..0], scale, was, outs, s, h, j);
    }
    for i := 0 to |toks|
      modifies o, pool
      invariant |outs| == i && AllValid(toks[..i])
      invariant forall s: nat, h: nat, j: nat :: h < pool.Length1 && j < pool.Length2 ==>
        SlotDecoded(expo, mt, toks[..i], scale, was, outs, Cells4(pool), s, h, j)
      invariant forall x: nat, n: nat, h: nat, j: nat ::
        x < i && n < |toks[x].slots| && toks[x].slots[n] < 0 && h < pool.Length1 && j < pool.Length2 ==>
          E3(outs[x], n, h, j) == 0.0
    {
      ghost var p, sofar, before := toks[i], toks[..i + 1], Cells4(pool);
      assert LaunchReady(p, o, pool, BK, BV, orders[i]);
      assert sofar == toks[..i] + [p];
      LaunchDecode(expo, mt, toks[i], scale, o, pool, BK, BV, orders[i]);
      ghost var now, o1 := Cells4(pool), Cells(o);
      forall s: nat, h: nat, j: nat | h < pool.Length1 && j < pool.Length2
        ensures SlotDecoded(expo, mt, sofar, scale, was, outs + [o1], now, s, h, j)
      {
        SlotStep(expo, mt, toks[..i], p, scale, was, outs, o1, before, now, s, h, j);
      }
      forall n: nat, h: nat, j: nat | n < |p.slots| && p.slots[n] < 0 && h < pool.Length1 && j < pool.Length2
        ensures E3(o1, n, h, j) == 0.0
      {
        Padding(expo, mt, p, scale, before, o1, now, n, h, j);
      }
      outs := outs + [o1];
    }
    assert toks[..|toks|] == toks;
  }

  lemma NothingDecoded(expo: Expo, mt: Maths, toks: seq<Packed>, scale: real, was: States, outs: seq<Cube>, s: int,
                       h: nat, j: nat)
    requires IsExp(expo) && IsSqrt(mt.sqrt) && toks == [] && outs == []
    ensures SlotDecoded(expo, mt, toks, scale, was, outs, was, s, h, j)
  {
    hide IsSqrt, IsExp, StateRow;
  }

  lemma Padding(expo: Expo, mt: Maths, p: Packed, scale: real, was: States, o: Cube, now: States, n: nat, h: nat,
                j: nat)
    requires IsExp(expo) && IsSqrt(mt.sqrt) && ValidPacked(p) && n < |p.slots| && p.slots[n] < 0
    requires TokenDone(expo, mt, p, scale, was, o, now, n, h, j)
    ensures E3(o, n, h, j) == 0.0
  {
    hide E3, TokenHead, Output, IsSqrt, IsExp;
  }
}
