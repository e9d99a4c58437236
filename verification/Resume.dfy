/**
 Stopping and resuming. A prefill may stop after any token, not only at a chunk boundary, and go on from
 the stored state by another prefill, with any chunk lengths, or by any number of single-token decode
 launches: outputs and final state are those of one unbroken prefill. Sequences may change places between
 the runs.
 */
module Resume {
  import opened Sums
  import opened Matrices
  import opened Recurrence
  import opened Layout
  import opened Launches
  import opened StateLaunch
  import opened Prefill
  import opened PackedDecode
  import opened DecodeLaunch

  /** Token t of one head is token t' of another. */
  ghost predicate SameToken(x: Head, t: nat, y: Head, t': nat) {
    && x.K == y.K && x.V == y.V && At(x.beta, t) == At(y.beta, t') && At(x.logDecay, t) == At(y.logDecay, t')
    && (forall c :: 0 <= c < x.K ==> E(x.q, t, c) == E(y.q, t', c) && E(x.k, t, c) == E(y.k, t', c))
    && (forall j :: 0 <= j < x.V ==> E(x.v, t, j) == E(y.v, t', j))
  }

  ghost predicate SameTokenAt(x: Head, off: nat, y: Head, t: nat) {
    SameToken(x, off + t, y, t)
  }

  /** Tokens off, off + 1, ... of x are the first n tokens of y. */
  ghost predicate SameRun(x: Head, off: nat, y: Head, n: nat) {
    x.K == y.K && x.V == y.V && forall t: nat :: t < n ==> SameTokenAt(x, off, y, t)
  }

  /** whole is first followed by rest. */
  ghost predicate Joined(whole: Head, first: Head, rest: Head) {
    whole.T == first.T + rest.T && SameRun(whole, 0, first, first.T) && SameRun(whole, first.T, rest, rest.T)
  }

  ghost predicate Agree(K: nat, x: Vec, y: Vec) {
    forall c :: 0 <= c < K ==> At(x, c) == At(y, c)
  }

  /** One step from agreeing rows on the same token agrees, and so does its update. */
  lemma StepAgrees(expo: Expo, x: Head, t: nat, y: Head, t': nat, j: nat, r: Vec, s: Vec)
    requires SameToken(x, t, y, t') && j < x.V && Agree(x.K, r, s)
    ensures NewValue(expo, x, j, r, t) == NewValue(expo, y, j, s, t')
    ensures Agree(x.K, StepRow(expo, x, j, r, t), StepRow(expo, y, j, s, t'))
  {
    var d := expo(At(x.logDecay, t));
    hide E, At, StepRow;
    SumExt(x.K, c => At(r, c) * d * E(x.k, t, c), c => At(s, c) * d * E(y.k, t', c));
    forall c | 0 <= c < x.K ensures At(StepRow(expo, x, j, r, t), c) == At(StepRow(expo, y, j, s, t'), c) {
      StepEntry(expo, x, j, r, t, c);
      StepEntry(expo, y, j, s, t', c);
    }
  }

  lemma StepEntry(expo: Expo, x: Head, j: int, s: Vec, t: int, c: nat)
    requires c < x.K
    ensures At(StepRow(expo, x, j, s, t), c)
         == At(s, c) * expo(At(x.logDecay, t)) + NewValue(expo, x, j, s, t) * E(x.k, t, c)
  {
    hide NewValue, E;
  }

  /** Running the same tokens from agreeing rows keeps the rows in agreement. */
  lemma {:induction false} RunAgrees(expo: Expo, x: Head, off: nat, y: Head, n: nat, j: nat, r: Vec, s: Vec)
    requires j < x.V && SameRun(x, off, y, n)
    requires Agree(x.K, RowState(expo, x, j, r, off), s)
    ensures Agree(x.K, RowState(expo, x, j, r, off + n), RowState(expo, y, j, s, n))
  {
    hide StepRow, At, SameToken, Agree;
    if n > 0 {
      RunAgrees(expo, x, off, y, n - 1, j, r, s);
      assert SameTokenAt(x, off, y, n - 1);
      StepAgrees(expo, x, off + (n - 1), y, n - 1, j, RowState(expo, x, j, r, off + (n - 1)),
                 RowState(expo, y, j, s, n - 1));
      assert off + n - 1 == off + (n - 1);
    } else {
      assert RowState(expo, y, j, s, 0) == s;
    }
  }

  lemma OutputAgrees(expo: Expo, x: Head, off: nat, y: Head, t: nat, scale: real, j: nat, r: Vec, s: Vec)
    requires j < x.V && SameRun(x, off, y, t + 1)
    requires Agree(x.K, RowState(expo, x, j, r, off), s)
    ensures Output(expo, x, scale, j, r, off + t) == Output(expo, y, scale, j, s, t)
  {
    hide RowState, At, E, Output, Agree, NewValue, StepRow;
    RunAgrees(expo, x, off, y, t + 1, j, r, s);
    assert SameTokenAt(x, off, y, t) && off + (t + 1) == off + t + 1;
    ReadAgrees(expo, x, off + t, y, t, scale, j, r, s);
  }

  lemma ReadAgrees(expo: Expo, x: Head, u: nat, y: Head, t: nat, scale: real, j: nat, r: Vec, s: Vec)
    requires SameToken(x, u, y, t) && Agree(x.K, RowState(expo, x, j, r, u + 1), RowState(expo, y, j, s, t + 1))
    ensures Output(expo, x, scale, j, r, u) == Output(expo, y, scale, j, s, t)
  {
    hide RowState, At, E;
    var p, q := RowState(expo, x, j, r, u + 1), RowState(expo, y, j, s, t + 1);
    SumExt(x.K, c => At(p, c) * (E(x.q, u, c) * scale), c => At(q, c) * (E(y.q, t, c) * scale));
  }

  lemma NoTokens(expo: Expo, x: Head, j: nat, s: Vec)
    ensures RowState(expo, x, j, s, 0) == s
  {
  }

  lemma AgreeTrans(K: nat, x: Vec, y: Vec, z: Vec)
    requires Agree(K, x, y) && Agree(K, y, z)
    ensures Agree(K, x, z)
  {
    hide At;
  }

  /** The first tokens of a run from an agreeing row. */
  lemma FirstPart(expo: Expo, whole: Head, first: Head, scale: real, j: nat, r0: Vec, s0: Vec)
    requires SameRun(whole, 0, first, first.T) && j < whole.V && Agree(whole.K, r0, s0)
    ensures forall t: nat :: t < first.T ==>
      Output(expo, whole, scale, j, r0, t) == Output(expo, first, scale, j, s0, t)
    ensures Agree(whole.K, RowState(expo, whole, j, r0, first.T), RowState(expo, first, j, s0, first.T))
  {
    hide RowState, Output, SameTokenAt, At;
    assert RowState(expo, whole, j, r0, 0) == r0 by { NoTokens(expo, whole, j, r0); }
    RunAgrees(expo, whole, 0, first, first.T, j, r0, s0);
    forall t: nat | t < first.T ensures Output(expo, whole, scale, j, r0, t) == Output(expo, first, scale, j, s0, t) {
      OutputAgrees(expo, whole, 0, first, t, scale, j, r0, s0);
    }
  }

  /** Going on from a stored row: the rest of the run is as if it had never been cut. */
  lemma ContinueRun(expo: Expo, whole: Head, first: Head, rest: Head, scale: real, j: nat, r0: Vec, s0: Vec,
                    stored: Vec)
    requires Joined(whole, first, rest) && j < whole.V && Agree(whole.K, r0, s0)
    requires Agree(whole.K, RowState(expo, first, j, s0, first.T), stored)
    ensures forall t: nat :: t < first.T ==>
      Output(expo, whole, scale, j, r0, t) == Output(expo, first, scale, j, s0, t)
    ensures forall t: nat :: t < rest.T ==>
      Output(expo, whole, scale, j, r0, first.T + t) == Output(expo, rest, scale, j, stored, t)
    ensures Agree(whole.K, RowState(expo, whole, j, r0, whole.T), RowState(expo, rest, j, stored, rest.T))
  {
    hide RowState, Output, SameTokenAt, At, Agree;
    FirstPart(expo, whole, first, scale, j, r0, s0);
    AgreeTrans(whole.K, RowState(expo, whole, j, r0, first.T), RowState(expo, first, j, s0, first.T), stored);
    forall t: nat | t < rest.T
      ensures Output(expo, whole, scale, j, r0, first.T + t) == Output(expo, rest, scale, j, stored, t)
    {
      OutputAgrees(expo, whole, first.T, rest, t, scale, j, r0, stored);
    }
    RunAgrees(expo, whole, first.T, rest, rest.T, j, r0, stored);
  }

  // ----- resuming by a second prefill -----

  /** The packed output of token t of sequence n. */
  function TokenOut(b: Batch, o: Cube, n: nat, h: nat, j: nat, t: nat): real
    requires ValidBatch(b) && n < Sequences(b)
  {
    E3(o, b.cu[n] + t, h, j)
  }

  /** Row j of head h is the same in slot s of x and slot s' of y. */
  ghost predicate SameRow(K: nat, x: States, s: nat, y: States, s': nat, h: nat, j: nat) {
    forall k: nat :: k < K ==> E4(x, s, h, j, k) == E4(y, s', h, j, k)
  }

  lemma RowsAgree(K: nat, x: States, s: nat, y: States, s': nat, h: nat, j: nat)
    requires SameRow(K, x, s, y, s', h, j)
    ensures Agree(K, StateRow(x, s, h, j), StateRow(y, s', h, j))
  {
    hide E;
    forall k | 0 <= k < K ensures At(StateRow(x, s, h, j), k) == At(StateRow(y, s', h, j), k) {
      StoredEntry(x, s, h, j, k);
      StoredEntry(y, s', h, j, k);
    }
  }

  lemma StoredEntry(x: States, s: nat, h: nat, j: nat, k: nat)
    ensures E4(x, s, h, j, k) == At(StateRow(x, s, h, j), k)
  {
  }

  /** A row's stored end of a prefill is the end of its run. */
  lemma EndOfRun(expo: Expo, b: Batch, scale: real, BT: nat, s0: States, hs: States, vn: Cube, ht: States, o: Cube,
                 n: nat, h: nat, j: nat)
    requires ValidBatch(b) && BT > 0 && n < Sequences(b) && n < |s0| && h < |s0[n]|
    requires RowRefined(expo, b, scale, BT, s0, hs, vn, ht, o, n, h, j)
    ensures Agree(b.K, RowState(expo, HeadOf(b, n, h), j, StateRow(s0, n, h, j), SeqLen(b, n)), StateRow(ht, n, h, j))
  {
    hide E, At, HeadOf, RowState, Output, E3, Row, Update, E4;
    forall k | 0 <= k < b.K
      ensures At(RowState(expo, HeadOf(b, n, h), j, Row(s0[n][h], j), SeqLen(b, n)), k) == At(StateRow(ht, n, h, j), k)
    {
      assert E4(ht, n, h, j, k) == At(RunRow(expo, b, s0, n, h, j, SeqLen(b, n)), k);
      StoredEntry(ht, n, h, j, k);
    }
  }

  /** A prefill cut after any token and resumed from the stored states equals the unbroken prefill. The
      three runs may use different chunk lengths, and a sequence may stand at different places n, n1, n2. */
  lemma SplitPrefill(expo: Expo, scale: real, h: nat, j: nat,
                     b: Batch, BT: nat, s0: States, hs: States, vn: Cube, ht: States, o: Cube, n: nat,
                     b1: Batch, BT1: nat, s1: States, hs1: States, vn1: Cube, ht1: States, o1: Cube, n1: nat,
                     b2: Batch, BT2: nat, s2: States, hs2: States, vn2: Cube, ht2: States, o2: Cube, n2: nat)
    requires ValidBatch(b) && ValidBatch(b1) && ValidBatch(b2) && BT > 0 && BT1 > 0 && BT2 > 0
    requires n < Sequences(b) && n1 < Sequences(b1) && n2 < Sequences(b2) && j < b.V
    requires n < |s0| && h < |s0[n]| && n1 < |s1| && h < |s1[n1]| && n2 < |s2| && h < |s2[n2]|
    requires Joined(HeadOf(b, n, h), HeadOf(b1, n1, h), HeadOf(b2, n2, h))
    requires SameRow(b.K, s0, n, s1, n1, h, j) && SameRow(b.K, ht1, n1, s2, n2, h, j)
    requires RowRefined(expo, b, scale, BT, s0, hs, vn, ht, o, n, h, j)
    requires RowRefined(expo, b1, scale, BT1, s1, hs1, vn1, ht1, o1, n1, h, j)
    requires RowRefined(expo, b2, scale, BT2, s2, hs2, vn2, ht2, o2, n2, h, j)
    ensures forall t: nat :: t < SeqLen(b1, n1) ==> TokenOut(b, o, n, h, j, t) == TokenOut(b1, o1, n1, h, j, t)
    ensures forall t: nat :: SeqLen(b1, n1) <= t < SeqLen(b, n) ==>
      TokenOut(b, o, n, h, j, t) == TokenOut(b2, o2, n2, h, j, t - SeqLen(b1, n1))
    ensures SameRow(b.K, ht, n, ht2, n2, h, j)
  {
    hide E, At, HeadOf, RowState, Output, E3, E4, StateRow, RowRefined, SameRow, Agree;
    HeadShape(b, n, h);
    HeadShape(b1, n1, h);
    HeadShape(b2, n2, h);
    var first, rest, whole := HeadOf(b1, n1, h), HeadOf(b2, n2, h), HeadOf(b, n, h);
    var r0, r1, r2 := StateRow(s0, n, h, j), StateRow(s1, n1, h, j), StateRow(s2, n2, h, j);
    RowsAgree(b.K, s0, n, s1, n1, h, j);
    RowsAgree(b.K, ht1, n1, s2, n2, h, j);
    EndOfRun(expo, b1, scale, BT1, s1, hs1, vn1, ht1, o1, n1, h, j);
    AgreeTrans(b.K, RowState(expo, first, j, r1, first.T), StateRow(ht1, n1, h, j), r2);
    ContinueRun(expo, whole, first, rest, scale, j, r0, r1, r2);
    forall t: nat | t < SeqLen(b1, n1) ensures TokenOut(b, o, n, h, j, t) == TokenOut(b1, o1, n1, h, j, t) {
      OutputRow(expo, b, scale, BT, s0, hs, vn, ht, o, n, h, j, t);
      OutputRow(expo, b1, scale, BT1, s1, hs1, vn1, ht1, o1, n1, h, j, t);
    }
    forall t: nat | SeqLen(b1, n1) <= t < SeqLen(b, n)
      ensures TokenOut(b, o, n, h, j, t) == TokenOut(b2, o2, n2, h, j, t - SeqLen(b1, n1))
    {
      OutputRow(expo, b, scale, BT, s0, hs, vn, ht, o, n, h, j, t);
      OutputRow(expo, b2, scale, BT2, s2, hs2, vn2, ht2, o2, n2, h, j, t - SeqLen(b1, n1));
      assert first.T + (t - SeqLen(b1, n1)) == t;
    }
    EndOfRun(expo, b, scale, BT, s0, hs, vn, ht, o, n, h, j);
    EndOfRun(expo, b2, scale, BT2, s2, hs2, vn2, ht2, o2, n2, h, j);
    EndsAgree(b.K, RowState(expo, whole, j, r0, whole.T), RowState(expo, rest, j, r2, rest.T), ht, n, ht2, n2, h, j);
  }

  lemma EndsAgree(K: nat, x: Vec, y: Vec, s: States, n: nat, s': States, n': nat, h: nat, j: nat)
    requires Agree(K, x, y) && Agree(K, x, StateRow(s, n, h, j)) && Agree(K, y, StateRow(s', n', h, j))
    ensures SameRow(K, s, n, s', n', h, j)
  {
    hide E4, At;
    forall k: nat | k < K ensures E4(s, n, h, j, k) == E4(s', n', h, j, k) {
      StoredEntry(s, n, h, j, k);
      StoredEntry(s', n', h, j, k);
    }
  }

  lemma OutputRow(expo: Expo, b: Batch, scale: real, BT: nat, s0: States, hs: States, vn: Cube, ht: States, o: Cube,
                  n: nat, h: nat, j: nat, t: nat)
    requires ValidBatch(b) && BT > 0 && n < Sequences(b) && n < |s0| && h < |s0[n]| && t < SeqLen(b, n)
    requires RowRefined(expo, b, scale, BT, s0, hs, vn, ht, o, n, h, j)
    ensures TokenOut(b, o, n, h, j, t) == Output(expo, HeadOf(b, n, h), scale, j, StateRow(s0, n, h, j), t)
  {
    hide E3, HeadOf, Row, Output, RowIsTrace;
  }

  // ----- resuming by decode steps -----

  /** whole is first followed by one token of each of the heads in hds. */
  ghost predicate Extends(whole: Head, first: Head, hds: seq<Head>) {
    && whole.T == first.T + |hds| && SameRun(whole, 0, first, first.T)
    && forall k: nat :: k < |hds| ==>
          SameTokenAt(whole, first.T + k, hds[k], 0) && hds[k].V == whole.V && hds[k].K == whole.K
  }

  ghost predicate TokensFit(first: Head, hds: seq<Head>) {
    forall k: nat :: k < |hds| ==> Shaped(hds[k]) && hds[k].T == 1 && hds[k].K == first.K && hds[k].V == first.V
  }

  /** The head that does extend first by the tokens of hds. */
  function JoinedHead(first: Head, hds: seq<Head>): Head {
    Head(first.T + |hds|, first.K, first.V,
         first.q + seq(|hds|, k requires 0 <= k < |hds| => Row(hds[k].q, 0)),
         first.k + seq(|hds|, k requires 0 <= k < |hds| => Row(hds[k].k, 0)),
         first.v + seq(|hds|, k requires 0 <= k < |hds| => Row(hds[k].v, 0)),
         first.beta + seq(|hds|, k requires 0 <= k < |hds| => At(hds[k].beta, 0)),
         first.logDecay + seq(|hds|, k requires 0 <= k < |hds| => At(hds[k].logDecay, 0)))
  }

  lemma JoinedExtends(first: Head, hds: seq<Head>)
    requires Shaped(first) && TokensFit(first, hds)
    ensures Shaped(JoinedHead(first, hds)) && Extends(JoinedHead(first, hds), first, hds)
  {
    var x := JoinedHead(first, hds);
    assert Shaped(x);
    forall t: nat | t < first.T ensures SameTokenAt(x, 0, first, t) { assert 0 + t == t; }
    forall k: nat | k < |hds| ensures SameTokenAt(x, first.T + k, hds[k], 0) {
      assert (first.T + k) + 0 == first.T + k;
      assert x.q[first.T + k] == Row(hds[k].q, 0) && x.k[first.T + k] == Row(hds[k].k, 0);
      assert x.v[first.T + k] == Row(hds[k].v, 0);
    }
  }

  /** Any two extensions by the same tokens are the same run. */
  lemma ExtensionsSame(x: Head, y: Head, first: Head, hds: seq<Head>)
    requires Extends(x, first, hds) && Extends(y, first, hds)
    ensures x.T == y.T && SameRun(x, 0, y, y.T)
  {
    forall t: nat | t < y.T ensures SameTokenAt(x, 0, y, t) {
      assert 0 + t == t;
      if t < first.T {
        assert SameTokenAt(x, 0, first, t) && SameTokenAt(y, 0, first, t);
      } else {
        var k := t - first.T;
        assert SameTokenAt(x, first.T + k, hds[k], 0) && SameTokenAt(y, first.T + k, hds[k], 0);
        assert first.T + k + 0 == t;
      }
    }
  }

  /** k decode steps from the stored row keep up with the unbroken run. */
  lemma {:induction false} StepsAgree(expo: Expo, whole: Head, first: Head, hds: seq<Head>, j: nat, r0: Vec,
                                      stored: Vec, k: nat)
    requires Extends(whole, first, hds) && j < whole.V && k <= |hds|
    requires Agree(whole.K, RowState(expo, whole, j, r0, first.T), stored)
    ensures Agree(whole.K, RowState(expo, whole, j, r0, first.T + k), Decoded(expo, hds[..k], j, stored))
  {
    hide RowState, At, SameToken, Agree, SameRun;
    if k > 0 {
      StepsAgree(expo, whole, first, hds, j, r0, stored, k - 1);
      DecodedNext(expo, hds[..k - 1], hds[k - 1], j, stored);
      assert hds[..k] == hds[..k - 1] + [hds[k - 1]];
      OneToken(whole, first.T + (k - 1), hds[k - 1]);
      RunAgrees(expo, whole, first.T + (k - 1), hds[k - 1], 1, j, r0, Decoded(expo, hds[..k - 1], j, stored));
      assert first.T + k == first.T + (k - 1) + 1;
    } else {
      assert hds[..0] == [];
    }
  }

  lemma OneToken(x: Head, t: nat, y: Head)
    requires SameTokenAt(x, t, y, 0) && x.K == y.K && x.V == y.V
    ensures SameRun(x, t, y, 1)
  {
    hide SameToken;
    assert t + 0 == t;
  }

  lemma StepOutput(expo: Expo, whole: Head, first: Head, hds: seq<Head>, scale: real, j: nat, r0: Vec, stored: Vec,
                   k: nat)
    requires Extends(whole, first, hds) && j < whole.V && k < |hds|
    requires Agree(whole.K, RowState(expo, whole, j, r0, first.T), stored)
    ensures Output(expo, whole, scale, j, r0, first.T + k)
         == Output(expo, hds[k], scale, j, Decoded(expo, hds[..k], j, stored), 0)
  {
    hide RowState, Output, SameToken, At, Agree, Decoded, SameRun;
    StepsAgree(expo, whole, first, hds, j, r0, stored, k);
    OneToken(whole, first.T + k, hds[k]);
    OutputAgrees(expo, whole, first.T + k, hds[k], 0, scale, j, r0, Decoded(expo, hds[..k], j, stored));
  }

  /** Decoding any number of tokens from a row stored by the first part of a run: every output and the final
      row are those of the unbroken run. */
  lemma DecodeContinues(expo: Expo, whole: Head, first: Head, hds: seq<Head>, scale: real, j: nat, r0: Vec, s0: Vec,
                        stored: Vec)
    requires Extends(whole, first, hds) && j < whole.V && Agree(whole.K, r0, s0)
    requires Agree(whole.K, RowState(expo, first, j, s0, first.T), stored)
    ensures forall t: nat :: t < first.T ==>
      Output(expo, whole, scale, j, r0, t) == Output(expo, first, scale, j, s0, t)
    ensures forall k: nat :: k < |hds| ==>
      Output(expo, whole, scale, j, r0, first.T + k)
         == Output(expo, hds[k], scale, j, Decoded(expo, hds[..k], j, stored), 0)
    ensures Agree(whole.K, RowState(expo, whole, j, r0, whole.T), Decoded(expo, hds, j, stored))
  {
    hide RowState, Output, SameTokenAt, At, Agree, Decoded, SameRun;
    ExtendsSizes(whole, first, hds);
    FirstPart(expo, whole, first, scale, j, r0, s0);
    AgreeTrans(whole.K, RowState(expo, whole, j, r0, first.T), RowState(expo, first, j, s0, first.T), stored);
    forall k: nat | k < |hds|
      ensures Output(expo, whole, scale, j, r0, first.T + k)
         == Output(expo, hds[k], scale, j, Decoded(expo, hds[..k], j, stored), 0)
    {
      StepOutput(expo, whole, first, hds, scale, j, r0, stored, k);
    }
    StepsAgree(expo, whole, first, hds, j, r0, stored, |hds|);
    assert hds[..|hds|] == hds;
  }

  /** Row j of head h of the unbroken run hd from r, computed in two parts: a prefill of batch b1, where it is
      sequence n1, and then launches on slot s of a state pool. */
  ghost predicate RowResumed(expo: Expo, hd: Head, scale: real, r: Vec, b1: Batch, o1: Cube, n1: nat,
                             toks: seq<Packed>, outs: seq<Cube>, pool: States, s: nat, h: nat, j: nat)
    requires ValidBatch(b1) && n1 < Sequences(b1) && |outs| == |toks|
  {
    var t := Turns(toks, s);
    && hd.T == SeqLen(b1, n1) + |t|
    && (forall i: nat :: i < SeqLen(b1, n1) ==> TokenOut(b1, o1, n1, h, j, i) == Output(expo, hd, scale, j, r, i))
    && (forall k: nat :: k < |t| ==>
          E3(outs[t[k].0], t[k].1, h, j) == Output(expo, hd, scale, j, r, SeqLen(b1, n1) + k))
    && Agree(hd.K, RowState(expo, hd, j, r, hd.T), StateRow(pool, s, h, j))
  }

  /** A prefill followed by decode launches, on any copy of the stored row, computes the unbroken run. */
  lemma SplitDecode(expo: Expo, mt: Maths, scale: real, h: nat, j: nat, hd: Head, r: Vec,
                    b1: Batch, BT1: nat, s1: States, hs1: States, vn1: Cube, ht1: States, o1: Cube, n1: nat,
                    toks: seq<Packed>, was: States, outs: seq<Cube>, now: States, s: nat)
    requires ValidBatch(b1) && BT1 > 0 && IsExp(expo) && IsSqrt(mt.sqrt) && AllValid(toks) && |outs| == |toks|
    requires n1 < Sequences(b1) && j < b1.V && n1 < |s1| && h < |s1[n1]|
    requires Extends(hd, HeadOf(b1, n1, h), Fed(expo, mt, toks, s, h))
    requires Agree(b1.K, r, StateRow(s1, n1, h, j)) && SameRow(b1.K, ht1, n1, was, s, h, j)
    requires RowRefined(expo, b1, scale, BT1, s1, hs1, vn1, ht1, o1, n1, h, j)
    requires SlotDecoded(expo, mt, toks, scale, was, outs, now, s, h, j)
    ensures RowResumed(expo, hd, scale, r, b1, o1, n1, toks, outs, now, s, h, j)
  {
    hide E, At, HeadOf, RowState, Output, E3, E4, StateRow, RowRefined, SameRow, Turns, Fed, Decoded, Agree, Extends,
      IsExp, IsSqrt, AllValid;
    HeadShape(b1, n1, h);
    var first, hds := HeadOf(b1, n1, h), Fed(expo, mt, toks, s, h);
    var r1, stored := StateRow(s1, n1, h, j), StateRow(was, s, h, j);
    RowsAgree(b1.K, ht1, n1, was, s, h, j);
    EndOfRun(expo, b1, scale, BT1, s1, hs1, vn1, ht1, o1, n1, h, j);
    ExtendsSizes(hd, first, hds);
    AgreeTrans(b1.K, RowState(expo, first, j, r1, first.T), StateRow(ht1, n1, h, j), stored);
    DecodeContinues(expo, hd, first, hds, scale, j, r, r1, stored);
    forall i: nat | i < SeqLen(b1, n1) ensures TokenOut(b1, o1, n1, h, j, i) == Output(expo, hd, scale, j, r, i) {
      OutputRow(expo, b1, scale, BT1, s1, hs1, vn1, ht1, o1, n1, h, j, i);
    }
  }

  lemma ExtendsSizes(whole: Head, first: Head, hds: seq<Head>)
    requires Extends(whole, first, hds)
    ensures whole.T == first.T + |hds| && whole.K == first.K && whole.V == first.V
  {
    hide SameTokenAt;
  }

  /** So the outputs and the final state are those one prefill of the whole sequence, in a batch b of any chunk
      length, would store. */
  lemma ResumedIsUnbroken(expo: Expo, mt: Maths, scale: real, h: nat, j: nat, b: Batch, BT: nat, s0: States,
                          hs: States, vn: Cube, ht: States, o: Cube, n: nat, hd: Head, r: Vec, b1: Batch, o1: Cube,
                          n1: nat, toks: seq<Packed>, outs: seq<Cube>, pool: States, s: nat)
    requires ValidBatch(b) && BT > 0 && n < Sequences(b) && ValidBatch(b1) && n1 < Sequences(b1) && |outs| == |toks|
    requires n < |s0| && h < |s0[n]| && j < b.V && IsExp(expo) && IsSqrt(mt.sqrt) && AllValid(toks)
    requires Extends(hd, HeadOf(b1, n1, h), Fed(expo, mt, toks, s, h))
    requires Extends(HeadOf(b, n, h), HeadOf(b1, n1, h), Fed(expo, mt, toks, s, h))
    requires Agree(b.K, StateRow(s0, n, h, j), r)
    requires RowResumed(expo, hd, scale, r, b1, o1, n1, toks, outs, pool, s, h, j)
    requires RowRefined(expo, b, scale, BT, s0, hs, vn, ht, o, n, h, j)
    ensures forall i: nat :: i < SeqLen(b1, n1) ==> TokenOut(b1, o1, n1, h, j, i) == TokenOut(b, o, n, h, j, i)
    ensures var t := Turns(toks, s);
      forall k: nat :: k < |t| ==> E3(outs[t[k].0], t[k].1, h, j) == TokenOut(b, o, n, h, j, SeqLen(b1, n1) + k)
    ensures SameRow(b.K, ht, n, pool, s, h, j)
  {
    hide E, At, HeadOf, RowState, Output, E3, E4, StateRow, RowRefined, SameRow, Turns, Fed, Agree, Extends, SameRun,
      IsExp, IsSqrt, AllValid;
    HeadShape(b, n, h);
    var whole, r0 := HeadOf(b, n, h), StateRow(s0, n, h, j);
    ExtensionsSame(whole, hd, HeadOf(b1, n1, h), Fed(expo, mt, toks, s, h));
    SameSizes(whole, 0, hd, hd.T);
    FirstPart(expo, whole, hd, scale, j, r0, r);
    forall i: nat | i < SeqLen(b, n) ensures TokenOut(b, o, n, h, j, i) == Output(expo, hd, scale, j, r, i) {
      OutputRow(expo, b, scale, BT, s0, hs, vn, ht, o, n, h, j, i);
    }
    EndOfRun(expo, b, scale, BT, s0, hs, vn, ht, o, n, h, j);
    var end := RowState(expo, whole, j, r0, whole.T);
    AgreeTrans(b.K, end, RowState(expo, hd, j, r, hd.T), StateRow(pool, s, h, j));
    BothAgree(b.K, end, ht, n, pool, s, h, j);
  }

  lemma SameSizes(x: Head, off: nat, y: Head, n: nat)
    requires SameRun(x, off, y, n)
    ensures x.K == y.K && x.V == y.V
  {
    hide SameTokenAt;
  }

  lemma BothAgree(K: nat, x: Vec, s: States, n: nat, s': States, n': nat, h: nat, j: nat)
    requires Agree(K, x, StateRow(s, n, h, j)) && Agree(K, x, StateRow(s', n', h, j))
    ensures SameRow(K, s, n, s', n', h, j)
  {
    hide Agree;
    assert Agree(K, x, x) by { AgreeSelf(K, x); }
    EndsAgree(K, x, x, s, n, s', n', h, j);
  }

  lemma AgreeSelf(K: nat, x: Vec)
    ensures Agree(K, x, x)
  {
  }

  /** The unbroken run of head h of sequence n: its tokens in the prefill and then those its slot is fed. */
  ghost function Unbroken(expo: Expo, mt: Maths, b: Batch, toks: seq<Packed>, n: nat, h: nat): Head
    requires ValidBatch(b) && n < Sequences(b) && IsExp(expo) && IsSqrt(mt.sqrt) && AllValid(toks)
  {
    JoinedHead(HeadOf(b, n, h), Fed(expo, mt, toks, n, h))
  }

  lemma UnbrokenExtends(expo: Expo, mt: Maths, b: Batch, toks: seq<Packed>, n: nat, h: nat)
    requires ValidBatch(b) && n < Sequences(b) && IsExp(expo) && IsSqrt(mt.sqrt) && AllValid(toks)
    requires forall i :: 0 <= i < |toks| ==> toks[i].K == b.K && toks[i].V == b.V
    ensures Extends(Unbroken(expo, mt, b, toks, n, h), HeadOf(b, n, h), Fed(expo, mt, toks, n, h))
  {
    hide HeadOf, TokenHead, JoinedHead, Extends, IsExp, IsSqrt, AllValid;
    HeadShape(b, n, h);
    JoinedExtends(HeadOf(b, n, h), Fed(expo, mt, toks, n, h));
  }

  /** Decoding on the prefill's own final states. */
  lemma InPlace(expo: Expo, mt: Maths, scale: real, h: nat, j: nat, b: Batch, BT: nat, s0: States, hs: States,
                vn: Cube, ht: States, o: Cube, n: nat, toks: seq<Packed>, outs: seq<Cube>, now: States)
    requires ValidBatch(b) && BT > 0 && IsExp(expo) && IsSqrt(mt.sqrt) && AllValid(toks) && |outs| == |toks|
    requires n < Sequences(b) && j < b.V && n < |s0| && h < |s0[n]|
    requires forall i :: 0 <= i < |toks| ==> toks[i].K == b.K && toks[i].V == b.V
    requires RowRefined(expo, b, scale, BT, s0, hs, vn, ht, o, n, h, j)
    requires SlotDecoded(expo, mt, toks, scale, ht, outs, now, n, h, j)
    ensures RowResumed(expo, Unbroken(expo, mt, b, toks, n, h), scale, StateRow(s0, n, h, j), b, o, n, toks, outs, now,
                       n, h, j)
  {
    hide RowRefined, RowResumed, SlotDecoded, HeadOf, Fed, Extends, IsSqrt, IsExp, AllValid, Unbroken, StateRow,
      SameRow, Agree;
    UnbrokenExtends(expo, mt, b, toks, n, h);
    AgreeSelf(b.K, StateRow(s0, n, h, j));
    RowItself(b.K, ht, n, h, j);
    SplitDecode(expo, mt, scale, h, j, Unbroken(expo, mt, b, toks, n, h), StateRow(s0, n, h, j), b, BT, s0, hs, vn, ht,
                o, n, toks, ht, outs, now, n);
  }

  /** A prefill of b and then decode launches on the states it leaves, sequence n in slot n: every output and
      every final state is the recurrence's on the unbroken sequence, from the initial states. */
  method RunThenDecode(expo: Expo, mt: Maths, b: Batch, scale: real, m: nat, z: Tiling, s: Schedules,
                       A: array3<real>, Ai: array3<real>, w: array3<real>, u: array3<real>, hs: array4<real>,
                       vNew: array3<real>, h0: array4<real>, ht: array4<real>, o: array3<real>,
                       toks: seq<Packed>, o2: array3<real>, BK: nat, BV: nat, orders: seq<seq<DecodePid>>)
    returns (ghost outs: seq<Cube>)
    requires IsExp(expo) && ValidBatch(b) && m > 0 && Tiled(z) && FullSchedules(b, 4 * m, z, s)
    requires GatesSummed(b, 4 * m)
    requires A != Ai && Ai != w && Ai != u && w != u && o != vNew
    requires Holds(b, A, 4 * m) && Holds(b, Ai, 4 * m) && Holds(b, o, b.V)
    requires StateBuffers(b, 4 * m, w, u, hs, vNew, h0, ht)
    requires forall n: nat, c: nat, h: nat :: IsChunk(b, 4 * m, n, c) && h < b.H ==>
      UpperClear(b, m, Cells(Ai), n, c, h)
    requires IsSqrt(mt.sqrt) && |orders| == |toks| && o2 != o
    requires forall i :: 0 <= i < |toks| ==> LaunchReady(toks[i], o2, ht, BK, BV, orders[i])
    modifies A, Ai, w, u, hs, vNew, ht, o, o2
    ensures |outs| == |toks| && AllValid(toks)
    ensures forall n: nat, h: nat, j: nat :: n < Sequences(b) && h < b.H && j < b.V ==>
      RowResumed(expo, Unbroken(expo, mt, b, toks, n, h), scale, StateRow(old(Cells4(h0)), n, h, j), b, Cells(o), n,
                 toks, outs, Cells4(ht), n, h, j)
  {
    SizesMatch(b, m, w, u, hs, vNew, h0, ht, toks, o2, BK, BV, orders);
    hide RowRefined, RowResumed, SlotDecoded, HeadOf, Fed, Extends, IsSqrt, IsExp, FullSchedules, GatesSummed, IsChunk,
      UpperClear, LaunchReady, AllValid, Unbroken, StateRow, SameRow, Agree, Turns, At, E, E3, E4;
    ghost var was := Cells4(h0);
    Run(expo, b, scale, m, z, s, A, Ai, w, u, hs, vNew, h0, ht, o);
    ghost var snaps, vn, ends, first := Cells4(hs), Cells(vNew), Cells4(ht), Cells(o);
    outs := DecodeTokens(expo, mt, toks, scale, o2, ht, BK, BV, orders);
    ghost var now := Cells4(ht);
    forall n: nat, h: nat, j: nat | n < Sequences(b) && h < b.H && j < b.V
      ensures RowResumed(expo, Unbroken(expo, mt, b, toks, n, h), scale, StateRow(was, n, h, j), b, first, n, toks,
                         outs, now, n, h, j)
    {
      InPlace(expo, mt, scale, h, j, b, 4 * m, was, snaps, vn, ends, first, n, toks, outs, now);
    }
  }

  /** The prefill and the decode launches agree on the sizes of the states they share. */
  lemma SizesMatch(b: Batch, m: nat, w: array3<real>, u: array3<real>, hs: array4<real>, vNew: array3<real>,
                   h0: array4<real>, ht: array4<real>, toks: seq<Packed>, o2: array3<real>, BK: nat, BV: nat,
                   orders: seq<seq<DecodePid>>)
    requires ValidBatch(b) && m > 0 && StateBuffers(b, 4 * m, w, u, hs, vNew, h0, ht) && |orders| == |toks|
    requires forall i :: 0 <= i < |toks| ==> LaunchReady(toks[i], o2, ht, BK, BV, orders[i])
    ensures forall i :: 0 <= i < |toks| ==> toks[i].K == b.K && toks[i].V == b.V
  {
  }

  lemma RowItself(K: nat, x: States, n: nat, h: nat, j: nat)
    ensures SameRow(K, x, n, x, n, h, j)
  {
  }
}
