/**
 The folding condition is exact: if a recipe violates it anywhere, there is a backend on which the composite
 walker of src/vt/ops.cpp leaves some buffer different from the step-by-step execution. The backend is a
 recorder: every op appends to each buffer it writes what it was and how far its operands had got.
 */
module FoldingExact {
  import opened Options
  import opened FusedRecipe
  import opened FusedChain

  datatype Event = Event(call: Call, clock: seq<nat>)
  type Log = seq<Event>

  function Clock(c: Call, m: seq<Log>): (r: seq<nat>)
    ensures |r| == |m| && forall i :: 0 <= i < |m| ==> r[i] == if i in Touches(c) then |m[i]| else 0
  {
    seq(|m|, i requires 0 <= i < |m| => if i in Touches(c) then |m[i]| else 0)
  }

  function Note(c: Call, m: seq<Log>, i: nat): Log {
    if i < |m| then m[i] + [Event(c, Clock(c, m))] else []
  }

  /** A norm with a residual that the contract resolves into an add and a norm. */
  predicate Splits(c: Call) {
    c.RmsNorm? && c.residual.Some? && c.w.buf != c.residual.value.buf
  }

  function AddHalf(c: Call): Call
    requires Splits(c)
  {
    Add(c.x, c.residual.value)
  }

  function NormHalf(c: Call): Call
    requires Splits(c)
  {
    RmsNorm(c.out, c.residual.value, c.w, c.eps, c.gemma, None)
  }

  function Record(c: Call, m: seq<Log>, i: nat): Log {
    if !Splits(c) then Note(c, m, i)
    else
      var n := Run(Note, NormHalf(c), Run(Note, AddHalf(c), m));
      if i < |n| then n[i] else []
  }

  lemma RunSplit(c: Call, m: seq<Log>)
    requires Splits(c)
    ensures Run(Record, c, m) == Run(Record, NormHalf(c), Run(Record, AddHalf(c), m))
  {
    assert Run(Record, AddHalf(c), m) == Run(Note, AddHalf(c), m);
    var n := Run(Note, AddHalf(c), m);
    assert Run(Record, NormHalf(c), n) == Run(Note, NormHalf(c), n);
  }

  lemma NoteLocal(c: Call, m: seq<Log>, m': seq<Log>, i: nat)
    requires Agree(m, m', Touches(c)) && i in Writes(c)
    ensures Note(c, m, i) == Note(c, m', i)
  {
    assert Clock(c, m) == Clock(c, m');
  }

  lemma RecordLocal(c: Call, m: seq<Log>, m': seq<Log>, i: nat)
    requires Agree(m, m', Touches(c)) && i in Writes(c) && i < |m|
    ensures Record(c, m, i) == Record(c, m', i)
  {
    hide Note;
    if Splits(c) {
      var a, n := AddHalf(c), NormHalf(c);
      var ma, ma' := Run(Note, a, m), Run(Note, a, m');
      forall j: nat | j in Writes(a) ensures Note(a, m, j) == Note(a, m', j) { NoteLocal(a, m, m', j); }
      assert Agree(ma, ma', Touches(c));
      if i in Writes(n) { NoteLocal(n, ma, ma', i); }
    } else {
      NoteLocal(c, m, m', i);
    }
  }

  lemma RecorderIsABackend()
    ensures Local(Record) && ResidualContract(Record)
  {
    hide Record, Run;
    forall c, m: seq<Log>, m': seq<Log>, i: nat | Agree(m, m', Touches(c)) && i in Writes(c) && i < |m|
      ensures Record(c, m, i) == Record(c, m', i)
    {
      RecordLocal(c, m, m', i);
    }
    forall out: Ref, x: Ref, w: Ref, eps: nat, gemma: bool, res: Ref, m: seq<Log> | w.buf != res.buf
      ensures Run(Record, RmsNorm(out, x, w, eps, gemma, Some(res)), m)
           == Run(Record, RmsNorm(out, res, w, eps, gemma, None), Run(Record, Add(x, res), m))
    {
      RunSplit(RmsNorm(out, x, w, eps, gemma, Some(res)), m);
    }
  }

  // ----- logs only grow -----

  function Bit(p: bool): nat { if p then 1 else 0 }

  /** How many events the call adds to buffer i. */
  function Adds(c: Call, i: nat): nat {
    if Splits(c) then Bit(i == c.residual.value.buf) + Bit(i == c.out.buf) else Bit(i in Writes(c))
  }

  lemma RunUnsplit(c: Call, m: seq<Log>, i: nat)
    requires !Splits(c) && i < |m|
    ensures Run(Record, c, m)[i] == if i in Writes(c) then m[i] + [Event(c, Clock(c, m))] else m[i]
  {
  }

  lemma Grow(c: Call, m: seq<Log>, i: nat)
    requires i < |m|
    ensures m[i] <= Run(Record, c, m)[i] && |Run(Record, c, m)[i]| == |m[i]| + Adds(c, i)
  {
    hide Run, Record;
    if Splits(c) {
      var a, n := AddHalf(c), NormHalf(c);
      RunSplit(c, m);
      RunUnsplit(a, m, i);
      RunUnsplit(n, Run(Record, a, m), i);
    } else {
      RunUnsplit(c, m, i);
    }
  }

  ghost function Stepwise(r: Recipe, b: Binding, p: Params, m: seq<Log>, s: nat): (n: seq<Log>)
    requires WellFormed(r) && BindingOk(b) && Meaningful(r, b, p) && s <= |r.steps|
    ensures |n| == |m|
  {
    RunAll(Record, PlainCalls(r, b, p, s), m)
  }

  ghost function Walked(r: Recipe, b: Binding, p: Params, m: seq<Log>, s: nat): (n: seq<Log>)
    requires WellFormed(r) && BindingOk(b) && WalksTo(r, b, p, |r.steps|) && s <= |r.steps|
    ensures |n| == |m|
  {
    RunAll(Record, WalkCalls(r, b, p, s), m)
  }

  lemma StepwiseNext(r: Recipe, b: Binding, p: Params, m: seq<Log>, s: nat)
    requires WellFormed(r) && BindingOk(b) && Meaningful(r, b, p) && s < |r.steps|
    ensures Stepwise(r, b, p, m, s + 1) == Run(Record, PlainCall(r, b, p, s).value, Stepwise(r, b, p, m, s))
  {
    hide Record, PlainCall;
    RunAllSnoc(Record, PlainCalls(r, b, p, s), PlainCall(r, b, p, s).value, m);
  }

  lemma WalkedNext(r: Recipe, b: Binding, p: Params, m: seq<Log>, s: nat)
    requires WellFormed(r) && BindingOk(b) && WalksTo(r, b, p, |r.steps|) && s < |r.steps|
    ensures var cs, n := WalkCall(r, b, p, s).value, Walked(r, b, p, m, s);
            Walked(r, b, p, m, s + 1) == if cs == [] then n else Run(Record, cs[0], n)
  {
    hide Record, WalkCall, WalkCalls;
    NextCalls(r, b, p, Record, m, s);
  }

  lemma {:induction false} LogsGrow(r: Recipe, b: Binding, p: Params, m: seq<Log>, s: nat, t: nat, i: nat)
    requires WellFormed(r) && BindingOk(b) && Meaningful(r, b, p) && WalksTo(r, b, p, |r.steps|)
    requires s <= t <= |r.steps| && i < |m|
    ensures Stepwise(r, b, p, m, s)[i] <= Stepwise(r, b, p, m, t)[i]
    ensures Walked(r, b, p, m, s)[i] <= Walked(r, b, p, m, t)[i]
    decreases t
  {
    hide Stepwise, Walked, Run, Record, PlainCall, WalkCall;
    if s < t {
      LogsGrow(r, b, p, m, s, t - 1, i);
      StepwiseNext(r, b, p, m, t - 1);
      WalkedNext(r, b, p, m, t - 1);
      Grow(PlainCall(r, b, p, t - 1).value, Stepwise(r, b, p, m, t - 1), i);
      var cs := WalkCall(r, b, p, t - 1).value;
      if cs != [] { Grow(cs[0], Walked(r, b, p, m, t - 1), i); }
    }
  }

  /** Two runs' logs of buffer i differ at a position both have reached. */
  ghost predicate Apart(x: seq<Log>, y: seq<Log>, i: nat, e: nat) {
    i < |x| && i < |y| && e < |x[i]| && e < |y[i]| && x[i][e] != y[i][e]
  }

  /** Then they differ for good. */
  lemma StaysApart(r: Recipe, b: Binding, p: Params, m: seq<Log>, s: nat, i: nat, e: nat)
    requires WellFormed(r) && BindingOk(b) && Meaningful(r, b, p) && WalksTo(r, b, p, |r.steps|)
    requires s <= |r.steps| && Apart(Stepwise(r, b, p, m, s), Walked(r, b, p, m, s), i, e)
    ensures Stepwise(r, b, p, m, |r.steps|) != Walked(r, b, p, m, |r.steps|)
  {
    hide Stepwise, Walked;
    LogsGrow(r, b, p, m, s, |r.steps|, i);
  }

  // ----- a dropped add is missed for ever -----

  /** Is an add to buffer i waiting? */
  ghost function Owed(r: Recipe, b: Binding, s: nat, i: nat): nat
    requires WellFormed(r) && BindingOk(b) && s <= |r.steps|
  {
    var w := Waiting(r, s);
    Bit(w.Some? && AddCall(r, b, w.value).Some? && AddCall(r, b, w.value).value.res.buf == i)
  }

  ghost function Deficit(r: Recipe, b: Binding, p: Params, m: seq<Log>, s: nat, i: nat): int
    requires WellFormed(r) && BindingOk(b) && Meaningful(r, b, p) && WalksTo(r, b, p, |r.steps|)
    requires s <= |r.steps| && i < |m|
  {
    |Stepwise(r, b, p, m, s)[i]| - |Walked(r, b, p, m, s)[i]| - Owed(r, b, s, i)
  }

  /** The walk never gains on the step-by-step run, and loses one event when a second add replaces a waiting one. */
  lemma DeficitStep(r: Recipe, b: Binding, p: Params, m: seq<Log>, s: nat, i: nat)
    requires WellFormed(r) && BindingOk(b) && Meaningful(r, b, p) && WalksTo(r, b, p, |r.steps|)
    requires s < |r.steps| && i < |m|
    ensures Deficit(r, b, p, m, s + 1, i)
         >= Deficit(r, b, p, m, s, i) + if r.steps[s].op == AddOp then Owed(r, b, s, i) else 0
  {
    hide Stepwise, Walked, Run, Record, DirectCall;
    StepwiseNext(r, b, p, m, s);
    WalkedNext(r, b, p, m, s);
    Grow(PlainCall(r, b, p, s).value, Stepwise(r, b, p, m, s), i);
    var cs := WalkCall(r, b, p, s).value;
    if cs != [] { Grow(cs[0], Walked(r, b, p, m, s), i); }
  }

  lemma {:induction false} DeficitGrows(r: Recipe, b: Binding, p: Params, m: seq<Log>, s: nat, t: nat, i: nat)
    requires WellFormed(r) && BindingOk(b) && Meaningful(r, b, p) && WalksTo(r, b, p, |r.steps|)
    requires s <= t <= |r.steps| && i < |m|
    ensures Deficit(r, b, p, m, t, i) >= Deficit(r, b, p, m, s, i)
    decreases t
  {
    hide Deficit;
    if s < t {
      DeficitGrows(r, b, p, m, s, t - 1, i);
      DeficitStep(r, b, p, m, t - 1, i);
    }
  }

  lemma NoDeficit(r: Recipe, b: Binding, p: Params, m: seq<Log>, i: nat)
    requires WellFormed(r) && BindingOk(b) && Meaningful(r, b, p) && WalksTo(r, b, p, |r.steps|) && i < |m|
    ensures Deficit(r, b, p, m, 0, i) == 0
  {
    hide DirectCall, WalkCall, PlainCall;
  }

  lemma DroppedAdd(r: Recipe, b: Binding, p: Params, m: seq<Log>, s: nat)
    requires WellFormed(r) && BindingOk(b) && Meaningful(r, b, p) && Executable(r, b, p) && Fits(b, |m|)
    requires s < |r.steps| && r.steps[s].op == AddOp && Waiting(r, s).Some?
    ensures Stepwise(r, b, p, m, |r.steps|) != Walked(r, b, p, m, |r.steps|)
  {
    hide Stepwise, Walked, DirectCall, WalkCall;
    var j := Waiting(r, s).value;
    assert PlainCall(r, b, p, j).Some?;
    var i := AddCall(r, b, j).value.res.buf;
    assert Owed(r, b, s, i) == 1;
    DeficitGrows(r, b, p, m, 0, s, i);
    NoDeficit(r, b, p, m, i);
    DeficitStep(r, b, p, m, s, i);
    DeficitGrows(r, b, p, m, s + 1, |r.steps|, i);
  }

  // ----- the other violations -----

  /** Every bound tensor lies in the memory. */
  ghost predicate Fits(b: Binding, size: nat)
    requires BindingOk(b)
  {
    forall i :: 0 <= i < |b.op| && b.op[i].Some? ==> b.op[i].value.buf < size
  }

  lemma DirectFits(r: Recipe, b: Binding, p: Params, s: nat, size: nat)
    requires WellFormed(r) && BindingOk(b) && s < |r.steps| && Fits(b, size) && DirectCall(r, b, p, s).Some?
    ensures var c := DirectCall(r, b, p, s).value;
            !c.Add? && !c.RmsNorm? && Writes(c) != {} && forall i :: i in Touches(c) ==> i < size
  {
    DirectKind(r, b, p, s);
    DirectInside(r, b, p, s, size);
    TargetWritten(DirectCall(r, b, p, s).value);
    hide DirectCall, Writes, Reads, Touches;
  }

  lemma DirectKind(r: Recipe, b: Binding, p: Params, s: nat)
    requires WellFormed(r) && BindingOk(b) && s < |r.steps| && DirectCall(r, b, p, s).Some?
    ensures var c := DirectCall(r, b, p, s).value; !c.Add? && !c.RmsNorm?
  {
  }

  lemma TargetWritten(c: Call)
    ensures Target(c) in Writes(c)
  {
  }

  lemma DirectInside(r: Recipe, b: Binding, p: Params, s: nat, size: nat)
    requires WellFormed(r) && BindingOk(b) && s < |r.steps| && Fits(b, size) && DirectCall(r, b, p, s).Some?
    ensures forall i :: i in Touches(DirectCall(r, b, p, s).value) ==> i < size
  {
    ReadsInside(r, b, p, s, size);
    WritesInside(r, b, p, s, size);
    hide DirectCall, Reads, Writes;
  }

  lemma ReadsInside(r: Recipe, b: Binding, p: Params, s: nat, size: nat)
    requires WellFormed(r) && BindingOk(b) && s < |r.steps| && Fits(b, size) && DirectCall(r, b, p, s).Some?
    ensures forall i :: i in Reads(DirectCall(r, b, p, s).value) ==> i < size
  {
    hide Writes;
  }

  lemma WritesInside(r: Recipe, b: Binding, p: Params, s: nat, size: nat)
    requires WellFormed(r) && BindingOk(b) && s < |r.steps| && Fits(b, size) && DirectCall(r, b, p, s).Some?
    ensures forall i :: i in Writes(DirectCall(r, b, p, s).value) ==> i < size
  {
    hide Reads;
  }

  /** One buffer the call writes. */
  function Target(c: Call): nat {
    match c
    case Add(_, res) => res.buf
    case Rope(q, _, _, _, _) => q.buf
    case QuantFp4(packed, _, _, _, _) => packed.buf
    case SiluMulFp4Quant(packed, _, _, _, _, _) => packed.buf
    case SigmoidGateFp4Quant(packed, _, _, _, _, _) => packed.buf
    case Attn(qOut, _, _, _, _, _, _, _, _, _, _) => qOut.buf
    case _ => c.out.buf
  }

  /** A norm that does not read the residual it was folded with, or whose weight lies in it. */
  lemma NormApart(y: seq<Log>, add: Call, c: Call, d: Call) returns (i: nat, e: nat)
    requires add.Add? && c.RmsNorm? && c.residual == None
    requires d == RmsNorm(c.out, add.x, c.w, c.eps, c.gemma, Some(add.res)) && c.out.buf < |y|
    requires c.x != add.res || c.w.buf == add.res.buf
    ensures Apart(Run(Record, c, Run(Record, add, y)), Run(Record, d, y), i, e)
  {
    hide Run, Record, Clock;
    var x := Run(Record, add, y);
    i := c.out.buf;
    RunUnsplit(add, y, i);
    RunUnsplit(c, x, i);
    if Splits(d) {
      RunSplit(d, y);
      RunUnsplit(NormHalf(d), x, i);
      e := |x[i]|;
    } else {
      RunUnsplit(d, y, i);
      e := |y[i]|;
    }
  }

  /** A step between the add and its norm that touches the residual. */
  lemma TouchApart(y: seq<Log>, add: Call, c: Call) returns (i: nat, e: nat)
    requires add.Add? && !c.Add? && !c.RmsNorm? && Writes(c) != {} && forall j :: j in Touches(c) ==> j < |y|
    requires add.res.buf in Touches(c)
    ensures Apart(Run(Record, c, Run(Record, add, y)), Run(Record, c, y), i, e)
  {
    var x, res := Run(Record, add, y), add.res.buf;
    assert Writes(add) == {res};
    hide Run, Record, Writes, Reads;
    RunUnsplit(add, y, res);
    if res in Writes(c) {
      i, e := res, |y[res]|;
      RunUnsplit(c, x, res);
      RunUnsplit(c, y, res);
    } else {
      i :| i in Writes(c);
      assert i in Touches(c);
      e := |y[i]|;
      RunUnsplit(add, y, i);
      RunUnsplit(c, x, i);
      RunUnsplit(c, y, i);
      assert Clock(c, x)[res] == |y[res]| + 1 && Clock(c, y)[res] == |y[res]|;
    }
  }

  /** From position e on, every such add in the log of its residual has seen x at least v events long. */
  ghost predicate SeenLater(m: seq<Log>, add: Call, e: nat, v: nat)
    requires add.Add? && add.x.buf < |m| && add.res.buf < |m|
  {
    && |m[add.x.buf]| >= v
    && forall j :: e <= j < |m[add.res.buf]| && m[add.res.buf][j].call == add ==>
         add.x.buf < |m[add.res.buf][j].clock| && m[add.res.buf][j].clock[add.x.buf] >= v
  }

  lemma SeenUnsplit(c: Call, m: seq<Log>, add: Call, e: nat, v: nat)
    requires add.Add? && add.x.buf < |m| && add.res.buf < |m| && SeenLater(m, add, e, v) && !Splits(c)
    ensures SeenLater(Run(Record, c, m), add, e, v)
  {
    hide Run, Record;
    RunUnsplit(c, m, add.x.buf);
    RunUnsplit(c, m, add.res.buf);
    assert c == add ==> Clock(c, m)[add.x.buf] == |m[add.x.buf]|;
  }

  lemma SeenRun(c: Call, m: seq<Log>, add: Call, e: nat, v: nat)
    requires add.Add? && add.x.buf < |m| && add.res.buf < |m| && SeenLater(m, add, e, v)
    ensures SeenLater(Run(Record, c, m), add, e, v)
  {
    hide Run, Record, SeenLater;
    if Splits(c) {
      RunSplit(c, m);
      SeenUnsplit(AddHalf(c), m, add, e, v);
      SeenUnsplit(NormHalf(c), Run(Record, AddHalf(c), m), add, e, v);
    } else {
      SeenUnsplit(c, m, add, e, v);
    }
  }

  lemma {:induction false} SeenWalk(r: Recipe, b: Binding, p: Params, m: seq<Log>, s: nat, t: nat, add: Call, e: nat,
                                    v: nat)
    requires WellFormed(r) && BindingOk(b) && WalksTo(r, b, p, |r.steps|) && s <= t <= |r.steps|
    requires add.Add? && add.x.buf < |m| && add.res.buf < |m| && SeenLater(Walked(r, b, p, m, s), add, e, v)
    ensures SeenLater(Walked(r, b, p, m, t), add, e, v)
    decreases t
  {
    hide Run, Record, SeenLater, Walked, WalkCall;
    if s < t {
      SeenWalk(r, b, p, m, s, t - 1, add, e, v);
      WalkedNext(r, b, p, m, t - 1);
      var cs := WalkCall(r, b, p, t - 1).value;
      if cs != [] { SeenRun(cs[0], Walked(r, b, p, m, t - 1), add, e, v); }
    }
  }

  /** A step between the add and its norm that overwrites x: afterwards the add cannot see the old x. */
  lemma OverwriteSeen(y: seq<Log>, add: Call, c: Call)
    requires add.Add? && add.res.buf < |y| && add.x.buf < |y| && !Splits(c)
    requires add.res.buf !in Touches(c) && add.x.buf in Writes(c)
    ensures SeenLater(Run(Record, c, y), add, |y[add.res.buf]|, |y[add.x.buf]| + 1)
    ensures Run(Record, add, y)[add.res.buf] == y[add.res.buf] + [Event(add, Clock(add, y))]
    ensures Clock(add, y)[add.x.buf] == |y[add.x.buf]|
  {
    hide Run, Record;
    RunUnsplit(add, y, add.res.buf);
    RunUnsplit(c, y, add.res.buf);
    RunUnsplit(c, y, add.x.buf);
  }

  lemma OverwrittenX(r: Recipe, b: Binding, p: Params, m: seq<Log>, s: nat, add: Call, c: Call)
    requires WellFormed(r) && BindingOk(b) && Meaningful(r, b, p) && WalksTo(r, b, p, |r.steps|) && s < |r.steps|
    requires add.Add? && add.res.buf < |m| && add.x.buf < |m| && !Splits(c)
    requires add.res.buf !in Touches(c) && add.x.buf in Writes(c)
    requires Stepwise(r, b, p, m, s) == Run(Record, add, Walked(r, b, p, m, s))
    requires Walked(r, b, p, m, s + 1) == Run(Record, c, Walked(r, b, p, m, s))
    ensures Stepwise(r, b, p, m, |r.steps|) != Walked(r, b, p, m, |r.steps|)
  {
    hide Stepwise, Walked, Run, Record, Writes, Reads, Clock, WalkCall, PlainCall;
    var y, last := Walked(r, b, p, m, s), |r.steps|;
    var x, res := add.x.buf, add.res.buf;
    OverwriteSeen(y, add, c);
    SeenWalk(r, b, p, m, s + 1, last, add, |y[res]|, |y[x]| + 1);
    LogsGrow(r, b, p, m, s, last, res);
    assert Stepwise(r, b, p, m, last)[res][|y[res]|] == Event(add, Clock(add, y));
  }

  // ----- the exact condition -----

  /** On this backend and this memory the composite leaves what the steps one by one leave. */
  ghost predicate Agrees(r: Recipe, b: Binding, p: Params, k: Kernels<Log>, m: seq<Log>)
    requires WellFormed(r) && BindingOk(b) && WalksTo(r, b, p, |r.steps|) && Meaningful(r, b, p)
  {
    RunAll(k, WalkCalls(r, b, p, |r.steps|), m) == RunAll(k, PlainCalls(r, b, p, |r.steps|), m)
  }

  /** Just before the first violation only the waiting add separates the two runs. */
  lemma BeforeViolation(r: Recipe, b: Binding, p: Params, m: seq<Log>, s: nat) returns (add: Call)
    requires WellFormed(r) && BindingOk(b) && WalksTo(r, b, p, |r.steps|) && Meaningful(r, b, p) && Fits(b, |m|)
    requires s < |r.steps| && Waiting(r, s).Some? && FoldableTo(r, b, p, s)
    ensures AddCall(r, b, Waiting(r, s).value) == Some(add) && add.x.buf < |m| && add.res.buf < |m|
    ensures Stepwise(r, b, p, m, s) == Run(Record, add, Walked(r, b, p, m, s))
  {
    hide DirectCall, WalkCall, Run, RunAll, Record, Writes, Reads, Local, ResidualContract, StepFoldable;
    RecorderIsABackend();
    FoldInvariant(r, b, p, Record, m, s);
    var j := Waiting(r, s).value;
    assert PlainCall(r, b, p, j).Some?;
    add := AddCall(r, b, j).value;
  }

  lemma WrongNorm(r: Recipe, b: Binding, p: Params, m: seq<Log>, s: nat)
    requires WellFormed(r) && BindingOk(b) && WalksTo(r, b, p, |r.steps|) && Meaningful(r, b, p) && Fits(b, |m|)
    requires s < |r.steps| && r.steps[s].op == RmsNormOp && !StepFoldable(r, b, p, s) && FoldableTo(r, b, p, s)
    ensures Stepwise(r, b, p, m, |r.steps|) != Walked(r, b, p, m, |r.steps|)
  {
    hide Stepwise, Walked, DirectCall, Run, Record, Writes, Reads, FoldableTo;
    var add := BeforeViolation(r, b, p, m, s);
    StepwiseNext(r, b, p, m, s);
    WalkedNext(r, b, p, m, s);
    var i, e := NormApart(Walked(r, b, p, m, s), add, PlainCall(r, b, p, s).value, WalkCall(r, b, p, s).value[0]);
    StaysApart(r, b, p, m, s + 1, i, e);
  }

  lemma WrongStep(r: Recipe, b: Binding, p: Params, m: seq<Log>, s: nat)
    requires WellFormed(r) && BindingOk(b) && WalksTo(r, b, p, |r.steps|) && Meaningful(r, b, p) && Fits(b, |m|)
    requires s < |r.steps| && r.steps[s].op != AddOp && r.steps[s].op != RmsNormOp
    requires !StepFoldable(r, b, p, s) && FoldableTo(r, b, p, s)
    ensures Stepwise(r, b, p, m, |r.steps|) != Walked(r, b, p, m, |r.steps|)
  {
    hide Stepwise, Walked, DirectCall, Run, Record, Writes, Reads, FoldableTo;
    var add := BeforeViolation(r, b, p, m, s);
    assert PlainCall(r, b, p, s).Some?;
    var c := DirectCall(r, b, p, s).value;
    DirectFits(r, b, p, s, |m|);
    StepwiseNext(r, b, p, m, s);
    WalkedNext(r, b, p, m, s);
    if add.res.buf in Touches(c) {
      var i, e := TouchApart(Walked(r, b, p, m, s), add, c);
      StaysApart(r, b, p, m, s + 1, i, e);
    } else {
      OverwrittenX(r, b, p, m, s, add, c);
    }
  }

  lemma ViolationShows(r: Recipe, b: Binding, p: Params, m: seq<Log>, s: nat)
    requires WellFormed(r) && BindingOk(b) && Executable(r, b, p) && Meaningful(r, b, p) && Fits(b, |m|)
    requires s < |r.steps| && !StepFoldable(r, b, p, s) && FoldableTo(r, b, p, s)
    ensures Stepwise(r, b, p, m, |r.steps|) != Walked(r, b, p, m, |r.steps|)
  {
    hide Stepwise, Walked, DirectCall, WalkCall, PlainCall, FoldableTo;
    match r.steps[s].op {
      case AddOp => DroppedAdd(r, b, p, m, s);
      case RmsNormOp => WrongNorm(r, b, p, m, s);
      case _ => WrongStep(r, b, p, m, s);
    }
  }

  ghost function FirstViolation(r: Recipe, b: Binding, p: Params, s: nat): (v: nat)
    requires WellFormed(r) && BindingOk(b) && s < |r.steps| && !StepFoldable(r, b, p, s)
    ensures v < |r.steps| && !StepFoldable(r, b, p, v) && FoldableTo(r, b, p, v)
  {
    if j: nat :| j < s && !StepFoldable(r, b, p, j) then FirstViolation(r, b, p, j) else s
  }

  /** The walker keeps the meaning on every backend exactly for the foldable recipes. */
  lemma FoldableIsExact(r: Recipe, b: Binding, p: Params, size: nat)
    requires WellFormed(r) && BindingOk(b) && Executable(r, b, p) && Meaningful(r, b, p) && Fits(b, size)
    ensures Foldable(r, b, p) <==>
      forall k: Kernels<Log>, m: seq<Log> :: |m| == size && Local(k) && ResidualContract(k) ==> Agrees(r, b, p, k, m)
  {
    hide StepFoldable, Local, ResidualContract, DirectCall, PlainCall, WalkCall;
    if Foldable(r, b, p) {
      forall k: Kernels<Log>, m: seq<Log> | |m| == size && Local(k) && ResidualContract(k)
        ensures Agrees(r, b, p, k, m)
      {
        FoldingKeepsMeaning(r, b, p, k, m);
      }
    } else {
      var s: nat :| s < |r.steps| && !StepFoldable(r, b, p, s);
      var v := FirstViolation(r, b, p, s);
      var m: seq<Log> := seq(size, _ => []);
      RecorderIsABackend();
      ViolationShows(r, b, p, m, v);
      assert !Agrees(r, b, p, Record, m);
    }
  }
}
