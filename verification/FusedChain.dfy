/**
 The fused-chain walker of src/vt/ops.cpp: a recipe is executed by dispatching each step to a standalone
 op, except that a residual add waits and is folded into a later norm. The folding keeps the recipe's
 step-by-step meaning exactly when every waiting add meets the condition `Foldable`.
 */
module FusedChain {
  import opened Options
  import opened FusedRecipe

  datatype Outcome = Done | BadSizes | Failed(step: nat) | NoFastCase | BadOperand

  // ----- step-by-step meaning -----

  /** A step other than an add or a norm is one standalone call in either reading. None is a failed check. */
  function DirectCall(r: Recipe, b: Binding, p: Params, s: nat): (c: Option<Call>)
    requires WellFormed(r) && BindingOk(b) && s < |r.steps|
  {
    var st := r.steps[s];
    var out, i0, i1, i2 := Fetch(b, st.out), Fetch(b, st.ins[0]), Fetch(b, st.ins[1]), Fetch(b, st.ins[2]);
    match st.op
    case RmsNormGatedOp =>
      if out.Some? && i0.Some? && i1.Some? && i2.Some?
      then Some(RmsNormGated(out.value, i0.value, i1.value, i2.value, p.eps, st.sigmoidGate)) else None
    case SiluMulOp =>
      if out.Some? && i0.Some? && i1.Some? then Some(SiluMul(out.value, i0.value, i1.value)) else None
    case SigmoidGateOp =>
      if out.Some? && i0.Some? && i1.Some? then Some(SigmoidGate(out.value, i0.value, i1.value)) else None
    case RopeOp =>
      if out.Some? && i1.Some? && i2.Some?
      then Some(Rope(out.value, if st.out2.Some? then b.op[st.out2.value] else None, i2.value, i1.value, p.rope))
      else None
    case QuantFp8Op =>
      if out.Some? && i0.Some? then Some(QuantFp8(out.value, i0.value, p.quantScale)) else None
    case QuantFp4Op =>
      if out.Some? && st.out2.Some? && Fetch(b, st.out2.value).Some? && i0.Some?
      then Some(QuantFp4(out.value, Fetch(b, st.out2.value).value, i0.value, p.quantScale, p.fp4Layout)) else None
    case AttnOp =>
      if |r.operands| == 8 && b.n == 8 then AttnCall(b, st.gemma, p) else None
    case _ => None
  }

  function AttnCall(b: Binding, gemma: bool, p: Params): Option<Call>
    requires BindingOk(b)
  {
    var a := b.op;
    if a[0].Some? && a[1].Some? && a[2].Some? && a[3].Some? && a[4].Some? && a[5].Some? && a[6].Some? && a[7].Some?
    then Some(Attn(a[5].value, a[6].value, a[7].value, a[0].value, a[1].value, a[2].value, a[3].value, a[4].value,
                   p.eps, gemma, p.rope))
    else None
  }

  /** The residual add a kAdd step declares. */
  function AddCall(r: Recipe, b: Binding, s: nat): (c: Option<Call>)
    requires WellFormed(r) && BindingOk(b) && s < |r.steps|
    ensures c.Some? ==> c.value.Add?
  {
    var st := r.steps[s];
    var x, res := Fetch(b, st.ins[0]), Fetch(b, st.out);
    if st.nin == 2 && st.out == st.ins[1] && x.Some? && res.Some? then Some(Add(x.value, res.value)) else None
  }

  /** What the step means by itself, as the opcode table of the recipe header says. */
  function PlainCall(r: Recipe, b: Binding, p: Params, s: nat): (c: Option<Call>)
    requires WellFormed(r) && BindingOk(b) && s < |r.steps|
  {
    var st := r.steps[s];
    match st.op
    case AddOp => AddCall(r, b, s)
    case RmsNormOp =>
      var out, a, w := Fetch(b, st.out), Fetch(b, st.ins[0]), Fetch(b, st.ins[1]);
      if out.Some? && a.Some? && w.Some? then Some(RmsNorm(out.value, a.value, w.value, p.eps, st.gemma, None))
      else None
    case _ => DirectCall(r, b, p, s)
  }

  ghost predicate Meaningful(r: Recipe, b: Binding, p: Params)
    requires WellFormed(r) && BindingOk(b)
  {
    forall s: nat :: s < |r.steps| ==> PlainCall(r, b, p, s).Some?
  }

  ghost function PlainCalls(r: Recipe, b: Binding, p: Params, s: nat): (cs: seq<Call>)
    requires WellFormed(r) && BindingOk(b) && Meaningful(r, b, p) && s <= |r.steps|
    ensures |cs| == s
  {
    if s == 0 then [] else PlainCalls(r, b, p, s - 1) + [PlainCall(r, b, p, s - 1).value]
  }

  // ----- the composite walk -----

  /** The add still waiting when step s is reached. */
  function Waiting(r: Recipe, s: nat): (i: Option<nat>)
    requires s <= |r.steps|
    ensures i.Some? ==> i.value < s && r.steps[i.value].op == AddOp
  {
    if s == 0 then None
    else match r.steps[s - 1].op
      case AddOp => Some(s - 1)
      case RmsNormOp => None
      case _ => Waiting(r, s - 1)
  }

  /** The calls step s issues in the walk: an add none, a norm one that carries the waiting add. */
  function WalkCall(r: Recipe, b: Binding, p: Params, s: nat): (c: Option<seq<Call>>)
    requires WellFormed(r) && BindingOk(b) && s < |r.steps|
    ensures c.Some? ==> |c.value| <= 1
  {
    var st := r.steps[s];
    match st.op
    case AddOp => if AddCall(r, b, s).Some? then Some([]) else None
    case RmsNormOp =>
      var out, w, i := Fetch(b, st.out), Fetch(b, st.ins[1]), Waiting(r, s);
      if out.None? || w.None? then None
      else if i.Some? then
        var add := AddCall(r, b, i.value);
        if add.Some? then Some([RmsNorm(out.value, add.value.x, w.value, p.eps, st.gemma, Some(add.value.res))])
        else None
      else
        var a := Fetch(b, st.ins[0]);
        if a.Some? then Some([RmsNorm(out.value, a.value, w.value, p.eps, st.gemma, None)]) else None
    case _ =>
      var c := DirectCall(r, b, p, s);
      if c.Some? then Some([c.value]) else None
  }

  /** Every check of the first s steps passes. */
  ghost predicate WalksTo(r: Recipe, b: Binding, p: Params, s: nat)
    requires WellFormed(r) && BindingOk(b) && s <= |r.steps|
  {
    forall j: nat :: j < s ==> WalkCall(r, b, p, j).Some?
  }

  /** The walk finishes: all checks pass and no add is left waiting. */
  ghost predicate Executable(r: Recipe, b: Binding, p: Params)
    requires WellFormed(r) && BindingOk(b)
  {
    WalksTo(r, b, p, |r.steps|) && Waiting(r, |r.steps|) == None
  }

  ghost function WalkCalls(r: Recipe, b: Binding, p: Params, s: nat): (cs: seq<Call>)
    requires WellFormed(r) && BindingOk(b) && s <= |r.steps| && WalksTo(r, b, p, s)
  {
    if s == 0 then [] else WalkCalls(r, b, p, s - 1) + WalkCall(r, b, p, s - 1).value
  }

  // ----- when folding is sound -----

  /**
   While an add waits: no second add, every other step leaves the residual alone and does not write x, and
   the norm that takes the add reads exactly the residual, with a weight in another buffer.
   */
  predicate StepFoldable(r: Recipe, b: Binding, p: Params, s: nat)
    requires WellFormed(r) && BindingOk(b) && s < |r.steps|
  {
    var i := Waiting(r, s);
    i.None? ||
    var add := AddCall(r, b, i.value);
    add.Some? &&
    match r.steps[s].op
    case AddOp => false
    case RmsNormOp =>
      && Fetch(b, r.steps[s].ins[0]) == Some(add.value.res)
      && (Fetch(b, r.steps[s].ins[1]).Some? ==> Fetch(b, r.steps[s].ins[1]).value.buf != add.value.res.buf)
    case _ =>
      var c := DirectCall(r, b, p, s);
      c.Some? ==> add.value.res.buf !in Touches(c.value) && add.value.x.buf !in Writes(c.value)
  }

  ghost predicate Foldable(r: Recipe, b: Binding, p: Params)
    requires WellFormed(r) && BindingOk(b)
  {
    forall s: nat :: s < |r.steps| ==> StepFoldable(r, b, p, s)
  }

  ghost predicate FoldableTo(r: Recipe, b: Binding, p: Params, s: nat)
    requires WellFormed(r) && BindingOk(b) && s <= |r.steps|
  {
    forall j: nat :: j < s ==> StepFoldable(r, b, p, j)
  }

  /** The step-by-step memory is the walk's memory with the waiting add, if any, still to be applied. */
  ghost predicate FoldedAt<B>(r: Recipe, b: Binding, p: Params, k: Kernels<B>, m: seq<B>, s: nat)
    requires WellFormed(r) && BindingOk(b) && s <= |r.steps| && WalksTo(r, b, p, s) && Meaningful(r, b, p)
  {
    var walked := RunAll(k, WalkCalls(r, b, p, s), m);
    RunAll(k, PlainCalls(r, b, p, s), m)
      == match Waiting(r, s) case None => walked case Some(i) => Run(k, PlainCall(r, b, p, i).value, walked)
  }

  lemma FoldStep<B(!new)>(r: Recipe, b: Binding, p: Params, k: Kernels<B>, m: seq<B>, s: nat)
    requires WellFormed(r) && BindingOk(b) && s < |r.steps| && WalksTo(r, b, p, s + 1) && Meaningful(r, b, p)
    requires Local(k) && ResidualContract(k)
    requires FoldedAt(r, b, p, k, m, s) && StepFoldable(r, b, p, s)
    ensures FoldedAt(r, b, p, k, m, s + 1)
  {
    hide Run, RunAll, Local, ResidualContract, DirectCall, Writes, Reads;
    var plain, walk := PlainCalls(r, b, p, s), WalkCalls(r, b, p, s);
    var c := PlainCall(r, b, p, s).value;
    var walked := RunAll(k, walk, m);
    RunAllSnoc(k, plain, c, m);
    var i := Waiting(r, s);
    match r.steps[s].op {
      case AddOp =>
        assert walk + [] == walk;
      case RmsNormOp =>
        var d := WalkCall(r, b, p, s).value[0];
        assert WalkCall(r, b, p, s).value == [d];
        RunAllSnoc(k, walk, d, m);
        if i.Some? {
          var add := AddCall(r, b, i.value).value;
          NormTakesAdd(k, d, add, walked);
        }
      case _ =>
        assert WalkCall(r, b, p, s).value == [c];
        RunAllSnoc(k, walk, c, m);
        if i.Some? {
          var add := AddCall(r, b, i.value).value;
          AddCommutes(k, add.x, add.res, c, walked);
        }
    }
  }

  lemma NormTakesAdd<B(!new)>(k: Kernels<B>, d: Call, add: Call, m: seq<B>)
    requires ResidualContract(k) && add.Add? && d.RmsNorm? && d.x == add.x && d.residual == Some(add.res)
    requires d.w.buf != add.res.buf
    ensures Run(k, d, m) == Run(k, RmsNorm(d.out, add.res, d.w, d.eps, d.gemma, None), Run(k, add, m))
  {
  }

  lemma {:induction false} FoldInvariant<B(!new)>(r: Recipe, b: Binding, p: Params, k: Kernels<B>, m: seq<B>, s: nat)
    requires WellFormed(r) && BindingOk(b) && s <= |r.steps| && WalksTo(r, b, p, s) && Meaningful(r, b, p)
    requires Local(k) && ResidualContract(k) && FoldableTo(r, b, p, s)
    ensures FoldedAt(r, b, p, k, m, s)
  {
    hide Run, Local, ResidualContract, StepFoldable;
    if s > 0 {
      FoldInvariant(r, b, p, k, m, s - 1);
      FoldStep(r, b, p, k, m, s - 1);
    }
  }

  /** Folding keeps the meaning: every buffer ends as the step-by-step execution leaves it. */
  lemma FoldingKeepsMeaning<B(!new)>(r: Recipe, b: Binding, p: Params, k: Kernels<B>, m: seq<B>)
    requires WellFormed(r) && BindingOk(b) && Executable(r, b, p) && Foldable(r, b, p)
    requires Local(k) && ResidualContract(k)
    ensures Meaningful(r, b, p)
    ensures RunAll(k, WalkCalls(r, b, p, |r.steps|), m) == RunAll(k, PlainCalls(r, b, p, |r.steps|), m)
  {
    hide DirectCall, Local, ResidualContract;
    forall s: nat | s < |r.steps| ensures PlainCall(r, b, p, s).Some? {
      assert StepFoldable(r, b, p, s) && WalkCall(r, b, p, s).Some?;
    }
    FoldInvariant(r, b, p, k, m, |r.steps|);
  }

  // ----- the walker -----

  /** Device memory and the ops a backend provides at its current parameters. */
  class Device<B(!new)> {
    const kernels: Kernels<B>
    var mem: seq<B>

    constructor (kernels: Kernels<B>, mem: seq<B>)
      ensures this.kernels == kernels && this.mem == mem
    {
      this.kernels, this.mem := kernels, mem;
    }

    method Launch(c: Call)
      modifies this
      ensures mem == Run(kernels, c, old(mem))
    {
      mem := Run(kernels, c, mem);
    }
  }

  /** The walk has failed at step s: the calls before it have been issued and nothing after. */
  ghost predicate StoppedAt<B(!new)>(d: Device<B>, was: seq<B>, r: Recipe, b: Binding, p: Params, s: nat)
    requires WellFormed(r) && BindingOk(b)
    reads d
  {
    && s <= |r.steps| && WalksTo(r, b, p, s)
    && (if s < |r.steps| then WalkCall(r, b, p, s).None? else Waiting(r, s).Some?)
    && d.mem == RunAll(d.kernels, WalkCalls(r, b, p, s), was)
  }

  lemma NoCalls<B>(r: Recipe, b: Binding, p: Params, k: Kernels<B>, m: seq<B>)
    requires WellFormed(r) && BindingOk(b)
    ensures RunAll(k, WalkCalls(r, b, p, 0), m) == m
  {
  }

  lemma NextCalls<B>(r: Recipe, b: Binding, p: Params, k: Kernels<B>, m: seq<B>, s: nat)
    requires WellFormed(r) && BindingOk(b) && s < |r.steps| && WalksTo(r, b, p, s) && WalkCall(r, b, p, s).Some?
    ensures WalksTo(r, b, p, s + 1)
    ensures var cs, before := WalkCall(r, b, p, s).value, RunAll(k, WalkCalls(r, b, p, s), m);
            RunAll(k, WalkCalls(r, b, p, s + 1), m) == if cs == [] then before else Run(k, cs[0], before)
  {
    hide Run, RunAll, WalkCall;
    var cs, calls := WalkCall(r, b, p, s).value, WalkCalls(r, b, p, s);
    if cs == [] { assert calls + [] == calls; } else { assert cs == [cs[0]]; RunAllSnoc(k, calls, cs[0], m); }
  }

  /**
   The Tier-0 walker. `addX`, `addRes` and `addPending` are its three locals; a failed check leaves what
   the earlier steps did.
   */
  method CompositeImpl<B(!new)>(d: Device<B>, r: Recipe, b: Binding, p: Params) returns (o: Outcome)
    requires WellFormed(r) && BindingOk(b)
    modifies d
    ensures o.Done? || o.Failed?
    ensures o.Done? <==> Executable(r, b, p)
    ensures o.Done? ==> d.mem == RunAll(d.kernels, WalkCalls(r, b, p, |r.steps|), old(d.mem))
    ensures o.Done? && Foldable(r, b, p) && Local(d.kernels) && ResidualContract(d.kernels) ==>
      Meaningful(r, b, p) && d.mem == RunAll(d.kernels, PlainCalls(r, b, p, |r.steps|), old(d.mem))
    ensures o.Failed? ==> StoppedAt(d, old(d.mem), r, b, p, o.step)
  {
    hide Run, RunAll, Local, ResidualContract, Foldable, Writes, Reads, DirectCall, WalkCalls;
    var addX: Option<Ref>, addRes: Option<Ref>, addPending := None, None, false;
    ghost var was := d.mem;
    ghost var k := d.kernels;
    NoCalls(r, b, p, k, was);
    for s := 0 to |r.steps|
      invariant WalksTo(r, b, p, s)
      invariant d.mem == RunAll(k, WalkCalls(r, b, p, s), was)
      invariant addPending == Waiting(r, s).Some?
      invariant addPending ==>
        addX.Some? && addRes.Some? && AddCall(r, b, Waiting(r, s).value) == Some(Add(addX.value, addRes.value))
    {
      var st := r.steps[s];
      ghost var step := WalkCall(r, b, p, s);
      match st.op {
        case AddOp =>
          if st.nin != 2 || st.out != st.ins[1] { return Failed(s); }
          addX := Fetch(b, st.ins[0]);
          addRes := Fetch(b, st.out);
          if addX.None? || addRes.None? { return Failed(s); }
          addPending := true;
          NextCalls(r, b, p, k, was, s);
        case RmsNormOp =>
          var out, w := Fetch(b, st.out), Fetch(b, st.ins[1]);
          if out.None? || w.None? { return Failed(s); }
          var c;
          if addPending {
            c := RmsNorm(out.value, addX.value, w.value, p.eps, st.gemma, addRes);
            addPending := false;
          } else {
            var a := Fetch(b, st.ins[0]);
            if a.None? { return Failed(s); }
            c := RmsNorm(out.value, a.value, w.value, p.eps, st.gemma, None);
          }
          NextCalls(r, b, p, k, was, s);
          d.Launch(c);
        case _ =>
          var c := DirectCall(r, b, p, s);
          if c.None? { return Failed(s); }
          NextCalls(r, b, p, k, was, s);
          d.Launch(c.value);
      }
    }
    if addPending { return Failed(|r.steps|); }
    if Foldable(r, b, p) && Local(k) && ResidualContract(k) { FoldingKeepsMeaning(r, b, p, k, was); }
    o := Done;
  }
}
