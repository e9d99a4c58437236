/**
 The entry point FusedChain of src/vt/ops.cpp: one bespoke kernel when the backend has it, the Tier-1
 interpreter when asked for, the composite walker otherwise. On the catalogue every way leaves what the
 recipe's steps mean.
 */
module FusedDispatch {
  import opened Options
  import opened FusedRecipe
  import opened FusedChain

  // ----- the catalogue in the walker -----

  /** Every slot is bound; the walker takes an unbound second rope output as "no keys to rotate". */
  ghost predicate FullyBound(r: Recipe, b: Binding)
    requires BindingOk(b)
  {
    forall i: nat :: i < |r.operands| ==> Fetch(b, i).Some? || (r == ATTN_QK_NORM_ROPE && i == 5)
  }

  predicate HasResidual(r: Recipe) {
    |r.operands| > 2 && r.operands[2] == Residual
  }

  /** A recipe with a residual stream keeps it out of the weight's buffer. */
  ghost predicate ResidualApart(r: Recipe, b: Binding)
    requires BindingOk(b)
  {
    HasResidual(r) && b.op[1].Some? && b.op[2].Some? ==> b.op[1].value.buf != b.op[2].value.buf
  }

  predicate AddRecipe(r: Recipe) {
    r == FUSED_ADD_RMS_NORM || r == FUSED_ADD_RMS_NORM_STD || r == RMS_NORM_QUANT_FP8
  }

  predicate PairRecipe(r: Recipe) {
    r == RMS_NORM_GATED_QUANT_FP8 || r == SILU_MUL_FP4_QUANT || r == SILU_MUL_QUANT_FP8 || r == SIGMOID_GATE_FP4_QUANT
  }

  predicate AttnRecipe(r: Recipe) {
    r == ATTN_QK_NORM_ROPE_GATE || r == ATTN_QK_NORM_ROPE
  }

  lemma CatalogueKinds(r: Recipe)
    ensures r in CATALOGUE <==> AddRecipe(r) || PairRecipe(r) || AttnRecipe(r)
  {
    hide FUSED_ADD_RMS_NORM, FUSED_ADD_RMS_NORM_STD, RMS_NORM_QUANT_FP8, RMS_NORM_GATED_QUANT_FP8, SILU_MUL_FP4_QUANT,
      SILU_MUL_QUANT_FP8, SIGMOID_GATE_FP4_QUANT, ATTN_QK_NORM_ROPE_GATE, ATTN_QK_NORM_ROPE;
  }

  lemma AddKind(r: Recipe)
    requires AddRecipe(r)
    ensures WellFormed(r) && 2 <= |r.steps| <= 3 && |r.operands| == |r.steps| + 2 && HasResidual(r)
    ensures r.steps[0] == Step(AddOp, 2, [0, 2, 0], 2, None, false, false)
    ensures r.steps[1] == Step(RmsNormOp, 3, [2, 1, 0], 2, None, r.steps[1].gemma, false)
    ensures |r.steps| == 3 ==>
      r == RMS_NORM_QUANT_FP8 && r.steps[2] == Step(QuantFp8Op, 4, [3, 0, 0], 1, None, false, false)
  {
  }

  lemma PairKind(r: Recipe)
    requires PairRecipe(r)
    ensures WellFormed(r) && |r.steps| == 2 && !HasResidual(r)
    ensures |r.operands| == if r == SILU_MUL_QUANT_FP8 then 4 else 5
    ensures if r == RMS_NORM_GATED_QUANT_FP8
            then r.steps == [Step(RmsNormGatedOp, 3, [0, 1, 2], 3, None, false, false),
                             Step(QuantFp8Op, 4, [3, 0, 0], 1, None, false, false)]
            else r.steps[0].op in {SiluMulOp, SigmoidGateOp}
                 && r.steps[0] == Step(r.steps[0].op, 2, [0, 1, 0], 2, None, false, false)
                 && r.steps[1] == if r == SILU_MUL_QUANT_FP8 then Step(QuantFp8Op, 3, [2, 0, 0], 1, None, false, false)
                                  else Step(QuantFp4Op, 3, [2, 0, 0], 1, Some(4), false, false)
  {
  }

  lemma AttnKind(r: Recipe)
    requires AttnRecipe(r)
    ensures WellFormed(r) && 1 <= |r.steps| <= 3 && |r.operands| == 8 && !HasResidual(r)
    ensures exists s :: 0 <= s < |r.steps| && r.steps[s].op in {RopeOp, AttnOp}
    ensures forall s :: 0 <= s < |r.steps| ==> r.steps[s].op != AddOp
  {
    assert r.steps[|r.steps| - 1].op in {RopeOp, AttnOp};
  }

  lemma CatalogueShape(r: Recipe)
    requires r in CATALOGUE
    ensures WellFormed(r) && 1 <= |r.steps| <= 3 && |r.operands| <= MAX_OPERANDS
    ensures HasResidual(r) <==> AddRecipe(r)
    ensures !AddRecipe(r) ==> forall s :: 0 <= s < |r.steps| ==> r.steps[s].op != AddOp
    ensures IsTier1Able(r) <==> r == FUSED_ADD_RMS_NORM || r == FUSED_ADD_RMS_NORM_STD
  {
    hide CATALOGUE, HasResidual, WellFormed;
    hide FUSED_ADD_RMS_NORM, FUSED_ADD_RMS_NORM_STD, RMS_NORM_QUANT_FP8, RMS_NORM_GATED_QUANT_FP8, SILU_MUL_FP4_QUANT,
      SILU_MUL_QUANT_FP8, SIGMOID_GATE_FP4_QUANT, ATTN_QK_NORM_ROPE_GATE, ATTN_QK_NORM_ROPE;
    CatalogueKinds(r);
    if AddRecipe(r) {
      AddKind(r);
      AddTiers(r);
    } else if PairRecipe(r) {
      PairKind(r);
      assert !Elementwise(r.steps[0].op);
    } else {
      AttnKind(r);
      var s :| 0 <= s < |r.steps| && r.steps[s].op in {RopeOp, AttnOp};
      assert !Elementwise(r.steps[s].op);
    }
  }

  lemma AddTiers(r: Recipe)
    requires AddRecipe(r)
    ensures IsTier1Able(r) <==> r == FUSED_ADD_RMS_NORM || r == FUSED_ADD_RMS_NORM_STD
  {
    if r == RMS_NORM_QUANT_FP8 { assert !Elementwise(r.steps[2].op); }
  }

  /** The steps the three residual recipes share. */
  lemma AddSteps(r: Recipe)
    requires r in CATALOGUE && HasResidual(r)
    ensures WellFormed(r) && 2 <= |r.steps| <= 3 && |r.operands| == |r.steps| + 2 && AddRecipe(r)
    ensures r.steps[0] == Step(AddOp, 2, [0, 2, 0], 2, None, false, false)
    ensures r.steps[1] == Step(RmsNormOp, 3, [2, 1, 0], 2, None, r.steps[1].gemma, false)
    ensures |r.steps| == 3 ==>
      r == RMS_NORM_QUANT_FP8 && r.steps[2] == Step(QuantFp8Op, 4, [3, 0, 0], 1, None, false, false)
    ensures Waiting(r, 0) == None && Waiting(r, 1) == Some(0) && Waiting(r, 2) == None
    ensures (|r.steps| == 3 ==> Waiting(r, 3) == None)
  {
    CatalogueShape(r);
    AddKind(r);
    AddWaits(r);
    hide *;
  }

  lemma AddWaits(r: Recipe)
    requires 2 <= |r.steps| <= 3 && r.steps[0].op == AddOp && r.steps[1].op == RmsNormOp
    requires |r.steps| == 3 ==> r.steps[2].op == QuantFp8Op
    ensures Waiting(r, 0) == None && Waiting(r, 1) == Some(0) && Waiting(r, 2) == None
    ensures (|r.steps| == 3 ==> Waiting(r, 3) == None)
  {
  }

  lemma AddRecipes(r: Recipe, b: Binding, p: Params)
    requires r in CATALOGUE && HasResidual(r) && WellFormed(r) && BindingOk(b) && b.n == |r.operands|
    ensures Executable(r, b, p) <==> FullyBound(r, b)
    ensures FullyBound(r, b) ==> (Foldable(r, b, p) <==> ResidualApart(r, b))
  {
    AddSteps(r);
    hide CATALOGUE, Waiting, Executable, Foldable, FullyBound, ResidualApart, FUSED_ADD_RMS_NORM,
      FUSED_ADD_RMS_NORM_STD, RMS_NORM_QUANT_FP8;
    AddRuns(r, b, p);
    if FullyBound(r, b) { AddFolds(r, b, p); }
  }

  lemma AddRuns(r: Recipe, b: Binding, p: Params)
    requires WellFormed(r) && BindingOk(b) && b.n == |r.operands| == |r.steps| + 2 && 2 <= |r.steps| <= 3
    requires r.steps[0] == Step(AddOp, 2, [0, 2, 0], 2, None, false, false)
    requires r.steps[1] == Step(RmsNormOp, 3, [2, 1, 0], 2, None, r.steps[1].gemma, false)
    requires |r.steps| == 3 ==> r.steps[2] == Step(QuantFp8Op, 4, [3, 0, 0], 1, None, false, false)
    requires Waiting(r, 0) == None && Waiting(r, 1) == Some(0) && Waiting(r, 2) == None
    requires (|r.steps| == 3 ==> Waiting(r, 3) == None)
    ensures Executable(r, b, p) <==> FullyBound(r, b)
  {
    hide Waiting, CATALOGUE;
    assert r != ATTN_QK_NORM_ROPE;
    assert WalkCall(r, b, p, 0).Some? <==> Fetch(b, 0).Some? && Fetch(b, 2).Some?;
    assert WalkCall(r, b, p, 0).Some? ==> (WalkCall(r, b, p, 1).Some? <==> Fetch(b, 1).Some? && Fetch(b, 3).Some?);
    if |r.steps| == 3 { assert WalkCall(r, b, p, 2).Some? <==> Fetch(b, 4).Some? && Fetch(b, 3).Some?; }
  }

  lemma AddFolds(r: Recipe, b: Binding, p: Params)
    requires WellFormed(r) && BindingOk(b) && b.n == |r.operands| == |r.steps| + 2 && 2 <= |r.steps| <= 3
    requires HasResidual(r)
    requires r.steps[0] == Step(AddOp, 2, [0, 2, 0], 2, None, false, false)
    requires r.steps[1] == Step(RmsNormOp, 3, [2, 1, 0], 2, None, r.steps[1].gemma, false)
    requires Waiting(r, 0) == None && Waiting(r, 1) == Some(0) && Waiting(r, 2) == None
    requires FullyBound(r, b)
    ensures Foldable(r, b, p) <==> ResidualApart(r, b)
  {
    hide Waiting, CATALOGUE, DirectCall;
    assert r != ATTN_QK_NORM_ROPE;
    assert Fetch(b, 0).Some? && Fetch(b, 1).Some? && Fetch(b, 2).Some?;
    assert StepFoldable(r, b, p, 0);
    assert StepFoldable(r, b, p, 1) <==> ResidualApart(r, b);
    if |r.steps| == 3 { assert StepFoldable(r, b, p, 2); }
  }

  lemma NeverWaits(r: Recipe, s: nat)
    requires s <= |r.steps| && forall j :: 0 <= j < |r.steps| ==> r.steps[j].op != AddOp
    ensures Waiting(r, s) == None
  {
  }

  /** What the walk issues for the gated norm and its quantization. */
  lemma GatedCalls(r: Recipe, b: Binding, p: Params)
    requires WellFormed(r) && BindingOk(b) && |r.steps| == 2 && b.n == 5
    requires r.steps == [Step(RmsNormGatedOp, 3, [0, 1, 2], 3, None, false, false),
                         Step(QuantFp8Op, 4, [3, 0, 0], 1, None, false, false)]
    ensures WalkCall(r, b, p, 0) == (if b.op[3].Some? && b.op[0].Some? && b.op[1].Some? && b.op[2].Some?
      then Some([RmsNormGated(b.op[3].value, b.op[0].value, b.op[1].value, b.op[2].value, p.eps, false)]) else None)
    ensures WalkCall(r, b, p, 1) == (if b.op[4].Some? && b.op[3].Some?
      then Some([QuantFp8(b.op[4].value, b.op[3].value, p.quantScale)]) else None)
  {
  }

  /** What the walk issues for an activation and its quantization. */
  lemma PairCalls(r: Recipe, b: Binding, p: Params)
    requires WellFormed(r) && BindingOk(b) && |r.steps| == 2 && 4 <= b.n <= 5
    requires r.steps[0].op in {SiluMulOp, SigmoidGateOp}
    requires r.steps[0] == Step(r.steps[0].op, 2, [0, 1, 0], 2, None, false, false)
    requires r.steps[1] == if b.n == 4 then Step(QuantFp8Op, 3, [2, 0, 0], 1, None, false, false)
                           else Step(QuantFp4Op, 3, [2, 0, 0], 1, Some(4), false, false)
    ensures WalkCall(r, b, p, 0) == (if b.op[2].Some? && b.op[0].Some? && b.op[1].Some?
      then Some([if r.steps[0].op == SiluMulOp then SiluMul(b.op[2].value, b.op[0].value, b.op[1].value)
                 else SigmoidGate(b.op[2].value, b.op[0].value, b.op[1].value)]) else None)
    ensures WalkCall(r, b, p, 1) == (
      if b.op[3].Some? && b.op[2].Some? && (b.n == 5 ==> b.op[4].Some?)
      then Some([if b.n == 4 then QuantFp8(b.op[3].value, b.op[2].value, p.quantScale)
                 else QuantFp4(b.op[3].value, b.op[4].value, b.op[2].value, p.quantScale, p.fp4Layout)]) else None)
  {
  }

  lemma QuantRecipes(r: Recipe, b: Binding, p: Params)
    requires PairRecipe(r) && WellFormed(r) && BindingOk(b) && b.n == |r.operands|
    ensures Executable(r, b, p) <==> FullyBound(r, b)
  {
    hide PairRecipe, FUSED_ADD_RMS_NORM, FUSED_ADD_RMS_NORM_STD, RMS_NORM_QUANT_FP8, RMS_NORM_GATED_QUANT_FP8,
      SILU_MUL_FP4_QUANT,
      SILU_MUL_QUANT_FP8, SIGMOID_GATE_FP4_QUANT, ATTN_QK_NORM_ROPE_GATE, ATTN_QK_NORM_ROPE, WalkCall, Waiting,
      WellFormed;
    PairKind(r);
    PairIsNoAttn(r);
    NeverWaits(r, 2);
    if r == RMS_NORM_GATED_QUANT_FP8 {
      GatedIsFive(r);
      GatedCalls(r, b, p);
    } else {
      PairCalls(r, b, p);
    }
    assert WalksTo(r, b, p, 2) <==> WalkCall(r, b, p, 0).Some? && WalkCall(r, b, p, 1).Some?;
    assert forall i: nat :: i < b.n ==> Fetch(b, i) == b.op[i];
    if FullyBound(r, b) { assert Fetch(b, 0).Some? && Fetch(b, 1).Some? && Fetch(b, 2).Some? && Fetch(b, 3).Some?; }
    if FullyBound(r, b) && b.n == 5 { assert Fetch(b, 4).Some?; }
  }

  lemma GatedIsFive(r: Recipe)
    requires r == RMS_NORM_GATED_QUANT_FP8
    ensures |r.operands| == 5
  {
  }

  lemma PairIsNoAttn(r: Recipe)
    requires PairRecipe(r)
    ensures r != ATTN_QK_NORM_ROPE
  {
    PairKind(r);
  }

  lemma AttnRecipes(r: Recipe, b: Binding, p: Params)
    requires AttnRecipe(r)
    requires WellFormed(r) && BindingOk(b) && b.n == |r.operands|
    ensures Executable(r, b, p) <==> FullyBound(r, b)
  {
    NeverWaits(r, |r.steps|);
    forall s: nat | s <= |r.steps| ensures Waiting(r, s) == None { NeverWaits(r, s); }
    if r == ATTN_QK_NORM_ROPE {
      assert WalkCall(r, b, p, 0).Some? <==> Fetch(b, 0).Some? && Fetch(b, 1).Some?;
      assert WalkCall(r, b, p, 1).Some? <==> Fetch(b, 2).Some? && Fetch(b, 3).Some?;
      assert WalkCall(r, b, p, 2).Some? <==> Fetch(b, 4).Some? && Fetch(b, 6).Some? && Fetch(b, 7).Some?;
    } else {
      assert WalkCall(r, b, p, 0).Some? <==> AttnCall(b, true, p).Some?;
      assert forall i: nat :: i < 8 ==> Fetch(b, i) == b.op[i];
      if FullyBound(r, b) {
        assert Fetch(b, 0).Some? && Fetch(b, 1).Some? && Fetch(b, 2).Some? && Fetch(b, 3).Some?;
        assert Fetch(b, 4).Some? && Fetch(b, 5).Some? && Fetch(b, 6).Some? && Fetch(b, 7).Some?;
      }
    }
  }

  /** Every declared recipe runs in the walker as soon as its slots are bound, and is folded soundly. */
  lemma CatalogueRuns(r: Recipe, b: Binding, p: Params)
    requires r in CATALOGUE && WellFormed(r) && BindingOk(b) && b.n == |r.operands|
    ensures Executable(r, b, p) <==> FullyBound(r, b)
    ensures FullyBound(r, b) ==> (Foldable(r, b, p) <==> ResidualApart(r, b))
  {
    CatalogueShape(r);
    CatalogueKinds(r);
    hide CATALOGUE, AddRecipe, PairRecipe, AttnRecipe, Executable, FullyBound, Waiting, HasResidual, FUSED_ADD_RMS_NORM,
      FUSED_ADD_RMS_NORM_STD, RMS_NORM_QUANT_FP8, RMS_NORM_GATED_QUANT_FP8, SILU_MUL_FP4_QUANT, SILU_MUL_QUANT_FP8,
      SIGMOID_GATE_FP4_QUANT, ATTN_QK_NORM_ROPE_GATE, ATTN_QK_NORM_ROPE;
    if AddRecipe(r) {
      AddRecipes(r, b, p);
    } else {
      if AttnRecipe(r) { AttnRecipes(r, b, p); } else { QuantRecipes(r, b, p); }
      forall s: nat | s < |r.steps| ensures StepFoldable(r, b, p, s) { NeverWaits(r, s); }
    }
  }

  // ----- one-launch realizations -----

  /** The bespoke kernel's call; None is a failed operand check or a recipe whose fast op has no case. */
  function FastCall(r: Recipe, b: Binding, p: Params): (c: Option<Call>)
    requires BindingOk(b) && r.fastOp.Some? && |r.steps| > 0
  {
    var a0, a1, a2, a3, a4 := Fetch(b, 0), Fetch(b, 1), Fetch(b, 2), Fetch(b, 3), Fetch(b, 4);
    match r.fastOp.value
    case NormQuant =>
      if a4.Some? && a0.Some? && a1.Some?
      then Some(RmsNormQuantFp8(a4.value, b.op[3], a0.value, a1.value, p.eps, |r.steps| > 1 && r.steps[1].gemma,
                                b.op[2], p.quantScale))
      else None
    case GatedNormQuant =>
      if a4.Some? && a0.Some? && a1.Some? && a2.Some?
      then Some(RmsNormGatedQuantFp8(a4.value, a0.value, a1.value, a2.value, p.eps, r.steps[0].sigmoidGate,
                                     p.quantScale))
      else None
    case SiluMulQuant =>
      if a3.Some? && a4.Some? && a0.Some? && a1.Some?
      then Some(SiluMulFp4Quant(a3.value, a4.value, a0.value, a1.value, p.quantScale, p.fp4Layout))
      else None
    case SigmoidGateQuant =>
      if a3.Some? && a4.Some? && a0.Some? && a1.Some?
      then Some(SigmoidGateFp4Quant(a3.value, a4.value, a0.value, a1.value, p.quantScale, p.fp4Layout))
      else None
    case Unlisted(_) => None
  }

  /** The two standalone ops a bespoke kernel is documented to equal, through a scratch tensor. */
  function SplitForm(f: Call, tmp: Ref): (cs: seq<Call>) {
    match f
    case RmsNormQuantFp8(out, _, x, w, eps, gemma, residual, scale) =>
      [RmsNorm(tmp, x, w, eps, gemma, residual), QuantFp8(out, tmp, scale)]
    case RmsNormGatedQuantFp8(out, x, gate, w, eps, sigmoidGate, scale) =>
      [RmsNormGated(tmp, x, gate, w, eps, sigmoidGate), QuantFp8(out, tmp, scale)]
    case SiluMulFp4Quant(packed, scales, gate, up, scale, layout) =>
      [SiluMul(tmp, gate, up), QuantFp4(packed, scales, tmp, scale, layout)]
    case SigmoidGateFp4Quant(packed, scales, attn, gate, scale, layout) =>
      [SigmoidGate(tmp, attn, gate), QuantFp4(packed, scales, tmp, scale, layout)]
    case _ => []
  }

  /** The scratch is a buffer of its own, or the kernel's own bf16 output; no quantized output is read. */
  ghost predicate Separate(f: Call, tmp: Ref) {
    match f
    case RmsNormQuantFp8(out, bf16, _, _, _, _, residual, _) =>
      bf16 == Some(tmp) && tmp.buf !in Reads(f) && out.buf !in Reads(f) + {tmp.buf}
    case RmsNormGatedQuantFp8(out, _, _, _, _, _, _) => tmp.buf !in Touches(f) && out.buf !in Reads(f)
    case SiluMulFp4Quant(packed, scales, _, _, _, _) => tmp.buf !in Touches(f) && Reads(f) !! {packed.buf, scales.buf}
    case SigmoidGateFp4Quant(packed, scales, _, _, _, _) =>
      tmp.buf !in Touches(f) && Reads(f) !! {packed.buf, scales.buf}
    case _ => false
  }

  /** The bespoke kernels are documented bit-identical to their split forms; only the norm writes the scratch too. */
  ghost predicate FastContract<B(!new)>(k: Kernels<B>) {
    forall f: Call, tmp: Ref, m: seq<B>, i: nat ::
      Separate(f, tmp) && i < |m| && (f.RmsNormQuantFp8? || i != tmp.buf) ==>
      Run(k, f, m)[i] == RunAll(k, SplitForm(f, tmp), m)[i]
  }

  /** The interpreter is documented bit-identical to the norm with a residual on the two recipes it is used for. */
  ghost predicate InterpreterContract<B(!new)>(k: Kernels<B>) {
    forall out: Ref, x: Ref, w: Ref, res: Ref, r: Recipe, eps: nat, m: seq<B> ::
      (r == FUSED_ADD_RMS_NORM || r == FUSED_ADD_RMS_NORM_STD) && w.buf != res.buf ==>
        Run(k, Interpret(out, x, w, Some(res), r, eps), m)
          == Run(k, RmsNorm(out, x, w, eps, r.steps[1].gemma, Some(res)), m)
  }

  /** The interpreter's call on the canonical operand order. */
  function InterpreterCall(r: Recipe, b: Binding, p: Params): (c: Option<Call>)
    requires BindingOk(b) && |r.steps| > 0 && b.n == |r.operands|
  {
    var x, w, out := Fetch(b, 0), Fetch(b, 1), Fetch(b, r.steps[|r.steps| - 1].out);
    if x.Some? && w.Some? && out.Some?
    then Some(Interpret(out.value, x.value, w.value, if HasResidual(r) then b.op[2] else None, r, p.eps)) else None
  }

  // ----- dispatch -----

  predicate SizesOk(r: Recipe, b: Binding) {
    1 <= |r.steps| <= MAX_STEPS && |r.operands| == b.n <= MAX_OPERANDS
  }

  /** The slot of the scratch tensor that a fast realization may leave unwritten. */
  function ScratchSlot(r: Recipe): Option<nat> {
    if r.fastOp == Some(GatedNormQuant) then Some(3)
    else if r.fastOp == Some(SiluMulQuant) || r.fastOp == Some(SigmoidGateQuant) then Some(2) else None
  }

  /** Bindings on which the realizations are documented to agree. */
  ghost predicate CleanBinding(r: Recipe, b: Binding, p: Params)
    requires BindingOk(b)
  {
    && FullyBound(r, b) && ResidualApart(r, b)
    && (r.fastOp.Some? && |r.steps| > 0 ==>
          var f, s := FastCall(r, b, p), if ScratchSlot(r).Some? then ScratchSlot(r).value else 3;
          f.Some? && Fetch(b, s).Some? && Separate(f.value, Fetch(b, s).value))
  }

  /** The walker issues just the split form: the scratch slot carries the intermediate. */
  lemma SplitIsWalk(r: Recipe, b: Binding, p: Params)
    requires r in CATALOGUE && r.fastOp.Some? && WellFormed(r) && BindingOk(b) && SizesOk(r, b) && CleanBinding(r, b, p)
    ensures Executable(r, b, p)
    ensures var s := if ScratchSlot(r).Some? then ScratchSlot(r).value else 3;
            SplitForm(FastCall(r, b, p).value, Fetch(b, s).value) == WalkCalls(r, b, p, |r.steps|)
  {
    hide CATALOGUE, FastCall, SplitForm, WalkCalls, Executable, Foldable, FullyBound, ResidualApart, Separate,
      HasResidual, WellFormed;
    CatalogueRuns(r, b, p);
    if HasResidual(r) { SplitNorm(r, b, p); } else { SplitTwo(r, b, p); }
  }

  lemma SplitNorm(r: Recipe, b: Binding, p: Params)
    requires r in CATALOGUE && r.fastOp.Some? && HasResidual(r) && WellFormed(r) && BindingOk(b) && SizesOk(r, b)
    requires FullyBound(r, b) && Executable(r, b, p)
    ensures ScratchSlot(r).None? && FastCall(r, b, p).Some? && Fetch(b, 3).Some?
    ensures SplitForm(FastCall(r, b, p).value, Fetch(b, 3).value) == WalkCalls(r, b, p, |r.steps|)
  {
    assert r == RMS_NORM_QUANT_FP8;
    AddSteps(r);
    assert Fetch(b, 0).Some? && Fetch(b, 1).Some? && Fetch(b, 2).Some? && Fetch(b, 3).Some? && Fetch(b, 4).Some?;
    assert r.fastOp == Some(NormQuant) && r.steps[1].gemma;
    hide CATALOGUE, RMS_NORM_QUANT_FP8, Waiting;
    var c1, c2 := WalkCall(r, b, p, 1).value, WalkCall(r, b, p, 2).value;
    assert WalkCalls(r, b, p, 1) == [];
    assert WalkCalls(r, b, p, 2) == c1;
    assert WalkCalls(r, b, p, 3) == c1 + c2;
  }

  lemma FastPairs(r: Recipe)
    requires r in CATALOGUE && r.fastOp.Some? && !HasResidual(r)
    ensures PairRecipe(r) && r != SILU_MUL_QUANT_FP8 && |r.operands| == 5
    ensures r.fastOp.value == if r == RMS_NORM_GATED_QUANT_FP8 then GatedNormQuant
                              else if r.steps[0].op == SiluMulOp then SiluMulQuant else SigmoidGateQuant
    ensures r != RMS_NORM_GATED_QUANT_FP8 ==> |r.steps| > 0 && r.steps[0].op in {SiluMulOp, SigmoidGateOp}
  {
  }

  lemma SplitTwo(r: Recipe, b: Binding, p: Params)
    requires r in CATALOGUE && r.fastOp.Some? && !HasResidual(r) && WellFormed(r) && BindingOk(b) && SizesOk(r, b)
    requires FullyBound(r, b) && Executable(r, b, p)
    ensures FastCall(r, b, p).Some? && ScratchSlot(r).Some?
    ensures SplitForm(FastCall(r, b, p).value, Fetch(b, ScratchSlot(r).value).value) == WalkCalls(r, b, p, |r.steps|)
  {
    hide CATALOGUE, PairRecipe, FUSED_ADD_RMS_NORM, FUSED_ADD_RMS_NORM_STD, RMS_NORM_QUANT_FP8,
      RMS_NORM_GATED_QUANT_FP8, SILU_MUL_FP4_QUANT,
      SILU_MUL_QUANT_FP8, SIGMOID_GATE_FP4_QUANT, ATTN_QK_NORM_ROPE_GATE, ATTN_QK_NORM_ROPE, Waiting, HasResidual,
      WellFormed, WalkCall;
    FastPairs(r);
    PairKind(r);
    PairIsNoAttn(r);
    if r == RMS_NORM_GATED_QUANT_FP8 { GatedCalls(r, b, p); } else { PairCalls(r, b, p); }
    assert Fetch(b, 0).Some? && Fetch(b, 1).Some? && Fetch(b, 2).Some? && Fetch(b, 3).Some? && Fetch(b, 4).Some?;
    var c0, c1 := WalkCall(r, b, p, 0).value, WalkCall(r, b, p, 1).value;
    assert WalkCalls(r, b, p, 1) == c0;
    assert WalkCalls(r, b, p, 2) == c0 + c1;
  }

  /** A bespoke kernel leaves every buffer, its skipped scratch apart, as the recipe's steps would. */
  lemma FastMeaning<B(!new)>(r: Recipe, b: Binding, p: Params, k: Kernels<B>, m: seq<B>, i: nat)
    requires r in CATALOGUE && r.fastOp.Some? && WellFormed(r) && BindingOk(b) && SizesOk(r, b) && CleanBinding(r, b, p)
    requires Local(k) && ResidualContract(k) && FastContract(k)
    requires i < |m| && (ScratchSlot(r).Some? ==> i != Fetch(b, ScratchSlot(r).value).value.buf)
    ensures Meaningful(r, b, p)
    ensures Run(k, FastCall(r, b, p).value, m)[i] == RunAll(k, PlainCalls(r, b, p, |r.steps|), m)[i]
  {
    assert FastCall(r, b, p).value.RmsNormQuantFp8? <==> r.fastOp == Some(NormQuant);
    assert ScratchSlot(r).None? ==> r.fastOp == Some(NormQuant);
    hide Run, RunAll, Local, ResidualContract, SplitForm, FastCall, WalkCalls, PlainCalls, CATALOGUE;
    SplitIsWalk(r, b, p);
    CatalogueRuns(r, b, p);
    FoldingKeepsMeaning(r, b, p, k, m);
  }

  lemma InterpreterMeaning<B(!new)>(r: Recipe, b: Binding, p: Params, k: Kernels<B>, m: seq<B>)
    requires r == FUSED_ADD_RMS_NORM || r == FUSED_ADD_RMS_NORM_STD
    requires WellFormed(r) && BindingOk(b) && SizesOk(r, b) && FullyBound(r, b) && ResidualApart(r, b)
    requires Local(k) && ResidualContract(k) && InterpreterContract(k)
    ensures Meaningful(r, b, p) && InterpreterCall(r, b, p).Some?
    ensures Run(k, InterpreterCall(r, b, p).value, m) == RunAll(k, PlainCalls(r, b, p, |r.steps|), m)
  {
    hide Run, RunAll, Local, ResidualContract, WalkCalls, PlainCalls, Foldable, FullyBound, InterpreterCall,
      StepFoldable,
      Meaningful, WalkCall, PlainCall;
    assert r in CATALOGUE;
    CatalogueRuns(r, b, p);
    InterpreterWalk(r, b, p);
    FoldingKeepsMeaning(r, b, p, k, m);
    var c := WalkCalls(r, b, p, |r.steps|)[0];
    OneCall(k, c, m);
  }

  lemma OneCall<B>(k: Kernels<B>, c: Call, m: seq<B>)
    ensures RunAll(k, [c], m) == Run(k, c, m)
  {
    RunAllSnoc(k, [], c, m);
    assert [] + [c] == [c];
  }

  /** The walk of the two interpretable recipes is the one norm the interpreter is documented to equal. */
  lemma InterpreterWalk(r: Recipe, b: Binding, p: Params)
    requires r == FUSED_ADD_RMS_NORM || r == FUSED_ADD_RMS_NORM_STD
    requires WellFormed(r) && BindingOk(b) && SizesOk(r, b) && FullyBound(r, b) && Executable(r, b, p)
    requires ResidualApart(r, b)
    ensures var i := InterpreterCall(r, b, p);
            i.Some? && i.value.Interpret? && i.value.residual.Some? && i.value.w.buf != i.value.residual.value.buf
            && i.value == Interpret(i.value.out, i.value.x, i.value.w, i.value.residual, r, p.eps)
            && WalkCalls(r, b, p, |r.steps|) == [RmsNorm(i.value.out, i.value.x, i.value.w, p.eps, r.steps[1].gemma,
                                                         i.value.residual)]
  {
    AddSteps(r);
    hide Waiting, CATALOGUE, Foldable;
    assert |r.steps| == 2 && |r.operands| == 4;
    assert Fetch(b, 0).Some? && Fetch(b, 1).Some? && Fetch(b, 2).Some? && Fetch(b, 3).Some?;
    assert WalkCalls(r, b, p, 1) == [];
    assert WalkCalls(r, b, p, 2) == [] + WalkCall(r, b, p, 1).value;
  }

  /**
   The convenience overloads bind no scratch tensor for these three recipes: they succeed through the
   bespoke kernel, and the composite a backend without it would fall back to always fails.
   */
  lemma NoScratchNoFallback(r: Recipe, b: Binding, p: Params)
    requires r in CATALOGUE && ScratchSlot(r).Some? && WellFormed(r) && BindingOk(b) && SizesOk(r, b)
    requires forall i: nat :: i < b.n ==> (b.op[i].None? <==> i == ScratchSlot(r).value)
    ensures FastCall(r, b, p).Some? && !Executable(r, b, p)
  {
    CatalogueRuns(r, b, p);
    assert b.n == 5;
    assert Fetch(b, ScratchSlot(r).value).None?;
  }

  /** Likewise the norm's residual and bf16 output: optional for the bespoke kernel, required by the composite. */
  lemma OptionalOnlyWhenFast(b: Binding, p: Params)
    requires var r := RMS_NORM_QUANT_FP8; WellFormed(r) && BindingOk(b) && SizesOk(r, b)
    requires Fetch(b, 0).Some? && Fetch(b, 1).Some? && Fetch(b, 4).Some? && (Fetch(b, 2).None? || Fetch(b, 3).None?)
    ensures FastCall(RMS_NORM_QUANT_FP8, b, p).Some? && !Executable(RMS_NORM_QUANT_FP8, b, p)
  {
    CatalogueRuns(RMS_NORM_QUANT_FP8, b, p);
  }

  /** Buffer i holds the scratch tensor that a fast realization may leave unwritten. */
  predicate IsScratch(r: Recipe, b: Binding, i: nat)
    requires BindingOk(b)
  {
    ScratchSlot(r).Some? && Fetch(b, ScratchSlot(r).value).Some? && i == Fetch(b, ScratchSlot(r).value).value.buf
  }

  /** What the steps mean, on every buffer but a scratch a fast realization skips. */
  ghost predicate Realized<B>(r: Recipe, b: Binding, p: Params, k: Kernels<B>, was: seq<B>, m: seq<B>)
    requires WellFormed(r) && BindingOk(b)
  {
    && Meaningful(r, b, p) && |m| == |was|
    && forall i: nat :: i < |m| && !IsScratch(r, b, i) ==>
         m[i] == RunAll(k, PlainCalls(r, b, p, |r.steps|), was)[i]
  }

  /** The general entry. `registered` is the registry's answer for the fast op, `tier` the tier variable. */
  method FusedChainEntry<B(!new)>(d: Device<B>, r: Recipe, b: Binding, p: Params, registered: bool,
                                  tier: nat) returns (o: Outcome)
    requires WellFormed(r) && BindingOk(b)
    modifies d
    ensures o == BadSizes <==> !(1 <= |r.steps| <= 8 && |r.operands| == b.n <= 8)
    ensures o == BadSizes || o == NoFastCase || o == BadOperand ==> d.mem == old(d.mem)
    ensures o != BadSizes && r.fastOp.Some? && registered ==>
      if FastCall(r, b, p).Some? then o.Done? && d.mem == Run(d.kernels, FastCall(r, b, p).value, old(d.mem))
      else o == if r.fastOp.value.Unlisted? then NoFastCase else BadOperand
    ensures o != BadSizes && !(r.fastOp.Some? && registered) && IsTier1Able(r) && tier == 1 ==>
      if InterpreterCall(r, b, p).Some?
      then o.Done? && d.mem == Run(d.kernels, InterpreterCall(r, b, p).value, old(d.mem))
      else o == BadOperand
    ensures o != BadSizes && !(r.fastOp.Some? && registered) && !(IsTier1Able(r) && tier == 1) ==>
      (o.Done? || o.Failed?) && (o.Done? <==> Executable(r, b, p))
    ensures o.Failed? ==> StoppedAt(d, old(d.mem), r, b, p, o.step)
    ensures r in CATALOGUE && SizesOk(r, b) && CleanBinding(r, b, p)
            && Local(d.kernels) && ResidualContract(d.kernels) && FastContract(d.kernels)
            && InterpreterContract(d.kernels) ==>
      o.Done? && Realized(r, b, p, d.kernels, old(d.mem), d.mem)
  {
    hide Run, RunAll, Local, ResidualContract, FastContract, InterpreterContract, CATALOGUE, FullyBound, ResidualApart,
      Meaningful, Executable, StoppedAt, Foldable, WalksTo, WalkCalls, PlainCalls, Separate;
    ghost var clean := r in CATALOGUE && SizesOk(r, b) && CleanBinding(r, b, p) && Local(d.kernels)
      && ResidualContract(d.kernels) && FastContract(d.kernels) && InterpreterContract(d.kernels);
    if !SizesOk(r, b) { return BadSizes; }
    if r.fastOp.Some? && registered {
      var c := FastCall(r, b, p);
      if c.None? { return if r.fastOp.value.Unlisted? then NoFastCase else BadOperand; }
      if clean {
        forall i: nat | i < |d.mem| && (ScratchSlot(r).Some? ==> i != Fetch(b, ScratchSlot(r).value).value.buf)
          ensures Meaningful(r, b, p)
          ensures Run(d.kernels, c.value, d.mem)[i] == RunAll(d.kernels, PlainCalls(r, b, p, |r.steps|), d.mem)[i]
        {
          FastMeaning(r, b, p, d.kernels, d.mem, i);
        }
        CatalogueMeaningful(r, b, p);
      }
      d.Launch(c.value);
      return Done;
    }
    if IsTier1Able(r) && tier == 1 {
      var c := InterpreterCall(r, b, p);
      if clean { CatalogueShape(r); InterpreterMeaning(r, b, p, d.kernels, d.mem); }
      if c.None? { return BadOperand; }
      d.Launch(c.value);
      return Done;
    }
    if clean { CatalogueRuns(r, b, p); }
    o := CompositeImpl(d, r, b, p);
  }

  lemma CatalogueMeaningful(r: Recipe, b: Binding, p: Params)
    requires r in CATALOGUE && WellFormed(r) && BindingOk(b) && SizesOk(r, b) && FullyBound(r, b) && ResidualApart(r, b)
    ensures Meaningful(r, b, p)
  {
    hide DirectCall, CATALOGUE, FullyBound, ResidualApart;
    CatalogueRuns(r, b, p);
    forall s: nat | s < |r.steps| ensures PlainCall(r, b, p, s).Some? {
      assert StepFoldable(r, b, p, s) && WalkCall(r, b, p, s).Some?;
    }
  }
}
