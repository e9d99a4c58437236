/**
 The documented golden form of every recipe of include/vt/recipes.h: the standalone calls, each with its own
 operands and flags, that the composite issues on a bound table. Slots are numbered as the recipes say.
 */
module GoldenForms {
  import opened Options
  import opened FusedRecipe
  import opened FusedChain

  /** Every slot of an n-operand table is bound. */
  ghost predicate Bound(b: Binding, n: nat) {
    BindingOk(b) && b.n == n && forall i :: 0 <= i < n ==> i < |b.op| && b.op[i].Some?
  }

  function Slot(b: Binding, i: nat): Ref
    requires i < |b.op| && b.op[i].Some?
  {
    b.op[i].value
  }

  /** r walks to its end and issues exactly the calls cs. */
  ghost predicate Issues(r: Recipe, b: Binding, p: Params, cs: seq<Call>)
    requires BindingOk(b)
  {
    WellFormed(r) && Executable(r, b, p) && WalkCalls(r, b, p, |r.steps|) == cs
  }

  lemma NoSteps(r: Recipe, b: Binding, p: Params)
    requires WellFormed(r) && BindingOk(b)
    ensures WalksTo(r, b, p, 0) && WalkCalls(r, b, p, 0) == []
  {
  }

  lemma OneMore(r: Recipe, b: Binding, p: Params, s: nat)
    requires WellFormed(r) && BindingOk(b) && s < |r.steps| && WalksTo(r, b, p, s) && WalkCall(r, b, p, s).Some?
    ensures WalksTo(r, b, p, s + 1) && WalkCalls(r, b, p, s + 1) == WalkCalls(r, b, p, s) + WalkCall(r, b, p, s).value
  {
    hide WalkCall;
  }

  // ----- the attention recipes -----

  /** One call with each role's own slot and the (1 + w) norms. */
  lemma AttnGateForm(b: Binding, p: Params)
    requires Bound(b, 8)
    ensures Issues(ATTN_QK_NORM_ROPE_GATE, b, p, [
      Attn(qOut := Slot(b, 5), kOut := Slot(b, 6), gateOut := Slot(b, 7), qgate := Slot(b, 0), kf := Slot(b, 1),
           qNorm := Slot(b, 2), kNorm := Slot(b, 3), cosSin := Slot(b, 4), eps := p.eps, gemma := true,
           rope := p.rope)])
  {
    var r := ATTN_QK_NORM_ROPE_GATE;
    NoSteps(r, b, p);
    OneMore(r, b, p, 0);
  }

  /** The norm of q in place, the norm of k in place, both with plain weights, then the rotation of their views. */
  lemma AttnForm(b: Binding, p: Params)
    requires Bound(b, 8)
    ensures Issues(ATTN_QK_NORM_ROPE, b, p, [
      RmsNorm(out := Slot(b, 0), x := Slot(b, 0), w := Slot(b, 1), eps := p.eps, gemma := false, residual := None),
      RmsNorm(out := Slot(b, 2), x := Slot(b, 2), w := Slot(b, 3), eps := p.eps, gemma := false, residual := None),
      Rope(q := Slot(b, 4), k := Some(Slot(b, 5)), pos := Slot(b, 7), cosSin := Slot(b, 6), rope := p.rope)])
  {
    var r := ATTN_QK_NORM_ROPE;
    NoSteps(r, b, p);
    OneMore(r, b, p, 0);
    OneMore(r, b, p, 1);
    OneMore(r, b, p, 2);
  }

  // ----- the other recipes -----

  /** The norm takes the residual add: x into the residual, normed with weights 1 + w. */
  lemma AddNormForm(b: Binding, p: Params)
    requires Bound(b, 4)
    ensures Issues(FUSED_ADD_RMS_NORM, b, p, [
      RmsNorm(out := Slot(b, 3), x := Slot(b, 0), w := Slot(b, 1), eps := p.eps, gemma := true,
              residual := Some(Slot(b, 2)))])
  {
    var r := FUSED_ADD_RMS_NORM;
    NoSteps(r, b, p);
    OneMore(r, b, p, 0);
    OneMore(r, b, p, 1);
  }

  /** The same with plain weights. */
  lemma AddNormStdForm(b: Binding, p: Params)
    requires Bound(b, 4)
    ensures Issues(FUSED_ADD_RMS_NORM_STD, b, p, [
      RmsNorm(out := Slot(b, 3), x := Slot(b, 0), w := Slot(b, 1), eps := p.eps, gemma := false,
              residual := Some(Slot(b, 2)))])
  {
    var r := FUSED_ADD_RMS_NORM_STD;
    NoSteps(r, b, p);
    OneMore(r, b, p, 0);
    OneMore(r, b, p, 1);
  }

  lemma NormQuantForm(b: Binding, p: Params)
    requires Bound(b, 5)
    ensures Issues(RMS_NORM_QUANT_FP8, b, p, [
      RmsNorm(out := Slot(b, 3), x := Slot(b, 0), w := Slot(b, 1), eps := p.eps, gemma := true,
              residual := Some(Slot(b, 2))),
      QuantFp8(out := Slot(b, 4), a := Slot(b, 3), scale := p.quantScale)])
  {
    var r := RMS_NORM_QUANT_FP8;
    NoSteps(r, b, p);
    OneMore(r, b, p, 0);
    OneMore(r, b, p, 1);
    OneMore(r, b, p, 2);
  }

  lemma GatedNormQuantForm(b: Binding, p: Params)
    requires Bound(b, 5)
    ensures Issues(RMS_NORM_GATED_QUANT_FP8, b, p, [
      RmsNormGated(out := Slot(b, 3), x := Slot(b, 0), gate := Slot(b, 1), w := Slot(b, 2), eps := p.eps,
                   sigmoidGate := false),
      QuantFp8(out := Slot(b, 4), a := Slot(b, 3), scale := p.quantScale)])
  {
    var r := RMS_NORM_GATED_QUANT_FP8;
    NoSteps(r, b, p);
    OneMore(r, b, p, 0);
    OneMore(r, b, p, 1);
  }

  lemma SiluMulFp4Form(b: Binding, p: Params)
    requires Bound(b, 5)
    ensures Issues(SILU_MUL_FP4_QUANT, b, p, [
      SiluMul(out := Slot(b, 2), gate := Slot(b, 0), up := Slot(b, 1)),
      QuantFp4(packed := Slot(b, 3), scales := Slot(b, 4), a := Slot(b, 2), scale := p.quantScale,
               layout := p.fp4Layout)])
  {
    var r := SILU_MUL_FP4_QUANT;
    NoSteps(r, b, p);
    OneMore(r, b, p, 0);
    OneMore(r, b, p, 1);
  }

  lemma SiluMulFp8Form(b: Binding, p: Params)
    requires Bound(b, 4)
    ensures Issues(SILU_MUL_QUANT_FP8, b, p, [
      SiluMul(out := Slot(b, 2), gate := Slot(b, 0), up := Slot(b, 1)),
      QuantFp8(out := Slot(b, 3), a := Slot(b, 2), scale := p.quantScale)])
  {
    var r := SILU_MUL_QUANT_FP8;
    NoSteps(r, b, p);
    OneMore(r, b, p, 0);
    OneMore(r, b, p, 1);
  }

  lemma SigmoidGateFp4Form(b: Binding, p: Params)
    requires Bound(b, 5)
    ensures Issues(SIGMOID_GATE_FP4_QUANT, b, p, [
      SigmoidGate(out := Slot(b, 2), attn := Slot(b, 0), gate := Slot(b, 1)),
      QuantFp4(packed := Slot(b, 3), scales := Slot(b, 4), a := Slot(b, 2), scale := p.quantScale,
               layout := p.fp4Layout)])
  {
    var r := SIGMOID_GATE_FP4_QUANT;
    NoSteps(r, b, p);
    OneMore(r, b, p, 0);
    OneMore(r, b, p, 1);
  }

  // ----- what a step may touch -----

  /** The buffers of some slots. */
  function Bufs(b: Binding, slots: seq<nat>): set<nat>
    requires forall i :: 0 <= i < |slots| ==> slots[i] < |b.op| && b.op[slots[i]].Some?
  {
    set i | 0 <= i < |slots| :: b.op[slots[i]].value.buf
  }

  /** The slots a step writes and reads, as its declaration lists them; the attention macro's are fixed. */
  function OutSlots(st: Step): seq<nat> {
    if st.op.AttnOp? then [5, 6, 7] else [st.out] + if st.out2.Some? then [st.out2.value] else []
  }

  function InSlots(st: Step): seq<nat>
    requires st.nin <= |st.ins|
  {
    if st.op.AttnOp? then [0, 1, 2, 3, 4]
    else st.ins[..st.nin] + if st.op.RopeOp? && st.out2.Some? then [st.out2.value] else []
  }

  ghost predicate TouchesDeclared(r: Recipe, b: Binding, p: Params, s: nat)
    requires WellFormed(r) && BindingOk(b) && s < |r.steps|
  {
    var st, c := r.steps[s], PlainCall(r, b, p, s);
    && st.nin <= 3 && c.Some?
    && (forall i :: 0 <= i < |OutSlots(st)| ==> OutSlots(st)[i] < 8 && b.op[OutSlots(st)[i]].Some?)
    && (forall i :: 0 <= i < |InSlots(st)| ==> InSlots(st)[i] < 8 && b.op[InSlots(st)[i]].Some?)
    && Writes(c.value) == Bufs(b, OutSlots(st)) && Reads(c.value) == Bufs(b, InSlots(st))
  }

  lemma BufsAre(b: Binding, slots: seq<nat>)
    requires forall i :: 0 <= i < |slots| ==> slots[i] < |b.op| && b.op[slots[i]].Some?
    ensures |slots| == 1 ==> Bufs(b, slots) == {Slot(b, slots[0]).buf}
    ensures |slots| == 2 ==> Bufs(b, slots) == {Slot(b, slots[0]).buf, Slot(b, slots[1]).buf}
    ensures |slots| == 3 ==> Bufs(b, slots) == {Slot(b, slots[0]).buf, Slot(b, slots[1]).buf, Slot(b, slots[2]).buf}
    ensures |slots| == 4 ==>
      Bufs(b, slots) == {Slot(b, slots[0]).buf, Slot(b, slots[1]).buf, Slot(b, slots[2]).buf, Slot(b, slots[3]).buf}
    ensures |slots| == 5 ==>
      Bufs(b, slots) == {Slot(b, slots[0]).buf, Slot(b, slots[1]).buf, Slot(b, slots[2]).buf, Slot(b, slots[3]).buf,
                         Slot(b, slots[4]).buf}
  {
  }

  lemma TouchesAttnStep0(b: Binding, p: Params)
    requires Bound(b, 8)
    ensures TouchesDeclared(ATTN_QK_NORM_ROPE_GATE, b, p, 0)
  {
    assert OutSlots(ATTN_QK_NORM_ROPE_GATE.steps[0]) == [5, 6, 7];
    assert InSlots(ATTN_QK_NORM_ROPE_GATE.steps[0]) == [0, 1, 2, 3, 4];
    BufsAre(b, [5, 6, 7]);
    BufsAre(b, [0, 1, 2, 3, 4]);
    hide Bufs, OutSlots, InSlots;
  }

  lemma TouchesAttnRopeStep0(b: Binding, p: Params)
    requires Bound(b, 8)
    ensures TouchesDeclared(ATTN_QK_NORM_ROPE, b, p, 0)
  {
    assert OutSlots(ATTN_QK_NORM_ROPE.steps[0]) == [0];
    assert InSlots(ATTN_QK_NORM_ROPE.steps[0]) == [0, 1];
    BufsAre(b, [0]);
    BufsAre(b, [0, 1]);
    hide Bufs, OutSlots, InSlots;
  }

  lemma TouchesAttnRopeStep1(b: Binding, p: Params)
    requires Bound(b, 8)
    ensures TouchesDeclared(ATTN_QK_NORM_ROPE, b, p, 1)
  {
    assert OutSlots(ATTN_QK_NORM_ROPE.steps[1]) == [2];
    assert InSlots(ATTN_QK_NORM_ROPE.steps[1]) == [2, 3];
    BufsAre(b, [2]);
    BufsAre(b, [2, 3]);
    hide Bufs, OutSlots, InSlots;
  }

  lemma TouchesAttnRopeStep2(b: Binding, p: Params)
    requires Bound(b, 8)
    ensures TouchesDeclared(ATTN_QK_NORM_ROPE, b, p, 2)
  {
    assert OutSlots(ATTN_QK_NORM_ROPE.steps[2]) == [4, 5];
    assert InSlots(ATTN_QK_NORM_ROPE.steps[2]) == [4, 6, 7, 5];
    BufsAre(b, [4, 5]);
    BufsAre(b, [4, 6, 7, 5]);
    hide Bufs, OutSlots, InSlots;
  }

  lemma TouchesAddNormStep0(b: Binding, p: Params)
    requires Bound(b, 4)
    ensures TouchesDeclared(FUSED_ADD_RMS_NORM, b, p, 0)
  {
    assert OutSlots(FUSED_ADD_RMS_NORM.steps[0]) == [2];
    assert InSlots(FUSED_ADD_RMS_NORM.steps[0]) == [0, 2];
    BufsAre(b, [2]);
    BufsAre(b, [0, 2]);
    hide Bufs, OutSlots, InSlots;
  }

  lemma TouchesAddNormStep1(b: Binding, p: Params)
    requires Bound(b, 4)
    ensures TouchesDeclared(FUSED_ADD_RMS_NORM, b, p, 1)
  {
    assert OutSlots(FUSED_ADD_RMS_NORM.steps[1]) == [3];
    assert InSlots(FUSED_ADD_RMS_NORM.steps[1]) == [2, 1];
    BufsAre(b, [3]);
    BufsAre(b, [2, 1]);
    hide Bufs, OutSlots, InSlots;
  }

  lemma TouchesAddNormStdStep0(b: Binding, p: Params)
    requires Bound(b, 4)
    ensures TouchesDeclared(FUSED_ADD_RMS_NORM_STD, b, p, 0)
  {
    assert OutSlots(FUSED_ADD_RMS_NORM_STD.steps[0]) == [2];
    assert InSlots(FUSED_ADD_RMS_NORM_STD.steps[0]) == [0, 2];
    BufsAre(b, [2]);
    BufsAre(b, [0, 2]);
    hide Bufs, OutSlots, InSlots;
  }

  lemma TouchesAddNormStdStep1(b: Binding, p: Params)
    requires Bound(b, 4)
    ensures TouchesDeclared(FUSED_ADD_RMS_NORM_STD, b, p, 1)
  {
    assert OutSlots(FUSED_ADD_RMS_NORM_STD.steps[1]) == [3];
    assert InSlots(FUSED_ADD_RMS_NORM_STD.steps[1]) == [2, 1];
    BufsAre(b, [3]);
    BufsAre(b, [2, 1]);
    hide Bufs, OutSlots, InSlots;
  }

  lemma TouchesNormQuantStep0(b: Binding, p: Params)
    requires Bound(b, 5)
    ensures TouchesDeclared(RMS_NORM_QUANT_FP8, b, p, 0)
  {
    assert OutSlots(RMS_NORM_QUANT_FP8.steps[0]) == [2];
    assert InSlots(RMS_NORM_QUANT_FP8.steps[0]) == [0, 2];
    BufsAre(b, [2]);
    BufsAre(b, [0, 2]);
    hide Bufs, OutSlots, InSlots;
  }

  lemma TouchesNormQuantStep1(b: Binding, p: Params)
    requires Bound(b, 5)
    ensures TouchesDeclared(RMS_NORM_QUANT_FP8, b, p, 1)
  {
    assert OutSlots(RMS_NORM_QUANT_FP8.steps[1]) == [3];
    assert InSlots(RMS_NORM_QUANT_FP8.steps[1]) == [2, 1];
    BufsAre(b, [3]);
    BufsAre(b, [2, 1]);
    hide Bufs, OutSlots, InSlots;
  }

  lemma TouchesNormQuantStep2(b: Binding, p: Params)
    requires Bound(b, 5)
    ensures TouchesDeclared(RMS_NORM_QUANT_FP8, b, p, 2)
  {
    assert OutSlots(RMS_NORM_QUANT_FP8.steps[2]) == [4];
    assert InSlots(RMS_NORM_QUANT_FP8.steps[2]) == [3];
    BufsAre(b, [4]);
    BufsAre(b, [3]);
    hide Bufs, OutSlots, InSlots;
  }

  lemma TouchesGatedQuantStep0(b: Binding, p: Params)
    requires Bound(b, 5)
    ensures TouchesDeclared(RMS_NORM_GATED_QUANT_FP8, b, p, 0)
  {
    assert OutSlots(RMS_NORM_GATED_QUANT_FP8.steps[0]) == [3];
    assert InSlots(RMS_NORM_GATED_QUANT_FP8.steps[0]) == [0, 1, 2];
    BufsAre(b, [3]);
    BufsAre(b, [0, 1, 2]);
    hide Bufs, OutSlots, InSlots;
  }

  lemma TouchesGatedQuantStep1(b: Binding, p: Params)
    requires Bound(b, 5)
    ensures TouchesDeclared(RMS_NORM_GATED_QUANT_FP8, b, p, 1)
  {
    assert OutSlots(RMS_NORM_GATED_QUANT_FP8.steps[1]) == [4];
    assert InSlots(RMS_NORM_GATED_QUANT_FP8.steps[1]) == [3];
    BufsAre(b, [4]);
    BufsAre(b, [3]);
    hide Bufs, OutSlots, InSlots;
  }

  lemma TouchesSiluFp4Step0(b: Binding, p: Params)
    requires Bound(b, 5)
    ensures TouchesDeclared(SILU_MUL_FP4_QUANT, b, p, 0)
  {
    assert OutSlots(SILU_MUL_FP4_QUANT.steps[0]) == [2];
    assert InSlots(SILU_MUL_FP4_QUANT.steps[0]) == [0, 1];
    BufsAre(b, [2]);
    BufsAre(b, [0, 1]);
    hide Bufs, OutSlots, InSlots;
  }

  lemma TouchesSiluFp4Step1(b: Binding, p: Params)
    requires Bound(b, 5)
    ensures TouchesDeclared(SILU_MUL_FP4_QUANT, b, p, 1)
  {
    assert OutSlots(SILU_MUL_FP4_QUANT.steps[1]) == [3, 4];
    assert InSlots(SILU_MUL_FP4_QUANT.steps[1]) == [2];
    BufsAre(b, [3, 4]);
    BufsAre(b, [2]);
    hide Bufs, OutSlots, InSlots;
  }

  lemma TouchesSiluFp8Step0(b: Binding, p: Params)
    requires Bound(b, 4)
    ensures TouchesDeclared(SILU_MUL_QUANT_FP8, b, p, 0)
  {
    assert OutSlots(SILU_MUL_QUANT_FP8.steps[0]) == [2];
    assert InSlots(SILU_MUL_QUANT_FP8.steps[0]) == [0, 1];
    BufsAre(b, [2]);
    BufsAre(b, [0, 1]);
    hide Bufs, OutSlots, InSlots;
  }

  lemma TouchesSiluFp8Step1(b: Binding, p: Params)
    requires Bound(b, 4)
    ensures TouchesDeclared(SILU_MUL_QUANT_FP8, b, p, 1)
  {
    assert OutSlots(SILU_MUL_QUANT_FP8.steps[1]) == [3];
    assert InSlots(SILU_MUL_QUANT_FP8.steps[1]) == [2];
    BufsAre(b, [3]);
    BufsAre(b, [2]);
    hide Bufs, OutSlots, InSlots;
  }

  lemma TouchesSigmoidFp4Step0(b: Binding, p: Params)
    requires Bound(b, 5)
    ensures TouchesDeclared(SIGMOID_GATE_FP4_QUANT, b, p, 0)
  {
    assert OutSlots(SIGMOID_GATE_FP4_QUANT.steps[0]) == [2];
    assert InSlots(SIGMOID_GATE_FP4_QUANT.steps[0]) == [0, 1];
    BufsAre(b, [2]);
    BufsAre(b, [0, 1]);
    hide Bufs, OutSlots, InSlots;
  }

  lemma TouchesSigmoidFp4Step1(b: Binding, p: Params)
    requires Bound(b, 5)
    ensures TouchesDeclared(SIGMOID_GATE_FP4_QUANT, b, p, 1)
  {
    assert OutSlots(SIGMOID_GATE_FP4_QUANT.steps[1]) == [3, 4];
    assert InSlots(SIGMOID_GATE_FP4_QUANT.steps[1]) == [2];
    BufsAre(b, [3, 4]);
    BufsAre(b, [2]);
    hide Bufs, OutSlots, InSlots;
  }

  /** Each step's call writes exactly the buffers its declaration calls outputs and reads exactly its inputs. */
  lemma CatalogueTouches(b: Binding, p: Params, i: nat, s: nat)
    requires i < |CATALOGUE| && Bound(b, |CATALOGUE[i].operands|) && s < |CATALOGUE[i].steps|
    ensures WellFormed(CATALOGUE[i]) && TouchesDeclared(CATALOGUE[i], b, p, s)
  {
    hide TouchesDeclared;
    if i == 0 { if s == 0 { TouchesAddNormStep0(b, p); } else { TouchesAddNormStep1(b, p); } }
    if i == 1 { if s == 0 { TouchesAddNormStdStep0(b, p); } else { TouchesAddNormStdStep1(b, p); } }
    if i == 2 {
      if s == 0 { TouchesNormQuantStep0(b, p); } else if s == 1 { TouchesNormQuantStep1(b, p); }
      else { TouchesNormQuantStep2(b, p); }
    }
    if i == 3 { if s == 0 { TouchesGatedQuantStep0(b, p); } else { TouchesGatedQuantStep1(b, p); } }
    if i == 4 { if s == 0 { TouchesSiluFp4Step0(b, p); } else { TouchesSiluFp4Step1(b, p); } }
    if i == 5 { if s == 0 { TouchesSiluFp8Step0(b, p); } else { TouchesSiluFp8Step1(b, p); } }
    if i == 6 { if s == 0 { TouchesSigmoidFp4Step0(b, p); } else { TouchesSigmoidFp4Step1(b, p); } }
    if i == 7 { TouchesAttnStep0(b, p); }
    if i == 8 {
      if s == 0 { TouchesAttnRopeStep0(b, p); } else if s == 1 { TouchesAttnRopeStep1(b, p); }
      else { TouchesAttnRopeStep2(b, p); }
    }
  }
}
