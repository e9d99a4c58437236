/**
 include/vt/fused_recipe.h and include/vt/recipes.h: a fusion declared as an opcode list over an indexed
 operand table, the tensors bound to its slots (several slots may name one buffer), and the catalogue.
 */
module FusedRecipe {
  import opened Options

  const MAX_STEPS := 8
  const MAX_OPERANDS := 8

  datatype Opcode = AddOp | MulOp | SiluOp | SigmoidOp | RmsNormOp | SiluMulOp | SigmoidGateOp
                  | RmsNormGatedOp | RopeOp | QuantFp8Op | QuantFp4Op | AttnOp

  datatype Kind = Row | Weight | Residual | Aux

  /** One step; `ins` is the array of three slot numbers of which `nin` are used. */
  datatype Step = Step(op: Opcode, out: nat, ins: seq<nat>, nin: nat, out2: Option<nat>, gemma: bool, sigmoidGate: bool)

  /** The ops that realize a whole recipe in one launch; any other id has no dispatch case. */
  datatype FastOp = NormQuant | GatedNormQuant | SiluMulQuant | SigmoidGateQuant | Unlisted(id: nat)

  datatype Recipe = Recipe(steps: seq<Step>, operands: seq<Kind>, fastOp: Option<FastOp>)

  /** What the plain data types guarantee: three input cells a step, and a second output inside the table. */
  predicate WellFormed(r: Recipe) {
    forall s :: 0 <= s < |r.steps| ==>
      |r.steps[s].ins| == 3 && (r.steps[s].out2.Some? ==> r.steps[s].out2.value < MAX_OPERANDS)
  }

  predicate Elementwise(op: Opcode) {
    op in {AddOp, MulOp, SiluOp, SigmoidOp, RmsNormOp}
  }

  predicate IsTier1Able(r: Recipe) {
    forall s :: 0 <= s < |r.steps| ==> Elementwise(r.steps[s].op)
  }

  // ----- operands -----

  /** A bound tensor: which buffer it lies in and how it is viewed. Views of one buffer all cover it. */
  datatype Ref = Ref(buf: nat, view: nat)

  datatype Binding = Binding(op: seq<Option<Ref>>, n: nat)

  predicate BindingOk(b: Binding) {
    |b.op| == MAX_OPERANDS && b.n <= MAX_OPERANDS
  }

  /** The checked operand fetch: None is a failed check. */
  function Fetch(b: Binding, slot: nat): (r: Option<Ref>)
    requires BindingOk(b)
  {
    if slot < b.n then b.op[slot] else None
  }

  /** Runtime scalars, as the bit patterns the kernels receive. */
  datatype Params = Params(eps: nat, quantScale: nat, fp4Layout: nat, rope: nat)

  // ----- standalone ops -----

  datatype Call =
    | Add(x: Ref, res: Ref)
    | RmsNorm(out: Ref, x: Ref, w: Ref, eps: nat, gemma: bool, residual: Option<Ref>)
    | RmsNormGated(out: Ref, x: Ref, gate: Ref, w: Ref, eps: nat, sigmoidGate: bool)
    | SiluMul(out: Ref, gate: Ref, up: Ref)
    | SigmoidGate(out: Ref, attn: Ref, gate: Ref)
    | Rope(q: Ref, k: Option<Ref>, pos: Ref, cosSin: Ref, rope: nat)
    | QuantFp8(out: Ref, a: Ref, scale: nat)
    | QuantFp4(packed: Ref, scales: Ref, a: Ref, scale: nat, layout: nat)
    | Attn(qOut: Ref, kOut: Ref, gateOut: Ref, qgate: Ref, kf: Ref, qNorm: Ref, kNorm: Ref, cosSin: Ref,
           eps: nat, gemma: bool, rope: nat)
    | RmsNormQuantFp8(out: Ref, outBf16: Option<Ref>, x: Ref, w: Ref, eps: nat, gemma: bool, residual: Option<Ref>,
                      scale: nat)
    | RmsNormGatedQuantFp8(out: Ref, x: Ref, gate: Ref, w: Ref, eps: nat, sigmoidGate: bool, scale: nat)
    | SiluMulFp4Quant(packed: Ref, scales: Ref, gate: Ref, up: Ref, scale: nat, layout: nat)
    | SigmoidGateFp4Quant(packed: Ref, scales: Ref, attn: Ref, gate: Ref, scale: nat, layout: nat)
    | Interpret(out: Ref, x: Ref, w: Ref, residual: Option<Ref>, recipe: Recipe, eps: nat)

  function BufOf(o: Option<Ref>): set<nat> {
    if o.Some? then {o.value.buf} else {}
  }

  function Writes(c: Call): set<nat> {
    match c
    case Add(_, res) => {res.buf}
    case RmsNorm(out, _, _, _, _, residual) => {out.buf} + BufOf(residual)
    case RmsNormGated(out, _, _, _, _, _) => {out.buf}
    case SiluMul(out, _, _) => {out.buf}
    case SigmoidGate(out, _, _) => {out.buf}
    case Rope(q, k, _, _, _) => {q.buf} + BufOf(k)
    case QuantFp8(out, _, _) => {out.buf}
    case QuantFp4(packed, scales, _, _, _) => {packed.buf, scales.buf}
    case Attn(qOut, kOut, gateOut, _, _, _, _, _, _, _, _) => {qOut.buf, kOut.buf, gateOut.buf}
    case RmsNormQuantFp8(out, outBf16, _, _, _, _, residual, _) => {out.buf} + BufOf(outBf16) + BufOf(residual)
    case RmsNormGatedQuantFp8(out, _, _, _, _, _, _) => {out.buf}
    case SiluMulFp4Quant(packed, scales, _, _, _, _) => {packed.buf, scales.buf}
    case SigmoidGateFp4Quant(packed, scales, _, _, _, _) => {packed.buf, scales.buf}
    case Interpret(out, _, _, residual, _, _) => {out.buf} + BufOf(residual)
  }

  function Reads(c: Call): set<nat> {
    match c
    case Add(x, res) => {x.buf, res.buf}
    case RmsNorm(_, x, w, _, _, residual) => {x.buf, w.buf} + BufOf(residual)
    case RmsNormGated(_, x, gate, w, _, _) => {x.buf, gate.buf, w.buf}
    case SiluMul(_, gate, up) => {gate.buf, up.buf}
    case SigmoidGate(_, attn, gate) => {attn.buf, gate.buf}
    case Rope(q, k, pos, cosSin, _) => {q.buf, pos.buf, cosSin.buf} + BufOf(k)
    case QuantFp8(_, a, _) => {a.buf}
    case QuantFp4(_, _, a, _, _) => {a.buf}
    case Attn(_, _, _, qgate, kf, qNorm, kNorm, cosSin, _, _, _) =>
      {qgate.buf, kf.buf, qNorm.buf, kNorm.buf, cosSin.buf}
    case RmsNormQuantFp8(_, _, x, w, _, _, residual, _) => {x.buf, w.buf} + BufOf(residual)
    case RmsNormGatedQuantFp8(_, x, gate, w, _, _, _) => {x.buf, gate.buf, w.buf}
    case SiluMulFp4Quant(_, _, gate, up, _, _) => {gate.buf, up.buf}
    case SigmoidGateFp4Quant(_, _, attn, gate, _, _) => {attn.buf, gate.buf}
    case Interpret(_, x, w, residual, _, _) => {x.buf, w.buf} + BufOf(residual)
  }

  function Touches(c: Call): set<nat> {
    Reads(c) + Writes(c)
  }

  // ----- kernels -----

  /** What a backend's ops do: the new contents of a buffer the call writes, from the memory before it. */
  type Kernels<!B> = (Call, seq<B>, nat) -> B

  /** The memory after one call. */
  function Run<B>(k: Kernels<B>, c: Call, m: seq<B>): (r: seq<B>)
    ensures |r| == |m| && forall i :: 0 <= i < |m| ==> r[i] == if i in Writes(c) then k(c, m, i) else m[i]
  {
    seq(|m|, i requires 0 <= i < |m| => if i in Writes(c) then k(c, m, i) else m[i])
  }

  /** The memory after a list of calls. */
  function RunAll<B>(k: Kernels<B>, cs: seq<Call>, m: seq<B>): (r: seq<B>)
    ensures |r| == |m|
  {
    if cs == [] then m else Run(k, cs[|cs| - 1], RunAll(k, cs[..|cs| - 1], m))
  }

  ghost predicate Agree<B>(m: seq<B>, m': seq<B>, bufs: set<nat>) {
    |m| == |m'| && forall i :: 0 <= i < |m| && i in bufs ==> m[i] == m'[i]
  }

  /** An op sees nothing but the buffers it is given. */
  ghost predicate Local<B(!new)>(k: Kernels<B>) {
    forall c, m: seq<B>, m': seq<B>, i: nat :: Agree(m, m', Touches(c)) && i in Writes(c) && i < |m| ==>
      k(c, m, i) == k(c, m', i)
  }

  /**
   The standalone norm with a residual is documented as residual += x, then the norm of the residual. Its
   row loop writes the residual as it goes, so this is promised only when the weight is another buffer.
   */
  ghost predicate ResidualContract<B(!new)>(k: Kernels<B>) {
    forall out: Ref, x: Ref, w: Ref, eps: nat, gemma: bool, res: Ref, m: seq<B> :: w.buf != res.buf ==>
      Run(k, RmsNorm(out, x, w, eps, gemma, Some(res)), m)
      == Run(k, RmsNorm(out, res, w, eps, gemma, None), Run(k, Add(x, res), m))
  }

  lemma RunAllSnoc<B>(k: Kernels<B>, cs: seq<Call>, c: Call, m: seq<B>)
    ensures RunAll(k, cs + [c], m) == Run(k, c, RunAll(k, cs, m))
  {
    assert (cs + [c])[..|cs|] == cs;
  }

  /** A call that neither touches the residual nor writes x may be swapped with the residual add. */
  lemma AddCommutes<B(!new)>(k: Kernels<B>, x: Ref, res: Ref, c: Call, m: seq<B>)
    requires Local(k) && res.buf !in Touches(c) && x.buf !in Writes(c)
    ensures Run(k, c, Run(k, Add(x, res), m)) == Run(k, Add(x, res), Run(k, c, m))
  {
    var add := Add(x, res);
    assert Writes(add) == {res.buf} && Touches(add) == {x.buf, res.buf};
    hide Writes, Reads;
    var ma, mc := Run(k, add, m), Run(k, c, m);
    assert Agree(m, ma, Touches(c));
    assert Agree(m, mc, Touches(add));
    forall i | 0 <= i < |m| ensures Run(k, c, ma)[i] == Run(k, add, mc)[i] {
    }
  }

  // ----- the catalogue -----

  const FUSED_ADD_RMS_NORM := Recipe(
    [Step(AddOp, 2, [0, 2, 0], 2, None, false, false),
     Step(RmsNormOp, 3, [2, 1, 0], 2, None, true, false)],
    [Row, Weight, Residual, Row], None)
  const FUSED_ADD_RMS_NORM_STD := Recipe(
    [Step(AddOp, 2, [0, 2, 0], 2, None, false, false),
     Step(RmsNormOp, 3, [2, 1, 0], 2, None, false, false)],
    [Row, Weight, Residual, Row], None)
  const RMS_NORM_QUANT_FP8 := Recipe(
    [Step(AddOp, 2, [0, 2, 0], 2, None, false, false),
     Step(RmsNormOp, 3, [2, 1, 0], 2, None, true, false),
     Step(QuantFp8Op, 4, [3, 0, 0], 1, None, false, false)],
    [Row, Weight, Residual, Row, Aux], Some(NormQuant))
  const RMS_NORM_GATED_QUANT_FP8 := Recipe(
    [Step(RmsNormGatedOp, 3, [0, 1, 2], 3, None, false, false),
     Step(QuantFp8Op, 4, [3, 0, 0], 1, None, false, false)],
    [Row, Row, Weight, Row, Aux], Some(GatedNormQuant))
  const SILU_MUL_FP4_QUANT := Recipe(
    [Step(SiluMulOp, 2, [0, 1, 0], 2, None, false, false),
     Step(QuantFp4Op, 3, [2, 0, 0], 1, Some(4), false, false)],
    [Row, Row, Row, Aux, Aux], Some(SiluMulQuant))
  const SILU_MUL_QUANT_FP8 := Recipe(
    [Step(SiluMulOp, 2, [0, 1, 0], 2, None, false, false),
     Step(QuantFp8Op, 3, [2, 0, 0], 1, None, false, false)],
    [Row, Row, Row, Aux], None)
  const SIGMOID_GATE_FP4_QUANT := Recipe(
    [Step(SigmoidGateOp, 2, [0, 1, 0], 2, None, false, false),
     Step(QuantFp4Op, 3, [2, 0, 0], 1, Some(4), false, false)],
    [Row, Row, Row, Aux, Aux], Some(SigmoidGateQuant))
  const ATTN_QK_NORM_ROPE_GATE := Recipe(
    [Step(AttnOp, 5, [0, 1, 4], 3, None, true, false)],
    [Aux, Aux, Weight, Weight, Aux, Aux, Aux, Aux], None)
  const ATTN_QK_NORM_ROPE := Recipe(
    [Step(RmsNormOp, 0, [0, 1, 0], 2, None, false, false),
     Step(RmsNormOp, 2, [2, 3, 0], 2, None, false, false),
     Step(RopeOp, 4, [4, 6, 7], 3, Some(5), false, false)],
    [Row, Weight, Row, Weight, Aux, Aux, Aux, Aux], None)

  const CATALOGUE := [FUSED_ADD_RMS_NORM, FUSED_ADD_RMS_NORM_STD, RMS_NORM_QUANT_FP8, RMS_NORM_GATED_QUANT_FP8,
                      SILU_MUL_FP4_QUANT, SILU_MUL_QUANT_FP8, SIGMOID_GATE_FP4_QUANT, ATTN_QK_NORM_ROPE_GATE,
                      ATTN_QK_NORM_ROPE]
}
