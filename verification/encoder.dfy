/** The control flow of a transformer stack (`TransformerEncoder`) and of
    one of its layers (`TransformerEncoderLayer`).

    The floating-point operations are not computed: the stack's result is
    a `Term` that records which operation ran on which operands, so the
    properties of the control flow can be stated on it: the encoding runs
    once, before the layers; layer i normalises its context only when
    i != 0; the self path attends (b, b, b) and the cross path (a, a, b);
    the running b passes through every layer in order while a stays fixed;
    every attention gets the same mask. */
module Encoder {
  import opened Tensors
  import opened Masks

  /** Self-attention (source and target are the same sequence) or
      cross-attention (the target queries the source). */
  datatype Kind = Self | Cross

  /** The computation a stack performs, over input sequences of type X. */
  datatype Term<X> =
    | Input(x: X)                     // a projected modality sequence
    | Embedded(t: Term<X>)            // + positional and speaker encoding, then dropout
    | Normed(layer: nat, t: Term<X>)  // the layer norm of layer `layer`
    | Attended(layer: nat, key: Term<X>, value: Term<X>, query: Term<X>, mask: Tensor3<bool>)
    | Residual(layer: nat, context: Term<X>, skip: Term<X>)  // dropout(context) + skip
    | FedForward(layer: nat, t: Term<X>)                     // the position-wise feed-forward block

  /** The context input of layer i: normalised except in the first layer. */
  function LayerInput<X>(i: nat, b: Term<X>): (r: Term<X>)
    ensures i == 0 ==> r == b
    ensures i != 0 ==> r.Normed? && r.layer == i && r.t == b
  {
    if i != 0 then Normed(i, b) else b
  }

  /** The attention call of layer i: (b', b', b') on the self path,
      (a, a, b') on the cross path, where b' is the layer's context input. */
  function Attention<X>(i: nat, kind: Kind, a: Term<X>, b': Term<X>, m: Tensor3<bool>): (r: Term<X>)
    ensures r.Attended? && r.layer == i && r.query == b' && r.mask == m
    ensures kind == Self ==> r.key == b' && r.value == b'
    ensures kind == Cross ==> r.key == a && r.value == a
  {
    match kind
    case Self => Attended(i, b', b', b', m)
    case Cross => Attended(i, a, a, b', m)
  }

  /** `TransformerEncoderLayer.forward` for layer i with source a, running
      target b and the stack's disallow mask d. */
  function LayerForward<X>(i: nat, kind: Kind, setting: Setting, a: Term<X>, b: Term<X>, d: Disallow): Term<X>
    requires BuiltFor(setting, d)
  {
    var b' := LayerInput(i, b);
    FedForward(i, Residual(i, Attention(i, kind, a, b', LayerMask(setting, d)), b'))
  }

  /** The first n layers applied in order to b, with a fixed. */
  function Layers<X>(n: nat, kind: Kind, setting: Setting, a: Term<X>, b: Term<X>, d: Disallow): Term<X>
    requires BuiltFor(setting, d)
  {
    if n == 0 then b else LayerForward(n - 1, kind, setting, a, Layers(n - 1, kind, setting, a, b, d), d)
  }

  /** What `TransformerEncoder.forward` computes: the mask, the encoding of
      the inputs (of the target alone on the self path), then the layers. */
  function Stack<X>(kind: Kind, setting: Setting, layers: nat, xa: X, xb: X, mask: Mat<real>, seqLen: nat): Term<X>
    requires IsMat(mask, |mask|, seqLen)
  {
    var d := EncoderMask(setting, mask, seqLen);
    var b := Embedded(Input(xb));
    var a := if kind == Self then b else Embedded(Input(xa));
    Layers(layers, kind, setting, a, b, d)
  }

  /** `TransformerEncoder.forward`: the layer loop reassigns the running
      target `xb`. */
  method EncoderForward<X>(kind: Kind, setting: Setting, layers: nat, xa: X, xb: X, mask: Mat<real>, seqLen: nat)
    returns (out: Term<X>)
    requires IsMat(mask, |mask|, seqLen)
    ensures out == Stack(kind, setting, layers, xa, xb, mask, seqLen)
  {
    var inverted := EncoderMask(setting, mask, seqLen);
    if kind == Self {
      var b := Embedded(Input(xb));
      ghost var b0 := b;
      for i := 0 to layers
        invariant b == Layers(i, Self, setting, b0, b0, inverted)
      {
        b := LayerForward(i, Self, setting, b, b, inverted);
      }
      out := b;
    } else {
      var a := Embedded(Input(xa));
      var b := Embedded(Input(xb));
      ghost var b0 := b;
      for i := 0 to layers
        invariant b == Layers(i, Cross, setting, a, b0, inverted)
      {
        b := LayerForward(i, Cross, setting, a, b, inverted);
      }
      out := b;
    }
  }

  // ---------------------------------------------------------------------
  // Properties of the computation

  /** Every input reaches the computation through exactly one encoding,
      applied directly to it. */
  predicate EncodedOnce<X>(t: Term<X>) {
    match t
    case Input(_) => false
    case Embedded(u) => u.Input?
    case Normed(_, u) => EncodedOnce(u)
    case Attended(_, k, v, q, _) => EncodedOnce(k) && EncodedOnce(v) && EncodedOnce(q)
    case Residual(_, c, s) => EncodedOnce(c) && EncodedOnce(s)
    case FedForward(_, u) => EncodedOnce(u)
  }

  /** The layers whose layer norm runs somewhere in the computation. */
  function NormedLayers<X>(t: Term<X>): set<nat> {
    match t
    case Input(_) => {}
    case Embedded(u) => NormedLayers(u)
    case Normed(i, u) => {i} + NormedLayers(u)
    case Attended(_, k, v, q, _) => NormedLayers(k) + NormedLayers(v) + NormedLayers(q)
    case Residual(_, c, s) => NormedLayers(c) + NormedLayers(s)
    case FedForward(_, u) => NormedLayers(u)
  }

  /** The layers the running target passes through, innermost first. */
  function Path<X>(t: Term<X>): seq<nat> {
    match t
    case FedForward(i, Residual(_, _, s)) =>
      if s.Normed? && s.layer == i then Path(s.t) + [i] else Path(s) + [i]
    case _ => []
  }

  /** The term the running target started from: t with every layer it
      passed through peeled off. */
  function Origin<X>(t: Term<X>): Term<X> {
    match t
    case FedForward(i, Residual(_, _, s)) =>
      if s.Normed? && s.layer == i then Origin(s.t) else Origin(s)
    case _ => t
  }

  /** Every attention in t attends with key = value = query. */
  ghost predicate SelfAttends<X>(t: Term<X>) {
    match t
    case Input(_) => true
    case Embedded(u) => SelfAttends(u)
    case Normed(_, u) => SelfAttends(u)
    case Attended(_, k, v, q, _) => k == q && v == q && SelfAttends(q)
    case Residual(_, c, s) => SelfAttends(c) && SelfAttends(s)
    case FedForward(_, u) => SelfAttends(u)
  }

  /** Every attention in t takes key = value = a, the fixed source. */
  ghost predicate AttendsTo<X>(t: Term<X>, a: Term<X>) {
    match t
    case Input(_) => true
    case Embedded(u) => AttendsTo(u, a)
    case Normed(_, u) => AttendsTo(u, a)
    case Attended(_, k, v, q, _) => k == a && v == a && AttendsTo(q, a)
    case Residual(_, c, s) => AttendsTo(c, a) && AttendsTo(s, a)
    case FedForward(_, u) => AttendsTo(u, a)
  }

  /** Every layer in t is laid out as layer i of `TransformerEncoderLayer`:
      its feed-forward block, residual and attention all belong to layer i,
      the attention's query is the residual's skip (the layer's context
      input), and for i != 0 that context is the output of layer i's own
      layer norm. */
  ghost predicate QueriesContext<X>(t: Term<X>) {
    match t
    case Input(_) => true
    case Embedded(u) => QueriesContext(u)
    case Normed(_, u) => QueriesContext(u)
    case Attended(_, k, v, q, _) => QueriesContext(k) && QueriesContext(v) && QueriesContext(q)
    case Residual(_, c, s) => QueriesContext(c) && QueriesContext(s)
    case FedForward(i, u) =>
      && u.Residual? && u.layer == i
      && u.context.Attended? && u.context.layer == i && u.context.query == u.skip
      && (i != 0 ==> u.skip.Normed? && u.skip.layer == i)
      && QueriesContext(u)
  }

  /** Every attention in t is given the mask m. */
  predicate MaskedWith<X>(t: Term<X>, m: Tensor3<bool>) {
    match t
    case Input(_) => true
    case Embedded(u) => MaskedWith(u, m)
    case Normed(_, u) => MaskedWith(u, m)
    case Attended(_, k, v, q, m') => m' == m && MaskedWith(k, m) && MaskedWith(v, m) && MaskedWith(q, m)
    case Residual(_, c, s) => MaskedWith(c, m) && MaskedWith(s, m)
    case FedForward(_, u) => MaskedWith(u, m)
  }

  /** No layer has run on t yet. */
  predicate Raw<X>(t: Term<X>) {
    t.Input? || (t.Embedded? && t.t.Input?)
  }

  lemma LayerEncodedOnce<X>(i: nat, kind: Kind, setting: Setting, a: Term<X>, b: Term<X>, d: Disallow)
    requires BuiltFor(setting, d) && EncodedOnce(a) && EncodedOnce(b)
    ensures EncodedOnce(LayerForward(i, kind, setting, a, b, d))
  {
    var b' := LayerInput(i, b);
    var c := Attention(i, kind, a, b', LayerMask(setting, d));
    assert EncodedOnce(b') && EncodedOnce(c);
    assert EncodedOnce(Residual(i, c, b'));
  }

  lemma {:induction false} LayersEncodedOnce<X>(n: nat, kind: Kind, setting: Setting, a: Term<X>, b: Term<X>, d: Disallow)
    requires BuiltFor(setting, d) && EncodedOnce(a) && EncodedOnce(b)
    ensures EncodedOnce(Layers(n, kind, setting, a, b, d))
  {
    if n > 0 {
      LayersEncodedOnce(n - 1, kind, setting, a, b, d);
      LayerEncodedOnce(n - 1, kind, setting, a, Layers(n - 1, kind, setting, a, b, d), d);
    }
  }

  /** The positional and speaker encoding runs once per input, before the
      first layer, however many layers the stack has. */
  lemma {:induction false} StackEncodesOnce<X>(kind: Kind, setting: Setting, layers: nat, xa: X, xb: X,
                                               mask: Mat<real>, seqLen: nat)
    requires IsMat(mask, |mask|, seqLen)
    ensures EncodedOnce(Stack(kind, setting, layers, xa, xb, mask, seqLen))
  {
    var d := EncoderMask(setting, mask, seqLen);
    var b := Embedded(Input(xb));
    var a := if kind == Self then b else Embedded(Input(xa));
    LayersEncodedOnce(layers, kind, setting, a, b, d);
  }

  lemma {:induction false} LayersNormed<X>(n: nat, kind: Kind, setting: Setting, a: Term<X>, b: Term<X>, d: Disallow)
    requires BuiltFor(setting, d) && NormedLayers(a) == {} && NormedLayers(b) == {}
    ensures forall i :: i in NormedLayers(Layers(n, kind, setting, a, b, d)) <==> 0 < i < n
  {
    if n > 0 {
      LayersNormed(n - 1, kind, setting, a, b, d);
      var prev := Layers(n - 1, kind, setting, a, b, d);
      var b' := LayerInput(n - 1, prev);
      var c := Attention(n - 1, kind, a, b', LayerMask(setting, d));
      assert NormedLayers(c) == NormedLayers(b') + NormedLayers(a);
      assert NormedLayers(Layers(n, kind, setting, a, b, d)) == NormedLayers(c) + NormedLayers(b');
    }
  }

  /** Layer i normalises its context exactly when i != 0: in a stack of n
      layers the layer norms of layers 1 .. n-1 run, and no other. */
  lemma {:induction false} StackNormsAllButFirst<X>(kind: Kind, setting: Setting, layers: nat, xa: X, xb: X,
                                                    mask: Mat<real>, seqLen: nat)
    requires IsMat(mask, |mask|, seqLen)
    ensures forall i :: i in NormedLayers(Stack(kind, setting, layers, xa, xb, mask, seqLen)) <==> 0 < i < layers
  {
    var d := EncoderMask(setting, mask, seqLen);
    var b := Embedded(Input(xb));
    var a := if kind == Self then b else Embedded(Input(xa));
    LayersNormed(layers, kind, setting, a, b, d);
  }

  lemma {:induction false} LayersPath<X>(n: nat, kind: Kind, setting: Setting, a: Term<X>, b: Term<X>, d: Disallow)
    requires BuiltFor(setting, d) && Raw(b)
    ensures Path(Layers(n, kind, setting, a, b, d)) == seq(n, i => i)
    ensures Origin(Layers(n, kind, setting, a, b, d)) == b
  {
    if n > 0 {
      LayersPath(n - 1, kind, setting, a, b, d);
      var prev := Layers(n - 1, kind, setting, a, b, d);
      LayerPath(n - 1, kind, setting, a, prev, d);
      assert seq(n, i => i) == seq(n - 1, i => i) + [n - 1];
    }
  }

  /** One layer appends its own index to the path of its input, provided
      the first layer's input is not itself a normalised term. */
  lemma LayerPath<X>(i: nat, kind: Kind, setting: Setting, a: Term<X>, b: Term<X>, d: Disallow)
    requires BuiltFor(setting, d) && (i > 0 || !b.Normed?)
    ensures Path(LayerForward(i, kind, setting, a, b, d)) == Path(b) + [i]
    ensures Origin(LayerForward(i, kind, setting, a, b, d)) == Origin(b)
  {
  }

  /** The running target starts from the encoded target input and passes
      through layers 0, 1, ..., n-1, each once and in that order. */
  lemma {:induction false} StackThreadsTarget<X>(kind: Kind, setting: Setting, layers: nat, xa: X, xb: X,
                                                 mask: Mat<real>, seqLen: nat)
    requires IsMat(mask, |mask|, seqLen)
    ensures Path(Stack(kind, setting, layers, xa, xb, mask, seqLen)) == seq(layers, i => i)
    ensures Origin(Stack(kind, setting, layers, xa, xb, mask, seqLen)) == Embedded(Input(xb))
  {
    var d := EncoderMask(setting, mask, seqLen);
    var b := Embedded(Input(xb));
    var a := if kind == Self then b else Embedded(Input(xa));
    LayersPath(layers, kind, setting, a, b, d);
  }

  lemma {:induction false} LayersSelfAttend<X>(n: nat, setting: Setting, a: Term<X>, b: Term<X>, d: Disallow)
    requires BuiltFor(setting, d) && SelfAttends(b)
    ensures SelfAttends(Layers(n, Self, setting, a, b, d))
  {
    if n > 0 {
      LayersSelfAttend(n - 1, setting, a, b, d);
      var b' := LayerInput(n - 1, Layers(n - 1, Self, setting, a, b, d));
      assert SelfAttends(b');
      var c := Attention(n - 1, Self, a, b', LayerMask(setting, d));
      assert SelfAttends(c);
      assert SelfAttends(Residual(n - 1, c, b'));
    }
  }

  lemma {:induction false} LayersCrossAttend<X>(n: nat, setting: Setting, a: Term<X>, b: Term<X>, d: Disallow)
    requires BuiltFor(setting, d) && AttendsTo(b, a)
    ensures AttendsTo(Layers(n, Cross, setting, a, b, d), a)
  {
    if n > 0 {
      LayersCrossAttend(n - 1, setting, a, b, d);
      var b' := LayerInput(n - 1, Layers(n - 1, Cross, setting, a, b, d));
      assert AttendsTo(b', a);
      var c := Attention(n - 1, Cross, a, b', LayerMask(setting, d));
      assert AttendsTo(c, a);
      assert AttendsTo(Residual(n - 1, c, b'), a);
    }
  }

  /** One layer queries its attention with its own context input. */
  lemma LayerQueriesContext<X>(i: nat, kind: Kind, setting: Setting, a: Term<X>, b: Term<X>, d: Disallow)
    requires BuiltFor(setting, d) && QueriesContext(a) && QueriesContext(b)
    ensures QueriesContext(LayerForward(i, kind, setting, a, b, d))
  {
    var b' := LayerInput(i, b);
    assert QueriesContext(b');
    var c := Attention(i, kind, a, b', LayerMask(setting, d));
    assert QueriesContext(c);
    assert QueriesContext(Residual(i, c, b'));
  }

  lemma {:induction false} LayersQueryContext<X>(n: nat, kind: Kind, setting: Setting, a: Term<X>, b: Term<X>, d: Disallow)
    requires BuiltFor(setting, d) && QueriesContext(a) && QueriesContext(b)
    ensures QueriesContext(Layers(n, kind, setting, a, b, d))
  {
    if n > 0 {
      LayersQueryContext(n - 1, kind, setting, a, b, d);
      LayerQueriesContext(n - 1, kind, setting, a, Layers(n - 1, kind, setting, a, b, d), d);
    }
  }

  /** The self path attends (b', b', b') in every layer; the cross path
      attends (a, a, b') with the same encoded source a in every layer; on
      both paths the query b' of layer i is that layer's context input, the
      running target normalised by layer i's own norm when i != 0. */
  lemma {:induction false} StackAttentionOperands<X>(kind: Kind, setting: Setting, layers: nat, xa: X, xb: X,
                                                     mask: Mat<real>, seqLen: nat)
    requires IsMat(mask, |mask|, seqLen)
    ensures kind == Self ==> SelfAttends(Stack(kind, setting, layers, xa, xb, mask, seqLen))
    ensures kind == Cross ==> AttendsTo(Stack(kind, setting, layers, xa, xb, mask, seqLen), Embedded(Input(xa)))
    ensures QueriesContext(Stack(kind, setting, layers, xa, xb, mask, seqLen))
  {
    var d := EncoderMask(setting, mask, seqLen);
    var b := Embedded(Input(xb));
    var a := if kind == Self then b else Embedded(Input(xa));
    if kind == Self {
      LayersSelfAttend(layers, setting, b, b, d);
    } else {
      LayersCrossAttend(layers, setting, a, b, d);
    }
    LayersQueryContext(layers, kind, setting, a, b, d);
  }

  lemma {:induction false} LayersMasked<X>(n: nat, kind: Kind, setting: Setting, a: Term<X>, b: Term<X>, d: Disallow)
    requires BuiltFor(setting, d)
    requires MaskedWith(a, LayerMask(setting, d)) && MaskedWith(b, LayerMask(setting, d))
    ensures MaskedWith(Layers(n, kind, setting, a, b, d), LayerMask(setting, d))
  {
    if n > 0 {
      LayersMasked(n - 1, kind, setting, a, b, d);
      LayerMasked(n - 1, kind, setting, a, Layers(n - 1, kind, setting, a, b, d), d);
    }
  }

  /** One layer gives its attention the layer mask and keeps its inputs'
      masks. */
  lemma LayerMasked<X>(i: nat, kind: Kind, setting: Setting, a: Term<X>, b: Term<X>, d: Disallow)
    requires BuiltFor(setting, d)
    requires MaskedWith(a, LayerMask(setting, d)) && MaskedWith(b, LayerMask(setting, d))
    ensures MaskedWith(LayerForward(i, kind, setting, a, b, d), LayerMask(setting, d))
  {
    var m := LayerMask(setting, d);
    var b' := LayerInput(i, b);
    assert MaskedWith(b', m);
    var c := Attention(i, kind, a, b', m);
    assert MaskedWith(c, m);
    assert MaskedWith(Residual(i, c, b'), m);
  }

  /** The mask is built once per stack: every attention of every layer is
      given the same mask, and that mask hides exactly the cells the
      reference policy disallows. */
  lemma {:induction false} StackMasksEveryLayer<X>(kind: Kind, setting: Setting, layers: nat, xa: X, xb: X,
                                                   mask: Mat<real>, seqLen: nat, heads: nat)
    requires IsMat(mask, |mask|, seqLen)
    ensures MaskedWith(Stack(kind, setting, layers, xa, xb, mask, seqLen), StackMask(setting, mask, seqLen))
    ensures var m := AttentionMask(StackMask(setting, mask, seqLen), |mask|, heads, seqLen, seqLen);
            forall b, h, i, j :: 0 <= b < |mask| && 0 <= h < heads && 0 <= i < seqLen && 0 <= j < seqLen ==>
              (m[b][h][i][j] <==> Disallowed(setting, mask, b, i, j))
  {
    var d := EncoderMask(setting, mask, seqLen);
    var b := Embedded(Input(xb));
    var a := if kind == Self then b else Embedded(Input(xa));
    LayersMasked(layers, kind, setting, a, b, d);
    AttentionMaskExact(setting, mask, seqLen, heads);
  }
}
