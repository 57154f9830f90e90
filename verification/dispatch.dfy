/** The top-level orchestration of `Transformer_Based_Model.forward` and
    `Transformer_Based_Model_diverse.forward` (the two share it line for
    line): the nine pairwise stacks, and the modality selector that decides
    which pairwise outputs are concatenated for each target modality, in
    what order, which fusion gate runs, and which outputs are returned. */
module Dispatch {
  import opened Tensors
  import opened Masks
  import opened Encoder

  datatype Modality = Text | Audio | Visual

  /** The modality selector: "t", "a", "at", or anything else (all three). */
  datatype Selection = T | A | AT | ATV

  function ParseSelection(s: string): (r: Selection)
    ensures r == T <==> s == "t"
    ensures r == A <==> s == "a"
    ensures r == AT <==> s == "at"
    ensures r == ATV <==> s != "t" && s != "a" && s != "at"
  {
    if s == "t" then T else if s == "a" then A else if s == "at" then AT else ATV
  }

  /** A pairwise stack: the target modality queries the source modality
      (`a_t` has source audio and target text). */
  datatype Pair = Pair(source: Modality, target: Modality)

  /** The nine stacks, in the order `forward` runs them. */
  const AllPairs: seq<Pair> := [
    Pair(Text, Text), Pair(Audio, Text), Pair(Visual, Text),
    Pair(Audio, Audio), Pair(Text, Audio), Pair(Visual, Audio),
    Pair(Visual, Visual), Pair(Text, Visual), Pair(Audio, Visual)]

  /** The path a pairwise stack takes: self exactly for the three pairs
      whose source is their target. */
  function KindOf(p: Pair): (k: Kind)
    ensures k == Self <==> p.source == p.target
  {
    if p.source == p.target then Self else Cross
  }

  function Feature<X>(m: Modality, text: X, audio: X, visual: X): X {
    match m
    case Text => text
    case Audio => audio
    case Visual => visual
  }

  /** The call `self.<source>_<target>(<source>f, <target>f, u_mask,
      spk_embeddings, setting)`, with the self/cross choice made explicit. */
  function PairStack<X>(p: Pair, setting: Setting, layers: nat, text: X, audio: X, visual: X,
                        mask: Mat<real>, seqLen: nat): Term<X>
    requires IsMat(mask, |mask|, seqLen)
  {
    Stack(KindOf(p), setting, layers, Feature(p.source, text, audio, visual),
          Feature(p.target, text, audio, visual), mask, seqLen)
  }

  /** One linear reduction: the pairwise outputs concatenated, in order,
      into the representation of `target`. */
  datatype Reduction = Reduction(target: Modality, inputs: seq<Pair>)

  /** A returned tensor: per-modality log-probabilities, the joint
      log-probabilities and probabilities, and their temperature-scaled
      versions. */
  datatype Output = LogProb(m: Modality) | AllLogProb | AllProb | KlLogProb(m: Modality) | KlAllProb

  /** What one branch of the selector does: its reductions, the arity of
      the multimodal gate it calls, and the tuple it returns. */
  datatype Plan = Plan(reductions: seq<Reduction>, gateArity: nat, outputs: seq<Output>)

  /** The selector branches at the end of `forward`. */
  function Forward(modality: string): Plan {
    if modality == "t" then
      Plan([Reduction(Text, [Pair(Text, Text)])], 1,
           [LogProb(Text), AllLogProb, AllProb, KlLogProb(Text), KlAllProb])
    else if modality == "a" then
      Plan([Reduction(Audio, [Pair(Audio, Audio)])], 1,
           [LogProb(Audio), AllLogProb, AllProb, KlLogProb(Audio), KlAllProb])
    else if modality == "at" then
      Plan([Reduction(Text, [Pair(Text, Text), Pair(Audio, Text)]),
            Reduction(Audio, [Pair(Audio, Audio), Pair(Text, Audio)])], 2,
           [LogProb(Text), LogProb(Audio), AllLogProb, AllProb,
            KlLogProb(Text), KlLogProb(Audio), KlAllProb])
    else
      Plan([Reduction(Text, [Pair(Text, Text), Pair(Audio, Text), Pair(Visual, Text)]),
            Reduction(Audio, [Pair(Audio, Audio), Pair(Text, Audio), Pair(Visual, Audio)]),
            Reduction(Visual, [Pair(Visual, Visual), Pair(Text, Visual), Pair(Audio, Visual)])], 3,
           [LogProb(Text), LogProb(Audio), LogProb(Visual), AllLogProb, AllProb,
            KlLogProb(Text), KlLogProb(Audio), KlLogProb(Visual), KlAllProb])
  }

  // ---------------------------------------------------------------------
  // The reference policy the branches follow

  /** The modalities a selection uses, in the order text, audio, visual. */
  function Present(s: Selection): (ms: seq<Modality>)
    ensures 1 <= |ms| <= 3
  {
    match s
    case T => [Text]
    case A => [Audio]
    case AT => [Text, Audio]
    case ATV => [Text, Audio, Visual]
  }

  function Without(ms: seq<Modality>, m: Modality): (r: seq<Modality>)
    ensures forall x :: x in r <==> x in ms && x != m
  {
    if ms == [] then [] else (if ms[0] == m then [] else [ms[0]]) + Without(ms[1..], m)
  }

  /** The sources whose outputs are concatenated for `target`: the target's
      own self pair first, then the other present modalities in order. */
  function Sources(s: Selection, target: Modality): seq<Modality> {
    [target] + Without(Present(s), target)
  }

  function PairsInto(sources: seq<Modality>, target: Modality): (ps: seq<Pair>)
    ensures |ps| == |sources| && forall k :: 0 <= k < |ps| ==> ps[k] == Pair(sources[k], target)
  {
    if sources == [] then [] else [Pair(sources[0], target)] + PairsInto(sources[1..], target)
  }

  function Map<A, B>(f: A -> B, xs: seq<A>): (r: seq<B>)
    ensures |r| == |xs| && forall k :: 0 <= k < |xs| ==> r[k] == f(xs[k])
  {
    if xs == [] then [] else [f(xs[0])] + Map(f, xs[1..])
  }

  /** The outputs of a selection: a log-probability per present modality,
      the joint log-probabilities and probabilities, the scaled
      log-probability per present modality, and the scaled joint
      probabilities. */
  function ExpectedOutputs(ms: seq<Modality>): seq<Output> {
    Map(m => LogProb(m), ms) + [AllLogProb, AllProb] + Map(m => KlLogProb(m), ms) + [KlAllProb]
  }

  /** A plan follows the reference policy for a selection: one reduction
      per present modality, in order, each concatenating the self pair
      first and then the other present sources in order; a gate over
      exactly the reduced representations; and the outputs listed by
      `ExpectedOutputs`. */
  predicate FollowsPolicy(p: Plan, sel: Selection) {
    var ms := Present(sel);
    && |p.reductions| == |ms| == p.gateArity
    && (forall k :: 0 <= k < |ms| ==>
          p.reductions[k] == Reduction(ms[k], PairsInto(Sources(sel, ms[k]), ms[k])))
    && p.outputs == ExpectedOutputs(ms)
  }

  /** Every branch of the selector follows the reference policy for the
      selection its string names. */
  lemma {:induction false} DispatchFollowsPolicy(modality: string)
    ensures FollowsPolicy(Forward(modality), ParseSelection(modality))
  {
    match ParseSelection(modality)
    case T => FollowsT(modality);
    case A => FollowsA(modality);
    case AT => FollowsAT(modality);
    case ATV => FollowsATV(modality);
  }

  lemma FollowsT(modality: string)
    requires modality == "t"
    ensures FollowsPolicy(Forward(modality), T)
  {
    assert Sources(T, Text) == [Text] by { assert Without([Text], Text) == []; }
    assert ExpectedOutputs([Text]) == Forward(modality).outputs;
  }

  lemma FollowsA(modality: string)
    requires modality == "a"
    ensures FollowsPolicy(Forward(modality), A)
  {
    assert Sources(A, Audio) == [Audio] by { assert Without([Audio], Audio) == []; }
    assert ExpectedOutputs([Audio]) == Forward(modality).outputs;
  }

  lemma FollowsAT(modality: string)
    requires modality == "at"
    ensures FollowsPolicy(Forward(modality), AT)
  {
    var ms := [Text, Audio];
    var p := Forward(modality);
    assert Sources(AT, Text) == [Text, Audio] by { WithoutStep(ms, Text); }
    assert Sources(AT, Audio) == [Audio, Text] by { WithoutStep(ms, Audio); }
    forall k | 0 <= k < 2
      ensures p.reductions[k] == Reduction(ms[k], PairsInto(Sources(AT, ms[k]), ms[k]))
    {
      var ps := PairsInto(Sources(AT, ms[k]), ms[k]);
      assert ps == p.reductions[k].inputs;
    }
    PairOutputs();
  }

  lemma PairOutputs()
    ensures ExpectedOutputs([Text, Audio]) ==
              [LogProb(Text), LogProb(Audio), AllLogProb, AllProb, KlLogProb(Text), KlLogProb(Audio), KlAllProb]
  {
  }

  lemma FollowsATV(modality: string)
    requires ParseSelection(modality) == ATV
    ensures FollowsPolicy(Forward(modality), ATV)
  {
    var ms := [Text, Audio, Visual];
    var p := Forward(modality);
    assert p.outputs == [LogProb(Text), LogProb(Audio), LogProb(Visual), AllLogProb, AllProb,
                         KlLogProb(Text), KlLogProb(Audio), KlLogProb(Visual), KlAllProb];
    assert Sources(ATV, Text) == [Text, Audio, Visual] by { WithoutStep(ms, Text); }
    assert Sources(ATV, Audio) == [Audio, Text, Visual] by { WithoutStep(ms, Audio); }
    assert Sources(ATV, Visual) == [Visual, Text, Audio] by { WithoutStep(ms, Visual); }
    forall k | 0 <= k < 3
      ensures p.reductions[k] == Reduction(ms[k], PairsInto(Sources(ATV, ms[k]), ms[k]))
    {
      var ps := PairsInto(Sources(ATV, ms[k]), ms[k]);
      assert ps == p.reductions[k].inputs;
    }
    assert |p.reductions| == |ms| == p.gateArity;
    FullOutputs();
    assert p.outputs == ExpectedOutputs(ms);
  }

  lemma FullOutputs()
    ensures ExpectedOutputs([Text, Audio, Visual]) ==
              [LogProb(Text), LogProb(Audio), LogProb(Visual), AllLogProb, AllProb,
               KlLogProb(Text), KlLogProb(Audio), KlLogProb(Visual), KlAllProb]
  {
  }

  /** `Without` on a short list, spelled out element by element. */
  lemma WithoutStep(ms: seq<Modality>, m: Modality)
    requires 1 <= |ms| <= 3
    ensures Without(ms, m) == (if ms[0] == m then [] else [ms[0]]) + Without(ms[1..], m)
  {
  }

  /** "t" and "a" return five tensors, "at" seven, anything else nine. */
  lemma OutputCount(modality: string)
    ensures |Forward(modality).outputs| ==
              if modality == "t" || modality == "a" then 5 else if modality == "at" then 7 else 9
    ensures |Forward(modality).outputs| == 2 * |Forward(modality).reductions| + 3
  {
  }

  /** No modality occurs twice. */
  predicate Distinct(ms: seq<Modality>) {
    forall i, j :: 0 <= i < j < |ms| ==> ms[i] != ms[j]
  }

  /** Removing a modality keeps a list free of duplicates. */
  lemma {:induction false} WithoutDistinct(ms: seq<Modality>, m: Modality)
    requires Distinct(ms)
    ensures Distinct(Without(ms, m))
  {
    if ms != [] {
      WithoutDistinct(ms[1..], m);
      var rest := Without(ms[1..], m);
      assert ms[0] !in ms[1..] by {
        forall j | 0 <= j < |ms[1..]| ensures ms[1..][j] != ms[0] {
          assert ms[1..][j] == ms[j + 1];
        }
      }
      assert ms[0] !in rest;
    }
  }

  /** Putting a modality that does not occur in front of a list free of
      duplicates keeps it free of duplicates. */
  lemma ConsDistinct(m: Modality, ms: seq<Modality>)
    requires Distinct(ms) && m !in ms
    ensures Distinct([m] + ms)
  {
    var r := [m] + ms;
    forall i, j | 0 <= i < j < |r| ensures r[i] != r[j] {
      assert r[j] == ms[j - 1];
      if i > 0 {
        assert r[i] == ms[i - 1];
      }
    }
  }

  /** The nine stacks `forward` runs before the selector, whatever it
      says, are the nine pairs of modalities, each once. */
  lemma EveryPairRuns(p: Pair)
    ensures p in AllPairs
    ensures forall i, j :: 0 <= i < j < |AllPairs| ==> AllPairs[i] != AllPairs[j]
  {
    match p.target
    case Text => assert p == AllPairs[if p.source == Text then 0 else if p.source == Audio then 1 else 2];
    case Audio => assert p == AllPairs[if p.source == Audio then 3 else if p.source == Text then 4 else 5];
    case Visual => assert p == AllPairs[if p.source == Visual then 6 else if p.source == Text then 7 else 8];
  }

  /** A reduction concatenates only outputs of stacks that target its
      modality, starts with that modality's self pair, and uses each source
      at most once. */
  predicate WellFormed(r: Reduction) {
    && |r.inputs| > 0 && r.inputs[0] == Pair(r.target, r.target)
    && (forall j :: 0 <= j < |r.inputs| ==> r.inputs[j].target == r.target)
    && (forall i, j :: 0 <= i < j < |r.inputs| ==> r.inputs[i].source != r.inputs[j].source)
  }

  /** The reference policy only builds well-formed reductions. */
  lemma {:induction false} PolicyReductionWellFormed(sel: Selection, t: Modality)
    ensures WellFormed(Reduction(t, PairsInto(Sources(sel, t), t)))
  {
    var ms := Present(sel);
    var srcs := Sources(sel, t);
    var rest := Without(ms, t);
    var ps := PairsInto(srcs, t);
    PresentDistinct(sel);
    WithoutDistinct(ms, t);
    ConsDistinct(t, rest);
    assert ps[0] == Pair(t, t);
    assert forall j :: 0 <= j < |ps| ==> ps[j].target == t;
    forall i, j | 0 <= i < j < |ps| ensures ps[i].source != ps[j].source {
      assert ps[i].source == srcs[i] && ps[j].source == srcs[j];
    }
  }

  lemma PresentDistinct(sel: Selection)
    ensures Distinct(Present(sel))
  {
  }

  /** Every reduction any branch of the selector performs is well formed. */
  lemma {:induction false} ReductionsWellFormed(modality: string, k: nat)
    requires k < |Forward(modality).reductions|
    ensures WellFormed(Forward(modality).reductions[k])
  {
    DispatchFollowsPolicy(modality);
    var sel := ParseSelection(modality);
    PolicyReductionWellFormed(sel, Present(sel)[k]);
  }

  /** On the full path every one of the nine stacks feeds exactly one
      reduction: the one of its target. */
  lemma {:induction false} FullPathUsesEveryPair(modality: string, p: Pair)
    requires ParseSelection(modality) == ATV
    ensures forall k :: 0 <= k < |Forward(modality).reductions| ==>
              (p in Forward(modality).reductions[k].inputs <==> Forward(modality).reductions[k].target == p.target)
  {
    EveryPairRuns(p);
  }

  /** In every cross stack, each attention takes its keys and values from
      the encoded source modality, and its query is the layer's context
      input on the running target, which starts from the encoded target
      modality. */
  lemma {:induction false} CrossStackKeysFromSource<X>(p: Pair, setting: Setting, layers: nat,
                                                       text: X, audio: X, visual: X, mask: Mat<real>, seqLen: nat)
    requires IsMat(mask, |mask|, seqLen)
    requires p.source != p.target
    ensures AttendsTo(PairStack(p, setting, layers, text, audio, visual, mask, seqLen),
                      Embedded(Input(Feature(p.source, text, audio, visual))))
    ensures QueriesContext(PairStack(p, setting, layers, text, audio, visual, mask, seqLen))
    ensures Origin(PairStack(p, setting, layers, text, audio, visual, mask, seqLen)) ==
              Embedded(Input(Feature(p.target, text, audio, visual)))
  {
    StackThreadsTarget(KindOf(p), setting, layers, Feature(p.source, text, audio, visual),
                       Feature(p.target, text, audio, visual), mask, seqLen);
    StackAttentionOperands(KindOf(p), setting, layers, Feature(p.source, text, audio, visual),
                           Feature(p.target, text, audio, visual), mask, seqLen);
  }
}
