// Filter settings of one pass of the separable gaussian blur used by the
// bloom post-process: a centre tap and pairs of taps placed symmetrically on
// either side of it, with weights that sum to one.

module Bloom {
  import opened Quads

  /** Slot of the tap of pair i on the positive side of the centre. */
  function PositiveTap(i: int): int
  {
    2 * i + 1
  }

  /** Slot of the tap of pair i on the negative side of the centre. */
  function NegativeTap(i: int): int
  {
    2 * i + 2
  }

  /** Distance, in texels, from the centre to both taps of pair i. Each tap
      sits halfway between two texels so that bilinear filtering averages
      them, which is why consecutive pairs lie two texels apart. */
  function TapDistance(i: int): real
  {
    2.0 * (i as real) + 1.5
  }

  /** The vector v stretched by the factor k. */
  function Scaled(v: Vec2, k: real): Vec2
  {
    Vec2(v.x * k, v.y * k)
  }

  /** Offset of the positive tap of pair i for a pass stepping (dx, dy) per texel. */
  function TapOffset(dx: real, dy: real, i: int): Vec2
  {
    Scaled(Vec2(dx, dy), TapDistance(i))
  }

  /** A pass that does not step along an axis has no offset along it. */
  lemma ScaledKeepsZero(v: Vec2, k: real)
    ensures v.x == 0.0 ==> Scaled(v, k).x == 0.0
    ensures v.y == 0.0 ==> Scaled(v, k).y == 0.0
  {
  }

  function Negated(v: Vec2): Vec2
  {
    Vec2(-v.x, -v.y)
  }

  /** Sum of a sequence of weights, folded from the back. */
  function Sum(s: seq<real>): real
  {
    if s == [] then 0.0 else Sum(s[..|s| - 1]) + s[|s| - 1]
  }

  /** Unnormalised total of a filter with `pairs` tap pairs: the centre
      weight once and the weight of each pair twice. */
  function TotalWeight(gaussian: int -> real, pairs: nat): (t: real)
    ensures (forall n :: 0 <= n <= pairs ==> gaussian(n) > 0.0) ==> t >= gaussian(0) > 0.0
  {
    if pairs == 0 then gaussian(0) else TotalWeight(gaussian, pairs - 1) + 2.0 * gaussian(pairs)
  }

  /** Unnormalised weights of a filter with `pairs` tap pairs, slot by
      slot: the centre, then both taps of each pair. */
  function RawWeights(gaussian: int -> real, pairs: nat): (r: seq<real>)
    ensures |r| == 1 + 2 * pairs
  {
    if pairs == 0 then [gaussian(0)]
    else RawWeights(gaussian, pairs - 1) + [gaussian(pairs), gaussian(pairs)]
  }

  /** Slot 0 holds the centre weight and both taps of pair i hold the
      weight of distance i + 1. */
  lemma {:induction false} RawWeightsAt(gaussian: int -> real, pairs: nat)
    ensures RawWeights(gaussian, pairs)[0] == gaussian(0)
    ensures forall i :: 0 <= i < pairs ==>
              && RawWeights(gaussian, pairs)[PositiveTap(i)] == gaussian(i + 1)
              && RawWeights(gaussian, pairs)[NegativeTap(i)] == gaussian(i + 1)
  {
    if pairs > 0 {
      RawWeightsAt(gaussian, pairs - 1);
    }
  }

  /** The running total is the sum of the unnormalised weights. */
  lemma {:induction false} RawWeightsSum(gaussian: int -> real, pairs: nat)
    ensures Sum(RawWeights(gaussian, pairs)) == TotalWeight(gaussian, pairs)
  {
    var r := RawWeights(gaussian, pairs);
    if pairs == 0 {
      assert r[..0] == [];
    } else {
      var r' := RawWeights(gaussian, pairs - 1);
      RawWeightsSum(gaussian, pairs - 1);
      assert r[..|r| - 1] == r' + [gaussian(pairs)];
      assert (r' + [gaussian(pairs)])[..|r'|] == r';
    }
  }

  /** Dividing every weight by the same total divides their sum by it. */
  lemma {:induction false} SumScaled(s: seq<real>, r: seq<real>, total: real)
    requires total != 0.0 && |r| == |s|
    requires forall j :: 0 <= j < |s| ==> r[j] == s[j] / total
    ensures Sum(r) == Sum(s) / total
  {
    if s != [] {
      var n := |s| - 1;
      SumScaled(s[..n], r[..n], total);
      assert Sum(r) == Sum(s[..n]) / total + s[n] / total;
    }
  }

  /** Weights divided by their own non-zero sum sum to one. */
  lemma NormalisedSum(raw: seq<real>, total: real)
    requires total == Sum(raw) && total != 0.0
    ensures Sum(Normalised(raw, total)) == 1.0
  {
    SumScaled(raw, Normalised(raw, total), total);
    DivSelf(total);
  }

  lemma DivSelf(t: real)
    requires t != 0.0
    ensures t / t == 1.0
  {
  }

  /** Offsets of a filter with `pairs` tap pairs, slot by slot: the centre
      at zero, then each pair's positive tap and its mirror image. */
  function TapOffsets(dx: real, dy: real, pairs: nat): (r: seq<Vec2>)
    ensures |r| == 1 + 2 * pairs
  {
    if pairs == 0 then [Vec2(0.0, 0.0)]
    else TapOffsets(dx, dy, pairs - 1) + [TapOffset(dx, dy, pairs - 1), Negated(TapOffset(dx, dy, pairs - 1))]
  }

  lemma {:induction false} TapOffsetsAt(dx: real, dy: real, pairs: nat)
    ensures TapOffsets(dx, dy, pairs)[0] == Vec2(0.0, 0.0)
    ensures forall i :: 0 <= i < pairs ==>
              && TapOffsets(dx, dy, pairs)[PositiveTap(i)] == TapOffset(dx, dy, i)
              && TapOffsets(dx, dy, pairs)[NegativeTap(i)] == Negated(TapOffset(dx, dy, i))
  {
    if pairs > 0 {
      TapOffsetsAt(dx, dy, pairs - 1);
    }
  }

  /** Signed distance, in texels, of the tap in slot j from the centre:
      zero for the centre, positive for odd slots, negative for even ones. */
  function TapTexels(j: int): real
  {
    if j <= 0 then 0.0
    else if j % 2 == 1 then TapDistance((j - 1) / 2)
    else -TapDistance((j - 2) / 2)
  }

  lemma NegatedScaled(v: Vec2, k: real)
    ensures Negated(Scaled(v, k)) == Scaled(v, -k)
  {
  }

  /** Offsets laid out as a centre at zero and symmetric pairs put every tap
      its signed texel distance along the step (dx, dy). */
  lemma OffsetsAlongStep(offsets: seq<Vec2>, dx: real, dy: real, pairs: nat)
    requires |offsets| == 1 + 2 * pairs && offsets[0] == Vec2(0.0, 0.0)
    requires forall i :: 0 <= i < pairs ==>
               && offsets[PositiveTap(i)] == TapOffset(dx, dy, i)
               && offsets[NegativeTap(i)] == Negated(offsets[PositiveTap(i)])
    ensures forall j :: 0 <= j < |offsets| ==> offsets[j] == Scaled(Vec2(dx, dy), TapTexels(j))
  {
    forall j | 0 <= j < |offsets|
      ensures offsets[j] == Scaled(Vec2(dx, dy), TapTexels(j))
    {
      if j > 0 {
        var p := (j - 1) / 2;
        if j == PositiveTap(p) {
          assert TapTexels(j) == TapDistance(p);
        } else {
          assert j == NegativeTap(p) && TapTexels(j) == -TapDistance(p);
          NegatedScaled(Vec2(dx, dy), TapDistance(p));
        }
      }
    }
  }

  /** Offsets along the step (dx, dy) have no x component when dx is zero
      and no y component when dy is zero. */
  lemma OffsetsOnAxis(offsets: seq<Vec2>, dx: real, dy: real)
    requires forall j :: 0 <= j < |offsets| ==> offsets[j] == Scaled(Vec2(dx, dy), TapTexels(j))
    ensures dx == 0.0 ==> forall j :: 0 <= j < |offsets| ==> offsets[j].x == 0.0
    ensures dy == 0.0 ==> forall j :: 0 <= j < |offsets| ==> offsets[j].y == 0.0
  {
    forall j | 0 <= j < |offsets|
      ensures dx == 0.0 ==> offsets[j].x == 0.0
      ensures dy == 0.0 ==> offsets[j].y == 0.0
    {
      ScaledKeepsZero(Vec2(dx, dy), TapTexels(j));
    }
  }

  /** Slots of the taps of `pairs` pairs, in the order they are written. */
  function PairSlots(pairs: nat): (r: seq<int>)
    ensures |r| == 2 * pairs
  {
    if pairs == 0 then [] else PairSlots(pairs - 1) + [PositiveTap(pairs - 1), NegativeTap(pairs - 1)]
  }

  /** Every slot the filter of `sampleCount` taps writes, in order: the centre,
      then both taps of each of the sampleCount / 2 pairs. */
  function TapSlots(sampleCount: nat): (r: seq<int>)
    ensures |r| == 1 + 2 * (sampleCount / 2)
  {
    [0] + PairSlots(sampleCount / 2)
  }

  lemma {:induction false} PairSlotsInOrder(pairs: nat)
    ensures forall j :: 0 <= j < 2 * pairs ==> PairSlots(pairs)[j] == j + 1
  {
    if pairs > 0 {
      PairSlotsInOrder(pairs - 1);
    }
  }

  /** The writes visit slots 0, 1, 2, ... in turn, each once. With an odd
      count they fill the arrays exactly; with an even count the last write
      lands on slot sampleCount, one past the end. */
  lemma TapSlotsLayout(sampleCount: nat)
    ensures forall j :: 0 <= j < |TapSlots(sampleCount)| ==> TapSlots(sampleCount)[j] == j
    ensures sampleCount % 2 == 1 <==> |TapSlots(sampleCount)| == sampleCount
    ensures sampleCount % 2 == 0 ==> TapSlots(sampleCount)[|TapSlots(sampleCount)| - 1] == sampleCount
  {
    PairSlotsInOrder(sampleCount / 2);
  }

  /** Each weight divided by the total. */
  function Normalised(raw: seq<real>, total: real): (r: seq<real>)
    requires total != 0.0
    ensures |r| == |raw|
  {
    seq(|raw|, j requires 0 <= j < |raw| => raw[j] / total)
  }

  /** Fills both taps of every pair after the centre: weights from the bell
      curve, offsets symmetric about the centre. Answers the running total
      of the weights, the centre's included. */
  method AddTapPairs(weights: array<real>, offsets: array<Vec2>, dx: real, dy: real,
                     gaussian: int -> real) returns (totalWeights: real)
    requires weights.Length == offsets.Length && weights.Length % 2 == 1
    requires weights[0] == gaussian(0) && offsets[0] == Vec2(0.0, 0.0)
    modifies weights, offsets
    ensures totalWeights == TotalWeight(gaussian, weights.Length / 2)
    ensures weights[..] == RawWeights(gaussian, weights.Length / 2)
    ensures offsets[..] == TapOffsets(dx, dy, offsets.Length / 2)
  {
    var sampleCount := weights.Length;
    totalWeights := weights[0];
    assert weights[..1] == [gaussian(0)];
    assert offsets[..1] == [Vec2(0.0, 0.0)];
    var i := 0;
    while i < sampleCount / 2
      modifies weights, offsets
      invariant 0 <= i <= sampleCount / 2
      invariant totalWeights == TotalWeight(gaussian, i)
      invariant weights[..PositiveTap(i)] == RawWeights(gaussian, i)
      invariant offsets[..PositiveTap(i)] == TapOffsets(dx, dy, i)
    {
      ghost var weightsBefore := weights[..PositiveTap(i)];
      ghost var offsetsBefore := offsets[..PositiveTap(i)];
      var weight := gaussian(i + 1);
      weights[i * 2 + 1] := weight;
      weights[i * 2 + 2] := weight;
      totalWeights := totalWeights + weight * 2.0;
      var sampleOffset := (i * 2) as real + 1.5;
      assert sampleOffset == TapDistance(i);
      var delta := Scaled(Vec2(dx, dy), sampleOffset);
      offsets[i * 2 + 1] := delta;
      offsets[i * 2 + 2] := Negated(delta);
      assert weights[..PositiveTap(i + 1)] == weightsBefore + [weight, weight];
      assert offsets[..PositiveTap(i + 1)] == offsetsBefore + [delta, Negated(delta)];
      i := i + 1;
    }
    assert PositiveTap(i) == sampleCount;
    assert weights[..] == weights[..PositiveTap(i)];
    assert offsets[..] == offsets[..PositiveTap(i)];
  }

  /** Divides every weight, in place, by the total. */
  method NormaliseWeights(weights: array<real>, totalWeights: real)
    requires totalWeights != 0.0
    modifies weights
    ensures weights[..] == Normalised(old(weights[..]), totalWeights)
  {
    ghost var raw := weights[..];
    var i := 0;
    while i < weights.Length
      invariant 0 <= i <= weights.Length
      invariant forall k :: 0 <= k < i ==> weights[k] == raw[k] / totalWeights
      invariant forall k :: i <= k < weights.Length ==> weights[k] == raw[k]
    {
      weights[i] := weights[i] / totalWeights;
      i := i + 1;
    }
  }

  /** Weights and texture-coordinate offsets of one blur pass that steps by
      (dx, dy) per texel, for a filter of `sampleCount` taps whose bell curve
      is `gaussian`. */
  method SetBlurEffectParameters(dx: real, dy: real, sampleCount: int, gaussian: int -> real)
    returns (sampleWeights: seq<real>, sampleOffsets: seq<Vec2>)
    requires sampleCount > 0 && sampleCount % 2 == 1
    requires TotalWeight(gaussian, sampleCount / 2) != 0.0
    ensures |sampleWeights| == sampleCount && |sampleOffsets| == sampleCount
    ensures sampleWeights[0] == gaussian(0) / TotalWeight(gaussian, sampleCount / 2)
    ensures sampleOffsets[0] == Vec2(0.0, 0.0)
    ensures forall i :: 0 <= i < sampleCount / 2 ==>
              && sampleWeights[PositiveTap(i)] == gaussian(i + 1) / TotalWeight(gaussian, sampleCount / 2)
              && sampleWeights[NegativeTap(i)] == sampleWeights[PositiveTap(i)]
    ensures forall i :: 0 <= i < sampleCount / 2 ==>
              && sampleOffsets[PositiveTap(i)] == TapOffset(dx, dy, i)
              && sampleOffsets[NegativeTap(i)] == Negated(sampleOffsets[PositiveTap(i)])
    ensures sampleWeights == Normalised(RawWeights(gaussian, sampleCount / 2), TotalWeight(gaussian, sampleCount / 2))
    ensures forall j :: 0 <= j < sampleCount ==> sampleOffsets[j] == Scaled(Vec2(dx, dy), TapTexels(j))
    ensures Sum(sampleWeights) == 1.0
    ensures dx == 0.0 ==> forall j :: 0 <= j < sampleCount ==> sampleOffsets[j].x == 0.0
    ensures dy == 0.0 ==> forall j :: 0 <= j < sampleCount ==> sampleOffsets[j].y == 0.0
  {
    var weights := new real[sampleCount];
    var offsets := new Vec2[sampleCount];
    weights[0] := gaussian(0);
    offsets[0] := Vec2(0.0, 0.0);
    var totalWeights := AddTapPairs(weights, offsets, dx, dy, gaussian);
    NormaliseWeights(weights, totalWeights);
    sampleWeights := weights[..];
    sampleOffsets := offsets[..];
    RawWeightsAt(gaussian, sampleCount / 2);
    RawWeightsSum(gaussian, sampleCount / 2);
    NormalisedSum(RawWeights(gaussian, sampleCount / 2), totalWeights);
    TapOffsetsAt(dx, dy, sampleCount / 2);
    OffsetsAlongStep(sampleOffsets, dx, dy, sampleCount / 2);
    OffsetsOnAxis(sampleOffsets, dx, dy);
  }

  /** The two passes of the blur over a target of the given size: the
      horizontal pass puts every tap its texel distance across and not at
      all down, the vertical pass the reverse, and both use the same
      weights. */
  method BlurPasses(targetWidth: int, targetHeight: int, sampleCount: int, gaussian: int -> real)
    returns (horizontalWeights: seq<real>, horizontalOffsets: seq<Vec2>,
             verticalWeights: seq<real>, verticalOffsets: seq<Vec2>)
    requires targetWidth > 0 && targetHeight > 0
    requires sampleCount > 0 && sampleCount % 2 == 1
    requires TotalWeight(gaussian, sampleCount / 2) != 0.0
    ensures horizontalWeights == verticalWeights
    ensures |horizontalOffsets| == |verticalOffsets| == sampleCount
    ensures forall j :: 0 <= j < sampleCount ==>
              && horizontalOffsets[j] == Vec2(TapTexels(j) / (targetWidth as real), 0.0)
              && verticalOffsets[j] == Vec2(0.0, TapTexels(j) / (targetHeight as real))
  {
    horizontalWeights, horizontalOffsets :=
      SetBlurEffectParameters(1.0 / (targetWidth as real), 0.0, sampleCount, gaussian);
    verticalWeights, verticalOffsets :=
      SetBlurEffectParameters(0.0, 1.0 / (targetHeight as real), sampleCount, gaussian);
    forall j | 0 <= j < sampleCount
      ensures horizontalOffsets[j] == Vec2(TapTexels(j) / (targetWidth as real), 0.0)
      ensures verticalOffsets[j] == Vec2(0.0, TapTexels(j) / (targetHeight as real))
    {
      StepOfOneTexel(targetWidth, TapTexels(j));
      StepOfOneTexel(targetHeight, TapTexels(j));
    }
  }

  /** t steps of one texel of a target `size` texels across, along either axis. */
  lemma StepOfOneTexel(size: int, t: real)
    requires size > 0
    ensures Scaled(Vec2(1.0 / (size as real), 0.0), t) == Vec2(t / (size as real), 0.0)
    ensures Scaled(Vec2(0.0, 1.0 / (size as real)), t) == Vec2(0.0, t / (size as real))
  {
  }
}
