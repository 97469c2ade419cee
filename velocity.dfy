/**
 * The velocity ranges of one instrument (hdg.py:105, 216-217, 223-227):
 * `samples` layers of equal width, spread from 0 to 1 so that neighbours
 * overlap, computed here in exact arithmetic.
 */
module Velocity {
  import opened Results

  /** `layers_interleaving` (hdg.py:105): each layer is a third wider than the even share `1/n`. */
  const LayersInterleaving: real := 1.0 / 3.0

  datatype Range = Range(min: real, max: real)

  /** `length = (1 / samples) * (1 + layers_interleaving)` (hdg.py:216). */
  function LayerLength(samples: nat): real
    requires samples > 0
  {
    (1.0 / samples as real) * (1.0 + LayersInterleaving)
  }

  /** `offset = (1 - length) / (samples - 1)` (hdg.py:217). */
  function LayerOffset(samples: nat): real
    requires samples > 1
  {
    (1.0 - LayerLength(samples)) / ((samples - 1) as real)
  }

  /**
   * The ranges of hdg.py:216-227: layer `i` spans
   * `[i * offset, i * offset + length]`. Both divisions of hdg.py:216-217
   * fail for fewer than two samples; the code has no single-layer case.
   */
  function VelocityRanges(samples: nat): (r: Result<seq<Range>>)
    ensures r.Success? <==> samples >= 2
    ensures r.Failure? ==> r.error == ZeroDivision
    ensures r.Success? ==> |r.value| == samples
  {
    if samples == 0 then Failure(ZeroDivision)        // 1 / samples
    else if samples == 1 then Failure(ZeroDivision)   // (1 - length) / (samples - 1)
    else
      var length := LayerLength(samples);
      var offset := LayerOffset(samples);
      Success(seq(samples, i => Range(i as real * offset, i as real * offset + length)))
  }

  // ---------------------------------------------------------------------
  // Lemmas

  /** The ranges as the loop of hdg.py:223-227 computes them from `length` and `offset`. */
  lemma RangesAt(samples: nat, length: real, offset: real)
    requires 2 <= samples && length == LayerLength(samples) && offset == LayerOffset(samples)
    ensures forall i :: 0 <= i < samples ==>
              VelocityRanges(samples).value[i] == Range(i as real * offset, i as real * offset + length)
  {
  }

  /** The width of a layer is `4/(3 * samples)`. */
  lemma LayerLengthValue(samples: nat)
    requires samples > 0
    ensures LayerLength(samples) == 4.0 / (3.0 * samples as real)
    ensures 0.0 < LayerLength(samples)
  {
    var n := samples as real;
    assert (1.0 / n) * (4.0 / 3.0) == 4.0 / (3.0 * n);
  }

  /**
   * The step between layers: `samples - 1` steps and one width make 1,
   * and a step is positive and shorter than a width.
   */
  lemma LayerOffsetValue(samples: nat)
    requires samples > 1
    ensures LayerOffset(samples) * (samples - 1) as real == 1.0 - LayerLength(samples)
    ensures 0.0 < LayerOffset(samples) < LayerLength(samples)
  {
    LengthBelowOne(samples);
    OffsetBelowLength(samples);
  }

  lemma LengthBelowOne(samples: nat)
    requires samples > 1
    ensures LayerLength(samples) < 1.0
  {
    LayerLengthValue(samples);
    var n := samples as real;
    assert 3.0 * n > 4.0;
    assert 4.0 / (3.0 * n) < 1.0;
  }

  /** Neighbouring layers overlap: the step is shorter than the width. */
  lemma OffsetBelowLength(samples: nat)
    requires samples > 1
    ensures (1.0 - LayerLength(samples)) / ((samples - 1) as real) < LayerLength(samples)
  {
    LayerLengthValue(samples);
    var n := samples as real;
    var length := LayerLength(samples);
    // 1 - length < (n - 1) * length, as n * length = 4/3 > 1
    assert n * length == 4.0 / 3.0;
    assert 1.0 - length < (n - 1.0) * length;
  }

  /** Layer `i` starts at `i * offset`, so later layers start strictly later. */
  lemma MinStrictlyIncreasing(samples: nat, i: nat, j: nat)
    requires 2 <= samples && i < j < samples
    ensures VelocityRanges(samples).value[i].min < VelocityRanges(samples).value[j].min
  {
    RangesAt(samples, LayerLength(samples), LayerOffset(samples));
    LayerOffsetValue(samples);
    ScaleStrict(i as real, j as real, LayerOffset(samples));
  }

  lemma ScaleStrict(x: real, y: real, c: real)
    requires x < y && 0.0 < c
    ensures x * c < y * c
  {
    assert y * c - x * c == (y - x) * c;
  }

  /** The first layer starts at 0 and the last ends exactly at 1. */
  lemma RangesSpanUnit(samples: nat)
    requires 2 <= samples
    ensures VelocityRanges(samples).value[0].min == 0.0
    ensures VelocityRanges(samples).value[samples - 1].max == 1.0
  {
    var offset := LayerOffset(samples);
    LayerOffsetValue(samples);
    assert (samples - 1) as real * offset == 1.0 - LayerLength(samples);
  }

  /**
   * Every layer has the same width `4/(3 * samples)`, starts at 0 or above
   * and ends at 1 or below.
   */
  lemma RangesWithinUnit(samples: nat)
    requires 2 <= samples
    ensures forall i :: 0 <= i < samples ==>
              var r := VelocityRanges(samples).value[i];
              r.max - r.min == 4.0 / (3.0 * samples as real) && 0.0 <= r.min < r.max <= 1.0
  {
    var ranges := VelocityRanges(samples).value;
    RangesSpanUnit(samples);
    LayerLengthValue(samples);
    LayerOffsetValue(samples);
    forall i | 0 <= i < samples
      ensures 0.0 <= ranges[i].min < ranges[i].max <= 1.0
    {
      assert 0.0 <= i as real * LayerOffset(samples);
      if i < samples - 1 {
        MinStrictlyIncreasing(samples, i, samples - 1);
      }
    }
  }

  /**
   * The interleaving of hdg.py:105: each layer overlaps the next by
   * `1/(3 * (samples - 1))`.
   */
  lemma NeighboursOverlap(samples: nat, i: nat)
    requires 2 <= samples && i + 1 < samples
    ensures VelocityRanges(samples).value[i].max - VelocityRanges(samples).value[i + 1].min
            == 1.0 / (3.0 * (samples - 1) as real)
  {
    var n := samples as real;
    var length := LayerLength(samples);
    var offset := LayerOffset(samples);
    LayerLengthValue(samples);
    LayerOffsetValue(samples);
    assert (i + 1) as real * offset == i as real * offset + offset;
    assert n * length == 4.0 / 3.0;
    assert (n - 1.0) * (length - offset) == n * length - length - (1.0 - length);
    assert length - offset == (1.0 / 3.0) / (n - 1.0);
  }
}
