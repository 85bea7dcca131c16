/**
 * The overlap-add step of the windowed variants: the first `overlapSize`
 * samples of the segment the model has just written get the previous
 * segment's samples from `overlapStart` on added to them; the rest of the new
 * segment and the whole previous segment stay as they are.
 */
module OverlapAdd {
  import LiveCapture
  import Inference

  /** The new segment once the previous segment's tail has been added to its head. */
  function Combine(cur: seq<real>, prev: seq<real>, overlapSize: nat, overlapStart: nat): (r: seq<real>)
    requires overlapSize <= |cur| && overlapStart + overlapSize <= |prev|
    ensures |r| == |cur|
  {
    seq(|cur|, i => if 0 <= i < overlapSize then cur[i] + prev[overlapStart + i] else if 0 <= i < |cur| then cur[i] else 0.0)
  }

  /** Combining with an all-zero previous segment returns the new segment unchanged. */
  lemma CombineWithSilence(cur: seq<real>, n: nat, overlapSize: nat, overlapStart: nat)
    requires overlapSize <= |cur| && overlapStart + overlapSize <= n
    ensures Combine(cur, LiveCapture.Zeros(n), overlapSize, overlapStart) == cur
  {
  }

  /**
   * The loop `output[i] = output[i] + previous[overlap_start + i]` for
   * `i < overlap_size`, where `output` is the segment the model just wrote.
   */
  method AddPrevious(output: array<real>, previous: array<real>, overlapSize: nat, overlapStart: nat)
    requires output != previous
    requires overlapSize <= output.Length && overlapStart + overlapSize <= previous.Length
    modifies output
    ensures output[..] == Combine(old(output[..]), previous[..], overlapSize, overlapStart)
  {
    var i := 0;
    while i < overlapSize
      invariant 0 <= i <= overlapSize
      invariant forall k :: 0 <= k < output.Length ==>
        output[k] == if k < i then old(output[k]) + previous[overlapStart + k] else old(output[k])
    {
      output[i] := output[i] + previous[overlapStart + i];
      i := i + 1;
    }
  }

  /**
   * `float outputSegment[2][segment_size] = {0}` with `outputSegmentIdx` and
   * the `output` pointer of the windowed variants.  `current` and `previous`
   * are the last segment produced and the one before it.
   */
  class DoubleBuffer {
    const outputSegment0: array<real>
    const outputSegment1: array<real>
    var outputSegmentIdx: nat
    ghost var current: seq<real>
    ghost var previous: seq<real>

    /** `output = outputSegment[outputSegmentIdx]`. */
    function Output(): array<real>
      reads this
    {
      if outputSegmentIdx == 0 then outputSegment0 else outputSegment1
    }

    /** `outputSegment[1 - outputSegmentIdx]`, the segment before it. */
    function Previous(): array<real>
      reads this
    {
      if outputSegmentIdx == 0 then outputSegment1 else outputSegment0
    }

    ghost predicate Valid()
      reads this, outputSegment0, outputSegment1
    {
      && outputSegment0.Length == outputSegment1.Length && outputSegment0 != outputSegment1
      && outputSegmentIdx < 2
      && Output()[..] == current
      && Previous()[..] == previous
    }

    /** Both segments zero-initialised, `outputSegmentIdx = 0`. */
    constructor (size: nat)
      ensures Valid() && outputSegment0.Length == size
      ensures current == LiveCapture.Zeros(size) && previous == LiveCapture.Zeros(size)
      ensures fresh(outputSegment0) && fresh(outputSegment1)
    {
      outputSegment0 := new real[size](_ => 0.0);
      outputSegment1 := new real[size](_ => 0.0);
      outputSegmentIdx := 0;
      current, previous := LiveCapture.Zeros(size), LiveCapture.Zeros(size);
    }

    /**
     * The end of the refill branch: flip `outputSegmentIdx`, let
     * `model.run` write the new block into the now active segment, then add
     * the previous segment's samples from `overlapStart` on to its first
     * `overlapSize` samples.  The previous segment is left as it was.
     */
    method Produce(model: Inference.Net, inputs: seq<Inference.Tensor>, overlapSize: nat, overlapStart: nat)
      requires Valid() && |model(inputs)| == outputSegment0.Length
      requires overlapSize <= outputSegment0.Length && overlapStart + overlapSize <= outputSegment0.Length
      modifies this, outputSegment0, outputSegment1
      ensures Valid()
      ensures outputSegmentIdx == 1 - old(outputSegmentIdx)
      ensures previous == old(current)
      ensures current == Combine(model(inputs), old(current), overlapSize, overlapStart)
    {
      outputSegmentIdx := 1 - outputSegmentIdx;
      Inference.Run(model, inputs, Output());
      AddPrevious(Output(), Previous(), overlapSize, overlapStart);
      current, previous := Output()[..], current;
    }
  }
}
