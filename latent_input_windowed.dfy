/**
 * LatentTimbreSynthesis/lts_latentInput_windowed/render.cpp: two mu/logvar
 * latent pairs, each read through its own shared cursor, feed a model every
 * `hop_size` ticks; its 1024-sample blocks are overlap-added into two
 * alternating segments.
 */
module LatentInputWindowed {
  import Ring
  import LatentPair
  import LiveCapture
  import Schedule
  import OverlapAdd
  import Inference
  import Host

  /** `segment_size`, the one shared by every variant. */
  const SegmentSize := Inference.SegmentSize
  /** `hop_size = segment_size / 2`. */
  const HopSize := SegmentSize / 2
  const LatentDim := 256
  /** The global `interpolation`, never reassigned in this variant. */
  const Interpolation := 0.5

  /** Each pair's files have equal lengths and hold a latent window. */
  predicate Fits(mu0: seq<real>, logvar0: seq<real>, mu1: seq<real>, logvar1: seq<real>)
  {
    |mu0| == |logvar0| >= LatentDim && |mu1| == |logvar1| >= LatentDim
  }

  /** The model inputs of the refill after `b` earlier ones, in the order mu 0, logvar 0, mu 1, logvar 1, interpolation. */
  function Inputs(mu0: seq<real>, logvar0: seq<real>, mu1: seq<real>, logvar1: seq<real>, b: nat)
    : (inputs: seq<Inference.Tensor>)
    requires Fits(mu0, logvar0, mu1, logvar1)
    ensures |inputs| == 5 && inputs[4] == Inference.Scalar(Interpolation)
    ensures forall i :: 0 <= i < 4 ==> inputs[i].Frames? && |inputs[i].data| == LatentDim
  {
    [Inference.Frames(Ring.ReadAt(mu0, LatentDim, LatentDim, b)),
     Inference.Frames(Ring.ReadAt(logvar0, LatentDim, LatentDim, b)),
     Inference.Frames(Ring.ReadAt(mu1, LatentDim, LatentDim, b)),
     Inference.Frames(Ring.ReadAt(logvar1, LatentDim, LatentDim, b)),
     Inference.Scalar(Interpolation)]
  }

  /**
   * The active segment after `b` refills: silence before the first, then
   * each model block with the previous segment's tail added to its head.
   */
  function Segment(model: Inference.SegmentModel, mu0: seq<real>, logvar0: seq<real>, mu1: seq<real>, logvar1: seq<real>,
                   b: nat): (s: seq<real>)
    requires Fits(mu0, logvar0, mu1, logvar1)
    ensures |s| == SegmentSize
  {
    if b == 0 then LiveCapture.Zeros(SegmentSize)
    else OverlapAdd.Combine(model(Inputs(mu0, logvar0, mu1, logvar1, b - 1)),
                            Segment(model, mu0, logvar0, mu1, logvar1, b - 1), SegmentSize - HopSize, HopSize)
  }

  /**
   * The sample tick `t` plays: refills happen on ticks `hop_size`,
   * `2*hop_size`, ..., so tick `t` plays entry `t % hop_size` of the
   * segment after `t / hop_size` refills.
   */
  function Played(model: Inference.SegmentModel, mu0: seq<real>, logvar0: seq<real>, mu1: seq<real>, logvar1: seq<real>,
                  t: nat): real
    requires Fits(mu0, logvar0, mu1, logvar1)
  {
    Segment(model, mu0, logvar0, mu1, logvar1, t / HopSize)[t % HopSize]
  }

  /**
   * `out` is what a render call from tick `t0` writes: frame by frame, the
   * sample `Played` at the frame's tick, on both channels.
   */
  ghost predicate Plays(model: Inference.SegmentModel, mu0: seq<real>, logvar0: seq<real>, mu1: seq<real>,
                        logvar1: seq<real>, t0: nat, out: seq<Host.Frame>)
    requires Fits(mu0, logvar0, mu1, logvar1)
    decreases |out|
  {
    |out| > 0 ==>
      && Plays(model, mu0, logvar0, mu1, logvar1, t0, out[..|out| - 1])
      && out[|out| - 1] == Host.Frame(Played(model, mu0, logvar0, mu1, logvar1, t0 + |out| - 1),
                                      Played(model, mu0, logvar0, mu1, logvar1, t0 + |out| - 1))
  }

  /** One more frame, with the sample of the next tick on both channels. */
  lemma PlaysNext(model: Inference.SegmentModel, mu0: seq<real>, logvar0: seq<real>, mu1: seq<real>,
                  logvar1: seq<real>, t0: nat, out: seq<Host.Frame>, y: real)
    requires Fits(mu0, logvar0, mu1, logvar1) && Plays(model, mu0, logvar0, mu1, logvar1, t0, out)
    requires y == Played(model, mu0, logvar0, mu1, logvar1, t0 + |out|)
    ensures Plays(model, mu0, logvar0, mu1, logvar1, t0, out + [Host.Frame(y, y)])
  {
    assert (out + [Host.Frame(y, y)])[..|out|] == out;
  }

  /** Frame `j` of such a call is the sample `Played` at tick `t0 + j`, on both channels. */
  lemma {:induction false} PlaysAt(model: Inference.SegmentModel, mu0: seq<real>, logvar0: seq<real>, mu1: seq<real>,
                                   logvar1: seq<real>, t0: nat, out: seq<Host.Frame>, j: nat)
    requires Fits(mu0, logvar0, mu1, logvar1) && Plays(model, mu0, logvar0, mu1, logvar1, t0, out) && j < |out|
    ensures out[j].ch0 == out[j].ch1 == Played(model, mu0, logvar0, mu1, logvar1, t0 + j)
  {
    if j < |out| - 1 {
      PlaysAt(model, mu0, logvar0, mu1, logvar1, t0, out[..|out| - 1], j);
    }
  }

  /**
   * Overlap-add of consecutive model blocks at half overlap: tick `t` plays
   * the head of the block of the last refill at or before it plus the tail
   * of the block of the refill before that, each taken as silence when
   * that refill has not happened.
   */
  lemma PlayedBlocks(model: Inference.SegmentModel, mu0: seq<real>, logvar0: seq<real>, mu1: seq<real>,
                        logvar1: seq<real>, t: nat)
    requires Fits(mu0, logvar0, mu1, logvar1)
    ensures Played(model, mu0, logvar0, mu1, logvar1, t)
         == (if t / HopSize >= 1 then model(Inputs(mu0, logvar0, mu1, logvar1, t / HopSize - 1))[t % HopSize] else 0.0)
          + (if t / HopSize >= 2 then model(Inputs(mu0, logvar0, mu1, logvar1, t / HopSize - 2))[HopSize + t % HopSize] else 0.0)
  {
    var b, i := t / HopSize, t % HopSize;
    if b >= 1 {
      assert Played(model, mu0, logvar0, mu1, logvar1, t)
          == model(Inputs(mu0, logvar0, mu1, logvar1, b - 1))[i] + Segment(model, mu0, logvar0, mu1, logvar1, b - 1)[HopSize + i];
      if b >= 2 {
        assert Segment(model, mu0, logvar0, mu1, logvar1, b - 1)[HopSize + i] == model(Inputs(mu0, logvar0, mu1, logvar1, b - 2))[HopSize + i];
      }
    }
  }

  /** The first `hop_size` ticks play silence. */
  lemma PlayedSilentStart(model: Inference.SegmentModel, mu0: seq<real>, logvar0: seq<real>, mu1: seq<real>,
                          logvar1: seq<real>, t: nat)
    requires Fits(mu0, logvar0, mu1, logvar1) && t < HopSize
    ensures Played(model, mu0, logvar0, mu1, logvar1, t) == 0.0
  {
  }

  /**
   * The globals of render.cpp, grouped by what uses them: the two latent
   * pairs (`muFileSamples[i]`, `logvarFileSamples[i]`, `muInput[i]`,
   * `logvarInput[i]`, `readPointer[i]`), which `setup` loads and sizes, and
   * the two output segments with `outputSegmentIdx`.
   */
  class Engine {
    const model: Inference.SegmentModel
    var pair0: LatentPair.PairSource
    var pair1: LatentPair.PairSource
    const segments: OverlapAdd.DoubleBuffer
    var outputSampleCnt: nat
    var overlapSize: int
    var overlapStart: int

    /** Ticks run so far over all render calls, and refills done so far. */
    ghost var ticks: nat
    ghost var refills: nat

    /** Buffer sizes and the separation of every buffer from every other. */
    ghost predicate Configured()
      reads this`pair0, this`pair1
    {
      && pair0.muInput.Length == LatentDim && pair1.muInput.Length == LatentDim
      && segments.outputSegment0.Length == SegmentSize
      && pair0 != pair1
      && pair0.muInput != pair1.muInput && pair0.muInput != pair1.logvarInput
      && pair0.logvarInput != pair1.muInput && pair0.logvarInput != pair1.logvarInput
      && pair0.muInput != segments.outputSegment0 && pair0.muInput != segments.outputSegment1
      && pair0.logvarInput != segments.outputSegment0 && pair0.logvarInput != segments.outputSegment1
      && pair1.muInput != segments.outputSegment0 && pair1.muInput != segments.outputSegment1
      && pair1.logvarInput != segments.outputSegment0 && pair1.logvarInput != segments.outputSegment1
    }

    /** Both pairs are consistent and have been read once per refill. */
    ghost predicate Sourced()
      reads this`pair0, this`pair1, this`refills, pair0, pair1
    {
      && pair0.Valid() && pair1.Valid()
      && pair0.windows == refills && pair1.windows == refills
    }

    /** The overlap geometry `setup` fixes. */
    ghost predicate Overlapping()
      reads this`overlapSize, this`overlapStart
    {
      overlapSize == SegmentSize - HopSize && overlapStart == HopSize
    }

    /** The scheduler state after `ticks` ticks. */
    ghost predicate Scheduled()
      reads this`outputSampleCnt, this`ticks, this`refills
    {
      && outputSampleCnt == Schedule.Counter(0, HopSize, ticks)
      && refills == Schedule.RefillCount(0, HopSize, ticks)
    }

    /** The scheduler state inside a tick, once the refill check is done. */
    ghost predicate Emitting()
      reads this`outputSampleCnt, this`ticks, this`refills
    {
      && outputSampleCnt == Schedule.Index(0, HopSize, ticks)
      && refills == Schedule.RefillCount(0, HopSize, ticks + 1)
    }

    /** The active output segment is the overlap-add of the model's blocks of every refill so far. */
    ghost predicate Segmented()
      reads this`refills, this`pair0, this`pair1, pair0, pair1, segments, segments.outputSegment0, segments.outputSegment1
    {
      && segments.Valid()
      && Fits(pair0.muFileSamples, pair0.logvarFileSamples, pair1.muFileSamples, pair1.logvarFileSamples)
      && segments.current
         == Segment(model, pair0.muFileSamples, pair0.logvarFileSamples, pair1.muFileSamples, pair1.logvarFileSamples, refills)
    }

    ghost predicate Valid()
      reads this, pair0, pair1, segments, segments.outputSegment0, segments.outputSegment1
    {
      Configured() && Sourced() && Overlapping() && Scheduled() && Segmented()
    }

    /** The state before `setup`: zero-initialised globals and segments, empty vectors. */
    ghost predicate Initial()
      reads this, segments, segments.outputSegment0, segments.outputSegment1
    {
      && segments.Valid() && segments.outputSegment0.Length == SegmentSize
      && segments.current == LiveCapture.Zeros(SegmentSize)
      && outputSampleCnt == 0 && ticks == 0 && refills == 0
    }

    constructor (model: Inference.SegmentModel)
      ensures this.model == model
      ensures Initial()
    {
      this.model := model;
      pair0 := new LatentPair.PairSource([], [], 0);
      pair1 := new LatentPair.PairSource([], [], 0);
      segments := new OverlapAdd.DoubleBuffer(SegmentSize);
      outputSampleCnt := 0;
      overlapSize, overlapStart := 0, 0;
      ticks, refills := 0, 0;
    }

    /**
     * `setup`: fails when the model does not load or any of the four latent
     * files is empty, checked in the order mu 0, mu 1, logvar 0, logvar 1;
     * otherwise installs the pairs and the overlap geometry.
     */
    method Setup(modelLoaded: bool, mu0: seq<real>, mu1: seq<real>, logvar0: seq<real>, logvar1: seq<real>)
      returns (ok: bool)
      requires Initial()
      modifies this`pair0, this`pair1, this`overlapSize, this`overlapStart
      ensures ok <==> modelLoaded && |mu0| > 0 && |mu1| > 0 && |logvar0| > 0 && |logvar1| > 0
      ensures ok ==> pair0.muFileSamples == mu0 && pair0.logvarFileSamples == logvar0
      ensures ok ==> pair1.muFileSamples == mu1 && pair1.logvarFileSamples == logvar1
      ensures ok ==> pair0.readPointer == 0 && pair1.readPointer == 0
      ensures ok ==> overlapSize == SegmentSize - HopSize && overlapStart == HopSize
      ensures ok && Fits(mu0, logvar0, mu1, logvar1) ==> Valid()
    {
      if !modelLoaded {
        return false;
      }
      if |mu0| == 0 {
        return false;
      }
      if |mu1| == 0 {
        return false;
      }
      if |logvar0| == 0 {
        return false;
      }
      if |logvar1| == 0 {
        return false;
      }
      Install(mu0, logvar0, mu1, logvar1);
      ok := true;
    }

    /** The successful part of `setup`: the pairs with their inputs resized, and the overlap geometry. */
    method Install(mu0: seq<real>, logvar0: seq<real>, mu1: seq<real>, logvar1: seq<real>)
      requires Initial()
      modifies this`pair0, this`pair1, this`overlapSize, this`overlapStart
      ensures pair0.muFileSamples == mu0 && pair0.logvarFileSamples == logvar0
      ensures pair1.muFileSamples == mu1 && pair1.logvarFileSamples == logvar1
      ensures pair0.readPointer == 0 && pair1.readPointer == 0
      ensures overlapSize == SegmentSize - HopSize && overlapStart == HopSize
      ensures Fits(mu0, logvar0, mu1, logvar1) ==> Valid()
    {
      pair0 := new LatentPair.PairSource(mu0, logvar0, LatentDim);
      pair1 := new LatentPair.PairSource(mu1, logvar1, LatentDim);
      overlapSize := SegmentSize - HopSize;
      overlapStart := SegmentSize - overlapSize;
    }

    /**
     * The reads of the refill branch: `fillLatentInput` on pair 0 and then
     * pair 1, and the input list in the order mu 0, logvar 0, mu 1, logvar 1,
     * interpolation.  Each pair's cursor moves by one window; nothing else changes.
     */
    method ReadInputs() returns (inputs: seq<Inference.Tensor>)
      requires Configured() && Sourced()
      modifies pair0, pair1, pair0.muInput, pair0.logvarInput, pair1.muInput, pair1.logvarInput
      ensures Configured() && pair0.Valid() && pair1.Valid()
      ensures pair0.windows == refills + 1 && pair1.windows == refills + 1
      ensures pair0.readPointer == (old(pair0.readPointer) + LatentDim) % |pair0.muFileSamples|
      ensures pair1.readPointer == (old(pair1.readPointer) + LatentDim) % |pair1.muFileSamples|
      ensures inputs == Inputs(pair0.muFileSamples, pair0.logvarFileSamples,
                               pair1.muFileSamples, pair1.logvarFileSamples, refills)
    {
      Ring.CursorStep(LatentDim, |pair0.muFileSamples|, pair0.windows);
      Ring.CursorStep(LatentDim, |pair1.muFileSamples|, pair1.windows);
      pair0.Read();
      pair1.Read();
      inputs := [Inference.Frames(pair0.muInput[..]), Inference.Frames(pair0.logvarInput[..]),
                 Inference.Frames(pair1.muInput[..]), Inference.Frames(pair1.logvarInput[..]),
                 Inference.Scalar(Interpolation)];
    }

    /**
     * The refill branch of `render`, taken when the counter has reached
     * `hop_size`: the model is fed both pairs' windows, and its block, with
     * the previous segment's tail added, becomes the active segment.
     */
    method Refill()
      requires Configured() && Sourced() && Overlapping() && Segmented()
      modifies this`outputSampleCnt, this`refills, pair0, pair1, pair0.muInput, pair0.logvarInput, pair1.muInput, pair1.logvarInput
      modifies segments, segments.outputSegment0, segments.outputSegment1
      ensures Sourced() && Segmented()
      ensures refills == old(refills) + 1 && outputSampleCnt == 0
      ensures segments.current == OverlapAdd.Combine(
        model(Inputs(pair0.muFileSamples, pair0.logvarFileSamples, pair1.muFileSamples, pair1.logvarFileSamples, old(refills))),
        old(segments.current), SegmentSize - HopSize, HopSize)
      ensures segments.previous == old(segments.current)
      ensures segments.outputSegmentIdx == 1 - old(segments.outputSegmentIdx)
    {
      var inputs := ReadInputs();
      ghost var next := Segment(model, pair0.muFileSamples, pair0.logvarFileSamples,
                                pair1.muFileSamples, pair1.logvarFileSamples, refills + 1);
      segments.Produce(model, inputs, overlapSize, overlapStart);
      assert segments.current == next;
      refills := refills + 1;
      outputSampleCnt := 0;
    }

    /**
     * The start of a tick: refill if the counter has reached `hop_size`.
     * That happens exactly when the tick's global index is a positive
     * multiple of `hop_size`; the segments change only then.
     */
    method RefillIfDue()
      requires Valid()
      modifies this`outputSampleCnt, this`refills, pair0, pair1, pair0.muInput, pair0.logvarInput, pair1.muInput, pair1.logvarInput
      modifies segments, segments.outputSegment0, segments.outputSegment1
      ensures Configured() && Sourced() && Overlapping() && Emitting() && Segmented()
      ensures refills == old(refills) + 1 <==> ticks > 0 && ticks % HopSize == 0
      ensures refills == old(refills) ==> segments.current == old(segments.current)
      ensures refills == old(refills) + 1 ==> segments.current == OverlapAdd.Combine(
        model(Inputs(pair0.muFileSamples, pair0.logvarFileSamples, pair1.muFileSamples, pair1.logvarFileSamples, old(refills))),
        old(segments.current), SegmentSize - HopSize, HopSize)
    {
      Schedule.CounterInvariant(0, HopSize, ticks);
      Schedule.RefillTicks(0, HopSize, ticks);
      if outputSampleCnt >= HopSize {
        Refill();
      }
    }

    /**
     * One iteration of the frame loop: refill if due, emit
     * `output[outputSampleCnt]`, count the tick.  The tick emits the sample
     * `Played` at its global index.
     */
    method Tick() returns (y: real)
      requires Valid()
      modifies this`outputSampleCnt, this`refills, this`ticks, pair0, pair1, pair0.muInput, pair0.logvarInput, pair1.muInput, pair1.logvarInput
      modifies segments, segments.outputSegment0, segments.outputSegment1
      ensures Valid() && ticks == old(ticks) + 1
      ensures refills == old(refills) + 1 <==> old(ticks) > 0 && old(ticks) % HopSize == 0
      ensures refills == old(refills) ==> segments.current == old(segments.current)
      ensures refills == old(refills) + 1 ==> segments.current == OverlapAdd.Combine(
        model(Inputs(pair0.muFileSamples, pair0.logvarFileSamples, pair1.muFileSamples, pair1.logvarFileSamples, old(refills))),
        old(segments.current), SegmentSize - HopSize, HopSize)
      ensures y == segments.current[old(ticks) % HopSize]
      ensures y == Played(model, pair0.muFileSamples, pair0.logvarFileSamples,
                          pair1.muFileSamples, pair1.logvarFileSamples, old(ticks))
    {
      RefillIfDue();
      y := Emit();
      Schedule.BlockIndex(0, HopSize, ticks);
      Count();
    }

    /**
     * The output of a tick, once the refill check is done:
     * `output[outputSampleCnt]`, the entry of the active segment at the
     * tick's global index modulo `hop_size`.
     */
    method Emit() returns (y: real)
      requires Configured() && Emitting() && Segmented()
      ensures y == segments.current[ticks % HopSize]
      ensures y == Played(model, pair0.muFileSamples, pair0.logvarFileSamples, pair1.muFileSamples, pair1.logvarFileSamples, ticks)
    {
      Schedule.BlockIndex(0, HopSize, ticks);
      y := segments.Output()[outputSampleCnt];
    }

    /** The counter increment that ends a tick: the scheduler state after one more tick. */
    method Count()
      requires Emitting()
      modifies this`outputSampleCnt, this`ticks
      ensures Scheduled() && ticks == old(ticks) + 1 && outputSampleCnt == old(outputSampleCnt) + 1
    {
      outputSampleCnt := outputSampleCnt + 1;
      ticks := ticks + 1;
    }

    /**
     * `render`: one tick per frame; the result is what `audioWrite` receives
     * on channels 0 and 1: the sample `Played` at each frame's global tick
     * on both, however ticks are grouped into calls.
     */
    method Render(frames: nat) returns (out: seq<Host.Frame>)
      requires Valid()
      modifies this`outputSampleCnt, this`refills, this`ticks, pair0, pair1, pair0.muInput, pair0.logvarInput, pair1.muInput, pair1.logvarInput
      modifies segments, segments.outputSegment0, segments.outputSegment1
      ensures Valid() && ticks == old(ticks) + frames
      ensures refills == Schedule.RefillCount(0, HopSize, ticks)
      ensures |out| == frames
      ensures Plays(model, pair0.muFileSamples, pair0.logvarFileSamples, pair1.muFileSamples, pair1.logvarFileSamples,
                    old(ticks), out)
    {
      ghost var mu0, logvar0, mu1, logvar1 := pair0.muFileSamples, pair0.logvarFileSamples, pair1.muFileSamples, pair1.logvarFileSamples;
      out := [];
      var n := 0;
      while n < frames
        invariant 0 <= n <= frames
        invariant Valid() && ticks == old(ticks) + n
        invariant pair0.muFileSamples == mu0 && pair0.logvarFileSamples == logvar0
        invariant pair1.muFileSamples == mu1 && pair1.logvarFileSamples == logvar1
        invariant |out| == n && Fits(mu0, logvar0, mu1, logvar1)
        invariant Plays(model, mu0, logvar0, mu1, logvar1, old(ticks), out)
      {
        var y := Frame(old(ticks), out);
        out := out + [Host.Frame(y, y)];
        n := n + 1;
      }
    }

    /**
     * A tick of a render call that began at tick `t0`: `out`, the frames the
     * call has written before this one, followed by this tick's output on
     * both channels, is still `Plays`.
     */
    method Frame(ghost t0: nat, ghost out: seq<Host.Frame>) returns (y: real)
      requires Valid() && t0 + |out| == ticks
      requires Plays(model, pair0.muFileSamples, pair0.logvarFileSamples, pair1.muFileSamples, pair1.logvarFileSamples, t0, out)
      modifies this`outputSampleCnt, this`refills, this`ticks, pair0, pair1, pair0.muInput, pair0.logvarInput, pair1.muInput, pair1.logvarInput
      modifies segments, segments.outputSegment0, segments.outputSegment1
      ensures Valid() && ticks == old(ticks) + 1
      ensures Plays(model, pair0.muFileSamples, pair0.logvarFileSamples, pair1.muFileSamples, pair1.logvarFileSamples,
                    t0, out + [Host.Frame(y, y)])
    {
      ghost var mu0, logvar0, mu1, logvar1 := pair0.muFileSamples, pair0.logvarFileSamples, pair1.muFileSamples, pair1.logvarFileSamples;
      y := Tick();
      PlaysNext(model, mu0, logvar0, mu1, logvar1, t0, out, y);
    }
  }
}
