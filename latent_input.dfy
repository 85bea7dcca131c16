/**
 * LatentTimbreSynthesis/lts_latentInput/render.cpp: two mu/logvar latent
 * pairs, each read through its own shared cursor, feed a model every
 * `segment_size` ticks (block mode); the model writes its block straight
 * into the single `output` buffer that the ticks then play.
 */
module LatentInput {
  import Ring
  import LatentPair
  import LiveCapture
  import Schedule
  import Inference
  import Host

  /** `segment_size`, the one shared by every variant. */
  const SegmentSize := Inference.SegmentSize
  const LatentDim := 256
  /** The global `interpolation`, never reassigned in this variant. */
  const Interpolation := 0.5

  /** Each pair's files have equal lengths and hold a latent window. */
  predicate Fits(mu0: seq<real>, logvar0: seq<real>, mu1: seq<real>, logvar1: seq<real>)
  {
    |mu0| == |logvar0| >= LatentDim && |mu1| == |logvar1| >= LatentDim
  }

  /** The model inputs of the refill after `b` earlier ones, in the order mu 0, logvar 0, mu 1, logvar 1, interpolation. */
  function Inputs(mu0: seq<real>, logvar0: seq<real>, mu1: seq<real>, logvar1: seq<real>, b: nat)
    : (inputs: seq<Inference.Tensor>)
    requires Fits(mu0, logvar0, mu1, logvar1)
    ensures |inputs| == 5 && inputs[4] == Inference.Scalar(Interpolation)
    ensures forall i :: 0 <= i < 4 ==> inputs[i].Frames? && |inputs[i].data| == LatentDim
  {
    [Inference.Frames(Ring.ReadAt(mu0, LatentDim, LatentDim, b)),
     Inference.Frames(Ring.ReadAt(logvar0, LatentDim, LatentDim, b)),
     Inference.Frames(Ring.ReadAt(mu1, LatentDim, LatentDim, b)),
     Inference.Frames(Ring.ReadAt(logvar1, LatentDim, LatentDim, b)),
     Inference.Scalar(Interpolation)]
  }

  /**
   * The sample tick `t` plays: silence while the zero-initialised `output`
   * is played, then sample `t % segment_size` of the block of the refill at
   * tick `(t / segment_size) * segment_size`, which had `t / segment_size - 1`
   * refills before it.
   */
  function Played(model: Inference.SegmentModel, mu0: seq<real>, logvar0: seq<real>, mu1: seq<real>, logvar1: seq<real>, t: nat)
    : real
    requires Fits(mu0, logvar0, mu1, logvar1)
  {
    if t < SegmentSize then 0.0 else model(Inputs(mu0, logvar0, mu1, logvar1, t / SegmentSize - 1))[t % SegmentSize]
  }

  /** A tick with `r` refills up to and including it plays its sample of the block of the last one. */
  lemma PlayedFrom(model: Inference.SegmentModel, mu0: seq<real>, logvar0: seq<real>, mu1: seq<real>, logvar1: seq<real>,
                   t: nat, r: nat, block: seq<real>)
    requires Fits(mu0, logvar0, mu1, logvar1) && r == t / SegmentSize
    requires r == 0 ==> block == LiveCapture.Zeros(SegmentSize)
    requires r > 0 ==> block == model(Inputs(mu0, logvar0, mu1, logvar1, r - 1))
    ensures block[t % SegmentSize] == Played(model, mu0, logvar0, mu1, logvar1, t)
  {
  }

  /**
   * The globals of render.cpp: the two latent pairs (`muFileSamples[i]`,
   * `logvarFileSamples[i]`, `muInput[i]`, `logvarInput[i]`,
   * `readPointer[i]`), which `setup` loads and sizes, and the zero-initialised
   * `output` block.
   */
  class Engine {
    const model: Inference.SegmentModel
    var pair0: LatentPair.PairSource
    var pair1: LatentPair.PairSource
    const output: array<real>
    var outputSampleCnt: nat

    /** Ticks run so far over all render calls, and refills done so far. */
    ghost var ticks: nat
    ghost var refills: nat

    /** Buffer sizes and the separation of every buffer from every other. */
    ghost predicate Configured()
      reads this`pair0, this`pair1
    {
      && pair0.muInput.Length == LatentDim && pair1.muInput.Length == LatentDim
      && output.Length == SegmentSize
      && pair0 != pair1
      && pair0.muInput != pair1.muInput && pair0.muInput != pair1.logvarInput
      && pair0.logvarInput != pair1.muInput && pair0.logvarInput != pair1.logvarInput
      && pair0.muInput != output && pair0.logvarInput != output
      && pair1.muInput != output && pair1.logvarInput != output
    }

    /** Both pairs are consistent and have been read once per refill. */
    ghost predicate Sourced()
      reads this`pair0, this`pair1, this`refills, pair0, pair1
    {
      && pair0.Valid() && pair1.Valid()
      && pair0.windows == refills && pair1.windows == refills
    }

    /** The scheduler state after `ticks` ticks. */
    ghost predicate Scheduled()
      reads this`outputSampleCnt, this`ticks, this`refills
    {
      && outputSampleCnt == Schedule.Counter(0, SegmentSize, ticks)
      && refills == Schedule.RefillCount(0, SegmentSize, ticks)
    }

    /** The scheduler state inside a tick, once the refill check is done. */
    ghost predicate Emitting()
      reads this`outputSampleCnt, this`ticks, this`refills
    {
      && outputSampleCnt == Schedule.Index(0, SegmentSize, ticks)
      && refills == Schedule.RefillCount(0, SegmentSize, ticks + 1)
    }

    /** `output` is silent until the first refill and holds the model's block of the last refill after it. */
    ghost predicate Blocked()
      reads this`refills, this`pair0, this`pair1, output
    {
      && Fits(pair0.muFileSamples, pair0.logvarFileSamples, pair1.muFileSamples, pair1.logvarFileSamples)
      && (refills == 0 ==> output[..] == LiveCapture.Zeros(SegmentSize))
      && (refills > 0 ==> output[..] == model(Inputs(pair0.muFileSamples, pair0.logvarFileSamples,
                                                      pair1.muFileSamples, pair1.logvarFileSamples, refills - 1)))
    }

    ghost predicate Valid()
      reads this, pair0, pair1, output
    {
      Configured() && Sourced() && Scheduled() && Blocked()
    }

    /** The state before `setup`: zero-initialised globals and `output`, empty vectors. */
    ghost predicate Initial()
      reads this, output
    {
      && output.Length == SegmentSize && output[..] == LiveCapture.Zeros(SegmentSize)
      && outputSampleCnt == 0 && ticks == 0 && refills == 0
    }

    constructor (model: Inference.SegmentModel)
      ensures this.model == model
      ensures Initial()
    {
      this.model := model;
      pair0 := new LatentPair.PairSource([], [], 0);
      pair1 := new LatentPair.PairSource([], [], 0);
      output := new real[SegmentSize](_ => 0.0);
      outputSampleCnt := 0;
      ticks, refills := 0, 0;
    }

    /**
     * `setup`: fails when the model does not load or any of the four latent
     * files is empty, checked in the order mu 0, mu 1, logvar 0, logvar 1;
     * otherwise installs the pairs.
     */
    method Setup(modelLoaded: bool, mu0: seq<real>, mu1: seq<real>, logvar0: seq<real>, logvar1: seq<real>)
      returns (ok: bool)
      requires Initial()
      modifies this`pair0, this`pair1
      ensures ok <==> modelLoaded && |mu0| > 0 && |mu1| > 0 && |logvar0| > 0 && |logvar1| > 0
      ensures ok ==> pair0.muFileSamples == mu0 && pair0.logvarFileSamples == logvar0
      ensures ok ==> pair1.muFileSamples == mu1 && pair1.logvarFileSamples == logvar1
      ensures ok ==> pair0.readPointer == 0 && pair1.readPointer == 0
      ensures ok && Fits(mu0, logvar0, mu1, logvar1) ==> Valid()
    {
      if !modelLoaded {
        return false;
      }
      if |mu0| == 0 {
        return false;
      }
      if |mu1| == 0 {
        return false;
      }
      if |logvar0| == 0 {
        return false;
      }
      if |logvar1| == 0 {
        return false;
      }
      pair0 := new LatentPair.PairSource(mu0, logvar0, LatentDim);
      pair1 := new LatentPair.PairSource(mu1, logvar1, LatentDim);
      ok := true;
    }

    /**
     * The reads of the refill branch: `fillLatentInput` on pair 0 and then
     * pair 1, and the input list in the order mu 0, logvar 0, mu 1, logvar 1,
     * interpolation.  Each pair's cursor moves by one window.
     */
    method ReadInputs() returns (inputs: seq<Inference.Tensor>)
      requires Configured() && Sourced()
      modifies pair0, pair1, pair0.muInput, pair0.logvarInput, pair1.muInput, pair1.logvarInput
      ensures Configured() && pair0.Valid() && pair1.Valid()
      ensures pair0.windows == refills + 1 && pair1.windows == refills + 1
      ensures pair0.readPointer == (old(pair0.readPointer) + LatentDim) % |pair0.muFileSamples|
      ensures pair1.readPointer == (old(pair1.readPointer) + LatentDim) % |pair1.muFileSamples|
      ensures inputs == Inputs(pair0.muFileSamples, pair0.logvarFileSamples,
                               pair1.muFileSamples, pair1.logvarFileSamples, refills)
    {
      Ring.CursorStep(LatentDim, |pair0.muFileSamples|, pair0.windows);
      Ring.CursorStep(LatentDim, |pair1.muFileSamples|, pair1.windows);
      pair0.Read();
      pair1.Read();
      inputs := [Inference.Frames(pair0.muInput[..]), Inference.Frames(pair0.logvarInput[..]),
                 Inference.Frames(pair1.muInput[..]), Inference.Frames(pair1.logvarInput[..]),
                 Inference.Scalar(Interpolation)];
    }

    /**
     * The refill branch of `render`, taken when the counter has reached
     * `segment_size`: `model.run` overwrites `output` with the block for both
     * pairs' windows and the counter restarts.
     */
    method Refill()
      requires Configured() && Sourced()
      modifies this`outputSampleCnt, this`refills, pair0, pair1, pair0.muInput, pair0.logvarInput, pair1.muInput, pair1.logvarInput
      modifies output
      ensures Sourced() && refills == old(refills) + 1 && outputSampleCnt == 0
      ensures output[..] == model(Inputs(pair0.muFileSamples, pair0.logvarFileSamples,
                                         pair1.muFileSamples, pair1.logvarFileSamples, old(refills)))
    {
      var inputs := ReadInputs();
      Inference.Run(model, inputs, output);
      refills := refills + 1;
      outputSampleCnt := 0;
    }

    /**
     * The start of a tick: refill if the counter has reached `segment_size`.
     * That happens exactly when the tick's global index is a positive
     * multiple of `segment_size`; `output` changes only then.
     */
    method RefillIfDue()
      requires Valid()
      modifies this`outputSampleCnt, this`refills, pair0, pair1, pair0.muInput, pair0.logvarInput, pair1.muInput, pair1.logvarInput
      modifies output
      ensures Configured() && Sourced() && Emitting() && Blocked()
      ensures refills == old(refills) + 1 <==> ticks > 0 && ticks % SegmentSize == 0
      ensures refills == old(refills) ==> output[..] == old(output[..])
      ensures refills == old(refills) + 1 ==> output[..] == model(Inputs(pair0.muFileSamples,
        pair0.logvarFileSamples, pair1.muFileSamples, pair1.logvarFileSamples, old(refills)))
    {
      Schedule.CounterInvariant(0, SegmentSize, ticks);
      Schedule.RefillTicks(0, SegmentSize, ticks);
      if outputSampleCnt >= SegmentSize {
        Refill();
      }
    }

    /**
     * One iteration of the frame loop: refill if due, emit
     * `output[outputSampleCnt]`, count the tick.  The tick emits the sample
     * of the current block at its global index modulo `segment_size`; the
     * first `segment_size` ticks are silent.
     */
    method Tick() returns (y: real)
      requires Valid()
      modifies this`outputSampleCnt, this`refills, this`ticks, pair0, pair1, pair0.muInput, pair0.logvarInput, pair1.muInput, pair1.logvarInput
      modifies output
      ensures Valid() && ticks == old(ticks) + 1
      ensures refills == old(refills) + 1 <==> old(ticks) > 0 && old(ticks) % SegmentSize == 0
      ensures refills == old(refills) ==> output[..] == old(output[..])
      ensures refills == old(refills) + 1 ==> output[..] == model(Inputs(pair0.muFileSamples,
        pair0.logvarFileSamples, pair1.muFileSamples, pair1.logvarFileSamples, old(refills)))
      ensures y == output[old(ticks) % SegmentSize]
      ensures y == Played(model, pair0.muFileSamples, pair0.logvarFileSamples,
                          pair1.muFileSamples, pair1.logvarFileSamples, old(ticks))
    {
      RefillIfDue();
      y := Emit();
      Schedule.BlockIndex(0, SegmentSize, ticks);
      Count();
    }

    /**
     * The output of a tick, once the refill check is done:
     * `output[outputSampleCnt]`, the entry of the current block at the tick's
     * global index modulo `segment_size`.
     */
    method Emit() returns (y: real)
      requires Configured() && Emitting() && Blocked()
      ensures y == output[ticks % SegmentSize]
      ensures y == Played(model, pair0.muFileSamples, pair0.logvarFileSamples, pair1.muFileSamples, pair1.logvarFileSamples, ticks)
    {
      Schedule.BlockIndex(0, SegmentSize, ticks);
      y := output[outputSampleCnt];
      PlayedFrom(model, pair0.muFileSamples, pair0.logvarFileSamples, pair1.muFileSamples, pair1.logvarFileSamples,
                 ticks, refills, output[..]);
    }

    /** The counter increment that ends a tick: the scheduler state after one more tick. */
    method Count()
      requires Emitting()
      modifies this`outputSampleCnt, this`ticks
      ensures Scheduled() && ticks == old(ticks) + 1 && outputSampleCnt == old(outputSampleCnt) + 1
    {
      outputSampleCnt := outputSampleCnt + 1;
      ticks := ticks + 1;
    }

    /**
     * `render`: one tick per frame; the result is what `audioWrite` receives
     * on channels 0 and 1, the same sample on both: the sample `Played` at
     * the frame's global tick, however ticks are grouped into calls.
     */
    method Render(frames: nat) returns (out: seq<Host.Frame>)
      requires Valid()
      modifies this`outputSampleCnt, this`refills, this`ticks, pair0, pair1, pair0.muInput, pair0.logvarInput, pair1.muInput, pair1.logvarInput
      modifies output
      ensures Valid() && ticks == old(ticks) + frames
      ensures refills == Schedule.RefillCount(0, SegmentSize, ticks)
      ensures |out| == frames
      ensures forall j :: 0 <= j < frames ==> out[j].ch0 == out[j].ch1
      ensures forall j :: 0 <= j < frames ==> out[j].ch0 == Played(model, pair0.muFileSamples,
        pair0.logvarFileSamples, pair1.muFileSamples, pair1.logvarFileSamples, old(ticks) + j)
    {
      out := [];
      var n := 0;
      while n < frames
        invariant 0 <= n <= frames
        invariant Valid() && ticks == old(ticks) + n
        invariant |out| == n
        invariant forall j :: 0 <= j < n ==> out[j].ch0 == out[j].ch1
        invariant forall j :: 0 <= j < n ==> out[j].ch0 == Played(model, pair0.muFileSamples,
          pair0.logvarFileSamples, pair1.muFileSamples, pair1.logvarFileSamples, old(ticks) + j)
      {
        var y := Tick();
        out := out + [Host.Frame(y, y)];
        n := n + 1;
      }
    }
  }
}
