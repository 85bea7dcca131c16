/**
 * LatentTimbreSynthesis/lts_audioInput_gui/render.cpp: as
 * lts_audioInput/render.cpp in the same directory (two audio sources, block
 * mode, live input written straight into the model's first input), except
 * that the interpolation is read from a GUI slider once per `render` call.
 */
module AudioInputGui {
  import AudioInput
  import ModArith
  import Ring
  import LiveCapture
  import Schedule
  import Inference
  import Host

  /** `segment_size`, the one shared by every variant. */
  const SegmentSize := Inference.SegmentSize
  /** The initial value of the global `interpolation`, and the slider's default. */
  const DefaultInterpolation := 0.5

  /**
   * The first tick at or after `t0` that refills: the first positive
   * multiple of `segment_size` that is not below `t0`.
   */
  function NextRefill(t0: nat): (t1: nat)
    ensures t1 > 0 && t1 % SegmentSize == 0 && t0 <= t1
    ensures t0 > 0 ==> t1 < t0 + SegmentSize
  {
    if t0 > 0 && t0 % SegmentSize == 0 then t0 else (t0 / SegmentSize + 1) * SegmentSize
  }

  /**
   * The ticks of a render call that began at tick `t0` whose block was
   * computed during the call are exactly those from `NextRefill(t0)` on:
   * more refills have happened up to them than before the call.
   */
  lemma CallBoundary(t0: nat, t: nat)
    requires t0 <= t
    ensures Schedule.Block(0, SegmentSize, t) > Schedule.RefillCount(0, SegmentSize, t0) <==> t >= NextRefill(t0)
  {
    Schedule.BlockIndex(0, SegmentSize, t);
    Schedule.CounterInvariant(0, SegmentSize, t0);
    var r0, c := Schedule.RefillCount(0, SegmentSize, t0), Schedule.Counter(0, SegmentSize, t0);
    if t0 > 0 {
      if c == SegmentSize {
        ModArith.MulSucc(r0, SegmentSize);
        ModArith.DivModUnique(t0, SegmentSize, r0 + 1, 0);
      } else {
        ModArith.DivModUnique(t0, SegmentSize, r0, c);
      }
      assert NextRefill(t0) == (r0 + 1) * SegmentSize;
    }
  }

  /**
   * The interpolation of the block played at tick `t` of a render call that
   * began at tick `t0`: the call's slider value for a block computed during
   * the call, `prev` for the block computed before it that is still playing.
   */
  function BlockSlider(t: nat, t0: nat, slider: real, prev: real): real
  {
    if t >= NextRefill(t0) then slider else prev
  }

  /**
   * A tick `t` of such a call that played `y` from the block of its last
   * refill `r`, computed with `slider` when `r` is past the `r0` refills
   * done before the call and with `prev` otherwise, played the sample
   * `Played` with `BlockSlider`, whatever the call hears after it.
   */
  lemma PlayedInCall(model: Inference.SegmentModel, audio0: seq<real>, audio1: seq<real>, live: bool,
                     before: seq<real>, h: seq<real>, t0: nat, t: nat, r: nat, r0: nat, slider: real, prev: real,
                     used: real, y: real)
    requires AudioInput.Fits(audio0, audio1, live) && t <= |before| <= |h| && before == h[..|before|]
    requires t0 <= t && r == Schedule.Block(0, SegmentSize, t) && r0 == Schedule.RefillCount(0, SegmentSize, t0)
    requires (r == r0 ==> used == prev) && (r > r0 ==> used == slider) && r0 <= r
    requires y == AudioInput.Played(model, audio0, audio1, live, before, t, used)
    ensures y == AudioInput.Played(model, audio0, audio1, live, h, t, BlockSlider(t, t0, slider, prev))
  {
    CallBoundary(t0, t);
    AudioInput.PlayedStable(model, audio0, audio1, live, before, h, t, used);
  }

  /**
   * The globals of render.cpp, grouped by what uses them: the two audio
   * sources (`fileSamples[i]`, `readPointer[i]`, `audioInput[i]`),
   * which `setup` loads and sizes, the zero-initialised `output` block and
   * `interpolation`.  `heard` is every sample `audioRead` has returned on channel 0.
   */
  class Engine {
    const model: Inference.SegmentModel
    const liveInput: bool
    var interpolation: real
    var audio0: Ring.Source
    var audio1: Ring.Source
    const output: array<real>
    var outputSampleCnt: nat

    /** Ticks run so far over all render calls, refills done so far, and the live samples heard. */
    ghost var ticks: nat
    ghost var refills: nat
    ghost var heard: seq<real>
    /** The `interpolation` that `model.run` read at the last refill. */
    ghost var blockInterpolation: real

    /** Buffer sizes, cursor steps and the separation of every buffer from every other. */
    ghost predicate Configured()
      reads this`audio0, this`audio1
    {
      && audio0.step == SegmentSize && audio0.input.Length == SegmentSize
      && audio1.step == SegmentSize && audio1.input.Length == SegmentSize
      && output.Length == SegmentSize
      && audio0 != audio1 && audio0.input != audio1.input
      && audio0.input != output && audio1.input != output
    }

    /**
     * File 1 holds a window and has been read `k` times; so has file 0,
     * unless live input is on and it is never read.
     */
    ghost predicate SourcesAt(k: nat)
      reads this`audio0, this`audio1, audio0, audio1
    {
      && audio1.Valid() && audio1.windows == k
      && (if liveInput then 0 < |audio0.fileSamples| else audio0.Valid() && audio0.windows == k)
    }

    /** The sources have been read once per refill. */
    ghost predicate Sourced()
      reads this`audio0, this`audio1, this`refills, audio0, audio1
    {
      SourcesAt(refills)
    }

    /** The scheduler state after `ticks` ticks. */
    ghost predicate Scheduled()
      reads this`outputSampleCnt, this`ticks, this`refills
    {
      && outputSampleCnt == Schedule.Counter(0, SegmentSize, ticks)
      && refills == Schedule.RefillCount(0, SegmentSize, ticks)
    }

    /** The scheduler state inside a tick, once the refill check is done. */
    ghost predicate Emitting()
      reads this`outputSampleCnt, this`ticks, this`refills
    {
      && outputSampleCnt == Schedule.Index(0, SegmentSize, ticks)
      && refills == Schedule.RefillCount(0, SegmentSize, ticks + 1)
    }

    /**
     * `output` is silent until the first refill and holds the model's block
     * of the last refill, computed with the interpolation of that refill, after it.
     */
    ghost predicate Blocked()
      reads this`refills, this`audio0, this`audio1, this`heard, this`blockInterpolation, output
    {
      && AudioInput.Fits(audio0.fileSamples, audio1.fileSamples, liveInput)
      && (refills == 0 ==> output[..] == LiveCapture.Zeros(SegmentSize))
      && (refills > 0 ==> output[..] == model(AudioInput.Inputs(audio0.fileSamples, audio1.fileSamples, liveInput,
                                                                 heard, refills - 1, blockInterpolation)))
    }

    /**
     * With live input on, every slot of the first audio input holds the live
     * sample of the last tick that wrote it, `r` refills and `c` ticks into the block.
     */
    ghost predicate SlotsAt(r: nat, c: nat)
      reads this`audio0, this`heard, audio0.input
    {
      liveInput ==> forall m :: 0 <= m < audio0.input.Length ==>
        audio0.input[m] == LiveCapture.Sample(heard, LiveCapture.SlotTick(SegmentSize, r, c, m))
    }

    /** One sample heard per tick, and the first audio input filled accordingly. */
    ghost predicate Capturing()
      reads this`audio0, this`heard, this`ticks, this`refills, this`outputSampleCnt, audio0.input
    {
      |heard| == ticks && SlotsAt(refills, outputSampleCnt)
    }

    ghost predicate Valid()
      reads this, audio0, audio1, output, audio0.input
    {
      Configured() && Sourced() && Scheduled() && Blocked() && Capturing()
    }

    /** The state before `setup`: zero-initialised globals and `output`, empty vectors. */
    ghost predicate Initial()
      reads this, output
    {
      && output.Length == SegmentSize && output[..] == LiveCapture.Zeros(SegmentSize)
      && outputSampleCnt == 0 && ticks == 0 && refills == 0 && heard == []
    }

    constructor (model: Inference.SegmentModel, liveInput: bool)
      ensures this.model == model && this.liveInput == liveInput
      ensures Initial()
    {
      this.model := model;
      this.liveInput := liveInput;
      interpolation := DefaultInterpolation;
      blockInterpolation := DefaultInterpolation;
      audio0 := new Ring.Source([], 0, SegmentSize);
      audio1 := new Ring.Source([], 0, SegmentSize);
      output := new real[SegmentSize](_ => 0.0);
      outputSampleCnt := 0;
      ticks, refills, heard := 0, 0, [];
    }

    /**
     * `setup`: a model that does not load is only reported; it fails exactly
     * when either audio file is empty, file 0 being checked first.
     */
    method Setup(modelLoaded: bool, audioFile0: seq<real>, audioFile1: seq<real>) returns (ok: bool)
      requires Initial()
      modifies this`audio0, this`audio1
      ensures ok <==> |audioFile0| > 0 && |audioFile1| > 0
      ensures ok ==> audio0.fileSamples == audioFile0 && audio1.fileSamples == audioFile1
      ensures ok ==> audio0.readPointer == 0 && audio1.readPointer == 0
      ensures ok && AudioInput.Fits(audioFile0, audioFile1, liveInput) ==> Valid()
    {
      if |audioFile0| == 0 {
        return false;
      }
      if |audioFile1| == 0 {
        return false;
      }
      audio0 := new Ring.Source(audioFile0, SegmentSize, SegmentSize);
      audio1 := new Ring.Source(audioFile1, SegmentSize, SegmentSize);
      ok := true;
      assert SlotsAt(refills, outputSampleCnt) by {
        forall m | 0 <= m < audio0.input.Length
          ensures audio0.input[m] == LiveCapture.Sample(heard, LiveCapture.SlotTick(SegmentSize, refills, outputSampleCnt, m))
        {
        }
      }
    }

    /**
     * The reads of the refill branch: `fillAudioInput` on file 0 unless live
     * input is on, then on file 1, and the input list in the order audio 0,
     * audio 1, interpolation.
     */
    method ReadInputs() returns (inputs: seq<Inference.Tensor>)
      requires Configured() && Sourced() && Capturing() && outputSampleCnt == SegmentSize
      requires |heard| == (refills + 1) * SegmentSize
      modifies audio0, audio1, audio0.input, audio1.input
      ensures Configured() && SourcesAt(refills + 1)
      ensures liveInput ==> audio0.input[..] == old(audio0.input[..]) == LiveCapture.Recent(heard, SegmentSize)
      ensures SlotsAt(refills + 1, 0)
      ensures inputs == AudioInput.Inputs(audio0.fileSamples, audio1.fileSamples, liveInput, heard, refills, interpolation)
    {
      if !liveInput {
        AudioInput.ReadSource(audio0);
      } else {
        forall m | 0 <= m < SegmentSize
          ensures audio0.input[m] == LiveCapture.BlockWindow(heard, SegmentSize, refills)[m]
          ensures audio0.input[m] == LiveCapture.Sample(heard, LiveCapture.SlotTick(SegmentSize, refills + 1, 0, m))
        {
          assert LiveCapture.SlotTick(SegmentSize, refills, outputSampleCnt, m) == refills * SegmentSize + m == LiveCapture.SlotTick(SegmentSize, refills + 1, 0, m);
        }
        assert audio0.input[..] == LiveCapture.BlockWindow(heard, SegmentSize, refills);
        LiveCapture.BlockWindowRecent(heard, SegmentSize, refills);
      }
      AudioInput.ReadSource(audio1);
      inputs := [Inference.Frames(audio0.input[..]), Inference.Frames(audio1.input[..]), Inference.Scalar(interpolation)];
    }

    /**
     * The refill branch of `render`, taken when the counter has reached
     * `segment_size`: `model.run` overwrites `output` with the block for the
     * sources' windows, and the counter restarts.  With live input on, the
     * first input is the block of live samples heard since the last refill.
     */
    method Refill()
      requires Configured() && Sourced() && Capturing() && outputSampleCnt == SegmentSize
      requires |heard| == (refills + 1) * SegmentSize
      modifies this`outputSampleCnt, this`refills, this`blockInterpolation, audio0, audio1, audio0.input, audio1.input, output
      ensures Sourced() && Capturing() && refills == old(refills) + 1 && outputSampleCnt == 0
      ensures output[..] == model(AudioInput.Inputs(audio0.fileSamples, audio1.fileSamples, liveInput, heard, old(refills), interpolation))
      ensures blockInterpolation == interpolation
      ensures liveInput ==> audio0.input[..] == LiveCapture.Recent(heard, SegmentSize)
    {
      var inputs := ReadInputs();
      Inference.Run(model, inputs, output);
      blockInterpolation := interpolation;
      refills := refills + 1;
      outputSampleCnt := 0;
    }

    /**
     * The start of a tick: refill if the counter has reached `segment_size`.
     * That happens exactly when the tick's global index is a positive
     * multiple of `segment_size`; `output` changes only then.
     */
    method RefillIfDue()
      requires Valid()
      modifies this`outputSampleCnt, this`refills, this`blockInterpolation, audio0, audio1, audio0.input, audio1.input, output
      ensures Configured() && Sourced() && Emitting() && Blocked() && Capturing() && heard == old(heard)
      ensures refills == old(refills) + 1 <==> ticks > 0 && ticks % SegmentSize == 0
      ensures InCall(old(refills), old(blockInterpolation))
      ensures refills == old(refills) ==> output[..] == old(output[..])
      ensures refills == old(refills) + 1 ==> output[..] == model(AudioInput.Inputs(audio0.fileSamples, audio1.fileSamples,
        liveInput, heard, old(refills), interpolation))
    {
      Schedule.CounterInvariant(0, SegmentSize, ticks);
      Schedule.RefillTicks(0, SegmentSize, ticks);
      if outputSampleCnt >= SegmentSize {
        Refill();
      }
    }

    /**
     * The capture step of a tick: with live input on, the live sample goes
     * to `audioInput[0][outputSampleCnt]`, the slot `c` of block `r`.
     */
    method Store(x: real, c: nat, ghost r: nat)
      requires audio0.input.Length == SegmentSize && c < SegmentSize && audio0.input != output
      requires SlotsAt(r, c) && |heard| == r * SegmentSize + c
      requires Blocked() && refills * SegmentSize <= |heard|
      modifies this`heard, audio0.input
      ensures SlotsAt(r, c + 1) && Blocked() && heard == old(heard) + [x]
      ensures liveInput ==> audio0.input[..] == old(audio0.input[..])[c := x]
      ensures !liveInput ==> audio0.input[..] == old(audio0.input[..])
    {
      if liveInput {
        audio0.input[c] := x;
      }
      heard := heard + [x];
      if liveInput {
        forall m | 0 <= m < audio0.input.Length
          ensures audio0.input[m] == LiveCapture.Sample(heard, LiveCapture.SlotTick(SegmentSize, r, c + 1, m))
        {
          if m != c {
            assert LiveCapture.SlotTick(SegmentSize, r, c + 1, m) == LiveCapture.SlotTick(SegmentSize, r, c, m);
          }
        }
      }
      if refills > 0 {
        AudioInput.InputsStable(audio0.fileSamples, audio1.fileSamples, liveInput, old(heard), heard, refills - 1,
                                blockInterpolation);
      }
    }

    /**
     * The emission step of a tick: `output[outputSampleCnt]` on both
     * channels, which is the sample `Played` at the tick's global index with
     * the interpolation of the last refill; that refill is the tick's block.
     */
    method Emit() returns (y: real)
      requires Configured() && Emitting() && Blocked()
      ensures y == output[ticks % SegmentSize]
      ensures y == AudioInput.Played(model, audio0.fileSamples, audio1.fileSamples, liveInput, heard, ticks, blockInterpolation)
    {
      Schedule.BlockIndex(0, SegmentSize, ticks);
      y := output[outputSampleCnt];
      AudioInput.PlayedFrom(model, audio0.fileSamples, audio1.fileSamples, liveInput, heard, ticks, refills, output[..],
                            blockInterpolation);
    }

    /** The end of a tick: store the live sample when live input is on, and count the tick. */
    method EndTick(x: real)
      requires Configured() && Sourced() && Emitting() && Blocked() && Capturing()
      modifies this`outputSampleCnt, this`ticks, this`heard, audio0.input
      ensures Valid() && ticks == old(ticks) + 1 && heard == old(heard) + [x]
      ensures refills == Schedule.Block(0, SegmentSize, old(ticks))
      ensures liveInput ==> audio0.input[..] == old(audio0.input[..])[old(outputSampleCnt) := x]
      ensures !liveInput ==> audio0.input[..] == old(audio0.input[..])
    {
      Schedule.BlockIndex(0, SegmentSize, ticks);
      Store(x, outputSampleCnt, refills);
      Count();
    }

    /** The counter increment that ends a tick: the scheduler state after one more tick. */
    method Count()
      requires Emitting()
      modifies this`outputSampleCnt, this`ticks
      ensures Scheduled() && ticks == old(ticks) + 1 && outputSampleCnt == old(outputSampleCnt) + 1
    {
      outputSampleCnt := outputSampleCnt + 1;
      ticks := ticks + 1;
    }

    /**
     * One iteration of the frame loop: refill if due, emit
     * `output[outputSampleCnt]`, store the live sample, count the tick.  The
     * tick emits the sample of the current block at its global index modulo
     * `segment_size`; the first `segment_size` ticks are silent.  A refill
     * runs the model with the current `interpolation`.
     */
    method Tick(x: real) returns (y: real)
      requires Valid()
      modifies this`outputSampleCnt, this`refills, this`ticks, this`heard, this`blockInterpolation, audio0, audio1
      modifies audio0.input, audio1.input, output
      ensures Valid() && ticks == old(ticks) + 1 && heard == old(heard) + [x]
      ensures refills == old(refills) + 1 <==> old(ticks) > 0 && old(ticks) % SegmentSize == 0
      ensures refills == Schedule.Block(0, SegmentSize, old(ticks))
      ensures InCall(old(refills), old(blockInterpolation))
      ensures y == AudioInput.Played(model, audio0.fileSamples, audio1.fileSamples, liveInput, old(heard), old(ticks),
                                     blockInterpolation)
    {
      RefillIfDue();
      ghost var r1, b1 := refills, blockInterpolation;
      y := Emit();
      EndTick(x);
      assert refills == r1 && blockInterpolation == b1;
    }

    /**
     * Inside a render call that began after `r0` refills with `prev` the
     * interpolation of the last one: the block playing was computed with
     * `prev` if no refill happened since, with the call's `interpolation` otherwise.
     */
    ghost predicate InCall(r0: nat, prev: real)
      reads this`refills, this`blockInterpolation, this`interpolation
    {
      && r0 <= refills
      && (refills == r0 ==> blockInterpolation == prev)
      && (refills > r0 ==> blockInterpolation == interpolation)
    }

    /**
     * One frame of a render call that began after `r0` refills with the
     * last refill's interpolation `prev`: a tick, whose sample is the one
     * `Played` at that tick with `BlockSlider`, whatever the call hears
     * after it (`h` is everything heard up to the call's end).
     */
    method Frame(x: real, ghost h: seq<real>, ghost t0: nat, ghost r0: nat, ghost prev: real) returns (y: real)
      requires Valid() && |heard| < |h| && h[..|heard| + 1] == heard + [x] && InCall(r0, prev)
      requires t0 <= ticks && r0 == Schedule.RefillCount(0, SegmentSize, t0)
      modifies this`outputSampleCnt, this`refills, this`ticks, this`heard, this`blockInterpolation, audio0, audio1
      modifies audio0.input, audio1.input, output
      ensures Valid() && ticks == old(ticks) + 1 && heard == old(heard) + [x] && InCall(r0, prev)
      ensures y == AudioInput.Played(model, audio0.fileSamples, audio1.fileSamples, liveInput, h, old(ticks),
                                     BlockSlider(old(ticks), t0, interpolation, prev))
    {
      ghost var before := heard;
      assert before == h[..|before| + 1][..|before|];
      y := Tick(x);
      PlayedInCall(model, audio0.fileSamples, audio1.fileSamples, liveInput, before, h, t0, old(ticks), refills, r0,
                   interpolation, prev, blockInterpolation, y);
    }

    /**
     * `render`: first `interpolation` takes the value of slider 0, then one
     * tick per frame of `frames` (the samples `audioRead` returns on channel
     * 0); the result is what `audioWrite` receives on channels 0 and 1, the
     * same sample on both: the sample `Played` at the frame's global tick,
     * with the slider value for the blocks computed in this call and the
     * interpolation of the last earlier refill for the block still playing.
     */
    method Render(frames: seq<real>, slider: real) returns (out: seq<Host.Frame>)
      requires Valid()
      modifies this`interpolation, this`outputSampleCnt, this`refills, this`ticks, this`heard, this`blockInterpolation
      modifies audio0, audio1, audio0.input, audio1.input, output
      ensures Valid() && ticks == old(ticks) + |frames| && heard == old(heard) + frames
      ensures interpolation == slider
      ensures refills == Schedule.RefillCount(0, SegmentSize, ticks)
      ensures |out| == |frames|
      ensures forall j :: 0 <= j < |frames| ==> out[j].ch0 == out[j].ch1
      ensures forall j :: 0 <= j < |frames| ==>
        out[j].ch0 == AudioInput.Played(model, audio0.fileSamples, audio1.fileSamples, liveInput, heard, old(ticks) + j,
                                        BlockSlider(old(ticks) + j, old(ticks), slider, old(blockInterpolation)))
    {
      interpolation := slider;
      out := Play(frames, ticks, refills, blockInterpolation);
    }

    /**
     * The frame loop of `render`, once the slider has been read into
     * `interpolation`: one tick per frame of `frames`, for a call that
     * began at tick `t0` after `r0` refills, the last with interpolation
     * `prev`; frame `j` it writes is the sample `Played` at tick `t0 + j`
     * with the interpolation of that tick's block, on both channels.
     */
    method Play(frames: seq<real>, ghost t0: nat, ghost r0: nat, ghost prev: real) returns (out: seq<Host.Frame>)
      requires Valid() && t0 == ticks && r0 == refills && prev == blockInterpolation
      modifies this`outputSampleCnt, this`refills, this`ticks, this`heard, this`blockInterpolation
      modifies audio0, audio1, audio0.input, audio1.input, output
      ensures Valid() && ticks == old(ticks) + |frames| && heard == old(heard) + frames
      ensures |out| == |frames|
      ensures forall j :: 0 <= j < |out| ==>
        out[j].ch0 == out[j].ch1 == AudioInput.Played(model, audio0.fileSamples, audio1.fileSamples, liveInput, heard, t0 + j,
                                                       BlockSlider(t0 + j, t0, interpolation, prev))
    {
      ghost var h := old(heard) + frames;
      ghost var a0, a1 := audio0.fileSamples, audio1.fileSamples;
      out := [];
      var n := 0;
      while n < |frames|
        invariant 0 <= n <= |frames|
        invariant Valid() && ticks == old(ticks) + n && heard == h[..|old(heard)| + n]
        invariant AudioInput.Fits(a0, a1, liveInput) && InCall(r0, prev) && r0 == Schedule.RefillCount(0, SegmentSize, t0)
        invariant |out| == n
        invariant forall j :: 0 <= j < n ==>
          out[j].ch0 == out[j].ch1 == AudioInput.Played(model, a0, a1, liveInput, h, t0 + j, BlockSlider(t0 + j, t0, interpolation, prev))
      {
        assert h[..|old(heard)| + n + 1] == heard + [frames[n]];
        var y := Frame(frames[n], h, t0, r0, prev);
        out := out + [Host.Frame(y, y)];
        n := n + 1;
      }
      assert frames[..n] == frames;
    }
  }
}
