/**
 * LatentTimbreSynthesis/lts_audioInput/render.cpp: two audio sources (file
 * 0, or the live input written straight into the model's first input, and
 * file 1) feed a model every `segment_size` ticks (block mode); the model
 * writes its block into the single `output` buffer that the ticks then play.
 */
module AudioInput {
  import Ring
  import LiveCapture
  import Schedule
  import Inference
  import Host

  /** `segment_size`, the one shared by every variant. */
  const SegmentSize := Inference.SegmentSize
  /** The global `interpolation`, never reassigned in this variant. */
  const Interpolation := 0.5

  /** `fillAudioInput`: copies the window at `readPointer` and moves the cursor by the whole window. */
  method FillAudioInput(audioSamples: seq<real>, audioInput: array<real>, readPointer: nat) returns (newPointer: nat)
    requires readPointer < |audioSamples| && audioInput.Length <= |audioSamples|
    modifies audioInput
    ensures audioInput[..] == Ring.Window(audioSamples, readPointer, audioInput.Length)
    ensures newPointer == (readPointer + audioInput.Length) % |audioSamples|
  {
    Ring.CopyWindow(audioSamples, audioInput, readPointer);
    newPointer := (readPointer + audioInput.Length) % |audioSamples|;
  }

  /**
   * Every file that is read holds a window of the size the model takes.
   * With live input on file 0 is never read; it only has to be non-empty
   * for `setup` to succeed.
   */
  predicate Fits(audio0: seq<real>, audio1: seq<real>, live: bool)
  {
    |audio0| > 0 && |audio1| >= SegmentSize && (live || |audio0| >= SegmentSize)
  }

  /** The first audio input of the refill after `b` earlier ones: the live block, or the window of file 0. */
  function FirstWindow(audio0: seq<real>, live: bool, h: seq<real>, b: nat): (w: seq<real>)
    requires |audio0| > 0
    ensures |w| == SegmentSize
  {
    if live then LiveCapture.BlockWindow(h, SegmentSize, b) else Ring.ReadAt(audio0, SegmentSize, SegmentSize, b)
  }

  /**
   * The model inputs of the refill after `b` earlier ones, in the order
   * audio 0, audio 1, interpolation (the `interpolation` global at the time).
   */
  function Inputs(audio0: seq<real>, audio1: seq<real>, live: bool, h: seq<real>, b: nat, interpolation: real)
    : (inputs: seq<Inference.Tensor>)
    requires Fits(audio0, audio1, live)
    ensures |inputs| == 3 && inputs[2] == Inference.Scalar(interpolation)
    ensures inputs[1] == Inference.Frames(Ring.ReadAt(audio1, SegmentSize, SegmentSize, b))
  {
    [Inference.Frames(FirstWindow(audio0, live, h, b)),
     Inference.Frames(Ring.ReadAt(audio1, SegmentSize, SegmentSize, b)),
     Inference.Scalar(interpolation)]
  }

  /** The inputs of a refill only depend on the live samples heard before it. */
  lemma InputsStable(audio0: seq<real>, audio1: seq<real>, live: bool, h: seq<real>, h': seq<real>, b: nat, interpolation: real)
    requires Fits(audio0, audio1, live) && (b + 1) * SegmentSize <= |h| <= |h'| && h == h'[..|h|]
    ensures Inputs(audio0, audio1, live, h, b, interpolation) == Inputs(audio0, audio1, live, h', b, interpolation)
  {
    LiveCapture.BlockWindowStable(h, h', SegmentSize, b);
  }

  /**
   * The sample tick `t` plays: silence while the zero-initialised `output`
   * is played, then sample `t % segment_size` of the block of the refill at
   * tick `(t / segment_size) * segment_size`, which had `t / segment_size - 1`
   * refills before it and ran with `interpolation`.
   */
  function Played(model: Inference.SegmentModel, audio0: seq<real>, audio1: seq<real>, live: bool,
                  h: seq<real>, t: nat, interpolation: real): real
    requires Fits(audio0, audio1, live)
  {
    if t < SegmentSize then 0.0
    else model(Inputs(audio0, audio1, live, h, t / SegmentSize - 1, interpolation))[t % SegmentSize]
  }

  /** What a tick plays only depends on the live samples heard before it, not on those heard later. */
  lemma PlayedStable(model: Inference.SegmentModel, audio0: seq<real>, audio1: seq<real>, live: bool,
                     h: seq<real>, h': seq<real>, t: nat, interpolation: real)
    requires Fits(audio0, audio1, live) && t <= |h| <= |h'| && h == h'[..|h|]
    ensures Played(model, audio0, audio1, live, h, t, interpolation)
         == Played(model, audio0, audio1, live, h', t, interpolation)
  {
    if t >= SegmentSize {
      InputsStable(audio0, audio1, live, h, h', t / SegmentSize - 1, interpolation);
    }
  }

  /** A tick with `r` refills up to and including it plays its sample of the block of the last one. */
  lemma PlayedFrom(model: Inference.SegmentModel, audio0: seq<real>, audio1: seq<real>, live: bool,
                   h: seq<real>, t: nat, r: nat, block: seq<real>, interpolation: real)
    requires Fits(audio0, audio1, live) && r == t / SegmentSize
    requires r == 0 ==> block == LiveCapture.Zeros(SegmentSize)
    requires r > 0 ==> block == model(Inputs(audio0, audio1, live, h, r - 1, interpolation))
    ensures block[t % SegmentSize] == Played(model, audio0, audio1, live, h, t, interpolation)
  {
  }

  /** One file's read in the refill branch: `fillAudioInput` on its samples, input buffer and cursor. */
  method ReadSource(src: Ring.Source)
    requires src.Valid() && src.step == src.input.Length
    modifies src, src.input
    ensures src.Valid() && src.windows == old(src.windows) + 1
    ensures src.input[..] == Ring.ReadAt(src.fileSamples, src.step, src.input.Length, old(src.windows))
  {
    Ring.CursorStep(src.step, |src.fileSamples|, src.windows);
    var p := FillAudioInput(src.fileSamples, src.input, src.readPointer);
    src.readPointer := p;
    src.windows := src.windows + 1;
  }

  /**
   * The globals of render.cpp, grouped by what uses them: the two audio
   * sources (`audioFileSamples[i]`, `readPointer[i]`, `audioInput[i]`),
   * which `setup` loads and sizes, and the zero-initialised `output` block.
   * `heard` is every sample `audioRead` has returned on channel 0.
   */
  class Engine {
    const model: Inference.SegmentModel
    const liveInput: bool
    var audio0: Ring.Source
    var audio1: Ring.Source
    const output: array<real>
    var outputSampleCnt: nat

    /** Ticks run so far over all render calls, refills done so far, and the live samples heard. */
    ghost var ticks: nat
    ghost var refills: nat
    ghost var heard: seq<real>

    /** Buffer sizes, cursor steps and the separation of every buffer from every other. */
    ghost predicate Configured()
      reads this`audio0, this`audio1
    {
      && audio0.step == SegmentSize && audio0.input.Length == SegmentSize
      && audio1.step == SegmentSize && audio1.input.Length == SegmentSize
      && output.Length == SegmentSize
      && audio0 != audio1 && audio0.input != audio1.input
      && audio0.input != output && audio1.input != output
    }

    /**
     * File 1 holds a window and has been read `k` times; so has file 0,
     * unless live input is on and it is never read.
     */
    ghost predicate SourcesAt(k: nat)
      reads this`audio0, this`audio1, audio0, audio1
    {
      && audio1.Valid() && audio1.windows == k
      && (if liveInput then 0 < |audio0.fileSamples| else audio0.Valid() && audio0.windows == k)
    }

    /** The sources have been read once per refill. */
    ghost predicate Sourced()
      reads this`audio0, this`audio1, this`refills, audio0, audio1
    {
      SourcesAt(refills)
    }

    /** The scheduler state after `ticks` ticks. */
    ghost predicate Scheduled()
      reads this`outputSampleCnt, this`ticks, this`refills
    {
      && outputSampleCnt == Schedule.Counter(0, SegmentSize, ticks)
      && refills == Schedule.RefillCount(0, SegmentSize, ticks)
    }

    /** The scheduler state inside a tick, once the refill check is done. */
    ghost predicate Emitting()
      reads this`outputSampleCnt, this`ticks, this`refills
    {
      && outputSampleCnt == Schedule.Index(0, SegmentSize, ticks)
      && refills == Schedule.RefillCount(0, SegmentSize, ticks + 1)
    }

    /** `output` is silent until the first refill and holds the model's block of the last refill after it. */
    ghost predicate Blocked()
      reads this`refills, this`audio0, this`audio1, this`heard, output
    {
      && Fits(audio0.fileSamples, audio1.fileSamples, liveInput)
      && (refills == 0 ==> output[..] == LiveCapture.Zeros(SegmentSize))
      && (refills > 0 ==> output[..] == model(Inputs(audio0.fileSamples, audio1.fileSamples, liveInput,
                                                      heard, refills - 1, Interpolation)))
    }

    /**
     * With live input on, every slot of the first audio input holds the live
     * sample of the last tick that wrote it, `r` refills and `c` ticks into the block.
     */
    ghost predicate SlotsAt(r: nat, c: nat)
      reads this`audio0, this`heard, audio0.input
    {
      liveInput ==> forall m :: 0 <= m < audio0.input.Length ==>
        audio0.input[m] == LiveCapture.Sample(heard, LiveCapture.SlotTick(SegmentSize, r, c, m))
    }

    /** One sample heard per tick, and the first audio input filled accordingly. */
    ghost predicate Capturing()
      reads this`audio0, this`heard, this`ticks, this`refills, this`outputSampleCnt, audio0.input
    {
      |heard| == ticks && SlotsAt(refills, outputSampleCnt)
    }

    ghost predicate Valid()
      reads this, audio0, audio1, output, audio0.input
    {
      Configured() && Sourced() && Scheduled() && Blocked() && Capturing()
    }

    /** The state before `setup`: zero-initialised globals and `output`, empty vectors. */
    ghost predicate Initial()
      reads this, output
    {
      && output.Length == SegmentSize && output[..] == LiveCapture.Zeros(SegmentSize)
      && outputSampleCnt == 0 && ticks == 0 && refills == 0 && heard == []
    }

    constructor (model: Inference.SegmentModel, liveInput: bool)
      ensures this.model == model && this.liveInput == liveInput
      ensures Initial()
    {
      this.model := model;
      this.liveInput := liveInput;
      audio0 := new Ring.Source([], 0, SegmentSize);
      audio1 := new Ring.Source([], 0, SegmentSize);
      output := new real[SegmentSize](_ => 0.0);
      outputSampleCnt := 0;
      ticks, refills, heard := 0, 0, [];
    }

    /**
     * `setup`: a model that does not load is only reported; it fails exactly
     * when either audio file is empty, file 0 being checked first.
     */
    method Setup(modelLoaded: bool, audioFile0: seq<real>, audioFile1: seq<real>) returns (ok: bool)
      requires Initial()
      modifies this`audio0, this`audio1
      ensures ok <==> |audioFile0| > 0 && |audioFile1| > 0
      ensures ok ==> audio0.fileSamples == audioFile0 && audio1.fileSamples == audioFile1
      ensures ok ==> audio0.readPointer == 0 && audio1.readPointer == 0
      ensures ok && Fits(audioFile0, audioFile1, liveInput) ==> Valid()
    {
      if |audioFile0| == 0 {
        return false;
      }
      if |audioFile1| == 0 {
        return false;
      }
      audio0 := new Ring.Source(audioFile0, SegmentSize, SegmentSize);
      audio1 := new Ring.Source(audioFile1, SegmentSize, SegmentSize);
      ok := true;
      assert SlotsAt(refills, outputSampleCnt) by {
        forall m | 0 <= m < audio0.input.Length
          ensures audio0.input[m] == LiveCapture.Sample(heard, LiveCapture.SlotTick(SegmentSize, refills, outputSampleCnt, m))
        {
        }
      }
    }

    /**
     * The reads of the refill branch: `fillAudioInput` on file 0 unless live
     * input is on, then on file 1, and the input list in the order audio 0,
     * audio 1, interpolation.
     */
    method ReadInputs() returns (inputs: seq<Inference.Tensor>)
      requires Configured() && Sourced() && Capturing() && outputSampleCnt == SegmentSize
      requires |heard| == (refills + 1) * SegmentSize
      modifies audio0, audio1, audio0.input, audio1.input
      ensures Configured() && SourcesAt(refills + 1)
      ensures liveInput ==> audio0.input[..] == old(audio0.input[..]) == LiveCapture.Recent(heard, SegmentSize)
      ensures SlotsAt(refills + 1, 0)
      ensures inputs == Inputs(audio0.fileSamples, audio1.fileSamples, liveInput, heard, refills, Interpolation)
    {
      if !liveInput {
        ReadSource(audio0);
      } else {
        forall m | 0 <= m < SegmentSize
          ensures audio0.input[m] == LiveCapture.BlockWindow(heard, SegmentSize, refills)[m]
          ensures audio0.input[m] == LiveCapture.Sample(heard, LiveCapture.SlotTick(SegmentSize, refills + 1, 0, m))
        {
          assert LiveCapture.SlotTick(SegmentSize, refills, outputSampleCnt, m) == refills * SegmentSize + m == LiveCapture.SlotTick(SegmentSize, refills + 1, 0, m);
        }
        assert audio0.input[..] == LiveCapture.BlockWindow(heard, SegmentSize, refills);
        LiveCapture.BlockWindowRecent(heard, SegmentSize, refills);
      }
      ReadSource(audio1);
      inputs := [Inference.Frames(audio0.input[..]), Inference.Frames(audio1.input[..]), Inference.Scalar(Interpolation)];
    }

    /**
     * The refill branch of `render`, taken when the counter has reached
     * `segment_size`: `model.run` overwrites `output` with the block for the
     * sources' windows, and the counter restarts.  With live input on, the
     * first input is the block of live samples heard since the last refill.
     */
    method Refill()
      requires Configured() && Sourced() && Capturing() && outputSampleCnt == SegmentSize
      requires |heard| == (refills + 1) * SegmentSize
      modifies this`outputSampleCnt, this`refills, audio0, audio1, audio0.input, audio1.input, output
      ensures Sourced() && Capturing() && refills == old(refills) + 1 && outputSampleCnt == 0
      ensures output[..] == model(Inputs(audio0.fileSamples, audio1.fileSamples, liveInput, heard, old(refills), Interpolation))
      ensures liveInput ==> audio0.input[..] == LiveCapture.Recent(heard, SegmentSize)
    {
      var inputs := ReadInputs();
      Inference.Run(model, inputs, output);
      refills := refills + 1;
      outputSampleCnt := 0;
    }

    /**
     * The start of a tick: refill if the counter has reached `segment_size`.
     * That happens exactly when the tick's global index is a positive
     * multiple of `segment_size`; `output` changes only then.
     */
    method RefillIfDue()
      requires Valid()
      modifies this`outputSampleCnt, this`refills, audio0, audio1, audio0.input, audio1.input, output
      ensures Configured() && Sourced() && Emitting() && Blocked() && Capturing() && heard == old(heard)
      ensures refills == old(refills) + 1 <==> ticks > 0 && ticks % SegmentSize == 0
      ensures refills == old(refills) ==> output[..] == old(output[..])
      ensures refills == old(refills) + 1 ==> output[..] == model(Inputs(audio0.fileSamples, audio1.fileSamples,
        liveInput, heard, old(refills), Interpolation))
    {
      Schedule.CounterInvariant(0, SegmentSize, ticks);
      Schedule.RefillTicks(0, SegmentSize, ticks);
      if outputSampleCnt >= SegmentSize {
        Refill();
      }
    }

    /**
     * The capture step of a tick: with live input on, the live sample goes
     * to `audioInput[0][outputSampleCnt]`, the slot `c` of block `r`.
     */
    method Store(x: real, c: nat, ghost r: nat)
      requires audio0.input.Length == SegmentSize && c < SegmentSize && audio0.input != output
      requires SlotsAt(r, c) && |heard| == r * SegmentSize + c
      requires Blocked() && refills * SegmentSize <= |heard|
      modifies this`heard, audio0.input
      ensures SlotsAt(r, c + 1) && Blocked() && heard == old(heard) + [x]
      ensures liveInput ==> audio0.input[..] == old(audio0.input[..])[c := x]
      ensures !liveInput ==> audio0.input[..] == old(audio0.input[..])
    {
      if liveInput {
        audio0.input[c] := x;
      }
      heard := heard + [x];
      if liveInput {
        forall m | 0 <= m < audio0.input.Length
          ensures audio0.input[m] == LiveCapture.Sample(heard, LiveCapture.SlotTick(SegmentSize, r, c + 1, m))
        {
          if m != c {
            assert LiveCapture.SlotTick(SegmentSize, r, c + 1, m) == LiveCapture.SlotTick(SegmentSize, r, c, m);
          }
        }
      }
      if refills > 0 {
        InputsStable(audio0.fileSamples, audio1.fileSamples, liveInput, old(heard), heard, refills - 1, Interpolation);
      }
    }

    /**
     * The emission step of a tick: `output[outputSampleCnt]` on both
     * channels, which is the sample `Played` at the tick's global index.
     */
    method Emit() returns (y: real)
      requires Configured() && Emitting() && Blocked()
      ensures y == output[ticks % SegmentSize]
      ensures y == Played(model, audio0.fileSamples, audio1.fileSamples, liveInput, heard, ticks, Interpolation)
    {
      Schedule.BlockIndex(0, SegmentSize, ticks);
      y := output[outputSampleCnt];
      PlayedFrom(model, audio0.fileSamples, audio1.fileSamples, liveInput, heard, ticks, refills, output[..], Interpolation);
    }

    /** The end of a tick: store the live sample when live input is on, and count the tick. */
    method EndTick(x: real)
      requires Configured() && Sourced() && Emitting() && Blocked() && Capturing()
      modifies this`outputSampleCnt, this`ticks, this`heard, audio0.input
      ensures Valid() && ticks == old(ticks) + 1 && heard == old(heard) + [x]
      ensures liveInput ==> audio0.input[..] == old(audio0.input[..])[old(outputSampleCnt) := x]
      ensures !liveInput ==> audio0.input[..] == old(audio0.input[..])
    {
      Schedule.BlockIndex(0, SegmentSize, ticks);
      Store(x, outputSampleCnt, refills);
      Count();
    }

    /** The counter increment that ends a tick: the scheduler state after one more tick. */
    method Count()
      requires Emitting()
      modifies this`outputSampleCnt, this`ticks
      ensures Scheduled() && ticks == old(ticks) + 1 && outputSampleCnt == old(outputSampleCnt) + 1
    {
      outputSampleCnt := outputSampleCnt + 1;
      ticks := ticks + 1;
    }

    /**
     * One iteration of the frame loop: refill if due, emit
     * `output[outputSampleCnt]`, store the live sample, count the tick.  The
     * tick emits the sample of the current block at its global index modulo
     * `segment_size`; the first `segment_size` ticks are silent.
     */
    method Tick(x: real) returns (y: real)
      requires Valid()
      modifies this`outputSampleCnt, this`refills, this`ticks, this`heard, audio0, audio1
      modifies audio0.input, audio1.input, output
      ensures Valid() && ticks == old(ticks) + 1 && heard == old(heard) + [x]
      ensures refills == old(refills) + 1 <==> old(ticks) > 0 && old(ticks) % SegmentSize == 0
      ensures y == Played(model, audio0.fileSamples, audio1.fileSamples, liveInput, old(heard), old(ticks), Interpolation)
    {
      RefillIfDue();
      y := Emit();
      EndTick(x);
    }

    /**
     * `render`: one tick per frame of `frames` (the samples `audioRead`
     * returns on channel 0); the result is what `audioWrite` receives on
     * channels 0 and 1, the same sample on both: the sample `Played` at the
     * frame's global tick, however ticks are grouped into calls.
     */
    method Render(frames: seq<real>) returns (out: seq<Host.Frame>)
      requires Valid()
      modifies this`outputSampleCnt, this`refills, this`ticks, this`heard, audio0, audio1
      modifies audio0.input, audio1.input, output
      ensures Valid() && ticks == old(ticks) + |frames| && heard == old(heard) + frames
      ensures refills == Schedule.RefillCount(0, SegmentSize, ticks)
      ensures |out| == |frames|
      ensures forall j :: 0 <= j < |frames| ==> out[j].ch0 == out[j].ch1
      ensures forall j :: 0 <= j < |frames| ==>
        out[j].ch0 == Played(model, audio0.fileSamples, audio1.fileSamples, liveInput, heard, old(ticks) + j, Interpolation)
    {
      ghost var h := old(heard) + frames;
      ghost var a0, a1 := audio0.fileSamples, audio1.fileSamples;
      out := [];
      var n := 0;
      while n < |frames|
        invariant 0 <= n <= |frames|
        invariant Valid() && ticks == old(ticks) + n && heard == h[..|old(heard)| + n]
        invariant |out| == n && Fits(a0, a1, liveInput)
        invariant forall j :: 0 <= j < n ==>
          out[j] == Host.Frame(Played(model, a0, a1, liveInput, h, old(ticks) + j, Interpolation),
                               Played(model, a0, a1, liveInput, h, old(ticks) + j, Interpolation))
      {
        ghost var before := heard;
        var y := Tick(frames[n]);
        PlayedStable(model, a0, a1, liveInput, before, h, old(ticks) + n, Interpolation);
        assert h[..|old(heard)| + n + 1] == before + [frames[n]];
        out := out + [Host.Frame(y, y)];
        n := n + 1;
      }
      assert frames[..n] == frames;
    }
  }
}
