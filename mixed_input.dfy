/**
 * LatentTimbreSynthesis/lts_mixedInput/render.cpp: one mu/logvar latent
 * pair with separate cursors and one audio source (a file, or the live input
 * written straight into the model's audio input) feed a model every
 * `segment_size` ticks (block mode); the model writes its block into the
 * single `output` buffer that the ticks then play.
 */
module MixedInput {
  import Ring
  import LiveCapture
  import Schedule
  import Inference
  import Host

  /** `segment_size`, the one shared by every variant. */
  const SegmentSize := Inference.SegmentSize
  const LatentDim := 256
  /** The global `interpolation`, never reassigned in this variant. */
  const Interpolation := 0.5

  /** `fillInput`: copies the window at `readPointer` and moves the cursor by the whole window. */
  method FillInput(fileSamples: seq<real>, input: array<real>, readPointer: nat) returns (newPointer: nat)
    requires readPointer < |fileSamples| && input.Length <= |fileSamples|
    modifies input
    ensures input[..] == Ring.Window(fileSamples, readPointer, input.Length)
    ensures newPointer == (readPointer + input.Length) % |fileSamples|
  {
    Ring.CopyWindow(fileSamples, input, readPointer);
    newPointer := (readPointer + input.Length) % |fileSamples|;
  }

  /**
   * Every source that is read holds a window of the size the model takes.
   * With live input on the audio file is never read; it only has to be
   * non-empty for `setup` to succeed.
   */
  predicate Fits(mu: seq<real>, logvar: seq<real>, audio: seq<real>, live: bool)
  {
    |mu| >= LatentDim && |logvar| >= LatentDim && |audio| > 0 && (live || |audio| >= SegmentSize)
  }

  /** The audio input of the refill after `b` earlier ones: the live block, or the file window. */
  function AudioWindow(audio: seq<real>, live: bool, h: seq<real>, b: nat): (w: seq<real>)
    requires |audio| > 0
    ensures |w| == SegmentSize
  {
    if live then LiveCapture.BlockWindow(h, SegmentSize, b) else Ring.ReadAt(audio, SegmentSize, SegmentSize, b)
  }

  /** The model inputs of the refill after `b` earlier ones, in the order mu, logvar, audio, interpolation. */
  function Inputs(mu: seq<real>, logvar: seq<real>, audio: seq<real>, live: bool, h: seq<real>, b: nat)
    : (inputs: seq<Inference.Tensor>)
    requires Fits(mu, logvar, audio, live)
    ensures |inputs| == 4 && inputs[3] == Inference.Scalar(Interpolation)
  {
    [Inference.Frames(Ring.ReadAt(mu, LatentDim, LatentDim, b)),
     Inference.Frames(Ring.ReadAt(logvar, LatentDim, LatentDim, b)),
     Inference.Frames(AudioWindow(audio, live, h, b)),
     Inference.Scalar(Interpolation)]
  }

  /** The inputs of a refill only depend on the live samples heard before it. */
  lemma InputsStable(mu: seq<real>, logvar: seq<real>, audio: seq<real>, live: bool,
                     h: seq<real>, h': seq<real>, b: nat)
    requires Fits(mu, logvar, audio, live) && (b + 1) * SegmentSize <= |h| <= |h'| && h == h'[..|h|]
    ensures Inputs(mu, logvar, audio, live, h, b) == Inputs(mu, logvar, audio, live, h', b)
  {
    LiveCapture.BlockWindowStable(h, h', SegmentSize, b);
  }

  /**
   * The sample tick `t` plays: silence while the zero-initialised `output`
   * is played, then sample `t % segment_size` of the block of the refill at
   * tick `(t / segment_size) * segment_size`, which had `t / segment_size - 1`
   * refills before it.
   */
  function Played(model: Inference.SegmentModel, mu: seq<real>, logvar: seq<real>, audio: seq<real>, live: bool,
                  h: seq<real>, t: nat): real
    requires Fits(mu, logvar, audio, live)
  {
    if t < SegmentSize then 0.0 else model(Inputs(mu, logvar, audio, live, h, t / SegmentSize - 1))[t % SegmentSize]
  }

  /** What a tick plays only depends on the live samples heard before it, not on those heard later. */
  lemma PlayedStable(model: Inference.SegmentModel, mu: seq<real>, logvar: seq<real>, audio: seq<real>, live: bool,
                     h: seq<real>, h': seq<real>, t: nat)
    requires Fits(mu, logvar, audio, live) && t <= |h| <= |h'| && h == h'[..|h|]
    ensures Played(model, mu, logvar, audio, live, h, t) == Played(model, mu, logvar, audio, live, h', t)
  {
    if t >= SegmentSize {
      InputsStable(mu, logvar, audio, live, h, h', t / SegmentSize - 1);
    }
  }

  /** A tick with `r` refills up to and including it plays its sample of the block of the last one. */
  lemma PlayedFrom(model: Inference.SegmentModel, mu: seq<real>, logvar: seq<real>, audio: seq<real>, live: bool,
                   h: seq<real>, t: nat, r: nat, block: seq<real>)
    requires Fits(mu, logvar, audio, live) && r == t / SegmentSize
    requires r == 0 ==> block == LiveCapture.Zeros(SegmentSize)
    requires r > 0 ==> block == model(Inputs(mu, logvar, audio, live, h, r - 1))
    ensures block[t % SegmentSize] == Played(model, mu, logvar, audio, live, h, t)
  {
  }

  /** One source's read in the refill branch: `fillInput` on its samples, input buffer and cursor. */
  method ReadSource(src: Ring.Source)
    requires src.Valid() && src.step == src.input.Length
    modifies src, src.input
    ensures src.Valid() && src.windows == old(src.windows) + 1
    ensures src.input[..] == Ring.ReadAt(src.fileSamples, src.step, src.input.Length, old(src.windows))
  {
    Ring.CursorStep(src.step, |src.fileSamples|, src.windows);
    var p := FillInput(src.fileSamples, src.input, src.readPointer);
    src.readPointer := p;
    src.windows := src.windows + 1;
  }

  /**
   * The globals of render.cpp, grouped by what uses them: the mu, logvar and
   * audio sources (`muFileSamples`, `readPointer_mu`, `muInput`, and so on),
   * which `setup` loads and sizes, and the zero-initialised `output` block.
   * `heard` is every sample `audioRead` has returned on channel 0.
   */
  class Engine {
    const model: Inference.SegmentModel
    const liveInput: bool
    var mu: Ring.Source
    var logvar: Ring.Source
    var audio: Ring.Source
    const output: array<real>
    var outputSampleCnt: nat

    /** Ticks run so far over all render calls, refills done so far, and the live samples heard. */
    ghost var ticks: nat
    ghost var refills: nat
    ghost var heard: seq<real>

    /** Buffer sizes, cursor steps and the separation of every buffer from every other. */
    ghost predicate Configured()
      reads this`mu, this`logvar, this`audio
    {
      && mu.step == LatentDim && mu.input.Length == LatentDim
      && logvar.step == LatentDim && logvar.input.Length == LatentDim
      && audio.step == SegmentSize && audio.input.Length == SegmentSize
      && output.Length == SegmentSize
      && mu != logvar && mu != audio && logvar != audio
      && mu.input != logvar.input && mu.input != audio.input && logvar.input != audio.input
      && mu.input != output && logvar.input != output && audio.input != output
    }

    /**
     * The latent files hold a window and have been read `k` times; so has the
     * audio file, unless live input is on and it is never read.
     */
    ghost predicate SourcesAt(k: nat)
      reads this`mu, this`logvar, this`audio, mu, logvar, audio
    {
      && mu.Valid() && logvar.Valid() && mu.windows == k && logvar.windows == k
      && (if liveInput then 0 < |audio.fileSamples| else audio.Valid() && audio.windows == k)
    }

    /** The sources have been read once per refill. */
    ghost predicate Sourced()
      reads this`mu, this`logvar, this`audio, this`refills, mu, logvar, audio
    {
      SourcesAt(refills)
    }

    /** The scheduler state after `ticks` ticks. */
    ghost predicate Scheduled()
      reads this`outputSampleCnt, this`ticks, this`refills
    {
      && outputSampleCnt == Schedule.Counter(0, SegmentSize, ticks)
      && refills == Schedule.RefillCount(0, SegmentSize, ticks)
    }

    /** The scheduler state inside a tick, once the refill check is done. */
    ghost predicate Emitting()
      reads this`outputSampleCnt, this`ticks, this`refills
    {
      && outputSampleCnt == Schedule.Index(0, SegmentSize, ticks)
      && refills == Schedule.RefillCount(0, SegmentSize, ticks + 1)
    }

    /** `output` is silent until the first refill and holds the model's block of the last refill after it. */
    ghost predicate Blocked()
      reads this`refills, this`mu, this`logvar, this`audio, this`heard, output
    {
      && Fits(mu.fileSamples, logvar.fileSamples, audio.fileSamples, liveInput)
      && (refills == 0 ==> output[..] == LiveCapture.Zeros(SegmentSize))
      && (refills > 0 ==> output[..] == model(Inputs(mu.fileSamples, logvar.fileSamples, audio.fileSamples,
                                                      liveInput, heard, refills - 1)))
    }

    /**
     * With live input on, every slot of the audio input holds the live
     * sample of the last tick that wrote it, `r` refills and `c` ticks into the block.
     */
    ghost predicate SlotsAt(r: nat, c: nat)
      reads this`audio, this`heard, audio.input
    {
      liveInput ==> forall m :: 0 <= m < audio.input.Length ==>
        audio.input[m] == LiveCapture.Sample(heard, LiveCapture.SlotTick(SegmentSize, r, c, m))
    }

    /** One sample heard per tick, and the audio input filled accordingly. */
    ghost predicate Capturing()
      reads this`audio, this`heard, this`ticks, this`refills, this`outputSampleCnt, audio.input
    {
      |heard| == ticks && SlotsAt(refills, outputSampleCnt)
    }

    ghost predicate Valid()
      reads this, mu, logvar, audio, output, audio.input
    {
      Configured() && Sourced() && Scheduled() && Blocked() && Capturing()
    }

    /** The state before `setup`: zero-initialised globals and `output`, empty vectors. */
    ghost predicate Initial()
      reads this, output
    {
      && output.Length == SegmentSize && output[..] == LiveCapture.Zeros(SegmentSize)
      && outputSampleCnt == 0 && ticks == 0 && refills == 0 && heard == []
    }

    constructor (model: Inference.SegmentModel, liveInput: bool)
      ensures this.model == model && this.liveInput == liveInput
      ensures Initial()
    {
      this.model := model;
      this.liveInput := liveInput;
      mu := new Ring.Source([], 0, LatentDim);
      logvar := new Ring.Source([], 0, LatentDim);
      audio := new Ring.Source([], 0, SegmentSize);
      output := new real[SegmentSize](_ => 0.0);
      outputSampleCnt := 0;
      ticks, refills, heard := 0, 0, [];
    }

    /**
     * `setup`: a model that does not load and empty latent files are only
     * reported; it fails exactly when the audio file is empty.
     */
    method Setup(modelLoaded: bool, muFile: seq<real>, logvarFile: seq<real>, audioFile: seq<real>)
      returns (ok: bool)
      requires Initial()
      modifies this`mu, this`logvar, this`audio
      ensures ok <==> |audioFile| > 0
      ensures ok ==> mu.fileSamples == muFile && logvar.fileSamples == logvarFile && audio.fileSamples == audioFile
      ensures ok ==> mu.readPointer == 0 && logvar.readPointer == 0 && audio.readPointer == 0
      ensures ok && Fits(muFile, logvarFile, audioFile, liveInput) ==> Valid()
    {
      mu := new Ring.Source(muFile, LatentDim, LatentDim);
      logvar := new Ring.Source(logvarFile, LatentDim, LatentDim);
      if |audioFile| == 0 {
        return false;
      }
      audio := new Ring.Source(audioFile, SegmentSize, SegmentSize);
      ok := true;
      assert Capturing() by {
        forall m | 0 <= m < audio.input.Length
          ensures audio.input[m] == LiveCapture.Sample(heard, LiveCapture.SlotTick(SegmentSize, refills, outputSampleCnt, m))
        {
        }
      }
    }

    /**
     * The reads of the refill branch: `fillLatentInput` (mu and logvar, each
     * with its own cursor), then `fillAudioInput` unless live input is on,
     * and the input list in the order mu, logvar, audio, interpolation.
     */
    method ReadInputs() returns (inputs: seq<Inference.Tensor>)
      requires Configured() && Sourced() && Capturing() && outputSampleCnt == SegmentSize
      requires |heard| == (refills + 1) * SegmentSize
      modifies mu, logvar, audio, mu.input, logvar.input, audio.input
      ensures Configured() && SourcesAt(refills + 1)
      ensures liveInput ==> audio.input[..] == old(audio.input[..]) == LiveCapture.Recent(heard, SegmentSize)
      ensures SlotsAt(refills + 1, 0)
      ensures inputs == Inputs(mu.fileSamples, logvar.fileSamples, audio.fileSamples, liveInput, heard, refills)
    {
      ReadSource(mu);
      ReadSource(logvar);
      if !liveInput {
        ReadSource(audio);
      } else {
        forall m | 0 <= m < SegmentSize
          ensures audio.input[m] == LiveCapture.BlockWindow(heard, SegmentSize, refills)[m]
          ensures audio.input[m] == LiveCapture.Sample(heard, LiveCapture.SlotTick(SegmentSize, refills + 1, 0, m))
        {
          assert LiveCapture.SlotTick(SegmentSize, refills, outputSampleCnt, m) == refills * SegmentSize + m == LiveCapture.SlotTick(SegmentSize, refills + 1, 0, m);
        }
        assert audio.input[..] == LiveCapture.BlockWindow(heard, SegmentSize, refills);
        LiveCapture.BlockWindowRecent(heard, SegmentSize, refills);
      }
      inputs := [Inference.Frames(mu.input[..]), Inference.Frames(logvar.input[..]),
                 Inference.Frames(audio.input[..]), Inference.Scalar(Interpolation)];
    }

    /**
     * The refill branch of `render`, taken when the counter has reached
     * `segment_size`: `model.run` overwrites `output` with the block for the
     * sources' windows, and the counter restarts.  With live input on, the
     * audio input is the block of live samples heard since the last refill.
     */
    method Refill()
      requires Configured() && Sourced() && Capturing() && outputSampleCnt == SegmentSize
      requires |heard| == (refills + 1) * SegmentSize
      modifies this`outputSampleCnt, this`refills, mu, logvar, audio, mu.input, logvar.input, audio.input, output
      ensures Sourced() && Capturing() && refills == old(refills) + 1 && outputSampleCnt == 0
      ensures output[..] == model(Inputs(mu.fileSamples, logvar.fileSamples, audio.fileSamples, liveInput, heard, old(refills)))
      ensures liveInput ==> audio.input[..] == LiveCapture.Recent(heard, SegmentSize)
    {
      var inputs := ReadInputs();
      Inference.Run(model, inputs, output);
      refills := refills + 1;
      outputSampleCnt := 0;
    }

    /**
     * The start of a tick: refill if the counter has reached `segment_size`.
     * That happens exactly when the tick's global index is a positive
     * multiple of `segment_size`; `output` changes only then.
     */
    method RefillIfDue()
      requires Valid()
      modifies this`outputSampleCnt, this`refills, mu, logvar, audio, mu.input, logvar.input, audio.input, output
      ensures Configured() && Sourced() && Emitting() && Blocked() && Capturing() && heard == old(heard)
      ensures refills == old(refills) + 1 <==> ticks > 0 && ticks % SegmentSize == 0
      ensures refills == old(refills) ==> output[..] == old(output[..])
      ensures refills == old(refills) + 1 ==> output[..] == model(Inputs(mu.fileSamples, logvar.fileSamples,
        audio.fileSamples, liveInput, heard, old(refills)))
    {
      Schedule.CounterInvariant(0, SegmentSize, ticks);
      Schedule.RefillTicks(0, SegmentSize, ticks);
      if outputSampleCnt >= SegmentSize {
        Refill();
      }
    }

    /**
     * The capture step of a tick: with live input on, the live sample goes
     * to `audioInput[outputSampleCnt]`, the slot `c` of block `r`.  The
     * block in `output` was computed from samples heard before, so it stays
     * the block of the last refill.
     */
    method Store(x: real, c: nat, ghost r: nat)
      requires audio.input.Length == SegmentSize && c < SegmentSize && audio.input != output
      requires SlotsAt(r, c) && |heard| == r * SegmentSize + c
      requires Blocked() && refills * SegmentSize <= |heard|
      modifies this`heard, audio.input
      ensures SlotsAt(r, c + 1) && Blocked() && heard == old(heard) + [x]
      ensures liveInput ==> audio.input[..] == old(audio.input[..])[c := x]
      ensures !liveInput ==> audio.input[..] == old(audio.input[..])
    {
      if liveInput {
        audio.input[c] := x;
      }
      heard := heard + [x];
      if liveInput {
        forall m | 0 <= m < audio.input.Length
          ensures audio.input[m] == LiveCapture.Sample(heard, LiveCapture.SlotTick(SegmentSize, r, c + 1, m))
        {
          if m != c {
            assert LiveCapture.SlotTick(SegmentSize, r, c + 1, m) == LiveCapture.SlotTick(SegmentSize, r, c, m);
          }
        }
      }
      if refills > 0 {
        InputsStable(mu.fileSamples, logvar.fileSamples, audio.fileSamples, liveInput, old(heard), heard, refills - 1);
      }
    }

    /**
     * The emission step of a tick: `output[outputSampleCnt]` on both
     * channels, which is the sample `Played` at the tick's global index.
     */
    method Emit() returns (y: real)
      requires Configured() && Emitting() && Blocked()
      ensures y == output[ticks % SegmentSize]
      ensures y == Played(model, mu.fileSamples, logvar.fileSamples, audio.fileSamples, liveInput, heard, ticks)
    {
      Schedule.BlockIndex(0, SegmentSize, ticks);
      y := output[outputSampleCnt];
      PlayedFrom(model, mu.fileSamples, logvar.fileSamples, audio.fileSamples, liveInput, heard, ticks, refills, output[..]);
    }

    /** The end of a tick: store the live sample when live input is on, and count the tick. */
    method EndTick(x: real)
      requires Configured() && Sourced() && Emitting() && Blocked() && Capturing()
      modifies this`outputSampleCnt, this`ticks, this`heard, audio.input
      ensures Valid() && ticks == old(ticks) + 1 && heard == old(heard) + [x]
      ensures liveInput ==> audio.input[..] == old(audio.input[..])[old(outputSampleCnt) := x]
      ensures !liveInput ==> audio.input[..] == old(audio.input[..])
    {
      Schedule.BlockIndex(0, SegmentSize, ticks);
      Store(x, outputSampleCnt, refills);
      Count();
    }

    /** The counter increment that ends a tick: the scheduler state after one more tick. */
    method Count()
      requires Emitting()
      modifies this`outputSampleCnt, this`ticks
      ensures Scheduled() && ticks == old(ticks) + 1 && outputSampleCnt == old(outputSampleCnt) + 1
    {
      outputSampleCnt := outputSampleCnt + 1;
      ticks := ticks + 1;
    }

    /**
     * One iteration of the frame loop: refill if due, emit
     * `output[outputSampleCnt]`, store the live sample, count the tick.  The
     * tick emits the sample of the current block at its global index modulo
     * `segment_size`; the first `segment_size` ticks are silent.
     */
    method Tick(x: real) returns (y: real)
      requires Valid()
      modifies this`outputSampleCnt, this`refills, this`ticks, this`heard, mu, logvar, audio
      modifies mu.input, logvar.input, audio.input, output
      ensures Valid() && ticks == old(ticks) + 1 && heard == old(heard) + [x]
      ensures refills == old(refills) + 1 <==> old(ticks) > 0 && old(ticks) % SegmentSize == 0
      ensures y == Played(model, mu.fileSamples, logvar.fileSamples, audio.fileSamples, liveInput, old(heard), old(ticks))
    {
      RefillIfDue();
      y := Emit();
      EndTick(x);
    }

    /**
     * `render`: one tick per frame of `frames` (the samples `audioRead`
     * returns on channel 0); the result is what `audioWrite` receives on
     * channels 0 and 1, the same sample on both: the sample `Played` at the
     * frame's global tick, however ticks are grouped into calls.
     */
    method Render(frames: seq<real>) returns (out: seq<Host.Frame>)
      requires Valid()
      modifies this`outputSampleCnt, this`refills, this`ticks, this`heard, mu, logvar, audio
      modifies mu.input, logvar.input, audio.input, output
      ensures Valid() && ticks == old(ticks) + |frames| && heard == old(heard) + frames
      ensures refills == Schedule.RefillCount(0, SegmentSize, ticks)
      ensures |out| == |frames|
      ensures forall j :: 0 <= j < |frames| ==> out[j].ch0 == out[j].ch1
      ensures forall j :: 0 <= j < |frames| ==>
        out[j].ch0 == Played(model, mu.fileSamples, logvar.fileSamples, audio.fileSamples, liveInput, heard, old(ticks) + j)
    {
      ghost var h := old(heard) + frames;
      ghost var muS, logvarS, audioS := mu.fileSamples, logvar.fileSamples, audio.fileSamples;
      out := [];
      var n := 0;
      while n < |frames|
        invariant 0 <= n <= |frames|
        invariant Valid() && ticks == old(ticks) + n && heard == h[..|old(heard)| + n]
        invariant |out| == n && Fits(muS, logvarS, audioS, liveInput)
        invariant forall j :: 0 <= j < n ==>
          out[j] == Host.Frame(Played(model, muS, logvarS, audioS, liveInput, h, old(ticks) + j),
                               Played(model, muS, logvarS, audioS, liveInput, h, old(ticks) + j))
      {
        ghost var before := heard;
        var y := Tick(frames[n]);
        PlayedStable(model, muS, logvarS, audioS, liveInput, before, h, old(ticks) + n);
        assert h[..|old(heard)| + n + 1] == before + [frames[n]];
        out := out + [Host.Frame(y, y)];
        n := n + 1;
      }
      assert frames[..n] == frames;
    }
  }
}
