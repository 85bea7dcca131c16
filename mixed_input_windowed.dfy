/**
 * LatentTimbreSynthesis/lts_mixedInput_windowed/render.cpp: one mu/logvar
 * latent pair plus one audio source (a file, or the live input through a
 * circular capture buffer) feed a model every `hop_size` ticks; its
 * 1024-sample blocks are overlap-added into two alternating segments.
 */
module MixedInputWindowed {
  import Ring
  import LiveCapture
  import Schedule
  import OverlapAdd
  import Inference
  import Host
  import ModArith

  /** `segment_size`, the one shared by every variant. */
  const SegmentSize := Inference.SegmentSize
  /** `hop_size = segment_size / 2`. */
  const HopSize := SegmentSize / 2
  const LatentDim := 256
  /** The global `interpolation`, never reassigned in this variant. */
  const Interpolation := 0.5
  /** `liveInputSamples.resize(hop_size*10)`. */
  const LiveLength := 5120

  /**
   * `fillInput`: copies the window at `readPointer` and moves the cursor by
   * `hopSize`, or by the window size when `hopSize` is left at its default -1.
   */
  method FillInput(fileSamples: seq<real>, input: array<real>, readPointer: nat, hopSize: int)
    returns (newPointer: nat)
    requires readPointer < |fileSamples| && input.Length <= |fileSamples|
    requires hopSize >= -1
    modifies input
    ensures input[..] == Ring.Window(fileSamples, readPointer, input.Length)
    ensures newPointer == (readPointer + (if hopSize == -1 then input.Length else hopSize)) % |fileSamples|
    ensures hopSize == 0 ==> newPointer == readPointer
  {
    Ring.CopyWindow(fileSamples, input, readPointer);
    var hop := if hopSize == -1 then input.Length else hopSize;
    newPointer := (readPointer + hop) % |fileSamples|;
    ModArith.ModSmall(readPointer, |fileSamples|);
  }

  /** `fillLatentInput`: mu and logvar are read with their own cursors, each moved by the full window. */
  method FillLatentInput(muSamples: seq<real>, logvarSamples: seq<real>,
                         muInput: array<real>, logvarInput: array<real>,
                         muReadPointer: nat, logvarReadPointer: nat)
    returns (newMuPointer: nat, newLogvarPointer: nat)
    requires muInput != logvarInput
    requires muReadPointer < |muSamples| && muInput.Length <= |muSamples|
    requires logvarReadPointer < |logvarSamples| && logvarInput.Length <= |logvarSamples|
    modifies muInput, logvarInput
    ensures muInput[..] == Ring.Window(muSamples, muReadPointer, muInput.Length)
    ensures logvarInput[..] == Ring.Window(logvarSamples, logvarReadPointer, logvarInput.Length)
    ensures newMuPointer == (muReadPointer + muInput.Length) % |muSamples|
    ensures newLogvarPointer == (logvarReadPointer + logvarInput.Length) % |logvarSamples|
  {
    newMuPointer := FillInput(muSamples, muInput, muReadPointer, -1);
    newLogvarPointer := FillInput(logvarSamples, logvarInput, logvarReadPointer, -1);
  }

  /** `fillAudioInput`: the audio window, with the cursor moved by `hopSize` only. */
  method FillAudioInput(audioSamples: seq<real>, audioInput: array<real>, readPointer: nat, hopSize: nat)
    returns (newPointer: nat)
    requires readPointer < |audioSamples| && audioInput.Length <= |audioSamples|
    modifies audioInput
    ensures audioInput[..] == Ring.Window(audioSamples, readPointer, audioInput.Length)
    ensures newPointer == (readPointer + hopSize) % |audioSamples|
  {
    newPointer := FillInput(audioSamples, audioInput, readPointer, hopSize);
  }

  /**
   * Every file that is read holds a window of the size the model takes.
   * With live input on the audio file is never read; it only has to be
   * non-empty for `setup` to succeed.
   */
  predicate Fits(mu: seq<real>, logvar: seq<real>, audio: seq<real>, live: bool)
  {
    |mu| >= LatentDim && |logvar| >= LatentDim && |audio| > 0 && (live || |audio| >= SegmentSize)
  }

  /** The audio window of the refill after `b` earlier ones: live, or read from the audio file. */
  function AudioWindow(audio: seq<real>, live: bool, h: seq<real>, b: nat): (w: seq<real>)
    requires |audio| > 0
    ensures |w| == SegmentSize
  {
    if live then LiveCapture.LiveWindow(h, HopSize, SegmentSize, b) else Ring.ReadAt(audio, HopSize, SegmentSize, b)
  }

  /** The model inputs of the refill after `b` earlier ones, in the order mu, logvar, audio, interpolation. */
  function Inputs(mu: seq<real>, logvar: seq<real>, audio: seq<real>, live: bool, h: seq<real>, b: nat)
    : (inputs: seq<Inference.Tensor>)
    requires Fits(mu, logvar, audio, live)
    ensures |inputs| == 4 && inputs[3] == Inference.Scalar(Interpolation)
  {
    [Inference.Frames(Ring.ReadAt(mu, LatentDim, LatentDim, b)),
     Inference.Frames(Ring.ReadAt(logvar, LatentDim, LatentDim, b)),
     Inference.Frames(AudioWindow(audio, live, h, b)),
     Inference.Scalar(Interpolation)]
  }

  /** The inputs of a refill only depend on the live samples heard before it. */
  lemma InputsStable(mu: seq<real>, logvar: seq<real>, audio: seq<real>, live: bool,
                     h: seq<real>, h': seq<real>, b: nat)
    requires Fits(mu, logvar, audio, live) && (b + 1) * HopSize <= |h| <= |h'| && h == h'[..|h|]
    ensures Inputs(mu, logvar, audio, live, h, b) == Inputs(mu, logvar, audio, live, h', b)
  {
    LiveCapture.LiveWindowStable(h, h', HopSize, SegmentSize, b);
  }

  /**
   * The active segment after `b` refills: silence before the first, then
   * each model block with the previous segment's tail added to its head.
   */
  function Segment(model: Inference.SegmentModel, mu: seq<real>, logvar: seq<real>, audio: seq<real>, live: bool,
                   h: seq<real>, b: nat): (s: seq<real>)
    requires Fits(mu, logvar, audio, live)
    ensures |s| == SegmentSize
  {
    if b == 0 then LiveCapture.Zeros(SegmentSize)
    else OverlapAdd.Combine(model(Inputs(mu, logvar, audio, live, h, b - 1)),
                            Segment(model, mu, logvar, audio, live, h, b - 1), SegmentSize - HopSize, HopSize)
  }

  /** The segment after `b` refills only depends on the live samples heard before the last of them. */
  lemma {:induction false} SegmentStable(model: Inference.SegmentModel, mu: seq<real>, logvar: seq<real>, audio: seq<real>,
                                         live: bool, h: seq<real>, h': seq<real>, b: nat)
    requires Fits(mu, logvar, audio, live) && b * HopSize <= |h| <= |h'| && h == h'[..|h|]
    ensures Segment(model, mu, logvar, audio, live, h, b) == Segment(model, mu, logvar, audio, live, h', b)
  {
    if b > 0 {
      SegmentStable(model, mu, logvar, audio, live, h, h', b - 1);
      InputsStable(mu, logvar, audio, live, h, h', b - 1);
    }
  }

  /**
   * The sample tick `t` plays: refills happen on ticks `hop_size`,
   * `2*hop_size`, ..., so tick `t` plays entry `t % hop_size` of the
   * segment after `t / hop_size` refills; the first `hop_size` ticks are silent.
   */
  function Played(model: Inference.SegmentModel, mu: seq<real>, logvar: seq<real>, audio: seq<real>, live: bool,
                  h: seq<real>, t: nat): real
    requires Fits(mu, logvar, audio, live)
  {
    Segment(model, mu, logvar, audio, live, h, t / HopSize)[t % HopSize]
  }

  /** What a tick plays only depends on the live samples heard before it, not on those heard later. */
  lemma PlayedStable(model: Inference.SegmentModel, mu: seq<real>, logvar: seq<real>, audio: seq<real>, live: bool,
                     h: seq<real>, h': seq<real>, t: nat)
    requires Fits(mu, logvar, audio, live) && t <= |h| <= |h'| && h == h'[..|h|]
    ensures Played(model, mu, logvar, audio, live, h, t) == Played(model, mu, logvar, audio, live, h', t)
  {
    Schedule.BlockIndex(0, HopSize, t);
    SegmentStable(model, mu, logvar, audio, live, h, h', t / HopSize);
  }

  /**
   * `out` is what a render call from tick `t0` writes: frame by frame, the
   * sample `Played` at the frame's tick, on both channels.
   */
  ghost predicate Plays(model: Inference.SegmentModel, mu: seq<real>, logvar: seq<real>, audio: seq<real>, live: bool,
                        h: seq<real>, t0: nat, out: seq<Host.Frame>)
    requires Fits(mu, logvar, audio, live)
    decreases |out|
  {
    |out| > 0 ==>
      && Plays(model, mu, logvar, audio, live, h, t0, out[..|out| - 1])
      && out[|out| - 1] == Host.Frame(Played(model, mu, logvar, audio, live, h, t0 + |out| - 1),
                                      Played(model, mu, logvar, audio, live, h, t0 + |out| - 1))
  }

  /** One more frame, with the sample of the next tick on both channels. */
  lemma PlaysNext(model: Inference.SegmentModel, mu: seq<real>, logvar: seq<real>, audio: seq<real>, live: bool,
                  h: seq<real>, t0: nat, out: seq<Host.Frame>, y: real)
    requires Fits(mu, logvar, audio, live) && Plays(model, mu, logvar, audio, live, h, t0, out)
    requires y == Played(model, mu, logvar, audio, live, h, t0 + |out|)
    ensures Plays(model, mu, logvar, audio, live, h, t0, out + [Host.Frame(y, y)])
  {
    assert (out + [Host.Frame(y, y)])[..|out|] == out;
  }

  /** Frame `j` of such a call is the sample `Played` at tick `t0 + j`, on both channels. */
  lemma {:induction false} PlaysAt(model: Inference.SegmentModel, mu: seq<real>, logvar: seq<real>, audio: seq<real>,
                                   live: bool, h: seq<real>, t0: nat, out: seq<Host.Frame>, j: nat)
    requires Fits(mu, logvar, audio, live) && Plays(model, mu, logvar, audio, live, h, t0, out) && j < |out|
    ensures out[j].ch0 == out[j].ch1 == Played(model, mu, logvar, audio, live, h, t0 + j)
  {
    if j < |out| - 1 {
      PlaysAt(model, mu, logvar, audio, live, h, t0, out[..|out| - 1], j);
    }
  }

  /**
   * Overlap-add of consecutive model blocks at half overlap: tick `t` plays
   * the head of the block of the last refill at or before it plus the tail
   * of the block of the refill before that, each taken as silence when
   * that refill has not happened.
   */
  lemma PlayedBlocks(model: Inference.SegmentModel, mu: seq<real>, logvar: seq<real>, audio: seq<real>, live: bool,
                        h: seq<real>, t: nat)
    requires Fits(mu, logvar, audio, live)
    ensures Played(model, mu, logvar, audio, live, h, t)
         == (if t / HopSize >= 1 then model(Inputs(mu, logvar, audio, live, h, t / HopSize - 1))[t % HopSize] else 0.0)
          + (if t / HopSize >= 2 then model(Inputs(mu, logvar, audio, live, h, t / HopSize - 2))[HopSize + t % HopSize] else 0.0)
  {
    var b, i := t / HopSize, t % HopSize;
    if b >= 1 {
      assert Played(model, mu, logvar, audio, live, h, t)
          == model(Inputs(mu, logvar, audio, live, h, b - 1))[i] + Segment(model, mu, logvar, audio, live, h, b - 1)[HopSize + i];
      if b >= 2 {
        assert Segment(model, mu, logvar, audio, live, h, b - 1)[HopSize + i] == model(Inputs(mu, logvar, audio, live, h, b - 2))[HopSize + i];
      }
    }
  }

  /** The first `hop_size` ticks play silence. */
  lemma PlayedSilentStart(model: Inference.SegmentModel, mu: seq<real>, logvar: seq<real>, audio: seq<real>, live: bool,
                          h: seq<real>, t: nat)
    requires Fits(mu, logvar, audio, live) && t < HopSize
    ensures Played(model, mu, logvar, audio, live, h, t) == 0.0
  {
  }

  /**
   * One source's read in the refill branch: `fillInput` on its samples,
   * input buffer and cursor.  The window is the one after as many reads as
   * the source has had, and the cursor moves on by the source's step.
   */
  method ReadSource(src: Ring.Source, hopSize: int)
    requires src.Valid() && hopSize >= -1
    requires src.step == if hopSize == -1 then src.input.Length else hopSize
    modifies src, src.input
    ensures src.Valid() && src.windows == old(src.windows) + 1
    ensures src.input[..] == Ring.ReadAt(src.fileSamples, src.step, src.input.Length, old(src.windows))
  {
    Ring.CursorStep(src.step, |src.fileSamples|, src.windows);
    var p := FillInput(src.fileSamples, src.input, src.readPointer, hopSize);
    src.readPointer := p;
    src.windows := src.windows + 1;
  }

  /**
   * The globals of render.cpp, grouped by what uses them: the mu, logvar and
   * audio-file sources (`muFileSamples`, `readPointer_mu`, `muInput`, and so
   * on), which `setup` loads and sizes; the two output segments with
   * `outputSegmentIdx`; and the live ring with its two cursors, which
   * `setup` sizes and clears when live input is on.
   */
  class Engine {
    const model: Inference.SegmentModel
    const liveInput: bool
    var mu: Ring.Source
    var logvar: Ring.Source
    var audio: Ring.Source
    const segments: OverlapAdd.DoubleBuffer
    var live: LiveCapture.LiveRing
    var outputSampleCnt: nat
    var overlapSize: int
    var overlapStart: int

    /** Ticks run so far over all render calls, refills done so far, and the live samples heard. */
    ghost var ticks: nat
    ghost var refills: nat
    ghost var heard: seq<real>

    /** Buffer sizes, cursor steps and the separation of every buffer from every other. */
    ghost predicate Configured()
      reads this`mu, this`logvar, this`audio, this`live
    {
      && mu.step == LatentDim && mu.input.Length == LatentDim
      && logvar.step == LatentDim && logvar.input.Length == LatentDim
      && audio.step == HopSize && audio.input.Length == SegmentSize
      && segments.outputSegment0.Length == SegmentSize
      && live.hop == HopSize && live.liveInputSamples.Length == LiveLength
      && mu != logvar && mu != audio && logvar != audio
      && mu.input != logvar.input && mu.input != audio.input && logvar.input != audio.input
      && mu.input != segments.outputSegment0 && mu.input != segments.outputSegment1
      && logvar.input != segments.outputSegment0 && logvar.input != segments.outputSegment1
      && audio.input != segments.outputSegment0 && audio.input != segments.outputSegment1
      && live.liveInputSamples != mu.input && live.liveInputSamples != logvar.input
      && live.liveInputSamples != audio.input
      && live.liveInputSamples != segments.outputSegment0 && live.liveInputSamples != segments.outputSegment1
    }

    /** The audio file has been read `k` times, unless live input replaces it and it is only loaded. */
    ghost predicate AudioAt(k: nat)
      reads this`audio, audio
    {
      if liveInput then 0 < |audio.fileSamples| else audio.Valid() && audio.windows == k
    }

    /** The latent files have been read `k` times, and so has the audio file unless live input replaces it. */
    ghost predicate SourcesAt(k: nat)
      reads this`mu, this`logvar, this`audio, mu, logvar, audio
    {
      && mu.Valid() && logvar.Valid() && mu.windows == k && logvar.windows == k
      && AudioAt(k)
    }

    /** The sources have been read once per refill. */
    ghost predicate Sourced()
      reads this`mu, this`logvar, this`audio, this`refills, mu, logvar, audio
    {
      SourcesAt(refills)
    }

    /** The overlap geometry `setup` fixes. */
    ghost predicate Overlapping()
      reads this`overlapSize, this`overlapStart
    {
      overlapSize == SegmentSize - HopSize && overlapStart == HopSize
    }

    /** The scheduler state after `ticks` ticks. */
    ghost predicate Scheduled()
      reads this`outputSampleCnt, this`ticks, this`refills
    {
      && outputSampleCnt == Schedule.Counter(0, HopSize, ticks)
      && refills == Schedule.RefillCount(0, HopSize, ticks)
    }

    /**
     * The scheduler state inside a tick, once the refill check is done: the
     * counter is the index the tick emits, and a refill due at this tick has happened.
     */
    ghost predicate Emitting()
      reads this`outputSampleCnt, this`ticks, this`refills
    {
      && outputSampleCnt == Schedule.Index(0, HopSize, ticks)
      && refills == Schedule.RefillCount(0, HopSize, ticks + 1)
    }

    /** The active output segment is the overlap-add of the model's blocks of every refill so far. */
    ghost predicate Segmented()
      reads this`refills, this`heard, this`mu, this`logvar, this`audio
      reads segments, segments.outputSegment0, segments.outputSegment1
    {
      && segments.Valid()
      && Fits(mu.fileSamples, logvar.fileSamples, audio.fileSamples, liveInput)
      && segments.current == Segment(model, mu.fileSamples, logvar.fileSamples, audio.fileSamples, liveInput, heard, refills)
    }

    /** With live input on, the ring is consistent and has been read `k` times. */
    ghost predicate CapturedAt(k: nat)
      reads this`live, live, live.liveInputSamples
    {
      liveInput ==> live.Valid() && live.windows == k
    }

    /** One sample heard per tick; with live input on, the ring holds them and has been read once per refill. */
    ghost predicate Capturing()
      reads this`live, this`ticks, this`refills, this`heard, live, live.liveInputSamples
    {
      CapturedAt(refills) && |heard| == ticks && (liveInput ==> live.heard == heard)
    }

    ghost predicate Valid()
      reads this, mu, logvar, audio, segments, segments.outputSegment0, segments.outputSegment1, live, live.liveInputSamples
    {
      Configured() && Sourced() && Overlapping() && Scheduled() && Segmented() && Capturing()
    }

    /** The state before `setup`: zero-initialised globals and segments, empty vectors. */
    ghost predicate Initial()
      reads this, segments, segments.outputSegment0, segments.outputSegment1
    {
      && segments.Valid() && segments.outputSegment0.Length == SegmentSize
      && segments.current == LiveCapture.Zeros(SegmentSize)
      && outputSampleCnt == 0 && ticks == 0 && refills == 0 && heard == []
    }

    constructor (model: Inference.SegmentModel, liveInput: bool)
      ensures this.model == model && this.liveInput == liveInput
      ensures Initial()
    {
      this.model := model;
      this.liveInput := liveInput;
      mu := new Ring.Source([], 0, LatentDim);
      logvar := new Ring.Source([], 0, LatentDim);
      audio := new Ring.Source([], 0, HopSize);
      segments := new OverlapAdd.DoubleBuffer(SegmentSize);
      live := new LiveCapture.LiveRing(0);
      outputSampleCnt := 0;
      overlapSize, overlapStart := 0, 0;
      ticks, refills, heard := 0, 0, [];
    }

    /**
     * `setup`: fails when the model does not load or any of the three files
     * is empty, checked in that order; otherwise installs the sources.
     */
    method Setup(modelLoaded: bool, muFile: seq<real>, logvarFile: seq<real>, audioFile: seq<real>)
      returns (ok: bool)
      requires Initial()
      modifies this`mu, this`logvar, this`audio, this`live, this`overlapSize, this`overlapStart
      ensures ok <==> modelLoaded && |muFile| > 0 && |logvarFile| > 0 && |audioFile| > 0
      ensures ok ==> mu.fileSamples == muFile && logvar.fileSamples == logvarFile && audio.fileSamples == audioFile
      ensures ok ==> mu.readPointer == 0 && logvar.readPointer == 0 && audio.readPointer == 0
      ensures ok && liveInput ==> live.writePointerLiveIn == HopSize && live.readPointerLiveIn == 0
                                  && live.liveInputSamples[..] == LiveCapture.Zeros(LiveLength)
      ensures ok ==> overlapSize == SegmentSize - HopSize && overlapStart == HopSize
      ensures ok && Fits(muFile, logvarFile, audioFile, liveInput) ==> Valid()
    {
      if !modelLoaded {
        return false;
      }
      if |muFile| == 0 {
        return false;
      }
      if |logvarFile| == 0 {
        return false;
      }
      if |audioFile| == 0 {
        return false;
      }
      Install(muFile, logvarFile, audioFile);
      ok := true;
    }

    /**
     * The successful part of `setup`: the loaded files with their input
     * vectors resized, the live ring sized and cleared when live input is
     * on, and the overlap geometry.
     */
    method Install(muFile: seq<real>, logvarFile: seq<real>, audioFile: seq<real>)
      requires Initial()
      modifies this`mu, this`logvar, this`audio, this`live, this`overlapSize, this`overlapStart
      ensures mu.fileSamples == muFile && logvar.fileSamples == logvarFile && audio.fileSamples == audioFile
      ensures mu.readPointer == 0 && logvar.readPointer == 0 && audio.readPointer == 0
      ensures liveInput ==> live.writePointerLiveIn == HopSize && live.readPointerLiveIn == 0
                            && live.liveInputSamples[..] == LiveCapture.Zeros(LiveLength)
      ensures overlapSize == SegmentSize - HopSize && overlapStart == HopSize
      ensures Fits(muFile, logvarFile, audioFile, liveInput) ==> Valid()
    {
      InstallSources(muFile, logvarFile, audioFile);
      InstallLive();
      overlapSize := SegmentSize - HopSize;
      overlapStart := SegmentSize - overlapSize;
    }

    /** The loaded files, each with its input vector resized and its cursor at 0. */
    method InstallSources(muFile: seq<real>, logvarFile: seq<real>, audioFile: seq<real>)
      requires refills == 0
      modifies this`mu, this`logvar, this`audio
      ensures mu.fileSamples == muFile && logvar.fileSamples == logvarFile && audio.fileSamples == audioFile
      ensures mu.readPointer == 0 && logvar.readPointer == 0 && audio.readPointer == 0
      ensures fresh(mu) && fresh(logvar) && fresh(audio) && fresh(mu.input) && fresh(logvar.input) && fresh(audio.input)
      ensures mu.step == LatentDim && mu.input.Length == LatentDim
      ensures logvar.step == LatentDim && logvar.input.Length == LatentDim
      ensures audio.step == HopSize && audio.input.Length == SegmentSize
      ensures mu != logvar && mu != audio && logvar != audio
      ensures mu.input != logvar.input && mu.input != audio.input && logvar.input != audio.input
      ensures Fits(muFile, logvarFile, audioFile, liveInput) ==> Sourced()
    {
      mu := new Ring.Source(muFile, LatentDim, LatentDim);
      logvar := new Ring.Source(logvarFile, LatentDim, LatentDim);
      audio := new Ring.Source(audioFile, SegmentSize, HopSize);
    }

    /** The live ring sized to `10 * hop_size`, and cleared with its cursors set when live input is on. */
    method InstallLive()
      requires ticks == 0 && refills == 0 && heard == []
      modifies this`live
      ensures fresh(live) && fresh(live.liveInputSamples)
      ensures live.hop == HopSize && live.liveInputSamples.Length == LiveLength
      ensures liveInput ==> live.writePointerLiveIn == HopSize && live.readPointerLiveIn == 0
                            && live.liveInputSamples[..] == LiveCapture.Zeros(LiveLength)
      ensures Capturing()
    {
      live := new LiveCapture.LiveRing(HopSize);
      if liveInput {
        live.Reset();
      }
    }

    /**
     * The audio read of the refill branch: `fillAudioInput` on the live ring,
     * which then yields the last `segment_size` of the samples `h` heard, or
     * on the audio file.
     */
    method ReadAudio(ghost k: nat, ghost h: seq<real>)
      requires Configured() && AudioAt(k) && CapturedAt(k)
      requires |h| == (k + 1) * HopSize && (liveInput ==> live.heard == h)
      modifies audio, live, audio.input
      ensures live.heard == old(live.heard) && CapturedAt(k + 1)
      ensures AudioAt(k + 1)
      ensures audio.input[..] == AudioWindow(audio.fileSamples, liveInput, h, k)
      ensures liveInput ==> audio.input[..] == LiveCapture.Recent(h, SegmentSize)
    {
      if liveInput {
        live.Read(audio.input);
        LiveCapture.LiveWindowRecent(h, HopSize, SegmentSize, k);
      } else {
        ReadSource(audio, HopSize);
      }
    }

    /**
     * The reads of the refill branch: `fillLatentInput`, then
     * `fillAudioInput` on the live ring or the audio file, and the input
     * list in the order mu, logvar, audio, interpolation.
     */
    method ReadInputs(ghost k: nat, ghost h: seq<real>) returns (inputs: seq<Inference.Tensor>)
      requires Configured() && SourcesAt(k) && CapturedAt(k)
      requires |h| == (k + 1) * HopSize && (liveInput ==> live.heard == h)
      modifies mu, logvar, audio, mu.input, logvar.input, audio.input, live
      ensures SourcesAt(k + 1) && CapturedAt(k + 1) && live.heard == old(live.heard)
      ensures inputs == Inputs(mu.fileSamples, logvar.fileSamples, audio.fileSamples, liveInput, h, k)
      ensures liveInput ==> audio.input[..] == LiveCapture.Recent(h, SegmentSize)
    {
      ReadSource(mu, -1);
      ReadSource(logvar, -1);
      ReadAudio(k, h);
      inputs := [Inference.Frames(mu.input[..]), Inference.Frames(logvar.input[..]),
                 Inference.Frames(audio.input[..]), Inference.Scalar(Interpolation)];
    }

    /**
     * The refill branch of `render`, taken when the counter has reached
     * `hop_size`: the model is fed the windows at the cursors, and its block,
     * with the previous segment's tail added, becomes the active segment.
     */
    method Refill()
      requires Configured() && Sourced() && Overlapping() && Segmented() && Capturing()
      requires |heard| == (refills + 1) * HopSize
      modifies this`outputSampleCnt, this`refills, mu, logvar, audio, mu.input, logvar.input, audio.input
      modifies segments, segments.outputSegment0, segments.outputSegment1, live
      ensures Sourced() && Segmented() && Capturing()
      ensures refills == old(refills) + 1 && outputSampleCnt == 0
      ensures segments.current == OverlapAdd.Combine(
        model(Inputs(mu.fileSamples, logvar.fileSamples, audio.fileSamples, liveInput, heard, old(refills))),
        old(segments.current), SegmentSize - HopSize, HopSize)
      ensures segments.previous == old(segments.current)
      ensures segments.outputSegmentIdx == 1 - old(segments.outputSegmentIdx)
      ensures liveInput ==> audio.input[..] == LiveCapture.Recent(heard, SegmentSize)
    {
      var inputs := ReadInputs(refills, heard);
      Advance(inputs);
    }

    /**
     * The rest of the refill branch, once the inputs are read: `model.run`
     * into the other segment, the previous segment's tail added to it, the
     * segments swapped and the counter reset.
     */
    method Advance(inputs: seq<Inference.Tensor>)
      requires Configured() && Overlapping() && Segmented() && SourcesAt(refills + 1) && CapturedAt(refills + 1)
      requires |heard| == ticks && (liveInput ==> live.heard == heard)
      requires inputs == Inputs(mu.fileSamples, logvar.fileSamples, audio.fileSamples, liveInput, heard, refills)
      modifies this`outputSampleCnt, this`refills, segments, segments.outputSegment0, segments.outputSegment1
      ensures Sourced() && Segmented() && Capturing()
      ensures refills == old(refills) + 1 && outputSampleCnt == 0
      ensures segments.current == OverlapAdd.Combine(model(inputs), old(segments.current), SegmentSize - HopSize, HopSize)
      ensures segments.previous == old(segments.current)
      ensures segments.outputSegmentIdx == 1 - old(segments.outputSegmentIdx)
    {
      ghost var next := Segment(model, mu.fileSamples, logvar.fileSamples, audio.fileSamples, liveInput, heard, refills + 1);
      segments.Produce(model, inputs, overlapSize, overlapStart);
      assert segments.current == next;
      refills := refills + 1;
      outputSampleCnt := 0;
    }

    /**
     * The start of a tick: refill if the counter has reached `hop_size`.
     * That happens exactly when the tick's global index is a positive
     * multiple of `hop_size`; the segments change only then.
     */
    method RefillIfDue()
      requires Valid()
      modifies this`outputSampleCnt, this`refills, mu, logvar, audio, mu.input, logvar.input, audio.input
      modifies segments, segments.outputSegment0, segments.outputSegment1, live
      ensures Configured() && Sourced() && Overlapping() && Emitting() && Segmented() && Capturing()
      ensures refills == old(refills) + 1 <==> ticks > 0 && ticks % HopSize == 0
      ensures refills == old(refills) ==> segments.current == old(segments.current)
      ensures refills == old(refills) + 1 ==> segments.current == OverlapAdd.Combine(
        model(Inputs(mu.fileSamples, logvar.fileSamples, audio.fileSamples, liveInput, heard, old(refills))),
        old(segments.current), SegmentSize - HopSize, HopSize)
    {
      Schedule.CounterInvariant(0, HopSize, ticks);
      Schedule.RefillTicks(0, HopSize, ticks);
      if outputSampleCnt >= HopSize {
        Refill();
      }
    }

    /**
     * The output of a tick, once the refill check is done:
     * `output[outputSampleCnt]`, the entry of the active segment at the
     * tick's global index modulo `hop_size`.
     */
    method Emit() returns (y: real)
      requires Configured() && Emitting() && Segmented() && Capturing()
      ensures y == segments.current[ticks % HopSize]
      ensures y == Played(model, mu.fileSamples, logvar.fileSamples, audio.fileSamples, liveInput, heard, ticks)
    {
      Schedule.BlockIndex(0, HopSize, ticks);
      y := segments.Output()[outputSampleCnt];
    }

    /** The end of a tick: hear the live sample, store it when live input is on, and count the tick. */
    method EndTick(x: real)
      requires Configured() && Sourced() && Overlapping() && Emitting() && Segmented() && Capturing()
      modifies this`outputSampleCnt, this`ticks, this`heard, live, live.liveInputSamples
      ensures Valid() && ticks == old(ticks) + 1 && heard == old(heard) + [x]
    {
      Schedule.BlockIndex(0, HopSize, ticks);
      Capture(x);
      Count();
    }

    /**
     * `liveInputSamples[writePointerLiveIn] = in` when live input is on;
     * the active segment, which only depends on the samples heard before
     * the last refill, stays what it was.
     */
    method Capture(x: real)
      requires Configured() && Emitting() && Segmented() && Capturing()
      requires refills * HopSize <= ticks
      modifies this`heard, live, live.liveInputSamples
      ensures Segmented() && CapturedAt(refills) && heard == old(heard) + [x]
      ensures liveInput ==> live.heard == heard
    {
      if liveInput {
        live.Write(x);
      }
      heard := heard + [x];
      assert old(heard) == heard[..|old(heard)|];
      SegmentStable(model, mu.fileSamples, logvar.fileSamples, audio.fileSamples, liveInput, old(heard), heard, refills);
    }

    /** The counter increment that ends a tick: the scheduler state after one more tick. */
    method Count()
      requires Emitting()
      modifies this`outputSampleCnt, this`ticks
      ensures Scheduled() && ticks == old(ticks) + 1 && outputSampleCnt == old(outputSampleCnt) + 1
    {
      outputSampleCnt := outputSampleCnt + 1;
      ticks := ticks + 1;
    }

    /**
     * One iteration of the frame loop: refill if due, emit
     * `output[outputSampleCnt]`, capture the live sample, count the tick.
     * The tick emits the sample `Played` at its global index.
     */
    method Tick(x: real) returns (y: real)
      requires Valid()
      modifies this`outputSampleCnt, this`refills, this`ticks, this`heard, mu, logvar, audio
      modifies mu.input, logvar.input, audio.input
      modifies segments, segments.outputSegment0, segments.outputSegment1, live, live.liveInputSamples
      ensures Valid() && ticks == old(ticks) + 1 && heard == old(heard) + [x]
      ensures refills == old(refills) + 1 <==> old(ticks) > 0 && old(ticks) % HopSize == 0
      ensures refills == old(refills) ==> segments.current == old(segments.current)
      ensures refills == old(refills) + 1 ==> segments.current == OverlapAdd.Combine(
        model(Inputs(mu.fileSamples, logvar.fileSamples, audio.fileSamples, liveInput, old(heard), old(refills))),
        old(segments.current), SegmentSize - HopSize, HopSize)
      ensures y == segments.current[old(ticks) % HopSize]
      ensures y == Played(model, mu.fileSamples, logvar.fileSamples, audio.fileSamples, liveInput, old(heard), old(ticks))
    {
      RefillIfDue();
      y := Emit();
      EndTick(x);
    }

    /**
     * `render`: one tick per frame of `frames` (the samples `audioRead`
     * returns on channel 0); the result is what `audioWrite` receives on
     * channels 0 and 1: it `Plays` the sample of each frame's global tick
     * on both, however ticks are grouped into calls.
     */
    method Render(frames: seq<real>) returns (out: seq<Host.Frame>)
      requires Valid()
      modifies this`outputSampleCnt, this`refills, this`ticks, this`heard, mu, logvar, audio
      modifies mu.input, logvar.input, audio.input
      modifies segments, segments.outputSegment0, segments.outputSegment1, live, live.liveInputSamples
      ensures Valid() && ticks == old(ticks) + |frames| && heard == old(heard) + frames
      ensures refills == Schedule.RefillCount(0, HopSize, ticks)
      ensures |out| == |frames|
      ensures Plays(model, mu.fileSamples, logvar.fileSamples, audio.fileSamples, liveInput, heard, old(ticks), out)
    {
      ghost var h := old(heard) + frames;
      ghost var muS, logvarS, audioS := mu.fileSamples, logvar.fileSamples, audio.fileSamples;
      out := [];
      var n := 0;
      while n < |frames|
        invariant 0 <= n <= |frames|
        invariant Valid() && ticks == old(ticks) + n && heard == h[..|old(heard)| + n]
        invariant |out| == n && Fits(muS, logvarS, audioS, liveInput)
        invariant Plays(model, muS, logvarS, audioS, liveInput, h, old(ticks), out)
      {
        var y := Frame(frames[n], h, |old(heard)| + n, old(ticks), out);
        out := out + [Host.Frame(y, y)];
        n := n + 1;
      }
    }

    /**
     * A tick of a render call that began at tick `t0`, whose frames,
     * appended to what was heard before the call, make `h`, and that hears
     * sample `k` of `h`: `out`, the frames the call has written before this
     * one, followed by this tick's output on both channels, is still `Plays`.
     */
    method Frame(x: real, ghost h: seq<real>, ghost k: nat, ghost t0: nat, ghost out: seq<Host.Frame>) returns (y: real)
      requires Valid() && k < |h| && heard == h[..k] && x == h[k]
      requires Fits(mu.fileSamples, logvar.fileSamples, audio.fileSamples, liveInput) && t0 + |out| == ticks
      requires Plays(model, mu.fileSamples, logvar.fileSamples, audio.fileSamples, liveInput, h, t0, out)
      modifies this`outputSampleCnt, this`refills, this`ticks, this`heard, mu, logvar, audio
      modifies mu.input, logvar.input, audio.input
      modifies segments, segments.outputSegment0, segments.outputSegment1, live, live.liveInputSamples
      ensures Valid() && ticks == old(ticks) + 1 && heard == h[..k + 1]
      ensures Plays(model, mu.fileSamples, logvar.fileSamples, audio.fileSamples, liveInput, h, t0, out + [Host.Frame(y, y)])
    {
      ghost var before := heard;
      y := Tick(x);
      assert heard == h[..k + 1];
      PlayedStable(model, mu.fileSamples, logvar.fileSamples, audio.fileSamples, liveInput, before, h, old(ticks));
      PlaysNext(model, mu.fileSamples, logvar.fileSamples, audio.fileSamples, liveInput, h, t0, out, y);
    }
  }
}
