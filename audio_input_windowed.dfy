/**
 * LatentTimbreSynthesis/lts_audioInput_windowed/render.cpp: two audio
 * sources (file 0, or the live input through a circular capture buffer, and
 * file 1) feed a model every `hop_size` ticks; its 1024-sample blocks are
 * overlap-added into two alternating segments.
 */
module AudioInputWindowed {
  import Ring
  import LiveCapture
  import Schedule
  import OverlapAdd
  import Inference
  import Host

  /** `segment_size`, the one shared by every variant. */
  const SegmentSize := Inference.SegmentSize
  /** `hop_size = segment_size / 2`. */
  const HopSize := SegmentSize / 2
  /** The global `interpolation`, never reassigned in this variant. */
  const Interpolation := 0.5
  /** `liveInputSamples.resize(hop_size*10)`. */
  const LiveLength := 5120

  /** `fillAudioInput`: copies the window at `readPointer` and moves the cursor by `hopSize` only. */
  method FillAudioInput(audioSamples: seq<real>, audioInput: array<real>, readPointer: nat, hopSize: nat)
    returns (newPointer: nat)
    requires readPointer < |audioSamples| && audioInput.Length <= |audioSamples|
    modifies audioInput
    ensures audioInput[..] == Ring.Window(audioSamples, readPointer, audioInput.Length)
    ensures newPointer == (readPointer + hopSize) % |audioSamples|
  {
    Ring.CopyWindow(audioSamples, audioInput, readPointer);
    newPointer := (readPointer + hopSize) % |audioSamples|;
  }

  /**
   * Every file that is read holds a window of the size the model takes.
   * With live input on file 0 is never read; it only has to be non-empty
   * for `setup` to succeed.
   */
  predicate Fits(audio0: seq<real>, audio1: seq<real>, live: bool)
  {
    |audio0| > 0 && |audio1| >= SegmentSize && (live || |audio0| >= SegmentSize)
  }

  /** The first audio window of the refill after `b` earlier ones: live, or read from file 0. */
  function FirstWindow(audio0: seq<real>, live: bool, h: seq<real>, b: nat): (w: seq<real>)
    requires |audio0| > 0
    ensures |w| == SegmentSize
  {
    if live then LiveCapture.LiveWindow(h, HopSize, SegmentSize, b) else Ring.ReadAt(audio0, HopSize, SegmentSize, b)
  }

  /** The model inputs of the refill after `b` earlier ones, in the order audio 0, audio 1, interpolation. */
  function Inputs(audio0: seq<real>, audio1: seq<real>, live: bool, h: seq<real>, b: nat)
    : (inputs: seq<Inference.Tensor>)
    requires Fits(audio0, audio1, live)
    ensures |inputs| == 3 && inputs[2] == Inference.Scalar(Interpolation)
    ensures inputs[1] == Inference.Frames(Ring.ReadAt(audio1, HopSize, SegmentSize, b))
  {
    [Inference.Frames(FirstWindow(audio0, live, h, b)),
     Inference.Frames(Ring.ReadAt(audio1, HopSize, SegmentSize, b)),
     Inference.Scalar(Interpolation)]
  }

  /** The inputs of a refill only depend on the live samples heard before it. */
  lemma InputsStable(audio0: seq<real>, audio1: seq<real>, live: bool, h: seq<real>, h': seq<real>, b: nat)
    requires Fits(audio0, audio1, live) && (b + 1) * HopSize <= |h| <= |h'| && h == h'[..|h|]
    ensures Inputs(audio0, audio1, live, h, b) == Inputs(audio0, audio1, live, h', b)
  {
    if live {
      LiveCapture.LiveWindowStable(h, h', HopSize, SegmentSize, b);
    }
  }

  /**
   * The active segment after `b` refills: silence before the first, then
   * each model block with the previous segment's tail added to its head.
   */
  function Segment(model: Inference.SegmentModel, audio0: seq<real>, audio1: seq<real>, live: bool, h: seq<real>, b: nat)
    : (s: seq<real>)
    requires Fits(audio0, audio1, live)
    ensures |s| == SegmentSize
  {
    if b == 0 then LiveCapture.Zeros(SegmentSize)
    else OverlapAdd.Combine(model(Inputs(audio0, audio1, live, h, b - 1)),
                            Segment(model, audio0, audio1, live, h, b - 1), SegmentSize - HopSize, HopSize)
  }

  /** The segment after `b` refills only depends on the live samples heard before the last of them. */
  lemma {:induction false} SegmentStable(model: Inference.SegmentModel, audio0: seq<real>, audio1: seq<real>, live: bool,
                                         h: seq<real>, h': seq<real>, b: nat)
    requires Fits(audio0, audio1, live) && b * HopSize <= |h| <= |h'| && h == h'[..|h|]
    ensures Segment(model, audio0, audio1, live, h, b) == Segment(model, audio0, audio1, live, h', b)
  {
    if b > 0 {
      SegmentStable(model, audio0, audio1, live, h, h', b - 1);
      InputsStable(audio0, audio1, live, h, h', b - 1);
    }
  }

  /**
   * The sample tick `t` plays: refills happen on ticks `hop_size`,
   * `2*hop_size`, ..., so tick `t` plays entry `t % hop_size` of the
   * segment after `t / hop_size` refills; the first `hop_size` ticks are silent.
   */
  function Played(model: Inference.SegmentModel, audio0: seq<real>, audio1: seq<real>, live: bool, h: seq<real>, t: nat)
    : real
    requires Fits(audio0, audio1, live)
  {
    Segment(model, audio0, audio1, live, h, t / HopSize)[t % HopSize]
  }

  /** What a tick plays only depends on the live samples heard before it, not on those heard later. */
  lemma PlayedStable(model: Inference.SegmentModel, audio0: seq<real>, audio1: seq<real>, live: bool,
                     h: seq<real>, h': seq<real>, t: nat)
    requires Fits(audio0, audio1, live) && t <= |h| <= |h'| && h == h'[..|h|]
    ensures Played(model, audio0, audio1, live, h, t) == Played(model, audio0, audio1, live, h', t)
  {
    Schedule.BlockIndex(0, HopSize, t);
    SegmentStable(model, audio0, audio1, live, h, h', t / HopSize);
  }

  /**
   * `out` is what a render call from tick `t0` writes: frame by frame, the
   * sample `Played` at the frame's tick, on both channels.
   */
  ghost predicate Plays(model: Inference.SegmentModel, audio0: seq<real>, audio1: seq<real>, live: bool, h: seq<real>,
                        t0: nat, out: seq<Host.Frame>)
    requires Fits(audio0, audio1, live)
    decreases |out|
  {
    |out| > 0 ==>
      && Plays(model, audio0, audio1, live, h, t0, out[..|out| - 1])
      && out[|out| - 1] == Host.Frame(Played(model, audio0, audio1, live, h, t0 + |out| - 1),
                                      Played(model, audio0, audio1, live, h, t0 + |out| - 1))
  }

  /** One more frame, with the sample of the next tick on both channels. */
  lemma PlaysNext(model: Inference.SegmentModel, audio0: seq<real>, audio1: seq<real>, live: bool, h: seq<real>,
                  t0: nat, out: seq<Host.Frame>, y: real)
    requires Fits(audio0, audio1, live) && Plays(model, audio0, audio1, live, h, t0, out)
    requires y == Played(model, audio0, audio1, live, h, t0 + |out|)
    ensures Plays(model, audio0, audio1, live, h, t0, out + [Host.Frame(y, y)])
  {
    assert (out + [Host.Frame(y, y)])[..|out|] == out;
  }

  /** Frame `j` of such a call is the sample `Played` at tick `t0 + j`, on both channels. */
  lemma {:induction false} PlaysAt(model: Inference.SegmentModel, audio0: seq<real>, audio1: seq<real>, live: bool,
                                   h: seq<real>, t0: nat, out: seq<Host.Frame>, j: nat)
    requires Fits(audio0, audio1, live) && Plays(model, audio0, audio1, live, h, t0, out) && j < |out|
    ensures out[j].ch0 == out[j].ch1 == Played(model, audio0, audio1, live, h, t0 + j)
  {
    if j < |out| - 1 {
      PlaysAt(model, audio0, audio1, live, h, t0, out[..|out| - 1], j);
    }
  }

  /**
   * Overlap-add of consecutive model blocks at half overlap: tick `t` plays
   * the head of the block of the last refill at or before it plus the tail
   * of the block of the refill before that, each taken as silence when
   * that refill has not happened.
   */
  lemma PlayedBlocks(model: Inference.SegmentModel, audio0: seq<real>, audio1: seq<real>, live: bool,
                        h: seq<real>, t: nat)
    requires Fits(audio0, audio1, live)
    ensures Played(model, audio0, audio1, live, h, t)
         == (if t / HopSize >= 1 then model(Inputs(audio0, audio1, live, h, t / HopSize - 1))[t % HopSize] else 0.0)
          + (if t / HopSize >= 2 then model(Inputs(audio0, audio1, live, h, t / HopSize - 2))[HopSize + t % HopSize] else 0.0)
  {
    var b, i := t / HopSize, t % HopSize;
    if b >= 1 {
      assert Played(model, audio0, audio1, live, h, t)
          == model(Inputs(audio0, audio1, live, h, b - 1))[i] + Segment(model, audio0, audio1, live, h, b - 1)[HopSize + i];
      if b >= 2 {
        assert Segment(model, audio0, audio1, live, h, b - 1)[HopSize + i] == model(Inputs(audio0, audio1, live, h, b - 2))[HopSize + i];
      }
    }
  }

  /** The first `hop_size` ticks play silence. */
  lemma PlayedSilentStart(model: Inference.SegmentModel, audio0: seq<real>, audio1: seq<real>, live: bool,
                          h: seq<real>, t: nat)
    requires Fits(audio0, audio1, live) && t < HopSize
    ensures Played(model, audio0, audio1, live, h, t) == 0.0
  {
  }

  /**
   * One file's read in the refill branch: `fillAudioInput` on its samples,
   * input buffer and cursor, with `hop_size` as the step.
   */
  method ReadSource(src: Ring.Source)
    requires src.Valid() && src.step == HopSize
    modifies src, src.input
    ensures src.Valid() && src.windows == old(src.windows) + 1
    ensures src.input[..] == Ring.ReadAt(src.fileSamples, src.step, src.input.Length, old(src.windows))
  {
    Ring.CursorStep(src.step, |src.fileSamples|, src.windows);
    var p := FillAudioInput(src.fileSamples, src.input, src.readPointer, HopSize);
    src.readPointer := p;
    src.windows := src.windows + 1;
  }

  /**
   * The globals of render.cpp, grouped by what uses them: the two audio
   * sources (`audioFileSamples[i]`, `readPointer_audioFile[i]`,
   * `audioInput[i]`), which `setup` loads and sizes; the two output segments
   * with `outputSegmentIdx`; and the live ring with its two cursors, which
   * `setup` sizes and clears when live input is on.
   */
  class Engine {
    const model: Inference.SegmentModel
    const liveInput: bool
    var audio0: Ring.Source
    var audio1: Ring.Source
    const segments: OverlapAdd.DoubleBuffer
    var live: LiveCapture.LiveRing
    var outputSampleCnt: nat
    var overlapSize: int
    var overlapStart: int

    /** Ticks run so far over all render calls, refills done so far, and the live samples heard. */
    ghost var ticks: nat
    ghost var refills: nat
    ghost var heard: seq<real>

    /** Buffer sizes, cursor steps and the separation of every buffer from every other. */
    ghost predicate Configured()
      reads this`audio0, this`audio1, this`live
    {
      && audio0.step == HopSize && audio0.input.Length == SegmentSize
      && audio1.step == HopSize && audio1.input.Length == SegmentSize
      && segments.outputSegment0.Length == SegmentSize
      && live.hop == HopSize && live.liveInputSamples.Length == LiveLength
      && audio0 != audio1 && audio0.input != audio1.input
      && audio0.input != segments.outputSegment0 && audio0.input != segments.outputSegment1
      && audio1.input != segments.outputSegment0 && audio1.input != segments.outputSegment1
      && live.liveInputSamples != audio0.input && live.liveInputSamples != audio1.input
      && live.liveInputSamples != segments.outputSegment0 && live.liveInputSamples != segments.outputSegment1
    }

    /** File 0 has been read `k` times, unless live input replaces it and it is only loaded. */
    ghost predicate FirstAt(k: nat)
      reads this`audio0, audio0
    {
      if liveInput then 0 < |audio0.fileSamples| else audio0.Valid() && audio0.windows == k
    }

    /** File 1 has been read `k` times, and so has file 0 unless live input replaces it. */
    ghost predicate SourcesAt(k: nat)
      reads this`audio0, this`audio1, audio0, audio1
    {
      FirstAt(k) && audio1.Valid() && audio1.windows == k
    }

    /** The sources have been read once per refill. */
    ghost predicate Sourced()
      reads this`audio0, this`audio1, this`refills, audio0, audio1
    {
      SourcesAt(refills)
    }

    /** The overlap geometry `setup` fixes. */
    ghost predicate Overlapping()
      reads this`overlapSize, this`overlapStart
    {
      overlapSize == SegmentSize - HopSize && overlapStart == HopSize
    }

    /** The scheduler state after `ticks` ticks. */
    ghost predicate Scheduled()
      reads this`outputSampleCnt, this`ticks, this`refills
    {
      && outputSampleCnt == Schedule.Counter(0, HopSize, ticks)
      && refills == Schedule.RefillCount(0, HopSize, ticks)
    }

    /** The scheduler state inside a tick, once the refill check is done. */
    ghost predicate Emitting()
      reads this`outputSampleCnt, this`ticks, this`refills
    {
      && outputSampleCnt == Schedule.Index(0, HopSize, ticks)
      && refills == Schedule.RefillCount(0, HopSize, ticks + 1)
    }

    /** The active output segment is the overlap-add of the model's blocks of every refill so far. */
    ghost predicate Segmented()
      reads this`refills, this`heard, this`audio0, this`audio1, segments, segments.outputSegment0, segments.outputSegment1
    {
      && segments.Valid()
      && Fits(audio0.fileSamples, audio1.fileSamples, liveInput)
      && segments.current == Segment(model, audio0.fileSamples, audio1.fileSamples, liveInput, heard, refills)
    }

    /** With live input on, the ring is consistent and has been read `k` times. */
    ghost predicate CapturedAt(k: nat)
      reads this`live, live, live.liveInputSamples
    {
      liveInput ==> live.Valid() && live.windows == k
    }

    /** One sample heard per tick; with live input on, the ring holds them and has been read once per refill. */
    ghost predicate Capturing()
      reads this`live, this`ticks, this`refills, this`heard, live, live.liveInputSamples
    {
      CapturedAt(refills) && |heard| == ticks && (liveInput ==> live.heard == heard)
    }

    ghost predicate Valid()
      reads this, audio0, audio1, segments, segments.outputSegment0, segments.outputSegment1, live, live.liveInputSamples
    {
      Configured() && Sourced() && Overlapping() && Scheduled() && Segmented() && Capturing()
    }

    /** The state before `setup`: zero-initialised globals and segments, empty vectors. */
    ghost predicate Initial()
      reads this, segments, segments.outputSegment0, segments.outputSegment1
    {
      && segments.Valid() && segments.outputSegment0.Length == SegmentSize
      && segments.current == LiveCapture.Zeros(SegmentSize)
      && outputSampleCnt == 0 && ticks == 0 && refills == 0 && heard == []
    }

    constructor (model: Inference.SegmentModel, liveInput: bool)
      ensures this.model == model && this.liveInput == liveInput
      ensures Initial()
    {
      this.model := model;
      this.liveInput := liveInput;
      audio0 := new Ring.Source([], 0, HopSize);
      audio1 := new Ring.Source([], 0, HopSize);
      segments := new OverlapAdd.DoubleBuffer(SegmentSize);
      live := new LiveCapture.LiveRing(0);
      outputSampleCnt := 0;
      overlapSize, overlapStart := 0, 0;
      ticks, refills, heard := 0, 0, [];
    }

    /**
     * `setup`: fails when the model does not load or either audio file is
     * empty, checked in that order; otherwise installs the sources.
     */
    method Setup(modelLoaded: bool, audioFile0: seq<real>, audioFile1: seq<real>) returns (ok: bool)
      requires Initial()
      modifies this`audio0, this`audio1, this`live, this`overlapSize, this`overlapStart
      ensures ok <==> modelLoaded && |audioFile0| > 0 && |audioFile1| > 0
      ensures ok ==> audio0.fileSamples == audioFile0 && audio1.fileSamples == audioFile1
      ensures ok ==> audio0.readPointer == 0 && audio1.readPointer == 0
      ensures ok && liveInput ==> live.writePointerLiveIn == HopSize && live.readPointerLiveIn == 0
                                  && live.liveInputSamples[..] == LiveCapture.Zeros(LiveLength)
      ensures ok ==> overlapSize == SegmentSize - HopSize && overlapStart == HopSize
      ensures ok && Fits(audioFile0, audioFile1, liveInput) ==> Valid()
    {
      if !modelLoaded {
        return false;
      }
      if |audioFile0| == 0 {
        return false;
      }
      if |audioFile1| == 0 {
        return false;
      }
      Install(audioFile0, audioFile1);
      ok := true;
    }

    /**
     * The successful part of `setup`: the loaded files with their input
     * vectors resized, the live ring sized and cleared when live input is
     * on, and the overlap geometry.
     */
    method Install(audioFile0: seq<real>, audioFile1: seq<real>)
      requires Initial()
      modifies this`audio0, this`audio1, this`live, this`overlapSize, this`overlapStart
      ensures audio0.fileSamples == audioFile0 && audio1.fileSamples == audioFile1
      ensures audio0.readPointer == 0 && audio1.readPointer == 0
      ensures liveInput ==> live.writePointerLiveIn == HopSize && live.readPointerLiveIn == 0
                            && live.liveInputSamples[..] == LiveCapture.Zeros(LiveLength)
      ensures overlapSize == SegmentSize - HopSize && overlapStart == HopSize
      ensures Fits(audioFile0, audioFile1, liveInput) ==> Valid()
    {
      InstallSources(audioFile0, audioFile1);
      InstallLive();
      overlapSize := SegmentSize - HopSize;
      overlapStart := SegmentSize - overlapSize;
    }

    /** The loaded files, each with its input vector resized and its cursor at 0. */
    method InstallSources(audioFile0: seq<real>, audioFile1: seq<real>)
      requires refills == 0
      modifies this`audio0, this`audio1
      ensures audio0.fileSamples == audioFile0 && audio1.fileSamples == audioFile1
      ensures audio0.readPointer == 0 && audio1.readPointer == 0
      ensures fresh(audio0) && fresh(audio1) && fresh(audio0.input) && fresh(audio1.input)
      ensures audio0.step == HopSize && audio0.input.Length == SegmentSize
      ensures audio1.step == HopSize && audio1.input.Length == SegmentSize
      ensures audio0 != audio1 && audio0.input != audio1.input
      ensures Fits(audioFile0, audioFile1, liveInput) ==> Sourced()
    {
      audio0 := new Ring.Source(audioFile0, SegmentSize, HopSize);
      audio1 := new Ring.Source(audioFile1, SegmentSize, HopSize);
    }

    /** The live ring sized to `10 * hop_size`, and cleared with its cursors set when live input is on. */
    method InstallLive()
      requires ticks == 0 && refills == 0 && heard == []
      modifies this`live
      ensures fresh(live) && fresh(live.liveInputSamples)
      ensures live.hop == HopSize && live.liveInputSamples.Length == LiveLength
      ensures liveInput ==> live.writePointerLiveIn == HopSize && live.readPointerLiveIn == 0
                            && live.liveInputSamples[..] == LiveCapture.Zeros(LiveLength)
      ensures Capturing()
    {
      live := new LiveCapture.LiveRing(HopSize);
      if liveInput {
        live.Reset();
      }
    }

    /**
     * The first read of the refill branch: `fillAudioInput` on the live
     * ring, which then yields the last `segment_size` of the samples `h`
     * heard, or on file 0.
     */
    method ReadFirst(ghost k: nat, ghost h: seq<real>)
      requires Configured() && FirstAt(k) && CapturedAt(k)
      requires |h| == (k + 1) * HopSize && (liveInput ==> live.heard == h)
      modifies audio0, live, audio0.input
      ensures live.heard == old(live.heard) && CapturedAt(k + 1)
      ensures FirstAt(k + 1)
      ensures audio0.input[..] == FirstWindow(audio0.fileSamples, liveInput, h, k)
      ensures liveInput ==> audio0.input[..] == LiveCapture.Recent(h, SegmentSize)
    {
      if liveInput {
        live.Read(audio0.input);
        LiveCapture.LiveWindowRecent(h, HopSize, SegmentSize, k);
      } else {
        ReadSource(audio0);
      }
    }

    /**
     * The reads of the refill branch: source 0 from the live ring or file 0,
     * then file 1, and the input list in the order audio 0, audio 1, interpolation.
     */
    method ReadInputs(ghost k: nat, ghost h: seq<real>) returns (inputs: seq<Inference.Tensor>)
      requires Configured() && SourcesAt(k) && CapturedAt(k)
      requires |h| == (k + 1) * HopSize && (liveInput ==> live.heard == h)
      modifies audio0, audio1, audio0.input, audio1.input, live
      ensures SourcesAt(k + 1) && CapturedAt(k + 1) && live.heard == old(live.heard)
      ensures inputs == Inputs(audio0.fileSamples, audio1.fileSamples, liveInput, h, k)
      ensures liveInput ==> audio0.input[..] == LiveCapture.Recent(h, SegmentSize)
    {
      ReadFirst(k, h);
      ReadSource(audio1);
      inputs := [Inference.Frames(audio0.input[..]), Inference.Frames(audio1.input[..]), Inference.Scalar(Interpolation)];
    }

    /**
     * The refill branch of `render`, taken when the counter has reached
     * `hop_size`: the model is fed the windows at the cursors, and its block,
     * with the previous segment's tail added, becomes the active segment.
     */
    method Refill()
      requires Configured() && Sourced() && Overlapping() && Segmented() && Capturing()
      requires |heard| == (refills + 1) * HopSize
      modifies this`outputSampleCnt, this`refills, audio0, audio1, audio0.input, audio1.input
      modifies segments, segments.outputSegment0, segments.outputSegment1, live
      ensures Sourced() && Segmented() && Capturing()
      ensures refills == old(refills) + 1 && outputSampleCnt == 0
      ensures segments.current == OverlapAdd.Combine(
        model(Inputs(audio0.fileSamples, audio1.fileSamples, liveInput, heard, old(refills))),
        old(segments.current), SegmentSize - HopSize, HopSize)
      ensures segments.previous == old(segments.current)
      ensures segments.outputSegmentIdx == 1 - old(segments.outputSegmentIdx)
      ensures liveInput ==> audio0.input[..] == LiveCapture.Recent(heard, SegmentSize)
    {
      var inputs := ReadInputs(refills, heard);
      Advance(inputs);
    }

    /**
     * The rest of the refill branch, once the inputs are read: `model.run`
     * into the other segment, the previous segment's tail added to it, the
     * segments swapped and the counter reset.
     */
    method Advance(inputs: seq<Inference.Tensor>)
      requires Configured() && Overlapping() && Segmented() && SourcesAt(refills + 1) && CapturedAt(refills + 1)
      requires |heard| == ticks && (liveInput ==> live.heard == heard)
      requires inputs == Inputs(audio0.fileSamples, audio1.fileSamples, liveInput, heard, refills)
      modifies this`outputSampleCnt, this`refills, segments, segments.outputSegment0, segments.outputSegment1
      ensures Sourced() && Segmented() && Capturing()
      ensures refills == old(refills) + 1 && outputSampleCnt == 0
      ensures segments.current == OverlapAdd.Combine(model(inputs), old(segments.current), SegmentSize - HopSize, HopSize)
      ensures segments.previous == old(segments.current)
      ensures segments.outputSegmentIdx == 1 - old(segments.outputSegmentIdx)
    {
      ghost var next := Segment(model, audio0.fileSamples, audio1.fileSamples, liveInput, heard, refills + 1);
      segments.Produce(model, inputs, overlapSize, overlapStart);
      assert segments.current == next;
      refills := refills + 1;
      outputSampleCnt := 0;
    }

    /**
     * The start of a tick: refill if the counter has reached `hop_size`.
     * That happens exactly when the tick's global index is a positive
     * multiple of `hop_size`; the segments change only then.
     */
    method RefillIfDue()
      requires Valid()
      modifies this`outputSampleCnt, this`refills, audio0, audio1, audio0.input, audio1.input
      modifies segments, segments.outputSegment0, segments.outputSegment1, live
      ensures Configured() && Sourced() && Overlapping() && Emitting() && Segmented() && Capturing()
      ensures refills == old(refills) + 1 <==> ticks > 0 && ticks % HopSize == 0
      ensures refills == old(refills) ==> segments.current == old(segments.current)
      ensures refills == old(refills) + 1 ==> segments.current == OverlapAdd.Combine(
        model(Inputs(audio0.fileSamples, audio1.fileSamples, liveInput, heard, old(refills))),
        old(segments.current), SegmentSize - HopSize, HopSize)
    {
      Schedule.CounterInvariant(0, HopSize, ticks);
      Schedule.RefillTicks(0, HopSize, ticks);
      if outputSampleCnt >= HopSize {
        Refill();
      }
    }

    /**
     * The output of a tick, once the refill check is done:
     * `output[outputSampleCnt]`, the entry of the active segment at the
     * tick's global index modulo `hop_size`.
     */
    method Emit() returns (y: real)
      requires Configured() && Emitting() && Segmented() && Capturing()
      ensures y == segments.current[ticks % HopSize]
      ensures y == Played(model, audio0.fileSamples, audio1.fileSamples, liveInput, heard, ticks)
    {
      Schedule.BlockIndex(0, HopSize, ticks);
      y := segments.Output()[outputSampleCnt];
    }

    /** The end of a tick: hear the live sample, store it when live input is on, and count the tick. */
    method EndTick(x: real)
      requires Configured() && Sourced() && Overlapping() && Emitting() && Segmented() && Capturing()
      modifies this`outputSampleCnt, this`ticks, this`heard, live, live.liveInputSamples
      ensures Valid() && ticks == old(ticks) + 1 && heard == old(heard) + [x]
    {
      Schedule.BlockIndex(0, HopSize, ticks);
      Capture(x);
      Count();
    }

    /**
     * `liveInputSamples[writePointerLiveIn] = in` when live input is on;
     * the active segment, which only depends on the samples heard before
     * the last refill, stays what it was.
     */
    method Capture(x: real)
      requires Configured() && Emitting() && Segmented() && Capturing()
      requires refills * HopSize <= ticks
      modifies this`heard, live, live.liveInputSamples
      ensures Segmented() && CapturedAt(refills) && heard == old(heard) + [x]
      ensures liveInput ==> live.heard == heard
    {
      if liveInput {
        live.Write(x);
      }
      heard := heard + [x];
      assert old(heard) == heard[..|old(heard)|];
      SegmentStable(model, audio0.fileSamples, audio1.fileSamples, liveInput, old(heard), heard, refills);
    }

    /** The counter increment that ends a tick: the scheduler state after one more tick. */
    method Count()
      requires Emitting()
      modifies this`outputSampleCnt, this`ticks
      ensures Scheduled() && ticks == old(ticks) + 1 && outputSampleCnt == old(outputSampleCnt) + 1
    {
      outputSampleCnt := outputSampleCnt + 1;
      ticks := ticks + 1;
    }

    /**
     * One iteration of the frame loop: refill if due, emit
     * `output[outputSampleCnt]`, capture the live sample, count the tick.
     * The tick emits the sample `Played` at its global index.
     */
    method Tick(x: real) returns (y: real)
      requires Valid()
      modifies this`outputSampleCnt, this`refills, this`ticks, this`heard, audio0, audio1, audio0.input, audio1.input
      modifies segments, segments.outputSegment0, segments.outputSegment1, live, live.liveInputSamples
      ensures Valid() && ticks == old(ticks) + 1 && heard == old(heard) + [x]
      ensures refills == old(refills) + 1 <==> old(ticks) > 0 && old(ticks) % HopSize == 0
      ensures refills == old(refills) ==> segments.current == old(segments.current)
      ensures refills == old(refills) + 1 ==> segments.current == OverlapAdd.Combine(
        model(Inputs(audio0.fileSamples, audio1.fileSamples, liveInput, old(heard), old(refills))),
        old(segments.current), SegmentSize - HopSize, HopSize)
      ensures y == segments.current[old(ticks) % HopSize]
      ensures y == Played(model, audio0.fileSamples, audio1.fileSamples, liveInput, old(heard), old(ticks))
    {
      RefillIfDue();
      y := Emit();
      EndTick(x);
    }

    /**
     * `render`: one tick per frame of `frames` (the samples `audioRead`
     * returns on channel 0); the result is what `audioWrite` receives on
     * channels 0 and 1, the same sample on both: the sample `Played` at the
     * frame's global tick, however ticks are grouped into calls.
     */
    method Render(frames: seq<real>) returns (out: seq<Host.Frame>)
      requires Valid()
      modifies this`outputSampleCnt, this`refills, this`ticks, this`heard, audio0, audio1, audio0.input, audio1.input
      modifies segments, segments.outputSegment0, segments.outputSegment1, live, live.liveInputSamples
      ensures Valid() && ticks == old(ticks) + |frames| && heard == old(heard) + frames
      ensures refills == Schedule.RefillCount(0, HopSize, ticks)
      ensures |out| == |frames| && Plays(model, audio0.fileSamples, audio1.fileSamples, liveInput, heard, old(ticks), out)
    {
      ghost var h := old(heard) + frames;
      ghost var a0, a1 := audio0.fileSamples, audio1.fileSamples;
      out := [];
      var n := 0;
      while n < |frames|
        invariant 0 <= n <= |frames|
        invariant Valid() && ticks == old(ticks) + n && heard == h[..|old(heard)| + n]
        invariant |out| == n && Fits(a0, a1, liveInput)
        invariant Plays(model, a0, a1, liveInput, h, old(ticks), out)
      {
        var y := Frame(frames[n], h, |old(heard)| + n, old(ticks), out);
        out := out + [Host.Frame(y, y)];
        n := n + 1;
      }
    }

    /**
     * A tick of a render call that began at tick `t0`, whose frames,
     * appended to what was heard before the call, make `h`, and that hears
     * sample `k` of `h`: `out`, the frames the call has written before this
     * one, followed by this tick's output on both channels, is still `Plays`.
     */
    method Frame(x: real, ghost h: seq<real>, ghost k: nat, ghost t0: nat, ghost out: seq<Host.Frame>) returns (y: real)
      requires Valid() && k < |h| && heard == h[..k] && x == h[k]
      requires Fits(audio0.fileSamples, audio1.fileSamples, liveInput) && t0 + |out| == ticks
      requires Plays(model, audio0.fileSamples, audio1.fileSamples, liveInput, h, t0, out)
      modifies this`outputSampleCnt, this`refills, this`ticks, this`heard, audio0, audio1, audio0.input, audio1.input
      modifies segments, segments.outputSegment0, segments.outputSegment1, live, live.liveInputSamples
      ensures Valid() && ticks == old(ticks) + 1 && heard == h[..k + 1]
      ensures Plays(model, audio0.fileSamples, audio1.fileSamples, liveInput, h, t0, out + [Host.Frame(y, y)])
    {
      ghost var before := heard;
      y := Tick(x);
      assert heard == h[..k + 1];
      PlayedStable(model, audio0.fileSamples, audio1.fileSamples, liveInput, before, h, old(ticks));
      PlaysNext(model, audio0.fileSamples, audio1.fileSamples, liveInput, h, t0, out, y);
    }
  }
}
