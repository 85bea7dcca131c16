/**
 * lts_audioInput/render.cpp: two audio files feed a model every
 * `segment_size` ticks (block mode) into the single `output` buffer.  Unlike
 * the other block-mode variants, `setup` leaves the counter at
 * `segment_size`, so the very first tick refills and the zero-initialised
 * `output` is never played, and the cursors wrap by one subtraction.
 */
module LtsAudioInput {
  import Ring
  import LiveCapture
  import Schedule
  import Inference
  import Host
  import ModArith

  /** `segment_size`, the one shared by every variant. */
  const SegmentSize := Inference.SegmentSize
  /** The global `interpolation`, never reassigned in this variant. */
  const Interpolation := 0.5

  /**
   * `fillAudioInput`: copies the window at `readPointer`, then adds the
   * window size to the cursor and subtracts the file length once if that
   * passed the end, which keeps it the remainder modulo the length.
   */
  method FillAudioInput(fileSamples: seq<real>, audioInput: array<real>, readPointer: nat) returns (newPointer: nat)
    requires readPointer < |fileSamples| && audioInput.Length <= |fileSamples|
    modifies audioInput
    ensures audioInput[..] == Ring.Window(fileSamples, readPointer, audioInput.Length)
    ensures newPointer == (readPointer + audioInput.Length) % |fileSamples| && newPointer < |fileSamples|
  {
    var sourceSize := |fileSamples|;
    Ring.CopyWindow(fileSamples, audioInput, readPointer);
    newPointer := readPointer + audioInput.Length;
    if newPointer >= sourceSize {
      newPointer := newPointer - sourceSize;
    }
    Ring.WrapOnceIsMod(readPointer, audioInput.Length, sourceSize);
  }

  /** Both files can be read through a window of the size the model takes. */
  predicate Fits(audio0: seq<real>, audio1: seq<real>)
  {
    |audio0| >= SegmentSize && |audio1| >= SegmentSize
  }

  /** The model inputs of the refill after `b` earlier ones, in the order audio 0, audio 1, interpolation. */
  function Inputs(audio0: seq<real>, audio1: seq<real>, b: nat) : (inputs: seq<Inference.Tensor>)
    requires Fits(audio0, audio1)
    ensures |inputs| == 3 && inputs[2] == Inference.Scalar(Interpolation)
    ensures inputs[0] == Inference.Frames(Ring.ReadAt(audio0, SegmentSize, SegmentSize, b))
    ensures inputs[1] == Inference.Frames(Ring.ReadAt(audio1, SegmentSize, SegmentSize, b))
  {
    [Inference.Frames(Ring.ReadAt(audio0, SegmentSize, SegmentSize, b)),
     Inference.Frames(Ring.ReadAt(audio1, SegmentSize, SegmentSize, b)),
     Inference.Scalar(Interpolation)]
  }

  /** The sample tick `t` plays: sample `t % segment_size` of the block of refill `t / segment_size`. */
  function Played(model: Inference.SegmentModel, audio0: seq<real>, audio1: seq<real>, t: nat): real
    requires Fits(audio0, audio1)
  {
    model(Inputs(audio0, audio1, t / SegmentSize))[t % SegmentSize]
  }

  /** One file's read in the refill branch: `fillAudioInput` on its samples, input buffer and cursor. */
  method ReadSource(src: Ring.Source)
    requires src.Valid() && src.step == src.input.Length
    modifies src, src.input
    ensures src.Valid() && src.windows == old(src.windows) + 1
    ensures src.input[..] == Ring.ReadAt(src.fileSamples, src.step, src.input.Length, old(src.windows))
  {
    Ring.CursorStep(src.step, |src.fileSamples|, src.windows);
    var p := FillAudioInput(src.fileSamples, src.input, src.readPointer);
    src.readPointer := p;
    src.windows := src.windows + 1;
  }

  /**
   * The globals of render.cpp, grouped by what uses them: the two audio
   * sources (`fileSamples[i]`, `readPointer[i]`, `audioInput[i]`), which
   * `setup` loads and sizes, and the zero-initialised `output` block.
   */
  class Engine {
    const model: Inference.SegmentModel
    var audio0: Ring.Source
    var audio1: Ring.Source
    const output: array<real>
    var outputSampleCnt: nat

    /** Ticks run so far over all render calls, and refills done so far. */
    ghost var ticks: nat
    ghost var refills: nat

    /** Buffer sizes, cursor steps and the separation of every buffer from every other. */
    ghost predicate Configured()
      reads this`audio0, this`audio1
    {
      && audio0.step == SegmentSize && audio0.input.Length == SegmentSize
      && audio1.step == SegmentSize && audio1.input.Length == SegmentSize
      && output.Length == SegmentSize
      && audio0 != audio1 && audio0.input != audio1.input
      && audio0.input != output && audio1.input != output
    }

    /** Both files hold a window and have been read once per refill. */
    ghost predicate Sourced()
      reads this`audio0, this`audio1, this`refills, audio0, audio1
    {
      && audio0.Valid() && audio1.Valid()
      && audio0.windows == refills && audio1.windows == refills
    }

    /** The scheduler state after `ticks` ticks, from the counter `setup` left at `segment_size`. */
    ghost predicate Scheduled()
      reads this`outputSampleCnt, this`ticks, this`refills
    {
      && outputSampleCnt == Schedule.Counter(SegmentSize, SegmentSize, ticks)
      && refills == Schedule.RefillCount(SegmentSize, SegmentSize, ticks)
    }

    /** The scheduler state inside a tick, once the refill check is done. */
    ghost predicate Emitting()
      reads this`outputSampleCnt, this`ticks, this`refills
    {
      && outputSampleCnt == Schedule.Index(SegmentSize, SegmentSize, ticks)
      && refills == Schedule.RefillCount(SegmentSize, SegmentSize, ticks + 1)
    }

    /** `output` holds the block of the last refill once there has been one. */
    ghost predicate Blocked()
      reads this`refills, this`audio0, this`audio1, output
    {
      refills > 0 && Fits(audio0.fileSamples, audio1.fileSamples) ==>
        output[..] == model(Inputs(audio0.fileSamples, audio1.fileSamples, refills - 1))
    }

    ghost predicate Valid()
      reads this, audio0, audio1, output
    {
      Configured() && Sourced() && Scheduled() && Blocked()
    }

    /** The state before `setup`: zero-initialised globals and `output`, empty vectors. */
    ghost predicate Initial()
      reads this, output
    {
      && output.Length == SegmentSize && output[..] == LiveCapture.Zeros(SegmentSize)
      && outputSampleCnt == 0 && ticks == 0 && refills == 0
    }

    constructor (model: Inference.SegmentModel)
      ensures this.model == model
      ensures Initial()
    {
      this.model := model;
      audio0 := new Ring.Source([], 0, SegmentSize);
      audio1 := new Ring.Source([], 0, SegmentSize);
      output := new real[SegmentSize](_ => 0.0);
      outputSampleCnt := 0;
      ticks, refills := 0, 0;
    }

    /**
     * `setup`: a model that does not load is only reported; it fails exactly
     * when either audio file is empty, file 0 being checked first, and
     * otherwise sets the counter to `segment_size`.
     */
    method Setup(modelLoaded: bool, audioFile0: seq<real>, audioFile1: seq<real>) returns (ok: bool)
      requires Initial()
      modifies this`audio0, this`audio1, this`outputSampleCnt
      ensures ok <==> |audioFile0| > 0 && |audioFile1| > 0
      ensures ok ==> audio0.fileSamples == audioFile0 && audio1.fileSamples == audioFile1
      ensures ok ==> audio0.readPointer == 0 && audio1.readPointer == 0 && outputSampleCnt == SegmentSize
      ensures ok && Fits(audioFile0, audioFile1) ==> Valid()
    {
      if |audioFile0| == 0 {
        return false;
      }
      if |audioFile1| == 0 {
        return false;
      }
      audio0 := new Ring.Source(audioFile0, SegmentSize, SegmentSize);
      audio1 := new Ring.Source(audioFile1, SegmentSize, SegmentSize);
      outputSampleCnt := SegmentSize;
      ok := true;
    }

    /**
     * The reads of the refill branch: `fillAudioInput` on file 0 and then
     * file 1, and the input list in the order audio 0, audio 1, interpolation.
     */
    method ReadInputs() returns (inputs: seq<Inference.Tensor>)
      requires Configured() && Sourced()
      modifies audio0, audio1, audio0.input, audio1.input
      ensures Configured() && audio0.Valid() && audio1.Valid()
      ensures audio0.windows == refills + 1 && audio1.windows == refills + 1
      ensures inputs == Inputs(audio0.fileSamples, audio1.fileSamples, refills)
    {
      ReadSource(audio0);
      ReadSource(audio1);
      inputs := [Inference.Frames(audio0.input[..]), Inference.Frames(audio1.input[..]), Inference.Scalar(Interpolation)];
    }

    /**
     * The refill branch of `render`, taken when the counter has reached
     * `segment_size`: `model.run` overwrites `output` with the block for the
     * files' windows, and the counter restarts.
     */
    method Refill()
      requires Configured() && Sourced()
      modifies this`outputSampleCnt, this`refills, audio0, audio1, audio0.input, audio1.input, output
      ensures Sourced() && Blocked() && refills == old(refills) + 1 && outputSampleCnt == 0
      ensures output[..] == model(Inputs(audio0.fileSamples, audio1.fileSamples, old(refills)))
    {
      var inputs := ReadInputs();
      Inference.Run(model, inputs, output);
      refills := refills + 1;
      outputSampleCnt := 0;
    }

    /**
     * The start of a tick: refill if the counter has reached `segment_size`.
     * Counting from `segment_size`, that happens exactly on the ticks whose
     * global index is a multiple of `segment_size`, the first tick included.
     */
    method RefillIfDue()
      requires Valid()
      modifies this`outputSampleCnt, this`refills, audio0, audio1, audio0.input, audio1.input, output
      ensures Configured() && Sourced() && Emitting() && Blocked()
      ensures refills == old(refills) + 1 <==> ticks % SegmentSize == 0
      ensures refills == old(refills) ==> output[..] == old(output[..])
    {
      Schedule.CounterInvariant(SegmentSize, SegmentSize, ticks);
      Schedule.FullStart(SegmentSize, ticks);
      if outputSampleCnt >= SegmentSize {
        Refill();
      }
    }

    /**
     * One iteration of the frame loop: refill if due, emit
     * `output[outputSampleCnt]`, count the tick.  Tick `t` plays sample
     * `t % segment_size` of the block of refill `t / segment_size`, so every
     * sample played comes from the model.
     */
    method Tick() returns (y: real)
      requires Valid() && Fits(audio0.fileSamples, audio1.fileSamples)
      modifies this`outputSampleCnt, this`refills, this`ticks, audio0, audio1, audio0.input, audio1.input, output
      ensures Valid() && ticks == old(ticks) + 1
      ensures refills == old(refills) + 1 <==> old(ticks) % SegmentSize == 0
      ensures refills == old(ticks) / SegmentSize + 1
      ensures y == Played(model, audio0.fileSamples, audio1.fileSamples, old(ticks))
    {
      RefillIfDue();
      Schedule.FullStart(SegmentSize, ticks);
      y := output[outputSampleCnt];
      outputSampleCnt := outputSampleCnt + 1;
      ticks := ticks + 1;
    }

    /**
     * `render`: one tick per frame; the result is what `audioWrite` receives
     * on channels 0 and 1, the same sample on both, each taken from a block
     * the model produced, however ticks are grouped into calls.
     */
    method Render(frames: nat) returns (out: seq<Host.Frame>)
      requires Valid() && Fits(audio0.fileSamples, audio1.fileSamples)
      modifies this`outputSampleCnt, this`refills, this`ticks, audio0, audio1, audio0.input, audio1.input, output
      ensures Valid() && ticks == old(ticks) + frames
      ensures refills == Schedule.RefillCount(SegmentSize, SegmentSize, ticks)
      ensures |out| == frames
      ensures forall j :: 0 <= j < frames ==> out[j].ch0 == out[j].ch1
      ensures forall j :: 0 <= j < frames ==> out[j].ch0 == Played(model, audio0.fileSamples, audio1.fileSamples, old(ticks) + j)
    {
      out := [];
      var n := 0;
      while n < frames
        invariant 0 <= n <= frames
        invariant Valid() && ticks == old(ticks) + n
        invariant |out| == n
        invariant forall j :: 0 <= j < n ==> out[j].ch0 == out[j].ch1
        invariant forall j :: 0 <= j < n ==> out[j].ch0 == Played(model, audio0.fileSamples, audio1.fileSamples, old(ticks) + j)
      {
        var y := Tick();
        out := out + [Host.Frame(y, y)];
        n := n + 1;
      }
    }
  }
}
