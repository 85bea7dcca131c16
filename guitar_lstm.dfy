/**
 * GuitarLSTM_Test/render.cpp: every tick writes the live sample into a
 * 48000-sample circular buffer and reads back the 5-sample window that ends
 * at it, because the write cursor stays `inputSize - 1` slots ahead of the
 * read cursor.  The model is run on the window but its output is unused:
 * the tick plays the window's last sample, which is the live sample itself.
 */
module GuitarLstm {
  import Ring
  import LiveCapture
  import Inference
  import Host
  import ModArith

  const InputSize := 5
  const CircBuffLength := 48000

  /** A loaded model: every run writes the one-sample `output`. */
  type Model = f: Inference.Net | forall x :: |f(x)| == 1
    witness (x: seq<Inference.Tensor>) => [0.0]

  /**
   * The window copy of `render`: contiguous while `readPointer <=
   * circBuffLength - inputSize`, otherwise the `firstPartSize` samples up to
   * the end of the buffer followed by the rest from its start.
   */
  method ReadWindow(circBuff: array<real>, input: array<real>, readPointer: nat)
    requires circBuff.Length == CircBuffLength && input.Length == InputSize
    requires readPointer < CircBuffLength && circBuff != input
    modifies input
    ensures input[..] == Ring.Window(circBuff[..], readPointer, InputSize)
  {
    if readPointer <= CircBuffLength - InputSize {
      Ring.Copy(circBuff[..], readPointer, input, 0, InputSize);
      assert input[..] == circBuff[..][readPointer..readPointer + InputSize];
      Ring.WindowContiguous(circBuff[..], readPointer, InputSize);
    } else {
      var firstPartSize := CircBuffLength - readPointer;
      Ring.Copy(circBuff[..], readPointer, input, 0, firstPartSize);
      Ring.Copy(circBuff[..], 0, input, firstPartSize, InputSize - firstPartSize);
      assert input[..] == circBuff[..][readPointer..] + circBuff[..][..InputSize - firstPartSize];
      Ring.WindowWrapped(circBuff[..], readPointer, InputSize);
    }
  }

  /** `if (++pointer >= circBuffLength) pointer = 0`: one slot on, back to 0 past the end. */
  method Advance(pointer: nat) returns (next: nat)
    requires pointer < CircBuffLength
    ensures next == (pointer + 1) % CircBuffLength && next < CircBuffLength
  {
    next := pointer + 1;
    if next >= CircBuffLength {
      next := 0;
    }
    Ring.WrapOnceIsMod(pointer, 1, CircBuffLength);
  }

  /**
   * The globals of render.cpp: the circular buffer `circBuff` with
   * `writePointer` and `readPointer`, the five-sample `input` window and the
   * one-sample `output`.  `heard` is every sample `audioRead` has returned
   * on channel 0.
   */
  class Engine {
    const model: Model
    const circBuff: array<real>
    const input: array<real>
    const output: array<real>
    var writePointer: nat
    var readPointer: nat
    ghost var heard: seq<real>

    /**
     * The write cursor is `inputSize - 1` slots ahead of the read cursor,
     * which has moved once per tick; the buffer holds every sample heard,
     * written from slot `inputSize - 1` on.
     */
    ghost predicate Valid()
      reads this, circBuff
    {
      && circBuff.Length == CircBuffLength && input.Length == InputSize && output.Length == 1
      && circBuff != input && circBuff != output && input != output
      && readPointer == |heard| % CircBuffLength
      && writePointer == (readPointer + InputSize - 1) % CircBuffLength
      && circBuff[..] == LiveCapture.RingOf(heard, CircBuffLength, InputSize - 1)
    }

    /** Zero-initialised globals: the buffer, `input` and `output` are all zeros. */
    constructor (model: Model)
      ensures this.model == model && heard == []
      ensures circBuff.Length == CircBuffLength && circBuff[..] == LiveCapture.Zeros(CircBuffLength)
    {
      this.model := model;
      circBuff := new real[CircBuffLength](_ => 0.0);
      input := new real[InputSize](_ => 0.0);
      output := new real[1](_ => 0.0);
      writePointer, readPointer := 0, 0;
      heard := [];
    }

    /**
     * `setup`: a model that does not load is only reported; the write cursor
     * starts `inputSize - 1` ahead, so the first window's leading samples are
     * the buffer's zeros.
     */
    method Setup(modelLoaded: bool) returns (ok: bool)
      requires heard == [] && circBuff.Length == CircBuffLength && circBuff[..] == LiveCapture.Zeros(CircBuffLength)
      requires input.Length == InputSize && output.Length == 1
      requires circBuff != input && circBuff != output && input != output
      modifies this`writePointer, this`readPointer
      ensures ok && writePointer == InputSize - 1 && readPointer == 0
      ensures Valid()
    {
      writePointer := InputSize - 1;
      readPointer := 0;
      ModArith.ModSmall(0, CircBuffLength);
      ModArith.ModSmall(InputSize - 1, CircBuffLength);
      ok := true;
    }

    /** The write at the start of a tick: `circBuff[writePointer] = audioRead(context, n, 0)`. */
    method Capture(x: real)
      requires Valid()
      modifies this`heard, circBuff
      ensures heard == old(heard) + [x]
      ensures circBuff[..] == old(circBuff[..])[writePointer := x]
      ensures circBuff[..] == LiveCapture.RingOf(heard, CircBuffLength, InputSize - 1)
    {
      ModArith.ModAddMod(|heard|, InputSize - 1, CircBuffLength);
      LiveCapture.RingAppend(heard, x, CircBuffLength, InputSize - 1);
      circBuff[writePointer] := x;
      heard := heard + [x];
    }

    /**
     * The window copy after the write: the read cursor is the slot of the
     * sample heard `inputSize - 1` ticks before the newest one, so the window
     * is the last five samples heard, zeros before the first.
     */
    method ReadRecent()
      requires |heard| > 0 && readPointer == (|heard| - 1) % CircBuffLength
      requires circBuff.Length == CircBuffLength && input.Length == InputSize && circBuff != input
      requires circBuff[..] == LiveCapture.RingOf(heard, CircBuffLength, InputSize - 1)
      modifies input
      ensures input[..] == Ring.Window(circBuff[..], readPointer, InputSize)
      ensures input[..] == LiveCapture.Recent(heard, InputSize)
    {
      ReadWindow(circBuff, input, readPointer);
      assert readPointer == (InputSize - 1 + |heard| - InputSize) % CircBuffLength;
      LiveCapture.RecentWindow(heard, CircBuffLength, InputSize - 1, InputSize);
    }

    /** The cursor updates at the end of a tick: both move on by one, keeping their distance. */
    method MoveCursors()
      requires |heard| > 0 && readPointer == (|heard| - 1) % CircBuffLength
      requires writePointer == (readPointer + InputSize - 1) % CircBuffLength
      modifies this`readPointer, this`writePointer
      ensures readPointer == (old(readPointer) + 1) % CircBuffLength
      ensures writePointer == (old(writePointer) + 1) % CircBuffLength
      ensures readPointer == |heard| % CircBuffLength
      ensures writePointer == (readPointer + InputSize - 1) % CircBuffLength
    {
      var r := Advance(readPointer);
      var w := Advance(writePointer);
      ModArith.ModAddMod(|heard| - 1, 1, CircBuffLength);
      ModArith.ModShift(readPointer, InputSize - 1, 1, CircBuffLength);
      ModArith.ModAddMod(readPointer + 1, InputSize - 1, CircBuffLength);
      readPointer, writePointer := r, w;
    }

    /**
     * One iteration of the frame loop: store the live sample, copy the
     * window at the read cursor into `input`, run the model, play
     * `input[inputSize - 1]` and move both cursors on by one.  The window is
     * the last five samples heard (zeros before the first), so the tick
     * plays its own live sample.  Nothing but the written slot, the window,
     * `output` and the cursors changes.
     */
    method Tick(x: real) returns (y: real)
      requires Valid()
      modifies this`heard, this`writePointer, this`readPointer, circBuff, input, output
      ensures Valid() && heard == old(heard) + [x]
      ensures circBuff[..] == old(circBuff[..])[old(writePointer) := x]
      ensures readPointer == (old(readPointer) + 1) % CircBuffLength
      ensures writePointer == (old(writePointer) + 1) % CircBuffLength
      ensures input[..] == Ring.Window(circBuff[..], old(readPointer), InputSize)
      ensures input[..] == LiveCapture.Recent(heard, InputSize)
      ensures forall m :: 0 <= m < InputSize && |heard| + m < InputSize ==> input[m] == 0.0
      ensures output[..] == model([Inference.Frames(input[..])])
      ensures y == x
    {
      Capture(x);
      ReadRecent();
      Inference.Run(model, [Inference.Frames(input[..])], output);
      y := input[InputSize - 1];
      MoveCursors();
      assert forall m :: 0 <= m < InputSize ==> input[m] == LiveCapture.Sample(heard, |heard| - InputSize + m);
    }

    /**
     * `render`: one tick per frame of `frames`; both channels receive the
     * live sample of the same tick.
     */
    method Render(frames: seq<real>) returns (out: seq<Host.Frame>)
      requires Valid()
      modifies this`heard, this`writePointer, this`readPointer, circBuff, input, output
      ensures Valid() && heard == old(heard) + frames
      ensures |out| == |frames|
      ensures forall j :: 0 <= j < |frames| ==> out[j] == Host.Frame(frames[j], frames[j])
    {
      out := [];
      var n := 0;
      while n < |frames|
        invariant 0 <= n <= |frames|
        invariant Valid() && heard == old(heard) + frames[..n]
        invariant |out| == n
        invariant forall j :: 0 <= j < n ==> out[j] == Host.Frame(frames[j], frames[j])
      {
        var y := Tick(frames[n]);
        assert frames[..n + 1] == frames[..n] + [frames[n]];
        out := out + [Host.Frame(y, y)];
        n := n + 1;
      }
      assert frames[..n] == frames;
    }
  }
}
