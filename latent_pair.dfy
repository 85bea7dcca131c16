/**
 * The mu/logvar pair of the two latent-only variants
 * (lts_latentInput_windowed and lts_latentInput): two latent files of the
 * same length read through ONE shared cursor, so that the mu and logvar
 * windows of a refill always come from the same offset.
 */
module LatentPair {
  import Ring

  /**
   * `fillLatentInput` with a shared cursor: both windows are copied at
   * `readPointer`, contiguously when the rest of the mu file is long enough,
   * otherwise tails first and then heads; the cursor then moves by a whole
   * window.  The caller guarantees equal source lengths and equal input sizes.
   */
  method FillLatentInput(muSamples: seq<real>, logvarSamples: seq<real>,
                         muInput: array<real>, logvarInput: array<real>, readPointer: nat)
    returns (newPointer: nat)
    requires |logvarSamples| == |muSamples| && logvarInput.Length == muInput.Length && muInput != logvarInput
    requires readPointer < |muSamples| && muInput.Length <= |muSamples|
    modifies muInput, logvarInput
    ensures muInput[..] == Ring.Window(muSamples, readPointer, muInput.Length)
    ensures logvarInput[..] == Ring.Window(logvarSamples, readPointer, logvarInput.Length)
    ensures newPointer == (readPointer + muInput.Length) % |muSamples|
  {
    var inputSize := muInput.Length;
    var sourceSize := |muSamples|;
    var remaining := sourceSize - readPointer;
    if remaining >= inputSize {
      Ring.Copy(muSamples, readPointer, muInput, 0, inputSize);
      Ring.Copy(logvarSamples, readPointer, logvarInput, 0, logvarInput.Length);
      assert muInput[..] == muSamples[readPointer..readPointer + inputSize];
      assert logvarInput[..] == logvarSamples[readPointer..readPointer + inputSize];
      Ring.WindowContiguous(muSamples, readPointer, inputSize);
      Ring.WindowContiguous(logvarSamples, readPointer, inputSize);
    } else {
      Ring.Copy(muSamples, readPointer, muInput, 0, remaining);
      Ring.Copy(logvarSamples, readPointer, logvarInput, 0, remaining);
      Ring.Copy(muSamples, 0, muInput, remaining, inputSize - remaining);
      Ring.Copy(logvarSamples, 0, logvarInput, remaining, logvarInput.Length - remaining);
      assert muInput[..] == muSamples[readPointer..] + muSamples[..inputSize - remaining];
      assert logvarInput[..] == logvarSamples[readPointer..] + logvarSamples[..inputSize - remaining];
      Ring.WindowWrapped(muSamples, readPointer, inputSize);
      Ring.WindowWrapped(logvarSamples, readPointer, inputSize);
    }
    newPointer := (readPointer + inputSize) % sourceSize;
  }

  /**
   * One pair: `muFileSamples[i]`, `logvarFileSamples[i]`, `muInput[i]`,
   * `logvarInput[i]` and the pair's `readPointer[i]`.  `windows` is the
   * number of windows read so far.
   */
  class PairSource {
    const muFileSamples: seq<real>
    const logvarFileSamples: seq<real>
    const muInput: array<real>
    const logvarInput: array<real>
    var readPointer: nat
    ghost var windows: nat

    /**
     * The files have equal, non-zero lengths and hold a window; the inputs
     * are distinct buffers of equal size; the shared cursor has moved by a
     * whole window per read.
     */
    ghost predicate Valid()
      reads this
    {
      && 0 < |muFileSamples| && |logvarFileSamples| == |muFileSamples|
      && logvarInput.Length == muInput.Length <= |muFileSamples| && muInput != logvarInput
      && readPointer == Ring.CursorAfter(muInput.Length, |muFileSamples|, windows)
    }

    /** The loaded files, both input vectors resized to `size` zeros, the cursor at 0. */
    constructor (muFileSamples: seq<real>, logvarFileSamples: seq<real>, size: nat)
      ensures this.muFileSamples == muFileSamples && this.logvarFileSamples == logvarFileSamples
      ensures muInput.Length == size && logvarInput.Length == size && fresh(muInput) && fresh(logvarInput)
      ensures readPointer == 0 && windows == 0
      ensures 0 < |muFileSamples| == |logvarFileSamples| && size <= |muFileSamples| ==> Valid()
    {
      this.muFileSamples := muFileSamples;
      this.logvarFileSamples := logvarFileSamples;
      muInput := new real[size](_ => 0.0);
      logvarInput := new real[size](_ => 0.0);
      readPointer, windows := 0, 0;
      new;
      if 0 < |muFileSamples| {
        Ring.CursorStart(size, |muFileSamples|);
      }
    }

    /**
     * One `fillLatentInput` call on this pair: the mu and logvar windows
     * after as many reads as the pair has had, both at the same cursor.
     */
    method Read()
      requires Valid()
      modifies this, muInput, logvarInput
      ensures Valid() && windows == old(windows) + 1
      ensures muInput[..] == Ring.ReadAt(muFileSamples, muInput.Length, muInput.Length, old(windows))
      ensures logvarInput[..] == Ring.ReadAt(logvarFileSamples, muInput.Length, muInput.Length, old(windows))
    {
      Ring.CursorStep(muInput.Length, |muFileSamples|, windows);
      var p := FillLatentInput(muFileSamples, logvarFileSamples, muInput, logvarInput, readPointer);
      readPointer := p;
      windows := windows + 1;
    }
  }
}
