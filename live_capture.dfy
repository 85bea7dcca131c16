/**
 * Live capture: a zero-filled circular buffer into which the render loop
 * writes one live sample per tick, at a write cursor that started `off`
 * slots ahead of the read cursor.  `RingOf` is the buffer's content as a
 * function of the samples written so far; `RecentWindow` says that a window
 * read at the cursor trailing the write cursor by `size` slots holds exactly
 * the last `size` live samples, with zeros standing for ticks before the
 * first one.
 */
module LiveCapture {
  import ModArith
  import Ring

  /** `n` zero samples: a buffer as `std::fill(..., 0.0f)` or a zero initialiser leaves it. */
  function Zeros(n: nat): (z: seq<real>)
    ensures |z| == n && forall i :: 0 <= i < n ==> z[i] == 0.0
  {
    seq(n, _ => 0.0)
  }

  /** The live sample of tick `j`; a tick outside the history stands for a pre-filled zero. */
  function Sample(h: seq<real>, j: int): real
  {
    if 0 <= j < |h| then h[j] else 0.0
  }

  /** The buffer of length `n` once tick `t` has written `h[t]` at slot `(off + t) % n`, for every tick of `h`. */
  function RingOf(h: seq<real>, n: nat, off: nat): (r: seq<real>)
    requires n > 0
    ensures |r| == n
    decreases |h|
  {
    if h == [] then Zeros(n)
    else RingOf(h[..|h| - 1], n, off)[(off + |h| - 1) % n := h[|h| - 1]]
  }

  /** One more tick writes its sample at the slot after the previous write. */
  lemma RingAppend(h: seq<real>, x: real, n: nat, off: nat)
    requires n > 0
    ensures RingOf(h + [x], n, off) == RingOf(h, n, off)[(off + |h|) % n := x]
  {
    assert (h + [x])[..|h|] == h;
  }

  /**
   * A slot holds the sample of the last tick that wrote it: tick `j` is
   * still readable at slot `(off + j) % n` until `n` later ticks have passed,
   * and a slot before the first write still holds its zero.
   */
  lemma {:induction false} RingAt(h: seq<real>, n: nat, off: nat, j: int)
    requires n > 0 && |h| - n <= j < |h| && 0 <= off + j
    ensures RingOf(h, n, off)[(off + j) % n] == Sample(h, j)
    decreases |h|
  {
    if h == [] {
      assert RingOf(h, n, off) == Zeros(n);
    } else {
      var h0 := h[..|h| - 1];
      if j < |h| - 1 {
        ModArith.ModDistinct(off + |h| - 1, off + j, n);
        RingAt(h0, n, off, j);
      }
    }
  }

  /** The last `size` live samples, zero-padded where they would precede the first tick. */
  function Recent(h: seq<real>, size: nat): (w: seq<real>)
    ensures |w| == size
  {
    seq(size, m => Sample(h, |h| - size + m))
  }

  /**
   * Reading `size` slots from the cursor that trails the write cursor by
   * exactly `size` (modulo `n`) yields the `size` most recent live samples.
   */
  lemma RecentWindow(h: seq<real>, n: nat, off: nat, size: nat)
    requires 0 < n && size <= n && off + |h| >= size
    ensures Ring.Window(RingOf(h, n, off), (off + |h| - size) % n, size) == Recent(h, size)
  {
    forall m | 0 <= m < size
      ensures Ring.Window(RingOf(h, n, off), (off + |h| - size) % n, size)[m] == Recent(h, size)[m]
    {
      RecentAt(h, n, off, size, m);
    }
  }

  /** One slot of `RecentWindow`: entry `m` of the window is the live sample of tick `|h| - size + m`. */
  lemma RecentAt(h: seq<real>, n: nat, off: nat, size: nat, m: nat)
    requires 0 < n && size <= n && off + |h| >= size && m < size
    ensures Ring.Window(RingOf(h, n, off), (off + |h| - size) % n, size)[m] == Sample(h, |h| - size + m)
  {
    Ring.WindowBehind(RingOf(h, n, off), off, |h|, size, m);
    RingAt(h, n, off, |h| - size + m);
  }

  /**
   * The live window read at the refill after `b` earlier ones, when the ring
   * has been read every `hop` ticks from tick `hop` on: the `size` live
   * samples just before tick `(b + 1) * hop`, zero where capture had not started.
   */
  function LiveWindow(h: seq<real>, hop: nat, size: nat, b: nat): (w: seq<real>)
    ensures |w| == size
  {
    seq(size, m => Sample(h, (b + 1) * hop - size + m))
  }

  /** At that refill the history is `(b + 1) * hop` samples long, so the window is its most recent part. */
  lemma LiveWindowRecent(h: seq<real>, hop: nat, size: nat, b: nat)
    requires |h| == (b + 1) * hop
    ensures Recent(h, size) == LiveWindow(h, hop, size, b)
  {
    forall m | 0 <= m < size
      ensures Recent(h, size)[m] == LiveWindow(h, hop, size, b)[m]
    {
      assert |h| - size + m == (b + 1) * hop - size + m;
    }
  }

  /** The window of a refill only depends on the live samples heard before it. */
  lemma LiveWindowStable(h: seq<real>, h': seq<real>, hop: nat, size: nat, b: nat)
    requires (b + 1) * hop <= |h| <= |h'| && h == h'[..|h|]
    ensures LiveWindow(h, hop, size, b) == LiveWindow(h', hop, size, b)
  {
    forall m | 0 <= m < size
      ensures LiveWindow(h, hop, size, b)[m] == LiveWindow(h', hop, size, b)[m]
    {
      var j := (b + 1) * hop - size + m;
      assert j < |h|;
      if 0 <= j {
        assert h[j] == h'[..|h|][j] == h'[j];
      }
      assert LiveWindow(h, hop, size, b)[m] == Sample(h, j);
      assert LiveWindow(h', hop, size, b)[m] == Sample(h', j);
    }
  }

  /**
   * At refill `b` of a `10 * hop` ring whose write cursor started `hop` ahead
   * and has moved once per tick, the write cursor is exactly `2 * hop` slots
   * ahead of the read cursor, so a window of `2 * hop` covers only written slots.
   */
  lemma CursorGap(hop: nat, b: nat)
    requires hop > 0
    ensures (hop + (b + 1) * hop) % (10 * hop) == (Ring.CursorAfter(hop, 10 * hop, b) + 2 * hop) % (10 * hop)
  {
    assert hop + (b + 1) * hop == b * hop + 2 * hop;
    ModArith.ModAddMod(b * hop, 2 * hop, 10 * hop);
  }

  /**
   * Block-mode capture writes each live sample straight into the model's
   * audio input at the segment counter, so the input of the refill after `b`
   * earlier ones holds the `size` live samples of block `b`, in order.
   */
  function BlockWindow(h: seq<real>, size: nat, b: nat): (w: seq<real>)
    ensures |w| == size
  {
    seq(size, m => Sample(h, b * size + m))
  }

  /** At that refill `(b + 1) * size` samples have been heard, so the block is the most recent `size` of them. */
  lemma BlockWindowRecent(h: seq<real>, size: nat, b: nat)
    requires |h| == (b + 1) * size
    ensures BlockWindow(h, size, b) == Recent(h, size)
  {
    assert |h| - size == b * size by {
      assert (b + 1) * size == b * size + size;
    }
    forall m | 0 <= m < size
      ensures BlockWindow(h, size, b)[m] == Recent(h, size)[m]
    {
      assert BlockWindow(h, size, b)[m] == Sample(h, b * size + m);
      assert Recent(h, size)[m] == Sample(h, |h| - size + m);
    }
  }

  /** The block of a refill only depends on the live samples heard before it. */
  lemma BlockWindowStable(h: seq<real>, h': seq<real>, size: nat, b: nat)
    requires (b + 1) * size <= |h| <= |h'| && h == h'[..|h|]
    ensures BlockWindow(h, size, b) == BlockWindow(h', size, b)
  {
    forall m | 0 <= m < size
      ensures BlockWindow(h, size, b)[m] == BlockWindow(h', size, b)[m]
    {
      var j := b * size + m;
      assert j < |h| by {
        assert (b + 1) * size == b * size + size;
      }
      assert h[j] == h'[..|h|][j] == h'[j];
      assert BlockWindow(h, size, b)[m] == Sample(h, j);
      assert BlockWindow(h', size, b)[m] == Sample(h', j);
    }
  }

  /**
   * Block-mode capture, `r` refills and `c` ticks into the current block of
   * `size`: the tick whose live sample slot `m` of the audio input holds.
   * That is this block's tick if the slot has been written in it, the
   * previous block's otherwise; a negative tick stands for the zero the
   * input was resized to.
   */
  function SlotTick(size: nat, r: nat, c: nat, m: nat): int
  {
    r * size + m - (if m < c then 0 else size)
  }

  /** `std::fill(buffer.begin(), buffer.end(), 0.0f)`. */
  method ZeroFill(a: array<real>)
    modifies a
    ensures a[..] == Zeros(a.Length)
  {
    var i := 0;
    while i < a.Length
      invariant 0 <= i <= a.Length
      invariant forall k :: 0 <= k < i ==> a[k] == 0.0
    {
      a[i] := 0.0;
      i := i + 1;
    }
  }

  /**
   * The live capture ring of the windowed variants: `liveInputSamples`
   * (`hop_size * 10` samples) with `writePointer_liveIn` and
   * `readPointer_liveIn`.  `heard` is every live sample written so far and
   * `windows` the number of windows read back.
   */
  class LiveRing {
    const hop: nat
    const liveInputSamples: array<real>
    var writePointerLiveIn: nat
    var readPointerLiveIn: nat
    ghost var heard: seq<real>
    ghost var windows: nat

    /**
     * The ring holds every sample heard, written from slot `hop` on; the write
     * cursor is the next slot, the read cursor has moved by `hop` per window.
     */
    ghost predicate Valid()
      reads this, liveInputSamples
    {
      && hop > 0 && liveInputSamples.Length == 10 * hop
      && writePointerLiveIn == (hop + |heard|) % liveInputSamples.Length
      && readPointerLiveIn == Ring.CursorAfter(hop, liveInputSamples.Length, windows)
      && liveInputSamples[..] == RingOf(heard, liveInputSamples.Length, hop)
    }

    /** `liveInputSamples.resize(hop_size*10)`: allocated, not yet in use. */
    constructor (hop: nat)
      ensures this.hop == hop && liveInputSamples.Length == 10 * hop && fresh(liveInputSamples)
    {
      this.hop := hop;
      liveInputSamples := new real[10 * hop];
      writePointerLiveIn, readPointerLiveIn := 0, 0;
      heard, windows := [], 0;
    }

    /**
     * The live branch of `setup`: zero-fill the ring, put the write cursor
     * `hop_size` ahead (those first slots stay zero) and the read cursor at 0.
     */
    method Reset()
      requires hop > 0 && liveInputSamples.Length == 10 * hop
      modifies this, liveInputSamples
      ensures Valid() && heard == [] && windows == 0
      ensures writePointerLiveIn == hop && readPointerLiveIn == 0
      ensures liveInputSamples[..] == Zeros(10 * hop)
    {
      ZeroFill(liveInputSamples);
      writePointerLiveIn := hop;
      readPointerLiveIn := 0;
      heard, windows := [], 0;
      ModArith.ModSmall(hop, 10 * hop);
      Ring.CursorStart(hop, 10 * hop);
      assert RingOf(heard, liveInputSamples.Length, hop) == Zeros(10 * hop);
    }

    /**
     * The capture step of a tick: `liveInputSamples[writePointer_liveIn]` gets
     * the live sample, then the write cursor moves by one modulo the length.
     */
    method Write(x: real)
      requires Valid()
      modifies this, liveInputSamples
      ensures Valid() && heard == old(heard) + [x] && windows == old(windows)
      ensures liveInputSamples[..] == old(liveInputSamples[..])[old(writePointerLiveIn) := x]
      ensures writePointerLiveIn == (old(writePointerLiveIn) + 1) % liveInputSamples.Length
    {
      RingAppend(heard, x, liveInputSamples.Length, hop);
      ModArith.ModAddMod(hop + |heard|, 1, liveInputSamples.Length);
      liveInputSamples[writePointerLiveIn] := x;
      writePointerLiveIn := (writePointerLiveIn + 1) % liveInputSamples.Length;
      heard := heard + [x];
    }

    /**
     * The live branch of the refill: `fillAudioInput(liveInputSamples,
     * audioInput, readPointer_liveIn, hop_size)`.  At the refill after
     * `windows` earlier ones, `(windows + 1) * hop` samples have been heard,
     * so the write cursor is `2 * hop` slots ahead of the read cursor and
     * the window read is the `2 * hop` most recent samples.
     */
    method Read(dest: array<real>)
      requires Valid() && dest != liveInputSamples
      requires dest.Length == 2 * hop && |heard| == (windows + 1) * hop
      modifies this, dest
      ensures Valid() && heard == old(heard) && windows == old(windows) + 1
      ensures dest[..] == Ring.Window(liveInputSamples[..], old(readPointerLiveIn), dest.Length)
      ensures dest[..] == Recent(heard, dest.Length)
      ensures old(writePointerLiveIn) == (old(readPointerLiveIn) + dest.Length) % liveInputSamples.Length
    {
      var n := liveInputSamples.Length;
      CursorGap(hop, windows);
      Ring.CursorStep(hop, n, windows);
      assert readPointerLiveIn == (hop + |heard| - dest.Length) % n by {
        assert hop + |heard| - dest.Length == windows * hop;
      }
      RecentWindow(heard, n, hop, dest.Length);
      Ring.CopyWindow(liveInputSamples[..], dest, readPointerLiveIn);
      readPointerLiveIn := (readPointerLiveIn + hop) % n;
      windows := windows + 1;
    }
  }
}
