/**
 * The ring reader shared by every render.cpp: a finite sample array read
 * through a cursor that wraps at the array's end.  `Window` is the
 * specification of one read, `CopyWindow` the in-place two-branch copy the
 * sources perform with `std::copy`, and `CursorAfter` the cursor after a
 * number of reads that each advance it by a fixed step modulo the length.
 */
module Ring {
  import ModArith

  /** The `size` samples of `src` starting at cursor `p`, read modulo the length of `src`. */
  function Window(src: seq<real>, p: nat, size: nat): (w: seq<real>)
    requires |src| > 0
    ensures |w| == size
  {
    seq(size, k => src[(p + k) % |src|])
  }

  /** When the window fits before the end of the array it is a plain slice. */
  lemma WindowContiguous(src: seq<real>, p: nat, size: nat)
    requires |src| > 0 && p + size <= |src|
    ensures Window(src, p, size) == src[p..p + size]
  {
    forall k | 0 <= k < size
      ensures Window(src, p, size)[k] == src[p..p + size][k]
    {
      ModArith.ModSmall(p + k, |src|);
    }
  }

  /** When it does not, it is the tail of the array followed by the head. */
  lemma WindowWrapped(src: seq<real>, p: nat, size: nat)
    requires p < |src| < p + size && size <= |src|
    ensures Window(src, p, size) == src[p..] + src[..size - (|src| - p)]
  {
    var rest := src[p..] + src[..size - (|src| - p)];
    forall k | 0 <= k < size
      ensures Window(src, p, size)[k] == rest[k]
    {
      if p + k < |src| {
        ModArith.ModSmall(p + k, |src|);
      } else {
        ModArith.ModWrapOnce(p + k, |src|);
      }
    }
  }

  /**
   * Reading again after moving the cursor by `hop` returns the old window
   * shifted by `hop`: consecutive windows share `size - hop` samples.
   */
  lemma WindowShift(src: seq<real>, p: nat, hop: nat, size: nat, i: nat)
    requires |src| > 0 && hop + i < size
    ensures Window(src, (p + hop) % |src|, size)[i] == Window(src, p, size)[hop + i]
  {
    var n := |src|;
    var q := (p + hop) % n;
    ModArith.ModShift(p, hop, i, n);
    assert (q + i) % n == (p + (hop + i)) % n;
  }

  /**
   * Entry `m` of the window that starts `size` slots behind position `k`
   * (offset by `off`) is the slot `k - size + m` ahead of `off`.
   */
  lemma WindowBehind(src: seq<real>, off: nat, k: nat, size: nat, m: nat)
    requires 0 < |src| && off + k >= size && m < size
    ensures Window(src, (off + k - size) % |src|, size)[m] == src[(off + (k - size + m)) % |src|]
  {
    var n := |src|;
    var q := (off + k - size) % n;
    ModArith.ModAddMod(off + k - size, m, n);
    assert (q + m) % n == (off + (k - size + m)) % n;
  }

  /** The cursor after `count` reads that each advance it by `step` modulo `n`, from 0: the distance travelled, wrapped. */
  function CursorAfter(step: nat, n: nat, count: nat): (c: nat)
    requires n > 0
    ensures c < n
  {
    (count * step) % n
  }

  /** Before any read the cursor is at 0. */
  lemma CursorStart(step: nat, n: nat)
    requires n > 0
    ensures CursorAfter(step, n, 0) == 0
  {
    assert 0 * step == 0;
    ModArith.ModSmall(0, n);
  }

  /** One more read moves the cursor by `step` and wraps it: `read_pointer = (read_pointer + hopSize) % size`. */
  lemma CursorStep(step: nat, n: nat, count: nat)
    requires n > 0
    ensures CursorAfter(step, n, count + 1) == (CursorAfter(step, n, count) + step) % n
  {
    ModArith.ModAddMod(count * step, step, n);
    assert (count + 1) * step == count * step + step;
  }

  /** The window that a read returns after `count` earlier reads of a cursor advanced by `step`. */
  function ReadAt(src: seq<real>, step: nat, size: nat, count: nat): (w: seq<real>)
    requires |src| > 0
    ensures |w| == size
  {
    Window(src, CursorAfter(step, |src|, count), size)
  }

  /**
   * Consecutive reads of a cursor advanced by `step <= size` overlap: the
   * next window starts with the last `size - step` samples of the previous one.
   */
  lemma ReadAtShift(src: seq<real>, step: nat, size: nat, count: nat, i: nat)
    requires |src| > 0 && step + i < size
    ensures ReadAt(src, step, size, count + 1)[i] == ReadAt(src, step, size, count)[step + i]
  {
    CursorStep(step, |src|, count);
    WindowShift(src, CursorAfter(step, |src|, count), step, size, i);
  }

  /** The cursor update "add the step, then subtract the length once if past the end". */
  function AdvanceWrapOnce(p: nat, step: nat, n: nat): (q: nat)
    ensures q <= p + step
    ensures p < n && step <= n ==> q < n
  {
    if p + step >= n then p + step - n else p + step
  }

  /** Given a cursor in range and a step no longer than the array, subtracting once is the remainder. */
  lemma WrapOnceIsMod(p: nat, step: nat, n: nat)
    requires p < n && step <= n
    ensures AdvanceWrapOnce(p, step, n) == (p + step) % n
    ensures AdvanceWrapOnce(p, step, n) < n
  {
    if p + step >= n {
      ModArith.ModWrapOnce(p + step, n);
    } else {
      ModArith.ModSmall(p + step, n);
    }
  }

  /**
   * `std::copy(src + from, src + from + count, dest + at)`: the `count`
   * samples of `src` from `from` land in `dest` from `at`; nothing else changes.
   */
  method Copy(src: seq<real>, from: nat, dest: array<real>, at: nat, count: nat)
    requires from + count <= |src| && at + count <= dest.Length
    modifies dest
    ensures forall k :: 0 <= k < dest.Length ==>
      dest[k] == if at <= k < at + count then src[from + k - at] else old(dest[k])
  {
    var i := 0;
    while i < count
      invariant 0 <= i <= count
      invariant forall k :: 0 <= k < dest.Length ==>
        dest[k] == if at <= k < at + i then src[from + k - at] else old(dest[k])
    {
      dest[at + i] := src[from + i];
      i := i + 1;
    }
  }

  /**
   * The shared body of fillInput / fillAudioInput / fillLatentInput: copy the
   * window at cursor `p` into `dest`, contiguously when `remaining` suffices,
   * otherwise up to the end of `src` and then from its start.
   */
  method CopyWindow(src: seq<real>, dest: array<real>, p: nat)
    requires p < |src| && dest.Length <= |src|
    modifies dest
    ensures dest[..] == Window(src, p, dest.Length)
  {
    var remaining := |src| - p;
    if remaining >= dest.Length {
      Copy(src, p, dest, 0, dest.Length);
      assert dest[..] == src[p..p + dest.Length];
      WindowContiguous(src, p, dest.Length);
    } else {
      Copy(src, p, dest, 0, remaining);
      Copy(src, 0, dest, remaining, dest.Length - remaining);
      assert dest[..] == src[p..] + src[..dest.Length - remaining];
      WindowWrapped(src, p, dest.Length);
    }
  }

  /**
   * One windowed source of a render.cpp: the samples loaded from its file,
   * its read cursor and the input buffer the windows are copied into (for
   * example `muFileSamples`, `readPointer_mu` and `muInput`).  `windows` is
   * the number of windows read so far; `step` is how far each read moves the cursor.
   */
  class Source {
    const fileSamples: seq<real>
    const input: array<real>
    const step: nat
    var readPointer: nat
    ghost var windows: nat

    /** The file holds at least one window, and the cursor has moved by `step` per window read. */
    ghost predicate Valid()
      reads this
    {
      && 0 < |fileSamples| && input.Length <= |fileSamples|
      && readPointer == CursorAfter(step, |fileSamples|, windows)
    }

    /** The loaded file, the input vector resized to `size` zeros, the cursor at 0. */
    constructor (fileSamples: seq<real>, size: nat, step: nat)
      ensures this.fileSamples == fileSamples && this.step == step
      ensures input.Length == size && fresh(input) && readPointer == 0 && windows == 0
      ensures forall k :: 0 <= k < size ==> input[k] == 0.0
      ensures 0 < |fileSamples| && size <= |fileSamples| ==> Valid()
    {
      this.fileSamples := fileSamples;
      this.step := step;
      input := new real[size](_ => 0.0);
      readPointer, windows := 0, 0;
      new;
      if 0 < |fileSamples| {
        CursorStart(step, |fileSamples|);
      }
    }
  }

  /** The wrap-around boundary case: a 10-sample ring, cursor 8, window and step 4. */
  lemma WrapExample()
    ensures Window([0.0, 1.0, 2.0, 3.0, 4.0, 5.0, 6.0, 7.0, 8.0, 9.0], 8, 4) == [8.0, 9.0, 0.0, 1.0]
    ensures (8 + 4) % 10 == 2
  {
  }

  /** The contiguous boundary case: a 10-sample ring, cursor 3, window and step 4. */
  lemma NoWrapExample()
    ensures Window([0.0, 1.0, 2.0, 3.0, 4.0, 5.0, 6.0, 7.0, 8.0, 9.0], 3, 4) == [3.0, 4.0, 5.0, 6.0]
    ensures (3 + 4) % 10 == 7
  {
  }
}
