# Streaming engine of the LDSP-ONNX render loops

Every `render.cpp` of the repository runs the same small streaming engine
around an opaque neural network.

- **Window reads.** Fixed-size windows are cut out of finite sample arrays
  (audio files, latent `mu`/`logvar` files, or a live-input ring). Each read
  goes through a cursor that wraps at the array's end and moves on by a step.
  In block mode the step is the window size. In the windowed variants only
  the audio cursors step by `hop_size`; the latent `mu`/`logvar` cursor moves
  on by its whole `latent_dim` window.
- **Model blocks.** The model turns the windows (plus the `interpolation`
  scalar) into a block of `segment_size` output samples.
- **Per-tick emission.** A persistent counter `outputSampleCnt` decides when a
  new block is due, and each tick plays one sample of the current block on
  both channels.
- **Overlap-add.** The windowed variants keep two segment buffers that
  alternate. The head of each new block gets the tail of the previous one
  added to it.
- **Live input.** Live input is captured either into a `10 * hop_size` ring
  that is read like a file, or, in block mode, straight into the model's
  audio input at the counter.
- **GuitarLSTM_Test.** It keeps a 5-sample sliding window over a 48000-sample
  circular buffer.

The model is written in imperative Dafny, one module per `render.cpp`:

- The file's globals are the fields of an `Engine` class.
- `setup` becomes `Setup`, which returns its `bool`.
- One pass of the frame loop becomes `Tick`.
- `render` becomes `Render`, which takes the samples `audioRead` returns on
  channel 0 and returns what `audioWrite` receives on both channels.

Globals that belong together are grouped into component objects:

- `Ring.Source`: one windowed source, made of its file samples, its input
  buffer and its cursor.
- `LatentPair.PairSource`: a mu/logvar pair read through one shared cursor.
- `OverlapAdd.DoubleBuffer`: the two output segments and the active index.
- `LiveCapture.LiveRing`: the live ring and its two cursors.

Ghost fields keep the stream's history:

- `ticks`: the ticks run over all `render` calls;
- `refills`: the blocks produced so far;
- `heard`: the live samples heard.

Each engine's `Valid()` ties the concrete state to that history:

- Every cursor is the closed form `Ring.CursorAfter` of the reads done.
- The counter is `Schedule.Counter`, the tick-by-tick recursion of the
  counter machine; its closed forms are the lemmas
  `Schedule.CounterInvariant` and `Schedule.BlockIndex`.
- The live ring and the live block hold the samples heard.
- In block mode, `output` is silent before the first refill and afterwards
  holds the model's block for the inputs of the last refill (`Blocked`).
- In the windowed variants, the active segment is `Segment(b)`, the
  recursive overlap-add of the model blocks of all `b` refills so far
  (`Segmented`).

What each tick plays is a function of the global tick `t` alone, `Played`
(for the slider variant, of `t` and the slider values). Where the counter
starts at 0 it is silence for the first block or hop, then sample
`t % period` of the block in play. The exception is the top-level
lts_audioInput/render.cpp: its counter starts at `segment_size`, so tick 0
already refills and `LtsAudioInput.Played` is never the initial silence.
Every `Render` ties frame `j` of its result to `Played` at tick
`ticks + j`. The tick count and the samples heard carry over from one call
to the next, so the result does not depend on how the host groups frames
into calls.

Shared modules:

| module | content |
|---|---|
| `Ring` | window specification `Window`, the in-place two-branch copy, the cursor closed form |
| `LiveCapture` | the ring written once per tick, and the live windows in both capture modes |
| `Schedule` | the counter machine and its closed forms |
| `OverlapAdd` | the overlap-add step and the double buffer |
| `Inference` | model inputs (`Tensor`) and `model.run` |
| `ModArith` | remainder helpers |

## Model

| member | source | states |
|---|---|---|
| Ring.Window | LatentTimbreSynthesis/lts_mixedInput_windowed/render.cpp:120-133 | the window read at cursor `p`: `size` samples, entry `k` being `src[(p + k) % N]` |
| Ring.WindowContiguous | LatentTimbreSynthesis/lts_mixedInput_windowed/render.cpp:125-126 | when `p + size <= N` the window is the plain slice `src[p..p+size]`, as the no-wrap `std::copy` reads it |
| Ring.WindowWrapped | LatentTimbreSynthesis/lts_mixedInput_windowed/render.cpp:127-133 | when the window passes the end it is the tail `src[p..]` followed by the head `src[..size-remaining]`, as the two wrapping copies read it |
| Ring.Copy | LatentTimbreSynthesis/lts_mixedInput_windowed/render.cpp:126 | `std::copy` of `count` samples from `from` to position `at`: exactly those slots take the source samples, every other slot of the destination keeps its value |
| Ring.CopyWindow | LatentTimbreSynthesis/lts_mixedInput_windowed/render.cpp:122-133 | the two-branch copy (contiguous when `remaining >= size`, otherwise tail then head) leaves exactly `Window(src, p, size)` in the buffer, in either branch |
| Ring.WindowShift | LatentTimbreSynthesis/lts_mixedInput_windowed/render.cpp:138 | after the cursor moves by `hop`, entry `i` of the new window is entry `hop + i` of the old one, modulo `N` |
| Ring.WindowBehind | LatentTimbreSynthesis/lts_mixedInput_windowed/render.cpp:166 | entry `m` of the window that ends at ring position `off + k` is slot `(off + k - size + m) % N` |
| Ring.CursorAfter | LatentTimbreSynthesis/lts_mixedInput_windowed/render.cpp:138 | the cursor after `count` reads that each move it by `step` modulo `N`, always inside `[0, N)` |
| Ring.CursorStart | LatentTimbreSynthesis/lts_mixedInput_windowed/render.cpp:28-30 | before any read the cursor is at 0, as the zero-initialised globals leave it |
| Ring.CursorStep | LatentTimbreSynthesis/lts_mixedInput_windowed/render.cpp:136-138 | one more read moves the cursor from its closed form by `(p + step) % N` |
| Ring.ReadAt | LatentTimbreSynthesis/lts_mixedInput_windowed/render.cpp:163-168 | the window returned by the read after `count` earlier reads |
| Ring.ReadAtShift | LatentTimbreSynthesis/lts_mixedInput_windowed/render.cpp:150-168 | consecutive reads with step `hop < size` overlap: entry `i` of the next window is entry `hop + i` of the previous one (the audio-file windows of both windowed audio variants) |
| Ring.AdvanceWrapOnce | lts_audioInput/render.cpp:69-71 | the cursor update of that file: add the step and subtract the array length once if the sum reached it; the result never exceeds the sum and stays below the length for a cursor in range and a step no longer than the array |
| Ring.WrapOnceIsMod | lts_audioInput/render.cpp:69-71 | "add `S`, subtract `N` once if `>= N`" equals `(p + S) % N` and stays in `[0, N)` whenever `p < N` and `S <= N` |
| Ring.Source.constructor | LatentTimbreSynthesis/lts_mixedInput_windowed/render.cpp:88-99 | the loaded samples, the input vector resized to `size` zeros, the cursor at 0; valid whenever the file is non-empty and holds a window |
| Ring.WrapExample | LatentTimbreSynthesis/lts_mixedInput_windowed/render.cpp:127-133 | illustration only: the wrapping case on a 10-sample array with cursor 8 and window 4 reads samples 8, 9, 0, 1 and moves to 2 |
| Ring.NoWrapExample | LatentTimbreSynthesis/lts_mixedInput_windowed/render.cpp:125-126 | illustration only: the contiguous case with cursor 3 and window 4 reads samples 3 to 6 and moves to 7 |
| LiveCapture.Zeros | LatentTimbreSynthesis/lts_mixedInput_windowed/render.cpp:105 | `n` zero samples |
| LiveCapture.ZeroFill | LatentTimbreSynthesis/lts_mixedInput_windowed/render.cpp:105 | `std::fill(..., 0.0f)` leaves the whole array zero |
| LiveCapture.Sample | LatentTimbreSynthesis/lts_mixedInput_windowed/render.cpp:193-196 | the live sample `audioRead` delivers at tick `j`, or the zero the live buffer was filled with for a tick before the samples heard |
| LiveCapture.RingOf | LatentTimbreSynthesis/lts_mixedInput_windowed/render.cpp:195-196 | the ring contents after the samples heard were written one per tick at `(off + t) % N` over a zero ring |
| LiveCapture.RingAppend | LatentTimbreSynthesis/lts_mixedInput_windowed/render.cpp:195 | one more write changes exactly the slot at the write cursor |
| LiveCapture.RingAt | LatentTimbreSynthesis/lts_mixedInput_windowed/render.cpp:195-196 | each of the last `N` ticks' slots holds the sample of that tick (zero before capture started) |
| LiveCapture.Recent | LatentTimbreSynthesis/lts_mixedInput_windowed/render.cpp:166 | the last `size` samples heard, zero-padded at the front |
| LiveCapture.RecentWindow | LatentTimbreSynthesis/lts_mixedInput_windowed/render.cpp:166 | the ring window that ends at the write cursor is exactly the last `size` samples heard |
| LiveCapture.RecentAt | LatentTimbreSynthesis/lts_mixedInput_windowed/render.cpp:166 | entry `m` of that window is the sample heard `size - m` ticks ago |
| LiveCapture.LiveWindow | LatentTimbreSynthesis/lts_mixedInput_windowed/render.cpp:165-166 | the live window of the refill after `b` earlier ones: the `segment_size` samples heard before tick `(b+1)*hop`, zeros before capture started |
| LiveCapture.LiveWindowRecent | LatentTimbreSynthesis/lts_mixedInput_windowed/render.cpp:161-166 | at that refill, `(b+1)*hop` samples have been heard, so the live window is the most recent `segment_size` of them |
| LiveCapture.LiveWindowStable | LatentTimbreSynthesis/lts_mixedInput_windowed/render.cpp:193-197 | samples heard after a refill do not change what that refill read |
| LiveCapture.CursorGap | LatentTimbreSynthesis/lts_mixedInput_windowed/render.cpp:104-107 | at every refill the write cursor is `segment_size = 2 * hop` slots ahead of the read cursor modulo `10 * hop`, so the window never covers an unwritten slot |
| LiveCapture.SlotTick | LatentTimbreSynthesis/lts_mixedInput/render.cpp:146-147 | which tick's sample block-mode capture leaves in slot `m` of the audio input after `r` refills and `c` ticks of the current block: this block's tick for a slot already written in it, the previous block's otherwise (negative for the initial zero) |
| LiveCapture.BlockWindow | LatentTimbreSynthesis/lts_mixedInput/render.cpp:146-147 | the block-mode live input of the refill after `b` earlier ones: the `segment_size` samples of block `b`, in order |
| LiveCapture.BlockWindowRecent | LatentTimbreSynthesis/lts_mixedInput/render.cpp:122-147 | at that refill, `(b+1)*segment_size` samples have been heard, so the block is the most recent `segment_size` of them |
| LiveCapture.BlockWindowStable | LatentTimbreSynthesis/lts_mixedInput/render.cpp:146-147 | later samples do not change an earlier block |
| LiveCapture.LiveRing.constructor | LatentTimbreSynthesis/lts_mixedInput_windowed/render.cpp:104 | a ring of exactly `10 * hop_size` slots |
| LiveCapture.LiveRing.Reset | LatentTimbreSynthesis/lts_mixedInput_windowed/render.cpp:104-107 | all slots zero, write cursor `hop_size`, read cursor 0, nothing heard yet |
| LiveCapture.LiveRing.Write | LatentTimbreSynthesis/lts_mixedInput_windowed/render.cpp:193-197 | the sample lands at the write cursor and nowhere else, and the cursor moves by 1 modulo the length; the ring still holds every sample heard |
| LiveCapture.LiveRing.Read | LatentTimbreSynthesis/lts_mixedInput_windowed/render.cpp:166 | the copy at the read cursor is both the ring window there and the last `segment_size` samples heard; the cursor moves by `hop_size` |
| Schedule.EmitIndex | LatentTimbreSynthesis/lts_mixedInput_windowed/render.cpp:161-190 | the buffer index a tick writes out when it starts with counter `cnt`: 0 after the reset of a due refill (counter at or above the period), `cnt` otherwise |
| Schedule.Counter | LatentTimbreSynthesis/lts_mixedInput_windowed/render.cpp:161-199 | the counter `outputSampleCnt` after `t` ticks, tick by tick: reset to 0 when it has reached the period (186), then incremented (199), from the value `start` setup leaves |
| Schedule.RefillCount | LatentTimbreSynthesis/lts_mixedInput_windowed/render.cpp:161-186 | the refills done by the first `t` ticks: one per tick that found the counter at or above the period |
| Schedule.Block | LatentTimbreSynthesis/lts_mixedInput_windowed/render.cpp:161-190 | the refills up to and including tick `n`, which numbers the segment that tick plays (0 is the initial one) |
| Schedule.Index | LatentTimbreSynthesis/lts_mixedInput_windowed/render.cpp:189-190 | the position inside that segment which tick `n` plays: `EmitIndex` of the counter it starts with |
| Schedule.CounterInvariant | LatentTimbreSynthesis/lts_mixedInput_windowed/render.cpp:161-199 | after `t` ticks, `t + start == refills * period + counter`, the counter is at most the period, and it is 0 only before the first tick from start 0 |
| Schedule.BlockIndex | LatentTimbreSynthesis/lts_mixedInput_windowed/render.cpp:186-199 | tick `n` plays entry `(n + start) % period` of segment `(n + start) / period`: the emitted index is always below the period, so a segment's tail is never played |
| Schedule.RefillTicks | LatentTimbreSynthesis/lts_mixedInput_windowed/render.cpp:161 | tick `n` refills if and only if `n + start` is a positive multiple of the period |
| Schedule.CounterSplit | LatentTimbreSynthesis/lts_mixedInput_windowed/render.cpp:35 | the counter after `a + b` ticks is the counter after `b` ticks from where `a` ticks left it, so splitting ticks over `render` calls changes nothing |
| Schedule.RefillSplit | LatentTimbreSynthesis/lts_mixedInput_windowed/render.cpp:35 | the refills of `a + b` ticks are those of the first `a` plus those of the next `b` |
| Schedule.InitialSegmentFirst | LatentTimbreSynthesis/lts_mixedInput_windowed/render.cpp:16-35 | from counter 0, the first `period` ticks play entries `0..period-1` of the initial zero segment |
| Schedule.FullStart | lts_audioInput/render.cpp:48-99 | from counter `segment_size`, tick `n` refills if and only if `n % S == 0` (the first tick included) and plays entry `n % S` of segment `n / S + 1` |
| OverlapAdd.Combine | LatentTimbreSynthesis/lts_mixedInput_windowed/render.cpp:183-184 | the new segment: entry `i < overlap_size` is `new[i] + prev[overlap_start + i]`, every later entry is `new[i]` |
| OverlapAdd.CombineWithSilence | LatentTimbreSynthesis/lts_mixedInput_windowed/render.cpp:16-18 | against the zero-initialised previous segment the first refill's segment is the raw model block |
| OverlapAdd.AddPrevious | LatentTimbreSynthesis/lts_mixedInput_windowed/render.cpp:183-184 | the in-place loop leaves `Combine(old output, previous, overlap_size, overlap_start)` and writes only the output segment |
| OverlapAdd.DoubleBuffer.constructor | LatentTimbreSynthesis/lts_mixedInput_windowed/render.cpp:16-18 | two zero segments of `segment_size` samples, index 0 active |
| OverlapAdd.DoubleBuffer.Produce | LatentTimbreSynthesis/lts_mixedInput_windowed/render.cpp:176-184 | the active index flips; the new current segment is the overlap-add of the model block with the old one, which becomes the previous segment unchanged |
| Inference.Run | LatentTimbreSynthesis/lts_mixedInput_windowed/render.cpp:180 | `model.run` writes the model's block into the output buffer, all of it and nothing else |
| MixedInputWindowed.FillInput | LatentTimbreSynthesis/lts_mixedInput_windowed/render.cpp:120-139 | the window at the cursor lands in `input`, in both branches; the cursor becomes `(p + hop) % N`, where `hop` is the window size when `hopSize == -1` |
| MixedInputWindowed.FillLatentInput | LatentTimbreSynthesis/lts_mixedInput_windowed/render.cpp:142-148 | mu and logvar are each read at their own cursor, and each cursor moves on by a whole `latent_dim` window |
| MixedInputWindowed.FillAudioInput | LatentTimbreSynthesis/lts_mixedInput_windowed/render.cpp:150-153 | the audio window lands in `audioInput`; the cursor moves by `hop_size` |
| MixedInputWindowed.AudioWindow | LatentTimbreSynthesis/lts_mixedInput_windowed/render.cpp:165-168 | the audio input of a refill: the live window when `liveInput`, else the file window at the `hop_size` cursor |
| MixedInputWindowed.Inputs | LatentTimbreSynthesis/lts_mixedInput_windowed/render.cpp:171-174 | the model inputs in the order mu, logvar, audio, interpolation |
| MixedInputWindowed.InputsStable | LatentTimbreSynthesis/lts_mixedInput_windowed/render.cpp:193-197 | a refill's inputs depend only on the live samples heard before it |
| MixedInputWindowed.Segment | LatentTimbreSynthesis/lts_mixedInput_windowed/render.cpp:176-184 | the segment after `b` refills, always `segment_size` samples: zeros before the first refill, then the model block of each refill with the previous segment's tail added |
| MixedInputWindowed.SegmentStable | LatentTimbreSynthesis/lts_mixedInput_windowed/render.cpp:193-197 | the segment after `b` refills only depends on the samples heard before the last of them |
| MixedInputWindowed.Played | LatentTimbreSynthesis/lts_mixedInput_windowed/render.cpp:189-190 | what tick `t` writes to both channels: entry `t % hop_size` of the overlap-added segment after `t / hop_size` refills |
| MixedInputWindowed.Plays | LatentTimbreSynthesis/lts_mixedInput_windowed/render.cpp:158-199 | a render call from tick `t0` wrote `out` when every frame `j` holds `Played` at tick `t0 + j` on both channels |
| MixedInputWindowed.PlayedBlocks | LatentTimbreSynthesis/lts_mixedInput_windowed/render.cpp:180-190 | tick `t` plays entry `t % hop` of the model block of refill `t / hop - 1` plus entry `hop + t % hop` of the block of refill `t / hop - 2`, each zero when that refill has not happened |
| MixedInputWindowed.PlayedStable | LatentTimbreSynthesis/lts_mixedInput_windowed/render.cpp:189-197 | what a tick plays does not change with the samples heard after it |
| MixedInputWindowed.PlaysNext | LatentTimbreSynthesis/lts_mixedInput_windowed/render.cpp:189-190 | appending the frame of the next tick, its `Played` sample on both channels, keeps a call's output `Plays` |
| MixedInputWindowed.PlaysAt | LatentTimbreSynthesis/lts_mixedInput_windowed/render.cpp:189-190 | in a call's output that `Plays` from tick `t0`, frame `j` carries `Played(t0 + j)` on both channels |
| MixedInputWindowed.PlayedSilentStart | LatentTimbreSynthesis/lts_mixedInput_windowed/render.cpp:16-35 | with the zero-initialised segments and counter, the first `hop_size` ticks play silence |
| MixedInputWindowed.ReadSource | LatentTimbreSynthesis/lts_mixedInput_windowed/render.cpp:163-168 | one `fillInput` on a source: the window after as many reads as were done, and one more read counted |
| MixedInputWindowed.Engine.constructor | LatentTimbreSynthesis/lts_mixedInput_windowed/render.cpp:16-41 | the zero-initialised globals: counter 0, no tick, no refill, zero segments |
| MixedInputWindowed.Engine.Setup | LatentTimbreSynthesis/lts_mixedInput_windowed/render.cpp:66-117 | returns true if and only if the model loads and the mu, logvar and audio files are non-empty (the audio file even in live mode, where it is never read); then all cursors are 0, in live mode the ring is zero with cursors `hop_size`/0, `overlap_size == segment_size - hop_size`, `overlap_start == hop_size`, and the engine is valid whenever the files it reads hold a window |
| MixedInputWindowed.Engine.Install | LatentTimbreSynthesis/lts_mixedInput_windowed/render.cpp:75-114 | the successful path of `setup`: sources loaded and sized, live ring reset, overlap geometry set |
| MixedInputWindowed.Engine.InstallSources | LatentTimbreSynthesis/lts_mixedInput_windowed/render.cpp:75-99 | mu and logvar sized `latent_dim` with cursor step `latent_dim`, audio sized `segment_size` with step `hop_size`, all distinct buffers |
| MixedInputWindowed.Engine.InstallLive | LatentTimbreSynthesis/lts_mixedInput_windowed/render.cpp:102-108 | a `10 * hop_size` ring, zero with cursors `hop_size`/0 when `liveInput` |
| MixedInputWindowed.Engine.ReadAudio | LatentTimbreSynthesis/lts_mixedInput_windowed/render.cpp:165-168 | live mode reads the ring (the last `segment_size` samples heard), file mode reads the audio file; only the branch taken moves its cursor |
| MixedInputWindowed.Engine.ReadInputs | LatentTimbreSynthesis/lts_mixedInput_windowed/render.cpp:163-174 | all of a refill's reads, returning `Inputs(...)` for this refill |
| MixedInputWindowed.Engine.Refill | LatentTimbreSynthesis/lts_mixedInput_windowed/render.cpp:163-186 | one refill: the new current segment is `Combine(model(Inputs(refill)), old current)`, which is `Segment(refills)` again; the index flips, the counter is 0 |
| MixedInputWindowed.Engine.Advance | LatentTimbreSynthesis/lts_mixedInput_windowed/render.cpp:176-186 | once the inputs are read: the model block with the old segment's tail added becomes current, the old one previous, the counter 0 |
| MixedInputWindowed.Engine.RefillIfDue | LatentTimbreSynthesis/lts_mixedInput_windowed/render.cpp:161-187 | refills if and only if the global tick is a positive multiple of `hop_size`; otherwise the segments are unchanged |
| MixedInputWindowed.Engine.Emit | LatentTimbreSynthesis/lts_mixedInput_windowed/render.cpp:189-190 | the tick's output `output[outputSampleCnt]` is `current[ticks % hop_size]`, which is `Played(ticks)` |
| MixedInputWindowed.Engine.Capture | LatentTimbreSynthesis/lts_mixedInput_windowed/render.cpp:193-197 | the sample is heard (and written to the ring in live mode) without changing the segment |
| MixedInputWindowed.Engine.Count | LatentTimbreSynthesis/lts_mixedInput_windowed/render.cpp:199 | the increment gives the scheduler state after one more tick |
| MixedInputWindowed.Engine.EndTick | LatentTimbreSynthesis/lts_mixedInput_windowed/render.cpp:192-199 | the live write (live mode only) and the counter increment keep the engine valid; the sample is heard |
| MixedInputWindowed.Engine.Tick | LatentTimbreSynthesis/lts_mixedInput_windowed/render.cpp:158-199 | one frame: refill exactly on positive multiples of `hop_size`, with the segment update of that refill; emit `current[ticks % hop_size]`, which is `Played(ticks)` |
| MixedInputWindowed.Engine.Render | LatentTimbreSynthesis/lts_mixedInput_windowed/render.cpp:155-201 | one tick per frame; the samples are heard; the refills are the closed form of the global tick count; the output `Plays` from the call's first tick, so frame `j` is `Played(ticks + j)` on both channels |
| MixedInputWindowed.Engine.Frame | LatentTimbreSynthesis/lts_mixedInput_windowed/render.cpp:158-199 | one tick of a call: the frames written so far plus this one still `Plays` |
| LatentPair.FillLatentInput | LatentTimbreSynthesis/lts_latentInput_windowed/render.cpp:108-133 | both windows are read at the one shared cursor, in both branches; the cursor moves by the whole input size modulo the mu length |
| LatentPair.PairSource.constructor | LatentTimbreSynthesis/lts_latentInput_windowed/render.cpp:93-96 | both inputs resized to `latent_dim`, the shared cursor at 0 |
| LatentPair.PairSource.Read | LatentTimbreSynthesis/lts_latentInput/render.cpp:98-122 | one `fillLatentInput`: both inputs are the windows after as many reads as were done, at the same offset |
| LatentInputWindowed.Inputs | LatentTimbreSynthesis/lts_latentInput_windowed/render.cpp:147-152 | five inputs in the order mu0, logvar0, mu1, logvar1, interpolation, the first four `latent_dim` windows |
| LatentInputWindowed.Segment | LatentTimbreSynthesis/lts_latentInput_windowed/render.cpp:154-162 | the segment after `b` refills, always `segment_size` samples: zeros, then each model block with the previous tail added |
| LatentInputWindowed.Played | LatentTimbreSynthesis/lts_latentInput_windowed/render.cpp:167-168 | what tick `t` writes to both channels: entry `t % hop_size` of the overlap-added segment after `t / hop_size` refills |
| LatentInputWindowed.Plays | LatentTimbreSynthesis/lts_latentInput_windowed/render.cpp:139-170 | a render call from tick `t0` wrote `out` when every frame `j` holds `Played` at tick `t0 + j` on both channels |
| LatentInputWindowed.PlayedBlocks | LatentTimbreSynthesis/lts_latentInput_windowed/render.cpp:158-168 | tick `t` plays the head of the block of refill `t / hop - 1` plus the tail of the block of refill `t / hop - 2`, zero where a refill has not happened |
| LatentInputWindowed.PlaysNext | LatentTimbreSynthesis/lts_latentInput_windowed/render.cpp:167-168 | appending the next tick's `Played` frame keeps a call's output `Plays` |
| LatentInputWindowed.PlaysAt | LatentTimbreSynthesis/lts_latentInput_windowed/render.cpp:167-168 | frame `j` of a call's output from tick `t0` is `Played(t0 + j)` on both channels |
| LatentInputWindowed.PlayedSilentStart | LatentTimbreSynthesis/lts_latentInput_windowed/render.cpp:14-30 | the first `hop_size` ticks play silence |
| LatentInputWindowed.Engine.constructor | LatentTimbreSynthesis/lts_latentInput_windowed/render.cpp:14-30 | the zero-initialised globals |
| LatentInputWindowed.Engine.Setup | LatentTimbreSynthesis/lts_latentInput_windowed/render.cpp:56-105 | returns true if and only if the model loads and all four latent files are non-empty; then the cursors are 0, the overlap geometry is set, and the engine is valid whenever each pair's files have equal lengths and hold a latent window |
| LatentInputWindowed.Engine.Install | LatentTimbreSynthesis/lts_latentInput_windowed/render.cpp:93-102 | the two pairs sized `latent_dim`, overlap geometry `segment_size - hop_size` / `hop_size` |
| LatentInputWindowed.Engine.ReadInputs | LatentTimbreSynthesis/lts_latentInput_windowed/render.cpp:144-152 | each pair's own cursor moves by `latent_dim` modulo its length; the inputs are this refill's |
| LatentInputWindowed.Engine.Refill | LatentTimbreSynthesis/lts_latentInput_windowed/render.cpp:144-164 | the overlap-add refill with the five latent inputs: the current segment becomes `Combine(model(Inputs(refill)), old current)` and stays `Segment(refills)` |
| LatentInputWindowed.Engine.RefillIfDue | LatentTimbreSynthesis/lts_latentInput_windowed/render.cpp:142-165 | refills if and only if the global tick is a positive multiple of `hop_size` |
| LatentInputWindowed.Engine.Tick | LatentTimbreSynthesis/lts_latentInput_windowed/render.cpp:139-170 | one frame: refill exactly on positive multiples of `hop_size`; emit `current[ticks % hop_size]`, which is `Played(ticks)` |
| LatentInputWindowed.Engine.Emit | LatentTimbreSynthesis/lts_latentInput_windowed/render.cpp:167-168 | the tick's output is `current[ticks % hop_size]`, which is `Played(ticks)` |
| LatentInputWindowed.Engine.Count | LatentTimbreSynthesis/lts_latentInput_windowed/render.cpp:170 | the increment gives the scheduler state after one more tick |
| LatentInputWindowed.Engine.Render | LatentTimbreSynthesis/lts_latentInput_windowed/render.cpp:136-172 | refills as the closed form of the global tick count; the output `Plays` from the call's first tick |
| LatentInputWindowed.Engine.Frame | LatentTimbreSynthesis/lts_latentInput_windowed/render.cpp:139-170 | one tick of a call: the frames written so far plus this one still `Plays` |
| LatentInput.Inputs | LatentTimbreSynthesis/lts_latentInput/render.cpp:136-141 | five inputs in the order mu0, logvar0, mu1, logvar1, interpolation |
| LatentInput.Played | LatentTimbreSynthesis/lts_latentInput/render.cpp:131-150 | what tick `t` writes to both channels: 0 for the first `segment_size` ticks (the zero-initialised `output`), then entry `t % segment_size` of the model block of refill `t / segment_size - 1` |
| LatentInput.PlayedFrom | LatentTimbreSynthesis/lts_latentInput/render.cpp:149-150 | a tick whose block is the zero `output` or the model block of its last refill plays `Played(t)` |
| LatentInput.Engine.constructor | LatentTimbreSynthesis/lts_latentInput/render.cpp:12-27 | the zero-initialised globals, `output` all zeros |
| LatentInput.Engine.Setup | LatentTimbreSynthesis/lts_latentInput/render.cpp:53-95 | returns true if and only if the model loads and all four latent files are non-empty; then the cursors are 0, and the engine is valid whenever each pair's files have equal lengths and hold a latent window |
| LatentInput.Engine.ReadInputs | LatentTimbreSynthesis/lts_latentInput/render.cpp:133-141 | each pair's cursor moves by `latent_dim`; the inputs are this refill's |
| LatentInput.Engine.Refill | LatentTimbreSynthesis/lts_latentInput/render.cpp:133-146 | `output` becomes the model block of this refill's inputs, the counter 0 |
| LatentInput.Engine.RefillIfDue | LatentTimbreSynthesis/lts_latentInput/render.cpp:131-147 | refills if and only if the global tick is a positive multiple of `segment_size`; between refills `output` is unchanged |
| LatentInput.Engine.Tick | LatentTimbreSynthesis/lts_latentInput/render.cpp:128-152 | refills exactly on positive multiples of `segment_size`, `output` unchanged otherwise; emits `output[ticks % segment_size]`, which is `Played(ticks)` |
| LatentInput.Engine.Emit | LatentTimbreSynthesis/lts_latentInput/render.cpp:149-150 | the tick's output is `output[ticks % segment_size]`, which is `Played(ticks)` |
| LatentInput.Engine.Count | LatentTimbreSynthesis/lts_latentInput/render.cpp:152 | the increment gives the scheduler state after one more tick |
| LatentInput.Engine.Render | LatentTimbreSynthesis/lts_latentInput/render.cpp:125-154 | refills as the closed form of the global tick count; frame `j` is `Played(ticks + j)` on both channels |
| AudioInputWindowed.FillAudioInput | LatentTimbreSynthesis/lts_audioInput_windowed/render.cpp:79-95 | the window at the cursor lands in `audioInput`, in both branches; the cursor becomes `(p + hopSize) % N` |
| AudioInputWindowed.FirstWindow | LatentTimbreSynthesis/lts_audioInput_windowed/render.cpp:106-109 | source 0 of a refill: the live window when `liveInput`, else file 0's window |
| AudioInputWindowed.Inputs | LatentTimbreSynthesis/lts_audioInput_windowed/render.cpp:110-115 | inputs in the order audio0, audio1, interpolation; source 1 is always file 1's window |
| AudioInputWindowed.InputsStable | LatentTimbreSynthesis/lts_audioInput_windowed/render.cpp:134-138 | a refill's inputs depend only on the live samples heard before it |
| AudioInputWindowed.Segment | LatentTimbreSynthesis/lts_audioInput_windowed/render.cpp:117-125 | the segment after `b` refills, always `segment_size` samples: zeros, then each model block with the previous tail added |
| AudioInputWindowed.SegmentStable | LatentTimbreSynthesis/lts_audioInput_windowed/render.cpp:133-138 | the segment after `b` refills only depends on the samples heard before the last of them |
| AudioInputWindowed.Played | LatentTimbreSynthesis/lts_audioInput_windowed/render.cpp:130-131 | what tick `t` writes to both channels: entry `t % hop_size` of the overlap-added segment after `t / hop_size` refills |
| AudioInputWindowed.Plays | LatentTimbreSynthesis/lts_audioInput_windowed/render.cpp:100-140 | a render call from tick `t0` wrote `out` when every frame `j` holds `Played` at tick `t0 + j` on both channels |
| AudioInputWindowed.PlayedBlocks | LatentTimbreSynthesis/lts_audioInput_windowed/render.cpp:121-131 | tick `t` plays the head of the block of refill `t / hop - 1` plus the tail of the block of refill `t / hop - 2`, zero where a refill has not happened |
| AudioInputWindowed.PlayedStable | LatentTimbreSynthesis/lts_audioInput_windowed/render.cpp:130-138 | what a tick plays does not change with the samples heard after it |
| AudioInputWindowed.PlaysNext | LatentTimbreSynthesis/lts_audioInput_windowed/render.cpp:130-131 | appending the next tick's `Played` frame keeps a call's output `Plays` |
| AudioInputWindowed.PlaysAt | LatentTimbreSynthesis/lts_audioInput_windowed/render.cpp:130-131 | frame `j` of a call's output from tick `t0` is `Played(t0 + j)` on both channels |
| AudioInputWindowed.PlayedSilentStart | LatentTimbreSynthesis/lts_audioInput_windowed/render.cpp:14-31 | the first `hop_size` ticks play silence |
| AudioInputWindowed.ReadSource | LatentTimbreSynthesis/lts_audioInput_windowed/render.cpp:109-110 | one file read with step `hop_size` |
| AudioInputWindowed.Engine.constructor | LatentTimbreSynthesis/lts_audioInput_windowed/render.cpp:14-31 | the zero-initialised globals |
| AudioInputWindowed.Engine.Setup | LatentTimbreSynthesis/lts_audioInput_windowed/render.cpp:34-76 | returns true if and only if the model loads and both audio files are non-empty (file 0 even in live mode, where it is never read); then cursors 0, in live mode the ring zero with cursors `hop_size`/0, overlap geometry set, engine valid whenever the files it reads hold a window |
| AudioInputWindowed.Engine.Install | LatentTimbreSynthesis/lts_audioInput_windowed/render.cpp:58-73 | the successful path of `setup` |
| AudioInputWindowed.Engine.InstallSources | LatentTimbreSynthesis/lts_audioInput_windowed/render.cpp:58-59 | both audio inputs sized `segment_size`, step `hop_size`, distinct |
| AudioInputWindowed.Engine.InstallLive | LatentTimbreSynthesis/lts_audioInput_windowed/render.cpp:61-67 | the `10 * hop_size` zero ring with cursors `hop_size`/0 in live mode |
| AudioInputWindowed.Engine.ReadFirst | LatentTimbreSynthesis/lts_audioInput_windowed/render.cpp:105-109 | source 0 from the ring (the last `segment_size` samples heard) or from file 0 |
| AudioInputWindowed.Engine.ReadInputs | LatentTimbreSynthesis/lts_audioInput_windowed/render.cpp:105-115 | all reads of a refill, returning this refill's `Inputs` |
| AudioInputWindowed.Engine.Refill | LatentTimbreSynthesis/lts_audioInput_windowed/render.cpp:105-127 | the overlap-add refill with the audio inputs: the current segment becomes `Combine(model(Inputs(refill)), old current)` and stays `Segment(refills)` |
| AudioInputWindowed.Engine.Advance | LatentTimbreSynthesis/lts_audioInput_windowed/render.cpp:117-127 | once the inputs are read: the model block with the old segment's tail added becomes current, the old one previous, the counter 0 |
| AudioInputWindowed.Engine.RefillIfDue | LatentTimbreSynthesis/lts_audioInput_windowed/render.cpp:103-128 | refills if and only if the global tick is a positive multiple of `hop_size` |
| AudioInputWindowed.Engine.Emit | LatentTimbreSynthesis/lts_audioInput_windowed/render.cpp:130-131 | the tick's output is `current[ticks % hop_size]`, which is `Played(ticks)` |
| AudioInputWindowed.Engine.Capture | LatentTimbreSynthesis/lts_audioInput_windowed/render.cpp:133-138 | the sample is heard (and written to the ring in live mode) without changing the segment |
| AudioInputWindowed.Engine.Count | LatentTimbreSynthesis/lts_audioInput_windowed/render.cpp:140 | the increment gives the scheduler state after one more tick |
| AudioInputWindowed.Engine.EndTick | LatentTimbreSynthesis/lts_audioInput_windowed/render.cpp:133-140 | the live write after emission and the counter increment keep the engine valid; the sample is heard |
| AudioInputWindowed.Engine.Tick | LatentTimbreSynthesis/lts_audioInput_windowed/render.cpp:100-140 | one frame: refill exactly on positive multiples of `hop_size`, with that refill's segment update; emit `current[ticks % hop_size]`, which is `Played(ticks)` |
| AudioInputWindowed.Engine.Render | LatentTimbreSynthesis/lts_audioInput_windowed/render.cpp:97-142 | one tick per frame; the samples are heard; refills as the closed form of the global tick count; the output `Plays` from the call's first tick |
| AudioInputWindowed.Engine.Frame | LatentTimbreSynthesis/lts_audioInput_windowed/render.cpp:100-140 | one tick of a call: the frames written so far plus this one still `Plays` |
| MixedInput.FillInput | LatentTimbreSynthesis/lts_mixedInput/render.cpp:85-101 | the window at the cursor lands in `input`; the cursor moves by the whole window modulo `N` |
| MixedInput.AudioWindow | LatentTimbreSynthesis/lts_mixedInput/render.cpp:124-133 | the audio input of a refill: the live block when `liveInput`, else the audio file's window |
| MixedInput.Inputs | LatentTimbreSynthesis/lts_mixedInput/render.cpp:131-134 | the model inputs in the order mu, logvar, audio, interpolation |
| MixedInput.InputsStable | LatentTimbreSynthesis/lts_mixedInput/render.cpp:146-147 | a refill's inputs depend only on the live samples heard before it |
| MixedInput.Played | LatentTimbreSynthesis/lts_mixedInput/render.cpp:122-143 | what tick `t` writes to both channels: 0 for the first `segment_size` ticks, then entry `t % segment_size` of the model block of refill `t / segment_size - 1`, whose audio input holds the live samples heard up to it in live mode |
| MixedInput.PlayedStable | LatentTimbreSynthesis/lts_mixedInput/render.cpp:142-147 | what a tick plays does not change with the samples heard after it |
| MixedInput.PlayedFrom | LatentTimbreSynthesis/lts_mixedInput/render.cpp:142-143 | a tick whose block is the zero `output` (no refill yet) or the model block of its last refill plays `Played(t)` |
| MixedInput.ReadSource | LatentTimbreSynthesis/lts_mixedInput/render.cpp:104-114 | one `fillInput` through `fillLatentInput` or `fillAudioInput` |
| MixedInput.Engine.constructor | LatentTimbreSynthesis/lts_mixedInput/render.cpp:12-32 | the zero-initialised globals, `output` all zeros |
| MixedInput.Engine.Setup | LatentTimbreSynthesis/lts_mixedInput/render.cpp:59-82 | returns true if and only if the audio file is non-empty, whatever the model and latent files do; then cursors 0, and the engine is valid whenever the latent files hold a window and the audio file does too unless live input replaces it |
| MixedInput.Engine.ReadInputs | LatentTimbreSynthesis/lts_mixedInput/render.cpp:124-134 | in live mode the audio input is not read but is exactly the last `segment_size` samples heard, in order; in file mode it is the file window |
| MixedInput.Engine.Refill | LatentTimbreSynthesis/lts_mixedInput/render.cpp:124-139 | `output` becomes the model block of this refill's inputs, the counter 0 |
| MixedInput.Engine.RefillIfDue | LatentTimbreSynthesis/lts_mixedInput/render.cpp:122-140 | refills if and only if the global tick is a positive multiple of `segment_size` |
| MixedInput.Engine.Store | LatentTimbreSynthesis/lts_mixedInput/render.cpp:146-147 | live mode writes the sample at `audioInput[outputSampleCnt]` and nowhere else; file mode leaves `audioInput` unchanged |
| MixedInput.Engine.Emit | LatentTimbreSynthesis/lts_mixedInput/render.cpp:142-143 | the tick's output is `output[ticks % segment_size]`, which is `Played(ticks)` |
| MixedInput.Engine.Count | LatentTimbreSynthesis/lts_mixedInput/render.cpp:149 | the increment gives the scheduler state after one more tick |
| MixedInput.Engine.EndTick | LatentTimbreSynthesis/lts_mixedInput/render.cpp:145-149 | the live write at the counter, then the increment; the sample is heard |
| MixedInput.Engine.Tick | LatentTimbreSynthesis/lts_mixedInput/render.cpp:119-149 | refills exactly on positive multiples of `segment_size`; emits `Played(ticks)`: zero for the first `segment_size` ticks, then the current block's entry |
| MixedInput.Engine.Render | LatentTimbreSynthesis/lts_mixedInput/render.cpp:116-151 | the samples are heard; refills as the closed form of the global tick count; frame `j` is `Played(ticks + j)` on both channels |
| AudioInput.FillAudioInput | LatentTimbreSynthesis/lts_audioInput/render.cpp:53-69 | the window at the cursor lands in `audioInput`; the cursor moves by `segment_size` modulo `N` |
| AudioInput.FirstWindow | LatentTimbreSynthesis/lts_audioInput/render.cpp:80-81 | source 0 of a refill: the live block in live mode, file 0's window otherwise |
| AudioInput.Inputs | LatentTimbreSynthesis/lts_audioInput/render.cpp:84-87 | inputs in the order audio0, audio1, interpolation; source 1 is always file 1's window |
| AudioInput.InputsStable | LatentTimbreSynthesis/lts_audioInput/render.cpp:99-100 | a refill's inputs depend only on the live samples heard before it |
| AudioInput.Played | LatentTimbreSynthesis/lts_audioInput/render.cpp:77-96 | what tick `t` writes to both channels: 0 for the first `segment_size` ticks, then entry `t % segment_size` of the model block of refill `t / segment_size - 1`, run with the given `interpolation` |
| AudioInput.PlayedStable | LatentTimbreSynthesis/lts_audioInput/render.cpp:95-100 | what a tick plays does not change with the samples heard after it |
| AudioInput.PlayedFrom | LatentTimbreSynthesis/lts_audioInput/render.cpp:95-96 | a tick whose block is the zero `output` or the model block of its last refill plays `Played(t)` |
| AudioInput.ReadSource | LatentTimbreSynthesis/lts_audioInput/render.cpp:80-82 | one file read, its own cursor moved by the window |
| AudioInput.Engine.constructor | LatentTimbreSynthesis/lts_audioInput/render.cpp:12-21 | the zero-initialised globals |
| AudioInput.Engine.Setup | LatentTimbreSynthesis/lts_audioInput/render.cpp:25-50 | returns true if and only if both audio files are non-empty; a model that does not load is not fatal; then cursors 0, and the engine is valid whenever file 1 holds a block and file 0 does too unless live input replaces it |
| AudioInput.Engine.ReadInputs | LatentTimbreSynthesis/lts_audioInput/render.cpp:79-87 | live mode reuses `audioInput[0]`, which is the last `segment_size` samples heard; file 1 is always read |
| AudioInput.Engine.Refill | LatentTimbreSynthesis/lts_audioInput/render.cpp:79-92 | `output` becomes the model block, the counter 0 |
| AudioInput.Engine.RefillIfDue | LatentTimbreSynthesis/lts_audioInput/render.cpp:77-93 | refills if and only if the global tick is a positive multiple of `segment_size` |
| AudioInput.Engine.Store | LatentTimbreSynthesis/lts_audioInput/render.cpp:98-100 | live mode overwrites only `audioInput[0][outputSampleCnt]` |
| AudioInput.Engine.Emit | LatentTimbreSynthesis/lts_audioInput/render.cpp:95-96 | the tick's output is `output[ticks % segment_size]`, which is `Played(ticks)` |
| AudioInput.Engine.Count | LatentTimbreSynthesis/lts_audioInput/render.cpp:102 | the increment gives the scheduler state after one more tick |
| AudioInput.Engine.EndTick | LatentTimbreSynthesis/lts_audioInput/render.cpp:98-102 | the live write at the counter, then the increment; the sample is heard |
| AudioInput.Engine.Tick | LatentTimbreSynthesis/lts_audioInput/render.cpp:74-102 | refills exactly on positive multiples of `segment_size`; emits `Played(ticks)`: zero for the first `segment_size` ticks, then the current block's entry |
| AudioInput.Engine.Render | LatentTimbreSynthesis/lts_audioInput/render.cpp:71-104 | the samples are heard; refills as the closed form of the global tick count; frame `j` is `Played(ticks + j)` on both channels |
| AudioInputGui.Engine.constructor | LatentTimbreSynthesis/lts_audioInput_gui/render.cpp:14-24 | the zero-initialised globals, `interpolation` 0.5 |
| AudioInputGui.Engine.Setup | LatentTimbreSynthesis/lts_audioInput_gui/render.cpp:31-61 | returns true if and only if both audio files are non-empty; a model failure is not fatal; then cursors 0, and the engine is valid whenever file 1 holds a block and file 0 does too unless live input replaces it |
| AudioInputGui.BlockSlider | LatentTimbreSynthesis/lts_audioInput_gui/render.cpp:84-104 | the interpolation of the block tick `t` of a call from `t0` plays: the slider value read at the top of the call (84) once a refill of the call has run `model.run` with it, the previous interpolation before that |
| AudioInputGui.NextRefill | LatentTimbreSynthesis/lts_audioInput_gui/render.cpp:89-104 | the first refilling tick at or after `t0`: a positive multiple of `segment_size`, less than a block after `t0` when `t0 > 0` |
| AudioInputGui.CallBoundary | LatentTimbreSynthesis/lts_audioInput_gui/render.cpp:84-104 | a tick of a call from `t0` plays a block computed during the call if and only if it is at or after `NextRefill(t0)` |
| AudioInputGui.PlayedInCall | LatentTimbreSynthesis/lts_audioInput_gui/render.cpp:84-108 | such a tick plays `Played` with the call's slider value from `NextRefill(t0)` on and with the previous block's interpolation before it |
| AudioInputGui.Engine.ReadInputs | LatentTimbreSynthesis/lts_audioInput_gui/render.cpp:91-99 | as in lts_audioInput, with the current `interpolation` as third input |
| AudioInputGui.Engine.Refill | LatentTimbreSynthesis/lts_audioInput_gui/render.cpp:91-104 | `output` becomes the model block of this refill's inputs |
| AudioInputGui.Engine.RefillIfDue | LatentTimbreSynthesis/lts_audioInput_gui/render.cpp:89-105 | refills if and only if the global tick is a positive multiple of `segment_size` |
| AudioInputGui.Engine.Store | LatentTimbreSynthesis/lts_audioInput_gui/render.cpp:110-112 | live mode overwrites only `audioInput[0][outputSampleCnt]` |
| AudioInputGui.Engine.Emit | LatentTimbreSynthesis/lts_audioInput_gui/render.cpp:107-108 | the tick's output is `output[ticks % segment_size]`, which is `Played(ticks)` with the interpolation the block was computed with |
| AudioInputGui.Engine.Count | LatentTimbreSynthesis/lts_audioInput_gui/render.cpp:114 | the increment gives the scheduler state after one more tick |
| AudioInputGui.Engine.EndTick | LatentTimbreSynthesis/lts_audioInput_gui/render.cpp:110-114 | the live write, then the increment; the sample is heard |
| AudioInputGui.Engine.Tick | LatentTimbreSynthesis/lts_audioInput_gui/render.cpp:86-114 | refills exactly on positive multiples of `segment_size`; emits `Played(ticks)` with the interpolation of the block in play |
| AudioInputGui.Engine.Render | LatentTimbreSynthesis/lts_audioInput_gui/render.cpp:82-116 | `interpolation` takes the slider value once, before the loop; frame `j` is `Played(ticks + j)` on both channels, with the slider value for blocks computed during the call and the previous interpolation before the call's first refill |
| AudioInputGui.Engine.Play | LatentTimbreSynthesis/lts_audioInput_gui/render.cpp:86-115 | the frame loop once the slider is read, with the same per-frame statement |
| AudioInputGui.Engine.Frame | LatentTimbreSynthesis/lts_audioInput_gui/render.cpp:86-114 | one frame of a call from `t0`: the tick's sample is `Played` at that tick with `BlockSlider`, whatever the call hears after it |
| LtsAudioInput.FillAudioInput | lts_audioInput/render.cpp:54-72 | the window at the cursor lands in `audioInput`; the subtract-once update gives `(p + S) % N`, inside `[0, N)` |
| LtsAudioInput.Inputs | lts_audioInput/render.cpp:82-88 | inputs audio0, audio1, interpolation, each file windowed with its own cursor |
| LtsAudioInput.Played | lts_audioInput/render.cpp:80-97 | what tick `t` writes to both channels: entry `t % segment_size` of the model block of refill `t / segment_size`; the counter starts at `segment_size` (48), so there is no initial silence |
| LtsAudioInput.ReadSource | lts_audioInput/render.cpp:82-83 | one file read with the subtract-once cursor |
| LtsAudioInput.Engine.constructor | lts_audioInput/render.cpp:12-21 | the zero-initialised globals |
| LtsAudioInput.Engine.Setup | lts_audioInput/render.cpp:23-51 | returns true if and only if both files are non-empty; the counter starts at `segment_size` |
| LtsAudioInput.Engine.ReadInputs | lts_audioInput/render.cpp:82-88 | both cursors move on; the inputs are this refill's |
| LtsAudioInput.Engine.Refill | lts_audioInput/render.cpp:82-93 | `output` becomes the model block, the counter 0 |
| LtsAudioInput.Engine.RefillIfDue | lts_audioInput/render.cpp:80-94 | refills if and only if the global tick is a multiple of `segment_size`, tick 0 included |
| LtsAudioInput.Engine.Tick | lts_audioInput/render.cpp:77-99 | tick `t` is segment `t / S + 1` refilled: it plays entry `t % S` of the model block of window `t / S`, so no zero segment is ever played |
| LtsAudioInput.Engine.Render | lts_audioInput/render.cpp:74-101 | both channels equal; every output sample is that function of the global tick |
| GuitarLstm.ReadWindow | GuitarLSTM_Test/render.cpp:38-45 | in both branches, `input[k] == circBuff[(readPointer + k) % circBuffLength]` |
| GuitarLstm.Advance | GuitarLSTM_Test/render.cpp:53-56 | `if (++p >= L) p = 0` is `(p + 1) % L`, inside `[0, L)` |
| GuitarLstm.Engine.constructor | GuitarLSTM_Test/render.cpp:10-16 | the zero-initialised globals: `circBuff`, `input` and `output` all zeros |
| GuitarLstm.Engine.Setup | GuitarLSTM_Test/render.cpp:19-30 | always returns true; the write cursor starts `inputSize - 1` ahead of the read cursor at 0 |
| GuitarLstm.Engine.Capture | GuitarLSTM_Test/render.cpp:36 | the live sample is written at the write cursor and nowhere else |
| GuitarLstm.Engine.ReadRecent | GuitarLSTM_Test/render.cpp:38-45 | the window at the read cursor is the last five samples heard, zeros before the first |
| GuitarLstm.Engine.MoveCursors | GuitarLSTM_Test/render.cpp:53-56 | both cursors move by 1 and keep `writePointer == (readPointer + inputSize - 1) % circBuffLength` |
| GuitarLstm.Engine.Tick | GuitarLSTM_Test/render.cpp:34-57 | only `circBuff[writePointer]`, the window, `output` and the cursors change; the window is the last five samples heard, zero-led in the first ticks; the tick plays its own live sample |
| GuitarLstm.Engine.Render | GuitarLSTM_Test/render.cpp:32-58 | passthrough: both channels of frame `j` carry live sample `j` |

## Left out

- The ONNX runtime (`OrtModel::setup` and `run`) is an arbitrary function from the input list to a block of `segment_size` samples (one sample in GuitarLSTM_Test). `setup`'s result becomes a `modelLoaded` parameter.
- `read_binary_file` and `AudioFileUtilities::loadMono` are not modelled. Their results are `Setup` parameters, empty on failure.
- `audioRead`/`audioWrite` are a sequence of input samples and a returned sequence of frames; `printf` logging is not modelled.
- `Gui`/`GuiController`: the slider value is a parameter of `Render`. Its declared range 0..1 is not enforced.
- The `liveInput` flag of each file is a constructor parameter, so both settings are covered.
- Samples are `real`; floating-point rounding is not modelled.
- AutoGuitarAmp_Test/render.cpp is not part of this model. It has no buffering logic of its own.
- The state after a failed `setup` is not described: the host does not run `render` then.
- Undefined behaviour the code does not guard against is assumed away by `requires`/`Fits`:
  - an empty source;
  - a source shorter than its window;
  - mu and logvar files of unequal length.
- Every `Setup` promises a valid engine only when the files it reads hold a window (`Fits`); a file that live input replaces only has to be non-empty. With shorter files the source can go out of bounds (for example, a copy of `segment_size` samples out of a 100-sample file).
- LatentPair.FillLatentInput: requires equal mu/logvar lengths and equal input sizes. With unequal lengths the source can copy out of bounds. When logvar is the shorter file, the contiguous branch can read past its end (lts_latentInput_windowed/render.cpp:120). When logvar is the longer file, the wrap branch copies all of logvar from the cursor, which can write past the end of `logvarInput` (lts_latentInput_windowed/render.cpp:126).
- Sources and live rings are created inside `Setup`, at the point where `setup` resizes their vectors. In the windowed live variants the ring object is created in file mode too, but stays unused there.
- A refill's result is stated through the current and previous segments, not as a log of every segment produced.
- In lts_mixedInput/render.cpp the one-line wrappers `fillLatentInput` and `fillAudioInput` are modelled by `MixedInput.ReadSource`, called once per source.
- In the files where a model failure is only printed (lts_mixedInput, lts_audioInput, lts_audioInput_gui, lts_audioInput at top level, GuitarLSTM_Test), `Setup`'s `modelLoaded` parameter does not affect the result.
- GuitarLSTM_Test runs the model and stores its result in `output`, but nothing reads that value. The model states that `output` holds the model's value and nothing more.
