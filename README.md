# Step-sequencer engine, modelled in Dafny

This project models the sequencer engine of a browser step sequencer. The
engine plays one stereo recording that is cut into one-bar segments, one
segment per channel. A channel × bar grid of 0/1 flags (the pattern) says
which channels sound in which bar. On every audio callback the engine
fills the two output buffers. While stopped it writes silence. While playing
it does this for each frame: it adds up the recording samples of the
channels that are on in the current bar, writes the sum to both outputs, and
moves the playhead on by one sample. The playhead loops over
`bars × blockLength` samples.

Modules:

- `Playhead` (playhead.dfy): the block length in samples from the sample
  rate and tempo, the bar a playhead position lies in, the one-frame step
  and its n-fold iteration `Advance`, and their modular-arithmetic laws.
- `Pattern` (pattern.dfy): the shape of the grid (`IsGrid`: at least one
  channel and one bar, rectangular, every flag 0 or 1), the flag that a
  write stores, and the grid after one write.
- `Mixing` (mixing.dfy): the specification of one output frame. `SampleIndex`
  is the recording index of a channel at the playhead. `ChannelSample` is
  what one channel adds. `Mix` is the sum over the channels in order.
  `RenderedFrame` is frame i of a render. The lemmas prove channel
  independence, silence, locality of pattern edits, and that rendering in
  blocks composes.
- `Engine` (engine.dfy): the class `Sequencer` holding the state the
  original keeps in module globals. It has `channels`, `blockLength`,
  `position` and `playing`, with `Valid()` as its invariant (a well-formed
  grid and `position == 0 || position < bars × blockLength`). It also has
  the transport, the accessors, and the render callback `ProcessAudio`.
  The class `AudioBuffer` holds the decoded recording as two read-only
  sample arrays of equal length.

The render callback works in place on the caller's two output arrays.
`ProcessAudio` runs the outer per-frame loop and advances the playhead.
The per-channel inner loop of one frame is the method `MixFrame`, and the
stopped branch's zero-fill loop is `FillSilence`. They are kept as separate
methods so that each loop's proof stays small. Together they perform the
same writes in the same order as the single callback.

Samples are `real` and are added exactly. The sample rate, the tempo and
the recording are parameters: the constructor takes the first two, and the
render callback takes the recording.

## Model

| member | source | states |
|---|---|---|
| Playhead.BlockLength | index.js:93-94 | the block length is the floor of sampleRate·60·bpb / bpm: r·bpm ≤ sampleRate·60·bpb < (r+1)·bpm |
| Playhead.DemoBlockLength | index.js:18-36 | for 44100 Hz, 100 BPM and 4 beats per bar, a bar is 105840 samples, and the 16-bar loop is 1693440 samples |
| Playhead.BarOf | index.js:128-133 | the bar is 0 when the block length is 0, otherwise the floor of position / blockLength (r·bl ≤ position < (r+1)·bl) |
| Playhead.BarInRange | index.js:211-222 | a playhead inside the loop of bars × blockLength samples is in a bar below the bar count, so the flag lookup stays inside the row |
| Playhead.NextPosition | index.js:235-239 | one frame moves the playhead to 0 or into the loop; inside a non-empty loop it moves to (position + 1) mod loopLength |
| Playhead.Advance | index.js:211-242 | after any number of frames, the playhead is still 0 or inside the loop |
| Playhead.AdvanceIsModulo | index.js:235-239 | after n frames from a position inside the loop, the playhead is (position + n) mod loopLength |
| Playhead.AdvanceCompose | index.js:184-242 | advancing a frames and then b frames is advancing a + b frames, so consecutive callbacks continue one another |
| Playhead.LoopClosure | index.js:211-239 | rendering exactly one loop length of frames returns the playhead to where it started |
| Pattern.IsGrid | index.js:30-36 | the grid shape the engine keeps: at least one channel and one bar, rows of equal length, and every flag 0 or 1, so every flag is already its own normalised Flag value (index.js:142) |
| Pattern.Bars | index.js:118-120 | the bar count read from row 0 is positive and is the length of every row |
| Pattern.Flag | index.js:142 | the stored flag is 0 or 1, and it is 1 exactly when the requested value is 1 |
| Pattern.Write | index.js:141-143 | one write keeps the grid well formed and of the same size, stores Flag(v) in the cell, and leaves every other cell unchanged |
| Pattern.WriteKeepsOtherColumns | index.js:141-143 | a write leaves every other bar's column of flags unchanged |
| Mixing.SampleIndex | index.js:223-224 | the index blockLength·chn + position mod blockLength lies in channel chn's segment [bl·chn, bl·(chn+1)), at the playhead's offset within its bar |
| Mixing.ChannelSample | index.js:219-231 | both directions: when the block length is positive, the channel's flag in the current bar is 1 and its index is below the recording length, it adds the recording sample at that index; in every other case it adds 0 |
| Mixing.MixPrefix | index.js:216-233 | the running sum of the first k channels' contributions in channel order; with a zero block length no channel reads the recording and the sum is 0 |
| Mixing.Mix | index.js:216-233 | the full frame, the sum over all channels; when no channel contributes (all off, or every index past the end of the recording) the frame is 0 |
| Mixing.RenderedFrame | index.js:213-242 | frame i of a render started at a position inside the loop is the mix at (start + i) mod loopLength |
| Mixing.MixSingleChannel | index.js:219-233 | when every other channel is off in the current bar, the frame equals exactly the one remaining channel's contribution |
| Mixing.MixSilentBar | index.js:219-233 | a bar in which every channel is off renders 0 |
| Mixing.MixReadsOnlyCurrentBar | index.js:220-222 | two patterns that agree on the current bar's column render the same frame |
| Mixing.MixWithoutChannel | index.js:219-233 | switching channel a off in the current bar lowers the frame by exactly channel a's contribution |
| Mixing.MixIgnoresEditElsewhere | index.js:220-222 | writing a flag in a bar other than the current one does not change the current frame |
| Mixing.RenderedFrameCompose | index.js:213-242 | frame i of a render that starts where an earlier a-frame render stopped is frame a + i of one longer render |
| Engine.AudioBuffer.constructor | index.js:201-205 | the recording is two sample arrays of equal length, and that length bounds the reads |
| Engine.Sequencer.Valid | index.js:235-239 | the engine invariant: a well-formed grid, and the playhead at 0 or inside the loop, so its bar indexes a real column of the grid |
| Engine.Sequencer.LoopLength | index.js:211 | seqLength, read from row 0, is every row's length times the block length, and it is 0 exactly when the block length is 0 |
| Engine.Sequencer.constructor | index.js:30-57 | a new engine holds the initial pattern and is stopped at position 0; its block length is the block-length formula |
| Engine.Sequencer.Play | index.js:102-107 | afterwards the engine is playing with the playhead at 0, whatever the prior state; the pattern is untouched |
| Engine.Sequencer.Stop | index.js:110-115 | afterwards the engine is stopped with the playhead at 0, whatever the prior position; the pattern is untouched |
| Engine.Sequencer.CountBars | index.js:118-120 | the bar count is positive and is the length of every row |
| Engine.Sequencer.CountChannels | index.js:123-125 | the channel count is the number of rows, each row CountBars() long |
| Engine.Sequencer.GetBar | index.js:128-133 | the bar is 0 for a zero block length, otherwise the floor of position / blockLength, and it is always below CountBars() |
| Engine.Sequencer.GetBlock | index.js:136-138 | the cell's flag, which is always 0 or 1 |
| Engine.Sequencer.SetBlock | index.js:141-143 | a following GetBlock returns Flag(value); every other cell, the grid size, the playhead and the transport are unchanged; the invariant holds |
| Engine.Sequencer.ProcessAudio | index.js:184-245 | stopped: both outputs are all zeros and the playhead stays. Playing: output frame i is RenderedFrame at i for each side, and the playhead ends at Advance(old position, outputLength). The pattern, the transport and the recording are unchanged, and the invariant holds |
| Engine.Sequencer.MixFrame | index.js:213-233 | the current output frame of each side becomes Mix at the playhead, and every other output index is unchanged |
| Engine.FillSilence | index.js:191-198 | every entry of both outputs is 0 |

## Left out

- Audio device setup (context creation, script processor, compressor and its ratio and threshold) is not modelled: it is browser plumbing.
- Loading and decoding the recording (`loadBlocks`, `blocksLoaded`, `blocksDecoded`) is not modelled: it is network I/O and a foreign decoder. The decoded recording is the `AudioBuffer` passed to the render callback.
- The GUI, the bootstrap and the `updateGUI()` calls in play, stop and the render callback are not modelled: they are presentation side effects.
- The unused profiling counters `_processAudioCount` and `_processAudioTime` are not modelled.
- The user-event handlers and the audio callback run interleaved on one event loop. The model treats every operation as one sequential method call.
- BlockLength: the original evaluates the formula in double precision and then floors it. The model uses the exact integer quotient sampleRate·60·bpb / bpm, and the two are taken to agree. They do agree for the demo configuration.
- Playhead.BarOf: the render loop's bar index uses `position / blockLength >> 0`, which truncates to 32 bits. The model uses plain integer division, which is the same for positions below 2^31.
- Mixing.Mix: float32 rounding of the sum is not modelled. Samples are exact reals, added in channel order.
- Engine.Sequencer.ProcessAudio: the callback dereferences the recording with no null check, so while playing it requires a recording to be present. Silence when no recording is loaded is not modelled, because the code has no such branch.
- Engine.Sequencer.ProcessAudio: with a zero block length, the original's bar index `position / blockLength >> 0` is 0 (NaN or Infinity shifted is 0), but its sample index `position % blockLength` is NaN, so the bounds test `inputIndex < inputLength` fails. The model writes this as an explicit `blockLength > 0` test that adds nothing when it fails.
- Engine.Sequencer.GetBlock: out-of-range channel or bar arguments are excluded by preconditions. In the original, a bar past the end of a row reads `undefined`, and a channel past the last row throws.
- Engine.Sequencer.SetBlock: out-of-range channel or bar arguments are excluded by preconditions. In the original, a valid channel with a bar at or past countBars() extends that row. For channel 0 this changes countBars() and so the loop length. A channel past the last row throws. The GUI only passes the indices of existing blocks.
- Engine.Sequencer.SetBlock: the original compares the value with `=== 1` and so accepts any JavaScript value. The model takes an integer.
- Engine.Sequencer.constructor: the pattern must have at least one channel and one bar. The bar count is read from row 0, and the initial pattern is 5 × 16.
