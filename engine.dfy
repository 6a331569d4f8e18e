/**
 * The sequencer engine: the pattern grid, the playhead, the playing flag
 * and the block length, with the transport, pattern accessors, bar lookup
 * and the audio render callback that mixes the recording's channel
 * segments into the two output buffers.
 */
module Engine {
  import opened Pattern
  import opened Playhead
  import opened Mixing

  /** A decoded stereo recording: two sample arrays of the same length. */
  class AudioBuffer {
    const left: array<real>
    const right: array<real>

    predicate Valid()
    {
      left.Length == right.Length
    }

    constructor (left: array<real>, right: array<real>)
      requires left.Length == right.Length
      ensures Valid() && this.left == left && this.right == right
    {
      this.left := left;
      this.right := right;
    }
  }

  class Sequencer {
    /** One row of 0/1 flags per channel, one flag per bar. */
    var channels: Grid
    /** Samples in one bar. */
    const blockLength: nat
    /** Sample position of the playhead within the loop. */
    var position: nat
    var playing: bool

    ghost predicate Valid()
      reads this
      ensures Valid() ==> IsGrid(channels) && InLoop(channels, blockLength, position) &&
                          BarOf(position, blockLength) < Bars(channels)
    {
      IsGrid(channels) && (position == 0 || position < LoopLength())
    }

    /** Samples in one pass over all bars. */
    function LoopLength(): (r: nat)
      reads this
      requires IsGrid(channels)
      ensures (r == 0) == (blockLength == 0)
      ensures forall c :: 0 <= c < |channels| ==> r == |channels[c]| * blockLength
    {
      Bars(channels) * blockLength
    }

    /**
     * A stopped engine at bar 0 with the given initial pattern and a block
     * length derived from the sample rate and the tempo.
     */
    constructor (pattern: Grid, sampleRate: nat, bpm: nat, bpb: nat)
      requires IsGrid(pattern) && bpm > 0
      ensures Valid()
      ensures channels == pattern && blockLength == BlockLength(sampleRate, bpm, bpb)
      ensures position == 0 && !playing
    {
      channels := pattern;
      blockLength := BlockLength(sampleRate, bpm, bpb);
      position := 0;
      playing := false;
    }

    /** Start playing from the first sample of bar 0, whatever the prior state. */
    method Play()
      requires Valid()
      modifies this`playing, this`position
      ensures Valid() && playing && position == 0
      ensures channels == old(channels)
    {
      playing := true;
      position := 0;
    }

    /** Stop playing and rewind the playhead to 0. */
    method Stop()
      requires Valid()
      modifies this`playing, this`position
      ensures Valid() && !playing && position == 0
      ensures channels == old(channels)
    {
      playing := false;
      position := 0;
    }

    /** Number of bars: every row has this length. */
    function CountBars(): (r: nat)
      reads this
      requires Valid()
      ensures r > 0 && forall c :: 0 <= c < |channels| ==> |channels[c]| == r
    {
      Bars(channels)
    }

    /** Number of channels: the rows of the grid, each CountBars() long. */
    function CountChannels(): (r: nat)
      reads this
      requires Valid()
      ensures r == |channels| && r > 0
      ensures forall c :: 0 <= c < r ==> |channels[c]| == CountBars()
    {
      |channels|
    }

    /** The bar the playhead is in; always one of the pattern's bars. */
    function GetBar(): (r: nat)
      reads this
      requires Valid()
      ensures blockLength == 0 ==> r == 0
      ensures blockLength > 0 ==> r * blockLength <= position < (r + 1) * blockLength
      ensures r < CountBars()
    {
      BarInRange(position, blockLength, Bars(channels));
      BarOf(position, blockLength)
    }

    /** The flag of one cell, always 0 or 1. */
    function GetBlock(channel: nat, bar: nat): (r: int)
      reads this
      requires Valid() && channel < CountChannels() && bar < CountBars()
      ensures r == 0 || r == 1
      ensures r == 1 <==> channels[channel][bar] == 1
    {
      channels[channel][bar]
    }

    /** Store 1 in one cell if value is 1, else 0; nothing else changes. */
    method SetBlock(channel: nat, bar: nat, value: int)
      requires Valid() && channel < CountChannels() && bar < CountBars()
      modifies this`channels
      ensures Valid()
      ensures channels == Write(old(channels), channel, bar, value)
      ensures GetBlock(channel, bar) == Flag(value)
      ensures |channels| == old(|channels|) && CountBars() == old(CountBars())
      ensures forall c, b :: 0 <= c < |channels| && 0 <= b < CountBars() && (c != channel || b != bar)
                ==> channels[c][b] == old(channels[c][b])
    {
      channels := channels[channel := channels[channel][bar := if value == 1 then 1 else 0]];
    }

    /**
     * The audio callback. Stopped: both outputs are all zeros and the
     * playhead stays. Playing: frame i of each output is the mix of the
     * enabled channels at the playhead after i frames, and the playhead
     * ends outputLength frames further on, wrapping at the loop length.
     */
    method ProcessAudio(outputL: array<real>, outputR: array<real>, input: AudioBuffer?)
      requires Valid()
      requires outputL.Length == outputR.Length && outputL != outputR
      requires playing ==> input != null && input.Valid()
      requires playing ==> {outputL, outputR} !! {input.left, input.right}
      modifies this`position, outputL, outputR
      ensures Valid() && channels == old(channels) && playing == old(playing)
      ensures !playing ==> position == old(position)
      ensures !playing ==> forall i :: 0 <= i < outputL.Length ==> outputL[i] == 0.0 && outputR[i] == 0.0
      ensures playing ==> position == Advance(old(position), outputL.Length, LoopLength())
      ensures playing ==> forall i :: 0 <= i < outputL.Length ==>
                outputL[i] == RenderedFrame(channels, blockLength, input.left[..], old(position), i) &&
                outputR[i] == RenderedFrame(channels, blockLength, input.right[..], old(position), i)
    {
      if !playing {
        FillSilence(outputL, outputR);
        return;
      }

      var outputIndex := 0;
      var outputLength := outputL.Length;
      var inputL := input.left;
      var inputR := input.right;
      ghost var samplesL, samplesR := inputL[..], inputR[..];

      var seqLength := |channels[0]| * blockLength;
      ghost var start := position;

      while outputIndex < outputLength
        invariant 0 <= outputIndex <= outputLength
        invariant Valid() && seqLength == LoopLength()
        invariant position == Advance(start, outputIndex, seqLength)
        invariant forall i :: 0 <= i < outputIndex ==>
                    outputL[i] == RenderedFrame(channels, blockLength, samplesL, start, i) &&
                    outputR[i] == RenderedFrame(channels, blockLength, samplesR, start, i)
      {
        MixFrame(outputL, outputR, outputIndex, inputL, inputR);

        position := position + 1;
        if position >= seqLength {
          position := 0;
        }
        outputIndex := outputIndex + 1;
      }
      assert input.left[..] == samplesL && input.right[..] == samplesR;
    }

    /**
     * One frame of the playing branch: clear the frame, then add, channel
     * by channel, the sample of every channel that is on in the current bar
     * and whose index lies inside the recording.
     */
    method MixFrame(outputL: array<real>, outputR: array<real>, outputIndex: nat,
                    inputL: array<real>, inputR: array<real>)
      requires Valid()
      requires outputIndex < outputL.Length == outputR.Length && outputL != outputR
      requires inputL.Length == inputR.Length
      requires {outputL, outputR} !! {inputL, inputR}
      modifies outputL, outputR
      ensures InLoop(channels, blockLength, position)
      ensures outputL[outputIndex] == Mix(channels, blockLength, inputL[..], position)
      ensures outputR[outputIndex] == Mix(channels, blockLength, inputR[..], position)
      ensures forall i :: 0 <= i < outputL.Length && i != outputIndex ==>
                outputL[i] == old(outputL[i]) && outputR[i] == old(outputR[i])
    {
      var inputLength := inputL.Length;
      var chnIndex := 0;
      var chnCount := CountChannels();
      outputL[outputIndex] := 0.0;
      outputR[outputIndex] := 0.0;

      while chnIndex < chnCount
        invariant 0 <= chnIndex <= chnCount
        invariant outputL[outputIndex] == MixPrefix(channels, blockLength, inputL[..], position, chnIndex)
        invariant outputR[outputIndex] == MixPrefix(channels, blockLength, inputR[..], position, chnIndex)
        invariant forall i :: 0 <= i < outputL.Length && i != outputIndex ==>
                    outputL[i] == old(outputL[i]) && outputR[i] == old(outputR[i])
      {
        // With a zero block length the source's bar index is 0 but its
        // sample index is NaN, so its bounds test fails: no channel contributes.
        if blockLength > 0 {
          BarInRange(position, blockLength, |channels[0]|);
          var barIndex := position / blockLength;
          if channels[chnIndex][barIndex] == 1 {
            var barPosition := position % blockLength;
            var inputIndex := blockLength * chnIndex + barPosition;
            if inputIndex < inputLength {
              outputL[outputIndex] := outputL[outputIndex] + inputL[inputIndex];
              outputR[outputIndex] := outputR[outputIndex] + inputR[inputIndex];
            }
          }
        }
        chnIndex := chnIndex + 1;
      }
    }
  }

  /** The stopped branch of the audio callback: zero both outputs. */
  method FillSilence(outputL: array<real>, outputR: array<real>)
    requires outputL.Length == outputR.Length
    modifies outputL, outputR
    ensures forall i :: 0 <= i < outputL.Length ==> outputL[i] == 0.0 && outputR[i] == 0.0
  {
    var outputIndex := 0;
    var outputLength := outputL.Length;
    while outputIndex < outputLength
      invariant 0 <= outputIndex <= outputLength
      invariant forall i :: 0 <= i < outputIndex ==> outputL[i] == 0.0 && outputR[i] == 0.0
    {
      outputL[outputIndex] := 0.0;
      outputR[outputIndex] := 0.0;
      outputIndex := outputIndex + 1;
    }
  }
}
