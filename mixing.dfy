/**
 * What one output frame holds: the sum, over the channels in order, of
 * the recording sample each enabled channel plays at the playhead.
 *
 * The recording is laid out as consecutive one-bar segments, segment c
 * belonging to channel c; every channel replays its one segment in each
 * bar whose flag is on.
 */
module Mixing {
  import opened Pattern
  import opened Playhead

  /**
   * The recording index channel chn plays at the playhead:
   * blockLength * chn + position % blockLength. It lies in channel chn's
   * segment, at the playhead's offset within its bar.
   */
  function SampleIndex(blockLength: nat, chn: nat, position: nat): (r: nat)
    requires blockLength > 0
    ensures blockLength * chn <= r < blockLength * (chn + 1)
    ensures r / blockLength == chn && r % blockLength == position % blockLength
  {
    var k := blockLength * chn + position % blockLength;
    ModUnique(k, blockLength, chn, position % blockLength);
    DivUnique(k, blockLength, chn, position % blockLength);
    k
  }

  /** True when the playhead lies inside the loop of bars * blockLength samples (or the loop is empty). */
  predicate InLoop(g: Grid, blockLength: nat, position: nat)
    requires IsGrid(g)
  {
    blockLength > 0 ==> position < Bars(g) * blockLength
  }

  /**
   * The sample channel chn adds to the frame at the playhead: the
   * recording sample at its index when its flag in the current bar is on
   * and the index lies inside the recording, nothing otherwise. With a
   * zero block length the source's sample index is NaN and its bounds test
   * fails, so nothing is added.
   */
  function ChannelSample(g: Grid, blockLength: nat, input: seq<real>, chn: nat, position: nat): (r: real)
    requires IsGrid(g) && chn < |g| && InLoop(g, blockLength, position)
    ensures r != 0.0 ==>
              blockLength > 0 &&
              g[chn][BarOf(position, blockLength)] == 1 &&
              SampleIndex(blockLength, chn, position) < |input| &&
              r == input[SampleIndex(blockLength, chn, position)]
    ensures blockLength > 0 &&
            g[chn][BarOf(position, blockLength)] == 1 &&
            SampleIndex(blockLength, chn, position) < |input| ==>
              r == input[SampleIndex(blockLength, chn, position)]
  {
    if blockLength == 0 then 0.0
    else
      BarInRange(position, blockLength, Bars(g));
      var bar := BarOf(position, blockLength);
      var i := SampleIndex(blockLength, chn, position);
      if g[chn][bar] == 1 && i < |input| then input[i] else 0.0
  }

  /**
   * The sum of the first k channels' samples, added in channel order.
   * With a zero block length no channel reads the recording, so the sum
   * is 0.
   */
  function MixPrefix(g: Grid, blockLength: nat, input: seq<real>, position: nat, k: nat): (r: real)
    requires IsGrid(g) && k <= |g| && InLoop(g, blockLength, position)
    ensures blockLength == 0 ==> r == 0.0
    decreases k
  {
    if k == 0 then 0.0
    else MixPrefix(g, blockLength, input, position, k - 1) + ChannelSample(g, blockLength, input, k - 1, position)
  }

  /**
   * One output frame: the sum over all channels. A frame to which no
   * channel contributes (all off, or every index past the end of the
   * recording) is silence.
   */
  function Mix(g: Grid, blockLength: nat, input: seq<real>, position: nat): (r: real)
    requires IsGrid(g) && InLoop(g, blockLength, position)
    ensures (forall c :: 0 <= c < |g| ==> ChannelSample(g, blockLength, input, c, position) == 0.0) ==> r == 0.0
  {
    MixPrefixSilent(g, blockLength, input, position, |g|);
    MixPrefix(g, blockLength, input, position, |g|)
  }

  lemma {:induction false} MixPrefixSilent(g: Grid, blockLength: nat, input: seq<real>, position: nat, k: nat)
    requires IsGrid(g) && k <= |g| && InLoop(g, blockLength, position)
    ensures (forall c :: 0 <= c < k ==> ChannelSample(g, blockLength, input, c, position) == 0.0) ==>
              MixPrefix(g, blockLength, input, position, k) == 0.0
    decreases k
  {
    if k > 0 {
      MixPrefixSilent(g, blockLength, input, position, k - 1);
    }
  }

  /**
   * Frame i of a render that starts with the playhead at start: the mix at
   * the playhead after i frames.
   */
  function RenderedFrame(g: Grid, blockLength: nat, input: seq<real>, start: nat, i: nat): (r: real)
    requires IsGrid(g) && (start == 0 || start < Bars(g) * blockLength)
    ensures start < Bars(g) * blockLength ==>
              InLoop(g, blockLength, (start + i) % (Bars(g) * blockLength)) &&
              r == Mix(g, blockLength, input, (start + i) % (Bars(g) * blockLength))
  {
    var loopLength := Bars(g) * blockLength;
    var p := Advance(start, i, loopLength);
    if start < loopLength then
      AdvanceIsModulo(start, i, loopLength);
      Mix(g, blockLength, input, p)
    else
      Mix(g, blockLength, input, p)
  }

  /**
   * Two consecutive renders of a and then more frames produce what one
   * render of all the frames would: the second render's frame i is the
   * first render's frame a + i.
   */
  lemma RenderedFrameCompose(g: Grid, blockLength: nat, input: seq<real>, start: nat, a: nat, i: nat)
    requires IsGrid(g) && (start == 0 || start < Bars(g) * blockLength)
    ensures RenderedFrame(g, blockLength, input, Advance(start, a, Bars(g) * blockLength), i)
         == RenderedFrame(g, blockLength, input, start, a + i)
  {
    AdvanceCompose(start, a, i, Bars(g) * blockLength);
  }

  /**
   * Channel independence: when every channel but a is off in the current
   * bar, the frame is exactly channel a's contribution.
   */
  lemma MixSingleChannel(g: Grid, blockLength: nat, input: seq<real>, position: nat, a: nat)
    requires IsGrid(g) && a < |g| && InLoop(g, blockLength, position)
    requires forall c :: 0 <= c < |g| && c != a ==> g[c][BarOf(position, blockLength)] == 0
    ensures Mix(g, blockLength, input, position) == ChannelSample(g, blockLength, input, a, position)
  {
    MixPrefixSingle(g, blockLength, input, position, a, |g|);
  }

  lemma {:induction false} MixPrefixSingle(g: Grid, blockLength: nat, input: seq<real>, position: nat, a: nat, k: nat)
    requires IsGrid(g) && a < |g| && k <= |g| && InLoop(g, blockLength, position)
    requires forall c :: 0 <= c < |g| && c != a ==> g[c][BarOf(position, blockLength)] == 0
    ensures MixPrefix(g, blockLength, input, position, k)
         == if a < k then ChannelSample(g, blockLength, input, a, position) else 0.0
    decreases k
  {
    if k > 0 {
      MixPrefixSingle(g, blockLength, input, position, a, k - 1);
      if k - 1 != a && blockLength > 0 {
        BarInRange(position, blockLength, Bars(g));
      }
    }
  }

  /** A bar in which every channel is off renders silence. */
  lemma {:induction false} MixSilentBar(g: Grid, blockLength: nat, input: seq<real>, position: nat, k: nat)
    requires IsGrid(g) && k <= |g| && InLoop(g, blockLength, position)
    requires forall c :: 0 <= c < |g| ==> g[c][BarOf(position, blockLength)] == 0
    ensures MixPrefix(g, blockLength, input, position, k) == 0.0
    decreases k
  {
    if k > 0 {
      MixSilentBar(g, blockLength, input, position, k - 1);
      if blockLength > 0 {
        BarInRange(position, blockLength, Bars(g));
      }
    }
  }

  /**
   * A frame depends on the pattern only through the current bar's column:
   * edits to other bars are not heard until the playhead reaches them.
   */
  lemma {:induction false} MixReadsOnlyCurrentBar(g: Grid, h: Grid, blockLength: nat, input: seq<real>, position: nat, k: nat)
    requires IsGrid(g) && IsGrid(h) && k <= |g| && InLoop(g, blockLength, position)
    requires BarOf(position, blockLength) < Bars(g)
    requires SameColumn(g, h, BarOf(position, blockLength))
    ensures InLoop(h, blockLength, position)
    ensures MixPrefix(g, blockLength, input, position, k) == MixPrefix(h, blockLength, input, position, k)
    decreases k
  {
    if k > 0 {
      MixReadsOnlyCurrentBar(g, h, blockLength, input, position, k - 1);
    }
  }

  /**
   * Switching channel a off in the current bar removes exactly its
   * contribution from the frame.
   */
  lemma {:induction false} MixWithoutChannel(g: Grid, blockLength: nat, input: seq<real>, position: nat, a: nat, k: nat)
    requires IsGrid(g) && a < |g| && k <= |g| && InLoop(g, blockLength, position)
    requires BarOf(position, blockLength) < Bars(g)
    ensures MixPrefix(g, blockLength, input, position, k)
         == MixPrefix(Write(g, a, BarOf(position, blockLength), 0), blockLength, input, position, k)
          + (if a < k then ChannelSample(g, blockLength, input, a, position) else 0.0)
    decreases k
  {
    var h := Write(g, a, BarOf(position, blockLength), 0);
    if k > 0 {
      MixWithoutChannel(g, blockLength, input, position, a, k - 1);
      if k - 1 == a {
        assert ChannelSample(h, blockLength, input, a, position) == 0.0;
      } else {
        assert h[k - 1] == g[k - 1];
      }
    }
  }

  /**
   * Writing a flag in any bar other than the current one leaves the
   * current frame as it was.
   */
  lemma MixIgnoresEditElsewhere(g: Grid, blockLength: nat, input: seq<real>, position: nat, c: nat, b: nat, v: int)
    requires IsGrid(g) && c < |g| && b < Bars(g) && InLoop(g, blockLength, position)
    requires b != BarOf(position, blockLength)
    ensures InLoop(Write(g, c, b, v), blockLength, position)
    ensures Mix(Write(g, c, b, v), blockLength, input, position) == Mix(g, blockLength, input, position)
  {
    var bar := BarOf(position, blockLength);
    BarInRange(position, blockLength, Bars(g));
    WriteKeepsOtherColumns(g, c, b, v, bar);
    MixReadsOnlyCurrentBar(g, Write(g, c, b, v), blockLength, input, position, |g|);
  }
}
