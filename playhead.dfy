/**
 * The playback clock of the sequencer: how long one bar is in samples,
 * which bar a playhead sample position falls in, and how the playhead
 * moves on by one sample per rendered frame, looping over the pattern.
 */
module Playhead {

  /**
   * Samples in one bar: floor(sampleRate * 60 / (bpm / bpb)), written as
   * the exact integer quotient sampleRate * 60 * bpb / bpm. The result is
   * the floor of the exact ratio; with bpb == 0 it is 0, as it is in the
   * double-precision original (60 / Infinity == 0).
   */
  function BlockLength(sampleRate: nat, bpm: nat, bpb: nat): (r: nat)
    requires bpm > 0
    ensures r * bpm <= sampleRate * 60 * bpb < (r + 1) * bpm
  {
    sampleRate * 60 * bpb / bpm
  }

  /** The demo configuration: 44100 Hz, 100 beats per minute, 4 beats per bar. */
  lemma DemoBlockLength()
    ensures BlockLength(44100, 100, 4) == 105840
    ensures 16 * BlockLength(44100, 100, 4) == 1693440
  {
  }

  /**
   * The bar the playhead is in: 0 while the block length is 0, otherwise
   * the floor of position / blockLength.
   */
  function BarOf(position: nat, blockLength: nat): (r: nat)
    ensures blockLength == 0 ==> r == 0
    ensures blockLength > 0 ==> r * blockLength <= position < (r + 1) * blockLength
  {
    if blockLength == 0 then 0 else position / blockLength
  }

  /** A playhead inside the loop is in one of the pattern's bars. */
  lemma BarInRange(position: nat, blockLength: nat, bars: nat)
    requires bars > 0
    requires blockLength > 0 ==> position < bars * blockLength
    ensures BarOf(position, blockLength) < bars
  {
    var r := BarOf(position, blockLength);
    if blockLength > 0 && r >= bars {
      MulMonotone(bars, r, blockLength);
      assert false;
    }
  }

  lemma MulMonotone(a: nat, b: nat, k: nat)
    requires a <= b
    ensures a * k <= b * k
  {
  }

  /**
   * One frame's move of the playhead: one sample on, back to 0 once it
   * reaches the loop length (bars * blockLength).
   */
  function NextPosition(position: nat, loopLength: nat): (r: nat)
    ensures r == 0 || r < loopLength
    ensures position < loopLength ==> r == (position + 1) % loopLength
  {
    if position + 1 >= loopLength then 0 else position + 1
  }

  /** The playhead after n frames, starting from position. */
  function Advance(position: nat, n: nat, loopLength: nat): (r: nat)
    requires position == 0 || position < loopLength
    ensures r == 0 || r < loopLength
    decreases n
  {
    if n == 0 then position
    else NextPosition(Advance(position, n - 1, loopLength), loopLength)
  }

  /** Inside a non-empty loop, n frames move the playhead n samples on, modulo the loop. */
  lemma {:induction false} AdvanceIsModulo(position: nat, n: nat, loopLength: nat)
    requires position < loopLength
    ensures Advance(position, n, loopLength) == (position + n) % loopLength
  {
    if n > 0 {
      AdvanceIsModulo(position, n - 1, loopLength);
      ModSucc(position + n - 1, loopLength);
    }
  }

  lemma ModSucc(x: nat, m: nat)
    requires m > 0
    ensures (x % m + 1) % m == (x + 1) % m
  {
    var q, r := x / m, x % m;
    if r + 1 < m {
      ModUnique(x + 1, m, q, r + 1);
      ModUnique(r + 1, m, 0, r + 1);
    } else {
      ModUnique(x + 1, m, q + 1, 0);
      ModUnique(r + 1, m, 1, 0);
    }
  }

  /** The remainder is determined by any quotient-remainder decomposition. */
  lemma ModUnique(x: nat, m: nat, q: nat, r: nat)
    requires m > 0 && r < m && x == q * m + r
    ensures x % m == r
  {
    var q0, r0 := x / m, x % m;
    assert x == q0 * m + r0;
    if q0 < q {
      MulMonotone(q0 + 1, q, m);
      assert false;
    } else if q < q0 {
      MulMonotone(q + 1, q0, m);
      assert false;
    }
  }

  /** The quotient is determined by any quotient-remainder decomposition. */
  lemma DivUnique(x: nat, m: nat, q: nat, r: nat)
    requires m > 0 && r < m && x == q * m + r
    ensures x / m == q
  {
    ModUnique(x, m, q, r);
    assert (x / m) * m == q * m;
  }

  /** Advancing a frames and then b frames is advancing a + b frames. */
  lemma {:induction false} AdvanceCompose(position: nat, a: nat, b: nat, loopLength: nat)
    requires position == 0 || position < loopLength
    ensures Advance(Advance(position, a, loopLength), b, loopLength)
         == Advance(position, a + b, loopLength)
    decreases b
  {
    if b > 0 {
      AdvanceCompose(position, a, b - 1, loopLength);
    }
  }

  /** Rendering one whole loop brings the playhead back to where it started. */
  lemma LoopClosure(position: nat, loopLength: nat)
    requires position < loopLength
    ensures Advance(position, loopLength, loopLength) == position
  {
    AdvanceIsModulo(position, loopLength, loopLength);
    ModUnique(position + loopLength, loopLength, 1, position);
  }
}
