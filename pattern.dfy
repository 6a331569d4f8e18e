/**
 * The sequencer pattern: one row per channel, one 0/1 flag per bar.
 */
module Pattern {

  type Grid = seq<seq<int>>

  /**
   * A well-formed pattern: at least one channel and one bar (the bar count
   * is read from row 0), every row as long as row 0, every flag 0 or 1.
   */
  predicate IsGrid(g: Grid)
    ensures IsGrid(g) ==> forall c, b :: 0 <= c < |g| && 0 <= b < |g[c]| ==> Flag(g[c][b]) == g[c][b]
  {
    |g| > 0 && |g[0]| > 0 &&
    (forall c :: 0 <= c < |g| ==> |g[c]| == |g[0]|) &&
    (forall c, b :: 0 <= c < |g| && 0 <= b < |g[c]| ==> g[c][b] == 0 || g[c][b] == 1)
  }

  /** Number of bars: the length of row 0. */
  function Bars(g: Grid): (r: nat)
    requires IsGrid(g)
    ensures r > 0 && forall c :: 0 <= c < |g| ==> |g[c]| == r
  {
    |g[0]|
  }

  /** The flag written for a requested value: 1 exactly for 1, 0 for anything else. */
  function Flag(v: int): (r: int)
    ensures r == 0 || r == 1
    ensures r == 1 <==> v == 1
  {
    if v == 1 then 1 else 0
  }

  /** The pattern with one cell overwritten by Flag(v). */
  function Write(g: Grid, c: nat, b: nat, v: int): (r: Grid)
    requires IsGrid(g) && c < |g| && b < Bars(g)
    ensures IsGrid(r) && |r| == |g| && Bars(r) == Bars(g)
    ensures r[c][b] == Flag(v)
    ensures forall c2, b2 :: 0 <= c2 < |g| && 0 <= b2 < Bars(g) && (c2 != c || b2 != b) ==> r[c2][b2] == g[c2][b2]
  {
    g[c := g[c][b := Flag(v)]]
  }

  /** Two grids carry the same flags in bar b. */
  predicate SameColumn(g: Grid, h: Grid, b: nat)
    requires IsGrid(g) && IsGrid(h) && b < Bars(g)
  {
    |g| == |h| && Bars(h) == Bars(g) && forall c :: 0 <= c < |g| ==> g[c][b] == h[c][b]
  }

  /** Writing a cell leaves every other bar's column untouched. */
  lemma WriteKeepsOtherColumns(g: Grid, c: nat, b: nat, v: int, bar: nat)
    requires IsGrid(g) && c < |g| && b < Bars(g) && bar < Bars(g) && bar != b
    ensures SameColumn(g, Write(g, c, b, v), bar)
  {
  }
}
