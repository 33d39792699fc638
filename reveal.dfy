/** The reveal grid: one flag per cell, all starting at the same value (main.py:129-136). */
module Reveal {
  import opened Lists
  import opened GameConfig

  /** `generateRevealedBoxesData(val)`: `COLUMNS` times, append a fresh column of
      `ROWS` copies of `val`. */
  method GenerateRevealedBoxesData(g: Config, val: bool) returns (revealedBoxes: seq<seq<bool>>)
    ensures IsGrid(revealedBoxes, g.columns, g.rows)
    ensures forall x, y :: 0 <= x < g.columns && 0 <= y < g.rows ==> revealedBoxes[x][y] == val
  {
    revealedBoxes := [];
    var i := 0;
    while i < g.columns
      invariant 0 <= i <= g.columns
      invariant IsGrid(revealedBoxes, i, g.rows)
      invariant forall x, y :: 0 <= x < i && 0 <= y < g.rows ==> revealedBoxes[x][y] == val
    {
      revealedBoxes := revealedBoxes + [seq(g.rows, _ => val)];
      i := i + 1;
    }
  }
}
