/** From grid cell to the pixel origin of its tile (main.py:38-39, 152-157). */
module Coords {
  import opened GameConfig

  /** The `Position(x, y)` named tuple. */
  datatype Position = Position(x: int, y: int)

  /** Python's `int(n / 2)`: halve as a float, then truncate toward zero. */
  function TruncHalf(n: int): (r: int)
    ensures -1 <= n - 2 * r <= 1
    ensures n >= 0 ==> r == n / 2
    ensures n < 0 ==> n <= 2 * r <= 0
  {
    if n >= 0 then n / 2 else -((-n) / 2)
  }

  /** Width of one tile plus its gap. */
  function Step(g: Config): nat
  {
    g.boxSize + g.gapSize
  }

  /** `X_MARGIN`: what is left of the window's width after the columns, halved. It
      centres the span `COLUMNS * (BOX_SIZE + GAP_SIZE)`, whose last `GAP_SIZE` pixels are
      a gap after the last column that is never drawn; so the drawn tiles leave a right
      margin `GAP_SIZE` wider than the left one (give or take a pixel). */
  function XMargin(g: Config): (r: int)
    ensures -1 <= (g.window.width - (r + g.columns * Step(g))) - r <= 1
    ensures -1 <= (g.window.width - (r + (g.columns - 1) * Step(g) + g.boxSize)) - r - g.gapSize <= 1
    ensures g.columns * Step(g) <= g.window.width ==> 0 <= r
  {
    assert (g.columns - 1) * Step(g) == g.columns * Step(g) - Step(g);
    TruncHalf(g.window.width - g.columns * Step(g))
  }

  /** `Y_MARGIN`: what is left of the window's height after the rows, halved. Like
      `XMargin` it centres the span with a trailing gap, so below the last row of tiles
      the margin is `GAP_SIZE` wider than above the first (give or take a pixel). */
  function YMargin(g: Config): (r: int)
    ensures -1 <= (g.window.height - (r + g.rows * Step(g))) - r <= 1
    ensures -1 <= (g.window.height - (r + (g.rows - 1) * Step(g) + g.boxSize)) - r - g.gapSize <= 1
    ensures g.rows * Step(g) <= g.window.height ==> 0 <= r
  {
    assert (g.rows - 1) * Step(g) == g.rows * Step(g) - Step(g);
    TruncHalf(g.window.height - g.rows * Step(g))
  }

  /** `leftTopCoordsOfBox(placeX, placeY)`. */
  function LeftTopCoordsOfBox(g: Config, placeX: int, placeY: int): Position
  {
    Position(XMargin(g) + placeX * Step(g), YMargin(g) + placeY * Step(g))
  }

  /** The `boxSize` square whose top-left corner is `p` contains the pixel `(px, py)`. */
  ghost predicate InTile(g: Config, p: Position, px: int, py: int)
  {
    p.x <= px < p.x + g.boxSize && p.y <= py < p.y + g.boxSize
  }

  /** The shipped window gives margins of 70 and 65 pixels. */
  lemma DefaultMargins()
    ensures XMargin(Default) == 70 && YMargin(Default) == 65
    ensures LeftTopCoordsOfBox(Default, 0, 0) == Position(70, 65)
  {
  }

  /** On the shipped grid the drawn tiles span x 70..560 and y 65..405: margins of 70
      left and 80 right, 65 top and 75 bottom, the grid sitting `GAP_SIZE / 2` pixels
      left of and above the window's centre. */
  lemma DefaultVisibleMargins()
    ensures LeftTopCoordsOfBox(Default, 9, 6) == Position(520, 365)
    ensures 640 - (LeftTopCoordsOfBox(Default, 9, 6).x + 40) == 80
    ensures 480 - (LeftTopCoordsOfBox(Default, 9, 6).y + 40) == 75
  {
    DefaultMargins();
  }

  /** Moving one cell right (or down) moves the origin by one tile plus one gap. */
  lemma NeighbourStep(g: Config, x: int, y: int)
    ensures LeftTopCoordsOfBox(g, x + 1, y).x == LeftTopCoordsOfBox(g, x, y).x + g.boxSize + g.gapSize
    ensures LeftTopCoordsOfBox(g, x, y + 1).y == LeftTopCoordsOfBox(g, x, y).y + g.boxSize + g.gapSize
    ensures LeftTopCoordsOfBox(g, x + 1, y).y == LeftTopCoordsOfBox(g, x, y).y
    ensures LeftTopCoordsOfBox(g, x, y + 1).x == LeftTopCoordsOfBox(g, x, y).x
  {
    assert (x + 1) * Step(g) == x * Step(g) + Step(g);
    assert (y + 1) * Step(g) == y * Step(g) + Step(g);
  }

  /** Indices `a < b` put origins at least one step apart. */
  lemma StepApart(step: nat, a: int, b: int)
    requires a < b
    ensures b * step - a * step >= step
  {
    var d := b - a - 1;
    assert b == a + 1 + d;
    assert b * step == a * step + step + d * step;
    assert d * step >= 0;
  }

  /** No pixel belongs to the tiles of two different cells. */
  lemma TilesDisjoint(g: Config, x1: int, y1: int, x2: int, y2: int, px: int, py: int)
    requires (x1, y1) != (x2, y2)
    ensures !(InTile(g, LeftTopCoordsOfBox(g, x1, y1), px, py) && InTile(g, LeftTopCoordsOfBox(g, x2, y2), px, py))
  {
    var s := Step(g);
    if x1 < x2 {
      StepApart(s, x1, x2);
    } else if x2 < x1 {
      StepApart(s, x2, x1);
    } else if y1 < y2 {
      StepApart(s, y1, y2);
    } else {
      StepApart(s, y2, y1);
    }
  }

  /** When the grid fits the window, every tile of the grid lies inside the window. */
  lemma TileInsideWindow(g: Config, x: nat, y: nat)
    requires x < g.columns && y < g.rows
    requires g.columns * Step(g) <= g.window.width
    requires g.rows * Step(g) <= g.window.height
    ensures 0 <= LeftTopCoordsOfBox(g, x, y).x
    ensures LeftTopCoordsOfBox(g, x, y).x + g.boxSize <= g.window.width
    ensures 0 <= LeftTopCoordsOfBox(g, x, y).y
    ensures LeftTopCoordsOfBox(g, x, y).y + g.boxSize <= g.window.height
  {
    var s := Step(g);
    StepApart(s, x, g.columns);
    StepApart(s, y, g.rows);
  }

  /** Every tile of the shipped 10 by 7 grid lies inside the 640 by 480 window. */
  lemma DefaultTilesInsideWindow(x: nat, y: nat)
    requires x < 10 && y < 7
    ensures 70 <= LeftTopCoordsOfBox(Default, x, y).x && LeftTopCoordsOfBox(Default, x, y).x + 40 <= 640
    ensures 65 <= LeftTopCoordsOfBox(Default, x, y).y && LeftTopCoordsOfBox(Default, x, y).y + 40 <= 480
  {
    DefaultMargins();
    TileInsideWindow(Default, x, y);
  }
}
