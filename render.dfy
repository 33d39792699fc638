/** Rendering as data: every `pygame.draw` call becomes a `DrawCommand` value, and the
    display surface is the list of commands issued to it (main.py:161-215). */
module Render {
  import opened Lists
  import opened Results
  import opened Icons
  import opened GameConfig
  import opened Coords

  /** One call of `pygame.draw.rect`, `circle`, `polygon`, `line` or `ellipse`. */
  datatype DrawCommand =
    | Rect(color: Color, left: int, top: int, width: int, height: int)
    | Circle(color: Color, center: Position, radius: int)
    | Polygon(color: Color, points: seq<Position>)
    | Line(color: Color, start: Position, end: Position)
    | Ellipse(color: Color, left: int, top: int, width: int, height: int)

  /** `QUARTER = int(BOX_SIZE * (1/4))`; the size is non-negative, so this is `/ 4`. */
  function Quarter(g: Config): int
  {
    g.boxSize / 4
  }

  /** `HALF = int(BOX_SIZE * (1/2))`. */
  function Half(g: Config): int
  {
    g.boxSize / 2
  }

  /** How many offsets `range(0, BOX_SIZE, 5)` yields. */
  function HatchCount(g: Config): nat
  {
    (g.boxSize + 4) / 5
  }

  /** The hatch segment at offset `i`: from the left edge, `i` pixels down, to the top
      edge, `i` pixels across. */
  function HatchLine(color: Color, pos: Position, i: int): DrawCommand
  {
    Line(color, Position(pos.x, pos.y + i), Position(pos.x + i, pos.y))
  }

  function Hatch(g: Config, color: Color, pos: Position): seq<DrawCommand>
  {
    seq(HatchCount(g), k => HatchLine(color, pos, 5 * k))
  }

  /** What `drawIcon(icon, coords)` draws, by shape. */
  function IconCommands(g: Config, icon: Icon, pos: Position): seq<DrawCommand>
  {
    var q, h, b := Quarter(g), Half(g), g.boxSize;
    match icon.shape
    case Donut =>
      [Circle(icon.color, Position(pos.x + h, pos.y + h), h - 5),
       Circle(BgColor, Position(pos.x + h, pos.y + h), q - 5)]
    case Square =>
      [Rect(icon.color, pos.x + q, pos.y + q, b - h, b - h)]
    case Diamond =>
      [Polygon(icon.color, [Position(pos.x + h, pos.y), Position(pos.x + b, pos.y + h),
                            Position(pos.x + h, pos.y + b), Position(pos.x, pos.y + h)])]
    case Lines =>
      Hatch(g, icon.color, pos)
    case Oval =>
      [Ellipse(icon.color, pos.x, pos.y + q, b, h)]
  }

  /** The face-down tile: a `BOX_SIZE` square in `BOX_COLOR`. */
  function FaceDown(g: Config, pos: Position): DrawCommand
  {
    Rect(BoxColor, pos.x, pos.y, g.boxSize, g.boxSize)
  }

  ghost predicate IsFaceDown(g: Config, c: DrawCommand)
  {
    c.Rect? && c.color == BoxColor && c.width == g.boxSize && c.height == g.boxSize
  }

  /** `geticon(board, placeX, placeY)`: rebuilds the icon from the cell's fields, which
      is the cell's icon itself. */
  function GetIcon(board: seq<seq<Icon>>, placeX: nat, placeY: nat): (r: Icon)
    requires placeX < |board| && placeY < |board[placeX]|
    ensures r == board[placeX][placeY]
  {
    Icon(board[placeX][placeY].shape, board[placeX][placeY].color)
  }

  /** What `drawBoard` draws for cell `(x, y)`: the face-down tile when the cell is
      hidden, the cell's icon when it is revealed. */
  function CellCommands(g: Config, board: seq<seq<Icon>>, revealed: seq<seq<bool>>, x: nat, y: nat): seq<DrawCommand>
    requires IsGrid(board, g.columns, g.rows) && IsGrid(revealed, g.columns, g.rows)
    requires x < g.columns && y < g.rows
  {
    var pos := LeftTopCoordsOfBox(g, x, y);
    if !revealed[x][y] then [FaceDown(g, pos)] else IconCommands(g, GetIcon(board, x, y), pos)
  }

  /** The drawing of every cell, indexed like the board. */
  function CellGrid(g: Config, board: seq<seq<Icon>>, revealed: seq<seq<bool>>): seq<seq<seq<DrawCommand>>>
    requires IsGrid(board, g.columns, g.rows) && IsGrid(revealed, g.columns, g.rows)
  {
    seq(g.columns, x requires 0 <= x < g.columns =>
      seq(g.rows, y requires 0 <= y < g.rows => CellCommands(g, board, revealed, x, y)))
  }

  /** The per-cell drawings in the order `drawBoard` visits the cells. */
  function CellDrawings(g: Config, board: seq<seq<Icon>>, revealed: seq<seq<bool>>): seq<seq<DrawCommand>>
    requires IsGrid(board, g.columns, g.rows) && IsGrid(revealed, g.columns, g.rows)
  {
    Concat(CellGrid(g, board, revealed))
  }

  /** Everything `drawBoard` issues, in order. */
  function BoardCommands(g: Config, board: seq<seq<Icon>>, revealed: seq<seq<bool>>): seq<DrawCommand>
    requires IsGrid(board, g.columns, g.rows) && IsGrid(revealed, g.columns, g.rows)
  {
    Concat(CellDrawings(g, board, revealed))
  }

  // ----- the shapes -----

  /** The hatch segments start at exactly the offsets of `range(0, BOX_SIZE, 5)`. */
  lemma HatchIsRange(g: Config, color: Color, pos: Position)
    ensures forall k :: 0 <= k < |Hatch(g, color, pos)| ==> 0 <= 5 * k < g.boxSize
    ensures forall i :: 0 <= i < g.boxSize && i % 5 == 0 ==>
              i / 5 < |Hatch(g, color, pos)| && Hatch(g, color, pos)[i / 5] == HatchLine(color, pos, i)
  {
  }

  /** With `BOX_SIZE` 40, LINES draws 8 segments, at offsets 0, 5, ..., 35. */
  lemma DefaultLinesIcon(color: Color, pos: Position)
    ensures |IconCommands(Default, Icon(Lines, color), pos)| == 8
    ensures forall k :: 0 <= k < 8 ==>
              IconCommands(Default, Icon(Lines, color), pos)[k] ==
              Line(color, Position(pos.x, pos.y + 5 * k), Position(pos.x + 5 * k, pos.y))
  {
  }

  /** An icon is drawn with two circles (DONUT), one segment per hatch offset (LINES)
      or a single shape; everything is in the icon's colour except the donut's hole. */
  lemma IconCommandsShape(g: Config, icon: Icon, pos: Position)
    ensures |IconCommands(g, icon, pos)| == match icon.shape
                                             case Donut => 2
                                             case Lines => HatchCount(g)
                                             case _ => 1
    ensures forall c :: c in IconCommands(g, icon, pos) ==>
              c.color == icon.color || (icon.shape == Donut && c.color == BgColor)
  {
  }

  function Midpoint(a: Position, b: Position): Position
  {
    Position((a.x + b.x) / 2, (a.y + b.y) / 2)
  }

  /** For an even tile size, the diamond's corners are the midpoints of the tile's top,
      right, bottom and left edges. */
  lemma DiamondMidpoints(g: Config, color: Color, pos: Position)
    requires g.boxSize % 2 == 0
    ensures var b := g.boxSize;
            var tl, tr := pos, Position(pos.x + b, pos.y);
            var br, bl := Position(pos.x + b, pos.y + b), Position(pos.x, pos.y + b);
            IconCommands(g, Icon(Diamond, color), pos) ==
              [Polygon(color, [Midpoint(tl, tr), Midpoint(tr, br), Midpoint(br, bl), Midpoint(bl, tl)])]
  {
  }

  /** The donut is a ring: a disc in the icon's colour and, on the same centre, a
      smaller disc in the background colour. */
  lemma DonutIsRing(g: Config, color: Color, pos: Position)
    requires g.boxSize >= 2
    ensures var cs := IconCommands(g, Icon(Donut, color), pos);
            |cs| == 2 && cs[0].Circle? && cs[1].Circle? &&
            cs[0].color == color && cs[1].color == BgColor &&
            cs[0].center == cs[1].center && cs[1].radius < cs[0].radius
  {
  }

  /** When the tile size is a multiple of 4, the square is centred in the tile, half as
      wide, and the oval spans the tile's width and the middle half of its height. */
  lemma SquareAndOvalCentred(g: Config, color: Color, pos: Position)
    requires g.boxSize % 4 == 0
    ensures var r := IconCommands(g, Icon(Square, color), pos)[0];
            2 * r.width == g.boxSize && r.width == r.height &&
            r.left - pos.x == (pos.x + g.boxSize) - (r.left + r.width) &&
            r.top - pos.y == (pos.y + g.boxSize) - (r.top + r.height)
    ensures var e := IconCommands(g, Icon(Oval, color), pos)[0];
            e.left == pos.x && e.width == g.boxSize && 2 * e.height == g.boxSize &&
            e.top - pos.y == (pos.y + g.boxSize) - (e.top + e.height)
  {
  }

  /** The command stays within the `BOX_SIZE` square at `p` (edges included). */
  ghost predicate Within(g: Config, c: DrawCommand, p: Position)
  {
    var lo, hix, hiy := p, p.x + g.boxSize, p.y + g.boxSize;
    match c
    case Rect(_, l, t, w, h) => lo.x <= l && l + w <= hix && lo.y <= t && t + h <= hiy
    case Ellipse(_, l, t, w, h) => lo.x <= l && l + w <= hix && lo.y <= t && t + h <= hiy
    case Circle(_, o, r) =>
      lo.x <= o.x - r && o.x + r <= hix && lo.y <= o.y - r && o.y + r <= hiy
    case Polygon(_, vs) =>
      forall v :: v in vs ==> lo.x <= v.x <= hix && lo.y <= v.y <= hiy
    case Line(_, s, e) =>
      lo.x <= s.x <= hix && lo.y <= s.y <= hiy && lo.x <= e.x <= hix && lo.y <= e.y <= hiy
  }

  /** Every icon drawing stays inside its tile. */
  lemma IconWithinTile(g: Config, icon: Icon, pos: Position)
    ensures forall c :: c in IconCommands(g, icon, pos) ==> Within(g, c, pos)
  {
    if icon.shape == Lines {
      HatchIsRange(g, icon.color, pos);
    }
  }

  /** No icon drawing is mistaken for a face-down tile. */
  lemma IconNeverFaceDown(g: Config, icon: Icon, pos: Position)
    requires g.boxSize >= 2
    ensures forall c :: c in IconCommands(g, icon, pos) ==> !IsFaceDown(g, c)
  {
  }

  // ----- the board -----

  /** `drawBoard` issues one drawing per cell, column by column: the drawing of cell
      `(x, y)` is the `x * ROWS + y`-th. */
  lemma CellOrder(g: Config, board: seq<seq<Icon>>, revealed: seq<seq<bool>>, x: nat, y: nat)
    requires IsGrid(board, g.columns, g.rows) && IsGrid(revealed, g.columns, g.rows)
    requires x < g.columns && y < g.rows
    ensures |CellDrawings(g, board, revealed)| == Cells(g)
    ensures x * g.rows + y < Cells(g)
    ensures CellDrawings(g, board, revealed)[x * g.rows + y] == CellCommands(g, board, revealed, x, y)
  {
    var grid := CellGrid(g, board, revealed);
    ConcatGridLength(grid, g.rows);
    ConcatGridAt(grid, g.rows, x, y);
  }

  /** A command of the board drawing belongs to the drawing of some cell. */
  lemma BoardCommandCell(g: Config, board: seq<seq<Icon>>, revealed: seq<seq<bool>>, c: DrawCommand)
    requires IsGrid(board, g.columns, g.rows) && IsGrid(revealed, g.columns, g.rows)
    requires c in BoardCommands(g, board, revealed)
    ensures exists x, y :: 0 <= x < g.columns && 0 <= y < g.rows && c in CellCommands(g, board, revealed, x, y)
  {
    var grid := CellGrid(g, board, revealed);
    ConcatMember(Concat(grid), c);
    var i :| 0 <= i < |Concat(grid)| && c in Concat(grid)[i];
    ConcatMember(grid, Concat(grid)[i]);
    var x :| 0 <= x < |grid| && Concat(grid)[i] in grid[x];
    var y :| 0 <= y < |grid[x]| && grid[x][y] == Concat(grid)[i];
    assert c in CellCommands(g, board, revealed, x, y);
  }

  /** Each per-cell drawing is the drawing of some cell. */
  lemma CellDrawingOfSomeCell(g: Config, board: seq<seq<Icon>>, revealed: seq<seq<bool>>, k: nat)
    requires IsGrid(board, g.columns, g.rows) && IsGrid(revealed, g.columns, g.rows)
    requires k < |CellDrawings(g, board, revealed)|
    ensures exists x, y :: 0 <= x < g.columns && 0 <= y < g.rows &&
              CellDrawings(g, board, revealed)[k] == CellCommands(g, board, revealed, x, y)
  {
    var grid := CellGrid(g, board, revealed);
    var e := Concat(grid)[k];
    ConcatMember(grid, e);
    var x :| 0 <= x < |grid| && e in grid[x];
    var y :| 0 <= y < |grid[x]| && grid[x][y] == e;
  }

  /** With every cell hidden, each cell's drawing is the single face-down tile. */
  lemma AllHiddenCells(g: Config, board: seq<seq<Icon>>, revealed: seq<seq<bool>>)
    requires IsGrid(board, g.columns, g.rows) && IsGrid(revealed, g.columns, g.rows)
    requires forall x, y :: 0 <= x < g.columns && 0 <= y < g.rows ==> !revealed[x][y]
    ensures forall k :: 0 <= k < |CellDrawings(g, board, revealed)| ==>
              |CellDrawings(g, board, revealed)[k]| == 1 && IsFaceDown(g, CellDrawings(g, board, revealed)[k][0])
  {
    var cells := CellDrawings(g, board, revealed);
    forall k | 0 <= k < |cells| ensures |cells[k]| == 1 && IsFaceDown(g, cells[k][0]) {
      CellDrawingOfSomeCell(g, board, revealed, k);
    }
  }

  /** With every cell hidden, `drawBoard` issues exactly `COLUMNS * ROWS` commands, and
      every one of them is a face-down tile. */
  lemma AllHiddenBoard(g: Config, board: seq<seq<Icon>>, revealed: seq<seq<bool>>)
    requires IsGrid(board, g.columns, g.rows) && IsGrid(revealed, g.columns, g.rows)
    requires forall x, y :: 0 <= x < g.columns && 0 <= y < g.rows ==> !revealed[x][y]
    ensures |BoardCommands(g, board, revealed)| == Cells(g)
    ensures forall c :: c in BoardCommands(g, board, revealed) ==> IsFaceDown(g, c)
  {
    AllHiddenCells(g, board, revealed);
    var cells := CellDrawings(g, board, revealed);
    ConcatGridLength(CellGrid(g, board, revealed), g.rows);
    ConcatGridLength(cells, 1);
    forall c | c in BoardCommands(g, board, revealed) ensures IsFaceDown(g, c) {
      ConcatMember(cells, c);
    }
  }

  /** With every cell hidden, the `x * ROWS + y`-th command is the face-down tile at
      the origin of cell `(x, y)`. */
  lemma HiddenCellAt(g: Config, board: seq<seq<Icon>>, revealed: seq<seq<bool>>, x: nat, y: nat)
    requires IsGrid(board, g.columns, g.rows) && IsGrid(revealed, g.columns, g.rows)
    requires forall x, y :: 0 <= x < g.columns && 0 <= y < g.rows ==> !revealed[x][y]
    requires x < g.columns && y < g.rows
    ensures |BoardCommands(g, board, revealed)| == Cells(g)
    ensures x * g.rows + y < Cells(g)
    ensures BoardCommands(g, board, revealed)[x * g.rows + y] == FaceDown(g, LeftTopCoordsOfBox(g, x, y))
  {
    AllHiddenCells(g, board, revealed);
    var cells := CellDrawings(g, board, revealed);
    CellOrder(g, board, revealed, x, y);
    ConcatGridLength(cells, 1);
    ConcatGridAt(cells, 1, x * g.rows + y, 0);
  }

  /** With every cell revealed, `drawBoard` issues one icon drawing per cell and no
      face-down tile at all. */
  lemma AllRevealedBoard(g: Config, board: seq<seq<Icon>>, revealed: seq<seq<bool>>)
    requires IsGrid(board, g.columns, g.rows) && IsGrid(revealed, g.columns, g.rows)
    requires forall x, y :: 0 <= x < g.columns && 0 <= y < g.rows ==> revealed[x][y]
    requires g.boxSize >= 2
    ensures |CellDrawings(g, board, revealed)| == Cells(g)
    ensures forall c :: c in BoardCommands(g, board, revealed) ==> !IsFaceDown(g, c)
  {
    ConcatGridLength(CellGrid(g, board, revealed), g.rows);
    AllRevealedNoFaceDown(g, board, revealed);
  }

  /** A revealed cell `(x, y)` is drawn, as the `x * ROWS + y`-th drawing, by the
      drawing of the board's icon at that cell's origin. */
  lemma RevealedCellAt(g: Config, board: seq<seq<Icon>>, revealed: seq<seq<bool>>, x: nat, y: nat)
    requires IsGrid(board, g.columns, g.rows) && IsGrid(revealed, g.columns, g.rows)
    requires x < g.columns && y < g.rows && revealed[x][y]
    ensures |CellDrawings(g, board, revealed)| == Cells(g)
    ensures x * g.rows + y < Cells(g)
    ensures CellDrawings(g, board, revealed)[x * g.rows + y] ==
              IconCommands(g, board[x][y], LeftTopCoordsOfBox(g, x, y))
  {
    CellOrder(g, board, revealed, x, y);
  }

  lemma AllRevealedNoFaceDown(g: Config, board: seq<seq<Icon>>, revealed: seq<seq<bool>>)
    requires IsGrid(board, g.columns, g.rows) && IsGrid(revealed, g.columns, g.rows)
    requires forall x, y :: 0 <= x < g.columns && 0 <= y < g.rows ==> revealed[x][y]
    requires g.boxSize >= 2
    ensures forall c :: c in BoardCommands(g, board, revealed) ==> !IsFaceDown(g, c)
  {
    forall c | c in BoardCommands(g, board, revealed) ensures !IsFaceDown(g, c) {
      BoardCommandCell(g, board, revealed, c);
      var x, y :| 0 <= x < g.columns && 0 <= y < g.rows && c in CellCommands(g, board, revealed, x, y);
      IconNeverFaceDown(g, board[x][y], LeftTopCoordsOfBox(g, x, y));
    }
  }

  /** Every command of the board drawing that belongs to cell `(x, y)` stays inside
      that cell's tile, whatever the cell shows. */
  lemma CellWithinTile(g: Config, board: seq<seq<Icon>>, revealed: seq<seq<bool>>, x: nat, y: nat)
    requires IsGrid(board, g.columns, g.rows) && IsGrid(revealed, g.columns, g.rows)
    requires x < g.columns && y < g.rows
    ensures forall c :: c in CellCommands(g, board, revealed, x, y) ==> Within(g, c, LeftTopCoordsOfBox(g, x, y))
  {
    IconWithinTile(g, board[x][y], LeftTopCoordsOfBox(g, x, y));
  }

  // ----- the surface -----

  /** What `drawBoard` has issued once it has finished the first `x` columns. */
  ghost function Drawn(g: Config, board: seq<seq<Icon>>, revealed: seq<seq<bool>>, x: nat): seq<DrawCommand>
    requires IsGrid(board, g.columns, g.rows) && IsGrid(revealed, g.columns, g.rows)
    requires x <= g.columns
  {
    Concat(Concat(CellGrid(g, board, revealed)[..x]))
  }

  lemma DrawnNone(g: Config, board: seq<seq<Icon>>, revealed: seq<seq<bool>>)
    requires IsGrid(board, g.columns, g.rows) && IsGrid(revealed, g.columns, g.rows)
    ensures Drawn(g, board, revealed, 0) == []
  {
    assert CellGrid(g, board, revealed)[..0] == [];
  }

  lemma DrawnStep(g: Config, board: seq<seq<Icon>>, revealed: seq<seq<bool>>, x: nat)
    requires IsGrid(board, g.columns, g.rows) && IsGrid(revealed, g.columns, g.rows)
    requires x < g.columns
    ensures Drawn(g, board, revealed, x + 1) == Drawn(g, board, revealed, x) + Concat(CellGrid(g, board, revealed)[x])
  {
    FlattenAppend(CellGrid(g, board, revealed), x);
  }

  lemma DrawnAll(g: Config, board: seq<seq<Icon>>, revealed: seq<seq<bool>>)
    requires IsGrid(board, g.columns, g.rows) && IsGrid(revealed, g.columns, g.rows)
    ensures Drawn(g, board, revealed, g.columns) == BoardCommands(g, board, revealed)
  {
    assert CellGrid(g, board, revealed)[..g.columns] == CellGrid(g, board, revealed);
  }

  /** What the inner loop of `drawBoard` has issued for column `x` once it has
      finished its first `y` cells. */
  ghost function ColumnDrawn(g: Config, board: seq<seq<Icon>>, revealed: seq<seq<bool>>, x: nat, y: nat): seq<DrawCommand>
    requires IsGrid(board, g.columns, g.rows) && IsGrid(revealed, g.columns, g.rows)
    requires x < g.columns && y <= g.rows
  {
    Concat(CellGrid(g, board, revealed)[x][..y])
  }

  lemma ColumnNone(g: Config, board: seq<seq<Icon>>, revealed: seq<seq<bool>>, x: nat)
    requires IsGrid(board, g.columns, g.rows) && IsGrid(revealed, g.columns, g.rows)
    requires x < g.columns
    ensures ColumnDrawn(g, board, revealed, x, 0) == []
  {
    assert CellGrid(g, board, revealed)[x][..0] == [];
  }

  lemma ColumnStep(g: Config, board: seq<seq<Icon>>, revealed: seq<seq<bool>>, x: nat, y: nat)
    requires IsGrid(board, g.columns, g.rows) && IsGrid(revealed, g.columns, g.rows)
    requires x < g.columns && y < g.rows
    ensures ColumnDrawn(g, board, revealed, x, y + 1) == ColumnDrawn(g, board, revealed, x, y) + CellCommands(g, board, revealed, x, y)
  {
    AppendOne(CellGrid(g, board, revealed)[x], y);
  }

  lemma ColumnAll(g: Config, board: seq<seq<Icon>>, revealed: seq<seq<bool>>, x: nat)
    requires IsGrid(board, g.columns, g.rows) && IsGrid(revealed, g.columns, g.rows)
    requires x < g.columns
    ensures ColumnDrawn(g, board, revealed, x, g.rows) == Concat(CellGrid(g, board, revealed)[x])
  {
    assert CellGrid(g, board, revealed)[x][..g.rows] == CellGrid(g, board, revealed)[x];
  }

  /** The display surface, seen as the list of drawing calls made on it. */
  class Surface {
    var commands: seq<DrawCommand>

    constructor ()
      ensures commands == []
    {
      commands := [];
    }

    /** `drawIcon(icon, coords)`, reading shape and colour from `icon`. */
    method DrawIcon(g: Config, icon: Icon, coords: Position)
      modifies this
      ensures commands == old(commands) + IconCommands(g, icon, coords)
    {
      var quarter, half := g.boxSize / 4, g.boxSize / 2;
      var shape, color := icon.shape, icon.color;
      var xPos, yPos := coords.x, coords.y;
      match shape {
        case Donut =>
          commands := commands + [Circle(color, Position(xPos + half, yPos + half), half - 5)];
          commands := commands + [Circle(BgColor, Position(xPos + half, yPos + half), quarter - 5)];
        case Square =>
          commands := commands + [Rect(color, xPos + quarter, yPos + quarter, g.boxSize - half, g.boxSize - half)];
        case Diamond =>
          commands := commands + [Polygon(color, [Position(xPos + half, yPos), Position(xPos + g.boxSize, yPos + half),
                                                  Position(xPos + half, yPos + g.boxSize), Position(xPos, yPos + half)])];
        case Lines =>
          var i := 0;
          ghost var drawn := 0;
          while i < g.boxSize
            invariant i == 5 * drawn && drawn <= HatchCount(g)
            invariant commands == old(commands) + Hatch(g, color, coords)[..drawn]
          {
            assert Hatch(g, color, coords)[..drawn + 1] == Hatch(g, color, coords)[..drawn] + [HatchLine(color, coords, i)];
            commands := commands + [Line(color, Position(xPos, yPos + i), Position(xPos + i, yPos))];
            i := i + 5;
            drawn := drawn + 1;
          }
          assert drawn == HatchCount(g);
        case Oval =>
          commands := commands + [Ellipse(color, xPos, yPos + quarter, g.boxSize, half)];
      }
    }

    /** `drawBoard(board, revealedBoard)`: for every column, for every row, the
        face-down tile or the cell's icon at the cell's origin. */
    method DrawBoard(g: Config, board: seq<seq<Icon>>, revealedBoard: seq<seq<bool>>)
      requires IsGrid(board, g.columns, g.rows) && IsGrid(revealedBoard, g.columns, g.rows)
      modifies this
      ensures commands == old(commands) + BoardCommands(g, board, revealedBoard)
    {
      var boardX := 0;
      DrawnNone(g, board, revealedBoard);
      while boardX < g.columns
        invariant 0 <= boardX <= g.columns
        invariant commands == old(commands) + Drawn(g, board, revealedBoard, boardX)
      {
        DrawColumn(g, board, revealedBoard, boardX);
        DrawnStep(g, board, revealedBoard, boardX);
        boardX := boardX + 1;
      }
      DrawnAll(g, board, revealedBoard);
    }

    /** The inner loop of `drawBoard`: every row of column `boardX`, top to bottom. */
    method DrawColumn(g: Config, board: seq<seq<Icon>>, revealedBoard: seq<seq<bool>>, boardX: nat)
      requires IsGrid(board, g.columns, g.rows) && IsGrid(revealedBoard, g.columns, g.rows)
      requires boardX < g.columns
      modifies this
      ensures commands == old(commands) + Concat(CellGrid(g, board, revealedBoard)[boardX])
    {
      var boardY := 0;
      ColumnNone(g, board, revealedBoard, boardX);
      while boardY < g.rows
        invariant 0 <= boardY <= g.rows
        invariant commands == old(commands) + ColumnDrawn(g, board, revealedBoard, boardX, boardY)
      {
        ColumnStep(g, board, revealedBoard, boardX, boardY);
        var boxPixelPosition := LeftTopCoordsOfBox(g, boardX, boardY);
        if !revealedBoard[boardX][boardY] {
          commands := commands + [FaceDown(g, boxPixelPosition)];
        } else {
          var icon := GetIcon(board, boardX, boardY);
          DrawIcon(g, icon, boxPixelPosition);
        }
        boardY := boardY + 1;
      }
      ColumnAll(g, board, revealedBoard, boardX);
    }
  }

  // ----- the source as written -----

  /** What `drawIcon` is handed, or unpacks: an icon value, or the `Icon` named-tuple
      class itself. */
  datatype IconArg = IconValue(icon: Icon) | IconClass

  /** Unpacking the class object raises `TypeError` (a class is not iterable). */
  datatype DrawFault = NotIterable

  /** `shape, color = arg`. */
  function Unpack(arg: IconArg): Result<Icon, DrawFault>
  {
    match arg
    case IconValue(icon) => Ok(icon)
    case IconClass => Err(NotIterable)
  }

  /** `drawIcon` as written: line 171 unpacks the class `Icon`, not its parameter. */
  function DrawIconAsWritten(g: Config, icon: IconArg, coords: Position): Result<seq<DrawCommand>, DrawFault>
  {
    match Unpack(IconClass)
    case Ok(ic) => Ok(IconCommands(g, ic, coords))
    case Err(e) => Err(e)
  }

  /** `drawIcon` with the unpacking of line 171 reading its parameter. */
  function DrawIconFixed(g: Config, icon: IconArg, coords: Position): Result<seq<DrawCommand>, DrawFault>
  {
    match Unpack(icon)
    case Ok(ic) => Ok(IconCommands(g, ic, coords))
    case Err(e) => Err(e)
  }

  /** One cell of `drawBoard` as written: line 215 hands `drawIcon` the class `Icon`
      instead of the local `icon`. */
  function CellAsWritten(g: Config, board: seq<seq<Icon>>, revealed: seq<seq<bool>>, x: nat, y: nat): Result<seq<DrawCommand>, DrawFault>
    requires IsGrid(board, g.columns, g.rows) && IsGrid(revealed, g.columns, g.rows)
    requires x < g.columns && y < g.rows
  {
    var pos := LeftTopCoordsOfBox(g, x, y);
    if !revealed[x][y] then Ok([FaceDown(g, pos)]) else DrawIconAsWritten(g, IconClass, pos)
  }

  /** As written, drawing a revealed cell always raises, while a hidden cell draws as
      intended. Line 215 alone is enough to raise: even a `drawIcon` that unpacks its
      parameter fails when handed the class. With both lines reading the icon value,
      the revealed cell draws its icon, which is what `CellCommands` does. */
  lemma RevealedCellFailsAsWritten(g: Config, board: seq<seq<Icon>>, revealed: seq<seq<bool>>, x: nat, y: nat)
    requires IsGrid(board, g.columns, g.rows) && IsGrid(revealed, g.columns, g.rows)
    requires x < g.columns && y < g.rows
    ensures revealed[x][y] ==> CellAsWritten(g, board, revealed, x, y) == Err(NotIterable)
    ensures !revealed[x][y] ==> CellAsWritten(g, board, revealed, x, y) == Ok(CellCommands(g, board, revealed, x, y))
    ensures revealed[x][y] ==>
              DrawIconFixed(g, IconValue(GetIcon(board, x, y)), LeftTopCoordsOfBox(g, x, y)) ==
              Ok(CellCommands(g, board, revealed, x, y))
    ensures DrawIconFixed(g, IconClass, LeftTopCoordsOfBox(g, x, y)) == Err(NotIterable)
  {
  }

  /** A concrete instance: on the shipped grid with cell (0, 0) revealed, the board as
      written raises where the corrected board draws the cell's icon. */
  lemma FirstRevealedCellCounterexample(board: seq<seq<Icon>>, revealed: seq<seq<bool>>)
    requires IsGrid(board, 10, 7) && IsGrid(revealed, 10, 7)
    requires revealed[0][0]
    ensures CellAsWritten(Default, board, revealed, 0, 0).Err?
    ensures CellCommands(Default, board, revealed, 0, 0) == IconCommands(Default, board[0][0], Position(70, 65))
  {
    DefaultMargins();
  }
}
