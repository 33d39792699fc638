/** The game's constants as one configuration value, and the two start-up checks that
    guard them (main.py:25-44, 47-49). */
module GameConfig {
  import opened Lists
  import opened Icons

  /** The `Size(width, height)` named tuple. */
  datatype Size = Size(width: int, height: int)

  /** Grid geometry, window and palette: `COLUMNS`, `ROWS`, `BOX_SIZE`, `GAP_SIZE`,
      `WINDOW_SIZE`, `SHAPES`, `COLORS`. */
  datatype Config = Config(
    columns: nat,
    rows: nat,
    boxSize: nat,
    gapSize: nat,
    window: Size,
    shapes: seq<Shape>,
    colors: seq<Color>)

  /** The values the game is built with. */
  const Default: Config := Config(10, 7, 40, 10, Size(640, 480),
                                  [Donut, Square, Diamond, Lines, Oval],
                                  [Red, Green, Blue, Yellow, Lime, Purple, Teal])

  /** `BG_COLOR` and `BOX_COLOR`. */
  const BgColor: Color := NavyBlue
  const BoxColor: Color := White

  function Cells(g: Config): nat
  {
    g.columns * g.rows
  }

  /** `int(COLUMNS * ROWS / 2)`: the operands are non-negative, so truncating the float
      quotient is floor division. */
  function IconsNeeded(g: Config): (r: nat)
    ensures 2 * r <= Cells(g) <= 2 * r + 1
  {
    Cells(g) / 2
  }

  function CatalogOf(g: Config): seq<Icon>
  {
    Catalog(g.shapes, g.colors)
  }

  /** Shapes are pairwise different and colours are pairwise different. */
  ghost predicate PaletteDistinct(g: Config)
  {
    Distinct(g.shapes) && Distinct(g.colors)
  }

  datatype ConfigError =
    | OddCellCount(columns: nat, rows: nat, cells: nat)
    | CatalogTooSmall(shapes: nat, colors: nat, cells: nat)

  datatype Check = Pass | Fail(error: ConfigError)

  /** The two module-level asserts, in source order: first the parity of the cell count,
      then `len(COLORS) * len(SHAPES) * 2 >= COLUMNS * ROWS`. */
  function CheckConfig(g: Config): (r: Check)
    ensures r.Pass? <==> Cells(g) % 2 == 0 && |g.colors| * |g.shapes| * 2 >= Cells(g)
    ensures r.Fail? && r.error.OddCellCount? <==> Cells(g) % 2 != 0
    ensures r.Fail? ==> r.error.cells == Cells(g)
  {
    if Cells(g) % 2 != 0 then
      Fail(OddCellCount(g.columns, g.rows, Cells(g)))
    else if |g.colors| * |g.shapes| * 2 < Cells(g) then
      Fail(CatalogTooSmall(|g.shapes|, |g.colors|, Cells(g)))
    else
      Pass
  }

  /** What the two asserts buy the board generator: the cells split exactly into
      `IconsNeeded` pairs, and the catalog's first `IconsNeeded` icons really are
      `IconsNeeded` icons. */
  lemma ConfigGuarantees(g: Config)
    requires CheckConfig(g).Pass?
    ensures 2 * IconsNeeded(g) == Cells(g)
    ensures IconsNeeded(g) <= |CatalogOf(g)|
    ensures |Take(CatalogOf(g), IconsNeeded(g))| == IconsNeeded(g)
  {
    assert |g.colors| * |g.shapes| == |g.shapes| * |g.colors|;
  }

  /** The shipped configuration passes both checks, and needs every one of its 35 icons:
      the boundary case of the sufficiency check. */
  lemma DefaultIsBoundary()
    ensures CheckConfig(Default).Pass?
    ensures PaletteDistinct(Default)
    ensures IconsNeeded(Default) == |CatalogOf(Default)| == 35
  {
    DistinctByIndex(Default.shapes);
    DistinctByIndex(Default.colors);
  }

  /** A 3 by 3 grid fails the parity check before anything else is looked at. */
  lemma OddGridRejected()
    ensures CheckConfig(Default.(columns := 3, rows := 3)) == Fail(OddCellCount(3, 3, 9))
  {
  }

  /** With only two colours the catalog cannot fill a 10 by 7 grid with pairs. */
  lemma SmallCatalogRejected()
    ensures CheckConfig(Default.(colors := [Red, Green])) == Fail(CatalogTooSmall(5, 2, 70))
  {
  }
}
