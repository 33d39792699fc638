# Memory puzzle: board generation, reveal grid, tile geometry and rendering

A Dafny model of the game-independent core of a pygame "memory" puzzle: a 10 by 7
grid of face-down tiles, each hiding one icon (a shape in a colour), every icon on
exactly two tiles. The model covers:

- the icon catalog, every shape crossed with every colour (`Icons`);
- the game constants as one `Config` value, and the two start-up asserts: an even
  number of cells, and a catalog big enough to fill the board with pairs (`GameConfig`);
- the board generator: shuffle the catalog, keep the first `COLUMNS * ROWS / 2`
  icons, double them, shuffle again, and deal the list column by column (`Board`);
- the reveal grid, a same-shaped grid of flags all set to one value (`Reveal`);
- `splitIntoGroupsOf`, cutting a list into consecutive groups (`Chunks`);
- the mapping from a grid cell to its tile's pixel origin, and the margins that
  place the grid in the window (`Coords`);
- rendering as data: every `pygame.draw` call is a `DrawCommand` value, the display
  surface is a `Surface` object holding the list of commands issued to it, and
  `drawIcon` and `drawBoard` are methods that append to that list (`Render`).

`random.shuffle` is modelled as an in-place Fisher-Yates shuffle of an array whose
swap partners come from an injected list of draws. The only thing the rest of the
model uses about it is that it keeps the list's elements (a multiset equality).
So the pairing properties are proved for every outcome of both shuffles.

Shapes and colours are enumerations. The colour names stand for distinct colours;
their RGB values are not modelled. `int(BOX_SIZE * (1/4))`, `int(BOX_SIZE * (1/2))`
and `int(COLUMNS * ROWS / 2)` have non-negative operands, so they are integer
division. The margins `int((width - ...) / 2)` truncate toward zero, and `TruncHalf`
models that for negative operands too.

In four places the code differs from its obvious intent. The model follows the code:

- An unknown shape: the code's `if/elif` chain simply draws nothing. The model has a
  closed enumeration of five shapes, so this case cannot arise.
- A catalog too small for the board: the code does not fail inside `getIconsList`.
  The slice `icons[:iconsNeeded]` just returns fewer icons. `GetIconsList` models
  the slice with `Take`, and only the start-up assert (`CheckConfig`) rejects such
  a configuration.
- Margins: they use truncation toward zero, not floor division.
- Centring: the margins centre `COLUMNS * (BOX_SIZE + GAP_SIZE)` pixels, which
  includes a gap after the last column and after the last row. The drawn tiles
  therefore sit `GAP_SIZE / 2` pixels left of and above the centre. On the shipped
  window the margins are 70 left, 80 right, 65 top and 75 bottom.

The source's `getRandomizedBoard` is split in two. `GetIconsList` is one part.
`DealBoard` is the nested dealing loop, so that the dealt layout can be stated on
its own. `GetRandomizedBoard` composes the two.

## Model

| member | source | states |
|---|---|---|
| `Icons.Catalog` | main.py:98 | the comprehension over shapes, then colours; it yields `len(SHAPES) * len(COLORS)` icons |
| `Icons.CatalogAt` | main.py:98 | shape-major order: shape `i`, colour `j` is at position `i * len(COLORS) + j` |
| `Icons.CatalogIndex` | main.py:98 | position `k` holds shape `k / len(COLORS)` and colour `k % len(COLORS)` |
| `Icons.CatalogPosition` | main.py:98 | every catalog position `k` is that of some listed shape `i` and colour `j`, with `k = i * len(COLORS) + j` |
| `Icons.CatalogMembership` | main.py:98 | an icon is in the catalog exactly when its shape is in `SHAPES` and its colour in `COLORS` |
| `Icons.CatalogDistinct` | main.py:98 | with distinct shapes and distinct colours, the catalog lists no icon twice |
| `GameConfig.IconsNeeded` | main.py:101 | `int(COLUMNS * ROWS / 2)`: the largest count whose double does not exceed the cell count |
| `GameConfig.CheckConfig` | main.py:42-44 | passes exactly when the cell count is even and `len(COLORS) * len(SHAPES) * 2 >= COLUMNS * ROWS`; an odd count is reported first, with the offending cell count |
| `GameConfig.ConfigGuarantees` | main.py:101-104 | after both asserts, `iconsNeeded` pairs fill the cells exactly and the slice `icons[:iconsNeeded]` has `iconsNeeded` elements |
| `GameConfig.DefaultIsBoundary` | main.py:25-44 | the shipped 10 by 7 grid with 5 shapes and 7 colours passes, and needs all 35 catalog icons |
| `GameConfig.OddGridRejected` | main.py:42 | a 3 by 3 grid fails the parity check |
| `GameConfig.SmallCatalogRejected` | main.py:44 | a 5 by 2 catalog fails the sufficiency check for 70 cells |
| `Coords.TruncHalf` | main.py:38-39 | `int(n / 2)`: twice the result is within one of `n` and lies between `n` and 0, so the quotient is rounded toward zero (floor division for `n >= 0`) |
| `Coords.XMargin` | main.py:38 | `X_MARGIN` centres the span `COLUMNS * (BOX_SIZE + GAP_SIZE)`, trailing gap included, to within one pixel; so the margin right of the last drawn tile is `GAP_SIZE` wider than the left one, to within one pixel; non-negative when the columns fit the window |
| `Coords.YMargin` | main.py:39 | `Y_MARGIN` centres the span `ROWS * (BOX_SIZE + GAP_SIZE)`, trailing gap included, to within one pixel; so the margin below the last drawn tile is `GAP_SIZE` wider than the top one, to within one pixel; non-negative when the rows fit the window |
| `Coords.LeftTopCoordsOfBox` | main.py:152-157 | the tile origin of cell `(placeX, placeY)`: each margin plus the index times `BOX_SIZE + GAP_SIZE`; its properties are the lemmas below |
| `Coords.DefaultMargins` | main.py:32-39 | the shipped margins are 70 and 65, the origin of cell (0, 0) |
| `Coords.DefaultVisibleMargins` | main.py:32-39 | on the shipped window the last tile's origin is (520, 365), leaving margins of 80 right and 75 bottom, against 70 left and 65 top |
| `Coords.NeighbourStep` | main.py:152-157 | one cell right or down moves the origin by `BOX_SIZE + GAP_SIZE` along that axis only |
| `Coords.TilesDisjoint` | main.py:152-157 | no pixel lies in the `BOX_SIZE` tiles of two different cells |
| `Coords.TileInsideWindow` | main.py:152-157 | when the grid fits the window, every tile of the grid lies inside the window |
| `Coords.DefaultTilesInsideWindow` | main.py:32-39 | every tile of the shipped grid lies inside the 640 by 480 window |
| `Board.Shuffle` | main.py:103 | shuffling in place keeps the list's elements |
| `Lists.Take` | main.py:104 | the slice `s[:n]` is the first `min(n, len(s))` elements |
| `Lists.ShuffledPairs` | main.py:101-106 | for any outcome of both shuffles, the doubled selection has twice the selected length, holds only catalog icons, and, when the catalog lists no icon twice, each icon exactly twice |
| `Board.GetIconsList` | main.py:95-108 | the list has `2 * iconsNeeded` icons (when the catalog suffices), all from the catalog; with a distinct palette each occurs exactly twice and `iconsNeeded` distinct icons occur |
| `Board.DealBoard` | main.py:116-125 | `COLUMNS` columns of `ROWS` icons whose concatenation is the consumed prefix of the list |
| `Board.DealtCell` | main.py:118-123 | cell `(x, y)` holds icon `x * ROWS + y` of the list |
| `Board.GetRandomizedBoard` | main.py:112-125 | a `COLUMNS` by `ROWS` board of catalog icons; with a distinct palette every icon sits in exactly two cells and `COLUMNS * ROWS / 2` distinct icons occur |
| `Reveal.GenerateRevealedBoxesData` | main.py:129-136 | `COLUMNS` lists of `ROWS` flags, every one equal to `val` |
| `Chunks.Groups` | main.py:145-146 | the slices `list[i : i + groupSize]` for `i = 0, groupSize, 2 * groupSize, ...`; every group has between 1 and `groupSize` elements |
| `Chunks.SplitIntoGroupsOf` | main.py:140-148 | a zero group size raises, a negative one yields no groups, a positive one yields `Groups` |
| `Chunks.GroupsFrom` | main.py:145-146 | the groups from index `i` start with the clipped slice `list[i : i + groupSize]` |
| `Chunks.GroupsConcat` | main.py:140-148 | concatenating the groups gives the list back |
| `Chunks.GroupsSizes` | main.py:140-148 | every group but the last has `groupSize` elements, the last between 1 and `groupSize` |
| `Chunks.GroupsCount` | main.py:145 | the number of groups is `ceil(len / groupSize)`: the fewest groups of that size that hold the list |
| `Render.GetIcon` | main.py:161-163 | rebuilding the icon from the cell's fields gives the cell's icon |
| `Render.IconCommands` | main.py:167-195 | the calls `drawIcon` makes for an icon at a tile origin, chosen by its shape; its properties are the lemmas below |
| `Render.IconCommandsShape` | main.py:174-195 | DONUT draws two circles, LINES one segment per offset of `range(0, BOX_SIZE, 5)`, every other shape one call; all are in the icon's colour except the donut's hole, in `BG_COLOR` |
| `Render.HatchIsRange` | main.py:190-192 | the LINES segments start at exactly the offsets of `range(0, BOX_SIZE, 5)` |
| `Render.DefaultLinesIcon` | main.py:190-192 | with `BOX_SIZE` 40, LINES draws 8 segments from `(x, y+i)` to `(x+i, y)`, `i = 0, 5, ..., 35` |
| `Render.DiamondMidpoints` | main.py:182-188 | for an even tile size, the diamond's corners are the midpoints of the tile's four edges |
| `Render.DonutIsRing` | main.py:174-176 | for a tile of at least 2 pixels, two concentric discs, the inner one smaller and in `BG_COLOR` |
| `Render.SquareAndOvalCentred` | main.py:178-195 | for a tile size that is a multiple of 4, the square is half the tile and centred; the oval spans the width and the middle half of the height |
| `Render.IconWithinTile` | main.py:167-195 | every command of an icon drawing stays inside its tile, edges included (a vertex may lie on `x + BOX_SIZE` or `y + BOX_SIZE`) |
| `Render.IconNeverFaceDown` | main.py:167-195 | for a tile of at least 2 pixels, no icon drawing is a `BOX_SIZE` square in `BOX_COLOR` |
| `Render.CellCommands` | main.py:205-215 | what `drawBoard` draws for one cell: the face-down tile when the cell is hidden, the cell's icon at its origin when revealed |
| `Render.BoardCommands` | main.py:199-215 | everything `drawBoard` draws: the cells' drawings joined column by column |
| `Render.CellOrder` | main.py:199-215 | `drawBoard` issues one drawing per cell, column by column; cell `(x, y)`'s is the `x * ROWS + y`-th |
| `Render.BoardCommandCell` | main.py:199-215 | every command issued belongs to the drawing of some cell |
| `Render.CellWithinTile` | main.py:199-215 | everything drawn for a cell stays inside that cell's tile |
| `Render.AllHiddenBoard` | main.py:207-209 | with every cell hidden, exactly `COLUMNS * ROWS` commands, all face-down tiles |
| `Render.HiddenCellAt` | main.py:205-209 | with every cell hidden, the `x * ROWS + y`-th command is the face-down tile at cell `(x, y)`'s origin |
| `Render.AllRevealedBoard` | main.py:211-215 | with every cell revealed, one drawing per cell and no face-down tile |
| `Render.RevealedCellAt` | main.py:211-215 | a revealed cell is drawn as the board's icon at that cell, at the cell's origin |
| `Render.Surface.DrawIcon` | main.py:167-195 | appends the icon's drawing, chosen by the icon's own shape and colour, to the surface |
| `Render.Surface.DrawBoard` | main.py:199-215 | appends the drawing of every cell, in visiting order, to the surface |
| `Render.Surface.DrawColumn` | main.py:203-215 | appends the drawings of one column's cells, top to bottom, to the surface |
| `Render.DrawIconAsWritten` | main.py:171 | `drawIcon` as written: it unpacks the class `Icon` whatever it is handed, so it raises |
| `Render.CellAsWritten` | main.py:205-215 | one cell of `drawBoard` as written: a hidden cell draws the tile, a revealed one hands the class `Icon` to `drawIcon` |
| `Render.RevealedCellFailsAsWritten` | main.py:171-215 | as written, a revealed cell raises and a hidden one draws as intended; handing the class to a `drawIcon` that unpacks its parameter still raises, so line 215 fails on its own; reading the icon value draws the cell's icon |
| `Render.FirstRevealedCellCounterexample` | main.py:213-215 | on the shipped grid with cell (0, 0) revealed, the code as written raises where the corrected code draws the icon at (70, 65) |

## Findings

| source | as written | input that shows it | evidently intended | confidence | as-written member | corrected member |
|---|---|---|---|---|---|---|
| main.py:171 | `shape, color = Icon` unpacks the `Icon` named-tuple class, which is not iterable, so `TypeError` | any call of `drawIcon`, e.g. drawing a board whose cell (0, 0) is revealed | `shape, color = icon` | high (not executed) | `Render.RevealedCellFailsAsWritten` | `Render.Surface.DrawIcon` |
| main.py:215 | `drawIcon(Icon, boxPixelPosition)` passes the class, not the local `icon` | any revealed cell, e.g. cell (0, 0) of the shipped grid | `drawIcon(icon, boxPixelPosition)` | high (not executed) | `Render.FirstRevealedCellCounterexample` | `Render.RevealedCellAt` |

`CellAsWritten` and `DrawIconAsWritten` model the two lines as written. The rest of
the model (`CellCommands`, `Surface.DrawIcon`, `Surface.DrawBoard`) reads shape and
colour from the icon passed in.

## Left out

- `main()` and the frame loop (main.py:57-91): `pygame.init`, the caption, filling
  the background, event polling, quit and escape handling, `display.update` and the
  30 FPS clock. This is I/O and frame pacing.
- Pixel rasterisation by `pygame.draw.*`: a foreign library. Only the commands
  issued are modelled.
- The colour values from `utils.colors`: not part of this model. The colour names
  are taken to be pairwise distinct.
- The quality of `random.shuffle`'s randomness. The model injects the random draws,
  and a source that runs out reads as 0. It does not prove that every permutation
  is reachable. The properties are proved for every element-preserving result.
- `startGameAnimation` (main.py:219-231): it is never called and unfinished.
- `REVEAL_SPEED`, `HIGHLIGHT_COLOR`, `LIGHT_BG_COLOR`, `FPS`, `mousePosition` and
  `firstSelection`: they are unused.
- Selection, flipping, match and win detection: the source does not implement them.
- Board.GetIconsList: the exactly-twice guarantee is stated only for a palette with
  distinct shapes and distinct colours. If a shape or colour were listed twice,
  the same icon would appear more than twice.
- Render.AllRevealedBoard: "no face-down tile" needs a tile of at least 2 pixels.
  Below that, a square icon in `BOX_COLOR` would have the face-down tile's size.
