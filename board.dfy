/** Board generation: pick the icons, pair them, shuffle, and deal them column by
    column (main.py:95-125). */
module Board {
  import opened Lists
  import opened Icons
  import opened GameConfig

  /** The `k`-th number the random source hands out, counting from 0; a source that has
      run dry reads 0. */
  function Draw(draws: seq<nat>, k: nat): nat
  {
    if k < |draws| then draws[k] else 0
  }

  /** `random.shuffle`: reorders the list in place by Fisher-Yates swaps whose partners
      come from the injected random source. Whatever the source yields, the list keeps
      its elements. */
  method Shuffle<T>(a: array<T>, draws: seq<nat>)
    modifies a
    ensures multiset(a[..]) == old(multiset(a[..]))
  {
    var i := a.Length - 1;
    while i > 0
      invariant -1 <= i < a.Length
      invariant multiset(a[..]) == old(multiset(a[..]))
    {
      var j := Draw(draws, a.Length - 1 - i) % (i + 1);
      a[i], a[j] := a[j], a[i];
      i := i - 1;
    }
  }

  /** `getIconsList`: shuffle the catalog, keep its first `IconsNeeded` icons, double
      them and shuffle again. Whatever the two shuffles do, every icon of the result
      comes from the catalog, and with a palette of distinct shapes and colours each
      icon occurs exactly twice. */
  method GetIconsList(g: Config, draws1: seq<nat>, draws2: seq<nat>) returns (icons: seq<Icon>)
    ensures |icons| == 2 * Min(IconsNeeded(g), |CatalogOf(g)|)
    ensures forall ic :: ic in icons ==> ic in CatalogOf(g)
    ensures PaletteDistinct(g) ==> EachTwice(icons) && |Elements(icons)| == Min(IconsNeeded(g), |CatalogOf(g)|)
  {
    var all := CatalogOf(g);
    var a := new Icon[|all|](i requires 0 <= i < |all| => all[i]);
    assert a[..] == all;
    Shuffle(a, draws1);
    var shuffled := a[..];
    var chosen := Take(shuffled, IconsNeeded(g));
    var doubled := chosen + chosen;
    var b := new Icon[|doubled|](i requires 0 <= i < |doubled| => doubled[i]);
    assert b[..] == doubled;
    Shuffle(b, draws2);
    icons := b[..];

    ShuffledPairs(all, shuffled, IconsNeeded(g), icons);
    if PaletteDistinct(g) {
      CatalogDistinct(g.shapes, g.colors);
    }
  }

  /** The dealing loop of `getRandomizedBoard`: `COLUMNS` times, take `ROWS` icons off
      the front of the list into a new column. The board is the consumed prefix of the
      list, cut into columns. */
  method DealBoard(icons: seq<Icon>, columns: nat, rows: nat) returns (board: seq<seq<Icon>>)
    requires columns * rows <= |icons|
    ensures IsGrid(board, columns, rows)
    ensures Concat(board) == icons[..columns * rows]
  {
    var rest := icons;
    board := [];
    var x := 0;
    while x < columns
      invariant 0 <= x <= columns
      invariant x * rows <= |icons|
      invariant IsGrid(board, x, rows)
      invariant Concat(board) == icons[..x * rows]
      invariant rest == icons[x * rows..]
    {
      RowStep(x, rows, columns);
      var column := [];
      var y := 0;
      while y < rows
        invariant 0 <= y <= rows
        invariant column == icons[x * rows .. x * rows + y]
        invariant rest == icons[x * rows + y..]
      {
        column := column + [rest[0]];
        rest := rest[1..];
        y := y + 1;
      }
      ConcatAppend(board, [column]);
      assert Concat([column]) == column + Concat([]);
      assert icons[..x * rows] + column == icons[..(x + 1) * rows];
      board := board + [column];
      x := x + 1;
    }
  }

  /** Cell `(x, y)` of a dealt board holds icon `x * rows + y` of the list. */
  lemma DealtCell(icons: seq<Icon>, board: seq<seq<Icon>>, columns: nat, rows: nat, x: nat, y: nat)
    requires columns * rows <= |icons|
    requires IsGrid(board, columns, rows)
    requires Concat(board) == icons[..columns * rows]
    requires x < columns && y < rows
    ensures x * rows + y < columns * rows
    ensures board[x][y] == icons[x * rows + y]
  {
    ConcatGridAt(board, rows, x, y);
    ConcatGridLength(board, rows);
  }

  /** Every cell of a dealt board holds an icon of the list. */
  lemma DealtCellsFromList(icons: seq<Icon>, board: seq<seq<Icon>>, columns: nat, rows: nat)
    requires columns * rows <= |icons|
    requires IsGrid(board, columns, rows)
    requires Concat(board) == icons[..columns * rows]
    ensures forall x, y :: 0 <= x < columns && 0 <= y < rows ==> board[x][y] in icons
  {
    forall x, y | 0 <= x < columns && 0 <= y < rows ensures board[x][y] in icons {
      DealtCell(icons, board, columns, rows, x, y);
    }
  }

  /** `getRandomizedBoard`. With the start-up checks passed, the board is `COLUMNS`
      columns of `ROWS` catalog icons, and with a palette of distinct shapes and
      colours every icon on it sits in exactly two cells, `COLUMNS * ROWS / 2` icons
      in all. */
  method GetRandomizedBoard(g: Config, draws1: seq<nat>, draws2: seq<nat>) returns (board: seq<seq<Icon>>)
    requires CheckConfig(g).Pass?
    ensures IsGrid(board, g.columns, g.rows)
    ensures forall x, y :: 0 <= x < g.columns && 0 <= y < g.rows ==> board[x][y] in CatalogOf(g)
    ensures PaletteDistinct(g) ==> EachTwice(Concat(board)) && |Elements(Concat(board))| == IconsNeeded(g)
  {
    ConfigGuarantees(g);
    var icons := GetIconsList(g, draws1, draws2);
    assert |icons| == Cells(g);
    board := DealBoard(icons, g.columns, g.rows);
    assert Concat(board) == icons;
    DealtCellsFromList(icons, board, g.columns, g.rows);
  }
}
