/** The icon catalog: every shape paired with every colour (main.py:13-27, 95-98). */
module Icons {
  import opened Lists

  /** The five shape tags of the `shapes` dictionary. */
  datatype Shape = Donut | Square | Diamond | Lines | Oval

  /** The named colours the game uses. Their RGB values live in `utils.colors`, which is
      not part of this model; the names are taken to be pairwise different colours. */
  datatype Color = Red | Green | Blue | Yellow | Lime | Purple | Teal | NavyBlue | Gray | White

  /** The `Icon(shape, color)` named tuple. */
  datatype Icon = Icon(shape: Shape, color: Color)

  /** The icons of one shape, in colour order: the inner `for color in COLORS`. */
  function ShapeRow(shape: Shape, colors: seq<Color>): seq<Icon>
  {
    seq(|colors|, j requires 0 <= j < |colors| => Icon(shape, colors[j]))
  }

  /** `[Icon(shape, color) for shape in SHAPES for color in COLORS]`: shape-major,
      one icon per pair. */
  function Catalog(shapes: seq<Shape>, colors: seq<Color>): (r: seq<Icon>)
    ensures |r| == |shapes| * |colors|
  {
    var rows := seq(|shapes|, i requires 0 <= i < |shapes| => ShapeRow(shapes[i], colors));
    ConcatGridLength(rows, |colors|);
    Concat(rows)
  }

  /** Shape `i`, colour `j` sits at position `i * |colors| + j`. */
  lemma CatalogAt(shapes: seq<Shape>, colors: seq<Color>, i: nat, j: nat)
    requires i < |shapes| && j < |colors|
    ensures i * |colors| + j < |Catalog(shapes, colors)|
    ensures Catalog(shapes, colors)[i * |colors| + j] == Icon(shapes[i], colors[j])
  {
    ConcatGridAt(seq(|shapes|, i requires 0 <= i < |shapes| => ShapeRow(shapes[i], colors)), |colors|, i, j);
  }

  /** Position `k` of the catalog holds shape `k / |colors|` and colour `k % |colors|`. */
  lemma CatalogIndex(shapes: seq<Shape>, colors: seq<Color>, k: nat)
    requires k < |Catalog(shapes, colors)|
    ensures |colors| > 0 && k / |colors| < |shapes|
    ensures Catalog(shapes, colors)[k] == Icon(shapes[k / |colors|], colors[k % |colors|])
  {
    var n := |colors|;
    assert n > 0;
    DivBelow(k, n, |shapes|);
    CatalogAt(shapes, colors, k / n, k % n);
  }

  /** Every catalog position is that of some shape `i` and colour `j`. */
  lemma CatalogPosition(shapes: seq<Shape>, colors: seq<Color>, k: nat) returns (i: nat, j: nat)
    requires k < |Catalog(shapes, colors)|
    ensures i < |shapes| && j < |colors| && k == i * |colors| + j
    ensures Catalog(shapes, colors)[k] == Icon(shapes[i], colors[j])
  {
    CatalogIndex(shapes, colors, k);
    var n := |colors|;
    DivBelow(k, n, |shapes|);
    i, j := k / n, k % n;
  }

  /** An icon is in the catalog exactly when its shape and its colour are listed. */
  lemma CatalogMembership(shapes: seq<Shape>, colors: seq<Color>, icon: Icon)
    ensures icon in Catalog(shapes, colors) <==> icon.shape in shapes && icon.color in colors
  {
    var cat := Catalog(shapes, colors);
    if icon in cat {
      var k :| 0 <= k < |cat| && cat[k] == icon;
      CatalogIndex(shapes, colors, k);
    }
    if icon.shape in shapes && icon.color in colors {
      var i :| 0 <= i < |shapes| && shapes[i] == icon.shape;
      var j :| 0 <= j < |colors| && colors[j] == icon.color;
      CatalogAt(shapes, colors, i, j);
    }
  }

  /** Two catalog positions holding the same icon are the same position. */
  lemma CatalogInjective(shapes: seq<Shape>, colors: seq<Color>, p: nat, q: nat)
    requires Distinct(shapes) && Distinct(colors)
    requires p < |Catalog(shapes, colors)| && q < |Catalog(shapes, colors)|
    ensures Catalog(shapes, colors)[p] == Catalog(shapes, colors)[q] ==> p == q
  {
    var cat := Catalog(shapes, colors);
    if cat[p] == cat[q] {
      var i1, j1 := CatalogPosition(shapes, colors, p);
      var i2, j2 := CatalogPosition(shapes, colors, q);
      DistinctSameIndex(shapes, i1, i2);
      DistinctSameIndex(colors, j1, j2);
    }
  }

  /** With distinct shapes and distinct colours, no icon is listed twice. */
  lemma CatalogDistinct(shapes: seq<Shape>, colors: seq<Color>)
    requires Distinct(shapes) && Distinct(colors)
    ensures Distinct(Catalog(shapes, colors))
  {
    var cat := Catalog(shapes, colors);
    forall p, q | 0 <= p < q < |cat| ensures cat[p] != cat[q] {
      CatalogInjective(shapes, colors, p, q);
    }
    DistinctByIndex(cat);
  }
}
