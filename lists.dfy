/** Sequence helpers shared by the board generator, the chunker and the renderer:
    Python's list slicing and list-of-lists flattening, written once. */
module Lists {

  function Min(a: int, b: int): int
  {
    if a <= b then a else b
  }

  /** Python's `s[:n]` for a non-negative `n`: the first `n` elements, or the whole
      list when it is shorter than `n` (slicing never raises). */
  function Take<T>(s: seq<T>, n: nat): (r: seq<T>)
    ensures |r| == Min(n, |s|)
    ensures r == s[..|r|]
  {
    if n <= |s| then s[..n] else s
  }

  /** The elements of the groups, group after group. */
  function Concat<T>(ss: seq<seq<T>>): seq<T>
  {
    if ss == [] then [] else ss[0] + Concat(ss[1..])
  }

  /** A list of `columns` lists, each of length `rows`. */
  ghost predicate IsGrid<T>(grid: seq<seq<T>>, columns: nat, rows: nat)
  {
    |grid| == columns && forall x :: 0 <= x < |grid| ==> |grid[x]| == rows
  }

  /** The distinct values of a list. */
  ghost function Elements<T>(s: seq<T>): set<T>
  {
    set x | x in s
  }

  /** No value occurs twice. */
  ghost predicate Distinct<T>(s: seq<T>)
  {
    forall x :: x in s ==> multiset(s)[x] == 1
  }

  /** Every value that occurs, occurs exactly twice. */
  ghost predicate EachTwice<T>(s: seq<T>)
  {
    forall x :: x in s ==> multiset(s)[x] == 2
  }

  lemma {:induction false} ConcatAppend<T>(ss: seq<seq<T>>, tt: seq<seq<T>>)
    ensures Concat(ss + tt) == Concat(ss) + Concat(tt)
  {
    if ss == [] {
      assert ss + tt == tt;
    } else {
      assert (ss + tt)[1..] == ss[1..] + tt;
      ConcatAppend(ss[1..], tt);
    }
  }

  /** `x * n + y` stays below `columns * n` for a cell of a `columns` by `n` grid. */
  lemma CellIndexBound(x: nat, y: nat, columns: nat, n: nat)
    requires x < columns && y < n
    ensures x * n + y < columns * n
  {
    assert (columns - x - 1) * n >= 0;
    assert columns * n == x * n + n + (columns - x - 1) * n;
  }

  /** Flattening `|grid|` groups of `n` elements gives `|grid| * n` elements. */
  lemma {:induction false} ConcatGridLength<T>(grid: seq<seq<T>>, n: nat)
    requires forall x :: 0 <= x < |grid| ==> |grid[x]| == n
    ensures |Concat(grid)| == |grid| * n
  {
    if grid != [] {
      ConcatGridLength(grid[1..], n);
      assert |grid| * n == n + (|grid| - 1) * n;
    }
  }

  /** Flattening a grid of equal-length groups puts group `x`, element `y` at `x * n + y`. */
  lemma {:induction false} ConcatGridAt<T>(grid: seq<seq<T>>, n: nat, x: nat, y: nat)
    requires forall i :: 0 <= i < |grid| ==> |grid[i]| == n
    requires x < |grid| && y < n
    ensures x * n + y < |Concat(grid)|
    ensures Concat(grid)[x * n + y] == grid[x][y]
  {
    ConcatGridLength(grid, n);
    CellIndexBound(x, y, |grid|, n);
    if x > 0 {
      ConcatGridAt(grid[1..], n, x - 1, y);
      assert x * n + y == n + ((x - 1) * n + y);
    }
  }

  /** A list without repeated values has as many distinct values as elements. */
  lemma {:induction false} DistinctElements<T>(s: seq<T>)
    requires Distinct(s)
    ensures |Elements(s)| == |s|
  {
    if s != [] {
      var a, rest := s[0], s[1..];
      assert s == [a] + rest;
      assert multiset(s) == multiset{a} + multiset(rest);
      assert a !in rest by {
        assert multiset(s)[a] == 1;
      }
      forall x | x in rest ensures multiset(rest)[x] == 1 {
        assert multiset(s)[x] == 1;
      }
      DistinctElements(rest);
      assert Elements(s) == {a} + Elements(rest);
    }
  }

  /** A list with no repeated position-wise values is `Distinct`. */
  lemma {:induction false} DistinctByIndex<T>(s: seq<T>)
    requires forall i, j :: 0 <= i < j < |s| ==> s[i] != s[j]
    ensures Distinct(s)
  {
    if s != [] {
      var a, rest := s[0], s[1..];
      assert s == [a] + rest;
      forall i, j | 0 <= i < j < |rest| ensures rest[i] != rest[j] {
        assert rest[i] == s[i + 1] && rest[j] == s[j + 1];
      }
      DistinctByIndex(rest);
      assert a !in rest by {
        forall k | 0 <= k < |rest| ensures rest[k] != a {
          assert rest[k] == s[k + 1];
        }
      }
      forall x | x in s ensures multiset(s)[x] == 1 {
        assert multiset(s) == multiset{a} + multiset(rest);
      }
    }
  }

  /** A value found at two positions occurs at least twice. */
  lemma TwoPositions<T>(s: seq<T>, i: nat, j: nat)
    requires i < j < |s| && s[i] == s[j]
    ensures multiset(s)[s[i]] >= 2
  {
    assert s == s[..j] + s[j..];
    assert s[i] in s[..j] && s[j] in s[j..];
    assert multiset(s) == multiset(s[..j]) + multiset(s[j..]);
  }

  /** In a `Distinct` list, equal values sit at the same position. */
  lemma DistinctSameIndex<T>(s: seq<T>, i: nat, j: nat)
    requires Distinct(s)
    requires i < |s| && j < |s|
    ensures s[i] == s[j] ==> i == j
  {
    if i < j && s[i] == s[j] {
      TwoPositions(s, i, j);
      assert false;
    }
    if j < i && s[i] == s[j] {
      TwoPositions(s, j, i);
      assert false;
    }
  }

  /** A prefix of a `Distinct` list is `Distinct`. */
  lemma TakeDistinct<T>(s: seq<T>, n: nat)
    requires Distinct(s)
    ensures Distinct(Take(s, n))
  {
    var t := Take(s, n);
    assert s == t + s[|t|..];
    forall x | x in t ensures multiset(t)[x] == 1 {
      assert multiset(s) == multiset(t) + multiset(s[|t|..]);
      assert x in s;
    }
  }

  /** Doubling a `Distinct` list and permuting the result in any way gives a list in
      which every value occurs exactly twice, with as many distinct values as the
      original list has elements. */
  lemma PairedPermutation<T>(sel: seq<T>, t: seq<T>)
    requires Distinct(sel)
    requires multiset(t) == multiset(sel + sel)
    ensures |t| == 2 * |sel|
    ensures EachTwice(t)
    ensures Elements(t) == Elements(sel)
    ensures |Elements(t)| == |sel|
  {
    assert |t| == |multiset(t)| == |multiset(sel + sel)| == |sel + sel|;
    forall x | x in t ensures multiset(t)[x] == 2 {
      assert x in multiset(t);
      assert multiset(sel + sel) == multiset(sel) + multiset(sel);
      assert x in sel;
      assert multiset(sel)[x] == 1;
    }
    forall x ensures x in t <==> x in sel {
      assert x in t <==> x in multiset(t);
      assert x in sel + sel <==> x in sel;
    }
    DistinctElements(sel);
  }

  /** Any reordering of a list keeps it `Distinct`. */
  lemma PermutedDistinct<T>(s: seq<T>, t: seq<T>)
    requires Distinct(s) && multiset(t) == multiset(s)
    ensures Distinct(t)
  {
    forall x | x in t ensures multiset(t)[x] == 1 {
      assert x in multiset(t);
    }
  }

  /** Reorder `all`, take its first `n` elements, double them and reorder again: the
      result has twice the taken length, holds only elements of `all`, and when `all`
      is `Distinct` each of its values occurs exactly twice. */
  lemma ShuffledPairs<T>(all: seq<T>, shuffled: seq<T>, n: nat, t: seq<T>)
    requires multiset(shuffled) == multiset(all)
    requires multiset(t) == multiset(Take(shuffled, n) + Take(shuffled, n))
    ensures |t| == 2 * Min(n, |all|)
    ensures forall x :: x in t ==> x in all
    ensures Distinct(all) ==> EachTwice(t) && |Elements(t)| == Min(n, |all|)
  {
    var chosen := Take(shuffled, n);
    assert |shuffled| == |multiset(shuffled)| == |all|;
    assert |t| == |multiset(t)| == |chosen + chosen|;
    assert shuffled == chosen + shuffled[|chosen|..];
    forall x | x in t ensures x in all {
      assert x in multiset(t);
      assert x in chosen;
      assert x in multiset(shuffled);
    }
    if Distinct(all) {
      PermutedDistinct(all, shuffled);
      TakeDistinct(shuffled, n);
      PairedPermutation(chosen, t);
    }
  }

  /** An element of the joined list comes from one of the groups. */
  lemma {:induction false} ConcatMember<T>(ss: seq<seq<T>>, v: T)
    requires v in Concat(ss)
    ensures exists i :: 0 <= i < |ss| && v in ss[i]
  {
    if v !in ss[0] {
      ConcatMember(ss[1..], v);
      var i :| 0 <= i < |ss[1..]| && v in ss[1..][i];
      assert v in ss[i + 1];
    }
  }

  /** Joining one more group onto a prefix appends that group. */
  lemma AppendOne<T>(ss: seq<seq<T>>, i: nat)
    requires i < |ss|
    ensures Concat(ss[..i + 1]) == Concat(ss[..i]) + ss[i]
  {
    assert ss[..i + 1] == ss[..i] + [ss[i]];
    ConcatAppend(ss[..i], [ss[i]]);
    assert Concat([ss[i]]) == ss[i] + Concat([]);
  }

  /** Flattening one more column of groups appends that column's flattening. */
  lemma FlattenAppend<T>(grid: seq<seq<seq<T>>>, i: nat)
    requires i < |grid|
    ensures Concat(Concat(grid[..i + 1])) == Concat(Concat(grid[..i])) + Concat(grid[i])
  {
    AppendOne(grid, i);
    ConcatAppend(Concat(grid[..i]), grid[i]);
  }

  /** The next column of a `columns` by `n` grid starts `n` cells further on and still
      fits. */
  lemma RowStep(x: nat, n: nat, columns: nat)
    requires x < columns
    ensures (x + 1) * n == x * n + n
    ensures (x + 1) * n <= columns * n
  {
    MulMono(x + 1, columns, n);
  }

  lemma MulMono(a: nat, b: nat, n: nat)
    requires a <= b
    ensures a * n <= b * n
  {
    assert b * n == a * n + (b - a) * n;
  }

  /** A quotient stays below `m` when the dividend stays below `m` divisors. */
  lemma DivBelow(k: nat, n: nat, m: nat)
    requires 0 < n && k < m * n
    ensures k / n < m
    ensures k == (k / n) * n + k % n
  {
    var i := k / n;
    assert k == i * n + k % n;
    if m <= i {
      MulMono(m, i, n);
      assert false;
    }
  }
}
