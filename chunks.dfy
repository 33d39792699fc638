/** `splitIntoGroupsOf`: cut a list into consecutive groups of a given size
    (main.py:140-148). */
module Chunks {
  import opened Lists
  import opened Results

  /** `range(0, n, 0)` raises `ValueError`. */
  datatype SplitError = ZeroStep

  /** Consecutive groups of `size` elements; the last one may be shorter. */
  function Groups<T>(xs: seq<T>, size: nat): (r: seq<seq<T>>)
    requires size > 0
    ensures forall k :: 0 <= k < |r| ==> 1 <= |r[k]| <= size
    decreases |xs|
  {
    if xs == [] then [] else [Take(xs, size)] + Groups(xs[|Take(xs, size)|..], size)
  }

  /** The loop of `splitIntoGroupsOf`: for `i` in `range(0, len(list), groupSize)`,
      append the slice `list[i : i + groupSize]`. A zero step makes `range` raise;
      a negative step from 0 towards a non-negative length yields no index at all. */
  method SplitIntoGroupsOf<T>(groupSize: int, list: seq<T>) returns (r: Result<seq<seq<T>>, SplitError>)
    ensures groupSize == 0 ==> r == Err(ZeroStep)
    ensures groupSize < 0 ==> r == Ok([])
    ensures groupSize > 0 ==> r == Ok(Groups(list, groupSize))
  {
    if groupSize == 0 {
      return Err(ZeroStep);
    }
    var output: seq<seq<T>> := [];
    if groupSize < 0 {
      return Ok(output);
    }
    var listLength := |list|;
    var i := 0;
    while i < listLength
      invariant 0 <= i
      invariant output + Groups(list[Min(i, listLength)..], groupSize) == Groups(list, groupSize)
      decreases listLength - i
    {
      var group := list[i .. Min(i + groupSize, listLength)];
      ghost var later := Groups(list[Min(i + groupSize, listLength)..], groupSize);
      GroupsFrom(list, i, groupSize);
      assert Min(i, listLength) == i;
      assert output + ([group] + later) == (output + [group]) + later;
      output := output + [group];
      i := i + groupSize;
    }
    assert list[Min(i, listLength)..] == [];
    assert Groups(list[Min(i, listLength)..], groupSize) == [];
    assert output + [] == output;
    return Ok(output);
  }

  /** The groups of the suffix from `i` are the slice `xs[i : i + size]` followed by the
      groups of the suffix after that slice. */
  lemma GroupsFrom<T>(xs: seq<T>, i: nat, size: nat)
    requires size > 0 && i < |xs|
    ensures Groups(xs[i..], size) == [xs[i .. Min(i + size, |xs|)]] + Groups(xs[Min(i + size, |xs|)..], size)
  {
    var rest := xs[i..];
    assert Take(rest, size) == xs[i .. Min(i + size, |xs|)];
    assert rest[|Take(rest, size)|..] == xs[Min(i + size, |xs|)..];
  }

  /** Joining the groups gives the list back. */
  lemma {:induction false} GroupsConcat<T>(xs: seq<T>, size: nat)
    requires size > 0
    ensures Concat(Groups(xs, size)) == xs
    decreases |xs|
  {
    if xs != [] {
      var head := Take(xs, size);
      GroupsConcat(xs[|head|..], size);
      assert xs == head + xs[|head|..];
    }
  }

  /** Every group but the last has exactly `size` elements; the last has between 1
      and `size`. */
  lemma {:induction false} GroupsSizes<T>(xs: seq<T>, size: nat)
    requires size > 0
    ensures forall k :: 0 <= k < |Groups(xs, size)| - 1 ==> |Groups(xs, size)[k]| == size
    ensures xs != [] ==> 1 <= |Groups(xs, size)[|Groups(xs, size)| - 1]| <= size
    decreases |xs|
  {
    if xs != [] {
      var head := Take(xs, size);
      var tail := xs[|head|..];
      GroupsSizes(tail, size);
      var gs := Groups(xs, size);
      assert gs == [head] + Groups(tail, size);
      if tail != [] {
        assert |head| == size;
      }
    }
  }

  /** There are `ceil(len / size)` groups: the fewest groups of `size` that hold the
      whole list. */
  lemma {:induction false} GroupsCount<T>(xs: seq<T>, size: nat)
    requires size > 0
    ensures (|Groups(xs, size)| - 1) * size < |xs| <= |Groups(xs, size)| * size
    decreases |xs|
  {
    if xs != [] {
      var head := Take(xs, size);
      var tail := xs[|head|..];
      GroupsCount(tail, size);
      var n := |Groups(tail, size)|;
      assert |Groups(xs, size)| == n + 1;
      if |xs| <= size {
        assert tail == [];
        assert n == 0;
      } else {
        assert |tail| == |xs| - size;
        CountStep(n, size, |tail|);
      }
    }
  }

  /** One more group of `size` covers `size` more elements. */
  lemma CountStep(n: int, size: nat, t: int)
    requires (n - 1) * size < t <= n * size
    ensures n * size < t + size <= (n + 1) * size
  {
    assert (n - 1) * size == n * size - size;
    assert (n + 1) * size == n * size + size;
  }
}
