/** Small sequence helpers shared by the quiz and the tarot deck: an optional
    value, the sum of a list of scores, pairwise distinctness, and Python's
    `list.remove` (drop the first occurrence of a value). */
module Common {

  datatype Option<+T> = None | Some(value: T)

  /** Sum of a list of integers, the quantity `sum(answers)` that the quiz's
      running total is meant to equal. */
  function Sum(s: seq<int>): int
  {
    if s == [] then 0 else s[0] + Sum(s[1..])
  }

  /** Appending one score adds exactly that score to the sum. */
  lemma {:induction false} SumAppend(s: seq<int>, x: int)
    ensures Sum(s + [x]) == Sum(s) + x
  {
    if s == [] {
      assert [] + [x] == [x];
    } else {
      assert (s + [x])[1..] == s[1..] + [x];
      SumAppend(s[1..], x);
    }
  }

  /** A sum of |s| values, each in [lo, hi], lies in [|s| * lo, |s| * hi]. */
  lemma {:induction false} SumBounds(s: seq<int>, lo: int, hi: int)
    requires forall k :: 0 <= k < |s| ==> lo <= s[k] <= hi
    ensures |s| * lo <= Sum(s) <= |s| * hi
  {
    if s != [] {
      SumBounds(s[1..], lo, hi);
      assert |s| * lo == lo + (|s| - 1) * lo;
      assert |s| * hi == hi + (|s| - 1) * hi;
    }
  }

  /** No two positions of `s` hold the same value. */
  ghost predicate Distinct<T>(s: seq<T>)
  {
    forall i, j :: 0 <= i < j < |s| ==> s[i] != s[j]
  }

  /** Python's `list.remove(x)`: the list without the first element equal to
      `x`, or None when `x` is not in the list (where Python raises
      ValueError). */
  function RemoveFirst<T(==)>(s: seq<T>, x: T): (r: Option<seq<T>>)
    ensures r.None? <==> x !in s
    ensures r.Some? ==> |r.value| == |s| - 1 && multiset(r.value) == multiset(s) - multiset{x}
  {
    if s == [] then None
    else
      assert s == [s[0]] + s[1..];
      if s[0] == x then Some(s[1..])
      else match RemoveFirst(s[1..], x)
        case None => None
        case Some(rest) => Some([s[0]] + rest)
  }

  /** When `x` is in the list, `list.remove(x)` cuts out the first position
      holding `x` and keeps every other element in order. */
  lemma {:induction false} RemoveFirstSplits<T>(s: seq<T>, x: T)
    requires x in s
    ensures RemoveFirst(s, x).Some?
    ensures exists i :: 0 <= i < |s| && s[i] == x && x !in s[..i] && RemoveFirst(s, x).value == s[..i] + s[i + 1..]
  {
    if s[0] == x {
      assert s[..0] == [] && s[1..] == s[..0] + s[0 + 1..];
    } else {
      var tail := s[1..];
      assert x in tail by {
        var m :| 0 <= m < |s| && s[m] == x;
        assert tail[m - 1] == x;
      }
      RemoveFirstSplits(tail, x);
      var i :| 0 <= i < |tail| && tail[i] == x && x !in tail[..i] && RemoveFirst(tail, x).value == tail[..i] + tail[i + 1..];
      var rest := RemoveFirst(tail, x).value;
      assert RemoveFirst(s, x).value == [s[0]] + rest;
      SpliceAfterHead(s, i + 1);
      ConsPrefix(s, i + 1);
      assert s[i + 1] == x;
    }
  }

  /** The first k + 1 elements of s are its head followed by the first k
      elements of its tail. */
  lemma ConsPrefix<T>(s: seq<T>, k: int)
    requires 0 < k <= |s|
    ensures s[..k] == [s[0]] + s[1..][..k - 1]
  {
  }

  /** In a list without repeats, removing the value found at position i
      removes exactly position i and keeps every other element in order. */
  lemma RemoveFirstAt<T>(s: seq<T>, i: int)
    requires 0 <= i < |s| && Distinct(s)
    ensures RemoveFirst(s, s[i]) == Some(s[..i] + s[i + 1..])
  {
    RemoveFirstSplits(s, s[i]);
    var j :| 0 <= j < |s| && s[j] == s[i] && s[i] !in s[..j] && RemoveFirst(s, s[i]).value == s[..j] + s[j + 1..];
    assert j == i;
  }

  /** Sequence algebra for the step of RemoveFirstAt: putting the head back
      in front of the tail with position i - 1 cut out is s with position i
      cut out. */
  lemma SpliceAfterHead<T>(s: seq<T>, i: int)
    requires 0 < i < |s|
    ensures [s[0]] + (s[1..][..i - 1] + s[1..][i..]) == s[..i] + s[i + 1..]
  {
  }

  /** Removing one position from a list without repeats leaves a list without
      repeats that no longer holds the removed value. */
  lemma DistinctRemoveAt<T>(s: seq<T>, i: int)
    requires 0 <= i < |s| && Distinct(s)
    ensures Distinct(s[..i] + s[i + 1..])
    ensures s[i] !in s[..i] + s[i + 1..]
  {
  }
}
