/** Sorted id axes: the index pandas gives to a `pivot_table` or `groupby`
    result is the distinct ids of the data, in ascending order. */
module Keys {

  ghost predicate Increasing(s: seq<int>)
  {
    forall i, j :: 0 <= i < j < |s| ==> s[i] < s[j]
  }

  function InsertKey(x: int, s: seq<int>): (r: seq<int>)
    requires Increasing(s)
    ensures Increasing(r)
    ensures forall y :: y in r <==> y == x || y in s
  {
    if s == [] then [x]
    else if x < s[0] then [x] + s
    else if x == s[0] then s
    else
      var rest := InsertKey(x, s[1..]);
      assert forall y :: y in rest ==> s[0] < y by {
        assert forall k :: 1 <= k < |s| ==> s[0] < s[k];
      }
      ConsIncreasing(s[0], rest);
      [s[0]] + rest
  }

  /** A key below every key of an ascending axis extends it at the front. */
  lemma ConsIncreasing(a: int, s: seq<int>)
    requires Increasing(s)
    requires forall y :: y in s ==> a < y
    ensures Increasing([a] + s)
  {
    var r := [a] + s;
    forall i, j | 0 <= i < j < |r| ensures r[i] < r[j] {
      assert r[j] == s[j - 1] && s[j - 1] in s;
      if i == 0 {
        assert r[i] == a;
      } else {
        assert r[i] == s[i - 1];
      }
    }
  }

  /** The distinct values of `xs`, ascending. */
  function SortedKeys(xs: seq<int>): (r: seq<int>)
    ensures Increasing(r)
    ensures forall y :: y in r <==> y in xs
  {
    if xs == [] then [] else InsertKey(xs[0], SortedKeys(xs[1..]))
  }

  /** An ascending axis has exactly as many entries as distinct ids. */
  lemma {:induction false} IncreasingCard(s: seq<int>)
    requires Increasing(s)
    ensures |set x | x in s| == |s|
  {
    if s != [] {
      IncreasingCard(s[1..]);
      assert (set x | x in s) == {s[0]} + (set x | x in s[1..]);
      assert s[0] !in (set x | x in s[1..]);
    }
  }

  /** An ascending axis drawn from a set has at most as many entries as the set. */
  lemma AxisWithin(s: seq<int>, p: set<int>)
    requires Increasing(s)
    requires forall x :: x in s ==> x in p
    ensures |s| <= |p|
  {
    IncreasingCard(s);
    var a := set x | x in s;
    assert p == a + (p - a);
    assert a * (p - a) == {};
  }

  /** `list(index).index(x)`: the position of `x` in an axis. */
  function IndexOf(s: seq<int>, x: int): (i: nat)
    requires x in s
    ensures i < |s| && s[i] == x
    ensures forall j :: 0 <= j < i ==> s[j] != x
  {
    if s[0] == x then 0 else 1 + IndexOf(s[1..], x)
  }
}
