/** Ranking of scored items as `DataFrame.nlargest(n, column)` does it on a
    frame whose rows are in ascending id order: highest score first, ties kept
    in row order (so the lower id first), at most `n` rows. */
module Ranking {

  /** One row of a scored frame: an `anime_id` and its score. */
  datatype Scored = Scored(item: int, score: real)

  /** `a` is listed before `b`. */
  predicate Before(a: Scored, b: Scored)
  {
    a.score > b.score || (a.score == b.score && a.item < b.item)
  }

  ghost predicate Ranked(s: seq<Scored>)
  {
    forall i, j :: 0 <= i < j < |s| ==> Before(s[i], s[j])
  }

  ghost predicate DistinctIds(s: seq<Scored>)
  {
    forall i, j :: 0 <= i < j < |s| ==> s[i].item != s[j].item
  }

  ghost predicate IdsIncreasing(s: seq<Scored>)
  {
    forall i, j :: 0 <= i < j < |s| ==> s[i].item < s[j].item
  }

  /** The id column of a scored frame. */
  function Ids(s: seq<Scored>): seq<int>
  {
    seq(|s|, k requires 0 <= k < |s| => s[k].item)
  }

  /** `~frame['anime_id'].isin(ex)`: the rows whose id is not excluded, in
      their original order. */
  function ExcludeIds(xs: seq<Scored>, ex: set<int>): (r: seq<Scored>)
    ensures |r| <= |xs|
    ensures forall x :: x in r <==> x in xs && x.item !in ex
    ensures IdsIncreasing(xs) ==> IdsIncreasing(r)
  {
    if xs == [] then []
    else
      var rest := ExcludeIds(xs[1..], ex);
      if xs[0].item in ex then rest
      else
        assert IdsIncreasing(xs) ==> forall y :: y in rest ==> xs[0].item < y.item;
        [xs[0]] + rest
  }

  function Insert(x: Scored, s: seq<Scored>): (r: seq<Scored>)
    ensures multiset(r) == multiset(s) + multiset{x}
  {
    if s == [] || Before(x, s[0]) then [x] + s
    else
      assert s == [s[0]] + s[1..];
      [s[0]] + Insert(x, s[1..])
  }

  /** The rows of `xs` in listing order (an insertion sort on `Before`). */
  function Rank(xs: seq<Scored>): (r: seq<Scored>)
    ensures multiset(r) == multiset(xs)
  {
    if xs == [] then []
    else
      assert xs == [xs[0]] + xs[1..];
      Insert(xs[0], Rank(xs[1..]))
  }

  lemma {:induction false} InsertRanked(x: Scored, s: seq<Scored>)
    requires Ranked(s)
    requires forall k :: 0 <= k < |s| ==> s[k].item != x.item
    ensures Ranked(Insert(x, s))
  {
    if s == [] || Before(x, s[0]) {
      forall j | 0 <= j < |s| ensures Before(x, s[j]) {
        if j > 0 { assert Before(s[0], s[j]); }
      }
    } else {
      InsertRanked(x, s[1..]);
      var t := Insert(x, s[1..]);
      forall j | 0 <= j < |t| ensures Before(s[0], t[j]) {
        assert t[j] in multiset(t);
        if t[j] != x {
          assert t[j] in multiset(s[1..]);
          assert t[j] in s[1..];
        }
      }
    }
  }

  /** Ranking rows with distinct ids orders them strictly. */
  lemma {:induction false} RankRanked(xs: seq<Scored>)
    requires DistinctIds(xs)
    ensures Ranked(Rank(xs))
  {
    if xs != [] {
      RankRanked(xs[1..]);
      var t := Rank(xs[1..]);
      forall k | 0 <= k < |t| ensures t[k].item != xs[0].item {
        assert t[k] in multiset(xs[1..]);
        assert t[k] in xs[1..];
      }
      InsertRanked(xs[0], t);
    }
  }

  function Take(s: seq<Scored>, n: int): seq<Scored>
  {
    if n <= 0 then [] else if n < |s| then s[..n] else s
  }

  /** `nlargest(n, 'score')`. */
  function TopN(xs: seq<Scored>, n: int): seq<Scored>
  {
    Take(Rank(xs), n)
  }

  /** `nlargest` returns min(n, rows) rows, each a row of the frame, in listing
      order, with distinct ids; every row it leaves out is listed after every
      row it keeps. */
  lemma TopNSelects(xs: seq<Scored>, n: int)
    requires DistinctIds(xs)
    ensures var r := TopN(xs, n);
      && |r| == (if n <= 0 then 0 else if n < |xs| then n else |xs|)
      && Ranked(r)
      && DistinctIds(r)
      && (forall k :: 0 <= k < |r| ==> r[k] in xs)
      && (forall x :: x in xs && x !in r ==> forall k :: 0 <= k < |r| ==> Before(r[k], x))
  {
    var s := Rank(xs);
    var r := TopN(xs, n);
    RankRanked(xs);
    assert |s| == |xs| by {
      assert |multiset(s)| == |multiset(xs)|;
    }
    assert r == s[..|r|];
    forall k | 0 <= k < |s| ensures s[k] in xs {
      assert s[k] in multiset(xs);
    }
    forall i, j | 0 <= i < j < |r| ensures r[i].item != r[j].item {
      assert Before(s[i], s[j]);
      assert s[i] in xs && s[j] in xs;
      var a :| 0 <= a < |xs| && xs[a] == s[i];
      var b :| 0 <= b < |xs| && xs[b] == s[j];
    }
    forall x | x in xs && x !in r ensures forall k :: 0 <= k < |r| ==> Before(r[k], x) {
      assert x in multiset(s);
      var j :| 0 <= j < |s| && s[j] == x;
      assert j >= |r|;
    }
  }
}
