/** What `recommend` and `_get_popular_recommendations` compute, as functions of
    the fitted table, the raw ratings and the anime table: the similarity vector,
    the weighted scores, the personalised top-n list and the popularity
    fallback. */
module Recommender {
  import opened Records
  import opened Stats
  import opened Keys
  import opened Ranking
  import opened Training

  /** Below this total absolute similarity the signal counts as degenerate
      (`1e-8`). */
  const Threshold: real := 0.00000001

  ghost predicate WithinUnit(f: (seq<real>, seq<real>) -> Option<real>)
  {
    forall x, y :: f(x, y).Some? ==> -1.0 <= f(x, y).value <= 1.0
  }

  /** The Pearson coefficient of two rating rows (`np.corrcoef(x, y)[0, 1]`):
      a value in [-1, 1], or `None` where NumPy yields NaN (a row of zero
      variance). */
  type Correlation = f: (seq<real>, seq<real>) -> Option<real> | WithinUnit(f)
    witness (x: seq<real>, y: seq<real>) => None

  /** A NaN correlation counts as 0. */
  function Similarity(c: Option<real>): real
  {
    if c.Some? then c.value else 0.0
  }

  /** `user_similarities` for the user in row `t`: one entry per row, 0 for the
      user itself, every entry within [-1, 1]. */
  function Similarities(m: Matrix, t: nat, corr: Correlation): (sims: seq<real>)
    requires WellFormed(m) && t < |m.users|
    ensures |sims| == |m.users| && sims[t] == 0.0
    ensures forall i :: 0 <= i < |sims| ==> -1.0 <= sims[i] <= 1.0
  {
    seq(|m.cells|, i requires 0 <= i < |m.cells| =>
      if i == t then 0.0 else Similarity(corr(m.cells[t], m.cells[i])))
  }

  function Abs(x: real): real
  {
    if x < 0.0 then -x else x
  }

  /** `np.abs(user_similarities).sum()`. */
  function AbsSum(sims: seq<real>): (s: real)
    ensures s >= 0.0
  {
    if sims == [] then 0.0 else Abs(sims[0]) + AbsSum(sims[1..])
  }

  lemma {:induction false} AbsSumZero(sims: seq<real>)
    requires forall i :: 0 <= i < |sims| ==> sims[i] == 0.0
    ensures AbsSum(sims) == 0.0
  {
    if sims != [] {
      AbsSumZero(sims[1..]);
    }
  }

  /** Column `c` of `matrix.values.T * user_similarities`, summed: the
      similarity-weighted sum of every row's rating of item `c`. */
  function WeightedSum(cells: seq<seq<real>>, sims: seq<real>, c: nat): real
    requires |cells| == |sims|
    requires forall u :: 0 <= u < |cells| ==> c < |cells[u]|
  {
    if cells == [] then 0.0 else sims[0] * cells[0][c] + WeightedSum(cells[1..], sims[1..], c)
  }

  /** The score of column `c`: its weighted sum over the total absolute
      similarity. */
  function ColumnScore(m: Matrix, sims: seq<real>, c: nat): real
    requires WellFormed(m) && |sims| == |m.users| && AbsSum(sims) > 0.0 && c < |m.items|
  {
    WeightedSum(m.cells, sims, c) / AbsSum(sims)
  }

  /** `recommendation_scores`. */
  function Scores(m: Matrix, sims: seq<real>): seq<real>
    requires WellFormed(m) && |sims| == |m.users| && AbsSum(sims) > 0.0
  {
    seq(|m.items|, c requires 0 <= c < |m.items| => ColumnScore(m, sims, c))
  }

  /** `watched_animes`: the items of the row whose cell is positive. */
  function Watched(m: Matrix, t: nat): set<int>
    requires WellFormed(m) && t < |m.users|
  {
    set c | 0 <= c < |m.items| && m.cells[t][c] > 0.0 :: m.items[c]
  }

  /** The frame `anime_scores`: one row per column of the table. */
  function Columns(items: seq<int>, scores: seq<real>): seq<Scored>
    requires |items| == |scores|
  {
    seq(|items|, c requires 0 <= c < |items| => Scored(items[c], scores[c]))
  }

  /** The unwatched columns with their scores, in column order. */
  function Candidates(m: Matrix, t: nat, sims: seq<real>): seq<Scored>
    requires WellFormed(m) && t < |m.users| && |sims| == |m.users| && AbsSum(sims) > 0.0
  {
    ExcludeIds(Columns(m.items, Scores(m, sims)), Watched(m, t))
  }

  /** A personalised entry formats row `s` of the top list. */
  predicate Formats(rec: Recommendation, s: Scored, animes: seq<AnimeInfo>)
  {
    && rec.item == s.item
    && rec.info.Some?
    && rec.info == Lookup(animes, s.item)
    && rec.score == Round4(s.score)
    && !rec.fallback
  }

  /** The loop over `top_recommendations`: each row that has a metadata row
      becomes an entry with its score rounded; rows without one are
      skipped. */
  function Attach(top: seq<Scored>, animes: seq<AnimeInfo>): (r: seq<Recommendation>)
    ensures |r| <= |top|
  {
    if top == [] then []
    else
      var last := top[|top| - 1];
      var prefix := Attach(top[..|top| - 1], animes);
      var info := Lookup(animes, last.item);
      if info.None? then prefix
      else prefix + [Recommendation(last.item, info, Round4(last.score), false)]
  }

  /** Every entry of `r` formats some row of `top`. */
  ghost predicate FormatsRows(r: seq<Recommendation>, top: seq<Scored>, animes: seq<AnimeInfo>)
  {
    forall k :: 0 <= k < |r| ==> exists j :: 0 <= j < |top| && Formats(r[k], top[j], animes)
  }

  /** Every row of `top` that has a metadata row has an entry in `r`. */
  ghost predicate KeepsCatalogued(r: seq<Recommendation>, top: seq<Scored>, animes: seq<AnimeInfo>)
  {
    forall j :: 0 <= j < |top| && Lookup(animes, top[j].item).Some? ==>
      exists k :: 0 <= k < |r| && r[k].item == top[j].item
  }

  /** The formatting loop only emits formatted rows of the top list. */
  lemma {:induction false} AttachSound(top: seq<Scored>, animes: seq<AnimeInfo>)
    ensures FormatsRows(Attach(top, animes), top, animes)
  {
    if top != [] {
      var init := top[..|top| - 1];
      AttachSound(init, animes);
      var r := Attach(top, animes);
      var prefix := Attach(init, animes);
      forall k | 0 <= k < |r| ensures exists j :: 0 <= j < |top| && Formats(r[k], top[j], animes) {
        if k < |prefix| {
          var j :| 0 <= j < |init| && Formats(prefix[k], init[j], animes);
          assert r[k] == prefix[k] && top[j] == init[j];
        } else {
          assert Formats(r[k], top[|top| - 1], animes);
        }
      }
    }
  }

  /** The formatting loop drops only rows without a metadata row. */
  lemma {:induction false} AttachComplete(top: seq<Scored>, animes: seq<AnimeInfo>)
    ensures KeepsCatalogued(Attach(top, animes), top, animes)
  {
    if top != [] {
      var init := top[..|top| - 1];
      AttachComplete(init, animes);
      var r := Attach(top, animes);
      var prefix := Attach(init, animes);
      forall j | 0 <= j < |top| && Lookup(animes, top[j].item).Some?
        ensures exists k :: 0 <= k < |r| && r[k].item == top[j].item
      {
        if j < |init| {
          assert init[j] == top[j];
          var k :| 0 <= k < |prefix| && prefix[k].item == init[j].item;
          assert r[k] == prefix[k];
        } else {
          assert r[|r| - 1].item == top[j].item;
        }
      }
    }
  }

  /** The personalised list: top `n` unwatched columns by score, formatted. */
  function Personalised(m: Matrix, animes: seq<AnimeInfo>, t: nat, sims: seq<real>, n: int): seq<Recommendation>
    requires WellFormed(m) && t < |m.users| && |sims| == |m.users| && AbsSum(sims) > 0.0
  {
    Attach(TopN(Candidates(m, t, sims), n), animes)
  }

  /** The rating column with every rating of another item replaced by 0. */
  function MaskedScores(rs: seq<Rating>, item: int): seq<real>
  {
    seq(|rs|, k requires 0 <= k < |rs| => if rs[k].item == item then rs[k].score else 0.0)
  }

  /** The ratings of one item across the raw ratings. */
  function ItemScores(rs: seq<Rating>, item: int): (s: seq<real>)
    ensures s == [] <==> forall k :: 0 <= k < |rs| ==> rs[k].item != item
  {
    if rs == [] then []
    else
      var rest := ItemScores(rs[1..], item);
      assert forall k :: 1 <= k < |rs| ==> rs[k] == rs[1..][k - 1];
      if rs[0].item == item then [rs[0].score] + rest else rest
  }

  /** An item has one score per record of the item, and its scores sum to the
      item's share of the rating column. */
  lemma {:induction false} ItemScoresAll(rs: seq<Rating>, item: int)
    ensures |ItemScores(rs, item)| == multiset(ItemIds(rs))[item]
    ensures Sum(ItemScores(rs, item)) == Sum(MaskedScores(rs, item))
  {
    if rs != [] {
      ItemScoresAll(rs[1..], item);
      assert ItemIds(rs) == [rs[0].item] + ItemIds(rs[1..]);
      var masked := MaskedScores(rs, item);
      assert masked[1..] == MaskedScores(rs[1..], item);
      var s := ItemScores(rs, item);
      if rs[0].item == item {
        assert s[1..] == ItemScores(rs[1..], item);
      } else {
        assert s == ItemScores(rs[1..], item);
      }
    }
  }

  /** The mean rating of a rated item over all raw ratings: the sum of its
      ratings over the number of its records. */
  function ItemMean(rs: seq<Rating>, item: int): (r: real)
    requires item in ItemIds(rs)
    ensures r == Sum(MaskedScores(rs, item)) / (multiset(ItemIds(rs))[item] as real)
  {
    assert exists k :: 0 <= k < |rs| && ItemIds(rs)[k] == item;
    ItemScoresAll(rs, item);
    Mean(ItemScores(rs, item))
  }

  /** `ratings_df.groupby('anime_id')['rating'].mean()`: one row per rated
      item, ascending id. */
  function ItemMeans(rs: seq<Rating>): seq<Scored>
  {
    var ids := SortedKeys(ItemIds(rs));
    seq(|ids|, k requires 0 <= k < |ids| => Scored(ids[k], ItemMean(rs, ids[k])))
  }

  /** One entry of the fallback list. */
  function FallbackEntry(s: Scored, animes: seq<AnimeInfo>): Recommendation
  {
    Recommendation(s.item, Lookup(animes, s.item), Round4(s.score), true)
  }

  /** The fallback loop: every row becomes a fallback entry. */
  function FallbackList(top: seq<Scored>, animes: seq<AnimeInfo>): seq<Recommendation>
  {
    seq(|top|, k requires 0 <= k < |top| => FallbackEntry(top[k], animes))
  }

  /** The rows the fallback keeps: the top `n` items by mean rating outside
      `exclude`. */
  function PopularTop(rs: seq<Rating>, n: int, exclude: set<int>): seq<Scored>
  {
    TopN(ExcludeIds(ItemMeans(rs), exclude), n)
  }

  /** `_get_popular_recommendations(n, exclude)`. */
  function Popular(rs: seq<Rating>, animes: seq<AnimeInfo>, n: int, exclude: set<int>): seq<Recommendation>
  {
    FallbackList(PopularTop(rs, n, exclude), animes)
  }

  /** `recommend(user_id, n)` on a fitted model. */
  function RecommendFor(m: Matrix, rs: seq<Rating>, animes: seq<AnimeInfo>, userId: int, n: int, corr: Correlation)
    : (r: Result<seq<Recommendation>, Error>)
    requires WellFormed(m)
    ensures r.Failure? <==> userId !in m.users
    ensures r.Failure? ==> r.error == UserNotFound(userId)
  {
    if userId !in m.users then Failure(UserNotFound(userId))
    else
      var t := IndexOf(m.users, userId);
      var sims := Similarities(m, t, corr);
      if AbsSum(sims) < Threshold then Success(Popular(rs, animes, n, Watched(m, t)))
      else Success(Personalised(m, animes, t, sims, n))
  }
}
