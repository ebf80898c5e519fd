/** What `recommend` and the popularity fallback promise, proved of the
    functions in `Recommender`. */
module Properties {
  import opened Records
  import opened Stats
  import opened Keys
  import opened Ranking
  import opened Training
  import opened Recommender

  /** Entries listed by non-increasing score, no item twice. */
  ghost predicate RankedEntries(r: seq<Recommendation>)
  {
    forall i, j :: 0 <= i < j < |r| ==> r[i].score >= r[j].score && r[i].item != r[j].item
  }

  /** Formatting a ranked top list keeps its order: rounding is monotone and
      skipping rows keeps the rest in place. */
  lemma {:induction false} AttachOrdered(top: seq<Scored>, animes: seq<AnimeInfo>)
    requires Ranked(top) && DistinctIds(top)
    ensures RankedEntries(Attach(top, animes))
  {
    if top != [] {
      var init := top[..|top| - 1];
      var last := top[|top| - 1];
      assert forall j :: 0 <= j < |init| ==> init[j] == top[j];
      AttachOrdered(init, animes);
      AttachSound(init, animes);
      var prefix := Attach(init, animes);
      if Lookup(animes, last.item).Some? {
        var r := Attach(top, animes);
        forall i | 0 <= i < |prefix| ensures prefix[i].score >= Round4(last.score) && prefix[i].item != last.item {
          var j :| 0 <= j < |init| && Formats(prefix[i], init[j], animes);
          assert Before(top[j], last);
          Round4Monotone(last.score, init[j].score);
        }
        forall i, j | 0 <= i < j < |r| ensures r[i].score >= r[j].score && r[i].item != r[j].item {
          if j < |prefix| {
            assert r[i] == prefix[i] && r[j] == prefix[j];
          } else {
            assert r[i] == prefix[i];
          }
        }
      }
    }
  }

  /** The candidate frame lists each column at most once. */
  lemma CandidatesDistinct(m: Matrix, t: nat, sims: seq<real>)
    requires WellFormed(m) && t < |m.users| && |sims| == |m.users| && AbsSum(sims) > 0.0
    ensures DistinctIds(Candidates(m, t, sims))
  {
    assert IdsIncreasing(Columns(m.items, Scores(m, sims)));
  }

  /** Every candidate is an unwatched column with its weighted score. */
  lemma CandidatesScored(m: Matrix, t: nat, sims: seq<real>)
    requires WellFormed(m) && t < |m.users| && |sims| == |m.users| && AbsSum(sims) > 0.0
    ensures forall x :: x in Candidates(m, t, sims) ==>
              x.item !in Watched(m, t) &&
              exists c :: 0 <= c < |m.items| && m.items[c] == x.item && x.score == ColumnScore(m, sims, c)
  {
    var cols := Columns(m.items, Scores(m, sims));
    forall x | x in Candidates(m, t, sims)
      ensures exists c :: 0 <= c < |m.items| && m.items[c] == x.item && x.score == ColumnScore(m, sims, c)
    {
      var c :| 0 <= c < |cols| && cols[c] == x;
    }
  }

  /** Every entry is a personalised one: not a fallback, with its metadata
      row, and not among `watched`. */
  ghost predicate PersonalisedEntries(p: seq<Recommendation>, animes: seq<AnimeInfo>, watched: set<int>)
  {
    forall k :: 0 <= k < |p| ==>
      && !p[k].fallback
      && p[k].info.Some?
      && p[k].info == Lookup(animes, p[k].item)
      && p[k].item !in watched
  }

  /** Every entry carries the rounded weighted score of its column. */
  ghost predicate WeightedScores(p: seq<Recommendation>, m: Matrix, sims: seq<real>)
    requires WellFormed(m) && |sims| == |m.users| && AbsSum(sims) > 0.0
  {
    forall k :: 0 <= k < |p| ==>
      exists c :: 0 <= c < |m.items| && m.items[c] == p[k].item &&
                  p[k].score == Round4(ColumnScore(m, sims, c))
  }

  /** Formatting the top `n` rows of a frame with distinct ids gives at most `n`
      ranked entries, each formatting a row of the frame. */
  lemma FormattedTop(cands: seq<Scored>, n: int, animes: seq<AnimeInfo>)
    requires DistinctIds(cands)
    ensures |Attach(TopN(cands, n), animes)| <= (if n <= 0 then 0 else n)
    ensures RankedEntries(Attach(TopN(cands, n), animes))
    ensures FormatsRows(Attach(TopN(cands, n), animes), TopN(cands, n), animes)
    ensures forall x :: x in TopN(cands, n) ==> x in cands
  {
    var top := TopN(cands, n);
    TopNSelects(cands, n);
    AttachSound(top, animes);
    AttachOrdered(top, animes);
    forall x | x in top ensures x in cands {
      var k :| 0 <= k < |top| && top[k] == x;
    }
  }

  /** The personalised list has at most `n` entries, none for `n <= 0`. */
  lemma PersonalisedLength(m: Matrix, animes: seq<AnimeInfo>, t: nat, sims: seq<real>, n: int)
    requires WellFormed(m) && t < |m.users| && |sims| == |m.users| && AbsSum(sims) > 0.0
    ensures |Personalised(m, animes, t, sims, n)| <= (if n <= 0 then 0 else n)
  {
    CandidatesDistinct(m, t, sims);
    FormattedTop(Candidates(m, t, sims), n, animes);
  }

  /** The personalised list is ranked by score, no item twice. */
  lemma PersonalisedRanked(m: Matrix, animes: seq<AnimeInfo>, t: nat, sims: seq<real>, n: int)
    requires WellFormed(m) && t < |m.users| && |sims| == |m.users| && AbsSum(sims) > 0.0
    ensures RankedEntries(Personalised(m, animes, t, sims, n))
  {
    CandidatesDistinct(m, t, sims);
    FormattedTop(Candidates(m, t, sims), n, animes);
  }

  /** Every personalised entry is an unwatched item with its metadata row and
      the rounded weighted score Σ sim·rating / Σ|sim| of its column. */
  lemma PersonalisedScored(m: Matrix, animes: seq<AnimeInfo>, t: nat, sims: seq<real>, n: int)
    requires WellFormed(m) && t < |m.users| && |sims| == |m.users| && AbsSum(sims) > 0.0
    ensures PersonalisedEntries(Personalised(m, animes, t, sims, n), animes, Watched(m, t))
    ensures WeightedScores(Personalised(m, animes, t, sims, n), m, sims)
  {
    var cands := Candidates(m, t, sims);
    var top := TopN(cands, n);
    var p := Attach(top, animes);
    CandidatesDistinct(m, t, sims);
    CandidatesScored(m, t, sims);
    FormattedTop(cands, n, animes);
    forall k | 0 <= k < |p|
      ensures p[k].item !in Watched(m, t)
      ensures exists c :: 0 <= c < |m.items| && m.items[c] == p[k].item &&
                p[k].score == Round4(ColumnScore(m, sims, c))
    {
      var j :| 0 <= j < |top| && Formats(p[k], top[j], animes);
      assert top[j] in cands;
      var c :| 0 <= c < |m.items| && m.items[c] == top[j].item && top[j].score == ColumnScore(m, sims, c);
    }
  }

  /** The personalised list: at most `n` entries, ranked, none watched, each
      with a metadata row and the score Σ sim·rating / Σ|sim| of its column
      rounded to four decimals. */
  lemma PersonalisedShape(m: Matrix, animes: seq<AnimeInfo>, t: nat, sims: seq<real>, n: int)
    requires WellFormed(m) && t < |m.users| && |sims| == |m.users| && AbsSum(sims) > 0.0
    ensures |Personalised(m, animes, t, sims, n)| <= (if n <= 0 then 0 else n)
    ensures RankedEntries(Personalised(m, animes, t, sims, n))
    ensures PersonalisedEntries(Personalised(m, animes, t, sims, n), animes, Watched(m, t))
    ensures WeightedScores(Personalised(m, animes, t, sims, n), m, sims)
  {
    PersonalisedLength(m, animes, t, sims, n);
    PersonalisedRanked(m, animes, t, sims, n);
    PersonalisedScored(m, animes, t, sims, n);
  }

  /** A catalogued row missing from the formatted list is not in the top list. */
  lemma NotListedNotTop(top: seq<Scored>, animes: seq<AnimeInfo>, x: Scored)
    requires Lookup(animes, x.item).Some?
    requires forall k :: 0 <= k < |Attach(top, animes)| ==> Attach(top, animes)[k].item != x.item
    ensures x !in top
  {
    AttachComplete(top, animes);
  }

  /** A catalogued row that the formatted top list leaves out ranks no higher
      than any row it lists. */
  lemma LeftOutRanksLower(cands: seq<Scored>, n: int, animes: seq<AnimeInfo>, x: Scored)
    requires DistinctIds(cands) && x in cands && Lookup(animes, x.item).Some?
    requires forall k :: 0 <= k < |Attach(TopN(cands, n), animes)| ==> Attach(TopN(cands, n), animes)[k].item != x.item
    ensures forall k :: 0 <= k < |Attach(TopN(cands, n), animes)| ==> Round4(x.score) <= Attach(TopN(cands, n), animes)[k].score
  {
    var top := TopN(cands, n);
    var p := Attach(top, animes);
    NotListedNotTop(top, animes, x);
    TopNSelects(cands, n);
    AttachSound(top, animes);
    forall k | 0 <= k < |p| ensures Round4(x.score) <= p[k].score {
      var j :| 0 <= j < |top| && Formats(p[k], top[j], animes);
      assert Before(top[j], x);
      Round4Monotone(x.score, top[j].score);
    }
  }

  /** `nlargest` really picks the best: an unwatched item that has a metadata
      row and is not listed scores no higher than any listed item. */
  lemma PersonalisedIsTop(m: Matrix, animes: seq<AnimeInfo>, t: nat, sims: seq<real>, n: int, c: nat)
    requires WellFormed(m) && t < |m.users| && |sims| == |m.users| && AbsSum(sims) > 0.0
    requires c < |m.items| && m.items[c] !in Watched(m, t) && Lookup(animes, m.items[c]).Some?
    requires forall k :: 0 <= k < |Personalised(m, animes, t, sims, n)| ==>
               Personalised(m, animes, t, sims, n)[k].item != m.items[c]
    ensures forall k :: 0 <= k < |Personalised(m, animes, t, sims, n)| ==>
              Round4(ColumnScore(m, sims, c)) <= Personalised(m, animes, t, sims, n)[k].score
  {
    var cands := Candidates(m, t, sims);
    var x := Scored(m.items[c], ColumnScore(m, sims, c));
    var cols := Columns(m.items, Scores(m, sims));
    assert cols[c] == x;
    assert x in cands;
    CandidatesDistinct(m, t, sims);
    assert Personalised(m, animes, t, sims, n) == Attach(TopN(cands, n), animes);
    LeftOutRanksLower(cands, n, animes, x);
  }

  /** The rows of the mean-rating frame: one per rated item, ids ascending,
      each carrying the item's mean raw rating. */
  lemma ItemMeansShape(rs: seq<Rating>)
    ensures IdsIncreasing(ItemMeans(rs))
    ensures forall x :: x in ItemMeans(rs) ==> x.item in ItemIds(rs) && x.score == ItemMean(rs, x.item)
    ensures forall i :: i in ItemIds(rs) ==> Scored(i, ItemMean(rs, i)) in ItemMeans(rs)
  {
    var ids := SortedKeys(ItemIds(rs));
    var means := ItemMeans(rs);
    forall i | i in ItemIds(rs) ensures Scored(i, ItemMean(rs, i)) in means {
      var j :| 0 <= j < |ids| && ids[j] == i;
      assert means[j] == Scored(i, ItemMean(rs, i));
    }
  }

  /** Every entry is a fallback entry for a rated item outside `exclude`, with
      the item's metadata row if it has one and its mean raw rating rounded. */
  ghost predicate FallbackEntries(p: seq<Recommendation>, rs: seq<Rating>, animes: seq<AnimeInfo>, exclude: set<int>)
  {
    forall k :: 0 <= k < |p| ==>
      && p[k].fallback
      && p[k].item !in exclude
      && p[k].item in ItemIds(rs)
      && p[k].info == Lookup(animes, p[k].item)
      && p[k].score == Round4(ItemMean(rs, p[k].item))
  }

  /** A frame with ascending ids has one row per id of the set its ids cover. */
  lemma {:induction false} FrameCard(q: seq<Scored>, ids: set<int>)
    requires IdsIncreasing(q)
    requires forall y :: y in q ==> y.item in ids
    requires forall x :: x in ids ==> exists y :: y in q && y.item == x
    ensures |q| == |ids|
  {
    var s := Ids(q);
    assert Increasing(s);
    IncreasingCard(s);
    forall x | x in ids ensures x in s {
      var y :| y in q && y.item == x;
      var k :| 0 <= k < |q| && q[k] == y;
      assert s[k] == x;
    }
    forall x | x in s ensures x in ids {
      var k :| 0 <= k < |s| && s[k] == x;
      assert q[k] in q;
    }
    assert (set x | x in s) == ids;
  }

  /** The frame the fallback ranks holds exactly the rated items outside
      `exclude`, once each. */
  lemma QualifyingCount(rs: seq<Rating>, exclude: set<int>)
    ensures DistinctIds(ExcludeIds(ItemMeans(rs), exclude))
    ensures |ExcludeIds(ItemMeans(rs), exclude)| == |(set i | i in ItemIds(rs)) - exclude|
  {
    var q := ExcludeIds(ItemMeans(rs), exclude);
    var ids := (set i | i in ItemIds(rs)) - exclude;
    ItemMeansShape(rs);
    forall x | x in ids ensures exists y :: y in q && y.item == x {
      assert Scored(x, ItemMean(rs, x)) in q;
    }
    FrameCard(q, ids);
  }

  /** The fallback keeps exactly min(n, qualifying items) rows (no padding). */
  lemma PopularLength(rs: seq<Rating>, animes: seq<AnimeInfo>, n: int, exclude: set<int>)
    ensures var qualifying := |(set i | i in ItemIds(rs)) - exclude|;
      |Popular(rs, animes, n, exclude)| == (if n <= 0 then 0 else if n < qualifying then n else qualifying)
  {
    QualifyingCount(rs, exclude);
    TopNSelects(ExcludeIds(ItemMeans(rs), exclude), n);
  }

  /** The fallback lists by non-increasing mean rating, no item twice. */
  lemma PopularRanked(rs: seq<Rating>, animes: seq<AnimeInfo>, n: int, exclude: set<int>)
    ensures RankedEntries(Popular(rs, animes, n, exclude))
  {
    var top := PopularTop(rs, n, exclude);
    var p := Popular(rs, animes, n, exclude);
    QualifyingCount(rs, exclude);
    TopNSelects(ExcludeIds(ItemMeans(rs), exclude), n);
    forall i, j | 0 <= i < j < |p| ensures p[i].score >= p[j].score && p[i].item != p[j].item {
      assert Before(top[i], top[j]);
      Round4Monotone(top[j].score, top[i].score);
    }
  }

  /** Every fallback entry is a rated item outside `exclude` with its rounded
      mean rating. */
  lemma PopularEntries(rs: seq<Rating>, animes: seq<AnimeInfo>, n: int, exclude: set<int>)
    ensures FallbackEntries(Popular(rs, animes, n, exclude), rs, animes, exclude)
  {
    var q := ExcludeIds(ItemMeans(rs), exclude);
    var top := PopularTop(rs, n, exclude);
    var p := Popular(rs, animes, n, exclude);
    ItemMeansShape(rs);
    TopNSelects(q, n);
    forall k | 0 <= k < |p| ensures p[k].item !in exclude && p[k].item in ItemIds(rs) && p[k].score == Round4(ItemMean(rs, p[k].item)) {
      assert top[k] in q;
    }
  }

  /** The fallback list: exactly min(n, qualifying items) entries, ranked by
      mean rating, none excluded, every one tagged as a fallback. */
  lemma PopularShape(rs: seq<Rating>, animes: seq<AnimeInfo>, n: int, exclude: set<int>)
    ensures var qualifying := |(set i | i in ItemIds(rs)) - exclude|;
      |Popular(rs, animes, n, exclude)| == (if n <= 0 then 0 else if n < qualifying then n else qualifying)
    ensures RankedEntries(Popular(rs, animes, n, exclude))
    ensures FallbackEntries(Popular(rs, animes, n, exclude), rs, animes, exclude)
  {
    PopularLength(rs, animes, n, exclude);
    PopularRanked(rs, animes, n, exclude);
    PopularEntries(rs, animes, n, exclude);
  }

  /** A row of a frame with distinct ids that `nlargest` leaves out scores no
      higher than any row it keeps. */
  lemma LeftOutScoresLower(q: seq<Scored>, n: int, x: Scored)
    requires DistinctIds(q) && x in q
    requires forall k :: 0 <= k < |TopN(q, n)| ==> TopN(q, n)[k].item != x.item
    ensures forall k :: 0 <= k < |TopN(q, n)| ==> TopN(q, n)[k] in q && x.score <= TopN(q, n)[k].score
  {
    TopNSelects(q, n);
    var top := TopN(q, n);
    forall k | 0 <= k < |top| ensures top[k] in q && x.score <= top[k].score {
      assert Before(top[k], x);
    }
  }

  /** The fallback ranks by mean rating: a rated item outside `exclude` that
      is not listed has a mean no higher than that of any listed item. */
  lemma PopularIsTop(rs: seq<Rating>, animes: seq<AnimeInfo>, n: int, exclude: set<int>, i: int)
    requires i in ItemIds(rs) && i !in exclude
    requires forall k :: 0 <= k < |Popular(rs, animes, n, exclude)| ==> Popular(rs, animes, n, exclude)[k].item != i
    ensures forall k :: 0 <= k < |Popular(rs, animes, n, exclude)| ==>
              Popular(rs, animes, n, exclude)[k].item in ItemIds(rs) &&
              ItemMean(rs, i) <= ItemMean(rs, Popular(rs, animes, n, exclude)[k].item)
  {
    var q := ExcludeIds(ItemMeans(rs), exclude);
    var top := PopularTop(rs, n, exclude);
    var p := Popular(rs, animes, n, exclude);
    ItemMeansShape(rs);
    var x := Scored(i, ItemMean(rs, i));
    assert x in q;
    assert forall k :: 0 <= k < |top| ==> top[k].item == p[k].item;
    LeftOutScoresLower(q, n, x);
    forall k | 0 <= k < |p| ensures p[k].item in ItemIds(rs) && ItemMean(rs, i) <= ItemMean(rs, p[k].item) {
      assert top[k] in q;
    }
  }

  /** `recommend` for a user of the table: at most `n` entries, ranked, never
      an item the user already rated above 0, and every entry is a fallback
      entry exactly when the total absolute similarity is below 1e-8. */
  lemma RecommendOutcome(m: Matrix, rs: seq<Rating>, animes: seq<AnimeInfo>, userId: int, n: int, corr: Correlation)
    requires WellFormed(m) && userId in m.users
    ensures RecommendFor(m, rs, animes, userId, n, corr).Success?
    ensures var r := RecommendFor(m, rs, animes, userId, n, corr).value;
      && |r| <= (if n <= 0 then 0 else n)
      && RankedEntries(r)
    ensures var t := IndexOf(m.users, userId);
      var r := RecommendFor(m, rs, animes, userId, n, corr).value;
      forall k :: 0 <= k < |r| ==>
        && r[k].item !in Watched(m, t)
        && (r[k].fallback <==> AbsSum(Similarities(m, t, corr)) < Threshold)
  {
    var t := IndexOf(m.users, userId);
    var sims := Similarities(m, t, corr);
    if AbsSum(sims) < Threshold {
      PopularShape(rs, animes, n, Watched(m, t));
    } else {
      PersonalisedShape(m, animes, t, sims, n);
    }
  }

  /** With no similarity signal at all (every other user's correlation is 0
      or undefined, or the user is the only row) `recommend` returns the
      popularity fallback with the user's watched items excluded. */
  lemma NoSignalFallsBack(m: Matrix, rs: seq<Rating>, animes: seq<AnimeInfo>, userId: int, n: int, corr: Correlation)
    requires WellFormed(m) && userId in m.users
    requires forall i :: 0 <= i < |m.users| && m.users[i] != userId ==>
               Similarity(corr(m.cells[IndexOf(m.users, userId)], m.cells[i])) == 0.0
    ensures RecommendFor(m, rs, animes, userId, n, corr) == Success(Popular(rs, animes, n, Watched(m, IndexOf(m.users, userId))))
  {
    var t := IndexOf(m.users, userId);
    var sims := Similarities(m, t, corr);
    forall i | 0 <= i < |sims| ensures sims[i] == 0.0 {
      if i != t {
        assert m.users[i] != userId by {
          assert m.users[i] != m.users[t];
        }
      }
    }
    AbsSumZero(sims);
  }
}
