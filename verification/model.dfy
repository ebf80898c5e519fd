/** The recommendation engine object: the state `fit` stores and the loops that
    `recommend` and `_get_popular_recommendations` run over it. */
module Model {
  import opened Records
  import opened Stats
  import opened Keys
  import opened Ranking
  import opened Training
  import opened Recommender

  /** The loop that fills `user_similarities`, one entry per row. */
  method ComputeSimilarities(m: Matrix, t: nat, corr: Correlation) returns (sims: seq<real>)
    requires WellFormed(m) && t < |m.users|
    ensures sims == Similarities(m, t, corr)
  {
    sims := [];
    var i := 0;
    while i < |m.cells|
      invariant i <= |m.cells|
      invariant sims == Similarities(m, t, corr)[..i]
    {
      if i == t {
        sims := sims + [0.0];
      } else {
        sims := sims + [Similarity(corr(m.cells[t], m.cells[i]))];
      }
      i := i + 1;
    }
  }

  /** The loop over `top_recommendations`: rows with a metadata row become
      entries, the others are skipped. */
  method FormatRecommendations(top: seq<Scored>, animes: seq<AnimeInfo>) returns (recs: seq<Recommendation>)
    ensures recs == Attach(top, animes)
  {
    recs := [];
    for i := 0 to |top|
      invariant recs == Attach(top[..i], animes)
    {
      assert top[..i + 1][..i] == top[..i];
      var info := Lookup(animes, top[i].item);
      if info.Some? {
        recs := recs + [Recommendation(top[i].item, info, Round4(top[i].score), false)];
      }
    }
    assert top[..|top|] == top;
  }

  /** The loop over `popular_animes`: every row becomes a fallback entry. */
  method FormatFallback(top: seq<Scored>, animes: seq<AnimeInfo>) returns (recs: seq<Recommendation>)
    ensures recs == FallbackList(top, animes)
  {
    recs := [];
    for k := 0 to |top|
      invariant |recs| == k
      invariant forall j :: 0 <= j < k ==> recs[j] == FallbackEntry(top[j], animes)
    {
      recs := recs + [FallbackEntry(top[k], animes)];
    }
  }

  class AnimeRecommendationModel {
    var userItemMatrix: Option<Matrix>
    var animeTable: Option<seq<AnimeInfo>>
    var ratingsTable: Option<seq<Rating>>
    const modelType: string
    /** The `min_ratings` of the last `fit`. */
    ghost var fittedMinRatings: int

    /** Either nothing is fitted, or all three tables are, and the matrix is the
        one built from the stored ratings. */
    ghost predicate Valid()
      reads this
    {
      && (userItemMatrix.Some? <==> ratingsTable.Some?)
      && (ratingsTable.Some? <==> animeTable.Some?)
      && (userItemMatrix.Some? ==> userItemMatrix.value == Build(ratingsTable.value, fittedMinRatings))
    }

    constructor ()
      ensures Valid()
      ensures userItemMatrix.None? && animeTable.None? && ratingsTable.None?
      ensures modelType == "collaborative_filtering"
    {
      userItemMatrix := None;
      animeTable := None;
      ratingsTable := None;
      modelType := "collaborative_filtering";
    }

    /** `fit`: stores copies of both tables and the filtered pivot, and reports
        how many users and items reached `minRatings`. */
    method Fit(ratings: seq<Rating>, animes: seq<AnimeInfo>, minRatings: int := 100) returns (summary: Summary)
      modifies this
      ensures Valid()
      ensures ratingsTable == Some(ratings) && animeTable == Some(animes)
      ensures userItemMatrix == Some(Build(ratings, minRatings))
      ensures summary == TrainingSummary(ratings, minRatings)
    {
      ratingsTable := Some(ratings);
      animeTable := Some(animes);
      userItemMatrix := Some(Build(ratings, minRatings));
      fittedMinRatings := minRatings;
      summary := TrainingSummary(ratings, minRatings);
    }

    /** `recommend`, including the caller's "model not trained" check. */
    method Recommend(userId: int, corr: Correlation, n: int := 10) returns (r: Result<seq<Recommendation>, Error>)
      requires Valid()
      ensures userItemMatrix.None? ==> r == Failure(NotTrained)
      ensures userItemMatrix.Some? ==>
                r == RecommendFor(userItemMatrix.value, ratingsTable.value, animeTable.value, userId, n, corr)
    {
      if userItemMatrix.None? {
        return Failure(NotTrained);
      }
      var m := userItemMatrix.value;
      if userId !in m.users {
        return Failure(UserNotFound(userId));
      }
      var t := IndexOf(m.users, userId);
      var watched := Watched(m, t);
      var sims := ComputeSimilarities(m, t, corr);
      if AbsSum(sims) < Threshold {
        var popular := GetPopularRecommendations(n, watched);
        return Success(popular);
      }
      var top := TopN(Candidates(m, t, sims), n);
      var recs := FormatRecommendations(top, animeTable.value);
      return Success(recs);
    }

    /** `_get_popular_recommendations`: the top `n` items by mean raw rating
        outside `exclude`, each tagged as a fallback entry. */
    method GetPopularRecommendations(n: int := 10, exclude: set<int> := {}) returns (recs: seq<Recommendation>)
      requires ratingsTable.Some? && animeTable.Some?
      ensures recs == Popular(ratingsTable.value, animeTable.value, n, exclude)
    {
      var top := PopularTop(ratingsTable.value, n, exclude);
      recs := FormatFallback(top, animeTable.value);
    }
  }
}
