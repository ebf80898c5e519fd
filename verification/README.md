# Anime recommender: a Dafny model of `AnimeRecommendationModel`

This project models the recommendation engine of the anime recommendation
API: the class `AnimeRecommendationModel` in
`back/models/recommendation_model.py`. The class is fitted on a table of
`(user_id, anime_id, rating)` records and an anime metadata table. `fit`
keeps the users and animes that have at least `min_ratings` raw records and
pivots the surviving records into a user × anime matrix. `recommend` scores
the animes for one user by a similarity-weighted average of the other users'
rows, where the similarity is Pearson correlation. It drops the animes the
user already rated, keeps the `n` best and attaches their metadata. When no
other user correlates with the user, it falls back to the animes with the
highest mean rating (`_get_popular_recommendations`).

Layout (one module per file):

- `records.dfy` (`Records`): rating records, metadata rows, result entries,
  errors, and the metadata lookup (`anime_df[anime_df['anime_id'] == id].iloc[0]`).
- `stats.dfy` (`Stats`): sum, mean and `round(x, 4)` on exact reals.
- `keys.dfy` (`Keys`): the ascending, duplicate-free id axes that pandas
  gives a pivot or group-by result.
- `ranking.dfy` (`Ranking`): `DataFrame.nlargest(n, column)` on a frame
  listed by ascending id. Ties keep the first row, so the frame is ranked by
  (score descending, id ascending). An `isin` exclusion filter also lives here.
- `training.dfy` (`Training`): what `fit` computes. It covers the rating
  counts, the `min_ratings` filter, the pivot (`pivot_table` with its default
  mean aggregation and `fill_value=0`) and the summary message.
- `recommender.dfy` (`Recommender`): what `recommend` and the fallback
  compute, as functions. These are the similarity vector, the weighted scores,
  the candidate frame, the formatting loop, the per-anime means and the
  fallback list.
- `properties.dfy` (`Properties`): the properties of these functions that
  callers rely on.
- `model.dfy` (`Model`): the class itself. Its fields are replaced by `Fit`.
  Its loops (the similarity loop, the formatting loop, the fallback loop)
  are methods proved equal to the functions above.

`np.corrcoef(x, y)[0, 1]` is a parameter `corr` of type `Correlation`. It is
any function that returns a value in [-1, 1], or `None` where NumPy returns
NaN. `recommend` replaces NaN with 0.

Four consequences of the code are worth stating outright:

- Duplicate `(user, anime)` records are averaged in the matrix, because
  `pivot_table` aggregates with `mean` by default
  (`Training.BuildCellIsPairMean`, `Training.PairScoresAll`).
- On the personalised path, an anime without a metadata row is dropped
  (line 113). It gets no entry at all (`Recommender.AttachComplete`).
- A row of the matrix need not have `min_ratings` rated cells, because the
  thresholds apply to the raw counts before the two filters are intersected
  (`Training.RowsNeedNotReachMinRatings`).
- The numbers in the summary message count the ids that passed the
  threshold. They bound the matrix's dimensions
  (`Training.SummaryBoundsMatrix`) and can exceed them: a user can pass while
  none of its animes does (`Training.SummaryCanExceedMatrix`).

## Model

| member | source | states |
|---|---|---|
| Records.Lookup | back/models/recommendation_model.py:111-114 | No metadata row has the id exactly when the result is `None`; otherwise the result is the first row with that id (`iloc[0]`). |
| Keys.SortedKeys | back/models/recommendation_model.py:50-55 | The pivot's axis is strictly ascending and holds exactly the distinct ids of the data. |
| Keys.IndexOf | back/models/recommendation_model.py:65 | The position is within the axis, holds the id, and no earlier position holds it. |
| Ranking.ExcludeIds | back/models/recommendation_model.py:102 | A row is kept exactly when it is in the frame and its id is not excluded; ascending id order is preserved. |
| Ranking.Rank | back/models/recommendation_model.py:105 | Ranking the frame is a permutation of its rows (same multiset). |
| Ranking.RankRanked | back/models/recommendation_model.py:105 | Ranking rows with distinct ids lists them strictly by (score descending, id ascending). |
| Ranking.TopNSelects | back/models/recommendation_model.py:105 | `nlargest` returns min(n, rows) rows (none for n ≤ 0). They are ranked, distinct and drawn from the frame, and every row left out ranks after every row kept. |
| Training.KeepBoth | back/models/recommendation_model.py:44-47 | A record survives exactly when its user and its anime are both in the passing sets. |
| Training.PairScoresAll | back/models/recommendation_model.py:50-55 | A pair's scores hold every rating recorded for the pair, as many times as the raw ratings record it. |
| Training.PairScores | back/models/recommendation_model.py:50-55 | A pair has no scores exactly when no record has that user and anime; every score comes from a record of the pair. |
| Training.Build | back/models/recommendation_model.py:50-55 | The pivot is rectangular: one row per user id, one column per anime id, both axes ascending. |
| Training.BuildAxesPass | back/models/recommendation_model.py:38-55 | Every row and column id has at least `min_ratings` raw records. An id is on an axis exactly when some record survives the filter with that id. |
| Training.BuildCellIsPairMean | back/models/recommendation_model.py:50-55 | A cell is 0 when the raw data has no record of the pair. Otherwise it is the mean of all the pair's raw ratings, because the filter never drops a record of a kept pair. |
| Training.BuildCellMeaning | back/models/recommendation_model.py:50-55 | With ratings in [lo, hi] and lo > 0, a cell is positive exactly when the user rated the anime, and a rated cell lies in [lo, hi]. |
| Training.SummaryBoundsMatrix | back/models/recommendation_model.py:57 | The user and anime counts in the summary are at least the matrix's row and column counts. |
| Training.SummaryCanExceedMatrix | back/models/recommendation_model.py:38-57 | With `min_ratings = 2`, one user with two ratings of two different animes is counted by the summary while the matrix has no row. |
| Training.RowsNeedNotReachMinRatings | back/models/recommendation_model.py:38-55 | With `min_ratings = 2`, a user with two raw ratings ends up with a single rated cell. |
| Stats.MeanBounds | back/models/recommendation_model.py:131 | A mean of values within [lo, hi] lies within [lo, hi]. |
| Stats.Round4Close | back/models/recommendation_model.py:120 | Rounding to 4 places moves a score by at most 0.00005. |
| Stats.Round4Monotone | back/models/recommendation_model.py:120 | Rounding to 4 places preserves the order of scores. |
| Recommender.Similarities | back/models/recommendation_model.py:72-79 | One similarity per row, 0 for the user's own row, every entry within [-1, 1]. |
| Recommender.AbsSumZero | back/models/recommendation_model.py:86-91 | If every similarity is 0, the total absolute similarity is 0. |
| Recommender.AttachSound | back/models/recommendation_model.py:108-121 | Every personalised entry formats some row of the top list: same id, its metadata row, the score rounded to 4 places, not a fallback. |
| Recommender.AttachComplete | back/models/recommendation_model.py:108-121 | Every top row that has a metadata row gets an entry; only rows without metadata are skipped. |
| Recommender.ItemScoresAll | back/models/recommendation_model.py:131 | An anime has one score per raw record of it, and its scores sum to the sum of its ratings in the rating column. |
| Recommender.ItemMean | back/models/recommendation_model.py:131 | An anime's mean is the sum of its raw ratings over the number of its raw records, as `groupby('anime_id')['rating'].mean()` computes it. |
| Recommender.ItemScores | back/models/recommendation_model.py:131 | An anime has no ratings exactly when no raw record names it. |
| Recommender.RecommendFor | back/models/recommendation_model.py:59-123 | `recommend` fails exactly when the user is not a row of the matrix, and the error names that user. |
| Properties.AttachOrdered | back/models/recommendation_model.py:108-121 | Formatting a ranked top list keeps scores non-increasing and items distinct. |
| Properties.CandidatesDistinct | back/models/recommendation_model.py:96-102 | The candidate frame lists each anime at most once. |
| Properties.CandidatesScored | back/models/recommendation_model.py:84-102 | Every candidate is an unwatched column whose score is its weighted sum over the total absolute similarity. |
| Properties.FormattedTop | back/models/recommendation_model.py:105-121 | The formatted top list has at most max(n, 0) entries, is ranked, and formats rows drawn from the candidates. |
| Properties.PersonalisedLength | back/models/recommendation_model.py:105-121 | The personalised list has at most max(n, 0) entries. |
| Properties.PersonalisedRanked | back/models/recommendation_model.py:105-121 | The personalised list is ranked by non-increasing rounded score, no anime twice. |
| Properties.PersonalisedScored | back/models/recommendation_model.py:84-121 | No personalised entry is watched or a fallback. Each has its metadata row and its column's weighted score, rounded to 4 places. |
| Properties.NotListedNotTop | back/models/recommendation_model.py:108-121 | A catalogued row missing from the formatted list was not among the top rows. |
| Properties.PersonalisedShape | back/models/recommendation_model.py:84-123 | The three personalised properties above, together. |
| Properties.LeftOutRanksLower | back/models/recommendation_model.py:105-121 | A catalogued candidate missing from the formatted list has a rounded score no higher than any listed entry. |
| Properties.PersonalisedIsTop | back/models/recommendation_model.py:93-121 | An unwatched, catalogued anime that is not recommended scores no higher than every recommended one. |
| Properties.ItemMeansShape | back/models/recommendation_model.py:131-132 | The mean-rating frame has ascending ids and one row per rated anime, holding that anime's mean raw rating. |
| Properties.QualifyingCount | back/models/recommendation_model.py:131-142 | After the exclusion, the fallback frame holds each rated, non-excluded anime exactly once. |
| Properties.PopularLength | back/models/recommendation_model.py:142-145 | The fallback has exactly min(n, rated non-excluded animes) entries, or none when n ≤ 0; it is never padded. |
| Properties.PopularRanked | back/models/recommendation_model.py:145-157 | The fallback lists entries by non-increasing rounded mean rating, no anime twice. |
| Properties.PopularEntries | back/models/recommendation_model.py:135-157 | Every fallback entry is tagged as a fallback and is a rated, non-excluded anime. It carries its metadata row (if any) and its mean raw rating rounded to 4 places. |
| Properties.PopularShape | back/models/recommendation_model.py:125-159 | The three fallback properties above, together. |
| Properties.LeftOutScoresLower | back/models/recommendation_model.py:145 | A frame row that `nlargest` leaves out scores no higher than any row it keeps. |
| Properties.PopularIsTop | back/models/recommendation_model.py:131-145 | A rated, non-excluded anime missing from the fallback has a mean rating no higher than every listed anime's. |
| Properties.RecommendOutcome | back/models/recommendation_model.py:59-123 | For a known user, `recommend` succeeds with at most max(n, 0) ranked entries, none watched. Entries are fallbacks exactly when the total absolute similarity is below 1e-8. |
| Properties.NoSignalFallsBack | back/models/recommendation_model.py:72-91 | If no other user has a non-zero correlation with the user, `recommend` returns the popularity fallback with the user's watched animes excluded. |
| Model.ComputeSimilarities | back/models/recommendation_model.py:72-81 | The similarity loop produces exactly the similarity vector. |
| Model.FormatRecommendations | back/models/recommendation_model.py:107-123 | The formatting loop produces exactly the formatted top list. |
| Model.FormatFallback | back/models/recommendation_model.py:148-157 | The fallback formatting loop produces exactly one fallback entry per top row, in order. |
| Model.AnimeRecommendationModel.constructor | back/models/recommendation_model.py:8-16 | A new model has no matrix, no tables, and type "collaborative_filtering". |
| Model.AnimeRecommendationModel.Fit | back/models/recommendation_model.py:33-57 | Stores both tables and the matrix built from the ratings, keeps the model consistent, and returns the counts of passing users and animes. |
| Model.AnimeRecommendationModel.Recommend | back/models/recommendation_model.py:59-123 | Before `fit`, reports "not trained" (the guard at back/app.py:161). After `fit`, returns exactly `recommend`'s result on the stored tables. |
| Model.AnimeRecommendationModel.GetPopularRecommendations | back/models/recommendation_model.py:125-159 | Returns exactly the fallback list for the stored tables. |

## Left out

- `login` and the MySQL connection, with the fields `user`, `password`,
  `user_login` and `cnx`: they are outside the recommender.
- The Flask routes, CSV loading and joblib persistence in `back/app.py`:
  I/O. Only the "model not trained" guard is modelled, as
  `Error.NotTrained`.
- `np.corrcoef` internals: Pearson correlation on floats is a parameter.
  The model only assumes its value lies in [-1, 1] or is NaN.
- Stats.Round4: `round(x, 4)` is modelled as round-half-up on exact reals.
  Python rounds the binary float half-to-even, and that is not modelled.
- Floating-point arithmetic in general: sums, means and divisions are
  exact reals, so IEEE rounding and overflow are not modelled.
- NaN or missing ratings in the input: every rating is a number.
- Properties.PopularEntries: the left merge (lines 135-139) repeats an anime
  once per metadata row with its id. The model attaches only the first
  metadata row, so it does not capture the duplicated fallback entries that
  repeated metadata rows would cause.
- Model.AnimeRecommendationModel.Recommend: calling `recommend` before `fit`
  raises a Python `AttributeError` in the original (line 61 reads
  `.index` of the still-`None` matrix). The model returns the
  `NotTrained` error that the HTTP layer reports instead.
- The `anime_df.copy()` / `ratings_df.copy()` aliasing: the tables are
  immutable values, so copying is implicit.
- The Spanish result-dictionary field names and the fixed `note` string of
  fallback entries: an entry's `fallback` flag stands for the note.
