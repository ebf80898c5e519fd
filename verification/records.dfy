/** The values the recommender reads and produces: raw rating records, anime
    metadata rows, recommendation entries and the failures a caller can see. */
module Records {

  datatype Option<T> = None | Some(value: T)

  datatype Result<T, E> = Success(value: T) | Failure(error: E)

  /** One row of the ratings table: `user_id`, `anime_id`, `rating`. */
  datatype Rating = Rating(user: int, item: int, score: real)

  /** One row of the anime table: `anime_id`, `name`, `genre`, `type`. */
  datatype AnimeInfo = AnimeInfo(id: int, name: string, genre: string, kind: string)

  /** One entry of a recommendation list. `info` is the metadata row that was
      joined to the item (the personalised path only keeps items that have one;
      the popularity fallback keeps every item). `fallback` marks entries that
      carry the "popular recommendation (fallback)" note. */
  datatype Recommendation = Recommendation(item: int, info: Option<AnimeInfo>, score: real, fallback: bool)

  /** `NotTrained`: no matrix has been fitted yet. `UserNotFound`: the user is
      not a row of the fitted matrix. */
  datatype Error = NotTrained | UserNotFound(user: int)

  /** The metadata row of `id`: the first row of the anime table with that id,
      or `None` when the table has no such row. */
  function Lookup(animes: seq<AnimeInfo>, id: int): (r: Option<AnimeInfo>)
    ensures r.None? <==> forall k :: 0 <= k < |animes| ==> animes[k].id != id
    ensures r.Some? ==> exists k :: 0 <= k < |animes| && animes[k] == r.value && r.value.id == id &&
                                    forall j :: 0 <= j < k ==> animes[j].id != id
  {
    if animes == [] then None
    else if animes[0].id == id then Some(animes[0])
    else
      var r := Lookup(animes[1..], id);
      assert r.Some? ==> exists k :: 0 <= k < |animes[1..]| && animes[1..][k] == r.value && r.value.id == id &&
                                     forall j :: 0 <= j < k ==> animes[1..][j].id != id;
      if r.Some? then
        var k :| 0 <= k < |animes[1..]| && animes[1..][k] == r.value && r.value.id == id &&
                 forall j :: 0 <= j < k ==> animes[1..][j].id != id;
        assert animes[k + 1] == r.value;
        r
      else r
  }
}
