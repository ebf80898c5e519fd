/** What `fit` computes from the raw ratings: the rating counts per user and per
    item, the ids that reach `min_ratings`, the records kept by the
    intersection filter, and the user x item table `pivot_table` builds from
    them (mean of each cell's ratings, 0 where a pair has none, both axes
    ascending). */
module Training {
  import opened Records
  import opened Stats
  import opened Keys

  function UserIds(rs: seq<Rating>): seq<int>
  {
    seq(|rs|, k requires 0 <= k < |rs| => rs[k].user)
  }

  function ItemIds(rs: seq<Rating>): seq<int>
  {
    seq(|rs|, k requires 0 <= k < |rs| => rs[k].item)
  }

  /** `value_counts()` filtered by `>= min_ratings`: the ids that occur in
      `ids` at least `minRatings` times. */
  function Passing(ids: seq<int>, minRatings: int): set<int>
  {
    set id | id in ids && multiset(ids)[id] >= minRatings
  }

  /** The records whose user is in `users` and whose item is in `items`. */
  function KeepBoth(rs: seq<Rating>, users: set<int>, items: set<int>): (f: seq<Rating>)
    ensures forall x :: x in f <==> x in rs && x.user in users && x.item in items
  {
    if rs == [] then []
    else
      var rest := KeepBoth(rs[1..], users, items);
      assert forall x :: x in rs <==> x == rs[0] || x in rs[1..];
      if rs[0].user in users && rs[0].item in items then [rs[0]] + rest else rest
  }

  /** The records that survive the filter of `fit`. */
  function Filtered(rs: seq<Rating>, minRatings: int): seq<Rating>
  {
    KeepBoth(rs, Passing(UserIds(rs), minRatings), Passing(ItemIds(rs), minRatings))
  }

  /** The ratings recorded for one (user, item) pair, in record order. */
  function PairScores(rs: seq<Rating>, user: int, item: int): (s: seq<real>)
    ensures s == [] <==> forall k :: 0 <= k < |rs| ==> !(rs[k].user == user && rs[k].item == item)
    ensures forall x :: x in s ==> Rating(user, item, x) in rs
  {
    if rs == [] then []
    else
      var rest := PairScores(rs[1..], user, item);
      assert forall k :: 1 <= k < |rs| ==> rs[k] == rs[1..][k - 1];
      if rs[0].user == user && rs[0].item == item then [rs[0].score] + rest else rest
  }

  /** A pair's scores hold every rating of the pair, as often as the raw
      ratings record it. */
  lemma {:induction false} PairScoresAll(rs: seq<Rating>, user: int, item: int)
    ensures forall x :: multiset(PairScores(rs, user, item))[x] == multiset(rs)[Rating(user, item, x)]
  {
    if rs != [] {
      PairScoresAll(rs[1..], user, item);
      assert rs == [rs[0]] + rs[1..];
    }
  }

  /** One cell of the pivot: the mean of the pair's ratings, `fill_value=0`
      when it has none. */
  function Cell(rs: seq<Rating>, user: int, item: int): real
  {
    var s := PairScores(rs, user, item);
    if s == [] then 0.0 else Mean(s)
  }

  /** The user x item table: `users` are the row ids, `items` the column ids,
      `cells[r][c]` the rating of `users[r]` for `items[c]`. */
  datatype Matrix = Matrix(users: seq<int>, items: seq<int>, cells: seq<seq<real>>)

  ghost predicate WellFormed(m: Matrix)
  {
    && Increasing(m.users)
    && Increasing(m.items)
    && |m.cells| == |m.users|
    && forall r :: 0 <= r < |m.cells| ==> |m.cells[r]| == |m.items|
  }

  /** The `user_item_matrix` that `fit` stores. */
  function Build(rs: seq<Rating>, minRatings: int): (m: Matrix)
    ensures WellFormed(m)
  {
    var f := Filtered(rs, minRatings);
    var users := SortedKeys(UserIds(f));
    var items := SortedKeys(ItemIds(f));
    Matrix(users, items,
      seq(|users|, r requires 0 <= r < |users| =>
        seq(|items|, c requires 0 <= c < |items| => Cell(f, users[r], items[c]))))
  }

  /** The two numbers of the message `fit` returns: how many users and how
      many items reached `min_ratings`. */
  datatype Summary = Summary(users: nat, items: nat)

  function TrainingSummary(rs: seq<Rating>, minRatings: int): Summary
  {
    Summary(|Passing(UserIds(rs), minRatings)|, |Passing(ItemIds(rs), minRatings)|)
  }

  /** Every row id of the fitted table has at least `minRatings` records in the
      raw ratings, and so has every column id; a row (column) exists exactly
      for the ids that keep at least one record after the intersection
      filter. */
  lemma BuildAxesPass(rs: seq<Rating>, minRatings: int)
    ensures var m := Build(rs, minRatings);
      && (forall u :: u in m.users ==> u in UserIds(rs) && multiset(UserIds(rs))[u] >= minRatings)
      && (forall i :: i in m.items ==> i in ItemIds(rs) && multiset(ItemIds(rs))[i] >= minRatings)
      && (forall u :: u in m.users <==> exists x :: x in Filtered(rs, minRatings) && x.user == u)
      && (forall i :: i in m.items <==> exists x :: x in Filtered(rs, minRatings) && x.item == i)
  {
    var f := Filtered(rs, minRatings);
    var m := Build(rs, minRatings);
    forall u ensures u in m.users <==> exists x :: x in f && x.user == u {
      if u in m.users {
        assert u in UserIds(f);
        var k :| 0 <= k < |f| && UserIds(f)[k] == u;
        assert f[k] in f;
      }
      if x :| x in f && x.user == u {
        var k :| 0 <= k < |f| && f[k] == x;
        assert UserIds(f)[k] == u;
      }
    }
    forall i ensures i in m.items <==> exists x :: x in f && x.item == i {
      if i in m.items {
        assert i in ItemIds(f);
        var k :| 0 <= k < |f| && ItemIds(f)[k] == i;
        assert f[k] in f;
      }
      if x :| x in f && x.item == i {
        var k :| 0 <= k < |f| && f[k] == x;
        assert ItemIds(f)[k] == i;
      }
    }
  }

  lemma {:induction false} PairScoresKept(rs: seq<Rating>, users: set<int>, items: set<int>, u: int, i: int)
    requires u in users && i in items
    ensures PairScores(KeepBoth(rs, users, items), u, i) == PairScores(rs, u, i)
  {
    if rs != [] {
      PairScoresKept(rs[1..], users, items, u, i);
    }
  }

  /** A cell is 0 when the raw ratings hold no record of its pair, and
      otherwise the mean of all of that pair's raw ratings: duplicate records
      are averaged, and the filter never removes a record of a pair whose
      row and column both exist. */
  lemma BuildCellIsPairMean(rs: seq<Rating>, minRatings: int, r: nat, c: nat)
    requires var m := Build(rs, minRatings); r < |m.users| && c < |m.items|
    ensures var m := Build(rs, minRatings);
      var s := PairScores(rs, m.users[r], m.items[c]);
      && (s == [] ==> m.cells[r][c] == 0.0)
      && (s != [] ==> m.cells[r][c] == Mean(s))
  {
    var m := Build(rs, minRatings);
    var f := Filtered(rs, minRatings);
    BuildAxesPass(rs, minRatings);
    var u, i := m.users[r], m.items[c];
    assert u in m.users && i in m.items;
    PairScoresKept(rs, Passing(UserIds(rs), minRatings), Passing(ItemIds(rs), minRatings), u, i);
  }

  /** With positive ratings only (the 1..10 scale), a cell is positive exactly
      when the user rated the item, so "watched" (cell > 0) means "rated";
      with ratings within [lo, hi] every rated cell lies within [lo, hi]. */
  lemma BuildCellMeaning(rs: seq<Rating>, minRatings: int, r: nat, c: nat, lo: real, hi: real)
    requires var m := Build(rs, minRatings); r < |m.users| && c < |m.items|
    requires 0.0 < lo <= hi
    requires forall k :: 0 <= k < |rs| ==> lo <= rs[k].score <= hi
    ensures var m := Build(rs, minRatings);
      var rated := exists k :: 0 <= k < |rs| && rs[k].user == m.users[r] && rs[k].item == m.items[c];
      && (m.cells[r][c] > 0.0 <==> rated)
      && (rated ==> lo <= m.cells[r][c] <= hi)
  {
    var m := Build(rs, minRatings);
    BuildCellIsPairMean(rs, minRatings, r, c);
    var s := PairScores(rs, m.users[r], m.items[c]);
    if s != [] {
      forall k | 0 <= k < |s| ensures lo <= s[k] <= hi {
        assert s[k] in s;
        assert Rating(m.users[r], m.items[c], s[k]) in rs;
      }
      MeanBounds(s, lo, hi);
    }
  }

  /** The summary counts the ids that reached `min_ratings`, which can exceed
      the table's dimensions: an id can pass its own count and still lose
      every record to the other axis' filter. */
  lemma SummaryBoundsMatrix(rs: seq<Rating>, minRatings: int)
    ensures var m := Build(rs, minRatings);
      var s := TrainingSummary(rs, minRatings);
      |m.users| <= s.users && |m.items| <= s.items
  {
    var m := Build(rs, minRatings);
    BuildAxesPass(rs, minRatings);
    AxisWithin(m.users, Passing(UserIds(rs), minRatings));
    AxisWithin(m.items, Passing(ItemIds(rs), minRatings));
  }

  /** The summary can exceed the table: with `min_ratings = 2`, user 1 passes
      with two ratings, but neither of its items reaches two, so the table has
      no row while the summary counts one user. */
  lemma SummaryCanExceedMatrix()
    ensures var rs := [Rating(1, 10, 8.0), Rating(1, 11, 6.0)];
      && TrainingSummary(rs, 2).users == 1
      && Build(rs, 2).users == []
  {
    var rs := [Rating(1, 10, 8.0), Rating(1, 11, 6.0)];
    var us, its := UserIds(rs), ItemIds(rs);
    assert us == [1, 1];
    assert its == [10, 11];
    assert multiset(us) == multiset{1, 1};
    assert multiset(its) == multiset{10, 11};
    var pu, pi := Passing(us, 2), Passing(its, 2);
    assert pu == {1} by {
      assert 1 in pu;
      forall x | x in pu ensures x == 1 {
        assert x in us;
      }
    }
    assert pi == {} by {
      assert forall x :: x in its ==> multiset(its)[x] == 1;
    }
    assert KeepBoth(rs[1..], pu, pi) == [];
    assert KeepBoth(rs, pu, pi) == [];
    assert UserIds([]) == [];
  }

  lemma FilteredExample()
    ensures Filtered([Rating(1, 10, 8.0), Rating(1, 11, 6.0), Rating(2, 10, 9.0)], 2) == [Rating(1, 10, 8.0)]
  {
    var rs := [Rating(1, 10, 8.0), Rating(1, 11, 6.0), Rating(2, 10, 9.0)];
    var us, its := UserIds(rs), ItemIds(rs);
    assert us == [1, 1, 2];
    assert its == [10, 11, 10];
    assert multiset(us) == multiset{1, 1, 2};
    assert multiset(its) == multiset{10, 11, 10};
    var pu, pi := Passing(us, 2), Passing(its, 2);
    assert pu == {1} by {
      assert 1 in pu;
      forall x | x in pu ensures x == 1 {
        assert x in us;
      }
    }
    assert pi == {10} by {
      assert 10 in pi;
      forall x | x in pi ensures x == 10 {
        assert x in its;
      }
    }
    assert KeepBoth(rs[2..], {1}, {10}) == [];
    assert KeepBoth(rs[1..], {1}, {10}) == [];
  }

  /** The threshold is applied to the raw counts, not to the table: with
      `min_ratings = 2`, user 1 passes with two ratings, item 11 fails with
      one, and user 1's row is left with a single rated column. */
  lemma RowsNeedNotReachMinRatings()
    ensures var rs := [Rating(1, 10, 8.0), Rating(1, 11, 6.0), Rating(2, 10, 9.0)];
      var m := Build(rs, 2);
      && multiset(UserIds(rs))[1] == 2
      && m.users == [1] && m.items == [10] && m.cells == [[8.0]]
  {
    var rs := [Rating(1, 10, 8.0), Rating(1, 11, 6.0), Rating(2, 10, 9.0)];
    assert UserIds(rs) == [1, 1, 2];
    FilteredExample();
    var f := [Rating(1, 10, 8.0)];
    assert UserIds(f) == [1];
    assert ItemIds(f) == [10];
    assert SortedKeys([1]) == [1];
    assert SortedKeys([10]) == [10];
    assert PairScores(f, 1, 10) == [8.0];
    assert Mean([8.0]) == 8.0;
    var m := Build(rs, 2);
    assert m.users == [1] && m.items == [10];
    assert m.cells[0][0] == Cell(f, 1, 10) == 8.0;
    assert m.cells[0] == [8.0];
  }
}
