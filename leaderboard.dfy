/**
 * The leaderboard page (app/leaderboard/page.tsx): a copy of the list sorted
 * by rating, highest first, with a stable sort, and rows numbered from 1.
 */
module Leaderboard {
  import opened Models
  import ModelsContext

  /** Non-increasing in rating. */
  predicate SortedByRating(s: seq<Model>)
  {
    forall i, j :: 0 <= i < j < |s| ==> s[i].eloRating >= s[j].eloRating
  }

  /**
   * Places `m` before the first record rated at most as high as it: a record
   * that came earlier stays ahead of equally rated ones.
   */
  function Insert(m: Model, s: seq<Model>): (r: seq<Model>)
    ensures multiset(r) == multiset(s) + multiset{m}
    ensures |r| == |s| + 1
  {
    if s == [] then [m]
    else if s[0].eloRating <= m.eloRating then [m] + s
    else
      assert s == [s[0]] + s[1..];
      [s[0]] + Insert(m, s[1..])
  }

  /**
   * `[...models].sort((a, b) => b.eloRating - a.eloRating)`: JavaScript's
   * stable sort with a descending comparator, as an insertion sort on values.
   */
  function SortByRating(models: seq<Model>): (sorted: seq<Model>)
    ensures multiset(sorted) == multiset(models)
    ensures |sorted| == |models|
  {
    if models == [] then []
    else
      assert models == [models[0]] + models[1..];
      Insert(models[0], SortByRating(models[1..]))
  }

  lemma {:induction false} InsertSorted(m: Model, s: seq<Model>)
    requires SortedByRating(s)
    ensures SortedByRating(Insert(m, s))
  {
    if s != [] && s[0].eloRating > m.eloRating {
      InsertSorted(m, s[1..]);
      var r := Insert(m, s);
      var t := Insert(m, s[1..]);
      assert r == [s[0]] + t;
      forall i, j | 0 <= i < j < |r| ensures r[i].eloRating >= r[j].eloRating {
        if i == 0 {
          assert r[j] in multiset(t);
          assert r[j] in multiset(s[1..]) + multiset{m};
          if r[j] != m {
            assert r[j] in s[1..];
          }
        }
      }
    }
  }

  /** The leaderboard is ordered by rating, highest first. */
  lemma {:induction false} SortedIsSorted(models: seq<Model>)
    ensures SortedByRating(SortByRating(models))
  {
    if models != [] {
      SortedIsSorted(models[1..]);
      InsertSorted(models[0], SortByRating(models[1..]));
    }
  }

  /** The records rated exactly `rating`, in list order. */
  function WithRating(s: seq<Model>, rating: real): seq<Model>
  {
    if s == [] then []
    else (if s[0].eloRating == rating then [s[0]] else []) + WithRating(s[1..], rating)
  }

  /** Unfolds WithRating once, on a list written as a head and a tail. */
  lemma WithRatingCons(x: Model, t: seq<Model>, rating: real)
    ensures WithRating([x] + t, rating) == (if x.eloRating == rating then [x] else []) + WithRating(t, rating)
  {
    assert ([x] + t)[1..] == t;
  }

  lemma {:induction false} InsertKeepsTies(m: Model, s: seq<Model>, rating: real)
    ensures WithRating(Insert(m, s), rating) == (if m.eloRating == rating then [m] else []) + WithRating(s, rating)
  {
    if s == [] {
      WithRatingCons(m, [], rating);
    } else if s[0].eloRating <= m.eloRating {
      WithRatingCons(m, s, rating);
    } else {
      var t := Insert(m, s[1..]);
      assert Insert(m, s) == [s[0]] + t;
      InsertKeepsTies(m, s[1..], rating);
      WithRatingCons(s[0], t, rating);
      WithRatingCons(s[0], s[1..], rating);
      assert [s[0]] + s[1..] == s;
      if m.eloRating == rating {
        // s[0] is rated above m, so only m is kept
        assert WithRating(Insert(m, s), rating) == WithRating(t, rating);
        assert WithRating(s, rating) == WithRating(s[1..], rating);
      } else {
        assert WithRating(t, rating) == WithRating(s[1..], rating);
      }
    }
  }

  /**
   * Stability: for every rating, the records with that rating appear in the
   * leaderboard in the same relative order as in the list.
   */
  lemma {:induction false} SortIsStable(models: seq<Model>, rating: real)
    ensures WithRating(SortByRating(models), rating) == WithRating(models, rating)
  {
    if models != [] {
      SortIsStable(models[1..], rating);
      InsertKeepsTies(models[0], SortByRating(models[1..]), rating);
    }
  }

  /** One row of the table: its 1-based rank, the record and its win rate. */
  datatype Standing = Standing(rank: nat, record: Model, winRate: real)

  /** The table body: sorted records numbered 1..n in row order. */
  function Standings(models: seq<Model>): (rows: seq<Standing>)
    ensures |rows| == |models|
    ensures forall i :: 0 <= i < |rows| ==> rows[i].rank == i + 1
    ensures forall i :: 0 <= i < |rows| ==> rows[i].record == SortByRating(models)[i]
    ensures forall i :: 0 <= i < |rows| ==> rows[i].winRate == WinRate(rows[i].record) && 0.0 <= rows[i].winRate <= 100.0
  {
    var sorted := SortByRating(models);
    seq(|sorted|, index requires 0 <= index < |sorted| => Standing(index + 1, sorted[index], WinRate(sorted[index])))
  }

  /** The first row holds a record with the highest rating in the list. */
  lemma TopOfTable(models: seq<Model>, k: nat)
    requires k < |models|
    ensures Standings(models)[0].record.eloRating >= models[k].eloRating
  {
    var sorted := SortByRating(models);
    SortedIsSorted(models);
    assert models[k] in multiset(sorted);
    var j :| 0 <= j < |sorted| && sorted[j] == models[k];
    if j > 0 {
      assert sorted[0].eloRating >= sorted[j].eloRating;
    }
  }

  /**
   * The page itself: it reads the provider's list and sorts a copy. With no
   * modifies clause, the provider's list is provably left in its own order.
   */
  method RenderLeaderboard(provider: ModelsContext.ModelsProvider) returns (rows: seq<Standing>)
    ensures rows == Standings(provider.models)
    ensures |rows| == |provider.models|
    ensures forall i :: 0 <= i < |rows| ==> rows[i].record in provider.models
  {
    var sorted := SortByRating(provider.models);
    rows := Standings(provider.models);
    forall i | 0 <= i < |rows| ensures rows[i].record in provider.models {
      assert rows[i].record == sorted[i];
      assert sorted[i] in multiset(sorted);
    }
  }
}
