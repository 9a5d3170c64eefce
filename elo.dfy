/**
 * The Elo rating update of lib/elo.ts.
 *
 * Math.pow(10, x) has no closed form over the reals that Dafny can evaluate,
 * so every member that needs it takes the exponential as a parameter `pow`;
 * the facts about 10^x that the proofs use are collected in IsPow10.
 */
module Elo {

  /** K_FACTOR: how far one comparison can move a rating. */
  const KFactor: real := 32.0

  /**
   * The laws of x |-> 10^x that the rating math relies on. They pin down no
   * base: every exponential with a base above one obeys them, 10^x included.
   * pow(0) == 1 already follows from positivity and reciprocity at x = y = 0;
   * it is listed for the reader.
   */
  ghost predicate IsPow10(pow: real -> real)
  {
    && pow(0.0) == 1.0
    && (forall x :: pow(x) > 0.0)
    && (forall x, y :: x + y == 0.0 ==> pow(x) * pow(y) == 1.0)
    && (forall x, y :: x < y ==> pow(x) < pow(y))
  }

  /**
   * A piecewise-rational function that obeys every law of IsPow10, so the
   * laws are consistent and the lemmas below are not vacuous.
   */
  function Pow10StandIn(x: real): (p: real)
    ensures p > 0.0
  {
    if x >= 0.0 then 1.0 + 9.0 * x else 1.0 / (1.0 - 9.0 * x)
  }

  lemma StandInObeysPow10Laws()
    ensures IsPow10(Pow10StandIn)
  {
    var pow: real -> real := Pow10StandIn;
    forall x: real, y: real | x + y == 0.0 ensures pow(x) * pow(y) == 1.0 {
      StandInReciprocal(y);
    }
    forall x: real, y: real | x < y ensures pow(x) < pow(y) {
      StandInIncreasing(x, y);
    }
    assert IsPow10(pow);
  }

  lemma StandInReciprocal(x: real)
    ensures Pow10StandIn(-x) * Pow10StandIn(x) == 1.0
  {
    if x > 0.0 {
      assert Pow10StandIn(-x) == 1.0 / (1.0 + 9.0 * x);
    } else if x < 0.0 {
      assert Pow10StandIn(-x) == 1.0 - 9.0 * x;
    }
  }

  lemma StandInIncreasing(x: real, y: real)
    requires x < y
    ensures Pow10StandIn(x) < Pow10StandIn(y)
  {
    if y < 0.0 {
      StandInIncreasingBelowZero(x, y);
    } else if x < 0.0 {
      assert Pow10StandIn(x) < 1.0 by {
        var dx := 1.0 - 9.0 * x;
        assert dx > 1.0;
        assert dx * (1.0 / dx) == 1.0;
      }
    }
  }

  lemma StandInIncreasingBelowZero(x: real, y: real)
    requires x < y < 0.0
    ensures Pow10StandIn(x) < Pow10StandIn(y)
  {
    var dx, dy := 1.0 - 9.0 * x, 1.0 - 9.0 * y;
    assert dx > dy > 1.0;
    assert 1.0 / dx < 1.0 / dy by {
      assert dy * (1.0 / dy) == 1.0;
      assert dx * (1.0 / dx) == 1.0;
      assert dy * (1.0 / dx) < dx * (1.0 / dx);
    }
  }

  /**
   * calculateExpectedScore: the win probability of a player rated `ratingA`
   * against one rated `ratingB`, the logistic 1 / (1 + 10^((B - A) / 400)).
   */
  function ExpectedScore(pow: real -> real, ratingA: real, ratingB: real): (e: real)
    requires IsPow10(pow)
    ensures 0.0 < e < 1.0
    ensures ratingA == ratingB ==> e == 0.5
  {
    var p := pow((ratingB - ratingA) / 400.0);
    assert p > 0.0;
    1.0 / (1.0 + p)
  }

  /** The two players' expected scores always add up to exactly one. */
  lemma ExpectedScoresComplement(pow: real -> real, ratingA: real, ratingB: real)
    requires IsPow10(pow)
    ensures ExpectedScore(pow, ratingA, ratingB) + ExpectedScore(pow, ratingB, ratingA) == 1.0
  {
    var d := (ratingB - ratingA) / 400.0;
    assert (ratingA - ratingB) / 400.0 == -d;
    var p, q := pow(d), pow(-d);
    assert p > 0.0 && q > 0.0 && q * p == 1.0;
    assert 1.0 / (1.0 + q) == p / (p + 1.0) by {
      assert (1.0 + q) * p == p + 1.0;
    }
    assert 1.0 / (1.0 + p) + p / (p + 1.0) == 1.0;
  }

  /** The higher-rated player is expected to score more than one half. */
  lemma HigherRatedIsFavoured(pow: real -> real, ratingA: real, ratingB: real)
    requires IsPow10(pow)
    requires ratingA > ratingB
    ensures ExpectedScore(pow, ratingA, ratingB) > 0.5
    ensures ExpectedScore(pow, ratingB, ratingA) < 0.5
  {
    var d := (ratingB - ratingA) / 400.0;
    assert pow(d) < pow(0.0);
    ExpectedScoresComplement(pow, ratingA, ratingB);
  }

  /**
   * calculateNewRating: moves the rating by K times the surprise
   * (actual minus expected score).
   */
  function NewRating(currentRating: real, expectedScore: real, actualScore: real): (r: real)
    ensures actualScore == expectedScore ==> r == currentRating
    ensures actualScore > expectedScore ==> r > currentRating
    ensures actualScore < expectedScore ==> r < currentRating
    ensures r - currentRating == KFactor * (actualScore - expectedScore)
  {
    currentRating + KFactor * (actualScore - expectedScore)
  }

  /** The pair of ratings updateEloRatings returns. */
  datatype NewRatings = NewRatings(newRatingA: real, newRatingB: real)

  /**
   * updateEloRatings: both expected scores and both new ratings are computed
   * from the ratings as they were before the match.
   */
  function UpdateEloRatings(pow: real -> real, ratingA: real, ratingB: real, scoreA: real, scoreB: real): (r: NewRatings)
    requires IsPow10(pow)
    ensures r.newRatingA == NewRating(ratingA, ExpectedScore(pow, ratingA, ratingB), scoreA)
    ensures r.newRatingB == NewRating(ratingB, ExpectedScore(pow, ratingB, ratingA), scoreB)
  {
    var expectedScoreA := ExpectedScore(pow, ratingA, ratingB);
    var expectedScoreB := ExpectedScore(pow, ratingB, ratingA);
    NewRatings(NewRating(ratingA, expectedScoreA, scoreA), NewRating(ratingB, expectedScoreB, scoreB))
  }

  /**
   * Neither new rating depends on the other side's score: A's new rating is the
   * same whatever B scored, and the other way round.
   */
  lemma UpdatesAreIndependent(pow: real -> real, ratingA: real, ratingB: real, scoreA: real, scoreB: real, scoreA': real, scoreB': real)
    requires IsPow10(pow)
    ensures UpdateEloRatings(pow, ratingA, ratingB, scoreA, scoreB).newRatingA
         == UpdateEloRatings(pow, ratingA, ratingB, scoreA, scoreB').newRatingA
    ensures UpdateEloRatings(pow, ratingA, ratingB, scoreA, scoreB).newRatingB
         == UpdateEloRatings(pow, ratingA, ratingB, scoreA', scoreB).newRatingB
  {
  }

  /** Zero-sum: when the scores add up to one, the rating total is conserved. */
  lemma ZeroSum(pow: real -> real, ratingA: real, ratingB: real, scoreA: real, scoreB: real)
    requires IsPow10(pow)
    requires scoreA + scoreB == 1.0
    ensures var r := UpdateEloRatings(pow, ratingA, ratingB, scoreA, scoreB);
            r.newRatingA + r.newRatingB == ratingA + ratingB
    ensures var r := UpdateEloRatings(pow, ratingA, ratingB, scoreA, scoreB);
            r.newRatingA - ratingA == -(r.newRatingB - ratingB)
  {
    ExpectedScoresComplement(pow, ratingA, ratingB);
  }

  /** A win (score 1) strictly raises a rating and a loss (score 0) strictly lowers it. */
  lemma WinRaisesLossLowers(pow: real -> real, ratingA: real, ratingB: real)
    requires IsPow10(pow)
    ensures UpdateEloRatings(pow, ratingA, ratingB, 1.0, 0.0).newRatingA > ratingA
    ensures UpdateEloRatings(pow, ratingA, ratingB, 1.0, 0.0).newRatingB < ratingB
    ensures UpdateEloRatings(pow, ratingA, ratingB, 0.0, 1.0).newRatingA < ratingA
    ensures UpdateEloRatings(pow, ratingA, ratingB, 0.0, 1.0).newRatingB > ratingB
  {
  }

  /** From 1000 against 1000, a win for A gives exactly 1016 and 984. */
  lemma EvenMatchWin(pow: real -> real)
    requires IsPow10(pow)
    ensures UpdateEloRatings(pow, 1000.0, 1000.0, 1.0, 0.0) == NewRatings(1016.0, 984.0)
  {
  }

  /**
   * A tie between a 1200 and a 1000 player: the favourite loses points, the
   * underdog gains them, and the two deltas are equal and opposite.
   */
  lemma UpsetTie(pow: real -> real)
    requires IsPow10(pow)
    ensures var r := UpdateEloRatings(pow, 1200.0, 1000.0, 0.5, 0.5);
            r.newRatingA < 1200.0 && r.newRatingB > 1000.0
            && r.newRatingA - 1200.0 == -(r.newRatingB - 1000.0)
  {
    HigherRatedIsFavoured(pow, 1200.0, 1000.0);
    ZeroSum(pow, 1200.0, 1000.0, 0.5, 0.5);
  }
}
