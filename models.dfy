/**
 * The competitor record of lib/models.ts and the pure helpers around it:
 * the seed list, the win rate, the rank titles and the random pair.
 */
module Models {
  import opened Wrappers
  import JsMath

  /** One competitor as the site stores it. */
  datatype Model = Model(
    id: string,
    name: string,
    eloRating: real,
    wins: nat,
    losses: nat,
    ties: nat,
    totalVotes: nat)

  /** The starting rating of every seeded or imported competitor. */
  const BaselineRating: real := 1000.0

  function Seed(id: string, name: string): (m: Model)
    ensures m.id == id && m.name == name && Fresh(m)
  {
    Model(id, name, BaselineRating, 0, 0, 0, 0)
  }

  /** A record that has never taken part in a vote. */
  predicate Fresh(m: Model)
  {
    m.eloRating == BaselineRating && m.wins == 0 && m.losses == 0 && m.ties == 0 && m.totalVotes == 0
  }

  /** totalVotes counts every outcome exactly once. */
  predicate CountersConsistent(m: Model)
  {
    m.totalVotes == m.wins + m.losses + m.ties
  }

  /** All ids in the list are different. */
  predicate DistinctIds(ms: seq<Model>)
  {
    forall i, j :: 0 <= i < j < |ms| ==> ms[i].id != ms[j].id
  }

  /** initialModels: the built-in fallback list. */
  function InitialModels(): (ms: seq<Model>)
    ensures |ms| == 5
    ensures DistinctIds(ms)
    ensures forall i :: 0 <= i < |ms| ==> Fresh(ms[i]) && CountersConsistent(ms[i])
  {
    [ Seed("gpt4o", "GPT-4o"),
      Seed("claude3", "Claude 3"),
      Seed("gemini", "Gemini Pro"),
      Seed("llama3", "Llama 3"),
      Seed("mistral", "Mistral Large") ]
  }

  /**
   * calculateWinRate: percentage of matches won, a tie counting as half a win;
   * zero for a record without matches.
   */
  function WinRate(m: Model): (rate: real)
    ensures m.wins + m.losses + m.ties == 0 ==> rate == 0.0
    ensures 0.0 <= rate <= 100.0
    ensures m.wins + m.losses + m.ties > 0 ==>
              rate * (m.wins + m.losses + m.ties) as real == (m.wins as real + m.ties as real / 2.0) * 100.0
  {
    var totalMatches := m.wins + m.losses + m.ties;
    if totalMatches == 0 then 0.0
    else
      var n := totalMatches as real;
      var score := m.wins as real + m.ties as real * 0.5;
      assert 0.0 <= score <= n;
      assert 0.0 <= score / n <= 1.0 by {
        assert (score / n) * n == score;
      }
      (score / n) * 100.0
  }

  /** A record with matches has a win rate of 100 iff it never lost nor tied. */
  lemma WinRatePerfect(m: Model)
    requires m.wins + m.losses + m.ties > 0
    ensures WinRate(m) == 100.0 <==> m.losses == 0 && m.ties == 0
    ensures WinRate(m) == 0.0 <==> m.wins == 0 && m.ties == 0
  {
    var n := (m.wins + m.losses + m.ties) as real;
    var score := m.wins as real + m.ties as real / 2.0;
    assert WinRate(m) * n == score * 100.0;
  }

  /** 3 wins, 1 loss and 2 ties: (3 + 1) / 6, that is 200/3 per cent. */
  lemma WinRateExample()
    ensures WinRate(Model("m", "M", 1000.0, 3, 1, 2, 6)) == 200.0 / 3.0
  {
  }

  /** The seven rank titles, from lowest to highest. */
  const RankTitles: seq<string> :=
    ["Novice", "Beginner", "Intermediate", "Advanced", "Expert", "Master", "Grandmaster"]

  /** The ratings at which the next title is reached. */
  const RankThresholds: seq<real> := [800.0, 1000.0, 1200.0, 1400.0, 1600.0, 1800.0]

  /** How many of the thresholds `ts` the rating has reached. */
  function Reached(ts: seq<real>, rating: real): (k: nat)
    ensures k <= |ts|
  {
    if ts == [] then 0 else JsMath.Indicator(ts[0] <= rating) + Reached(ts[1..], rating)
  }

  /** The rank level: the index of the title a rating earns. */
  function RankLevel(rating: real): (k: nat)
    ensures k < |RankTitles|
  {
    Reached(RankThresholds, rating)
  }

  /** The rank level, threshold by threshold. */
  lemma RankLevelByCases(rating: real)
    ensures RankLevel(rating) ==
      if rating < 800.0 then 0 else if rating < 1000.0 then 1 else if rating < 1200.0 then 2
      else if rating < 1400.0 then 3 else if rating < 1600.0 then 4 else if rating < 1800.0 then 5 else 6
  {
    var ts := RankThresholds;
    assert ts[1..] == [1000.0, 1200.0, 1400.0, 1600.0, 1800.0];
    assert ts[2..] == [1200.0, 1400.0, 1600.0, 1800.0];
    assert ts[3..] == [1400.0, 1600.0, 1800.0];
    assert ts[4..] == [1600.0, 1800.0];
    assert ts[5..] == [1800.0];
    assert ts[6..] == [];
    assert ts[1..][1..] == ts[2..] && ts[2..][1..] == ts[3..] && ts[3..][1..] == ts[4..];
    assert ts[4..][1..] == ts[5..] && ts[5..][1..] == ts[6..];
    assert Reached(ts[5..], rating) == JsMath.Indicator(1800.0 <= rating);
    assert Reached(ts[4..], rating) == JsMath.Indicator(1600.0 <= rating) + JsMath.Indicator(1800.0 <= rating);
    assert Reached(ts[3..], rating) == JsMath.Indicator(1400.0 <= rating) + JsMath.Indicator(1600.0 <= rating) + JsMath.Indicator(1800.0 <= rating);
    assert Reached(ts[2..], rating) == JsMath.Indicator(1200.0 <= rating) + JsMath.Indicator(1400.0 <= rating) + JsMath.Indicator(1600.0 <= rating) + JsMath.Indicator(1800.0 <= rating);
    assert Reached(ts[1..], rating) == JsMath.Indicator(1000.0 <= rating) + JsMath.Indicator(1200.0 <= rating) + JsMath.Indicator(1400.0 <= rating) + JsMath.Indicator(1600.0 <= rating) + JsMath.Indicator(1800.0 <= rating);
  }

  /**
   * getRankFromRating: the title is the one for the number of thresholds the
   * rating has reached (each comparison is a strict "<").
   */
  function GetRankFromRating(rating: real): (title: string)
    ensures title == RankTitles[RankLevel(rating)]
  {
    RankLevelByCases(rating);
    if rating < 800.0 then "Novice"
    else if rating < 1000.0 then "Beginner"
    else if rating < 1200.0 then "Intermediate"
    else if rating < 1400.0 then "Advanced"
    else if rating < 1600.0 then "Expert"
    else if rating < 1800.0 then "Master"
    else "Grandmaster"
  }

  lemma RankExamples()
    ensures GetRankFromRating(1000.0) == "Intermediate"
    ensures GetRankFromRating(999.0) == "Beginner"
    ensures GetRankFromRating(1800.0) == "Grandmaster"
    ensures GetRankFromRating(5000.0) == "Grandmaster"
  {
  }

  /** A higher rating never earns a lower title. */
  lemma {:induction false} ReachedMonotone(ts: seq<real>, r1: real, r2: real)
    requires r1 <= r2
    ensures Reached(ts, r1) <= Reached(ts, r2)
  {
    if ts != [] {
      ReachedMonotone(ts[1..], r1, r2);
    }
  }

  lemma RankMonotone(r1: real, r2: real)
    requires r1 <= r2
    ensures RankLevel(r1) <= RankLevel(r2)
  {
    ReachedMonotone(RankThresholds, r1, r2);
  }

  /**
   * The second index of selectRandomModels: a draw over the n - 1 positions
   * other than `indexA`, moved up by one once it reaches `indexA`.
   */
  function SkipIndex(indexA: nat, rawB: nat): (indexB: nat)
    ensures indexB != indexA
    ensures indexB == rawB || indexB == rawB + 1
  {
    if rawB >= indexA then rawB + 1 else rawB
  }

  /** The draw that SkipIndex maps onto `indexB`. */
  function UnskipIndex(indexA: nat, indexB: nat): (rawB: nat)
    requires indexB != indexA
  {
    if indexB > indexA then indexB - 1 else indexB
  }

  /** SkipIndex maps [0, n-1) into [0, n) minus {indexA} ... */
  lemma SkipIndexInRange(n: nat, indexA: nat, rawB: nat)
    requires indexA < n && rawB < n - 1
    ensures SkipIndex(indexA, rawB) < n
  {
  }

  /** ... one to one ... */
  lemma SkipIndexInjective(indexA: nat, rawB1: nat, rawB2: nat)
    requires SkipIndex(indexA, rawB1) == SkipIndex(indexA, rawB2)
    ensures rawB1 == rawB2
  {
  }

  /** ... and onto: every other position comes from exactly the draw UnskipIndex gives. */
  lemma SkipIndexOnto(n: nat, indexA: nat, indexB: nat)
    requires indexA < n && indexB < n && indexB != indexA
    ensures UnskipIndex(indexA, indexB) < n - 1
    ensures SkipIndex(indexA, UnskipIndex(indexA, indexB)) == indexB
  {
  }

  /**
   * Every ordered pair (i, j) of distinct positions arises from exactly one
   * pair of index draws, so each of the n * (n - 1) ordered pairs is equally likely.
   */
  lemma PairFromExactlyOneDraw(n: nat, i: nat, j: nat, indexA: nat, rawB: nat)
    requires i < n && j < n && i != j
    requires indexA < n && rawB < n - 1
    ensures (indexA, SkipIndex(indexA, rawB)) == (i, j) <==> indexA == i && rawB == UnskipIndex(i, j)
  {
  }

  /** The pair of positions selectRandomModels reads for draws uA and uB. */
  function PickIndices(n: nat, uA: real, uB: real): (p: (nat, nat))
    requires n >= 2
    requires 0.0 <= uA < 1.0 && 0.0 <= uB < 1.0
    ensures p.0 < n && p.1 < n && p.0 != p.1
    ensures p.0 == JsMath.DrawIndex(uA, n)
    ensures p.1 == SkipIndex(p.0, JsMath.DrawIndex(uB, n - 1))
  {
    var indexA := JsMath.DrawIndex(uA, n);
    var indexB := SkipIndex(indexA, JsMath.DrawIndex(uB, n - 1));
    (indexA, indexB)
  }

  /**
   * selectRandomModels, with the two Math.random draws as parameters: fails
   * on fewer than two models, and otherwise returns two records at different
   * positions.
   */
  function SelectRandomModels(models: seq<Model>, uA: real, uB: real): (r: Result<(Model, Model), string>)
    requires 0.0 <= uA < 1.0 && 0.0 <= uB < 1.0
    ensures r.Failure? <==> |models| < 2
    ensures r.Failure? ==> r.error == "Not enough models for comparison"
    ensures r.Success? ==>
              var p := PickIndices(|models|, uA, uB);
              r.value == (models[p.0], models[p.1])
  {
    if |models| < 2 then Failure("Not enough models for comparison")
    else
      var p := PickIndices(|models|, uA, uB);
      Success((models[p.0], models[p.1]))
  }

  /** With distinct ids the two selected records are never the same competitor. */
  lemma SelectedAreDistinct(models: seq<Model>, uA: real, uB: real)
    requires 0.0 <= uA < 1.0 && 0.0 <= uB < 1.0
    requires |models| >= 2 && DistinctIds(models)
    ensures SelectRandomModels(models, uA, uB).Success?
    ensures SelectRandomModels(models, uA, uB).value.0.id != SelectRandomModels(models, uA, uB).value.1.id
  {
    var p := PickIndices(|models|, uA, uB);
    if p.0 < p.1 {
      assert models[p.0].id != models[p.1].id;
    } else {
      assert models[p.1].id != models[p.0].id;
    }
  }
}
