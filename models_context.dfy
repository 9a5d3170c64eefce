/**
 * The ModelsProvider of contexts/models-context.tsx: the session's copy of
 * the competitor list, the pair on show, and the vote that patches both
 * voted records locally before the database write.
 */
module ModelsContext {
  import opened Wrappers
  import opened Models
  import opened Choices
  import opened Elo
  import Actions
  import JsMath

  /** The two actual scores of a match. */
  datatype Scores = Scores(scoreA: real, scoreB: real)

  /** The outcome as scores: a win is 1, a loss 0, a tie one half each. */
  function OutcomeScores(choice: Choice): (s: Scores)
    ensures s.scoreA + s.scoreB == 1.0
    ensures choice == A <==> s == Scores(1.0, 0.0)
    ensures choice == B <==> s == Scores(0.0, 1.0)
    ensures choice == Tie <==> s == Scores(0.5, 0.5)
  {
    match choice
    case A => Scores(1.0, 0.0)
    case B => Scores(0.0, 1.0)
    case Tie => Scores(0.5, 0.5)
  }

  /** Seen from B's side, the outcome gives the same scores swapped. */
  lemma MirroredScores(choice: Choice)
    ensures OutcomeScores(Mirror(choice)) == Scores(OutcomeScores(choice).scoreB, OutcomeScores(choice).scoreA)
  {
  }

  /** The new ratings of a vote, from the two selected snapshots' ratings. */
  function VoteRatings(pow: real -> real, a: Model, b: Model, choice: Choice): (r: NewRatings)
    requires IsPow10(pow)
    ensures r.newRatingA + r.newRatingB == a.eloRating + b.eloRating
    ensures choice == A ==> r.newRatingA > a.eloRating && r.newRatingB < b.eloRating
    ensures choice == B ==> r.newRatingA < a.eloRating && r.newRatingB > b.eloRating
    ensures choice == Tie && a.eloRating == b.eloRating ==> r == NewRatings(a.eloRating, b.eloRating)
  {
    var s := OutcomeScores(choice);
    ZeroSum(pow, a.eloRating, b.eloRating, s.scoreA, s.scoreB);
    WinRaisesLossLowers(pow, a.eloRating, b.eloRating);
    UpdateEloRatings(pow, a.eloRating, b.eloRating, s.scoreA, s.scoreB)
  }

  /**
   * One voted record: its rating becomes the rounded new rating and the
   * counter for `side` (the outcome seen from this record) goes up by one.
   */
  function Credit(m: Model, newRating: real, side: Choice): (r: Model)
    ensures r.id == m.id && r.name == m.name
    ensures r.eloRating == JsMath.Round(newRating) as real
    ensures r.totalVotes == m.totalVotes + 1
    ensures side == A ==> r.wins == m.wins + 1 && r.losses == m.losses && r.ties == m.ties
    ensures side == B ==> r.wins == m.wins && r.losses == m.losses + 1 && r.ties == m.ties
    ensures side == Tie ==> r.wins == m.wins && r.losses == m.losses && r.ties == m.ties + 1
    ensures CountersConsistent(m) ==> CountersConsistent(r)
  {
    m.(eloRating := JsMath.Round(newRating) as real,
       wins := m.wins + JsMath.Indicator(side == A),
       losses := m.losses + JsMath.Indicator(side == B),
       ties := m.ties + JsMath.Indicator(side == Tie),
       totalVotes := m.totalVotes + 1)
  }

  /** The patched version of one record of the list. */
  function PatchOne(m: Model, a: Model, b: Model, choice: Choice, r: NewRatings): (p: Model)
    ensures p.id == m.id && p.name == m.name
    ensures m.id != a.id && m.id != b.id ==> p == m
    ensures m.id == a.id ==>
              p.eloRating == JsMath.Round(r.newRatingA) as real && p.totalVotes == m.totalVotes + 1 &&
              p.wins == m.wins + JsMath.Indicator(choice == A) && p.losses == m.losses + JsMath.Indicator(choice == B)
    ensures m.id != a.id && m.id == b.id ==>
              p.eloRating == JsMath.Round(r.newRatingB) as real && p.totalVotes == m.totalVotes + 1 &&
              p.wins == m.wins + JsMath.Indicator(choice == B) && p.losses == m.losses + JsMath.Indicator(choice == A)
    ensures m.id == a.id || m.id == b.id ==> p.ties == m.ties + JsMath.Indicator(choice == Tie)
  {
    if m.id == a.id then Credit(m, r.newRatingA, choice)
    else if m.id == b.id then Credit(m, r.newRatingB, Mirror(choice))
    else m
  }

  /**
   * The list after a vote: the record with A's id is credited from A's side,
   * the record with B's id from B's (mirrored) side, every other record is
   * unchanged, and length, order and ids are kept.
   */
  function PatchModels(prev: seq<Model>, a: Model, b: Model, choice: Choice, r: NewRatings): (next: seq<Model>)
    ensures |next| == |prev|
    ensures forall i :: 0 <= i < |prev| ==> next[i].id == prev[i].id
    ensures forall i :: 0 <= i < |prev| && prev[i].id == a.id ==> next[i] == Credit(prev[i], r.newRatingA, choice)
    ensures forall i :: 0 <= i < |prev| && prev[i].id != a.id && prev[i].id == b.id ==>
              next[i] == Credit(prev[i], r.newRatingB, Mirror(choice))
    ensures forall i :: 0 <= i < |prev| && prev[i].id != a.id && prev[i].id != b.id ==> next[i] == prev[i]
  {
    seq(|prev|, i requires 0 <= i < |prev| => PatchOne(prev[i], a, b, choice, r))
  }

  /** Every record of the list keeps totalVotes == wins + losses + ties. */
  predicate AllConsistent(ms: seq<Model>)
  {
    forall i :: 0 <= i < |ms| ==> CountersConsistent(ms[i])
  }

  /** A vote keeps the counter invariant of every record. */
  lemma PatchKeepsCounters(prev: seq<Model>, a: Model, b: Model, choice: Choice, r: NewRatings)
    requires AllConsistent(prev)
    ensures AllConsistent(PatchModels(prev, a, b, choice, r))
  {
  }

  /** The vote as the provider applies it: nothing happens unless both snapshots are set. */
  function ApplyVote(pow: real -> real, models: seq<Model>, selA: Option<Model>, selB: Option<Model>, choice: Choice): (next: seq<Model>)
    requires IsPow10(pow)
    ensures |next| == |models|
    ensures forall i :: 0 <= i < |models| ==> next[i].id == models[i].id
    ensures selA.None? || selB.None? ==> next == models
    ensures AllConsistent(models) ==> AllConsistent(next)
  {
    if selA.None? || selB.None? then models
    else
      var a, b := selA.value, selB.value;
      PatchModels(models, a, b, choice, VoteRatings(pow, a, b, choice))
  }

  // ------------------------------------------------------ vote totals

  /** The sum of totalVotes over a list. */
  function VotesCast(ms: seq<Model>): nat
  {
    if ms == [] then 0 else ms[0].totalVotes + VotesCast(ms[1..])
  }

  /** How many records of the list have the id `id`. */
  function CountId(ms: seq<Model>, id: string): nat
  {
    if ms == [] then 0 else JsMath.Indicator(ms[0].id == id) + CountId(ms[1..], id)
  }

  /** Whether the list has a record with id `id`. */
  predicate HasId(ms: seq<Model>, id: string)
  {
    exists i :: 0 <= i < |ms| && ms[i].id == id
  }

  /** In a list of distinct ids, a present id occurs exactly once. */
  lemma {:induction false} CountIdOnce(ms: seq<Model>, id: string)
    requires DistinctIds(ms)
    ensures CountId(ms, id) == if HasId(ms, id) then 1 else 0
  {
    if ms != [] {
      assert DistinctIds(ms[1..]);
      CountIdOnce(ms[1..], id);
      if ms[0].id == id {
        assert !HasId(ms[1..], id) by {
          forall i | 0 <= i < |ms[1..]| ensures ms[1..][i].id != id {
            assert ms[1..][i] == ms[i + 1];
          }
        }
      }
      assert HasId(ms, id) <==> ms[0].id == id || HasId(ms[1..], id) by {
        if HasId(ms, id) && ms[0].id != id {
          var i :| 0 <= i < |ms| && ms[i].id == id;
          assert ms[1..][i - 1].id == id;
        }
        if HasId(ms[1..], id) {
          var i :| 0 <= i < |ms[1..]| && ms[1..][i].id == id;
          assert ms[i + 1].id == id;
        }
      }
    }
  }

  /** Each credited record adds exactly one vote to the total. */
  lemma {:induction false} VotesCastAfterPatch(prev: seq<Model>, a: Model, b: Model, choice: Choice, r: NewRatings)
    requires a.id != b.id
    ensures VotesCast(PatchModels(prev, a, b, choice, r)) == VotesCast(prev) + CountId(prev, a.id) + CountId(prev, b.id)
  {
    if prev != [] {
      var next := PatchModels(prev, a, b, choice, r);
      assert next[1..] == PatchModels(prev[1..], a, b, choice, r);
      VotesCastAfterPatch(prev[1..], a, b, choice, r);
    }
  }

  /**
   * A vote between two distinct records of a list with distinct ids adds
   * exactly two votes in all: one to each side, never twice to one.
   */
  lemma VoteAddsTwoVotes(pow: real -> real, models: seq<Model>, a: Model, b: Model, choice: Choice)
    requires IsPow10(pow)
    requires DistinctIds(models) && HasId(models, a.id) && HasId(models, b.id) && a.id != b.id
    ensures VotesCast(ApplyVote(pow, models, Some(a), Some(b), choice)) == VotesCast(models) + 2
  {
    VotesCastAfterPatch(models, a, b, choice, VoteRatings(pow, a, b, choice));
    CountIdOnce(models, a.id);
    CountIdOnce(models, b.id);
  }

  // ------------------------------------------------------ the provider

  /** The outcome of the fetchModels server action as the provider sees it. */
  datatype Fetch = Fetched(fetched: seq<Model>) | FetchRejected

  /**
   * The outcome of the vote-writing server action as the client sees it: its
   * result came back, or the call's promise rejected (at the transport level,
   * since the action catches its own errors; the server may still have run).
   */
  datatype ActionCall = Delivered(rpc: Actions.RpcResult) | Rejected

  const LoadErrorMessage: string := "Failed to load models. Using local data instead."
  const VoteErrorMessage: string := "Failed to update vote. Please try again."

  /** What one vote leaves on the client: the server action's result as received, if any, and the provider's error. */
  datatype VoteReport = VoteReport(write: Option<Actions.VoteWrite>, error: Option<string>)

  /**
   * The report of updateModelsAfterVote given the two snapshots, the outcome
   * of the server-action call and the error before the vote: a missing
   * snapshot makes no call and keeps the error; a rejected call gives the
   * client no result and sets the vote error; a delivered call gives the
   * action's result for the snapshots' new ratings and keeps the error.
   */
  function ReportVote(pow: real -> real, selectedA: Option<Model>, selectedB: Option<Model>, choice: Choice,
                      call: ActionCall, error: Option<string>): (rep: VoteReport)
    requires IsPow10(pow)
    ensures rep.write.Some? <==> selectedA.Some? && selectedB.Some? && call.Delivered?
    ensures rep.error == (if selectedA.Some? && selectedB.Some? && call.Rejected? then Some(VoteErrorMessage) else error)
    ensures rep.write.Some? ==>
              var r := VoteRatings(pow, selectedA.value, selectedB.value, choice);
              rep.write.value.params == Actions.EncodeVote(selectedA.value.id, selectedB.value.id, r.newRatingA, r.newRatingB, choice) &&
              (rep.write.value.stored <==> call.rpc == Actions.RpcReturned(None))
  {
    if selectedA.None? || selectedB.None? then VoteReport(None, error)
    else
      match call
      case Rejected => VoteReport(None, Some(VoteErrorMessage))
      case Delivered(rpc) =>
        var r := VoteRatings(pow, selectedA.value, selectedB.value, choice);
        VoteReport(Some(Actions.UpdateModelsAfterVote(selectedA.value.id, selectedB.value.id,
                                                      r.newRatingA, r.newRatingB, choice, rpc)), error)
  }

  /**
   * Whether loadModels ends in its catch block: the fetch rejected, or the
   * fetched list had a single record and selectRandomModels threw.
   */
  predicate LoadFails(fetch: Fetch): (fails: bool)
    ensures fails ==> LoadedModels(fetch) == InitialModels()
    ensures fetch.Fetched? && |fetch.fetched| >= 2 ==> !fails
  {
    fetch.FetchRejected? || |fetch.fetched| == 1
  }

  /**
   * The catch runs exactly when fetchModels rejects or selectRandomModels
   * throws on a non-empty fetched list (an empty one is replaced first).
   */
  lemma LoadFailsIsCatch(fetch: Fetch, uA: real, uB: real)
    requires 0.0 <= uA < 1.0 && 0.0 <= uB < 1.0
    ensures LoadFails(fetch) <==>
              fetch.FetchRejected? ||
              (fetch.fetched != [] && SelectRandomModels(fetch.fetched, uA, uB).Failure?)
  {
  }

  /** The list loadModels leaves: the fetched one when it has a pair, else the seed list. */
  function LoadedModels(fetch: Fetch): (ms: seq<Model>)
    ensures |ms| >= 2
    ensures fetch.Fetched? && |fetch.fetched| >= 2 ==> ms == fetch.fetched
    ensures fetch.FetchRejected? || |fetch.fetched| < 2 ==> ms == InitialModels()
  {
    if fetch.Fetched? && |fetch.fetched| >= 2 then fetch.fetched else InitialModels()
  }

  class ModelsProvider {
    /** Math.pow(10, .) as the runtime provides it. */
    const pow: real -> real
    var models: seq<Model>
    var selectedA: Option<Model>
    var selectedB: Option<Model>
    var loading: bool
    var error: Option<string>

    ghost predicate Valid()
      reads this
    {
      IsPow10(pow)
    }

    /** The provider's initial state, before loadModels has run. */
    constructor (pow: real -> real)
      requires IsPow10(pow)
      ensures Valid() && this.pow == pow
      ensures models == [] && selectedA == None && selectedB == None
      ensures loading && error == None
    {
      this.pow := pow;
      models := [];
      selectedA, selectedB := None, None;
      loading := true;
      error := None;
    }

    /**
     * loadModels, with the fetch result and the two Math.random draws as
     * parameters. An empty fetch falls back to the seed list, a rejected
     * fetch or a single fetched record also sets the error; a pair is
     * always selected and loading always ends.
     */
    method LoadModels(fetch: Fetch, uA: real, uB: real)
      requires Valid()
      requires 0.0 <= uA < 1.0 && 0.0 <= uB < 1.0
      modifies this
      ensures Valid()
      ensures models == LoadedModels(fetch)
      ensures error == if LoadFails(fetch) then Some(LoadErrorMessage) else None
      ensures !loading
      ensures var pick := SelectRandomModels(models, uA, uB);
              pick.Success? && selectedA == Some(pick.value.0) && selectedB == Some(pick.value.1)
    {
      loading := true;
      error := None;
      var failed := false;
      match fetch {
        case FetchRejected =>
          failed := true;
        case Fetched(fetched) =>
          if |fetched| == 0 {
            models := InitialModels();
            var pick := SelectRandomModels(models, uA, uB);
            selectedA, selectedB := Some(pick.value.0), Some(pick.value.1);
          } else {
            models := fetched;
            var pick := SelectRandomModels(fetched, uA, uB);
            if pick.Failure? {
              failed := true;
            } else {
              selectedA, selectedB := Some(pick.value.0), Some(pick.value.1);
            }
          }
      }
      if failed {
        error := Some(LoadErrorMessage);
        models := InitialModels();
        var pick := SelectRandomModels(models, uA, uB);
        selectedA, selectedB := Some(pick.value.0), Some(pick.value.1);
      }
      loading := false;
    }

    /** selectNewModels: a fresh pair from the current list, or nothing with fewer than two. */
    method SelectNewModels(uA: real, uB: real)
      requires Valid()
      requires 0.0 <= uA < 1.0 && 0.0 <= uB < 1.0
      modifies this
      ensures Valid()
      ensures models == old(models) && loading == old(loading) && error == old(error)
      ensures |models| < 2 ==> selectedA == old(selectedA) && selectedB == old(selectedB)
      ensures |models| >= 2 ==>
                var pick := SelectRandomModels(models, uA, uB);
                selectedA == Some(pick.value.0) && selectedB == Some(pick.value.1)
    {
      if |models| < 2 {
        return;
      }
      var pick := SelectRandomModels(models, uA, uB);
      selectedA, selectedB := Some(pick.value.0), Some(pick.value.1);
    }

    /**
     * updateModelsAfterVote: the new ratings come from the selected
     * snapshots, the local list is patched first and stays patched whatever
     * the database write reports; only a rejected call sets the error.
     * Returns the server action's result as the client receives it, if any.
     */
    method UpdateModelsAfterVote(choice: Choice, call: ActionCall) returns (write: Option<Actions.VoteWrite>)
      requires Valid()
      modifies this
      ensures Valid()
      ensures selectedA == old(selectedA) && selectedB == old(selectedB) && loading == old(loading)
      ensures models == ApplyVote(pow, old(models), selectedA, selectedB, choice)
      ensures VoteReport(write, error) == ReportVote(pow, selectedA, selectedB, choice, call, old(error))
    {
      if selectedA.None? || selectedB.None? {
        return None;
      }
      var a, b := selectedA.value, selectedB.value;

      var scoreA, scoreB := 0.5, 0.5;
      if choice == A {
        scoreA, scoreB := 1.0, 0.0;
      } else if choice == B {
        scoreA, scoreB := 0.0, 1.0;
      }
      assert Scores(scoreA, scoreB) == OutcomeScores(choice);

      var r := UpdateEloRatings(pow, a.eloRating, b.eloRating, scoreA, scoreB);
      models := PatchModels(models, a, b, choice, r);

      match call {
        case Rejected =>
          error := Some(VoteErrorMessage);
          write := None;
        case Delivered(rpc) =>
          write := Some(Actions.UpdateModelsAfterVote(a.id, b.id, r.newRatingA, r.newRatingB, choice, rpc));
      }
    }
  }
}
