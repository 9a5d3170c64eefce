/**
 * The voting screen of components/comparison-view.tsx: its four state
 * variables, its handlers, and what it shows for a given state.
 */
module Comparison {
  import opened Wrappers
  import opened Models
  import opened Choices
  import opened ModelsContext
  import Actions

  /** A revealed identity: the name and rating shown under a clip. */
  datatype Label = Label(name: string, rating: real)

  /** One clip's card: a spinner while loading, else its audio button and, maybe, the label. */
  datatype Card = CardLoading | CardReady(audioOn: bool, caption: Option<Label>)

  /** The whole screen. */
  datatype Screen =
    | Spinner
    | PairScreen(cardA: Card, cardB: Card, votingEnabled: bool, nextShown: bool)

  class ComparisonView {
    const provider: ModelsProvider
    var loading: bool
    var voted: bool
    var audioPlayingA: bool
    var audioPlayingB: bool

    /** At most one clip plays its audio. */
    ghost predicate Valid()
      reads this, provider
    {
      provider.Valid() && !(audioPlayingA && audioPlayingB)
    }

    /** The state on mount: content loading, no vote, both clips muted. */
    constructor (provider: ModelsProvider)
      requires provider.Valid()
      ensures Valid() && this.provider == provider
      ensures loading && !voted && !audioPlayingA && !audioPlayingB
    {
      this.provider := provider;
      loading, voted := true, false;
      audioPlayingA, audioPlayingB := false, false;
    }

    /** The vote buttons' `disabled={loading || voted}`, negated. */
    predicate VoteEnabled(): (enabled: bool)
      reads this
      ensures enabled <==> !(loading || voted)
    {
      !loading && !voted
    }

    /**
     * A click on a vote button takes effect: the buttons exist only once both
     * snapshots are set (before that the screen is the spinner), and they
     * must be enabled.
     */
    predicate VoteClickable(): (clickable: bool)
      reads this, provider
      ensures clickable <==> Render().PairScreen? && Render().votingEnabled
    {
      provider.selectedA.Some? && provider.selectedB.Some? && VoteEnabled()
    }

    /** The loading timer fires: the clips are shown. */
    method ContentLoaded()
      requires Valid()
      modifies this
      ensures Valid()
      ensures !loading && voted == old(voted)
      ensures audioPlayingA == old(audioPlayingA) && audioPlayingB == old(audioPlayingB)
    {
      loading := false;
    }

    /**
     * handleVote: marks the round voted and forwards the choice to the
     * provider, on every call; it does not check `voted` itself.
     */
    method HandleVote(choice: Choice, call: ActionCall) returns (write: Option<Actions.VoteWrite>)
      requires Valid()
      modifies this, provider
      ensures Valid()
      ensures voted && loading == old(loading)
      ensures audioPlayingA == old(audioPlayingA) && audioPlayingB == old(audioPlayingB)
      ensures provider.selectedA == old(provider.selectedA) && provider.selectedB == old(provider.selectedB)
      ensures provider.loading == old(provider.loading)
      ensures provider.models == ApplyVote(provider.pow, old(provider.models), provider.selectedA, provider.selectedB, choice)
      ensures VoteReport(write, provider.error) ==
                ReportVote(provider.pow, provider.selectedA, provider.selectedB, choice, call, old(provider.error))
    {
      voted := true;
      write := provider.UpdateModelsAfterVote(choice, call);
    }

    /**
     * A click on a vote button: while the spinner shows there is no button,
     * and while loading or voted the button is disabled; such a click changes
     * nothing and sends nothing.
     */
    method ClickVote(choice: Choice, call: ActionCall) returns (write: Option<Actions.VoteWrite>)
      requires Valid()
      modifies this, provider
      ensures Valid()
      ensures !old(VoteClickable()) ==> unchanged(this, provider) && write.None?
      ensures old(VoteClickable()) ==>
                voted &&
                provider.models ==
                  ApplyVote(provider.pow, old(provider.models), provider.selectedA, provider.selectedB, choice) &&
                VoteReport(write, provider.error) ==
                  ReportVote(provider.pow, provider.selectedA, provider.selectedB, choice, call, old(provider.error))
      ensures !VoteClickable()
      ensures loading == old(loading)
      ensures audioPlayingA == old(audioPlayingA) && audioPlayingB == old(audioPlayingB)
      ensures provider.selectedA == old(provider.selectedA) && provider.selectedB == old(provider.selectedB)
      ensures provider.loading == old(provider.loading)
    {
      if !VoteClickable() {
        return None;
      }
      write := HandleVote(choice, call);
    }

    /**
     * A double click on the vote buttons: the first click casts its vote,
     * the second finds the buttons disabled and sends nothing.
     */
    method DoubleClick(first: Choice, second: Choice, call1: ActionCall, call2: ActionCall)
      returns (write1: Option<Actions.VoteWrite>, write2: Option<Actions.VoteWrite>)
      requires Valid() && VoteClickable()
      modifies this, provider
      ensures Valid() && voted && !loading
      ensures audioPlayingA == old(audioPlayingA) && audioPlayingB == old(audioPlayingB)
      ensures provider.selectedA == old(provider.selectedA) && provider.selectedB == old(provider.selectedB)
      ensures provider.loading == old(provider.loading)
      ensures provider.models ==
                ApplyVote(provider.pow, old(provider.models), provider.selectedA, provider.selectedB, first)
      ensures VoteReport(write1, provider.error) ==
                ReportVote(provider.pow, provider.selectedA, provider.selectedB, first, call1, old(provider.error))
      ensures write2.None?
    {
      write1 := ClickVote(first, call1);
      write2 := ClickVote(second, call2);
    }

    /** handleNextComparison: back to loading, not voted, and a new pair is requested. */
    method HandleNextComparison(uA: real, uB: real)
      requires Valid()
      requires 0.0 <= uA < 1.0 && 0.0 <= uB < 1.0
      modifies this, provider
      ensures Valid()
      ensures loading && !voted && !VoteEnabled()
      ensures audioPlayingA == old(audioPlayingA) && audioPlayingB == old(audioPlayingB)
      ensures provider.models == old(provider.models)
      ensures provider.loading == old(provider.loading) && provider.error == old(provider.error)
      ensures |provider.models| >= 2 ==>
                var pick := SelectRandomModels(provider.models, uA, uB);
                provider.selectedA == Some(pick.value.0) && provider.selectedB == Some(pick.value.1)
      ensures |provider.models| < 2 ==>
                provider.selectedA == old(provider.selectedA) && provider.selectedB == old(provider.selectedB)
    {
      loading := true;
      voted := false;
      provider.SelectNewModels(uA, uB);
    }

    /** toggleAudioA: flips A's audio and silences B. */
    method ToggleAudioA()
      requires Valid()
      modifies this
      ensures Valid()
      ensures audioPlayingA == !old(audioPlayingA) && !audioPlayingB
      ensures loading == old(loading) && voted == old(voted)
    {
      var wasPlayingB := audioPlayingB;
      audioPlayingA := !audioPlayingA;
      if wasPlayingB {
        audioPlayingB := false;
      }
    }

    /** toggleAudioB: flips B's audio and silences A. */
    method ToggleAudioB()
      requires Valid()
      modifies this
      ensures Valid()
      ensures audioPlayingB == !old(audioPlayingB) && !audioPlayingA
      ensures loading == old(loading) && voted == old(voted)
    {
      var wasPlayingA := audioPlayingA;
      audioPlayingB := !audioPlayingB;
      if wasPlayingA {
        audioPlayingA := false;
      }
    }

    /** One card: a spinner while loading, the label only once the round is voted. */
    function CardFor(m: Model, audioOn: bool): (c: Card)
      reads this
      ensures c.CardLoading? <==> loading
      ensures c.CardReady? ==> c.audioOn == audioOn && (c.caption.Some? <==> voted)
      ensures c.CardReady? && c.caption.Some? ==> c.caption.value == Label(m.name, m.eloRating)
    {
      if loading then CardLoading
      else CardReady(audioOn, if voted then Some(Label(m.name, m.eloRating)) else None)
    }

    /**
     * What the component renders: only the spinner while either selected
     * model is missing; otherwise two cards whose identities stay hidden
     * until the vote, vote buttons guarded by VoteEnabled(), and the
     * "Next Comparison" button once voted.
     */
    function Render(): (s: Screen)
      reads this, provider
      ensures s.Spinner? <==> provider.selectedA.None? || provider.selectedB.None?
      ensures s.PairScreen? ==> s.votingEnabled == VoteEnabled() && s.nextShown == voted
      ensures s.PairScreen? ==>
                (s.cardA.CardReady? && s.cardA.caption.Some?) == (!loading && voted) &&
                (s.cardB.CardReady? && s.cardB.caption.Some?) == (!loading && voted)
      ensures s.PairScreen? && s.cardA.CardReady? && s.cardA.caption.Some? ==>
                s.cardA.caption.value == Label(provider.selectedA.value.name, provider.selectedA.value.eloRating)
      ensures s.PairScreen? && s.cardB.CardReady? && s.cardB.caption.Some? ==>
                s.cardB.caption.value == Label(provider.selectedB.value.name, provider.selectedB.value.eloRating)
      ensures s.PairScreen? ==> (s.cardA.CardReady? <==> !loading) && (s.cardB.CardReady? <==> !loading)
    {
      if provider.selectedA.None? || provider.selectedB.None? then Spinner
      else
        PairScreen(CardFor(provider.selectedA.value, audioPlayingA),
                   CardFor(provider.selectedB.value, audioPlayingB),
                   VoteEnabled(), voted)
    }
  }
}
