# BrainrotBench rating engine, modelled in Dafny

BrainrotBench is a voting site. It shows two AI-generated clips side by side, takes
a vote ("A", "B" or "TIE") and keeps an Elo leaderboard of the models that made them.
This project models the parts of it that compute something:

- the Elo math of `lib/elo.ts` (module `Elo`);
- the competitor record and its helpers in `lib/models.ts` (module `Models`): the seed
  list, the win rate, the rank titles and the random pair;
- the session store `ModelsProvider` of `contexts/models-context.tsx` (module
  `ModelsContext`). It is a class with the fields `models`, `selectedA`, `selectedB`,
  `loading` and `error`. Its methods are loading, selecting a new pair, and applying a
  vote locally before the database write;
- the server actions of `app/actions.ts` (module `Actions`), with the database taken out;
- the summary-to-record conversion of `lib/brainrot.ts` (module `Brainrot`), with the
  JavaScript string operations it uses;
- the leaderboard page's stable descending sort and 1-based ranks (module `Leaderboard`);
- the voting screen of `components/comparison-view.tsx` (module `Comparison`). It is a
  class with `loading`, `voted`, `audioPlayingA` and `audioPlayingB`, the four handlers,
  and a `Render` function for what is shown.

Helpers: `JsMath` holds `Math.round` and `Math.floor(Math.random() * n)`. `Choices`
holds the vote outcome. `Wrappers` holds `Option` and `Result`.

How the model stands in for the environment:

- Ratings are `real` and counters are `nat`.
- `Math.pow(10, x)` cannot be evaluated over the reals. Every member that needs it
  takes the exponential as a parameter `pow`.
- `Elo.IsPow10` lists the laws of 10^x that the proofs use: `pow(0) == 1`,
  `pow(x) > 0`, `pow(x) * pow(-x) == 1`, and strictly increasing. These laws do not
  fix the base, so every Elo result holds for any exponential with a base above one,
  10 included. The first law is implied by the next two (take x = y = 0) and is kept
  only as the plain statement of 10^0 = 1. `Elo.StandInObeysPow10Laws` gives a concrete
  function that obeys all four laws, so they are consistent.
- The provider stores the exponential as a constant field.
- `Math.round(x)` is `Floor(x + 0.5)`.
- Each `Math.random()` draw is a parameter `u` with `0 <= u < 1`.
- Database answers, fetch results and RPC outcomes are input values:
  - `Actions.QueryResult` is the select query;
  - `Actions.RpcResult` is the stored-procedure call;
  - `ModelsContext.Fetch` and `ModelsContext.ActionCall` are the server actions as the
    client sees them;
  - `Brainrot.SummaryFetch` is the `/summary.json` fetch.

Behaviour of the code that the model keeps as written:

- A vote does not check that the two selected ids differ or are still in the list. It
  credits whichever records carry the two selected ids.
- Single-vote-per-round rests only on the buttons: they are absent while the spinner shows and
  disabled while loading or voted (`Comparison.ComparisonView.VoteClickable`,
  `Comparison.ComparisonView.ClickVote`). `handleVote` has no guard of its own
  (`Comparison.ComparisonView.HandleVote`).
- The local patch already rounds ratings with `Math.round`
  (contexts/models-context.tsx:156, :166), not only when the vote is sent to the database.
- The revealed label shows the selected snapshot. After a vote the snapshot is not
  refreshed, so the rating shown is the one from before the vote.
- The load path falls back to the seed list when the fetch rejects, when it returns
  nothing, and also when it returns exactly one record. In that last case
  `selectRandomModels` throws inside the `try`, the `catch` replaces the fetched
  list with the seed list, and the error message is set (`ModelsContext.LoadedModels`,
  `ModelsContext.LoadFails`).

## Model

| member | source | states |
|---|---|---|
| `JsMath.Round` | contexts/models-context.tsx:156 | Math.round's result is the integer r with x - 1/2 < r <= x + 1/2 |
| `JsMath.RoundHalfGoesUp` | app/actions.ts:54-55 | half-way values round up, as Math.round does: 2.5 to 3 and -2.5 to -2 |
| `JsMath.RoundOfInteger` | app/actions.ts:54-55 | a rating that is already an integer is sent unchanged |
| `JsMath.DrawIndex` | lib/models.ts:56 | floor(u * n) for a draw u in [0, 1) is the index i < n with i <= u*n < i + 1 |
| `Choices.Mirror` | contexts/models-context.tsx:157-170 | B's counters use A's outcome mirrored: A and B swap and TIE stays |
| `Choices.MirrorInvolutive` | contexts/models-context.tsx:157-170 | mirroring twice gives back the outcome |
| `Elo.StandInObeysPow10Laws` | lib/elo.ts:19 | the laws assumed of Math.pow(10, .) are satisfiable together |
| `Elo.ExpectedScore` | lib/elo.ts:18-20 | the expected score lies strictly between 0 and 1, and is exactly 1/2 for equal ratings |
| `Elo.ExpectedScoresComplement` | lib/elo.ts:19 | the two players' expected scores add up to exactly 1 |
| `Elo.HigherRatedIsFavoured` | lib/elo.ts:19 | the higher-rated player expects more than 1/2, the lower-rated one less |
| `Elo.NewRating` | lib/elo.ts:29-31 | the rating moves by K = 32 times (actual - expected): unchanged when they are equal, up when the result beats expectation, down otherwise |
| `Elo.UpdateEloRatings` | lib/elo.ts:41-54 | each new rating is calculateNewRating of that side's pre-match rating and its expected score against the other's pre-match rating |
| `Elo.UpdatesAreIndependent` | lib/elo.ts:47-51 | A's new rating does not depend on B's score, nor B's on A's |
| `Elo.ZeroSum` | lib/elo.ts:47-51 | when the scores sum to 1, the rating total is conserved and the two deltas are equal and opposite |
| `Elo.WinRaisesLossLowers` | lib/elo.ts:19 | score 1 strictly raises a rating and score 0 strictly lowers it, for any opponent |
| `Elo.EvenMatchWin` | lib/elo.ts:41-54 | 1000 against 1000 with scores (1, 0) gives exactly (1016, 984) |
| `Elo.UpsetTie` | lib/elo.ts:41-54 | a tie between 1200 and 1000 lowers the favourite, raises the underdog, by equal and opposite amounts |
| `Models.Seed` | lib/models.ts:17 | a seeded record has the given id and name, rating 1000 and all counters 0 |
| `Models.InitialModels` | lib/models.ts:16-22 | the seed list has 5 records with distinct ids, rating 1000, all counters 0 |
| `Models.WinRate` | lib/models.ts:27-33 | zero without matches; otherwise (wins + ties/2) / matches * 100, always within [0, 100] |
| `Models.WinRatePerfect` | lib/models.ts:32 | with matches, the rate is 100 iff no loss and no tie, and 0 iff no win and no tie |
| `Models.WinRateExample` | lib/models.ts:32 | 3 wins, 1 loss, 2 ties give 200/3 |
| `Models.RankLevel` | lib/models.ts:38-46 | the title index is the number of thresholds reached, one of the seven titles |
| `Models.RankLevelByCases` | lib/models.ts:38-46 | the title index for each interval between 800, 1000, 1200, 1400, 1600 and 1800 |
| `Models.GetRankFromRating` | lib/models.ts:38-46 | the title is the one for the number of thresholds 800..1800 reached, each compared with a strict < |
| `Models.RankExamples` | lib/models.ts:38-46 | 1000 is Intermediate, 999 Beginner, 1800 and above Grandmaster |
| `Models.ReachedMonotone` | lib/models.ts:38-46 | a higher rating reaches at least as many thresholds |
| `Models.RankMonotone` | lib/models.ts:38-46 | the title index never decreases as the rating grows |
| `Models.SkipIndex` | lib/models.ts:57-58 | the remapped second index never equals the first, and is the draw or the draw plus one |
| `Models.SkipIndexInRange` | lib/models.ts:56-58 | a second draw in [0, n-1) lands in [0, n) |
| `Models.SkipIndexInjective` | lib/models.ts:57-58 | two different second draws never give the same index |
| `Models.SkipIndexOnto` | lib/models.ts:57-58 | every index other than the first comes from a second draw, namely UnskipIndex |
| `Models.PairFromExactlyOneDraw` | lib/models.ts:56-58 | each ordered pair of distinct positions comes from exactly one pair of draws |
| `Models.PickIndices` | lib/models.ts:56-58 | the two positions are in range and different |
| `Models.SelectRandomModels` | lib/models.ts:51-61 | fails with "Not enough models for comparison" iff fewer than 2 models; otherwise returns the records at the two drawn positions |
| `Models.SelectedAreDistinct` | lib/models.ts:51-61 | with at least 2 models and distinct ids, the two selected records have different ids |
| `Brainrot.IndexOf` | lib/brainrot.ts:27 | gives the first position of the character, or -1 exactly when it is absent |
| `Brainrot.ReplaceFirst` | lib/brainrot.ts:27 | only the first occurrence is replaced and the rest of the string is unchanged |
| `Brainrot.ReplaceFirstRemovesOne` | lib/brainrot.ts:27 | exactly one "/" disappears and one "_" appears |
| `Brainrot.IndexOfAfter` | lib/brainrot.ts:27 | in p + "/" + q with no "/" in p, the first "/" is at position |p| |
| `Brainrot.ReplaceFirstAfter` | lib/brainrot.ts:27 | p + "/" + q becomes p + "_" + q, with every later slash in q kept |
| `Brainrot.ModelId` | lib/brainrot.ts:27 | the id is the model string with its first "/" turned into "_" and every other character kept; a string without "/" is unchanged |
| `Brainrot.Contains` | lib/brainrot.ts:28 | includes holds when the text starts with the pattern, always for the empty pattern, and never for a pattern longer than the text |
| `Brainrot.Split` | lib/brainrot.ts:29-30 | split gives at least one piece, no piece holds the separator, and one piece iff there is no separator |
| `Brainrot.JoinSplit` | lib/brainrot.ts:29-30 | joining the pieces with the separator gives back the string |
| `Brainrot.SplitAtFirst` | lib/brainrot.ts:29-30 | splitting p + "/" + q with no "/" in p gives p and then the pieces of q |
| `Brainrot.ContainsIffOccurs` | lib/brainrot.ts:28 | includes is true iff the text occurs at some position |
| `Brainrot.MissingCharNotContained` | lib/brainrot.ts:28 | a string lacking one of the characters of the pattern does not include it |
| `Brainrot.SecondSegment` | lib/brainrot.ts:29-30 | without "/" the second piece is undefined, printed as "undefined"; otherwise the second piece has no "/" |
| `Brainrot.SecondSegmentAfter` | lib/brainrot.ts:29-30 | the second piece is the text between the first and the second "/" |
| `Brainrot.ModelName` | lib/brainrot.ts:28-30 | "OpenAI " + second piece if the string includes "openai" anywhere, else "Google " + second piece |
| `Brainrot.PublicPath` | lib/brainrot.ts:41 | a leading "public/" becomes "/" (so "public" + result is the path); any other path is unchanged |
| `Brainrot.ToVideoModel` | lib/brainrot.ts:26-43 | each record has the converted id, name and path, the entry's idea and reasoning, rating 1000 and zero counters |
| `Brainrot.LoadBrainrotModels` | lib/brainrot.ts:16-49 | one record per summary entry, in order; a failed fetch or parse gives [] |
| `Actions.RowToModel` | app/actions.ts:25-33 | each column goes to its field: elo_rating to eloRating, total_votes to totalVotes, the rest by name |
| `Actions.RowRoundTrip` | app/actions.ts:25-33 | the row mapping and its inverse lose nothing |
| `Actions.FetchModels` | app/actions.ts:7-39 | a query error, null data or an exception gives []; otherwise one record per row, in order |
| `JsMath.Indicator` | app/actions.ts:56-58 | `cond ? 1 : 0` is 0 or 1, and 1 iff cond holds |
| `Actions.EncodeVote` | app/actions.ts:51-59 | the ratings sent are Math.round of the given ones; exactly one of choice_a, choice_b, choice_tie is 1, the one matching the choice |
| `Actions.ChoiceRoundTrip` | app/actions.ts:56-58 | the choice can be read back from the three flags |
| `Actions.UpdateModelsAfterVote` | app/actions.ts:42-71 | builds the encoded vote arguments and returns true iff the procedure reports no error and nothing throws, whether creating the client or calling the procedure |
| `Actions.RoundedTotalDrift` | app/actions.ts:54-55 | when the pair's total is conserved, the rounded ratings sent sum to the total or the total plus one |
| `Actions.RoundedTotalCanDrift` | app/actions.ts:54-55 | the one-point drift happens: 1000.5 and 999.5 are sent as 1001 and 1000 |
| `ModelsContext.OutcomeScores` | contexts/models-context.tsx:130-139 | A gives (1, 0), B gives (0, 1), TIE gives (1/2, 1/2); the scores always sum to 1 |
| `ModelsContext.MirroredScores` | contexts/models-context.tsx:130-139 | the mirrored outcome gives the same scores swapped |
| `ModelsContext.VoteRatings` | contexts/models-context.tsx:142-147 | ratings come from the two snapshots; their total is conserved; the winner gains and the loser loses; a tie between equal ratings changes nothing |
| `ModelsContext.Credit` | contexts/models-context.tsx:153-172 | the rating becomes the rounded new rating; totalVotes goes up by 1 and exactly the counter of the record's own outcome goes up by 1; the counter invariant is kept |
| `ModelsContext.PatchOne` | contexts/models-context.tsx:153-173 | a record with A's id is credited from A's side, else one with B's id from B's side (wins and losses swapped), any other record is unchanged; id and name are always kept |
| `ModelsContext.PatchModels` | contexts/models-context.tsx:151-175 | the record with A's id is credited from A's side, the one with B's id from the mirrored side; all other records are unchanged; length, order and ids are kept |
| `ModelsContext.PatchKeepsCounters` | contexts/models-context.tsx:157-170 | if every record has totalVotes == wins + losses + ties before the vote, every record has it after |
| `ModelsContext.ApplyVote` | contexts/models-context.tsx:127-175 | the vote is a no-op when either snapshot is null; otherwise it patches the list, keeping length, ids and the counter invariant |
| `ModelsContext.CountIdOnce` | contexts/models-context.tsx:153 | in a list with distinct ids, a present id matches exactly one record |
| `ModelsContext.VotesCastAfterPatch` | contexts/models-context.tsx:151-175 | the total of totalVotes grows by the number of records matching A's or B's id |
| `ModelsContext.VoteAddsTwoVotes` | contexts/models-context.tsx:151-175 | with distinct ids and both present, one vote adds exactly two to the total of totalVotes |
| `ModelsContext.LoadedModels` | contexts/models-context.tsx:41-61 | the list after loading is the fetched one when it holds at least two records, the seed list otherwise |
| `ModelsContext.LoadFails` | contexts/models-context.tsx:54-61 | when loading falls into the catch, the list is the seed list; a fetched list of two or more never does |
| `ModelsContext.LoadFailsIsCatch` | contexts/models-context.tsx:41-61 | the catch runs iff fetchModels rejects or selectRandomModels throws on the non-empty fetched list |
| `ModelsContext.ModelsProvider.constructor` | contexts/models-context.tsx:27-31 | the provider starts with no models, no selection, loading and no error |
| `ModelsContext.ModelsProvider.LoadModels` | contexts/models-context.tsx:35-65 | models become LoadedModels; the error is set exactly when loading falls into the catch; a pair is always selected from the final list; loading ends false |
| `ModelsContext.ModelsProvider.SelectNewModels` | contexts/models-context.tsx:117-123 | nothing changes with fewer than 2 models; otherwise the selection is the pair drawn from the current list, and nothing else changes |
| `ModelsContext.ReportVote` | contexts/models-context.tsx:127-186 | the client receives the action's result iff both snapshots are set and the call is delivered; that result carries the arguments built from the snapshots' new ratings and the boolean the action returns, true iff the procedure reported no error; the error becomes the vote message iff both snapshots are set and the call is rejected, and is kept otherwise |
| `ModelsContext.ModelsProvider.UpdateModelsAfterVote` | contexts/models-context.tsx:126-187 | only `models` and `error` change: models to ApplyVote of the snapshots, the write and the error to ReportVote; the selection and loading are untouched; the patch stays whatever the database write reports |
| `Leaderboard.Insert` | app/leaderboard/page.tsx:12 | inserting adds exactly the one record to the multiset |
| `Leaderboard.SortByRating` | app/leaderboard/page.tsx:12 | the sorted copy is a permutation of the list |
| `Leaderboard.InsertSorted` | app/leaderboard/page.tsx:12 | inserting into a list sorted by descending rating keeps it sorted |
| `Leaderboard.SortedIsSorted` | app/leaderboard/page.tsx:12 | the sorted copy is non-increasing in rating |
| `Leaderboard.InsertKeepsTies` | app/leaderboard/page.tsx:12 | an insert puts the new record ahead of the records with its rating |
| `Leaderboard.SortIsStable` | app/leaderboard/page.tsx:12 | records with equal ratings keep their relative order |
| `Leaderboard.Standings` | app/leaderboard/page.tsx:51-56 | row i shows rank i + 1, the i-th sorted record and its win rate, within [0, 100] |
| `Leaderboard.TopOfTable` | app/leaderboard/page.tsx:12 | the first row holds a record with the highest rating |
| `Leaderboard.RenderLeaderboard` | app/leaderboard/page.tsx:9-12 | the page sorts a copy: its rows are Standings of the provider's list, which it does not modify |
| `Comparison.ComparisonView.constructor` | components/comparison-view.tsx:15-18 | the screen starts loading, not voted, with both clips muted |
| `Comparison.ComparisonView.ContentLoaded` | components/comparison-view.tsx:21-27 | the timer's firing ends loading and changes nothing else |
| `Comparison.ComparisonView.VoteEnabled` | components/comparison-view.tsx:146 | the vote buttons are enabled iff neither loading nor voted |
| `Comparison.ComparisonView.VoteClickable` | components/comparison-view.tsx:57-146 | a vote click takes effect iff the screen shows the pair and its buttons are enabled |
| `Comparison.ComparisonView.HandleVote` | components/comparison-view.tsx:29-37 | sets voted and forwards the vote on every call, with no check of its own: the list is patched, the write and error are ReportVote's, loading, audio and selection are kept |
| `Comparison.ComparisonView.ClickVote` | components/comparison-view.tsx:57-146 | a click while the spinner shows (a snapshot missing) or on a disabled button (loading or voted) changes nothing and sends nothing; a click on a shown, enabled button casts the vote as HandleVote does; afterwards no vote click takes effect; audio, selection and both loading flags are kept |
| `Comparison.ComparisonView.DoubleClick` | components/comparison-view.tsx:146-164 | two clicks in a row apply only the first vote: the list and the first write follow the first choice, the second click sends nothing, audio, selection and loading are kept |
| `Comparison.ComparisonView.HandleNextComparison` | components/comparison-view.tsx:39-45 | sets loading and clears voted; a new pair is drawn from the unchanged list; audio and the provider's loading and error are kept |
| `Comparison.ComparisonView.ToggleAudioA` | components/comparison-view.tsx:47-50 | flips A's audio and leaves B silent, so both never play together |
| `Comparison.ComparisonView.ToggleAudioB` | components/comparison-view.tsx:52-55 | flips B's audio and leaves A silent, so both never play together |
| `Comparison.ComparisonView.Render` | components/comparison-view.tsx:57-177 | only the spinner while either selected model is null; names and ratings shown only when voted and loaded; buttons enabled iff !loading && !voted; "Next Comparison" iff voted |
| `Comparison.ComparisonView.CardFor` | components/comparison-view.tsx:70-101 | a card is the spinner iff loading; a ready card plays the given audio flag and shows the record's name and rating iff voted |

## Left out

- Elo.ExpectedScore: it is proved for every function that obeys the laws of `Elo.IsPow10`,
  not for Math.pow(10, .) itself, because a real exponential cannot be evaluated here.
  IEEE floating-point rounding of the Elo math is not modelled either: everything is exact over the reals.
- ModelsContext.ReportVote: it describes what the client receives, not what the database holds.
  Whether a rejected call, or an action that threw, still committed the vote on the server is
  not modelled, because a lost response and a failed call look the same to the client.
- Leaderboard.Standings: a row holds the exact win rate, not the one-decimal string that
  `toFixed(1)` prints (app/leaderboard/page.tsx:56), because number formatting is not modelled.
- Comparison.ComparisonView.Render: it does not model the JSX markup or styling. It covers only
  which parts are shown.
- The realtime subscription to "models" updates, its refresh, and the channel cleanup
  (contexts/models-context.tsx:69-113). They are a foreign client library and best-effort;
  they never feed into a vote.
- The `await`/async ordering and React's batching of state updates. Each handler is
  modelled as one atomic step, run in source order.
- The actual network and database calls: the Supabase query, the RPC, and the fetch of
  `/summary.json`. Their results are input values. The server-side atomicity of
  `update_models_after_vote` is not modelled, because the stored procedure's SQL is not in the repository.
- The `setTimeout` loading simulation (components/comparison-view.tsx:21-27) is modelled
  as the explicit `ContentLoaded` event. The model does not tie the timer to a change of the
  selected pair.
- A choice outside "A" | "B" | "TIE". The TypeScript types rule it out, so `Choice` is a closed
  enumeration.
- `console.log`/`console.error` logging.
- lib/supabase.ts (client construction from environment variables) is not part of this model.
- The Python content pipeline (main.py, brainrot.py: LLM, image and speech API calls,
  thread pools, ffmpeg) is not part of this model. Neither are the decorative or static pages
  (animated background, about page, layout, home page).
