/**
 * The server actions of app/actions.ts with the database taken out: the
 * query result and the outcome of the stored-procedure call are inputs.
 */
module Actions {
  import opened Wrappers
  import opened Models
  import opened Choices
  import JsMath

  /** A row of the `models` table, in the table's own column names. */
  datatype ModelRow = ModelRow(
    id: string,
    name: string,
    elo_rating: real,
    wins: nat,
    losses: nat,
    ties: nat,
    total_votes: nat)

  /**
   * What the select query gives back: either `{ data, error }`, or an
   * exception thrown on the way (client construction, transport).
   */
  datatype QueryResult = Answered(data: Option<seq<ModelRow>>, error: Option<string>) | Threw

  /** One row as a competitor record, field by field. */
  function RowToModel(row: ModelRow): (m: Model)
    ensures m.id == row.id && m.name == row.name && m.eloRating == row.elo_rating
    ensures m.wins == row.wins && m.losses == row.losses && m.ties == row.ties
    ensures m.totalVotes == row.total_votes
  {
    Model(row.id, row.name, row.elo_rating, row.wins, row.losses, row.ties, row.total_votes)
  }

  /** The row a record is stored as. */
  function ModelToRow(m: Model): ModelRow
  {
    ModelRow(m.id, m.name, m.eloRating, m.wins, m.losses, m.ties, m.totalVotes)
  }

  /** Row mapping and its inverse lose nothing. */
  lemma RowRoundTrip(row: ModelRow, m: Model)
    ensures ModelToRow(RowToModel(row)) == row
    ensures RowToModel(ModelToRow(m)) == m
  {
  }

  /**
   * fetchModels: the rows mapped one to one in the order the query returned
   * them (highest rating first); a query error, missing data or any exception
   * gives the empty list.
   */
  function FetchModels(q: QueryResult): (ms: seq<Model>)
    ensures (q.Threw? || q.error.Some? || q.data.None?) ==> ms == []
    ensures q.Answered? && q.error.None? && q.data.Some? ==>
              |ms| == |q.data.value| &&
              forall i :: 0 <= i < |ms| ==> ModelToRow(ms[i]) == q.data.value[i]
  {
    match q
    case Threw => []
    case Answered(data, error) =>
      if error.Some? then []
      else if data.None? then []
      else
        var rows := data.value;
        seq(|rows|, i requires 0 <= i < |rows| => RowToModel(rows[i]))
  }

  /** The arguments of the update_models_after_vote procedure. */
  datatype VoteParams = VoteParams(
    model_a_id: string,
    model_b_id: string,
    new_rating_a: int,
    new_rating_b: int,
    choice_a: int,
    choice_b: int,
    choice_tie: int)

  /**
   * The arguments sent for one vote: the ratings rounded with Math.round and
   * one 0/1 flag per outcome.
   */
  function EncodeVote(modelAId: string, modelBId: string, newRatingA: real, newRatingB: real, choice: Choice): (p: VoteParams)
    ensures p.model_a_id == modelAId && p.model_b_id == modelBId
    ensures p.new_rating_a == JsMath.Round(newRatingA) && p.new_rating_b == JsMath.Round(newRatingB)
    ensures p.choice_a + p.choice_b + p.choice_tie == 1
    ensures p.choice_a == 1 <==> choice == A
    ensures p.choice_b == 1 <==> choice == B
    ensures p.choice_tie == 1 <==> choice == Tie
  {
    VoteParams(modelAId, modelBId, JsMath.Round(newRatingA), JsMath.Round(newRatingB),
               JsMath.Indicator(choice == A), JsMath.Indicator(choice == B), JsMath.Indicator(choice == Tie))
  }

  /** Reads the outcome back from the three flags of a well-formed argument record. */
  function DecodeChoice(p: VoteParams): Option<Choice>
  {
    if (p.choice_a, p.choice_b, p.choice_tie) == (1, 0, 0) then Some(A)
    else if (p.choice_a, p.choice_b, p.choice_tie) == (0, 1, 0) then Some(B)
    else if (p.choice_a, p.choice_b, p.choice_tie) == (0, 0, 1) then Some(Tie)
    else None
  }

  /** The flag encoding is one to one: the procedure can always tell which outcome was meant. */
  lemma ChoiceRoundTrip(modelAId: string, modelBId: string, newRatingA: real, newRatingB: real, choice: Choice)
    ensures DecodeChoice(EncodeVote(modelAId, modelBId, newRatingA, newRatingB, choice)) == Some(choice)
  {
  }

  /**
   * The outcome of the server action's try block: the procedure returned
   * `{ error }`, or something threw, either creating the client or the call.
   */
  datatype RpcResult = RpcReturned(error: Option<string>) | RpcThrew

  /**
   * One call of updateModelsAfterVote: the arguments it builds for the
   * procedure (which may never be sent, if creating the client throws) and
   * the boolean the action returns. A throw may also follow a procedure call
   * that committed; the boolean is only what the action reports.
   */
  datatype VoteWrite = VoteWrite(params: VoteParams, stored: bool)

  /**
   * updateModelsAfterVote: builds the encoded vote arguments and reports
   * true iff the procedure returned without an error and nothing threw.
   */
  function UpdateModelsAfterVote(modelAId: string, modelBId: string, newRatingA: real, newRatingB: real,
                                 choice: Choice, rpc: RpcResult): (w: VoteWrite)
    ensures w.params == EncodeVote(modelAId, modelBId, newRatingA, newRatingB, choice)
    ensures w.stored <==> rpc == RpcReturned(None)
  {
    var stored := match rpc
      case RpcThrew => false
      case RpcReturned(error) => error.None?;
    VoteWrite(EncodeVote(modelAId, modelBId, newRatingA, newRatingB, choice), stored)
  }

  /**
   * Rounding each side separately can add one point to a conserved integer
   * total (both halves at .5), but never loses one.
   */
  lemma RoundedTotalDrift(newRatingA: real, newRatingB: real, total: int)
    requires newRatingA + newRatingB == total as real
    ensures var sum := JsMath.Round(newRatingA) + JsMath.Round(newRatingB);
            sum == total || sum == total + 1
  {
  }

  /** The drift of one point does happen: 1000.5 and 999.5 are sent as 1001 and 1000. */
  lemma RoundedTotalCanDrift()
    ensures JsMath.Round(1000.5) + JsMath.Round(999.5) == 2001
  {
  }
}
