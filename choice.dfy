/** The ternary outcome of one comparison round: "A" | "B" | "TIE". */
module Choices {
  datatype Choice = A | B | Tie

  /** The same outcome seen from the other side of the pair. */
  function Mirror(c: Choice): (m: Choice)
    ensures (m == A <==> c == B) && (m == B <==> c == A) && (m == Tie <==> c == Tie)
  {
    match c
    case A => B
    case B => A
    case Tie => Tie
  }

  lemma MirrorInvolutive(c: Choice)
    ensures Mirror(Mirror(c)) == c
  {
  }
}
