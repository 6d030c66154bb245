/** ScoreState, the classification of a score that PlayerCards and the older
    Player consult. Its source is not part of this model; only the bust test is
    used by the modelled code, and that is a score above 21. */
module ScoreStates {

  const BUST_LIMIT: int := 21

  datatype ScoreState = Normal | Bust
  {
    predicate IsBust() { this == Bust }
  }

  /** ScoreState.of(score). */
  function Of(score: int): (s: ScoreState)
    ensures s.IsBust() <==> score > BUST_LIMIT
  {
    if score > BUST_LIMIT then Bust else Normal
  }
}
