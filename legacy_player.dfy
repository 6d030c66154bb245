/** domain/Player.java, the older Player: name validation and a bust test on
    the participant's score state. The participant base class is not part of
    this model: its name and state are the two fields of the datatype. */
module LegacyPlayers {
  import opened Common
  import opened ScoreStates

  /** The name reserved for the dealer. */
  const INVALID_NAME: string := "딜러"

  datatype NameError =
    | ReservedDealerName
    | NameRejected  // raised by Name's own validation, which is not part of this model

  /** The message of the reserved-name rejection. */
  function Message(e: NameError): string
    requires e == ReservedDealerName
  {
    "딜러라는 이름은 사용할 수 없습니다."
  }

  datatype Player = Player(name: string, state: ScoreState)
  {
    /** isBust: the state is exactly BUST. */
    predicate IsBust()
      ensures IsBust() <==> state == Bust
    {
      state == Bust
    }
  }

  /** validateName: only the reserved dealer name is refused here. */
  function ValidateName(name: string): (o: Outcome<NameError>)
    ensures o.Fail? <==> name == INVALID_NAME
    ensures o.Fail? ==> o.error == ReservedDealerName
  {
    if INVALID_NAME == name then Fail(ReservedDealerName) else Pass
  }

  /** Player.from: validate, then build the Name (its own check is `nameAccepts`)
      and the participant (whose initial state is `initialState`). */
  function From(name: string, nameAccepts: string -> bool, initialState: ScoreState): (r: Result<Player, NameError>)
    ensures name == INVALID_NAME <==> r == Failure(ReservedDealerName)
    ensures name != INVALID_NAME ==> (r.Success? <==> nameAccepts(name))
    ensures r.Failure? && name != INVALID_NAME ==> r.error == NameRejected
    ensures r.Success? ==> r.value.name == name && r.value.state == initialState
  {
    match ValidateName(name)
    case Fail(e) => Failure(e)
    case Pass => if nameAccepts(name) then Success(Player(name, initialState)) else Failure(NameRejected)
  }

  /** The reserved name is refused even when Name itself would accept it. */
  lemma DealerNameRefused(nameAccepts: string -> bool, initialState: ScoreState)
    ensures From("딜러", nameAccepts, initialState) == Failure(ReservedDealerName)
    ensures Message(ReservedDealerName) == "딜러라는 이름은 사용할 수 없습니다."
  {
  }
}
