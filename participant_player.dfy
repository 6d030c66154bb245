/** domain/participant/Player.java, the newer Player: the same name validation,
    a hit test on the participant state, and the bet amount it forwards to.
    The Participant base class, its state classes and its bet-amount object are
    not part of this model; what this file assumes of them is said per member. */
module Participants {
  import opened Common

  /** The name reserved for the dealer. */
  const INVALID_NAME: string := "딜러"

  datatype NameError =
    | ReservedDealerName
    | NameRejected  // raised by Name's own validation, which is not part of this model

  /** The message of the reserved-name rejection. */
  function Message(e: NameError): string
    requires e == ReservedDealerName
  {
    "딜러라는 이름은 사용할 수 없습니다."
  }

  /** The participant's state, as far as the Player asks it (`isHit`, `isStay`).
      The variants other than Hit and Stay stand for the remaining state classes. */
  datatype State = Ready | Hit | Stay | Bust | Blackjack
  {
    predicate IsHit() { this == Hit }
    predicate IsStay() { this == Stay }
  }

  /** The participant's mutable bet amount. Only `initialize` is used here; it is
      assumed to record the value it is given. */
  class BetAmountCell {
    var value: Int32

    constructor ()
      ensures value == 0
    {
      value := 0;
    }

    method Initialize(v: Int32)
      modifies this
      ensures value == v
    {
      value := v;
    }
  }

  class Player {
    const name: string
    var state: State
    const betAmount: BetAmountCell

    constructor (name: string, initialState: State)
      ensures this.name == name && state == initialState
      ensures fresh(betAmount)
    {
      this.name := name;
      state := initialState;
      betAmount := new BetAmountCell();
    }

    /** canHit: the state is Hit or Stay, and no other. */
    predicate CanHit()
      reads this
      ensures CanHit() <==> state == Hit || state == Stay
      ensures state in {Ready, Bust, Blackjack} ==> !CanHit()
    {
      state.IsHit() || state.IsStay()
    }

    /** initBetAmount: forward the value to the bet amount; nothing else changes. */
    method InitBetAmount(v: Int32)
      modifies betAmount
      ensures betAmount.value == v
      ensures unchanged(this)
    {
      betAmount.Initialize(v);
    }
  }

  /** validateName: only the reserved dealer name is refused here. */
  function ValidateName(name: string): (o: Outcome<NameError>)
    ensures o.Fail? <==> name == INVALID_NAME
    ensures o.Fail? ==> o.error == ReservedDealerName
  {
    if INVALID_NAME == name then Fail(ReservedDealerName) else Pass
  }

  /** Player.from: validate, then build the Name (its own check is `nameAccepts`)
      and the participant (whose initial state is `initialState`). */
  method From(name: string, nameAccepts: string -> bool, initialState: State) returns (r: Result<Player, NameError>)
    ensures name == INVALID_NAME <==> r == Failure(ReservedDealerName)
    ensures name != INVALID_NAME ==> (r.Success? <==> nameAccepts(name))
    ensures r.Failure? && name != INVALID_NAME ==> r.error == NameRejected
    ensures r.Success? ==> fresh(r.value) && r.value.name == name && r.value.state == initialState
    ensures r.Success? ==> fresh(r.value.betAmount)
  {
    match ValidateName(name)
    case Fail(e) =>
      r := Failure(e);
    case Pass =>
      if nameAccepts(name) {
        var p := new Player(name, initialState);
        r := Success(p);
      } else {
        r := Failure(NameRejected);
      }
  }

  /** The reserved name is refused, with the fixed message. */
  lemma DealerNameRefused()
    ensures ValidateName("딜러") == Fail(ReservedDealerName)
    ensures Message(ReservedDealerName) == "딜러라는 이름은 사용할 수 없습니다."
  {
  }
}
