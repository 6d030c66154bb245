/** BetAmount.java: a wager validated into the inclusive range [1000, 100000]. */
module BetAmounts {
  import opened Common

  const MIN_BET_AMOUNT: int := 1_000
  const MAX_BET_AMOUNT: int := 100_000

  /** The value is final: a BetAmount never changes once built. */
  datatype BetAmount = BetAmount(value: Int32)
  {
    /** getValue. */
    function GetValue(): Int32 { value }
  }

  /** The Java constructor is private, so every BetAmount comes from `of` and
      holds a value in range; this subset type keeps that guarantee. */
  type ValidBetAmount = b: BetAmount | MIN_BET_AMOUNT <= b.value <= MAX_BET_AMOUNT
    witness BetAmount(MIN_BET_AMOUNT)

  datatype BetError = BelowMinimum | AboveMaximum

  /** The messages the two IllegalArgumentExceptions carry. */
  function Message(e: BetError): string
  {
    match e
    case BelowMinimum => "베팅 금액은 1,000원 이상부터 가능합니다."
    case AboveMaximum => "베팅 금액은 10만원까지만 가능합니다."
  }

  /** validateAmount: the lower bound is checked first, then the upper one. */
  function ValidateAmount(value: Int32): (o: Outcome<BetError>)
    ensures o == Pass <==> MIN_BET_AMOUNT <= value <= MAX_BET_AMOUNT
    ensures value < MIN_BET_AMOUNT ==> o == Fail(BelowMinimum)
    ensures value > MAX_BET_AMOUNT ==> o == Fail(AboveMaximum)
  {
    if value < MIN_BET_AMOUNT then Fail(BelowMinimum)
    else if value > MAX_BET_AMOUNT then Fail(AboveMaximum)
    else Pass
  }

  /** BetAmount.of: validate, then wrap the value unchanged. */
  function Of(value: Int32): (r: Result<ValidBetAmount, BetError>)
    ensures r.Success? <==> MIN_BET_AMOUNT <= value <= MAX_BET_AMOUNT
    ensures r.Success? ==> r.value.GetValue() == value
    ensures value < MIN_BET_AMOUNT ==> r == Failure(BelowMinimum)
    ensures value > MAX_BET_AMOUNT ==> r == Failure(AboveMaximum)
  {
    match ValidateAmount(value)
    case Fail(e) => Failure(e)
    case Pass => Success(BetAmount(value))
  }

  /** Both bounds are inclusive; one step beyond either fails with its own error
      and message. */
  lemma BoundsInclusive()
    ensures Of(1_000) == Success(BetAmount(1_000))
    ensures Of(100_000) == Success(BetAmount(100_000))
    ensures Of(999) == Failure(BelowMinimum)
    ensures Of(100_001) == Failure(AboveMaximum)
    ensures Message(Of(999).error) == "베팅 금액은 1,000원 이상부터 가능합니다."
    ensures Message(Of(100_001).error) == "베팅 금액은 10만원까지만 가능합니다."
  {
  }
}
