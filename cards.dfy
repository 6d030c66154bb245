/** Card.java, with the two enums it uses (CardSuit and CardNumber, whose source
    is not part of this model: their constants follow the standard 52-card deck). */
module Cards {
  import opened Common

  datatype CardSuit = Spade | Heart | Diamond | Clover

  datatype CardNumber =
    | Ace | Two | Three | Four | Five | Six | Seven | Eight | Nine | Ten
    | Jack | Queen | King
  {
    predicate IsAce() { this == Ace }

    /** CardNumber.getScore: the base score, with an Ace counted low. */
    function Score(): (r: int)
      ensures 1 <= r <= 10
      ensures r == 1 <==> IsAce()
    {
      match this
      case Ace => 1
      case Two => 2
      case Three => 3
      case Four => 4
      case Five => 5
      case Six => 6
      case Seven => 7
      case Eight => 8
      case Nine => 9
      case _ => 10
    }
  }

  /** An immutable card; `suit` and `number` are getSuit and getNumber. */
  datatype Card = Card(suit: CardSuit, number: CardNumber)
  {
    /** Card.isAce delegates to the number. */
    predicate IsAce()
      ensures IsAce() <==> number == Ace
    {
      number.IsAce()
    }
  }

  /** What `equals(Object o)` may be handed: null, a card, or an object of another class. */
  datatype JavaObject = Null | CardObject(card: Card) | OtherObject

  /** Card.equals: the same class and the same suit and number. Reference identity
      (`this == o`) implies equal fields, so it needs no case of its own here. */
  function Equals(c: Card, o: JavaObject): (r: bool)
    ensures r <==> o.CardObject? && o.card.suit == c.suit && o.card.number == c.number
    ensures r <==> o == CardObject(c)
  {
    match o
    case Null => false
    case OtherObject => false
    case CardObject(other) => c.suit == other.suit && c.number == other.number
  }

  /** Card.hashCode = Objects.hash(cardSuit, cardNumber), that is
      31 * (31 * 1 + hash(suit)) + hash(number) in wrapping `int` arithmetic. Enum
      hash codes are identity hashes chosen at run time, so they are parameters. */
  function HashCode(c: Card, suitHash: CardSuit -> Int32, numberHash: CardNumber -> Int32): (r: Int32)
    ensures (r - (961 + 31 * suitHash(c.suit) + numberHash(c.number))) % 0x1_0000_0000 == 0
  {
    Wrap32(31 * Wrap32(31 * 1 + suitHash(c.suit)) + numberHash(c.number))
  }

  /** Card.getCardName: the number's display value followed by the suit's. The
      display tables are not part of this model, so they are parameters. */
  function CardName(c: Card, numberValue: CardNumber -> string, suitValue: CardSuit -> string): (r: string)
    ensures |r| == |numberValue(c.number)| + |suitValue(c.suit)|
    ensures r[..|numberValue(c.number)|] == numberValue(c.number)
    ensures r[|numberValue(c.number)|..] == suitValue(c.suit)
  {
    numberValue(c.number) + suitValue(c.suit)
  }

  /** The constructor keeps its arguments: getSuit and getNumber return them. */
  lemma ConstructorKeepsFields(s: CardSuit, n: CardNumber)
    ensures Card(s, n).suit == s && Card(s, n).number == n
  {
  }

  /** equals is reflexive and symmetric. */
  lemma EqualsReflexiveSymmetric(a: Card, b: Card)
    ensures Equals(a, CardObject(a))
    ensures Equals(a, CardObject(b)) <==> Equals(b, CardObject(a))
    ensures !Equals(a, Null) && !Equals(a, OtherObject)
  {
  }

  /** equals and hashCode agree: equal cards have equal hash codes. */
  lemma EqualCardsEqualHash(a: Card, b: Card, suitHash: CardSuit -> Int32, numberHash: CardNumber -> Int32)
    requires Equals(a, CardObject(b))
    ensures HashCode(a, suitHash, numberHash) == HashCode(b, suitHash, numberHash)
  {
  }
}
