/** PlayerCards.java: a participant's hand, an append-only list of cards whose
    score is recomputed on every request. */
module Hands {
  import opened Cards
  import opened ScoreStates

  /** What one Ace adds when it is promoted from 1 to 11. */
  const ACE_HANDLE_SCORE: int := 10

  /** The sum of the cards' base scores, every Ace counted as 1. */
  function LowSum(cs: seq<Card>): (r: int)
    ensures |cs| <= r <= 10 * |cs|
  {
    if cs == [] then 0 else LowSum(cs[..|cs| - 1]) + cs[|cs| - 1].number.Score()
  }

  /** hasAceCard: `anyMatch(Card::isAce)`. */
  function HasAceCard(cs: seq<Card>): (b: bool)
    ensures b <==> exists i :: 0 <= i < |cs| && cs[i].IsAce()
  {
    if cs == [] then false
    else
      assert forall i :: 0 <= i < |cs| - 1 ==> cs[1..][i] == cs[i + 1];
      cs[0].IsAce() || HasAceCard(cs[1..])
  }

  /** getFinalScore: promote one Ace unless that busts. */
  function FinalScore(score: int): (r: int)
    ensures r == score || r == score + ACE_HANDLE_SCORE
    ensures r == score + ACE_HANDLE_SCORE <==> score + ACE_HANDLE_SCORE <= BUST_LIMIT
  {
    if Of(score + ACE_HANDLE_SCORE).IsBust() then score else score + ACE_HANDLE_SCORE
  }

  /** handleAce: the promotion is tried only when the hand holds an Ace. */
  function HandleAce(score: int, hasAce: bool): (r: int)
    ensures !hasAce ==> r == score
    ensures hasAce ==> r == FinalScore(score)
    ensures r == if hasAce && score + ACE_HANDLE_SCORE <= BUST_LIMIT then score + ACE_HANDLE_SCORE else score
  {
    if hasAce then FinalScore(score) else score
  }

  /** The score that getScore computes for a hand holding `cs`. */
  function HandScore(cs: seq<Card>): int
  {
    HandleAce(LowSum(cs), HasAceCard(cs))
  }

  /** The display names of `cs`, in order (`map(Card::getCardName)`). */
  function CardNamesOf(cs: seq<Card>, numberValue: CardNumber -> string, suitValue: CardSuit -> string): (r: seq<string>)
    ensures |r| == |cs|
    ensures forall i :: 0 <= i < |cs| ==> r[i] == CardName(cs[i], numberValue, suitValue)
  {
    if cs == [] then [] else [CardName(cs[0], numberValue, suitValue)] + CardNamesOf(cs[1..], numberValue, suitValue)
  }

  class PlayerCards {
    var cards: seq<Card>

    /** A new hand holds no cards. */
    constructor ()
      ensures cards == []
    {
      cards := [];
    }

    /** add: append one card at the end. */
    method Add(card: Card)
      modifies this
      ensures cards == old(cards) + [card]
    {
      cards := cards + [card];
    }

    /** addAll: append the given cards at the end, in their order. */
    method AddAll(cs: seq<Card>)
      modifies this
      ensures cards == old(cards) + cs
    {
      cards := cards + cs;
    }

    /** getCardNames: one name per card, in card order. */
    function CardNames(numberValue: CardNumber -> string, suitValue: CardSuit -> string): (r: seq<string>)
      reads this
      ensures |r| == |cards|
      ensures forall i :: 0 <= i < |cards| ==> r[i] == CardName(cards[i], numberValue, suitValue)
    {
      CardNamesOf(cards, numberValue, suitValue)
    }

    /** getScore: sum the base scores in card order, then handle the Ace. */
    method GetScore() returns (score: int)
      ensures score == HandScore(cards)
    {
      score := 0;
      for i := 0 to |cards|
        invariant score == LowSum(cards[..i])
      {
        assert cards[..i + 1][..i] == cards[..i];
        score := score + cards[i].number.Score();
      }
      assert cards[..|cards|] == cards;
      score := HandleAce(score, HasAceCard(cards));
    }

    /** toList: a snapshot of the current cards. */
    method ToList() returns (r: seq<Card>)
      ensures r == cards
    {
      r := cards;
    }
  }

  /** Without an Ace the score is the plain sum of base scores. */
  lemma ScoreWithoutAce(cs: seq<Card>)
    requires forall i :: 0 <= i < |cs| ==> !cs[i].IsAce()
    ensures HandScore(cs) == LowSum(cs)
  {
  }

  /** With an Ace the score is the low sum plus 10 when that is not bust, else the low sum. */
  lemma ScoreWithAce(cs: seq<Card>)
    requires exists i :: 0 <= i < |cs| && cs[i].IsAce()
    ensures HandScore(cs) == if LowSum(cs) + 10 <= 21 then LowSum(cs) + 10 else LowSum(cs)
  {
  }

  /** At most one +10 is ever applied, whatever the number of Aces; a promoted
      score is never bust; an unpromoted one is what the cards add up to. */
  lemma ScoreBounds(cs: seq<Card>)
    ensures LowSum(cs) <= HandScore(cs) <= LowSum(cs) + ACE_HANDLE_SCORE
    ensures HandScore(cs) == LowSum(cs) + ACE_HANDLE_SCORE ==> HandScore(cs) <= BUST_LIMIT
    ensures HandScore(cs) != LowSum(cs) ==> HasAceCard(cs)
  {
  }

  /** The low sum of a concatenation is the sum of the low sums. */
  lemma {:induction false} LowSumAppend(a: seq<Card>, b: seq<Card>)
    ensures LowSum(a + b) == LowSum(a) + LowSum(b)
  {
    if b == [] {
      assert a + b == a;
    } else {
      var b' := b[..|b| - 1];
      assert (a + b)[..|a + b| - 1] == a + b';
      LowSumAppend(a, b');
    }
  }

  /** A concatenation holds an Ace iff one of its parts does. */
  lemma HasAceCardAppend(a: seq<Card>, b: seq<Card>)
    ensures HasAceCard(a + b) <==> HasAceCard(a) || HasAceCard(b)
  {
    if HasAceCard(a) {
      var i :| 0 <= i < |a| && a[i].IsAce();
      assert (a + b)[i] == a[i];
    }
    if HasAceCard(b) {
      var i :| 0 <= i < |b| && b[i].IsAce();
      assert (a + b)[|a| + i] == b[i];
    }
    if HasAceCard(a + b) {
      var i :| 0 <= i < |a + b| && (a + b)[i].IsAce();
      if i < |a| {
        assert a[i] == (a + b)[i];
      } else {
        assert b[i - |a|] == (a + b)[i];
      }
    }
  }

  /** The score after addAll depends only on the two parts' low sums and Aces;
      in particular it does not depend on the order of the two parts. */
  lemma ScoreOfConcatenation(a: seq<Card>, b: seq<Card>)
    ensures HandScore(a + b) == HandleAce(LowSum(a) + LowSum(b), HasAceCard(a) || HasAceCard(b))
    ensures HandScore(a + b) == HandScore(b + a)
  {
    LowSumAppend(a, b);
    LowSumAppend(b, a);
    HasAceCardAppend(a, b);
    HasAceCardAppend(b, a);
  }

  /** One Ace, anywhere in the hand, with other cards summing to at most 10
      scores that sum plus 11; above 10 the Ace counts 1. */
  lemma OneAceWithOthers(pre: seq<Card>, s: CardSuit, post: seq<Card>)
    requires forall i :: 0 <= i < |pre| ==> !pre[i].IsAce()
    requires forall i :: 0 <= i < |post| ==> !post[i].IsAce()
    ensures LowSum(pre + post) <= 10 ==> HandScore(pre + [Card(s, Ace)] + post) == LowSum(pre + post) + 11
    ensures LowSum(pre + post) > 10 ==> HandScore(pre + [Card(s, Ace)] + post) == LowSum(pre + post) + 1
  {
    var hand := pre + [Card(s, Ace)] + post;
    LowSumAppend(pre, [Card(s, Ace)]);
    LowSumAppend(pre + [Card(s, Ace)], post);
    LowSumAppend(pre, post);
    assert LowSum([Card(s, Ace)]) == 1 by {
      assert [Card(s, Ace)][..0] == [];
    }
    assert hand[|pre|].IsAce();
    ScoreWithAce(hand);
  }

  /** Adding a card can lower the score: the promoted Ace falls back to 1. */
  lemma ScoreCanDrop()
    ensures HandScore([Card(Spade, Ace), Card(Heart, Six)]) == 17
    ensures HandScore([Card(Spade, Ace), Card(Heart, Six), Card(Diamond, Five)]) == 12
  {
    var h := [Card(Spade, Ace), Card(Heart, Six)];
    assert h[..1] == [Card(Spade, Ace)] && h[..1][..0] == [];
    assert HasAceCard(h);
    assert LowSum(h) == 7;
    var h' := [Card(Spade, Ace), Card(Heart, Six), Card(Diamond, Five)];
    assert h'[..2] == h;
    assert LowSum(h') == 12;
    assert h'[0].IsAce();
    assert HasAceCard(h');
  }

  /** Two Aces score 12, not 22 and not 2: only a single Ace is ever promoted. */
  lemma TwoAcesPromoteOnce()
    ensures HandScore([Card(Spade, Ace), Card(Heart, Ace)]) == 12
  {
  }

  /** Worked hands: [A, K] is 21, [10, 10, 5] is 25 and bust, [7, 8] is 15, [9, 9] is 18. */
  lemma ExampleHands()
    ensures HandScore([Card(Spade, Ace), Card(Heart, King)]) == 21
    ensures HandScore([Card(Spade, Ten), Card(Heart, Ten), Card(Clover, Five)]) == 25
    ensures Of(HandScore([Card(Spade, Ten), Card(Heart, Ten), Card(Clover, Five)])).IsBust()
    ensures HandScore([Card(Spade, Seven), Card(Heart, Eight)]) == 15
    ensures HandScore([Card(Spade, Nine), Card(Heart, Nine)]) == 18
  {
    var ak := [Card(Spade, Ace), Card(Heart, King)];
    assert ak[..1] == [Card(Spade, Ace)] && ak[..1][..0] == [];
    assert ak[0].IsAce();
    var tt := [Card(Spade, Ten), Card(Heart, Ten), Card(Clover, Five)];
    assert tt[..2] == [Card(Spade, Ten), Card(Heart, Ten)];
    ScoreWithoutAce(tt);
    var se := [Card(Spade, Seven), Card(Heart, Eight)];
    ScoreWithoutAce(se);
    var nn := [Card(Spade, Nine), Card(Heart, Nine)];
    ScoreWithoutAce(nn);
  }
}
