/** Ranks, suits, colours and cards (rules.py:17-82), and the tableau placement rule (rules.py:142-156). */
module Cards {
  import opened Wrappers
  import opened Seqs

  /** Ace = 1 .. King = 13. */
  type Rank = r: int | 1 <= r <= 13 witness 1

  const Ace: Rank := 1
  const King: Rank := 13

  datatype Color = Red | Black

  datatype Suit = Diamond | Clubs | Hearts | Spades {

    /** The suit's integer value, which is also the index of its foundation. */
    function Index(): (i: nat)
      ensures i < 4
      ensures SuitAt(i) == this
    {
      match this
      case Diamond => 0
      case Clubs => 1
      case Hearts => 2
      case Spades => 3
    }

    /** Diamonds and hearts are red, clubs and spades black: the colours alternate along the enum values. */
    function Color(): (c: Color)
      ensures (c == Red) == (Index() % 2 == 0)
    {
      if this == Diamond || this == Hearts then Red else Black
    }
  }

  /** The suit whose foundation has index `i`; the inverse of `Suit.Index`. */
  function SuitAt(i: nat): (s: Suit)
    requires i < 4
  {
    if i == 0 then Diamond else if i == 1 then Clubs else if i == 2 then Hearts else Spades
  }

  /** The suits in enumeration order. */
  const Suits: seq<Suit> := [Diamond, Clubs, Hearts, Spades]

  /** A card whose identity is known. */
  datatype Card = Card(suit: Suit, rank: Rank)

  /** A cell of the stock: a card already revealed once, or a placeholder not yet given an identity. */
  datatype StockCard = Known(card: Card) | Unknown

  /**
   * May `front` be placed on `back` in a tableau pile? No back card means an empty pile, which only a King
   * may start; otherwise the front is one rank lower and of the other colour. A missing front never fits.
   */
  predicate Compatible(back: Option<Card>, front: Option<Card>)
  {
    match front
    case None => false
    case Some(f) =>
      match back
      case None => f.rank == King
      case Some(b) => f.rank == b.rank - 1 && f.suit.Color() != b.suit.Color()
  }

  /**
   * Exactly the Kings start an empty pile, a King never goes on another card, nothing goes on an Ace, and a
   * missing front never fits.
   */
  lemma CompatibleKing(back: Option<Card>, front: Card)
    ensures Compatible(None, Some(front)) <==> front.rank == King
    ensures Compatible(back, Some(front)) ==> (back.None? <==> front.rank == King)
    ensures Compatible(back, Some(front)) && back.Some? ==> back.value.rank != Ace
    ensures !Compatible(back, None)
  {
  }

  /** Worked examples of the rule: a King on an empty pile, a red six on a black seven, and their near misses. */
  lemma CompatibleTable()
    ensures Compatible(None, Some(Card(Spades, King)))
    ensures !Compatible(None, Some(Card(Spades, 12)))
    ensures Compatible(Some(Card(Clubs, 7)), Some(Card(Hearts, 6)))
    ensures !Compatible(Some(Card(Clubs, 7)), Some(Card(Spades, 6)))
    ensures !Compatible(Some(Card(Clubs, 7)), Some(Card(Hearts, 5)))
    ensures !Compatible(Some(Card(Clubs, 7)), None)
  {
  }

  /**
   * The rule restated on suits: a card goes on another exactly when it is one rank lower and exactly one of
   * the two is a diamond or a heart.
   */
  lemma CompatibleBySuit(back: Card, front: Card)
    ensures Compatible(Some(back), Some(front)) <==>
              front.rank + 1 == back.rank && ((front.suit in {Diamond, Hearts}) != (back.suit in {Diamond, Hearts}))
  {
    assert front.suit.Color() == Red <==> front.suit in {Diamond, Hearts};
    assert back.suit.Color() == Red <==> back.suit in {Diamond, Hearts};
  }

  /** Adjacent cards of `run` are compatible: each is one rank lower than, and of the other colour to, the one below. */
  predicate IsRun(run: seq<Card>)
  {
    forall j :: 0 < j < |run| ==> Compatible(Some(run[j - 1]), Some(run[j]))
  }

  /** A run descends by exactly one rank per card and alternates colour at every step. */
  lemma {:induction false} RunShape(run: seq<Card>, j: nat)
    requires IsRun(run) && j < |run|
    ensures run[j].rank == run[0].rank - j
    ensures j > 0 ==> run[j].suit.Color() != run[j - 1].suit.Color()
  {
    if j > 0 {
      RunShape(run, j - 1);
    }
  }

  /** The cards of ranks 1 to `r`, rank by rank, each rank in suit order (the loops of rules.py:192-194). */
  function DeckUpTo(r: nat): (d: seq<Card>)
    requires r <= 13
    ensures |d| == 4 * r
  {
    if r == 0 then [] else DeckUpTo(r - 1) + seq(4, k requires 0 <= k < 4 => Card(Suits[k], r))
  }

  /** The 52 cards in the order the source builds them before shuffling. */
  function FullDeck(): seq<Card>
  {
    DeckUpTo(13)
  }

  lemma {:induction false} DeckUpToMembers(r: nat, c: Card)
    requires r <= 13
    ensures c in DeckUpTo(r) <==> c.rank <= r
    ensures Distinct(DeckUpTo(r))
  {
    if r > 0 {
      DeckUpToMembers(r - 1, c);
      var top := seq(4, k requires 0 <= k < 4 => Card(Suits[k], r));
      assert c.rank == r ==> top[c.suit.Index()] == c;
      var d := DeckUpTo(r);
      forall i, j | 0 <= i < j < |d| ensures d[i] != d[j] {
        if j >= 4 * (r - 1) {
          if i >= 4 * (r - 1) {
            assert Suits[i - 4 * (r - 1)] != Suits[j - 4 * (r - 1)];
          } else {
            DeckUpToMembers(r - 1, d[i]);
            assert d[i] in DeckUpTo(r - 1);
          }
        }
      }
    }
  }

  /** The deck holds each of the 52 cards exactly once. */
  lemma FullDeckComplete(c: Card)
    ensures |FullDeck()| == 52
    ensures Distinct(FullDeck())
    ensures c in FullDeck()
    ensures multiset(FullDeck())[c] == 1
  {
    DeckUpToMembers(13, c);
    CountDistinct(c, FullDeck());
    CountIsMultiplicity(c, FullDeck());
  }
}
