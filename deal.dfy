/**
 * `build_initial_game_state` (rules.py:190-217): build the 52 cards rank by rank, shuffle them, deal one
 * face-up card onto each main pile (pile `i` keeping `i` cards face down) and keep the other 45 cards as the
 * unseen pool. The shuffle is an input here: `shuffled` is the deck after shuffling.
 */
module Deal {
  import opened Seqs
  import opened Cards
  import opened Locations
  import opened GameStates
  import opened Rules
  import opened Invariants

  /** The stock starts as this many cards with no identity yet. */
  const StockSize: nat := 24

  /** The deck before shuffling: for every rank in order, the four suits in order (rules.py:191-194). */
  method NewDeck() returns (cards: seq<Card>)
    ensures cards == FullDeck()
  {
    cards := [];
    for r := 1 to 14
      invariant cards == DeckUpTo(r - 1)
    {
      var row: seq<Card> := [];
      for k := 0 to 4
        invariant row == seq(k, j requires 0 <= j < k => Card(Suits[j], r))
      {
        row := row + [Card(Suits[k], r)];
      }
      assert cards + row == DeckUpTo(r);
      cards := cards + row;
    }
  }

  /** The first `n` main piles of the deal: pile `i` shows the `i`-th card from the end of the deck. */
  function DealtPiles(shuffled: seq<Card>, n: nat): (t: seq<Pile>)
    requires n <= |shuffled|
    ensures |t| == n
    ensures forall i :: 0 <= i < n ==> t[i].hiddenLeft == i && t[i].visible == [shuffled[|shuffled| - 1 - i]]
  {
    if n == 0 then [] else DealtPiles(shuffled, n - 1) + [Pile(n - 1, [shuffled[|shuffled| - n]])]
  }

  /** A stock of `n` face-down placeholders: it stands for `n` unseen cards and holds no known card. */
  function Placeholders(n: nat): (h: seq<StockCard>)
    ensures |h| == n && forall i :: 0 <= i < n ==> h[i] == Unknown
    ensures UnknownCount(h) == n && KnownOf(h) == multiset{}
  {
    var h := seq(n, _ => Unknown);
    AllUnknownBookkeeping(h);
    h
  }

  /** A stock of placeholders only stands for as many unseen cards as it is long and holds no known card. */
  lemma {:induction false} AllUnknownBookkeeping(h: seq<StockCard>)
    requires forall i :: 0 <= i < |h| ==> h[i] == Unknown
    ensures UnknownCount(h) == |h| && KnownOf(h) == multiset{}
  {
    if h != [] {
      AllUnknownBookkeeping(h[..|h| - 1]);
    }
  }

  /** The state `build_initial_game_state` returns for the shuffled deck `shuffled`. */
  function InitialState(shuffled: seq<Card>): GameState
    requires |shuffled| == 52
  {
    GameState(DealtPiles(shuffled, 7), [[], [], [], []], [], Placeholders(StockSize), shuffled[..45], 0)
  }

  /**
   * The dealing loop: pop one card off the end of the deck per main pile, then keep the rest, which the
   * source asserts to be 45 cards.
   */
  method BuildInitialGameState(shuffled: seq<Card>) returns (s: GameState)
    requires |shuffled| == 52
    ensures s == InitialState(shuffled)
    ensures |s.unseenCards| == 45
  {
    var allCards := shuffled;
    var piles: seq<Pile> := [];
    for i := 0 to 7
      invariant allCards == shuffled[..52 - i]
      invariant piles == DealtPiles(shuffled, i)
    {
      var (rest, card) := PopFromTuple(allCards);
      piles := piles + [Pile(i, [card])];
      allCards := rest;
    }
    s := GameState(piles, [[], [], [], []], [], Placeholders(StockSize), allCards, 0);
  }

  lemma {:induction false} DealtPilesCards(shuffled: seq<Card>, n: nat)
    requires n <= |shuffled|
    ensures PilesCards(DealtPiles(shuffled, n)) == multiset(shuffled[|shuffled| - n..])
  {
    if n > 0 {
      var m := |shuffled| - n;
      DealtPilesStep(shuffled, n);
      DealtPilesCards(shuffled, n - 1);
      SuffixStep(shuffled, m);
      SwapUnion(PilesCards(DealtPiles(shuffled, n - 1)), multiset{shuffled[m]});
    } else {
      assert shuffled[|shuffled|..] == [];
    }
  }

  lemma DealtPilesStep(shuffled: seq<Card>, n: nat)
    requires 0 < n <= |shuffled|
    ensures PilesCards(DealtPiles(shuffled, n)) == PilesCards(DealtPiles(shuffled, n - 1)) + multiset{shuffled[|shuffled| - n]}
  {
    var t := DealtPiles(shuffled, n);
    assert t[..n - 1] == DealtPiles(shuffled, n - 1);
  }

  lemma SuffixStep(shuffled: seq<Card>, m: nat)
    requires m < |shuffled|
    ensures multiset(shuffled[m..]) == multiset{shuffled[m]} + multiset(shuffled[m + 1..])
  {
    assert shuffled[m..] == [shuffled[m]] + shuffled[m + 1..];
  }

  /** Pile `i` of the deal keeps `i` cards face down, `n * (n - 1) / 2` in all. */
  lemma {:induction false} DealtPilesHidden(shuffled: seq<Card>, n: nat)
    requires n <= |shuffled|
    ensures HiddenLeftTotal(DealtPiles(shuffled, n)) * 2 == n * (n - 1)
  {
    if n > 0 {
      var t := DealtPiles(shuffled, n);
      assert t[..n - 1] == DealtPiles(shuffled, n - 1);
      DealtPilesHidden(shuffled, n - 1);
      assert HiddenLeftTotal(t) == HiddenLeftTotal(t[..n - 1]) + (n - 1);
      assert n * (n - 1) == (n - 1) * (n - 2) + 2 * (n - 1);
    }
  }

  lemma {:induction false} EmptyFoundationCards(f: seq<seq<Card>>)
    requires forall i :: 0 <= i < |f| ==> f[i] == []
    ensures FoundationCards(f) == multiset{}
  {
    if f != [] {
      EmptyFoundationCards(f[..|f| - 1]);
    }
  }

  /** The deal places seven cards, keeps the other 45 unseen, and backs each hidden card with one of them. */
  lemma InitialBookkeeping(shuffled: seq<Card>)
    requires |shuffled| == 52
    ensures PlacedCards(InitialState(shuffled)) + multiset(InitialState(shuffled).unseenCards) == multiset(shuffled)
    ensures Counted(InitialState(shuffled))
  {
    var s := InitialState(shuffled);
    DealtPilesCards(shuffled, 7);
    DealtPilesHidden(shuffled, 7);
    EmptyFoundationCards(s.foundations);
    assert shuffled == shuffled[..45] + shuffled[45..];
  }

  /**
   * The deal of any shuffle of the 52 cards satisfies the invariant: 45 unseen cards back the 21 face-down
   * tableau cards and the 24 stock placeholders, the seven face-up cards and the pool are the whole deck,
   * the foundations are empty and every run is a single card.
   */
  lemma InitialInvariant(shuffled: seq<Card>)
    requires multiset(shuffled) == multiset(FullDeck())
    ensures |shuffled| == 52
    ensures Invariant(InitialState(shuffled))
  {
    assert |shuffled| == 52 by {
      FullDeckComplete(Card(Diamond, Ace));
      assert |shuffled| == |multiset(shuffled)| == |FullDeck()|;
    }
    InitialBookkeeping(shuffled);
  }

  /** A fresh deal is still in play: it is not won, within budget, and drawing is legal. */
  lemma InitialStatus(shuffled: seq<Card>)
    requires multiset(shuffled) == multiset(FullDeck())
    ensures |shuffled| == 52
    ensures Status(InitialState(shuffled)) == NotFinished
  {
    InitialInvariant(shuffled);
    var s := InitialState(shuffled);
    assert Last(s.hiddenPile) == Unknown;
    assert IsMoveLegal(s, Draw);
    ActionUniverse();
    assert Draw in LegalActions(s);
  }
}
