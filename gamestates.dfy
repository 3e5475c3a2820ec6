/** The game-state record (`GameState`, rules.py:85, 219-221, 233) and its read-only queries. */
module GameStates {
  import opened Wrappers
  import opened Cards
  import opened Locations
  import opened Seqs

  /** A tableau pile: a count of face-down cards with no identity yet, and the face-up run, bottom to top. */
  datatype Pile = Pile(hiddenLeft: nat, visible: seq<Card>)

  type Tableau = t: seq<Pile> | |t| == 7
    witness [Pile(0, []), Pile(0, []), Pile(0, []), Pile(0, []), Pile(0, []), Pile(0, []), Pile(0, [])]

  type Foundations = f: seq<seq<Card>> | |f| == 4 witness [[], [], [], []]

  /**
   * An immutable snapshot: the 7 main piles, the 4 foundations, the visible (waste) pile with its top last,
   * the hidden pile (stock) with its top last, the pool of cards not yet placed, and the step counter.
   */
  datatype GameState = GameState(
    piles: Tableau,
    foundations: Foundations,
    visiblePile: seq<Card>,
    hiddenPile: seq<StockCard>,
    unseenCards: seq<Card>,
    numSteps: nat)

  /** `pop_from_tuple`: the sequence without its last element, and that element. */
  function PopFromTuple<T>(t: seq<T>): (r: (seq<T>, T))
    requires |t| > 0
    ensures r.0 + [r.1] == t
    ensures |r.0| == |t| - 1
  {
    (t[..|t| - 1], t[|t| - 1])
  }

  /** The cards a move can take from: a main pile's visible run, a foundation, or the visible pile. */
  function CardsAt(s: GameState, loc: Location): seq<Card>
  {
    match loc
    case MainPile(i) => s.piles[i].visible
    case Foundation(i) => s.foundations[i]
    case VisiblePile => s.visiblePile
  }

  /**
   * `_get_top_most_card`: the top card at `loc`; an empty main pile has none. The source indexes a foundation
   * or the visible pile without a guard, so those must be non-empty.
   */
  function TopMostCard(s: GameState, loc: Location): (r: Option<Card>)
    requires loc.MainPile? || |CardsAt(s, loc)| > 0
    ensures r.None? <==> CardsAt(s, loc) == []
    ensures r.Some? ==> r.value in CardsAt(s, loc) && r.value == Last(CardsAt(s, loc))
  {
    match loc
    case MainPile(i) =>
      var v := s.piles[i].visible;
      if v == [] then None else Some(v[|v| - 1])
    case Foundation(f) => Some(s.foundations[f][|s.foundations[f]| - 1])
    case VisiblePile => Some(s.visiblePile[|s.visiblePile| - 1])
  }

  /** The top card is the one `pop_from_tuple` removes: the zone is what the pop leaves plus that card. */
  lemma TopMostCardIsPopped(s: GameState, loc: Location)
    requires CardsAt(s, loc) != []
    ensures TopMostCard(s, loc) == Some(PopFromTuple(CardsAt(s, loc)).1)
    ensures PopFromTuple(CardsAt(s, loc)).0 + [TopMostCard(s, loc).value] == CardsAt(s, loc)
  {
  }

  /** `_is_won`: nothing is left in the visible pile, in the hidden pile or in the unseen pool. */
  predicate IsWon(s: GameState)
  {
    |s.visiblePile| == 0 && |s.hiddenPile| == 0 && |s.unseenCards| == 0
  }
}
