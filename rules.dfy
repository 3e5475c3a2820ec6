/**
 * The transition function `GameState.execute_action` and its helpers (rules.py:223-506), the legality
 * oracle (rules.py:268-276) and the status evaluator (rules.py:7-14, 235-252).
 *
 * Randomness: the source draws a uniformly random index into the unseen pool whenever a card without an
 * identity becomes visible. Here the index is the parameter `pick`; at most one card is revealed per
 * transition, so one index suffices, and every property below holds for every admissible index.
 */
module Rules {
  import opened Wrappers
  import opened Cards
  import opened Locations
  import opened GameStates
  import opened Seqs

  /** Beyond this many steps a game is reported as over its budget. */
  const StepsCap: nat := 50000

  datatype GameStatus = NotFinished | ExceededLimit | OutOfSteps | Won

  /** Why the rules refuse a move (the messages of the source's `IllegalMove`). */
  datatype Reason =
    | EmptySource
    | NoTransferPoint
    | IncompatibleTop
    | WrongFoundation
    | FoundationNotEmpty
    | NonAceOnEmptyFoundation
    | NotNextInFoundation

  /** Exceptions of the source other than `IllegalMove`: a defensive assertion, or drawing from an empty pool. */
  datatype Fault = UnexpectedDestination | PromoteFromFoundation | EmptyUnseenPool

  datatype Rejection = IllegalMove(reason: Reason) | Crash(fault: Fault)

  /** `pick` is an index into the unseen pool, when the pool has any cards. */
  predicate PickOk(unseen: seq<Card>, pick: nat)
  {
    unseen == [] || pick < |unseen|
  }

  datatype Drawn = Drawn(rest: seq<Card>, card: Card)

  /** `draw_from_unseen_cards`: remove the card at index `pick` from the pool and return it. */
  function DrawFromUnseenCards(unseen: seq<Card>, pick: nat): (r: Result<Drawn, Rejection>)
    requires PickOk(unseen, pick)
    ensures r.Err? <==> unseen == []
    ensures r.Err? ==> r.error == Crash(EmptyUnseenPool)
    ensures r.Ok? ==> r.value.card == unseen[pick] && |r.value.rest| == |unseen| - 1
    ensures r.Ok? ==> multiset(r.value.rest) + multiset{r.value.card} == multiset(unseen)
  {
    if unseen == [] then Err(Crash(EmptyUnseenPool))
    else
      assert unseen == unseen[..pick] + [unseen[pick]] + unseen[pick + 1..];
      Ok(Drawn(unseen[..pick] + unseen[pick + 1..], unseen[pick]))
  }

  /** Whether taking the cards of `p` from `offset` on exposes a face-down card that must be revealed. */
  predicate Reveals(p: Pile, offset: nat)
  {
    offset == 0 && p.hiddenLeft != 0
  }

  /** Whether taking main pile `i` from `offset` on must reveal a card that the empty pool cannot supply. */
  predicate Starved(s: GameState, i: PileId, offset: nat)
  {
    Reveals(s.piles[i], offset) && s.unseenCards == []
  }

  datatype Taken = Taken(pile: Pile, unseen: seq<Card>, cards: seq<Card>)

  /**
   * `_take_from_main_pile`: take the run of main pile `index` from `offset` on. When that empties the run
   * and face-down cards remain, one of them is revealed with a card drawn from the unseen pool.
   */
  function TakeFromMainPile(s: GameState, index: PileId, offset: nat, pick: nat): (r: Result<Taken, Rejection>)
    requires offset < |s.piles[index].visible|
    requires PickOk(s.unseenCards, pick)
    ensures r.Err? <==> Starved(s, index, offset)
    ensures r.Err? ==> r.error == Crash(EmptyUnseenPool)
    ensures r.Ok? ==> r.value.cards == s.piles[index].visible[offset..]
    ensures r.Ok? && !Reveals(s.piles[index], offset) ==>
              r.value.pile == Pile(s.piles[index].hiddenLeft, s.piles[index].visible[..offset]) &&
              r.value.unseen == s.unseenCards
    ensures r.Ok? && Reveals(s.piles[index], offset) ==>
              r.value.pile.hiddenLeft == s.piles[index].hiddenLeft - 1 &&
              r.value.pile.visible == [s.unseenCards[pick]] &&
              multiset(r.value.unseen) + multiset(r.value.pile.visible) == multiset(s.unseenCards)
    // nothing is lost: the cards and the face-down count are only moved around
    ensures r.Ok? ==>
              multiset(r.value.pile.visible) + multiset(r.value.cards) + multiset(r.value.unseen) ==
              multiset(s.piles[index].visible) + multiset(s.unseenCards)
    ensures r.Ok? ==> r.value.pile.hiddenLeft + |s.unseenCards| == s.piles[index].hiddenLeft + |r.value.unseen|
  {
    var p := s.piles[index];
    var taken := p.visible[offset..];
    assert p.visible == p.visible[..offset] + taken;
    if Reveals(p, offset) then
      match DrawFromUnseenCards(s.unseenCards, pick)
      case Err(e) => Err(e)
      case Ok(d) => Ok(Taken(Pile(p.hiddenLeft - 1, [d.card]), d.rest, taken))
    else
      Ok(Taken(Pile(p.hiddenLeft, p.visible[..offset]), s.unseenCards, taken))
  }

  datatype Lifted = Lifted(state: GameState, card: Card)

  /**
   * The source half shared by `_simple_move` and `_promote_to_foundation` (rules.py:302-311, 332-345): remove
   * the top card of `src`. The step counter is not yet advanced.
   */
  function LiftTopCard(s: GameState, src: Location, pick: nat): (r: Result<Lifted, Rejection>)
    requires |CardsAt(s, src)| > 0
    requires PickOk(s.unseenCards, pick)
    ensures r.Err? <==> src.MainPile? && Starved(s, src.pileId, |s.piles[src.pileId].visible| - 1)
    ensures r.Err? ==> r.error == Crash(EmptyUnseenPool)
    ensures r.Ok? ==> r.value.card == Last(CardsAt(s, src))
    ensures r.Ok? ==> r.value.state.hiddenPile == s.hiddenPile && r.value.state.numSteps == s.numSteps
  {
    match src
    case MainPile(i) =>
      (match TakeFromMainPile(s, i, |s.piles[i].visible| - 1, pick)
       case Err(e) => Err(e)
       case Ok(t) => Ok(Lifted(s.(piles := s.piles[i := t.pile], unseenCards := t.unseen), t.cards[0])))
    case Foundation(i) =>
      var (rest, card) := PopFromTuple(s.foundations[i]);
      Ok(Lifted(s.(foundations := s.foundations[i := rest]), card))
    case VisiblePile =>
      var (rest, card) := PopFromTuple(s.visiblePile);
      Ok(Lifted(s.(visiblePile := rest), card))
  }

  /** `_promote_to_foundation`: move the top card of `src` onto the foundation of its suit. */
  function PromoteToFoundation(s: GameState, src: Location, pick: nat): (r: Result<GameState, Rejection>)
    requires |CardsAt(s, src)| > 0
    requires PickOk(s.unseenCards, pick)
    ensures src.Foundation? ==> r == Err(Crash(PromoteFromFoundation))
    ensures !src.Foundation? ==> (r.Err? <==> src.MainPile? && Starved(s, src.pileId, |s.piles[src.pileId].visible| - 1))
    ensures !src.Foundation? && r.Err? ==> r.error == Crash(EmptyUnseenPool)
    ensures r.Ok? ==> r.value.numSteps == s.numSteps + 1 && r.value.hiddenPile == s.hiddenPile
  {
    if src.Foundation? then Err(Crash(PromoteFromFoundation))
    else
      match LiftTopCard(s, src, pick)
      case Err(e) => Err(e)
      case Ok(l) => Ok(PlaceOnFoundation(l.state, l.card, s.numSteps + 1))
  }

  /** `t` with `card` appended to the foundation of its suit (rules.py:315-316), and the step count set to `steps`. */
  function PlaceOnFoundation(t: GameState, card: Card, steps: nat): (r: GameState)
    ensures r.foundations[card.suit.Index()] == t.foundations[card.suit.Index()] + [card]
    ensures forall k :: 0 <= k < 4 && k != card.suit.Index() ==> r.foundations[k] == t.foundations[k]
    ensures r.piles == t.piles && r.visiblePile == t.visiblePile && r.hiddenPile == t.hiddenPile
    ensures r.unseenCards == t.unseenCards && r.numSteps == steps
  {
    var i := card.suit.Index();
    t.(foundations := t.foundations[i := t.foundations[i] + [card]], numSteps := steps)
  }

  /**
   * `_simple_move`: move the top card of `src` onto main pile or foundation `dest`, without checking the
   * rules (the caller has).
   */
  function SimpleMove(s: GameState, src: Location, dest: Location, pick: nat): (r: Result<GameState, Rejection>)
    requires |CardsAt(s, src)| > 0
    requires PickOk(s.unseenCards, pick)
    ensures dest.VisiblePile? ==> r.Err? && r.error.Crash?
    ensures !dest.VisiblePile? ==> (r.Err? <==> src.MainPile? && Starved(s, src.pileId, |s.piles[src.pileId].visible| - 1))
    ensures !dest.VisiblePile? && r.Err? ==> r.error == Crash(EmptyUnseenPool)
    ensures r.Ok? ==> r.value.numSteps == s.numSteps + 1 && r.value.hiddenPile == s.hiddenPile
  {
    match LiftTopCard(s, src, pick)
    case Err(e) => Err(e)
    case Ok(l) =>
      var t := l.state;
      match dest
      case MainPile(d) =>
        var p := t.piles[d];
        Ok(t.(piles := t.piles[d := Pile(p.hiddenLeft, p.visible + [l.card])], numSteps := s.numSteps + 1))
      case Foundation(d) =>
        Ok(t.(foundations := t.foundations[d := t.foundations[d] + [l.card]], numSteps := s.numSteps + 1))
      case VisiblePile =>
        Err(Crash(UnexpectedDestination))
  }

  /**
   * `_transfer_between_piles`: move the run of main pile `src` from `offset` on to the top of main pile
   * `dest`. The destination is computed from the old piles and written last, as in the source.
   */
  function TransferBetweenPiles(s: GameState, src: PileId, offset: nat, dest: PileId, pick: nat): (r: Result<GameState, Rejection>)
    requires offset < |s.piles[src].visible|
    requires PickOk(s.unseenCards, pick)
    ensures r.Err? <==> Starved(s, src, offset)
    ensures r.Err? ==> r.error == Crash(EmptyUnseenPool)
    ensures r.Ok? ==> r.value.numSteps == s.numSteps + 1
    ensures r.Ok? ==> r.value.piles[dest].visible == s.piles[dest].visible + s.piles[src].visible[offset..]
  {
    var destPile := Pile(s.piles[dest].hiddenLeft, s.piles[dest].visible + s.piles[src].visible[offset..]);
    match TakeFromMainPile(s, src, offset, pick)
    case Err(e) => Err(e)
    case Ok(t) =>
      Ok(s.(piles := s.piles[src := t.pile][dest := destPile], unseenCards := t.unseen, numSteps := s.numSteps + 1))
  }

  /** The first index from `i` on of a card of `cards` that is compatible with `back`. */
  function FirstCompatibleFrom(back: Option<Card>, cards: seq<Card>, i: nat): (r: Option<nat>)
    requires i <= |cards|
    ensures r.Some? ==> i <= r.value < |cards| && Compatible(back, Some(cards[r.value]))
    ensures r.Some? ==> forall j :: i <= j < r.value ==> !Compatible(back, Some(cards[j]))
    ensures r.None? ==> forall j :: i <= j < |cards| ==> !Compatible(back, Some(cards[j]))
    decreases |cards| - i
  {
    if i == |cards| then None
    else if Compatible(back, Some(cards[i])) then Some(i)
    else FirstCompatibleFrom(back, cards, i + 1)
  }

  /** The split point of a transfer: the first card of `cards` that may go on `back`. */
  function FirstCompatible(back: Option<Card>, cards: seq<Card>): Option<nat>
  {
    FirstCompatibleFrom(back, cards, 0)
  }

  /** The split-point search of `execute_action` (rules.py:452-459): a loop that returns at the first fit. */
  method FindTransferPoint(back: Option<Card>, cards: seq<Card>) returns (r: Option<nat>)
    ensures r == FirstCompatible(back, cards)
  {
    for i := 0 to |cards|
      invariant forall j :: 0 <= j < i ==> !Compatible(back, Some(cards[j]))
    {
      if Compatible(back, Some(cards[i])) {
        return Some(i);
      }
    }
    return None;
  }

  /**
   * The draw branch of `execute_action` (rules.py:403-429): an empty stock is refilled with the visible pile
   * reversed; otherwise the top of the stock goes to the visible pile, being given an identity from the
   * unseen pool first if it has none.
   */
  function ExecuteDraw(s: GameState, pick: nat): (r: Result<GameState, Rejection>)
    requires PickOk(s.unseenCards, pick)
    ensures r.Ok? ==> r.value.numSteps == s.numSteps + 1
    ensures r.Ok? ==> r.value.piles == s.piles && r.value.foundations == s.foundations
  {
    if |s.hiddenPile| == 0 then
      Ok(s.(visiblePile := [], hiddenPile := Recycled(s.visiblePile), numSteps := s.numSteps + 1))
    else
      var rest := s.hiddenPile[..|s.hiddenPile| - 1];
      match Last(s.hiddenPile)
      case Known(c) =>
        Ok(s.(visiblePile := s.visiblePile + [c], hiddenPile := rest, numSteps := s.numSteps + 1))
      case Unknown =>
        match DrawFromUnseenCards(s.unseenCards, pick)
        case Err(e) => Err(e)
        case Ok(d) =>
          Ok(s.(visiblePile := s.visiblePile + [d.card], hiddenPile := rest, unseenCards := d.rest,
                numSteps := s.numSteps + 1))
  }

  /** `tuple(reversed(visible_pile))` as stock cells: the last card played becomes the first one redrawn. */
  function Recycled(waste: seq<Card>): (r: seq<StockCard>)
    ensures |r| == |waste|
  {
    seq(|waste|, i requires 0 <= i < |waste| => Known(waste[|waste| - 1 - i]))
  }

  /** `execute_action`: the new state, or why the action is refused. */
  function Execute(s: GameState, a: Action, pick: nat): (r: Result<GameState, Rejection>)
    requires PickOk(s.unseenCards, pick)
    ensures r.Ok? ==> r.value.numSteps == s.numSteps + 1
  {
    match a
    case Draw => ExecuteDraw(s, pick)
    case Move(src, dest) =>
      if |CardsAt(s, src)| == 0 then Err(IllegalMove(EmptySource))
      else
        match dest
        case MainPile(d) =>
          if src.MainPile? then
            (match FirstCompatible(TopMostCard(s, dest), s.piles[src.pileId].visible)
             case None => Err(IllegalMove(NoTransferPoint))
             case Some(offset) => TransferBetweenPiles(s, src.pileId, offset, d, pick))
          else if !Compatible(TopMostCard(s, dest), TopMostCard(s, src)) then Err(IllegalMove(IncompatibleTop))
          else SimpleMove(s, src, dest, pick)
        case Foundation(d) =>
          var card := TopMostCard(s, src).value;
          var foundation := s.foundations[d];
          if card.suit.Index() != d then Err(IllegalMove(WrongFoundation))
          else if card.rank == Ace then
            if |foundation| != 0 then Err(IllegalMove(FoundationNotEmpty))
            else PromoteToFoundation(s, src, pick)
          else if |foundation| == 0 then Err(IllegalMove(NonAceOnEmptyFoundation))
          else if Last(foundation).rank != card.rank - 1 then Err(IllegalMove(NotNextInFoundation))
          else PromoteToFoundation(s, src, pick)
        case VisiblePile => Err(Crash(UnexpectedDestination))
  }

  /** `is_move_legal`: whether a trial execution succeeds. Which card a reveal draws does not matter. */
  predicate IsMoveLegal(s: GameState, a: Action)
  {
    Execute(s, a, 0).Ok?
  }

  /** The legality oracle of state `s` as a predicate on actions. */
  function Legality(s: GameState): Action -> bool
  {
    a => IsMoveLegal(s, a)
  }

  /** The legal actions among `acts`, in their order. */
  function LegalAmong(s: GameState, acts: seq<Action>): (r: seq<Action>)
    ensures forall a :: a in r <==> a in acts && IsMoveLegal(s, a)
    ensures |r| <= |acts|
  {
    Filter(acts, Legality(s))
  }

  /**
   * `legal_actions` keeps the order of the universe: the legal actions of a concatenation are those of its
   * first part followed by those of its second, and a single action is listed exactly when it is legal.
   */
  lemma LegalAmongAppend(s: GameState, a: seq<Action>, b: seq<Action>)
    ensures LegalAmong(s, a + b) == LegalAmong(s, a) + LegalAmong(s, b)
    ensures |a| == 1 ==> LegalAmong(s, a) == if IsMoveLegal(s, a[0]) then a else []
  {
    FilterAppend(a, b, Legality(s));
  }

  /** `legal_actions`: the legal actions of the universe, in its order. */
  function LegalActions(s: GameState): seq<Action>
  {
    LegalAmong(s, AllActions())
  }

  /** `status`: won first, then over the step budget, then stuck, else still in play. */
  function Status(s: GameState): GameStatus
  {
    if IsWon(s) then Won
    else if s.numSteps > StepsCap then ExceededLimit
    else if |LegalActions(s)| == 0 then OutOfSteps
    else NotFinished
  }
}
