/**
 * What `execute_action`, `is_move_legal` and `status` promise, action by action: the outcome of a draw, of
 * a single-card move onto a main pile, of a promotion and of a pile-to-pile transfer, and when each is
 * refused; that legality does not depend on which unseen card a reveal draws; and how the status is
 * decided for states that keep the invariant.
 */
module Properties {
  import opened Wrappers
  import opened Seqs
  import opened Cards
  import opened Locations
  import opened GameStates
  import opened Rules
  import opened Invariants

  // ---------------------------------------------------------------------------------------------
  // Draw
  // ---------------------------------------------------------------------------------------------

  /**
   * Drawing from an empty stock turns the visible pile over into a new stock; otherwise the top of the
   * stock is shown, being given an identity from the unseen pool first if it has none. The main piles and
   * the foundations are untouched. A draw fails only when a card must be revealed from an empty pool.
   */
  lemma DrawOutcome(s: GameState, pick: nat)
    requires PickOk(s.unseenCards, pick)
    ensures ExecuteDraw(s, pick).Err? <==> s.hiddenPile != [] && Last(s.hiddenPile) == Unknown && s.unseenCards == []
    ensures s.hiddenPile == [] ==>
              ExecuteDraw(s, pick) == Ok(s.(visiblePile := [], hiddenPile := Recycled(s.visiblePile), numSteps := s.numSteps + 1))
    ensures s.hiddenPile != [] && Last(s.hiddenPile).Known? ==>
              ExecuteDraw(s, pick) ==
                Ok(s.(visiblePile := s.visiblePile + [Last(s.hiddenPile).card],
                      hiddenPile := s.hiddenPile[..|s.hiddenPile| - 1], numSteps := s.numSteps + 1))
    ensures s.hiddenPile != [] && Last(s.hiddenPile) == Unknown && s.unseenCards != [] ==>
              var r := ExecuteDraw(s, pick).value;
              r.visiblePile == s.visiblePile + [s.unseenCards[pick]] &&
              multiset(r.unseenCards) + multiset{s.unseenCards[pick]} == multiset(s.unseenCards) &&
              r == s.(visiblePile := r.visiblePile, hiddenPile := s.hiddenPile[..|s.hiddenPile| - 1],
                      unseenCards := r.unseenCards, numSteps := s.numSteps + 1)
  {
  }

  /** Taking the draw branch of `execute_action` `k` times in a row, while every draw succeeds. */
  function DrawTimes(s: GameState, k: nat): Result<GameState, Rejection>
    decreases k
  {
    if k == 0 then Ok(s)
    else
      match ExecuteDraw(s, 0)
      case Err(e) => Err(e)
      case Ok(t) => DrawTimes(t, k - 1)
  }

  /** Drawing through a stock that holds `rest` turned over appends `rest` to the visible pile in order. */
  lemma {:induction false} DrawThrough(s: GameState, rest: seq<Card>)
    requires s.hiddenPile == Recycled(rest)
    ensures DrawTimes(s, |rest|) ==
              Ok(s.(visiblePile := s.visiblePile + rest, hiddenPile := [], numSteps := s.numSteps + |rest|))
    decreases |rest|
  {
    if rest == [] {
      assert s.visiblePile + rest == s.visiblePile;
    } else {
      RecycledTail(rest);
      var t := s.(visiblePile := s.visiblePile + [rest[0]], hiddenPile := Recycled(rest[1..]), numSteps := s.numSteps + 1);
      assert ExecuteDraw(s, 0) == Ok(t);
      DrawThrough(t, rest[1..]);
      assert t.visiblePile + rest[1..] == s.visiblePile + rest;
    }
  }

  /**
   * A full pass: once the stock is empty, one draw turns the visible pile over, and drawing through the new
   * stock shows the same cards again in the same order. Only the step counter differs.
   */
  lemma RecycleRestoresVisiblePile(s: GameState)
    requires s.hiddenPile == []
    ensures DrawTimes(s, |s.visiblePile| + 1) == Ok(s.(numSteps := s.numSteps + |s.visiblePile| + 1))
  {
    var t := FullPass(s);
    DrawTimesStep(s, |s.visiblePile| + 1, t, s.(numSteps := s.numSteps + |s.visiblePile| + 1));
  }

  /** The first draw turns the visible pile over into the stock; the remaining draws turn it back. */
  lemma FullPass(s: GameState) returns (t: GameState)
    requires s.hiddenPile == []
    ensures ExecuteDraw(s, 0) == Ok(t)
    ensures DrawTimes(t, |s.visiblePile|) == Ok(s.(numSteps := s.numSteps + |s.visiblePile| + 1))
  {
    var v := s.visiblePile;
    t := s.(visiblePile := [], hiddenPile := Recycled(v), numSteps := s.numSteps + 1);
    FullPassState(s, t);
    DrawOnEmptyStock(s, t);
    DrawThrough(t, v);
  }

  lemma FullPassState(s: GameState, t: GameState)
    requires s.hiddenPile == [] && t == s.(visiblePile := [], hiddenPile := Recycled(s.visiblePile), numSteps := s.numSteps + 1)
    ensures t.(visiblePile := t.visiblePile + s.visiblePile, hiddenPile := [], numSteps := t.numSteps + |s.visiblePile|) ==
            s.(numSteps := s.numSteps + |s.visiblePile| + 1)
  {
    assert t.visiblePile + s.visiblePile == s.visiblePile;
  }

  lemma DrawOnEmptyStock(s: GameState, t: GameState)
    requires s.hiddenPile == []
    requires t == s.(visiblePile := [], hiddenPile := Recycled(s.visiblePile), numSteps := s.numSteps + 1)
    ensures ExecuteDraw(s, 0) == Ok(t)
  {
  }

  lemma DrawTimesStep(s: GameState, k: nat, t: GameState, u: GameState)
    requires k > 0 && ExecuteDraw(s, 0) == Ok(t) && DrawTimes(t, k - 1) == Ok(u)
    ensures DrawTimes(s, k) == Ok(u)
  {
  }

  // ---------------------------------------------------------------------------------------------
  // Moves
  // ---------------------------------------------------------------------------------------------

  /** Nothing can be moved from an empty main pile, foundation or visible pile. */
  lemma MoveFromEmptySource(s: GameState, src: Location, dest: Location, pick: nat)
    requires PickOk(s.unseenCards, pick)
    requires CardsAt(s, src) == []
    ensures Execute(s, Move(src, dest), pick) == Err(IllegalMove(EmptySource))
  {
  }

  /** `src` with its top card removed, for a foundation or the visible pile. */
  function WithoutTop(s: GameState, src: Location): (r: GameState)
    requires !src.MainPile? && |CardsAt(s, src)| > 0
    ensures CardsAt(r, src) + [Last(CardsAt(s, src))] == CardsAt(s, src)
    ensures src.Foundation? ==> r.piles == s.piles && r.visiblePile == s.visiblePile
    ensures src.Foundation? ==> |r.foundations| == |s.foundations|
    ensures src.Foundation? ==> forall k :: 0 <= k < |s.foundations| && k != src.foundationId ==> r.foundations[k] == s.foundations[k]
    ensures src.VisiblePile? ==> r.piles == s.piles && r.foundations == s.foundations
    ensures r.hiddenPile == s.hiddenPile && r.unseenCards == s.unseenCards && r.numSteps == s.numSteps
  {
    match src
    case Foundation(f) => s.(foundations := s.foundations[f := s.foundations[f][..|s.foundations[f]| - 1]])
    case VisiblePile => s.(visiblePile := s.visiblePile[..|s.visiblePile| - 1])
  }

  /**
   * A card from a foundation or the visible pile goes onto main pile `d` exactly when it fits there.
   * Then that one card moves: it leaves its source and lands on pile `d`, and nothing else changes.
   */
  lemma SingleCardOntoPile(s: GameState, src: Location, d: PileId, pick: nat)
    requires PickOk(s.unseenCards, pick)
    requires !src.MainPile?
    ensures Execute(s, Move(src, MainPile(d)), pick).Ok? <==>
              CardsAt(s, src) != [] && Compatible(TopMostCard(s, MainPile(d)), TopMostCard(s, src))
    ensures Execute(s, Move(src, MainPile(d)), pick).Err? ==> Execute(s, Move(src, MainPile(d)), pick).error.IllegalMove?
    ensures Execute(s, Move(src, MainPile(d)), pick).Ok? ==>
              var card := Last(CardsAt(s, src));
              var t := WithoutTop(s, src);
              var p := s.piles[d];
              Execute(s, Move(src, MainPile(d)), pick).value ==
                t.(piles := t.piles[d := Pile(p.hiddenLeft, p.visible + [card])], numSteps := s.numSteps + 1)
  {
    if CardsAt(s, src) != [] && Compatible(TopMostCard(s, MainPile(d)), TopMostCard(s, src)) {
      var card := Last(CardsAt(s, src));
      var l := LiftTopCard(s, src, pick);
      assert l == Ok(Lifted(WithoutTop(s, src), card));
    }
  }

  /** Main pile `i` after its run from `offset` on is taken, revealing `s.unseenCards[pick]` if need be. */
  function PileAfterTake(s: GameState, i: PileId, offset: nat, pick: nat): (p: Pile)
    requires offset <= |s.piles[i].visible|
    requires PickOk(s.unseenCards, pick) && !Starved(s, i, offset)
    ensures p.hiddenLeft + (if Reveals(s.piles[i], offset) then 1 else 0) == s.piles[i].hiddenLeft
  {
    var q := s.piles[i];
    if Reveals(q, offset) then Pile(q.hiddenLeft - 1, [s.unseenCards[pick]]) else Pile(q.hiddenLeft, q.visible[..offset])
  }

  /** The unseen pool after taking main pile `i` from `offset` on. */
  function PoolAfterTake(s: GameState, i: PileId, offset: nat, pick: nat): (u: seq<Card>)
    requires PickOk(s.unseenCards, pick) && !Starved(s, i, offset)
    ensures Reveals(s.piles[i], offset) ==>
              multiset(u) + multiset{s.unseenCards[pick]} == multiset(s.unseenCards) && |u| + 1 == |s.unseenCards|
    ensures !Reveals(s.piles[i], offset) ==> u == s.unseenCards
  {
    if Reveals(s.piles[i], offset) then DrawFromUnseenCards(s.unseenCards, pick).value.rest else s.unseenCards
  }

  lemma TakeOutcome(s: GameState, i: PileId, offset: nat, pick: nat)
    requires offset < |s.piles[i].visible| && PickOk(s.unseenCards, pick) && !Starved(s, i, offset)
    ensures TakeFromMainPile(s, i, offset, pick) ==
              Ok(Taken(PileAfterTake(s, i, offset, pick), PoolAfterTake(s, i, offset, pick), s.piles[i].visible[offset..]))
  {
  }

  /**
   * Promotion from the visible pile onto foundation `d` is accepted exactly when the visible pile has a
   * top card of foundation `d`'s suit that is the Ace onto an empty foundation or the next rank up; every
   * refusal is an illegal move. Then that card leaves the visible pile for foundation `d`.
   */
  lemma PromotionFromVisibleOutcome(s: GameState, d: FoundationId, pick: nat)
    requires PickOk(s.unseenCards, pick)
    ensures Execute(s, Move(VisiblePile, Foundation(d)), pick).Ok? <==>
              s.visiblePile != [] && PromotionAllowed(s.foundations[d], Last(s.visiblePile), d)
    ensures Execute(s, Move(VisiblePile, Foundation(d)), pick).Err? ==>
              Execute(s, Move(VisiblePile, Foundation(d)), pick).error.IllegalMove?
    ensures Execute(s, Move(VisiblePile, Foundation(d)), pick).Ok? ==>
              var v := s.visiblePile;
              Execute(s, Move(VisiblePile, Foundation(d)), pick).value ==
                s.(visiblePile := v[..|v| - 1], foundations := s.foundations[d := s.foundations[d] + [Last(v)]],
                   numSteps := s.numSteps + 1)
  {
    var v := s.visiblePile;
    if v != [] {
      FoundationDispatch(s, VisiblePile, d, pick);
      if PromotionAllowed(s.foundations[d], Last(v), d) {
        assert Last(v).suit.Index() == d;
      }
    }
  }

  /**
   * Promotion from main pile `i` onto foundation `d` is accepted exactly when the pile has a top card of
   * foundation `d`'s suit that is the Ace onto an empty foundation or the next rank up, and no face-down
   * card would have to be revealed from an empty pool; it is refused as illegal exactly when the pile is
   * empty or the card does not fit. Then the card goes to foundation `d` and the pile is left as a take of
   * its top card leaves it; the stock and the visible pile are unchanged.
   */
  lemma PromotionFromPileOutcome(s: GameState, i: PileId, d: FoundationId, pick: nat)
    requires PickOk(s.unseenCards, pick)
    ensures var v := s.piles[i].visible;
            Execute(s, Move(MainPile(i), Foundation(d)), pick).Ok? <==>
              v != [] && PromotionAllowed(s.foundations[d], Last(v), d) && !Starved(s, i, |v| - 1)
    ensures var v := s.piles[i].visible;
            Execute(s, Move(MainPile(i), Foundation(d)), pick).Err? ==>
              (Execute(s, Move(MainPile(i), Foundation(d)), pick).error.IllegalMove? <==>
                 v == [] || !PromotionAllowed(s.foundations[d], Last(v), d))
    ensures Execute(s, Move(MainPile(i), Foundation(d)), pick).Ok? ==>
              var v := s.piles[i].visible;
              Execute(s, Move(MainPile(i), Foundation(d)), pick).value ==
                s.(piles := s.piles[i := PileAfterTake(s, i, |v| - 1, pick)],
                   unseenCards := PoolAfterTake(s, i, |v| - 1, pick),
                   foundations := s.foundations[d := s.foundations[d] + [Last(v)]], numSteps := s.numSteps + 1)
  {
    var v := s.piles[i].visible;
    if v != [] {
      FoundationDispatch(s, MainPile(i), d, pick);
      if PromotionAllowed(s.foundations[d], Last(v), d) && !Starved(s, i, |v| - 1) {
        var l := LiftWithoutStarving(s, i, pick);
        var r := PromoteOnto(s, MainPile(i), pick, l);
        assert Last(v).suit.Index() == d;
      }
    }
  }

  /** The foundation checks of `execute_action`: a card that fits is promoted, any other is refused as illegal. */
  lemma FoundationDispatch(s: GameState, src: Location, d: FoundationId, pick: nat)
    requires PickOk(s.unseenCards, pick) && !src.Foundation? && CardsAt(s, src) != []
    ensures PromotionAllowed(s.foundations[d], Last(CardsAt(s, src)), d) ==>
              Execute(s, Move(src, Foundation(d)), pick) == PromoteToFoundation(s, src, pick)
    ensures !PromotionAllowed(s.foundations[d], Last(CardsAt(s, src)), d) ==>
              Execute(s, Move(src, Foundation(d)), pick).Err? && Execute(s, Move(src, Foundation(d)), pick).error.IllegalMove?
  {
  }

  /** Lifting the top card of main pile `i` when no reveal is starved: the pile and the pool as a take leaves them. */
  lemma LiftWithoutStarving(s: GameState, i: PileId, pick: nat) returns (l: Lifted)
    requires PickOk(s.unseenCards, pick) && s.piles[i].visible != [] && !Starved(s, i, |s.piles[i].visible| - 1)
    ensures var v := s.piles[i].visible;
      l == Lifted(s.(piles := s.piles[i := PileAfterTake(s, i, |v| - 1, pick)], unseenCards := PoolAfterTake(s, i, |v| - 1, pick)), Last(v))
    ensures LiftTopCard(s, MainPile(i), pick) == Ok(l)
  {
    var v := s.piles[i].visible;
    TakeOutcome(s, i, |v| - 1, pick);
    l := Lifted(s.(piles := s.piles[i := PileAfterTake(s, i, |v| - 1, pick)], unseenCards := PoolAfterTake(s, i, |v| - 1, pick)), Last(v));
    assert v[|v| - 1..] == [Last(v)];
  }

  /**
   * With ordered foundations no move from a foundation onto a foundation is accepted: onto another
   * foundation the suit is wrong, and onto its own the card is not the next rank. So the defensive
   * assertion of `_promote_to_foundation` is never reached.
   */
  lemma FoundationToFoundationRefused(s: GameState, f: FoundationId, d: FoundationId, pick: nat)
    requires PickOk(s.unseenCards, pick) && FoundationsOrdered(s)
    ensures Execute(s, Move(Foundation(f), Foundation(d)), pick).Err?
    ensures Execute(s, Move(Foundation(f), Foundation(d)), pick).error.IllegalMove?
  {
    if s.foundations[f] != [] {
      FoundationTopSuit(s, f);
      var card := Last(s.foundations[f]);
      assert card.rank == |s.foundations[f]|;
    }
  }

  /**
   * A transfer from main pile `i` onto main pile `d` splits pile `i` at the first card that fits on `d`;
   * when no card fits, it is refused.
   */
  lemma TransferRefused(s: GameState, i: PileId, d: PileId, pick: nat)
    requires PickOk(s.unseenCards, pick)
    requires forall j :: 0 <= j < |s.piles[i].visible| ==> !Compatible(TopMostCard(s, MainPile(d)), Some(s.piles[i].visible[j]))
    ensures Execute(s, Move(MainPile(i), MainPile(d)), pick).Err?
    ensures Execute(s, Move(MainPile(i), MainPile(d)), pick).error.IllegalMove?
  {
    if s.piles[i].visible != [] {
      assert FirstCompatible(TopMostCard(s, MainPile(d)), s.piles[i].visible) == None;
    }
  }

  /**
   * When `offset` is the first card of main pile `i` that fits on main pile `d`, the run from `offset` on is
   * appended to pile `d` and pile `i` keeps the cards below it, or reveals a card if none are left; no
   * other zone changes.
   */
  lemma TransferOutcome(s: GameState, i: PileId, d: PileId, offset: nat, pick: nat)
    requires PickOk(s.unseenCards, pick) && i != d
    requires offset < |s.piles[i].visible|
    requires Compatible(TopMostCard(s, MainPile(d)), Some(s.piles[i].visible[offset]))
    requires forall j :: 0 <= j < offset ==> !Compatible(TopMostCard(s, MainPile(d)), Some(s.piles[i].visible[j]))
    ensures Execute(s, Move(MainPile(i), MainPile(d)), pick).Ok? <==> !Starved(s, i, offset)
    ensures Execute(s, Move(MainPile(i), MainPile(d)), pick).Ok? ==>
              var pd := s.piles[d];
              Execute(s, Move(MainPile(i), MainPile(d)), pick).value ==
                s.(piles := s.piles[i := PileAfterTake(s, i, offset, pick)]
                                   [d := Pile(pd.hiddenLeft, pd.visible + s.piles[i].visible[offset..])],
                   unseenCards := PoolAfterTake(s, i, offset, pick), numSteps := s.numSteps + 1)
  {
    var back := TopMostCard(s, MainPile(d));
    var v := s.piles[i].visible;
    FirstCompatibleIsFirst(back, v, offset, 0);
    if !Starved(s, i, offset) {
      TakeOutcome(s, i, offset, pick);
    }
  }

  /** The search from `k` on finds `offset` when `offset` is the first fit at or after `k`. */
  lemma {:induction false} FirstCompatibleIsFirst(back: Option<Card>, cards: seq<Card>, offset: nat, k: nat)
    requires k <= offset < |cards| && Compatible(back, Some(cards[offset]))
    requires forall j :: k <= j < offset ==> !Compatible(back, Some(cards[j]))
    ensures FirstCompatibleFrom(back, cards, k) == Some(offset)
    decreases offset - k
  {
    if k < offset {
      FirstCompatibleIsFirst(back, cards, offset, k + 1);
    }
  }

  // ---------------------------------------------------------------------------------------------
  // Legality and status
  // ---------------------------------------------------------------------------------------------

  /**
   * Which card a reveal draws never decides whether an action is accepted, nor why it is refused: the trial
   * execution of `is_move_legal` answers for every choice of the card.
   */
  lemma LegalityIgnoresPick(s: GameState, a: Action, pick: nat, other: nat)
    requires PickOk(s.unseenCards, pick) && PickOk(s.unseenCards, other)
    ensures Execute(s, a, pick).Ok? <==> Execute(s, a, other).Ok?
    ensures Execute(s, a, pick).Err? ==> Execute(s, a, pick) == Execute(s, a, other)
  {
    match a
    case Draw =>
    case Move(src, dest) =>
  }

  /** `is_move_legal` tells, for every admissible choice of revealed card, whether the action is accepted. */
  lemma IsMoveLegalMeansAccepted(s: GameState, a: Action, pick: nat)
    requires PickOk(s.unseenCards, pick)
    ensures IsMoveLegal(s, a) <==> Execute(s, a, pick).Ok?
  {
    LegalityIgnoresPick(s, a, 0, pick);
  }

  /** Under the counting invariant a placeholder on top of the stock is always backed by an unseen card. */
  lemma DrawAlwaysLegal(s: GameState)
    requires Counted(s)
    ensures IsMoveLegal(s, Draw)
    ensures Draw in LegalActions(s)
  {
    var h := s.hiddenPile;
    if h != [] {
      assert UnknownCount(h) == UnknownCount(h[..|h| - 1]) + (if Last(h).Unknown? then 1 else 0);
    }
    LegalActionsEndWithDraw(s);
  }

  /**
   * `legal_actions` lists the legal moves in the order of `ACTIONS` and then the draw, when it is legal,
   * as its last entry.
   */
  lemma LegalActionsEndWithDraw(s: GameState)
    ensures LegalActions(s) ==
              LegalAmong(s, MovesFromAll(AllLocations(), AllLocations())) + (if IsMoveLegal(s, Draw) then [Draw] else [])
    ensures IsMoveLegal(s, Draw) ==> Last(LegalActions(s)) == Draw
  {
    var moves := MovesFromAll(AllLocations(), AllLocations());
    LegalAmongAppend(s, moves, [Draw]);
    LegalAmongAppend(s, [Draw], []);
    assert [Draw] + [] == [Draw];
  }

  /**
   * For a state that keeps the counting invariant the status is decided by two tests only: won, else over
   * the step budget (strictly more than 50000 steps), else still in play. It is never reported stuck.
   */
  lemma StatusUnderInvariant(s: GameState)
    requires Counted(s)
    ensures Status(s) != OutOfSteps
    ensures Status(s) == Won <==> IsWon(s)
    ensures Status(s) == ExceededLimit <==> !IsWon(s) && s.numSteps > 50000
    ensures Status(s) == NotFinished <==> !IsWon(s) && s.numSteps <= 50000
  {
    DrawAlwaysLegal(s);
  }

  /**
   * A won state, in the sense of `_is_won` (nothing in the visible pile, the stock or the unseen pool),
   * has every one of the 52 cards face up on a main pile or a foundation, and no face-down card left.
   */
  lemma WonPlacesEveryCard(s: GameState)
    requires Invariant(s) && IsWon(s)
    ensures forall i :: 0 <= i < 7 ==> s.piles[i].hiddenLeft == 0
    ensures PilesCards(s.piles) + FoundationCards(s.foundations) == multiset(FullDeck())
  {
    forall i | 0 <= i < 7 ensures s.piles[i].hiddenLeft == 0 {
      HiddenLeftBacked(s, i);
    }
    assert KnownOf(s.hiddenPile) == multiset{};
    assert multiset(s.visiblePile) == multiset{} && multiset(s.unseenCards) == multiset{};
  }
}
