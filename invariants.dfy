/**
 * The bookkeeping of a game state and the invariants every accepted action keeps: the counting invariant
 * (one unseen card per face-down tableau card and per stock placeholder), conservation of the 52 cards,
 * ordered foundations and valid tableau runs.
 */
module Invariants {
  import opened Wrappers
  import opened Seqs
  import opened Cards
  import opened Locations
  import opened GameStates
  import opened Rules

  /** The face-down cards of all main piles. */
  function HiddenLeftTotal(t: seq<Pile>): nat
  {
    if t == [] then 0 else HiddenLeftTotal(t[..|t| - 1]) + Last(t).hiddenLeft
  }

  /** The face-up cards of all main piles. */
  function PilesCards(t: seq<Pile>): multiset<Card>
  {
    if t == [] then multiset{} else PilesCards(t[..|t| - 1]) + multiset(Last(t).visible)
  }

  /** The cards of all foundations. */
  function FoundationCards(f: seq<seq<Card>>): multiset<Card>
  {
    if f == [] then multiset{} else FoundationCards(f[..|f| - 1]) + multiset(Last(f))
  }

  /** The placeholders of the stock. */
  function UnknownCount(h: seq<StockCard>): nat
  {
    if h == [] then 0 else UnknownCount(h[..|h| - 1]) + (if Last(h).Unknown? then 1 else 0)
  }

  /** The revealed cards of the stock. */
  function KnownOf(h: seq<StockCard>): multiset<Card>
  {
    if h == [] then multiset{} else KnownOf(h[..|h| - 1]) + (if Last(h).Known? then multiset{Last(h).card} else multiset{})
  }

  /** Every card that has an identity and a position. */
  function PlacedCards(s: GameState): multiset<Card>
  {
    PilesCards(s.piles) + FoundationCards(s.foundations) + multiset(s.visiblePile) + KnownOf(s.hiddenPile)
  }

  /** The unseen pool backs exactly the face-down tableau cards and the stock placeholders. */
  predicate Counted(s: GameState)
  {
    |s.unseenCards| == HiddenLeftTotal(s.piles) + UnknownCount(s.hiddenPile)
  }

  /** The placed cards and the unseen pool are together a permutation of the 52 cards. */
  predicate Conserved(s: GameState)
  {
    PlacedCards(s) + multiset(s.unseenCards) == multiset(FullDeck())
  }

  /** Foundation `i` is the Ace, the 2, ... of suit `i`, without gaps. */
  predicate FoundationOrdered(i: FoundationId, f: seq<Card>)
  {
    forall j :: 0 <= j < |f| ==> f[j].suit == SuitAt(i) && f[j].rank == j + 1
  }

  predicate FoundationsOrdered(s: GameState)
  {
    forall i :: 0 <= i < 4 ==> FoundationOrdered(i, s.foundations[i])
  }

  predicate RunsValid(s: GameState)
  {
    forall i :: 0 <= i < 7 ==> IsRun(s.piles[i].visible)
  }

  predicate Invariant(s: GameState)
  {
    Counted(s) && Conserved(s) && FoundationsOrdered(s) && RunsValid(s)
  }

  // ---------------------------------------------------------------------------------------------
  // Bookkeeping under updates

  lemma {:induction false} HiddenLeftTotalUpdate(t: seq<Pile>, i: nat, p: Pile)
    requires i < |t|
    ensures HiddenLeftTotal(t[i := p]) + t[i].hiddenLeft == HiddenLeftTotal(t) + p.hiddenLeft
  {
    var n := |t| - 1;
    if i < n {
      HiddenLeftTotalUpdate(t[..n], i, p);
      assert t[i := p][..n] == t[..n][i := p];
    } else {
      assert t[i := p][..n] == t[..n];
    }
  }

  lemma {:induction false} PilesCardsUpdate(t: seq<Pile>, i: nat, p: Pile)
    requires i < |t|
    ensures PilesCards(t[i := p]) + multiset(t[i].visible) == PilesCards(t) + multiset(p.visible)
  {
    var n := |t| - 1;
    var u := t[i := p];
    if i < n {
      PilesCardsUpdate(t[..n], i, p);
      assert u[..n] == t[..n][i := p];
      assert Last(u) == Last(t);
      ShiftSum(PilesCards(t[..n]), PilesCards(t[..n][i := p]), multiset(t[i].visible), multiset(p.visible), multiset(Last(t).visible));
    } else {
      assert u[..n] == t[..n];
    }
  }

  lemma {:induction false} FoundationCardsUpdate(f: seq<seq<Card>>, i: nat, x: seq<Card>)
    requires i < |f|
    ensures FoundationCards(f[i := x]) + multiset(f[i]) == FoundationCards(f) + multiset(x)
  {
    var n := |f| - 1;
    var u := f[i := x];
    if i < n {
      FoundationCardsUpdate(f[..n], i, x);
      assert u[..n] == f[..n][i := x];
      assert Last(u) == Last(f);
      ShiftSum(FoundationCards(f[..n]), FoundationCards(f[..n][i := x]), multiset(f[i]), multiset(x), multiset(Last(f)));
    } else {
      assert u[..n] == f[..n];
    }
  }

  /** Swapping `removed` for `added` in a sum stays balanced when the same `rest` is added to both sides. */
  lemma ShiftSum(a: multiset<Card>, b: multiset<Card>, removed: multiset<Card>, added: multiset<Card>, rest: multiset<Card>)
    requires b + removed == a + added
    ensures b + rest + removed == a + rest + added
  {
    forall c ensures (b + rest + removed)[c] == (a + rest + added)[c] {
      assert (b + removed)[c] == (a + added)[c];
    }
  }

  /** Recycling the visible pile turns its cards into revealed stock cards and adds no placeholder. */
  lemma {:induction false} RecycledCards(w: seq<Card>)
    ensures KnownOf(Recycled(w)) == multiset(w)
    ensures UnknownCount(Recycled(w)) == 0
  {
    if w != [] {
      var tail := w[1..];
      RecycledCards(tail);
      RecycledStep(w);
      FirstAndRest(w);
      SwapUnion(multiset(tail), multiset{w[0]});
    }
  }

  /** The top of a turned-over pile is its bottom card; below it lies the rest, turned over. */
  lemma RecycledTail(w: seq<Card>)
    requires w != []
    ensures Last(Recycled(w)) == Known(w[0])
    ensures Recycled(w)[..|w| - 1] == Recycled(w[1..])
  {
  }

  lemma RecycledStep(w: seq<Card>)
    requires w != []
    ensures KnownOf(Recycled(w)) == KnownOf(Recycled(w[1..])) + multiset{w[0]}
    ensures UnknownCount(Recycled(w)) == UnknownCount(Recycled(w[1..]))
  {
    RecycledTail(w);
  }

  lemma FirstAndRest(w: seq<Card>)
    requires w != []
    ensures multiset(w) == multiset{w[0]} + multiset(w[1..])
  {
    assert w == [w[0]] + w[1..];
  }

  lemma SwapUnion(a: multiset<Card>, b: multiset<Card>)
    ensures a + b == b + a
  {
    forall c ensures (a + b)[c] == (b + a)[c] { }
  }

  // ---------------------------------------------------------------------------------------------
  // Runs and foundations

  /** A run stays a run when a run fitting its top is put on it. */
  lemma {:induction false} RunAppend(a: seq<Card>, b: seq<Card>)
    requires IsRun(a) && IsRun(b) && b != []
    requires Compatible(if a == [] then None else Some(Last(a)), Some(b[0]))
    ensures IsRun(a + b)
  {
    var c := a + b;
    forall j | 0 < j < |c| ensures Compatible(Some(c[j - 1]), Some(c[j])) {
      if j > |a| {
        assert c[j - 1] == b[j - 1 - |a|] && c[j] == b[j - |a|];
      } else if j == |a| {
        assert c[j] == b[0];
      }
    }
  }

  lemma RunSlice(a: seq<Card>, i: nat, j: nat)
    requires IsRun(a) && i <= j <= |a|
    ensures IsRun(a[i..j])
  {
    forall k | 0 < k < j - i ensures Compatible(Some(a[i..j][k - 1]), Some(a[i..j][k])) {
      assert a[i..j][k - 1] == a[i + k - 1];
    }
  }

  // ---------------------------------------------------------------------------------------------
  // The placed cards when one zone changes

  /** Replacing main pile `i` by `p` swaps its visible run in the placed cards. */
  lemma PlacedPileUpdate(s: GameState, s': GameState, i: PileId, p: Pile)
    requires s'.piles == s.piles[i := p] && s'.foundations == s.foundations
    requires s'.visiblePile == s.visiblePile && s'.hiddenPile == s.hiddenPile
    ensures PlacedCards(s') + multiset(s.piles[i].visible) == PlacedCards(s) + multiset(p.visible)
    ensures HiddenLeftTotal(s'.piles) + s.piles[i].hiddenLeft == HiddenLeftTotal(s.piles) + p.hiddenLeft
  {
    PilesCardsUpdate(s.piles, i, p);
    HiddenLeftTotalUpdate(s.piles, i, p);
    forall c ensures (PlacedCards(s') + multiset(s.piles[i].visible))[c] == (PlacedCards(s) + multiset(p.visible))[c] {
      assert (PilesCards(s'.piles) + multiset(s.piles[i].visible))[c] == (PilesCards(s.piles) + multiset(p.visible))[c];
    }
  }

  /** Putting `cards` on top of main pile `d` adds them to the placed cards. */
  lemma PlacedPilePush(s: GameState, s': GameState, d: PileId, cards: seq<Card>)
    requires s'.piles == s.piles[d := Pile(s.piles[d].hiddenLeft, s.piles[d].visible + cards)]
    requires s'.foundations == s.foundations && s'.visiblePile == s.visiblePile && s'.hiddenPile == s.hiddenPile
    ensures PlacedCards(s') == PlacedCards(s) + multiset(cards)
    ensures HiddenLeftTotal(s'.piles) == HiddenLeftTotal(s.piles)
  {
    var v := s.piles[d].visible;
    PlacedPileUpdate(s, s', d, Pile(s.piles[d].hiddenLeft, v + cards));
    assert multiset(v + cards) == multiset(v) + multiset(cards);
    forall c ensures PlacedCards(s')[c] == (PlacedCards(s) + multiset(cards))[c] {
      assert (PlacedCards(s') + multiset(v))[c] == (PlacedCards(s) + multiset(v + cards))[c];
    }
  }

  /** Replacing foundation `i` by `x` swaps its cards in the placed cards. */
  lemma PlacedFoundationUpdate(s: GameState, s': GameState, i: FoundationId, x: seq<Card>)
    requires s'.foundations == s.foundations[i := x] && s'.piles == s.piles
    requires s'.visiblePile == s.visiblePile && s'.hiddenPile == s.hiddenPile
    ensures PlacedCards(s') + multiset(s.foundations[i]) == PlacedCards(s) + multiset(x)
  {
    FoundationCardsUpdate(s.foundations, i, x);
    forall c ensures (PlacedCards(s') + multiset(s.foundations[i]))[c] == (PlacedCards(s) + multiset(x))[c] {
      assert (FoundationCards(s'.foundations) + multiset(s.foundations[i]))[c] == (FoundationCards(s.foundations) + multiset(x))[c];
    }
  }

  /** Taking the top card of foundation `i` removes it from the placed cards. */
  lemma PlacedFoundationPop(s: GameState, s': GameState, i: FoundationId, card: Card)
    requires s.foundations[i] == s'.foundations[i] + [card]
    requires s'.foundations == s.foundations[i := s'.foundations[i]] && s'.piles == s.piles
    requires s'.visiblePile == s.visiblePile && s'.hiddenPile == s.hiddenPile
    ensures PlacedCards(s') + multiset{card} == PlacedCards(s)
  {
    var rest := s'.foundations[i];
    PlacedFoundationUpdate(s, s', i, rest);
    assert multiset(s.foundations[i]) == multiset(rest) + multiset{card};
    forall c ensures (PlacedCards(s') + multiset{card})[c] == PlacedCards(s)[c] {
      assert (PlacedCards(s') + multiset(s.foundations[i]))[c] == (PlacedCards(s) + multiset(rest))[c];
    }
  }

  /** Putting `card` on top of foundation `i` adds it to the placed cards. */
  lemma PlacedFoundationPush(s: GameState, s': GameState, i: FoundationId, card: Card)
    requires s'.foundations == s.foundations[i := s.foundations[i] + [card]] && s'.piles == s.piles
    requires s'.visiblePile == s.visiblePile && s'.hiddenPile == s.hiddenPile
    ensures PlacedCards(s') == PlacedCards(s) + multiset{card}
  {
    var f := s.foundations[i];
    PlacedFoundationUpdate(s, s', i, f + [card]);
    assert multiset(f + [card]) == multiset(f) + multiset{card};
    forall c ensures PlacedCards(s')[c] == (PlacedCards(s) + multiset{card})[c] {
      assert (PlacedCards(s') + multiset(f))[c] == (PlacedCards(s) + multiset(f + [card]))[c];
    }
  }

  // ---------------------------------------------------------------------------------------------
  // Taking the run above an offset of a main pile

  /** The state after a take, before any destination is written. */
  function AfterTake(s: GameState, index: PileId, t: Taken): GameState
  {
    s.(piles := s.piles[index := t.pile], unseenCards := t.unseen)
  }

  /** A take keeps the cards and the counting, and leaves runs behind and in hand. */
  lemma TakeKeeps(s: GameState, index: PileId, offset: nat, pick: nat, t: Taken)
    requires offset < |s.piles[index].visible| && PickOk(s.unseenCards, pick)
    requires TakeFromMainPile(s, index, offset, pick) == Ok(t)
    ensures PlacedCards(AfterTake(s, index, t)) + multiset(t.cards) + multiset(t.unseen) == PlacedCards(s) + multiset(s.unseenCards)
    ensures HiddenLeftTotal(AfterTake(s, index, t).piles) + |s.unseenCards| == HiddenLeftTotal(s.piles) + |t.unseen|
    ensures IsRun(s.piles[index].visible) ==> IsRun(t.pile.visible) && IsRun(t.cards)
  {
    var s' := AfterTake(s, index, t);
    var v := s.piles[index].visible;
    PlacedPileUpdate(s, s', index, t.pile);
    Exchange(PlacedCards(s'), multiset(v), PlacedCards(s), multiset(t.pile.visible),
             multiset(t.cards), multiset(t.unseen), multiset(s.unseenCards));
    if IsRun(v) {
      RunSlice(v, 0, offset);
      RunSlice(v, offset, |v|);
    }
  }

  /** If `x` gave up `v` for `w`, and `w` with `c` and `d` is worth `v` with `u`, then `x` with `c` and `d` is worth `p` with `u`. */
  lemma Exchange(x: multiset<Card>, v: multiset<Card>, p: multiset<Card>, w: multiset<Card>,
                 c: multiset<Card>, d: multiset<Card>, u: multiset<Card>)
    requires x + v == p + w && w + c + d == v + u
    ensures x + c + d == p + u
  {
    forall e ensures (x + c + d)[e] == (p + u)[e] {
      assert (x + v)[e] == (p + w)[e] && (w + c + d)[e] == (v + u)[e];
    }
  }

  // ---------------------------------------------------------------------------------------------
  // Lifting the top card of a zone

  /** The state after lifting the top card of a zone keeps the bookkeeping, the foundations and the runs. */
  predicate LiftedKeeps(s: GameState, l: Lifted)
  {
    PlacedCards(l.state) + multiset{l.card} + multiset(l.state.unseenCards) == PlacedCards(s) + multiset(s.unseenCards) &&
    HiddenLeftTotal(l.state.piles) + |s.unseenCards| == HiddenLeftTotal(s.piles) + |l.state.unseenCards| &&
    l.state.hiddenPile == s.hiddenPile &&
    FoundationsOrdered(l.state) && RunsValid(l.state)
  }

  lemma LiftFromMainPile(s: GameState, i: PileId, pick: nat)
    requires |s.piles[i].visible| > 0 && PickOk(s.unseenCards, pick)
    requires FoundationsOrdered(s) && RunsValid(s)
    requires LiftTopCard(s, MainPile(i), pick).Ok?
    ensures LiftedKeeps(s, LiftTopCard(s, MainPile(i), pick).value)
    ensures LiftTopCard(s, MainPile(i), pick).value.state.foundations == s.foundations
    ensures LiftTopCard(s, MainPile(i), pick).value.state.visiblePile == s.visiblePile
  {
    var v := s.piles[i].visible;
    var t := TakeFromMainPile(s, i, |v| - 1, pick).value;
    assert LiftTopCard(s, MainPile(i), pick).value == Lifted(AfterTake(s, i, t), t.cards[0]);
    TakeKeeps(s, i, |v| - 1, pick, t);
    TakenLiftKeeps(s, i, t, t.cards[0]);
  }

  /** Lifting the single card that a take from the top of main pile `i` hands over. */
  lemma TakenLiftKeeps(s: GameState, i: PileId, t: Taken, card: Card)
    requires FoundationsOrdered(s) && RunsValid(s) && IsRun(t.pile.visible) && t.cards == [card]
    requires PlacedCards(AfterTake(s, i, t)) + multiset(t.cards) + multiset(t.unseen) == PlacedCards(s) + multiset(s.unseenCards)
    requires HiddenLeftTotal(AfterTake(s, i, t).piles) + |s.unseenCards| == HiddenLeftTotal(s.piles) + |t.unseen|
    ensures LiftedKeeps(s, Lifted(AfterTake(s, i, t), card))
  {
    assert multiset(t.cards) == multiset{card};
    LiftFromMainPileRuns(s, i, AfterTake(s, i, t), t.pile);
  }

  lemma LiftFromMainPileRuns(s: GameState, i: PileId, s': GameState, p: Pile)
    requires RunsValid(s) && IsRun(p.visible) && s'.piles == s.piles[i := p]
    ensures RunsValid(s')
  {
    forall k | 0 <= k < 7 ensures IsRun(s'.piles[k].visible) {
      if k != i {
        assert s'.piles[k] == s.piles[k];
      }
    }
  }

  lemma LiftFromFoundation(s: GameState, i: FoundationId, pick: nat)
    requires |s.foundations[i]| > 0 && PickOk(s.unseenCards, pick)
    requires FoundationsOrdered(s) && RunsValid(s)
    ensures LiftTopCard(s, Foundation(i), pick).Ok?
    ensures LiftedKeeps(s, LiftTopCard(s, Foundation(i), pick).value)
    ensures LiftTopCard(s, Foundation(i), pick).value.state.piles == s.piles
    ensures LiftTopCard(s, Foundation(i), pick).value.state.visiblePile == s.visiblePile
  {
    var f := s.foundations[i];
    var l := Lifted(s.(foundations := s.foundations[i := f[..|f| - 1]]), Last(f));
    assert LiftTopCard(s, Foundation(i), pick) == Ok(l);
    FoundationPopKeeps(s, i, l);
  }

  /** Taking the top card off foundation `i` keeps the bookkeeping and leaves the foundations ordered. */
  lemma FoundationPopKeeps(s: GameState, i: FoundationId, l: Lifted)
    requires FoundationsOrdered(s) && RunsValid(s) && |s.foundations[i]| > 0
    requires var f := s.foundations[i]; l == Lifted(s.(foundations := s.foundations[i := f[..|f| - 1]]), Last(f))
    ensures LiftedKeeps(s, l)
  {
    var f := s.foundations[i];
    var rest := f[..|f| - 1];
    assert f == rest + [l.card];
    PlacedFoundationPop(s, l.state, i, l.card);
    forall k | 0 <= k < 4 ensures FoundationOrdered(k, l.state.foundations[k]) {
      if k == i {
        assert FoundationOrdered(i, f);
      } else {
        assert l.state.foundations[k] == s.foundations[k];
      }
    }
  }

  lemma LiftFromVisiblePile(s: GameState, pick: nat)
    requires |s.visiblePile| > 0 && PickOk(s.unseenCards, pick)
    requires FoundationsOrdered(s) && RunsValid(s)
    ensures LiftTopCard(s, VisiblePile, pick).Ok?
    ensures LiftedKeeps(s, LiftTopCard(s, VisiblePile, pick).value)
    ensures LiftTopCard(s, VisiblePile, pick).value.state.piles == s.piles
    ensures LiftTopCard(s, VisiblePile, pick).value.state.foundations == s.foundations
  {
    var l := LiftTopCard(s, VisiblePile, pick).value;
    assert s.visiblePile == l.state.visiblePile + [l.card];
  }

  // ---------------------------------------------------------------------------------------------
  // Every accepted action keeps the invariant

  /** A face-down card of some pile is backed by at least one unseen card. */
  lemma HiddenLeftBacked(s: GameState, i: PileId)
    requires Counted(s)
    ensures s.piles[i].hiddenLeft <= |s.unseenCards|
  {
    HiddenLeftTotalUpdate(s.piles, i, Pile(0, []));
  }

  /** Refilling the stock from the visible pile moves cards without changing what is placed. */
  lemma RecycleConserves(s: GameState, r: GameState)
    requires s.hiddenPile == [] && r.hiddenPile == Recycled(s.visiblePile) && r.visiblePile == []
    requires r.piles == s.piles && r.foundations == s.foundations
    ensures PlacedCards(r) == PlacedCards(s)
    ensures UnknownCount(r.hiddenPile) == UnknownCount(s.hiddenPile)
  {
    var v := s.visiblePile;
    var base := PilesCards(s.piles) + FoundationCards(s.foundations);
    RecycledCards(v);
    forall c ensures PlacedCards(r)[c] == PlacedCards(s)[c] {
      assert PlacedCards(r)[c] == (base + multiset([]) + KnownOf(Recycled(v)))[c];
    }
  }

  /** Drawing the top of the stock onto the visible pile as `card`. */
  lemma DrawStockConserves(s: GameState, r: GameState, card: Card)
    requires s.hiddenPile != [] && r.hiddenPile == s.hiddenPile[..|s.hiddenPile| - 1]
    requires r.visiblePile == s.visiblePile + [card]
    requires r.piles == s.piles && r.foundations == s.foundations
    ensures Last(s.hiddenPile) == Known(card) ==>
              PlacedCards(r) == PlacedCards(s) && UnknownCount(r.hiddenPile) == UnknownCount(s.hiddenPile)
    ensures Last(s.hiddenPile) == Unknown ==>
              PlacedCards(r) == PlacedCards(s) + multiset{card} && UnknownCount(r.hiddenPile) + 1 == UnknownCount(s.hiddenPile)
  {
    var h := s.hiddenPile;
    var rest := h[..|h| - 1];
    var a := PilesCards(s.piles) + FoundationCards(s.foundations);
    var v := multiset(s.visiblePile);
    var k := KnownOf(rest);
    assert KnownOf(h) == k + (if Last(h).Known? then multiset{Last(h).card} else multiset{});
    assert multiset(r.visiblePile) == v + multiset{card};
    assert PlacedCards(r) == a + (v + multiset{card}) + k;
    Rotate(a, v, k, multiset{card});
  }

  /** Where in a sum of multisets an extra part `c` is added does not matter. */
  lemma Rotate(a: multiset<Card>, v: multiset<Card>, k: multiset<Card>, c: multiset<Card>)
    ensures a + (v + c) + k == a + v + (k + c)
    ensures a + (v + c) + k == a + v + k + c
  {
    forall x ensures (a + (v + c) + k)[x] == (a + v + (k + c))[x] == (a + v + k + c)[x] { }
  }

  /** Draw is never refused, and keeps the invariant. */
  lemma DrawKeeps(s: GameState, pick: nat)
    requires Invariant(s) && PickOk(s.unseenCards, pick)
    ensures ExecuteDraw(s, pick).Ok?
    ensures Invariant(ExecuteDraw(s, pick).value)
  {
    var h := s.hiddenPile;
    if |h| == 0 {
      var r := s.(visiblePile := [], hiddenPile := Recycled(s.visiblePile), numSteps := s.numSteps + 1);
      assert ExecuteDraw(s, pick) == Ok(r);
      RecycleKeeps(s, r);
    } else {
      var rest := h[..|h| - 1];
      match Last(h) {
        case Known(c) =>
          var r := s.(visiblePile := s.visiblePile + [c], hiddenPile := rest, numSteps := s.numSteps + 1);
          assert ExecuteDraw(s, pick) == Ok(r);
          DrawKnownKeeps(s, r, c);
        case Unknown =>
          assert s.unseenCards != [] by {
            assert UnknownCount(h) == UnknownCount(rest) + 1;
          }
          var d := DrawFromUnseenCards(s.unseenCards, pick).value;
          var r := s.(visiblePile := s.visiblePile + [d.card], hiddenPile := rest, unseenCards := d.rest,
                      numSteps := s.numSteps + 1);
          assert ExecuteDraw(s, pick) == Ok(r);
          DrawUnknownKeeps(s, r, d.card);
      }
    }
  }

  /** Turning the visible pile over into an empty stock keeps the invariant. */
  lemma RecycleKeeps(s: GameState, r: GameState)
    requires Invariant(s)
    requires r == s.(visiblePile := [], hiddenPile := Recycled(s.visiblePile), numSteps := s.numSteps + 1)
    requires s.hiddenPile == []
    ensures Invariant(r)
  {
    RecycleConserves(s, r);
  }

  /** Showing a stock card that already has an identity keeps the invariant. */
  lemma DrawKnownKeeps(s: GameState, r: GameState, c: Card)
    requires Invariant(s) && s.hiddenPile != [] && Last(s.hiddenPile) == Known(c)
    requires r == s.(visiblePile := s.visiblePile + [c], hiddenPile := s.hiddenPile[..|s.hiddenPile| - 1], numSteps := s.numSteps + 1)
    ensures Invariant(r)
  {
    DrawStockConserves(s, r, c);
  }

  /** Showing a placeholder as a card taken out of the unseen pool keeps the invariant. */
  lemma DrawUnknownKeeps(s: GameState, r: GameState, card: Card)
    requires Invariant(s) && s.hiddenPile != [] && Last(s.hiddenPile) == Unknown
    requires r.visiblePile == s.visiblePile + [card] && r.hiddenPile == s.hiddenPile[..|s.hiddenPile| - 1]
    requires r.piles == s.piles && r.foundations == s.foundations
    requires multiset(r.unseenCards) + multiset{card} == multiset(s.unseenCards) && |r.unseenCards| + 1 == |s.unseenCards|
    ensures Invariant(r)
  {
    var h := s.hiddenPile;
    assert UnknownCount(h) == UnknownCount(h[..|h| - 1]) + 1;
    DrawStockConserves(s, r, card);
    MoveAcross(PlacedCards(s), multiset{card}, multiset(r.unseenCards));
  }

  /** Moving a part `b` from one side of a sum to the other. */
  lemma MoveAcross(a: multiset<Card>, b: multiset<Card>, c: multiset<Card>)
    ensures a + b + c == a + (c + b)
  {
    forall x ensures (a + b + c)[x] == (a + (c + b))[x] { }
  }

  /** A card moved from a foundation or the visible pile onto a main pile it fits keeps the invariant. */
  lemma SimpleMoveKeeps(s: GameState, src: Location, d: PileId, pick: nat)
    requires Invariant(s) && PickOk(s.unseenCards, pick)
    requires !src.MainPile? && |CardsAt(s, src)| > 0
    requires Compatible(TopMostCard(s, MainPile(d)), TopMostCard(s, src))
    ensures SimpleMove(s, src, MainPile(d), pick).Ok?
    ensures Invariant(SimpleMove(s, src, MainPile(d), pick).value)
  {
    if src.Foundation? {
      LiftFromFoundation(s, src.foundationId, pick);
    } else {
      LiftFromVisiblePile(s, pick);
    }
    var l := LiftTopCard(s, src, pick).value;
    var r := SimpleMoveOnto(s, src, d, pick, l);
    PushOntoPileKeeps(s, l, r, d);
  }

  /** What a single-card move onto main pile `d` builds from the lifted card `l`. */
  lemma SimpleMoveOnto(s: GameState, src: Location, d: PileId, pick: nat, l: Lifted) returns (r: GameState)
    requires PickOk(s.unseenCards, pick) && !src.MainPile? && |CardsAt(s, src)| > 0
    requires LiftTopCard(s, src, pick) == Ok(l)
    ensures l.state.piles == s.piles && l.card == Last(CardsAt(s, src))
    ensures var p := l.state.piles[d];
      r == l.state.(piles := l.state.piles[d := Pile(p.hiddenLeft, p.visible + [l.card])], numSteps := s.numSteps + 1)
    ensures SimpleMove(s, src, MainPile(d), pick) == Ok(r)
  {
    var t := l.state;
    var p := t.piles[d];
    r := t.(piles := t.piles[d := Pile(p.hiddenLeft, p.visible + [l.card])], numSteps := s.numSteps + 1);
  }

  /** Putting a lifted card onto a main pile it fits restores the invariant. */
  lemma PushOntoPileKeeps(s: GameState, l: Lifted, r: GameState, d: PileId)
    requires Invariant(s) && LiftedKeeps(s, l)
    requires var v := l.state.piles[d].visible; Compatible(if v == [] then None else Some(Last(v)), Some(l.card))
    requires var p := l.state.piles[d];
      r == l.state.(piles := l.state.piles[d := Pile(p.hiddenLeft, p.visible + [l.card])], numSteps := s.numSteps + 1)
    ensures Invariant(r)
  {
    var t := l.state;
    var p := t.piles[d];
    PlacedPilePush(t, r, d, [l.card]);
    assert multiset([l.card]) == multiset{l.card};
    assert IsRun(p.visible + [l.card]) by {
      RunAppend(p.visible, [l.card]);
    }
    LiftFromMainPileRuns(t, d, r, Pile(p.hiddenLeft, p.visible + [l.card]));
  }

  /** Whether `card` may be promoted onto foundation `d`. */
  predicate PromotionAllowed(foundation: seq<Card>, card: Card, d: FoundationId)
  {
    card.suit.Index() == d &&
    ((card.rank == Ace && foundation == []) || (foundation != [] && Last(foundation).rank == card.rank - 1))
  }

  /** A card the rules allow onto an ordered foundation extends it in order. */
  lemma FoundationPushOrdered(i: FoundationId, f: seq<Card>, card: Card)
    requires FoundationOrdered(i, f) && PromotionAllowed(f, card, i)
    ensures FoundationOrdered(i, f + [card])
  {
    assert f != [] ==> Last(f).rank == |f|;
    assert card.suit == SuitAt(i);
  }

  lemma FoundationsPushOrdered(t: GameState, r: GameState, i: FoundationId, card: Card)
    requires FoundationsOrdered(t) && PromotionAllowed(t.foundations[i], card, i)
    requires r.foundations == t.foundations[i := t.foundations[i] + [card]]
    ensures FoundationsOrdered(r)
  {
    forall k | 0 <= k < 4 ensures FoundationOrdered(k, r.foundations[k]) {
      if k == i {
        FoundationPushOrdered(i, t.foundations[i], card);
      } else {
        assert r.foundations[k] == t.foundations[k];
      }
    }
  }

  /** Placing a lifted card onto its foundation, where the rules allow it, restores the invariant. */
  lemma PushLiftedKeeps(s: GameState, l: Lifted, r: GameState, i: FoundationId)
    requires Invariant(s) && LiftedKeeps(s, l)
    requires PromotionAllowed(l.state.foundations[i], l.card, i)
    requires i == l.card.suit.Index() && r == PlaceOnFoundation(l.state, l.card, s.numSteps + 1)
    ensures Invariant(r)
  {
    var t := l.state;
    assert r.foundations == t.foundations[i := t.foundations[i] + [l.card]];
    PlacedFoundationPush(t, r, i, l.card);
    FoundationsPushOrdered(t, r, i, l.card);
    assert RunsValid(r) by {
      assert r.piles == t.piles;
    }
  }

  /** A promotion that the rules allow keeps the invariant. */
  lemma PromoteKeeps(s: GameState, src: Location, pick: nat)
    requires Invariant(s) && PickOk(s.unseenCards, pick)
    requires !src.Foundation? && |CardsAt(s, src)| > 0
    requires var card := Last(CardsAt(s, src)); PromotionAllowed(s.foundations[card.suit.Index()], card, card.suit.Index())
    ensures PromoteToFoundation(s, src, pick).Ok?
    ensures Invariant(PromoteToFoundation(s, src, pick).value)
  {
    if src.MainPile? {
      PromoteFromPileKeeps(s, src.pileId, pick);
    } else {
      PromoteFromVisibleKeeps(s, pick);
    }
  }

  lemma PromoteFromPileKeeps(s: GameState, i: PileId, pick: nat)
    requires Invariant(s) && PickOk(s.unseenCards, pick)
    requires |s.piles[i].visible| > 0
    requires var card := Last(s.piles[i].visible); PromotionAllowed(s.foundations[card.suit.Index()], card, card.suit.Index())
    ensures PromoteToFoundation(s, MainPile(i), pick).Ok?
    ensures Invariant(PromoteToFoundation(s, MainPile(i), pick).value)
  {
    var l := PromoteFromPileShape(s, i, pick);
    var r := PromoteOnto(s, MainPile(i), pick, l);
    PushLiftedKeeps(s, l, r, l.card.suit.Index());
  }

  lemma PromoteFromPileShape(s: GameState, i: PileId, pick: nat) returns (l: Lifted)
    requires Invariant(s) && PickOk(s.unseenCards, pick)
    requires |s.piles[i].visible| > 0
    ensures LiftTopCard(s, MainPile(i), pick) == Ok(l)
    ensures LiftedKeeps(s, l) && l.card == Last(s.piles[i].visible) && l.state.foundations == s.foundations
  {
    assert LiftTopCard(s, MainPile(i), pick).Ok? by {
      HiddenLeftBacked(s, i);
      assert TakeFromMainPile(s, i, |s.piles[i].visible| - 1, pick).Ok?;
    }
    LiftFromMainPile(s, i, pick);
    l := LiftTopCard(s, MainPile(i), pick).value;
  }

  /** What a promotion builds from the lifted card `l`. */
  lemma PromoteOnto(s: GameState, src: Location, pick: nat, l: Lifted) returns (r: GameState)
    requires PickOk(s.unseenCards, pick) && !src.Foundation? && |CardsAt(s, src)| > 0
    requires LiftTopCard(s, src, pick) == Ok(l)
    ensures r == PlaceOnFoundation(l.state, l.card, s.numSteps + 1)
    ensures PromoteToFoundation(s, src, pick) == Ok(r)
  {
    r := PlaceOnFoundation(l.state, l.card, s.numSteps + 1);
  }

  lemma PromoteFromVisibleKeeps(s: GameState, pick: nat)
    requires Invariant(s) && PickOk(s.unseenCards, pick)
    requires |s.visiblePile| > 0
    requires var card := Last(s.visiblePile); PromotionAllowed(s.foundations[card.suit.Index()], card, card.suit.Index())
    ensures PromoteToFoundation(s, VisiblePile, pick).Ok?
    ensures Invariant(PromoteToFoundation(s, VisiblePile, pick).value)
  {
    LiftFromVisiblePile(s, pick);
    var l := LiftTopCard(s, VisiblePile, pick).value;
    var r := PromoteOnto(s, VisiblePile, pick, l);
    PushLiftedKeeps(s, l, r, l.card.suit.Index());
  }

  /** Moving the run of main pile `i` from `offset` on onto main pile `d`, where it fits, keeps the invariant. */
  lemma TransferKeeps(s: GameState, i: PileId, offset: nat, d: PileId, pick: nat)
    requires Invariant(s) && PickOk(s.unseenCards, pick)
    requires i != d && offset < |s.piles[i].visible|
    requires Compatible(TopMostCard(s, MainPile(d)), Some(s.piles[i].visible[offset]))
    ensures TransferBetweenPiles(s, i, offset, d, pick).Ok?
    ensures Invariant(TransferBetweenPiles(s, i, offset, d, pick).value)
  {
    HiddenLeftBacked(s, i);
    var t := TakeFromMainPile(s, i, offset, pick).value;
    TakeKeeps(s, i, offset, pick, t);
    var r := TransferOnto(s, i, offset, d, pick, t);
    TransferStateKeeps(s, i, d, t, r);
  }

  /** What a transfer builds from the run `t` taken off main pile `i`. */
  lemma TransferOnto(s: GameState, i: PileId, offset: nat, d: PileId, pick: nat, t: Taken) returns (r: GameState)
    requires PickOk(s.unseenCards, pick) && i != d && offset < |s.piles[i].visible|
    requires TakeFromMainPile(s, i, offset, pick) == Ok(t)
    ensures t.cards != [] && t.cards[0] == s.piles[i].visible[offset]
    ensures var mid := AfterTake(s, i, t); var dp := s.piles[d];
      r == mid.(piles := mid.piles[d := Pile(dp.hiddenLeft, dp.visible + t.cards)], numSteps := s.numSteps + 1)
    ensures TransferBetweenPiles(s, i, offset, d, pick) == Ok(r)
  {
    var mid := AfterTake(s, i, t);
    var dp := s.piles[d];
    r := mid.(piles := mid.piles[d := Pile(dp.hiddenLeft, dp.visible + t.cards)], numSteps := s.numSteps + 1);
  }

  /** Putting a run taken off main pile `i` onto the top of main pile `d`, where it fits, restores the invariant. */
  lemma TransferStateKeeps(s: GameState, i: PileId, d: PileId, t: Taken, r: GameState)
    requires i != d
    requires PlacedCards(AfterTake(s, i, t)) + multiset(t.cards) + multiset(t.unseen) == PlacedCards(s) + multiset(s.unseenCards)
    requires HiddenLeftTotal(AfterTake(s, i, t).piles) + |s.unseenCards| == HiddenLeftTotal(s.piles) + |t.unseen|
    requires IsRun(s.piles[i].visible) ==> IsRun(t.pile.visible) && IsRun(t.cards)
    requires t.cards != [] && Compatible(TopMostCard(s, MainPile(d)), Some(t.cards[0]))
    requires var mid := AfterTake(s, i, t); var dp := s.piles[d];
      r == mid.(piles := mid.piles[d := Pile(dp.hiddenLeft, dp.visible + t.cards)], numSteps := s.numSteps + 1)
    requires Invariant(s)
    ensures Invariant(r)
  {
    var mid := AfterTake(s, i, t);
    var dp := s.piles[d];
    assert mid.piles[d] == dp;
    PlacedPilePush(mid, r, d, t.cards);
    assert IsRun(dp.visible + t.cards) by {
      RunAppend(dp.visible, t.cards);
    }
    LiftFromMainPileRuns(s, i, mid, t.pile);
    LiftFromMainPileRuns(mid, d, r, Pile(dp.hiddenLeft, dp.visible + t.cards));
  }

  // ---------------------------------------------------------------------------------------------
  // The main theorem: every action of the universe either is refused as an illegal move or yields
  // a state that again satisfies the invariant. None of the crash paths can be reached.
  // ---------------------------------------------------------------------------------------------

  /** On an ordered foundation, the top card's suit is the foundation's own. */
  lemma FoundationTopSuit(s: GameState, f: FoundationId)
    requires FoundationsOrdered(s) && |s.foundations[f]| > 0
    ensures Last(s.foundations[f]).suit.Index() == f
  {
    var card := Last(s.foundations[f]);
    assert card.suit == SuitAt(f);
  }

  lemma ExecuteKeepsInvariant(s: GameState, a: Action, pick: nat)
    requires Invariant(s) && PickOk(s.unseenCards, pick)
    requires a in AllActions()
    ensures Execute(s, a, pick).Err? ==> Execute(s, a, pick).error.IllegalMove?
    ensures Execute(s, a, pick).Ok? ==> Invariant(Execute(s, a, pick).value)
  {
    ActionUniverse();
    match a
    case Draw => DrawKeeps(s, pick);
    case Move(src, dest) =>
      if |CardsAt(s, src)| > 0 {
        match dest
        case MainPile(d) =>
          if src.MainPile? {
            var v := s.piles[src.pileId].visible;
            match FirstCompatible(TopMostCard(s, dest), v)
            case None =>
            case Some(offset) => TransferKeeps(s, src.pileId, offset, d, pick);
          } else if Compatible(TopMostCard(s, dest), TopMostCard(s, src)) {
            SimpleMoveKeeps(s, src, d, pick);
          }
        case Foundation(d) =>
          if src.Foundation? {
            FoundationTopSuit(s, src.foundationId);
          } else {
            var card := TopMostCard(s, src).value;
            if card.suit.Index() == d && ((card.rank == Ace && s.foundations[d] == []) ||
               (s.foundations[d] != [] && Last(s.foundations[d]).rank == card.rank - 1)) {
              PromoteKeeps(s, src, pick);
            }
          }
      }
  }
}
