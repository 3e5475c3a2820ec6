# Klondike rules engine with lazy card revelation

This project models `rules.py` of rl-solitaire in Dafny. That file is the rules engine of a Klondike
solitaire environment. A game state is an immutable record with these zones:

- seven main piles, each a count of face-down cards plus a face-up run;
- four foundations, one per suit;
- the visible pile (the waste);
- the hidden pile (the stock), whose cells are either a revealed card or a placeholder with no identity yet;
- the unseen pool of cards that no placeholder or face-down tableau card has claimed yet;
- a step counter.

A card gets its identity only when it is turned face up. At that moment a random card is drawn from the
unseen pool. `execute_action` returns a new state or refuses the action. The other parts build on it:

- `is_move_legal` and `legal_actions` decide legality by a trial execution;
- `status` reports won, over budget, stuck or still in play.

Modules, in dependency order:

- `Wrappers`: `Option` and `Result`.
- `Seqs`: `Last`, `Count`, `Distinct`, `Filter`.
- `Cards`: ranks, suits, colours, cards and stock cells, the compatibility rule, runs, the 52-card deck.
- `Locations`: locations, actions, and the static action universe `ACTIONS` with its construction loop.
- `GameStates`: piles, the game state, `pop_from_tuple`, `_get_top_most_card`, `_is_won`.
- `Rules`: the transition function and its helpers, the legality oracle, and the status.
- `Invariants`: the bookkeeping of a state, and the invariant every accepted action keeps (`ExecuteKeepsInvariant`).
- `Deal`: `build_initial_game_state` over a given shuffle, and the proof that the deal satisfies the invariant.
- `Properties`: the outcome of every kind of action, and the status lemmas.

The invariant (`Invariants.Invariant`) has four parts:

- **Counting.** The size of the unseen pool equals the face-down tableau cards plus the stock placeholders.
- **Conservation.** The cards with an identity, together with the unseen pool, are exactly the 52 cards.
- **Foundations.** Foundation `i` is Ace, 2, … of suit `i`.
- **Runs.** Every face-up run is a valid tableau run.

The deal establishes it (`Deal.InitialInvariant`). Every action of `ACTIONS` then either is refused as an
illegal move or keeps it (`Invariants.ExecuteKeepsInvariant`). By induction, every reachable state
satisfies it. On those states two things follow:

- None of the source's other exceptions can occur: the defensive `assert False` and `RuntimeError` branches, and `randint` on an empty pool.
- The status is never "out of steps".

Modelling choices:

- **Random reveal.** `random.randint` in `draw_from_unseen_cards` becomes an explicit index `pick` into the unseen pool, with precondition `PickOk`: the pool is empty, or `pick` is a valid index. A transition reveals at most one card, so one index per transition suffices. The legality oracle runs the trial with index 0, which is always admissible. `Properties.LegalityIgnoresPick` shows the choice never matters for legality.
- **Exceptions.** `IllegalMove` becomes `Err(IllegalMove(reason))`. Each of the source's other exceptions becomes `Err(Crash(fault))`:
  - `UnexpectedDestination`: the `RuntimeError` at rules.py:506 and the `assert False` at rules.py:360.
  - `PromoteFromFoundation`: the `assert False` at rules.py:313.
  - `EmptyUnseenPool`: the `ValueError` that `randint(0, -1)` raises.
- **How `IsMoveLegal` treats crashes.** In the source, `is_move_legal` lets a crash propagate. `IsMoveLegal` counts it as "not legal" instead. `Invariants.ExecuteKeepsInvariant` shows no crash happens from a state that keeps the invariant, so the two agree on every reachable state.
- **Indices.** Pile and foundation indices are the subset types `PileId` (0..6) and `FoundationId` (0..3). The tableau always has seven piles and the foundations always four sequences.
- **Two facts about the code's status.**
  - A deadlock is never reported as stuck. The code never refuses a draw (rules.py:403-429): an empty stock is refilled from the visible pile, even when that pile is empty. Under the counting invariant a draw never fails (`Properties.DrawAlwaysLegal`). So `Status` never returns `OutOfSteps` on reachable states (`Properties.StatusUnderInvariant`).
  - `_is_won` (rules.py:236-242) does not look at the foundations. It checks only that the visible pile, the stock and the unseen pool are empty, and `GameStates.IsWon` models exactly that. `Properties.WonPlacesEveryCard` shows what it implies on states that keep the invariant: no card is face down, and the main piles and the foundations hold all 52 cards.

## Model

| member | source | states |
|---|---|---|
| Cards.Suit.Index | rules.py:48-53 | the suit's enum value is below 4 and picks out the same suit in enumeration order |
| Cards.Suit.Color | rules.py:49-62 | a suit is red exactly when its enum value is even: the colours alternate along Diamond, Clubs, Hearts, Spades |
| Cards.CompatibleKing | rules.py:142-156 | a card fits on an empty pile exactly when it is a King; when a card fits, the back is missing exactly when the card is a King, and a present back is never an Ace; a missing front never fits |
| Cards.CompatibleBySuit | rules.py:142-156 | a card fits on another exactly when it is one rank lower and exactly one of the two is red |
| Cards.CompatibleTable | rules.py:142-156 | worked cases: a King on an empty pile, a red six on a black seven; a missing front never fits |
| Cards.RunShape | rules.py:142-156 | in a valid run each card is one rank lower than the one below it, and the colours alternate |
| Cards.DeckUpTo | rules.py:191-194 | the deck built up to rank `r` holds `4 * r` cards |
| Cards.DeckUpToMembers | rules.py:191-194 | the deck up to rank `r` holds exactly the cards of rank at most `r`, each once |
| Cards.FullDeckComplete | rules.py:191-194 | the deck has 52 cards, without repeats, and every card occurs exactly once |
| Locations.ConstructActions | rules.py:159-181 | the nested construction loops produce exactly the action universe |
| Locations.BuildLocations | rules.py:164-172 | the location loops list the seven main piles, then the four foundations, then the visible pile |
| Locations.LocationsComplete | rules.py:164-172 | there are 12 locations and every location occurs exactly once |
| Locations.MovesFromMembers | rules.py:174-177 | the inner loop yields exactly the eligible moves from one source to the listed destinations |
| Locations.MovesFromLength | rules.py:174-177 | the inner loop skips the source itself and the visible pile as a destination, and nothing else |
| Locations.MovesFromAllMembers | rules.py:174-177 | both loops yield exactly the eligible moves among the listed locations |
| Locations.MovesFromAllLength | rules.py:174-177 | each source other than the visible pile yields 10 moves, and the visible pile yields 11 |
| Locations.MovesFromAllAreMoves | rules.py:174-177 | everything the loops yield is a move |
| Locations.ActionUniverse | rules.py:159-183 | `ACTIONS` has 122 entries: 121 moves, then the draw last; an action is in it exactly when it is the draw or a move whose source differs from its destination and whose destination is not the visible pile |
| GameStates.PopFromTuple | rules.py:229-230 | the remainder followed by the popped element is the original sequence |
| GameStates.TopMostCard | rules.py:254-266 | the top card is missing exactly when the zone is empty; otherwise it is a card of the zone, its last one |
| GameStates.TopMostCardIsPopped | rules.py:254-266 | the top card of a non-empty zone is the element `pop_from_tuple` removes, and the zone is what the pop leaves followed by that card |
| Rules.DrawFromUnseenCards | rules.py:223-227 | drawing fails exactly when the pool is empty; otherwise it returns the card at the chosen index, and the pool shrinks by exactly that card |
| Rules.TakeFromMainPile | rules.py:278-293 | the taken cards are the run from `offset` on; without a reveal the pile keeps the cards below `offset`; emptying a pile with face-down cards reveals the chosen unseen card; it fails exactly when such a reveal meets an empty pool; no card and no face-down count is lost |
| Rules.LiftTopCard | rules.py:302-311 | the lifted card is the top of the source; the lift fails exactly when it is from a main pile whose last face-up card hides face-down cards and the pool is empty, and then with the empty-pool crash; the stock and the step count are untouched |
| Rules.PromoteToFoundation | rules.py:295-324 | a foundation source is a crash; from another source it fails exactly when the lift meets an empty pool, with the empty-pool crash; on success one step is counted and the stock is untouched |
| Rules.PlaceOnFoundation | rules.py:315-316 | the card is appended to the foundation of its suit; the other foundations and every other zone are unchanged |
| Rules.SimpleMove | rules.py:326-368 | the visible pile as destination is a crash; onto a main pile or a foundation it fails exactly when the lift meets an empty pool, with the empty-pool crash; on success one step is counted and the stock is untouched |
| Rules.TransferBetweenPiles | rules.py:371-398 | it fails exactly when the take must reveal a card from an empty pool, with the empty-pool crash; on success the destination's run becomes its old run followed by the source's run from `offset` on, and one step is counted |
| Rules.FirstCompatibleFrom | rules.py:452-459 | the split point found is the first card from `i` on that fits on `back`; no such point means no card fits |
| Rules.FindTransferPoint | rules.py:452-459 | the search loop, with its early return, finds the first card that fits, or reports none |
| Rules.ExecuteDraw | rules.py:403-429 | a successful draw counts one step and leaves main piles and foundations untouched |
| Rules.Recycled | rules.py:411 | turning the visible pile over keeps its size |
| Rules.Execute | rules.py:400-506 | every accepted action counts exactly one step |
| Rules.LegalAmong | rules.py:268-269 | an action is listed exactly when it is among the candidates and legal; no more actions than the candidates |
| Rules.LegalAmongAppend | rules.py:268-269 | the filter keeps the candidates' order: the legal actions of a concatenation are those of the first part followed by those of the second, and a single candidate is kept exactly when it is legal |
| Invariants.HiddenLeftTotalUpdate | rules.py:278-293 | replacing one main pile changes the face-down total by the difference of the two counts |
| Invariants.PilesCardsUpdate | rules.py:278-293 | replacing one main pile swaps its face-up cards in the tableau's cards |
| Invariants.FoundationCardsUpdate | rules.py:315-316 | replacing one foundation swaps its cards in the foundations' cards |
| Invariants.RecycledCards | rules.py:405-411 | turning the visible pile over keeps its cards, all revealed, and adds no placeholder |
| Invariants.RecycledStep | rules.py:411 | the turned-over pile holds the bottom card of the visible pile as a revealed card on top of the rest turned over |
| Invariants.RunAppend | rules.py:380-383 | putting a run that fits on the top of a run gives a run |
| Invariants.RunSlice | rules.py:288-292 | any slice of a run is a run |
| Invariants.PlacedPileUpdate | rules.py:388-390 | replacing a main pile swaps its run in the placed cards and its face-down count in the total |
| Invariants.PlacedPilePush | rules.py:349-352 | cards put on a main pile join the placed cards; the face-down total is unchanged |
| Invariants.PlacedFoundationUpdate | rules.py:315-316 | replacing a foundation swaps its cards in the placed cards |
| Invariants.PlacedFoundationPop | rules.py:340-342 | taking the top of a foundation removes exactly that card from the placed cards |
| Invariants.PlacedFoundationPush | rules.py:315-316 | a card put on a foundation joins the placed cards |
| Invariants.TakeKeeps | rules.py:278-293 | a take conserves cards and the counting, and leaves runs on the pile and in hand |
| Invariants.LiftFromMainPile | rules.py:302-308 | lifting the top of a main pile conserves cards and the counting and keeps foundations and runs |
| Invariants.TakenLiftKeeps | rules.py:302-308 | a take of a single top card that conserves the cards and the counting yields a lift that keeps the bookkeeping, the foundations and the runs |
| Invariants.LiftFromMainPileRuns | rules.py:302-308 | replacing a main pile by a run keeps every run valid |
| Invariants.LiftFromFoundation | rules.py:340-342 | lifting the top of a foundation always succeeds and keeps the bookkeeping, the order and the runs |
| Invariants.FoundationPopKeeps | rules.py:340-342 | the state with the top of a foundation removed keeps the bookkeeping, the order and the runs |
| Invariants.LiftFromVisiblePile | rules.py:310-311 | lifting the top of the visible pile always succeeds and keeps the bookkeeping |
| Invariants.HiddenLeftBacked | rules.py:282-286 | under the counting invariant every face-down card of a pile is backed by an unseen card |
| Invariants.RecycleConserves | rules.py:404-411 | refilling the stock from the visible pile keeps the placed cards and adds no placeholder |
| Invariants.DrawStockConserves | rules.py:412-427 | showing a revealed stock card keeps the placed cards; showing a placeholder adds exactly the drawn card and consumes one placeholder |
| Invariants.DrawKeeps | rules.py:403-429 | under the invariant a draw never fails and keeps the invariant |
| Invariants.RecycleKeeps | rules.py:404-411 | refilling the stock from the visible pile keeps the invariant |
| Invariants.DrawKnownKeeps | rules.py:413-427 | showing a revealed stock card keeps the invariant |
| Invariants.DrawUnknownKeeps | rules.py:413-427 | showing a placeholder as a card that leaves the unseen pool keeps the invariant |
| Invariants.SimpleMoveKeeps | rules.py:466-477 | a single card that fits, moved from a foundation or the visible pile onto a main pile, keeps the invariant |
| Invariants.SimpleMoveOnto | rules.py:326-352 | a single-card move from a foundation or the visible pile appends the lifted top card to the destination pile, leaves the main piles otherwise as they were, and counts one step |
| Invariants.PushOntoPileKeeps | rules.py:347-352 | putting a lifted card on a main pile it fits restores the invariant |
| Invariants.FoundationPushOrdered | rules.py:485-503 | a card the promotion checks accept extends an ordered foundation in order |
| Invariants.FoundationsPushOrdered | rules.py:315-316 | promotion keeps all four foundations ordered |
| Invariants.PushLiftedKeeps | rules.py:315-324 | placing a lifted card on its foundation, when allowed, restores the invariant |
| Invariants.PromoteKeeps | rules.py:481-503 | an allowed promotion from a main pile or the visible pile succeeds and keeps the invariant |
| Invariants.PromoteFromPileKeeps | rules.py:302-308 | an allowed promotion from a main pile succeeds and keeps the invariant |
| Invariants.PromoteFromPileShape | rules.py:302-308 | under the invariant the lift from a main pile succeeds with its top card, keeps the bookkeeping and leaves the foundations as they were |
| Invariants.PromoteOnto | rules.py:295-324 | a promotion from a main pile or the visible pile yields the lifted state with the card on the foundation of its suit and one step counted |
| Invariants.PromoteFromVisibleKeeps | rules.py:310-311 | an allowed promotion from the visible pile succeeds and keeps the invariant |
| Invariants.TransferKeeps | rules.py:449-464 | moving a run, split at a card that fits, onto another main pile succeeds and keeps the invariant |
| Invariants.TransferOnto | rules.py:371-398 | a transfer yields the source pile after the take, the destination with the taken run appended, the pool after the take, and one step counted |
| Invariants.TransferStateKeeps | rules.py:371-398 | putting a run taken off one main pile onto another it fits restores the invariant |
| Invariants.FoundationTopSuit | rules.py:486-488 | the top card of an ordered foundation belongs to that foundation's suit |
| Invariants.ExecuteKeepsInvariant | rules.py:400-506 | from a state keeping the invariant, every action of `ACTIONS`, for every choice of revealed card, is refused only as an illegal move and otherwise yields a state keeping the invariant |
| Deal.NewDeck | rules.py:191-194 | the building loops produce the deck rank by rank, each rank in suit order |
| Deal.DealtPiles | rules.py:204-207 | main pile `i` has `i` face-down cards and shows the `i`-th card from the end of the shuffled deck |
| Deal.Placeholders | rules.py:202 | the stock of `n` placeholders holds only placeholders, stands for `n` unseen cards, and holds no revealed card |
| Deal.BuildInitialGameState | rules.py:190-217 | the dealing loop yields the initial state, with 45 cards left unseen |
| Deal.DealtPilesCards | rules.py:204-207 | the dealt piles show exactly the last cards of the deck |
| Deal.DealtPilesStep | rules.py:204-207 | dealing one more pile adds exactly the next card from the end of the deck to the face-up cards |
| Deal.DealtPilesHidden | rules.py:204-207 | the first `n` dealt piles keep `n * (n - 1) / 2` cards face down |
| Deal.EmptyFoundationCards | rules.py:200 | empty foundations hold no cards |
| Deal.InitialBookkeeping | rules.py:199-210 | the deal keeps every card of the shuffled deck: 7 face up and 45 unseen; the 45 back the 21 face-down cards and the 24 placeholders |
| Deal.InitialInvariant | rules.py:190-217 | the deal of any shuffle of the 52 cards satisfies the invariant |
| Deal.InitialStatus | rules.py:244-252 | a fresh deal is neither won nor over budget, and the draw is legal, so it is still in play |
| Properties.DrawOutcome | rules.py:403-429 | covers each draw case: an empty stock is refilled with the visible pile turned over and the visible pile emptied; a revealed top is shown as it is; a placeholder shows the chosen unseen card, which leaves the pool; only a placeholder meeting an empty pool fails |
| Invariants.RecycledTail | rules.py:411 | the top of the turned-over pile is the bottom card of the visible pile, and the rest is the remainder turned over |
| Properties.DrawThrough | rules.py:412-427 | drawing through a turned-over stock appends its cards to the visible pile in their original order |
| Properties.RecycleRestoresVisiblePile | rules.py:403-429 | refilling the stock and drawing it through restores the visible pile and the stock; only the step count differs |
| Properties.FullPass | rules.py:403-429 | proof helper: on an empty stock the first draw turns the visible pile over, and the next draws restore it |
| Properties.DrawOnEmptyStock | rules.py:404-411 | proof helper: a draw on an empty stock yields the visible pile turned over as the stock, an empty visible pile and one step counted |
| Properties.DrawTimesStep | rules.py:403-429 | proof helper: a draw that yields `t`, followed by `k - 1` draws from `t` that end in `u`, is `k` draws from `s` ending in `u` |
| Properties.MoveFromEmptySource | rules.py:436-447 | a move from an empty main pile, foundation or visible pile is refused as empty |
| Properties.WithoutTop | rules.py:340-345 | removing the top of a foundation or the visible pile leaves that zone's other cards, the other three foundations and every other zone unchanged |
| Properties.SingleCardOntoPile | rules.py:466-477 | a card from a foundation or the visible pile is accepted onto a main pile exactly when the source is not empty and the card fits; then exactly that card moves, and nothing else changes |
| Properties.PileAfterTake | rules.py:278-293 | proof helper: a take reveals a card exactly when it lowers the face-down count, by one |
| Properties.PoolAfterTake | rules.py:280-293 | proof helper: the pool loses exactly the revealed card, or is unchanged when nothing is revealed |
| Properties.TakeOutcome | rules.py:278-293 | a take that is not starved succeeds with the new pile, the new pool and the run from `offset` on |
| Properties.PromotionFromVisibleOutcome | rules.py:481-503 | from the visible pile, acceptance is exactly: a top card of the foundation's suit that is the Ace onto an empty foundation or the next rank up; every refusal is an illegal move; on success that card leaves the visible pile for the foundation and nothing else changes |
| Properties.PromotionFromPileOutcome | rules.py:481-503 | from a main pile, acceptance is exactly: a top card of the foundation's suit that is the Ace onto an empty foundation or the next rank up, and no reveal from an empty pool; refused as illegal exactly when the pile is empty or the card does not fit; on success the card goes to the foundation, the pile and the pool are as the take leaves them, and the stock and the visible pile are unchanged |
| Properties.FoundationDispatch | rules.py:481-503 | onto a foundation, a card that fits is handed to the promotion, and any other is refused as illegal |
| Properties.LiftWithoutStarving | rules.py:302-308 | lifting the top of a main pile with no starved reveal yields the pile and the pool as the take leaves them, and the pile's top card |
| Properties.FoundationToFoundationRefused | rules.py:295-313 | with ordered foundations every move from a foundation onto a foundation is refused as illegal, so the defensive assertion is never reached |
| Properties.TransferRefused | rules.py:449-464 | when no card of the source run fits on the destination, the transfer is refused as illegal |
| Properties.TransferOutcome | rules.py:371-398 | at the first card that fits, the run is moved onto the destination, and the source keeps the cards below or reveals a card; no other zone changes; it fails exactly when a reveal meets an empty pool |
| Properties.FirstCompatibleIsFirst | rules.py:453-459 | the search returns the first card that fits, whenever one does |
| Properties.LegalityIgnoresPick | rules.py:271-276 | whether an action is accepted, and why it is refused, does not depend on which unseen card a reveal draws |
| Properties.IsMoveLegalMeansAccepted | rules.py:271-276 | the oracle's answer is whether the action is accepted for any admissible choice of revealed card |
| Properties.LegalActionsEndWithDraw | rules.py:268-269 | `legal_actions` lists the legal moves in the order of `ACTIONS`, followed by the draw when it is legal, which is then the last entry |
| Properties.DrawAlwaysLegal | rules.py:268-276 | under the counting invariant the draw is legal and is among the legal actions |
| Properties.StatusUnderInvariant | rules.py:244-252 | under the counting invariant the status is never out of steps, and it is decided by two tests: won; else over budget exactly when more than 50000 steps were taken; else not finished |
| Properties.WonPlacesEveryCard | rules.py:235-242 | a won state has no face-down card left, and the main piles and foundations hold all 52 cards |

## Left out

- Text rendering is not modelled: every `pprint` method and the board renderer (rules.py:33-41, 55-56, 73-74, 81-82, 508-546) only format text.
- The numpy seeding and shuffle (rules.py:196-197) are not modelled. `Deal.BuildInitialGameState` takes the shuffled deck as its input, and `Deal.InitialInvariant` requires it to be a permutation of the 52 cards.
- `random.randint` (rules.py:225) is not modelled. The index it would return is the parameter `pick`.
- Rules.IsMoveLegal: counts a crash as "not legal", where the source's `is_move_legal` would let the exception propagate. On states that keep the invariant no crash occurs. It carries no contract of its own; `Properties.IsMoveLegalMeansAccepted` and `Properties.LegalityIgnoresPick` state what it means.
- Rules.LegalActions: carries no contract of its own. `Rules.LegalAmong`, `Rules.LegalAmongAppend`, `Properties.LegalActionsEndWithDraw` and `Properties.DrawAlwaysLegal` state which actions it lists and in which order.
- Cards.Compatible: carries no contract of its own, as a predicate. `Cards.CompatibleKing`, `Cards.CompatibleBySuit` and `Cards.CompatibleTable` state when it holds.
- Locations.AllActions: carries no contract of its own. `Locations.ActionUniverse` states its length, order and members, and `Locations.ConstructActions` shows the construction loops build it.
- Rules.FirstCompatible: carries no contract of its own. `Rules.FirstCompatibleFrom`'s ensures state what the search from 0 returns, `Rules.FindTransferPoint` shows the loop of rules.py:452-459 computes it, and `Properties.FirstCompatibleIsFirst` shows it is the first card that fits.
- Deal.InitialState: carries no contract of its own. `Deal.BuildInitialGameState` shows the dealing loop builds it, and `Deal.InitialInvariant`, `Deal.InitialBookkeeping` and `Deal.InitialStatus` state its properties.
- `Rules.Status` and `GameStates.IsWon` carry no contract of their own. Their properties are stated by `Properties.StatusUnderInvariant`, `Properties.WonPlacesEveryCard` and `Deal.InitialStatus`.
- The list-versus-tuple difference of the foundations (rules.py:200, 316, 357) is not modelled: both are sequences here. The concatenation at rules.py:357 of a list with a tuple would fail in the source, but it sits on the foundation-destination branch of `_simple_move`, which `execute_action` never takes.
- `IntEnum` and `namedtuple` plumbing and the `__eq__`/`__repr__` boilerplate (rules.py:87-139) are not modelled. Structural equality of datatypes replaces them.
- The dynamic type assertions (rules.py:146-149, 375-376, 401, 417-418) are not modelled. Closed datatypes make them hold by construction.
- The value assertions at rules.py:307, 337 and 386 are not written as checks. `Rules.TakeFromMainPile` ensures the taken cards are the run from `offset` on, so lifting the top card takes exactly one card, and a transfer takes exactly `visible[src_offset:]`.
- A self-transfer `Move(MainPile(i), MainPile(i))` is not in `ACTIONS`. The lemmas about transfers assume two different piles.
- Reachability is not defined as a predicate. It follows by induction from `Deal.InitialInvariant` and `Invariants.ExecuteKeepsInvariant`.
- GameStates.TopMostCard: requires a non-empty zone unless the zone is a main pile. On an empty foundation or visible pile the source raises `IndexError`. Every caller checks emptiness first (rules.py:437-447).
