/**
 * Addressable zones and actions (rules.py:87-139), and the fixed universe of syntactically possible
 * actions (`_construct_actions` / `ACTIONS`, rules.py:159-183).
 */
module Locations {
  import opened Seqs

  type PileId = i: int | 0 <= i < 7
  type FoundationId = i: int | 0 <= i < 4

  /** A tableau pile, a foundation, or the visible (waste) pile. */
  datatype Location = MainPile(pileId: PileId) | Foundation(foundationId: FoundationId) | VisiblePile

  datatype Action = Move(src: Location, dest: Location) | Draw

  /** The locations in construction order: the 7 main piles, the 4 foundations, then the visible pile. */
  function AllLocations(): (ls: seq<Location>)
  {
    seq(7, i requires 0 <= i < 7 => MainPile(i)) + seq(4, i requires 0 <= i < 4 => Foundation(i)) + [VisiblePile]
  }

  /** Whether `Move(src, dest)` belongs to the action universe. */
  predicate Eligible(src: Location, dest: Location)
  {
    src != dest && !dest.VisiblePile?
  }

  /** The moves out of `src`, for the destinations `dests` in order (the inner loop of rules.py:174-177). */
  function MovesFrom(src: Location, dests: seq<Location>): seq<Action>
  {
    if dests == [] then []
    else
      var last := dests[|dests| - 1];
      MovesFrom(src, dests[..|dests| - 1]) + (if Eligible(src, last) then [Move(src, last)] else [])
  }

  /** The moves out of every source in `srcs`, grouped by source in order (both loops of rules.py:174-177). */
  function MovesFromAll(srcs: seq<Location>, dests: seq<Location>): seq<Action>
  {
    if srcs == [] then []
    else MovesFromAll(srcs[..|srcs| - 1], dests) + MovesFrom(srcs[|srcs| - 1], dests)
  }

  /** `ACTIONS`: every eligible move, grouped by source, and the draw last. */
  function AllActions(): seq<Action>
  {
    MovesFromAll(AllLocations(), AllLocations()) + [Draw]
  }

  /** `_construct_actions`: the location list is built, then the nested loops append every eligible move. */
  method ConstructActions() returns (actions: seq<Action>)
    ensures actions == AllActions()
  {
    var locations := BuildLocations();
    actions := [];
    for a := 0 to |locations|
      invariant actions == MovesFromAll(locations[..a], locations)
    {
      for b := 0 to |locations|
        invariant actions == MovesFromAll(locations[..a], locations) + MovesFrom(locations[a], locations[..b])
      {
        if locations[a] != locations[b] && !locations[b].VisiblePile? {
          actions := actions + [Move(locations[a], locations[b])];
        }
        assert locations[..b + 1][..b] == locations[..b];
      }
      assert locations[..a + 1][..a] == locations[..a];
      assert locations[..|locations|] == locations;
    }
    assert locations[..|locations|] == locations;
    actions := actions + [Draw];
  }

  /** The first half of `_construct_actions`: the main piles, then the foundations, then the visible pile. */
  method BuildLocations() returns (locations: seq<Location>)
    ensures locations == AllLocations()
  {
    locations := [];
    for i := 0 to 7
      invariant locations == seq(i, j requires 0 <= j < i => MainPile(j))
    {
      locations := locations + [MainPile(i)];
    }
    for i := 0 to 4
      invariant locations == seq(7, j requires 0 <= j < 7 => MainPile(j)) + seq(i, j requires 0 <= j < i => Foundation(j))
    {
      locations := locations + [Foundation(i)];
    }
    locations := locations + [VisiblePile];
  }

  /** Every location occurs exactly once in `AllLocations()`. */
  lemma LocationsComplete(l: Location)
    ensures |AllLocations()| == 12
    ensures l in AllLocations()
    ensures Count(l, AllLocations()) == 1
  {
    var ls := AllLocations();
    match l {
      case MainPile(i) => assert ls[i] == l;
      case Foundation(i) => assert ls[7 + i] == l;
      case VisiblePile => assert ls[11] == l;
    }
    assert Distinct(ls);
    CountDistinct(l, ls);
  }

  /** The moves out of `src` are exactly the eligible moves from `src` to a location of `dests`. */
  lemma {:induction false} MovesFromMembers(src: Location, dests: seq<Location>, a: Action)
    ensures a in MovesFrom(src, dests) <==> a.Move? && a.src == src && a.dest in dests && Eligible(src, a.dest)
  {
    if dests != [] {
      var init := dests[..|dests| - 1];
      MovesFromMembers(src, init, a);
      assert dests == init + [dests[|dests| - 1]];
    }
  }

  /** Every destination except `src` itself and the visible pile yields one move. */
  lemma {:induction false} MovesFromLength(src: Location, dests: seq<Location>)
    ensures |MovesFrom(src, dests)| + Count(src, dests) + (if src.VisiblePile? then 0 else Count(VisiblePile, dests)) == |dests|
  {
    if dests != [] {
      MovesFromLength(src, dests[..|dests| - 1]);
    }
  }

  /** The moves out of several sources: exactly the eligible moves whose source is among them. */
  lemma {:induction false} MovesFromAllMembers(srcs: seq<Location>, dests: seq<Location>, a: Action)
    ensures a in MovesFromAll(srcs, dests) <==> a.Move? && a.src in srcs && a.dest in dests && Eligible(a.src, a.dest)
  {
    if srcs != [] {
      var init := srcs[..|srcs| - 1];
      MovesFromAllMembers(init, dests, a);
      MovesFromMembers(srcs[|srcs| - 1], dests, a);
      assert srcs == init + [srcs[|srcs| - 1]];
    }
  }

  /** Ten moves leave every location except the visible pile, from which eleven leave. */
  lemma {:induction false} MovesFromAllLength(srcs: seq<Location>)
    ensures |MovesFromAll(srcs, AllLocations())| == 10 * |srcs| + Count(VisiblePile, srcs)
  {
    if srcs != [] {
      var src := srcs[|srcs| - 1];
      MovesFromAllLength(srcs[..|srcs| - 1]);
      MovesFromLength(src, AllLocations());
      LocationsComplete(src);
      LocationsComplete(VisiblePile);
    }
  }

  /** Every element of `MovesFromAll` is a move. */
  lemma {:induction false} MovesFromAllAreMoves(srcs: seq<Location>, dests: seq<Location>, k: nat)
    requires k < |MovesFromAll(srcs, dests)|
    ensures MovesFromAll(srcs, dests)[k].Move?
  {
    MovesFromAllMembers(srcs, dests, MovesFromAll(srcs, dests)[k]);
  }

  /**
   * `ACTIONS` holds 121 moves (10 out of each of the 11 piles and foundations, 11 out of the visible pile)
   * followed by the draw, and a move belongs to it exactly when its source and destination differ and its
   * destination is not the visible pile.
   */
  lemma ActionUniverse()
    ensures |AllActions()| == 122
    ensures AllActions()[121] == Draw
    ensures forall k :: 0 <= k < 121 ==> AllActions()[k].Move?
    ensures forall a :: a in AllActions() <==> a == Draw || (a.Move? && a.src != a.dest && !a.dest.VisiblePile?)
  {
    MovesFromAllLength(AllLocations());
    LocationsComplete(VisiblePile);
    forall k | 0 <= k < 121 ensures AllActions()[k].Move? {
      MovesFromAllAreMoves(AllLocations(), AllLocations(), k);
    }
    forall a ensures a in AllActions() <==> a == Draw || (a.Move? && a.src != a.dest && !a.dest.VisiblePile?) {
      MovesFromAllMembers(AllLocations(), AllLocations(), a);
      if a.Move? {
        LocationsComplete(a.src);
        LocationsComplete(a.dest);
      }
    }
  }
}
