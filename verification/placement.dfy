/**
 * Properties of ship placement and of the full consistency check: what
 * placement accepts, that it keeps a fleet well formed, and that a
 * consistent board holds exactly one ship of each of the five types.
 */
module PlacementFacts {
  import opened Wrappers
  import opened Geometry
  import opened Ships
  import opened Boards

  /** A ship lies in bounds iff its first and last cells do: what placement tests. */
  lemma ShipInBoundsByEnds(s: Ship)
    ensures ShipInBounds(s) <==> InBounds(s.position) && InBounds(Step(s.position, s.direction, Size(s.shipType) - 1))
  {
    var n := Size(s.shipType);
    var cs := Coordinates(s);
    if InBounds(s.position) && InBounds(Step(s.position, s.direction, n - 1)) {
      forall c | c in cs ensures InBounds(c) {
        CoordinatesIff(s, c);
      }
    } else {
      assert cs[0] == s.position && cs[n - 1] == Step(s.position, s.direction, n - 1);
    }
  }

  lemma DisjointSymmetric(a: Ship, b: Ship)
    ensures Disjoint(a, b) <==> Disjoint(b, a)
  {
  }

  /** Only the hit mask distinguishes two ships that cover the same cells. */
  lemma CoordinatesIgnoreHits(s: Ship, h: bv8)
    ensures Coordinates(s.(hits := h)) == Coordinates(s)
  {
  }

  /**
   * A placement succeeds iff it is placeable; a success appends exactly one
   * unhit ship, a failure changes nothing, and either way a well-formed
   * fleet stays well formed.
   */
  lemma PlacePreservesFleet(ships: seq<Ship>, q: Placement)
    requires WellFormedFleet(ships)
    ensures Place(ships, q).0 <==> Placeable(ships, q.shipType, q.position, q.direction)
    ensures Place(ships, q).0 ==> Place(ships, q).1 == ships + [NewShip(q.shipType, q.position, q.direction)]
    ensures !Place(ships, q).0 ==> Place(ships, q).1 == ships
    ensures WellFormedFleet(Place(ships, q).1)
  {
    if Placeable(ships, q.shipType, q.position, q.direction) {
      var s := NewShip(q.shipType, q.position, q.direction);
      var post := ships + [s];
      ShipInBoundsByEnds(s);
      forall k, l | 0 <= k < l < |post| ensures Compatible(post[k], post[l]) {
        if l == |ships| {
          assert post[k] == ships[k];
          assert ships[k].shipType in TypesOf(ships);
          DisjointSymmetric(s, ships[k]);
        }
      }
    }
  }

  /**
   * Placing ships in order keeps the fleet well formed, keeps every earlier
   * ship in place, adds only unhit ships, and reports success iff every
   * single placement succeeded, that is iff the fleet grew by one per request.
   */
  lemma {:induction false} PlaceAllPreservesFleet(ships: seq<Ship>, reqs: seq<Placement>)
    requires WellFormedFleet(ships)
    ensures WellFormedFleet(PlaceAll(ships, reqs).1)
    ensures |ships| <= |PlaceAll(ships, reqs).1| <= |ships| + |reqs|
    ensures PlaceAll(ships, reqs).1[..|ships|] == ships
    ensures forall k :: |ships| <= k < |PlaceAll(ships, reqs).1| ==> PlaceAll(ships, reqs).1[k].hits == 0
    ensures PlaceAll(ships, reqs).0 <==> |PlaceAll(ships, reqs).1| == |ships| + |reqs|
    decreases |reqs|
  {
    if |reqs| > 0 {
      var init := reqs[..|reqs| - 1];
      PlaceAllPreservesFleet(ships, init);
      var pre := PlaceAll(ships, init).1;
      PlacePreservesFleet(pre, reqs[|reqs| - 1]);
      var post := Place(pre, reqs[|reqs| - 1]).1;
      assert post[..|pre|] == pre;
      assert post[..|ships|] == pre[..|ships|];
    }
  }

  /**
   * Placing in order is not atomic: the fleet after the first `i` requests is
   * a prefix of the fleet after all of them, so the ships placed before a
   * failing request stay.
   */
  lemma {:induction false} PlaceAllKeepsEarlierPlacements(ships: seq<Ship>, reqs: seq<Placement>, i: nat)
    requires i <= |reqs|
    ensures PlaceAll(ships, reqs[..i]).1 <= PlaceAll(ships, reqs).1
    decreases |reqs|
  {
    if i < |reqs| {
      var init := reqs[..|reqs| - 1];
      assert init[..i] == reqs[..i];
      PlaceAllKeepsEarlierPlacements(ships, init, i);
    } else {
      assert reqs[..i] == reqs;
    }
  }

  /** Any sequence of placements on a new game state yields a well-formed fleet of unhit ships. */
  lemma PlacementsFromNewAreWellFormed(reqs: seq<Placement>)
    ensures WellFormedFleet(PlaceAll([], reqs).1)
    ensures forall k :: 0 <= k < |PlaceAll([], reqs).1| ==> PlaceAll([], reqs).1[k].hits == 0
  {
    PlaceAllPreservesFleet([], reqs);
  }

  /** The types of a fleet are those of all but its last ship plus the last ship's type. */
  lemma TypesOfSnoc(ships: seq<Ship>)
    requires |ships| > 0
    ensures TypesOf(ships) == TypesOf(ships[..|ships| - 1]) + {ships[|ships| - 1].shipType}
  {
    var init := ships[..|ships| - 1];
    forall t | t in TypesOf(ships) ensures t in TypesOf(init) + {ships[|ships| - 1].shipType} {
      var k :| 0 <= k < |ships| && ships[k].shipType == t;
      if k < |init| { assert init[k] == ships[k]; }
    }
    forall t | t in TypesOf(init) ensures t in TypesOf(ships) {
      var k :| 0 <= k < |init| && init[k].shipType == t;
      assert ships[k] == init[k];
    }
  }

  /** In a fleet of pairwise distinct types there are as many types as ships. */
  lemma {:induction false} DistinctTypesCount(ships: seq<Ship>)
    requires forall k, l :: 0 <= k < l < |ships| ==> ships[k].shipType != ships[l].shipType
    ensures |TypesOf(ships)| == |ships|
    decreases |ships|
  {
    if |ships| > 0 {
      var init := ships[..|ships| - 1];
      var last := ships[|ships| - 1].shipType;
      DistinctTypesCount(init);
      assert last !in TypesOf(init) by {
        forall k | 0 <= k < |init| ensures init[k].shipType != last {
          assert init[k] == ships[k];
        }
      }
      TypesOfSnoc(ships);
    }
  }

  /** A consistent board holds exactly five ships, one of each type. */
  lemma ConsistentHasFiveShips(b: Board)
    requires Consistent(b)
    ensures |b.ships| == NumShips
  {
    DistinctTypesCount(b.ships);
    var all := {Carrier, Battleship, Cruiser, Submarine, Destroyer};
    forall t | t in TypesOf(b.ships) ensures t in all {
      assert t.Carrier? || t.Battleship? || t.Cruiser? || t.Submarine? || t.Destroyer?;
    }
    assert all <= TypesOf(b.ships) by {
      forall t | t in all ensures t in TypesOf(b.ships) { }
    }
    assert TypesOf(b.ships) == all;
  }

  /** A well-formed fleet has at most five ships. */
  lemma WellFormedFleetAtMostFive(ships: seq<Ship>)
    requires WellFormedFleet(ships)
    ensures |ships| <= NumShips
  {
    DistinctTypesCount(ships);
    var all := {Carrier, Battleship, Cruiser, Submarine, Destroyer};
    forall t | t in TypesOf(ships) ensures t in all {
      assert t.Carrier? || t.Battleship? || t.Cruiser? || t.Submarine? || t.Destroyer?;
    }
    SubsetCard(TypesOf(ships), all);
  }

  lemma SubsetCard<T>(a: set<T>, b: set<T>)
    requires a <= b
    ensures |a| <= |b|
  {
    assert b == a + (b - a);
  }

  /** A Carrier lying along the last row fits from column 5 but not from column 6. */
  lemma BoundaryPlacement()
    ensures Placeable([], Carrier, Position(5, 9), Horizontal)
    ensures !Placeable([], Carrier, Position(6, 9), Horizontal)
  {
  }

  /** After a Carrier at (0,0) across, a Battleship down from (0,0) overlaps it and one down from (0,1) does not. */
  lemma OverlapDetection()
    ensures Placeable([], Carrier, Position(0, 0), Horizontal)
    ensures !Placeable([NewShip(Carrier, Position(0, 0), Horizontal)], Battleship, Position(0, 0), Vertical)
    ensures Placeable([NewShip(Carrier, Position(0, 0), Horizontal)], Battleship, Position(0, 1), Vertical)
  {
    var c := NewShip(Carrier, Position(0, 0), Horizontal);
    var b0 := NewShip(Battleship, Position(0, 0), Vertical);
    assert Coordinates(b0)[0] == Position(0, 0) && Coordinates(c)[0] == Position(0, 0);
    assert Position(0, 0) in Coordinates(b0) && Position(0, 0) in Coordinates(c);
    assert !Disjoint(b0, [c][0]);
    var b1 := NewShip(Battleship, Position(0, 1), Vertical);
    forall p | p in Coordinates(b1) ensures p !in Coordinates(c) {
      CoordinatesIff(b1, p);
      CoordinatesIff(c, p);
    }
  }

  /**
   * The first fit is first: every listed position before the one chosen fits
   * in neither direction, and down is chosen only where across does not fit.
   */
  lemma {:induction false} FirstFitIsFirst(ships: seq<Ship>, t: ShipType, positions: seq<Position>)
    requires FirstFit(ships, t, positions).Some?
    ensures var q := FirstFit(ships, t, positions).value;
      exists i :: 0 <= i < |positions| && positions[i] == q.position
        && (forall j, d :: 0 <= j < i ==> !Placeable(ships, t, positions[j], d))
        && (q.direction == Vertical ==> !Placeable(ships, t, positions[i], Horizontal))
    decreases |positions|
  {
    var q := FirstFit(ships, t, positions).value;
    if !Placeable(ships, t, positions[0], Horizontal) && !Placeable(ships, t, positions[0], Vertical) {
      var rest := positions[1..];
      FirstFitIsFirst(ships, t, rest);
      var i :| 0 <= i < |rest| && rest[i] == q.position
        && (forall j, d :: 0 <= j < i ==> !Placeable(ships, t, rest[j], d))
        && (q.direction == Vertical ==> !Placeable(ships, t, rest[i], Horizontal));
      assert forall j :: 0 <= j < i ==> rest[j] == positions[j + 1];
      assert positions[i + 1] == q.position;
      forall j, d | 0 <= j < i + 1 ensures !Placeable(ships, t, positions[j], d) {
        if j > 0 {
          assert positions[j] == rest[j - 1];
        }
      }
    } else {
      assert positions[0] == q.position;
    }
  }

  /** Once the first-fit placement of the first `m` types has failed, it fails for more types too. */
  lemma {:induction false} FirstFitFleetNoneStays(positions: seq<Position>, m: nat, n: nat)
    requires m <= n <= NumShips && FirstFitFleet(positions, m).None?
    ensures FirstFitFleet(positions, n).None?
    decreases n
  {
    if m < n {
      FirstFitFleetNoneStays(positions, m, n - 1);
    }
  }

  /** Once a type fits nowhere beside the fleet placed before it, the first-fit placement of it and all later types fails. */
  lemma FirstFitFleetStuck(positions: seq<Position>, i: nat, n: nat)
    requires i < n <= NumShips && FirstFitFleet(positions, i).Some?
    requires FirstFit(FirstFitFleet(positions, i).value, AllTypes[i], positions).None?
    ensures FirstFitFleet(positions, n).None?
  {
    assert FirstFitFleet(positions, i + 1).None?;
    FirstFitFleetNoneStays(positions, i + 1, n);
  }

  /** First-fit placement fails only when some type fits nowhere beside the types placed before it. */
  lemma {:induction false} FirstFitFleetFailsOnlyWhenStuck(positions: seq<Position>, n: nat)
    requires n <= NumShips && FirstFitFleet(positions, n).None?
    ensures
      exists i :: 0 <= i < n && FirstFitFleet(positions, i).Some?
        && FitsNowhere(FirstFitFleet(positions, i).value, AllTypes[i], positions)
  {
    if FirstFitFleet(positions, n - 1).None? {
      FirstFitFleetFailsOnlyWhenStuck(positions, n - 1);
    } else {
      assert FitsNowhere(FirstFitFleet(positions, n - 1).value, AllTypes[n - 1], positions);
    }
  }

  /**
   * First-fit placement of the five types fails exactly when, for some type,
   * no listed position fits it in either direction beside the types placed
   * before it.
   */
  lemma FirstFitFleetFailure(positions: seq<Position>, n: nat)
    requires n <= NumShips
    ensures FirstFitFleet(positions, n).None? <==>
      exists i :: 0 <= i < n && FirstFitFleet(positions, i).Some?
        && FitsNowhere(FirstFitFleet(positions, i).value, AllTypes[i], positions)
  {
    if FirstFitFleet(positions, n).None? {
      FirstFitFleetFailsOnlyWhenStuck(positions, n);
    } else if i :| (0 <= i < n && FirstFitFleet(positions, i).Some?
        && FitsNowhere(FirstFitFleet(positions, i).value, AllTypes[i], positions)) {
      FirstFitFleetStuck(positions, i, n);
    }
  }

  /**
   * A first-fit fleet of the first `n` types holds exactly those types in
   * canonical order, at listed positions, unhit, and is well formed.
   */
  lemma {:induction false} FirstFitFleetWellFormed(positions: seq<Position>, n: nat)
    requires n <= NumShips && FirstFitFleet(positions, n).Some?
    ensures var f := FirstFitFleet(positions, n).value;
      && |f| == n && WellFormedFleet(f)
      && forall k :: 0 <= k < n ==> f[k].shipType == AllTypes[k] && f[k].position in positions && f[k].hits == 0
  {
    if n > 0 {
      FirstFitFleetWellFormed(positions, n - 1);
      var pre := FirstFitFleet(positions, n - 1).value;
      var q := FirstFit(pre, AllTypes[n - 1], positions).value;
      assert FirstFitFleet(positions, n) == Some(pre + [NewShip(q.shipType, q.position, q.direction)]);
      ExtendCanonicalFleet(positions, pre, q);
    }
  }

  /** A placeable ship of the next type in canonical order extends a canonical, well-formed, unhit fleet. */
  lemma ExtendCanonicalFleet(positions: seq<Position>, pre: seq<Ship>, q: Placement)
    requires |pre| < NumShips && WellFormedFleet(pre)
    requires forall k :: 0 <= k < |pre| ==>
      pre[k].shipType == AllTypes[k] && pre[k].position in positions && pre[k].hits == 0
    requires q.shipType == AllTypes[|pre|] && q.position in positions
    requires Placeable(pre, q.shipType, q.position, q.direction)
    ensures var f := pre + [NewShip(q.shipType, q.position, q.direction)];
      && WellFormedFleet(f)
      && forall k :: 0 <= k < |f| ==> f[k].shipType == AllTypes[k] && f[k].position in positions && f[k].hits == 0
  {
    var f := pre + [NewShip(q.shipType, q.position, q.direction)];
    PlacePreservesFleet(pre, q);
    assert Place(pre, q).1 == f;
    forall k | 0 <= k < |f| ensures f[k].shipType == AllTypes[k] && f[k].position in positions && f[k].hits == 0 {
      if k < |pre| {
        assert f[k] == pre[k];
      }
    }
  }

  /** A board holding a complete first-fit fleet is consistent, with the five types in canonical order, unhit. */
  lemma FirstFitFleetConsistent(positions: seq<Position>, b: Board)
    requires FirstFitFleet(positions, NumShips) == Some(b.ships)
    ensures Consistent(b)
    ensures |b.ships| == NumShips && forall k :: 0 <= k < NumShips ==>
      b.ships[k].shipType == AllTypes[k] && b.ships[k].position in positions && b.ships[k].hits == 0
  {
    FirstFitFleetWellFormed(positions, NumShips);
    forall t: ShipType ensures t in TypesOf(b.ships) {
      assert b.ships[Index(t)].shipType == t;
    }
  }

  /** A search resumed at position `i` takes it when it fits there, across before down. */
  lemma FirstFitHead(ships: seq<Ship>, t: ShipType, positions: seq<Position>, i: nat, d: Direction)
    requires i < |positions| && Placeable(ships, t, positions[i], d)
    requires d == Vertical ==> !Placeable(ships, t, positions[i], Horizontal)
    ensures FirstFit(ships, t, positions[i..]) == Some(Placement(t, positions[i], d))
  {
    assert positions[i..][0] == positions[i];
  }

  /** A search resumed at position `i` moves past it when it fits in neither direction. */
  lemma FirstFitSkip(ships: seq<Ship>, t: ShipType, positions: seq<Position>, i: nat)
    requires i < |positions|
    requires !Placeable(ships, t, positions[i], Horizontal) && !Placeable(ships, t, positions[i], Vertical)
    ensures FirstFit(ships, t, positions[i..]) == FirstFit(ships, t, positions[i + 1..])
  {
    assert positions[i..][0] == positions[i];
    assert positions[i..][1..] == positions[i + 1..];
  }

  /** Placing one more type at its first fit extends the first-fit fleet by that ship. */
  lemma FirstFitFleetStep(positions: seq<Position>, n: nat, pre: seq<Ship>, q: Placement)
    requires n < NumShips && FirstFitFleet(positions, n) == Some(pre)
    requires FirstFit(pre, AllTypes[n], positions) == Some(q)
    ensures FirstFitFleet(positions, n + 1) == Some(pre + [NewShip(q.shipType, q.position, q.direction)])
  {
  }

  /** Ships with no cell in common are disjoint. */
  lemma DisjointIfApart(a: Ship, b: Ship)
    requires forall c :: OnShip(a, c) ==> !OnShip(b, c)
    ensures Disjoint(a, b)
  {
    forall c | c in Coordinates(a) ensures c !in Coordinates(b) {
      CoordinatesIff(a, c);
      CoordinatesIff(b, c);
    }
  }

  /** The hand-placed fleet of the basic board: mixed directions, one ship of each type. */
  function BasicFleet(): seq<Ship>
  {
    [NewShip(Carrier, Position(2, 3), Vertical), NewShip(Battleship, Position(3, 1), Horizontal),
     NewShip(Cruiser, Position(4, 7), Vertical), NewShip(Submarine, Position(7, 5), Horizontal),
     NewShip(Destroyer, Position(7, 7), Horizontal)]
  }

  /** The basic board, with the hand-placed fleet and nothing shot, passes the consistency check. */
  lemma BasicBoardConsistent(pepper: Pepper)
    ensures Consistent(NewBoard(pepper).(ships := BasicFleet()))
  {
    var f := BasicFleet();
    BasicFleetWellFormed();
    forall t: ShipType ensures t in TypesOf(f) {
      assert f[Index(t)].shipType == t;
    }
  }

  /** The hand-placed fleet is in bounds and overlap-free. */
  lemma BasicFleetWellFormed()
    ensures WellFormedFleet(BasicFleet())
  {
    var f := BasicFleet();
    forall k | 0 <= k < |f| ensures ShipInBounds(f[k]) {
      ShipInBoundsByEnds(f[k]);
    }
    BasicFleetApart();
    forall k, l | 0 <= k < l < |f| ensures Disjoint(f[k], f[l]) {
      DisjointIfApart(f[k], f[l]);
    }
  }

  /** No cell lies on two ships of the hand-placed fleet. */
  lemma BasicFleetApart()
    ensures var f := BasicFleet();
      forall k, l, c :: 0 <= k < l < |f| && OnShip(f[k], c) ==> !OnShip(f[l], c)
  {
  }
}
