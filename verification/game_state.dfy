/**
 * The mutable game state of one player: the fleet vector, the pepper mixed
 * into the commitment, and the 10x10 grid of shot marks, updated in place by
 * placement and by shots. Every operation is proved against the rules over
 * the state's value (module Boards).
 */
module GameStates {
  import opened Wrappers
  import opened Geometry
  import opened Ships
  import opened Boards
  import opened PlacementFacts

  /** Two grids with the same mark on every cell are equal. */
  lemma GridExtensionality(g: Grid, h: Grid)
    requires forall y, x :: 0 <= y < BoardSize && 0 <= x < BoardSize ==> g[y][x] == h[y][x]
    ensures g == h
  {
    forall y | 0 <= y < BoardSize ensures g[y] == h[y] {
      assert forall x :: 0 <= x < BoardSize ==> g[y][x] == h[y][x];
    }
  }

  class GameState {
    var ships: seq<Ship>
    const pepper: Pepper
    /** grid[y, x] is the mark on column x of row y. */
    const grid: array2<CellState>

    predicate Valid()
    {
      grid.Length0 == BoardSize && grid.Length1 == BoardSize
    }

    /** The grid's marks as a value. */
    function Marks(): Grid
      requires Valid()
      reads grid
    {
      seq(BoardSize, y requires 0 <= y < BoardSize reads grid =>
        seq(BoardSize, x requires 0 <= x < BoardSize reads grid => grid[y, x]))
    }

    /** The state's value: what the commitment hashes. */
    function Snapshot(): Board
      requires Valid()
      reads this, grid
    {
      Board(ships, pepper, Marks())
    }

    /** A new game state: no ships, every cell unshot. */
    constructor (pepper: Pepper)
      ensures Valid() && fresh(grid)
      ensures Snapshot() == NewBoard(pepper)
    {
      ships := [];
      this.pepper := pepper;
      grid := new CellState[BoardSize, BoardSize]((_, _) => CellState.Empty);
      new;
      GridExtensionality(Marks(), NewBoard(pepper).grid);
    }

    /** A game state holding the given value, as decoding or cloning one produces. */
    constructor FromBoard(b: Board)
      ensures Valid() && fresh(grid)
      ensures Snapshot() == b
    {
      ships := b.ships;
      pepper := b.pepper;
      grid := new CellState[BoardSize, BoardSize]((y, x) =>
        if 0 <= y < |b.grid| && 0 <= x < |b.grid[y]| then b.grid[y][x] else CellState.Empty);
      new;
      GridExtensionality(Marks(), b.grid);
    }

    /**
     * Whether a ship of type `t` may be placed at `pos` facing `d`: start and
     * end in bounds, type not yet placed, no cell shared with a placed ship.
     */
    method CanPlaceShip(t: ShipType, pos: Position, d: Direction) returns (ok: bool)
      ensures ok == Placeable(ships, t, pos, d)
    {
      var start := pos;
      var size := Size(t);
      if !InBounds(start) {
        return false;
      }
      var end := Step(start, d, size - 1);
      if !InBounds(end) {
        return false;
      }
      if exists k :: 0 <= k < |ships| && ships[k].shipType == t {
        return false;
      }
      var temp := NewShip(t, start, d);
      var newCoords := GetCoordinates(temp);
      for i := 0 to |ships|
        invariant forall k :: 0 <= k < i ==> Disjoint(temp, ships[k])
      {
        var existingCoords := GetCoordinates(ships[i]);
        for j := 0 to |newCoords|
          invariant forall m :: 0 <= m < j ==> newCoords[m] !in existingCoords
        {
          if newCoords[j] in existingCoords {
            return false;
          }
        }
      }
      return true;
    }

    /** Places the ship if it may be placed; otherwise leaves the fleet as it was. */
    method PlaceShip(t: ShipType, pos: Position, d: Direction) returns (ok: bool)
      requires Valid()
      modifies this
      ensures Valid()
      ensures ok == Placeable(old(ships), t, pos, d)
      ensures ships == if ok then old(ships) + [NewShip(t, pos, d)] else old(ships)
      ensures Snapshot() == old(Snapshot()).(ships := ships)
    {
      ok := CanPlaceShip(t, pos, d);
      if ok {
        ships := ships + [NewShip(t, pos, d)];
      }
    }

    /**
     * Places the ships in order, keeping each success even when a later one
     * fails; reports whether all succeeded.
     */
    method PlaceShips(reqs: seq<Placement>) returns (allOk: bool)
      requires Valid()
      modifies this
      ensures Valid()
      ensures (allOk, ships) == PlaceAll(old(ships), reqs)
      ensures Snapshot() == old(Snapshot()).(ships := ships)
    {
      allOk := true;
      for i := 0 to |reqs|
        invariant (allOk, ships) == PlaceAll(old(ships), reqs[..i])
        invariant Snapshot() == old(Snapshot()).(ships := ships)
      {
        var q := reqs[i];
        var ok := PlaceShip(q.shipType, q.position, q.direction);
        if !ok {
          allOk := false;
        }
        assert reqs[..i + 1][..i] == reqs[..i];
      }
      assert reqs[..|reqs|] == reqs;
    }

    /**
     * Places a ship of type `t` at the first position of `positions` and the
     * first direction, across before down, where it fits; reports whether
     * one did.
     */
    method PlaceAtFirstFit(t: ShipType, positions: seq<Position>) returns (placed: bool)
      requires Valid()
      modifies this
      ensures Valid()
      ensures placed <==> FirstFit(old(ships), t, positions).Some?
      ensures placed ==> ships == old(ships) + [NewShip(t, FirstFit(old(ships), t, positions).value.position,
                                                         FirstFit(old(ships), t, positions).value.direction)]
      ensures !placed ==> ships == old(ships)
      ensures Snapshot() == old(Snapshot()).(ships := ships)
    {
      ghost var prev := ships;
      placed := false;
      for pi := 0 to |positions|
        invariant !placed && ships == prev
        invariant FirstFit(prev, t, positions[pi..]) == FirstFit(prev, t, positions)
        invariant Snapshot() == old(Snapshot())
      {
        var pos := positions[pi];
        var dirs := [Horizontal, Vertical];
        for di := 0 to |dirs|
          invariant !placed && ships == prev
          invariant di >= 1 ==> !Placeable(prev, t, pos, Horizontal)
          invariant di >= 2 ==> !Placeable(prev, t, pos, Vertical)
          invariant Snapshot() == old(Snapshot())
        {
          var ok := PlaceShip(t, pos, dirs[di]);
          if ok {
            FirstFitHead(prev, t, positions, pi, dirs[di]);
            placed := true;
            return;
          }
        }
        FirstFitSkip(prev, t, positions, pi);
      }
    }

    /**
     * Clears the fleet and places the five types in canonical order, each at
     * the first position of `positions` (the shuffled cell list) and the first
     * direction, across before down, where it fits. On failure the fleet is
     * left empty.
     */
    method PlaceShipsRandomly(positions: seq<Position>) returns (ok: bool)
      requires Valid()
      requires multiset(positions) == multiset(AllCells())
      modifies this
      ensures Valid()
      ensures ok <==> FirstFitFleet(positions, NumShips).Some?
      ensures ok ==> ships == FirstFitFleet(positions, NumShips).value
      ensures ok ==> Consistent(Snapshot())
      ensures ok ==> |ships| == NumShips && forall k :: 0 <= k < NumShips ==>
        ships[k].shipType == AllTypes[k] && ships[k].position in positions && ships[k].hits == 0
      ensures !ok ==> ships == []
      ensures Snapshot() == old(Snapshot()).(ships := ships)
    {
      ships := [];
      for ti := 0 to NumShips
        invariant FirstFitFleet(positions, ti) == Some(ships)
        invariant Marks() == old(Marks())
      {
        ghost var prev := ships;
        var placed := PlaceAtFirstFit(AllTypes[ti], positions);
        if !placed {
          FirstFitFleetStuck(positions, ti, NumShips);
          ships := [];
          return false;
        }
        FirstFitFleetStep(positions, ti, prev, FirstFit(prev, AllTypes[ti], positions).value);
      }
      FirstFitFleetConsistent(positions, Snapshot());
      return true;
    }

    /**
     * The full consistency check: every ship in bounds, ships pairwise of
     * distinct types and non-overlapping, and every type present.
     */
    method Check() returns (ok: bool)
      requires Valid()
      ensures ok == Consistent(Snapshot())
    {
      for i := 0 to |ships|
        invariant forall k :: 0 <= k < i ==> ShipInBounds(ships[k])
        invariant forall k, l :: 0 <= k < i && k < l < |ships| ==> Compatible(ships[k], ships[l])
      {
        var coordsI := GetCoordinates(ships[i]);
        if exists m :: 0 <= m < |coordsI| && !InBounds(coordsI[m]) {
          return false;
        }
        for j := i + 1 to |ships|
          invariant forall l :: i < l < j ==> Compatible(ships[i], ships[l])
        {
          if ships[i].shipType == ships[j].shipType {
            return false;
          }
          var coordsJ := GetCoordinates(ships[j]);
          if exists m :: 0 <= m < |coordsI| && coordsI[m] in coordsJ {
            return false;
          }
        }
      }
      var found := new bool[NumShips](_ => false);
      for k := 0 to |ships|
        invariant forall m :: 0 <= m < NumShips ==> (found[m] <==> AllTypes[m] in TypesOf(ships[..k]))
      {
        found[Index(ships[k].shipType)] := true;
        assert TypesOf(ships[..k + 1]) == TypesOf(ships[..k]) + {ships[k].shipType};
      }
      assert ships[..|ships|] == ships;
      ok := forall m :: 0 <= m < NumShips ==> found[m];
      if ok {
        forall t: ShipType ensures t in TypesOf(ships) {
          assert found[Index(t)];
        }
      }
    }

    /**
     * Shoots at `shot`: None, changing nothing, for an out-of-bounds or
     * already-shot cell; otherwise marks the cell, sets the hit bit of the
     * first ship covering it, and reports Miss, Hit or Sunk.
     */
    method ApplyShot(shot: Position) returns (r: Option<HitType>)
      requires Valid()
      modifies this, grid
      ensures Valid()
      ensures (r, Snapshot()) == Fire(old(Snapshot()), shot)
    {
      if !InBounds(shot) {
        return None;
      }
      if grid[shot.y, shot.x] != CellState.Empty {
        return None;
      }
      ghost var before := Snapshot();
      for i := 0 to |ships|
        invariant forall k :: 0 <= k < i ==> shot !in Coordinates(ships[k])
      {
        var (hit, s) := CheckHit(ships[i], shot);
        if hit {
          assert HitIndex(ships, shot) == i;
          ships := ships[i := s];
          grid[shot.y, shot.x] := CellState.Hit;
          GridExtensionality(Marks(), SetCell(before.grid, shot, CellState.Hit));
          if IsSunk(s) {
            return Some(HitType.Sunk(s.shipType));
          }
          return Some(HitType.Hit);
        }
      }
      assert HitIndex(ships, shot) == |ships|;
      grid[shot.y, shot.x] := CellState.Miss;
      GridExtensionality(Marks(), SetCell(before.grid, shot, CellState.Miss));
      return Some(HitType.Miss);
    }
  }
}
