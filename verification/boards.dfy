/**
 * The value of a player's game state, as the commitment hashes it: the
 * fleet, a 16-byte pepper and the 10x10 grid of shot marks. This module
 * holds the rules of the engine as functions over that value: placement
 * validation, the full consistency check and the effect of a shot.
 */
module Boards {
  import opened Wrappers
  import opened Geometry
  import opened Ships

  datatype CellState = Empty | Miss | Hit

  /** Outcome of a shot that the board accepted. */
  datatype HitType = Miss | Hit | Sunk(shipType: ShipType)

  /** A commitment digest; the hash itself is a parameter wherever it is used. */
  type Digest = seq<bv8>

  /** One proved round: the commitments before and after one shot, and its outcome. */
  datatype RoundCommit = RoundCommit(oldState: Digest, newState: Digest, shot: Position, hit: HitType)

  type Pepper = p: seq<bv8> | |p| == 16 witness [0, 0, 0, 0, 0, 0, 0, 0, 0, 0, 0, 0, 0, 0, 0, 0]

  /** Rows indexed by y, cells within a row by x. */
  type Grid = g: seq<seq<CellState>> | |g| == BoardSize && forall y :: 0 <= y < |g| ==> |g[y]| == BoardSize
    witness seq(BoardSize, _ => seq(BoardSize, _ => CellState.Empty))

  /**
   * The value of a game state: its ships, pepper and grid. The `GameState`
   * class is proved against this value. The Rust crate once had a separate
   * `Board` type and removed it so that all logic lives on `GameState`; this
   * datatype is not that type.
   */
  datatype Board = Board(ships: seq<Ship>, pepper: Pepper, grid: Grid)

  /** A requested placement: type, start cell and direction. */
  datatype Placement = Placement(shipType: ShipType, position: Position, direction: Direction)

  function CellAt(g: Grid, p: Position): CellState
    requires InBounds(p)
  {
    g[p.y][p.x]
  }

  /** The grid with cell `p` set to `c`. */
  function SetCell(g: Grid, p: Position, c: CellState): (r: Grid)
    requires InBounds(p)
    ensures CellAt(r, p) == c
    ensures forall q :: InBounds(q) && q != p ==> CellAt(r, q) == CellAt(g, q)
  {
    g[p.y := g[p.y][p.x := c]]
  }

  /** A fresh game state: no ships, every cell unshot. */
  function NewBoard(pepper: Pepper): (b: Board)
    ensures b.ships == [] && b.pepper == pepper
    ensures forall p :: InBounds(p) ==> CellAt(b.grid, p) == CellState.Empty
  {
    Board([], pepper, seq(BoardSize, _ => seq(BoardSize, _ => CellState.Empty)))
  }

  // ---------------------------------------------------------------------------
  // Placement and consistency

  function TypesOf(ships: seq<Ship>): set<ShipType>
  {
    set k | 0 <= k < |ships| :: ships[k].shipType
  }

  predicate ShipInBounds(s: Ship)
  {
    forall c :: c in Coordinates(s) ==> InBounds(c)
  }

  /** No cell of `a` is a cell of `b`. */
  predicate Disjoint(a: Ship, b: Ship)
  {
    forall c :: c in Coordinates(a) ==> c !in Coordinates(b)
  }

  /** Two ships may share a board: different types, no common cell. */
  predicate Compatible(a: Ship, b: Ship)
  {
    a.shipType != b.shipType && Disjoint(a, b)
  }

  /** Every ship in bounds; ships pairwise of distinct types and non-overlapping. */
  predicate WellFormedFleet(ships: seq<Ship>)
  {
    && (forall k :: 0 <= k < |ships| ==> ShipInBounds(ships[k]))
    && (forall k, l :: 0 <= k < l < |ships| ==> Compatible(ships[k], ships[l]))
  }

  /** What the full consistency check accepts: a well-formed fleet holding every ship type. */
  predicate Consistent(b: Board)
  {
    WellFormedFleet(b.ships) && forall t: ShipType :: t in TypesOf(b.ships)
  }

  /** Whether a ship of type `t` may be added at `p` facing `d`. */
  predicate Placeable(ships: seq<Ship>, t: ShipType, p: Position, d: Direction)
  {
    && InBounds(p)
    && InBounds(Step(p, d, Size(t) - 1))
    && t !in TypesOf(ships)
    && forall k :: 0 <= k < |ships| ==> Disjoint(NewShip(t, p, d), ships[k])
  }

  /** The fleet after one placement attempt, and whether it succeeded. */
  function Place(ships: seq<Ship>, q: Placement): (bool, seq<Ship>)
  {
    if Placeable(ships, q.shipType, q.position, q.direction)
    then (true, ships + [NewShip(q.shipType, q.position, q.direction)])
    else (false, ships)
  }

  /** Placement attempts in order, keeping every success: whether all succeeded, and the fleet. */
  function PlaceAll(ships: seq<Ship>, reqs: seq<Placement>): (bool, seq<Ship>)
    decreases |reqs|
  {
    if |reqs| == 0 then (true, ships)
    else
      var (allOk, pre) := PlaceAll(ships, reqs[..|reqs| - 1]);
      var (ok, post) := Place(pre, reqs[|reqs| - 1]);
      (allOk && ok, post)
  }

  /** No listed position fits a ship of type `t` beside `ships`, in either direction. */
  predicate FitsNowhere(ships: seq<Ship>, t: ShipType, positions: seq<Position>)
  {
    forall i, d :: 0 <= i < |positions| ==> !Placeable(ships, t, positions[i], d)
  }

  /**
   * The first placement of type `t` that fits beside `ships`, trying the
   * listed positions in order and, at each, across before down.
   */
  function FirstFit(ships: seq<Ship>, t: ShipType, positions: seq<Position>): (r: Option<Placement>)
    ensures r.None? <==> FitsNowhere(ships, t, positions)
    ensures r.Some? ==> r.value.shipType == t && Placeable(ships, t, r.value.position, r.value.direction)
    ensures r.Some? ==> r.value.position in positions
    decreases |positions|
  {
    if |positions| == 0 then None
    else if Placeable(ships, t, positions[0], Horizontal) then Some(Placement(t, positions[0], Horizontal))
    else if Placeable(ships, t, positions[0], Vertical) then Some(Placement(t, positions[0], Vertical))
    else FirstFit(ships, t, positions[1..])
  }

  /**
   * The fleet that placing the first `n` types in canonical order gives, each
   * at its first fit beside the ones before it; None once some type fits nowhere.
   */
  function FirstFitFleet(positions: seq<Position>, n: nat): Option<seq<Ship>>
    requires n <= NumShips
  {
    if n == 0 then Some([])
    else match FirstFitFleet(positions, n - 1)
      case None => None
      case Some(pre) =>
        match FirstFit(pre, AllTypes[n - 1], positions)
        case None => None
        case Some(q) => Some(pre + [NewShip(q.shipType, q.position, q.direction)])
  }

  // ---------------------------------------------------------------------------
  // Shots

  /** Index of the first ship covering `shot`, or the fleet size when none does. */
  function HitIndex(ships: seq<Ship>, shot: Position): (k: nat)
    ensures k <= |ships|
    ensures k < |ships| ==> shot in Coordinates(ships[k])
    ensures forall j :: 0 <= j < k ==> shot !in Coordinates(ships[j])
    decreases |ships|
  {
    if |ships| == 0 then 0
    else if CheckHit(ships[0], shot).0 then 0
    else 1 + HitIndex(ships[1..], shot)
  }

  /**
   * The effect of a shot: None, with the state unchanged, when the shot is
   * out of bounds or the cell was already shot; otherwise the marked grid,
   * the first ship covering the cell updated, and Miss, Hit or Sunk.
   */
  function Fire(b: Board, shot: Position): (r: (Option<HitType>, Board))
    ensures r.0 == None <==> !InBounds(shot) || CellAt(b.grid, shot) != CellState.Empty
    ensures r.0 == None ==> r.1 == b
    ensures r.1.pepper == b.pepper && |r.1.ships| == |b.ships|
    ensures r.0 == Some(HitType.Miss) ==> CellAt(r.1.grid, shot) == CellState.Miss && r.1.ships == b.ships
    ensures r.0 != None && r.0 != Some(HitType.Miss) ==> CellAt(r.1.grid, shot) == CellState.Hit
    ensures r.0 != None ==> forall q :: InBounds(q) && q != shot ==> CellAt(r.1.grid, q) == CellAt(b.grid, q)
  {
    if !InBounds(shot) || CellAt(b.grid, shot) != CellState.Empty then (None, b)
    else
      var k := HitIndex(b.ships, shot);
      if k == |b.ships| then
        (Some(HitType.Miss), b.(grid := SetCell(b.grid, shot, CellState.Miss)))
      else
        var s := CheckHit(b.ships[k], shot).1;
        (Some(if IsSunk(s) then HitType.Sunk(s.shipType) else HitType.Hit),
         b.(ships := b.ships[k := s], grid := SetCell(b.grid, shot, CellState.Hit)))
  }

  /** Every ship of the fleet is sunk: the game is over for this board. */
  predicate AllSunk(b: Board)
  {
    forall k :: 0 <= k < |b.ships| ==> IsSunk(b.ships[k])
  }
}
