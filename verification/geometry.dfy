/**
 * Board geometry of the Battleship engine: board size, coordinates,
 * directions and the five ship types with their sizes and stable indices.
 */
module Geometry {

  /** Side of the square board. */
  const BoardSize: nat := 10

  /** Number of distinct ship types in a full fleet. */
  const NumShips: nat := 5

  /** Ship sizes in canonical order: Carrier, Battleship, Cruiser, Submarine, Destroyer. */
  const ShipSizes: seq<nat> := [5, 4, 3, 3, 2]

  datatype Direction = Horizontal | Vertical

  /** A board coordinate: column x, row y. */
  datatype Position = Position(x: nat, y: nat)

  datatype ShipType = Carrier | Battleship | Cruiser | Submarine | Destroyer

  /** The ship types in canonical order, the order in which random placement tries them. */
  const AllTypes: seq<ShipType> := [Carrier, Battleship, Cruiser, Submarine, Destroyer]

  /** The position `dist` cells away from `p` along `dir`. */
  function Step(p: Position, dir: Direction, dist: nat): Position
  {
    match dir
    case Vertical => Position(p.x, p.y + dist)
    case Horizontal => Position(p.x + dist, p.y)
  }

  predicate InBounds(p: Position)
  {
    p.x < BoardSize && p.y < BoardSize
  }

  /** Number of cells a ship of type `t` covers. */
  function Size(t: ShipType): (n: nat)
    ensures n == ShipSizes[Index(t)]
    ensures 2 <= n <= 5
  {
    match t
    case Carrier => 5
    case Battleship => 4
    case Cruiser => 3
    case Submarine => 3
    case Destroyer => 2
  }

  /** Stable index of a ship type; it is the type's place in `AllTypes`. */
  function Index(t: ShipType): (i: nat)
    ensures i < NumShips && AllTypes[i] == t
  {
    match t
    case Carrier => 0
    case Battleship => 1
    case Cruiser => 2
    case Submarine => 3
    case Destroyer => 4
  }

  /** Every board cell, column by column: the list that random placement shuffles. */
  function AllCells(): seq<Position>
  {
    seq(BoardSize * BoardSize, k requires 0 <= k => Position(k / BoardSize, k % BoardSize))
  }

  /** A stepped position moves along exactly one axis: x for Horizontal, y for Vertical. */
  lemma StepAlongOneAxis(p: Position, dir: Direction, dist: nat)
    ensures dir == Horizontal ==> Step(p, dir, dist).y == p.y && Step(p, dir, dist).x == p.x + dist
    ensures dir == Vertical ==> Step(p, dir, dist).x == p.x && Step(p, dir, dist).y == p.y + dist
  {
  }

  /** Stepping is injective in the distance, so a ship's cells are pairwise distinct. */
  lemma StepInjective(p: Position, dir: Direction, i: nat, j: nat)
    ensures Step(p, dir, i) == Step(p, dir, j) ==> i == j
  {
  }

  /** The in-bounds test accepts exactly the cells of the board listing. */
  lemma InBoundsIffListed(p: Position)
    ensures InBounds(p) <==> p in AllCells()
  {
    var cells := AllCells();
    if InBounds(p) {
      var k := p.x * BoardSize + p.y;
      assert k < BoardSize * BoardSize;
      assert k / BoardSize == p.x && k % BoardSize == p.y;
      assert cells[k] == p;
    }
  }
}
