/**
 * A ship: its type, start cell, direction and the u8 bitmask of the
 * segments hit so far (bit i = i-th segment from the start).
 */
module Ships {
  import opened Geometry

  datatype Ship = Ship(shipType: ShipType, position: Position, direction: Direction, hits: bv8)

  /** A freshly placed ship: nothing hit yet. */
  function NewShip(t: ShipType, p: Position, d: Direction): (s: Ship)
    ensures s.shipType == t && s.position == p && s.direction == d
    ensures !IsSunk(s)
    ensures forall k: nat :: !HitBit(s.hits, k)
  {
    Ship(t, p, d, 0)
  }

  /** Whether bit `k` of a hit mask is set. */
  predicate HitBit(h: bv8, k: nat)
  {
    k < 8 && h & (1 << k) != 0
  }

  /** The mask of the lowest `size` bits, saturating at all eight. */
  function Mask(size: nat): bv8
  {
    if size >= 8 then 0xFF else (1 << size) - 1
  }

  predicate IsSunk(s: Ship)
  {
    s.hits & Mask(Size(s.shipType)) == Mask(Size(s.shipType))
  }

  /** A ship is sunk exactly when every one of its `size` segments is hit. */
  lemma IsSunkIffAllSegmentsHit(s: Ship)
    ensures IsSunk(s) <==> forall k: nat :: k < Size(s.shipType) ==> HitBit(s.hits, k)
  {
    var h, n := s.hits, Size(s.shipType);
    if forall k: nat :: k < n ==> HitBit(h, k) {
      assert HitBit(h, 0) && HitBit(h, 1);
      if n >= 3 { assert HitBit(h, 2); }
      if n >= 4 { assert HitBit(h, 3); }
      if n >= 5 { assert HitBit(h, 4); }
    }
    if IsSunk(s) {
      forall k: nat | k < n ensures HitBit(h, k) {
        assert k == 0 || k == 1 || k == 2 || k == 3 || k == 4;
      }
    }
  }

  /** The cells the ship covers, from its start along its direction. */
  function Coordinates(s: Ship): seq<Position>
  {
    seq(Size(s.shipType), i requires 0 <= i => Step(s.position, s.direction, i))
  }

  /** Builds the ship's cell list segment by segment. */
  method GetCoordinates(s: Ship) returns (coords: seq<Position>)
    ensures |coords| == Size(s.shipType)
    ensures forall i :: 0 <= i < |coords| ==> coords[i] == Step(s.position, s.direction, i)
    ensures coords == Coordinates(s)
  {
    var size := Size(s.shipType);
    coords := [];
    for offset := 0 to size
      invariant |coords| == offset
      invariant forall i :: 0 <= i < offset ==> coords[i] == Step(s.position, s.direction, i)
    {
      coords := coords + [Step(s.position, s.direction, offset)];
    }
  }

  /** How far `shot` lies from the ship's start along the ship's direction. */
  function Offset(s: Ship, shot: Position): int
  {
    match s.direction
    case Horizontal => shot.x - s.position.x
    case Vertical => shot.y - s.position.y
  }

  /** Geometric description of the cells a ship covers. */
  predicate OnShip(s: Ship, p: Position)
  {
    match s.direction
    case Horizontal => p.y == s.position.y && s.position.x <= p.x < s.position.x + Size(s.shipType)
    case Vertical => p.x == s.position.x && s.position.y <= p.y < s.position.y + Size(s.shipType)
  }

  /** A cell is among the ship's coordinates iff it lies on the ship's segment, at index `Offset`. */
  lemma CoordinatesIff(s: Ship, p: Position)
    ensures p in Coordinates(s) <==> OnShip(s, p)
    ensures OnShip(s, p) ==> 0 <= Offset(s, p) < Size(s.shipType) && Coordinates(s)[Offset(s, p)] == p
  {
    if OnShip(s, p) {
      assert Coordinates(s)[Offset(s, p)] == p;
    }
  }

  /**
   * Tests whether `shot` hits the ship; on a hit the result carries the ship
   * with the segment's bit set.
   */
  function CheckHit(s: Ship, shot: Position): (r: (bool, Ship))
    ensures r.0 <==> shot in Coordinates(s)
    ensures r.0 ==> 0 <= Offset(s, shot) < Size(s.shipType) && Coordinates(s)[Offset(s, shot)] == shot
    ensures r.0 ==> r.1 == s.(hits := s.hits | (1 << Offset(s, shot)))
    ensures !r.0 ==> r.1 == s
  {
    CoordinatesIff(s, shot);
    match s.direction
    case Horizontal =>
      if shot.y != s.position.y || shot.x < s.position.x then (false, s)
      else
        var offset := shot.x - s.position.x;
        if offset < Size(s.shipType) then (true, s.(hits := s.hits | (1 << offset))) else (false, s)
    case Vertical =>
      if shot.x != s.position.x || shot.y < s.position.y then (false, s)
      else
        var offset := shot.y - s.position.y;
        if offset < Size(s.shipType) then (true, s.(hits := s.hits | (1 << offset))) else (false, s)
  }

  /** On a hit exactly the bit of the hit segment becomes set; all other bits keep their value. */
  lemma CheckHitSetsOneBit(s: Ship, shot: Position)
    requires CheckHit(s, shot).0
    ensures forall k: nat :: HitBit(CheckHit(s, shot).1.hits, k) <==> HitBit(s.hits, k) || k == Offset(s, shot)
  {
    SetBit(s.hits, Offset(s, shot));
  }

  /** Setting bit `o` of a mask sets that bit and keeps every other. */
  lemma SetBit(h: bv8, o: nat)
    requires o < 8
    ensures forall k: nat :: HitBit(h | (1 << o), k) <==> HitBit(h, k) || k == o
  {
    forall k: nat ensures HitBit(h | (1 << o), k) <==> HitBit(h, k) || k == o {
      if k < 8 {
        assert (h | (1 << o)) & (1 << k) == (h & (1 << k)) | ((1 << o) & (1 << k));
      }
    }
  }

  /** A shot before the ship's start on its own line is never a hit. */
  lemma ShotBeforeStartMisses(s: Ship, shot: Position)
    requires s.direction == Horizontal ==> shot.y == s.position.y && shot.x < s.position.x
    requires s.direction == Vertical ==> shot.x == s.position.x && shot.y < s.position.y
    ensures !CheckHit(s, shot).0 && CheckHit(s, shot).1 == s
  {
  }
}
