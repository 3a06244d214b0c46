/**
 * Properties of a shot: a rejected shot changes nothing, a repeated shot is
 * rejected, at most one ship changes and only in its hit mask, Sunk is
 * reported only for a ship that is now sunk, and the ships' hit masks keep
 * agreeing with the Hit marks on the grid.
 */
module ShotFacts {
  import opened Wrappers
  import opened Geometry
  import opened Ships
  import opened Boards
  import opened PlacementFacts

  /** Shooting the same cell again is rejected and changes nothing. */
  lemma RepeatedShotRejected(b: Board, shot: Position)
    ensures Fire(Fire(b, shot).1, shot) == (None, Fire(b, shot).1)
  {
  }

  /**
   * A shot changes at most one ship, the first one covering the cell, and
   * that ship only in its hit mask; the outcome is Miss exactly when the shot
   * was accepted and no ship covers the cell.
   */
  lemma FireChangesAtMostOneShip(b: Board, shot: Position)
    ensures var r := Fire(b, shot);
      forall k :: 0 <= k < |b.ships| && r.1.ships[k] != b.ships[k] ==>
        k == HitIndex(b.ships, shot) && r.0 != None && r.0 != Some(HitType.Miss)
    ensures var r := Fire(b, shot);
      forall k :: 0 <= k < |b.ships| ==> r.1.ships[k] == b.ships[k].(hits := r.1.ships[k].hits)
    ensures var r := Fire(b, shot);
      r.0 == Some(HitType.Miss) <==> r.0 != None && forall k :: 0 <= k < |b.ships| ==> shot !in Coordinates(b.ships[k])
  {
  }

  /**
   * Sunk(t) is reported only when the hit ship, of type t, is now sunk; Hit
   * only when the hit ship is still afloat.
   */
  lemma SunkOnlyWhenSunk(b: Board, shot: Position)
    ensures var r := Fire(b, shot); var k := HitIndex(b.ships, shot);
      r.0.Some? && r.0.value.Sunk? ==>
        k < |r.1.ships| && shot in Coordinates(r.1.ships[k])
        && r.1.ships[k].shipType == r.0.value.shipType && IsSunk(r.1.ships[k])
    ensures var r := Fire(b, shot); var k := HitIndex(b.ships, shot);
      r.0 == Some(HitType.Hit) ==>
        k < |r.1.ships| && shot in Coordinates(r.1.ships[k]) && !IsSunk(r.1.ships[k])
  {
    var r := Fire(b, shot);
    if r.0.Some? && r.0.value != HitType.Miss {
      var k := HitIndex(b.ships, shot);
      CoordinatesIgnoreHits(b.ships[k], r.1.ships[k].hits);
      assert r.1.ships[k] == CheckHit(b.ships[k], shot).1;
    }
  }

  /** A shot keeps a well-formed fleet well formed, with the same types, and keeps a board consistent. */
  lemma FirePreservesConsistency(b: Board, shot: Position)
    ensures WellFormedFleet(b.ships) ==> WellFormedFleet(Fire(b, shot).1.ships)
    ensures TypesOf(Fire(b, shot).1.ships) == TypesOf(b.ships)
    ensures Consistent(b) ==> Consistent(Fire(b, shot).1)
  {
    var post := Fire(b, shot).1.ships;
    FireChangesAtMostOneShip(b, shot);
    forall k | 0 <= k < |b.ships| ensures Coordinates(post[k]) == Coordinates(b.ships[k]) {
      CoordinatesIgnoreHits(b.ships[k], post[k].hits);
    }
    assert forall k :: 0 <= k < |b.ships| ==> post[k].shipType == b.ships[k].shipType;
  }

  /** A cell carries a Hit mark. */
  predicate MarkedHit(g: Grid, p: Position)
  {
    InBounds(p) && CellAt(g, p) == CellState.Hit
  }

  /** Every ship segment's hit bit is set exactly when its cell carries a Hit mark. */
  predicate HitsMatchGrid(b: Board)
  {
    forall k, j :: 0 <= k < |b.ships| && 0 <= j < Size(b.ships[k].shipType) ==>
      (HitBit(b.ships[k].hits, j) <==> MarkedHit(b.grid, Coordinates(b.ships[k])[j]))
  }

  /** A new game state with any placements made on it: no bit set, no cell marked. */
  lemma FreshBoardMatchesGrid(pepper: Pepper, reqs: seq<Placement>)
    ensures HitsMatchGrid(NewBoard(pepper).(ships := PlaceAll([], reqs).1))
  {
    PlacementsFromNewAreWellFormed(reqs);
  }

  /** On a well-formed fleet, a shot keeps every hit bit in agreement with the grid's Hit marks. */
  lemma FirePreservesHitsMatchGrid(b: Board, shot: Position)
    requires WellFormedFleet(b.ships)
    requires HitsMatchGrid(b)
    ensures HitsMatchGrid(Fire(b, shot).1)
  {
    var r := Fire(b, shot);
    if r.0 != None {
      var i := HitIndex(b.ships, shot);
      FireChangesAtMostOneShip(b, shot);
      forall k, j | 0 <= k < |b.ships| && 0 <= j < Size(b.ships[k].shipType)
        ensures HitBit(r.1.ships[k].hits, j) <==> MarkedHit(r.1.grid, Coordinates(r.1.ships[k])[j])
      {
        var s := b.ships[k];
        var c := Coordinates(s)[j];
        CoordinatesIgnoreHits(s, r.1.ships[k].hits);
        if k == i {
          CheckHitSetsOneBit(s, shot);
          var o := Offset(s, shot);
          StepInjective(s.position, s.direction, j, o);
          assert c == shot <==> j == o;
        } else {
          assert c != shot by {
            if k > i {
              assert Compatible(b.ships[i], s);
            }
          }
        }
      }
    }
  }

  /** On a board whose masks agree with the grid, a ship is sunk iff every one of its cells is marked Hit. */
  lemma SunkIffAllCellsMarked(b: Board, k: nat)
    requires HitsMatchGrid(b)
    requires k < |b.ships|
    ensures IsSunk(b.ships[k]) <==> forall c :: c in Coordinates(b.ships[k]) ==> MarkedHit(b.grid, c)
  {
    var s := b.ships[k];
    IsSunkIffAllSegmentsHit(s);
    if forall c :: c in Coordinates(s) ==> MarkedHit(b.grid, c) {
      forall j: nat | j < Size(s.shipType) ensures HitBit(s.hits, j) {
        assert Coordinates(s)[j] in Coordinates(s);
      }
    }
  }

  /** The board from the engine's own test: a Cruiser across from (5,5); a shot at (4,5) misses. */
  lemma ShotBeforeStartIsMiss(pepper: Pepper)
    ensures var b := NewBoard(pepper).(ships := [NewShip(Cruiser, Position(5, 5), Horizontal)]);
      var r := Fire(b, Position(4, 5));
      r.0 == Some(HitType.Miss) && r.1.ships[0].hits == 0 && CellAt(r.1.grid, Position(4, 5)) == CellState.Miss
  {
    var s := NewShip(Cruiser, Position(5, 5), Horizontal);
    ShotBeforeStartMisses(s, Position(4, 5));
  }
}
