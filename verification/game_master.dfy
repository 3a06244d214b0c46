/**
 * The scripted two-player demo: players alternate shooting at each other's
 * board. A Hit keeps the turn, a Miss or a Sunk passes it, a rejected shot
 * is skipped, and play stops once the board just shot has every ship sunk.
 */
module GameMaster {
  import opened Wrappers
  import opened Geometry
  import opened Ships
  import opened Boards
  import opened GameStates

  /** One line of the script; the player tag is carried but never consulted. */
  datatype ScriptedShot = ScriptedShot(player: int, x: nat, y: nat)

  /** Both boards and whose turn it is: 0 for the first player, 1 for the second. */
  datatype Duel = Duel(p1: Board, p2: Board, turn: int)

  /** How the scripted play ended: the final duel, the script lines used, and the winner if any. */
  datatype Finish = Finish(duel: Duel, used: nat, winner: Option<int>)

  /** The board the player to move shoots at. */
  function Target(d: Duel): Board
  {
    if d.turn == 0 then d.p2 else d.p1
  }

  /** One shot by the player to move; also gives the board that was shot, as it is afterwards. */
  function Shoot(d: Duel, pos: Position): (Duel, Board)
  {
    var (res, after) := Fire(Target(d), pos);
    var boards := if d.turn == 0 then d.(p2 := after) else d.(p1 := after);
    var turn := match res
      case Some(Miss) => 1 - d.turn
      case Some(Hit) => d.turn
      case Some(Sunk(_)) => 1 - d.turn
      case None => d.turn;
    (boards.(turn := turn), after)
  }

  /** The play from script line `idx` on. */
  function Run(d: Duel, shots: seq<ScriptedShot>, idx: nat): Finish
    decreases |shots| - idx
  {
    if idx >= |shots| then Finish(d, idx, None)
    else
      var (next, shotBoard) := Shoot(d, Position(shots[idx].x, shots[idx].y));
      if AllSunk(shotBoard) then Finish(next, idx + 1, Some(d.turn))
      else Run(next, shots, idx + 1)
  }

  /**
   * The rule of one turn: only the opponent's board is shot; Hit keeps the
   * turn, Miss and Sunk pass it, and a rejected shot changes nothing at all.
   */
  lemma ShootRules(d: Duel, pos: Position)
    ensures var (next, after) := Shoot(d, pos);
      && after == Fire(Target(d), pos).1
      && (d.turn == 0 ==> next.p1 == d.p1 && next.p2 == after)
      && (d.turn != 0 ==> next.p2 == d.p2 && next.p1 == after)
    ensures var res := Fire(Target(d), pos).0;
      && (res == None ==> Shoot(d, pos).0 == d)
      && (res == Some(HitType.Hit) ==> Shoot(d, pos).0.turn == d.turn)
      && (res == Some(HitType.Miss) || (res.Some? && res.value.Sunk?) ==> Shoot(d, pos).0.turn == 1 - d.turn)
  {
  }

  /** The turn stays 0 or 1 throughout the play. */
  lemma {:induction false} RunKeepsTurnBinary(d: Duel, shots: seq<ScriptedShot>, idx: nat)
    requires 0 <= d.turn <= 1
    ensures 0 <= Run(d, shots, idx).duel.turn <= 1
    decreases |shots| - idx
  {
    if idx < |shots| {
      var next := Shoot(d, Position(shots[idx].x, shots[idx].y)).0;
      assert 0 <= next.turn <= 1;
      RunKeepsTurnBinary(next, shots, idx + 1);
    }
  }

  /**
   * Every iteration consumes exactly one script line, so play uses at most
   * the whole script; it stops early only with a winner, whose opponent's
   * ships are then all sunk.
   */
  lemma {:induction false} RunEnds(d: Duel, shots: seq<ScriptedShot>, idx: nat)
    requires idx <= |shots|
    requires 0 <= d.turn <= 1
    ensures var f := Run(d, shots, idx);
      idx <= f.used <= |shots| && (f.winner == None ==> f.used == |shots|)
    ensures var f := Run(d, shots, idx);
      f.winner.Some? ==> (f.winner == Some(0) && AllSunk(f.duel.p2)) || (f.winner == Some(1) && AllSunk(f.duel.p1))
    decreases |shots| - idx
  {
    if idx < |shots| {
      var (next, shotBoard) := Shoot(d, Position(shots[idx].x, shots[idx].y));
      if !AllSunk(shotBoard) {
        assert 0 <= next.turn <= 1;
        RunEnds(next, shots, idx + 1);
      }
    }
  }

  /** Play from line `idx` uses at least that line. */
  lemma {:induction false} RunUsedAtLeast(d: Duel, shots: seq<ScriptedShot>, idx: nat)
    requires idx < |shots|
    ensures Run(d, shots, idx).used >= idx + 1
    decreases |shots| - idx
  {
    var (next, shotBoard) := Shoot(d, Position(shots[idx].x, shots[idx].y));
    if !AllSunk(shotBoard) && idx + 1 < |shots| {
      RunUsedAtLeast(next, shots, idx + 1);
    }
  }

  /**
   * Play stops at a line exactly when its shot leaves the board just shot
   * with every ship sunk; the player who fired it is then the winner.
   */
  lemma RunStopsAtSinking(d: Duel, shots: seq<ScriptedShot>, idx: nat)
    requires idx < |shots|
    ensures var (next, shotBoard) := Shoot(d, Position(shots[idx].x, shots[idx].y));
      AllSunk(shotBoard) <==> Run(d, shots, idx) == Finish(next, idx + 1, Some(d.turn))
  {
    var (next, shotBoard) := Shoot(d, Position(shots[idx].x, shots[idx].y));
    if !AllSunk(shotBoard) && idx + 1 < |shots| {
      RunUsedAtLeast(next, shots, idx + 1);
    }
  }

  /**
   * The demo loop over two game states: the player to move shoots at the
   * other's board until the script runs out or the board just shot is
   * entirely sunk. Returns the final turn, the script lines used and the winner.
   */
  method PlayScript(p1: GameState, p2: GameState, shots: seq<ScriptedShot>) returns (turn: int, idx: nat, winner: Option<int>)
    requires p1.Valid() && p2.Valid()
    requires p1 != p2 && p1.grid != p2.grid
    modifies p1, p1.grid, p2, p2.grid
    ensures p1.Valid() && p2.Valid()
    ensures Finish(Duel(p1.Snapshot(), p2.Snapshot(), turn), idx, winner)
         == Run(Duel(old(p1.Snapshot()), old(p2.Snapshot()), 0), shots, 0)
  {
    turn := 0;
    idx := 0;
    winner := None;
    ghost var start := Duel(p1.Snapshot(), p2.Snapshot(), 0);
    while idx < |shots|
      invariant idx <= |shots|
      invariant p1.Valid() && p2.Valid()
      invariant Run(Duel(p1.Snapshot(), p2.Snapshot(), turn), shots, idx) == Run(start, shots, 0)
    {
      var line := shots[idx];
      ghost var pre := Duel(p1.Snapshot(), p2.Snapshot(), turn);
      var active := turn;
      var opponent := if turn == 0 then p2 else p1;
      var pos := Position(line.x, line.y);
      var applied := opponent.ApplyShot(pos);
      match applied {
        case Some(Miss) => turn := 1 - turn; idx := idx + 1;
        case Some(Hit) => idx := idx + 1;
        case Some(Sunk(_)) => turn := 1 - turn; idx := idx + 1;
        case None => idx := idx + 1;
      }
      assert Duel(p1.Snapshot(), p2.Snapshot(), turn) == Shoot(pre, pos).0;
      assert opponent.Snapshot() == Shoot(pre, pos).1;
      if forall k :: 0 <= k < |opponent.ships| ==> IsSunk(opponent.ships[k]) {
        winner := Some(active);
        break;
      }
    }
  }
}

/**
 * The fixed setup of the demo: five ships across on the even rows for the
 * first player, five ships down on the even columns for the second, and the
 * four-line script.
 */
module GameMasterDemo {
  import opened Wrappers
  import opened Geometry
  import opened Ships
  import opened Boards
  import opened GameStates
  import opened GameMaster
  import ShotFacts

  const ZeroPepper: Pepper := [0, 0, 0, 0, 0, 0, 0, 0, 0, 0, 0, 0, 0, 0, 0, 0]

  /** The first player's fleet: every type across, starting at column 0 of rows 0, 2, 4, 6, 8. */
  function Fleet1(): seq<Ship>
  {
    [NewShip(Carrier, Position(0, 0), Horizontal), NewShip(Battleship, Position(0, 2), Horizontal),
     NewShip(Cruiser, Position(0, 4), Horizontal), NewShip(Submarine, Position(0, 6), Horizontal),
     NewShip(Destroyer, Position(0, 8), Horizontal)]
  }

  /** The second player's fleet: every type down, starting at row 0 of columns 0, 2, 4, 6, 8. */
  function Fleet2(): seq<Ship>
  {
    [NewShip(Carrier, Position(0, 0), Vertical), NewShip(Battleship, Position(2, 0), Vertical),
     NewShip(Cruiser, Position(4, 0), Vertical), NewShip(Submarine, Position(6, 0), Vertical),
     NewShip(Destroyer, Position(8, 0), Vertical)]
  }

  function DemoScript(): seq<ScriptedShot>
  {
    [ScriptedShot(0, 9, 9), ScriptedShot(1, 0, 0), ScriptedShot(1, 0, 1), ScriptedShot(1, 0, 2)]
  }

  /** The line a ship lies on: its row when across, its column when down. */
  function Line(p: Position, d: Direction): nat
  {
    if d == Horizontal then p.y else p.x
  }

  /** A ship parallel to every placed ship, on a line of its own and of a new type, fits if its ends are in bounds. */
  lemma ParallelPlaceable(ships: seq<Ship>, t: ShipType, p: Position, d: Direction)
    requires InBounds(p) && InBounds(Step(p, d, Size(t) - 1))
    requires forall k :: 0 <= k < |ships| ==>
      ships[k].direction == d && Line(ships[k].position, d) != Line(p, d) && ships[k].shipType != t
    ensures Placeable(ships, t, p, d)
  {
    var s := NewShip(t, p, d);
    forall k | 0 <= k < |ships| ensures Disjoint(s, ships[k]) {
      forall c | c in Coordinates(s) ensures c !in Coordinates(ships[k]) {
        CoordinatesIff(s, c);
        CoordinatesIff(ships[k], c);
      }
    }
  }

  /** A cell off every ship's line is covered by no ship. */
  lemma OffLineUncovered(ships: seq<Ship>, d: Direction, c: Position)
    requires forall k :: 0 <= k < |ships| ==> ships[k].direction == d && Line(ships[k].position, d) != Line(c, d)
    ensures forall k :: 0 <= k < |ships| ==> c !in Coordinates(ships[k])
  {
    forall k | 0 <= k < |ships| ensures c !in Coordinates(ships[k]) {
      CoordinatesIff(ships[k], c);
    }
  }

  /** A shot at an unshot cell that no ship covers is a Miss that leaves the fleet alone. */
  lemma FireUncovered(b: Board, shot: Position, d: Direction)
    requires InBounds(shot) && CellAt(b.grid, shot) == CellState.Empty
    requires forall k :: 0 <= k < |b.ships| ==> b.ships[k].direction == d && Line(b.ships[k].position, d) != Line(shot, d)
    ensures Fire(b, shot).0 == Some(HitType.Miss) && Fire(b, shot).1.ships == b.ships
  {
    OffLineUncovered(b.ships, d, shot);
    ShotFacts.FireChangesAtMostOneShip(b, shot);
  }

  /** A shot at an unshot cell of the first ship, segment `o`, is a Hit when it does not sink that ship. */
  lemma FireFirstShip(b: Board, shot: Position, o: nat)
    requires InBounds(shot) && CellAt(b.grid, shot) == CellState.Empty
    requires 0 < |b.ships| && o < Size(b.ships[0].shipType) && Coordinates(b.ships[0])[o] == shot
    requires !IsSunk(b.ships[0].(hits := b.ships[0].hits | (1 << o)))
    ensures Fire(b, shot).0 == Some(HitType.Hit)
    ensures Fire(b, shot).1.ships == b.ships[0 := b.ships[0].(hits := b.ships[0].hits | (1 << o))]
  {
    assert HitIndex(b.ships, shot) == 0;
    StepInjective(b.ships[0].position, b.ships[0].direction, o, Offset(b.ships[0], shot) as nat);
  }

  /** A shot that leaves the board shot with a ship afloat lets play go on with the next line. */
  lemma RunStep(d: Duel, shots: seq<ScriptedShot>, idx: nat)
    requires idx < |shots|
    requires !AllSunk(Shoot(d, Position(shots[idx].x, shots[idx].y)).1)
    ensures Run(d, shots, idx) == Run(Shoot(d, Position(shots[idx].x, shots[idx].y)).0, shots, idx + 1)
  {
  }

  /** The first player's fleet after its Carrier is hit at its first segment. */
  function Fleet1Hit(): seq<Ship>
  {
    Fleet1()[0 := Fleet1()[0].(hits := 1)]
  }

  /** The second player's fleet after its Carrier is hit at its third segment. */
  function Fleet2Hit(): seq<Ship>
  {
    Fleet2()[0 := Fleet2()[0].(hits := 4)]
  }

  /** One or two hits do not sink a Carrier. */
  lemma CarrierAfloat(s: Ship)
    requires s.shipType == Carrier && (s.hits == 1 || s.hits == 4)
    ensures !IsSunk(s)
  {
    assert Mask(Size(Carrier)) == 0x1F by { assert Size(Carrier) == 5; }
  }

  /** Line 0: (9,9) is off every column of the second fleet, so the shot misses. */
  lemma DemoLine0(b: Board)
    requires b.ships == Fleet2() && CellAt(b.grid, Position(9, 9)) == CellState.Empty
    ensures Fire(b, Position(9, 9)).0 == Some(HitType.Miss) && Fire(b, Position(9, 9)).1.ships == Fleet2()
    ensures !AllSunk(Fire(b, Position(9, 9)).1)
  {
    FireUncovered(b, Position(9, 9), Vertical);
    assert !IsSunk(Fleet2()[1]);
  }

  /** Line 1: (0,0) is the first segment of the first player's Carrier, so the shot hits it. */
  lemma DemoLine1(b: Board)
    requires b.ships == Fleet1() && CellAt(b.grid, Position(0, 0)) == CellState.Empty
    ensures Fire(b, Position(0, 0)).0 == Some(HitType.Hit) && Fire(b, Position(0, 0)).1.ships == Fleet1Hit()
    ensures !AllSunk(Fire(b, Position(0, 0)).1)
  {
    var s := b.ships[0];
    assert s.hits | (1 << 0) == 1;
    CarrierAfloat(s.(hits := 1));
    assert Coordinates(s)[0] == Position(0, 0);
    FireFirstShip(b, Position(0, 0), 0);
    assert Fire(b, Position(0, 0)).1.ships[1] == Fleet1()[1];
    assert !IsSunk(Fleet1()[1]);
  }

  /** Line 2: row 1 holds no ship of the first fleet, so (0,1) misses. */
  lemma DemoLine2(b: Board)
    requires b.ships == Fleet1Hit() && CellAt(b.grid, Position(0, 1)) == CellState.Empty
    ensures Fire(b, Position(0, 1)).0 == Some(HitType.Miss) && Fire(b, Position(0, 1)).1.ships == Fleet1Hit()
    ensures !AllSunk(Fire(b, Position(0, 1)).1)
  {
    FireUncovered(b, Position(0, 1), Horizontal);
    assert !IsSunk(Fleet1Hit()[1]);
  }

  /** Line 3: (0,2) is the third segment of the second player's Carrier, so the shot hits it. */
  lemma DemoLine3(b: Board)
    requires b.ships == Fleet2() && CellAt(b.grid, Position(0, 2)) == CellState.Empty
    ensures Fire(b, Position(0, 2)).0 == Some(HitType.Hit) && Fire(b, Position(0, 2)).1.ships == Fleet2Hit()
    ensures !AllSunk(Fire(b, Position(0, 2)).1)
  {
    var s := b.ships[0];
    assert s == NewShip(Carrier, Position(0, 0), Vertical);
    assert s.hits | (1 << 2) == 4;
    CarrierAfloat(s.(hits := 4));
    assert Coordinates(s)[2] == Step(Position(0, 0), Vertical, 2) == Position(0, 2);
    FireFirstShip(b, Position(0, 2), 2);
    assert Fire(b, Position(0, 2)).1.ships[1] == Fleet2()[1];
    assert !IsSunk(Fleet2()[1]);
  }

  /**
   * How the scripted demo plays out: the first player misses at (9,9), the
   * second hits at (0,0) and keeps the turn, misses at (0,1) on the empty
   * row 1 and passes the turn, so the last line, tagged for the second
   * player, is fired by the first player and hits at (0,2). Nobody wins and
   * the turn ends with the first player.
   */
  lemma DemoRun()
    ensures var f := Run(Duel(NewBoard(ZeroPepper).(ships := Fleet1()), NewBoard(ZeroPepper).(ships := Fleet2()), 0),
                         DemoScript(), 0);
      f.used == 4 && f.winner == None && f.duel.turn == 0
  {
    var b1 := NewBoard(ZeroPepper).(ships := Fleet1());
    var b2 := NewBoard(ZeroPepper).(ships := Fleet2());
    var d0 := Duel(b1, b2, 0);
    DemoLine0(b2);
    ShootRules(d0, Position(9, 9));
    var d1 := Shoot(d0, Position(9, 9)).0;
    RunStep(d0, DemoScript(), 0);
    assert CellAt(d1.p2.grid, Position(0, 2)) == CellAt(b2.grid, Position(0, 2));
    DemoRunLastThree(d1);
  }

  /** The demo's last three lines, from the state its first line leaves: a hit that keeps the turn, then the last two. */
  lemma DemoRunLastThree(d1: Duel)
    requires d1.turn == 1
    requires d1.p1.ships == Fleet1() && CellAt(d1.p1.grid, Position(0, 0)) == CellState.Empty
    requires CellAt(d1.p1.grid, Position(0, 1)) == CellState.Empty
    requires d1.p2.ships == Fleet2() && CellAt(d1.p2.grid, Position(0, 2)) == CellState.Empty
    ensures var f := Run(d1, DemoScript(), 1);
      f.used == 4 && f.winner == None && f.duel.turn == 0
  {
    DemoLine1(d1.p1);
    ShootRules(d1, Position(0, 0));
    var d2 := Shoot(d1, Position(0, 0)).0;
    RunStep(d1, DemoScript(), 1);
    assert CellAt(d2.p1.grid, Position(0, 1)) == CellAt(d1.p1.grid, Position(0, 1));
    assert d2.p2 == d1.p2;
    DemoRunLastTwo(d2);
  }

  /** The demo's last two lines, from the state its first two leave: a miss that passes the turn back, then a hit. */
  lemma DemoRunLastTwo(d2: Duel)
    requires d2.turn == 1
    requires d2.p1.ships == Fleet1Hit() && CellAt(d2.p1.grid, Position(0, 1)) == CellState.Empty
    requires d2.p2.ships == Fleet2() && CellAt(d2.p2.grid, Position(0, 2)) == CellState.Empty
    ensures var f := Run(d2, DemoScript(), 2);
      f.used == 4 && f.winner == None && f.duel.turn == 0
  {
    var script := DemoScript();
    DemoLine2(d2.p1);
    ShootRules(d2, Position(0, 1));
    var d3 := Shoot(d2, Position(0, 1)).0;
    RunStep(d2, script, 2);
    assert d3.p2 == d2.p2;
    DemoLine3(d3.p2);
    ShootRules(d3, Position(0, 2));
    RunStep(d3, script, 3);
  }

  /** A fresh ship along `d` whose two ends are on the board. */
  predicate ParallelShip(s: Ship, d: Direction)
  {
    s == NewShip(s.shipType, s.position, d) && InBounds(s.position) && InBounds(Step(s.position, d, Size(s.shipType) - 1))
  }

  /** Every ship of `fleet` lies along `d`, fits the board, and has a line and a type of its own. */
  predicate ParallelFleet(fleet: seq<Ship>, d: Direction)
  {
    && (forall i :: 0 <= i < |fleet| ==> ParallelShip(fleet[i], d))
    && (forall i, j :: 0 <= i < j < |fleet| ==>
         Line(fleet[i].position, d) != Line(fleet[j].position, d) && fleet[i].shipType != fleet[j].shipType)
  }

  /** Both demo fleets are parallel fleets: the first across, the second down. */
  lemma DemoFleetsParallel()
    ensures ParallelFleet(Fleet1(), Horizontal) && ParallelFleet(Fleet2(), Vertical)
  {
    ParallelFleetByShip(Fleet1(), Horizontal);
    ParallelFleetByShip(Fleet2(), Vertical);
  }

  /** A fleet of five ships is parallel when each ship is, and each pair lies on different lines with different types. */
  lemma ParallelFleetByShip(fleet: seq<Ship>, d: Direction)
    requires |fleet| == NumShips
    requires ParallelShip(fleet[0], d) && ParallelShip(fleet[1], d) && ParallelShip(fleet[2], d)
    requires ParallelShip(fleet[3], d) && ParallelShip(fleet[4], d)
    requires forall i, j :: 0 <= i < j < NumShips ==>
      Line(fleet[i].position, d) != Line(fleet[j].position, d) && fleet[i].shipType != fleet[j].shipType
    ensures ParallelFleet(fleet, d)
  {
    forall i | 0 <= i < |fleet| ensures ParallelShip(fleet[i], d) {
      if i == 0 {} else if i == 1 {} else if i == 2 {} else if i == 3 {} else {}
    }
  }

  /** Each ship of a parallel fleet fits beside the ones before it. */
  lemma ParallelFleetPlaceable(fleet: seq<Ship>, d: Direction, k: nat)
    requires ParallelFleet(fleet, d) && k < |fleet|
    ensures Placeable(fleet[..k], fleet[k].shipType, fleet[k].position, fleet[k].direction)
    ensures fleet[..k] + [NewShip(fleet[k].shipType, fleet[k].position, fleet[k].direction)] == fleet[..k + 1]
  {
    var s := fleet[k];
    assert forall i :: 0 <= i < k ==> fleet[..k][i] == fleet[i];
    ParallelPlaceable(fleet[..k], s.shipType, s.position, d);
  }

  /** Each demo placement fits beside the ones made before it, so every one of them succeeds. */
  lemma DemoFleetPlaceable(fleet: seq<Ship>, k: nat)
    requires fleet == Fleet1() || fleet == Fleet2()
    requires k < NumShips
    ensures Placeable(fleet[..k], fleet[k].shipType, fleet[k].position, fleet[k].direction)
    ensures fleet[..k] + [NewShip(fleet[k].shipType, fleet[k].position, fleet[k].direction)] == fleet[..k + 1]
  {
    DemoFleetsParallel();
    if fleet == Fleet1() {
      ParallelFleetPlaceable(fleet, Horizontal, k);
    } else {
      ParallelFleetPlaceable(fleet, Vertical, k);
    }
  }

  /** Places ship `k` of a demo fleet after the `k` before it; the placement succeeds. */
  method PlaceDemoShip(g: GameState, fleet: seq<Ship>, k: nat)
    requires fleet == Fleet1() || fleet == Fleet2()
    requires k < NumShips && g.Valid() && g.ships == fleet[..k]
    modifies g
    ensures g.Valid() && g.ships == fleet[..k + 1]
    ensures g.Snapshot() == old(g.Snapshot()).(ships := g.ships)
  {
    DemoFleetPlaceable(fleet, k);
    var ok := g.PlaceShip(fleet[k].shipType, fleet[k].position, fleet[k].direction);
  }

  /** One player's five placements, in the demo's order; each succeeds. */
  method PlaceDemoFleet(g: GameState, fleet: seq<Ship>)
    requires fleet == Fleet1() || fleet == Fleet2()
    requires g.Valid() && g.ships == []
    modifies g
    ensures g.Valid() && g.Snapshot() == old(g.Snapshot()).(ships := fleet)
  {
    assert fleet[..0] == [];
    PlaceDemoShip(g, fleet, 0);
    PlaceDemoShip(g, fleet, 1);
    PlaceDemoShip(g, fleet, 2);
    PlaceDemoShip(g, fleet, 3);
    PlaceDemoShip(g, fleet, 4);
    assert fleet[..5] == fleet;
  }

  /**
   * The demo: two fresh boards with zero pepper, the two fixed fleets placed
   * one ship at a time, then the scripted play. It ends with all four lines
   * used, no winner, and the turn with the first player.
   */
  method RunGameMasterDemo() returns (turn: int, idx: nat, winner: Option<int>)
    ensures turn == 0 && idx == 4 && winner == None
  {
    var p1 := new GameState(ZeroPepper);
    var p2 := new GameState(ZeroPepper);
    PlaceDemoFleet(p1, Fleet1());
    PlaceDemoFleet(p2, Fleet2());
    DemoRun();
    turn, idx, winner := PlayScript(p1, p2, DemoScript());
  }
}
