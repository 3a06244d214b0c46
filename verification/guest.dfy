/**
 * The proving guest: it validates the initial game state, publishes its
 * commitment, then applies each shot in order and publishes one round per
 * shot. The hash is the parameter `commit`, any deterministic function of
 * the state's value.
 */
module Guest {
  import opened Wrappers
  import opened Geometry
  import opened Boards
  import opened ShotFacts
  import opened GameStates

  /** The guest's public output: the initial commitment, then one round per shot, in order. */
  datatype Journal = Journal(initial: Digest, rounds: seq<RoundCommit>)

  /**
   * One round on a state value: an accepted shot yields its outcome and the
   * new state; a rejected one is recorded as a Miss and changes nothing.
   */
  function GuestShot(b: Board, shot: Position): (HitType, Board)
  {
    var (res, after) := Fire(b, shot);
    if res.Some? then (res.value, after) else (HitType.Miss, b)
  }

  /** The state after the guest has processed `shots` in order. */
  function Replay(b: Board, shots: seq<Position>): Board
    decreases |shots|
  {
    if |shots| == 0 then b
    else GuestShot(Replay(b, shots[..|shots| - 1]), shots[|shots| - 1]).1
  }

  /** The rounds the guest publishes for `shots`, starting from `b`. */
  function Rounds(commit: Board -> Digest, b: Board, shots: seq<Position>): (rs: seq<RoundCommit>)
    ensures |rs| == |shots|
    decreases |shots|
  {
    if |shots| == 0 then []
    else
      var pre := Replay(b, shots[..|shots| - 1]);
      var (hit, post) := GuestShot(pre, shots[|shots| - 1]);
      Rounds(commit, b, shots[..|shots| - 1]) + [RoundCommit(commit(pre), commit(post), shots[|shots| - 1], hit)]
  }

  /**
   * Runs the guest. None stands for the abort on an initial state that fails
   * the consistency check, in which case nothing is published.
   */
  method GuestMain(commit: Board -> Digest, initial: Board, shots: seq<Position>) returns (journal: Option<Journal>)
    ensures journal.None? <==> !Consistent(initial)
    ensures journal.Some? ==> journal.value == Journal(commit(initial), Rounds(commit, initial, shots))
  {
    var state := new GameState.FromBoard(initial);
    var valid := state.Check();
    if !valid {
      return None;
    }
    var initialCommit := commit(state.Snapshot());
    var rounds := [];
    for i := 0 to |shots|
      invariant state.Valid()
      invariant state.Snapshot() == Replay(initial, shots[..i])
      invariant rounds == Rounds(commit, initial, shots[..i])
    {
      var shot := shots[i];
      var oldState := commit(state.Snapshot());
      var applied := state.ApplyShot(shot);
      var hit := match applied
        case Some(h) => h
        case None => HitType.Miss;
      var newState := commit(state.Snapshot());
      rounds := rounds + [RoundCommit(oldState, newState, shot, hit)];
      assert shots[..i + 1][..i] == shots[..i];
    }
    assert shots[..|shots|] == shots;
    return Some(Journal(initialCommit, rounds));
  }

  /**
   * Round i of the journal: the commitments of the states before and after
   * the i-th shot, that shot, and its outcome.
   */
  lemma {:induction false} RoundAt(commit: Board -> Digest, b: Board, shots: seq<Position>, i: nat)
    requires i < |shots|
    ensures Rounds(commit, b, shots)[i] ==
      RoundCommit(commit(Replay(b, shots[..i])), commit(Replay(b, shots[..i + 1])), shots[i],
                  GuestShot(Replay(b, shots[..i]), shots[i]).0)
    decreases |shots|
  {
    var n := |shots|;
    var init := shots[..n - 1];
    assert shots[..n - 1][..i] == shots[..i];
    if i < n - 1 {
      RoundAt(commit, b, init, i);
      assert init[..i + 1] == shots[..i + 1];
    } else {
      assert shots[..i + 1] == shots;
      if i > 0 {
        RoundAt(commit, b, init, i - 1);
      }
    }
  }

  /**
   * The journal is a hash chain: one round per shot, carrying that shot; the
   * first round starts from the initial commitment, each later round starts
   * where the previous one ended, and the last ends at the commitment of the
   * state after all shots.
   */
  lemma RoundsFormChain(commit: Board -> Digest, b: Board, shots: seq<Position>)
    ensures |Rounds(commit, b, shots)| == |shots|
    ensures forall i :: 0 <= i < |shots| ==> Rounds(commit, b, shots)[i].shot == shots[i]
    ensures |shots| > 0 ==> Rounds(commit, b, shots)[0].oldState == commit(b)
    ensures forall i :: 0 < i < |shots| ==> Rounds(commit, b, shots)[i].oldState == Rounds(commit, b, shots)[i - 1].newState
    ensures |shots| > 0 ==> Rounds(commit, b, shots)[|shots| - 1].newState == commit(Replay(b, shots))
  {
    var rs := Rounds(commit, b, shots);
    if |shots| > 0 {
      RoundAt(commit, b, shots, 0);
      RoundAt(commit, b, shots, |shots| - 1);
      assert shots[..|shots|] == shots;
    } else {
      assert |rs| == 0;
    }
    forall i | 0 <= i < |shots| ensures rs[i].shot == shots[i] {
      RoundAt(commit, b, shots, i);
    }
    forall i | 0 < i < |shots| ensures rs[i].oldState == rs[i - 1].newState {
      RoundAt(commit, b, shots, i);
      RoundAt(commit, b, shots, i - 1);
    }
  }

  /**
   * A shot the state rejects (out of bounds or already shot) is recorded as a
   * Miss whose new commitment equals the old one; an accepted shot is
   * recorded with the outcome the engine reports.
   */
  lemma RoundOutcome(commit: Board -> Digest, b: Board, shots: seq<Position>, i: nat)
    requires i < |shots|
    ensures var pre := Replay(b, shots[..i]);
      var r := Rounds(commit, b, shots)[i];
      Fire(pre, shots[i]).0 == None ==> r.hit == HitType.Miss && r.newState == r.oldState
    ensures var pre := Replay(b, shots[..i]);
      var r := Rounds(commit, b, shots)[i];
      Fire(pre, shots[i]).0 != None ==> r.hit == Fire(pre, shots[i]).0.value && r.newState == commit(Fire(pre, shots[i]).1)
  {
    RoundAt(commit, b, shots, i);
    assert shots[..i + 1][..i] == shots[..i];
  }

  /** Processing shots keeps a consistent state consistent and its hit masks in step with the grid. */
  lemma {:induction false} ReplayPreservesInvariants(b: Board, shots: seq<Position>)
    requires Consistent(b) && HitsMatchGrid(b)
    ensures Consistent(Replay(b, shots)) && HitsMatchGrid(Replay(b, shots))
    decreases |shots|
  {
    if |shots| > 0 {
      var pre := Replay(b, shots[..|shots| - 1]);
      ReplayPreservesInvariants(b, shots[..|shots| - 1]);
      FirePreservesConsistency(pre, shots[|shots| - 1]);
      FirePreservesHitsMatchGrid(pre, shots[|shots| - 1]);
    }
  }
}
