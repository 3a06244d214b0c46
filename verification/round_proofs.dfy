/**
 * The host's validation of a remote round proof, once the receipt's
 * cryptographic check and the decoding of its journal are done: given the
 * decoded rounds, the shooter's copy of the opponent's state and the shot,
 * it accepts only the transition that shot makes on that state.
 */
module RoundProofs {
  import opened Wrappers
  import opened Geometry
  import opened Boards
  import opened Guest

  datatype ProofError = NoCommits | ShotMismatch | OldStateMismatch | ShotRejected | NewStateMismatch

  /**
   * Checks the last round against `server` and `shot`, in this order: there
   * is a round, its shot is `shot`, it starts at the state's commitment, the
   * state accepts the shot, and it ends at the commitment of the state after
   * the shot. On success the rounds come back unchanged.
   */
  function VerifyRoundProof(commit: Board -> Digest, commits: seq<RoundCommit>, server: Board, shot: Position)
    : (r: Result<seq<RoundCommit>, ProofError>)
    ensures r.Success? ==> r.value == commits
    ensures r == Failure(NoCommits) <==> commits == []
    ensures r == Failure(ShotMismatch) <==> commits != [] && commits[|commits| - 1].shot != shot
    ensures r == Failure(OldStateMismatch) <==>
      commits != [] && commits[|commits| - 1].shot == shot && commits[|commits| - 1].oldState != commit(server)
    ensures r == Failure(ShotRejected) <==>
      commits != [] && commits[|commits| - 1].shot == shot && commits[|commits| - 1].oldState == commit(server)
      && Fire(server, shot).0 == None
    ensures (r.Success? <==>
      commits != [] && commits[|commits| - 1].shot == shot && commits[|commits| - 1].oldState == commit(server)
      && Fire(server, shot).0 != None && commits[|commits| - 1].newState == commit(Fire(server, shot).1))
  {
    if |commits| == 0 then Failure(NoCommits)
    else
      var last := commits[|commits| - 1];
      if last.shot != shot then Failure(ShotMismatch)
      else if last.oldState != commit(server) then Failure(OldStateMismatch)
      else
        var (res, after) := Fire(server, shot);
        if res == None then Failure(ShotRejected)
        else if last.newState != commit(after) then Failure(NewStateMismatch)
        else Success(commits)
  }

  /**
   * Only the last round is examined, and of it only the shot and the two
   * commitments: earlier rounds and the recorded outcome never change the verdict.
   */
  lemma OnlyLastRoundExamined(commit: Board -> Digest, earlier: seq<RoundCommit>, last: RoundCommit, h: HitType,
                              server: Board, shot: Position)
    ensures (VerifyRoundProof(commit, earlier + [last], server, shot).Success?
         <==> VerifyRoundProof(commit, [last.(hit := h)], server, shot).Success?)
  {
    assert (earlier + [last])[|earlier|] == last;
  }

  /**
   * The guest's honest rounds for `shots`, checked against the state the
   * guest reached before the last shot, are accepted exactly when that state
   * accepts the last shot. A round recording a rejected shot is never accepted.
   */
  lemma HonestRoundAcceptedIffShotValid(commit: Board -> Digest, initial: Board, shots: seq<Position>)
    requires |shots| > 0
    ensures var n := |shots|;
      var server := Replay(initial, shots[..n - 1]);
      (VerifyRoundProof(commit, Rounds(commit, initial, shots), server, shots[n - 1]).Success?
       <==> Fire(server, shots[n - 1]).0 != None)
  {
    var n := |shots|;
    RoundAt(commit, initial, shots, n - 1);
    assert shots[..n] == shots;
  }

  /**
   * With a collision-free commitment, accepting the guest's rounds pins the
   * guest's pre-shot state to the verifier's state, so the recorded outcome
   * is the one the engine computes on that state and the new commitment is
   * that of the state after the shot.
   */
  lemma AcceptedRoundIsHonest(commit: Board -> Digest, initial: Board, shots: seq<Position>, server: Board, shot: Position)
    requires forall a, b :: commit(a) == commit(b) ==> a == b
    requires VerifyRoundProof(commit, Rounds(commit, initial, shots), server, shot).Success?
    ensures |shots| > 0 && shots[|shots| - 1] == shot
    ensures Replay(initial, shots[..|shots| - 1]) == server
    ensures Fire(server, shot).0 == Some(Rounds(commit, initial, shots)[|shots| - 1].hit)
    ensures Replay(initial, shots) == Fire(server, shot).1
  {
    var n := |shots|;
    RoundAt(commit, initial, shots, n - 1);
    assert shots[..n] == shots;
  }
}
