/**
 * A history is a replayable log: each record's notation names a legal move of
 * the board before it, and its snapshot is that move applied.  Replaying
 * the notations from the starting position then rebuilds every snapshot, and
 * because every move empties a nonempty pit, no game lasts beyond 18 plies.
 */
module Replay {
  import opened Options
  import opened Board
  import opened Notation
  import opened History

  /** The board b followed by the move a notation names, or None if that is not a legal move. */
  function Step(b: ToguzBoard, notation: string): (r: Option<ToguzBoard>)
    ensures r.Some? ==> WellFormed(b) && ParseMove(notation).Some?
    ensures r.Some? ==> var p := ParseMove(notation).value.1;
      p in LegalMoves(b) && r.value == ApplyMove(b, p)
  {
    if !WellFormed(b) then None
    else match ParseMove(notation)
      case None => None
      case Some(m) => if m.1 in LegalMoves(b) then Some(ApplyMove(b, m.1)) else None
  }

  /** Conversely, the label of a legal move always steps to that move applied. */
  lemma StepOfLegalMove(b: ToguzBoard, byEngine: bool, p: nat)
    requires WellFormed(b) && p in LegalMoves(b)
    ensures Step(b, MoveNotation(byEngine, p)) == Some(ApplyMove(b, p))
  {
    NotationRoundTrip(byEngine, p);
  }

  /** Plays a list of move notations from the starting position. */
  function Play(ns: seq<string>): Option<ToguzBoard>
    decreases |ns|
  {
    if ns == [] then Some(Default())
    else match Play(ns[..|ns| - 1])
      case None => None
      case Some(b) => Step(b, ns[|ns| - 1])
  }

  /** Helper: playing one more notation is one more Step. */
  lemma PlayLast(ns: seq<string>, b: ToguzBoard, c: ToguzBoard)
    requires |ns| > 0 && Play(ns[..|ns| - 1]) == Some(b)
    requires Step(b, ns[|ns| - 1]) == Some(c)
    ensures Play(ns) == Some(c)
  {
  }

  /** The notation column of a history, in record order. */
  function Notations(rs: seq<MoveRecord>): (ns: seq<string>)
    ensures |ns| == |rs| && forall i :: 0 <= i < |rs| ==> ns[i] == rs[i].notation
    decreases |rs|
  {
    if rs == [] then [] else Notations(rs[..|rs| - 1]) + [rs[|rs| - 1].notation]
  }

  /** Record i is the legal move its notation names, played on the board before it. */
  predicate Follows(rs: seq<MoveRecord>, i: nat)
    requires i < |rs|
  {
    Step(Rewind(rs, i), rs[i].notation) == Some(rs[i].snapshot)
  }

  predicate Replayable(rs: seq<MoveRecord>) {
    DensePlies(rs) && forall i :: 0 <= i < |rs| ==> Follows(rs, i)
  }

  lemma ReplayablePrefix(rs: seq<MoveRecord>, k: nat)
    requires Replayable(rs) && k <= |rs|
    ensures Replayable(rs[..k])
  {
    forall i | 0 <= i < k
      ensures Follows(rs[..k], i)
    {
      assert Follows(rs, i);
      TruncateKeepsRewind(rs, k, i);
    }
  }

  /** Appending a legal step of the current board keeps a history replayable. */
  lemma AppendKeepsReplayable(rs: seq<MoveRecord>, notation: string, c: ToguzBoard)
    requires Replayable(rs) && Step(Rewind(rs, |rs|), notation) == Some(c)
    ensures Replayable(Appended(rs, notation, c))
  {
    var rs' := Appended(rs, notation, c);
    forall i | 0 <= i < |rs'|
      ensures Follows(rs', i)
    {
      if i < |rs| {
        assert Follows(rs, i);
        assert rs'[..|rs|] == rs;
        TruncateKeepsRewind(rs', |rs|, i);
      } else {
        TruncateKeepsRewind(rs', |rs|, i);
      }
    }
  }

  /** Playing the notations of a replayable history rebuilds its current board. */
  lemma {:induction false} PlayRebuilds(rs: seq<MoveRecord>)
    requires Replayable(rs)
    ensures Play(Notations(rs)) == Some(Rewind(rs, |rs|))
    decreases |rs|
  {
    if rs != [] {
      var k := |rs| - 1;
      var ns := Notations(rs);
      ReplayablePrefix(rs, k);
      PlayRebuilds(rs[..k]);
      TruncateKeepsRewind(rs, k, k);
      assert ns[..k] == Notations(rs[..k]);
      assert Follows(rs, k);
      assert ns[k] == rs[k].notation;
      PlayLast(ns, Rewind(rs, k), rs[k].snapshot);
    }
  }

  /** Playing the first ply notations rebuilds the board the history rewinds to. */
  lemma PlayRebuildsRewind(rs: seq<MoveRecord>, ply: nat)
    requires Replayable(rs) && ply <= |rs|
    ensures Play(Notations(rs)[..ply]) == Some(Rewind(rs, ply))
  {
    ReplayablePrefix(rs, ply);
    PlayRebuilds(rs[..ply]);
    assert Notations(rs)[..ply] == Notations(rs[..ply]);
    TruncateKeepsRewind(rs, ply, ply);
  }

  /** One legal step flips the side to move and empties exactly one nonempty pit. */
  lemma StepEffect(b: ToguzBoard, notation: string, c: ToguzBoard)
    requires Step(b, notation) == Some(c)
    ensures WellFormed(c) && c.turn == Xor1(b.turn)
    ensures CountNonEmpty(c.pits) == CountNonEmpty(b.pits) - 1
  {
    var p := ParseMove(notation).value.1;
    EmptyingLowersCount(b.pits, p);
  }

  lemma ParityAndCountAdvance(k: nat, b: ToguzBoard, c: ToguzBoard)
    requires b.turn == k % 2 && c.turn == Xor1(b.turn)
    requires CountNonEmpty(b.pits) + k == PitCount
    requires CountNonEmpty(c.pits) == CountNonEmpty(b.pits) - 1
    ensures c.turn == (k + 1) % 2 && CountNonEmpty(c.pits) + k + 1 == PitCount
  {
  }

  /**
   * After n plies of a replayable history the board has 18 pits, side n % 2
   * is to move and 18 - n pits are nonempty; so n never exceeds 18.
   */
  lemma {:induction false} ReplayableBounds(rs: seq<MoveRecord>)
    requires Replayable(rs)
    ensures WellFormed(Rewind(rs, |rs|))
    ensures Rewind(rs, |rs|).turn == |rs| % 2
    ensures CountNonEmpty(Rewind(rs, |rs|).pits) + |rs| == PitCount
    ensures |rs| <= PitCount
    decreases |rs|
  {
    if rs == [] {
      AllNonEmptyCount(Default().pits);
    } else {
      var k := |rs| - 1;
      ReplayablePrefix(rs, k);
      ReplayableBounds(rs[..k]);
      TruncateKeepsRewind(rs, k, k);
      var b, c := Rewind(rs, k), rs[k].snapshot;
      assert Follows(rs, k);
      StepEffect(b, rs[k].notation, c);
      ParityAndCountAdvance(k, b, c);
      assert Rewind(rs, |rs|) == c;
    }
  }
}
