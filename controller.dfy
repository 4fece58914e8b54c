/**
 * The game controller without its widgets: the current board and the move
 * history, a board click that plays the player's move and then the engine's
 * automatic reply, and a history-row selection that rewinds and truncates.
 *
 * GameState and the step functions below say what each event does to the
 * pair (board, records); the GameController class holds that pair as fields
 * and its methods are proved to perform exactly those steps.
 */
module Controller {
  import opened Options
  import opened Board
  import opened Notation
  import opened History
  import opened Replay

  datatype GameState = GameState(board: ToguzBoard, records: seq<MoveRecord>)

  /** The state at game start: the starting position and an empty history. */
  function Initial(): GameState {
    GameState(Default(), [])
  }

  /**
   * The controller's invariant: the history is densely numbered, every board
   * in it has 18 pits, and the current board is the one the history ends
   * in (the starting position when it is empty).
   */
  predicate Consistent(s: GameState) {
    DensePlies(s.records) &&
    (forall i :: 0 <= i < |s.records| ==> WellFormed(s.records[i].snapshot)) &&
    WellFormed(s.board) &&
    s.board == Rewind(s.records, |s.records|)
  }

  /** Playing pit p, by the player or by the engine, and recording the result. */
  function Played(s: GameState, p: nat, byEngine: bool): (r: GameState)
    requires p < |s.board.pits|
    ensures r.board == ApplyMove(s.board, p)
    ensures |r.records| == |s.records| + 1 && r.records[..|s.records|] == s.records
    ensures r.records[|s.records|] == MoveRecord(|s.records| + 1, MoveNotation(byEngine, p), r.board)
    ensures Consistent(s) ==> Consistent(r)
  {
    var next := ApplyMove(s.board, p);
    GameState(next, Appended(s.records, MoveNotation(byEngine, p), next))
  }

  /** The engine's reply: the first legal move, or nothing when the game is over. */
  function EngineReply(s: GameState): (r: GameState)
    requires WellFormed(s.board)
    ensures LegalMoves(s.board) == [] <==> r == s
    ensures LegalMoves(s.board) != [] ==> r == Played(s, LegalMoves(s.board)[0], true)
  {
    var legal := LegalMoves(s.board);
    if legal == [] then s else Played(s, legal[0], true)
  }

  /** Whether a click hit a pit that is a legal move. */
  predicate LegalClick(s: GameState, pit: Option<int>)
    requires WellFormed(s.board)
  {
    pit.Some? && pit.value in LegalMoves(s.board)
  }

  /** A click on the board: the player's move and the engine's reply if it hit a legal pit. */
  function Click(s: GameState, pit: Option<int>): (r: GameState)
    requires WellFormed(s.board)
    ensures !LegalClick(s, pit) ==> r == s
    ensures Consistent(s) ==> Consistent(r)
  {
    if LegalClick(s, pit) then EngineReply(Played(s, pit.value, false)) else s
  }

  /**
   * A click on legal pit k appends the record "P:k+1" of the player's move
   * and, if the engine can then move, the record "AI:j+1" of its first legal
   * pit j: the history grows by two, or by one when the game is over.
   */
  lemma ClickRecords(s: GameState, k: nat)
    requires WellFormed(s.board) && LegalClick(s, Some(k))
    ensures
      var r := Click(s, Some(k));
      var n := |s.records|;
      var after := ApplyMove(s.board, k);
      var replies := LegalMoves(after);
      && r.records[..n] == s.records
      && |r.records| == (if replies == [] then n + 1 else n + 2)
      && r.records[n] == MoveRecord(n + 1, MoveNotation(false, k), after)
      && (replies == [] ==> r.board == after)
      && (replies != [] ==>
            r.board == ApplyMove(after, replies[0]) &&
            r.records[n + 1] == MoveRecord(n + 2, MoveNotation(true, replies[0]), r.board))
  {
    var s1 := Played(s, k, false);
    assert s1.board == ApplyMove(s.board, k);
    if LegalMoves(s1.board) != [] {
      var s2 := Played(s1, LegalMoves(s1.board)[0], true);
      assert s2.records[..|s.records|] == s1.records[..|s.records|];
    }
  }

  /**
   * Selecting table row r: the board before ply r + 1 becomes current and
   * the history keeps its first r records.
   */
  function Select(s: GameState, r: nat): (t: GameState)
    requires r <= |s.records|
    ensures t.records == s.records[..r] && t.board == Rewind(s.records, r)
    ensures Consistent(s) ==> Consistent(t)
    ensures Consistent(s) && r > 0 ==> t.board == s.records[r - 1].snapshot && t.records[r - 1].ply == r
  {
    GameState(Rewind(s.records, r), s.records[..r])
  }

  /** Selecting the same row twice does what selecting it once does. */
  lemma SelectIdempotent(s: GameState, r: nat)
    requires r <= |s.records|
    ensures Select(Select(s, r), r) == Select(s, r)
  {
    TruncateKeepsRewind(s.records, r, r);
  }

  /** After selecting row r, the next move recorded gets ply r + 1. */
  lemma SelectThenClick(s: GameState, r: nat, pit: Option<int>)
    requires Consistent(s) && r <= |s.records|
    requires LegalClick(Select(s, r), pit)
    ensures |Click(Select(s, r), pit).records| > r
    ensures Click(Select(s, r), pit).records[..r] == s.records[..r]
    ensures Click(Select(s, r), pit).records[r].ply == r + 1
  {
  }

  /** Once the side to move has no legal move, clicks change nothing. */
  lemma GameOverIsFinal(s: GameState, pit: Option<int>)
    requires WellFormed(s.board) && LegalMoves(s.board) == []
    ensures Click(s, pit) == s
  {
  }

  /** The starting state is consistent and a replayable history. */
  lemma InitialIsReplayable()
    ensures Consistent(Initial()) && Replayable(Initial().records)
  {
  }

  /** Playing a legal move keeps the history a replayable log. */
  lemma PlayedKeepsReplayable(s: GameState, p: nat, byEngine: bool)
    requires Consistent(s) && Replayable(s.records) && p in LegalMoves(s.board)
    ensures Replayable(Played(s, p, byEngine).records)
  {
    var next := ApplyMove(s.board, p);
    StepOfLegalMove(s.board, byEngine, p);
    AppendKeepsReplayable(s.records, MoveNotation(byEngine, p), next);
  }

  /** Every click keeps the history a replayable log. */
  lemma ClickKeepsReplayable(s: GameState, pit: Option<int>)
    requires Consistent(s) && Replayable(s.records)
    ensures Replayable(Click(s, pit).records)
  {
    if LegalClick(s, pit) {
      var s1 := Played(s, pit.value, false);
      PlayedKeepsReplayable(s, pit.value, false);
      if LegalMoves(s1.board) != [] {
        PlayedKeepsReplayable(s1, LegalMoves(s1.board)[0], true);
      }
    }
  }

  /** Every row selection keeps the history a replayable log. */
  lemma SelectKeepsReplayable(s: GameState, r: nat)
    requires Replayable(s.records) && r <= |s.records|
    ensures Replayable(Select(s, r).records)
  {
    ReplayablePrefix(s.records, r);
  }

  /**
   * In every state reachable from the start, n recorded plies leave side
   * n % 2 to move, and the game never lasts beyond 18 plies.
   */
  lemma ReachableBounds(s: GameState)
    requires Consistent(s) && Replayable(s.records)
    ensures s.board.turn == |s.records| % 2
    ensures |s.records| <= PitCount
    ensures Play(Notations(s.records)) == Some(s.board)
  {
    ReplayableBounds(s.records);
    PlayRebuilds(s.records);
  }

  class GameController {
    var board: ToguzBoard
    const history: MoveHistory

    ghost function State(): GameState
      reads this, history
    {
      GameState(board, history.records)
    }

    ghost predicate Valid()
      reads this, history
    {
      Consistent(State())
    }

    constructor ()
      ensures Valid() && State() == Initial() && fresh(history)
    {
      board := Default();
      history := new MoveHistory();
    }

    /** Records the current board under the given notation. */
    method PushHistory(notation: string)
      modifies history
      ensures history.records == Appended(old(history.records), notation, board)
    {
      history.Add(notation, board);
    }

    /** Plays pit p; after a player's move, lets the engine reply. */
    method ApplyMove(p: nat, byEngine: bool)
      requires Valid() && p < |board.pits|
      modifies this, history
      ensures Valid()
      ensures State() == if byEngine then Played(old(State()), p, true)
                         else EngineReply(Played(old(State()), p, false))
      decreases if byEngine then 0 else 2
    {
      var notation := MoveNotation(byEngine, p);
      board := Board.ApplyMove(board, p);
      PushHistory(notation);
      if !byEngine {
        EngineMove();
      }
    }

    /** The engine plays its first legal move; when it has none the game is over. */
    method EngineMove()
      requires Valid()
      modifies this, history
      ensures Valid()
      ensures State() == EngineReply(old(State()))
      decreases 1
    {
      var legal := LegalMoves(board);
      if legal == [] {
        return;
      }
      var chosen := legal[0];
      ApplyMove(chosen, true);
    }

    /** A click that hit pit `pit` (None when it hit no pit). */
    method PlayerClick(pit: Option<int>)
      requires Valid()
      modifies this, history
      ensures Valid()
      ensures State() == Click(old(State()), pit)
    {
      if pit.Some? && pit.value in LegalMoves(board) {
        ApplyMove(pit.value, false);
      }
    }

    /** Selecting history-table row r (0-based): rewind, then drop later records. */
    method SelectRow(r: nat)
      requires Valid() && r <= |history.records|
      modifies this, history
      ensures Valid()
      ensures State() == Select(old(State()), r)
    {
      board := history.RewindTo(r);
      history.records := history.records[..r];
    }

    /** A table event; an empty selection is ignored. */
    method TableEvent(selection: seq<nat>)
      requires Valid() && (selection != [] ==> selection[0] <= |history.records|)
      modifies this, history
      ensures Valid()
      ensures State() == if selection == [] then old(State()) else Select(old(State()), selection[0])
    {
      if selection != [] {
        SelectRow(selection[0]);
      }
    }
  }
}
