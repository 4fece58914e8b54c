/**
 * The Toguz Kumalak board value: 18 pit counts, the two kazans (stores) and the
 * side to move, with the placeholder move generator and move rule that the
 * GUI ships with.  Boards are immutable values, so the deep copies the GUI
 * takes before changing or storing a board are identities here.
 */
module Board {

  /** Number of pits on the board, and of pits in one row. */
  const PitCount: nat := 18
  const RowLength: nat := 9

  /** Seeds in every pit of the starting position. */
  const InitialSeeds: int := 9

  /**
   * pits[0..8] is the bottom row (side 0), pits[9..17] the top row (side 1);
   * kazans is (current player, opponent); turn 0 means the bottom side moves.
   */
  datatype ToguzBoard = ToguzBoard(pits: seq<int>, kazans: (int, int), turn: int)

  /** Every board the program builds has exactly 18 pits. */
  predicate WellFormed(b: ToguzBoard) {
    |b.pits| == PitCount
  }

  /** The starting position built by the default constructor. */
  function Default(): (b: ToguzBoard)
    ensures WellFormed(b)
    ensures forall i :: 0 <= i < |b.pits| ==> b.pits[i] == InitialSeeds
    ensures b.kazans == (0, 0) && b.turn == 0
  {
    ToguzBoard(seq(PitCount, _ => InitialSeeds), (0, 0), 0)
  }

  /**
   * The in-place `turn ^= 1`: flips the lowest bit of a two's-complement
   * integer.  With Dafny's Euclidean `%` this is exact for every int.
   */
  function Xor1(t: int): (r: int)
    ensures r != t && r / 2 == t / 2
    ensures t == 0 <==> r == 1
    ensures t == 1 <==> r == 0
  {
    if t % 2 == 0 then t + 1 else t - 1
  }

  /** Flipping the turn twice gives back the original turn. */
  lemma Xor1Involutive(t: int)
    ensures Xor1(Xor1(t)) == t
  {
  }

  /** Whether pit i belongs to the row of the side to move. */
  predicate OnSideToMove(b: ToguzBoard, i: int) {
    if b.turn == 0 then 0 <= i < RowLength else RowLength <= i < PitCount
  }

  predicate StrictlyIncreasing(s: seq<int>) {
    forall j, k :: 0 <= j < k < |s| ==> s[j] < s[k]
  }

  /** The indices in [lo, hi) whose pit is nonempty, in ascending order. */
  function NonEmptyIn(pits: seq<int>, lo: nat, hi: nat): (r: seq<nat>)
    requires lo <= hi <= |pits|
    ensures StrictlyIncreasing(r)
    ensures forall j :: 0 <= j < |r| ==> lo <= r[j] < hi
    ensures forall i: int :: i in r <==> lo <= i < hi && pits[i] > 0
    decreases hi - lo
  {
    if lo == hi then []
    else if pits[lo] > 0 then [lo] + NonEmptyIn(pits, lo + 1, hi)
    else NonEmptyIn(pits, lo + 1, hi)
  }

  /** The placeholder move generator: the nonempty pits of the mover's row. */
  function LegalMoves(b: ToguzBoard): (r: seq<nat>)
    requires WellFormed(b)
    ensures StrictlyIncreasing(r)
    ensures forall i: int :: i in r <==> OnSideToMove(b, i) && b.pits[i] > 0
  {
    if b.turn == 0 then NonEmptyIn(b.pits, 0, RowLength)
    else NonEmptyIn(b.pits, RowLength, PitCount)
  }

  /**
   * The placeholder move rule: a new board in which the chosen pit is empty
   * and the other side is to move.  No seed is sown or captured.
   */
  function ApplyMove(b: ToguzBoard, p: nat): (r: ToguzBoard)
    requires p < |b.pits|
    ensures |r.pits| == |b.pits| && r.pits[p] == 0
    ensures forall i :: 0 <= i < |b.pits| && i != p ==> r.pits[i] == b.pits[i]
    ensures r.kazans == b.kazans
    ensures r.turn != b.turn && Xor1(r.turn) == b.turn
    ensures b.turn in {0, 1} ==> r.turn == 1 - b.turn
  {
    ToguzBoard(b.pits[p := 0], b.kazans, Xor1(b.turn))
  }

  /** Number of nonempty pits. */
  function CountNonEmpty(s: seq<int>): (n: nat)
    ensures n <= |s|
  {
    if s == [] then 0 else (if s[0] > 0 then 1 else 0) + CountNonEmpty(s[1..])
  }

  lemma {:induction false} AllNonEmptyCount(s: seq<int>)
    requires forall i :: 0 <= i < |s| ==> s[i] > 0
    ensures CountNonEmpty(s) == |s|
  {
    if s != [] {
      AllNonEmptyCount(s[1..]);
    }
  }

  /** Emptying a nonempty pit lowers the number of nonempty pits by one. */
  lemma {:induction false} EmptyingLowersCount(s: seq<int>, p: nat)
    requires p < |s| && s[p] > 0
    ensures CountNonEmpty(s[p := 0]) == CountNonEmpty(s) - 1
  {
    if p == 0 {
      assert s[p := 0][1..] == s[1..];
    } else {
      assert s[p := 0][1..] == s[1..][p - 1 := 0];
      EmptyingLowersCount(s[1..], p - 1);
    }
  }

  /** The indices lo, lo + 1, ..., hi - 1. */
  function Range(lo: nat, hi: nat): (r: seq<nat>)
    requires lo <= hi
    ensures |r| == hi - lo && forall j :: 0 <= j < |r| ==> r[j] == lo + j
  {
    seq(hi - lo, j => lo + j)
  }

  /** When every pit of [lo, hi) is nonempty, all of them are listed. */
  lemma {:induction false} AllNonEmptyIn(pits: seq<int>, lo: nat, hi: nat)
    requires lo <= hi <= |pits|
    requires forall i :: lo <= i < hi ==> pits[i] > 0
    ensures NonEmptyIn(pits, lo, hi) == Range(lo, hi)
    decreases hi - lo
  {
    if lo < hi {
      AllNonEmptyIn(pits, lo + 1, hi);
      assert [lo] + Range(lo + 1, hi) == Range(lo, hi);
    }
  }

  /** The starting position: every bottom-row pit is a legal move, in order. */
  lemma DefaultLegalMoves()
    ensures LegalMoves(Default()) == [0, 1, 2, 3, 4, 5, 6, 7, 8]
  {
    AllNonEmptyIn(Default().pits, 0, RowLength);
    assert Range(0, RowLength) == [0, 1, 2, 3, 4, 5, 6, 7, 8];
  }
}
