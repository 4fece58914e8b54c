/**
 * The move history: a list of records (ply, notation, board after the move)
 * whose plies are 1, 2, 3, ... in order, with the board before any ply
 * recoverable from it.
 */
module History {
  import opened Board

  datatype MoveRecord = MoveRecord(ply: int, notation: string, snapshot: ToguzBoard)

  /** The ledger invariant: record i holds ply i + 1. */
  predicate DensePlies(rs: seq<MoveRecord>) {
    forall i :: 0 <= i < |rs| ==> rs[i].ply == i + 1
  }

  /** The records after adding one with the next ply number. */
  function Appended(rs: seq<MoveRecord>, notation: string, snapshot: ToguzBoard): (r: seq<MoveRecord>)
    ensures |r| == |rs| + 1 && r[..|rs|] == rs
    ensures r[|rs|].ply == |rs| + 1 && r[|rs|].notation == notation && r[|rs|].snapshot == snapshot
    ensures DensePlies(rs) ==> DensePlies(r)
  {
    rs + [MoveRecord(|rs| + 1, notation, snapshot)]
  }

  /**
   * The board before ply + 1 is played: the starting position for ply 0,
   * otherwise the snapshot taken after ply.
   */
  function Rewind(rs: seq<MoveRecord>, ply: nat): (b: ToguzBoard)
    requires ply <= |rs|
    ensures ply == 0 ==> b == Default()
    ensures ply > 0 ==> b == rs[ply - 1].snapshot
    ensures DensePlies(rs) && ply > 0 ==> rs[ply - 1].ply == ply
  {
    if ply == 0 then Default() else rs[ply - 1].snapshot
  }

  /** The (ply, notation) rows shown in the history table. */
  function Table(rs: seq<MoveRecord>): (t: seq<(int, string)>)
    ensures |t| == |rs|
    ensures forall i :: 0 <= i < |rs| ==> t[i] == (rs[i].ply, rs[i].notation)
    ensures DensePlies(rs) ==> forall i :: 0 <= i < |t| ==> t[i].0 == i + 1
    decreases |rs|
  {
    if rs == [] then [] else Table(rs[..|rs| - 1]) + [(rs[|rs| - 1].ply, rs[|rs| - 1].notation)]
  }

  /** Truncating keeps the invariant, and the table shows exactly the kept rows. */
  lemma TruncateKeepsLedger(rs: seq<MoveRecord>, k: nat)
    requires DensePlies(rs) && k <= |rs|
    ensures DensePlies(rs[..k])
    ensures Table(rs[..k]) == Table(rs)[..k]
  {
  }

  /** After truncating to k records, rewinding to k gives what it gave before. */
  lemma TruncateKeepsRewind(rs: seq<MoveRecord>, k: nat, ply: nat)
    requires ply <= k <= |rs|
    ensures Rewind(rs[..k], ply) == Rewind(rs, ply)
  {
  }

  /** After truncating to k records, the next record added gets ply k + 1. */
  lemma TruncateThenAppend(rs: seq<MoveRecord>, k: nat, notation: string, snapshot: ToguzBoard)
    requires DensePlies(rs) && k <= |rs|
    ensures var r := Appended(rs[..k], notation, snapshot); DensePlies(r) && r[k].ply == k + 1
  {
  }

  class MoveHistory {
    var records: seq<MoveRecord>

    ghost predicate Valid()
      reads this
    {
      DensePlies(records)
    }

    constructor ()
      ensures records == [] && Valid()
    {
      records := [];
    }

    /** Appends one record numbered after the last one. */
    method Add(notation: string, snapshot: ToguzBoard)
      modifies this
      ensures records == Appended(old(records), notation, snapshot)
      ensures old(Valid()) ==> Valid()
    {
      records := records + [MoveRecord(|records| + 1, notation, snapshot)];
    }

    /** The board before ply + 1; the history is not changed. */
    function RewindTo(ply: nat): (b: ToguzBoard)
      reads this
      requires ply <= |records|
      ensures ply == 0 ==> b == Default()
      ensures ply > 0 ==> b == records[ply - 1].snapshot
      ensures Valid() && ply > 0 ==> records[ply - 1].ply == ply
    {
      Rewind(records, ply)
    }

    /** The rows of the history table; the history is not changed. */
    function AsTable(): (t: seq<(int, string)>)
      reads this
      ensures |t| == |records|
      ensures forall i :: 0 <= i < |records| ==> t[i] == (records[i].ply, records[i].notation)
      ensures Valid() ==> forall i :: 0 <= i < |t| ==> t[i].0 == i + 1
    {
      Table(records)
    }
  }
}
