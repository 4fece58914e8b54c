/**
 * The move labels written into the history: "P:" for the player and "AI:"
 * for the engine, followed by the 1-based pit number in decimal.  The parser
 * is the inverse used to read a history back as a list of moves.
 */
module Notation {
  import opened Options

  predicate IsDigit(c: char) {
    '0' <= c <= '9'
  }

  predicate AllDigits(s: string) {
    forall i :: 0 <= i < |s| ==> IsDigit(s[i])
  }

  function DigitChar(d: nat): (c: char)
    requires d < 10
    ensures IsDigit(c) && c as int - '0' as int == d
  {
    ('0' as int + d) as char
  }

  /** The decimal spelling of n, as Python's str() prints a non-negative int. */
  function Decimal(n: nat): (s: string)
    ensures |s| >= 1 && AllDigits(s)
    ensures |s| > 1 ==> s[0] != '0'
    decreases n
  {
    if n < 10 then [DigitChar(n)] else Decimal(n / 10) + [DigitChar(n % 10)]
  }

  /** The number a string of decimal digits denotes. */
  function DigitsValue(s: string): nat
    requires AllDigits(s)
    decreases |s|
  {
    if s == [] then 0
    else DigitsValue(s[..|s| - 1]) * 10 + (s[|s| - 1] as int - '0' as int)
  }

  lemma {:induction false} DecimalRoundTrip(n: nat)
    ensures DigitsValue(Decimal(n)) == n
    decreases n
  {
    if n >= 10 {
      var s := Decimal(n);
      assert s[..|s| - 1] == Decimal(n / 10);
      DecimalRoundTrip(n / 10);
    }
  }

  /** The label of a move of pit p (0-based): "AI:" or "P:" and p + 1. */
  function MoveNotation(byEngine: bool, p: nat): (s: string)
    ensures byEngine ==> |s| > 3 && s[..3] == "AI:" && s[3..] == Decimal(p + 1)
    ensures !byEngine ==> |s| > 2 && s[..2] == "P:" && s[2..] == Decimal(p + 1)
  {
    (if byEngine then "AI:" else "P:") + Decimal(p + 1)
  }

  /** A 1-based pit number back to a 0-based pit index. */
  function ParsePit(t: string): Option<nat> {
    if |t| >= 1 && AllDigits(t) && DigitsValue(t) >= 1 then Some(DigitsValue(t) - 1) else None
  }

  /** Reads a label back as (byEngine, pit index); None when it is not one. */
  function ParseMove(s: string): (m: Option<(bool, nat)>)
    ensures m.Some? ==> (if m.value.0 then |s| > 3 && s[..3] == "AI:" else |s| > 2 && s[..2] == "P:")
  {
    if |s| >= 3 && s[..3] == "AI:" then
      match ParsePit(s[3..])
      case None => None
      case Some(p) => Some((true, p))
    else if |s| >= 2 && s[..2] == "P:" then
      match ParsePit(s[2..])
      case None => None
      case Some(p) => Some((false, p))
    else None
  }

  /** Every label the program writes reads back as the move it records. */
  lemma NotationRoundTrip(byEngine: bool, p: nat)
    ensures ParseMove(MoveNotation(byEngine, p)) == Some((byEngine, p))
  {
    var s := MoveNotation(byEngine, p);
    DecimalRoundTrip(p + 1);
    if byEngine {
      assert s[..3] == "AI:" && s[3..] == Decimal(p + 1);
    } else {
      assert s[..2] == "P:" && s[2..] == Decimal(p + 1);
      assert s[..3] != "AI:" by { assert s[0] == 'P'; }
    }
  }

  /** Hence two different moves never get the same label. */
  lemma NotationInjective(e1: bool, p1: nat, e2: bool, p2: nat)
    requires MoveNotation(e1, p1) == MoveNotation(e2, p2)
    ensures e1 == e2 && p1 == p2
  {
    NotationRoundTrip(e1, p1);
    NotationRoundTrip(e2, p2);
  }
}
