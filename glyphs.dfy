/** The big-digit bitmap of tty-clock.
    Each of the ten digits is 30 colour-pair flags: flag i is drawn at row i / 6 and
    column i % 6 of the digit block, so a block is 5 rows tall and 6 columns wide.
    Flag 1 selects the highlighted colour pair, flag 0 the background pair. */
module Glyphs {

  /** Number of flags per digit (LGNUM). */
  const CellsPerDigit: int := 30
  /** Columns per row of a digit block. */
  const BlockWidth: int := 6
  /** Rows of a digit block. */
  const BlockHeight: int := 5

  /** The source's two-valued `Bool` (False = 0, True = 1), the element type of the table. */
  type Bit = b: int | 0 <= b <= 1

  /** The constant table `number`, one row per digit 0..9. */
  const Number: seq<seq<Bit>> := [
    [1,1,1,1,1,1,1,1,0,0,1,1,1,1,0,0,1,1,1,1,0,0,1,1,1,1,1,1,1,1], // 0
    [0,0,0,0,1,1,0,0,0,0,1,1,0,0,0,0,1,1,0,0,0,0,1,1,0,0,0,0,1,1], // 1
    [1,1,1,1,1,1,0,0,0,0,1,1,1,1,1,1,1,1,1,1,0,0,0,0,1,1,1,1,1,1], // 2
    [1,1,1,1,1,1,0,0,0,0,1,1,1,1,1,1,1,1,0,0,0,0,1,1,1,1,1,1,1,1], // 3
    [1,1,0,0,1,1,1,1,0,0,1,1,1,1,1,1,1,1,0,0,0,0,1,1,0,0,0,0,1,1], // 4
    [1,1,1,1,1,1,1,1,0,0,0,0,1,1,1,1,1,1,0,0,0,0,1,1,1,1,1,1,1,1], // 5
    [1,1,1,1,1,1,1,1,0,0,0,0,1,1,1,1,1,1,1,1,0,0,1,1,1,1,1,1,1,1], // 6
    [1,1,1,1,1,1,0,0,0,0,1,1,0,0,0,0,1,1,0,0,0,0,1,1,0,0,0,0,1,1], // 7
    [1,1,1,1,1,1,1,1,0,0,1,1,1,1,1,1,1,1,1,1,0,0,1,1,1,1,1,1,1,1], // 8
    [1,1,1,1,1,1,1,1,0,0,1,1,1,1,1,1,1,1,0,0,0,0,1,1,1,1,1,1,1,1]  // 9
  ]

  /** A decimal digit, the only valid row index of the table. */
  predicate IsDigit(d: int) { 0 <= d < 10 }

  /** Colour pair of flag `i` of digit `num`: always one of the two pairs 0 and 1. */
  function Flag(num: int, i: int): (pair: int)
    requires IsDigit(num) && 0 <= i < CellsPerDigit
    ensures pair == 0 || pair == 1
  {
    FlagOf(Number, num, i)
  }

  /** Entry `i` of row `num` of a table of flags, found by walking down the rows one at a
      time. The source indexes `number[num][i]` directly; the walk gives the same entry
      (`FlagOfIndex`) and keeps the verifier from expanding the whole literal table at
      every flag it meets. */
  function FlagOf(rows: seq<seq<Bit>>, num: nat, i: nat): Bit
    requires num < |rows| && i < |rows[num]|
    decreases num
  {
    if num == 0 then rows[0][i] else FlagOf(rows[1..], num - 1, i)
  }

  /** The walk finds the indexed entry. */
  lemma {:induction false} FlagOfIndex(rows: seq<seq<Bit>>, num: nat, i: nat)
    requires num < |rows| && i < |rows[num]|
    ensures FlagOf(rows, num, i) == rows[num][i]
    decreases num
  {
    if num > 0 {
      FlagOfIndex(rows[1..], num - 1, i);
    }
  }

  /** Flag `i` of digit `num` is the table entry `number[num][i]`. */
  lemma FlagIsEntry(num: int, i: int)
    requires IsDigit(num) && 0 <= i < CellsPerDigit
    ensures Flag(num, i) == Number[num][i]
  {
    FlagOfIndex(Number, num, i);
  }

  /** The table has ten rows of thirty flags each. */
  lemma TableShape()
    ensures |Number| == 10
    ensures forall d :: IsDigit(d) ==> |Number[d]| == CellsPerDigit
  {
  }

  /** No two digits share a bitmap, so every digit is readable on screen. */
  lemma GlyphsDistinct(a: int, b: int)
    requires IsDigit(a) && IsDigit(b) && a != b
    ensures exists i :: 0 <= i < CellsPerDigit && Flag(a, i) != Flag(b, i)
  {
    var lo, hi := if a < b then a else b, if a < b then b else a;
    var w := Witness(lo, hi);
    RowsDiffer(lo, hi);
    FlagIsEntry(a, w);
    FlagIsEntry(b, w);
  }

  /** A flag index where the bitmaps of digits lo < hi differ. */
  function Witness(lo: int, hi: int): int {
    if lo == 0 then
      (if hi == 1 then 0 else if hi == 4 then 2 else if hi == 5 || hi == 6 then 10
       else if hi == 8 || hi == 9 then 14 else 6)
    else if lo == 1 then 0
    else if lo == 2 || lo == 3 then
      (if hi == 3 then 18 else if hi == 4 then 2 else if hi == 7 then 12 else 6)
    else if lo == 4 then 2
    else if lo == 5 then (if hi == 6 then 18 else if hi == 7 then 6 else 10)
    else if lo == 6 then 10
    else if lo == 7 then 6
    else 18
  }

  lemma RowsDiffer(lo: int, hi: int)
    requires 0 <= lo < hi < 10
    ensures 0 <= Witness(lo, hi) < CellsPerDigit && Number[lo][Witness(lo, hi)] != Number[hi][Witness(lo, hi)]
  {
  }
}
