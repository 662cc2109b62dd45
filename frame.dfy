/** One frame of tty-clock as the log of cells it draws, in drawing order. The screen that
    results is the last mark drawn at each position (`Shown`), and the main lemma proves
    that the log of `arrange_clock` leaves exactly the intended picture on the screen. */
module Frame {
  import opened Glyphs
  import opened Geometry

  datatype Option<T> = None | Some(value: T)

  /** What is drawn in a cell: a blank in a colour pair (digit cells and colons), a
      line-drawing character, or the date line (`%.2d/%.2d/%d %s` in colour pair 2, kept
      abstract: it is anchored at its first cell). */
  datatype Mark = Blank(pair: int)
                | HLine | VLine | ULCorner | LLCorner | URCorner | LRCorner
                | DateText(day: int, month: int, year: int, meridiem: string)

  /** One drawn cell: row, column, mark. */
  datatype Cell = Cell(row: int, col: int, mark: Mark)

  /** Offset of the border from the digit area (DEPTHB). */
  const BorderDepth: int := -1
  /** The colour pair of the colons. */
  const ColonPair: int := 1

  // ---------------------------------------------------------------------------------------
  // One digit: print_number

  /** The cells `print_number(num, x, y)` draws: flag i at (x + i / 6, y + i % 6). */
  function GlyphCells(num: int, x: int, y: int): (cells: seq<Cell>)
    requires IsDigit(num)
    ensures |cells| == CellsPerDigit
    ensures forall j :: 0 <= j < |cells| ==>
      x <= cells[j].row < x + BlockHeight && y <= cells[j].col < y + BlockWidth
  {
    seq(CellsPerDigit, j requires 0 <= j < CellsPerDigit =>
      Cell(x + j / 6, y + j % 6, Blank(Flag(num, j))))
  }

  /** `print_number`: steps a column counter `sy` and moves to the next row after six
      cells, appending each drawn cell to the log. */
  method PrintNumber(num: int, x: int, y: int) returns (log: seq<Cell>)
    requires IsDigit(num)
    ensures log == GlyphCells(num, x, y)
  {
    log := [];
    var row, sy := x, y;
    var i := 0;
    while i < CellsPerDigit
      invariant 0 <= i <= CellsPerDigit
      invariant (sy - y) + 6 * (row - x) == i
      invariant 0 <= sy - y <= 6 && (i > 0 ==> 1 <= sy - y)
      invariant log == GlyphCells(num, x, y)[..i]
    {
      if sy == y + 6 {
        sy := y;
        row := row + 1;
      }
      PrintStep(num, x, y, row, sy, i, log);
      log := log + [Cell(row, sy, Blank(Number[num][i]))];
      i, sy := i + 1, sy + 1;
    }
    assert GlyphCells(num, x, y)[..CellsPerDigit] == GlyphCells(num, x, y);
  }

  /** One turn of the `print_number` loop extends the log by the next cell of the block. */
  lemma PrintStep(num: int, x: int, y: int, row: int, sy: int, i: int, log: seq<Cell>)
    requires IsDigit(num) && 0 <= i < CellsPerDigit
    requires (sy - y) + 6 * (row - x) == i && 0 <= sy - y < 6
    requires log == GlyphCells(num, x, y)[..i]
    ensures log + [Cell(row, sy, Blank(Number[num][i]))] == GlyphCells(num, x, y)[..i + 1]
  {
    DivModOf(row - x, sy - y);
    GlyphCellAt(num, x, y, i);
    FlagIsEntry(num, i);
    TakeNext(GlyphCells(num, x, y), i);
  }

  lemma TakeNext<T>(s: seq<T>, i: int)
    requires 0 <= i < |s|
    ensures s[..i + 1] == s[..i] + [s[i]]
  {
  }

  /** Cell j of a digit block holds flag j at row x + j / 6 and column y + j % 6. */
  lemma GlyphCellAt(num: int, x: int, y: int, j: int)
    requires IsDigit(num) && 0 <= j < CellsPerDigit
    ensures GlyphCells(num, x, y)[j] == Cell(x + j / 6, y + j % 6, Blank(Flag(num, j)))
  {
  }

  /** `print_number` draws each position of its block once: no two of its 30 cells share
      a position (and all 30 lie in the 5-by-6 block, by `GlyphCells`). */
  lemma PrintNumberPlacement(num: int, x: int, y: int)
    requires IsDigit(num)
    ensures var cells := GlyphCells(num, x, y);
      forall j, k :: 0 <= j < k < |cells| ==> cells[j].row != cells[k].row || cells[j].col != cells[k].col
  {
    var cells := GlyphCells(num, x, y);
    forall j, k | 0 <= j < k < |cells|
      ensures cells[j].row != cells[k].row || cells[j].col != cells[k].col
    {
      GlyphCellAt(num, x, y, j);
      GlyphCellAt(num, x, y, k);
      DivModUnique(j, k);
    }
  }

  lemma DivModOf(q: int, m: int)
    requires 0 <= m < 6
    ensures (q * 6 + m) / 6 == q && (q * 6 + m) % 6 == m
  {
  }

  lemma DivModUnique(j: int, k: int)
    requires 0 <= j && 0 <= k && j != k
    ensures j / 6 != k / 6 || j % 6 != k % 6
  {
  }

  // ---------------------------------------------------------------------------------------
  // The frame: arrange_clock

  /** Column offsets of the two colons from `geo.y`. */
  const ColonColumn: int := 15
  const SecondsColonColumn: int := 34

  /** Column offset of the date line: 12, or 21 when seconds are shown. */
  function DateColumn(second: bool): int { if second then 21 else 12 }

  /** The six digits passed to `arrange_clock`; the seconds are only read when shown. */
  predicate DrawableDigits(d: seq<int>, second: bool) {
    |d| == 6 && IsDigit(d[0]) && IsDigit(d[1]) && IsDigit(d[2]) && IsDigit(d[3]) &&
    (second ==> IsDigit(d[4]) && IsDigit(d[5]))
  }

  /** The two `mvaddstr(…, "  ")` calls of a colon, at rows x + 1 and x + 3. */
  function ColonCells(x: int, col: int): seq<Cell> {
    [Cell(x + 1, col, Blank(ColonPair)), Cell(x + 1, col + 1, Blank(ColonPair)),
     Cell(x + 3, col, Blank(ColonPair)), Cell(x + 3, col + 1, Blank(ColonPair))]
  }

  /** A pair of digits (tens, units) drawn side by side, 7 columns apart. */
  function PairCells(tens: int, units: int, x: int, y: int): seq<Cell>
    requires IsDigit(tens) && IsDigit(units)
  {
    GlyphCells(tens, x, y) + GlyphCells(units, x, y + 7)
  }

  /** Hours and minutes with the colon between them: hours at column offset 0, the colon
      at 15, minutes at 19. */
  function HoursMinutesCells(g: Geo, d: seq<int>): seq<Cell>
    requires DrawableDigits(d, false)
  {
    PairCells(d[0], d[1], g.x, g.y) + ColonCells(g.x, g.y + ColonColumn) + PairCells(d[2], d[3], g.x, g.y + 19)
  }

  /** The seconds and their colon: colon at column offset 34, seconds at 38. */
  function SecondsCells(g: Geo, d: seq<int>): seq<Cell>
    requires DrawableDigits(d, true)
  {
    ColonCells(g.x, g.y + SecondsColonColumn) + PairCells(d[4], d[5], g.x, g.y + 38)
  }

  /** Digits and colons of a frame, in drawing order. */
  function DigitCells(g: Geo, second: bool, d: seq<int>): seq<Cell>
    requires DrawableDigits(d, second)
  {
    if second then HoursMinutesCells(g, d) + SecondsCells(g, d) else HoursMinutesCells(g, d)
  }

  /** The first border loop up to (not including) column `hi`: a horizontal line cell on
      row `top` and one on row `bottom` for each column from `lo`. */
  function HRun(top: int, bottom: int, lo: int, hi: int): seq<Cell>
    decreases hi - lo
  {
    if hi <= lo then []
    else HRun(top, bottom, lo, hi - 1) + [Cell(top, hi - 1, HLine), Cell(bottom, hi - 1, HLine)]
  }

  /** The second border loop up to (not including) row `hi`: a vertical line cell in
      column `left` and one in column `right` for each row from `lo`. */
  function VRun(left: int, right: int, lo: int, hi: int): seq<Cell>
    decreases hi - lo
  {
    if hi <= lo then []
    else VRun(left, right, lo, hi - 1) + [Cell(hi - 1, left, VLine), Cell(hi - 1, right, VLine)]
  }

  /** The four corners, drawn after both line loops. */
  function CornerCells(g: Geo): seq<Cell> {
    var top, bottom := g.x + BorderDepth, g.x + g.height;
    var left, right := g.y + BorderDepth, g.y + g.width;
    [Cell(top, left, ULCorner), Cell(bottom, left, LLCorner),
     Cell(top, right, URCorner), Cell(bottom, right, LRCorner)]
  }

  /** The border: both line loops, then the corners. */
  function BorderCells(g: Geo): seq<Cell> {
    HRun(g.x + BorderDepth, g.x + g.height, g.y + BorderDepth, g.y + g.width) +
    VRun(g.y + BorderDepth, g.y + g.width, g.x + BorderDepth, g.x + g.height) +
    CornerCells(g)
  }

  /** The cell where the date line starts, below the frame. */
  function DateCell(g: Geo, second: bool, date: Mark): Cell {
    Cell(g.x + g.height + 1, g.y + DateColumn(second), date)
  }

  /** Everything `arrange_clock` draws, in order. */
  function FrameCells(g: Geo, second: bool, d: seq<int>, date: Mark): seq<Cell>
    requires DrawableDigits(d, second)
  {
    DigitCells(g, second, d) + BorderCells(g) + [DateCell(g, second, date)]
  }

  /** The border part of `arrange_clock`: the two horizontal lines, the two vertical
      lines, then the corners. */
  method DrawBorder(g: Geo) returns (log: seq<Cell>)
    ensures log == BorderCells(g)
  {
    var x, y := g.x, g.y;
    log := [];
    var i := y + BorderDepth;
    while i < y + g.width
      invariant y + BorderDepth <= i && (i <= y + g.width || i == y + BorderDepth)
      invariant log == HRun(x + BorderDepth, x + g.height, y + BorderDepth, i)
    {
      log := log + [Cell(x + BorderDepth, i, HLine), Cell(x + g.height, i, HLine)];
      i := i + 1;
    }
    ghost var hrun := log;
    i := x + BorderDepth;
    while i < x + g.height
      invariant x + BorderDepth <= i && (i <= x + g.height || i == x + BorderDepth)
      invariant log == hrun + VRun(y + BorderDepth, y + g.width, x + BorderDepth, i)
    {
      log := log + [Cell(i, y + BorderDepth, VLine), Cell(i, y + g.width, VLine)];
      i := i + 1;
    }
    log := log + [Cell(x + BorderDepth, y + BorderDepth, ULCorner), Cell(x + g.height, y + BorderDepth, LLCorner),
                  Cell(x + BorderDepth, y + g.width, URCorner), Cell(x + g.height, y + g.width, LRCorner)];
  }

  /** The digit and colon part of `arrange_clock`. */
  method DrawDigits(g: Geo, second: bool, h1: int, h2: int, m1: int, m2: int, s1: int, s2: int)
    returns (log: seq<Cell>)
    requires DrawableDigits([h1, h2, m1, m2, s1, s2], second)
    ensures log == DigitCells(g, second, [h1, h2, m1, m2, s1, s2])
  {
    var x, y := g.x, g.y;
    var cells := PrintNumber(h1, x, y);
    log := cells;
    cells := PrintNumber(h2, x, y + 7);
    log := log + cells;
    log := log + ColonCells(x, y + ColonColumn);
    cells := PrintNumber(m1, x, y + 19);
    var minutes := cells;
    cells := PrintNumber(m2, x, y + 26);
    minutes := minutes + cells;
    log := log + minutes;
    if second {
      var tail := ColonCells(x, y + SecondsColonColumn);
      cells := PrintNumber(s1, x, y + 38);
      var seconds := cells;
      cells := PrintNumber(s2, x, y + 45);
      seconds := seconds + cells;
      log := log + (tail + seconds);
    }
  }

  /** The body of `arrange_clock` on its inputs: digits, border, then the date line. */
  method DrawFrame(g: Geo, second: bool, h1: int, h2: int, m1: int, m2: int, s1: int, s2: int, date: Mark)
    returns (log: seq<Cell>)
    requires DrawableDigits([h1, h2, m1, m2, s1, s2], second)
    ensures log == FrameCells(g, second, [h1, h2, m1, m2, s1, s2], date)
  {
    var digits := DrawDigits(g, second, h1, h2, m1, m2, s1, s2);
    var border := DrawBorder(g);
    var start := Cell(g.x + g.height + 1, g.y + (if second then 21 else 12), date);
    log := digits + border + [start];
  }

  // ---------------------------------------------------------------------------------------
  // The screen a log leaves behind

  /** The mark a log leaves at (r, c): the last one drawn there, if any. */
  function Shown(log: seq<Cell>, r: int, c: int): Option<Mark>
    decreases |log|
  {
    if log == [] then None
    else if log[|log| - 1].row == r && log[|log| - 1].col == c then Some(log[|log| - 1].mark)
    else Shown(log[..|log| - 1], r, c)
  }

  /** A mark drawn later hides one drawn earlier. */
  function Over(later: Option<Mark>, earlier: Option<Mark>): Option<Mark> {
    if later.Some? then later else earlier
  }

  /** Drawing `b` after `a` shows `b`'s marks over `a`'s. */
  lemma {:induction false} ShownAppend(a: seq<Cell>, b: seq<Cell>, r: int, c: int)
    ensures Shown(a + b, r, c) == Over(Shown(b, r, c), Shown(a, r, c))
    decreases |b|
  {
    if b == [] {
      assert a + b == a;
    } else {
      var b' := b[..|b| - 1];
      assert (a + b)[..|a + b| - 1] == a + b';
      ShownAppend(a, b', r, c);
    }
  }

  /** A log that never draws at (r, c) shows nothing there. */
  lemma {:induction false} ShownNone(log: seq<Cell>, r: int, c: int)
    requires forall j :: 0 <= j < |log| ==> log[j].row != r || log[j].col != c
    ensures Shown(log, r, c) == None
    decreases |log|
  {
    if log != [] {
      ShownNone(log[..|log| - 1], r, c);
    }
  }

  /** The mark at (r, c) is the one of the last cell drawn there. */
  lemma {:induction false} ShownLast(log: seq<Cell>, k: int, r: int, c: int)
    requires 0 <= k < |log| && log[k].row == r && log[k].col == c
    requires forall j :: k < j < |log| ==> log[j].row != r || log[j].col != c
    ensures Shown(log, r, c) == Some(log[k].mark)
    decreases |log|
  {
    if k < |log| - 1 {
      ShownLast(log[..|log| - 1], k, r, c);
    }
  }

  /** The mark one cell leaves at (r, c). */
  function At(cell: Cell, r: int, c: int): Option<Mark> {
    if cell.row == r && cell.col == c then Some(cell.mark) else None
  }

  lemma ShownTwo(a: Cell, b: Cell, r: int, c: int)
    ensures Shown([a, b], r, c) == Over(At(b, r, c), At(a, r, c))
  {
    assert [a, b][..1] == [a];
    assert Shown([a], r, c) == At(a, r, c) by {
      assert [a][..0] == [];
    }
  }

  /** A digit block shows its bitmap and nothing outside it. */
  lemma ShownGlyph(num: int, x: int, y: int, r: int, c: int)
    requires IsDigit(num)
    ensures Shown(GlyphCells(num, x, y), r, c) == GlyphPicture(num, x, y, r, c)
  {
    if x <= r < x + BlockHeight && y <= c < y + BlockWidth {
      ShownGlyphInside(num, x, y, r, c);
    } else {
      ShownNone(GlyphCells(num, x, y), r, c);
    }
  }

  /** Inside the block, the one cell drawn at (r, c) carries flag (r - x, c - y). */
  lemma ShownGlyphInside(num: int, x: int, y: int, r: int, c: int)
    requires IsDigit(num) && x <= r < x + BlockHeight && y <= c < y + BlockWidth
    ensures Shown(GlyphCells(num, x, y), r, c) == Some(Blank(Flag(num, (r - x) * 6 + (c - y))))
  {
    var cells := GlyphCells(num, x, y);
    var k := (r - x) * 6 + (c - y);
    PrintNumberPlacement(num, x, y);
    DivModOf(r - x, c - y);
    GlyphCellAt(num, x, y, k);
    ShownLast(cells, k, r, c);
  }

  /** The horizontal loop leaves a line on both rows over its column range. */
  lemma {:induction false} ShownHRun(top: int, bottom: int, lo: int, hi: int, r: int, c: int)
    ensures Shown(HRun(top, bottom, lo, hi), r, c) ==
      if (r == top || r == bottom) && lo <= c < hi then Some(HLine) else None
    decreases hi - lo
  {
    if lo < hi {
      var last := [Cell(top, hi - 1, HLine), Cell(bottom, hi - 1, HLine)];
      ShownHRun(top, bottom, lo, hi - 1, r, c);
      ShownAppend(HRun(top, bottom, lo, hi - 1), last, r, c);
      ShownTwo(last[0], last[1], r, c);
    }
  }

  /** The vertical loop leaves a line in both columns over its row range. */
  lemma {:induction false} ShownVRun(left: int, right: int, lo: int, hi: int, r: int, c: int)
    ensures Shown(VRun(left, right, lo, hi), r, c) ==
      if (c == left || c == right) && lo <= r < hi then Some(VLine) else None
    decreases hi - lo
  {
    if lo < hi {
      var last := [Cell(hi - 1, left, VLine), Cell(hi - 1, right, VLine)];
      ShownVRun(left, right, lo, hi - 1, r, c);
      ShownAppend(VRun(left, right, lo, hi - 1), last, r, c);
      ShownTwo(last[0], last[1], r, c);
    }
  }

  // ---------------------------------------------------------------------------------------
  // The intended picture

  /** A digit's bitmap with its top-left cell at (x, y): flag (r - x, c - y) inside the
      5-row, 6-column block, nothing outside it. */
  function GlyphPicture(num: int, x: int, y: int, r: int, c: int): Option<Mark>
    requires IsDigit(num)
  {
    if x <= r < x + BlockHeight && y <= c < y + BlockWidth then Some(Blank(Flag(num, (r - x) * 6 + (c - y))))
    else None
  }

  /** Two digits side by side: the units block starts 7 columns right of the tens block,
      leaving one blank column between them. */
  function PairPicture(tens: int, units: int, x: int, y: int, r: int, c: int): Option<Mark>
    requires IsDigit(tens) && IsDigit(units)
  {
    if c < y + 7 then GlyphPicture(tens, x, y, r, c) else GlyphPicture(units, x, y + 7, r, c)
  }

  /** A colon whose left column is `col`: two cells wide, on rows x + 1 and x + 3. */
  function ColonPicture(x: int, col: int, r: int, c: int): Option<Mark> {
    if (r == x + 1 || r == x + 3) && col <= c < col + 2 then Some(Blank(ColonPair)) else None
  }

  /** The digit area, in bands of columns from the left: hours, colon, minutes and, when
      seconds are shown, a second colon and the seconds. */
  function DigitPicture(g: Geo, second: bool, d: seq<int>, r: int, c: int): Option<Mark>
    requires DrawableDigits(d, second)
  {
    if c < g.y + ColonColumn then PairPicture(d[0], d[1], g.x, g.y, r, c)
    else if c < g.y + 19 then ColonPicture(g.x, g.y + ColonColumn, r, c)
    else if !second || c < g.y + SecondsColonColumn then PairPicture(d[2], d[3], g.x, g.y + 19, r, c)
    else if c < g.y + 38 then ColonPicture(g.x, g.y + SecondsColonColumn, r, c)
    else PairPicture(d[4], d[5], g.x, g.y + 38, r, c)
  }

  /** The border: corner characters at the four extremes, horizontal lines along the top
      and bottom rows and vertical lines along the left and right columns between them. */
  function BorderPicture(g: Geo, r: int, c: int): Option<Mark> {
    var top, bottom, left, right := g.x - 1, g.x + g.height, g.y - 1, g.y + g.width;
    if r == top && c == left then Some(ULCorner)
    else if r == bottom && c == left then Some(LLCorner)
    else if r == top && c == right then Some(URCorner)
    else if r == bottom && c == right then Some(LRCorner)
    else if (r == top || r == bottom) && left < c < right then Some(HLine)
    else if (c == left || c == right) && top < r < bottom then Some(VLine)
    else None
  }

  /** The whole intended picture: border, date line below it, digits inside. */
  function Picture(g: Geo, second: bool, d: seq<int>, date: Mark, r: int, c: int): Option<Mark>
    requires DrawableDigits(d, second)
  {
    if BorderPicture(g, r, c).Some? then BorderPicture(g, r, c)
    else if r == g.x + g.height + 1 && c == g.y + DateColumn(second) then Some(date)
    else DigitPicture(g, second, d, r, c)
  }

  /** A digit pair shows the two bitmaps side by side. */
  lemma ShownPair(tens: int, units: int, x: int, y: int, r: int, c: int)
    requires IsDigit(tens) && IsDigit(units)
    ensures Shown(PairCells(tens, units, x, y), r, c) == PairPicture(tens, units, x, y, r, c)
  {
    ShownGlyph(tens, x, y, r, c);
    ShownGlyph(units, x, y + 7, r, c);
    ShownAppend(GlyphCells(tens, x, y), GlyphCells(units, x, y + 7), r, c);
  }

  lemma ShownColon(x: int, col: int, r: int, c: int)
    ensures Shown(ColonCells(x, col), r, c) == ColonPicture(x, col, r, c)
  {
    var cells := ColonCells(x, col);
    if (r == x + 1 || r == x + 3) && col <= c < col + 2 {
      var k := (if r == x + 1 then 0 else 2) + (c - col);
      ShownLast(cells, k, r, c);
    } else {
      ShownNone(cells, r, c);
    }
  }

  lemma HoursMinutesShown(g: Geo, d: seq<int>, r: int, c: int)
    requires DrawableDigits(d, false)
    ensures Shown(HoursMinutesCells(g, d), r, c) == DigitPicture(g, false, d, r, c)
  {
    var h := PairCells(d[0], d[1], g.x, g.y);
    var q := ColonCells(g.x, g.y + ColonColumn);
    var m := PairCells(d[2], d[3], g.x, g.y + 19);
    ShownAppend(h, q, r, c);
    ShownAppend(h + q, m, r, c);
    ShownPair(d[0], d[1], g.x, g.y, r, c);
    ShownColon(g.x, g.y + ColonColumn, r, c);
    ShownPair(d[2], d[3], g.x, g.y + 19, r, c);
    HoursMinutesBands(g, d, r, c);
  }

  /** Hours, colon and minutes occupy disjoint bands of columns. */
  lemma HoursMinutesBands(g: Geo, d: seq<int>, r: int, c: int)
    requires DrawableDigits(d, false)
    ensures Over(PairPicture(d[2], d[3], g.x, g.y + 19, r, c),
                 Over(ColonPicture(g.x, g.y + ColonColumn, r, c), PairPicture(d[0], d[1], g.x, g.y, r, c)))
            == DigitPicture(g, false, d, r, c)
  {
    if c < g.y + 19 {
      PairBlankOutside(d[2], d[3], g.x, g.y + 19, r, c);
    }
    if g.y + ColonColumn <= c {
      PairBlankOutside(d[0], d[1], g.x, g.y, r, c);
    }
  }

  lemma SecondsShown(g: Geo, d: seq<int>, r: int, c: int)
    requires DrawableDigits(d, true)
    ensures Shown(SecondsCells(g, d), r, c) ==
      if c < g.y + SecondsColonColumn then None else DigitPicture(g, true, d, r, c)
  {
    var q := ColonCells(g.x, g.y + SecondsColonColumn);
    var sp := PairCells(d[4], d[5], g.x, g.y + 38);
    ShownAppend(q, sp, r, c);
    ShownColon(g.x, g.y + SecondsColonColumn, r, c);
    ShownPair(d[4], d[5], g.x, g.y + 38, r, c);
    if c < g.y + 38 {
      PairBlankOutside(d[4], d[5], g.x, g.y + 38, r, c);
    }
  }

  /** A digit pair shows nothing left of its first column or right of its last. */
  lemma PairBlankOutside(tens: int, units: int, x: int, y: int, r: int, c: int)
    requires IsDigit(tens) && IsDigit(units) && (c < y || y + 13 <= c)
    ensures PairPicture(tens, units, x, y, r, c) == None
  {
  }

  lemma DigitsShown(g: Geo, second: bool, d: seq<int>, r: int, c: int)
    requires DrawableDigits(d, second)
    ensures Shown(DigitCells(g, second, d), r, c) == DigitPicture(g, second, d, r, c)
  {
    HoursMinutesShown(g, d, r, c);
    if second {
      SecondsShown(g, d, r, c);
      ShownAppend(HoursMinutesCells(g, d), SecondsCells(g, d), r, c);
      if c < g.y + SecondsColonColumn {
        assert DigitPicture(g, true, d, r, c) == DigitPicture(g, false, d, r, c);
      } else {
        assert DigitPicture(g, false, d, r, c) == None;
      }
    }
  }

  lemma BorderShown(g: Geo, r: int, c: int)
    requires 0 <= g.width && 0 <= g.height
    ensures Shown(BorderCells(g), r, c) == BorderPicture(g, r, c)
  {
    var top, bottom, left, right := g.x - 1, g.x + g.height, g.y - 1, g.y + g.width;
    var h := HRun(top, bottom, left, right);
    var v := VRun(left, right, top, bottom);
    var k := CornerCells(g);
    ShownHRun(top, bottom, left, right, r, c);
    ShownVRun(left, right, top, bottom, r, c);
    ShownAppend(h, v, r, c);
    ShownAppend(h + v, k, r, c);
    ShownCorners(g, r, c);
  }

  lemma ShownCorners(g: Geo, r: int, c: int)
    ensures var top, bottom, left, right := g.x - 1, g.x + g.height, g.y - 1, g.y + g.width;
      Shown(CornerCells(g), r, c) ==
        if r == bottom && c == right then Some(LRCorner)
        else if r == top && c == right then Some(URCorner)
        else if r == bottom && c == left then Some(LLCorner)
        else if r == top && c == left then Some(ULCorner)
        else None
  {
    var cells := CornerCells(g);
    ShownTwo(cells[0], cells[1], r, c);
    ShownTwo(cells[2], cells[3], r, c);
    ShownAppend([cells[0], cells[1]], [cells[2], cells[3]], r, c);
    assert cells == [cells[0], cells[1]] + [cells[2], cells[3]];
  }

  /** The screen `arrange_clock` leaves: on any 5-row frame of non-negative width, the last
      mark drawn at every position is the intended picture. So the corners overwrite the
      line loops and the border wins over any digit cell it meets, which covers the frames
      too narrow for their digits that `-s` leads to. */
  lemma {:induction false} FramePicture(g: Geo, second: bool, d: seq<int>, date: Mark)
    requires DrawableDigits(d, second) && g.height == FrameHeight && 0 <= g.width
    ensures forall r, c :: Shown(FrameCells(g, second, d, date), r, c) == Picture(g, second, d, date, r, c)
  {
    forall r, c
      ensures Shown(FrameCells(g, second, d, date), r, c) == Picture(g, second, d, date, r, c)
    {
      var dc, bc := DigitCells(g, second, d), BorderCells(g);
      DigitsShown(g, second, d, r, c);
      BorderShown(g, r, c);
      ShownAppend(dc, bc, r, c);
      ShownAppend(dc + bc, [DateCell(g, second, date)], r, c);
    }
  }

  /** Every cell of `cells` lies in rows [top, bottom) and columns [left, right). */
  predicate Within(cells: seq<Cell>, top: int, bottom: int, left: int, right: int) {
    forall j :: 0 <= j < |cells| ==> top <= cells[j].row < bottom && left <= cells[j].col < right
  }

  lemma WithinAppend(a: seq<Cell>, b: seq<Cell>, top: int, bottom: int, left: int, right: int)
    requires Within(a, top, bottom, left, right) && Within(b, top, bottom, left, right)
    ensures Within(a + b, top, bottom, left, right)
  {
    forall j | 0 <= j < |a + b|
      ensures top <= (a + b)[j].row < bottom && left <= (a + b)[j].col < right
    {
      if j >= |a| {
        assert (a + b)[j] == b[j - |a|];
      }
    }
  }

  /** On a proportioned frame every digit and colon cell lies inside the border. */
  lemma DigitsInsideBorder(g: Geo, second: bool, d: seq<int>)
    requires DrawableDigits(d, second) && Fits(g, second)
    ensures Within(DigitCells(g, second, d), g.x, g.x + g.height, g.y, g.y + g.width)
  {
    var x, y := g.x, g.y;
    var top, bottom, left, right := x, x + g.height, y, y + g.width;
    var h, q, m := PairCells(d[0], d[1], x, y), ColonCells(x, y + ColonColumn), PairCells(d[2], d[3], x, y + 19);
    WithinAppend(GlyphCells(d[0], x, y), GlyphCells(d[1], x, y + 7), top, bottom, left, right);
    WithinAppend(GlyphCells(d[2], x, y + 19), GlyphCells(d[3], x, y + 26), top, bottom, left, right);
    WithinAppend(h, q, top, bottom, left, right);
    WithinAppend(h + q, m, top, bottom, left, right);
    if second {
      var q', sp := ColonCells(x, y + SecondsColonColumn), PairCells(d[4], d[5], x, y + 38);
      WithinAppend(GlyphCells(d[4], x, y + 38), GlyphCells(d[5], x, y + 45), top, bottom, left, right);
      WithinAppend(q', sp, top, bottom, left, right);
      WithinAppend(HoursMinutesCells(g, d), SecondsCells(g, d), top, bottom, left, right);
    }
  }

  /** With seconds on but a 33-column frame (what the `-s` option leaves), the last column
      of the second seconds digit lies 17 columns beyond the right border. */
  lemma SecondsOutsideNarrowFrame(g: Geo, d: seq<int>)
    requires DrawableDigits(d, true) && g.height == FrameHeight && g.width == NarrowWidth
    ensures var cells := DigitCells(g, true, d);
      |cells| > 0 && cells[|cells| - 1].col == g.y + g.width + 17
  {
    var cells := DigitCells(g, true, d);
    var last := GlyphCells(d[5], g.x, g.y + 45);
    assert cells == HoursMinutesCells(g, d) + ColonCells(g.x, g.y + SecondsColonColumn) +
                    GlyphCells(d[4], g.x, g.y + 38) + last;
    GlyphCellAt(d[5], g.x, g.y + 45, CellsPerDigit - 1);
    assert cells[|cells| - 1] == last[CellsPerDigit - 1];
  }

  /** `-x n -y m` with positive n and m put the upper-left corner of the border at row n,
      column m: the `+ 1` of the option makes room for the border. */
  lemma CoordOptionsPlaceCorner(s: State, n: int, m: int, maxw: int, maxh: int)
    requires n > 0 && m > 0
    ensures var t := ApplyOptions(s, [OptX(n), OptY(m)], maxw, maxh);
      CornerCells(t.geo)[0] == Cell(n, m, ULCorner) && t.geo.width == s.geo.width &&
      t.geo.height == s.geo.height && t.option == s.option && t.running == s.running
  {
    var opts := [OptX(n), OptY(m)];
    assert opts[..1] == [OptX(n)] && opts[..1][..0] == [];
    var t1 := ApplyOption(s, OptX(n), maxw, maxh);
    assert ApplyOptions(s, opts[..1], maxw, maxh) == t1;
    assert ApplyOptions(s, opts, maxw, maxh) == ApplyOption(t1, OptY(m), maxw, maxh);
  }
}
