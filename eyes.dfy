/**
 * The two hexagonal LED panels that form the robot's eyes (Brain_Code/eyes.py).
 * Each panel has 37 LEDs; the frame buffer `leds` holds all 74, panel 0
 * first. Drawing operations change the buffer in place; `show()` sends it
 * to the LEDs only when it differs from the last frame sent. The SPI
 * writes are a log of the frames sent.
 */
module Eyes {
  import opened Numeric
  import opened Options

  /** A colour in the LEDs' byte order: green, red, blue. */
  datatype Color = Color(g: int, r: int, b: int)

  const Red: Color := Color(0, 255, 0)
  const Green: Color := Color(255, 0, 0)
  const Blue: Color := Color(0, 0, 255)
  const White: Color := Color(255, 255, 255)
  const Black: Color := Color(0, 0, 0)
  const Yellow: Color := Color(255, 255, 0)
  const Cyan: Color := Color(255, 0, 255)
  const Magenta: Color := Color(0, 255, 255)
  /** The dim one-pixel frame `loop()` sends as a sign of life. */
  const AliveColor: Color := Color(10, 0, 10)

  /** The `COLORS` table; any other name is missing from it. */
  function ColorNamed(name: string): Option<Color>
  {
    if name == "red" then Some(Red)
    else if name == "green" then Some(Green)
    else if name == "blue" then Some(Blue)
    else if name == "white" then Some(White)
    else if name == "black" then Some(Black)
    else if name == "yellow" then Some(Yellow)
    else if name == "cyan" then Some(Cyan)
    else if name == "magenta" then Some(Magenta)
    else None
  }

  /** `COLORS.get(name, COLORS["white"])`: an unknown name falls back to white. */
  function ColorOrWhite(name: string): (c: Color)
    ensures ColorNamed(name).Some? ==> c == ColorNamed(name).value
    ensures ColorNamed(name).None? ==> c == White
  {
    match ColorNamed(name)
    case Some(c) => c
    case None => White
  }

  const PerModule: int := 37
  const Total: int := 74
  const NRows: int := 7
  const NColumns: int := 13

  /** Python's `range(lo, hi)`. */
  function Range(lo: int, hi: int): seq<int>
    requires lo <= hi
  {
    seq(hi - lo, i => lo + i)
  }

  /** The LEDs of each horizontal row of a panel, top row first. */
  const Rows: seq<seq<int>> := [Range(33, 37), Range(28, 33), Range(22, 28), Range(15, 22),
                                Range(9, 15), Range(4, 9), Range(0, 4)]

  /** The LEDs of each of the 13 zig-zag columns of a panel, left to right. */
  const Columns: seq<seq<int>> := [[21], [14, 27], [8, 20, 32], [3, 13, 26, 36], [7, 19, 31], [2, 12, 25, 35],
                                   [6, 18, 30], [1, 11, 24, 34], [5, 17, 29], [0, 10, 23, 33], [4, 16, 28],
                                   [9, 22], [15]]

  ghost predicate InTable(t: seq<seq<int>>, j: int, i: int)
  {
    0 <= j < |t| && 0 <= i < |t[j]|
  }

  ghost predicate Covered(t: seq<seq<int>>, k: int)
  {
    exists j, i :: InTable(t, j, i) && t[j][i] == k
  }

  /** Every entry of `t` is an LED of a panel, and each of the `n` LEDs appears exactly once. */
  ghost predicate Partition(t: seq<seq<int>>, n: int)
  {
    && (forall j, i :: InTable(t, j, i) ==> 0 <= t[j][i] < n)
    && (forall k :: 0 <= k < n ==> Covered(t, k))
    && (forall j, i, j', i' :: InTable(t, j, i) && InTable(t, j', i') && t[j][i] == t[j'][i'] ==> j == j' && i == i')
  }

  /** For each LED of a panel: its column, and its place in that column. */
  const ColumnOf: seq<int> := [9, 7, 5, 3, 10, 8, 6, 4, 2, 11, 9, 7, 5, 3, 1, 12, 10, 8, 6, 4, 2, 0, 11, 9, 7, 5, 3,
                               1, 10, 8, 6, 4, 2, 9, 7, 5, 3]
  const SlotOf: seq<int> := [0, 0, 0, 0, 0, 0, 0, 0, 0, 0, 1, 1, 1, 1, 0, 0, 1, 1, 1, 1, 1, 0, 1, 2, 2, 2, 2, 1, 2,
                             2, 2, 2, 2, 3, 3, 3, 3]

  /** The row of each LED of a panel. */
  const RowOf: seq<int> := [6, 6, 6, 6, 5, 5, 5, 5, 5, 4, 4, 4, 4, 4, 4, 3, 3, 3, 3, 3, 3, 3, 2, 2, 2, 2, 2, 2,
                            1, 1, 1, 1, 1, 0, 0, 0, 0]
  /** The first LED of each row. */
  const RowStart: seq<int> := [33, 28, 22, 15, 9, 4, 0]

  /** Each entry of a column is an LED of the panel, and the witness tables point back at it. */
  lemma ColumnEntry(j: int, i: int)
    requires InTable(Columns, j, i)
    ensures 0 <= Columns[j][i] < PerModule && ColumnOf[Columns[j][i]] == j && SlotOf[Columns[j][i]] == i
  {
    if j == 0 {
      assert i == 0;
    } else if j == 1 {
      assert i == 0 || i == 1;
    } else if j == 2 {
      assert i == 0 || i == 1 || i == 2;
    } else if j == 3 {
      assert i == 0 || i == 1 || i == 2 || i == 3;
    } else if j == 4 {
      assert i == 0 || i == 1 || i == 2;
    } else if j == 5 {
      assert i == 0 || i == 1 || i == 2 || i == 3;
    } else if j == 6 {
      assert i == 0 || i == 1 || i == 2;
    } else if j == 7 {
      assert i == 0 || i == 1 || i == 2 || i == 3;
    } else if j == 8 {
      assert i == 0 || i == 1 || i == 2;
    } else if j == 9 {
      assert i == 0 || i == 1 || i == 2 || i == 3;
    } else if j == 10 {
      assert i == 0 || i == 1 || i == 2;
    } else if j == 11 {
      assert i == 0 || i == 1;
    } else if j == 12 {
      assert i == 0;
    }
  }

  /** Going down a column, each LED is two rows further up the panel than the one before. */
  lemma ColumnRowStep(j: int, i: int)
    requires InTable(Columns, j, i)
    ensures RowOf[Columns[j][i]] == RowOf[Columns[j][0]] - 2 * i
  {
    if j == 0 {
      assert i == 0;
    } else if j == 1 {
      assert i == 0 || i == 1;
    } else if j == 2 {
      assert i == 0 || i == 1 || i == 2;
    } else if j == 3 {
      assert i == 0 || i == 1 || i == 2 || i == 3;
    } else if j == 4 {
      assert i == 0 || i == 1 || i == 2;
    } else if j == 5 {
      assert i == 0 || i == 1 || i == 2 || i == 3;
    } else if j == 6 {
      assert i == 0 || i == 1 || i == 2;
    } else if j == 7 {
      assert i == 0 || i == 1 || i == 2 || i == 3;
    } else if j == 8 {
      assert i == 0 || i == 1 || i == 2;
    } else if j == 9 {
      assert i == 0 || i == 1 || i == 2 || i == 3;
    } else if j == 10 {
      assert i == 0 || i == 1 || i == 2;
    } else if j == 11 {
      assert i == 0 || i == 1;
    } else if j == 12 {
      assert i == 0;
    }
  }

  /** Each LED of a panel is in the column the witness table names. */
  lemma ColumnCovers(k: int)
    requires 0 <= k < PerModule
    ensures InTable(Columns, ColumnOf[k], SlotOf[k]) && Columns[ColumnOf[k]][SlotOf[k]] == k
  {
    assert k == 0 || k == 1 || k == 2 || k == 3 || k == 4 || k == 5 || k == 6 || k == 7 || k == 8 || k == 9
        || k == 10 || k == 11 || k == 12 || k == 13 || k == 14 || k == 15 || k == 16 || k == 17 || k == 18
        || k == 19 || k == 20 || k == 21 || k == 22 || k == 23 || k == 24 || k == 25 || k == 26 || k == 27
        || k == 28 || k == 29 || k == 30 || k == 31 || k == 32 || k == 33 || k == 34 || k == 35 || k == 36;
  }

  /** The thirteen columns split the 37 LEDs of a panel: none missing, none twice. */
  lemma ColumnsPartitionPanel()
    ensures Partition(Columns, PerModule)
  {
    forall j, i | InTable(Columns, j, i)
      ensures 0 <= Columns[j][i] < PerModule && ColumnOf[Columns[j][i]] == j && SlotOf[Columns[j][i]] == i
    {
      ColumnEntry(j, i);
    }
    forall k | 0 <= k < PerModule
      ensures Covered(Columns, k)
    {
      ColumnCovers(k);
    }
  }

  /** Each entry of a row is an LED of the panel, and `RowOf` points back at its row. */
  lemma RowEntry(j: int, i: int)
    requires InTable(Rows, j, i)
    ensures 0 <= Rows[j][i] < PerModule && RowOf[Rows[j][i]] == j && Rows[j][i] == RowStart[j] + i
  {
    assert j == 0 || j == 1 || j == 2 || j == 3 || j == 4 || j == 5 || j == 6;
  }

  /** Each LED of a panel is in the row `RowOf` names. */
  lemma RowCovers(k: int)
    requires 0 <= k < PerModule
    ensures InTable(Rows, RowOf[k], k - RowStart[RowOf[k]]) && Rows[RowOf[k]][k - RowStart[RowOf[k]]] == k
  {
    if k < 4 {
      assert RowOf[k] == 6;
    } else if k < 9 {
      assert RowOf[k] == 5;
    } else if k < 15 {
      assert RowOf[k] == 4;
    } else if k < 22 {
      assert RowOf[k] == 3;
    } else if k < 28 {
      assert RowOf[k] == 2;
    } else if k < 33 {
      assert RowOf[k] == 1;
    } else {
      assert RowOf[k] == 0;
    }
  }

  /** The seven rows split the 37 LEDs of a panel: none missing, none twice. */
  lemma RowsPartitionPanel()
    ensures Partition(Rows, PerModule)
  {
    forall j, i | InTable(Rows, j, i)
      ensures 0 <= Rows[j][i] < PerModule && RowOf[Rows[j][i]] == j && Rows[j][i] == RowStart[j] + i
    {
      RowEntry(j, i);
    }
    forall k | 0 <= k < PerModule
      ensures Covered(Rows, k)
    {
      RowCovers(k);
    }
  }

  /**
   * A column crosses each row at most once, so a cross paints the
   * combination colour on at most one LED.
   */
  lemma RowMeetsColumnOnce(r: int, j: int, k: int, k': int)
    requires 0 <= r < NRows && 0 <= j < NColumns
    requires k in Rows[r] && k in Columns[j] && k' in Rows[r] && k' in Columns[j]
    ensures k == k'
  {
    var i :| 0 <= i < |Columns[j]| && Columns[j][i] == k;
    var i' :| 0 <= i' < |Columns[j]| && Columns[j][i'] == k';
    var h :| 0 <= h < |Rows[r]| && Rows[r][h] == k;
    var h' :| 0 <= h' < |Rows[r]| && Rows[r][h'] == k';
    RowEntry(r, h);
    RowEntry(r, h');
    ColumnRows(j, i, i');
  }

  /** The LEDs of one column lie in different rows. */
  lemma ColumnRows(j: int, i: int, i': int)
    requires InTable(Columns, j, i) && InTable(Columns, j, i')
    requires RowOf[Columns[j][i]] == RowOf[Columns[j][i']]
    ensures i == i'
  {
    ColumnRowStep(j, i);
    ColumnRowStep(j, i');
  }

  /**
   * `np.interp(x, [lo, hi], [0, top])` for a two-point table: above `hi`
   * the right end, below `lo` the left end, exactly at `hi` the right end
   * (this decides a degenerate `lo == hi`), exactly at `lo` the left end,
   * and a straight line in between.
   */
  function Interp(x: real, lo: real, hi: real, top: real): real
  {
    if x > hi then top
    else if x < lo then 0.0
    else if x >= hi then top
    else if x == lo then 0.0
    else top / (hi - lo) * (x - lo)
  }

  /**
   * The row or column a reading selects: `int(np.interp(np.clip(v, lo, hi),
   * [lo, hi], [0, n - 1]))`. It is always a valid index; the top of the
   * range selects the last line, the bottom the first, and crossed bounds
   * always the first.
   */
  function Position(v: real, lo: real, hi: real, n: int): (p: int)
    requires n >= 1
    ensures 0 <= p < n
    ensures lo <= hi && v >= hi ==> p == n - 1
    ensures lo < hi && v <= lo ==> p == 0
    ensures hi < lo ==> p == 0
  {
    var x := Clip(v, lo, hi);
    var top := (n - 1) as real;
    if lo < x < hi then
      SlopeBelow(x, lo, hi, top);
      Interp(x, lo, hi, top).Floor
    else
      Interp(x, lo, hi, top).Floor
  }

  /** Strictly inside the interval the line stays below its right end. */
  lemma SlopeBelow(x: real, lo: real, hi: real, top: real)
    requires lo < x < hi && top >= 0.0
    ensures 0.0 <= top / (hi - lo) * (x - lo) <= top
  {
    var slope := top / (hi - lo);
    assert slope * (hi - lo) == top;
    assert slope >= 0.0;
    assert slope * (x - lo) <= slope * (hi - lo) by {
      assert slope * (hi - lo) - slope * (x - lo) == slope * (hi - x);
    }
  }

  /** A larger reading never moves the line back. */
  lemma PositionMonotone(v: real, w: real, lo: real, hi: real, n: int)
    requires n >= 1 && lo <= hi && v <= w
    ensures Position(v, lo, hi, n) <= Position(w, lo, hi, n)
  {
    var x, y := Clip(v, lo, hi), Clip(w, lo, hi);
    var top := (n - 1) as real;
    assert x <= y;
    if lo < x && y < hi {
      var slope := top / (hi - lo);
      assert slope >= 0.0;
      assert slope * (y - lo) - slope * (x - lo) == slope * (y - x);
      assert Interp(x, lo, hi, top) <= Interp(y, lo, hi, top);
    } else if lo < x < hi {
      SlopeBelow(x, lo, hi, top);
    } else if lo < y < hi {
      SlopeBelow(y, lo, hi, top);
    }
  }

  /** A table entry of `Rows` or `Columns` is an LED index of one panel. */
  lemma TableEntry(t: seq<seq<int>>, p: int, i: int)
    requires t == Rows || t == Columns
    requires 0 <= p < |t| && 0 <= i < |t[p]|
    ensures 0 <= t[p][i] < PerModule
  {
    if t == Rows {
      RowsPartitionPanel();
      assert InTable(Rows, p, i);
    } else {
      ColumnsPartitionPanel();
      assert InTable(Columns, p, i);
    }
  }

  /** The frame `s` with every LED whose index in its panel is in `cells` set to `c`. */
  function Painted(s: seq<Color>, offset: int, cells: seq<int>, c: Color): seq<Color>
  {
    seq(|s|, k requires 0 <= k < |s| => if k - offset in cells then c else s[k])
  }

  /**
   * The frame `s` after the second half of a cross: the LEDs of `row` get
   * `c2`, except the one also in `column`, which gets `comb`.
   */
  function Crossed(s: seq<Color>, offset: int, row: seq<int>, column: seq<int>, c2: Color, comb: Color): seq<Color>
  {
    seq(|s|, k requires 0 <= k < |s| =>
      if k - offset in row then (if k - offset in column then comb else c2) else s[k])
  }

  /** The keyword arguments of `line()`. */
  datatype LineRequest = LineRequest(
    moduleName: string, orientation: string,
    color1Name: string, value1: real, min1: real, max1: real,
    color2Name: string, value2: real, min2: real, max2: real,
    combName: string)

  /** "left" selects panel 1; any other name, "right" included, panel 0. */
  function ModuleOffset(moduleName: string): (offset: int)
    ensures offset == 0 || offset == PerModule
    ensures offset == PerModule <==> moduleName == "left"
  {
    if moduleName == "left" then PerModule else 0
  }

  /** The frame after `line()` draws `q` on `s`. */
  function LineFrame(s: seq<Color>, q: LineRequest): seq<Color>
  {
    var offset := ModuleOffset(q.moduleName);
    var c1 := ColorOrWhite(q.color1Name);
    if q.orientation == "horizontal" then
      Painted(s, offset, Rows[Position(q.value1, q.min1, q.max1, NRows)], c1)
    else if q.orientation == "vertical" then
      Painted(s, offset, Columns[Position(q.value1, q.min1, q.max1, NColumns)], c1)
    else if q.orientation == "cross" then
      var column := Columns[Position(q.value1, q.min1, q.max1, NColumns)];
      var row := Rows[Position(q.value2, q.min2, q.max2, NRows)];
      Crossed(Painted(s, offset, column, c1), offset, row, column, ColorOrWhite(q.color2Name), ColorOrWhite(q.combName))
    else
      s
  }

  /** `line()` leaves the other panel, and the whole frame for an unknown orientation, alone. */
  lemma LineStaysInPanel(s: seq<Color>, q: LineRequest, k: int)
    requires 0 <= k < |s|
    requires !(ModuleOffset(q.moduleName) <= k < ModuleOffset(q.moduleName) + PerModule)
    ensures LineFrame(s, q)[k] == s[k]
  {
    if q.orientation == "horizontal" || q.orientation == "vertical" {
      BarStaysInPanel(s, q, k);
    } else if q.orientation == "cross" {
      CrossStaysInPanel(s, q, k);
    }
  }

  /** `LineStaysInPanel` for a single row or column. */
  lemma BarStaysInPanel(s: seq<Color>, q: LineRequest, k: int)
    requires 0 <= k < |s| && (q.orientation == "horizontal" || q.orientation == "vertical")
    requires !(ModuleOffset(q.moduleName) <= k < ModuleOffset(q.moduleName) + PerModule)
    ensures LineFrame(s, q)[k] == s[k]
  {
    var offset := ModuleOffset(q.moduleName);
    var c1 := ColorOrWhite(q.color1Name);
    if q.orientation == "horizontal" {
      var p := Position(q.value1, q.min1, q.max1, NRows);
      OutsideCells(Rows, p, k - offset);
      PaintedElsewhere(s, offset, Rows[p], c1, k);
    } else {
      var p := Position(q.value1, q.min1, q.max1, NColumns);
      OutsideCells(Columns, p, k - offset);
      PaintedElsewhere(s, offset, Columns[p], c1, k);
    }
  }

  /** `LineStaysInPanel` for a cross. */
  lemma CrossStaysInPanel(s: seq<Color>, q: LineRequest, k: int)
    requires 0 <= k < |s| && q.orientation == "cross"
    requires !(ModuleOffset(q.moduleName) <= k < ModuleOffset(q.moduleName) + PerModule)
    ensures LineFrame(s, q)[k] == s[k]
  {
    var offset := ModuleOffset(q.moduleName);
    var c1 := ColorOrWhite(q.color1Name);
    var p := Position(q.value1, q.min1, q.max1, NColumns);
    var p2 := Position(q.value2, q.min2, q.max2, NRows);
    OutsideCells(Columns, p, k - offset);
    OutsideCells(Rows, p2, k - offset);
    var painted := Painted(s, offset, Columns[p], c1);
    PaintedElsewhere(s, offset, Columns[p], c1, k);
    assert Crossed(painted, offset, Rows[p2], Columns[p], ColorOrWhite(q.color2Name), ColorOrWhite(q.combName))[k]
      == painted[k];
  }

  /** `Painted` changes only the LEDs of its cells. */
  lemma PaintedElsewhere(s: seq<Color>, offset: int, cells: seq<int>, c: Color, k: int)
    requires 0 <= k < |s| && k - offset !in cells
    ensures Painted(s, offset, cells, c)[k] == s[k]
  {
  }

  /** An index outside one panel is in no row and no column. */
  lemma OutsideCells(t: seq<seq<int>>, p: int, d: int)
    requires t == Rows || t == Columns
    requires 0 <= p < |t|
    requires !(0 <= d < PerModule)
    ensures d !in t[p]
  {
    if d in t[p] {
      var i :| 0 <= i < |t[p]| && t[p][i] == d;
      TableEntry(t, p, i);
    }
  }

  /**
   * A cross lights every LED of its column and its row on the chosen panel:
   * the one they share in the combination colour, the rest of the column in
   * the first colour, the rest of the row in the second.
   */
  lemma CrossColours(s: seq<Color>, q: LineRequest, k: int)
    requires q.orientation == "cross" && 0 <= k < |s|
    ensures var offset := ModuleOffset(q.moduleName);
      var column := Columns[Position(q.value1, q.min1, q.max1, NColumns)];
      var row := Rows[Position(q.value2, q.min2, q.max2, NRows)];
      && (k - offset in column && k - offset in row ==> LineFrame(s, q)[k] == ColorOrWhite(q.combName))
      && (k - offset in column && k - offset !in row ==> LineFrame(s, q)[k] == ColorOrWhite(q.color1Name))
      && (k - offset !in column && k - offset in row ==> LineFrame(s, q)[k] == ColorOrWhite(q.color2Name))
      && (k - offset !in column && k - offset !in row ==> LineFrame(s, q)[k] == s[k])
  {
  }

  /** A cross paints the combination colour on at most one LED. */
  lemma CrossCombOnce(q: LineRequest, k: int, k': int)
    requires q.orientation == "cross"
    requires var offset := ModuleOffset(q.moduleName);
      var column := Columns[Position(q.value1, q.min1, q.max1, NColumns)];
      var row := Rows[Position(q.value2, q.min2, q.max2, NRows)];
      && k - offset in column && k - offset in row
      && k' - offset in column && k' - offset in row
    ensures k == k'
  {
    var offset := ModuleOffset(q.moduleName);
    RowMeetsColumnOnce(Position(q.value2, q.min2, q.max2, NRows), Position(q.value1, q.min1, q.max1, NColumns),
      k - offset, k' - offset);
  }

  /** The frame `s` with the LEDs `start <= i < end` set to `c`. */
  function Filled(s: seq<Color>, start: int, end: int, c: Color): seq<Color>
  {
    seq(|s|, k requires 0 <= k < |s| => if start <= k < end then c else s[k])
  }

  /** `range(start, end)` holds an LED index of the 74. */
  predicate Overlaps(start: int, end: int)
  {
    start < end && start < Total && 0 < end
  }

  /** An index of the frame buffer. */
  predicate IsLed(i: int)
  {
    0 <= i < Total
  }

  /** `Overlaps` means exactly that some index of the range is an LED. */
  lemma OverlapsMeans(start: int, end: int)
    ensures Overlaps(start, end) <==> exists i :: start <= i < end && IsLed(i)
  {
    if Overlaps(start, end) {
      var i := if start < 0 then 0 else start;
      assert start <= i < end && IsLed(i);
    }
  }

  /** How a drawing call ends: normally, or with the exception Python raises. */
  datatype Outcome = Done | KeyError | IndexError

  /**
   * The list index `single()` writes: `idx + module * 37`, counted from the
   * end when negative as Python lists do, or None for an `IndexError`.
   */
  function SingleIndex(panel: int, idx: int): (k: Option<int>)
    ensures k.Some? <==> -Total <= idx + panel * PerModule < Total
    ensures k.Some? ==> 0 <= k.value < Total && k.value % Total == (idx + panel * PerModule) % Total
  {
    var i := idx + panel * PerModule;
    if 0 <= i < Total then Some(i)
    else if -Total <= i < 0 then Some(i + Total)
    else None
  }

  class Eyes {
    /** The frame being drawn, `self.leds`. */
    const leds: array<Color>
    /** The frame last sent by `show()`, `self.leds_last`. */
    const ledsLast: array<Color>
    /** Every frame written to the LED strip over SPI, oldest first. */
    var written: seq<seq<Color>>
    var now: real
    var frequency: real
    var lastTime: real

    predicate Valid()
    {
      leds.Length == Total && ledsLast.Length == Total && leds != ledsLast
    }

    /** A black frame to draw on, a white "last sent" frame so the first `show()` always sends, and the black frame sent. */
    constructor ()
      ensures Valid() && fresh(leds) && fresh(ledsLast)
      ensures leds[..] == seq(Total, _ => Black) && ledsLast[..] == seq(Total, _ => White)
      ensures written == [seq(Total, _ => Black)]
      ensures now == 0.0 && frequency == 0.0 && lastTime == 0.0
    {
      now, frequency, lastTime := 0.0, 0.0, 0.0;
      leds := new Color[Total](_ => Black);
      ledsLast := new Color[Total](_ => White);
      new;
      written := [leds[..]];
    }

    /** `loop()`: measures the call rate and sends the one-pixel sign-of-life frame. */
    method Heartbeat(t: real)
      requires t != lastTime
      modifies this`now, this`frequency, this`lastTime, this`written
      ensures now == t && lastTime == t && frequency == 1.0 / (t - old(lastTime))
      ensures written == old(written) + [[AliveColor]]
    {
      now := t;
      frequency := 1.0 / (now - lastTime);
      lastTime := now;
      written := written + [[AliveColor]];
    }

    /** `clear()`: sends an all-black frame; the frame buffer itself is untouched. */
    method Clear()
      modifies this`written
      ensures written == old(written) + [seq(Total, _ => Black)]
    {
      written := written + [seq(Total, _ => Black)];
    }

    /** `clear_range()`: blackens the LEDs of `range(start, end)` that exist. */
    method ClearRange(start: int, end: int)
      requires Valid()
      modifies leds
      ensures leds[..] == Filled(old(leds[..]), start, end, Black)
    {
      var i := start;
      while i < end
        invariant start <= end ==> start <= i <= end
        invariant start > end ==> i == start
        invariant leds[..] == Filled(old(leds[..]), start, i, Black)
        decreases end - i
      {
        if 0 <= i < Total {
          leds[i] := Black;
        }
        i := i + 1;
      }
    }

    /**
     * `fill_range()`: colours the LEDs of `range(start, end)` that exist.
     * An unknown colour raises `KeyError` at the first existing LED, so
     * before anything is written, and only if the range holds one.
     */
    method FillRange(start: int, end: int, colorName: string) returns (r: Outcome)
      requires Valid()
      modifies leds
      ensures r == KeyError <==> ColorNamed(colorName).None? && Overlaps(start, end)
      ensures r != IndexError
      ensures ColorNamed(colorName).Some? ==> leds[..] == Filled(old(leds[..]), start, end, ColorNamed(colorName).value)
      ensures ColorNamed(colorName).None? ==> leds[..] == old(leds[..])
    {
      var i := start;
      while i < end
        invariant start <= end ==> start <= i <= end
        invariant start > end ==> i == start
        invariant ColorNamed(colorName).Some? ==> leds[..] == Filled(old(leds[..]), start, i, ColorNamed(colorName).value)
        invariant ColorNamed(colorName).None? ==> leds[..] == old(leds[..]) && !Overlaps(start, i)
        decreases end - i
      {
        if 0 <= i < Total {
          match ColorNamed(colorName)
          case None =>
            return KeyError;
          case Some(c) =>
            leds[i] := c;
        }
        i := i + 1;
      }
      return Done;
    }

    /**
     * `single()`: sets LED `idx` of panel `panel` (`module` in Python). The colour is looked up
     * first, so an unknown name raises `KeyError` even for a bad index;
     * then the index is resolved as a Python list index.
     */
    method Single(panel: int, idx: int, colorName: string) returns (r: Outcome)
      requires Valid()
      modifies leds
      ensures ColorNamed(colorName).None? ==> r == KeyError && leds[..] == old(leds[..])
      ensures ColorNamed(colorName).Some? && SingleIndex(panel, idx).None? ==> r == IndexError && leds[..] == old(leds[..])
      ensures ColorNamed(colorName).Some? && SingleIndex(panel, idx).Some? ==>
        r == Done && leds[..] == old(leds[..])[SingleIndex(panel, idx).value := ColorNamed(colorName).value]
    {
      match ColorNamed(colorName)
      case None =>
        return KeyError;
      case Some(c) =>
        var i := idx + panel * PerModule;
        if 0 <= i < Total {
          leds[i] := c;
        } else if -Total <= i < 0 {
          leds[i + Total] := c;
        } else {
          return IndexError;
        }
        return Done;
    }

    /** Sets the LEDs of one panel whose indices are in `cells` to `c`, in order. */
    method Paint(offset: int, cells: seq<int>, c: Color)
      requires Valid() && (offset == 0 || offset == PerModule)
      requires forall i :: 0 <= i < |cells| ==> 0 <= cells[i] < PerModule
      modifies leds
      ensures leds[..] == Painted(old(leds[..]), offset, cells, c)
    {
      for m := 0 to |cells|
        invariant leds[..] == Painted(old(leds[..]), offset, cells[..m], c)
      {
        assert cells[..m + 1] == cells[..m] + [cells[m]];
        leds[offset + cells[m]] := c;
      }
      assert cells[..|cells|] == cells;
    }

    /** The row half of a cross: each LED of `row` gets `c2`, or `comb` when it is also in `column`. */
    method CrossRow(offset: int, row: seq<int>, column: seq<int>, c2: Color, comb: Color)
      requires Valid() && (offset == 0 || offset == PerModule)
      requires forall i :: 0 <= i < |row| ==> 0 <= row[i] < PerModule
      modifies leds
      ensures leds[..] == Crossed(old(leds[..]), offset, row, column, c2, comb)
    {
      for m := 0 to |row|
        invariant leds[..] == Crossed(old(leds[..]), offset, row[..m], column, c2, comb)
      {
        assert row[..m + 1] == row[..m] + [row[m]];
        leds[offset + row[m]] := c2;
        if row[m] in column {
          leds[offset + row[m]] := comb;
        }
      }
      assert row[..|row|] == row;
    }

    /**
     * `line()`: draws a bar on one panel. A horizontal bar is the row, a
     * vertical bar the column, that the clipped first value selects between
     * its bounds; a cross adds the row the second value selects.
     */
    method Line(q: LineRequest)
      requires Valid()
      modifies leds
      ensures leds[..] == LineFrame(old(leds[..]), q)
    {
      var offset := ModuleOffset(q.moduleName);
      var c1 := ColorOrWhite(q.color1Name);
      if q.orientation == "horizontal" {
        var pos := Position(q.value1, q.min1, q.max1, NRows);
        TableEntries(Rows, pos);
        Paint(offset, Rows[pos], c1);
      } else if q.orientation == "vertical" {
        var pos := Position(q.value1, q.min1, q.max1, NColumns);
        TableEntries(Columns, pos);
        Paint(offset, Columns[pos], c1);
      } else if q.orientation == "cross" {
        var pos := Position(q.value1, q.min1, q.max1, NColumns);
        var column := Columns[pos];
        TableEntries(Columns, pos);
        Paint(offset, column, c1);
        pos := Position(q.value2, q.min2, q.max2, NRows);
        TableEntries(Rows, pos);
        CrossRow(offset, Rows[pos], column, ColorOrWhite(q.color2Name), ColorOrWhite(q.combName));
      }
    }

    /** `show()`: sends the frame only when it differs from the last one sent, then remembers it. */
    method Show()
      requires Valid()
      modifies ledsLast, this`written
      ensures leds[..] == old(leds[..]) && ledsLast[..] == leds[..]
      ensures old(leds[..]) != old(ledsLast[..]) ==> written == old(written) + [leds[..]]
      ensures old(leds[..]) == old(ledsLast[..]) ==> written == old(written)
    {
      if leds[..] != ledsLast[..] {
        written := written + [leds[..]];
        for i := 0 to Total
          invariant leds[..] == old(leds[..]) && written == old(written) + [leds[..]]
          invariant forall j :: 0 <= j < i ==> ledsLast[j] == leds[j]
        {
          ledsLast[i] := leds[i];
        }
        assert ledsLast[..] == leds[..];
      }
    }
  }

  /** Every entry of one row or column is an LED index of a panel. */
  lemma TableEntries(t: seq<seq<int>>, p: int)
    requires t == Rows || t == Columns
    requires 0 <= p < |t|
    ensures forall i :: 0 <= i < |t[p]| ==> 0 <= t[p][i] < PerModule
  {
    forall i | 0 <= i < |t[p]|
      ensures 0 <= t[p][i] < PerModule
    {
      TableEntry(t, p, i);
    }
  }
}
