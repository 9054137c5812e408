/**
 * Normalisation of a level map as it is read from its text file: trailing
 * white space is stripped from every line, the rows are reversed (the
 * window counts rows from the bottom), a map larger than the window is
 * rejected, and a smaller one is centred by padding it with dots.
 */
module Maps {
  import opened Grid
  import opened Wrappers

  datatype MapError =
    | EmptyMap                       // a file without lines has no widest row
    | TooBig(width: int, height: int)

  /** White space removed by rstrip: the characters for which Python's `str.isspace` holds. */
  predicate IsSpace(c: char) {
    || c in {' ', '\t', '\n', '\r', '\U{0B}', '\U{0C}', '\U{1C}', '\U{1D}', '\U{1E}', '\U{1F}', '\U{85}', '\U{A0}'}
    || c in {'\U{1680}', '\U{2028}', '\U{2029}', '\U{202F}', '\U{205F}', '\U{3000}'}
    || '\U{2000}' <= c <= '\U{200A}'
  }

  /** A line without its trailing white space. */
  function RStrip(s: string): (r: string)
    ensures r <= s
    ensures r == [] || !IsSpace(r[|r| - 1])
    ensures forall k :: |r| <= k < |s| ==> IsSpace(s[k])
  {
    if s != [] && IsSpace(s[|s| - 1]) then RStrip(s[..|s| - 1]) else s
  }

  /** The length of the longest row (0 for no rows). */
  function Widest(rows: seq<seq<char>>): (w: nat)
    ensures forall k :: 0 <= k < |rows| ==> |rows[k]| <= w
    ensures rows != [] ==> exists k :: 0 <= k < |rows| && |rows[k]| == w
    ensures rows == [] ==> w == 0
  {
    if rows == [] then 0
    else
      var w := Widest(rows[..|rows| - 1]);
      var last := |rows[|rows| - 1]|;
      if last > w then last else w
  }

  /** The rows of a map file from the bottom up: stripped lines in reverse order. */
  function Rows(lines: seq<string>): (rows: seq<seq<char>>)
    ensures |rows| == |lines|
    ensures forall k :: 0 <= k < |lines| ==> rows[k] == RStrip(lines[|lines| - 1 - k])
  {
    seq(|lines|, k requires 0 <= k < |lines| => RStrip(lines[|lines| - 1 - k]))
  }

  /** Padding rows below the map and padding columns left of it. */
  function RowOffset(rows: seq<seq<char>>): int {
    (GridHeight - |rows|) / 2
  }

  function ColumnOffset(rows: seq<seq<char>>): int {
    (GridWidth - Widest(rows)) / 2
  }

  /** Whether cell (x, y) of the window is covered by a symbol of `rows`. */
  predicate Covered(rows: seq<seq<char>>, y: int, x: int) {
    var pr, pc := RowOffset(rows), ColumnOffset(rows);
    pr <= y < pr + |rows| && pc <= x < pc + |rows[y - pr]|
  }

  /**
   * `m` is `rows` placed in the window: row k of `rows` starts at cell
   * (ColumnOffset, RowOffset + k) and every other cell is a dot.
   */
  ghost predicate Placed(m: Map, rows: seq<seq<char>>) {
    WellFormed(m) &&
    forall y, x :: 0 <= y < GridHeight && 0 <= x < GridWidth ==>
      m[y][x] == if Covered(rows, y, x) then rows[y - RowOffset(rows)][x - ColumnOffset(rows)] else '.'
  }

  /** A row of `n` dots. */
  function Dots(n: nat): (r: seq<char>)
    ensures |r| == n && forall k :: 0 <= k < n ==> r[k] == '.'
  {
    seq(n, _ => '.')
  }

  /** Game.__read_maps for one file, given the lines of the file. */
  method ReadMap(lines: seq<string>) returns (r: Result<Map, MapError>)
    ensures lines == [] ==> r == Err(EmptyMap)
    ensures lines != [] ==>
              (r.Err? <==> |lines| > GridHeight || Widest(Rows(lines)) > GridWidth)
    ensures lines != [] && r.Err? ==> r.error == TooBig(Widest(Rows(lines)), |lines|)
    ensures r.Ok? ==> Placed(r.value, Rows(lines))
  {
    var n := |lines|;
    if n == 0 {
      return Err(EmptyMap);
    }
    var rows := new seq<char>[n];
    for k := 0 to n
      invariant forall i :: 0 <= i < k ==> rows[i] == RStrip(lines[i])
    {
      rows[k] := RStrip(lines[k]);
    }
    // the window counts rows from the bottom
    Reverse(rows);
    assert rows[..] == Rows(lines);
    var width := WidestOf(rows);
    if n > GridHeight || width > GridWidth {
      return Err(TooBig(width, n));
    }
    var padded := Pad(rows[..], width);
    return Ok(padded);
  }

  /** list.reverse: reverses the rows in place. */
  method Reverse(rows: array<seq<char>>)
    modifies rows
    ensures forall k :: 0 <= k < rows.Length ==> rows[k] == old(rows[rows.Length - 1 - k])
  {
    var n := rows.Length;
    var i := 0;
    while i < n / 2
      invariant 0 <= i <= n / 2
      invariant forall k :: 0 <= k < i ==> rows[k] == old(rows[n - 1 - k]) && rows[n - 1 - k] == old(rows[k])
      invariant forall k :: i <= k < n - i ==> rows[k] == old(rows[k])
    {
      rows[i], rows[n - 1 - i] := rows[n - 1 - i], rows[i];
      i := i + 1;
    }
  }

  /** The length of the longest row. */
  method WidestOf(rows: array<seq<char>>) returns (width: nat)
    ensures width == Widest(rows[..])
  {
    width := 0;
    for k := 0 to rows.Length
      invariant width == Widest(rows[..k])
    {
      assert rows[..k + 1][..k] == rows[..k];
      width := if |rows[k]| > width then |rows[k]| else width;
    }
    assert rows[..rows.Length] == rows[..];
  }

  /** Centres rows that fit into the window by padding them with dots. */
  method Pad(rows: seq<seq<char>>, width: nat) returns (padded: Map)
    requires |rows| <= GridHeight && width == Widest(rows) <= GridWidth
    ensures Placed(padded, rows)
  {
    var pr := (GridHeight - |rows|) / 2;
    var pc := (GridWidth - width) / 2;
    // pad from the bottom
    padded := seq(pr, _ => Dots(GridWidth));
    // pad from the left and the right
    for k := 0 to |rows|
      invariant |padded| == pr + k
      invariant forall y :: 0 <= y < pr ==> padded[y] == Dots(GridWidth)
      invariant forall y :: pr <= y < pr + k ==> padded[y] == Dots(pc) + rows[y - pr] + Dots(GridWidth - pc - |rows[y - pr]|)
    {
      var newRow := Dots(pc) + rows[k];
      newRow := newRow + Dots(GridWidth - |newRow|);
      padded := padded + [newRow];
    }
    // pad from the top
    padded := padded + seq(GridHeight - |padded|, _ => Dots(GridWidth));
    forall y, x | 0 <= y < GridHeight && 0 <= x < GridWidth
      ensures padded[y][x] == if Covered(rows, y, x) then rows[y - pr][x - pc] else '.'
    {
      if pr <= y < pr + |rows| {
        var row := rows[y - pr];
        assert padded[y] == Dots(pc) + row + Dots(GridWidth - pc - |row|);
      }
    }
  }

  /** A placed map that fits the window holds every symbol of `rows`, at the offsets. */
  lemma PlacedRows(m: Map, rows: seq<seq<char>>)
    requires Placed(m, rows) && |rows| <= GridHeight && Widest(rows) <= GridWidth
    ensures forall k, j :: 0 <= k < |rows| && 0 <= j < |rows[k]| ==>
              m[RowOffset(rows) + k][ColumnOffset(rows) + j] == rows[k][j]
  {
    forall k, j | 0 <= k < |rows| && 0 <= j < |rows[k]|
      ensures m[RowOffset(rows) + k][ColumnOffset(rows) + j] == rows[k][j]
    {
      assert Covered(rows, RowOffset(rows) + k, ColumnOffset(rows) + j);
    }
  }

  /**
   * The padding is impassable: a cell that the map does not cover holds a
   * dot, which blocks with or without the key.
   */
  lemma PaddingIsImpassable(m: Map, rows: seq<seq<char>>, c: Cell, hasKey: bool)
    requires Placed(m, rows) && InGrid(c) && !Covered(rows, c.1, c.0)
    ensures IsForbidden(m, c, Stay, hasKey)
  {
    assert m[c.1][c.0] == '.';
  }

  /** The map is centred: the padding above and below differ by at most one row. */
  lemma RowsCentred(rows: seq<seq<char>>)
    requires |rows| <= GridHeight
    ensures 0 <= RowOffset(rows)
    ensures var above := GridHeight - |rows| - RowOffset(rows);
            RowOffset(rows) <= above <= RowOffset(rows) + 1
  {
  }
}
