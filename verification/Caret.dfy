/** client/textcursor/caret.go: the caret a press puts down in wrapped raw text. Pixels are
    reals; a rune's UTF-16 length is one unit below U+10000 and two from there on. */
module Caret {
  import opened Text
  import opened Wrap

  const SURROGATES := 0x10000

  /** The painter's layout, in pixels: rows slot apart from top, columns adv apart from left. */
  datatype Grid = Grid(cols: int, left: real, top: real, slot: real, adv: real)

  function Utf16Len(s: string): nat
  {
    if s == "" then 0 else (if s[0] as int >= SURROGATES then 2 else 1) + Utf16Len(s[1..])
  }

  lemma {:induction false} Utf16LenConcat(a: string, b: string)
    ensures Utf16Len(a + b) == Utf16Len(a) + Utf16Len(b)
  {
    if a == "" {
      assert a + b == b;
    } else {
      assert (a + b)[1..] == a[1..] + b;
      Utf16LenConcat(a[1..], b);
    }
  }

  function Min(a: int, b: int): int { if a < b then a else b }
  function Max(a: int, b: int): int { if a < b then b else a }

  /** Half away from zero. */
  function Round(x: real): int
  {
    if x < 0.0 then -((-x + 0.5).Floor) else (x + 0.5).Floor
  }

  function RowAt(g: Grid, y: real): nat
  {
    if g.slot > 0.0 then Max(((y - g.top) / g.slot).Floor, 0) else 0
  }

  function ColAt(g: Grid, x: real): nat
  {
    if g.adv > 0.0 then Max(Round((x - g.left) / g.adv), 0) else 0
  }

  /** A press's row is the one whose slot it falls in, above the first the first. */
  lemma PressedRow(g: Grid, y: real, k: nat)
    requires k > 0
    ensures g.slot > 0.0 ==> (RowAt(g, y) == k <==> k as real * g.slot <= y - g.top < (k + 1) as real * g.slot)
    ensures g.slot > 0.0 ==> (RowAt(g, y) == 0 <==> y - g.top < g.slot)
    ensures g.slot <= 0.0 ==> RowAt(g, y) == 0
  {
    if g.slot > 0.0 {
      var q := (y - g.top) / g.slot;
      QuotientReaches(y - g.top, g.slot, k as real);
      QuotientReaches(y - g.top, g.slot, (k + 1) as real);
      QuotientReaches(y - g.top, g.slot, 1.0);
      assert RowAt(g, y) == Max(q.Floor, 0);
      FloorRow(q, k);
      assert 1.0 * g.slot == g.slot;
    }
  }

  lemma FloorRow(q: real, k: nat)
    requires k > 0
    ensures Max(q.Floor, 0) == k <==> k as real <= q && !((k + 1) as real <= q)
    ensures Max(q.Floor, 0) == 0 <==> !(1.0 <= q)
  {
  }

  /** Its column is the nearest, of two as near the later, and left of the first the first. */
  lemma PressedColumn(g: Grid, x: real, k: nat)
    requires k > 0
    ensures g.adv > 0.0 ==> (ColAt(g, x) == k <==> (k as real - 0.5) * g.adv <= x - g.left < (k as real + 0.5) * g.adv)
    ensures g.adv > 0.0 ==> (ColAt(g, x) == 0 <==> x - g.left < 0.5 * g.adv)
    ensures g.adv <= 0.0 ==> ColAt(g, x) == 0
  {
    if g.adv > 0.0 {
      var q := (x - g.left) / g.adv;
      QuotientReaches(x - g.left, g.adv, k as real - 0.5);
      QuotientReaches(x - g.left, g.adv, k as real + 0.5);
      QuotientReaches(x - g.left, g.adv, 0.5);
      assert ColAt(g, x) == Max(Round(q), 0);
      NearestColumn(q, k);
    }
  }

  lemma NearestColumn(q: real, k: nat)
    requires k > 0
    ensures Max(Round(q), 0) == k <==> k as real - 0.5 <= q < k as real + 0.5
    ensures Max(Round(q), 0) == 0 <==> q < 0.5
  {
  }

  lemma QuotientReaches(x: real, d: real, c: real)
    requires d > 0.0
    ensures c <= x / d <==> c * d <= x
  {
    assert x / d * d == x;
    Scaled(c, x / d, d);
  }

  lemma Scaled(c: real, q: real, d: real)
    requires d > 0.0
    ensures c <= q <==> c * d <= q * d
  {
    if c <= q {
      assert (q - c) * d >= 0.0;
    } else {
      assert (c - q) * d > 0.0;
    }
  }

  /** A text's units are its runes and one more for each beyond the basic plane. */
  lemma {:induction false} UnitsAreRunes(s: string)
    ensures Utf16Len(s) == |s| + |set i | 0 <= i < |s| && s[i] as int >= 0x10000|
  {
    var far := set i | 0 <= i < |s| && s[i] as int >= 0x10000;
    if s == "" {
      assert far == {};
    } else {
      var n := |s| - 1;
      UnitsAreRunes(s[..n]);
      assert s == s[..n] + [s[n]];
      Utf16LenConcat(s[..n], [s[n]]);
      assert Utf16Len([s[n]]) == if s[n] as int >= 0x10000 then 2 else 1;
      var before := set i | 0 <= i < |s[..n]| && s[..n][i] as int >= 0x10000;
      assert far == if s[n] as int >= 0x10000 then before + {n} else before;
    }
  }

  /** The rune position in the text of the lines that visual row and column name, clamped
      to the row's end, and to the text's end below the last row. */
  function Position(lines: seq<string>, cols: int, row: nat, col: nat): nat
    requires lines != []
  {
    var rows := Rows(lines[0], cols);
    if row < |rows| then Offset(rows, row) + Min(col, |rows[row]|)
    else if |lines| == 1 then |lines[0]|
    else |lines[0]| + 1 + Position(lines[1..], cols, row - |rows|, col)
  }

  lemma FirstLine(lines: seq<string>)
    requires lines != []
    ensures var text, n := Join(lines, '\n'), |lines[0]|;
            if |lines| == 1 then text == lines[0]
            else text == lines[0] + ['\n'] + Join(lines[1..], '\n') && |text| > n && text[..n] == lines[0]
                 && text[..n + 1] == lines[0] + ['\n'] && text[n + 1..] == Join(lines[1..], '\n')
  {
  }

  /** What a visual row reads in the text. */
  ghost predicate ReadsAt(text: string, start: nat, row: string)
  {
    start + |row| <= |text| && text[start..start + |row|] == row
  }

  lemma ReadsInside(text: string, at: nat, part: string, start: nat, row: string)
    requires ReadsAt(text, at, part) && ReadsAt(part, start, row)
    ensures ReadsAt(text, at + start, row)
  {
    var read := text[at..at + |part|];
    assert read == part && part[start..start + |row|] == row;
    forall k | 0 <= k < |row|
      ensures text[at + start + k] == row[k]
    {
      assert text[at + start + k] == read[start + k] == part[start..start + |row|][k];
    }
  }

  /** A visual row is one of the first line's, or one of the rest's. */
  lemma RowIsHereOrBelow(lines: seq<string>, cols: int, row: nat)
    requires lines != [] && row < |TextRows(lines, cols)|
    ensures var here := Rows(lines[0], cols);
            if row < |here| then TextRows(lines, cols)[row] == here[row]
            else |lines| > 1 && row - |here| < |TextRows(lines[1..], cols)|
                 && TextRows(lines, cols)[row] == TextRows(lines[1..], cols)[row - |here|]
  {
    hide Rows;
    if |lines| == 1 {
      assert TextRows(lines[1..], cols) == [];
    }
  }

  lemma RowOfFirstLine(text: string, line: string, cols: int, row: nat)
    requires |line| <= |text| && text[..|line|] == line && row < |Rows(line, cols)|
    ensures ReadsAt(text, Offset(Rows(line, cols), row), Rows(line, cols)[row])
  {
    hide Rows;
    WrapKeepsLine(line, cols);
    RowOfFlat(Rows(line, cols), row);
    ReadsInside(text, 0, line, Offset(Rows(line, cols), row), Rows(line, cols)[row]);
  }

  lemma ReadsInTail(text: string, n: nat, tail: string, start: nat, row: string)
    requires n <= |text| && text[n..] == tail && ReadsAt(tail, start, row)
    ensures ReadsAt(text, n + start, row)
  {
    ReadsInside(text, n, tail, start, row);
  }

  /** The text a visual row reads starts at its position at column 0. */
  lemma {:induction false} RowIsRead(lines: seq<string>, cols: int, row: nat)
    requires lines != [] && row < |TextRows(lines, cols)|
    ensures ReadsAt(Join(lines, '\n'), Position(lines, cols, row, 0), TextRows(lines, cols)[row])
  {
    hide Rows;
    var text, n := Join(lines, '\n'), |Rows(lines[0], cols)|;
    FirstLine(lines);
    RowIsHereOrBelow(lines, cols, row);
    if row < n {
      RowOfFirstLine(text, lines[0], cols, row);
    } else {
      RowIsRead(lines[1..], cols, row - n);
      ReadsInTail(text, |lines[0]| + 1, Join(lines[1..], '\n'),
        Position(lines[1..], cols, row - n, 0), TextRows(lines[1..], cols)[row - n]);
    }
  }

  /** Along its row each column is one rune on, clamped to the row; past the last row is the text's end. */
  lemma {:induction false} ColumnsCountRunes(lines: seq<string>, cols: int, row: nat, col: nat)
    requires lines != []
    ensures row < |TextRows(lines, cols)| ==>
              Position(lines, cols, row, col) == Position(lines, cols, row, 0) + Min(col, |TextRows(lines, cols)[row]|)
    ensures row >= |TextRows(lines, cols)| ==> Position(lines, cols, row, col) == |Join(lines, '\n')|
  {
    hide Rows;
    var here := Rows(lines[0], cols);
    FirstLine(lines);
    if row < |TextRows(lines, cols)| {
      RowIsHereOrBelow(lines, cols, row);
    }
    if row >= |here| && |lines| > 1 {
      ColumnsCountRunes(lines[1..], cols, row - |here|, col);
    }
  }

  lemma {:induction false} RowOfFlat(rows: seq<string>, k: nat)
    requires k < |rows|
    ensures ReadsAt(Flat(rows), Offset(rows, k), rows[k])
  {
    if k > 0 {
      RowOfFlat(rows[1..], k - 1);
      assert ReadsAt(Flat(rows), |rows[0]|, Flat(rows[1..]));
      ReadsInside(Flat(rows), |rows[0]|, Flat(rows[1..]), Offset(rows[1..], k - 1), rows[k]);
      assert [rows[0]] + rows[1..] == rows;
      OffsetPastFirst(rows[0], rows[1..], k - 1);
    }
  }

  lemma {:induction false} OffsetAll(rows: seq<string>)
    ensures Offset(rows, |rows|) == |Flat(rows)|
  {
    if rows != [] {
      OffsetAll(rows[1..]);
      assert [rows[0]] + rows[1..] == rows;
      OffsetPastFirst(rows[0], rows[1..], |rows| - 1);
    }
  }

  /** Reading a part on adds its units to the units before it. */
  lemma UnitsThrough(text: string, at: nat, part: string, n: nat)
    requires ReadsAt(text, at, part) && n <= |part|
    ensures Utf16Len(text[..at + n]) == Utf16Len(text[..at]) + Utf16Len(part[..n])
  {
    Utf16LenConcat(text[..at], part[..n]);
    var read := text[at..at + |part|];
    assert read == part;
    assert text[at..at + n] == read[..n];
    assert text[..at + n] == text[..at] + text[at..at + n];
  }

  /** A row of a line is read, in the text, at the line's place. */
  lemma PieceReads(src: string, base: nat, line: string, cols: int, j: nat)
    requires ReadsAt(src, base, line) && j < |Rows(line, cols)|
    ensures ReadsAt(src, base + Offset(Rows(line, cols), j), Rows(line, cols)[j])
    ensures Offset(Rows(line, cols), j + 1) == Offset(Rows(line, cols), j) + |Rows(line, cols)[j]| <= |line|
  {
    hide Rows;
    var rows := Rows(line, cols);
    WrapKeepsLine(line, cols);
    RowOfFlat(rows, j);
    ReadsInside(src, base, line, Offset(rows, j), rows[j]);
  }

  /** The rows of one line, the press's row counted down over them: the offset when the
      press lands in one of them, and otherwise the count past the whole line. */
  method InLine(ghost src: string, ghost base: nat, line: string, cols: int, row0: nat, col0: nat, off0: nat, last: bool)
    returns (landed: bool, off: nat, row: nat)
    requires ReadsAt(src, base, line) && off0 == Utf16Len(src[..base])
    ensures landed <==> row0 < |Rows(line, cols)| || last
    ensures landed ==> var at := base + Position([line], cols, row0, col0);
                       at <= base + |line| && off == Utf16Len(src[..at])
    ensures !landed ==> row == row0 - |Rows(line, cols)| && off == Utf16Len(src[..base + |line|])
  {
    hide Rows, Utf16Len, Flat;
    off, row := off0, row0;
    var col := col0;
    var pieces := WrapRawLine(line, cols);
    WrapKeepsLine(line, cols);
    OffsetAll(pieces);
    var j := 0;
    while j < |pieces|
      invariant 0 <= j <= |pieces| && row0 == row + j && (j == |pieces| ==> !last)
      invariant base + Offset(pieces, j) <= |src| && off == Utf16Len(src[..base + Offset(pieces, j)])
    {
      var piece := pieces[j];
      PieceReads(src, base, line, cols, j);
      if row > 0 && last && j == |pieces| - 1 {
        col := |piece|;
      } else if row > 0 {
        UnitsThrough(src, base + Offset(pieces, j), piece, |piece|);
        assert piece[..|piece|] == piece;
        row := row - 1;
        off := off + Utf16Len(piece);
        j := j + 1;
        continue;
      }
      var c := Min(col, |piece|);
      UnitsThrough(src, base + Offset(pieces, j), piece, c);
      return true, off + Utf16Len(piece[..c]), row;
    }
    return false, off, row;
  }

  /** The offset a press lands on counts, in UTF-16 units, exactly the text before it. */
  method CaretAt(src: string, g: Grid, x: real, y: real) returns (offset: nat)
    ensures var at := Position(Split(src, '\n'), g.cols, RowAt(g, y), ColAt(g, x));
            at <= |src| && offset == Utf16Len(src[..at])
  {
    offset := CaretAtCell(src, g.cols, RowAt(g, y), ColAt(g, x));
  }

  /** The same, once the press is a visual row and a column. */
  method CaretAtCell(src: string, cols: int, row0: nat, col: nat) returns (offset: nat)
    ensures var at := Position(Split(src, '\n'), cols, row0, col);
            at <= |src| && offset == Utf16Len(src[..at])
  {
    hide Rows, Position, ReadsAt, Utf16Len, Join, Split;
    var row := row0;
    var lines := Split(src, '\n');
    ghost var goal := Position(lines, cols, row, col);
    JoinOfSplit(src, '\n');
    var off: nat := 0;
    ghost var base: nat := 0;
    var i := 0;
    NoUnits(src);
    assert lines[0..] == lines && src[0..] == src;
    while true
      invariant 0 <= i < |lines| && base <= |src|
      invariant off == Utf16Len(src[..base])
      invariant src[base..] == Join(lines[i..], '\n')
      invariant goal == base + Position(lines[i..], cols, row, col)
      decreases |lines| - i
    {
      LineReads(src, base, lines[i..]);
      PositionByLine(lines[i..], cols, row, col);
      assert lines[i..][0] == lines[i] && lines[i..][1..] == lines[i + 1..];
      var landed, off', row' := InLine(src, base, lines[i], cols, row, col, off, i == |lines| - 1);
      if landed {
        return off';
      }
      off, row, i := off' + 1, row', i + 1;
      base := base + |lines[i - 1]| + 1;
    }
  }

  lemma NoUnits(src: string)
    ensures Utf16Len(src[..0]) == 0
  {
  }

  /** A position is in the first line, or past it. */
  lemma PositionByLine(lines: seq<string>, cols: int, row: nat, col: nat)
    requires lines != []
    ensures Position(lines, cols, row, col) ==
            if row < |Rows(lines[0], cols)| || |lines| == 1 then Position([lines[0]], cols, row, col)
            else |lines[0]| + 1 + Position(lines[1..], cols, row - |Rows(lines[0], cols)|, col)
  {
    hide Rows;
  }

  /** A line read off the front of the text: itself, the line end, and the lines after it. */
  lemma LineReads(src: string, base: nat, rest: seq<string>)
    requires base <= |src| && rest != [] && src[base..] == Join(rest, '\n')
    ensures ReadsAt(src, base, rest[0])
    ensures |rest| > 1 ==>
              var next := base + |rest[0]| + 1;
              next <= |src| && src[next..] == Join(rest[1..], '\n')
              && Utf16Len(src[..next]) == Utf16Len(src[..next - 1]) + 1
  {
    FirstLine(rest);
    var n := |rest[0]|;
    assert src[base..][..n] == src[base..base + n];
    if |rest| > 1 {
      assert src[base..][n + 1..] == src[base + n + 1..];
      assert src[base..][..n + 1][n] == '\n';
      assert src[..base + n + 1] == src[..base + n] + ['\n'];
      Utf16LenConcat(src[..base + n], ['\n']);
      assert ['\n'][1..] == "" && Utf16Len(['\n']) == 1;
    }
  }
}
