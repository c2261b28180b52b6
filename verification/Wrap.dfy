/** client/markdown/wrap.go: the soft wrap of raw text. A line is its sequence of runes. */
module Wrap {
  import opened Text

  const SPACE := ' '

  predicate WordStart(r: string, j: nat)
  {
    0 < j < |r| && r[j] != SPACE && r[j - 1] == SPACE
  }

  /** One unbroken word, or part of one. */
  predicate OneWord(text: string)
  {
    SPACE !in text
  }

  /** A row without its trailing spaces: what of it shows. */
  function Trimmed(row: string): string
  {
    if row == "" || row[|row| - 1] != SPACE then row else Trimmed(row[..|row| - 1])
  }

  /** How much of the row r[pos..b] shows. */
  function Shown(r: string, pos: nat, b: nat): nat
    requires pos <= b <= |r|
    decreases b
  {
    if pos < b && r[b - 1] == SPACE then Shown(r, pos, b - 1) else b - pos
  }

  lemma {:induction false} ShownIsTrimmed(r: string, pos: nat, b: nat)
    requires pos <= b <= |r|
    ensures Shown(r, pos, b) == |Trimmed(r[pos..b])|
    decreases b
  {
    if pos < b {
      assert r[pos..b][..b - pos - 1] == r[pos..b - 1];
      if r[b - 1] == SPACE {
        ShownIsTrimmed(r, pos, b - 1);
      }
    }
  }

  /** The row r[pos..b] shows no more than cols. */
  predicate Fits(r: string, pos: nat, b: nat, cols: nat)
  {
    pos <= b <= |r| && Shown(r, pos, b) <= cols
  }

  /** Fitting is hanging spaces and nothing else past cols. */
  lemma {:induction false} FitsIsHanging(r: string, pos: nat, b: nat, cols: nat)
    requires pos <= b <= |r|
    ensures Fits(r, pos, b, cols) <==> forall i :: pos + cols <= i < b ==> r[i] == SPACE
    decreases b
  {
    if pos < b && r[b - 1] == SPACE {
      FitsIsHanging(r, pos, b - 1, cols);
    }
  }

  /** Where the row starting at pos ends: at the line's end when all that is left fits; else
      before the furthest word the row still fits in front of; else at the column limit. */
  ghost predicate IsRowEnd(r: string, pos: nat, cols: nat, cut: nat)
  {
    if Fits(r, pos, |r|, cols) then cut == |r|
    else if exists b :: pos < b && WordStart(r, b) && Fits(r, pos, b, cols) then
      && pos < cut && WordStart(r, cut) && Fits(r, pos, cut, cols)
      && forall b :: cut < b && WordStart(r, b) ==> !Fits(r, pos, b, cols)
    else cut == pos + cols
  }

  /** The furthest fitting word start at or before b, the column limit with none. */
  function FurthestFit(r: string, pos: nat, cols: nat, b: nat): (cut: nat)
    ensures pos < cut <= b || cut == pos + cols
    decreases b - pos
  {
    if b <= pos then pos + cols
    else if WordStart(r, b) && Fits(r, pos, b, cols) then b
    else FurthestFit(r, pos, cols, b - 1)
  }

  function RowEnd(r: string, pos: nat, cols: nat): (cut: nat)
    requires pos <= |r| && cols > 0
    ensures pos <= cut <= |r| && (cut < |r| ==> pos < cut)
  {
    if Fits(r, pos, |r|, cols) then |r|
    else
      FitsIsHanging(r, pos, |r|, cols);
      FurthestFit(r, pos, cols, |r| - 1)
  }

  lemma {:induction false} FurthestFitIsFurthest(r: string, pos: nat, cols: nat, b: nat)
    ensures var cut := FurthestFit(r, pos, cols, b);
            && (forall c :: pos < c <= b && cut < c && WordStart(r, c) ==> !Fits(r, pos, c, cols))
            && ((exists c :: pos < c <= b && WordStart(r, c) && Fits(r, pos, c, cols)) ==>
                 pos < cut <= b && WordStart(r, cut) && Fits(r, pos, cut, cols))
            && ((forall c :: pos < c <= b && WordStart(r, c) ==> !Fits(r, pos, c, cols)) ==> cut == pos + cols)
    decreases b - pos
  {
    if b > pos && !(WordStart(r, b) && Fits(r, pos, b, cols)) {
      FurthestFitIsFurthest(r, pos, cols, b - 1);
    }
  }

  /** RowEnd finds the row end, and a row has only one. */
  lemma RowEndIsRowEnd(r: string, pos: nat, cols: nat, cut: nat)
    requires pos <= |r| && cols > 0
    ensures IsRowEnd(r, pos, cols, cut) <==> cut == RowEnd(r, pos, cols)
  {
    if |r| > 0 {
      FurthestFitIsFurthest(r, pos, cols, |r| - 1);
    }
  }

  function WrapFrom(r: string, cols: nat, pos: nat): (rows: seq<string>)
    requires pos <= |r| && cols > 0
    ensures rows != []
    decreases |r| - pos
  {
    var cut := RowEnd(r, pos, cols);
    if cut == |r| then [r[pos..]] else [r[pos..cut]] + WrapFrom(r, cols, cut)
  }

  /** The rows of one line. */
  function Rows(line: string, cols: int): (rows: seq<string>)
    ensures rows != []
  {
    if cols <= 0 then [line] else WrapFrom(line, cols, 0)
  }

  function Flat(rows: seq<string>): string
  {
    if rows == [] then "" else rows[0] + Flat(rows[1..])
  }

  /** How many runes the first k rows hold. */
  function Offset(rows: seq<string>, k: nat): nat
    requires k <= |rows|
  {
    if k == 0 then 0 else Offset(rows, k - 1) + |rows[k - 1]|
  }

  lemma {:induction false} OffsetPastFirst(first: string, rest: seq<string>, k: nat)
    requires k <= |rest|
    ensures Offset([first] + rest, k + 1) == |first| + Offset(rest, k)
  {
    if k > 0 {
      OffsetPastFirst(first, rest, k - 1);
    } else {
      assert Offset([first] + rest, 1) == Offset([first] + rest, 0) + |first|;
    }
  }

  /** Row k read at its offset, ending at its row end. */
  ghost predicate CutAt(r: string, cols: nat, from: nat, row: string)
    requires cols > 0
  {
    from + |row| <= |r| && row == r[from..from + |row|] && from + |row| == RowEnd(r, from, cols)
  }

  /** Row k is the line between its offset and its row end, and only the last row reaches the line's end. */
  lemma {:induction false} RowCut(r: string, cols: nat, pos: nat, k: nat)
    requires pos <= |r| && cols > 0 && k < |WrapFrom(r, cols, pos)|
    ensures var rows := WrapFrom(r, cols, pos);
            && CutAt(r, cols, pos + Offset(rows, k), rows[k])
            && (pos + Offset(rows, k) + |rows[k]| == |r| <==> k == |rows| - 1)
    decreases k
  {
    hide RowEnd;
    var rows := WrapFrom(r, cols, pos);
    var cut := RowEnd(r, pos, cols);
    if k > 0 {
      OffsetPastFirst(rows[0], WrapFrom(r, cols, cut), k - 1);
      RowCut(r, cols, cut, k - 1);
    }
  }

  /** No rune is lost. */
  lemma {:induction false} RowsSpellLine(r: string, cols: nat, pos: nat)
    requires pos <= |r| && cols > 0
    ensures Flat(WrapFrom(r, cols, pos)) == r[pos..]
    decreases |r| - pos
  {
    hide RowEnd;
    var rows := WrapFrom(r, cols, pos);
    var cut := RowEnd(r, pos, cols);
    if cut < |r| {
      RowsSpellLine(r, cols, cut);
      assert rows[1..] == WrapFrom(r, cols, cut);
      assert r[pos..cut] + r[cut..] == r[pos..];
    } else {
      assert r[pos..] + "" == r[pos..];
    }
  }

  /** No rune is lost, whatever the width. */
  lemma WrapKeepsLine(line: string, cols: int)
    ensures Flat(Rows(line, cols)) == line
  {
    if cols > 0 {
      RowsSpellLine(line, cols, 0);
    } else {
      assert Flat([line]) == line + "" == line;
    }
  }

  /** A good row: it shows no more than cols, and it ends the line, or at a word, or cuts
      a word that fills the whole row and goes on past it. */
  ghost predicate GoodRow(r: string, pos: nat, cols: nat, cut: nat)
    requires pos <= cut <= |r|
  {
    && |Trimmed(r[pos..cut])| <= cols
    && (cut == |r| || WordStart(r, cut) || (cut == pos + cols && OneWord(r[pos..cut + 1])))
  }

  lemma RowEndIsGood(r: string, pos: nat, cols: nat, cut: nat)
    requires cols > 0 && pos <= cut <= |r| && cut == RowEnd(r, pos, cols)
    ensures GoodRow(r, pos, cols, cut)
  {
    RowEndIsRowEnd(r, pos, cols, cut);
    ShownIsTrimmed(r, pos, cut);
    if Fits(r, pos, |r|, cols) {
    } else if b :| pos < b && WordStart(r, b) && Fits(r, pos, b, cols) {
    } else {
      FitsIsHanging(r, pos, cut, cols);
      NoSpaceBefore(r, pos, cols);
    }
  }

  /** Every row of every line is a good row, and only the last one reaches the line's end. */
  lemma RowsAreGood(line: string, cols: nat, k: nat) returns (from: nat, next: nat)
    requires cols > 0 && k < |Rows(line, cols)|
    ensures from == Offset(Rows(line, cols), k) && next == from + |Rows(line, cols)[k]| <= |line|
    ensures Rows(line, cols)[k] == line[from..next] && GoodRow(line, from, cols, next)
    ensures next == |line| <==> k == |Rows(line, cols)| - 1
  {
    hide RowEnd, WrapFrom;
    RowCut(line, cols, 0, k);
    from := Offset(Rows(line, cols), k);
    next := from + |Rows(line, cols)[k]|;
    RowEndIsGood(line, from, cols, next);
  }

  /** And no word moves down that the row above could still have shown. */
  lemma RowsAreFull(line: string, cols: nat, k: nat, b: nat) returns (from: nat, next: nat)
    requires cols > 0 && k + 1 < |Rows(line, cols)|
    requires Offset(Rows(line, cols), k) + |Rows(line, cols)[k]| < b <= |line| && (b == |line| || WordStart(line, b))
    ensures from == Offset(Rows(line, cols), k) <= b && |Trimmed(line[from..b])| > cols
  {
    hide RowEnd, WrapFrom;
    RowCut(line, cols, 0, k);
    from := Offset(Rows(line, cols), k);
    next := from + |Rows(line, cols)[k]|;
    NothingFurtherFits(line, from, cols, next, b);
    ShownIsTrimmed(line, from, b);
  }

  lemma NothingFurtherFits(r: string, pos: nat, cols: nat, cut: nat, b: nat)
    requires cols > 0 && pos <= |r| && cut == RowEnd(r, pos, cols) < b <= |r| && (b == |r| || WordStart(r, b))
    ensures !Fits(r, pos, b, cols)
  {
    RowEndIsRowEnd(r, pos, cols, cut);
  }

  /** With no fitting word start past pos, and not all of the rest fitting, the row's
      columns and the rune after them are one unbroken word. */
  lemma {:induction false} NoSpaceBefore(r: string, pos: nat, cols: nat)
    requires cols > 0 && pos < |r| && !Fits(r, pos, |r|, cols)
    requires forall b :: pos < b && WordStart(r, b) ==> !Fits(r, pos, b, cols)
    ensures pos + cols < |r| && forall i :: pos <= i <= pos + cols ==> r[i] != SPACE
  {
    FitsIsHanging(r, pos, |r|, cols);
    if r[pos + cols] == SPACE {
      var b := NextWord(r, pos + cols);
      FitsIsHanging(r, pos, b, cols);
    }
    var j := pos + cols;
    while j > pos
      invariant pos <= j <= pos + cols
      invariant forall i :: j <= i <= pos + cols ==> r[i] != SPACE
    {
      FitsIsHanging(r, pos, j, cols);
      assert !WordStart(r, j);
      j := j - 1;
    }
  }

  /** Past a space that not only spaces follow, the next word start. */
  lemma NextWord(r: string, at: nat) returns (b: nat)
    requires at < |r| && r[at] == SPACE && exists i :: at < i < |r| && r[i] != SPACE
    ensures at < b && WordStart(r, b) && forall i :: at <= i < b ==> r[i] == SPACE
  {
    b := at + 1;
    while r[b] == SPACE
      invariant at < b < |r| && forall i :: at <= i < b ==> r[i] == SPACE
      invariant exists i :: b <= i < |r| && r[i] != SPACE
      decreases |r| - b
    {
      b := b + 1;
    }
  }

  /** The painter's scan for one cut: past the window when spaces hang there, back to the
      word's start otherwise; -1 when only spaces are left. */
  method FindCut(line: string, pos: nat, cols: nat) returns (cut: int)
    requires cols > 0 && pos + cols < |line|
    ensures cut == -1 ==> RowEnd(line, pos, cols) == |line|
    ensures cut != -1 ==> pos < cut < |line| && cut == RowEnd(line, pos, cols)
  {
    var window := pos + cols;
    cut := -1;
    if WordStart(line, window) {
      cut := window;
    } else if line[window] == SPACE {
      var j := window + 1;
      while j < |line|
        invariant window < j <= |line| && cut == -1
        invariant forall i :: window <= i < j ==> line[i] == SPACE
      {
        if WordStart(line, j) {
          cut := j;
          break;
        }
        j := j + 1;
      }
    } else {
      cut := window;
      var j := window - 1;
      while j > pos
        invariant pos <= j < window && cut == window
        invariant forall b :: j < b <= window ==> !WordStart(line, b)
      {
        if WordStart(line, j) {
          cut := j;
          break;
        }
        j := j - 1;
      }
    }
    CutIsRowEnd(line, pos, cols, if cut == -1 then |line| else cut);
  }

  /** The scan's two ways of cutting, against the rule. */
  lemma CutIsRowEnd(line: string, pos: nat, cols: nat, cut: nat)
    requires cols > 0 && pos + cols < |line| && pos < cut <= |line|
    requires cut < |line| && !WordStart(line, cut) ==>
               cut == pos + cols && line[cut] != SPACE && forall b :: pos < b <= cut ==> !WordStart(line, b)
    requires cut < |line| && WordStart(line, cut) && cut < pos + cols ==>
               line[pos + cols] != SPACE && forall b :: cut < b <= pos + cols ==> !WordStart(line, b)
    requires cut > pos + cols ==> forall i :: pos + cols <= i < cut ==> line[i] == SPACE
    requires cut == |line| || cut <= pos + cols || WordStart(line, cut)
    ensures RowEnd(line, pos, cols) == cut
  {
    FitsIsHanging(line, pos, |line|, cols);
    FitsIsHanging(line, pos, cut, cols);
    forall b | pos < b <= |line|
      ensures Fits(line, pos, b, cols) <==> forall i :: pos + cols <= i < b ==> line[i] == SPACE
    {
      FitsIsHanging(line, pos, b, cols);
    }
    RowEndIsRowEnd(line, pos, cols, cut);
  }

  lemma ShortRestFits(line: string, pos: nat, cols: nat)
    requires cols > 0 && pos <= |line| <= pos + cols
    ensures RowEnd(line, pos, cols) == |line|
  {
    FitsIsHanging(line, pos, |line|, cols);
  }

  /** The painter's loop, row by row. */
  method WrapRawLine(line: string, cols: int) returns (out: seq<string>)
    ensures out == Rows(line, cols)
  {
    hide RowEnd;
    if cols <= 0 {
      return [line];
    }
    out := [];
    var pos := 0;
    while |line| - pos > cols
      invariant 0 <= pos <= |line|
      invariant out + WrapFrom(line, cols, pos) == WrapFrom(line, cols, 0)
    {
      var cut := FindCut(line, pos, cols);
      if cut == -1 {
        break;
      }
      assert out + ([line[pos..cut]] + WrapFrom(line, cols, cut)) == (out + [line[pos..cut]]) + WrapFrom(line, cols, cut);
      out := out + [line[pos..cut]];
      pos := cut;
    }
    if |line| - pos <= cols {
      ShortRestFits(line, pos, cols);
    }
    return out + [line[pos..]];
  }

  // ---------------------------------------------------------------- whole texts

  /** Every visual row of a text, line after line. */
  function TextRows(lines: seq<string>, cols: int): seq<string>
  {
    if lines == [] then [] else Rows(lines[0], cols) + TextRows(lines[1..], cols)
  }

  /** The rows of the text from start on; none once the scan has passed the end. */
  ghost function RowsFrom(src: string, start: nat, cols: int): seq<string>
    requires start <= |src| + 1
  {
    if start == |src| + 1 then [] else TextRows(Split(src[start..], '\n'), cols)
  }

  /** The scan for line ends: each line's rows as the line closes. */
  method WrapRawText(src: string, cols: int) returns (out: seq<string>)
    ensures out == TextRows(Split(src, '\n'), cols)
  {
    hide Rows, TextRows, Split;
    out := [];
    var start, i := 0, 0;
    ghost var all := RowsFrom(src, 0, cols);
    assert src[0..] == src && all == TextRows(Split(src, '\n'), cols);
    while i <= |src|
      invariant 0 <= start <= i <= |src| + 1 && (i == |src| + 1 ==> start == i)
      invariant i <= |src| ==> '\n' !in src[start..i]
      invariant out + RowsFrom(src, start, cols) == all
    {
      if i == |src| || src[i] == '\n' {
        LineCloses(src, start, i, cols);
        var rows := WrapRawLine(src[start..i], cols);
        assert all == out + (rows + RowsFrom(src, i + 1, cols));
        assert out + (rows + RowsFrom(src, i + 1, cols)) == (out + rows) + RowsFrom(src, i + 1, cols);
        out := out + rows;
        start := i + 1;
      } else {
        assert src[start..i + 1] == src[start..i] + [src[i]];
      }
      i := i + 1;
    }
  }

  /** The text up to the first line end is the first line. */
  lemma LineCloses(src: string, start: nat, i: nat, cols: int)
    requires start <= i <= |src| && '\n' !in src[start..i] && (i < |src| ==> src[i] == '\n')
    ensures RowsFrom(src, start, cols) == Rows(src[start..i], cols) + RowsFrom(src, i + 1, cols)
  {
    hide Rows;
    var line, rest := src[start..i], src[i..];
    assert src[start..] == line + rest;
    SplitPrefix(line, rest, '\n');
    assert line + "" == line;
    if i < |src| {
      assert rest[1..] == src[i + 1..];
      var parts := [line] + Split(src[i + 1..], '\n');
      assert Split(src[start..], '\n') == parts && parts[1..] == Split(src[i + 1..], '\n');
    } else {
      assert Split(src[start..], '\n') == [line] && [line][1..] == [];
      assert TextRows([line], cols) == Rows(line, cols) + [];
    }
  }
}
