/**
 Lines of a screen text and the byte offsets that crates/agents/src/engine.rs
 computes for them. The text is its UTF-8 bytes. `Lines` is Rust's `str::lines`:
 a line ends at a line feed, a carriage return just before that feed is stripped
 with it, and a final feed opens no further line.
 */
module ScreenLines {
  import opened Terminal

  const LF: byte := 10
  const CR: byte := 13

  type Text = seq<byte>

  function Min(a: nat, b: nat): nat { if a <= b then a else b }

  predicate EndsLine(t: Text) { t != [] && t[|t| - 1] == LF }

  // The length of the first line with its terminator.
  function PieceLen(t: Text): (n: nat)
    requires t != []
    ensures 1 <= n <= |t|
    ensures n == |t| || EndsLine(t[..n])
  {
    if t[0] == LF || |t| == 1 then 1
    else
      var n := PieceLen(t[1..]);
      assert n < |t| - 1 ==> t[..n + 1][n] == t[1..][..n][n - 1];
      n + 1
  }

  // The first line with its terminator, and what follows it.
  function First(t: Text): Text
    requires t != []
  {
    t[..PieceLen(t)]
  }

  function Rest(t: Text): (rest: Text)
    requires t != []
    ensures |rest| < |t|
  {
    t[PieceLen(t)..]
  }

  // The first line ends with a return that `Lines` strips along with the feed.
  predicate Returned(piece: Text) { |piece| >= 2 && EndsLine(piece) && piece[|piece| - 2] == CR }

  function Strip(piece: Text): Text {
    if !EndsLine(piece) then piece
    else if Returned(piece) then piece[..|piece| - 2]
    else piece[..|piece| - 1]
  }

  function Lines(t: Text): seq<Text>
    decreases |t|
  {
    if t == [] then [] else [Strip(First(t))] + Lines(Rest(t))
  }

  // ------------------------------------------------- where a line really starts

  // The offset of line `i`, or the end of the text when there are not that many.
  function Start(t: Text, i: nat): (s: nat)
    ensures s <= |t|
    decreases i
  {
    if i == 0 || t == [] then 0 else PieceLen(t) + Start(Rest(t), i - 1)
  }

  // How many of the first `i` lines lost a return.
  function Returns(t: Text, i: nat): nat
    decreases i
  {
    if i == 0 || t == [] then 0
    else (if Returned(First(t)) then 1 else 0) + Returns(Rest(t), i - 1)
  }

  // Line `i` is past a last line that has no feed.
  function Unended(t: Text, i: nat): nat {
    if i >= |Lines(t)| && t != [] && !EndsLine(t) then 1 else 0
  }

  // ------------------------------------------------------ what the code computes

  function Widths(lines: seq<Text>): nat {
    if lines == [] then 0 else |lines[0]| + 1 + Widths(lines[1..])
  }

  function LineStartOffset(t: Text, lines: seq<Text>, i: nat): (n: nat)
    ensures n <= |t|
  {
    Min(Widths(lines[..Min(i, |lines|)]), |t|)
  }

  function SliceFrom(t: Text, lines: seq<Text>, i: nat): Text {
    t[LineStartOffset(t, lines, i)..]
  }

  // ------------------------------------------------------------- the two agree

  lemma PieceLenStops(a: Text, b: Text)
    requires a != [] && EndsLine(a[..PieceLen(a)])
    ensures PieceLen(a + b) == PieceLen(a)
  {
    if a[0] != LF && |a| > 1 {
      var n := PieceLen(a[1..]);
      assert a[1..][..n][n - 1] == a[..n + 1][n];
      assert (a + b)[1..] == a[1..] + b;
      PieceLenStops(a[1..], b);
    }
  }

  lemma Peel(t: Text, i: nat)
    requires t != [] && i > 0
    ensures Unended(t, i) == if Rest(t) == [] then (if EndsLine(t) then 0 else 1) else Unended(Rest(t), i - 1)
  {
    assert |Lines(t)| == 1 + |Lines(Rest(t))|;
    if Rest(t) != [] {
      assert Rest(t)[|Rest(t)| - 1] == t[|t| - 1];
      assert EndsLine(Rest(t)) == EndsLine(t);
    } else {
      assert Lines(Rest(t)) == [];
    }
  }

  lemma ConsDrop(x: Text, rest: seq<Text>, i: nat)
    requires i > 0
    ensures ([x] + rest)[Min(i, |rest| + 1)..] == rest[Min(i - 1, |rest|)..]
  {
  }

  lemma ConsWidths(x: Text, rest: seq<Text>, i: nat)
    requires i > 0
    ensures Widths(([x] + rest)[..Min(i, |rest| + 1)]) == |x| + 1 + Widths(rest[..Min(i - 1, |rest|)])
  {
    var taken := ([x] + rest)[..Min(i, |rest| + 1)];
    assert taken[0] == x && taken[1..] == rest[..Min(i - 1, |rest|)];
  }

  predicate OnBoundary(t: Text, s: nat)
    requires s <= |t|
  {
    s == |t| || s == 0 || t[s - 1] == LF
  }

  lemma {:induction false} StartOnBoundary(t: Text, i: nat)
    ensures OnBoundary(t, Start(t, i))
    ensures i >= |Lines(t)| ==> Start(t, i) == |t|
    decreases i
  {
    if i > 0 && t != [] {
      StartOnBoundary(Rest(t), i - 1);
      BoundaryShift(t, PieceLen(t), Start(Rest(t), i - 1));
    }
  }

  lemma BoundaryShift(t: Text, n: nat, s: nat)
    requires n <= |t| && s <= |t| - n && (n == |t| || EndsLine(t[..n])) && OnBoundary(t[n..], s)
    ensures OnBoundary(t, n + s)
  {
    if n < |t| { assert t[..n][n - 1] == t[n - 1]; }
    if 0 < s { assert t[n..][s - 1] == t[n + s - 1]; }
  }

  lemma {:induction false} StartMonotone(t: Text, i: nat, j: nat)
    requires i <= j
    ensures Start(t, i) <= Start(t, j)
    decreases i
  {
    if i > 0 && t != [] {
      StartMonotone(Rest(t), i - 1, j - 1);
    }
  }

  function LinesFrom(t: Text, i: nat): seq<Text> { Lines(t)[Min(i, |Lines(t)|)..] }

  function DropTo(t: Text, i: nat): Text { t[Start(t, i)..] }

  predicate SplitsAt(t: Text, i: nat) { Lines(DropTo(t, i)) == LinesFrom(t, i) }

  // What follows the first `i` lines, taken off one by one.
  function RestAfter(t: Text, i: nat): Text
    decreases i
  {
    if i == 0 || t == [] then t else RestAfter(Rest(t), i - 1)
  }

  lemma {:induction false} RestAfterIsDrop(t: Text, i: nat)
    ensures RestAfter(t, i) == DropTo(t, i)
    decreases i
  {
    if i == 0 || t == [] {
      assert t[0..] == t;
    } else {
      RestAfterIsDrop(Rest(t), i - 1);
      DropTwice(t, PieceLen(t), Start(Rest(t), i - 1));
    }
  }

  lemma {:induction false} RestAfterLines(t: Text, i: nat)
    ensures Lines(RestAfter(t, i)) == LinesFrom(t, i)
    decreases i
  {
    if i == 0 || t == [] {
      assert Lines(t)[0..] == Lines(t);
    } else {
      RestAfterLines(Rest(t), i - 1);
      PeelLines(t, i);
    }
  }

  // Dropping to a line's start drops exactly the lines before it.
  lemma LinesAfter(t: Text, i: nat)
    ensures SplitsAt(t, i)
  {
    RestAfterIsDrop(t, i);
    RestAfterLines(t, i);
  }

  lemma PeelLines(t: Text, i: nat)
    requires t != [] && i > 0
    ensures LinesFrom(t, i) == LinesFrom(Rest(t), i - 1)
  {
    var rest := Lines(Rest(t));
    assert Lines(t) == [Strip(First(t))] + rest;
    ConsDrop(Strip(First(t)), rest, i);
  }

  lemma DropTwice(t: Text, n: nat, s: nat)
    requires n <= |t| && s <= |t| - n
    ensures t[n..][s..] == t[n + s..]
  {
  }

  // Texts whose first ends its last line concatenate line by line.
  lemma {:induction false} LinesConcat(a: Text, b: Text)
    requires a == [] || EndsLine(a)
    ensures Lines(a + b) == Lines(a) + Lines(b)
    decreases |a|
  {
    if a == [] {
      assert a + b == b;
    } else {
      PeelConcat(a, b);
      LinesConcat(Rest(a), b);
      Associate([Strip(First(a))], Lines(Rest(a)), Lines(b));
    }
  }

  lemma Associate(x: seq<Text>, y: seq<Text>, z: seq<Text>)
    ensures x + (y + z) == x + y + z
  {
  }

  lemma PeelConcat(a: Text, b: Text)
    requires EndsLine(a)
    ensures First(a + b) == First(a) && Rest(a + b) == Rest(a) + b
    ensures Rest(a) == [] || EndsLine(Rest(a))
  {
    var n := PieceLen(a);
    assert n == |a| ==> a[..n] == a;
    PieceLenStops(a, b);
    assert (a + b)[..n] == a[..n] && (a + b)[n..] == a[n..] + b;
    assert a[n..] != [] ==> a[n..][|a[n..]| - 1] == a[|a| - 1];
  }

  // Keeping up to a line's start keeps exactly the lines before it.
  lemma LinesBefore(t: Text, i: nat)
    ensures Lines(t[..Start(t, i)]) == Lines(t)[..Min(i, |Lines(t)|)]
  {
    StartOnBoundary(t, i);
    LinesAfter(t, i);
    SplitLines(t, Start(t, i));
    HeadOf(Lines(t), Lines(t[..Start(t, i)]), Min(i, |Lines(t)|));
  }

  // A text cut on a line boundary has the lines of its two parts.
  lemma SplitLines(t: Text, s: nat)
    requires s <= |t| && OnBoundary(t, s)
    ensures Lines(t) == Lines(t[..s]) + Lines(t[s..])
  {
    var head, tail := t[..s], t[s..];
    assert t == head + tail;
    if s == |t| {
      assert head == t && tail == [];
    } else {
      assert head != [] ==> head[s - 1] == t[s - 1];
      LinesConcat(head, tail);
    }
  }

  lemma HeadOf(all: seq<Text>, head: seq<Text>, m: nat)
    requires m <= |all| && all == head + all[m..]
    ensures head == all[..m]
  {
    assert |head| == m;
  }

  // The sum the code forms misses the true start by the returns stripped before
  // it, and overshoots by one past an unended last line.
  lemma {:induction false} WidthsMiss(t: Text, i: nat)
    ensures Widths(Lines(t)[..Min(i, |Lines(t)|)]) + Returns(t, i) == Start(t, i) + Unended(t, i)
    decreases i
  {
    if i > 0 && t != [] {
      Peel(t, i);
      ConsWidths(Strip(First(t)), Lines(Rest(t)), i);
      WidthsMiss(Rest(t), i - 1);
      if Rest(t) == [] { assert First(t) == t; }
      StripLength(First(t));
    }
  }

  lemma StripLength(piece: Text)
    ensures |Strip(piece)| + 1 + (if Returned(piece) then 1 else 0) == |piece| + if EndsLine(piece) then 0 else 1
  {
  }

  // The computed slice starts at line `i`, and has exactly the lines from `i` on,
  // if and only if no more returns were stripped before `i` than an unended last
  // line makes up for: none at all when `i` is a line of the text.
  lemma SliceExact(t: Text, i: nat)
    ensures Returns(t, i) <= Unended(t, i) <==> SliceFrom(t, Lines(t), i) == DropTo(t, i)
    ensures Returns(t, i) <= Unended(t, i) <==> Lines(SliceFrom(t, Lines(t), i)) == LinesFrom(t, i)
    ensures Returns(t, i) <= Unended(t, i) ==> LineStartOffset(t, Lines(t), i) == Start(t, i)
  {
    OffsetExact(t, i);
    LinesAfter(t, i);
    if Returns(t, i) > Unended(t, i) {
      StartOnBoundary(t, i);
      EarlySliceHasMore(t, LineStartOffset(t, Lines(t), i), Start(t, i));
    }
  }

  lemma OffsetExact(t: Text, i: nat)
    ensures var o := LineStartOffset(t, Lines(t), i);
      if Returns(t, i) <= Unended(t, i) then o == Start(t, i) else o < Start(t, i)
  {
    WidthsMiss(t, i);
    StartOnBoundary(t, i);
  }

  lemma EarlySliceHasMore(t: Text, o: nat, s: nat)
    requires o < s <= |t| && OnBoundary(t, s)
    ensures |Lines(t[o..])| > |Lines(t[s..])|
  {
    if s == |t| {
      assert t[s..] == [] && t[o..] != [];
    } else {
      assert t[o..] == t[o..s] + t[s..];
      assert t[o..s][s - o - 1] == t[s - 1];
      LinesConcat(t[o..s], t[s..]);
    }
  }

  // A text without returns, such as the daemon's screens, is always sliced right.
  lemma {:induction false} NoReturns(t: Text, i: nat)
    requires CR !in t
    ensures Returns(t, i) == 0
    decreases i
  {
    if i > 0 && t != [] {
      NoReturns(Rest(t), i - 1);
    }
  }

  // One stripped return is enough: the slice from line 1 of "a\r\nb" is "\nb".
  lemma ReturnShiftsTheSlice()
    ensures var t := [97, CR, LF, 98];
      Lines(t) == [[97], [98]] && SliceFrom(t, Lines(t), 1) == [LF, 98] && Lines([LF, 98]) == [[], [98]]
  {
    var t: Text := [97, CR, LF, 98];
    var u: Text := [CR, LF, 98];
    var v: Text := [LF, 98];
    assert t[1..] == u && u[1..] == v;
    assert PieceLen(v) == 1;
    assert PieceLen(u) == 2;
    assert PieceLen(t) == 3;
    var last: Text := [98];
    assert t[3..] == last && v[1..] == last && last[1..] == [];
    assert Lines(last) == [last] by { assert last[..1] == last; }
    assert t[..3] == [97, CR, LF] && v[..1] == [LF];
    assert Strip(t[..3]) == [97] && Strip(v[..1]) == [];
    assert Lines(t) == [[97]] + [last];
    var one: seq<Text> := [[97]];
    assert Lines(t)[..1] == one;
    assert Widths(one) == 2;
  }

  // ------------------------------------------------------- joined screen rows

  function Join(rows: seq<Text>): Text {
    if rows == [] then [] else if |rows| == 1 then rows[0] else rows[0] + [LF] + Join(rows[1..])
  }

  lemma PieceOfRow(row: Text, rest: Text)
    requires LF !in row
    ensures PieceLen(row + [LF] + rest) == |row| + 1
  {
    var t := row + [LF] + rest;
    if row != [] {
      assert t[1..] == row[1..] + [LF] + rest;
      PieceOfRow(row[1..], rest);
    }
  }

  lemma PieceOfLast(row: Text)
    requires LF !in row && row != []
    ensures PieceLen(row) == |row|
  {
    if |row| > 1 { PieceOfLast(row[1..]); }
  }

  function Trimmed(rows: seq<Text>): seq<Text> {
    if rows != [] && rows[|rows| - 1] == [] then rows[..|rows| - 1] else rows
  }

  lemma TrimmedRest(rows: seq<Text>)
    requires |rows| > 1
    ensures Trimmed(rows) == [rows[0]] + Trimmed(rows[1..])
  {
  }

  // The lines of a joined screen are its rows; only an empty last row is lost.
  lemma {:induction false} JoinedLines(rows: seq<Text>)
    requires forall k :: 0 <= k < |rows| ==> LF !in rows[k] && CR !in rows[k]
    ensures Lines(Join(rows)) == Trimmed(rows)
    ensures CR !in Join(rows)
  {
    if |rows| == 1 {
      if rows[0] != [] {
        PieceOfLast(rows[0]);
        assert rows[0][..|rows[0]|] == rows[0] && rows[0][|rows[0]|..] == [];
        assert !EndsLine(rows[0]);
      }
    } else if |rows| > 1 {
      var rest := Join(rows[1..]);
      JoinedLines(rows[1..]);
      JoinedFirst(rows[0], rest);
      TrimmedRest(rows);
    }
  }

  lemma JoinedFirst(row: Text, rest: Text)
    requires LF !in row && CR !in row
    ensures Lines(row + [LF] + rest) == [row] + Lines(rest)
  {
    var t, piece := row + [LF] + rest, row + [LF];
    PieceOfRow(row, rest);
    assert t[..|row| + 1] == piece && t[|row| + 1..] == rest;
    assert !Returned(piece) && Strip(piece) == row;
  }
}
