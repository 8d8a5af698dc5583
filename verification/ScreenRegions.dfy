/**
 The regions of crates/agents/src/engine.rs: parts of a screen text picked by
 counting lines and slicing at computed byte offsets. Which lines are blank and
 which are horizontal rules are parameters.
 */
module ScreenRegions {
  import opened Wrappers
  import opened ScreenLines

  type Kind = Text -> bool

  // How many lines are of a kind.
  function Count(lines: seq<Text>, kind: Kind): nat {
    if lines == [] then 0 else (if kind(lines[0]) then 1 else 0) + Count(lines[1..], kind)
  }

  lemma {:induction false} CountConcat(a: seq<Text>, b: seq<Text>, kind: Kind)
    ensures Count(a + b, kind) == Count(a, kind) + Count(b, kind)
  {
    if a == [] {
      assert a + b == b;
    } else {
      assert (a + b)[1..] == a[1..] + b;
      CountConcat(a[1..], b, kind);
    }
  }

  lemma CountLast(lines: seq<Text>, kind: Kind)
    requires lines != []
    ensures Count(lines, kind)
      == Count(lines[..|lines| - 1], kind) + if kind(lines[|lines| - 1]) then 1 else 0
  {
    assert lines == lines[..|lines| - 1] + [lines[|lines| - 1]];
    CountConcat(lines[..|lines| - 1], [lines[|lines| - 1]], kind);
  }

  lemma CountSplit(lines: seq<Text>, i: nat, kind: Kind)
    requires i <= |lines|
    ensures Count(lines, kind) == Count(lines[..i], kind) + Count(lines[i..], kind)
  {
    assert lines == lines[..i] + lines[i..];
    CountConcat(lines[..i], lines[i..], kind);
  }

  lemma {:induction false} CountZero(lines: seq<Text>, kind: Kind)
    requires Count(lines, kind) == 0
    ensures forall k :: 0 <= k < |lines| ==> !kind(lines[k])
  {
    if lines != [] {
      CountZero(lines[1..], kind);
      forall k | 0 <= k < |lines| ensures !kind(lines[k]) {
        if k > 0 { assert lines[k] == lines[1..][k - 1]; }
      }
    }
  }

  // ----------------------------------------------- the last and first k lines

  // The index of the k-th line of a kind from the bottom, or of the topmost one
  // when there are fewer.
  function FromBottom(lines: seq<Text>, k: nat, kind: Kind): (r: Option<nat>)
    ensures r.Some? ==> r.value < |lines|
  {
    if k == 0 || lines == [] then None
    else
      var n := |lines| - 1;
      if !kind(lines[n]) then FromBottom(lines[..n], k, kind)
      else match FromBottom(lines[..n], k - 1, kind)
        case Some(i) => Some(i)
        case None => Some(n)
  }

  lemma {:induction false} FromBottomExact(lines: seq<Text>, k: nat, kind: Kind)
    ensures var want := Min(k, Count(lines, kind));
      match FromBottom(lines, k, kind)
      case None => want == 0
      case Some(i) => want > 0 && kind(lines[i]) && Count(lines[i..], kind) == want
  {
    if k > 0 && lines != [] {
      var n := |lines| - 1;
      var less := if kind(lines[n]) then k - 1 else k;
      CountLast(lines, kind);
      FromBottomExact(lines[..n], less, kind);
      match FromBottom(lines[..n], less, kind)
      case Some(i) =>
        CountLast(lines[i..], kind);
        assert lines[i..][..n - i] == lines[..n][i..];
      case None =>
        if kind(lines[n]) { assert lines[n..] == [lines[n]]; }
    }
  }

  function FromTop(lines: seq<Text>, k: nat, kind: Kind): (r: Option<nat>)
    ensures r.Some? ==> r.value < |lines|
  {
    if k == 0 || lines == [] then None
    else if !kind(lines[0]) then
      match FromTop(lines[1..], k, kind)
      case Some(i) => Some(i + 1)
      case None => None
    else
      match FromTop(lines[1..], k - 1, kind)
      case Some(i) => Some(i + 1)
      case None => Some(0)
  }

  lemma {:induction false} FromTopExact(lines: seq<Text>, k: nat, kind: Kind)
    ensures var want := Min(k, Count(lines, kind));
      match FromTop(lines, k, kind)
      case None => want == 0
      case Some(i) => want > 0 && kind(lines[i]) && Count(lines[..i + 1], kind) == want
  {
    if k > 0 && lines != [] {
      var less := if kind(lines[0]) then k - 1 else k;
      FromTopExact(lines[1..], less, kind);
      match FromTop(lines[1..], less, kind)
      case Some(i) =>
        assert lines[..i + 2][1..] == lines[1..][..i + 1];
      case None =>
        if kind(lines[0]) { assert lines[..1][1..] == []; }
    }
  }

  function BottomNonEmptyLines(t: Text, k: nat, nonBlank: Kind): Text {
    match FromBottom(Lines(t), k, nonBlank)
    case None => []
    case Some(i) => SliceFrom(t, Lines(t), i)
  }

  function TopNonEmptyLines(t: Text, k: nat, nonBlank: Kind): Text {
    match FromTop(Lines(t), k, nonBlank)
    case None => []
    case Some(i) => t[..LineStartOffset(t, Lines(t), i + 1)]
  }

  // No return is stripped anywhere in the text.
  predicate Plain(t: Text) { Returns(t, |Lines(t)|) == 0 }

  // The daemon's own screens, rows of text joined by line feeds, are plain.
  lemma JoinedIsPlain(rows: seq<Text>)
    requires forall k :: 0 <= k < |rows| ==> LF !in rows[k] && CR !in rows[k]
    ensures Plain(Join(rows)) && Lines(Join(rows)) == Trimmed(rows)
  {
    JoinedLines(rows);
    NoReturns(Join(rows), |Lines(Join(rows))|);
  }

  lemma {:induction false} ReturnsGrow(t: Text, i: nat, j: nat)
    requires i <= j
    ensures Returns(t, i) <= Returns(t, j)
    decreases i
  {
    if i > 0 && t != [] {
      ReturnsGrow(Rest(t), i - 1, j - 1);
    }
  }

  lemma PlainOffsets(t: Text, i: nat)
    requires Plain(t) && i <= |Lines(t)|
    ensures LineStartOffset(t, Lines(t), i) == Start(t, i)
    ensures Lines(t[Start(t, i)..]) == Lines(t)[i..] && Lines(t[..Start(t, i)]) == Lines(t)[..i]
  {
    ReturnsGrow(t, i, |Lines(t)|);
    SliceExact(t, i);
    LinesAfter(t, i);
    LinesBefore(t, i);
  }

  // The bottom region is the shortest suffix on line boundaries that holds the
  // wanted number of non-blank lines: k, or all of them when there are fewer.
  lemma BottomShortest(t: Text, k: nat, nonBlank: Kind)
    requires Plain(t)
    ensures var region, want := BottomNonEmptyLines(t, k, nonBlank), Min(k, Count(Lines(t), nonBlank));
      && Count(Lines(region), nonBlank) == want
      && (exists j: nat :: j <= |Lines(t)| && region == DropTo(t, j))
      && (forall j: nat :: j <= |Lines(t)| && Count(Lines(DropTo(t, j)), nonBlank) >= want
           ==> |region| <= |DropTo(t, j)|)
  {
    var lines := Lines(t);
    FromBottomExact(lines, k, nonBlank);
    match FromBottom(lines, k, nonBlank)
    case None =>
      StartOnBoundary(t, |lines|);
      assert DropTo(t, |lines|) == [];
    case Some(i) =>
      PlainOffsets(t, i);
      assert SliceFrom(t, lines, i) == DropTo(t, i);
      ShortestBelow(t, i, nonBlank);
  }

  lemma ShortestBelow(t: Text, i: nat, kind: Kind)
    requires Plain(t) && i < |Lines(t)| && kind(Lines(t)[i])
    ensures forall j: nat :: (j <= |Lines(t)| && Count(Lines(DropTo(t, j)), kind) >= Count(Lines(t)[i..], kind)
              ==> |DropTo(t, i)| <= |DropTo(t, j)|)
  {
    var lines := Lines(t);
    forall j: nat | j <= |lines| && Count(Lines(DropTo(t, j)), kind) >= Count(lines[i..], kind)
      ensures |DropTo(t, i)| <= |DropTo(t, j)|
    {
      PlainOffsets(t, j);
      if j > i { FewerBelow(lines, i, j, kind); }
      StartMonotone(t, j, i);
    }
  }

  lemma FewerBelow(lines: seq<Text>, i: nat, j: nat, kind: Kind)
    requires i < j <= |lines| && kind(lines[i])
    ensures Count(lines[i..], kind) > Count(lines[j..], kind)
  {
    assert lines[i..][j - i..] == lines[j..];
    CountSplit(lines[i..], j - i, kind);
    assert lines[i..][..j - i][0] == lines[i];
  }

  lemma TopShortest(t: Text, k: nat, nonBlank: Kind)
    requires Plain(t)
    ensures var region, want := TopNonEmptyLines(t, k, nonBlank), Min(k, Count(Lines(t), nonBlank));
      && Count(Lines(region), nonBlank) == want
      && (exists j: nat :: j <= |Lines(t)| && region == t[..Start(t, j)])
      && (forall j: nat :: j <= |Lines(t)| && Count(Lines(t[..Start(t, j)]), nonBlank) >= want
           ==> |region| <= Start(t, j))
  {
    var lines := Lines(t);
    FromTopExact(lines, k, nonBlank);
    match FromTop(lines, k, nonBlank)
    case None =>
      assert t[..Start(t, 0)] == [];
    case Some(i) =>
      PlainOffsets(t, i + 1);
      ShortestAbove(t, i, nonBlank);
  }

  lemma ShortestAbove(t: Text, i: nat, kind: Kind)
    requires Plain(t) && i < |Lines(t)| && kind(Lines(t)[i])
    ensures forall j: nat :: (j <= |Lines(t)| && Count(Lines(t[..Start(t, j)]), kind) >= Count(Lines(t)[..i + 1], kind)
              ==> Start(t, i + 1) <= Start(t, j))
  {
    var lines := Lines(t);
    forall j: nat | j <= |lines| && Count(Lines(t[..Start(t, j)]), kind) >= Count(lines[..i + 1], kind)
      ensures Start(t, i + 1) <= Start(t, j)
    {
      PlainOffsets(t, j);
      if j <= i { FewerAbove(lines, j, i, kind); }
      StartMonotone(t, i + 1, j);
    }
  }

  lemma FewerAbove(lines: seq<Text>, j: nat, i: nat, kind: Kind)
    requires j <= i < |lines| && kind(lines[i])
    ensures Count(lines[..i + 1], kind) > Count(lines[..j], kind)
  {
    CountLast(lines[..i + 1], kind);
    assert lines[..i + 1][..i] == lines[..i];
    CountSplit(lines[..i], j, kind);
    assert lines[..i][..j] == lines[..j];
  }

  // ------------------------------------------------------- horizontal rules

  // One past the last line of a kind, or zero.
  function PastLast(lines: seq<Text>, kind: Kind): (r: nat)
    ensures r <= |lines|
  {
    if lines == [] then 0
    else if kind(lines[|lines| - 1]) then |lines|
    else PastLast(lines[..|lines| - 1], kind)
  }

  lemma {:induction false} PastLastExact(lines: seq<Text>, kind: Kind)
    ensures var r := PastLast(lines, kind);
      (r > 0 ==> kind(lines[r - 1])) && Count(lines[r..], kind) == 0
  {
    var r := PastLast(lines, kind);
    if r < |lines| {
      var n := |lines| - 1;
      PastLastExact(lines[..n], kind);
      CountLast(lines[r..], kind);
      assert lines[r..][..n - r] == lines[..n][r..];
    }
  }

  lemma PastLastStep(lines: seq<Text>, i: nat, kind: Kind)
    requires i < |lines|
    ensures PastLast(lines[..i + 1], kind) == if kind(lines[i]) then i + 1 else PastLast(lines[..i], kind)
  {
    assert lines[..i + 1][..i] == lines[..i];
  }

  // The running offset of the loop meets the offset recomputed from the index, on
  // every text: stripped returns shift both alike.
  method AfterLastHorizontalRule(t: Text, rule: Kind) returns (region: Text)
    ensures region == SliceFrom(t, Lines(t), PastLast(Lines(t), rule))
  {
    var lines := Lines(t);
    var lastRuleEnd, offset, i := 0, 0, 0;
    assert lines[..0] == [];
    while i < |lines|
      invariant 0 <= i <= |lines|
      invariant offset == Widths(lines[..i])
      invariant lastRuleEnd == LineStartOffset(t, lines, PastLast(lines[..i], rule))
    {
      WidthsLast(lines, i);
      PastLastStep(lines, i, rule);
      var nextOffset := offset + |lines[i]| + 1;
      if rule(lines[i]) {
        lastRuleEnd := Min(nextOffset, |t|);
      }
      offset, i := nextOffset, i + 1;
    }
    assert lines[..i] == lines;
    return t[lastRuleEnd..];
  }

  lemma {:induction false} WidthsLast(lines: seq<Text>, i: nat)
    requires i < |lines|
    ensures Widths(lines[..i + 1]) == Widths(lines[..i]) + |lines[i]| + 1
    decreases i
  {
    assert lines[..i + 1][1..] == lines[1..][..i];
    if i > 0 {
      WidthsLast(lines[1..], i - 1);
      assert lines[..i][1..] == lines[1..][..i - 1];
    }
  }

  // What follows the last rule: exactly the lines after it, none of them a rule.
  lemma AfterLastRuleLines(t: Text, rule: Kind)
    requires Plain(t)
    ensures var lines := Lines(t); var p := PastLast(lines, rule);
      && Lines(SliceFrom(t, lines, p)) == lines[p..]
      && (forall k :: p <= k < |lines| ==> !rule(lines[k]))
      && (p == 0 || rule(lines[p - 1]))
  {
    NonePastLast(Lines(t), rule);
    PlainSlice(t, PastLast(Lines(t), rule));
  }

  lemma {:induction false} NonePastLast(lines: seq<Text>, kind: Kind)
    ensures var p := PastLast(lines, kind);
      (p == 0 || kind(lines[p - 1])) && forall k :: p <= k < |lines| ==> !kind(lines[k])
  {
    if lines != [] && !kind(lines[|lines| - 1]) {
      var rest := lines[..|lines| - 1];
      NonePastLast(rest, kind);
      assert forall k :: 0 <= k < |rest| ==> rest[k] == lines[k];
    }
  }

  lemma PlainSlice(t: Text, i: nat)
    requires Plain(t) && i <= |Lines(t)|
    ensures Lines(SliceFrom(t, Lines(t), i)) == Lines(t)[i..]
  {
    PlainOffsets(t, i);
  }

  // ---------------------------------------------------------- the prompt box

  // The second rule from the bottom.
  function TopBorder(lines: seq<Text>, rule: Kind): (r: Option<nat>)
    ensures r.Some? ==> r.value < |lines|
  {
    var bottom := PastLast(lines, rule);
    if bottom == 0 then None
    else
      var top := PastLast(lines[..bottom - 1], rule);
      if top == 0 then None else Some(top - 1)
  }

  method PromptBoxTopBorderIndex(lines: seq<Text>, rule: Kind) returns (r: Option<nat>)
    ensures r == TopBorder(lines, rule)
  {
    var borders, index := 0, |lines|;
    ghost var bottom := PastLast(lines, rule);
    assert lines[..|lines|] == lines;
    while index > 0
      invariant 0 <= index <= |lines| && borders <= 1
      invariant borders == 0 ==> PastLast(lines[..index], rule) == bottom
      invariant borders == 1 ==> index < bottom
      invariant borders == 1 ==> PastLast(lines[..index], rule) == PastLast(lines[..bottom - 1], rule)
    {
      index := index - 1;
      PastLastStep(lines, index, rule);
      if rule(lines[index]) {
        borders := borders + 1;
        if borders == 2 { return Some(index); }
      }
    }
    return None;
  }

  // The first line of a kind at or after `i`, or the number of lines.
  function FirstFrom(lines: seq<Text>, i: nat, kind: Kind): (r: nat)
    requires i <= |lines|
    ensures i <= r <= |lines|
    ensures r < |lines| ==> kind(lines[r])
    ensures forall k :: i <= k < r ==> !kind(lines[k])
    decreases |lines| - i
  {
    if i == |lines| || kind(lines[i]) then i else FirstFrom(lines, i + 1, kind)
  }

  function PromptBoxBody(t: Text, rule: Kind): Option<Text> {
    var lines := Lines(t);
    match TopBorder(lines, rule)
    case None => None
    case Some(top) =>
      var start := LineStartOffset(t, lines, top + 1);
      var end := LineStartOffset(t, lines, FirstFrom(lines, top + 1, rule));
      OffsetMonotone(t, lines, top + 1, FirstFrom(lines, top + 1, rule));
      Some(t[start..end])
  }

  function AbovePromptBox(t: Text, rule: Kind): Text {
    match TopBorder(Lines(t), rule)
    case None => t
    case Some(top) => t[..LineStartOffset(t, Lines(t), top)]
  }

  lemma {:induction false} WidthsGrow(lines: seq<Text>, i: nat, j: nat)
    requires i <= j <= |lines|
    ensures Widths(lines[..i]) <= Widths(lines[..j])
    decreases j
  {
    if i < j {
      WidthsGrow(lines, i, j - 1);
      WidthsLast(lines, j - 1);
    }
  }

  lemma OffsetMonotone(t: Text, lines: seq<Text>, i: nat, j: nat)
    requires i <= j <= |lines|
    ensures LineStartOffset(t, lines, i) <= LineStartOffset(t, lines, j)
  {
    WidthsGrow(lines, i, j);
  }

  // A prompt box exists exactly when the screen has two rules. Its body is the
  // lines strictly between the last two, what is above it the lines before both,
  // and nothing below it is a rule.
  lemma PromptBoxExact(t: Text, rule: Kind)
    requires Plain(t)
    ensures var lines := Lines(t);
      match PromptBoxBody(t, rule)
      case None => Count(lines, rule) < 2 && AbovePromptBox(t, rule) == t
      case Some(body) =>
        exists top, bottom :: 0 <= top < bottom < |lines|
          && rule(lines[top]) && rule(lines[bottom])
          && Count(lines[top + 1..bottom], rule) == 0 && Count(lines[bottom + 1..], rule) == 0
          && Lines(body) == lines[top + 1..bottom]
          && Lines(AbovePromptBox(t, rule)) == lines[..top]
  {
    var lines := Lines(t);
    match TopBorder(lines, rule)
    case None =>
      FewBorders(lines, rule);
    case Some(top) =>
      var bottom := PastLast(lines, rule) - 1;
      TwoBorders(lines, rule, top, bottom);
      NoneBetween(lines, top, bottom, rule);
      PlainOffsets(t, top);
      BetweenStarts(t, top + 1, bottom);
  }

  lemma NoneBetween(lines: seq<Text>, top: nat, bottom: nat, rule: Kind)
    requires top < bottom < |lines| && rule(lines[bottom]) && Count(lines[top + 1..bottom], rule) == 0
    ensures FirstFrom(lines, top + 1, rule) == bottom
  {
    CountZeroIn(lines, top + 1, bottom, rule);
  }

  lemma CountZeroIn(lines: seq<Text>, i: nat, j: nat, kind: Kind)
    requires i <= j <= |lines| && Count(lines[i..j], kind) == 0
    ensures forall k :: i <= k < j ==> !kind(lines[k])
  {
    CountZero(lines[i..j], kind);
    forall k | i <= k < j ensures !kind(lines[k]) {
      assert lines[k] == lines[i..j][k - i];
    }
  }

  lemma FewBorders(lines: seq<Text>, rule: Kind)
    requires TopBorder(lines, rule) == None
    ensures Count(lines, rule) < 2
  {
    var past := PastLast(lines, rule);
    PastLastExact(lines, rule);
    CountSplit(lines, past, rule);
    if past == 0 {
      assert lines[..0] == [];
    } else {
      CountLast(lines[..past], rule);
      assert lines[..past][..past - 1] == lines[..past - 1];
      PastLastExact(lines[..past - 1], rule);
      assert lines[..past - 1][0..] == lines[..past - 1];
    }
  }

  lemma LastIs(lines: seq<Text>, last: nat, kind: Kind)
    requires PastLast(lines, kind) == last + 1
    ensures kind(lines[last]) && Count(lines[last + 1..], kind) == 0
  {
    PastLastExact(lines, kind);
  }

  lemma TwoBorders(lines: seq<Text>, rule: Kind, top: nat, bottom: nat)
    requires TopBorder(lines, rule) == Some(top) && bottom + 1 == PastLast(lines, rule)
    ensures top < bottom < |lines| && rule(lines[top]) && rule(lines[bottom])
    ensures Count(lines[top + 1..bottom], rule) == 0 && Count(lines[bottom + 1..], rule) == 0
  {
    LastIs(lines, bottom, rule);
    LastAbove(lines, bottom, top, rule);
  }

  lemma LastAbove(lines: seq<Text>, bottom: nat, top: nat, rule: Kind)
    requires bottom <= |lines| && PastLast(lines[..bottom], rule) == top + 1
    ensures top < bottom && rule(lines[top]) && Count(lines[top + 1..bottom], rule) == 0
  {
    var above := lines[..bottom];
    PastLastExact(above, rule);
    assert above[top + 1..] == lines[top + 1..bottom];
  }

  // The text between the starts of two lines holds exactly the lines between.
  lemma BetweenStarts(t: Text, i: nat, j: nat)
    requires Plain(t) && i <= j <= |Lines(t)|
    ensures Start(t, i) <= Start(t, j)
    ensures LineStartOffset(t, Lines(t), i) == Start(t, i) && LineStartOffset(t, Lines(t), j) == Start(t, j)
    ensures Lines(t[Start(t, i)..Start(t, j)]) == Lines(t)[i..j]
  {
    StartMonotone(t, i, j);
    PlainOffsets(t, i);
    PlainOffsets(t, j);
    StartOnBoundary(t, i);
    ConcatAt(t, Start(t, i), Start(t, j));
    Remainder(Lines(t), i, j, Lines(t[Start(t, i)..Start(t, j)]));
  }

  lemma ConcatAt(t: Text, a: nat, b: nat)
    requires a <= b <= |t| && OnBoundary(t, a)
    ensures Lines(t[..b]) == Lines(t[..a]) + Lines(t[a..b])
  {
    var head, body := t[..a], t[a..b];
    assert t[..b] == head + body;
    if a == b {
      assert body == [] && head == t[..b];
    } else {
      assert head != [] ==> head[a - 1] == t[a - 1];
      LinesConcat(head, body);
    }
  }

  lemma Remainder(lines: seq<Text>, i: nat, j: nat, middle: seq<Text>)
    requires i <= j <= |lines| && lines[..j] == lines[..i] + middle
    ensures middle == lines[i..j]
  {
    assert lines[..j][i..] == middle;
  }

  // ---------------------------------------------------------- rule priority

  datatype ScreenRule = ScreenRule(priority: int, gate: Kind, region: Text -> Text)

  predicate Matches(rule: ScreenRule, screen: Text) { rule.gate(rule.region(screen)) }

  // The first of the matching rules of highest priority wins.
  method Evaluate(rules: seq<ScreenRule>, screen: Text) returns (best: Option<nat>)
    ensures best == None ==> forall k :: 0 <= k < |rules| ==> !Matches(rules[k], screen)
    ensures best.Some? ==>
      && best.value < |rules| && Matches(rules[best.value], screen)
      && (forall k :: 0 <= k < |rules| && Matches(rules[k], screen) ==>
            rules[k].priority < rules[best.value].priority
            || (rules[k].priority == rules[best.value].priority && best.value <= k))
  {
    best := None;
    for i := 0 to |rules|
      invariant best == None ==> forall k :: 0 <= k < i ==> !Matches(rules[k], screen)
      invariant best.Some? ==>
        && best.value < i && Matches(rules[best.value], screen)
        && (forall k :: 0 <= k < i && Matches(rules[k], screen) ==>
              rules[k].priority < rules[best.value].priority
              || (rules[k].priority == rules[best.value].priority && best.value <= k))
    {
      if (best == None || rules[i].priority > rules[best.value].priority) && Matches(rules[i], screen) {
        best := Some(i);
      }
    }
  }
}
