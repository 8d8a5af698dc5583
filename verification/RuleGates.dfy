/**
 The matcher gates of crates/agents/src/engine.rs. A manifest's gates form a tree
 of all / any / not over direct matchers; compiling one walks the tree with two
 running counters and stops at the first limit passed. The walk is shown to
 accept exactly the trees that meet every limit as a whole, and what it produces
 matches a text exactly when the manifest's gate says so.
 */
module RuleGates {
  import opened Wrappers

  const MAX_GATE_DEPTH: nat := 8
  const MAX_TOTAL_GATES: nat := 512
  const MAX_MATCHERS_PER_GATE: nat := 32
  const MAX_TOTAL_MATCHERS: nat := 1024
  const MAX_MATCHER_CHARS: nat := 512

  datatype Gate = Gate(
    all: seq<Gate>, any: seq<Gate>, nots: seq<Gate>,
    contains: seq<string>, regex: seq<string>, lineRegex: seq<string>)
  {
    function Matchers(): nat { |contains| + |regex| + |lineRegex| }

    predicate Positive() { contains != [] || regex != [] || lineRegex != [] || all != [] || any != [] }
  }

  // The text library: lower-casing, compiling a pattern, and matching it.
  datatype Library<!P> = Library(
    lower: string -> string,
    parse: string -> Option<P>,
    found: (P, string) -> bool,
    within: (string, string) -> bool,
    lines: string -> seq<string>)

  datatype Compiled<P> = Compiled(
    all: seq<Compiled<P>>, any: seq<Compiled<P>>, nots: seq<Compiled<P>>,
    contains: seq<string>, regex: seq<P>, lineRegex: seq<P>)

  datatype GateError = TooDeep | TooManyGates | TooManyMatchers | MatcherTooLong | NoMatcher | BadPattern

  datatype Totals = Totals(gates: nat, matchers: nat)

  predicate Within(t: Totals) { t.gates <= MAX_TOTAL_GATES && t.matchers <= MAX_TOTAL_MATCHERS }

  // ------------------------------------------------ the limits, as a whole

  function Sum(a: Totals, b: Totals): Totals { Totals(a.gates + b.gates, a.matchers + b.matchers) }

  function Size(g: Gate): Totals
    decreases g, 1
  {
    Sum(Totals(1, g.Matchers()), Children(g))
  }

  function Children(g: Gate): Totals
    decreases g, 0
  {
    Sum(SizeEach(g.all), Sum(SizeEach(g.any), SizeEach(g.nots)))
  }

  function SizeEach(gs: seq<Gate>): Totals
    decreases gs, 2
  {
    if gs == [] then Totals(0, 0) else Sum(SizeEach(gs[..|gs| - 1]), Size(gs[|gs| - 1]))
  }

  predicate ShortEnough(values: seq<string>) {
    forall k :: 0 <= k < |values| ==> |values[k]| <= MAX_MATCHER_CHARS
  }

  predicate MatchersOk(g: Gate) {
    && g.Matchers() <= MAX_MATCHERS_PER_GATE
    && ShortEnough(g.contains) && ShortEnough(g.regex) && ShortEnough(g.lineRegex)
  }

  predicate SaysSomething(g: Gate, negated: bool) { g.Positive() || (negated && g.nots != []) }

  predicate Parses<P>(lib: Library<P>, patterns: seq<string>) {
    forall k :: 0 <= k < |patterns| ==> lib.parse(patterns[k]).Some?
  }

  predicate DirectOk<P>(lib: Library<P>, g: Gate, negated: bool) {
    MatchersOk(g) && SaysSomething(g, negated) && Parses(lib, g.regex) && Parses(lib, g.lineRegex)
  }

  // Every gate of the tree meets its own limits and lies no deeper than allowed.
  predicate TreeOk<P>(lib: Library<P>, g: Gate, negated: bool, depth: nat)
    decreases g
  {
    && depth <= MAX_GATE_DEPTH && DirectOk(lib, g, negated)
    && TreesOk(lib, g.all, false, depth + 1)
    && TreesOk(lib, g.any, false, depth + 1)
    && TreesOk(lib, g.nots, true, depth + 1)
  }

  predicate TreesOk<P>(lib: Library<P>, gs: seq<Gate>, negated: bool, depth: nat)
    decreases gs
  {
    forall k :: 0 <= k < |gs| ==> TreeOk(lib, gs[k], negated, depth)
  }

  lemma SizeEachNext(gs: seq<Gate>, i: nat)
    requires i < |gs|
    ensures SizeEach(gs[..i + 1]) == Sum(SizeEach(gs[..i]), Size(gs[i]))
  {
    assert gs[..i + 1][..i] == gs[..i];
  }

  lemma {:induction false} SizeEachGrows(gs: seq<Gate>, i: nat)
    requires i <= |gs|
    ensures SizeEach(gs[..i]).gates <= SizeEach(gs).gates && SizeEach(gs[..i]).matchers <= SizeEach(gs).matchers
    decreases |gs| - i
  {
    if i == |gs| {
      assert gs[..i] == gs;
    } else {
      SizeEachGrows(gs, i + 1);
      SizeEachNext(gs, i);
    }
  }

  lemma SumAssociates(a: Totals, b: Totals, c: Totals)
    ensures Sum(Sum(a, b), c) == Sum(a, Sum(b, c))
  {
  }

  lemma GateSize(g: Gate, t: Totals)
    ensures Sum(t, Size(g)) == Sum(Sum(t, Totals(1, g.Matchers())), Children(g))
    ensures Within(Sum(t, Size(g))) ==> Within(Sum(t, Totals(1, g.Matchers())))
  {
  }

  // Once one tree fails or passes a limit, so does the list it is in.
  lemma OneFails<P>(lib: Library<P>, gs: seq<Gate>, negated: bool, depth: nat, t: Totals, i: nat)
    requires i < |gs|
    requires !(TreeOk(lib, gs[i], negated, depth) && Within(Sum(Sum(t, SizeEach(gs[..i])), Size(gs[i]))))
    ensures !(TreesOk(lib, gs, negated, depth) && Within(Sum(t, SizeEach(gs))))
  {
    SizeEachNext(gs, i);
    SizeEachGrows(gs, i + 1);
  }

  // ----------------------------------------------------------- compiling

  // Pattern by pattern, what the library parsed.
  ghost predicate ParsedAs<P>(lib: Library<P>, patterns: seq<string>, parsed: seq<P>) {
    |parsed| == |patterns| && forall k :: 0 <= k < |parsed| ==> lib.parse(patterns[k]) == Some(parsed[k])
  }

  ghost predicate DirectProduct<P>(lib: Library<P>, g: Gate, c: Compiled<P>) {
    && |c.contains| == |g.contains|
    && (forall k :: 0 <= k < |g.contains| ==> c.contains[k] == lib.lower(g.contains[k]))
    && ParsedAs(lib, g.regex, c.regex) && ParsedAs(lib, g.lineRegex, c.lineRegex)
  }

  // Gate by gate, what the manifest held.
  ghost predicate ProductOf<P>(lib: Library<P>, g: Gate, c: Compiled<P>)
    decreases g
  {
    && DirectProduct(lib, g, c)
    && ProductsOf(lib, g.all, c.all) && ProductsOf(lib, g.any, c.any) && ProductsOf(lib, g.nots, c.nots)
  }

  ghost predicate ProductsOf<P>(lib: Library<P>, gs: seq<Gate>, cs: seq<Compiled<P>>)
    decreases gs
  {
    |cs| == |gs| && forall k :: 0 <= k < |gs| ==> ProductOf(lib, gs[k], cs[k])
  }

  class Compiler<P> {
    const lib: Library<P>
    var totals: Totals

    constructor (lib: Library<P>)
      ensures this.lib == lib && totals == Totals(0, 0)
    {
      this.lib := lib;
      totals := Totals(0, 0);
    }

    // The counters stop the walk at some gate exactly when the whole tree is over a
    // limit, wherever in it the excess lies; on success they hold its size.
    method CompileGate(g: Gate, negated: bool, depth: nat) returns (r: Result<Compiled<P>, GateError>)
      requires Within(totals)
      modifies this
      ensures r.Ok? <==> TreeOk(lib, g, negated, depth) && Within(Sum(old(totals), Size(g)))
      ensures r.Ok? ==> totals == Sum(old(totals), Size(g)) && ProductOf(lib, g, r.value)
      decreases g, 1
    {
      GateSize(g, totals);
      var entered := Enter(g, negated, depth);
      if entered.Err? { return Err(entered.error); }
      var children := CompileChildren(g, depth + 1);
      if children.Err? { return Err(children.error); }
      var direct := CompileDirect(g);
      if direct.Err? { return Err(direct.error); }
      var (all, any, nots) := children.value;
      var (contains, regex, lineRegex) := direct.value;
      var compiled := Compiled(all, any, nots, contains, regex, lineRegex);
      assert DirectProduct(lib, g, compiled);
      return Ok(compiled);
    }

    // The gate's own limits, and its share of the totals.
    method Enter(g: Gate, negated: bool, depth: nat) returns (r: Result<(), GateError>)
      requires Within(totals)
      modifies this
      ensures r.Ok? <==>
        && depth <= MAX_GATE_DEPTH && MatchersOk(g) && SaysSomething(g, negated)
        && Within(Sum(old(totals), Totals(1, g.Matchers())))
      ensures r.Ok? ==> totals == Sum(old(totals), Totals(1, g.Matchers()))
    {
      if depth > MAX_GATE_DEPTH { return Err(TooDeep); }
      totals := totals.(gates := totals.gates + 1);
      if totals.gates > MAX_TOTAL_GATES { return Err(TooManyGates); }
      var limits := ValidateMatcherLimits(g);
      if limits.Err? { return limits; }
      if !SaysSomething(g, negated) { return Err(NoMatcher); }
      return Ok(());
    }

    method CompileChildren(g: Gate, depth: nat)
      returns (r: Result<(seq<Compiled<P>>, seq<Compiled<P>>, seq<Compiled<P>>), GateError>)
      requires Within(totals)
      modifies this
      ensures r.Ok? <==>
        && TreesOk(lib, g.all, false, depth) && TreesOk(lib, g.any, false, depth) && TreesOk(lib, g.nots, true, depth)
        && Within(Sum(old(totals), Children(g)))
      ensures r.Ok? ==>
        && totals == Sum(old(totals), Children(g))
        && ProductsOf(lib, g.all, r.value.0) && ProductsOf(lib, g.any, r.value.1) && ProductsOf(lib, g.nots, r.value.2)
      decreases g, 0
    {
      var all := CompileEach(g.all, false, depth);
      if all.Err? { return Err(all.error); }
      var any := CompileEach(g.any, false, depth);
      if any.Err? { return Err(any.error); }
      var nots := CompileEach(g.nots, true, depth);
      if nots.Err? { return Err(nots.error); }
      return Ok((all.value, any.value, nots.value));
    }

    method CompileDirect(g: Gate) returns (r: Result<(seq<string>, seq<P>, seq<P>), GateError>)
      ensures r.Ok? <==> Parses(lib, g.regex) && Parses(lib, g.lineRegex)
      ensures r.Ok? ==> forall all, any, nots ::
        DirectProduct(lib, g, Compiled(all, any, nots, r.value.0, r.value.1, r.value.2))
    {
      var contains := seq(|g.contains|, i requires 0 <= i < |g.contains| => lib.lower(g.contains[i]));
      var regex := CompileRegexes(g.regex);
      if regex.Err? { return Err(regex.error); }
      var lineRegex := CompileRegexes(g.lineRegex);
      if lineRegex.Err? { return Err(lineRegex.error); }
      return Ok((contains, regex.value, lineRegex.value));
    }

    method ValidateMatcherLimits(g: Gate) returns (r: Result<(), GateError>)
      modifies this
      ensures totals.gates == old(totals).gates
      ensures r.Ok? <==> MatchersOk(g) && totals.matchers <= MAX_TOTAL_MATCHERS
      ensures MatchersOk(g) ==> totals.matchers == old(totals).matchers + g.Matchers()
    {
      if g.Matchers() > MAX_MATCHERS_PER_GATE { return Err(TooManyMatchers); }
      totals := totals.(matchers := totals.matchers + g.Matchers());
      if totals.matchers > MAX_TOTAL_MATCHERS { return Err(TooManyMatchers); }
      if !(ShortEnough(g.contains) && ShortEnough(g.regex) && ShortEnough(g.lineRegex)) {
        return Err(MatcherTooLong);
      }
      return Ok(());
    }

    method CompileEach(gs: seq<Gate>, negated: bool, depth: nat) returns (r: Result<seq<Compiled<P>>, GateError>)
      requires Within(totals)
      modifies this
      ensures r.Ok? <==> TreesOk(lib, gs, negated, depth) && Within(Sum(old(totals), SizeEach(gs)))
      ensures r.Ok? ==> totals == Sum(old(totals), SizeEach(gs)) && ProductsOf(lib, gs, r.value)
      decreases gs, 2
    {
      var done: seq<Compiled<P>> := [];
      for i := 0 to |gs|
        invariant forall k :: 0 <= k < i ==> TreeOk(lib, gs[k], negated, depth)
        invariant totals == Sum(old(totals), SizeEach(gs[..i])) && Within(totals)
        invariant |done| == i && forall k :: 0 <= k < i ==> ProductOf(lib, gs[k], done[k])
      {
        SizeEachNext(gs, i);
        ghost var before := totals;
        var one := CompileGate(gs[i], negated, depth);
        if one.Err? {
          assert !(TreeOk(lib, gs[i], negated, depth) && Within(Sum(before, Size(gs[i]))));
          OneFails(lib, gs, negated, depth, old(totals), i);
          return Err(one.error);
        }
        SumAssociates(old(totals), SizeEach(gs[..i]), Size(gs[i]));
        done := done + [one.value];
      }
      assert gs[..|gs|] == gs;
      assert TreesOk(lib, gs, negated, depth) && ProductsOf(lib, gs, done);
      return Ok(done);
    }

    method CompileRegexes(patterns: seq<string>) returns (r: Result<seq<P>, GateError>)
      ensures r.Ok? <==> Parses(lib, patterns)
      ensures r.Ok? ==> ParsedAs(lib, patterns, r.value)
    {
      var done: seq<P> := [];
      for i := 0 to |patterns|
        invariant Parses(lib, patterns[..i]) && ParsedAs(lib, patterns[..i], done)
      {
        var p := lib.parse(patterns[i]);
        if p == None { return Err(BadPattern); }
        assert patterns[..i + 1] == patterns[..i] + [patterns[i]];
        done := done + [p.value];
      }
      assert patterns[..|patterns|] == patterns;
      return Ok(done);
    }
  }

  // ------------------------------------------------------------- matching

  predicate DirectMatches<P>(lib: Library<P>, c: Compiled<P>, text: string, lowerText: string) {
    && (forall k :: 0 <= k < |c.contains| ==> lib.within(c.contains[k], lowerText))
    && (forall k :: 0 <= k < |c.regex| ==> lib.found(c.regex[k], text))
    && (forall k :: 0 <= k < |c.lineRegex| ==> FoundOnLine(lib, c.lineRegex[k], text))
  }

  predicate Matches<P>(lib: Library<P>, c: Compiled<P>, text: string, lowerText: string)
    decreases c
  {
    && DirectMatches(lib, c, text, lowerText)
    && (forall k :: 0 <= k < |c.all| ==> Matches(lib, c.all[k], text, lowerText))
    && (c.any == [] || exists k :: 0 <= k < |c.any| && Matches(lib, c.any[k], text, lowerText))
    && !(exists k :: 0 <= k < |c.nots| && Matches(lib, c.nots[k], text, lowerText))
  }

  predicate FoundOnLine<P>(lib: Library<P>, p: P, text: string) {
    exists i :: 0 <= i < |lib.lines(text)| && lib.found(p, lib.lines(text)[i])
  }

  predicate DirectMeans<P>(lib: Library<P>, g: Gate, text: string) {
    && (forall k :: 0 <= k < |g.contains| ==> lib.within(lib.lower(g.contains[k]), lib.lower(text)))
    && (forall k :: 0 <= k < |g.regex| ==> PatternFound(lib, g.regex[k], text))
    && (forall k :: 0 <= k < |g.lineRegex| ==> PatternOnLine(lib, g.lineRegex[k], text))
  }

  // What the manifest says: needles regardless of case, patterns anywhere, line
  // patterns on some line, every `all`, one of any `any`, no `not`.
  predicate Means<P>(lib: Library<P>, g: Gate, text: string)
    decreases g
  {
    && DirectMeans(lib, g, text)
    && (forall k :: 0 <= k < |g.all| ==> Means(lib, g.all[k], text))
    && (g.any == [] || exists k :: 0 <= k < |g.any| && Means(lib, g.any[k], text))
    && (forall k :: 0 <= k < |g.nots| ==> !Means(lib, g.nots[k], text))
  }

  predicate PatternOnLine<P>(lib: Library<P>, pattern: string, text: string) {
    exists i :: 0 <= i < |lib.lines(text)| && PatternFound(lib, pattern, lib.lines(text)[i])
  }

  predicate PatternFound<P>(lib: Library<P>, pattern: string, text: string) {
    match lib.parse(pattern)
    case None => false
    case Some(p) => lib.found(p, text)
  }

  // Compiling keeps the meaning, at every depth and under every negation.
  lemma {:induction false} CompiledMeans<P>(lib: Library<P>, g: Gate, c: Compiled<P>, text: string)
    requires ProductOf(lib, g, c)
    ensures Matches(lib, c, text, lib.lower(text)) <==> Means(lib, g, text)
    decreases g
  {
    CompiledEachMeans(lib, g.all, c.all, text);
    CompiledEachMeans(lib, g.any, c.any, text);
    CompiledEachMeans(lib, g.nots, c.nots, text);
    DirectAgrees(lib, g, c, text);
  }

  lemma DirectAgrees<P>(lib: Library<P>, g: Gate, c: Compiled<P>, text: string)
    requires DirectProduct(lib, g, c)
    ensures DirectMatches(lib, c, text, lib.lower(text)) <==> DirectMeans(lib, g, text)
  {
    forall k | 0 <= k < |g.regex| ensures lib.found(c.regex[k], text) <==> PatternFound(lib, g.regex[k], text) {
      assert lib.parse(g.regex[k]) == Some(c.regex[k]);
    }
    forall k | 0 <= k < |g.lineRegex|
      ensures FoundOnLine(lib, c.lineRegex[k], text) <==> PatternOnLine(lib, g.lineRegex[k], text)
    {
      assert lib.parse(g.lineRegex[k]) == Some(c.lineRegex[k]);
      forall i | 0 <= i < |lib.lines(text)|
        ensures lib.found(c.lineRegex[k], lib.lines(text)[i]) <==> PatternFound(lib, g.lineRegex[k], lib.lines(text)[i])
      {
      }
    }
  }

  lemma {:induction false} CompiledEachMeans<P>(lib: Library<P>, gs: seq<Gate>, cs: seq<Compiled<P>>, text: string)
    requires ProductsOf(lib, gs, cs)
    ensures forall k :: 0 <= k < |gs| ==> (Matches(lib, cs[k], text, lib.lower(text)) <==> Means(lib, gs[k], text))
    decreases gs
  {
    forall k | 0 <= k < |gs| ensures Matches(lib, cs[k], text, lib.lower(text)) <==> Means(lib, gs[k], text) {
      CompiledMeans(lib, gs[k], cs[k], text);
    }
  }
}
