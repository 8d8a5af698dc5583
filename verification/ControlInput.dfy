/**
 Input to a pty, crates/muxd/src/control.rs: interactive writes and checked
 automation writes share one lock, held across partial writes. A step is one
 lock acquisition, one check, one counter advance, one accepted write or one
 release; output, foreground and exit change freely in between. A step whose
 guard does not hold changes nothing.
 */
module ControlInput {
  import opened Wrappers
  import opened Terminal

  const MAX_INPUT_BYTES: nat := 8192

  // What an inspection showed the client.
  datatype Inspected = Inspected(generation: nat, revision: nat, inputRevision: nat, foreground: int)

  datatype Input = Input(seen: Inspected, data: seq<byte>)

  // One input that advanced the counter, and how much of it reached the pty.
  datatype Entry = Entry(data: seq<byte>, written: nat, checked: Option<Inspected>)

  datatype Holder =
    | Free
    | Interactive(data: seq<byte>)
    | Checking(input: Input)
    | Passed(input: Input)
    | Writing

  datatype State = State(
    generation: nat,
    revision: nat,
    inputRevision: nat,
    foreground: Option<int>,
    exited: bool,
    holder: Holder,
    log: seq<Entry>,
    pty: seq<byte>)

  datatype Action =
    | Changed
    | SetForeground(group: Option<int>)
    | Exits
    | LockInteractive(data: seq<byte>)
    | LockChecked(input: Input)
    | Check
    | Advance
    | Write(count: nat)
    | Release

  function Inspect(s: State): Option<Inspected> {
    if s.foreground.Some? && s.foreground.value > 0
    then Some(Inspected(s.generation, s.revision, s.inputRevision, s.foreground.value)) else None
  }

  predicate SizeOk(data: seq<byte>) { 0 < |data| <= MAX_INPUT_BYTES }

  predicate Fresh(s: State, seen: Inspected) {
    && s.foreground.Some? && s.foreground.value > 0
    && s.generation == seen.generation
    && !s.exited
    && s.revision == seen.revision
    && s.inputRevision == seen.inputRevision
    && s.foreground.value == seen.foreground
  }

  // Advance before writing: even a partly failed write is never replayed.
  function AdvanceStep(s: State): State {
    if s.holder.Interactive? then
      s.(inputRevision := s.inputRevision + 1, holder := Writing, log := s.log + [Entry(s.holder.data, 0, None)])
    else if s.holder.Passed? then
      s.(inputRevision := s.inputRevision + 1, holder := Writing,
         log := s.log + [Entry(s.holder.input.data, 0, Some(s.holder.input.seen))])
    else s
  }

  // The kernel takes the next `count` bytes of the input being written.
  function WriteStep(s: State, count: nat): State {
    if s.holder.Writing? && s.log != [] && s.log[|s.log| - 1].written + count <= |s.log[|s.log| - 1].data| then
      var k := |s.log| - 1;
      var e := s.log[k];
      s.(log := s.log[k := e.(written := e.written + count)],
         pty := s.pty + e.data[e.written..e.written + count])
    else s
  }

  function Step(s: State, a: Action): State {
    match a
    case Changed => s.(revision := s.revision + 1)
    case SetForeground(group) => s.(foreground := group)
    case Exits => s.(exited := true)
    case LockInteractive(data) => if s.holder.Free? then s.(holder := Interactive(data)) else s
    case LockChecked(input) =>
      if s.holder.Free? && SizeOk(input.data) then s.(holder := Checking(input)) else s
    case Check =>
      if !s.holder.Checking? then s
      else if Fresh(s, s.holder.input.seen) then s.(holder := Passed(s.holder.input))
      else s.(holder := Free)
    case Advance => AdvanceStep(s)
    case Write(count) => WriteStep(s, count)
    case Release => if s.holder.Writing? then s.(holder := Free) else s
  }

  function Run(s: State, schedule: seq<Action>): State
    decreases |schedule|
  {
    if schedule == [] then s else Run(Step(s, schedule[0]), schedule[1..])
  }

  function Start(generation: nat): State { State(generation, 0, 0, None, false, Free, [], []) }

  // ------------------------------------------------------------- invariant

  predicate WithinInputs(log: seq<Entry>) {
    forall i :: 0 <= i < |log| ==> log[i].written <= |log[i].data|
  }

  // The part of each input that was written, in counter order.
  function Delivered(log: seq<Entry>): seq<byte>
    requires WithinInputs(log)
  {
    if log == [] then [] else
      Delivered(log[..|log| - 1]) + log[|log| - 1].data[..log[|log| - 1].written]
  }

  predicate EntryOk(s: State, i: int)
    requires 0 <= i < |s.log|
  {
    s.log[i].checked.Some? ==>
      && s.log[i].checked.value.inputRevision == i
      && s.log[i].checked.value.generation == s.generation
      && SizeOk(s.log[i].data)
  }

  predicate Inv(s: State) {
    && |s.log| == s.inputRevision
    && WithinInputs(s.log)
    && (forall i :: 0 <= i < |s.log| ==> EntryOk(s, i))
    && s.pty == Delivered(s.log)
    && (s.holder.Checking? || s.holder.Passed? ==> SizeOk(s.holder.input.data))
    && (s.holder.Passed? ==>
          s.holder.input.seen.inputRevision == s.inputRevision && s.holder.input.seen.generation == s.generation)
    && (s.holder.Writing? ==> s.log != [])
  }

  lemma DeliveredAppend(log: seq<Entry>, e: Entry)
    requires WithinInputs(log)
    requires e.written <= |e.data|
    ensures WithinInputs(log + [e]) && Delivered(log + [e]) == Delivered(log) + e.data[..e.written]
  {
    assert (log + [e])[..|log|] == log;
  }

  lemma WriteKeeps(s: State, count: nat)
    requires Inv(s)
    ensures Inv(WriteStep(s, count))
  {
    var s' := WriteStep(s, count);
    if s' != s {
      var k := |s.log| - 1;
      var e := s.log[k];
      assert EntryOk(s, k);
      assert s'.log[..k] == s.log[..k];
      assert s.log[k].data[..e.written] + e.data[e.written..e.written + count] == e.data[..e.written + count];
      forall i | 0 <= i < |s'.log| ensures EntryOk(s', i) { assert EntryOk(s, i); }
    }
  }

  lemma AdvanceKeeps(s: State)
    requires Inv(s)
    ensures Inv(AdvanceStep(s))
  {
    var s' := AdvanceStep(s);
    if s' != s {
      forall i | 0 <= i < |s.log| ensures EntryOk(s', i) { assert EntryOk(s, i); }
      DeliveredAppend(s.log, s'.log[|s.log|]);
    }
  }

  lemma StepKeeps(s: State, a: Action)
    requires Inv(s)
    ensures Inv(Step(s, a))
  {
    match a
    case Write(count) => WriteKeeps(s, count);
    case Advance => AdvanceKeeps(s);
    case _ =>
      var s' := Step(s, a);
      assert s'.log == s.log && s'.pty == s.pty;
      forall i | 0 <= i < |s'.log| ensures EntryOk(s', i) { assert EntryOk(s, i); }
  }

  lemma {:induction false} RunKeeps(s: State, schedule: seq<Action>)
    requires Inv(s)
    ensures Inv(Run(s, schedule))
    decreases |schedule|
  {
    if schedule != [] {
      StepKeeps(s, schedule[0]);
      RunKeeps(Step(s, schedule[0]), schedule[1..]);
    }
  }

  // -------------------------------------------------------------- theorems

  // In every reachable state the bytes written to the pty are, in counter order,
  // prefixes of whole submitted inputs with no interleaving, one input for each
  // value the counter has taken.
  lemma NoInterleaving(generation: nat, schedule: seq<Action>)
    ensures var s := Run(Start(generation), schedule);
      && |s.log| == s.inputRevision
      && WithinInputs(s.log)
      && s.pty == Delivered(s.log)
  {
    RunKeeps(Start(generation), schedule);
  }

  // Of all checked inputs built on one inspection, at most one ever writes.
  lemma OneWritePerInspection(generation: nat, schedule: seq<Action>, i: nat, j: nat)
    ensures var s := Run(Start(generation), schedule);
      i < |s.log| && j < |s.log| ==>
        (s.log[i].checked.Some? && s.log[i].checked == s.log[j].checked ==> i == j)
  {
    RunKeeps(Start(generation), schedule);
    var s := Run(Start(generation), schedule);
    if i < |s.log| && j < |s.log| {
      assert EntryOk(s, i) && EntryOk(s, j);
    }
  }

  lemma CounterStep(s: State, a: Action)
    ensures Step(s, a).inputRevision >= s.inputRevision
    ensures Step(s, a).generation == s.generation
    ensures a.Advance? && (s.holder.Interactive? || s.holder.Passed?) ==>
      Step(s, a).inputRevision == s.inputRevision + 1
  {
  }

  lemma {:induction false} CounterGrows(s: State, schedule: seq<Action>)
    ensures Run(s, schedule).inputRevision >= s.inputRevision && Run(s, schedule).generation == s.generation
    decreases |schedule|
  {
    if schedule != [] {
      CounterStep(s, schedule[0]);
      CounterGrows(Step(s, schedule[0]), schedule[1..]);
    }
  }

  // Once any other input has advanced the counter after an inspection, a check of
  // an input built on it fails: whatever ran between the inspection and that
  // input, and however long and whatever runs before the check.
  lemma StaleInputIsRefused(s: State, seen: Inspected, mid: seq<Action>, later: seq<Action>)
    requires Inspect(s) == Some(seen)
    requires Run(s, mid).holder.Interactive? || Run(s, mid).holder.Passed?
    ensures var s' := Run(Step(Run(s, mid), Advance), later);
      && !Fresh(s', seen)
      && (s'.holder.Checking? && s'.holder.input.seen == seen ==> Step(s', Check).holder.Free?)
  {
    CounterGrows(s, mid);
    CounterStep(Run(s, mid), Advance);
    CounterGrows(Step(Run(s, mid), Advance), later);
  }

  // A step that moves what an inspection counts: terminal output, or an input
  // that goes ahead.
  predicate Disturbs(s: State, a: Action) {
    a.Changed? || (a.Advance? && (s.holder.Interactive? || s.holder.Passed?))
  }

  predicate Quiet(s: State, schedule: seq<Action>)
    decreases |schedule|
  {
    schedule == [] || (!Disturbs(s, schedule[0]) && Quiet(Step(s, schedule[0]), schedule[1..]))
  }

  lemma {:induction false} CountersShowQuiet(s: State, schedule: seq<Action>)
    ensures var s' := Run(s, schedule);
      && s.revision <= s'.revision && s.inputRevision <= s'.inputRevision && s'.generation == s.generation
      && (Quiet(s, schedule) <==> s'.revision == s.revision && s'.inputRevision == s.inputRevision)
    decreases |schedule|
  {
    if schedule != [] {
      CountersShowQuiet(Step(s, schedule[0]), schedule[1..]);
    }
  }

  // A check passes if and only if, all the way from the inspection to it, no
  // output came and no input went ahead, and now the pty lives and its foreground
  // is the one inspected. The inspection's four numbers stand for the whole run.
  lemma CheckSeesTheWholeRun(s: State, mid: seq<Action>)
    requires Inspect(s).Some?
    requires Run(s, mid).holder.Checking? && Run(s, mid).holder.input.seen == Inspect(s).value
    ensures var s' := Run(s, mid);
      Step(s', Check).holder.Passed? <==> Quiet(s, mid) && !s'.exited && s'.foreground == s.foreground
  {
    CountersShowQuiet(s, mid);
  }

  // Where a quiet run leaves the pty: no input was added, and all it may have
  // gained is more of the input that was being written when the run began.
  predicate Continues(s: State, s': State) {
    && |s'.log| == |s.log|
    && (!s.holder.Writing? ==> s'.log == s.log && s'.pty == s.pty && !s'.holder.Writing?)
    && (s.holder.Writing? && s.log != [] ==>
          var k := |s.log| - 1;
          && s'.log[..k] == s.log[..k] && s'.log[k].data == s.log[k].data
          && s.log[k].written <= s'.log[k].written <= |s.log[k].data|
          && s'.pty == s.pty + s.log[k].data[s.log[k].written..s'.log[k].written])
  }

  lemma QuietStep(s: State, a: Action)
    requires Inv(s) && !Disturbs(s, a)
    ensures Continues(s, Step(s, a))
  {
    if s.holder.Writing? {
      assert EntryOk(s, |s.log| - 1);
    }
  }

  lemma ContinuesFurther(s: State, s1: State, s2: State)
    requires Inv(s) && Continues(s, s1) && Continues(s1, s2) && Inv(s1)
    ensures Continues(s, s2)
  {
    if s.holder.Writing? {
      var k := |s.log| - 1;
      var d := s.log[k].data;
      if s1.holder.Writing? {
        assert d[s.log[k].written..s1.log[k].written] + d[s1.log[k].written..s2.log[k].written]
            == d[s.log[k].written..s2.log[k].written];
      }
    }
  }

  lemma {:induction false} QuietRun(s: State, mid: seq<Action>)
    requires Inv(s) && Quiet(s, mid)
    ensures Continues(s, Run(s, mid)) && Inv(Run(s, mid))
    decreases |mid|
  {
    if mid == [] {
      if s.holder.Writing? { assert EntryOk(s, |s.log| - 1); }
    } else {
      var s1 := Step(s, mid[0]);
      StepKeeps(s, mid[0]);
      QuietStep(s, mid[0]);
      QuietRun(s1, mid[1..]);
      ContinuesFurther(s, s1, Run(s, mid));
    }
  }

  // Some input is being written and not all of it is.
  predicate Unfinished(s: State) {
    s.holder.Writing? && s.log != [] && s.log[|s.log| - 1].written < |s.log[|s.log| - 1].data|
  }

  // So a checked input that passes finds no input the inspection did not count,
  // and, unless the inspection fell into another input's write, not one byte more.
  lemma PassedInputFollowsInspection(s: State, mid: seq<Action>)
    requires Inv(s) && Inspect(s).Some?
    requires Run(s, mid).holder.Checking? && Run(s, mid).holder.input.seen == Inspect(s).value
    requires Step(Run(s, mid), Check).holder.Passed?
    ensures var s' := Run(s, mid);
      && Continues(s, s')
      && (s'.pty != s.pty ==> Unfinished(s))
      && Step(Step(s', Check), Advance).log == s'.log + [Entry(s'.holder.input.data, 0, Inspect(s))]
  {
    CheckSeesTheWholeRun(s, mid);
    QuietRun(s, mid);
  }

  // An inspection inside another input's write is the exact exception: there a
  // checked input built on it can pass although the pty has gained bytes since.
  lemma UnfinishedWriteSlipsBy(s: State, data: seq<byte>) returns (mid: seq<Action>)
    requires Inv(s) && Inspect(s).Some? && !s.exited && SizeOk(data)
    requires Unfinished(s)
    ensures var s' := Run(s, mid);
      && s'.holder == Checking(Input(Inspect(s).value, data))
      && Step(s', Check).holder.Passed?
      && |s'.pty| == |s.pty| + 1
  {
    var lock := LockChecked(Input(Inspect(s).value, data));
    mid := [Write(1), Release, lock];
    var s1 := Step(s, Write(1));
    var s2 := Step(s1, Release);
    assert mid[1..] == [Release, lock] && [Release, lock][1..] == [lock] && [lock][1..] == [];
    assert Run(s2, [lock]) == Step(s2, lock);
    assert Run(s1, [Release, lock]) == Run(s2, [lock]);
    assert Run(s, mid) == Run(s1, [Release, lock]);
  }

  // ----------------------------------------------------------------- object

  // The kernel's answers to one write_all: bytes taken, or an error. Running out
  // of answers is the caller's timeout cancelling the write.
  datatype Answer = Took(n: nat) | WouldBlock | Error

  class PtyInput {
    const generation: nat
    var revision: nat
    var inputRevision: nat
    var foreground: Option<int>
    var exited: bool
    var pty: seq<byte>
    var log: seq<Entry>

    ghost function View(): State
      reads this
    {
      State(generation, revision, inputRevision, foreground, exited, Free, log, pty)
    }

    constructor (generation: nat)
      ensures View() == Start(generation)
    {
      this.generation := generation;
      revision, inputRevision, foreground, exited, pty, log := 0, 0, None, false, [], [];
    }

    method AdvanceInput(data: seq<byte>, checked: Option<Inspected>) returns (revision: nat)
      modifies this`inputRevision, this`log
      ensures revision == inputRevision == old(inputRevision) + 1
      ensures log == old(log) + [Entry(data, 0, checked)]
    {
      inputRevision := inputRevision + 1;
      log := log + [Entry(data, 0, checked)];
      revision := inputRevision;
    }

    // Write until all is taken, an error, or the caller gives up.
    method WriteAll(answers: seq<Answer>) returns (ok: bool, written: nat)
      requires log != [] && log[|log| - 1].written == 0
      modifies this`pty, this`log
      ensures |log| == |old(log)|
      ensures var k := |log| - 1;
        var e := old(log)[k];
        && written <= |e.data|
        && log == old(log)[k := e.(written := written)]
        && pty == old(pty) + e.data[..written]
        && (ok <==> written == |e.data|)
    {
      var k := |log| - 1;
      var data := log[k].data;
      written := 0;
      var i := 0;
      while written < |data|
        invariant i <= |answers| && written <= |data|
        invariant |log| == |old(log)|
        invariant log == old(log)[k := old(log)[k].(written := written)]
        invariant pty == old(pty) + data[..written]
        decreases |answers| - i
      {
        if i == |answers| || answers[i].Error? { return false, written; }
        if answers[i].Took? {
          // The kernel never takes more than it is offered.
          var n := if answers[i].n <= |data| - written then answers[i].n else |data| - written;
          pty := pty + data[written..written + n];
          assert data[..written] + data[written..written + n] == data[..written + n];
          written := written + n;
          log := log[k := log[k].(written := written)];
        }
        i := i + 1;
      }
      ok := true;
    }

    method WriteInput(data: seq<byte>, answers: seq<Answer>) returns (ok: bool, written: nat)
      requires Inv(View())
      modifies this`inputRevision, this`log, this`pty
      ensures Inv(View()) && inputRevision == old(inputRevision) + 1
      ensures written <= |data| && (ok <==> written == |data|)
      ensures log == old(log) + [Entry(data, written, None)]
      ensures pty == old(pty) + data[..written]
    {
      ghost var before := View();
      var _ := AdvanceInput(data, None);
      ok, written := WriteAll(answers);
      assert log == before.log + [Entry(data, written, None)];
      LoggedInput(before, View(), Entry(data, written, None));
    }

    // Refused without a byte written unless everything inspected still holds.
    method CheckedInput(input: Input, answers: seq<Answer>) returns (reply: Option<nat>, written: nat)
      requires Inv(View())
      modifies this`inputRevision, this`log, this`pty
      ensures Inv(View())
      ensures !(SizeOk(input.data) && Fresh(old(View()), input.seen)) ==> reply == None && View() == old(View())
      ensures SizeOk(input.data) && Fresh(old(View()), input.seen) ==>
        && inputRevision == input.seen.inputRevision + 1
        && written <= |input.data|
        && log == old(log) + [Entry(input.data, written, Some(input.seen))]
        && pty == old(pty) + input.data[..written]
        && reply == if written == |input.data| then Some(inputRevision) else None
    {
      if !SizeOk(input.data) { return None, 0; }
      if foreground.None? || foreground.value <= 0
        || generation != input.seen.generation
        || exited
        || revision != input.seen.revision
        || inputRevision != input.seen.inputRevision
        || foreground.value != input.seen.foreground
      {
        return None, 0;
      }
      ghost var before := View();
      var advanced := AdvanceInput(input.data, Some(input.seen));
      var ok;
      ok, written := WriteAll(answers);
      assert log == before.log + [Entry(input.data, written, Some(input.seen))];
      LoggedInput(before, View(), Entry(input.data, written, Some(input.seen)));
      reply := if ok then Some(advanced) else None;
    }
  }

  lemma LoggedInput(s: State, s': State, e: Entry)
    requires Inv(s) && s.holder.Free? && e.written <= |e.data|
    requires e.checked.Some? ==> SizeOk(e.data) && Fresh(s, e.checked.value)
    requires s' == s.(inputRevision := s.inputRevision + 1, log := s.log + [e], pty := s.pty + e.data[..e.written])
    ensures Inv(s')
  {
    forall i | 0 <= i < |s.log| ensures EntryOk(s', i) { assert EntryOk(s, i); }
    DeliveredAppend(s.log, e);
  }
}
