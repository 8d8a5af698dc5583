/**
 What a watch subscriber shows, exactly: when the newest line it has for a pty is
 also the newest under that pty's name, when it is the line the pty last emitted,
 and that a subscriber of a quiet daemon catches up in a bounded number of steps.
 */
module WatchExact {
  import opened Wrappers
  import opened WatchFeed

  // ------------------------------------------------------------- invariant

  predicate RecordOk(s: State, r: Record) {
    && r.sid in s.names && r.name == s.names[r.sid]
    && match r.source
       case FromEvent(i) => s.base <= i < s.cursor
       case FromSnapshot(at, cursor, settled) =>
         && r.sid in s.seen && cursor <= s.cursor && at <= |s.log|
         && (at > LastIndex(s.log, r.sid) ==> (settled <==> r.sid in s.last && s.last[r.sid] == r.line))
  }

  predicate RecordsOk(s: State) {
    forall i :: 0 <= i < |Lines(s)| ==> RecordOk(s, Lines(s)[i])
  }

  // What a pty last emitted is the line of its last event, if it has one.
  predicate LastMatches(log: seq<Event>, last: map<Sid, Line>, sid: Sid) {
    var i := LastIndex(log, sid);
    if sid in last then 0 <= i < |log| && log[i].line == last[sid] else i < 0
  }

  ghost predicate LastOk(s: State) { forall sid :: LastMatches(s.log, s.last, sid) }

  // The first event a record leaves for the subscriber still to take.
  function Reach(r: Record): nat {
    match r.source
    case FromEvent(i) => i
    case FromSnapshot(_, cursor, _) => cursor
  }

  // Of the events taken so far, a rival's comes after the pty's newest line or not.
  predicate NameShown(s: State, sid: Sid) {
    sid in s.names &&
    var newest := NewestFor(Lines(s), sid);
    newest.Some? ==>
      (NewestNamed(Lines(s), s.names[sid]) == newest <==>
         s.cursor <= |s.log| && LastRival(s.log[..s.cursor], sid, s.names[sid]) < Reach(newest.value))
  }

  ghost predicate NamesShown(s: State) {
    !s.lagged ==> forall sid :: InTable(s, sid) ==> NameShown(s, sid)
  }

  ghost predicate Exact(s: State) { Inv(s) && RecordsOk(s) && LastOk(s) && NamesShown(s) }

  lemma {:induction false} NewestIsFor(records: seq<Record>, sid: Sid)
    ensures NewestFor(records, sid).Some? ==>
      NewestFor(records, sid).value.sid == sid && NewestFor(records, sid).value in records
  {
    if records != [] { NewestIsFor(records[..|records| - 1], sid); }
  }

  // ---------------------------------------------------------------- emitting

  lemma EmitIndices(s: State, sid: Sid, k: Sid)
    requires Inv(s) && EmitStep(s, sid) != s
    ensures var log := EmitStep(s, sid).log;
      LastIndex(log, k) == if k == sid then |s.log| else LastIndex(s.log, k)
  {
    assert EmitStep(s, sid).log[..|s.log|] == s.log;
  }

  lemma EmitRecords(s: State, sid: Sid)
    requires Inv(s) && RecordsOk(s)
    ensures RecordsOk(EmitStep(s, sid))
  {
    var s' := EmitStep(s, sid);
    if s' != s {
      forall i | 0 <= i < |Lines(s')| ensures RecordOk(s', Lines(s')[i]) {
        assert RecordOk(s, Lines(s)[i]);
        EmitIndices(s, sid, Lines(s)[i].sid);
      }
    }
  }

  lemma EmitLast(s: State, sid: Sid)
    requires Inv(s) && LastOk(s)
    ensures LastOk(EmitStep(s, sid))
  {
    var s' := EmitStep(s, sid);
    if s' != s {
      forall k ensures LastMatches(s'.log, s'.last, k) {
        assert LastMatches(s.log, s.last, k);
        EmitIndices(s, sid, k);
      }
    }
  }

  lemma EmitNames(s: State, sid: Sid)
    requires Inv(s) && NamesShown(s)
    ensures NamesShown(EmitStep(s, sid))
  {
    var s' := EmitStep(s, sid);
    if s' != s && !s'.lagged {
      assert s'.log[..s.cursor] == s.log[..s.cursor];
      forall k | InTable(s', k) ensures NameShown(s', k) { assert InTable(s, k) && NameShown(s, k); }
    }
  }

  // --------------------------------------------------------------- receiving

  lemma RivalNext(s: State, sid: Sid, name: Name)
    requires s.cursor < |s.log|
    ensures var e := s.log[s.cursor];
      LastRival(s.log[..s.cursor + 1], sid, name)
        == if e.name == name && e.sid != sid then s.cursor else LastRival(s.log[..s.cursor], sid, name)
  {
    var taken := s.log[..s.cursor + 1];
    assert taken[..s.cursor] == s.log[..s.cursor];
  }

  lemma ReceiveName(s: State, k: Sid)
    requires Inv(s) && RecordsOk(s) && InTable(s, k) && NameShown(s, k)
    requires s.pending == [] && !s.lagged && s.cursor < |s.log| <= s.cursor + EVENT_BACKLOG
    ensures NameShown(ReceiveStep(s), k)
  {
    var s' := ReceiveStep(s);
    var r := s'.pending[0];
    assert Lines(s) == s.written && Lines(s') == s.written + [r];
    NewestAppend(s.written, r, k, s.names[k]);
    RivalNext(s, k, s.names[k]);
    LastRivalRange(s.log[..s.cursor], k, s.names[k]);
    NewestReach(s, k);
  }

  lemma NewestReach(s: State, k: Sid)
    requires RecordsOk(s)
    ensures NewestFor(Lines(s), k).Some? ==>
      NewestFor(Lines(s), k).value.sid == k && Reach(NewestFor(Lines(s), k).value) <= s.cursor
  {
    NewestIsFor(Lines(s), k);
    if NewestFor(Lines(s), k).Some? {
      var i :| 0 <= i < |Lines(s)| && Lines(s)[i] == NewestFor(Lines(s), k).value;
      assert RecordOk(s, Lines(s)[i]);
    }
  }

  lemma ReceiveRecords(s: State)
    requires Inv(s) && RecordsOk(s)
    ensures RecordsOk(ReceiveStep(s))
  {
    var s' := ReceiveStep(s);
    forall i | 0 <= i < |Lines(s')| ensures RecordOk(s', Lines(s')[i]) {
      if i < |Lines(s)| { assert RecordOk(s, Lines(s)[i]); }
    }
  }

  lemma ReceiveExact(s: State)
    requires Exact(s)
    ensures Exact(ReceiveStep(s))
  {
    var s' := ReceiveStep(s);
    ReceiveKeeps(s);
    ReceiveRecords(s);
    if s' != s && !s'.lagged {
      forall k | InTable(s', k) ensures NameShown(s', k) {
        assert InTable(s, k);
        ReceiveName(s, k);
      }
    }
  }

  // ------------------------------------------------------------- snapshotting

  lemma LookRecords(s: State)
    requires Inv(s) && RecordsOk(s)
    ensures RecordsOk(LookStep(s))
  {
    var s' := LookStep(s);
    forall i | 0 <= i < |Lines(s')| ensures RecordOk(s', Lines(s')[i]) {
      if i < |Lines(s)| {
        assert Lines(s')[i] == Lines(s)[i] && RecordOk(s, Lines(s)[i]);
      } else {
        assert Lines(s')[i] == LineOf(s, s.looking.value[0]);
      }
    }
  }

  lemma CompleteName(s: State, k: Sid)
    requires Inv(s) && s.looking == Some([]) && InTable(s, k)
    ensures NameShown(LookStep(s), k)
  {
    assert Shot(s, s.names[k]);
    NewestConcat(s.written, s.pending, k, s.names[k]);
    LastRivalRange(s.log[..s.cursor], k, s.names[k]);
  }

  lemma LookExact(s: State)
    requires Exact(s)
    ensures Exact(LookStep(s))
  {
    var s' := LookStep(s);
    LookKeeps(s);
    LookRecords(s);
    if s.looking == Some([]) {
      forall k | InTable(s', k) ensures NameShown(s', k) {
        assert InTable(s, k);
        CompleteName(s, k);
      }
    }
  }

  lemma ResnapshotExact(s: State, order: seq<Name>)
    requires Exact(s)
    ensures Exact(ResnapshotStep(s, order))
  {
    var s' := ResnapshotStep(s, order);
    ResnapshotKeeps(s, order);
    assert Lines(s') == Lines(s);
    forall i | 0 <= i < |Lines(s')| ensures RecordOk(s', Lines(s')[i]) { assert RecordOk(s, Lines(s)[i]); }
    if s' == s { assert NamesShown(s'); }
  }

  // ------------------------------------------------------------ other steps

  lemma WriteExact(s: State)
    requires Exact(s)
    ensures Exact(Step(s, WriteLine))
  {
    var s' := Step(s, WriteLine);
    WriteLineKeeps(s);
    if s' != s { assert s.pending == [s.pending[0]] + s.pending[1..]; }
    assert Lines(s') == Lines(s);
    forall i | 0 <= i < |Lines(s')| ensures RecordOk(s', Lines(s')[i]) { assert RecordOk(s, Lines(s)[i]); }
    if !s'.lagged {
      forall k | InTable(s', k) ensures NameShown(s', k) { assert InTable(s, k) && NameShown(s, k); }
    }
  }

  lemma NoRecords(s: State, k: Sid)
    requires RecordsOk(s) && k !in s.names
    ensures NewestFor(Lines(s), k) == None
  {
    NewestIsFor(Lines(s), k);
    forall r | r in Lines(s) ensures r.sid in s.names {
      var i :| 0 <= i < |Lines(s)| && Lines(s)[i] == r;
      assert RecordOk(s, Lines(s)[i]);
    }
  }

  lemma OtherExact(s: State, a: Action)
    requires Exact(s) && (a.Insert? || a.Remove? || a.Change?)
    ensures Exact(Step(s, a))
  {
    var s' := Step(s, a);
    OtherKeeps(s, a);
    OtherFrame(s, a);
    forall i | 0 <= i < |Lines(s')| ensures RecordOk(s', Lines(s')[i]) { assert RecordOk(s, Lines(s)[i]); }
    if !s'.lagged {
      forall k | InTable(s', k) ensures NameShown(s', k) {
        if k in s.names {
          assert InTable(s, k) && NameShown(s, k);
        } else {
          NoRecords(s, k);
        }
      }
    }
  }

  lemma StepExact(s: State, a: Action)
    requires Exact(s)
    ensures Exact(Step(s, a))
  {
    match a
    case Emit(sid) =>
      EmitKeeps(s, sid);
      EmitRecords(s, sid);
      EmitLast(s, sid);
      EmitNames(s, sid);
    case Receive => ReceiveExact(s);
    case Resnapshot(order) => ResnapshotExact(s, order);
    case Look => LookExact(s);
    case WriteLine => WriteExact(s);
    case _ => OtherExact(s, a);
  }

  lemma {:induction false} RunExact(s: State, schedule: seq<Action>)
    requires Exact(s)
    ensures Exact(Run(s, schedule))
    decreases |schedule|
  {
    if schedule != [] {
      StepExact(s, schedule[0]);
      RunExact(Step(s, schedule[0]), schedule[1..]);
    }
  }

  lemma SubscribeExact(s: State)
    requires Exact(s)
    ensures Exact(Subscribe(s))
  {
    var s' := Subscribe(s);
    forall k | k in s.names ensures SidOk(s', k) && NameOk(s', k) {}
  }

  lemma WatchedExact(before: seq<Action>, after: seq<Action>)
    ensures Exact(Watched(before, after))
  {
    RunExact(Start(), before);
    SubscribeExact(Run(Start(), before));
    RunExact(Subscribe(Run(Start(), before)), after);
  }

  // -------------------------------------------------------------- theorems

  // A caught-up subscriber has a line for a pty in the table if and only if a
  // snapshot came to it or it has emitted since the subscription; one opened later
  // that stays silent has none.
  lemma HasLineExactly(before: seq<Action>, after: seq<Action>, sid: Sid)
    requires CaughtUp(Watched(before, after)) && InTable(Watched(before, after), sid)
    ensures var s := Watched(before, after);
      NewestFor(s.written, sid).Some? <==> sid in s.seen || LastIndex(s.log, sid) >= s.base
  {
    WatchedExact(before, after);
    var s := Watched(before, after);
    assert Lines(s) == s.written;
    if NewestFor(s.written, sid).Some? {
      var i := NewestIsHeld(s.written, sid);
      NewestIsFor(s.written, sid);
      assert RecordOk(s, Lines(s)[i]) && Faithful(s, Lines(s)[i]);
      LastIndexRange(s.log, sid);
    } else if Owed(s, sid) {
      WatchConverges(before, after, sid);
    }
  }

  // For a caught-up subscriber, the newest line of a pty in the table is the newest
  // under that pty's name if and only if no other pty of the name emitted after it:
  // after that event, or, for a line out of a snapshot, among the events the
  // subscriber had still to take when the snapshot was made.
  lemma NameIsRightExactly(before: seq<Action>, after: seq<Action>, sid: Sid)
    requires CaughtUp(Watched(before, after)) && Owed(Watched(before, after), sid)
    ensures var s := Watched(before, after);
      && NewestFor(s.written, sid).Some?
      && (NewestNamed(s.written, s.names[sid]) == NewestFor(s.written, sid) <==>
            LastRival(s.log, sid, s.names[sid]) < Reach(NewestFor(s.written, sid).value))
  {
    WatchedExact(before, after);
    WatchConverges(before, after, sid);
    var s := Watched(before, after);
    assert Lines(s) == s.written && s.log[..s.cursor] == s.log;
    assert NameShown(s, sid);
  }

  // And that line is the one the pty last emitted if and only if it came from the
  // broadcast or from a snapshot that found the pty as it last emitted itself. So
  // once the pty is back at what it last emitted, the subscriber shows its present
  // state exactly then, and otherwise nothing will correct it.
  lemma ShownIsLastEmittedExactly(before: seq<Action>, after: seq<Action>, sid: Sid)
    requires CaughtUp(Watched(before, after)) && Owed(Watched(before, after), sid)
    ensures var s := Watched(before, after);
      && NewestFor(s.written, sid).Some?
      && var r := NewestFor(s.written, sid).value;
         var right := r.source.FromEvent? || r.source.settled;
         && (sid in s.last && s.last[sid] == r.line <==> right)
         && (Settled(s, sid) ==> (r.line == s.now[sid] <==> right))
  {
    WatchedExact(before, after);
    WatchConverges(before, after, sid);
    var s := Watched(before, after);
    assert Lines(s) == s.written;
    var i := NewestIsHeld(s.written, sid);
    assert RecordOk(s, Lines(s)[i]) && Faithful(s, Lines(s)[i]);
    NewestIsFor(s.written, sid);
    assert LastMatches(s.log, s.last, sid);
  }

  // --------------------------------------------------------------- catching up

  // What the subscriber itself does.
  predicate Own(a: Action) { a.WriteLine? || a.Receive? || a.Resnapshot? || a.Look? }

  // How much it has left to do while the daemon is quiet: lines to write, events to
  // take and write, a snapshot that is due, and one more if it is to lag again.
  function Behind(s: State): nat {
    (if s.cursor <= |s.log| then 2 * (|s.log| - s.cursor) else 0)
    + |s.pending|
    + (if s.looking.Some? then 2 * |s.looking.value| + 1 else if s.lagged then 2 * |s.table| + 2 else 0)
    + (if s.cursor + EVENT_BACKLOG < |s.log| then 2 * |s.table| + 2 else 0)
  }

  lemma ReceiveProgress(s: State)
    requires s.cursor <= |s.log| && ReceiveStep(s) != s
    ensures Behind(ReceiveStep(s)) < Behind(s)
  {
  }

  // Each of its steps that does anything leaves it strictly less to do.
  lemma OwnStepProgress(s: State, a: Action)
    requires Inv(s) && Own(a) && Step(s, a) != s
    ensures Behind(Step(s, a)) < Behind(s)
  {
    match a
    case Receive => ReceiveProgress(s);
    case Resnapshot(order) => if Enumerates(s, order) { EnumeratesAll(s, order); }
    case WriteLine =>
    case Look =>
  }

  lemma Enumerate(names: set<Name>) returns (order: seq<Name>)
    ensures forall i, j :: 0 <= i < j < |order| ==> order[i] != order[j]
    ensures forall n :: n in names <==> n in order
  {
    if names == {} {
      order := [];
    } else {
      var n :| n in names;
      var rest := Enumerate(names - {n});
      order := rest + [n];
      assert forall m :: m in order <==> m in rest || m == n;
    }
  }

  // And until it has caught up, one of them does.
  lemma OwnStepEnabled(s: State) returns (a: Action)
    requires Inv(s) && !CaughtUp(s)
    ensures Own(a) && Step(s, a) != s
  {
    if s.looking.Some? {
      a := Look;
      if s.looking != Some([]) { assert |LookStep(s).pending| > |s.pending|; }
    } else if s.pending != [] {
      a := WriteLine;
      assert |Step(s, a).pending| < |s.pending|;
    } else if s.lagged {
      var order := Enumerate(s.table.Keys);
      assert CanSnapshot(s, order) by { assert forall i :: 0 <= i < |order| ==> order[i] in order; }
      a := Resnapshot(order);
      assert Step(s, a).looking.Some?;
    } else {
      a := Receive;
    }
  }

  predicate AllOwn(schedule: seq<Action>) { forall i :: 0 <= i < |schedule| ==> Own(schedule[i]) }

  // Every action of the schedule does something.
  predicate Busy(s: State, schedule: seq<Action>)
    decreases |schedule|
  {
    schedule == [] || (Step(s, schedule[0]) != s && Busy(Step(s, schedule[0]), schedule[1..]))
  }

  // So with the daemon quiet the subscriber cannot go on for more than `Behind`
  // steps, whichever it takes,
  lemma {:induction false} OwnRunsEnd(s: State, schedule: seq<Action>)
    requires Inv(s) && AllOwn(schedule) && Busy(s, schedule)
    ensures |schedule| <= Behind(s) - Behind(Run(s, schedule))
    decreases |schedule|
  {
    if schedule != [] {
      OwnStepProgress(s, schedule[0]);
      StepKeeps(s, schedule[0]);
      OwnRunsEnd(Step(s, schedule[0]), schedule[1..]);
    }
  }

  // and it can only stop caught up.
  lemma {:induction false} CatchesUp(s: State) returns (schedule: seq<Action>)
    requires Inv(s)
    ensures AllOwn(schedule) && Busy(s, schedule) && |schedule| <= Behind(s) && CaughtUp(Run(s, schedule))
    decreases Behind(s)
  {
    if CaughtUp(s) {
      schedule := [];
    } else {
      var a := OwnStepEnabled(s);
      OwnStepProgress(s, a);
      StepKeeps(s, a);
      var rest := CatchesUp(Step(s, a));
      schedule := [a] + rest;
      assert schedule[1..] == rest;
    }
  }
}
