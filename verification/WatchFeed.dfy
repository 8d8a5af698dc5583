/**
 Watching ptys: the bounded event broadcast of crates/muxd/src/manager.rs and
 the subscriber loop of crates/muxd/src/server.rs, which takes a fresh snapshot
 when it lags. Steps are table changes, state changes, emissions, receives and
 each line of a snapshot; a schedule interleaves them freely. A snapshot holds the
 table's lock, which emissions do not take. Opening a pty emits nothing. A step
 whose guard does not hold changes nothing.
 */
module WatchFeed {
  import opened Wrappers

  const EVENT_BACKLOG: nat := 256

  type Sid = nat
  type Name = string
  // What a watch line says about a pty: its agent, directory and exit flag.
  type Line = string

  datatype Event = Event(sid: Sid, name: Name, line: Line)

  // A line given to the client, and where it came from: the broadcast at an
  // index, or a snapshot taken when `at` events had been sent and the subscriber
  // had taken `cursor` of them, with the pty as it last emitted itself or not.
  datatype Source = FromEvent(index: nat) | FromSnapshot(at: nat, cursor: nat, settled: bool)
  datatype Record = Record(sid: Sid, name: Name, line: Line, source: Source)

  // `looking` are the names a snapshot in progress has yet to come to.
  datatype State = State(
    log: seq<Event>,
    table: map<Name, Sid>,
    names: map<Sid, Name>,
    now: map<Sid, Line>,
    last: map<Sid, Line>,
    base: nat,
    cursor: nat,
    lagged: bool,
    looking: Option<seq<Name>>,
    pending: seq<Record>,
    written: seq<Record>,
    seen: set<Sid>)

  datatype Action =
    | Insert(sid: Sid, name: Name, line: Line)
    | Remove(name: Name)
    | Change(sid: Sid, line: Line)
    | Emit(sid: Sid)
    | WriteLine
    | Receive
    | Resnapshot(order: seq<Name>)
    | Look

  // ------------------------------------------------------------------ steps

  // Emit only what differs from this pty's previous event.
  function EmitStep(s: State, sid: Sid): State {
    if sid !in s.now || sid !in s.names then s
    else if sid in s.last && s.last[sid] == s.now[sid] then s
    else s.(last := s.last[sid := s.now[sid]], log := s.log + [Event(sid, s.names[sid], s.now[sid])])
  }

  // The receiver's next event; one that fell out of the backlog is a lag.
  function ReceiveStep(s: State): State {
    if s.pending != [] || s.lagged || s.cursor >= |s.log| then s
    else if s.cursor + EVENT_BACKLOG < |s.log| then s.(cursor := |s.log| - EVENT_BACKLOG, lagged := true)
    else
      var e := s.log[s.cursor];
      s.(cursor := s.cursor + 1, pending := [Record(e.sid, e.name, e.line, FromEvent(s.cursor))])
  }

  predicate Enumerates(s: State, order: seq<Name>) {
    && (forall i, j :: 0 <= i < j < |order| ==> order[i] != order[j])
    && (forall i :: 0 <= i < |order| ==> order[i] in s.table)
    && (forall n :: n in s.table ==> n in order)
  }

  // The line a snapshot has for a pty in the table.
  function LineOf(s: State, n: Name): Record
    requires n in s.table && s.table[n] in s.now
  {
    var sid := s.table[n];
    Record(sid, n, s.now[sid], FromSnapshot(|s.log|, s.cursor, Settled(s, sid)))
  }

  // The pty is as it last emitted itself.
  predicate Settled(s: State, sid: Sid) {
    sid in s.now && sid in s.last && s.last[sid] == s.now[sid]
  }

  predicate CanSnapshot(s: State, order: seq<Name>) {
    s.lagged && s.looking.None? && s.pending == [] && Enumerates(s, order)
  }

  // The table's ptys are visited in whatever order the map gives them.
  function ResnapshotStep(s: State, order: seq<Name>): State {
    if CanSnapshot(s, order) then s.(looking := Some(order)) else s
  }

  predicate CanLook(s: State) {
    s.looking.Some? && |s.looking.value| > 0 && s.looking.value[0] in s.table && s.table[s.looking.value[0]] in s.now
  }

  // The next pty as it is now; past the last one the snapshot is complete.
  function LookStep(s: State): State {
    if s.looking == Some([]) then s.(looking := None, lagged := false)
    else if !CanLook(s) then s
    else
      var n := s.looking.value[0];
      s.(looking := Some(s.looking.value[1..]), pending := s.pending + [LineOf(s, n)], seen := s.seen + {s.table[n]})
  }

  function Step(s: State, a: Action): State {
    match a
    case Insert(sid, name, line) =>
      if sid in s.names || name in s.table || s.looking.Some? then s
      else s.(table := s.table[name := sid], names := s.names[sid := name], now := s.now[sid := line])
    case Remove(name) => if s.looking.Some? then s else s.(table := s.table - {name})
    case Change(sid, line) => if sid in s.now then s.(now := s.now[sid := line]) else s
    case Emit(sid) => EmitStep(s, sid)
    case WriteLine =>
      if s.pending == [] || s.looking.Some? then s else s.(written := s.written + [s.pending[0]], pending := s.pending[1..])
    case Receive => ReceiveStep(s)
    case Resnapshot(order) => ResnapshotStep(s, order)
    case Look => LookStep(s)
  }

  function Run(s: State, schedule: seq<Action>): State
    decreases |schedule|
  {
    if schedule == [] then s else Run(Step(s, schedule[0]), schedule[1..])
  }

  // A watch that just opened subscribes first and snapshots after, which is the
  // same position as one that has just lagged.
  function Subscribe(s: State): State {
    s.(base := |s.log|, cursor := |s.log|, lagged := true, looking := None, pending := [], written := [], seen := {})
  }

  // ------------------------------------------------------------- invariant

  // The index of a pty's last emitted event, or -1.
  function LastIndex(log: seq<Event>, sid: Sid): int {
    if log == [] then -1
    else if log[|log| - 1].sid == sid then |log| - 1
    else LastIndex(log[..|log| - 1], sid)
  }

  // The last index a different pty used this name in, or -1.
  function LastRival(log: seq<Event>, sid: Sid, name: Name): int {
    if log == [] then -1
    else if log[|log| - 1].name == name && log[|log| - 1].sid != sid then |log| - 1
    else LastRival(log[..|log| - 1], sid, name)
  }

  // The newest line the client has, or is about to get, for a pty; and the
  // newest it shows under a name.
  function NewestFor(records: seq<Record>, sid: Sid): Option<Record> {
    if records == [] then None
    else if records[|records| - 1].sid == sid then Some(records[|records| - 1])
    else NewestFor(records[..|records| - 1], sid)
  }

  function NewestNamed(records: seq<Record>, name: Name): Option<Record> {
    if records == [] then None
    else if records[|records| - 1].name == name then Some(records[|records| - 1])
    else NewestNamed(records[..|records| - 1], name)
  }

  // A record of the pty's last event, or of a snapshot taken after it.
  predicate UpToDate(s: State, sid: Sid, r: Option<Record>) {
    r.Some? && r.value.sid == sid &&
    match r.value.source
    case FromEvent(i) => i == LastIndex(s.log, sid)
    case FromSnapshot(at, _, _) => at > LastIndex(s.log, sid)
  }

  function Lines(s: State): seq<Record> { s.written + s.pending }

  predicate InTable(s: State, sid: Sid) {
    sid in s.names && s.names[sid] in s.table && s.table[s.names[sid]] == sid
  }

  // The ptys a subscriber must have a line for: in the table, and either in it
  // at some snapshot or with an event since the subscription.
  predicate Owed(s: State, sid: Sid) {
    InTable(s, sid) && (sid in s.seen || LastIndex(s.log, sid) >= s.base)
  }

  predicate SidOk(s: State, sid: Sid) {
    Owed(s, sid) ==>
      || s.lagged
      || LastIndex(s.log, sid) >= s.cursor
      || UpToDate(s, sid, NewestFor(Lines(s), sid))
  }

  predicate NameOk(s: State, sid: Sid) {
    Owed(s, sid) && LastRival(s.log, sid, s.names[sid]) <= LastIndex(s.log, sid) ==>
      || s.lagged
      || LastIndex(s.log, sid) >= s.cursor
      || UpToDate(s, sid, NewestNamed(Lines(s), s.names[sid]))
  }

  // A line from the broadcast says what the event at its index said.
  predicate Faithful(s: State, r: Record) {
    r.source.FromEvent? ==> r.source.index < |s.log| && s.log[r.source.index] == Event(r.sid, r.name, r.line)
  }

  // A snapshot in progress has a line for this name, no older than the
  // subscriber's position.
  predicate Shot(s: State, n: Name)
    requires n in s.table
  {
    var r := NewestFor(s.pending, s.table[n]);
    && r.Some? && NewestNamed(s.pending, n) == r && r.value.sid == s.table[n] && r.value.name == n
    && r.value.source.FromSnapshot? && r.value.source.at >= s.cursor && r.value.source.cursor == s.cursor
  }

  predicate Looking(s: State, rest: seq<Name>) {
    && s.lagged && |s.pending| + |rest| == |s.table|
    && (forall i :: 0 <= i < |rest| ==> rest[i] in s.table)
    && (forall n :: n in s.table ==> n in rest || Shot(s, n))
  }

  ghost predicate Inv(s: State) {
    && (s.looking.Some? ==> Looking(s, s.looking.value))
    && s.base <= s.cursor <= |s.log|
    && s.seen <= s.names.Keys
    && (forall i :: 0 <= i < |Lines(s)| ==> Faithful(s, Lines(s)[i]))
    && (forall n :: n in s.table ==>
          s.table[n] in s.names && s.table[n] in s.now && s.names[s.table[n]] == n)
    && (forall i :: 0 <= i < |s.log| ==> s.log[i].sid in s.names && s.log[i].name == s.names[s.log[i].sid])
    && (forall sid :: sid in s.names ==> SidOk(s, sid) && NameOk(s, sid))
  }

  lemma {:induction false} LastIndexRange(log: seq<Event>, sid: Sid)
    ensures -1 <= LastIndex(log, sid) < |log|
    ensures LastIndex(log, sid) >= 0 ==> log[LastIndex(log, sid)].sid == sid
    ensures forall i :: 0 <= i < |log| && log[i].sid == sid ==> i <= LastIndex(log, sid)
  {
    if log != [] { LastIndexRange(log[..|log| - 1], sid); }
  }

  lemma {:induction false} LastRivalRange(log: seq<Event>, sid: Sid, name: Name)
    ensures -1 <= LastRival(log, sid, name) < |log|
    ensures forall i :: 0 <= i < |log| && log[i].name == name && log[i].sid != sid ==> i <= LastRival(log, sid, name)
  {
    if log != [] { LastRivalRange(log[..|log| - 1], sid, name); }
  }

  lemma NewestAppend(records: seq<Record>, r: Record, sid: Sid, name: Name)
    ensures NewestFor(records + [r], sid) == if r.sid == sid then Some(r) else NewestFor(records, sid)
    ensures NewestNamed(records + [r], name) == if r.name == name then Some(r) else NewestNamed(records, name)
  {
    assert (records + [r])[..|records|] == records;
  }

  lemma EmitKeeps(s: State, sid: Sid)
    requires Inv(s)
    ensures Inv(EmitStep(s, sid))
  {
    var s' := EmitStep(s, sid);
    if s' != s {
      var e := s'.log[|s.log|];
      assert s'.log[..|s.log|] == s.log;
      assert Lines(s') == Lines(s);
      forall i | 0 <= i < |Lines(s')| ensures Faithful(s', Lines(s')[i]) { assert Faithful(s, Lines(s)[i]); }
      if s.looking.Some? { SameLooking(s, s'); }
      forall k | k in s'.names ensures SidOk(s', k) && NameOk(s', k) {
        assert SidOk(s, k) && NameOk(s, k);
        LastIndexRange(s.log, k);
        LastRivalRange(s.log, k, s.names[k]);
        assert LastIndex(s'.log, k) == if k == sid then |s.log| else LastIndex(s.log, k);
        if k != sid && InTable(s', k) && s'.names[k] == e.name {
          assert LastRival(s'.log, k, s'.names[k]) == |s.log|;
        }
      }
    }
  }

  lemma ReceiveEventKeeps(s: State, k: Sid)
    requires Inv(s) && k in s.names && s.pending == [] && !s.lagged
    requires s.cursor < |s.log| <= s.cursor + EVENT_BACKLOG
    ensures SidOk(ReceiveStep(s), k) && NameOk(ReceiveStep(s), k)
  {
    var s' := ReceiveStep(s);
    var r := s'.pending[0];
    assert Lines(s) == s.written && Lines(s') == s.written + [r];
    assert SidOk(s, k) && NameOk(s, k);
    NewestAppend(s.written, r, k, s.names[k]);
    LastIndexRange(s.log, k);
    LastRivalRange(s.log, k, s.names[k]);
  }

  lemma ReceiveKeeps(s: State)
    requires Inv(s)
    ensures Inv(ReceiveStep(s))
  {
    var s' := ReceiveStep(s);
    if s' != s {
      assert Lines(s) == s.written;
      forall i | 0 <= i < |Lines(s')| ensures Faithful(s', Lines(s')[i]) {
        if i < |s.written| { assert Faithful(s, Lines(s)[i]); }
      }
      forall k | k in s'.names ensures SidOk(s', k) && NameOk(s', k) {
        if !s'.lagged { ReceiveEventKeeps(s, k); }
      }
    }
  }

  // What the snapshot has so far depends on its own lines and the table alone.
  lemma SameLooking(s: State, s': State)
    requires s.looking.Some? && Looking(s, s.looking.value)
    requires s'.lagged && s'.table == s.table && s'.pending == s.pending && s'.cursor == s.cursor
    ensures Looking(s', s.looking.value)
  {
    forall n | n in s'.table ensures n in s.looking.value || Shot(s', n) { assert n in s.looking.value || Shot(s, n); }
  }

  lemma {:induction false} NewestConcat(a: seq<Record>, b: seq<Record>, sid: Sid, name: Name)
    ensures NewestFor(b, sid).Some? ==> NewestFor(a + b, sid) == NewestFor(b, sid)
    ensures NewestNamed(b, name).Some? ==> NewestNamed(a + b, name) == NewestNamed(b, name)
  {
    if b != [] {
      var k := |b| - 1;
      NewestConcat(a, b[..k], sid, name);
      assert a + b == (a + b[..k]) + [b[k]];
      assert b == b[..k] + [b[k]];
      NewestAppend(a + b[..k], b[k], sid, name);
    }
  }

  lemma {:induction false} DistinctCount(order: seq<Name>, names: set<Name>)
    requires forall i, j :: 0 <= i < j < |order| ==> order[i] != order[j]
    requires forall n :: n in names <==> n in order
    ensures |order| == |names|
  {
    if order == [] {
      assert names == {};
    } else {
      var k := |order| - 1;
      assert forall n :: n in names - {order[k]} <==> n in order[..k];
      DistinctCount(order[..k], names - {order[k]});
    }
  }

  lemma EnumeratesAll(s: State, order: seq<Name>)
    requires Enumerates(s, order)
    ensures |order| == |s.table|
  {
    assert forall n :: n in s.table.Keys <==> n in order;
    DistinctCount(order, s.table.Keys);
  }

  lemma ResnapshotKeeps(s: State, order: seq<Name>)
    requires Inv(s)
    ensures Inv(ResnapshotStep(s, order))
  {
    var s' := ResnapshotStep(s, order);
    if CanSnapshot(s, order) {
      EnumeratesAll(s, order);
      assert Lines(s') == Lines(s);
      forall i | 0 <= i < |Lines(s')| ensures Faithful(s', Lines(s')[i]) { assert Faithful(s, Lines(s)[i]); }
      forall k | k in s'.names ensures SidOk(s', k) && NameOk(s', k) {}
    }
  }

  // Each look adds one line, and no other pty's.
  lemma LookShot(s: State, n: Name)
    requires Inv(s) && CanLook(s) && n in s.table && (n == s.looking.value[0] || Shot(s, n))
    ensures Shot(LookStep(s), n)
  {
    NewestAppend(s.pending, LineOf(s, s.looking.value[0]), s.table[n], n);
  }

  lemma LookLooking(s: State)
    requires Inv(s) && CanLook(s)
    ensures Looking(LookStep(s), s.looking.value[1..])
  {
    var rest := s.looking.value[1..];
    forall n | n in s.table ensures n in rest || Shot(LookStep(s), n) {
      if n !in rest {
        assert s.looking.value == [s.looking.value[0]] + rest;
        LookShot(s, n);
      }
    }
  }

  lemma LookLines(s: State)
    requires Inv(s) && CanLook(s)
    ensures forall i :: 0 <= i < |Lines(LookStep(s))| ==> Faithful(LookStep(s), Lines(LookStep(s))[i])
  {
    var s' := LookStep(s);
    forall i | 0 <= i < |Lines(s')| ensures Faithful(s', Lines(s')[i]) {
      if i < |Lines(s)| {
        assert Lines(s')[i] == Lines(s)[i];
      } else {
        assert Lines(s')[i] == LineOf(s, s.looking.value[0]);
      }
    }
  }

  // A complete snapshot has what every pty in the table is owed.
  lemma CompleteKeeps(s: State)
    requires Inv(s) && s.looking == Some([])
    ensures Inv(LookStep(s))
  {
    var s' := LookStep(s);
    assert Lines(s') == Lines(s);
    forall i | 0 <= i < |Lines(s')| ensures Faithful(s', Lines(s')[i]) { assert Faithful(s, Lines(s)[i]); }
    forall k | k in s'.names ensures SidOk(s', k) && NameOk(s', k) {
      if InTable(s', k) {
        assert Shot(s, s.names[k]);
        NewestConcat(s'.written, s'.pending, k, s.names[k]);
      }
    }
  }

  lemma LookKeeps(s: State)
    requires Inv(s)
    ensures Inv(LookStep(s))
  {
    if s.looking == Some([]) {
      CompleteKeeps(s);
    } else if CanLook(s) {
      LookLooking(s);
      LookLines(s);
      forall k | k in s.names ensures SidOk(LookStep(s), k) && NameOk(LookStep(s), k) {}
    }
  }

  lemma WriteLineKeeps(s: State)
    requires Inv(s)
    ensures Inv(Step(s, WriteLine))
  {
    var s' := Step(s, WriteLine);
    if s' != s {
      assert s.pending == [s.pending[0]] + s.pending[1..];
    }
    assert Lines(s') == Lines(s);
    forall i | 0 <= i < |Lines(s')| ensures Faithful(s', Lines(s')[i]) { assert Faithful(s, Lines(s)[i]); }
    forall k | k in s'.names ensures SidOk(s', k) && NameOk(s', k) { assert SidOk(s, k) && NameOk(s, k); }
  }

  // Table and state changes touch nothing the subscriber has or has yet to take.
  lemma OtherFrame(s: State, a: Action)
    requires a.Insert? || a.Remove? || a.Change?
    ensures var s' := Step(s, a);
      && s'.written == s.written && s'.pending == s.pending && s'.log == s.log && s'.last == s.last
      && s'.base == s.base && s'.cursor == s.cursor && s'.lagged == s.lagged && s'.seen == s.seen
      && s'.looking == s.looking && (s.looking.Some? ==> s'.table == s.table)
      && (forall k :: k in s.names ==> k in s'.names && s'.names[k] == s.names[k])
      && (forall k :: k in s.names && InTable(s', k) ==> InTable(s, k))
  {
  }

  lemma OtherKeepsTable(s: State, a: Action)
    requires Inv(s) && (a.Insert? || a.Remove? || a.Change?)
    ensures var s' := Step(s, a);
      && s'.seen <= s'.names.Keys
      && (forall n :: n in s'.table ==>
            s'.table[n] in s'.names && s'.table[n] in s'.now && s'.names[s'.table[n]] == n)
      && (forall i :: 0 <= i < |s'.log| ==> s'.log[i].sid in s'.names && s'.log[i].name == s'.names[s'.log[i].sid])
  {
  }

  lemma OtherKeepsSid(s: State, s': State, k: Sid)
    requires k in s.names && k in s'.names && SidOk(s, k) && NameOk(s, k)
    requires s'.written == s.written && s'.pending == s.pending && s'.log == s.log
    requires s'.base == s.base && s'.cursor == s.cursor && s'.lagged == s.lagged && s'.seen == s.seen
    requires s'.names[k] == s.names[k] && (InTable(s', k) ==> InTable(s, k))
    ensures SidOk(s', k) && NameOk(s', k)
  {
    assert Lines(s') == Lines(s);
  }

  lemma OtherKeeps(s: State, a: Action)
    requires Inv(s) && (a.Insert? || a.Remove? || a.Change?)
    ensures Inv(Step(s, a))
  {
    var s' := Step(s, a);
    OtherFrame(s, a);
    OtherKeepsTable(s, a);
    if s.looking.Some? { SameLooking(s, s'); }
    forall i | 0 <= i < |Lines(s')| ensures Faithful(s', Lines(s')[i]) { assert Faithful(s, Lines(s)[i]); }
    forall k | k in s'.names ensures SidOk(s', k) && NameOk(s', k) {
      if k in s.names {
        OtherKeepsSid(s, s', k);
      } else {
        NoEvents(s, k);
      }
    }
  }

  lemma NoEvents(s: State, k: Sid)
    requires Inv(s) && k !in s.names
    ensures LastIndex(s.log, k) == -1
  {
    LastIndexRange(s.log, k);
  }

  lemma StepKeeps(s: State, a: Action)
    requires Inv(s)
    ensures Inv(Step(s, a))
  {
    match a
    case Emit(sid) => EmitKeeps(s, sid);
    case Receive => ReceiveKeeps(s);
    case Resnapshot(order) => ResnapshotKeeps(s, order);
    case Look => LookKeeps(s);
    case WriteLine => WriteLineKeeps(s);
    case _ => OtherKeeps(s, a);
  }

  lemma {:induction false} RunKeeps(s: State, schedule: seq<Action>)
    requires Inv(s)
    ensures Inv(Run(s, schedule))
    decreases |schedule|
  {
    if schedule != [] {
      StepKeeps(s, schedule[0]);
      RunKeeps(Step(s, schedule[0]), schedule[1..]);
    }
  }

  // -------------------------------------------------------------- theorems

  function Start(): State { State([], map[], map[], map[], map[], 0, 0, true, None, [], [], {}) }

  // A daemon that ran for a while, a watch opened on it, and everything since.
  function Watched(before: seq<Action>, after: seq<Action>): State {
    Run(Subscribe(Run(Start(), before)), after)
  }

  lemma WatchedKeeps(before: seq<Action>, after: seq<Action>)
    ensures Inv(Watched(before, after))
  {
    RunKeeps(Start(), before);
    var s0 := Run(Start(), before);
    forall k | k in s0.names ensures SidOk(Subscribe(s0), k) && NameOk(Subscribe(s0), k) {}
    RunKeeps(Subscribe(s0), after);
  }

  // A complete snapshot, whatever the map's order and however many emissions and
  // changes fell between its lines, has one line for each pty in the table, under
  // its own name, and none from before the subscriber's position.
  lemma SnapshotHas(before: seq<Action>, after: seq<Action>)
    ensures var s := Watched(before, after);
      s.looking == Some([]) ==> |s.pending| == |s.table| && forall n :: n in s.table ==> Shot(s, n)
  {
    WatchedKeeps(before, after);
  }

  predicate CaughtUp(s: State) { !s.lagged && s.pending == [] && s.cursor == |s.log| }

  // However far it lagged behind the backlog, a subscriber that has caught up
  // holds, for every pty still in the table that it was ever shown or that has
  // emitted since, a line that is that pty's last event or a snapshot taken
  // after it; and under the pty's name that line is the newest it shows, unless
  // another pty used the name later than this one's last event.
  lemma WatchConverges(before: seq<Action>, after: seq<Action>, sid: Sid)
    ensures var s := Watched(before, after);
      CaughtUp(s) && Owed(s, sid) ==>
        && UpToDate(s, sid, NewestFor(s.written, sid))
        && Faithful(s, NewestFor(s.written, sid).value)
        && (LastRival(s.log, sid, s.names[sid]) <= LastIndex(s.log, sid) ==>
              UpToDate(s, sid, NewestNamed(s.written, s.names[sid])))
  {
    WatchedKeeps(before, after);
    var s := Watched(before, after);
    if CaughtUp(s) && Owed(s, sid) {
      assert Lines(s) == s.written;
      assert SidOk(s, sid) && NameOk(s, sid);
      LastIndexRange(s.log, sid);
      var i := NewestIsHeld(s.written, sid);
      assert Faithful(s, Lines(s)[i]);
    }
  }

  lemma {:induction false} NewestIsHeld(records: seq<Record>, sid: Sid) returns (i: nat)
    requires NewestFor(records, sid).Some?
    ensures i < |records| && NewestFor(records, sid) == Some(records[i])
  {
    var k := |records| - 1;
    if records[k].sid == sid { i := k; } else { i := NewestIsHeld(records[..k], sid); }
  }

  // ---------------------------------------------------- where the claim ends

  lemma RunCons(s: State, a: Action, rest: seq<Action>)
    ensures Run(s, [a] + rest) == Run(Step(s, a), rest)
  {
    assert ([a] + rest)[0] == a && ([a] + rest)[1..] == rest;
  }

  lemma RunTwo(s: State, a: Action, b: Action)
    ensures Run(s, [a, b]) == Step(Step(s, a), b)
  {
    assert [a, b] == [a] + [b] && [b] == [b] + [];
    RunCons(s, a, [b]);
    RunCons(Step(s, a), b, []);
  }

  lemma RunThree(s: State, a: Action, b: Action, c: Action)
    ensures Run(s, [a, b, c]) == Step(Step(Step(s, a), b), c)
  {
    assert [a, b, c] == [a] + [b, c];
    RunCons(s, a, [b, c]);
    RunTwo(Step(s, a), b, c);
  }

  lemma RunFour(s: State, a: Action, b: Action, c: Action, d: Action)
    ensures Run(s, [a, b, c, d]) == Step(Step(Step(Step(s, a), b), c), d)
  {
    assert [a, b, c, d] == [a] + [b, c, d];
    RunCons(s, a, [b, c, d]);
    RunThree(Step(s, a), b, c, d);
  }

  lemma {:induction false} RunConcat(s: State, a: seq<Action>, b: seq<Action>)
    ensures Run(s, a + b) == Run(Run(s, a), b)
    decreases |a|
  {
    if a == [] {
      assert a + b == b;
    } else {
      assert (a + b)[1..] == a[1..] + b;
      RunConcat(Step(s, a[0]), a[1..], b);
    }
  }

  // One pty, and a snapshot of it that a state was caught in.
  const EMITTED: State := State(
    [Event(0, "a", "A")], map["a" := 0], map[0 := "a"], map[0 := "A"], map[0 := "A"], 1, 1, true, None, [], [], {})
  const PASSING := Record(0, "a", "B", FromSnapshot(1, 1, false))
  const CAUGHT: State := EMITTED.(now := map[0 := "B"], looking := Some([]), pending := [PASSING], seen := {0})

  lemma Emitted()
    ensures Subscribe(Run(Start(), [Insert(0, "a", "A"), Emit(0)])) == EMITTED
  {
    RunTwo(Start(), Insert(0, "a", "A"), Emit(0));
  }

  lemma Caught()
    ensures Run(EMITTED, [Change(0, "B"), Resnapshot(["a"]), Look]) == CAUGHT
  {
    RunThree(EMITTED, Change(0, "B"), Resnapshot(["a"]), Look);
    var s := EMITTED.(now := map[0 := "B"]);
    assert Step(EMITTED, Change(0, "B")) == s;
    assert Step(s, Resnapshot(["a"])) == s.(looking := Some(["a"]));
    assert ["a"][1..] == [];
  }

  // The promise is about lines, not about the present: a snapshot that catches a
  // passing state is never corrected if the pty returns to the state it last
  // emitted, because that emission is suppressed as a repeat.
  lemma PassingStateIsNeverCorrected() returns (before: seq<Action>, after: seq<Action>)
    ensures var s := Watched(before, after);
      && CaughtUp(s) && InTable(s, 0) && 0 in s.now && 0 in s.last
      && s.last[0] == s.now[0]
      && NewestFor(s.written, 0).Some? && NewestFor(s.written, 0).value.line != s.now[0]
  {
    before := [Insert(0, "a", "A"), Emit(0)];
    var caught := [Change(0, "B"), Resnapshot(["a"]), Look];
    after := caught + [Look, WriteLine, Change(0, "A")];
    Emitted();
    RunConcat(EMITTED, caught, [Look, WriteLine, Change(0, "A")]);
    Caught();
    RunThree(CAUGHT, Look, WriteLine, Change(0, "A"));
    assert Watched(before, after) == EMITTED.(lagged := false, written := [PASSING], seen := {0});
    assert NewestFor([PASSING], 0) == Some(PASSING);
  }

  // Opening a pty emits nothing: one opened after the snapshot that stays silent
  // has no line.
  lemma SilentPtyHasNoLine() returns (before: seq<Action>, after: seq<Action>)
    ensures var s := Watched(before, after);
      CaughtUp(s) && InTable(s, 7) && NewestFor(s.written, 7) == None
  {
    before := [];
    after := [Resnapshot([]), Look, Insert(7, "a", "A")];
    RunThree(Start(), Resnapshot([]), Look, Insert(7, "a", "A"));
    assert Step(Start(), Resnapshot([])) == Start().(looking := Some([]));
  }

  const REUSED: State := State(
    [], map["a" := 1], map[0 := "a", 1 := "a"], map[0 := "exited", 1 := "N"], map[], 0, 0, true, None, [], [], {})
  const LIVE := Record(1, "a", "N", FromSnapshot(0, 0, false))
  const STALE := Record(0, "a", "exited", FromEvent(0))
  const SHOWN: State := REUSED.(lagged := false, seen := {1}, pending := [LIVE])
  const FOOLED: State := SHOWN.(
    last := map[0 := "exited"], log := [Event(0, "a", "exited")], cursor := 1, pending := [], written := [LIVE, STALE])

  // The name is reopened while the killed pty has yet to emit its exit.
  lemma ReusedName() returns (before: seq<Action>)
    ensures Subscribe(Run(Start(), before)) == REUSED
  {
    before := [Insert(0, "a", "A"), Remove("a"), Insert(1, "a", "N"), Change(0, "exited")];
    RunFour(Start(), Insert(0, "a", "A"), Remove("a"), Insert(1, "a", "N"), Change(0, "exited"));
  }

  lemma LiveShown()
    ensures Run(REUSED, [Resnapshot(["a"]), Look, Look]) == SHOWN
  {
    RunThree(REUSED, Resnapshot(["a"]), Look, Look);
    assert Step(REUSED, Resnapshot(["a"])) == REUSED.(looking := Some(["a"]));
    assert ["a"][1..] == [];
  }

  const LATE: State := SHOWN.(
    pending := [], written := [LIVE], last := map[0 := "exited"], log := [Event(0, "a", "exited")])

  lemma ExitEmitted()
    ensures Step(Step(SHOWN, WriteLine), Emit(0)) == LATE
  {
    assert Step(SHOWN, WriteLine) == SHOWN.(pending := [], written := [LIVE]);
  }

  lemma StaleReceived()
    ensures Run(SHOWN, [WriteLine, Emit(0), Receive, WriteLine]) == FOOLED
  {
    RunFour(SHOWN, WriteLine, Emit(0), Receive, WriteLine);
    ExitEmitted();
    ExitReceived();
  }

  lemma ExitReceived()
    ensures Step(Step(LATE, Receive), WriteLine) == FOOLED
  {
    assert Step(LATE, Receive) == LATE.(cursor := 1, pending := [STALE]);
  }

  // Lines carry a name and no generation: the exit of a killed pty, emitted after
  // its name was reopened, is the newest line under the name the live pty has.
  lemma RivalTakesTheName() returns (before: seq<Action>, after: seq<Action>)
    ensures var s := Watched(before, after);
      && CaughtUp(s) && Owed(s, 1)
      && NewestNamed(s.written, s.names[1]).Some?
      && NewestNamed(s.written, s.names[1]).value.sid != 1
  {
    before := ReusedName();
    after := [Resnapshot(["a"]), Look, Look] + [WriteLine, Emit(0), Receive, WriteLine];
    RunConcat(REUSED, [Resnapshot(["a"]), Look, Look], [WriteLine, Emit(0), Receive, WriteLine]);
    LiveShown();
    StaleReceived();
    assert NewestNamed([LIVE, STALE], "a") == Some(STALE);
  }

  // ----------------------------------------------------------------- object

  // The subscriber's loop: write out what it holds, then take the next event or,
  // having fallen behind, look at every pty again.
  class Subscriber {
    var cursor: nat
    var lagged: bool
    var looking: Option<seq<Name>>
    var snapshot: seq<Record>
    var written: seq<Record>
    var seen: set<Sid>

    // The daemon's side as it is, and this subscriber's own position in it.
    function View(daemon: State): State
      reads this
    {
      daemon.(cursor := cursor, lagged := lagged, looking := looking, pending := snapshot, written := written, seen := seen)
    }

    constructor (daemon: State)
      ensures View(daemon.(base := |daemon.log|)) == Subscribe(daemon)
    {
      cursor, lagged, looking, snapshot, written, seen := |daemon.log|, true, None, [], [], {};
    }

    method WriteOne(daemon: State)
      modifies this`snapshot, this`written
      ensures View(daemon) == Step(old(View(daemon)), WriteLine)
    {
      if snapshot != [] && looking.None? { written, snapshot := written + [snapshot[0]], snapshot[1..]; }
    }

    // Write every line held, in order.
    method Drain(daemon: State)
      requires looking.None?
      modifies this`snapshot, this`written
      ensures snapshot == [] && written == old(written) + old(snapshot)
    {
      while snapshot != []
        invariant written + snapshot == old(written) + old(snapshot)
        decreases |snapshot|
      {
        assert snapshot == [snapshot[0]] + snapshot[1..];
        WriteOne(daemon);
      }
    }

    method Next(daemon: State)
      modifies this
      ensures View(daemon) == ReceiveStep(old(View(daemon)))
    {
      if snapshot == [] && !lagged && cursor < |daemon.log| {
        if cursor + EVENT_BACKLOG < |daemon.log| {
          cursor, lagged := |daemon.log| - EVENT_BACKLOG, true;
        } else {
          var e := daemon.log[cursor];
          snapshot := [Record(e.sid, e.name, e.line, FromEvent(cursor))];
          cursor := cursor + 1;
        }
      }
    }

    // Having lagged, take the table's lock and the names in it.
    method Refill(daemon: State, order: seq<Name>)
      requires CanSnapshot(View(daemon), order)
      modifies this`looking
      ensures View(daemon) == ResnapshotStep(old(View(daemon)), order)
    {
      looking := Some(order);
    }

    // Read one pty after the other; emissions go on in between.
    method LookOnce(daemon: State)
      modifies this
      ensures View(daemon) == LookStep(old(View(daemon)))
    {
      if looking == Some([]) {
        looking, lagged := None, false;
      } else if looking.Some? && looking.value[0] in daemon.table && daemon.table[looking.value[0]] in daemon.now {
        var n := looking.value[0];
        var sid := daemon.table[n];
        var settled := sid in daemon.last && daemon.last[sid] == daemon.now[sid];
        snapshot := snapshot + [Record(sid, n, daemon.now[sid], FromSnapshot(|daemon.log|, cursor, settled))];
        looking, seen := Some(looking.value[1..]), seen + {sid};
      }
    }

    // Any interleaving of the subscriber with the daemon is a run of the machine.
    method Drive(daemon: State, schedule: seq<Action>) returns (after: State)
      modifies this
      ensures View(after) == Run(old(View(daemon)), schedule)
    {
      after := daemon;
      var i := 0;
      while i < |schedule|
        invariant 0 <= i <= |schedule|
        invariant Run(View(after), schedule[i..]) == Run(old(View(daemon)), schedule)
      {
        ghost var s := View(after);
        match schedule[i] {
          case WriteLine => WriteOne(after);
          case Receive => Next(after);
          case Look => LookOnce(after);
          case Resnapshot(order) => if CanSnapshot(View(after), order) { Refill(after, order); }
          case a =>
            DaemonStep(View(after), a);
            after := Step(View(after), a);
        }
        assert View(after) == Step(s, schedule[i]);
        assert schedule[i..][0] == schedule[i] && schedule[i..][1..] == schedule[i + 1..];
        i := i + 1;
      }
    }
  }

  // The daemon's own steps leave the subscriber where it is.
  lemma DaemonStep(s: State, a: Action)
    requires a.Insert? || a.Remove? || a.Change? || a.Emit?
    ensures var s' := Step(s, a);
      && s'.cursor == s.cursor && s'.lagged == s.lagged && s'.looking == s.looking
      && s'.pending == s.pending && s'.written == s.written && s'.seen == s.seen
  {
  }
}
