/**
 The daemon's pty table and the close lease of crates/muxd/src/manager.rs.
 A step is one region held under the table lock, one read that open_existing
 makes outside it, one timer, one child event or one tick of the clock; a
 schedule is any interleaving. A step whose guard does not hold changes nothing.
 A session's random generation is modelled as its identity.
 */
module PtyTable {
  import opened Wrappers
  import opened LittleEndian

  const MAX_PTYS: nat := 256

  type Name = string
  type Sid = nat

  datatype Child = Alive | Dead

  // The read loop's progress: never started because the open failed after the
  // fork, reading, waiting for the child after the end of the stream, exit
  // recorded, and done with the table.
  datatype Stage = Unstarted | Serving | Waiting | Recorded | Gone

  datatype Session = Session(
    name: Name, child: Child, adopted: bool, exited: bool, deadline: Option<nat>, stage: Stage)

  datatype Timer = Timer(name: Name, gen: Sid, deadline: nat)

  // open_existing between its separate reads.
  datatype Lookup = Lookup(sid: Sid, seenLive: bool)

  // `builds` is whether its descriptor and terminal could be set up.
  datatype Incoming = Incoming(name: Name, deadline: Option<nat>, gen: Sid, builds: bool)

  datatype Spawn = Spawned | NoChild | FailedAfterFork

  datatype State = State(
    now: nat,
    table: map<Name, Sid>,
    sessions: map<Sid, Session>,
    timers: multiset<Timer>,
    doomed: set<Sid>,
    arming: set<Sid>,
    lookups: map<nat, Lookup>)

  datatype Action =
    | Tick(ms: nat)
    | Open(name: Name, gen: Sid, spawn: Spawn)
    | GetExisting(req: nat, name: Name)
    | CheckExited(req: nat)
    | CheckDeadline(req: nat)
    | Kill(name: Name)
    | FinishKill(sid: Sid)
    | Close(name: Name, retention: nat)
    | Reopen(name: Name)
    | Fire(timer: Timer)
    | ChildDies(sid: Sid)
    | EndOfStream(sid: Sid)
    | Reap(sid: Sid)
    | Unlink(sid: Sid)
    | Adopt(incoming: seq<Incoming>)
    | Arm(sid: Sid)

  datatype Reply =
    | Nothing
    | Refused
    | Returned(sid: Sid, created: bool)
    | Closing(sid: Sid, expires: nat)

  // ------------------------------------------------------------------ steps

  // The one insertion path, under the caller's guard.
  function InsertLocked(table: map<Name, Sid>, name: Name, sid: Sid): Option<map<Name, Sid>> {
    if name in table || |table| >= MAX_PTYS then None else Some(table[name := sid])
  }

  function Fresh(name: Name, adopted: bool, deadline: Option<nat>): Session {
    Session(name, Alive, adopted, false, deadline, Serving)
  }

  function OpenStep(s: State, name: Name, gen: Sid, spawn: Spawn): (State, Reply) {
    if name in s.table then
      var sid := s.table[name];
      if sid in s.sessions && s.sessions[sid].deadline.Some? then (s, Refused) else (s, Returned(sid, false))
    else if |s.table| >= MAX_PTYS then (s, Refused)
    else if gen in s.sessions then (s, Nothing)
    else match spawn
      case NoChild => (s, Refused)
      case FailedAfterFork =>
        (s.(sessions := s.sessions[gen := Session(name, Alive, false, false, None, Unstarted)]), Refused)
      case Spawned =>
        var inserted := InsertLocked(s.table, name, gen);
        if inserted.None? then (s, Refused) else
          (s.(table := inserted.value, sessions := s.sessions[gen := Fresh(name, false, None)]),
           Returned(gen, true))
  }

  function GetExistingStep(s: State, req: nat, name: Name): (State, Reply) {
    if req in s.lookups then (s, Nothing)
    else if name !in s.table then (s, Refused)
    else (s.(lookups := s.lookups[req := Lookup(s.table[name], false)]), Nothing)
  }

  function CheckExitedStep(s: State, req: nat): (State, Reply) {
    if req !in s.lookups || s.lookups[req].seenLive || s.lookups[req].sid !in s.sessions then (s, Nothing)
    else if s.sessions[s.lookups[req].sid].exited then (s.(lookups := s.lookups - {req}), Refused)
    else (s.(lookups := s.lookups[req := s.lookups[req].(seenLive := true)]), Nothing)
  }

  function CheckDeadlineStep(s: State, req: nat): (State, Reply) {
    if req !in s.lookups || !s.lookups[req].seenLive || s.lookups[req].sid !in s.sessions then (s, Nothing)
    else
      var sid := s.lookups[req].sid;
      (s.(lookups := s.lookups - {req}),
       if s.sessions[sid].deadline.Some? then Refused else Returned(sid, false))
  }

  // Out of the table at once; the rest of the kill follows outside the lock.
  function Evict(s: State, name: Name): State
    requires name in s.table
  {
    s.(table := s.table - {name}, doomed := s.doomed + {s.table[name]})
  }

  function FinishKillStep(s: State, sid: Sid): State {
    if sid in s.doomed && sid in s.sessions then
      s.(doomed := s.doomed - {sid},
         sessions := s.sessions[sid := s.sessions[sid].(child := Dead, exited := true)])
    else s
  }

  function SaturatingAdd(a: nat, b: nat): nat { if a + b < U64_LIMIT then a + b else U64_LIMIT - 1 }

  // A close arms the lease once; a retry finds it armed and keeps it.
  function CloseStep(s: State, name: Name, retention: nat): (State, Reply) {
    if name !in s.table || s.table[name] !in s.sessions then (s, Refused) else
      var sid := s.table[name];
      var expires :=
        if s.sessions[sid].deadline.Some? then s.sessions[sid].deadline.value
        else SaturatingAdd(s.now, retention);
      (s.(sessions := s.sessions[sid := s.sessions[sid].(deadline := Some(expires))],
          timers := s.timers + multiset{Timer(name, sid, expires)}),
       Closing(sid, expires))
  }

  predicate Passed(deadline: Option<nat>, now: nat) { deadline.Some? && deadline.value <= now }

  function ReopenStep(s: State, name: Name): (State, Reply) {
    if name !in s.table || s.table[name] !in s.sessions then (s, Refused) else
      var sid := s.table[name];
      if Passed(s.sessions[sid].deadline, s.now) then (s, Refused)
      else (s.(sessions := s.sessions[sid := s.sessions[sid].(deadline := None)]), Returned(sid, false))
  }

  predicate Expires(s: State, t: Timer) {
    && t.name in s.table && s.table[t.name] == t.gen
    && t.gen in s.sessions && s.sessions[t.gen].deadline == Some(t.deadline)
  }

  function FireStep(s: State, t: Timer): State {
    if t in s.timers && t.deadline <= s.now then
      var s1 := s.(timers := s.timers - multiset{t});
      if Expires(s, t) then Evict(s1, t.name) else s1
    else s
  }

  function WithChild(s: State, sid: Sid, session: Session): State {
    s.(sessions := s.sessions[sid := session])
  }

  function EndOfStreamStep(s: State, sid: Sid): State {
    if sid in s.sessions && s.sessions[sid].stage.Serving?
    then WithChild(s, sid, s.sessions[sid].(stage := Waiting)) else s
  }

  // Our own child has been waited for, killed first if it had to be; an adopted
  // one may outlive the wait.
  function ReapStep(s: State, sid: Sid): State {
    if sid in s.sessions && s.sessions[sid].stage.Waiting? then
      var x := s.sessions[sid];
      WithChild(s, sid, x.(stage := Recorded, exited := true, child := if x.adopted then x.child else Dead))
    else s
  }

  // Drop the pty from the table, but only if the entry is still this session.
  function UnlinkStep(s: State, sid: Sid): State {
    if sid in s.sessions && s.sessions[sid].stage.Recorded? then
      var x := s.sessions[sid];
      var s1 := WithChild(s, sid, x.(stage := Gone));
      if x.name in s.table && s.table[x.name] == sid then s1.(table := s.table - {x.name}) else s1
    else s
  }

  function StagedTable(incoming: seq<Incoming>): map<Name, Sid> {
    if incoming == [] then map[] else
      var last := incoming[|incoming| - 1];
      StagedTable(incoming[..|incoming| - 1])[last.name := last.gen]
  }

  function StagedSessions(incoming: seq<Incoming>): map<Sid, Session> {
    if incoming == [] then map[] else
      var last := incoming[|incoming| - 1];
      StagedSessions(incoming[..|incoming| - 1])[last.gen := Fresh(last.name, true, last.deadline)]
  }

  predicate DistinctNames(incoming: seq<Incoming>) {
    forall i, j :: 0 <= i < j < |incoming| ==> incoming[i].name != incoming[j].name
  }

  predicate FreshGenerations(s: State, incoming: seq<Incoming>) {
    && (forall i :: 0 <= i < |incoming| ==> incoming[i].gen !in s.sessions)
    && (forall i, j :: 0 <= i < j < |incoming| ==> incoming[i].gen != incoming[j].gen)
  }

  predicate Adoptable(table: map<Name, Sid>, incoming: seq<Incoming>) {
    && DistinctNames(incoming)
    && (forall i :: 0 <= i < |incoming| ==> incoming[i].builds)
    && |table| + |incoming| <= MAX_PTYS
    && (forall i :: 0 <= i < |incoming| ==> incoming[i].name !in table)
  }

  // All of the incoming ptys or none.
  function AdoptStep(s: State, incoming: seq<Incoming>): (State, Reply) {
    if !FreshGenerations(s, incoming) then (s, Nothing)
    else if !Adoptable(s.table, incoming) then (s, Refused)
    else
      (s.(table := s.table + StagedTable(incoming),
          sessions := s.sessions + StagedSessions(incoming),
          arming := s.arming + StagedSessions(incoming).Keys),
       Nothing)
  }

  function ArmStep(s: State, sid: Sid): State {
    if sid in s.arming && sid in s.sessions then
      var x := s.sessions[sid];
      s.(arming := s.arming - {sid},
         timers := if x.deadline.Some? then s.timers + multiset{Timer(x.name, sid, x.deadline.value)} else s.timers)
    else s
  }

  function Perform(s: State, a: Action): (State, Reply) {
    match a
    case Tick(ms) => (s.(now := s.now + ms), Nothing)
    case Open(name, gen, spawn) => OpenStep(s, name, gen, spawn)
    case GetExisting(req, name) => GetExistingStep(s, req, name)
    case CheckExited(req) => CheckExitedStep(s, req)
    case CheckDeadline(req) => CheckDeadlineStep(s, req)
    case Kill(name) => (if name in s.table then Evict(s, name) else s, Nothing)
    case FinishKill(sid) => (FinishKillStep(s, sid), Nothing)
    case Close(name, retention) => CloseStep(s, name, retention)
    case Reopen(name) => ReopenStep(s, name)
    case Fire(t) => (FireStep(s, t), Nothing)
    case ChildDies(sid) =>
      (if sid in s.sessions then WithChild(s, sid, s.sessions[sid].(child := Dead)) else s, Nothing)
    case EndOfStream(sid) => (EndOfStreamStep(s, sid), Nothing)
    case Reap(sid) => (ReapStep(s, sid), Nothing)
    case Unlink(sid) => (UnlinkStep(s, sid), Nothing)
    case Adopt(incoming) => AdoptStep(s, incoming)
    case Arm(sid) => (ArmStep(s, sid), Nothing)
  }

  function Step(s: State, a: Action): State { Perform(s, a).0 }

  function ReplyTo(s: State, a: Action): Reply { Perform(s, a).1 }

  function Run(s: State, schedule: seq<Action>): State
    decreases |schedule|
  {
    if schedule == [] then s else Run(Step(s, schedule[0]), schedule[1..])
  }

  function Empty(now: nat): State { State(now, map[], map[], multiset{}, {}, {}, map[]) }

  // ------------------------------------------------------------- invariant

  predicate InTable(s: State, sid: Sid)
    requires sid in s.sessions
  {
    var name := s.sessions[sid].name;
    name in s.table && s.table[name] == sid
  }

  // A table entry is a known session under its own name.
  predicate TableOk(s: State) {
    && |s.table| <= MAX_PTYS
    && (forall n :: n in s.table ==>
          && s.table[n] in s.sessions
          && s.sessions[s.table[n]].name == n
          && s.table[n] !in s.doomed)
    && s.doomed <= s.sessions.Keys
  }

  predicate OursAndAlive(x: Session) { !x.adopted && x.child.Alive? }

  // A live child of ours can be reached by name, or is about to be killed, unless
  // its read loop never started; then it is neither.
  predicate SessionOk(s: State, sid: Sid)
    requires sid in s.sessions
  {
    var x := s.sessions[sid];
    && (x.stage.Unstarted? ==> !InTable(s, sid) && sid !in s.doomed)
    && (OursAndAlive(x) && !x.stage.Unstarted? ==> InTable(s, sid) || sid in s.doomed)
    && (!x.adopted && (x.stage.Recorded? || x.stage.Gone?) ==> !x.child.Alive?)
    && (InTable(s, sid) && x.deadline.Some? ==>
          Timer(x.name, sid, x.deadline.value) in s.timers || sid in s.arming)
  }

  ghost predicate Inv(s: State) {
    TableOk(s) && forall sid :: sid in s.sessions ==> SessionOk(s, sid)
  }

  lemma OpenKeeps(s: State, name: Name, gen: Sid, spawn: Spawn)
    requires Inv(s)
    ensures Inv(OpenStep(s, name, gen, spawn).0)
  {
    var s' := OpenStep(s, name, gen, spawn).0;
    if s' != s {
      forall sid | sid in s'.sessions ensures SessionOk(s', sid) {
        if sid != gen { assert SessionOk(s, sid); }
      }
    }
  }

  lemma EvictKeeps(s: State, name: Name)
    requires Inv(s) && name in s.table
    ensures Inv(Evict(s, name))
  {
    var s' := Evict(s, name);
    forall sid | sid in s'.sessions ensures SessionOk(s', sid) { assert SessionOk(s, sid); }
  }

  lemma CloseKeeps(s: State, name: Name, retention: nat)
    requires Inv(s)
    ensures Inv(CloseStep(s, name, retention).0)
  {
    var s' := CloseStep(s, name, retention).0;
    forall sid | sid in s'.sessions ensures SessionOk(s', sid) { assert SessionOk(s, sid); }
  }

  lemma FireKeepsSession(s: State, t: Timer, sid: Sid)
    requires TableOk(s) && sid in s.sessions && SessionOk(s, sid)
    ensures SessionOk(FireStep(s, t), sid)
  {
    var s' := FireStep(s, t);
    var x := s.sessions[sid];
    if InTable(s', sid) && x.deadline.Some? {
      assert InTable(s, sid);
      assert Timer(x.name, sid, x.deadline.value) == t ==> Expires(s, t);
    }
  }

  lemma FireTable(s: State, t: Timer)
    requires TableOk(s)
    ensures TableOk(FireStep(s, t))
  {
  }

  // A timer leaves only when it no longer guards a lease.
  lemma FireKeeps(s: State, t: Timer)
    requires Inv(s)
    ensures Inv(FireStep(s, t))
  {
    FireTable(s, t);
    forall sid | sid in FireStep(s, t).sessions ensures SessionOk(FireStep(s, t), sid) { FireKeepsSession(s, t, sid); }
  }

  lemma FinishKillKeeps(s: State, sid: Sid)
    requires Inv(s)
    ensures Inv(FinishKillStep(s, sid))
  {
    var s' := FinishKillStep(s, sid);
    forall x | x in s'.sessions ensures SessionOk(s', x) { assert SessionOk(s, x); }
  }

  lemma ChildDiesKeeps(s: State, sid: Sid)
    requires Inv(s)
    ensures Inv(Step(s, ChildDies(sid)))
  {
    var s' := Step(s, ChildDies(sid));
    forall x | x in s'.sessions ensures SessionOk(s', x) { assert SessionOk(s, x); }
  }

  lemma EndOfStreamKeeps(s: State, sid: Sid)
    requires Inv(s)
    ensures Inv(EndOfStreamStep(s, sid))
  {
    var s' := EndOfStreamStep(s, sid);
    forall x | x in s'.sessions ensures SessionOk(s', x) { assert SessionOk(s, x); }
  }

  lemma ReapKeeps(s: State, sid: Sid)
    requires Inv(s)
    ensures Inv(ReapStep(s, sid))
  {
    var s' := ReapStep(s, sid);
    forall x | x in s'.sessions ensures SessionOk(s', x) { assert SessionOk(s, x); }
  }

  lemma UnlinkKeepsSession(s: State, sid: Sid, x: Sid)
    requires Inv(s) && sid in s.sessions && s.sessions[sid].stage.Recorded? && x in s.sessions
    ensures SessionOk(UnlinkStep(s, sid), x)
  {
    assert SessionOk(s, x) && SessionOk(s, sid);
  }

  lemma UnlinkTable(s: State, sid: Sid)
    requires TableOk(s)
    ensures TableOk(UnlinkStep(s, sid))
  {
  }

  lemma UnlinkKeeps(s: State, sid: Sid)
    requires Inv(s)
    ensures Inv(UnlinkStep(s, sid))
  {
    var s' := UnlinkStep(s, sid);
    if s' != s {
      UnlinkTable(s, sid);
      forall x | x in s'.sessions ensures SessionOk(s', x) { UnlinkKeepsSession(s, sid, x); }
    }
  }

  lemma ReopenKeeps(s: State, name: Name)
    requires Inv(s)
    ensures Inv(ReopenStep(s, name).0)
  {
    var s' := ReopenStep(s, name).0;
    forall x | x in s'.sessions ensures SessionOk(s', x) { assert SessionOk(s, x); }
  }

  lemma ArmKeeps(s: State, sid: Sid)
    requires Inv(s)
    ensures Inv(ArmStep(s, sid))
  {
    var s' := ArmStep(s, sid);
    forall x | x in s'.sessions ensures SessionOk(s', x) { assert SessionOk(s, x); }
  }

  // Time and the reads open_existing makes touch no session and no entry.
  lemma ReadingKeeps(s: State, s': State)
    requires Inv(s) && s' == s.(now := s'.now, lookups := s'.lookups)
    ensures Inv(s')
  {
    forall x | x in s'.sessions ensures SessionOk(s', x) { assert SessionOk(s, x); }
  }

  lemma ReadingStep(s: State, a: Action)
    requires a.Tick? || a.GetExisting? || a.CheckExited? || a.CheckDeadline?
    ensures Step(s, a) == s.(now := Step(s, a).now, lookups := Step(s, a).lookups)
  {
  }

  lemma {:induction false} StagedFacts(incoming: seq<Incoming>)
    ensures forall n :: n in StagedTable(incoming) <==> exists i :: 0 <= i < |incoming| && incoming[i].name == n
    ensures forall g :: g in StagedSessions(incoming) <==> exists i :: 0 <= i < |incoming| && incoming[i].gen == g
  {
    if incoming != [] {
      var k := |incoming| - 1;
      StagedFacts(incoming[..k]);
      forall n ensures n in StagedTable(incoming) <==> exists i :: 0 <= i < |incoming| && incoming[i].name == n {
        if n in StagedTable(incoming[..k]) {
          var i :| 0 <= i < k && incoming[..k][i].name == n;
          assert incoming[i].name == n;
        }
        if i :| 0 <= i < |incoming| && incoming[i].name == n && i < k { assert incoming[..k][i].name == n; }
      }
      forall g ensures g in StagedSessions(incoming) <==> exists i :: 0 <= i < |incoming| && incoming[i].gen == g {
        if g in StagedSessions(incoming[..k]) {
          var i :| 0 <= i < k && incoming[..k][i].gen == g;
          assert incoming[i].gen == g;
        }
        if i :| 0 <= i < |incoming| && incoming[i].gen == g && i < k { assert incoming[..k][i].gen == g; }
      }
    }
  }

  // With distinct names and generations each staged entry is its own.
  lemma {:induction false} StagedEntry(incoming: seq<Incoming>, i: nat)
    requires DistinctNames(incoming) && i < |incoming|
    requires forall p, q :: 0 <= p < q < |incoming| ==> incoming[p].gen != incoming[q].gen
    ensures incoming[i].name in StagedTable(incoming) && StagedTable(incoming)[incoming[i].name] == incoming[i].gen
    ensures incoming[i].gen in StagedSessions(incoming)
    ensures StagedSessions(incoming)[incoming[i].gen] == Fresh(incoming[i].name, true, incoming[i].deadline)
    ensures |StagedTable(incoming)| <= |incoming|
  {
    var k := |incoming| - 1;
    if k > 0 {
      StagedEntry(incoming[..k], if i < k then i else 0);
    }
  }

  lemma UnionSize(a: map<Name, Sid>, b: map<Name, Sid>)
    ensures |a + b| <= |a| + |b|
  {
    assert (a + b).Keys == a.Keys + b.Keys;
    assert |a.Keys + b.Keys| <= |a.Keys| + |b.Keys|;
  }

  lemma AdoptKeeps(s: State, incoming: seq<Incoming>)
    requires Inv(s)
    ensures Inv(AdoptStep(s, incoming).0)
  {
    var s' := AdoptStep(s, incoming).0;
    if s' != s {
      StagedFacts(incoming);
      UnionSize(s.table, StagedTable(incoming));
      if incoming != [] { StagedEntry(incoming, 0); }
      forall n | n in s'.table
        ensures s'.table[n] in s'.sessions && s'.sessions[s'.table[n]].name == n && s'.table[n] !in s'.doomed
      {
        if n in StagedTable(incoming) {
          var i :| 0 <= i < |incoming| && incoming[i].name == n;
          StagedEntry(incoming, i);
        }
      }
      forall sid | sid in s'.sessions ensures SessionOk(s', sid) { AdoptKeepsSession(s, incoming, sid); }
    }
  }

  lemma AdoptKeepsSession(s: State, incoming: seq<Incoming>, sid: Sid)
    requires Inv(s) && FreshGenerations(s, incoming) && Adoptable(s.table, incoming)
    requires sid in AdoptStep(s, incoming).0.sessions
    ensures SessionOk(AdoptStep(s, incoming).0, sid)
  {
    if sid in StagedSessions(incoming) {
      StagedSession(s, incoming, sid);
    } else {
      AdoptKeepsOld(s, incoming, sid);
    }
  }

  lemma AdoptKeepsOld(s: State, incoming: seq<Incoming>, sid: Sid)
    requires Inv(s) && FreshGenerations(s, incoming) && Adoptable(s.table, incoming)
    requires sid in s.sessions && sid !in StagedSessions(incoming)
    ensures SessionOk(AdoptStep(s, incoming).0, sid)
  {
    assert SessionOk(s, sid);
    StagedName(s, incoming, s.sessions[sid].name);
  }

  lemma StagedSession(s: State, incoming: seq<Incoming>, sid: Sid)
    requires FreshGenerations(s, incoming) && Adoptable(s.table, incoming)
    requires sid in StagedSessions(incoming)
    ensures var x := StagedSessions(incoming)[sid]; x.adopted && x.stage.Serving?
  {
    StagedFacts(incoming);
    var i :| 0 <= i < |incoming| && incoming[i].gen == sid;
    StagedEntry(incoming, i);
  }

  lemma StagedName(s: State, incoming: seq<Incoming>, n: Name)
    requires FreshGenerations(s, incoming) && Adoptable(s.table, incoming)
    ensures n in StagedTable(incoming) ==>
      n !in s.table && StagedTable(incoming)[n] !in s.sessions && StagedTable(incoming)[n] in StagedSessions(incoming)
  {
    if n in StagedTable(incoming) {
      StagedFacts(incoming);
      var i :| 0 <= i < |incoming| && incoming[i].name == n;
      StagedEntry(incoming, i);
    }
  }

  lemma StepKeeps(s: State, a: Action)
    requires Inv(s)
    ensures Inv(Step(s, a))
  {
    match a
    case Open(name, gen, spawn) => OpenKeeps(s, name, gen, spawn);
    case Kill(name) => if name in s.table { EvictKeeps(s, name); }
    case Close(name, retention) => CloseKeeps(s, name, retention);
    case Fire(t) => FireKeeps(s, t);
    case Adopt(incoming) => AdoptKeeps(s, incoming);
    case Reopen(name) => ReopenKeeps(s, name);
    case Arm(sid) => ArmKeeps(s, sid);
    case Unlink(sid) => UnlinkKeeps(s, sid);
    case FinishKill(_) => ChildStepKeeps(s, a);
    case ChildDies(_) => ChildStepKeeps(s, a);
    case EndOfStream(_) => ChildStepKeeps(s, a);
    case Reap(_) => ChildStepKeeps(s, a);
    case _ =>
      ReadingStep(s, a);
      ReadingKeeps(s, Step(s, a));
  }

  lemma ChildStepKeeps(s: State, a: Action)
    requires Inv(s) && (a.FinishKill? || a.ChildDies? || a.EndOfStream? || a.Reap?)
    ensures Inv(Step(s, a))
  {
    match a
    case FinishKill(sid) => FinishKillKeeps(s, sid);
    case ChildDies(sid) => ChildDiesKeeps(s, sid);
    case EndOfStream(sid) => EndOfStreamKeeps(s, sid);
    case Reap(sid) => ReapKeeps(s, sid);
  }

  lemma {:induction false} RunKeeps(s: State, schedule: seq<Action>)
    requires Inv(s)
    ensures Inv(Run(s, schedule))
    decreases |schedule|
  {
    if schedule != [] {
      StepKeeps(s, schedule[0]);
      RunKeeps(Step(s, schedule[0]), schedule[1..]);
    }
  }

  // -------------------------------------------------------------- theorems

  // This step is an open that forks a child and then fails.
  predicate LosesChild(s: State, a: Action, sid: Sid) {
    && a.Open? && a.gen == sid && a.spawn.FailedAfterFork?
    && a.name !in s.table && |s.table| < MAX_PTYS && sid !in s.sessions
  }

  predicate OpenFailed(s: State, schedule: seq<Action>, sid: Sid)
    decreases |schedule|
  {
    schedule != [] && (LosesChild(s, schedule[0], sid) || OpenFailed(Step(s, schedule[0]), schedule[1..], sid))
  }

  predicate IsUnstarted(s: State, sid: Sid) { sid in s.sessions && s.sessions[sid].stage.Unstarted? }

  // What a step can do to a session it finds: never rename or forget it, start a
  // read loop it did not have, or move its deadline except by a close that arms it
  // or a reopen that clears one which has not passed.
  lemma SessionStep(s: State, a: Action, sid: Sid)
    requires sid in s.sessions
    ensures var s' := Step(s, a);
      && sid in s'.sessions
      && s'.sessions[sid].name == s.sessions[sid].name
      && (s'.sessions[sid].stage.Unstarted? <==> s.sessions[sid].stage.Unstarted?)
      && (s'.sessions[sid].deadline != s.sessions[sid].deadline ==>
            || (a.Close? && s.sessions[sid].deadline.None?)
            || (a.Reopen? && ReplyTo(s, a) == Returned(sid, false) && !Passed(s.sessions[sid].deadline, s.now)))
  {
    if a.Adopt? {
      AdoptKeepsDeadline(s, a.incoming, sid);
    } else if !a.Close? && !a.Reopen? && !a.Open? {
      OtherKeepsDeadline(s, a, sid);
    }
  }

  lemma OtherKeepsDeadline(s: State, a: Action, sid: Sid)
    requires sid in s.sessions && !a.Adopt? && !a.Close? && !a.Reopen? && !a.Open?
    ensures var s' := Step(s, a);
      && sid in s'.sessions && s'.sessions[sid].name == s.sessions[sid].name
      && (s'.sessions[sid].stage.Unstarted? <==> s.sessions[sid].stage.Unstarted?)
      && s'.sessions[sid].deadline == s.sessions[sid].deadline
  {
  }

  lemma NewSessionStep(s: State, a: Action, sid: Sid)
    requires sid !in s.sessions
    ensures IsUnstarted(Step(s, a), sid) <==> LosesChild(s, a, sid)
  {
    if a.Adopt? { AdoptedStarts(s, a.incoming, sid); }
  }

  lemma AdoptedStarts(s: State, incoming: seq<Incoming>, sid: Sid)
    requires sid !in s.sessions
    ensures !IsUnstarted(AdoptStep(s, incoming).0, sid)
  {
    if FreshGenerations(s, incoming) && Adoptable(s.table, incoming) && sid in StagedSessions(incoming) {
      StagedSession(s, incoming, sid);
    }
  }

  lemma AdoptKeepsDeadline(s: State, incoming: seq<Incoming>, sid: Sid)
    requires sid in s.sessions
    ensures sid in AdoptStep(s, incoming).0.sessions
    ensures AdoptStep(s, incoming).0.sessions[sid] == s.sessions[sid]
  {
    if FreshGenerations(s, incoming) && Adoptable(s.table, incoming) {
      StagedFacts(incoming);
    }
  }

  lemma {:induction false} UnstartedExactly(s: State, schedule: seq<Action>, sid: Sid)
    ensures IsUnstarted(Run(s, schedule), sid) <==> IsUnstarted(s, sid) || OpenFailed(s, schedule, sid)
    decreases |schedule|
  {
    if schedule != [] {
      if sid in s.sessions { SessionStep(s, schedule[0], sid); } else { NewSessionStep(s, schedule[0], sid); }
      UnstartedExactly(Step(s, schedule[0]), schedule[1..], sid);
    }
  }

  // In every reachable state the table is within its limit, an entry is a session
  // of that very name, and a child an open spawned that has neither died nor been
  // condemned is in the table under its name, even while an older session of the
  // same name is still being reaped, if and only if its open did not fail after
  // the fork.
  lemma NoLeakedChildren(now: nat, schedule: seq<Action>)
    ensures var s := Run(Empty(now), schedule);
      && |s.table| <= MAX_PTYS
      && (forall n :: n in s.table ==> s.table[n] in s.sessions && s.sessions[s.table[n]].name == n)
      && (forall sid :: sid in s.sessions && OursAndAlive(s.sessions[sid]) && sid !in s.doomed ==>
            (InTable(s, sid) <==> !OpenFailed(Empty(now), schedule, sid)))
  {
    RunKeeps(Empty(now), schedule);
    var s := Run(Empty(now), schedule);
    forall sid | sid in s.sessions && OursAndAlive(s.sessions[sid]) && sid !in s.doomed
      ensures InTable(s, sid) <==> !OpenFailed(Empty(now), schedule, sid)
    {
      assert SessionOk(s, sid);
      UnstartedExactly(Empty(now), schedule, sid);
    }
  }

  // Such an open leaves a live child that no name reaches and nothing condemns.
  lemma FailedOpenLosesItsChild(now: nat)
    ensures var s := Run(Empty(now), [Open("a", 0, FailedAfterFork)]);
      0 in s.sessions && OursAndAlive(s.sessions[0]) && 0 !in s.doomed && !InTable(s, 0)
  {
    var open := Open("a", 0, FailedAfterFork);
    assert [open][1..] == [];
    assert Run(Step(Empty(now), open), []) == Step(Empty(now), open);
  }

  // A lease is never lost: while a closed session is in the table a timer for
  // exactly its deadline is pending (or about to be armed after an adoption),
  // and when that timer is due, firing it takes the session out.
  lemma LeaseAlwaysEnds(now: nat, schedule: seq<Action>, name: Name)
    ensures var s := Run(Empty(now), schedule);
      name in s.table && s.table[name] in s.sessions && s.sessions[s.table[name]].deadline.Some? ==>
        var sid := s.table[name];
        var t := Timer(name, sid, s.sessions[sid].deadline.value);
        || sid in s.arming
        || (t in s.timers && (t.deadline <= s.now ==>
              name !in Step(s, Fire(t)).table && sid in Step(s, Fire(t)).doomed))
  {
    RunKeeps(Empty(now), schedule);
    var s := Run(Empty(now), schedule);
    if name in s.table {
      assert SessionOk(s, s.table[name]);
    }
  }

  // What may condemn a session: a kill that finds it under its name, or a timer of
  // that very generation whose deadline is the one armed now and has passed.
  predicate Condemns(s: State, a: Action, sid: Sid) {
    match a
    case Kill(name) => name in s.table && s.table[name] == sid
    case Fire(t) =>
      && t in s.timers && t.gen == sid && t.name in s.table && s.table[t.name] == sid
      && DeadlineOf(s, sid) == Some(t.deadline) && t.deadline <= s.now
    case _ => false
  }

  predicate Rearranges(a: Action) { a.Kill? || a.Fire? || a.Adopt? || a.Open? || a.Unlink? }

  lemma OthersLeaveTable(s: State, a: Action)
    requires !Rearranges(a)
    ensures Step(s, a).table == s.table && Step(s, a).doomed <= s.doomed
  {
  }

  lemma OnlyTimersAndKillsDoom(s: State, a: Action)
    requires a.Adopt? || a.Open? || a.Unlink?
    ensures Step(s, a).doomed == s.doomed
  {
  }

  // A timer's whole effect on the table.
  lemma FireEffect(s: State, t: Timer)
    ensures var s' := FireStep(s, t);
      if t in s.timers && t.deadline <= s.now && Expires(s, t)
      then s'.table == s.table - {t.name} && s'.doomed == s.doomed + {t.gen}
      else s'.table == s.table && s'.doomed == s.doomed
  {
  }

  lemma CondemnedStep(s: State, a: Action, sid: Sid)
    ensures sid in Step(s, a).doomed && sid !in s.doomed ==> Condemns(s, a, sid)
    ensures Condemns(s, a, sid) ==> sid in Step(s, a).doomed
  {
    if a.Fire? {
      FireEffect(s, a.timer);
    } else if !Rearranges(a) {
      OthersLeaveTable(s, a);
    } else if !a.Kill? {
      OnlyTimersAndKillsDoom(s, a);
    }
  }

  // Over whole runs, a session is condemned only by such a step, and by the first
  // one: however many stale timers of older leases and older generations fire, and
  // whatever was closed, reopened, killed and created under the same name.
  lemma {:induction false} CondemnedOnlyByCause(s: State, schedule: seq<Action>, sid: Sid) returns (k: nat)
    requires sid !in s.doomed && sid in Run(s, schedule).doomed
    ensures k < |schedule| && Condemns(Run(s, schedule[..k]), schedule[k], sid)
    decreases |schedule|
  {
    var s1 := Step(s, schedule[0]);
    CondemnedStep(s, schedule[0], sid);
    if sid in s1.doomed {
      k := 0;
      assert schedule[..0] == [];
    } else {
      var j := CondemnedOnlyByCause(s1, schedule[1..], sid);
      k := j + 1;
      assert schedule[..k][1..] == schedule[1..][..j] && schedule[..k][0] == schedule[0];
    }
  }

  // And an entry leaves the table only by being condemned or when its own reaper
  // unlinks it: no step ever removes another session's entry.
  predicate Unlinks(s: State, a: Action, sid: Sid) {
    a == Unlink(sid) && sid in s.sessions && s.sessions[sid].stage.Recorded?
  }

  predicate EntryFate(s: State, a: Action, name: Name)
    requires name in s.table
  {
    var sid, s' := s.table[name], Step(s, a);
    if Condemns(s, a, sid) || Unlinks(s, a, sid) then name !in s'.table
    else name in s'.table && s'.table[name] == sid
  }

  lemma EntryStep(s: State, a: Action, name: Name)
    requires TableOk(s) && name in s.table
    ensures EntryFate(s, a, name)
  {
    if a.Adopt? {
      EntryAdopt(s, a.incoming, name);
    } else if a.Unlink? {
      EntryUnlink(s, a.sid, name);
    } else if a.Fire? {
      EntryFire(s, a.timer, name);
    } else if Rearranges(a) {
      EntryOpenKill(s, a, name);
    } else {
      OthersLeaveTable(s, a);
    }
  }

  lemma EntryAdopt(s: State, incoming: seq<Incoming>, name: Name)
    requires name in s.table
    ensures EntryFate(s, Adopt(incoming), name)
  {
    if FreshGenerations(s, incoming) && Adoptable(s.table, incoming) { StagedName(s, incoming, name); }
  }

  lemma EntryUnlink(s: State, sid: Sid, name: Name)
    requires TableOk(s) && name in s.table
    ensures EntryFate(s, Unlink(sid), name)
  {
    assert s.sessions[s.table[name]].name == name;
  }

  lemma EntryFire(s: State, t: Timer, name: Name)
    requires TableOk(s) && name in s.table
    ensures EntryFate(s, Fire(t), name)
  {
    FireEffect(s, t);
    if t.name in s.table { assert s.sessions[s.table[t.name]].name == t.name; }
    assert s.sessions[s.table[name]].name == name;
  }

  lemma EntryOpenKill(s: State, a: Action, name: Name)
    requires TableOk(s) && name in s.table && (a.Open? || a.Kill?)
    ensures EntryFate(s, a, name)
  {
    if a.Kill? && a.name in s.table { assert s.sessions[s.table[a.name]].name == a.name; }
    assert s.sessions[s.table[name]].name == name;
  }

  // The deadline a session's lease currently carries, if it has one.
  function DeadlineOf(s: State, sid: Sid): Option<nat> {
    if sid in s.sessions then s.sessions[sid].deadline else None
  }

  predicate Lapsed(s: State, sid: Sid) { Passed(DeadlineOf(s, sid), s.now) }

  // No step of the schedule hands the session to a caller.
  predicate NeverReturned(s: State, schedule: seq<Action>, sid: Sid)
    decreases |schedule|
  {
    schedule == [] ||
    (&& !(ReplyTo(s, schedule[0]).Returned? && ReplyTo(s, schedule[0]).sid == sid)
     && NeverReturned(Step(s, schedule[0]), schedule[1..], sid))
  }

  lemma LapsedReply(s: State, a: Action, sid: Sid)
    requires Lapsed(s, sid)
    ensures !(ReplyTo(s, a).Returned? && ReplyTo(s, a).sid == sid)
  {
  }

  lemma LapsedStep(s: State, a: Action, sid: Sid)
    requires Lapsed(s, sid)
    ensures Lapsed(Step(s, a), sid)
    ensures !(ReplyTo(s, a).Returned? && ReplyTo(s, a).sid == sid)
  {
    SessionStep(s, a, sid);
    LapsedReply(s, a, sid);
    assert Step(s, a).now >= s.now;
  }

  // Once an armed deadline passes, no open, attach or reopen ever returns that
  // session again, whatever races with it, and the lease stays lapsed.
  lemma {:induction false} LapsedForever(s: State, schedule: seq<Action>, sid: Sid)
    requires Lapsed(s, sid)
    ensures NeverReturned(s, schedule, sid)
    ensures Lapsed(Run(s, schedule), sid)
    decreases |schedule|
  {
    if schedule != [] {
      LapsedStep(s, schedule[0], sid);
      LapsedForever(Step(s, schedule[0]), schedule[1..], sid);
    }
  }

  // No step of the schedule is a reopen that succeeds on the session.
  predicate NotReopened(s: State, schedule: seq<Action>, sid: Sid)
    decreases |schedule|
  {
    schedule == [] ||
    (&& !(schedule[0].Reopen? && ReplyTo(s, schedule[0]) == Returned(sid, false))
     && NotReopened(Step(s, schedule[0]), schedule[1..], sid))
  }

  lemma DeadlineStep(s: State, a: Action, sid: Sid, d: nat)
    requires DeadlineOf(s, sid) == Some(d)
    requires !(a.Reopen? && ReplyTo(s, a) == Returned(sid, false))
    ensures DeadlineOf(Step(s, a), sid) == Some(d)
  {
    SessionStep(s, a, sid);
  }

  // Until a reopen succeeds, a retried close never moves the deadline: however
  // much runs in between, it answers the instant first armed.
  lemma {:induction false} RetriedCloseKeepsDeadline(
      s: State, schedule: seq<Action>, sid: Sid, d: nat, name: Name, retention: nat)
    requires DeadlineOf(s, sid) == Some(d) && NotReopened(s, schedule, sid)
    ensures var s' := Run(s, schedule);
      && DeadlineOf(s', sid) == Some(d)
      && (name in s'.table && s'.table[name] == sid ==> ReplyTo(s', Close(name, retention)) == Closing(sid, d))
    decreases |schedule|
  {
    if schedule != [] {
      DeadlineStep(s, schedule[0], sid, d);
      RetriedCloseKeepsDeadline(Step(s, schedule[0]), schedule[1..], sid, d, name, retention);
    }
  }

  // An adoption installs every incoming pty under its own name, generation and
  // deadline, or leaves the table exactly as it was; which of the two is decided
  // by the names, the room and whether each can be set up.
  lemma AdoptAllOrNothing(s: State, incoming: seq<Incoming>)
    requires Inv(s) && FreshGenerations(s, incoming)
    ensures var (s', reply) := AdoptStep(s, incoming);
      if Adoptable(s.table, incoming) then
        && (forall i :: 0 <= i < |incoming| ==>
              && incoming[i].name in s'.table && s'.table[incoming[i].name] == incoming[i].gen
              && incoming[i].gen in s'.sessions
              && s'.sessions[incoming[i].gen] == Fresh(incoming[i].name, true, incoming[i].deadline))
        && (forall n :: n in s.table ==> n in s'.table && s'.table[n] == s.table[n])
        && |s'.table| <= MAX_PTYS
      else s' == s && reply == Refused
  {
    if Adoptable(s.table, incoming) {
      var s' := AdoptStep(s, incoming).0;
      AdoptKeeps(s, incoming);
      StagedFacts(incoming);
      forall i | 0 <= i < |incoming|
        ensures incoming[i].name in s'.table && s'.table[incoming[i].name] == incoming[i].gen
        ensures incoming[i].gen in s'.sessions
        ensures s'.sessions[incoming[i].gen] == Fresh(incoming[i].name, true, incoming[i].deadline)
      {
        StagedEntry(incoming, i);
      }
    }
  }
}
