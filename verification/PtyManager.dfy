/**
 The manager object that owns the pty table. Each method is one region the
 source runs under the table lock, or one separate read or task; its
 postcondition is the step of the table's state machine it performs.
 */
module PtyManager {
  import opened Wrappers
  import opened PtyTable

  lemma {:induction false} StagedSize(incoming: seq<Incoming>)
    requires DistinctNames(incoming)
    ensures |StagedTable(incoming)| == |incoming|
  {
    if incoming != [] {
      var k := |incoming| - 1;
      StagedSize(incoming[..k]);
      StagedFacts(incoming[..k]);
      assert forall i :: 0 <= i < k ==> incoming[..k][i].name != incoming[k].name;
    }
  }

  // One staging step: what the insertion into the staged table decides.
  lemma StageStep(incoming: seq<Incoming>, i: nat)
    requires i < |incoming| && DistinctNames(incoming[..i])
    ensures DistinctNames(incoming[..i + 1]) <==> incoming[i].name !in StagedTable(incoming[..i])
    ensures !DistinctNames(incoming[..i + 1]) ==> !DistinctNames(incoming)
    ensures StagedTable(incoming[..i + 1]) == StagedTable(incoming[..i])[incoming[i].name := incoming[i].gen]
    ensures StagedSessions(incoming[..i + 1]) ==
      StagedSessions(incoming[..i])[incoming[i].gen := Fresh(incoming[i].name, true, incoming[i].deadline)]
  {
    var before, after := incoming[..i], incoming[..i + 1];
    assert after[..i] == before && after[i] == incoming[i];
    StagedFacts(before);
    if incoming[i].name in StagedTable(before) {
      var k :| 0 <= k < i && before[k].name == incoming[i].name;
      assert after[k].name == after[i].name;
    } else {
      forall p, q | 0 <= p < q < |after| ensures after[p].name != after[q].name {
        if q < i { assert before[p].name != before[q].name; } else { assert before[p].name != incoming[i].name; }
      }
    }
  }

  // Build every session first; nothing is installed by this.
  method StageAll(incoming: seq<Incoming>) returns (ok: bool, staged: map<Name, Sid>, built: map<Sid, Session>)
    ensures ok <==>
      DistinctNames(incoming) && |incoming| <= MAX_PTYS && forall i :: 0 <= i < |incoming| ==> incoming[i].builds
    ensures ok ==> staged == StagedTable(incoming) && |staged| == |incoming| && built == StagedSessions(incoming)
  {
    staged, built := map[], map[];
    for i := 0 to |incoming|
      invariant DistinctNames(incoming[..i]) && i <= MAX_PTYS
      invariant staged == StagedTable(incoming[..i])
      invariant built == StagedSessions(incoming[..i])
      invariant forall k :: 0 <= k < i ==> incoming[k].builds
    {
      if !incoming[i].builds { return false, staged, built; }
      StageStep(incoming, i);
      StagedSize(incoming[..i]);
      var inserted := InsertLocked(staged, incoming[i].name, incoming[i].gen);
      if inserted.None? { return false, staged, built; }
      staged := inserted.value;
      built := built[incoming[i].gen := Fresh(incoming[i].name, true, incoming[i].deadline)];
    }
    assert incoming[..|incoming|] == incoming;
    StagedSize(incoming);
    ok := true;
  }

  class Manager {
    var now: nat
    var ptys: map<Name, Sid>
    var sessions: map<Sid, Session>
    var timers: multiset<Timer>
    var doomed: set<Sid>
    var arming: set<Sid>
    var lookups: map<nat, Lookup>

    ghost function View(): State
      reads this
    {
      State(now, ptys, sessions, timers, doomed, arming, lookups)
    }

    ghost predicate Valid()
      reads this
    {
      Inv(View())
    }

    constructor (now: nat)
      ensures View() == Empty(now) && Valid()
    {
      this.now := now;
      ptys, sessions, timers, doomed, arming, lookups := map[], map[], multiset{}, {}, {}, map[];
    }

    // Attach or create under one guard: lookup, capacity, spawn and insert.
    method Open(name: Name, gen: Sid, spawn: Spawn) returns (reply: Reply)
      requires Valid()
      modifies this`ptys, this`sessions
      ensures Valid() && (View(), reply) == OpenStep(old(View()), name, gen, spawn)
      // The second check inside the insertion never fails here.
      ensures name !in old(ptys) && |old(ptys)| < MAX_PTYS && gen !in old(sessions) && spawn.Spawned? ==>
        reply == Returned(gen, true) && ptys == old(ptys)[name := gen]
    {
      OpenKeeps(View(), name, gen, spawn);
      if name in ptys {
        var sid := ptys[name];
        return if sessions[sid].deadline.Some? then Refused else Returned(sid, false);
      }
      if |ptys| >= MAX_PTYS { return Refused; }
      if gen in sessions { return Nothing; }
      match spawn
      case NoChild => reply := Refused;
      case FailedAfterFork =>
        sessions := sessions[gen := Session(name, Alive, false, false, None, Unstarted)];
        reply := Refused;
      case Spawned =>
        var inserted := InsertLocked(ptys, name, gen);
        ptys := inserted.value;
        sessions := sessions[gen := Fresh(name, false, None)];
        reply := Returned(gen, true);
    }

    method Kill(name: Name) returns (existed: bool)
      requires Valid()
      modifies this`ptys, this`doomed
      ensures Valid() && View() == Step(old(View()), Action.Kill(name))
      ensures existed <==> name in old(ptys)
    {
      existed := name in ptys;
      if existed {
        EvictKeeps(View(), name);
        ghost var after := Evict(View(), name);
        doomed := doomed + {ptys[name]};
        ptys := ptys - {name};
        assert View() == after;
      }
    }

    // The part of a kill outside the table lock.
    method KillSession(sid: Sid)
      requires Valid() && sid in doomed
      modifies this`sessions, this`doomed
      ensures Valid() && View() == FinishKillStep(old(View()), sid)
    {
      FinishKillKeeps(View(), sid);
      sessions := sessions[sid := sessions[sid].(child := Dead, exited := true)];
      doomed := doomed - {sid};
    }

    method CloseFor(name: Name, retention: nat) returns (reply: Reply)
      requires Valid()
      modifies this`sessions, this`timers
      ensures Valid() && (View(), reply) == CloseStep(old(View()), name, retention)
    {
      CloseKeeps(View(), name, retention);
      ghost var after := CloseStep(View(), name, retention).0;
      if name !in ptys { return Refused; }
      var sid := ptys[name];
      if sessions[sid].deadline.None? {
        sessions := sessions[sid := sessions[sid].(deadline := Some(SaturatingAdd(now, retention)))];
      }
      var expires := sessions[sid].deadline.value;
      assert sessions == old(sessions)[sid := old(sessions)[sid].(deadline := Some(expires))];
      ScheduleClose(sid, expires);
      assert View() == after;
      reply := Closing(sid, expires);
    }

    method ScheduleClose(sid: Sid, deadline: nat)
      requires sid in sessions
      modifies this`timers
      ensures timers == old(timers) + multiset{Timer(sessions[sid].name, sid, deadline)}
    {
      timers := timers + multiset{Timer(sessions[sid].name, sid, deadline)};
    }

    // A timer that has slept until its deadline.
    method ExpireTimer(t: Timer)
      requires Valid() && t in timers && t.deadline <= now
      modifies this`ptys, this`timers, this`doomed
      ensures Valid() && View() == FireStep(old(View()), t)
    {
      FireKeeps(View(), t);
      ghost var after := FireStep(View(), t);
      timers := timers - multiset{t};
      if t.name in ptys {
        var sid := ptys[t.name];
        if sid == t.gen && sessions[sid].deadline == Some(t.deadline) {
          ptys := ptys - {t.name};
          doomed := doomed + {sid};
        }
      }
      assert View() == after;
    }

    method Reopen(name: Name) returns (reply: Reply)
      requires Valid()
      modifies this`sessions
      ensures Valid() && (View(), reply) == ReopenStep(old(View()), name)
    {
      ReopenKeeps(View(), name);
      if name !in ptys { return Refused; }
      var sid := ptys[name];
      if sessions[sid].deadline.Some? && sessions[sid].deadline.value <= now { return Refused; }
      sessions := sessions[sid := sessions[sid].(deadline := None)];
      reply := Returned(sid, false);
    }

    method RemoveIfSame(sid: Sid)
      requires Valid() && sid in sessions && sessions[sid].stage.Recorded?
      modifies this`ptys, this`sessions
      ensures Valid() && View() == UnlinkStep(old(View()), sid)
    {
      UnlinkKeeps(View(), sid);
      var name := sessions[sid].name;
      sessions := sessions[sid := sessions[sid].(stage := Gone)];
      if name in ptys {
        if ptys[name] == sid { ptys := ptys - {name}; }
      }
    }

    // Stage the whole handoff, then install it under one lock or not at all.
    // The generations are freshly drawn random numbers.
    method AdoptMany(incoming: seq<Incoming>) returns (reply: Reply)
      requires Valid() && FreshGenerations(View(), incoming)
      modifies this`ptys, this`sessions, this`arming
      ensures Valid() && (View(), reply) == AdoptStep(old(View()), incoming)
    {
      AdoptKeeps(View(), incoming);
      var ok, staged, built := StageAll(incoming);
      if !ok { return Refused; }
      if |ptys| + |staged| > MAX_PTYS { return Refused; }
      var taken := AnyTaken(incoming);
      if taken { return Refused; }
      ptys := ptys + staged;
      sessions := sessions + built;
      arming := arming + built.Keys;
      reply := Nothing;
    }

    method AnyTaken(incoming: seq<Incoming>) returns (taken: bool)
      ensures taken <==> exists k :: 0 <= k < |incoming| && incoming[k].name in ptys
    {
      for i := 0 to |incoming|
        invariant forall k :: 0 <= k < i ==> incoming[k].name !in ptys
      {
        if incoming[i].name in ptys { return true; }
      }
      return false;
    }

    // After an adoption, a lease that came with the pty gets its timer.
    method ArmAdopted(sid: Sid)
      requires Valid() && sid in arming && sid in sessions
      modifies this`arming, this`timers
      ensures Valid() && View() == ArmStep(old(View()), sid)
    {
      ArmKeeps(View(), sid);
      arming := arming - {sid};
      if sessions[sid].deadline.Some? {
        ScheduleClose(sid, sessions[sid].deadline.value);
      }
    }

    // open_existing holds no lock across its three reads: the lookup, the exit
    // flag and the deadline.
    method OpenExisting(a: Action) returns (reply: Reply)
      requires Valid() && (a.GetExisting? || a.CheckExited? || a.CheckDeadline?)
      modifies this`lookups
      ensures Valid() && (View(), reply) == PtyTable.Perform(old(View()), a)
    {
      StepKeeps(View(), a);
      reply := Nothing;
      match a
      case GetExisting(req, name) =>
        if req !in lookups {
          if name in ptys { lookups := lookups[req := Lookup(ptys[name], false)]; } else { reply := Refused; }
        }
      case CheckExited(req) =>
        if req in lookups && !lookups[req].seenLive && lookups[req].sid in sessions {
          if sessions[lookups[req].sid].exited {
            lookups := lookups - {req};
            reply := Refused;
          } else {
            lookups := lookups[req := lookups[req].(seenLive := true)];
          }
        }
      case CheckDeadline(req) =>
        if req in lookups && lookups[req].seenLive && lookups[req].sid in sessions {
          var sid := lookups[req].sid;
          lookups := lookups - {req};
          reply := if sessions[sid].deadline.Some? then Refused else Returned(sid, false);
        }
    }

    method Advance(ms: nat)
      requires Valid()
      modifies this`now
      ensures Valid() && View() == Step(old(View()), Tick(ms))
    {
      ReadingKeeps(View(), Step(View(), Tick(ms)));
      now := now + ms;
    }

    method ChildExits(sid: Sid)
      requires Valid() && sid in sessions
      modifies this`sessions
      ensures Valid() && View() == Step(old(View()), ChildDies(sid))
    {
      ChildDiesKeeps(View(), sid);
      sessions := sessions[sid := sessions[sid].(child := Dead)];
    }

    // The read loop ends; then the child is waited for and its exit recorded.
    method EndRead(sid: Sid)
      requires Valid() && sid in sessions && sessions[sid].stage.Serving?
      modifies this`sessions
      ensures Valid() && View() == EndOfStreamStep(old(View()), sid)
    {
      EndOfStreamKeeps(View(), sid);
      sessions := sessions[sid := sessions[sid].(stage := Waiting)];
    }

    method RecordExit(sid: Sid)
      requires Valid() && sid in sessions && sessions[sid].stage.Waiting?
      modifies this`sessions
      ensures Valid() && View() == ReapStep(old(View()), sid)
    {
      ReapKeeps(View(), sid);
      var x := sessions[sid];
      sessions := sessions[sid := x.(stage := Recorded, exited := true, child := if x.adopted then x.child else Dead)];
    }

    method Perform(a: Action) returns (reply: Reply)
      requires Valid()
      modifies this
      ensures Valid() && (View(), reply) == PtyTable.Perform(old(View()), a)
    {
      reply := Nothing;
      match a
      case Open(name, gen, spawn) => reply := Open(name, gen, spawn);
      case Kill(name) => var _ := Kill(name);
      case FinishKill(sid) => if sid in doomed { KillSession(sid); }
      case Close(name, retention) => reply := CloseFor(name, retention);
      case Reopen(name) => reply := Reopen(name);
      case Fire(t) => if t in timers && t.deadline <= now { ExpireTimer(t); }
      case Unlink(sid) => if sid in sessions && sessions[sid].stage.Recorded? { RemoveIfSame(sid); }
      case Adopt(incoming) =>
        if FreshGenerations(State(now, ptys, sessions, timers, doomed, arming, lookups), incoming) {
          reply := AdoptMany(incoming);
        }
      case Arm(sid) => if sid in arming && sid in sessions { ArmAdopted(sid); }
      case GetExisting(_, _) => reply := OpenExisting(a);
      case CheckExited(_) => reply := OpenExisting(a);
      case CheckDeadline(_) => reply := OpenExisting(a);
      case Tick(ms) => Advance(ms);
      case ChildDies(sid) => if sid in sessions { ChildExits(sid); }
      case EndOfStream(sid) => if sid in sessions && sessions[sid].stage.Serving? { EndRead(sid); }
      case Reap(sid) => if sid in sessions && sessions[sid].stage.Waiting? { RecordExit(sid); }
    }

    // Any interleaving of everything that touches the table is a run of its state
    // machine, so its theorems hold of this object.
    method Drive(schedule: seq<Action>)
      requires Valid()
      modifies this
      ensures Valid() && View() == Run(old(View()), schedule)
    {
      for i := 0 to |schedule|
        invariant Valid() && Run(View(), schedule[i..]) == Run(old(View()), schedule)
      {
        assert schedule[i..][0] == schedule[i] && schedule[i..][1..] == schedule[i + 1..];
        var _ := Perform(schedule[i]);
      }
    }
  }
}
