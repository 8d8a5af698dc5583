/**
 How the self-upgrade of crates/muxd/src/migrate.rs can end, over every run of
 attempts and successors. An acknowledged handoff hands over exactly the listed
 ptys, and is lossless exactly for those no earlier successor has read; a failed
 one loses exactly the bytes such a successor read; and a lease changed after its
 pty was snapshotted is not handed over.
 */
module HandoffOutcomes {
  import opened Wrappers
  import opened Terminal
  import opened Handoff

  lemma ReachableOk<V(!new)>(t: Vt<V>, held: map<Pty, Held<V>>, schedule: seq<Action>)
    requires Lawful(t)
    ensures Inv(t, Run(t, Start(held), schedule))
  {
    StartKeeps(t, held);
    RunKeeps(t, Start(held), schedule);
  }

  lemma RunCons<V>(t: Vt<V>, s: State<V>, a: Action, rest: seq<Action>)
    ensures Run(t, s, [a] + rest) == Run(t, Step(t, s, a), rest)
  {
    assert ([a] + rest)[0] == a && ([a] + rest)[1..] == rest;
  }

  lemma {:induction false} RunConcat<V>(t: Vt<V>, s: State<V>, a: seq<Action>, b: seq<Action>)
    ensures Run(t, s, a + b) == Run(t, Run(t, s, a), b)
    decreases |a|
  {
    if a == [] {
      assert a + b == b;
    } else {
      assert (a + b)[1..] == a[1..] + b;
      RunConcat(t, Step(t, s, a[0]), a[1..], b);
    }
  }

  lemma OneStep<V>(t: Vt<V>, s: State<V>, a: Action)
    ensures Run(t, s, [a]) == Step(t, s, a)
  {
    assert [a] == [a] + [];
    RunCons(t, s, a, []);
  }

  // ------------------------------------------------------ completed upgrades

  // The successors have read only what the present one has for its entry: none
  // before it read the pty.
  predicate SoleReader<V>(s: State<V>, n: string)
    requires n in s.table
  {
    Gone(s, s.table[n].master) == |s.table[n].fed|
  }

  // What a predecessor that has left handed over under a listed pty.
  predicate HandedOver<V(==)>(s: State<V>, p: Pty, m: MigratePty) {
    && p in s.pred && p in s.taken && p in s.single && m.name in s.table
    && m.name == s.pred[p].name && m.command == s.pred[p].command && m.child == s.pred[p].child
    && var o := s.table[m.name];
       && o.master == p && o.command == m.command && o.child == m.child && o.deadline == m.deadline
       && (s.taken[p] == s.pred[p].fed + o.fed <==> SoleReader(s, m.name))
       && (SoleReader(s, m.name) ==> o.vt == s.single[p])
  }

  // Once the predecessor has left, every pty it listed is installed in the
  // successor under its own name with its own descriptor, command, child and
  // snapshotted lease. The bytes behind the snapshot followed by the bytes the
  // successor read are all the bytes ever read off that pty if and only if no
  // earlier successor has read it; and then the successor's terminal is the one a
  // single never-upgraded daemon would have.
  lemma HandoffLossless<V(!new)>(t: Vt<V>, held: map<Pty, Held<V>>, schedule: seq<Action>)
    requires Lawful(t)
    ensures var s := Run(t, Start(held), schedule);
      s.phase.Departed? ==>
        && |s.phase.sent| == |s.phase.ids|
        && forall i :: 0 <= i < |s.phase.ids| ==> HandedOver(s, s.phase.ids[i], s.phase.sent[i])
  {
    ReachableOk(t, held, schedule);
    var s := Run(t, Start(held), schedule);
    if s.phase.Departed? {
      forall i | 0 <= i < |s.phase.ids| ensures HandedOver(s, s.phase.ids[i], s.phase.sent[i]) {
        ListedHandedOver(t, s, i);
      }
    }
  }

  lemma ListedHandedOver<V(!new)>(t: Vt<V>, s: State<V>, i: nat)
    requires Inv(t, s) && s.phase.Departed? && i < |s.phase.ids|
    ensures i < |s.phase.sent| && HandedOver(s, s.phase.ids[i], s.phase.sent[i])
  {
    var p := s.phase.ids[i];
    assert Depicts(t, s.phase.sent[i], s.pred[p]);
    assert HeldAccounted(s, p) && OwnedAccounted(s, s.phase.sent[i].name);
  }

  // Of the predecessor's ptys, exactly the listed ones went with it.
  lemma HandedOverExactly<V(!new)>(t: Vt<V>, held: map<Pty, Held<V>>, schedule: seq<Action>)
    requires Lawful(t)
    ensures var s := Run(t, Start(held), schedule);
      s.phase.Departed? ==> forall p :: p in s.pred ==> (p in Masters(s) <==> p in s.phase.ids)
  {
    ReachableOk(t, held, schedule);
    var s := Run(t, Start(held), schedule);
    if s.phase.Departed? {
      forall p | p in s.pred ensures p in Masters(s) <==> p in s.phase.ids {
        if p in s.phase.ids {
          var i :| 0 <= i < |s.phase.ids| && s.phase.ids[i] == p;
          MasterOf(s, s.succ.message.ptys[i].name);
        }
      }
    }
  }

  // ---------------------------------------------------------- failed upgrades

  // Of each of the predecessor's ptys, its own terminal has every byte ever read
  // but those that successors of earlier attempts read: all of them, exactly when
  // there was no such read. None is in the present successor's table.
  predicate LosesOnlyOrphaned<V(==)>(s: State<V>) {
    forall p :: p in s.pred ==>
      && p in s.taken && p in s.single && p !in Masters(s)
      && |s.taken[p]| == |s.pred[p].fed| + Gone(s, p)
      && (s.taken[p] == s.pred[p].fed <==> Gone(s, p) == 0)
      && (Gone(s, p) == 0 ==> s.single[p] == s.pred[p].vt)
  }

  lemma UninstalledLoses<V(!new)>(t: Vt<V>, s: State<V>)
    requires Inv(t, s) && !s.succ.Installed?
    ensures !s.phase.Departed? && LosesOnlyOrphaned(s)
  {
    forall p | p in s.pred
      ensures p in s.taken && p in s.single && p !in Masters(s)
      ensures |s.taken[p]| == |s.pred[p].fed| + Gone(s, p)
      ensures s.taken[p] == s.pred[p].fed <==> Gone(s, p) == 0
      ensures Gone(s, p) == 0 ==> s.single[p] == s.pred[p].vt
    {
      assert HeldAccounted(s, p);
    }
  }

  // Until the present successor has installed the ptys, however far the attempt
  // got and however many there were before, the predecessor has not left; what it
  // has lost is exactly what earlier successors read; and giving up leaves it
  // serving every pty with its locks released.
  lemma FailureKeepsServing<V(!new)>(t: Vt<V>, held: map<Pty, Held<V>>, schedule: seq<Action>)
    requires Lawful(t)
    ensures var s := Run(t, Start(held), schedule);
      !s.succ.Installed? ==>
        && !s.phase.Departed? && LosesOnlyOrphaned(s)
        && var s' := Step(t, s, GiveUp);
           s'.phase.Serving? && LosesOnlyOrphaned(s') && s'.pred == s.pred && forall p :: !Locked(s'.phase, p)
  {
    ReachableOk(t, held, schedule);
    var s := Run(t, Start(held), schedule);
    if !s.succ.Installed? {
      UninstalledLoses(t, s);
      GiveUpKeeps(t, s);
      UninstalledLoses(t, Step(t, s, GiveUp));
    }
  }

  predicate NoRestart(schedule: seq<Action>) {
    forall i :: 0 <= i < |schedule| ==> !schedule[i].SuccStart?
  }

  // A refused handoff takes no byte itself.
  lemma FailedStep<V>(t: Vt<V>, s: State<V>, a: Action, p: Pty)
    requires s.succ.Failed? && !a.SuccStart? && (forall n :: n in s.table ==> s.table[n].master != p)
    ensures var s' := Step(t, s, a);
      && s'.succ.Failed? && s'.orphans == s.orphans
      && (Gone(s', p) != Gone(s, p) ==> p in s.orphans)
  {
    if PredMoves(a) {
      PredMovesFrame(t, s, a);
    } else if PredTalks(a) {
      PredTalksFrame(t, s, a);
    } else if SuccMoves(a) {
      SuccMovesFrame(t, s, a);
      MovedGone(t, s, a, p);
    } else if SuccTalks(a) {
      SuccTalksFrame(t, s, a);
      SuccTalksStage(t, s, a);
    }
  }

  lemma MovedGone<V>(t: Vt<V>, s: State<V>, a: Action, p: Pty)
    requires SuccMoves(a) && (forall n :: n in s.table ==> s.table[n].master != p)
    ensures Gone(Step(t, s, a), p) == Gone(s, p)
  {
  }

  lemma {:induction false} FailedRun<V(!new)>(t: Vt<V>, s: State<V>, schedule: seq<Action>, p: Pty)
    requires Lawful(t) && Inv(t, s) && s.succ.Failed? && NoRestart(schedule) && p in s.pred
    ensures var s' := Run(t, s, schedule);
      && Inv(t, s') && s'.succ.Failed? && s'.orphans == s.orphans
      && (Gone(s', p) != Gone(s, p) ==> p in s.orphans)
    decreases |schedule|
  {
    if schedule != [] {
      UninstalledLoses(t, s);
      FailedStep(t, s, schedule[0], p);
      StepKeeps(t, s, schedule[0]);
      PredKept(t, s, schedule[0], p);
      FailedRun(t, Step(t, s, schedule[0]), schedule[1..], p);
    }
  }

  lemma PredKept<V>(t: Vt<V>, s: State<V>, a: Action, p: Pty)
    requires p in s.pred
    ensures p in Step(t, s, a).pred
  {
    if !PredMoves(a) { PredUntouched(t, s, a); }
  }

  // A successor that refused the handoff has refused it for good: as long as no
  // other one is started the predecessor never leaves, and no byte is lost that an
  // orphan of an earlier attempt did not read. And it leaves no orphan behind: the
  // next successor finds things as they were.
  lemma RefusalIsHarmless<V(!new)>(t: Vt<V>, held: map<Pty, Held<V>>, before: seq<Action>, after: seq<Action>, p: Pty)
    requires Lawful(t)
    requires var s := Run(t, Start(held), before); s.succ.Failed? && p in s.pred
    requires NoRestart(after)
    ensures var s := Run(t, Start(held), before);
      var s' := Run(t, s, after);
      && s'.succ.Failed? && !s'.phase.Departed? && LosesOnlyOrphaned(s')
      && (Gone(s', p) != Gone(s, p) ==> p in s.orphans)
      && Step(t, s', SuccStart).orphans == s.orphans && Gone(Step(t, s', SuccStart), p) == Gone(s', p)
  {
    ReachableOk(t, held, before);
    var s := Run(t, Start(held), before);
    FailedRun(t, s, after, p);
    UninstalledLoses(t, Run(t, s, after));
  }

  // -------------------------------------------------- when it stays lossless

  // The successor's terminal for a pty is the never-upgraded one.
  predicate Agrees<V(==)>(s: State<V>, p: Pty) {
    forall n :: n in s.table && s.table[n].master == p ==> p in s.single && s.table[n].vt == s.single[p]
  }

  // Once the predecessor has left, nobody but the successor and orphans reads.
  lemma DepartedStep<V>(t: Vt<V>, s: State<V>, a: Action, n: string)
    requires s.phase.Departed? && s.succ.Installed? && n in s.table
    requires forall k :: k in s.table && k != n ==> s.table[k].master != s.table[n].master
    requires s.table[n].master !in s.orphans
    ensures var s' := Step(t, s, a);
      && s'.phase == s.phase && s'.pred == s.pred && s'.orphans == s.orphans
      && n in s'.table && s'.table[n].master == s.table[n].master
      && (SoleReader(s, n) ==> SoleReader(s', n))
  {
    if PredMoves(a) {
      PredMovesFrame(t, s, a);
      DepartedPred(t, s, a);
    } else if PredTalks(a) {
      DepartedTalks(t, s, a);
    } else if SuccMoves(a) {
      SuccMovesFrame(t, s, a);
      DepartedMoves(t, s, a, n);
    } else if SuccTalks(a) {
      SuccTalksFrame(t, s, a);
    }
  }

  lemma DepartedPred<V>(t: Vt<V>, s: State<V>, a: Action)
    requires s.phase.Departed? && PredMoves(a)
    ensures Step(t, s, a) == s
  {
  }

  lemma DepartedMoves<V>(t: Vt<V>, s: State<V>, a: Action, n: string)
    requires SuccMoves(a) && n in s.table
    requires forall k :: k in s.table && k != n ==> s.table[k].master != s.table[n].master
    ensures var s' := Step(t, s, a);
      n in s'.table && s'.table[n].master == s.table[n].master && (SoleReader(s, n) ==> SoleReader(s', n))
  {
  }

  lemma {:induction false} DepartedAgrees<V(!new)>(t: Vt<V>, s: State<V>, n: string, more: seq<Action>)
    requires Lawful(t) && Inv(t, s) && s.phase.Departed? && n in s.table && s.table[n].master in s.pred
    requires SoleReader(s, n) && s.table[n].master !in s.orphans
    ensures Agrees(Run(t, s, more), s.table[n].master)
    decreases |more|
  {
    if more == [] {
      var p := s.table[n].master;
      assert OwnedAccounted(s, n);
      forall k | k in s.table && s.table[k].master == p ensures p in s.single && s.table[k].vt == s.single[p] {}
    } else {
      DepartedStep(t, s, more[0], n);
      StepKeeps(t, s, more[0]);
      DepartedAgrees(t, Step(t, s, more[0]), n, more[1..]);
    }
  }

  lemma EntryOf<V>(s: State<V>, p: Pty) returns (n: string)
    requires SuccOk(s) && s.succ.Installed? && p in s.succ.message.masters
    ensures n in s.table && s.table[n].master == p
  {
    var i :| 0 <= i < |s.succ.message.masters| && s.succ.message.masters[i] == p;
    n := s.succ.message.ptys[i].name;
  }

  // A predecessor that has not left can still give up and read the pty.
  lemma UndepartedSplits(s: State<Transcript>, p: Pty) returns (more: seq<Action>)
    requires Inv(TranscriptVt(), s) && s.succ.Installed? && !s.phase.Departed?
    requires p in s.succ.message.masters && p in s.pred && !s.pred[p].exited
    ensures !Agrees(Run(TranscriptVt(), s, more), p)
  {
    var t := TranscriptVt();
    if !Agrees(s, p) {
      more := [];
    } else {
      more := [GiveUp] + [PredRead(p, [120])];
      var s2 := Step(t, Step(t, s, GiveUp), PredRead(p, [120]));
      RunCons(t, s, GiveUp, [PredRead(p, [120])]);
      OneStep(t, Step(t, s, GiveUp), PredRead(p, [120]));
      var n := EntryOf(s, p);
      assert s.table[n].vt == s.single[p];
      assert |s2.single[p].fed| == |s.single[p].fed| + 1;
      assert s2.table == s.table;
    }
  }

  // And so can an orphan that holds the pty, even after the predecessor left.
  lemma OrphanSplits(s: State<Transcript>, p: Pty) returns (more: seq<Action>)
    requires Inv(TranscriptVt(), s) && s.succ.Installed? && p in s.succ.message.masters && p in s.orphans
    ensures !Agrees(Run(TranscriptVt(), s, more), p)
  {
    var t := TranscriptVt();
    if !Agrees(s, p) {
      more := [];
    } else {
      more := [OrphanRead(p, [120])];
      OneStep(t, s, OrphanRead(p, [120]));
      var n := EntryOf(s, p);
      assert s.table[n].vt == s.single[p];
      assert |Step(t, s, OrphanRead(p, [120])).single[p].fed| == |s.single[p].fed| + 1;
    }
  }

  // A transcript's length tells how many bytes it was fed.
  predicate HeldMeasured(s: State<Transcript>, p: Pty)
    requires p in s.pred && p in s.taken && p in s.single
  {
    |s.single[p].fed| - |s.pred[p].vt.fed| == |s.taken[p]| - |s.pred[p].fed|
  }

  predicate OwnedMeasured(s: State<Transcript>, n: string)
    requires n in s.table
  {
    var o := s.table[n];
    o.master in s.pred && Bound(s) ==> |o.vt.fed| == |s.pred[o.master].vt.fed| + |o.fed|
  }

  ghost predicate Measured(s: State<Transcript>)
    requires TableOk(s)
  {
    && (forall p :: p in s.pred ==> HeldMeasured(s, p))
    && (forall n :: n in s.table ==> OwnedMeasured(s, n))
  }

  // Bytes read by anyone lengthen both sides of the measure alike.
  lemma TakenMeasure(s: State<Transcript>, pty: Pty, chunk: seq<byte>, p: Pty)
    requires pty in s.taken && pty in s.single && p in s.taken && p in s.single
    ensures var s' := TakeBytes(TranscriptVt(), s, pty, chunk);
      && p in s'.taken && p in s'.single
      && |s'.single[p].fed| - |s'.taken[p]| == |s.single[p].fed| - |s.taken[p]|
  {
  }

  predicate SameMeasure(s: State<Transcript>, s': State<Transcript>, p: Pty)
    requires p in s.pred && p in s.taken && p in s.single
  {
    && p in s'.pred && p in s'.taken && p in s'.single
    && |s'.single[p].fed| - |s'.taken[p]| == |s.single[p].fed| - |s.taken[p]|
    && |s'.pred[p].vt.fed| - |s'.pred[p].fed| == |s.pred[p].vt.fed| - |s.pred[p].fed|
  }

  lemma PredReadMeasure(s: State<Transcript>, pty: Pty, chunk: seq<byte>, p: Pty)
    requires p in s.pred && p in s.taken && p in s.single
    ensures SameMeasure(s, PredReadStep(TranscriptVt(), s, pty, chunk), p)
  {
    if PredCanTouch(s, pty) { TakenMeasure(s, pty, chunk, p); }
  }

  lemma PredResizeMeasure(s: State<Transcript>, pty: Pty, cols: nat, rows: nat, p: Pty)
    requires p in s.pred && p in s.taken && p in s.single
    ensures SameMeasure(s, PredResizeStep(TranscriptVt(), s, pty, cols, rows), p)
  {
  }

  lemma SuccReadMeasure(s: State<Transcript>, name: string, chunk: seq<byte>, p: Pty)
    requires p in s.pred && p in s.taken && p in s.single
    ensures SameMeasure(s, SuccReadStep(TranscriptVt(), s, name, chunk), p)
  {
    if SuccCanTouch(s, name) { TakenMeasure(s, s.table[name].master, chunk, p); }
  }

  lemma SuccResizeMeasure(s: State<Transcript>, name: string, cols: nat, rows: nat, p: Pty)
    requires p in s.pred && p in s.taken && p in s.single
    ensures SameMeasure(s, SuccResizeStep(TranscriptVt(), s, name, cols, rows), p)
  {
  }

  lemma OrphanReadMeasure(s: State<Transcript>, pty: Pty, chunk: seq<byte>, p: Pty)
    requires p in s.pred && p in s.taken && p in s.single
    ensures SameMeasure(s, OrphanReadStep(TranscriptVt(), s, pty, chunk), p)
  {
    if pty in s.taken && pty in s.single { TakenMeasure(s, pty, chunk, p); }
  }

  lemma OpenMeasure(s: State<Transcript>, a: Action, p: Pty)
    requires TableOk(s) && (a.PredOpen? || a.SuccOpen?) && p in s.pred
    ensures SameMeasure(s, Step(TranscriptVt(), s, a), p)
  {
  }

  lemma NoteMeasure(s: State<Transcript>, a: Action, p: Pty)
    requires p in s.pred && p in s.taken && p in s.single && (a.PredLease? || a.PredExit?)
    ensures SameMeasure(s, Step(TranscriptVt(), s, a), p)
  {
  }

  // A session the predecessor notes something on, or any other step.
  lemma QuietMeasure(s: State<Transcript>, a: Action, p: Pty)
    requires p in s.pred && p in s.taken && p in s.single
    requires !(a.PredOpen? || a.PredRead? || a.PredResize? || SuccMoves(a) || a.OrphanRead?)
    ensures SameMeasure(s, Step(TranscriptVt(), s, a), p)
  {
    var t := TranscriptVt();
    if a.PredLease? || a.PredExit? {
      NoteMeasure(s, a, p);
    } else if PredTalks(a) {
      PredTalksFrame(t, s, a);
    } else if SuccTalks(a) {
      SuccTalksFrame(t, s, a);
    }
  }

  lemma HeldMeasuredStep(s: State<Transcript>, a: Action, p: Pty)
    requires TableOk(s) && Measured(s) && p in s.pred
    ensures SameMeasure(s, Step(TranscriptVt(), s, a), p)
  {
    if a.PredOpen? || a.SuccOpen? {
      OpenMeasure(s, a, p);
    } else if a.PredRead? || a.PredResize? {
      PredMeasure(s, a, p);
    } else if a.SuccRead? || a.SuccResize? || a.OrphanRead? {
      SuccMeasure(s, a, p);
    } else {
      QuietMeasure(s, a, p);
    }
  }

  lemma PredMeasure(s: State<Transcript>, a: Action, p: Pty)
    requires p in s.pred && p in s.taken && p in s.single && (a.PredRead? || a.PredResize?)
    ensures SameMeasure(s, Step(TranscriptVt(), s, a), p)
  {
    match a
    case PredRead(pty, chunk) => PredReadMeasure(s, pty, chunk, p);
    case PredResize(pty, cols, rows) => PredResizeMeasure(s, pty, cols, rows, p);
  }

  lemma SuccMeasure(s: State<Transcript>, a: Action, p: Pty)
    requires p in s.pred && p in s.taken && p in s.single && (a.SuccRead? || a.SuccResize? || a.OrphanRead?)
    ensures SameMeasure(s, Step(TranscriptVt(), s, a), p)
  {
    match a
    case SuccRead(name, chunk) => SuccReadMeasure(s, name, chunk, p);
    case SuccResize(name, cols, rows) => SuccResizeMeasure(s, name, cols, rows, p);
    case OrphanRead(pty, chunk) => OrphanReadMeasure(s, pty, chunk, p);
  }

  lemma NewHeldMeasured(s: State<Transcript>, a: Action, p: Pty)
    requires p !in s.pred && p in Step(TranscriptVt(), s, a).pred
    ensures var s' := Step(TranscriptVt(), s, a);
      && p in s'.taken && p in s'.single
      && |s'.single[p].fed| == |s'.pred[p].vt.fed| && |s'.taken[p]| == |s'.pred[p].fed|
  {
    if !PredMoves(a) { PredUntouched(TranscriptVt(), s, a); }
  }

  lemma OwnedMeasuredStep(s: State<Transcript>, a: Action, n: string)
    requires Inv(TranscriptVt(), s) && Measured(s) && n in Step(TranscriptVt(), s, a).table
    ensures OwnedMeasured(Step(TranscriptVt(), s, a), n)
  {
    if PredMoves(a) {
      OwnedMeasuredPred(s, a, n);
    } else if PredTalks(a) {
      OwnedMeasuredTalk(s, a, n);
    } else if SuccMoves(a) {
      OwnedMeasuredSucc(s, a, n);
    } else if a.SuccAdopt? {
      AdoptMeasured(s, n);
    } else {
      OwnedMeasuredOther(s, a, n);
    }
  }

  lemma OwnedMeasuredTalk(s: State<Transcript>, a: Action, n: string)
    requires SuccOk(s) && TableOk(s) && Measured(s) && PredTalks(a) && n in Step(TranscriptVt(), s, a).table
    ensures OwnedMeasured(Step(TranscriptVt(), s, a), n)
  {
    var s' := Step(TranscriptVt(), s, a);
    PredTalksOnly(TranscriptVt(), s, a);
    BoundKept(TranscriptVt(), s, a);
    assert n in s.table && OwnedMeasured(s, n);
    SameOwnedMeasure(s, s', n);
  }

  lemma SameOwnedMeasure(s: State<Transcript>, s': State<Transcript>, n: string)
    requires n in s.table && OwnedMeasured(s, n) && s'.table == s.table && s'.pred == s.pred
    requires s.table[n].master in s.pred && Bound(s') ==> Bound(s)
    ensures OwnedMeasured(s', n)
  {
  }

  lemma OwnedMeasuredPred(s: State<Transcript>, a: Action, n: string)
    requires Inv(TranscriptVt(), s) && Measured(s) && PredMoves(a) && n in Step(TranscriptVt(), s, a).table
    ensures OwnedMeasured(Step(TranscriptVt(), s, a), n)
  {
    var t := TranscriptVt();
    PredMovesFrame(t, s, a);
    assert OwnedMeasured(s, n);
    var p := s.table[n].master;
    if Bound(s) && p in s.pred {
      MasterOf(s, n);
      if PredCanTouch(s, p) { ReadableIsUnowned(t, s, p); }
      UntouchedLength(s, a, p);
    } else if p !in s.pred {
      NewcomerUnowned(s, a, p);
    }
  }

  lemma NewcomerUnowned(s: State<Transcript>, a: Action, p: Pty)
    requires p in s.taken && p !in s.pred
    ensures p !in Step(TranscriptVt(), s, a).pred
  {
    if !PredMoves(a) { PredUntouched(TranscriptVt(), s, a); }
  }

  // A session the predecessor cannot touch keeps its terminal and bytes.
  lemma UntouchedLength(s: State<Transcript>, a: Action, p: Pty)
    requires PredMoves(a) && p in s.pred && !PredCanTouch(s, p) && p in s.taken
    ensures var s' := Step(TranscriptVt(), s, a);
      p in s'.pred && s'.pred[p].fed == s.pred[p].fed && s'.pred[p].vt == s.pred[p].vt
  {
    if a.PredRead? || a.PredResize? { UntouchedByReads(s, a, p); }
  }

  lemma UntouchedByReads(s: State<Transcript>, a: Action, p: Pty)
    requires (a.PredRead? || a.PredResize?) && p in s.pred && !PredCanTouch(s, p)
    ensures p in Step(TranscriptVt(), s, a).pred && Step(TranscriptVt(), s, a).pred[p] == s.pred[p]
  {
  }

  lemma OwnedMeasuredSucc(s: State<Transcript>, a: Action, n: string)
    requires TableOk(s) && Measured(s) && SuccMoves(a) && n in Step(TranscriptVt(), s, a).table
    ensures OwnedMeasured(Step(TranscriptVt(), s, a), n)
  {
    SuccMovesFrame(TranscriptVt(), s, a);
    SuccMovesLength(s, a, n);
    if n in s.table { assert OwnedMeasured(s, n); }
  }

  lemma SuccMovesLength(s: State<Transcript>, a: Action, n: string)
    requires SuccMoves(a) && n in Step(TranscriptVt(), s, a).table
    ensures var o' := Step(TranscriptVt(), s, a).table[n];
      if n in s.table then
        o'.master == s.table[n].master && |o'.vt.fed| - |o'.fed| == |s.table[n].vt.fed| - |s.table[n].fed|
      else o'.master !in s.pred
  {
  }

  lemma OwnedMeasuredOther(s: State<Transcript>, a: Action, n: string)
    requires TableOk(s) && Measured(s) && n in Step(TranscriptVt(), s, a).table
    requires SuccTalks(a) || a.SuccStart? || a.OrphanRead?
    ensures OwnedMeasured(Step(TranscriptVt(), s, a), n)
  {
    if SuccTalks(a) {
      OwnedMeasuredAnswer(s, a, n);
    } else if a.OrphanRead? {
      OrphanFrame(TranscriptVt(), s, a.pty, a.chunk);
      assert OwnedMeasured(s, n);
    } else if !s.phase.Serving? {
      assert OwnedMeasured(s, n);
    }
  }

  lemma OwnedMeasuredAnswer(s: State<Transcript>, a: Action, n: string)
    requires TableOk(s) && Measured(s) && SuccTalks(a) && n in Step(TranscriptVt(), s, a).table
    ensures OwnedMeasured(Step(TranscriptVt(), s, a), n)
  {
    SuccTalksFrame(TranscriptVt(), s, a);
    assert OwnedMeasured(s, n);
    if s.succ.Installed? { AnswerBound(TranscriptVt(), s, a); }
    SameOwnedMeasure(s, Step(TranscriptVt(), s, a), n);
  }

  // Short of installing, nothing the successor answers binds anyone.
  lemma AnswerBound<V>(t: Vt<V>, s: State<V>, a: Action)
    requires SuccTalks(a)
    ensures Bound(Step(t, s, a)) && s.succ.Installed? ==> Bound(s)
  {
    SuccTalksFrame(t, s, a);
    SuccTalksStage(t, s, a);
  }

  lemma OrphanFrame<V>(t: Vt<V>, s: State<V>, pty: Pty, chunk: seq<byte>)
    ensures var s' := OrphanReadStep(t, s, pty, chunk); QuietProtocol(s, s') && s'.pred == s.pred && s'.table == s.table
  {
  }

  lemma AdoptMeasured(s: State<Transcript>, n: string)
    requires Inv(TranscriptVt(), s) && Measured(s) && n in SuccAdoptStep(TranscriptVt(), s).table
    ensures OwnedMeasured(SuccAdoptStep(TranscriptVt(), s), n)
  {
    if s.succAlive && s.succ.Received? && Adoptable(s, s.succ.message) {
      if n in s.table {
        KeptEntry(TranscriptVt(), s, n);
        assert OwnedMeasured(s, n);
      } else {
        AdoptedMeasured(s, n);
      }
    } else {
      assert OwnedMeasured(s, n);
    }
  }

  lemma AdoptedMeasured(s: State<Transcript>, n: string)
    requires Inv(TranscriptVt(), s) && s.succAlive && s.succ.Received? && Adoptable(s, s.succ.message)
    requires n in SuccAdoptStep(TranscriptVt(), s).table && n !in s.table
    ensures OwnedMeasured(SuccAdoptStep(TranscriptVt(), s), n)
  {
    var i := AdoptedEntry(TranscriptVt(), s, n);
    if Bound(SuccAdoptStep(TranscriptVt(), s)) {
      assert Depicts(TranscriptVt(), s.phase.sent[i], s.pred[s.phase.ids[i]]);
    }
  }

  lemma {:induction false} RunMeasured(s: State<Transcript>, schedule: seq<Action>)
    requires Inv(TranscriptVt(), s) && Measured(s)
    ensures Inv(TranscriptVt(), Run(TranscriptVt(), s, schedule)) && Measured(Run(TranscriptVt(), s, schedule))
    decreases |schedule|
  {
    if schedule != [] {
      var t := TranscriptVt();
      TranscriptIsLawful();
      var s' := Step(t, s, schedule[0]);
      StepKeeps(t, s, schedule[0]);
      forall p | p in s'.pred ensures HeldMeasured(s', p) {
        if p in s.pred {
          assert HeldMeasured(s, p);
          HeldMeasuredStep(s, schedule[0], p);
        } else {
          NewHeldMeasured(s, schedule[0], p);
        }
      }
      forall n | n in s'.table ensures OwnedMeasured(s', n) { OwnedMeasuredStep(s, schedule[0], n); }
      RunMeasured(s', schedule[1..]);
    }
  }

  // Where an earlier successor has read the pty, the terminals differ already.
  lemma StrayTells(s: State<Transcript>, n: string)
    requires Inv(TranscriptVt(), s) && Measured(s) && s.phase.Departed? && n in s.table && s.table[n].master in s.pred
    ensures SoleReader(s, n) <==> s.table[n].vt == s.single[s.table[n].master]
  {
    var p := s.table[n].master;
    assert HeldAccounted(s, p) && OwnedAccounted(s, n) && HeldMeasured(s, p) && OwnedMeasured(s, n);
  }

  // Nothing can still come between the successor's terminal and the stream.
  predicate Settled(s: State<Transcript>, n: string)
    requires n in s.table
  {
    s.phase.Departed? && SoleReader(s, n) && s.table[n].master !in s.orphans
  }

  lemma SettledAgrees(s: State<Transcript>, n: string)
    requires Inv(TranscriptVt(), s) && n in s.table && s.table[n].master in s.pred && Settled(s, n)
    ensures forall more :: Agrees(Run(TranscriptVt(), s, more), s.table[n].master)
  {
    TranscriptIsLawful();
    forall more ensures Agrees(Run(TranscriptVt(), s, more), s.table[n].master) {
      DepartedAgrees(TranscriptVt(), s, n, more);
    }
  }

  lemma UnsettledSplits(s: State<Transcript>, p: Pty, n: string) returns (more: seq<Action>)
    requires Inv(TranscriptVt(), s) && Measured(s) && s.succ.Installed?
    requires p in s.succ.message.masters && p in s.pred && !s.pred[p].exited
    requires n in s.table && s.table[n].master == p && !Settled(s, n)
    ensures !Agrees(Run(TranscriptVt(), s, more), p)
  {
    if !s.phase.Departed? {
      more := UndepartedSplits(s, p);
    } else if p in s.orphans {
      more := OrphanSplits(s, p);
    } else {
      StrayTells(s, n);
      more := [];
    }
  }

  // Once a successor has installed a listed, live pty, its terminal is bound to
  // stay the never-upgraded one if and only if the predecessor took the
  // acknowledgement and left, no earlier successor has read the pty, and none
  // still holds it. The terminal here keeps a transcript, so it tells any missing
  // byte.
  lemma LosslessExactly(held: map<Pty, Held<Transcript>>, schedule: seq<Action>, p: Pty, n: string)
    requires var s := Run(TranscriptVt(), Start(held), schedule);
      && s.succ.Installed? && p in s.succ.message.masters && p in s.pred && !s.pred[p].exited
      && n in s.table && s.table[n].master == p
    ensures var s := Run(TranscriptVt(), Start(held), schedule);
      (forall more :: Agrees(Run(TranscriptVt(), s, more), p)) <==> Settled(s, n)
  {
    StartKeeps(TranscriptVt(), held);
    RunMeasured(Start(held), schedule);
    var s := Run(TranscriptVt(), Start(held), schedule);
    if Settled(s, n) {
      SettledAgrees(s, n);
    } else {
      var more := UnsettledSplits(s, p, n);
    }
  }

  // ------------------------------------------------------------------ leases

  // The lease a run leaves on a predecessor's session that had `d`.
  function LastLease<V>(t: Vt<V>, s: State<V>, schedule: seq<Action>, p: Pty, d: Option<nat>): Option<nat>
    decreases |schedule|
  {
    if schedule == [] then d
    else
      var a := schedule[0];
      LastLease(t, Step(t, s, a), schedule[1..], p,
        if a.PredLease? && a.pty == p && !s.phase.Departed? then a.deadline else d)
  }

  lemma LeaseStep<V>(t: Vt<V>, s: State<V>, a: Action, p: Pty)
    requires p in s.pred
    ensures var s' := Step(t, s, a);
      && p in s'.pred
      && s'.pred[p].deadline
        == if a.PredLease? && a.pty == p && !s.phase.Departed? then a.deadline else s.pred[p].deadline
  {
    if !PredMoves(a) { PredUntouched(t, s, a); }
  }

  lemma PredUntouched<V>(t: Vt<V>, s: State<V>, a: Action)
    requires !PredMoves(a)
    ensures Step(t, s, a).pred == s.pred
  {
    if PredTalks(a) {
      PredTalksFrame(t, s, a);
    } else if SuccMoves(a) {
      SuccMovesFrame(t, s, a);
    } else if SuccTalks(a) {
      SuccTalksFrame(t, s, a);
    }
  }

  lemma {:induction false} LeaseFollows<V>(t: Vt<V>, s: State<V>, schedule: seq<Action>, p: Pty)
    requires p in s.pred
    ensures p in Run(t, s, schedule).pred
    ensures Run(t, s, schedule).pred[p].deadline == LastLease(t, s, schedule, p, s.pred[p].deadline)
    decreases |schedule|
  {
    if schedule != [] {
      LeaseStep(t, s, schedule[0], p);
      LeaseFollows(t, Step(t, s, schedule[0]), schedule[1..], p);
    }
  }

  // Entry `i` of this attempt's message is `m`, already sent or still to be.
  predicate Snapped<V>(s: State<V>, attempt: nat, p: Pty, i: nat, m: MigratePty) {
    s.attempt == attempt &&
    match s.phase
    case Rendering(ids, done) => i < |done| && done[i] == m && i < |ids| && ids[i] == p
    case Awaiting(ids, sent) => i < |sent| && sent[i] == m && i < |ids| && ids[i] == p
    case Departed(ids, sent) => i < |sent| && sent[i] == m && i < |ids| && ids[i] == p
    case _ => false
  }

  predicate Abandoned<V>(s: State<V>, attempt: nat) {
    s.attempt > attempt || (s.attempt == attempt && s.phase.Serving?)
  }

  lemma SnappedStep<V>(t: Vt<V>, s: State<V>, a: Action, attempt: nat, p: Pty, i: nat, m: MigratePty)
    requires Snapped(s, attempt, p, i, m) || Abandoned(s, attempt)
    ensures Snapped(Step(t, s, a), attempt, p, i, m) || Abandoned(Step(t, s, a), attempt)
  {
    if PredTalks(a) {
      SnappedTalks(t, s, a, attempt, p, i, m);
    } else {
      PhaseUntouched(t, s, a);
    }
  }

  lemma PhaseUntouched<V>(t: Vt<V>, s: State<V>, a: Action)
    requires !PredTalks(a)
    ensures Step(t, s, a).phase == s.phase && Step(t, s, a).attempt == s.attempt
  {
    if PredMoves(a) {
      PredMovesFrame(t, s, a);
    } else if SuccMoves(a) {
      SuccMovesFrame(t, s, a);
    } else if SuccTalks(a) {
      SuccTalksFrame(t, s, a);
    }
  }

  lemma SnappedTalks<V>(t: Vt<V>, s: State<V>, a: Action, attempt: nat, p: Pty, i: nat, m: MigratePty)
    requires PredTalks(a) && (Snapped(s, attempt, p, i, m) || Abandoned(s, attempt))
    ensures Snapped(Step(t, s, a), attempt, p, i, m) || Abandoned(Step(t, s, a), attempt)
  {
    match a
    case Signal(_) =>
    case Lock =>
    case Render =>
    case Send =>
    case GiveUp =>
    case TakeAck =>
  }

  lemma {:induction false} SnappedRun<V>(
      t: Vt<V>, s: State<V>, schedule: seq<Action>, attempt: nat, p: Pty, i: nat, m: MigratePty)
    requires Snapped(s, attempt, p, i, m) || Abandoned(s, attempt)
    ensures Snapped(Run(t, s, schedule), attempt, p, i, m) || Abandoned(Run(t, s, schedule), attempt)
    decreases |schedule|
  {
    if schedule != [] {
      SnappedStep(t, s, schedule[0], attempt, p, i, m);
      SnappedRun(t, Step(t, s, schedule[0]), schedule[1..], attempt, p, i, m);
    }
  }

  // The successor gets the lease the pty had when it was snapshotted. That is the
  // predecessor's own at its departure if and only if the closes and reopens it
  // accepted after the snapshot ended where they began: none of them is handed over.
  lemma LeaseAtDeparture<V(!new)>(t: Vt<V>, held: map<Pty, Held<V>>, before: seq<Action>, after: seq<Action>)
    requires Lawful(t)
    requires var s := Run(t, Start(held), before);
      s.phase.Rendering? && |s.phase.done| < |s.phase.ids| && s.phase.ids[|s.phase.done|] in s.pred
    ensures var s := Run(t, Start(held), before);
      var p := s.phase.ids[|s.phase.done|];
      var s1 := Step(t, s, Render);
      var s' := Run(t, s1, after);
      s'.phase.Departed? && s'.attempt == s.attempt ==>
        && p in s'.pred && s.pred[p].name in s'.table
        && var o := s'.table[s.pred[p].name];
           && o.master == p && o.deadline == s.pred[p].deadline
           && (o.deadline == s'.pred[p].deadline <==>
                 LastLease(t, s1, after, p, s.pred[p].deadline) == s.pred[p].deadline)
  {
    var s := Run(t, Start(held), before);
    var i := |s.phase.done|;
    var p := s.phase.ids[i];
    var s1 := Step(t, s, Render);
    var s' := Run(t, s1, after);
    ReachableOk(t, held, before);
    StepKeeps(t, s, Render);
    RunKeeps(t, s1, after);
    LeaseFollows(t, s1, after, p);
    SnappedRun(t, s1, after, s.attempt, p, i, Snapshot(t, s.pred[p]));
    if s'.phase.Departed? && s'.attempt == s.attempt {
      DepartedEntry(t, s', i);
    }
  }

  lemma DepartedEntry<V(!new)>(t: Vt<V>, s: State<V>, i: nat)
    requires Inv(t, s) && s.phase.Departed? && i < |s.phase.ids|
    ensures i < |s.phase.sent| && s.phase.sent[i].name in s.table
    ensures var o := s.table[s.phase.sent[i].name];
      o.master == s.phase.ids[i] && o.deadline == s.phase.sent[i].deadline
  {
    assert s.succ.message.ptys[i].name in s.table;
  }
}
