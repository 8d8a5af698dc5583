/**
 Runs of the self-upgrade that show where its promises end: a lost
 acknowledgement, a successor that read before it failed, a pty and a lease that
 came too late. One pty is enough for each.
 */
module HandoffRuns {
  import opened Wrappers
  import opened Terminal
  import opened Handoff
  import opened HandoffOutcomes

  lemma TwoSteps<V>(t: Vt<V>, s: State<V>, x: Action, y: Action)
    ensures Run(t, s, [x, y]) == Step(t, Step(t, s, x), y)
  {
    assert [x, y] == [x] + [y];
    RunCons(t, s, x, [y]);
    OneStep(t, Step(t, s, x), y);
  }

  lemma ThreeSteps<V>(t: Vt<V>, s: State<V>, x: Action, y: Action, z: Action)
    ensures Run(t, s, [x, y, z]) == Step(t, Step(t, Step(t, s, x), y), z)
  {
    assert [x, y, z] == [x] + [y, z];
    RunCons(t, s, x, [y, z]);
    TwoSteps(t, Step(t, s, x), y, z);
  }

  const PTY0 := PredOpen(0, "a", [], 1, 80, 24)
  const BLANK := Transcript(80, 24, [])
  const HELD0: Held<Transcript> := Held("a", [], 1, None, BLANK, [], false)
  const MIGRATE0 := MigratePty("a", [], 1, 80, 24, [], None)
  const OWNED0: Owned<Transcript> := Owned(0, [], 1, None, BLANK, [])
  const NOBODY: map<Pty, Held<Transcript>> := map[]

  function Message0(attempt: nat): Message { Message(attempt, [MIGRATE0], [0]) }

  // One pty whose own terminal is still blank, and a successor listening.
  predicate Ready0(s: State<Transcript>) {
    && s.pred == map[0 := HELD0] && s.phase.Serving? && s.table == map[]
    && s.succ.Listening? && s.succAlive
  }

  // Such a state with the upgrade so far along.
  function At0(
      s: State<Transcript>, phase: Predecessor, attempt: nat, wire: Option<Message>, acked: Option<nat>,
      table: map<string, Owned<Transcript>>, succ: Successor): State<Transcript>
  {
    State(s.taken, s.single, s.pred, phase, attempt, wire, acked, table, succ, true, s.gone, s.orphans)
  }

  function Listed0(s: State<Transcript>, locked: nat): State<Transcript> {
    At0(s, Locking([0], locked), s.attempt + 1, s.wire, s.acked, map[], Listening)
  }

  function Rendering0(s: State<Transcript>, done: seq<MigratePty>): State<Transcript> {
    At0(s, Rendering([0], done), s.attempt + 1, s.wire, s.acked, map[], Listening)
  }

  function Sent0(s: State<Transcript>, succ: Successor): State<Transcript> {
    At0(s, Awaiting([0], [MIGRATE0]), s.attempt + 1, Some(Message0(s.attempt + 1)), s.acked, map[], succ)
  }

  function Adopted0(s: State<Transcript>, acked: Option<nat>): State<Transcript> {
    At0(s, Awaiting([0], [MIGRATE0]), s.attempt + 1, Some(Message0(s.attempt + 1)), acked,
        map["a" := OWNED0], Installed(Message0(s.attempt + 1)))
  }

  function Acked0(s: State<Transcript>): State<Transcript> { Adopted0(s, Some(s.attempt + 1)) }

  lemma Lists(s: State<Transcript>)
    requires Ready0(s)
    ensures Step(TranscriptVt(), s, Signal([0])) == Listed0(s, 0)
  {
  }

  lemma Locks(s: State<Transcript>)
    requires Ready0(s)
    ensures LockStep(Listed0(s, 0)) == Listed0(s, 1) && LockStep(Listed0(s, 1)) == Rendering0(s, [])
  {
  }

  lemma Renders(s: State<Transcript>)
    requires Ready0(s)
    ensures RenderStep(TranscriptVt(), Rendering0(s, [])) == Rendering0(s, [MIGRATE0])
  {
    var t := TranscriptVt();
    assert t.size(BLANK) == (80, 24) && t.render(BLANK) == [];
    assert Rendering0(s, []).phase.done + [MIGRATE0] == [MIGRATE0];
  }

  lemma Sends(s: State<Transcript>)
    requires Ready0(s)
    ensures SendStep(Rendering0(s, [MIGRATE0])) == Sent0(s, Listening)
  {
  }

  lemma IncomingOne(attempt: nat)
    ensures Incoming(TranscriptVt(), Message0(attempt)) == map["a" := OWNED0]
  {
    var t := TranscriptVt();
    TranscriptIsLawful();
    assert t.feed(BLANK, []) == BLANK;
    var m := Message0(attempt);
    assert m.ptys[..0] == [] && m.masters[..0] == [];
    assert Incoming(t, Message(attempt, [], [])) == map[];
  }

  lemma Receives(s: State<Transcript>)
    ensures SuccReceiveStep(Sent0(s, Listening)) == Sent0(s, Received(Message0(s.attempt + 1)))
  {
  }

  lemma Adopts(s: State<Transcript>)
    ensures SuccAdoptStep(TranscriptVt(), Sent0(s, Received(Message0(s.attempt + 1)))) == Adopted0(s, s.acked)
  {
    var received := Sent0(s, Received(Message0(s.attempt + 1)));
    IncomingOne(s.attempt + 1);
    assert Adoptable(received, Message0(s.attempt + 1));
    assert received.table + map["a" := OWNED0] == map["a" := OWNED0];
  }

  lemma Acks(s: State<Transcript>)
    ensures Step(TranscriptVt(), Adopted0(s, s.acked), SuccAck) == Acked0(s)
  {
  }

  const FIRST := [Signal([0]), Lock, Lock]
  const SECOND := [Render, Send]
  const THIRD := [SuccReceive, SuccAdopt, SuccAck]

  lemma PredecessorHalf(s: State<Transcript>)
    requires Ready0(s)
    ensures Run(TranscriptVt(), s, FIRST + SECOND) == Sent0(s, Listening)
  {
    var t := TranscriptVt();
    RunConcat(t, s, FIRST, SECOND);
    ThreeSteps(t, s, Signal([0]), Lock, Lock);
    Lists(s);
    Locks(s);
    TwoSteps(t, Rendering0(s, []), Render, Send);
    Renders(s);
    Sends(s);
  }

  lemma SuccessorHalf(s: State<Transcript>)
    ensures Run(TranscriptVt(), Sent0(s, Listening), THIRD) == Acked0(s)
  {
    ThreeSteps(TranscriptVt(), Sent0(s, Listening), SuccReceive, SuccAdopt, SuccAck);
    Receives(s);
    Adopts(s);
    Acks(s);
  }

  // The whole handoff, as far as the predecessor's decision.
  lemma HandsOver(s: State<Transcript>)
    requires Ready0(s)
    ensures Run(TranscriptVt(), s, (FIRST + SECOND) + THIRD) == Acked0(s)
  {
    RunConcat(TranscriptVt(), s, FIRST + SECOND, THIRD);
    PredecessorHalf(s);
    SuccessorHalf(s);
  }

  const OPEN0: State<Transcript> := State(
    map[0 := []], map[0 := BLANK], map[0 := HELD0], Serving, 0, None, None, map[], Listening, true, map[], {})

  lemma Opens()
    ensures Step(TranscriptVt(), Start(NOBODY), PTY0) == OPEN0
  {
  }

  // One pty handed over and acknowledged, followed by whatever comes next.
  lemma AfterAck(rest: seq<Action>) returns (schedule: seq<Action>)
    ensures Run(TranscriptVt(), Start(NOBODY), schedule) == Run(TranscriptVt(), Acked0(OPEN0), rest)
  {
    var t := TranscriptVt();
    schedule := [PTY0] + (((FIRST + SECOND) + THIRD) + rest);
    RunCons(t, Start(NOBODY), PTY0, ((FIRST + SECOND) + THIRD) + rest);
    Opens();
    RunConcat(t, OPEN0, (FIRST + SECOND) + THIRD, rest);
    HandsOver(OPEN0);
  }

  // The acknowledgement is written but the predecessor has stopped waiting: both
  // daemons now read the pty, and the successor's terminal misses a byte.
  lemma LostAckSplitsTheStream() returns (schedule: seq<Action>)
    ensures var s := Run(TranscriptVt(), Start(NOBODY), schedule);
      && s.phase.Serving? && s.succ.Installed? && s.acked == Some(s.attempt)
      && "a" in s.table && s.table["a"].master in s.single
      && s.table["a"].vt != s.single[s.table["a"].master]
  {
    schedule := AfterAck([GiveUp, PredRead(0, [120])]);
    TwoSteps(TranscriptVt(), Acked0(OPEN0), GiveUp, PredRead(0, [120]));
    var s := Run(TranscriptVt(), Start(NOBODY), schedule);
    assert s.single[0] == Transcript(80, 24, [] + [120]);
    assert |s.single[0].fed| == 1;
  }

  const STRAYED: State<Transcript> := State(
    map[0 := [120]], map[0 := Transcript(80, 24, [120])], map[0 := HELD0],
    Serving, 1, None, None, map[], Listening, true, map[0 := 1], {})

  const READ: State<Transcript> := Acked0(OPEN0).(
    phase := Serving, taken := map[0 := [120]], single := map[0 := Transcript(80, 24, [120])], gone := map[0 := 1],
    table := map["a" := Owned(0, [], 1, None, Transcript(80, 24, [120]), [120])])

  lemma SuccessorReads()
    ensures SuccReadStep(TranscriptVt(), Acked0(OPEN0).(phase := Serving), "a", [120]) == READ
  {
    assert [] + [120] == [120];
  }

  // That successor reads a byte, fails to bind the control socket and exits;
  // another one is started.
  lemma OrphanReads()
    ensures Run(TranscriptVt(), Acked0(OPEN0), [GiveUp, SuccRead("a", [120])] + [SuccDie, SuccStart]) == STRAYED
  {
    var t := TranscriptVt();
    RunConcat(t, Acked0(OPEN0), [GiveUp, SuccRead("a", [120])], [SuccDie, SuccStart]);
    TwoSteps(t, Acked0(OPEN0), GiveUp, SuccRead("a", [120]));
    SuccessorReads();
    TwoSteps(t, READ, SuccDie, SuccStart);
  }

  // So a later handoff, acknowledged and complete, still lacks that byte: it is in
  // neither daemon's terminal.
  lemma OrphanSplitsTheNextUpgrade() returns (schedule: seq<Action>)
    ensures var s := Run(TranscriptVt(), Start(NOBODY), schedule);
      && s.phase.Departed? && 0 in s.phase.ids && 0 in s.pred && 0 in s.taken && 0 in s.single
      && "a" in s.table && s.table["a"].master == 0
      && s.table["a"].vt != s.single[0] && s.taken[0] != s.pred[0].fed + s.table["a"].fed
  {
    var t := TranscriptVt();
    var orphan := [GiveUp, SuccRead("a", [120])] + [SuccDie, SuccStart];
    var again := ((FIRST + SECOND) + THIRD) + [TakeAck];
    schedule := AfterAck(orphan + again);
    RunConcat(t, Acked0(OPEN0), orphan, again);
    OrphanReads();
    RunConcat(t, STRAYED, (FIRST + SECOND) + THIRD, [TakeAck]);
    HandsOver(STRAYED);
    OneStep(t, Acked0(STRAYED), TakeAck);
    assert |STRAYED.single[0].fed| == 1;
  }

  // A pty opened after the sessions were listed is not handed over: the
  // predecessor leaves and no successor entry has its descriptor.
  lemma UnlistedPtyIsLeftBehind() returns (schedule: seq<Action>)
    ensures var s := Run(TranscriptVt(), Start(NOBODY), schedule);
      && s.phase.Departed? && 1 in s.pred && !s.pred[1].exited && 1 !in Masters(s)
  {
    schedule := AfterAck([PredOpen(1, "b", [], 2, 80, 24), TakeAck]);
    TwoSteps(TranscriptVt(), Acked0(OPEN0), PredOpen(1, "b", [], 2, 80, 24), TakeAck);
    assert Run(TranscriptVt(), Start(NOBODY), schedule).table == map["a" := OWNED0];
  }

  // A close accepted between the snapshot and the departure.
  lemma LateCloseIsLost() returns (schedule: seq<Action>)
    ensures var s := Run(TranscriptVt(), Start(NOBODY), schedule);
      && s.phase.Departed? && 0 in s.pred && s.pred[0].deadline == Some(5)
      && "a" in s.table && s.table["a"].master == 0 && s.table["a"].deadline == None
  {
    schedule := AfterAck([PredLease(0, Some(5)), TakeAck]);
    TwoSteps(TranscriptVt(), Acked0(OPEN0), PredLease(0, Some(5)), TakeAck);
  }
}
