/**
 The self-upgrade of crates/muxd/src/migrate.rs: a predecessor daemon hands its
 live ptys to a successor, for as many successors and attempts as it takes. The
 processes, the socket between them and the kernel's side of each pty are one
 state; a schedule interleaves their steps. One successor at a time is the one
 the predecessor talks to; an earlier one that was sent descriptors is an orphan,
 and may go on reading them. A pty master is identified by the pty it belongs to,
 since every descriptor handed over is a duplicate of the predecessor's. The
 predecessor's return from the handoff and its exit are one step. A step whose
 guard does not hold changes nothing.
 */
module Handoff {
  import opened Wrappers
  import opened Terminal

  const MAX_MIGRATE_FDS: nat := 256
  const MAX_PTYS: nat := 256

  type Pty = nat

  // What one pty contributes to the message.
  datatype MigratePty = MigratePty(
    name: string, command: seq<string>, child: int, cols: nat, rows: nat,
    screen: seq<byte>, deadline: Option<nat>)

  // A predecessor session: `fed` is every byte its read loop consumed.
  datatype Held<V> = Held(
    name: string, command: seq<string>, child: int, deadline: Option<nat>,
    vt: V, fed: seq<byte>, exited: bool)

  // A successor session: `fed` is every byte its own read loop consumed.
  datatype Owned<V> = Owned(
    master: Pty, command: seq<string>, child: int, deadline: Option<nat>, vt: V, fed: seq<byte>)

  datatype Message = Message(attempt: nat, ptys: seq<MigratePty>, masters: seq<Pty>)

  datatype Predecessor =
    | Serving
    | Locking(ids: seq<Pty>, locked: nat)
    | Rendering(ids: seq<Pty>, done: seq<MigratePty>)
    | Awaiting(ids: seq<Pty>, sent: seq<MigratePty>)
    | Departed(ids: seq<Pty>, sent: seq<MigratePty>)

  datatype Successor =
    | Listening
    | Received(message: Message)
    | Installed(message: Message)
    | Failed

  // `taken` is every byte read off a master by any process, in order, `gone` how
  // many of them successors have read, whichever they were, and `single` the
  // terminal a never-upgraded daemon would have. `orphans` are the ptys an earlier
  // successor still holds.
  datatype State<V> = State(
    taken: map<Pty, seq<byte>>,
    single: map<Pty, V>,
    pred: map<Pty, Held<V>>,
    phase: Predecessor,
    attempt: nat,
    wire: Option<Message>,
    acked: Option<nat>,
    table: map<string, Owned<V>>,
    succ: Successor,
    succAlive: bool,
    gone: map<Pty, nat>,
    orphans: set<Pty>)

  datatype Action =
    | PredOpen(pty: Pty, name: string, command: seq<string>, child: int, cols: nat, rows: nat)
    | PredRead(pty: Pty, chunk: seq<byte>)
    | PredResize(pty: Pty, cols: nat, rows: nat)
    | PredLease(pty: Pty, deadline: Option<nat>)
    | PredExit(pty: Pty)
    | Signal(ids: seq<Pty>)
    | Lock
    | Render
    | Send
    | GiveUp
    | TakeAck
    | SuccOpen(pty: Pty, name: string, command: seq<string>, child: int, cols: nat, rows: nat)
    | SuccRead(name: string, chunk: seq<byte>)
    | SuccResize(name: string, cols: nat, rows: nat)
    | SuccReceive
    | SuccAdopt
    | SuccFail
    | SuccAck
    | SuccDie
    | SuccStart
    | OrphanRead(pty: Pty, chunk: seq<byte>)

  // ------------------------------------------------------------------ steps

  // The terminal locks the handoff holds.
  predicate Locked(p: Predecessor, pty: Pty) {
    match p
    case Serving => false
    case Locking(ids, locked) => locked <= |ids| && pty in ids[..locked]
    case Rendering(ids, _) => pty in ids
    case Awaiting(ids, _) => pty in ids
    case Departed(ids, _) => true
  }

  predicate FreshPty<V>(s: State<V>, pty: Pty) { pty !in s.taken }

  predicate PredCanTouch<V>(s: State<V>, pty: Pty) {
    pty in s.pred && !s.pred[pty].exited && !Locked(s.phase, pty) && pty in s.taken && pty in s.single
  }

  // Bytes leave a pty for one process's terminal.
  function TakeBytes<V>(t: Vt<V>, s: State<V>, pty: Pty, chunk: seq<byte>): State<V>
    requires pty in s.taken && pty in s.single
  {
    s.(taken := s.taken[pty := s.taken[pty] + chunk],
       single := s.single[pty := t.feed(s.single[pty], chunk)])
  }

  function PredOpenStep<V>(
      t: Vt<V>, s: State<V>, pty: Pty, name: string, command: seq<string>, child: int, cols: nat, rows: nat): State<V>
  {
    if s.phase.Departed? || !FreshPty(s, pty) || pty in s.pred then s else
      s.(taken := s.taken[pty := []],
         single := s.single[pty := t.blank(cols, rows)],
         pred := s.pred[pty := Held(name, command, child, None, t.blank(cols, rows), [], false)])
  }

  function PredReadStep<V>(t: Vt<V>, s: State<V>, pty: Pty, chunk: seq<byte>): State<V> {
    if !PredCanTouch(s, pty) || chunk == [] then s else
      var h := s.pred[pty];
      TakeBytes(t, s, pty, chunk).(pred := s.pred[pty := h.(vt := t.feed(h.vt, chunk), fed := h.fed + chunk)])
  }

  function PredResizeStep<V>(t: Vt<V>, s: State<V>, pty: Pty, cols: nat, rows: nat): State<V> {
    if !PredCanTouch(s, pty) then s else
      var h := s.pred[pty];
      s.(single := s.single[pty := t.resize(s.single[pty], cols, rows)],
         pred := s.pred[pty := h.(vt := t.resize(h.vt, cols, rows))])
  }

  predicate NoDuplicates(ids: seq<Pty>) { forall i, j :: 0 <= i < j < |ids| ==> ids[i] != ids[j] }

  // The sessions listed are exactly those that have not exited, within the cap.
  predicate ListsLive<V>(s: State<V>, ids: seq<Pty>) {
    && NoDuplicates(ids)
    && |ids| <= MAX_MIGRATE_FDS
    && (forall p :: p in ids ==> p in s.pred)
    && (forall p :: p in s.pred ==> (p in ids <==> !s.pred[p].exited))
    && (forall i, j :: 0 <= i < j < |ids| ==> s.pred[ids[i]].name != s.pred[ids[j]].name)
  }

  function SignalStep<V>(s: State<V>, ids: seq<Pty>): State<V> {
    if s.phase.Serving? && ListsLive(s, ids)
    then s.(phase := Locking(ids, 0), attempt := s.attempt + 1) else s
  }

  function LockStep<V>(s: State<V>): State<V> {
    if !s.phase.Locking? then s
    else if s.phase.locked < |s.phase.ids| then s.(phase := s.phase.(locked := s.phase.locked + 1))
    else s.(phase := Rendering(s.phase.ids, []))
  }

  function Snapshot<V>(t: Vt<V>, h: Held<V>): MigratePty {
    MigratePty(h.name, h.command, h.child, t.size(h.vt).0, t.size(h.vt).1, t.render(h.vt), h.deadline)
  }

  function RenderStep<V>(t: Vt<V>, s: State<V>): State<V> {
    if s.phase.Rendering? && |s.phase.done| < |s.phase.ids| && s.phase.ids[|s.phase.done|] in s.pred
    then s.(phase := s.phase.(done := s.phase.done + [Snapshot(t, s.pred[s.phase.ids[|s.phase.done|]])]))
    else s
  }

  // The whole message, with the descriptors in the same order.
  function SendStep<V>(s: State<V>): State<V> {
    if s.phase.Rendering? && |s.phase.done| == |s.phase.ids|
    then s.(phase := Awaiting(s.phase.ids, s.phase.done),
            wire := Some(Message(s.attempt, s.phase.done, s.phase.ids)))
    else s
  }

  // Any failure before the acknowledgement releases every lock.
  function GiveUpStep<V>(s: State<V>): State<V> {
    if s.phase.Departed? then s else s.(phase := Serving)
  }

  function TakeAckStep<V>(s: State<V>): State<V> {
    if s.phase.Awaiting? && s.acked == Some(s.attempt)
    then s.(phase := Departed(s.phase.ids, s.phase.sent)) else s
  }

  // Clients reach the successor only through the control socket, which is the
  // predecessor's until it exits.
  function SuccOpenStep<V>(
      t: Vt<V>, s: State<V>, pty: Pty, name: string, command: seq<string>, child: int, cols: nat, rows: nat): State<V>
  {
    if !s.succAlive || !s.phase.Departed? || !FreshPty(s, pty) || pty in s.pred || name in s.table || |s.table| >= MAX_PTYS
    then s else
      s.(taken := s.taken[pty := []],
         single := s.single[pty := t.blank(cols, rows)],
         table := s.table[name := Owned(pty, command, child, None, t.blank(cols, rows), [])])
  }

  predicate SuccCanTouch<V>(s: State<V>, name: string) {
    s.succAlive && name in s.table && s.table[name].master in s.taken && s.table[name].master in s.single
  }

  // How many bytes of a pty successors have read, past ones included.
  function Gone<V>(s: State<V>, p: Pty): nat { if p in s.gone then s.gone[p] else 0 }

  function SuccReadStep<V>(t: Vt<V>, s: State<V>, name: string, chunk: seq<byte>): State<V> {
    if !SuccCanTouch(s, name) || chunk == [] then s else
      var o := s.table[name];
      TakeBytes(t, s, o.master, chunk).(
        table := s.table[name := o.(vt := t.feed(o.vt, chunk), fed := o.fed + chunk)],
        gone := s.gone[o.master := Gone(s, o.master) + |chunk|])
  }

  // An orphan's read loop takes bytes for a terminal nobody will see.
  function OrphanReadStep<V>(t: Vt<V>, s: State<V>, pty: Pty, chunk: seq<byte>): State<V> {
    if pty !in s.orphans || pty !in s.taken || pty !in s.single || chunk == [] then s
    else TakeBytes(t, s, pty, chunk).(gone := s.gone[pty := Gone(s, pty) + |chunk|])
  }

  function SetOf(masters: seq<Pty>): set<Pty> { set p | p in masters }

  // The descriptors the present successor was sent and can still read.
  function Sent<V>(s: State<V>): set<Pty> {
    if !s.succAlive || s.succ.Failed? then {}
    else
      (if s.wire.Some? then SetOf(s.wire.value.masters) else {})
      + (if s.succ.Received? || s.succ.Installed? then SetOf(s.succ.message.masters) else {})
  }

  // Another successor process asks for a handoff. While the predecessor is busy
  // with one it hears of no other.
  function SuccStartStep<V>(s: State<V>): State<V> {
    if !s.phase.Serving? then s else
      s.(wire := None, acked := None, table := map[], succ := Listening, succAlive := true, orphans := s.orphans + Sent(s))
  }

  function SuccResizeStep<V>(t: Vt<V>, s: State<V>, name: string, cols: nat, rows: nat): State<V> {
    if !SuccCanTouch(s, name) || !s.phase.Departed? then s else
      var o := s.table[name];
      s.(single := s.single[o.master := t.resize(s.single[o.master], cols, rows)],
         table := s.table[name := o.(vt := t.resize(o.vt, cols, rows))])
  }

  function SuccReceiveStep<V>(s: State<V>): State<V> {
    if !s.succAlive || !s.succ.Listening? || s.wire.None? then s
    else if |s.wire.value.ptys| != |s.wire.value.masters| then s.(succ := Failed)
    else s.(succ := Received(s.wire.value))
  }

  // A fresh terminal primed with the predecessor's screen.
  function Adopt<V>(t: Vt<V>, m: MigratePty, master: Pty): Owned<V> {
    Owned(master, m.command, m.child, m.deadline, t.feed(t.blank(m.cols, m.rows), m.screen), [])
  }

  function Incoming<V>(t: Vt<V>, m: Message): map<string, Owned<V>>
    requires |m.ptys| == |m.masters|
    decreases |m.ptys|
  {
    if m.ptys == [] then map[] else
      var k := |m.ptys| - 1;
      Incoming(t, Message(m.attempt, m.ptys[..k], m.masters[..k]))[m.ptys[k].name := Adopt(t, m.ptys[k], m.masters[k])]
  }

  predicate Adoptable<V>(s: State<V>, m: Message) {
    && |m.ptys| == |m.masters|
    && (forall i, j :: 0 <= i < j < |m.ptys| ==> m.ptys[i].name != m.ptys[j].name)
    && |s.table| + |m.ptys| <= MAX_PTYS
    && (forall i :: 0 <= i < |m.ptys| ==> m.ptys[i].name !in s.table)
  }

  function SuccAdoptStep<V>(t: Vt<V>, s: State<V>): State<V> {
    if !s.succAlive || !s.succ.Received? then s
    else if !Adoptable(s, s.succ.message) then s.(succ := Failed)
    else s.(succ := Installed(s.succ.message), table := s.table + Incoming(t, s.succ.message))
  }

  function Step<V>(t: Vt<V>, s: State<V>, a: Action): State<V> {
    match a
    case PredOpen(pty, name, command, child, cols, rows) => PredOpenStep(t, s, pty, name, command, child, cols, rows)
    case PredRead(pty, chunk) => PredReadStep(t, s, pty, chunk)
    case PredResize(pty, cols, rows) => PredResizeStep(t, s, pty, cols, rows)
    case PredLease(pty, deadline) =>
      if s.phase.Departed? || pty !in s.pred then s
      else s.(pred := s.pred[pty := s.pred[pty].(deadline := deadline)])
    case PredExit(pty) =>
      if s.phase.Departed? || pty !in s.pred then s
      else s.(pred := s.pred[pty := s.pred[pty].(exited := true)])
    case Signal(ids) => SignalStep(s, ids)
    case Lock => LockStep(s)
    case Render => RenderStep(t, s)
    case Send => SendStep(s)
    case GiveUp => GiveUpStep(s)
    case TakeAck => TakeAckStep(s)
    case SuccOpen(pty, name, command, child, cols, rows) => SuccOpenStep(t, s, pty, name, command, child, cols, rows)
    case SuccRead(name, chunk) => SuccReadStep(t, s, name, chunk)
    case SuccResize(name, cols, rows) => SuccResizeStep(t, s, name, cols, rows)
    case SuccReceive => SuccReceiveStep(s)
    case SuccAdopt => SuccAdoptStep(t, s)
    // A descriptor or a terminal that cannot be set up fails the whole adoption.
    case SuccFail => if s.succAlive && s.succ.Received? then s.(succ := Failed) else s
    case SuccAck => if s.succAlive && s.succ.Installed? then s.(acked := Some(s.succ.message.attempt)) else s
    case SuccDie => s.(succAlive := false)
    case SuccStart => SuccStartStep(s)
    case OrphanRead(pty, chunk) => OrphanReadStep(t, s, pty, chunk)
  }

  function Run<V>(t: Vt<V>, s: State<V>, schedule: seq<Action>): State<V>
    decreases |schedule|
  {
    if schedule == [] then s else Run(t, Step(t, s, schedule[0]), schedule[1..])
  }

  // A daemon at any point of its life, with sessions it opened or adopted itself.
  function Start<V>(held: map<Pty, Held<V>>): State<V> {
    State(map p | p in held :: held[p].fed, map p | p in held :: held[p].vt, held,
          Serving, 0, None, None, map[], Listening, true, map[], {})
  }

  // What each kind of step may touch.
  predicate PredMoves(a: Action) { a.PredOpen? || a.PredRead? || a.PredResize? || a.PredLease? || a.PredExit? }
  predicate PredTalks(a: Action) { a.Signal? || a.Lock? || a.Render? || a.Send? || a.GiveUp? || a.TakeAck? }
  predicate SuccMoves(a: Action) { a.SuccOpen? || a.SuccRead? || a.SuccResize? }
  predicate SuccTalks(a: Action) { a.SuccReceive? || a.SuccFail? || a.SuccAck? || a.SuccDie? }

  // The protocol's own variables are as they were, and so is who holds what.
  predicate QuietProtocol<V>(s: State<V>, s': State<V>) {
    && s'.phase == s.phase && s'.attempt == s.attempt && s'.wire == s.wire && s'.acked == s.acked
    && s'.succ == s.succ && s'.succAlive == s.succAlive && s'.orphans == s.orphans
  }

  // No byte has moved and no session changed.
  predicate QuietSessions<V(==)>(s: State<V>, s': State<V>) {
    && s'.taken == s.taken && s'.single == s.single && s'.gone == s.gone
    && s'.pred == s.pred && s'.table == s.table && s'.orphans == s.orphans
  }

  lemma PredMovesFrame<V>(t: Vt<V>, s: State<V>, a: Action)
    requires PredMoves(a)
    ensures var s' := Step(t, s, a); QuietProtocol(s, s') && s'.table == s.table && s'.gone == s.gone
  {
    match a
    case PredOpen(_, _, _, _, _, _) =>
    case PredRead(_, _) =>
    case PredResize(_, _, _) =>
    case PredLease(_, _) =>
    case PredExit(_) =>
  }

  // Nor has the successor's side of the protocol.
  predicate QuietSuccessor<V(==)>(s: State<V>, s': State<V>) {
    QuietSessions(s, s') && s'.acked == s.acked && s'.succ == s.succ && s'.succAlive == s.succAlive
  }

  lemma PredTalksFrame<V>(t: Vt<V>, s: State<V>, a: Action)
    requires PredTalks(a)
    ensures QuietSuccessor(s, Step(t, s, a))
  {
    var s' := Step(t, s, a);
    PredTalksOnly(t, s, a);
    TalkFrame(s, s'.phase, s'.attempt, s'.wire);
  }

  lemma TalkFrame<V>(s: State<V>, phase: Predecessor, attempt: nat, wire: Option<Message>)
    ensures QuietSuccessor(s, s.(phase := phase, attempt := attempt, wire := wire))
  {
  }

  // The predecessor's half of the protocol moves nothing else.
  predicate OnlyTalks<V(==)>(s: State<V>, s': State<V>) {
    s' == s.(phase := s'.phase, attempt := s'.attempt, wire := s'.wire)
  }

  lemma PredTalksOnly<V>(t: Vt<V>, s: State<V>, a: Action)
    requires PredTalks(a)
    ensures OnlyTalks(s, Step(t, s, a))
  {
    match a
    case Signal(ids) => SignalOnly(s, ids);
    case Lock => LockOnly(s);
    case Render => RenderOnly(t, s);
    case Send => SendOnly(s);
    case GiveUp => EndOnly(s);
    case TakeAck => EndOnly(s);
  }

  lemma SignalOnly<V>(s: State<V>, ids: seq<Pty>)
    ensures OnlyTalks(s, SignalStep(s, ids))
  {
  }

  lemma LockOnly<V>(s: State<V>)
    ensures OnlyTalks(s, LockStep(s))
  {
  }

  lemma RenderOnly<V>(t: Vt<V>, s: State<V>)
    ensures OnlyTalks(s, RenderStep(t, s))
  {
  }

  lemma SendOnly<V>(s: State<V>)
    ensures OnlyTalks(s, SendStep(s))
  {
  }

  lemma EndOnly<V>(s: State<V>)
    ensures OnlyTalks(s, GiveUpStep(s)) && OnlyTalks(s, TakeAckStep(s))
  {
  }

  lemma DepartedTalks<V>(t: Vt<V>, s: State<V>, a: Action)
    requires PredTalks(a) && s.phase.Departed?
    ensures Step(t, s, a) == s
  {
  }

  lemma SuccMovesFrame<V>(t: Vt<V>, s: State<V>, a: Action)
    requires SuccMoves(a)
    ensures var s' := Step(t, s, a); QuietProtocol(s, s') && s'.pred == s.pred
  {
    match a
    case SuccOpen(_, _, _, _, _, _) =>
    case SuccRead(_, _) =>
    case SuccResize(_, _, _) =>
  }

  lemma SuccTalksFrame<V>(t: Vt<V>, s: State<V>, a: Action)
    requires SuccTalks(a)
    ensures var s' := Step(t, s, a);
      QuietSessions(s, s') && s'.phase == s.phase && s'.attempt == s.attempt && s'.wire == s.wire
  {
    var s' := Step(t, s, a);
    SuccTalksOnly(t, s, a);
    AnswerFrame(s, s'.acked, s'.succ, s'.succAlive);
  }

  lemma AnswerFrame<V>(s: State<V>, acked: Option<nat>, succ: Successor, alive: bool)
    ensures var s' := s.(acked := acked, succ := succ, succAlive := alive);
      QuietSessions(s, s') && s'.phase == s.phase && s'.attempt == s.attempt && s'.wire == s.wire
  {
  }

  lemma SuccTalksOnly<V>(t: Vt<V>, s: State<V>, a: Action)
    requires SuccTalks(a)
    ensures var s' := Step(t, s, a); s' == s.(acked := s'.acked, succ := s'.succ, succAlive := s'.succAlive)
  {
    match a
    case SuccReceive =>
    case SuccFail =>
    case SuccAck =>
    case SuccDie =>
  }

  lemma SuccTalksStage<V>(t: Vt<V>, s: State<V>, a: Action)
    requires SuccTalks(a)
    ensures var s' := Step(t, s, a);
      s'.succ == s.succ || ((s.succ.Listening? || s.succ.Received?) && !s'.succ.Installed?)
  {
  }

  // ------------------------------------------------------------- invariant

  // A snapshot of a session whose terminal has not moved since; its lease may.
  predicate Depicts<V>(t: Vt<V>, m: MigratePty, h: Held<V>) {
    m == Snapshot(t, h).(deadline := m.deadline)
  }

  predicate Listed<V>(s: State<V>, ids: seq<Pty>) {
    && NoDuplicates(ids)
    && (forall i :: 0 <= i < |ids| ==> ids[i] in s.pred)
    && (forall i, j :: 0 <= i < j < |ids| ==> s.pred[ids[i]].name != s.pred[ids[j]].name)
  }

  predicate Rendered<V>(t: Vt<V>, s: State<V>, ids: seq<Pty>, done: seq<MigratePty>) {
    && Listed(s, ids) && |done| <= |ids|
    && (forall i :: 0 <= i < |done| ==> Depicts(t, done[i], s.pred[ids[i]]))
  }

  predicate PhaseOk<V>(t: Vt<V>, s: State<V>) {
    match s.phase
    case Serving => true
    case Locking(ids, locked) => Listed(s, ids) && locked <= |ids|
    case Rendering(ids, done) => Rendered(t, s, ids, done)
    case Awaiting(ids, sent) => Rendered(t, s, ids, sent) && |sent| == |ids|
    case Departed(ids, sent) => Rendered(t, s, ids, sent) && |sent| == |ids|
  }

  predicate Committed(p: Predecessor) { p.Awaiting? || p.Departed? }

  // A message belongs to one attempt; while the predecessor waits on or has left
  // by that attempt, it is exactly what the predecessor sent.
  predicate MessageOk<V>(s: State<V>, m: Message) {
    && |m.ptys| == |m.masters|
    && NoDuplicates(m.masters)
    && (forall i :: 0 <= i < |m.masters| ==> m.masters[i] in s.pred)
    && m.attempt <= s.attempt
    && (m.attempt == s.attempt ==> s.phase.Serving? || Committed(s.phase))
    && (m.attempt == s.attempt && Committed(s.phase) ==> m.ptys == s.phase.sent && m.masters == s.phase.ids)
  }

  function Masters<V>(s: State<V>): set<Pty> { set n | n in s.table :: s.table[n].master }

  // Every listed pty is installed under its own name with its own descriptor,
  // command, child and snapshotted lease.
  predicate InstalledAll<V>(s: State<V>, m: Message) {
    |m.ptys| == |m.masters| &&
    forall i :: 0 <= i < |m.ptys| ==>
      && m.ptys[i].name in s.table
      && var o := s.table[m.ptys[i].name];
         && o.master == m.masters[i]
         && o.command == m.ptys[i].command
         && o.child == m.ptys[i].child
         && o.deadline == m.ptys[i].deadline
  }

  predicate TableOk<V>(s: State<V>) {
    && (forall n, k :: n in s.table && k in s.table && n != k ==> s.table[n].master != s.table[k].master)
    && (forall n :: n in s.table ==> s.table[n].master in s.taken && s.table[n].master in s.single)
    && (forall n :: n in s.table && s.table[n].master in s.pred ==>
          s.succ.Installed? && s.table[n].master in s.succ.message.masters)
    && (forall p :: p in s.pred ==> p in s.taken && p in s.single)
    && s.orphans <= s.pred.Keys && s.gone.Keys <= s.taken.Keys
  }

  predicate SuccOk<V>(s: State<V>) {
    && (s.wire.Some? ==> MessageOk(s, s.wire.value))
    && (s.succ.Received? ==> MessageOk(s, s.succ.message))
    && (s.succ.Installed? ==> MessageOk(s, s.succ.message) && InstalledAll(s, s.succ.message))
    && (s.acked.Some? ==> s.succ.Installed? && s.succ.message.attempt == s.acked.value)
    && (s.phase.Departed? ==> s.succ.Installed? && s.succ.message.attempt == s.attempt)
  }

  // The successor reads only under an attempt the predecessor is bound by.
  predicate Bound<V>(s: State<V>) {
    s.succ.Installed? ==> s.succ.message.attempt == s.attempt && Committed(s.phase)
  }

  // If no earlier successor read the pty, the predecessor's bytes and then the
  // successor's are all that left it.
  predicate OwnedAccounted<V(==)>(s: State<V>, n: string)
    requires n in s.table && s.table[n].master in s.taken && s.table[n].master in s.single
  {
    var o := s.table[n];
    var p := o.master;
    if p in s.pred then
      && |o.fed| <= Gone(s, p)
      && (Bound(s) && Gone(s, p) == |o.fed| ==> s.single[p] == o.vt && s.taken[p] == s.pred[p].fed + o.fed)
    else
      s.single[p] == o.vt && s.taken[p] == o.fed
  }

  // If no successor at all read it, they are the predecessor's.
  predicate HeldAccounted<V(==)>(s: State<V>, p: Pty)
    requires p in s.pred && p in s.taken && p in s.single
  {
    && |s.taken[p]| == |s.pred[p].fed| + Gone(s, p)
    && (Gone(s, p) == 0 && !(s.phase.Departed? && p in Masters(s)) ==>
          s.taken[p] == s.pred[p].fed && s.single[p] == s.pred[p].vt)
  }

  ghost predicate Accounts<V(!new)>(s: State<V>)
    requires TableOk(s)
  {
    && (forall p :: p in s.pred ==> HeldAccounted(s, p))
    && (forall n :: n in s.table ==> OwnedAccounted(s, n))
  }

  ghost predicate Inv<V(!new)>(t: Vt<V>, s: State<V>) {
    PhaseOk(t, s) && TableOk(s) && SuccOk(s) && Accounts(s)
  }

  lemma StartKeeps<V(!new)>(t: Vt<V>, held: map<Pty, Held<V>>)
    ensures Inv(t, Start(held))
  {
  }

  // Nothing the accounts speak of has moved.
  predicate SameAccounts<V(==)>(s: State<V>, s': State<V>) {
    && s'.taken == s.taken && s'.single == s.single && s'.table == s.table && s'.gone == s.gone
    && s'.pred.Keys == s.pred.Keys
    && (forall p :: p in s.pred ==> s'.pred[p].fed == s.pred[p].fed && s'.pred[p].vt == s.pred[p].vt)
    && (Bound(s') ==> Bound(s))
    && (s.phase.Departed? ==> s'.phase.Departed?)
  }

  // No step of the predecessor binds it to a successor that has installed before.
  lemma BoundKept<V>(t: Vt<V>, s: State<V>, a: Action)
    requires SuccOk(s) && PredTalks(a)
    ensures Bound(Step(t, s, a)) ==> Bound(s)
  {
    if !a.Send? && !a.TakeAck? { PreparesUnbound(t, s, a); }
  }

  lemma PreparesUnbound<V>(t: Vt<V>, s: State<V>, a: Action)
    requires a.Signal? || a.Lock? || a.Render? || a.GiveUp?
    ensures var s' := Step(t, s, a);
      s'.succ == s.succ && (Committed(s'.phase) ==> s'.phase == s.phase && s'.attempt == s.attempt)
  {
    PredTalksOnly(t, s, a);
  }

  lemma FrameAccounts<V(!new)>(s: State<V>, s': State<V>)
    requires TableOk(s) && TableOk(s') && Accounts(s) && SameAccounts(s, s')
    ensures Accounts(s')
  {
    assert Masters(s') == Masters(s);
    forall p | p in s'.pred ensures HeldAccounted(s', p) { assert HeldAccounted(s, p); }
    forall n | n in s'.table ensures OwnedAccounted(s', n) { assert OwnedAccounted(s, n); }
  }

  // A step that keeps who is who, and every locked terminal.
  predicate PredFrame<V(==)>(s: State<V>, s': State<V>) {
    forall p :: p in s.pred ==>
      && p in s'.pred
      && s'.pred[p].name == s.pred[p].name
      && s'.pred[p].command == s.pred[p].command
      && s'.pred[p].child == s.pred[p].child
      && (Locked(s.phase, p) ==> s'.pred[p].vt == s.pred[p].vt)
  }

  predicate TableFrame<V>(s: State<V>, s': State<V>) {
    forall n :: n in s.table ==>
      && n in s'.table
      && s'.table[n].master == s.table[n].master
      && s'.table[n].command == s.table[n].command
      && s'.table[n].child == s.table[n].child
      && s'.table[n].deadline == s.table[n].deadline
  }

  predicate SameProtocol<V>(s: State<V>, s': State<V>) {
    s'.phase == s.phase && s'.attempt == s.attempt && s'.wire == s.wire && s'.acked == s.acked && s'.succ == s.succ
  }

  lemma FramePhase<V>(t: Vt<V>, s: State<V>, s': State<V>)
    requires PhaseOk(t, s) && SameProtocol(s, s') && PredFrame(s, s')
    ensures PhaseOk(t, s')
  {
  }

  lemma FrameSucc<V>(s: State<V>, s': State<V>)
    requires SuccOk(s) && SameProtocol(s, s') && TableFrame(s, s') && s.pred.Keys <= s'.pred.Keys
    ensures SuccOk(s')
  {
  }

  lemma FrameTable<V>(s: State<V>, s': State<V>)
    requires TableOk(s) && SameProtocol(s, s') && TableFrame(s, s')
    requires s'.table.Keys == s.table.Keys && s'.pred.Keys == s.pred.Keys
    requires s.taken.Keys <= s'.taken.Keys && s.single.Keys <= s'.single.Keys
    requires s'.gone.Keys <= s'.taken.Keys && s'.orphans == s.orphans
    ensures TableOk(s') && Masters(s') == Masters(s)
  {
    assert forall n :: n in s'.table ==> n in s.table;
    forall m | m in Masters(s) ensures m in Masters(s') {
      var n :| n in s.table && s.table[n].master == m;
      assert n in s'.table && s'.table[n].master == m;
    }
    forall m | m in Masters(s') ensures m in Masters(s) {
      var n :| n in s'.table && s'.table[n].master == m;
      assert n in s.table && s.table[n].master == m;
    }
  }

  lemma MasterOf<V>(s: State<V>, n: string)
    requires n in s.table
    ensures s.table[n].master in Masters(s)
  {
  }

  // While the accounts hold, a pty the predecessor can still read is not owned
  // by the successor.
  lemma ReadableIsUnowned<V(!new)>(t: Vt<V>, s: State<V>, pty: Pty)
    requires Inv(t, s) && Bound(s) && PredCanTouch(s, pty)
    ensures pty !in Masters(s)
  {
  }

  // The predecessor moves one pty, its own account with it.
  predicate PredTouches<V(==)>(s: State<V>, s': State<V>, pty: Pty)
    requires pty in s.pred && pty in s.taken && pty in s.single
  {
    && s'.table == s.table && pty in s'.pred && s'.pred == s.pred[pty := s'.pred[pty]]
    && pty in s'.taken && s'.taken == s.taken[pty := s'.taken[pty]]
    && pty in s'.single && s'.single == s.single[pty := s'.single[pty]]
    && s'.gone == s.gone && s'.orphans == s.orphans
    && |s'.taken[pty]| - |s.taken[pty]| == |s'.pred[pty].fed| - |s.pred[pty].fed|
    && (s.taken[pty] == s.pred[pty].fed ==> s'.taken[pty] == s'.pred[pty].fed)
    && (s.single[pty] == s.pred[pty].vt ==> s'.single[pty] == s'.pred[pty].vt)
  }

  lemma PredTouchAccounts<V(!new)>(s: State<V>, s': State<V>, pty: Pty)
    requires TableOk(s) && TableOk(s') && Accounts(s) && pty in s.pred && PredTouches(s, s', pty)
    requires SameProtocol(s, s') && !s.phase.Departed? && (Bound(s) ==> pty !in Masters(s)) && Masters(s') == Masters(s)
    ensures Accounts(s')
  {
    forall p | p in s'.pred ensures HeldAccounted(s', p) { assert HeldAccounted(s, p); }
    forall n | n in s'.table ensures OwnedAccounted(s', n) {
      assert OwnedAccounted(s, n);
      MasterOf(s, n);
    }
  }

  lemma PredTouchFrame<V>(s: State<V>, s': State<V>, pty: Pty)
    requires PredCanTouch(s, pty) && PredTouches(s, s', pty)
    requires s'.pred[pty].name == s.pred[pty].name && s'.pred[pty].command == s.pred[pty].command
    requires s'.pred[pty].child == s.pred[pty].child
    ensures PredFrame(s, s') && TableFrame(s, s')
  {
  }

  lemma PredTouchKeeps<V(!new)>(t: Vt<V>, s: State<V>, s': State<V>, pty: Pty)
    requires Inv(t, s) && PredCanTouch(s, pty) && SameProtocol(s, s') && PredTouches(s, s', pty)
    requires s'.pred[pty].name == s.pred[pty].name && s'.pred[pty].command == s.pred[pty].command
    requires s'.pred[pty].child == s.pred[pty].child
    ensures Inv(t, s')
  {
    PredTouchFrame(s, s', pty);
    FramePhase(t, s, s');
    FrameSucc(s, s');
    FrameTable(s, s');
    if Bound(s) { ReadableIsUnowned(t, s, pty); }
    PredTouchAccounts(s, s', pty);
  }

  lemma PredReadKeeps<V(!new)>(t: Vt<V>, s: State<V>, pty: Pty, chunk: seq<byte>)
    requires Inv(t, s)
    ensures Inv(t, PredReadStep(t, s, pty, chunk))
  {
    if PredCanTouch(s, pty) && chunk != [] { PredTouchKeeps(t, s, PredReadStep(t, s, pty, chunk), pty); }
  }

  lemma PredResizeKeeps<V(!new)>(t: Vt<V>, s: State<V>, pty: Pty, cols: nat, rows: nat)
    requires Inv(t, s)
    ensures Inv(t, PredResizeStep(t, s, pty, cols, rows))
  {
    if PredCanTouch(s, pty) {
      var s' := PredResizeStep(t, s, pty, cols, rows);
      assert s'.taken == s.taken[pty := s'.taken[pty]];
      PredTouchKeeps(t, s, s', pty);
    }
  }

  lemma PredOpenTable<V>(t: Vt<V>, s: State<V>, a: Action)
    requires TableOk(s) && a.PredOpen?
    ensures TableOk(Step(t, s, a)) && Masters(Step(t, s, a)) == Masters(s)
    ensures Step(t, s, a) != s ==> a.pty !in Masters(s)
  {
  }

  lemma PredOpenHeld<V(!new)>(t: Vt<V>, s: State<V>, a: Action, p: Pty)
    requires TableOk(s) && Accounts(s) && a.PredOpen? && TableOk(Step(t, s, a)) && Masters(Step(t, s, a)) == Masters(s)
    requires p in Step(t, s, a).pred
    ensures HeldAccounted(Step(t, s, a), p)
  {
    if p in s.pred { assert HeldAccounted(s, p); }
  }

  lemma PredOpenOwned<V(!new)>(t: Vt<V>, s: State<V>, a: Action, n: string)
    requires TableOk(s) && Accounts(s) && a.PredOpen? && TableOk(Step(t, s, a)) && n in s.table
    ensures n in Step(t, s, a).table && OwnedAccounted(Step(t, s, a), n)
  {
    assert OwnedAccounted(s, n);
  }

  lemma PredOpenAccounts<V(!new)>(t: Vt<V>, s: State<V>, a: Action)
    requires TableOk(s) && Accounts(s) && a.PredOpen? && TableOk(Step(t, s, a)) && Masters(Step(t, s, a)) == Masters(s)
    ensures Accounts(Step(t, s, a))
  {
    var s' := Step(t, s, a);
    forall p | p in s'.pred ensures HeldAccounted(s', p) { PredOpenHeld(t, s, a, p); }
    assert s'.table == s.table;
    forall n | n in s'.table ensures OwnedAccounted(s', n) { PredOpenOwned(t, s, a, n); }
  }

  lemma PredOpenKeeps<V(!new)>(t: Vt<V>, s: State<V>, a: Action)
    requires Inv(t, s) && a.PredOpen?
    ensures Inv(t, Step(t, s, a))
  {
    var s' := Step(t, s, a);
    if s' != s {
      FramePhase(t, s, s');
      FrameSucc(s, s');
      PredOpenTable(t, s, a);
      PredOpenAccounts(t, s, a);
    }
  }

  // A lease or an exit noted on a session leaves its terminal and bytes alone.
  lemma NoteKeeps<V(!new)>(t: Vt<V>, s: State<V>, pty: Pty, h: Held<V>)
    requires Inv(t, s) && pty in s.pred
    requires h == s.pred[pty].(deadline := h.deadline, exited := h.exited)
    ensures Inv(t, s.(pred := s.pred[pty := h]))
  {
    var s' := s.(pred := s.pred[pty := h]);
    NoteFrame(s, s', pty);
    FramePhase(t, s, s');
    FrameSucc(s, s');
    FrameTable(s, s');
    FrameAccounts(s, s');
  }

  lemma NoteFrame<V>(s: State<V>, s': State<V>, pty: Pty)
    requires pty in s.pred && pty in s'.pred && s' == s.(pred := s.pred[pty := s'.pred[pty]])
    requires s'.pred[pty] == s.pred[pty].(deadline := s'.pred[pty].deadline, exited := s'.pred[pty].exited)
    ensures PredFrame(s, s') && SameProtocol(s, s') && TableFrame(s, s') && SameAccounts(s, s')
  {
  }

  // The predecessor's own progress moves no byte.
  lemma PhaseKeeps<V(!new)>(t: Vt<V>, s: State<V>, s': State<V>)
    requires Inv(t, s) && s' == s.(phase := s'.phase, attempt := s'.attempt, wire := s'.wire)
    requires PhaseOk(t, s') && SuccOk(s') && (Bound(s') ==> Bound(s)) && (s.phase.Departed? ==> s'.phase.Departed?)
    ensures Inv(t, s')
  {
    assert TableOk(s');
    FrameAccounts(s, s');
  }

  lemma SignalKeeps<V(!new)>(t: Vt<V>, s: State<V>, ids: seq<Pty>)
    requires Inv(t, s)
    ensures Inv(t, SignalStep(s, ids))
  {
    var s' := SignalStep(s, ids);
    assert PhaseOk(t, s') && SuccOk(s');
    PhaseKeeps(t, s, s');
  }

  lemma StillPreparing<V>(s: State<V>, s': State<V>)
    requires SuccOk(s) && s' == s.(phase := s'.phase)
    requires s.phase.Locking? || s.phase.Rendering?
    requires s'.phase.Locking? || s'.phase.Rendering?
    ensures SuccOk(s')
  {
  }

  lemma LockPhase<V>(t: Vt<V>, s: State<V>)
    requires PhaseOk(t, s)
    ensures PhaseOk(t, LockStep(s))
  {
  }

  lemma LockKeeps<V(!new)>(t: Vt<V>, s: State<V>)
    requires Inv(t, s)
    ensures Inv(t, LockStep(s))
  {
    if s.phase.Locking? {
      LockPhase(t, s);
      StillPreparing(s, LockStep(s));
      PhaseKeeps(t, s, LockStep(s));
    }
  }

  lemma RenderKeeps<V(!new)>(t: Vt<V>, s: State<V>)
    requires Inv(t, s)
    ensures Inv(t, RenderStep(t, s))
  {
    var s' := RenderStep(t, s);
    assert PhaseOk(t, s') && SuccOk(s');
    PhaseKeeps(t, s, s');
  }

  lemma SendKeeps<V(!new)>(t: Vt<V>, s: State<V>)
    requires Inv(t, s)
    ensures Inv(t, SendStep(s))
  {
    var s' := SendStep(s);
    assert PhaseOk(t, s') && SuccOk(s');
    PhaseKeeps(t, s, s');
  }

  lemma GiveUpKeeps<V(!new)>(t: Vt<V>, s: State<V>)
    requires Inv(t, s)
    ensures Inv(t, GiveUpStep(s))
  {
    var s' := GiveUpStep(s);
    assert PhaseOk(t, s') && SuccOk(s');
    PhaseKeeps(t, s, s');
  }

  lemma TakeAckKeeps<V(!new)>(t: Vt<V>, s: State<V>)
    requires Inv(t, s)
    ensures Inv(t, TakeAckStep(s))
  {
    if TakeAckStep(s) != s {
      TakeAckCommits(t, s);
      PhaseKeeps(t, s, TakeAckStep(s));
    }
  }

  lemma TakeAckCommits<V>(t: Vt<V>, s: State<V>)
    requires PhaseOk(t, s) && SuccOk(s) && s.phase.Awaiting? && s.acked == Some(s.attempt)
    ensures var s' := TakeAckStep(s); PhaseOk(t, s') && SuccOk(s') && (Bound(s') ==> Bound(s))
  {
  }

  lemma SuccOpenTable<V>(s: State<V>, s': State<V>, name: string)
    requires TableOk(s) && SameProtocol(s, s') && s'.pred == s.pred && name !in s.table
    requires name in s'.table && s'.table == s.table[name := s'.table[name]]
    requires var m := s'.table[name].master;
      && m !in s.taken && m !in s.pred
      && s'.taken == s.taken[m := []] && m in s'.single && s'.single == s.single[m := s'.single[m]]
    requires s'.gone == s.gone && s'.orphans == s.orphans
    ensures TableOk(s')
    ensures forall p :: p in s.pred && p !in Masters(s') ==> p !in Masters(s)
  {
    forall p | p in Masters(s) ensures p in Masters(s') {
      var n :| n in s.table && s.table[n].master == p;
      assert n in s'.table && s'.table[n].master == p;
    }
  }

  lemma SuccOpenKeeps<V(!new)>(t: Vt<V>, s: State<V>, s': State<V>, name: string)
    requires Inv(t, s) && SameProtocol(s, s') && s'.pred == s.pred && name !in s.table
    requires name in s'.table && s'.table == s.table[name := s'.table[name]]
    requires var m := s'.table[name].master;
      && m !in s.taken && m !in s.pred
      && s'.taken == s.taken[m := []] && m in s'.single && s'.single == s.single[m := s'.single[m]]
      && s'.single[m] == s'.table[name].vt && s'.table[name].fed == []
    requires s'.gone == s.gone && s'.orphans == s.orphans && s.phase.Departed?
    ensures Inv(t, s')
  {
    FramePhase(t, s, s');
    FrameSucc(s, s');
    SuccOpenTable(s, s', name);
    forall p | p in s'.pred ensures HeldAccounted(s', p) { assert HeldAccounted(s, p); }
    forall n | n in s'.table ensures OwnedAccounted(s', n) {
      if n != name { SuccOpenOther(s, s', name, n); }
    }
  }

  lemma SuccOpenOther<V(!new)>(s: State<V>, s': State<V>, name: string, n: string)
    requires TableOk(s) && TableOk(s') && Accounts(s) && SameProtocol(s, s') && s'.pred == s.pred && s'.gone == s.gone
    requires name in s'.table && s'.table == s.table[name := s'.table[name]] && n in s.table && n != name
    requires forall p :: p in s.taken && p in s.single && p != s'.table[name].master ==>
      p in s'.taken && s'.taken[p] == s.taken[p] && p in s'.single && s'.single[p] == s.single[p]
    ensures n in s'.table && OwnedAccounted(s', n)
  {
    assert OwnedAccounted(s, n);
    assert s'.table[n].master != s'.table[name].master;
  }

  // The successor moves one pty it owns, that account with it.
  predicate SuccTouches<V(==)>(s: State<V>, s': State<V>, name: string)
    requires name in s.table && s.table[name].master in s.taken && s.table[name].master in s.single
  {
    && s'.pred == s.pred && s'.orphans == s.orphans
    && name in s'.table && s'.table == s.table[name := s'.table[name]] && TableFrame(s, s')
    && var m, o, o' := s.table[name].master, s.table[name], s'.table[name];
       && m in s'.taken && s'.taken == s.taken[m := s'.taken[m]]
       && m in s'.single && s'.single == s.single[m := s'.single[m]]
       && |s'.taken[m]| - |s.taken[m]| == |o'.fed| - |o.fed| >= 0
       && (|o'.fed| == |o.fed| ==> s.phase.Departed? && s'.gone == s.gone)
       && (|o'.fed| > |o.fed| ==> s'.gone == s.gone[m := Gone(s, m) + |o'.fed| - |o.fed|])
       && (s.single[m] == o.vt ==> s'.single[m] == o'.vt)
       && (s.taken[m] == o.fed ==> s'.taken[m] == o'.fed)
       && (m in s.pred && s.taken[m] == s.pred[m].fed + o.fed ==> s'.taken[m] == s.pred[m].fed + o'.fed)
  }

  lemma SuccTouchHeld<V(!new)>(s: State<V>, s': State<V>, name: string, p: Pty)
    requires TableOk(s) && TableOk(s') && Accounts(s) && name in s.table && SuccTouches(s, s', name)
    requires SameProtocol(s, s') && Masters(s') == Masters(s) && p in s.pred
    ensures HeldAccounted(s', p)
  {
    assert HeldAccounted(s, p);
    MasterOf(s, name);
  }

  lemma SuccTouchOwned<V(!new)>(s: State<V>, s': State<V>, name: string, n: string)
    requires TableOk(s) && TableOk(s') && Accounts(s) && name in s.table && SuccTouches(s, s', name)
    requires SameProtocol(s, s') && n in s.table
    ensures OwnedAccounted(s', n)
  {
    assert OwnedAccounted(s, n);
  }

  lemma SuccTouchKeeps<V(!new)>(t: Vt<V>, s: State<V>, s': State<V>, name: string)
    requires Inv(t, s) && SuccCanTouch(s, name) && SameProtocol(s, s') && SuccTouches(s, s', name)
    ensures Inv(t, s')
  {
    FramePhase(t, s, s');
    FrameSucc(s, s');
    FrameTable(s, s');
    forall p | p in s'.pred ensures HeldAccounted(s', p) { SuccTouchHeld(s, s', name, p); }
    forall n | n in s'.table ensures OwnedAccounted(s', n) { SuccTouchOwned(s, s', name, n); }
  }

  lemma SuccReadKeeps<V(!new)>(t: Vt<V>, s: State<V>, name: string, chunk: seq<byte>)
    requires Inv(t, s)
    ensures Inv(t, SuccReadStep(t, s, name, chunk))
  {
    if SuccCanTouch(s, name) && chunk != [] {
      SuccReadTouches(t, s, name, chunk);
      SuccTouchKeeps(t, s, SuccReadStep(t, s, name, chunk), name);
    }
  }

  lemma SuccReadTouches<V>(t: Vt<V>, s: State<V>, name: string, chunk: seq<byte>)
    requires SuccCanTouch(s, name) && chunk != []
    ensures SuccTouches(s, SuccReadStep(t, s, name, chunk), name) && SameProtocol(s, SuccReadStep(t, s, name, chunk))
  {
    var m := s.table[name].master;
    if m in s.pred { assert s.pred[m].fed + s.table[name].fed + chunk == s.pred[m].fed + (s.table[name].fed + chunk); }
  }

  lemma SuccResizeKeeps<V(!new)>(t: Vt<V>, s: State<V>, name: string, cols: nat, rows: nat)
    requires Inv(t, s)
    ensures Inv(t, SuccResizeStep(t, s, name, cols, rows))
  {
    if SuccCanTouch(s, name) && s.phase.Departed? {
      var s' := SuccResizeStep(t, s, name, cols, rows);
      var m := s.table[name].master;
      assert s'.taken == s.taken[m := s'.taken[m]];
      SuccTouchKeeps(t, s, s', name);
    }
  }

  // Bytes an orphan takes are on nobody's account.
  lemma OrphanReadKeeps<V(!new)>(t: Vt<V>, s: State<V>, pty: Pty, chunk: seq<byte>)
    requires Inv(t, s)
    ensures Inv(t, OrphanReadStep(t, s, pty, chunk))
  {
    var s' := OrphanReadStep(t, s, pty, chunk);
    if s' != s {
      FramePhase(t, s, s');
      FrameSucc(s, s');
      FrameTable(s, s');
      forall p | p in s'.pred ensures HeldAccounted(s', p) { OrphanReadHeld(t, s, pty, chunk, p); }
      forall n | n in s'.table ensures OwnedAccounted(s', n) { OrphanReadOwned(t, s, pty, chunk, n); }
    }
  }

  lemma OrphanReadHeld<V(!new)>(t: Vt<V>, s: State<V>, pty: Pty, chunk: seq<byte>, p: Pty)
    requires TableOk(s) && Accounts(s) && OrphanReadStep(t, s, pty, chunk) != s && p in s.pred
    ensures HeldAccounted(OrphanReadStep(t, s, pty, chunk), p)
  {
    assert HeldAccounted(s, p);
  }

  lemma OrphanReadOwned<V(!new)>(t: Vt<V>, s: State<V>, pty: Pty, chunk: seq<byte>, n: string)
    requires TableOk(s) && Accounts(s) && OrphanReadStep(t, s, pty, chunk) != s && n in s.table
    ensures OwnedAccounted(OrphanReadStep(t, s, pty, chunk), n)
  {
    assert OwnedAccounted(s, n);
  }

  // A new successor starts with an empty table; who read what is not forgotten.
  lemma SuccStartKeeps<V(!new)>(t: Vt<V>, s: State<V>)
    requires Inv(t, s)
    ensures Inv(t, SuccStartStep(s))
  {
    var s' := SuccStartStep(s);
    if s' != s {
      SentAreHeld(s);
      assert PhaseOk(t, s') && SuccOk(s') && TableOk(s');
      forall p | p in s'.pred ensures HeldAccounted(s', p) { assert HeldAccounted(s, p); }
    }
  }

  lemma SentAreHeld<V>(s: State<V>)
    requires SuccOk(s)
    ensures Sent(s) <= s.pred.Keys
  {
    forall p | p in Sent(s) ensures p in s.pred {
      if s.wire.Some? && p in s.wire.value.masters {
        var i :| 0 <= i < |s.wire.value.masters| && s.wire.value.masters[i] == p;
      } else {
        var i :| 0 <= i < |s.succ.message.masters| && s.succ.message.masters[i] == p;
      }
    }
  }

  lemma SuccReceiveKeeps<V(!new)>(t: Vt<V>, s: State<V>)
    requires Inv(t, s)
    ensures Inv(t, SuccReceiveStep(s))
  {
    var s' := SuccReceiveStep(s);
    if s' != s {
      assert PhaseOk(t, s') && SuccOk(s') && TableOk(s');
      FrameAccounts(s, s');
    }
  }

  lemma {:induction false} IncomingEntry<V>(t: Vt<V>, m: Message, i: nat)
    requires |m.ptys| == |m.masters| && i < |m.ptys|
    requires forall p, q :: 0 <= p < q < |m.ptys| ==> m.ptys[p].name != m.ptys[q].name
    ensures m.ptys[i].name in Incoming(t, m)
    ensures Incoming(t, m)[m.ptys[i].name] == Adopt(t, m.ptys[i], m.masters[i])
    decreases |m.ptys|
  {
    var k := |m.ptys| - 1;
    if i < k { IncomingEntry(t, Message(m.attempt, m.ptys[..k], m.masters[..k]), i); }
  }

  lemma {:induction false} IncomingSource<V>(t: Vt<V>, m: Message, n: string) returns (i: nat)
    requires |m.ptys| == |m.masters| && n in Incoming(t, m)
    ensures i < |m.ptys| && m.ptys[i].name == n && Incoming(t, m)[n] == Adopt(t, m.ptys[i], m.masters[i])
    decreases |m.ptys|
  {
    var k := |m.ptys| - 1;
    if m.ptys[k].name == n {
      i := k;
    } else {
      i := IncomingSource(t, Message(m.attempt, m.ptys[..k], m.masters[..k]), n);
    }
  }

  // What the new table holds: the old entries, and one per message entry.
  lemma AdoptedEntry<V>(t: Vt<V>, s: State<V>, n: string) returns (i: nat)
    requires s.succAlive && s.succ.Received? && Adoptable(s, s.succ.message)
    requires n in SuccAdoptStep(t, s).table && n !in s.table
    ensures i < |s.succ.message.ptys| && s.succ.message.ptys[i].name == n
    ensures SuccAdoptStep(t, s).table[n] == Adopt(t, s.succ.message.ptys[i], s.succ.message.masters[i])
  {
    i := IncomingSource(t, s.succ.message, n);
  }

  lemma KeptEntry<V>(t: Vt<V>, s: State<V>, n: string)
    requires s.succAlive && s.succ.Received? && Adoptable(s, s.succ.message) && n in s.table
    ensures n in SuccAdoptStep(t, s).table && SuccAdoptStep(t, s).table[n] == s.table[n]
  {
    if n in Incoming(t, s.succ.message) { var i := IncomingSource(t, s.succ.message, n); }
  }

  lemma AdoptedMasters<V(!new)>(t: Vt<V>, s: State<V>, n: string)
    requires Inv(t, s) && s.succAlive && s.succ.Received? && Adoptable(s, s.succ.message)
    requires n in SuccAdoptStep(t, s).table
    ensures var p := SuccAdoptStep(t, s).table[n].master;
      p in s.taken && p in s.single && (p in s.pred ==> p in s.succ.message.masters)
  {
    if n in s.table { KeptEntry(t, s, n); } else { var i := AdoptedEntry(t, s, n); }
  }

  lemma AdoptedApart<V(!new)>(t: Vt<V>, s: State<V>, n: string, k: string)
    requires Inv(t, s) && s.succAlive && s.succ.Received? && Adoptable(s, s.succ.message)
    requires n in SuccAdoptStep(t, s).table && k in SuccAdoptStep(t, s).table && n != k
    ensures SuccAdoptStep(t, s).table[n].master != SuccAdoptStep(t, s).table[k].master
  {
    if n in s.table { KeptEntry(t, s, n); } else { var i := AdoptedEntry(t, s, n); }
    if k in s.table { KeptEntry(t, s, k); } else { var j := AdoptedEntry(t, s, k); }
  }

  lemma AdoptTable<V(!new)>(t: Vt<V>, s: State<V>)
    requires Inv(t, s) && s.succAlive && s.succ.Received? && Adoptable(s, s.succ.message)
    ensures TableOk(SuccAdoptStep(t, s))
    ensures forall p :: p in Masters(s) ==> p in Masters(SuccAdoptStep(t, s))
  {
    var s' := SuccAdoptStep(t, s);
    forall n | n in s'.table
      ensures s'.table[n].master in s'.taken && s'.table[n].master in s'.single
      ensures s'.table[n].master in s'.pred ==> s'.table[n].master in s.succ.message.masters
    {
      AdoptedMasters(t, s, n);
    }
    forall n, k | n in s'.table && k in s'.table && n != k ensures s'.table[n].master != s'.table[k].master {
      AdoptedApart(t, s, n, k);
    }
    forall p | p in Masters(s) ensures p in Masters(s') {
      var n :| n in s.table && s.table[n].master == p;
      KeptEntry(t, s, n);
    }
  }

  lemma AdoptInstalls<V(!new)>(t: Vt<V>, s: State<V>)
    requires s.succAlive && s.succ.Received? && Adoptable(s, s.succ.message)
    ensures InstalledAll(SuccAdoptStep(t, s), s.succ.message)
  {
    forall i | 0 <= i < |s.succ.message.ptys|
      ensures s.succ.message.ptys[i].name in SuccAdoptStep(t, s).table
      ensures SuccAdoptStep(t, s).table[s.succ.message.ptys[i].name]
              == Adopt(t, s.succ.message.ptys[i], s.succ.message.masters[i])
    {
      IncomingEntry(t, s.succ.message, i);
    }
  }

  // The primed terminal is the predecessor's, and no byte is missing unless an
  // earlier successor took it.
  lemma AdoptedAccount<V(!new)>(t: Vt<V>, s: State<V>, n: string)
    requires Lawful(t) && Inv(t, s) && s.succAlive && s.succ.Received? && Adoptable(s, s.succ.message)
    requires n in SuccAdoptStep(t, s).table && n !in s.table
    requires var p := SuccAdoptStep(t, s).table[n].master; p in s.taken && p in s.single
    ensures OwnedAccounted(SuccAdoptStep(t, s), n)
  {
    var i := AdoptedEntry(t, s, n);
    var p := s.succ.message.masters[i];
    assert HeldAccounted(s, p);
    if Bound(SuccAdoptStep(t, s)) {
      assert Depicts(t, s.phase.sent[i], s.pred[p]);
      assert Replay(t, s.pred[p].vt) == s.pred[p].vt;
    }
  }

  lemma KeptAccount<V(!new)>(t: Vt<V>, s: State<V>, n: string)
    requires TableOk(s) && Accounts(s) && s.succAlive && s.succ.Received? && Adoptable(s, s.succ.message)
    requires n in s.table && n in SuccAdoptStep(t, s).table
    requires var p := SuccAdoptStep(t, s).table[n].master; p in s.taken && p in s.single
    ensures OwnedAccounted(SuccAdoptStep(t, s), n)
  {
    KeptEntry(t, s, n);
    assert OwnedAccounted(s, n);
  }

  lemma AdoptAccounts<V(!new)>(t: Vt<V>, s: State<V>)
    requires Lawful(t) && Inv(t, s) && s.succAlive && s.succ.Received? && Adoptable(s, s.succ.message)
    requires TableOk(SuccAdoptStep(t, s))
    ensures Accounts(SuccAdoptStep(t, s))
  {
    var s' := SuccAdoptStep(t, s);
    forall p | p in s'.pred ensures HeldAccounted(s', p) { assert HeldAccounted(s, p); }
    forall n | n in s'.table ensures OwnedAccounted(s', n) {
      if n in s.table { KeptAccount(t, s, n); } else { AdoptedAccount(t, s, n); }
    }
  }

  lemma AdoptSucc<V>(t: Vt<V>, s: State<V>)
    requires PhaseOk(t, s) && SuccOk(s) && s.succAlive && s.succ.Received? && Adoptable(s, s.succ.message)
    requires InstalledAll(SuccAdoptStep(t, s), s.succ.message)
    ensures PhaseOk(t, SuccAdoptStep(t, s)) && SuccOk(SuccAdoptStep(t, s))
  {
  }

  lemma RefuseKeeps<V(!new)>(t: Vt<V>, s: State<V>)
    requires Inv(t, s) && s.succ.Received?
    ensures Inv(t, s.(succ := Failed))
  {
    var s' := s.(succ := Failed);
    assert PhaseOk(t, s') && SuccOk(s') && TableOk(s');
    FrameAccounts(s, s');
  }

  lemma SuccAdoptKeeps<V(!new)>(t: Vt<V>, s: State<V>)
    requires Lawful(t) && Inv(t, s)
    ensures Inv(t, SuccAdoptStep(t, s))
  {
    if s.succAlive && s.succ.Received? {
      if Adoptable(s, s.succ.message) {
        AdoptTable(t, s);
        AdoptInstalls(t, s);
        AdoptSucc(t, s);
        AdoptAccounts(t, s);
      } else {
        RefuseKeeps(t, s);
      }
    }
  }

  lemma SuccDieKeeps<V(!new)>(t: Vt<V>, s: State<V>)
    requires Inv(t, s)
    ensures Inv(t, s.(succAlive := false))
  {
    var s' := s.(succAlive := false);
    assert SameProtocol(s, s') && PredFrame(s, s') && TableFrame(s, s');
    FramePhase(t, s, s');
    FrameSucc(s, s');
    FrameTable(s, s');
    FrameAccounts(s, s');
  }

  lemma SuccAckKeeps<V(!new)>(t: Vt<V>, s: State<V>)
    requires Inv(t, s) && s.succ.Installed?
    ensures Inv(t, s.(acked := Some(s.succ.message.attempt)))
  {
    var s' := s.(acked := Some(s.succ.message.attempt));
    assert PhaseOk(t, s') && SuccOk(s') && TableOk(s');
    FrameAccounts(s, s');
  }

  lemma PredSessionKeeps<V(!new)>(t: Vt<V>, s: State<V>, a: Action)
    requires Lawful(t) && Inv(t, s)
    requires a.PredRead? || a.PredResize? || a.PredLease? || a.PredExit?
    ensures Inv(t, Step(t, s, a))
  {
    match a
    case PredRead(pty, chunk) => PredReadKeeps(t, s, pty, chunk);
    case PredResize(pty, cols, rows) => PredResizeKeeps(t, s, pty, cols, rows);
    case PredLease(pty, deadline) =>
      if pty in s.pred { NoteKeeps(t, s, pty, s.pred[pty].(deadline := deadline)); }
    case PredExit(pty) =>
      if pty in s.pred { NoteKeeps(t, s, pty, s.pred[pty].(exited := true)); }
  }

  lemma SuccSessionKeeps<V(!new)>(t: Vt<V>, s: State<V>, a: Action)
    requires Lawful(t) && Inv(t, s)
    requires a.SuccOpen? || a.SuccRead? || a.SuccResize?
    ensures Inv(t, Step(t, s, a))
  {
    match a
    case SuccOpen(_, name, _, _, _, _) =>
      if Step(t, s, a) != s { SuccOpenKeeps(t, s, Step(t, s, a), name); }
    case SuccRead(name, chunk) => SuccReadKeeps(t, s, name, chunk);
    case SuccResize(name, cols, rows) => SuccResizeKeeps(t, s, name, cols, rows);
  }

  lemma PredStepKeeps<V(!new)>(t: Vt<V>, s: State<V>, a: Action)
    requires Inv(t, s)
    requires a.Signal? || a.Lock? || a.Render? || a.Send? || a.GiveUp? || a.TakeAck?
    ensures Inv(t, Step(t, s, a))
  {
    match a
    case Signal(ids) => SignalKeeps(t, s, ids);
    case Lock => LockKeeps(t, s);
    case Render => RenderKeeps(t, s);
    case Send => SendKeeps(t, s);
    case GiveUp => GiveUpKeeps(t, s);
    case TakeAck => TakeAckKeeps(t, s);
  }

  lemma SuccStepKeeps<V(!new)>(t: Vt<V>, s: State<V>, a: Action)
    requires Lawful(t) && Inv(t, s)
    requires a.SuccReceive? || a.SuccAdopt? || a.SuccFail? || a.SuccAck?
    ensures Inv(t, Step(t, s, a))
  {
    match a
    case SuccReceive => SuccReceiveKeeps(t, s);
    case SuccAdopt => SuccAdoptKeeps(t, s);
    case SuccFail => if s.succ.Received? { RefuseKeeps(t, s); }
    case SuccAck => if s.succ.Installed? { SuccAckKeeps(t, s); }
  }

  lemma ProcessStepKeeps<V(!new)>(t: Vt<V>, s: State<V>, a: Action)
    requires Inv(t, s)
    requires a.SuccDie? || a.SuccStart? || a.OrphanRead?
    ensures Inv(t, Step(t, s, a))
  {
    match a
    case SuccDie => SuccDieKeeps(t, s);
    case SuccStart => SuccStartKeeps(t, s);
    case OrphanRead(pty, chunk) => OrphanReadKeeps(t, s, pty, chunk);
  }

  lemma StepKeeps<V(!new)>(t: Vt<V>, s: State<V>, a: Action)
    requires Lawful(t) && Inv(t, s)
    ensures Inv(t, Step(t, s, a))
  {
    if a.PredOpen? {
      PredOpenKeeps(t, s, a);
    } else if a.Signal? || a.Lock? || a.Render? || a.Send? || a.GiveUp? || a.TakeAck? {
      PredStepKeeps(t, s, a);
    } else if a.SuccDie? || a.SuccStart? || a.OrphanRead? {
      ProcessStepKeeps(t, s, a);
    } else if a.SuccReceive? || a.SuccAdopt? || a.SuccFail? || a.SuccAck? {
      SuccStepKeeps(t, s, a);
    } else if a.SuccOpen? || a.SuccRead? || a.SuccResize? {
      SuccSessionKeeps(t, s, a);
    } else {
      PredSessionKeeps(t, s, a);
    }
  }

  lemma {:induction false} RunKeeps<V(!new)>(t: Vt<V>, s: State<V>, schedule: seq<Action>)
    requires Lawful(t) && Inv(t, s)
    ensures Inv(t, Run(t, s, schedule))
    decreases |schedule|
  {
    if schedule != [] {
      StepKeeps(t, s, schedule[0]);
      RunKeeps(t, Step(t, s, schedule[0]), schedule[1..]);
    }
  }
}
