/**
 One pty session: its read loop, its client slot, and every client that was
 ever attached. Each lock-held region is one step, and so is each send,
 timeout, detach and task resumption, so a schedule is any interleaving the
 daemon can run. A step whose guard does not hold changes nothing.
 */
module PtyStream {
  import opened Wrappers
  import opened Terminal

  const READ_CHUNK: nat := 4096
  const CLIENT_CHANNEL_DEPTH: nat := 64

  type ClientId = nat

  datatype Msg = Output(bytes: seq<byte>) | Exit(code: int) | Foreground(name: string)

  // A client's bounded channel, with what its attach rendered: the dump, the
  // number of bytes fed by then, the terminal dumped, and the resize count.
  datatype Client<V> = Client(
    dump: seq<byte>, start: nat, base: V, mark: nat,
    sent: seq<Msg>, received: nat, open: bool)

  datatype Phase =
    | Reading
    | Sending(id: ClientId, chunk: seq<byte>)
    | TimedOut(id: ClientId)
    | Reaping
    | Notifying(id: ClientId, code: int)
    | Finished

  datatype Teller = Telling(id: ClientId) | GivingUp(id: ClientId)

  datatype State<V> = State(
    fed: seq<byte>,
    vt: V,
    resizes: nat,
    slot: Option<ClientId>,
    clients: map<ClientId, Client<V>>,
    phase: Phase,
    tellers: multiset<Teller>)

  datatype Action =
    | Read(chunk: seq<byte>)
    | Eof
    | SendOk
    | SendFail
    | DropSlow
    | Attach(id: ClientId, cols: nat, rows: nat, foreground: Option<string>)
    | Detach(id: ClientId)
    | Receive(id: ClientId)
    | Hangup(id: ClientId)
    | ResizeTo(cols: nat, rows: nat)
    | KillSession
    | Tell
    | TellOk(id: ClientId, name: string)
    | TellFail(id: ClientId)
    | TellDrop(id: ClientId)
    | Take(code: int)
    | ExitOk
    | ExitFail

  // ------------------------------------------------------------------ steps

  predicate Space<V>(c: Client<V>) {
    c.open && |c.sent| < c.received + CLIENT_CHANNEL_DEPTH
  }

  function Push<V>(s: State<V>, id: ClientId, m: Msg): State<V>
    requires id in s.clients
  {
    s.(clients := s.clients[id := s.clients[id].(sent := s.clients[id].sent + [m])])
  }

  // Release the slot only if it still holds this client.
  function Release<V>(s: State<V>, id: ClientId): State<V> {
    if s.slot == Some(id) then s.(slot := None) else s
  }

  // Read, feed the terminal and resolve the client under one lock.
  function ReadStep<V>(t: Vt<V>, s: State<V>, chunk: seq<byte>): State<V> {
    if s.phase.Reading? && 0 < |chunk| <= READ_CHUNK then
      s.(fed := s.fed + chunk, vt := t.feed(s.vt, chunk),
         phase := if s.slot.Some? then Sending(s.slot.value, chunk) else Reading)
    else s
  }

  function SendOkStep<V>(s: State<V>): State<V> {
    if s.phase.Sending? && s.phase.id in s.clients && Space(s.clients[s.phase.id]) then
      Push(s, s.phase.id, Output(s.phase.chunk)).(phase := Reading)
    else s
  }

  // Resize, publish the new channel and render the dump under one lock.
  function AttachStep<V>(
      t: Vt<V>, s: State<V>, id: ClientId, cols: nat, rows: nat, foreground: Option<string>): State<V>
  {
    if id in s.clients then s else
      var vt := t.resize(s.vt, cols, rows);
      var greeting := if foreground.Some? then [Foreground(foreground.value)] else [];
      s.(vt := vt, resizes := s.resizes + 1, slot := Some(id),
         clients := s.clients[id := Client(t.render(vt), |s.fed|, vt, s.resizes + 1, greeting, 0, true)])
  }

  function ReceiveStep<V>(s: State<V>, id: ClientId): State<V> {
    if id in s.clients && s.clients[id].received < |s.clients[id].sent| then
      s.(clients := s.clients[id := s.clients[id].(received := s.clients[id].received + 1)])
    else s
  }

  function TellOkStep<V>(s: State<V>, id: ClientId, name: string): State<V> {
    if Telling(id) in s.tellers && id in s.clients && Space(s.clients[id]) then
      Push(s, id, Foreground(name)).(tellers := s.tellers - multiset{Telling(id)})
    else s
  }

  // The reaper takes the client out of the slot, then tells it.
  function TakeStep<V>(s: State<V>, code: int): State<V> {
    if s.phase.Reaping? then
      s.(slot := None, phase := if s.slot.Some? then Notifying(s.slot.value, code) else Finished)
    else s
  }

  function ExitOkStep<V>(s: State<V>): State<V> {
    if s.phase.Notifying? && s.phase.id in s.clients && Space(s.clients[s.phase.id]) then
      Push(s, s.phase.id, Exit(s.phase.code)).(phase := Finished)
    else s
  }

  function Step<V>(t: Vt<V>, s: State<V>, a: Action): State<V> {
    match a
    case Read(chunk) => ReadStep(t, s, chunk)
    case Eof => if s.phase.Reading? then s.(phase := Reaping) else s
    case SendOk => SendOkStep(s)
    case SendFail => if s.phase.Sending? then s.(phase := TimedOut(s.phase.id)) else s
    case DropSlow => if s.phase.TimedOut? then Release(s, s.phase.id).(phase := Reading) else s
    case Attach(id, cols, rows, foreground) => AttachStep(t, s, id, cols, rows, foreground)
    case Detach(id) => Release(s, id)
    case Receive(id) => ReceiveStep(s, id)
    case Hangup(id) =>
      if id in s.clients then s.(clients := s.clients[id := s.clients[id].(open := false)]) else s
    case ResizeTo(cols, rows) => s.(vt := t.resize(s.vt, cols, rows), resizes := s.resizes + 1)
    case KillSession => s.(slot := None)
    case Tell => if s.slot.Some? then s.(tellers := s.tellers + multiset{Telling(s.slot.value)}) else s
    case TellOk(id, name) => TellOkStep(s, id, name)
    case TellFail(id) =>
      if Telling(id) in s.tellers
      then s.(tellers := s.tellers - multiset{Telling(id)} + multiset{GivingUp(id)}) else s
    case TellDrop(id) =>
      if GivingUp(id) in s.tellers
      then Release(s, id).(tellers := s.tellers - multiset{GivingUp(id)}) else s
    case Take(code) => TakeStep(s, code)
    case ExitOk => ExitOkStep(s)
    case ExitFail => if s.phase.Notifying? then s.(phase := Finished) else s
  }

  function Run<V>(t: Vt<V>, s: State<V>, schedule: seq<Action>): State<V>
    decreases |schedule|
  {
    if schedule == [] then s else Run(t, Step(t, s, schedule[0]), schedule[1..])
  }

  // A read loop starts on whatever terminal its session has: a blank one, or an
  // adopted session's, primed with the predecessor's screen.
  function Start<V>(terminal: V): State<V> {
    State([], terminal, 0, None, map[], Reading, multiset{})
  }

  // ------------------------------------------------------------- invariant

  // The output bytes put in a channel, in order.
  function Out(sent: seq<Msg>): seq<byte> {
    if sent == [] then [] else
      Out(sent[..|sent| - 1]) + (if sent[|sent| - 1].Output? then sent[|sent| - 1].bytes else [])
  }

  // Where in the pty's byte stream a client's output ends.
  function End<V>(c: Client<V>): nat { c.start + |Out(c.sent)| }

  predicate HasExit(sent: seq<Msg>) { exists i :: 0 <= i < |sent| && sent[i].Exit? }

  // Nothing but foreground names follows an exit.
  predicate ExitLast(sent: seq<Msg>) {
    forall i, j :: 0 <= i < j < |sent| && sent[i].Exit? ==> sent[j].Foreground?
  }

  // A client got one contiguous run of the stream from where its dump ends.
  predicate Contiguous<V>(s: State<V>, c: Client<V>) {
    End(c) <= |s.fed| && Out(c.sent) == s.fed[c.start..End(c)]
  }

  predicate Busy(p: Phase, id: ClientId) {
    (p.Sending? || p.TimedOut?) && p.id == id
  }

  ghost predicate ClientOk<V(!new)>(t: Vt<V>, s: State<V>, c: Client<V>) {
    && c.received <= |c.sent| <= c.received + CLIENT_CHANNEL_DEPTH
    && Contiguous(s, c)
    && c.dump == t.render(c.base)
    && c.mark <= s.resizes
    && (c.mark == s.resizes ==> s.vt == t.feed(c.base, s.fed[c.start..]))
    && ExitLast(c.sent)
    && (HasExit(c.sent) ==> s.phase.Finished? && End(c) == |s.fed|)
  }

  ghost predicate ClientsOk<V(!new)>(t: Vt<V>, s: State<V>) {
    forall id :: id in s.clients ==> ClientOk(t, s, s.clients[id])
  }

  predicate Told<V>(s: State<V>, id: ClientId) { id in s.clients && HasExit(s.clients[id].sent) }

  ghost predicate OneExit<V>(s: State<V>) {
    forall i, j :: Told(s, i) && Told(s, j) ==> i == j
  }

  predicate SlotOk<V>(s: State<V>) {
    s.slot.Some? ==>
      && s.slot.value in s.clients
      && !HasExit(s.clients[s.slot.value].sent)
      && (!Busy(s.phase, s.slot.value) ==> End(s.clients[s.slot.value]) == |s.fed|)
  }

  predicate PhaseOk<V>(s: State<V>) {
    && (s.phase.Sending? ==>
          && s.phase.id in s.clients && s.phase.chunk != []
          && var c := s.clients[s.phase.id];
             End(c) + |s.phase.chunk| == |s.fed| && s.phase.chunk == s.fed[End(c)..])
    && (s.phase.Notifying? ==>
          && s.phase.id in s.clients
          && s.slot != Some(s.phase.id)
          && End(s.clients[s.phase.id]) == |s.fed|)
  }

  ghost predicate Inv<V(!new)>(t: Vt<V>, s: State<V>) {
    ClientsOk(t, s) && OneExit(s) && SlotOk(s) && PhaseOk(s)
  }

  lemma OutPush(sent: seq<Msg>, m: Msg)
    ensures Out(sent + [m]) == Out(sent) + (if m.Output? then m.bytes else [])
    ensures HasExit(sent + [m]) <==> HasExit(sent) || m.Exit?
    ensures ExitLast(sent) && (HasExit(sent) ==> m.Foreground?) ==> ExitLast(sent + [m])
  {
    var all := sent + [m];
    assert all[..|all| - 1] == sent;
    if HasExit(sent) {
      var i :| 0 <= i < |sent| && sent[i].Exit?;
      assert all[i].Exit?;
    }
    if m.Exit? { assert all[|sent|].Exit?; }
  }

  // More bytes fed move nobody's start or end.
  lemma ReadKeeps<V(!new)>(t: Vt<V>, s: State<V>, chunk: seq<byte>)
    requires Lawful(t) && Inv(t, s)
    ensures Inv(t, ReadStep(t, s, chunk))
  {
    var s' := ReadStep(t, s, chunk);
    if s' != s {
      forall id | id in s'.clients ensures ClientOk(t, s', s'.clients[id]) {
        var c := s.clients[id];
        assert ClientOk(t, s, c);
        assert s'.fed[c.start..End(c)] == s.fed[c.start..End(c)];
        assert s'.fed[c.start..] == s.fed[c.start..] + chunk;
        assert !HasExit(c.sent);
      }
      if s.slot.Some? {
        assert s'.fed[|s.fed|..] == chunk;
      }
    }
  }

  // Appending to one client's channel under an unchanged stream.
  lemma PushKeepsClient<V(!new)>(t: Vt<V>, s: State<V>, s': State<V>, c: Client<V>, m: Msg)
    requires ClientOk(t, s, c) && Space(c) && (HasExit(c.sent) ==> m.Foreground?)
    requires s'.fed == s.fed && s'.vt == s.vt && s'.resizes == s.resizes
    requires s.phase.Finished? ==> s'.phase.Finished?
    requires m.Output? ==> End(c) + |m.bytes| == |s.fed| && m.bytes == s.fed[End(c)..]
    requires m.Exit? ==> s'.phase.Finished? && End(c) == |s.fed|
    ensures ClientOk(t, s', c.(sent := c.sent + [m]))
    ensures End(c.(sent := c.sent + [m])) == End(c) + (if m.Output? then |m.bytes| else 0)
  {
    OutPush(c.sent, m);
    if m.Output? {
      assert s.fed[c.start..End(c)] + s.fed[End(c)..] == s.fed[c.start..];
      assert s.fed[c.start..|s.fed|] == s.fed[c.start..];
    }
  }

  // One client's channel changes and the stream does not.
  lemma OneClientChanges<V(!new)>(t: Vt<V>, s: State<V>, s': State<V>, id: ClientId)
    requires ClientsOk(t, s) && s'.fed == s.fed && s'.vt == s.vt && s'.resizes == s.resizes
    requires s.phase.Finished? ==> s'.phase.Finished?
    requires id in s'.clients && s'.clients == s.clients[id := s'.clients[id]] && ClientOk(t, s', s'.clients[id])
    ensures ClientsOk(t, s')
  {
    forall k | k in s'.clients ensures ClientOk(t, s', s'.clients[k]) {
      if k != id { assert ClientOk(t, s, s.clients[k]); }
    }
  }

  lemma PushKeeps<V(!new)>(t: Vt<V>, s: State<V>, s': State<V>, id: ClientId, m: Msg)
    requires ClientsOk(t, s) && id in s.clients && Space(s.clients[id])
    requires HasExit(s.clients[id].sent) ==> m.Foreground?
    requires s'.fed == s.fed && s'.vt == s.vt && s'.resizes == s.resizes
    requires s'.clients == Push(s, id, m).clients
    requires s.phase.Finished? ==> s'.phase.Finished?
    requires m.Output? ==> End(s.clients[id]) + |m.bytes| == |s.fed| && m.bytes == s.fed[End(s.clients[id])..]
    requires m.Exit? ==> s'.phase.Finished? && End(s.clients[id]) == |s.fed|
    ensures ClientsOk(t, s')
    ensures End(s'.clients[id]) == End(s.clients[id]) + (if m.Output? then |m.bytes| else 0)
    ensures forall k :: Told(s', k) <==> Told(s, k) || (k == id && m.Exit?)
  {
    var c := s.clients[id];
    assert ClientOk(t, s, c);
    OutPush(c.sent, m);
    PushKeepsClient(t, s, s', c, m);
    OneClientChanges(t, s, s', id);
  }

  lemma SendOkKeeps<V(!new)>(t: Vt<V>, s: State<V>)
    requires Inv(t, s)
    ensures Inv(t, SendOkStep(s))
  {
    var s' := SendOkStep(s);
    if s' != s {
      assert ClientOk(t, s, s.clients[s.phase.id]);
      PushKeeps(t, s, s', s.phase.id, Output(s.phase.chunk));
      assert s'.slot.Some? ==> !Told(s', s'.slot.value);
    }
  }

  lemma AttachKeeps<V(!new)>(
      t: Vt<V>, s: State<V>, id: ClientId, cols: nat, rows: nat, foreground: Option<string>)
    requires Lawful(t) && Inv(t, s)
    ensures Inv(t, AttachStep(t, s, id, cols, rows, foreground))
  {
    var s' := AttachStep(t, s, id, cols, rows, foreground);
    if s' != s {
      NewcomerOk(t, s, s', id, foreground);
      forall k | k in s'.clients ensures ClientOk(t, s', s'.clients[k]) {
        if k != id { ResizedOk(t, s, s', s.clients[k]); }
      }
      forall k ensures Told(s', k) <==> Told(s, k) {}
    }
  }

  lemma NewcomerOk<V(!new)>(t: Vt<V>, s: State<V>, s': State<V>, id: ClientId, foreground: Option<string>)
    requires Lawful(t) && id in s'.clients && s'.fed == s.fed
    requires s'.clients[id] == Client(t.render(s'.vt), |s.fed|, s'.vt, s'.resizes,
               if foreground.Some? then [Foreground(foreground.value)] else [], 0, true)
    ensures ClientOk(t, s', s'.clients[id]) && !HasExit(s'.clients[id].sent) && End(s'.clients[id]) == |s.fed|
  {
    var c := s'.clients[id];
    assert Out(c.sent) == [] by {
      if foreground.Some? { OutPush([], Foreground(foreground.value)); }
    }
    assert s'.fed[c.start..] == [];
  }

  // A resize only ends the promise that a client's terminal is the daemon's.
  lemma ResizedOk<V(!new)>(t: Vt<V>, s: State<V>, s': State<V>, c: Client<V>)
    requires ClientOk(t, s, c) && s'.fed == s.fed && s'.resizes > s.resizes && s'.phase == s.phase
    ensures ClientOk(t, s', c)
  {
  }

  lemma TellOkKeeps<V(!new)>(t: Vt<V>, s: State<V>, id: ClientId, name: string)
    requires Inv(t, s)
    ensures Inv(t, TellOkStep(s, id, name))
  {
    var s' := TellOkStep(s, id, name);
    if s' != s {
      PushKeeps(t, s, s', id, Foreground(name));
      assert s'.slot.Some? ==> !Told(s', s'.slot.value);
    }
  }

  lemma ExitOkKeeps<V(!new)>(t: Vt<V>, s: State<V>)
    requires Inv(t, s)
    ensures Inv(t, ExitOkStep(s))
  {
    var s' := ExitOkStep(s);
    if s' != s {
      forall k ensures !Told(s, k) { if k in s.clients { assert ClientOk(t, s, s.clients[k]); } }
      assert !Told(s, s.phase.id);
      PushKeeps(t, s, s', s.phase.id, Exit(s.phase.code));
      assert s'.slot.Some? ==> !Told(s', s'.slot.value);
    }
  }

  // Steps that only move the slot, the phase or the tellers.
  predicate ControlOnly<V(==)>(s: State<V>, s': State<V>) {
    && s' == s.(slot := s'.slot, phase := s'.phase, tellers := s'.tellers)
    && (s.phase.Finished? ==> s'.phase.Finished?)
    && (s'.slot == s.slot || s'.slot == None)
    && (s'.slot.Some? && Busy(s.phase, s'.slot.value) ==> Busy(s'.phase, s'.slot.value))
    && (s'.phase.Sending? ==> s'.phase == s.phase)
    && (s'.phase.Notifying? ==>
          s'.phase == s.phase || (s.phase.Reaping? && s.slot == Some(s'.phase.id) && s'.slot == None))
  }

  lemma ControlStep<V>(t: Vt<V>, s: State<V>, a: Action)
    requires a.Eof? || a.SendFail? || a.DropSlow? || a.Detach? || a.KillSession?
          || a.Tell? || a.TellFail? || a.TellDrop? || a.Take? || a.ExitFail?
    ensures ControlOnly(s, Step(t, s, a))
  {
  }

  lemma ControlKeeps<V(!new)>(t: Vt<V>, s: State<V>, s': State<V>)
    requires Inv(t, s) && ControlOnly(s, s')
    ensures Inv(t, s')
  {
    forall k | k in s'.clients ensures ClientOk(t, s', s'.clients[k]) {
      assert ClientOk(t, s, s.clients[k]);
    }
    forall k ensures Told(s', k) <==> Told(s, k) {}
  }

  // The receiving end takes a message or hangs up: what was sent stays.
  lemma ReceiverKeeps<V(!new)>(t: Vt<V>, s: State<V>, id: ClientId, received: nat, open: bool)
    requires Inv(t, s) && id in s.clients && s.clients[id].received <= received <= |s.clients[id].sent|
    ensures Inv(t, s.(clients := s.clients[id := s.clients[id].(received := received, open := open)]))
  {
    var c' := s.clients[id].(received := received, open := open);
    var s' := s.(clients := s.clients[id := c']);
    assert ClientOk(t, s, s.clients[id]);
    assert End(c') == End(s.clients[id]);
    OneClientChanges(t, s, s', id);
    forall k ensures Told(s', k) <==> Told(s, k) {}
  }

  lemma ReceiveKeeps<V(!new)>(t: Vt<V>, s: State<V>, id: ClientId)
    requires Inv(t, s)
    ensures Inv(t, ReceiveStep(s, id))
  {
    if ReceiveStep(s, id) != s { ReceiverKeeps(t, s, id, s.clients[id].received + 1, s.clients[id].open); }
  }

  lemma HangupKeeps<V(!new)>(t: Vt<V>, s: State<V>, id: ClientId)
    requires Inv(t, s)
    ensures Inv(t, Step(t, s, Hangup(id)))
  {
    if id in s.clients {
      assert ClientOk(t, s, s.clients[id]);
      ReceiverKeeps(t, s, id, s.clients[id].received, false);
    }
  }

  lemma ResizeKeeps<V(!new)>(t: Vt<V>, s: State<V>, cols: nat, rows: nat)
    requires Inv(t, s)
    ensures Inv(t, Step(t, s, ResizeTo(cols, rows)))
  {
    var s' := Step(t, s, ResizeTo(cols, rows));
    forall k | k in s'.clients ensures ClientOk(t, s', s'.clients[k]) {
      ResizedOk(t, s, s', s.clients[k]);
    }
    forall k ensures Told(s', k) <==> Told(s, k) {}
  }

  lemma StepKeeps<V(!new)>(t: Vt<V>, s: State<V>, a: Action)
    requires Lawful(t) && Inv(t, s)
    ensures Inv(t, Step(t, s, a))
  {
    match a
    case Read(chunk) => ReadKeeps(t, s, chunk);
    case SendOk => SendOkKeeps(t, s);
    case Attach(id, cols, rows, foreground) => AttachKeeps(t, s, id, cols, rows, foreground);
    case TellOk(id, name) => TellOkKeeps(t, s, id, name);
    case ExitOk => ExitOkKeeps(t, s);
    case ResizeTo(cols, rows) => ResizeKeeps(t, s, cols, rows);
    case Receive(id) => ReceiveKeeps(t, s, id);
    case Hangup(id) => HangupKeeps(t, s, id);
    case _ =>
      ControlStep(t, s, a);
      ControlKeeps(t, s, Step(t, s, a));
  }

  lemma {:induction false} RunKeeps<V(!new)>(t: Vt<V>, s: State<V>, schedule: seq<Action>)
    requires Lawful(t) && Inv(t, s)
    ensures Inv(t, Run(t, s, schedule))
    decreases |schedule|
  {
    if schedule != [] {
      StepKeeps(t, s, schedule[0]);
      RunKeeps(t, Step(t, s, schedule[0]), schedule[1..]);
    }
  }

  // -------------------------------------------------------------- theorems

  // What a client's own terminal shows: its dump, then its channel's output.
  function Screen<V>(t: Vt<V>, c: Client<V>): V {
    t.feed(t.feed(t.blank(t.size(c.base).0, t.size(c.base).1), c.dump), Out(c.sent))
  }

  // Lossless attach, over every schedule: the output put in any client's
  // channel is one contiguous run of the pty's byte stream that starts exactly
  // where that client's dump was rendered, and replaying dump and output gives
  // the terminal of that point in the stream.
  lemma LosslessAttach<V(!new)>(t: Vt<V>, terminal: V, schedule: seq<Action>)
    requires Lawful(t)
    ensures var s := Run(t, Start(terminal), schedule);
      forall id :: id in s.clients ==>
        var c := s.clients[id];
        && Contiguous(s, c)
        && c.dump == t.render(c.base)
        && Screen(t, c) == t.feed(c.base, s.fed[c.start..End(c)])
  {
    RunKeeps(t, Start(terminal), schedule);
    var s := Run(t, Start(terminal), schedule);
    forall id | id in s.clients
      ensures var c := s.clients[id];
        && Contiguous(s, c)
        && c.dump == t.render(c.base)
        && Screen(t, c) == t.feed(c.base, s.fed[c.start..End(c)])
    {
      var c := s.clients[id];
      assert ClientOk(t, s, c);
      assert Replay(t, c.base) == c.base;
    }
  }

  // The client in the slot is in lockstep: between chunks it has been given
  // every byte fed since its dump, and, if nothing was resized since, its
  // terminal equals the daemon's.
  lemma Lockstep<V(!new)>(t: Vt<V>, terminal: V, schedule: seq<Action>)
    requires Lawful(t)
    ensures var s := Run(t, Start(terminal), schedule);
      s.slot.Some? && !Busy(s.phase, s.slot.value) ==>
        && s.slot.value in s.clients
        && var c := s.clients[s.slot.value];
           && c.start <= |s.fed| && Out(c.sent) == s.fed[c.start..]
           && (c.mark == s.resizes ==> Screen(t, c) == s.vt)
  {
    RunKeeps(t, Start(terminal), schedule);
    LosslessAttach(t, terminal, schedule);
    var s := Run(t, Start(terminal), schedule);
    if s.slot.Some? && !Busy(s.phase, s.slot.value) {
      var c := s.clients[s.slot.value];
      assert ClientOk(t, s, c);
      assert s.fed[c.start..End(c)] == s.fed[c.start..];
    }
  }

  // An exit reaches at most one client, comes after every byte the pty ever
  // produced since that client's dump, and no output follows it.
  lemma ExitAfterAllOutput<V(!new)>(t: Vt<V>, terminal: V, schedule: seq<Action>)
    requires Lawful(t)
    ensures var s := Run(t, Start(terminal), schedule);
      && (forall id :: id in s.clients && HasExit(s.clients[id].sent) ==>
            && s.clients[id].start <= |s.fed|
            && Out(s.clients[id].sent) == s.fed[s.clients[id].start..]
            && ExitLast(s.clients[id].sent))
      && (forall i, j ::
            (i in s.clients && HasExit(s.clients[i].sent)) && (j in s.clients && HasExit(s.clients[j].sent)) ==> i == j)
  {
    RunKeeps(t, Start(terminal), schedule);
    var s := Run(t, Start(terminal), schedule);
    assert forall i :: Told(s, i) <==> i in s.clients && HasExit(s.clients[i].sent);
    forall id | id in s.clients && HasExit(s.clients[id].sent)
      ensures s.clients[id].start <= |s.fed|
      ensures Out(s.clients[id].sent) == s.fed[s.clients[id].start..] && ExitLast(s.clients[id].sent)
    {
      var c := s.clients[id];
      assert ClientOk(t, s, c);
      assert s.fed[c.start..End(c)] == s.fed[c.start..];
    }
  }

  // The reaper has taken the slot, and not this client out of it.
  predicate Missed<V>(s: State<V>, id: ClientId) {
    && (s.phase.Finished? || (s.phase.Notifying? && s.phase.id != id))
    && (id in s.clients ==> !HasExit(s.clients[id].sent))
  }

  lemma MissedStep<V(!new)>(t: Vt<V>, s: State<V>, a: Action, id: ClientId)
    requires Missed(s, id)
    ensures Missed(Step(t, s, a), id) && Step(t, s, a).fed == s.fed
  {
    TakenStep(t, s, a);
    match a
    case TellOk(k, name) => if k in s.clients { OutPush(s.clients[k].sent, Foreground(name)); }
    case Attach(_, _, _, _) =>
    case ExitOk =>
    case Receive(_) => MissedOutside(t, s, a, id);
    case Hangup(_) => MissedOutside(t, s, a, id);
    case Read(_) => MissedOutside(t, s, a, id);
    case SendOk => MissedOutside(t, s, a, id);
    case ResizeTo(_, _) => MissedOutside(t, s, a, id);
    case _ => ControlStep(t, s, a);
  }

  lemma MissedOutside<V>(t: Vt<V>, s: State<V>, a: Action, id: ClientId)
    requires Missed(s, id) && (a.Receive? || a.Hangup? || a.Read? || a.SendOk? || a.ResizeTo?)
    ensures Missed(Step(t, s, a), id)
  {
  }

  lemma TakenStep<V>(t: Vt<V>, s: State<V>, a: Action)
    requires s.phase.Finished? || s.phase.Notifying?
    ensures var s' := Step(t, s, a); (s'.phase.Finished? || s'.phase == s.phase) && s'.fed == s.fed
  {
  }

  // From the moment the reaper takes the slot, while it still waits to send the
  // exit and ever after, nothing more is fed and nobody but the client it took
  // gets an exit: not one that attaches in that window, nor any later one.
  lemma {:induction false} NoExitAfterTake<V(!new)>(t: Vt<V>, s: State<V>, schedule: seq<Action>, id: ClientId)
    requires Missed(s, id)
    ensures Missed(Run(t, s, schedule), id) && Run(t, s, schedule).fed == s.fed
    decreases |schedule|
  {
    if schedule != [] {
      MissedStep(t, s, schedule[0], id);
      NoExitAfterTake(t, Step(t, s, schedule[0]), schedule[1..], id);
    }
  }

  // So the clients an exit can still reach once the reaper takes the slot are
  // exactly the one that was in it.
  lemma TakeDecidesExit<V(!new)>(t: Vt<V>, terminal: V, before: seq<Action>, code: int, after: seq<Action>, id: ClientId)
    requires Lawful(t)
    requires Run(t, Start(terminal), before).phase.Reaping?
    ensures var s := Run(t, Start(terminal), before);
      var s' := Run(t, Step(t, s, Take(code)), after);
      && s'.fed == s.fed
      && (s.slot != Some(id) ==> Missed(s', id))
      && (s.slot == Some(id) && id in s.clients && Space(s.clients[id]) ==>
            var told := Step(t, Step(t, s, Take(code)), ExitOk);
            id in told.clients && HasExit(told.clients[id].sent))
  {
    RunKeeps(t, Start(terminal), before);
    var s := Run(t, Start(terminal), before);
    NothingFedAfterTake(t, Step(t, s, Take(code)), after);
    if s.slot != Some(id) {
      TakeMisses(t, s, code, id);
      NoExitAfterTake(t, Step(t, s, Take(code)), after, id);
    } else {
      TakenIsTold(t, s, code, id);
    }
  }

  lemma TakeMisses<V(!new)>(t: Vt<V>, s: State<V>, code: int, id: ClientId)
    requires Inv(t, s) && s.phase.Reaping? && s.slot != Some(id)
    ensures Missed(Step(t, s, Take(code)), id)
  {
    if id in s.clients { assert ClientOk(t, s, s.clients[id]); }
  }

  lemma TakenIsTold<V>(t: Vt<V>, s: State<V>, code: int, id: ClientId)
    requires s.phase.Reaping? && s.slot == Some(id)
    ensures id in s.clients && Space(s.clients[id]) ==>
      var told := Step(t, Step(t, s, Take(code)), ExitOk);
      id in told.clients && HasExit(told.clients[id].sent)
  {
    if id in s.clients { OutPush(s.clients[id].sent, Exit(code)); }
  }

  lemma {:induction false} NothingFedAfterTake<V(!new)>(t: Vt<V>, s: State<V>, schedule: seq<Action>)
    requires s.phase.Finished? || s.phase.Notifying?
    ensures Run(t, s, schedule).fed == s.fed
    decreases |schedule|
  {
    if schedule != [] {
      TakenStep(t, s, schedule[0]);
      NothingFedAfterTake(t, Step(t, s, schedule[0]), schedule[1..]);
    }
  }

  // Which step can take a client out of the slot: its own teardown, a newcomer,
  // a kill, or the reaper. Nobody else's teardown does.
  predicate MayEvict<V>(s: State<V>, a: Action, id: ClientId) {
    || a == Detach(id)
    || (a.DropSlow? && s.phase == TimedOut(id))
    || a == TellDrop(id)
    || (a.Attach? && a.id != id)
    || a.KillSession?
    || (a.Take? && s.phase.Reaping?)
  }

  ghost predicate Undisturbed<V(!new)>(t: Vt<V>, s: State<V>, schedule: seq<Action>, id: ClientId)
    decreases |schedule|
  {
    schedule == [] ||
    (!MayEvict(s, schedule[0], id) && Undisturbed(t, Step(t, s, schedule[0]), schedule[1..], id))
  }

  // However many evicted clients wind down meanwhile, a client keeps the slot
  // until a step that names it, replaces it or ends the session.
  lemma {:induction false} TeardownSparesSuccessor<V(!new)>(
      t: Vt<V>, s: State<V>, schedule: seq<Action>, id: ClientId)
    requires s.slot == Some(id) && id in s.clients && Undisturbed(t, s, schedule, id)
    ensures Run(t, s, schedule).slot == Some(id)
    decreases |schedule|
  {
    if schedule != [] {
      TeardownSparesSuccessor(t, Step(t, s, schedule[0]), schedule[1..], id);
    }
  }

  // Out of the slot, and no chunk on its way.
  predicate Outsider<V>(s: State<V>, id: ClientId) {
    id in s.clients && s.slot != Some(id) && !(s.phase.Sending? && s.phase.id == id)
  }

  lemma OutsiderStep<V(!new)>(t: Vt<V>, s: State<V>, a: Action, id: ClientId)
    requires Outsider(s, id)
    ensures Outsider(Step(t, s, a), id)
    ensures Out(Step(t, s, a).clients[id].sent) == Out(s.clients[id].sent)
  {
    match a
    case TellOk(_, name) => OutPush(s.clients[id].sent, Foreground(name));
    case ExitOk => OutsiderExit(s, id);
    case Read(_) => OutsiderStream(t, s, a, id);
    case SendOk => OutsiderStream(t, s, a, id);
    case Attach(_, _, _, _) => OutsiderStream(t, s, a, id);
    case Receive(_) => OutsiderOwn(t, s, a, id);
    case Hangup(_) => OutsiderOwn(t, s, a, id);
    case ResizeTo(_, _) => OutsiderOwn(t, s, a, id);
    case _ =>
      ControlStep(t, s, a);
      OutsiderControl(s, Step(t, s, a), id);
  }

  lemma OutsiderStream<V>(t: Vt<V>, s: State<V>, a: Action, id: ClientId)
    requires Outsider(s, id) && (a.Read? || a.SendOk? || a.Attach?)
    ensures Outsider(Step(t, s, a), id) && Step(t, s, a).clients[id].sent == s.clients[id].sent
  {
  }

  lemma OutsiderOwn<V>(t: Vt<V>, s: State<V>, a: Action, id: ClientId)
    requires Outsider(s, id) && (a.Receive? || a.Hangup? || a.ResizeTo?)
    ensures Outsider(Step(t, s, a), id) && Step(t, s, a).clients[id].sent == s.clients[id].sent
  {
  }

  lemma OutsiderExit<V>(s: State<V>, id: ClientId)
    requires Outsider(s, id)
    ensures Outsider(ExitOkStep(s), id) && Out(ExitOkStep(s).clients[id].sent) == Out(s.clients[id].sent)
  {
    if s.phase.Notifying? { OutPush(s.clients[id].sent, Exit(s.phase.code)); }
  }

  lemma OutsiderControl<V>(s: State<V>, s': State<V>, id: ClientId)
    requires Outsider(s, id) && ControlOnly(s, s')
    ensures Outsider(s', id) && s'.clients == s.clients
  {
  }

  // A client that has left the slot with no chunk in flight gets no more output.
  lemma {:induction false} OutputEndsWithSlot<V(!new)>(
      t: Vt<V>, s: State<V>, schedule: seq<Action>, id: ClientId)
    requires Outsider(s, id)
    ensures var s' := Run(t, s, schedule);
            id in s'.clients && Out(s'.clients[id].sent) == Out(s.clients[id].sent)
    decreases |schedule|
  {
    if schedule != [] {
      OutsiderStep(t, s, schedule[0], id);
      OutputEndsWithSlot(t, Step(t, s, schedule[0]), schedule[1..], id);
    }
  }
}
