/**
 The session object of crates/muxd/src/manager.rs, updated in place. Each method
 is one region the source runs under its locks, or one outcome of an await; a
 schedule of them is one execution of the daemon for this pty.
 */
module PtySession {
  import opened Wrappers
  import opened Terminal
  import opened PtyStream

  class PtySession<V> {
    const vt: Vt<V>
    var terminal: V
    var client: Option<ClientId>
    var channels: map<ClientId, Client<V>>
    var phase: Phase
    var tellers: multiset<Teller>
    // The history the claims speak of: bytes fed, and resizes made.
    var fed: seq<byte>
    var resizes: nat

    ghost function View(): State<V>
      reads this
    {
      State(fed, terminal, resizes, client, channels, phase, tellers)
    }

    constructor (vt: Vt<V>, terminal: V)
      ensures this.vt == vt && View() == Start(terminal)
    {
      this.vt, this.terminal, client, channels := vt, terminal, None, map[];
      phase, tellers, fed, resizes := Reading, multiset{}, [], 0;
    }

    // Release the slot only if `id` is still the client in it.
    method Detach(id: ClientId)
      modifies this`client
      ensures View() == Release(old(View()), id)
    {
      if client == Some(id) { client := None; }
    }

    // Put a message in a channel that has room.
    method Put(id: ClientId, m: Msg)
      requires id in channels
      modifies this`channels
      ensures View() == Push(old(View()), id, m)
    {
      channels := channels[id := channels[id].(sent := channels[id].sent + [m])];
    }

    // The read loop's locked region: read, feed, resolve the client.
    method ReadChunk(chunk: seq<byte>)
      modifies this
      ensures View() == ReadStep(vt, old(View()), chunk)
    {
      if phase.Reading? && 0 < |chunk| <= READ_CHUNK {
        terminal := vt.feed(terminal, chunk);
        fed := fed + chunk;
        if client.Some? { phase := Sending(client.value, chunk); }
      }
    }

    // The bounded send found room: the chunk is in the client's channel.
    method FinishSend()
      modifies this
      ensures View() == SendOkStep(old(View()))
    {
      if phase.Sending? && phase.id in channels && Space(channels[phase.id]) {
        Put(phase.id, Output(phase.chunk));
        phase := Reading;
      }
    }

    // It did not: the client it was for is to be disconnected, by its id.
    method TimeOutSend()
      modifies this
      ensures View() == Step(vt, old(View()), SendFail)
    {
      if phase.Sending? { phase := TimedOut(phase.id); }
    }

    // The disconnect, which spares a client that took the slot meanwhile.
    method DropSlowClient()
      modifies this
      ensures View() == Step(vt, old(View()), DropSlow)
    {
      if phase.TimedOut? {
        Detach(phase.id);
        phase := Reading;
      }
    }

    // Resize, install the channel, then render, all under the terminal lock.
    method AttachOn(id: ClientId, cols: nat, rows: nat, foreground: Option<string>) returns (dump: seq<byte>)
      modifies this
      ensures View() == AttachStep(vt, old(View()), id, cols, rows, foreground)
      ensures id !in old(channels) ==>
        id in channels && dump == channels[id].dump && dump == vt.render(terminal) && client == Some(id)
    {
      dump := [];
      if id !in channels {
        terminal := vt.resize(terminal, cols, rows);
        resizes := resizes + 1;
        var greeting := if foreground.Some? then [Foreground(foreground.value)] else [];
        client := Some(id);
        dump := vt.render(terminal);
        channels := channels[id := Client(dump, |fed|, terminal, resizes, greeting, 0, true)];
      }
    }

    // The reaper takes the client out of the slot, so its sender drops after
    // the exit event.
    method TakeClient(code: int)
      modifies this
      ensures View() == TakeStep(old(View()), code)
    {
      if phase.Reaping? {
        phase := if client.Some? then Notifying(client.value, code) else Finished;
        client := None;
      }
    }

    method NotifyExit()
      modifies this
      ensures View() == ExitOkStep(old(View()))
    {
      if phase.Notifying? && phase.id in channels && Space(channels[phase.id]) {
        Put(phase.id, Exit(phase.code));
        phase := Finished;
      }
    }

    // The foreground teller: it resolved its client earlier, and gives up on
    // that client by id.
    method Teller(a: Action)
      requires a.Tell? || a.TellOk? || a.TellFail? || a.TellDrop?
      modifies this
      ensures View() == Step(vt, old(View()), a)
    {
      match a
      case Tell =>
        if client.Some? { tellers := tellers + multiset{Telling(client.value)}; }
      case TellOk(id, name) => Tell(id, name);
      case TellFail(id) =>
        if Telling(id) in tellers {
          tellers := tellers - multiset{Telling(id)} + multiset{GivingUp(id)};
        }
      case TellDrop(id) =>
        if GivingUp(id) in tellers {
          Detach(id);
          tellers := tellers - multiset{GivingUp(id)};
        }
    }

    method Tell(id: ClientId, name: string)
      modifies this`channels, this`tellers
      ensures View() == TellOkStep(old(View()), id, name)
    {
      if Telling(id) in tellers && id in channels && Space(channels[id]) {
        Put(id, Foreground(name));
        tellers := tellers - multiset{Telling(id)};
      }
    }

    // The client's side of its channel, a resize, and a kill.
    method Outside(a: Action)
      requires a.Receive? || a.Hangup? || a.ResizeTo? || a.KillSession?
      modifies this
      ensures View() == Step(vt, old(View()), a)
    {
      match a
      case Receive(id) =>
        if id in channels && channels[id].received < |channels[id].sent| {
          channels := channels[id := channels[id].(received := channels[id].received + 1)];
        }
      case Hangup(id) =>
        if id in channels { channels := channels[id := channels[id].(open := false)]; }
      case ResizeTo(cols, rows) =>
        terminal := vt.resize(terminal, cols, rows);
        resizes := resizes + 1;
      case KillSession =>
        client := None;
    }

    method Perform(a: Action)
      modifies this
      ensures View() == Step(vt, old(View()), a)
    {
      match a
      case Read(chunk) => ReadChunk(chunk);
      case Eof => if phase.Reading? { phase := Reaping; }
      case SendOk => FinishSend();
      case SendFail => TimeOutSend();
      case DropSlow => DropSlowClient();
      case Attach(id, cols, rows, foreground) => var _ := AttachOn(id, cols, rows, foreground);
      case Detach(id) => Detach(id);
      case Take(code) => TakeClient(code);
      case ExitOk => NotifyExit();
      case ExitFail => if phase.Notifying? { phase := Finished; }
      case Receive(_) => Outside(a);
      case Hangup(_) => Outside(a);
      case ResizeTo(_, _) => Outside(a);
      case KillSession => Outside(a);
      case _ => Teller(a);
    }

    // Any interleaving of the tasks that touch this session.
    method Drive(schedule: seq<Action>)
      modifies this
      ensures View() == Run(vt, old(View()), schedule)
    {
      for i := 0 to |schedule|
        invariant Run(vt, View(), schedule[i..]) == Run(vt, old(View()), schedule)
      {
        assert schedule[i..][0] == schedule[i] && schedule[i..][1..] == schedule[i + 1..];
        Perform(schedule[i]);
      }
    }
  }
}
