/**
 A remote audio route end to end: the server loop of crates/muxd/src/audio.rs
 and the bridge on the other side of the connection. State messages travel
 reliably and in order; audio travels in datagrams that may be lost, repeated
 or reordered. A step whose guard does not hold changes nothing.
 */
module AudioEpochs {
  import opened Wrappers
  import opened Terminal
  import opened AudioPackets

  datatype Mode = Mode(capture: bool, playback: bool, captureEpoch: nat, playbackEpoch: nat)

  // `capture` runs bridge to server, `play` server to bridge.
  datatype State = State(
    mode: Mode,
    clients: set<(nat, bool)>,
    playPosition: nat,
    latest: Mode,
    capturePosition: nat,
    queue: seq<Mode>,
    capture: Link,
    play: Link,
    up: bool)

  datatype Action =
    | Running(id: nat, capture: bool, on: bool)
    | Playback(pcm: seq<byte>)
    | Heartbeat
    | DeliverMode
    | CaptureFrame(epoch: nat, pcm: seq<byte>)
    | CaptureDatagram(data: seq<byte>)
    | PlayDatagram(data: seq<byte>)

  // ------------------------------------------------------------------ steps

  predicate Any(clients: set<(nat, bool)>, capture: bool) {
    exists c :: c in clients && c.1 == capture
  }

  // A direction switched on opens a new epoch; playback restarts its clock.
  function RunningStep(s: State, id: nat, capture: bool, on: bool): State {
    var clients := if on then s.clients + {(id, capture)} else s.clients - {(id, capture)};
    var cap, play := Any(clients, true), Any(clients, false);
    var startCap, startPlay := cap && !s.mode.capture, play && !s.mode.playback;
    if (startCap && !InU64(s.mode.captureEpoch + 1)) || (startPlay && !InU64(s.mode.playbackEpoch + 1))
    then s.(up := false)
    else
      var next := Mode(cap, play,
                       s.mode.captureEpoch + (if startCap then 1 else 0),
                       s.mode.playbackEpoch + (if startPlay then 1 else 0));
      s.(clients := clients,
         mode := next,
         playPosition := if startPlay then 0 else s.playPosition,
         queue := if next != s.mode then s.queue + [next] else s.queue)
  }

  function PlaybackStep(s: State, pcm: seq<byte>): State {
    if !PcmOk(pcm) then s
    else if !InU64(s.playPosition + |pcm| / 2) then s.(up := false)
    else s.(play := Transmit(s.play, Packet(s.mode.playbackEpoch, s.playPosition, pcm)),
            playPosition := s.playPosition + |pcm| / 2)
  }

  // A frame from the microphone carries the epoch its driver was told; one that
  // is not the epoch last heard of is dropped here.
  function CaptureFrameStep(s: State, epoch: nat, pcm: seq<byte>): State {
    if |pcm| < 2 then s.(up := false)
    else if !s.latest.capture || epoch != s.latest.captureEpoch then s
    else if !PcmOk(pcm) || !InU64(s.capturePosition + |pcm| / 2) then s.(up := false)
    else s.(capture := Transmit(s.capture, Packet(epoch, s.capturePosition, pcm)),
            capturePosition := s.capturePosition + |pcm| / 2)
  }

  function Step(s: State, a: Action): State {
    if !s.up then s else
      match a
      case Running(id, capture, on) => RunningStep(s, id, capture, on)
      case Playback(pcm) => PlaybackStep(s, pcm)
      case Heartbeat => s.(queue := s.queue + [s.mode])
      case DeliverMode => if s.queue == [] then s else s.(latest := s.queue[0], queue := s.queue[1..])
      case CaptureFrame(epoch, pcm) => CaptureFrameStep(s, epoch, pcm)
      case CaptureDatagram(data) =>
        if MayArrive(s.capture, data) && s.mode.capture
        then s.(capture := Deliver(s.capture, data, s.mode.captureEpoch)) else s
      case PlayDatagram(data) =>
        if MayArrive(s.play, data) then s.(play := Deliver(s.play, data, s.latest.playbackEpoch)) else s
  }

  function Run(s: State, schedule: seq<Action>): State
    decreases |schedule|
  {
    if schedule == [] then s else Run(Step(s, schedule[0]), schedule[1..])
  }

  function Start(token: nat): State {
    var off := Mode(false, false, 0, 0);
    var link := Link(token, [], [], Filter(0, None));
    State(off, {}, 0, off, 0, [], link, link, true)
  }

  // ------------------------------------------------------------- invariant

  predicate NotAfter(a: Mode, b: Mode) {
    a.captureEpoch <= b.captureEpoch && a.playbackEpoch <= b.playbackEpoch
  }

  // Epochs never go back along the control stream.
  predicate Chain(latest: Mode, queue: seq<Mode>, mode: Mode) {
    && NotAfter(latest, mode)
    && (forall i :: 0 <= i < |queue| ==> NotAfter(latest, queue[i]) && NotAfter(queue[i], mode))
    && (forall i, j :: 0 <= i < j < |queue| ==> NotAfter(queue[i], queue[j]))
  }

  predicate SentBefore(sent: seq<Packet>, epoch: nat, position: nat) {
    forall i :: 0 <= i < |sent| ==>
      sent[i].epoch < epoch || (sent[i].epoch == epoch && sent[i].End() <= position)
  }

  predicate Inv(s: State) {
    && LinkOk(s.capture) && LinkOk(s.play)
    && InU64(s.mode.captureEpoch) && InU64(s.mode.playbackEpoch)
    && InU64(s.capturePosition) && InU64(s.playPosition)
    && Chain(s.latest, s.queue, s.mode)
    && SentBefore(s.play.sent, s.mode.playbackEpoch, s.playPosition)
    && (forall i :: 0 <= i < |s.capture.sent| ==>
          s.capture.sent[i].epoch <= s.latest.captureEpoch && s.capture.sent[i].End() <= s.capturePosition)
  }

  lemma RunningKeeps(s: State, id: nat, capture: bool, on: bool)
    requires Inv(s)
    ensures Inv(RunningStep(s, id, capture, on))
  {
  }

  lemma PlaybackKeeps(s: State, pcm: seq<byte>)
    requires Inv(s)
    ensures Inv(PlaybackStep(s, pcm))
  {
    if PcmOk(pcm) && InU64(s.playPosition + |pcm| / 2) {
      TransmitKeeps(s.play, Packet(s.mode.playbackEpoch, s.playPosition, pcm));
    }
  }

  lemma CaptureFrameKeeps(s: State, epoch: nat, pcm: seq<byte>)
    requires Inv(s)
    ensures Inv(CaptureFrameStep(s, epoch, pcm))
  {
    if PcmOk(pcm) && epoch == s.latest.captureEpoch {
      TransmitKeeps(s.capture, Packet(epoch, s.capturePosition, pcm));
    }
  }

  lemma StepKeeps(s: State, a: Action)
    requires Inv(s)
    ensures Inv(Step(s, a))
  {
    if s.up {
      match a
      case Running(id, capture, on) => RunningKeeps(s, id, capture, on);
      case Playback(pcm) => PlaybackKeeps(s, pcm);
      case CaptureFrame(epoch, pcm) => CaptureFrameKeeps(s, epoch, pcm);
      case CaptureDatagram(data) => if MayArrive(s.capture, data) { DeliverKeeps(s.capture, data, s.mode.captureEpoch); }
      case PlayDatagram(data) => if MayArrive(s.play, data) { DeliverKeeps(s.play, data, s.latest.playbackEpoch); }
      case _ =>
    }
  }

  lemma {:induction false} RunKeeps(s: State, schedule: seq<Action>)
    requires Inv(s)
    ensures Inv(Run(s, schedule))
    decreases |schedule|
  {
    if schedule != [] {
      StepKeeps(s, schedule[0]);
      RunKeeps(Step(s, schedule[0]), schedule[1..]);
    }
  }

  // -------------------------------------------------------------- theorems

  // Under any loss, reordering and duplication, the packets delivered in an
  // epoch are an in-order, duplicate-free pick of the packets sent in it, in
  // both directions.
  lemma DeliveredInOrder(token: nat, schedule: seq<Action>, epoch: nat)
    returns (captured: seq<nat>, played: seq<nat>)
    requires InU64(token)
    ensures var s := Run(Start(token), schedule);
      && PicksInOrder(OfEpoch(s.capture.got, epoch), s.capture.sent, captured)
      && PicksInOrder(OfEpoch(s.play.got, epoch), s.play.sent, played)
  {
    RunKeeps(Start(token), schedule);
    var s := Run(Start(token), schedule);
    captured := OrderedPicks(s.capture.got, s.capture.sent, epoch);
    played := OrderedPicks(s.play.got, s.play.sent, epoch);
  }

  // Sample by sample, in both directions: strictly increasing numbers, and only
  // samples that epoch sent under those numbers.
  lemma SamplesArriveInOrder(token: nat, schedule: seq<Action>, epoch: nat)
    requires InU64(token)
    ensures var s := Run(Start(token), schedule);
      SamplesOk(s.capture, epoch) && SamplesOk(s.play, epoch)
  {
    RunKeeps(Start(token), schedule);
    var s := Run(Start(token), schedule);
    SamplesInOrder(s.capture, epoch);
    SamplesInOrder(s.play, epoch);
  }

  ghost predicate SamplesOk(l: Link, epoch: nat) {
    && PacketsOk(OfEpoch(l.got, epoch)) && PacketsOk(OfEpoch(l.sent, epoch))
    && StrictlyRising(Numbered(OfEpoch(l.got, epoch)))
    && (forall x :: x in Numbered(OfEpoch(l.got, epoch)) ==> x in Numbered(OfEpoch(l.sent, epoch)))
  }

  // The filter costs nothing on a network that keeps up: the packet last sent in
  // the epoch that is on is delivered if it arrives.
  lemma PromptCaptureIsHeard(token: nat, schedule: seq<Action>)
    requires InU64(token)
    ensures var s := Run(Start(token), schedule);
      s.up && s.mode.capture && s.capture.sent != [] ==>
        var p := s.capture.sent[|s.capture.sent| - 1];
        p.epoch == s.mode.captureEpoch && p !in s.capture.got ==>
          var d := Pack(s.capture.token, p.epoch, p.position, p.pcm);
          d.Some? && Step(s, CaptureDatagram(d.value)).capture.got == s.capture.got + [p]
  {
    RunKeeps(Start(token), schedule);
    var s := Run(Start(token), schedule);
    if s.capture.sent != [] {
      var i := |s.capture.sent| - 1;
      var p := s.capture.sent[i];
      if p !in s.capture.got {
        forall k | 0 <= k < |s.capture.got| ensures exists j :: 0 <= j <= i && s.capture.sent[j] == s.capture.got[k] {
          assert s.capture.got[k] in s.capture.sent;
        }
        PromptPacketPasses(s.capture, i);
      }
    }
  }

  // What an action adds to the captured packets: nothing, or one packet of the
  // epoch that is on right now, and only while the microphone is on.
  lemma CaptureStep(s: State, a: Action)
    requires Inv(s)
    ensures var s' := Step(s, a);
      && s.capture.got <= s'.capture.got
      && s.mode.captureEpoch <= s'.mode.captureEpoch
      && (s'.capture.got != s.capture.got ==> s.up && s.mode.capture)
      && (forall i :: |s.capture.got| <= i < |s'.capture.got| ==> s'.capture.got[i].epoch == s.mode.captureEpoch)
  {
    if s.up && a.CaptureDatagram? && MayArrive(s.capture, a.data) {
      DeliverKeeps(s.capture, a.data, s.mode.captureEpoch);
    }
  }

  lemma {:induction false} OfEpochGrows(a: seq<Packet>, b: seq<Packet>, epoch: nat)
    requires a <= b && forall i :: |a| <= i < |b| ==> b[i].epoch != epoch
    ensures OfEpoch(b, epoch) == OfEpoch(a, epoch)
    decreases |b|
  {
    if |b| > |a| {
      var k := |b| - 1;
      assert a <= b[..k];
      OfEpochGrows(a, b[..k], epoch);
    } else {
      assert a == b;
    }
  }

  // Once a microphone-on period is over, nothing recorded in it is ever
  // delivered again, whatever datagrams are still under way.
  lemma {:induction false} PastPeriodsStayPast(s: State, schedule: seq<Action>, epoch: nat)
    requires Inv(s) && epoch < s.mode.captureEpoch
    ensures OfEpoch(Run(s, schedule).capture.got, epoch) == OfEpoch(s.capture.got, epoch)
    decreases |schedule|
  {
    if schedule != [] {
      var s1 := Step(s, schedule[0]);
      CaptureStep(s, schedule[0]);
      StepKeeps(s, schedule[0]);
      OfEpochGrows(s.capture.got, s1.capture.got, epoch);
      PastPeriodsStayPast(s1, schedule[1..], epoch);
    }
  }

  // Playback likewise: what is delivered is of the epoch the bridge last heard of,
  // and once it has heard of a later one nothing of an earlier one follows.
  lemma PlayStep(s: State, a: Action)
    requires Inv(s)
    ensures var s' := Step(s, a);
      && s.play.got <= s'.play.got
      && s.latest.playbackEpoch <= s'.latest.playbackEpoch
      && (forall i :: |s.play.got| <= i < |s'.play.got| ==> s'.play.got[i].epoch == s.latest.playbackEpoch)
  {
    if s.up && a.PlayDatagram? && MayArrive(s.play, a.data) {
      DeliverKeeps(s.play, a.data, s.latest.playbackEpoch);
    }
  }

  lemma {:induction false} PastPlaybackStaysPast(s: State, schedule: seq<Action>, epoch: nat)
    requires Inv(s) && epoch < s.latest.playbackEpoch
    ensures OfEpoch(Run(s, schedule).play.got, epoch) == OfEpoch(s.play.got, epoch)
    decreases |schedule|
  {
    if schedule != [] {
      var s1 := Step(s, schedule[0]);
      PlayStep(s, schedule[0]);
      StepKeeps(s, schedule[0]);
      OfEpochGrows(s.play.got, s1.play.got, epoch);
      PastPlaybackStaysPast(s1, schedule[1..], epoch);
    }
  }

  predicate On(s: State, capture: bool) { if capture then s.mode.capture else s.mode.playback }

  function Epoch(s: State, capture: bool): nat { if capture then s.mode.captureEpoch else s.mode.playbackEpoch }

  // Switching a direction on is the one thing that moves its epoch.
  lemma EpochStep(s: State, a: Action, capture: bool)
    ensures var s' := Step(s, a);
      Epoch(s', capture) == Epoch(s, capture) + if On(s', capture) && !On(s, capture) then 1 else 0
  {
  }

  lemma {:induction false} EpochRises(s: State, schedule: seq<Action>, capture: bool)
    ensures var s' := Run(s, schedule);
      Epoch(s', capture) >= Epoch(s, capture) + if On(s', capture) && !On(s, capture) then 1 else 0
    decreases |schedule|
  {
    if schedule != [] {
      EpochStep(s, schedule[0], capture);
      EpochRises(Step(s, schedule[0]), schedule[1..], capture);
    }
  }

  // In every state the schedule passes through.
  ghost predicate OnThroughout(s: State, schedule: seq<Action>, capture: bool) {
    forall k :: 0 <= k <= |schedule| ==> On(Run(s, schedule[..k]), capture)
  }

  lemma OnThroughoutStep(s: State, schedule: seq<Action>, capture: bool)
    requires schedule != []
    ensures OnThroughout(s, schedule, capture)
      <==> On(s, capture) && OnThroughout(Step(s, schedule[0]), schedule[1..], capture)
  {
    var s1, rest := Step(s, schedule[0]), schedule[1..];
    assert Run(s, schedule[..0]) == s;
    forall k | 0 <= k <= |rest| ensures Run(s1, rest[..k]) == Run(s, schedule[..k + 1]) {
      assert schedule[..k + 1][1..] == rest[..k];
    }
    if OnThroughout(s, schedule, capture) {
      forall k | 0 <= k <= |rest| ensures On(Run(s1, rest[..k]), capture) {
        assert On(Run(s, schedule[..k + 1]), capture);
      }
    }
    if On(s, capture) && OnThroughout(s1, rest, capture) {
      forall k | 0 <= k <= |schedule| ensures On(Run(s, schedule[..k]), capture) {
        if k > 0 { assert On(Run(s1, rest[..k - 1]), capture); }
      }
    }
  }

  // An epoch names one period: between two moments at which the microphone, or the
  // speaker, is on, the epoch is the same if and only if it was never off.
  lemma {:induction false} EpochNamesPeriod(s: State, schedule: seq<Action>, capture: bool)
    requires On(s, capture) && On(Run(s, schedule), capture)
    ensures Epoch(Run(s, schedule), capture) == Epoch(s, capture) <==> OnThroughout(s, schedule, capture)
    decreases |schedule|
  {
    if schedule == [] {
      assert forall k :: 0 <= k <= |schedule| ==> schedule[..k] == [];
    } else {
      var s1 := Step(s, schedule[0]);
      EpochStep(s, schedule[0], capture);
      OnThroughoutStep(s, schedule, capture);
      if On(s1, capture) {
        EpochNamesPeriod(s1, schedule[1..], capture);
      } else {
        EpochRises(s1, schedule[1..], capture);
        assert !On(Run(s1, schedule[1..][..0]), capture);
      }
    }
  }

  // ----------------------------------------------------------------- object

  // The server loop's own variables, updated event by event. The rest of the
  // state belongs to the peer and the network.
  class ServerRoute {
    const token: nat
    var mode: Mode
    var clients: set<(nat, bool)>
    var playPosition: nat
    var filter: Filter
    var queue: seq<Mode>
    var sent: seq<Packet>
    var captured: seq<Packet>
    var up: bool

    function View(peer: State): State
      reads this
    {
      peer.(mode := mode, clients := clients, playPosition := playPosition, queue := queue, up := up,
            capture := Link(token, peer.capture.sent, captured, filter),
            play := Link(token, sent, peer.play.got, peer.play.filter))
    }

    constructor (token: nat)
      ensures this.token == token && View(Start(token)) == Start(token)
    {
      this.token := token;
      mode, clients, playPosition, filter := Mode(false, false, 0, 0), {}, 0, Filter(0, None);
      queue, sent, captured, up := [], [], [], true;
    }

    method OnRunning(id: nat, capture: bool, on: bool)
      requires up
      modifies this
      ensures forall peer :: View(peer) == RunningStep(old(View(peer)), id, capture, on)
    {
      var members := if on then clients + {(id, capture)} else clients - {(id, capture)};
      var next := mode.(capture := Any(members, true), playback := Any(members, false));
      var startCapture, startPlayback := next.capture && !mode.capture, next.playback && !mode.playback;
      if (startCapture && !InU64(mode.captureEpoch + 1)) || (startPlayback && !InU64(mode.playbackEpoch + 1)) {
        up := false;
        return;
      }
      if startCapture { next := next.(captureEpoch := mode.captureEpoch + 1); }
      if startPlayback {
        next := next.(playbackEpoch := mode.playbackEpoch + 1);
        playPosition := 0;
      }
      clients := members;
      if next != mode { queue := queue + [next]; }
      mode := next;
    }

    method OnPlayback(pcm: seq<byte>)
      requires up
      modifies this
      ensures forall peer :: View(peer) == PlaybackStep(old(View(peer)), pcm)
    {
      var packet := Pack(token, mode.playbackEpoch, playPosition, pcm);
      if packet.Some? {
        if !InU64(playPosition + |pcm| / 2) { up := false; return; }
        sent := sent + [Packet(mode.playbackEpoch, playPosition, pcm)];
        playPosition := playPosition + |pcm| / 2;
      }
    }

    method OnDatagram(data: seq<byte>)
      requires up
      modifies this
      ensures forall peer :: MayArrive(old(View(peer)).capture, data) ==>
        View(peer) == Step(old(View(peer)), CaptureDatagram(data))
    {
      var packet := Unpack(data, token);
      if packet.Some? && mode.capture && packet.value.epoch == mode.captureEpoch {
        var p := packet.value;
        var (q, ok) := Accept(filter, p.epoch, p.position, |p.pcm| / 2);
        filter := q;
        if ok { captured := captured + [p]; }
      }
    }

    method OnHeartbeat()
      requires up
      modifies this`queue
      ensures forall peer :: View(peer) == Step(old(View(peer)), Heartbeat)
    {
      queue := queue + [mode];
    }

    // Any interleaving of the loop's events with the peer and the network is a run
    // of the machine.
    method Drive(peer: State, schedule: seq<Action>) returns (after: State)
      modifies this
      ensures View(after) == Run(old(View(peer)), schedule)
    {
      after := peer;
      for i := 0 to |schedule|
        invariant Run(View(after), schedule[i..]) == Run(old(View(peer)), schedule)
      {
        ghost var s := View(after);
        assert schedule[i..][0] == schedule[i] && schedule[i..][1..] == schedule[i + 1..];
        if up { after := Perform(after, schedule[i]); }
        assert View(after) == Step(s, schedule[i]);
      }
    }

    method Perform(peer: State, a: Action) returns (after: State)
      requires up
      modifies this
      ensures View(after) == Step(old(View(peer)), a)
    {
      after := peer;
      match a
      case Running(id, capture, on) => OnRunning(id, capture, on);
      case Playback(pcm) => OnPlayback(pcm);
      case CaptureDatagram(data) => if MayArrive(View(peer).capture, data) { OnDatagram(data); }
      case Heartbeat => OnHeartbeat();
      case _ =>
        PeerStep(View(peer), a);
        after := Step(View(peer), a);
        queue, up := after.queue, after.up;
    }
  }

  // What the peer and the network do leaves the loop's other variables alone.
  lemma PeerStep(s: State, a: Action)
    requires a.DeliverMode? || a.CaptureFrame? || a.PlayDatagram?
    ensures var s' := Step(s, a);
      && s'.mode == s.mode && s'.clients == s.clients && s'.playPosition == s.playPosition
      && s'.capture.token == s.capture.token && s'.capture.got == s.capture.got
      && s'.capture.filter == s.capture.filter && s'.play.token == s.play.token && s'.play.sent == s.play.sent
  {
  }
}
