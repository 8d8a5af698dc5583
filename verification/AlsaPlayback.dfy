/**
 The playback direction of alsa/pcm_mux.c. The application writes at its own
 pointer, may rewind and overwrite what has not been played, may skip forward,
 and sees positions modulo a boundary; the plugin keeps 8192 samples in a ring
 and packetises frames as the clock passes them. The ring refines the unbounded
 sequence of frames: every frame that the clock passed has been packetised once,
 in order, with the value last written for it.
 */
module AlsaPlayback {
  import opened Wrappers
  import opened Terminal
  import opened AlsaClock
  import opened AlsaSamples

  const STOP: byte := 0
  const START: byte := 1
  const DATA: byte := 2

  // ------------------------------------------------ the unbounded sequence

  datatype Write = Write(at: nat, value: int16)

  function LastWritten(writes: seq<Write>, i: nat): Option<int16> {
    if writes == [] then None
    else
      var w := writes[|writes| - 1];
      if w.at == i then Some(w.value) else LastWritten(writes[..|writes| - 1], i)
  }

  // What frame `i` holds: the value last written for it, or, where the
  // application skipped it, whatever the frame one ring earlier held; a prepared
  // device starts silent.
  function Frame(writes: seq<Write>, i: nat): int16 {
    match LastWritten(writes, i)
    case Some(v) => v
    case None => if i < RING then 0 else Frame(writes, i - RING)
  }

  function Stretch(writes: seq<Write>, start: nat, n: nat): (s: seq<int16>)
    ensures |s| == n
  {
    seq(n, i requires 0 <= i < n => Frame(writes, start + i))
  }

  function FramesUpTo(writes: seq<Write>, n: nat): (s: seq<int16>)
    ensures |s| == n
  {
    Stretch(writes, 0, n)
  }

  lemma StretchAppend(writes: seq<Write>, n: nat, count: nat)
    ensures FramesUpTo(writes, n) + Stretch(writes, n, count) == FramesUpTo(writes, n + count)
  {
  }

  predicate Below(writes: seq<Write>, limit: nat) {
    forall k :: 0 <= k < |writes| ==> writes[k].at < limit
  }

  lemma {:induction false} UnwrittenAbove(writes: seq<Write>, limit: nat, i: nat)
    requires Below(writes, limit) && limit <= i
    ensures LastWritten(writes, i) == None
  {
    if writes != [] {
      UnwrittenAbove(writes[..|writes| - 1], limit, i);
    }
  }

  lemma LastWrittenAppend(writes: seq<Write>, w: Write, i: nat)
    ensures LastWritten(writes + [w], i) == if w.at == i then Some(w.value) else LastWritten(writes, i)
  {
    assert (writes + [w])[..|writes|] == writes;
  }

  // A write changes no frame before it, and none other within one ring after it.
  lemma {:induction false} WriteIsLocal(writes: seq<Write>, w: Write, i: nat)
    requires i != w.at && i < w.at + RING
    ensures Frame(writes + [w], i) == Frame(writes, i)
    decreases i
  {
    LastWrittenAppend(writes, w, i);
    if LastWritten(writes, i) == None && i >= RING {
      WriteIsLocal(writes, w, i - RING);
    }
  }

  // The writes of one transfer.
  function Stored(at: nat, samples: seq<int16>): seq<Write> {
    seq(|samples|, i requires 0 <= i < |samples| => Write(at + i, samples[i]))
  }

  // ------------------------------------------------------------- the ring

  // The ring holds exactly the frames of the next `RING` positions.
  predicate Window(ring: seq<int16>, writes: seq<Write>, sent: nat) {
    |ring| == RING && forall i :: sent <= i < sent + RING ==> ring[i % RING] == Frame(writes, i)
  }

  lemma SilentWindow(ring: seq<int16>)
    requires |ring| == RING && forall i :: 0 <= i < RING ==> ring[i] == 0
    ensures Window(ring, [], 0)
  {
  }

  lemma WindowSlides(ring: seq<int16>, writes: seq<Write>, sent: nat, count: nat)
    requires Window(ring, writes, sent) && Below(writes, sent + RING) && count <= RING
    ensures Window(ring, writes, sent + count) && Below(writes, sent + count + RING)
  {
    forall i | sent + count <= i < sent + count + RING ensures ring[i % RING] == Frame(writes, i) {
      if i >= sent + RING {
        UnwrittenAbove(writes, sent + RING, i);
        assert (i - RING) % RING == i % RING;
        assert ring[(i - RING) % RING] == Frame(writes, i - RING);
      }
    }
  }

  lemma WindowStores(ring: seq<int16>, writes: seq<Write>, sent: nat, w: Write)
    requires Window(ring, writes, sent) && Below(writes, sent + RING) && sent <= w.at < sent + RING
    ensures Window(ring[w.at % RING := w.value], writes + [w], sent) && Below(writes + [w], sent + RING)
  {
    var after := ring[w.at % RING := w.value];
    forall i | sent <= i < sent + RING ensures after[i % RING] == Frame(writes + [w], i) {
      LastWrittenAppend(writes, w, i);
      if i != w.at {
        WriteIsLocal(writes, w, i);
        assert i % RING != w.at % RING;
      }
    }
  }

  lemma SentFramesStay(writes: seq<Write>, w: Write, sent: nat)
    requires sent <= w.at
    ensures FramesUpTo(writes + [w], sent) == FramesUpTo(writes, sent)
  {
    forall i: nat | i < sent ensures Frame(writes + [w], i) == Frame(writes, i) {
      WriteIsLocal(writes, w, i);
    }
  }

  // ------------------------------------------------------------- the wire

  predicate IsData(packet: seq<byte>) { packet != [] && packet[0] == DATA }

  // What the receiver can accept: a one-byte command, or one to 480 samples.
  predicate PacketOk(packet: seq<byte>) {
    packet == [STOP] || packet == [START] || (IsData(packet) && 3 <= |packet| <= 1 + 2 * PACKET && |packet| % 2 == 1)
  }

  function Heard(wire: seq<seq<byte>>): seq<int16> {
    if wire == [] then []
    else
      var last := wire[|wire| - 1];
      Heard(wire[..|wire| - 1]) + if IsData(last) then Decode(last[1..]) else []
  }

  lemma HeardAppend(wire: seq<seq<byte>>, packet: seq<byte>)
    ensures Heard(wire + [packet]) == Heard(wire) + if IsData(packet) then Decode(packet[1..]) else []
  {
    assert (wire + [packet])[..|wire|] == wire;
  }

  // The ring, the writes and the packets agree that frames below `sent` are done.
  predicate Refines(ring: seq<int16>, writes: seq<Write>, wire: seq<seq<byte>>, sent: nat) {
    && Below(writes, sent + RING)
    && Window(ring, writes, sent)
    && Heard(wire) == FramesUpTo(writes, sent)
    && (forall k :: 0 <= k < |wire| ==> PacketOk(wire[k]))
  }

  lemma PreparedRefines(ring: seq<int16>)
    requires Window(ring, [], 0)
    ensures Refines(ring, [], [], 0)
  {
  }

  lemma StoreRefines(ring: seq<int16>, writes: seq<Write>, wire: seq<seq<byte>>, sent: nat, w: Write)
    requires Refines(ring, writes, wire, sent) && sent <= w.at < sent + RING
    ensures Refines(ring[w.at % RING := w.value], writes + [w], wire, sent)
  {
    WindowStores(ring, writes, sent, w);
    SentFramesStay(writes, w, sent);
  }

  lemma CommandRefines(ring: seq<int16>, writes: seq<Write>, wire: seq<seq<byte>>, sent: nat, op: byte)
    requires Refines(ring, writes, wire, sent) && op in {STOP, START}
    ensures Refines(ring, writes, wire + [[op]], sent)
  {
    HeardAppend(wire, [op]);
  }

  lemma SendRefines(ring: seq<int16>, writes: seq<Write>, wire: seq<seq<byte>>, sent: nat, packet: seq<byte>, count: nat)
    requires Refines(ring, writes, wire, sent) && count <= PACKET
    requires PacketOk(packet) && IsData(packet) && Decode(packet[1..]) == Stretch(writes, sent, count)
    ensures Refines(ring, writes, wire + [packet], sent + count)
  {
    HeardAppend(wire, packet);
    WindowSlides(ring, writes, sent, count);
    StretchAppend(writes, sent, count);
  }

  // ----------------------------------------------------------- the plugin

  function ClockAt(running: bool, startNs: nat, base: nat, now: nat): nat {
    if running && startNs <= now then base + Frames(now - startNs) else base
  }

  lemma ClockMonotone(running: bool, startNs: nat, base: nat, before: nat, after: nat)
    requires before <= after
    ensures base <= ClockAt(running, startNs, base, before) <= ClockAt(running, startNs, base, after)
  {
    if running && startNs <= before { FramesMonotone(before - startNs, after - startNs); }
  }

  lemma ClockStarts(now: nat, base: nat)
    ensures ClockAt(true, now, base, now) == base
  {
    assert Frames(0) == 0;
  }

  // The last is whatever arming the period timer failed with.
  datatype Errno = ENODEV | EPIPE | EINVAL | TimerError

  datatype Outcome = Sent | Again | Broken

  class PlaybackPcm {
    var running: bool
    var dead: bool
    var startNs: nat
    var base: nat
    var sent: nat
    var boundary: nat
    var appCycles: nat
    var lastApp: nat
    const playback: array<int16>

    // Packets handed to the socket since the last prepare, every write of the
    // application since then, the pointer last returned to it, the latest time
    // seen, and whether the device is prepared or running (not stopped).
    ghost var wire: seq<seq<byte>>
    ghost var writes: seq<Write>
    ghost var hw: nat
    ghost var clock: nat
    ghost var live: bool

    ghost function Counter(): Unwrap
      reads this
    {
      Unwrap(boundary, appCycles, lastApp)
    }

    ghost predicate Valid()
      reads this, playback
    {
      UnwrapOk(Counter()) && Timed() && Holds()
    }

    // The clock and the frames sent keep pace.
    ghost predicate Timed()
      reads this
    {
      && (running ==> live && startNs <= clock)
      && (live ==> hw == sent && sent <= At(clock))
      && (live && !running ==> base == sent)
    }

    // The ring holds the frames to come, the packets the frames that went.
    ghost predicate Holds()
      reads this, playback
    {
      playback.Length == RING && Refines(playback[..], writes, wire, sent)
    }

    // The clock's position, never before the frames already sent.
    ghost function At(now: nat): nat
      reads this
    {
      ClockAt(running, startNs, base, now)
    }

    // ALSA's rules for the application pointer: it moved less than half a boundary
    // since the plugin looked, and stays within one buffer of the last pointer.
    ghost predicate Obeys(appl: nat, frames: nat)
      reads this
    {
      && 2 * (appl - Counter().Total()) < boundary && 2 * (Counter().Total() - appl) < boundary
      && (live ==> hw <= appl && appl + frames <= hw + RING)
    }

    constructor (boundary: nat)
      requires boundary > 0
      ensures Valid() && live && !running && !dead && writes == [] && wire == []
      ensures fresh(playback) && this.boundary == boundary
    {
      running, dead, startNs, base, sent := false, false, 0, 0, 0;
      this.boundary, appCycles, lastApp := boundary, 0, 0;
      playback := new int16[RING](i => 0);
      wire, writes, hw, clock, live := [], [], 0, 0, true;
      new;
      SilentWindow(playback[..]);
      PreparedRefines(playback[..]);
    }

    method Position(now: nat) returns (pos: nat)
      requires Valid() && clock <= now
      ensures pos == At(now)
      ensures live ==> sent <= pos
    {
      var elapsed := if running then now - startNs else 0;
      pos := base + (elapsed / NANOS * RATE + elapsed % NANOS * RATE / NANOS);
      ClockMonotone(running, startNs, base, clock, now);
    }

    method Application(value: nat, ghost appl: nat) returns (r: nat)
      requires Valid() && Obeys(appl, 0) && value == appl % boundary
      modifies this`appCycles, this`lastApp
      ensures Valid() && r == appl && Counter().Total() == appl
    {
      ObserveRecovers(Counter(), appl);
      if value < lastApp && lastApp - value > boundary / 2 {
        appCycles := appCycles + boundary;
      } else if value > lastApp && value - lastApp > boundary / 2 && appCycles >= boundary {
        appCycles := appCycles - boundary;
      }
      lastApp := value;
      r := appCycles + value;
    }

    // The socket takes the packet, is full, or is broken; which is not ours to say.
    method Send(packet: seq<byte>) returns (outcome: Outcome)
      modifies this`wire
      ensures wire == old(wire) + [packet]
    {
      wire := wire + [packet];
      outcome := *;
    }

    method Command(op: byte) returns (r: Result<(), Errno>)
      requires Holds() && op in {STOP, START}
      modifies this`wire, this`dead
      ensures Holds() && wire == old(wire) + [[op]]
      ensures r.Ok? ==> dead == old(dead)
      ensures r.Err? ==> dead && r == Err(ENODEV)
    {
      CommandRefines(playback[..], writes, wire, sent, op);
      var outcome := Send([op]);
      if outcome != Sent {
        dead := true;
        return Err(ENODEV);
      }
      return Ok(());
    }

    method Start(now: nat) returns (r: Result<(), Errno>)
      requires Valid() && live && !running && clock <= now
      modifies this
      ensures Valid() && live && running == r.Ok?
      ensures writes == old(writes) && sent == old(sent) && base == old(base)
      ensures clock == now && At(now) == base
    {
      ClockStarts(now, base);
      assert UnwrapOk(Counter());
      r := Command(START);
      clock := now;
      assert Timed();
      if r.Err? { return; }
      startNs := now;
      running := true;
      assert Timed();
    }

    method Stop(now: nat) returns (r: Result<(), Errno>)
      requires Valid() && clock <= now
      modifies this
      ensures Valid() && !running && !live
      ensures base == old(At(now)) && clock == now
      ensures writes == old(writes) && sent == old(sent)
    {
      var pos := Position(now);
      base, clock := pos, now;
      running, live := false, false;
      r := Command(STOP);
    }

    // A timer that cannot be armed is reported after the device was reset.
    method Prepare(now: nat, timerOk: bool) returns (r: Result<(), Errno>)
      requires Valid() && clock <= now
      modifies this, playback
      ensures Valid() && boundary == old(boundary)
      ensures old(dead) ==> r == Err(ENODEV)
      ensures r == Err(ENODEV) ==> dead && sent == old(sent) && writes == old(writes)
      ensures r != Err(ENODEV) ==>
        && r == (if timerOk then Ok(()) else Err(TimerError))
        && live && !running && !dead && sent == 0 && writes == [] && wire == [] && Counter().Total() == 0
    {
      if dead { return Err(ENODEV); }
      r := Command(STOP);
      if r.Err? { return; }
      Reset(now);
      return if timerOk then Ok(()) else Err(TimerError);
    }

    method Reset(ghost now: nat)
      requires playback.Length == RING && boundary > 0
      modifies this, playback
      ensures Valid() && live && !running && dead == old(dead) && sent == 0 && boundary == old(boundary)
      ensures writes == [] && wire == [] && Counter().Total() == 0
    {
      Silence();
      running := false;
      base, sent, appCycles, lastApp := 0, 0, 0, 0;
      wire, writes, hw, clock, live := [], [], 0, now, true;
      PreparedRefines(playback[..]);
      StartsUnwrapped(boundary);
    }

    method Silence()
      requires playback.Length == RING
      modifies playback
      ensures Window(playback[..], [], 0)
    {
      for i := 0 to RING
        modifies playback
        invariant forall k :: 0 <= k < i ==> playback[k] == 0
      {
        playback[i] := 0;
      }
      SilentWindow(playback[..]);
    }

    method Transfer(value: nat, ghost appl: nat, layoutOk: bool, data: seq<byte>) returns (r: Result<nat, Errno>)
      requires Valid() && live
      requires Obeys(appl, |data| / 2) && value == appl % boundary
      modifies this`appCycles, this`lastApp, this`writes, playback
      ensures Valid()
      ensures r == if dead then Err(ENODEV) else if !layoutOk then Err(EINVAL) else Ok(|data| / 2)
      ensures writes == if r.Ok? then old(writes) + Stored(appl, Decode(data)) else old(writes)
      ensures r.Ok? ==> Counter().Total() == appl
    {
      if dead { return Err(ENODEV); }
      if !layoutOk { return Err(EINVAL); }
      var app := Application(value, appl);
      var frames := |data| / 2;
      assert writes + Stored(appl, Decode(data)[..0]) == writes;
      for i := 0 to frames
        modifies this`writes, playback
        invariant Valid()
        invariant writes == old(writes) + Stored(appl, Decode(data)[..i])
      {
        ghost var w := Write(app + i, Join(data[2 * i], data[2 * i + 1]));
        assert Stored(appl, Decode(data)[..i + 1]) == Stored(appl, Decode(data)[..i]) + [w];
        Store(app + i, Join(data[2 * i], data[2 * i + 1]));
      }
      assert Decode(data)[..frames] == Decode(data);
      return Ok(frames);
    }

    method Store(at: nat, sample: int16)
      requires Holds() && sent <= at < sent + RING
      modifies this`writes, playback
      ensures Holds() && writes == old(writes) + [Write(at, sample)]
    {
      StoreRefines(playback[..], writes, wire, sent, Write(at, sample));
      playback[at % RING] := sample;
      writes := writes + [Write(at, sample)];
    }

    // One data packet: the next `count` frames, read out of the ring.
    method Packetise(count: nat) returns (packet: seq<byte>)
      requires Holds() && 0 < count <= PACKET
      ensures PacketOk(packet) && IsData(packet)
      ensures Decode(packet[1..]) == Stretch(writes, sent, count)
    {
      ghost var want := Stretch(writes, sent, count);
      packet := [DATA];
      for i := 0 to count
        invariant |packet| == 1 + 2 * i && packet[0] == DATA
        invariant Decode(packet[1..]) == want[..i]
      {
        var sample := playback[(sent + i) % RING];
        DecodeExtend(packet[1..], sample);
        assert (packet + [Low(sample), High(sample)])[1..] == packet[1..] + [Low(sample), High(sample)];
        assert playback[..][(sent + i) % RING] == want[i];
        packet := packet + [Low(sample), High(sample)];
      }
      assert want[..count] == want;
    }

    method Pointer(now: nat, value: nat, ghost appl: nat, draining: bool) returns (r: Result<nat, Errno>)
      requires Valid() && clock <= now
      requires Obeys(appl, 0) && value == appl % boundary
      modifies this
      ensures Valid() && writes == old(writes) && Counter().Total() == appl && boundary == old(boundary)
      ensures running == old(running) && live == old(live) && clock == now
      ensures var pos := if draining && old(At(now)) > appl then appl else old(At(now));
        if running && pos > appl then
          r == Err(EPIPE) && sent == old(sent) && wire == old(wire)
        else
          && r == Ok(pos % boundary)
          && (running ==> sent == pos && Heard(wire) == FramesUpTo(writes, pos) && old(wire) <= wire)
          && (!running ==> sent == old(sent) && wire == old(wire))
    {
      var pos := Position(now);
      var app := Application(value, appl);
      clock := now;
      if draining && pos > app { pos := app; }
      if running && pos > app { return Err(EPIPE); }
      assert live ==> sent <= pos <= At(now) && (!running ==> pos == sent);
      if running { SendUpTo(pos); }
      hw := pos;
      return Ok(pos % boundary);
    }

    method SendUpTo(pos: nat)
      requires Holds() && sent <= pos
      modifies this`wire, this`sent, this`dead
      ensures Holds() && sent == pos && old(wire) <= wire && Heard(wire) == FramesUpTo(writes, pos)
    {
      while sent < pos
        invariant Holds() && sent <= pos && old(wire) <= wire
        decreases pos - sent
      {
        var count := if pos - sent > PACKET then PACKET else pos - sent;
        var packet := Packetise(count);
        SendRefines(playback[..], writes, wire, sent, packet, count);
        var outcome := Send(packet);
        if outcome == Broken { dead := true; }
        sent := sent + count;
      }
    }
  }
}
