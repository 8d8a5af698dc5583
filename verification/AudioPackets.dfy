/**
 The audio datagrams of crates/mux-proto/src/audio.rs: the packet layout bound
 to one open by its token, and the sequence filter that drops duplicate and
 late media.
 */
module AudioPackets {
  import opened Wrappers
  import opened Terminal
  import opened LittleEndian

  const MAX_PCM: nat := 960
  const HEADER: nat := 24
  const MAX_PACKET: nat := HEADER + MAX_PCM

  datatype Packet = Packet(epoch: nat, position: nat, pcm: seq<byte>) {
    function Samples(): nat { |pcm| / 2 }
    function End(): nat { position + Samples() }
  }

  predicate PcmOk(pcm: seq<byte>) { pcm != [] && |pcm| <= MAX_PCM && |pcm| % 2 == 0 }

  predicate InU64(n: nat) { n < U64_LIMIT }

  function Pack(token: nat, epoch: nat, position: nat, pcm: seq<byte>): Option<seq<byte>> {
    if !PcmOk(pcm) then None
    else Some(ToLe(token, 8) + ToLe(epoch, 8) + ToLe(position, 8) + pcm)
  }

  function Unpack(data: seq<byte>, token: nat): Option<Packet> {
    if !(HEADER + 2 <= |data| <= MAX_PACKET) || |data| % 2 != 0 then None
    else if FromLe(data[..8]) != token then None
    else Some(Packet(FromLe(data[8..16]), FromLe(data[16..HEADER]), data[HEADER..]))
  }

  // A packet unpacks to itself under the token it was made for, and to nothing
  // under any other.
  lemma UnpackPack(token: nat, other: nat, epoch: nat, position: nat, pcm: seq<byte>)
    requires InU64(token) && InU64(epoch) && InU64(position) && PcmOk(pcm)
    ensures var data := Pack(token, epoch, position, pcm);
      && data.Some? && |data.value| <= MAX_PACKET
      && Unpack(data.value, other) == if other == token then Some(Packet(epoch, position, pcm)) else None
  {
    PowerValues();
    var data := Pack(token, epoch, position, pcm).value;
    assert data[..8] == ToLe(token, 8);
    assert data[8..16] == ToLe(epoch, 8);
    assert data[16..HEADER] == ToLe(position, 8);
    assert data[HEADER..] == pcm;
    FromTo(token, 8);
    FromTo(epoch, 8);
    FromTo(position, 8);
  }

  // Whatever unpacks is the packet of its own parts: no two packets share bytes.
  lemma PackUnpack(data: seq<byte>, token: nat)
    requires InU64(token)
    ensures var p := Unpack(data, token);
      p.Some? ==>
        && PcmOk(p.value.pcm) && InU64(p.value.epoch) && InU64(p.value.position)
        && Pack(token, p.value.epoch, p.value.position, p.value.pcm) == Some(data)
  {
    if Unpack(data, token).Some? {
      PowerValues();
      ToFrom(data[..8]);
      ToFrom(data[8..16]);
      ToFrom(data[16..HEADER]);
      assert data == data[..8] + data[8..16] + data[16..HEADER] + data[HEADER..];
    }
  }

  // ------------------------------------------------------ sequence numbers

  datatype Filter = Filter(epoch: nat, end: Option<nat>)

  function Accept(q: Filter, epoch: nat, position: nat, samples: nat): (Filter, bool) {
    if !InU64(position + samples) || epoch < q.epoch then (q, false)
    else
      var cur := if epoch > q.epoch then Filter(epoch, None) else q;
      if cur.end.Some? && position < cur.end.value then (cur, false)
      else (cur.(end := Some(position + samples)), true)
  }

  class Sequence {
    var epoch: nat
    var end: Option<nat>

    ghost function View(): Filter
      reads this
    {
      Filter(epoch, end)
    }

    constructor ()
      ensures View() == Filter(0, None)
    {
      epoch, end := 0, None;
    }

    method Admit(epoch: nat, position: nat, samples: nat) returns (ok: bool)
      modifies this
      ensures (View(), ok) == Accept(old(View()), epoch, position, samples)
    {
      if !InU64(position + samples) { return false; }
      if epoch < this.epoch { return false; }
      if epoch > this.epoch {
        this.epoch := epoch;
        end := None;
      }
      if end.Some? && position < end.value { return false; }
      end := Some(position + samples);
      ok := true;
    }
  }

  // ---------------------------------------------------------- one direction

  // Send order: epochs never go back, and within one each packet starts at or
  // after the end of the one before it.
  predicate Before(p: Packet, q: Packet) {
    p.epoch < q.epoch || (p.epoch == q.epoch && p.End() <= q.position)
  }

  predicate Ordered(packets: seq<Packet>) {
    forall i, j :: 0 <= i < j < |packets| ==> Before(packets[i], packets[j])
  }

  predicate PacketsOk(packets: seq<Packet>) {
    forall i :: 0 <= i < |packets| ==>
      PcmOk(packets[i].pcm) && InU64(packets[i].epoch) && InU64(packets[i].position)
  }

  // A one-way stream of packets over datagrams that may be lost, repeated and
  // reordered: everything sent, everything delivered, the receiver's filter.
  datatype Link = Link(token: nat, sent: seq<Packet>, got: seq<Packet>, filter: Filter)

  predicate FilterCovers(got: seq<Packet>, q: Filter) {
    forall i :: 0 <= i < |got| ==>
      || got[i].epoch < q.epoch
      || (got[i].epoch == q.epoch && q.end.Some? && got[i].End() <= q.end.value)
  }

  // The filter was set by packets it let through.
  predicate FilterTight(got: seq<Packet>, q: Filter) {
    && (q.epoch > 0 ==> exists i :: 0 <= i < |got| && got[i].epoch == q.epoch)
    && (q.end.Some? ==> exists i :: 0 <= i < |got| && got[i].epoch == q.epoch && got[i].End() == q.end.value)
  }

  predicate LinkOk(l: Link) {
    && InU64(l.token)
    && PacketsOk(l.sent) && Ordered(l.sent)
    && (forall i :: 0 <= i < |l.got| ==> l.got[i] in l.sent)
    && Ordered(l.got)
    && FilterCovers(l.got, l.filter) && FilterTight(l.got, l.filter)
  }

  // What the network may hand over: a datagram sent on this link, any number of
  // times and in any order, or bytes that are not this open's.
  predicate MayArrive(l: Link, data: seq<byte>) {
    var p := Unpack(data, l.token);
    p.Some? ==> p.value in l.sent
  }

  // Every packet sent may arrive.
  lemma SentMayArrive(l: Link, i: nat)
    requires LinkOk(l) && i < |l.sent|
    ensures var d := Pack(l.token, l.sent[i].epoch, l.sent[i].position, l.sent[i].pcm);
      d.Some? && Unpack(d.value, l.token) == Some(l.sent[i]) && MayArrive(l, d.value)
  {
    var p := l.sent[i];
    UnpackPack(l.token, l.token, p.epoch, p.position, p.pcm);
  }

  function Transmit(l: Link, p: Packet): Link { l.(sent := l.sent + [p]) }

  // A received packet that is of the wanted epoch goes through the filter.
  function Deliver(l: Link, data: seq<byte>, epoch: nat): Link {
    var p := Unpack(data, l.token);
    if p.None? || p.value.epoch != epoch then l else
      var (q, ok) := Accept(l.filter, p.value.epoch, p.value.position, p.value.Samples());
      l.(filter := q, got := if ok then l.got + [p.value] else l.got)
  }

  lemma TransmitKeeps(l: Link, p: Packet)
    requires LinkOk(l) && PcmOk(p.pcm) && InU64(p.epoch) && InU64(p.position)
    requires forall i :: 0 <= i < |l.sent| ==> Before(l.sent[i], p)
    ensures LinkOk(Transmit(l, p))
  {
  }

  lemma DeliverKeeps(l: Link, data: seq<byte>, epoch: nat)
    requires LinkOk(l) && MayArrive(l, data)
    ensures LinkOk(Deliver(l, data, epoch))
    ensures Deliver(l, data, epoch).sent == l.sent
    ensures forall i :: |l.got| <= i < |Deliver(l, data, epoch).got| ==> Deliver(l, data, epoch).got[i].epoch == epoch
    ensures l.got <= Deliver(l, data, epoch).got
  {
    var p := Unpack(data, l.token);
    if p.Some? && p.value.epoch == epoch {
      var l' := Deliver(l, data, epoch);
      if l'.got != l.got {
        forall i | 0 <= i < |l.got| ensures Before(l.got[i], p.value) {}
        assert l'.got[|l.got|] == p.value;
      } else {
        assert l'.filter == l.filter;
      }
    }
  }

  // A packet that arrives before anything sent after it is let through: of what
  // arrives in order the filter drops nothing.
  lemma PromptPacketPasses(l: Link, i: nat)
    requires LinkOk(l) && i < |l.sent| && l.sent[i] !in l.got && InU64(l.sent[i].End())
    requires forall k :: 0 <= k < |l.got| ==> exists j :: 0 <= j <= i && l.sent[j] == l.got[k]
    ensures var p := l.sent[i];
      var d := Pack(l.token, p.epoch, p.position, p.pcm);
      && d.Some? && MayArrive(l, d.value)
      && Deliver(l, d.value, p.epoch).got == l.got + [p]
  {
    SentMayArrive(l, i);
    var p := l.sent[i];
    forall k | 0 <= k < |l.got| ensures Before(l.got[k], p) {
      var j :| 0 <= j <= i && l.sent[j] == l.got[k];
    }
  }

  function OfEpoch(packets: seq<Packet>, epoch: nat): seq<Packet> {
    if packets == [] then [] else
      var k := |packets| - 1;
      OfEpoch(packets[..k], epoch) + (if packets[k].epoch == epoch then [packets[k]] else [])
  }

  predicate Increasing(indices: seq<nat>) {
    forall i, j :: 0 <= i < j < |indices| ==> indices[i] < indices[j]
  }

  // `part` picks some elements of `whole`, each at most once, in order.
  predicate PicksInOrder(part: seq<Packet>, whole: seq<Packet>, indices: seq<nat>) {
    && |indices| == |part| && Increasing(indices)
    && forall i :: 0 <= i < |part| ==> indices[i] < |whole| && whole[indices[i]] == part[i]
  }

  lemma {:induction false} OrderedPicks(got: seq<Packet>, sent: seq<Packet>, epoch: nat) returns (indices: seq<nat>)
    requires PacketsOk(sent) && Ordered(sent) && Ordered(got)
    requires forall i :: 0 <= i < |got| ==> got[i] in sent
    ensures PicksInOrder(OfEpoch(got, epoch), sent, indices)
    ensures forall i :: 0 <= i < |indices| ==> sent[indices[i]] in got
  {
    if got == [] {
      indices := [];
    } else {
      var k := |got| - 1;
      indices := OrderedPicks(got[..k], sent, epoch);
      if got[k].epoch == epoch {
        var n :| 0 <= n < |sent| && sent[n] == got[k];
        forall i | 0 <= i < |indices| ensures indices[i] < n { SentEarlier(got, sent, k, n, indices[i]); }
        indices := indices + [n];
      }
    }
  }

  // What was delivered before a packet was sent before it.
  lemma SentEarlier(got: seq<Packet>, sent: seq<Packet>, k: nat, n: nat, i: nat)
    requires PacketsOk(sent) && Ordered(sent) && Ordered(got)
    requires k < |got| && n < |sent| && sent[n] == got[k] && i < |sent| && sent[i] in got[..k]
    ensures i < n
  {
    var m :| 0 <= m < k && got[..k][m] == sent[i];
    assert Before(got[m], got[k]);
  }

  // One packet's samples, each with its sample number.
  function NumberedPacket(p: Packet): seq<(nat, byte, byte)>
    requires PcmOk(p.pcm)
  {
    seq(p.Samples(), i requires 0 <= i < p.Samples() => (p.position + i, p.pcm[2 * i], p.pcm[2 * i + 1]))
  }

  function Numbered(packets: seq<Packet>): seq<(nat, byte, byte)>
    requires PacketsOk(packets)
  {
    if packets == [] then [] else
      Numbered(packets[..|packets| - 1]) + NumberedPacket(packets[|packets| - 1])
  }

  predicate Rising(s: seq<(nat, byte, byte)>, bound: nat) {
    && (forall i, j :: 0 <= i < j < |s| ==> s[i].0 < s[j].0)
    && (forall i :: 0 <= i < |s| ==> s[i].0 < bound)
  }

  lemma RisingConcat(a: seq<(nat, byte, byte)>, b: seq<(nat, byte, byte)>, from: nat, bound: nat)
    requires Rising(a, from) && Rising(b, bound) && from <= bound
    requires forall i :: 0 <= i < |b| ==> from <= b[i].0
    ensures Rising(a + b, bound)
  {
    var s := a + b;
    assert forall i :: 0 <= i < |a| ==> s[i] == a[i];
    assert forall i :: |a| <= i < |s| ==> s[i] == b[i - |a|];
  }

  // Within an epoch the samples have strictly increasing numbers: none is
  // repeated and none is out of order.
  lemma {:induction false} NumbersIncrease(packets: seq<Packet>, epoch: nat, bound: nat)
    requires PacketsOk(packets) && Ordered(packets)
    requires forall i :: 0 <= i < |packets| ==> packets[i].epoch == epoch && packets[i].End() <= bound
    ensures Rising(Numbered(packets), bound)
  {
    if packets != [] {
      var k := |packets| - 1;
      var rest, p := packets[..k], packets[k];
      forall i | 0 <= i < k ensures rest[i].End() <= p.position { assert Before(packets[i], packets[k]); }
      NumbersIncrease(rest, epoch, p.position);
      RisingConcat(Numbered(rest), NumberedPacket(p), p.position, bound);
    }
  }

  lemma {:induction false} OfEpochMembers(packets: seq<Packet>, epoch: nat)
    ensures forall p :: p in OfEpoch(packets, epoch) <==> p in packets && p.epoch == epoch
  {
    if packets != [] {
      var k := |packets| - 1;
      OfEpochMembers(packets[..k], epoch);
      assert packets == packets[..k] + [packets[k]];
    }
  }

  lemma {:induction false} OfEpochOrdered(packets: seq<Packet>, epoch: nat)
    requires Ordered(packets)
    ensures Ordered(OfEpoch(packets, epoch))
  {
    if packets != [] {
      var k := |packets| - 1;
      var rest, p := packets[..k], packets[k];
      OfEpochOrdered(rest, epoch);
      OfEpochMembers(rest, epoch);
      forall q | q in OfEpoch(rest, epoch) ensures Before(q, p) {
        var i :| 0 <= i < k && rest[i] == q;
        assert Before(packets[i], packets[k]);
      }
    }
  }

  lemma OfEpochFacts(packets: seq<Packet>, epoch: nat)
    requires PacketsOk(packets) && Ordered(packets)
    ensures forall p :: p in OfEpoch(packets, epoch) <==> p in packets && p.epoch == epoch
    ensures PacketsOk(OfEpoch(packets, epoch)) && Ordered(OfEpoch(packets, epoch))
  {
    OfEpochMembers(packets, epoch);
    OfEpochOrdered(packets, epoch);
    forall i | 0 <= i < |OfEpoch(packets, epoch)|
      ensures var p := OfEpoch(packets, epoch)[i]; PcmOk(p.pcm) && InU64(p.epoch) && InU64(p.position)
    {
      var p := OfEpoch(packets, epoch)[i];
      assert p in packets;
    }
  }

  lemma {:induction false} NumberedFrom(packets: seq<Packet>, x: (nat, byte, byte))
    requires PacketsOk(packets)
    ensures x in Numbered(packets) <==> exists p :: p in packets && PcmOk(p.pcm) && x in NumberedPacket(p)
  {
    if packets != [] {
      var k := |packets| - 1;
      NumberedFrom(packets[..k], x);
      assert packets == packets[..k] + [packets[k]];
      if p :| p in packets && PcmOk(p.pcm) && x in NumberedPacket(p) && p in packets[..k] {}
    }
  }

  predicate StrictlyRising(s: seq<(nat, byte, byte)>) { forall i, j :: 0 <= i < j < |s| ==> s[i].0 < s[j].0 }

  // Sample by sample: what one epoch delivers carries strictly increasing sample
  // numbers, and each is a sample that epoch sent under that number.
  lemma SamplesInOrder(l: Link, epoch: nat)
    requires LinkOk(l)
    ensures PacketsOk(OfEpoch(l.got, epoch)) && PacketsOk(OfEpoch(l.sent, epoch))
    ensures StrictlyRising(Numbered(OfEpoch(l.got, epoch))) && StrictlyRising(Numbered(OfEpoch(l.sent, epoch)))
    ensures forall x :: x in Numbered(OfEpoch(l.got, epoch)) ==> x in Numbered(OfEpoch(l.sent, epoch))
  {
    assert PacketsOk(l.got) by {
      forall i | 0 <= i < |l.got| ensures PcmOk(l.got[i].pcm) && InU64(l.got[i].epoch) && InU64(l.got[i].position) {
        var j :| 0 <= j < |l.sent| && l.sent[j] == l.got[i];
      }
    }
    OfEpochFacts(l.got, epoch);
    OfEpochFacts(l.sent, epoch);
    NumbersIncrease(OfEpoch(l.got, epoch), epoch, U64_LIMIT + MAX_PCM);
    NumbersIncrease(OfEpoch(l.sent, epoch), epoch, U64_LIMIT + MAX_PCM);
    forall x | x in Numbered(OfEpoch(l.got, epoch)) ensures x in Numbered(OfEpoch(l.sent, epoch)) {
      NumberedFrom(OfEpoch(l.got, epoch), x);
      NumberedFrom(OfEpoch(l.sent, epoch), x);
    }
  }
}
