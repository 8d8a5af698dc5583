/**
 The capture direction of alsa/pcm_mux.c: datagrams fill a ring that drops its
 oldest sample when full, and each transfer reads the ring through a linear
 resampler whose step follows the sender's clock by one part in a thousand.
 */
module AlsaCapture {
  import opened Wrappers
  import opened Terminal
  import opened AlsaSamples

  const BURST: nat := 32

  // -------------------------------------------------------- the sample queue

  // The newest `RING` samples.
  function KeepLast(s: seq<int16>): seq<int16> {
    if |s| <= RING then s else s[|s| - RING..]
  }

  lemma KeepLastAppend(a: seq<int16>, b: seq<int16>)
    ensures KeepLast(KeepLast(a) + b) == KeepLast(a + b)
  {
  }

  function Slot(head: nat, i: nat): (k: nat)
    ensures k < RING
  {
    (head + i) % RING
  }

  lemma SlotShift(head: nat, n: nat, i: nat)
    ensures Slot(Slot(head, n), i) == Slot(head, n + i)
  {
  }

  lemma KeepLastPush(was: seq<int16>, all: seq<int16>, i: nat)
    requires i < |all|
    ensures KeepLast(KeepLast(was + all[..i]) + [all[i]]) == KeepLast(was + all[..i + 1])
  {
    KeepLastAppend(was + all[..i], [all[i]]);
    assert was + all[..i] + [all[i]] == was + all[..i + 1];
  }

  lemma KeepLastMore(was: seq<int16>, got: seq<int16>, more: seq<int16>)
    ensures KeepLast(KeepLast(was + got) + more) == KeepLast(was + (got + more))
  {
    KeepLastAppend(was + got, more);
    assert was + got + more == was + (got + more);
  }

  function Unroll(ring: seq<int16>, head: nat, count: nat): (q: seq<int16>)
    requires |ring| == RING
    ensures |q| == count
  {
    seq(count, (i: nat) requires i < count => ring[Slot(head, i)])
  }

  lemma UnrollPush(ring: seq<int16>, head: nat, count: nat, s: int16)
    requires |ring| == RING && count < RING
    ensures Unroll(ring[Slot(head, count) := s], head, count + 1) == Unroll(ring, head, count) + [s]
  {
    var after := ring[Slot(head, count) := s];
    forall i: nat | i < count ensures after[Slot(head, i)] == ring[Slot(head, i)] {
      assert Slot(head, i) != Slot(head, count);
    }
  }

  lemma UnrollDrop(ring: seq<int16>, head: nat, count: nat, n: nat)
    requires |ring| == RING && n <= count
    ensures Unroll(ring, Slot(head, n), count - n) == Unroll(ring, head, count)[n..]
  {
    var rest := Unroll(ring, Slot(head, n), count - n);
    forall i: nat | i < count - n ensures rest[i] == Unroll(ring, head, count)[n + i] {
      SlotShift(head, n, i);
    }
  }

  // One sample more, with the oldest dropped from a full ring first.
  lemma UnrollEnqueue(ring: seq<int16>, head: nat, count: nat, s: int16)
    requires |ring| == RING && count <= RING
    ensures var h, c := if count == RING then Slot(head, 1) else head, if count == RING then count - 1 else count;
      Unroll(ring[Slot(h, c) := s], h, c + 1) == KeepLast(Unroll(ring, head, count) + [s])
  {
    if count == RING {
      UnrollDrop(ring, head, count, 1);
      UnrollPush(ring, Slot(head, 1), count - 1, s);
      PushFull(Unroll(ring, head, count), s);
    } else {
      UnrollPush(ring, head, count, s);
    }
  }

  lemma PushFull(q: seq<int16>, s: int16)
    requires |q| == RING
    ensures KeepLast(q + [s]) == q[1..] + [s]
  {
  }

  // ------------------------------------------------------------ the intake

  // What one non-blocking receive can report.
  datatype Arrival = Datagram(bytes: seq<byte>) | NothingYet | Failed

  datatype Intake = Intake(samples: seq<int16>, broken: bool) {
    function After(before: seq<int16>): Intake { Intake(before + samples, broken) }
  }

  predicate DatagramOk(bytes: seq<byte>) { 0 < |bytes| <= 2 * PACKET && |bytes| % 2 == 0 }

  predicate GoesOn(a: Arrival) { a.Datagram? && DatagramOk(a.bytes) }

  // The samples a burst of receives takes in, and whether it found the peer broken.
  function Take(arrivals: seq<Arrival>, budget: nat): Intake {
    if arrivals == [] || budget == 0 then Intake([], false)
    else if !GoesOn(arrivals[0]) then Intake([], arrivals[0] != NothingYet)
    else Take(arrivals[1..], budget - 1).After(Decode(arrivals[0].bytes))
  }

  lemma TakeOne(arrivals: seq<Arrival>, i: nat, got: seq<int16>)
    requires i < |arrivals| && i < BURST
    ensures Take(arrivals[i..], BURST - i).After(got) ==
      if !GoesOn(arrivals[i]) then Intake(got, arrivals[i] != NothingYet)
      else Take(arrivals[i + 1..], BURST - (i + 1)).After(got + Decode(arrivals[i].bytes))
  {
    assert arrivals[i..][1..] == arrivals[i + 1..];
    assert got + [] == got;
    if GoesOn(arrivals[i]) {
      var rest := Take(arrivals[i + 1..], BURST - (i + 1));
      assert got + (Decode(arrivals[i].bytes) + rest.samples) == got + Decode(arrivals[i].bytes) + rest.samples;
    }
  }

  // --------------------------------------------------------- the resampler

  // The C conversion to an integer: toward zero.
  function Trunc(x: real): int {
    if x >= 0.0 then x.Floor else -(-x).Floor
  }

  lemma NonNegative(x: real, y: real)
    requires x >= 0.0 && y >= 0.0
    ensures x * y >= 0.0
  {
  }

  lemma Rest(d: real, phase: real)
    ensures d * (1.0 - phase) == d - d * phase
  {
  }

  lemma Negated(d: real, phase: real)
    ensures (0.0 - d) * phase == 0.0 - d * phase
  {
  }

  lemma ScaledDown(d: real, phase: real, p: real)
    requires d >= 0.0 && 0.0 <= phase < 1.0 && p == d * phase
    ensures 0.0 <= p <= d
  {
    NonNegative(d, phase);
    NonNegative(d, 1.0 - phase);
    Rest(d, phase);
  }

  lemma PartOf(d: real, phase: real, p: real)
    requires 0.0 <= phase < 1.0 && p == d * phase
    ensures d >= 0.0 ==> 0.0 <= p <= d
    ensures d <= 0.0 ==> d <= p <= 0.0
  {
    if d >= 0.0 {
      ScaledDown(d, phase, p);
    } else {
      Negated(d, phase);
      ScaledDown(0.0 - d, phase, 0.0 - p);
    }
  }

  function Part(d: real, phase: real): (p: real)
    requires 0.0 <= phase < 1.0
    ensures d >= 0.0 ==> 0.0 <= p <= d
    ensures d <= 0.0 ==> d <= p <= 0.0
  {
    var p := d * phase;
    PartOf(d, phase, p);
    p
  }

  // The interpolation lies between its two samples, so it never leaves 16 bits.
  function Interpolate(a: int16, b: int16, phase: real): (s: int16)
    requires 0.0 <= phase < 1.0
    ensures a <= s <= b || b <= s <= a
  {
    Trunc(a as real + Part(b as real - a as real, phase)) as int16
  }

  // The reader: queued samples and the fraction of the first already played.
  datatype Reader = Reader(queue: seq<int16>, phase: real)

  predicate ReaderOk(r: Reader) { 0.0 <= r.phase < 1.0 }

  predicate StepOk(step: real) { 0.999 <= step <= 1.001 }

  function Correction(count: nat, period: nat): (step: real)
    ensures StepOk(step)
  {
    if count > period + PACKET then 1.001 else if count < period then 0.999 else 1.0
  }

  // The queue never underflows: at most two samples are consumed at once, and
  // only when two are there.
  lemma NoUnderflow(r: Reader, step: real)
    requires ReaderOk(r) && StepOk(step)
    ensures 0 <= (r.phase + step).Floor <= 2
    ensures 0.0 <= r.phase + step - (r.phase + step).Floor as real < 1.0
  {
  }

  // One frame: what it sounds like, and where it leaves the reader.
  function Sound(r: Reader): int16
    requires ReaderOk(r)
  {
    if |r.queue| >= 2 then Interpolate(r.queue[0], r.queue[1], r.phase) else 0
  }

  function Advance(r: Reader, step: real): (after: Reader)
    requires ReaderOk(r) && StepOk(step)
    ensures ReaderOk(after)
  {
    if |r.queue| >= 2 then
      NoUnderflow(r, step);
      var consumed := (r.phase + step).Floor;
      Reader(r.queue[consumed..], r.phase + step - consumed as real)
    else
      Reader(r.queue, 0.0)
  }

  // `n` frames.
  function Advanced(r: Reader, step: real, n: nat): (after: Reader)
    requires ReaderOk(r) && StepOk(step)
    ensures ReaderOk(after)
  {
    if n == 0 then r else Advance(Advanced(r, step, n - 1), step)
  }

  function Sounds(r: Reader, step: real, n: nat): (out: seq<int16>)
    requires ReaderOk(r) && StepOk(step)
    ensures |out| == n
  {
    if n == 0 then [] else Sounds(r, step, n - 1) + [Sound(Advanced(r, step, n - 1))]
  }

  // The reference: the queue as a signal in continuous time, linear between
  // samples and silent past its last pair.
  function Time(r: Reader, step: real, k: nat): (t: real)
    requires ReaderOk(r) && StepOk(step)
    ensures t >= 0.0
  {
    if k == 0 then r.phase else Time(r, step, k - 1) + step
  }

  lemma {:induction false} TimeClosed(r: Reader, step: real, k: nat)
    requires ReaderOk(r) && StepOk(step)
    ensures Time(r, step, k) == r.phase + k as real * step
  {
    if k > 0 {
      TimeClosed(r, step, k - 1);
      assert k as real * step == (k - 1) as real * step + step;
    }
  }

  function SignalAt(queue: seq<int16>, t: real): int16
    requires t >= 0.0
  {
    var i := t.Floor;
    if i + 1 < |queue| then Interpolate(queue[i], queue[i + 1], t - i as real) else 0
  }

  predicate Starved(r: Reader, step: real, k: nat)
    requires ReaderOk(r) && StepOk(step)
  {
    Time(r, step, k).Floor + 1 >= |r.queue|
  }

  // The reader that stands at time `t` of a queue.
  function ReaderAt(queue: seq<int16>, t: real): Reader
    requires t >= 0.0 && t.Floor <= |queue|
  {
    Reader(queue[t.Floor..], t - t.Floor as real)
  }

  lemma FloorShift(t: real, step: real)
    ensures (t + step).Floor == t.Floor + (t - t.Floor as real + step).Floor
  {
  }

  lemma AdvanceAt(queue: seq<int16>, t: real, step: real)
    requires t >= 0.0 && StepOk(step) && t.Floor + 1 < |queue|
    ensures (t + step).Floor <= |queue|
    ensures Advance(ReaderAt(queue, t), step) == ReaderAt(queue, t + step)
  {
    var at := ReaderAt(queue, t);
    NoUnderflow(at, step);
    FloorShift(t, step);
    var consumed := (at.phase + step).Floor;
    assert at.queue[consumed..] == queue[t.Floor + consumed..];
  }

  lemma SoundAt(queue: seq<int16>, t: real)
    requires t >= 0.0 && t.Floor + 1 < |queue|
    ensures Sound(ReaderAt(queue, t)) == SignalAt(queue, t)
  {
  }

  lemma StarvedStays(r: Reader, step: real, k: nat)
    requires ReaderOk(r) && StepOk(step)
    ensures Starved(r, step, k) ==> Starved(r, step, k + 1)
  {
    assert Time(r, step, k + 1) == Time(r, step, k) + step;
  }

  // The first `n` frames each found two samples.
  predicate Fed(r: Reader, step: real, n: nat)
    requires ReaderOk(r) && StepOk(step)
  {
    n == 0 || !Starved(r, step, n - 1)
  }

  lemma FedEarlier(r: Reader, step: real, n: nat)
    requires ReaderOk(r) && StepOk(step) && n > 0 && Fed(r, step, n)
    ensures Fed(r, step, n - 1)
  {
    if n >= 2 { StarvedStays(r, step, n - 2); }
  }

  predicate StandsAt(r: Reader, step: real, n: nat)
    requires ReaderOk(r) && StepOk(step)
  {
    var t := Time(r, step, n);
    t.Floor <= |r.queue| && Advanced(r, step, n) == ReaderAt(r.queue, t)
  }

  // Where the reader stands after `n` fed frames: exactly at its time, nothing
  // lost to rounding from one frame to the next.
  lemma {:induction false} FedReader(r: Reader, step: real, n: nat)
    requires ReaderOk(r) && StepOk(step) && Fed(r, step, n)
    ensures StandsAt(r, step, n)
  {
    if n == 0 {
      assert r.phase.Floor == 0;
      assert r.queue[0..] == r.queue;
    } else {
      FedEarlier(r, step, n);
      FedReader(r, step, n - 1);
      FedOnce(r, step, n);
    }
  }

  lemma FedOnce(r: Reader, step: real, n: nat)
    requires ReaderOk(r) && StepOk(step) && n > 0 && Fed(r, step, n) && StandsAt(r, step, n - 1)
    ensures StandsAt(r, step, n)
  {
    var t := Time(r, step, n - 1);
    assert Advanced(r, step, n) == Advance(ReaderAt(r.queue, t), step);
    AdvanceAt(r.queue, t, step);
    assert Time(r, step, n) == t + step;
  }

  lemma {:induction false} StarvedReader(r: Reader, step: real, n: nat)
    requires ReaderOk(r) && StepOk(step) && Starved(r, step, n)
    ensures |Advanced(r, step, n).queue| < 2
  {
    if n > 0 {
      if Starved(r, step, n - 1) {
        StarvedReader(r, step, n - 1);
      } else {
        FedReader(r, step, n);
      }
    } else {
      assert Time(r, step, 0) == r.phase;
    }
  }

  // Every output is the signal at its own exact time, for any number of pulls,
  // starved or not: the pull-by-pull bookkeeping never drifts from the closed form.
  lemma {:induction false} ResampleExact(r: Reader, step: real, n: nat, k: nat)
    requires ReaderOk(r) && StepOk(step) && k < n
    ensures Sounds(r, step, n)[k] == SignalAt(r.queue, Time(r, step, k))
  {
    if k < n - 1 {
      ResampleExact(r, step, n - 1, k);
    } else if Starved(r, step, k) {
      StarvedReader(r, step, k);
    } else {
      FedEarlier(r, step, k + 1);
      FedReader(r, step, k);
      SoundAt(r.queue, Time(r, step, k));
    }
  }

  // Samples consumed plus the phase kept equal the phase before plus the time
  // played, as long as the queue lasts.
  lemma Conserved(r: Reader, step: real, n: nat)
    requires ReaderOk(r) && StepOk(step)
    requires Fed(r, step, n)
    ensures var after := Advanced(r, step, n);
      |after.queue| <= |r.queue| && (|r.queue| - |after.queue|) as real + after.phase == r.phase + n as real * step
  {
    FedReader(r, step, n);
    TimeClosed(r, step, n);
  }

  // The same frame read in place, out of the ring.
  lemma RingSounds(ring: seq<int16>, head: nat, count: nat, phase: real)
    requires |ring| == RING && head < RING && count >= 2 && 0.0 <= phase < 1.0
    ensures Sound(Reader(Unroll(ring, head, count), phase)) == Interpolate(ring[head], ring[Slot(head, 1)], phase)
  {
    assert Slot(head, 0) == head;
  }

  lemma RingAdvances(ring: seq<int16>, head: nat, count: nat, phase: real, step: real)
    requires |ring| == RING && count >= 2 && 0.0 <= phase < 1.0 && StepOk(step)
    ensures var consumed := (phase + step).Floor;
      && 0 <= consumed <= 2 && 0.0 <= phase + step - consumed as real < 1.0
      && Advance(Reader(Unroll(ring, head, count), phase), step)
        == Reader(Unroll(ring, Slot(head, consumed), count - consumed), phase + step - consumed as real)
  {
    NoUnderflow(Reader(Unroll(ring, head, count), phase), step);
    UnrollDrop(ring, head, count, (phase + step).Floor);
  }

  // --------------------------------------------------------------- the plugin

  datatype Errno = ENODEV | EINVAL

  class CapturePcm {
    const capture: array<int16>
    var head: nat
    var count: nat
    var phase: real
    var dead: bool

    ghost predicate Valid()
      reads this, capture
    {
      capture.Length == RING && head < RING && count <= RING && 0.0 <= phase < 1.0
    }

    ghost function Queue(): seq<int16>
      requires Valid()
      reads this, capture
    {
      Unroll(capture[..], head, count)
    }

    ghost function View(): Reader
      requires Valid()
      reads this, capture
    {
      Reader(Queue(), phase)
    }

    constructor ()
      ensures Valid() && Queue() == [] && phase == 0.0 && !dead && fresh(capture)
    {
      capture := new int16[RING](i => 0);
      head, count, phase, dead := 0, 0, 0.0, false;
    }

    method Enqueue(s: int16)
      requires Valid()
      modifies this`head, this`count, capture
      ensures Valid() && Queue() == KeepLast(old(Queue()) + [s])
    {
      UnrollEnqueue(capture[..], head, count, s);
      if count == RING {
        head := Slot(head, 1);
        count := count - 1;
      }
      capture[Slot(head, count)] := s;
      count := count + 1;
    }

    method EnqueueAll(bytes: seq<byte>)
      requires Valid()
      modifies this`head, this`count, capture
      ensures Valid() && Queue() == KeepLast(old(Queue()) + Decode(bytes))
    {
      ghost var was, all, kept := Queue(), Decode(bytes), Queue();
      assert kept == KeepLast(was + all[..0]) by { assert was + all[..0] == was; }
      for i := 0 to |bytes| / 2
        invariant Valid() && Queue() == kept
        invariant kept == KeepLast(was + all[..i])
      {
        var s := Join(bytes[2 * i], bytes[2 * i + 1]);
        assert s == all[i];
        KeepLastPush(was, all, i);
        kept := KeepLast(kept + [s]);
        Enqueue(s);
      }
      assert all[..|all|] == all;
    }

    method ReceiveCapture(arrivals: seq<Arrival>)
      requires Valid()
      modifies this`head, this`count, this`dead, capture
      ensures Valid()
      ensures var got := Take(arrivals, BURST);
        Queue() == KeepLast(old(Queue()) + got.samples) && dead == (old(dead) || got.broken)
    {
      ghost var was, all, kept := Queue(), Take(arrivals, BURST), Queue();
      ghost var got: seq<int16> := [];
      assert was + got == was;
      var i := 0;
      while i < BURST && i < |arrivals|
        invariant 0 <= i <= BURST && i <= |arrivals|
        invariant Valid() && dead == old(dead)
        invariant Queue() == kept && kept == KeepLast(was + got)
        invariant all == Take(arrivals[i..], BURST - i).After(got)
      {
        var more := ReceiveOne(arrivals[i]);
        TakeOne(arrivals, i, got);
        if !more { return; }
        KeepLastMore(was, got, Decode(arrivals[i].bytes));
        kept := KeepLast(kept + Decode(arrivals[i].bytes));
        got := got + Decode(arrivals[i].bytes);
        i := i + 1;
      }
      assert got + [] == got;
    }

    // One receive: whether the burst goes on.
    method ReceiveOne(arrival: Arrival) returns (more: bool)
      requires Valid()
      modifies this`head, this`count, this`dead, capture
      ensures Valid() && more == GoesOn(arrival)
      ensures more ==> dead == old(dead) && Queue() == KeepLast(old(Queue()) + Decode(arrival.bytes))
      ensures !more ==> dead == (old(dead) || arrival != NothingYet) && Queue() == old(Queue())
    {
      match arrival
      case NothingYet =>
        return false;
      case Failed =>
        dead := true;
        return false;
      case Datagram(bytes) =>
        if !DatagramOk(bytes) {
          dead := true;
          return false;
        }
        EnqueueAll(bytes);
        return true;
    }

    method Next(step: real) returns (sample: int16)
      requires Valid() && StepOk(step)
      modifies this`head, this`count, this`phase
      ensures Valid() && View() == Advance(old(View()), step) && sample == Sound(old(View()))
    {
      if count < 2 {
        phase := 0.0;
        return 0;
      }
      var a, b := capture[head], capture[Slot(head, 1)];
      sample := Interpolate(a, b, phase);
      RingSounds(capture[..], head, count, phase);
      RingAdvances(capture[..], head, count, phase, step);
      phase := phase + step;
      var consumed := phase.Floor;
      phase := phase - consumed as real;
      head := Slot(head, consumed);
      count := count - consumed;
    }

    method Transfer(arrivals: seq<Arrival>, period: nat, frames: nat, layoutOk: bool, data: array<byte>)
      returns (r: Result<nat, Errno>)
      requires Valid() && data.Length == 2 * frames
      modifies this, capture, data
      ensures Valid()
      ensures r == if old(dead) then Err(ENODEV) else if !layoutOk then Err(EINVAL)
                   else if dead then Err(ENODEV) else Ok(frames)
      ensures !old(dead) && layoutOk ==>
        var queue := KeepLast(old(Queue()) + Take(arrivals, BURST).samples);
        var start, step := Reader(queue, old(phase)), Correction(|queue|, period);
        View() == Advanced(start, step, frames) && Decode(data[..]) == Sounds(start, step, frames)
      ensures !old(dead) && layoutOk ==> dead == Take(arrivals, BURST).broken
      ensures old(dead) || !layoutOk ==> View() == old(View()) && dead == old(dead) && data[..] == old(data[..])
    {
      if dead { return Err(ENODEV); }
      if !layoutOk { return Err(EINVAL); }
      ReceiveCapture(arrivals);
      ghost var start := View();
      var step := Correction(count, period);
      Play(step, frames, data);
      return if dead then Err(ENODEV) else Ok(frames);
    }

    method Play(step: real, frames: nat, data: array<byte>)
      requires Valid() && StepOk(step) && data.Length == 2 * frames
      modifies this`head, this`count, this`phase, data
      ensures Valid() && View() == Advanced(old(View()), step, frames) && Decode(data[..]) == Sounds(old(View()), step, frames)
    {
      ghost var start := View();
      for i := 0 to frames
        invariant Valid()
        invariant View() == Advanced(start, step, i) && Decode(data[..2 * i]) == Sounds(start, step, i)
      {
        var sample := Next(step);
        StoreSample(data, i, sample);
      }
      assert data[..2 * frames] == data[..];
    }
  }

  method StoreSample(data: array<byte>, i: nat, sample: int16)
    requires 2 * i + 1 < data.Length
    modifies data
    ensures Decode(data[..2 * (i + 1)]) == old(Decode(data[..2 * i])) + [sample]
  {
    ghost var done := data[..2 * i];
    data[2 * i] := Low(sample);
    data[2 * i + 1] := High(sample);
    DecodeExtend(done, sample);
    assert data[..2 * (i + 1)] == done + [Low(sample), High(sample)];
  }
}
