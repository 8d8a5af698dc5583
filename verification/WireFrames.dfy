/**
 The two envelopes of crates/mux-proto/src/frame.rs. A lane frame is a 32-bit
 little-endian length, a lane byte and the payload, the length counting both; a
 message is a length and its bytes. Reading is shown exact on every byte stream:
 whole, cut anywhere, or arbitrary.
 */
module WireFrames {
  import opened Wrappers
  import opened Terminal
  import opened LittleEndian

  const MAX_FRAME_SIZE: nat := 64 * 1024 * 1024
  const MAX_REQUEST_BYTES: nat := 1024 * 1024
  const HEADER_LEN: nat := 5

  datatype IoError = InvalidData | UnexpectedEof

  datatype Frame = Frame(lane: byte, payload: seq<byte>)

  predicate Legal(f: Frame) { |f.payload| + 1 <= MAX_FRAME_SIZE }

  predicate AllLegal(frames: seq<Frame>) {
    forall k :: 0 <= k < |frames| ==> Legal(frames[k])
  }

  function Encode(f: Frame): Result<seq<byte>, IoError> {
    if Legal(f) then Ok(ToLe(|f.payload| + 1, 4) + [f.lane] + f.payload) else Err(InvalidData)
  }

  // Lane and payload length.
  function ParseHeader(header: seq<byte>): Result<(byte, nat), IoError>
    requires |header| == HEADER_LEN
  {
    var len := FromLe(header[..4]);
    if len == 0 || len > MAX_FRAME_SIZE then Err(InvalidData) else Ok((header[4], len - 1))
  }

  datatype Next = Got(frame: Frame, rest: seq<byte>) | End | Fails(error: IoError)

  // One read over the bytes that are left. Any shortage inside the header, not
  // only at a frame boundary, is reported as the end of the stream.
  function ReadNext(bytes: seq<byte>): Next {
    if |bytes| < HEADER_LEN then End
    else match ParseHeader(bytes[..HEADER_LEN])
      case Err(e) => Fails(e)
      case Ok(h) =>
        if |bytes| - HEADER_LEN < h.1 then Fails(UnexpectedEof)
        else Got(Frame(h.0, bytes[HEADER_LEN..HEADER_LEN + h.1]), bytes[HEADER_LEN + h.1..])
  }

  // What one read leaves: nothing of a stream that ran short, and all but the
  // header of one whose header was refused.
  function LeftAfter(bytes: seq<byte>): seq<byte> {
    if |bytes| < HEADER_LEN then []
    else match ParseHeader(bytes[..HEADER_LEN])
      case Err(_) => bytes[HEADER_LEN..]
      case Ok(h) => if |bytes| - HEADER_LEN < h.1 then [] else bytes[HEADER_LEN + h.1..]
  }

  function LeftAfterMessage(bytes: seq<byte>): seq<byte> {
    if |bytes| < 4 then []
    else match ParseMessageLen(bytes[..4])
      case Err(_) => bytes[4..]
      case Ok(n) => if |bytes| - 4 < n then [] else bytes[4 + n..]
  }

  class ByteReader {
    var rest: seq<byte>

    constructor (bytes: seq<byte>)
      ensures rest == bytes
    {
      rest := bytes;
    }

    // A short stream is used up by the attempt.
    method ReadExact(n: nat) returns (r: Result<seq<byte>, IoError>)
      modifies this
      ensures r == if n <= |old(rest)| then Ok(old(rest)[..n]) else Err(UnexpectedEof)
      ensures rest == if n <= |old(rest)| then old(rest)[n..] else []
    {
      if n > |rest| {
        rest := [];
        return Err(UnexpectedEof);
      }
      r := Ok(rest[..n]);
      rest := rest[n..];
    }

    method ReadLane() returns (r: Result<Option<Frame>, IoError>)
      modifies this
      ensures match ReadNext(old(rest))
        case Got(f, rest') => r == Ok(Some(f)) && rest == rest'
        case End => r == Ok(None)
        case Fails(e) => r == Err(e)
      ensures rest == LeftAfter(old(rest))
    {
      var header := ReadExact(HEADER_LEN);
      if header.Err? { return Ok(None); }
      var h := ParseHeader(header.value);
      if h.Err? { return Err(h.error); }
      var payload := ReadExact(h.value.1);
      if payload.Err? { return Err(payload.error); }
      assert old(rest)[HEADER_LEN..][..h.value.1] == old(rest)[HEADER_LEN..HEADER_LEN + h.value.1];
      return Ok(Some(Frame(h.value.0, payload.value)));
    }

    method ReadMessage() returns (r: Result<seq<byte>, IoError>)
      modifies this
      ensures match NextMessage(old(rest))
        case Ok(m) => r == Ok(m.0) && rest == m.1
        case Err(e) => r == Err(e)
      ensures rest == LeftAfterMessage(old(rest))
    {
      var prefix := ReadExact(4);
      if prefix.Err? { return Err(prefix.error); }
      var len := ParseMessageLen(prefix.value);
      if len.Err? { return Err(len.error); }
      r := ReadExact(len.value);
      assert r.Ok? ==> old(rest)[4..][..len.value] == old(rest)[4..4 + len.value];
    }
  }

  // ------------------------------------------------------------ one frame

  lemma HeaderOfEncoding(f: Frame, tail: seq<byte>)
    requires Legal(f)
    ensures var bytes := Encode(f).value + tail;
      |bytes| >= HEADER_LEN && ParseHeader(bytes[..HEADER_LEN]) == Ok((f.lane, |f.payload|))
  {
    PowerValues();
    var bytes := Encode(f).value + tail;
    assert bytes[..HEADER_LEN][..4] == ToLe(|f.payload| + 1, 4);
    FromTo(|f.payload| + 1, 4);
  }

  lemma ReadEncoded(f: Frame, tail: seq<byte>)
    requires Legal(f)
    ensures ReadNext(Encode(f).value + tail) == Got(f, tail)
  {
    HeaderOfEncoding(f, tail);
    var bytes := Encode(f).value + tail;
    assert bytes[HEADER_LEN..HEADER_LEN + |f.payload|] == f.payload;
    assert bytes[HEADER_LEN + |f.payload|..] == tail;
  }

  // A frame cut short: the end inside the header, an error inside the payload.
  lemma ReadCut(f: Frame, n: nat)
    requires Legal(f) && n < |Encode(f).value|
    ensures ReadNext(Encode(f).value[..n]) == if n < HEADER_LEN then End else Fails(UnexpectedEof)
  {
    if n >= HEADER_LEN {
      HeaderOfEncoding(f, []);
      var whole := Encode(f).value;
      assert whole + [] == whole;
      assert whole[..n][..HEADER_LEN] == whole[..HEADER_LEN];
    }
  }

  // Whatever is read is what those bytes encode.
  lemma ReadIsEncoding(bytes: seq<byte>)
    ensures var next := ReadNext(bytes);
      next.Got? ==> Legal(next.frame) && Encode(next.frame).value + next.rest == bytes
  {
    var next := ReadNext(bytes);
    if next.Got? {
      PowerValues();
      var header := bytes[..HEADER_LEN];
      ToFrom(header[..4]);
      assert header == header[..4] + [header[4]];
      var n := |next.frame.payload|;
      assert bytes == header + bytes[HEADER_LEN..HEADER_LEN + n] + bytes[HEADER_LEN + n..];
    }
  }

  // -------------------------------------------------------- whole streams

  function EncodeAll(frames: seq<Frame>): seq<byte>
    requires AllLegal(frames)
  {
    if frames == [] then [] else Encode(frames[0]).value + EncodeAll(frames[1..])
  }

  datatype Reading = Reading(frames: seq<Frame>, error: Option<IoError>)

  // Reading until the first end or error.
  function ReadAll(bytes: seq<byte>): Reading
    decreases |bytes|
  {
    match ReadNext(bytes)
    case End => Reading([], None)
    case Fails(e) => Reading([], Some(e))
    case Got(f, rest) =>
      var more := ReadAll(rest);
      Reading([f] + more.frames, more.error)
  }

  // How many frames lie wholly within the first `n` bytes, and where they end.
  function WholeFrames(frames: seq<Frame>, n: nat): (k: nat)
    requires AllLegal(frames)
    ensures k <= |frames|
  {
    if frames == [] || n < |Encode(frames[0]).value| then 0
    else 1 + WholeFrames(frames[1..], n - |Encode(frames[0]).value|)
  }

  // That count is the greatest number of leading frames the cut leaves whole.
  lemma {:induction false} WholeFramesExact(frames: seq<Frame>, n: nat, k: nat)
    requires AllLegal(frames) && k <= |frames|
    ensures k <= WholeFrames(frames, n) <==> |EncodeAll(frames[..k])| <= n
  {
    if k > 0 {
      assert frames[..k][0] == frames[0] && frames[..k][1..] == frames[1..][..k - 1];
      var first := |Encode(frames[0]).value|;
      if first <= n {
        WholeFramesExact(frames[1..], n - first, k - 1);
      }
    }
  }

  // Reading any prefix of a stream gives exactly its whole frames, in order, then
  // the end when the cut is at a boundary or inside a header, and an end-of-file
  // error when it is inside a payload. It never gives a wrong frame.
  lemma {:induction false} ReadPrefix(frames: seq<Frame>, n: nat)
    requires AllLegal(frames) && n <= |EncodeAll(frames)|
    ensures PrefixReads(frames, n)
  {
    if frames == [] {
    } else if n < |Encode(frames[0]).value| {
      ReadCutFirst(frames, n);
    } else {
      PeelFrame(frames, n);
      ReadPrefix(frames[1..], n - |Encode(frames[0]).value|);
    }
  }

  predicate PrefixReads(frames: seq<Frame>, n: nat)
    requires AllLegal(frames) && n <= |EncodeAll(frames)|
  {
    var k := WholeFrames(frames, n);
    && |EncodeAll(frames[..k])| <= n
    && ReadAll(EncodeAll(frames)[..n]) == Reading(frames[..k],
         if n - |EncodeAll(frames[..k])| < HEADER_LEN then None else Some(UnexpectedEof))
  }

  lemma ReadCutFirst(frames: seq<Frame>, n: nat)
    requires AllLegal(frames) && frames != [] && n <= |EncodeAll(frames)| && n < |Encode(frames[0]).value|
    ensures PrefixReads(frames, n)
  {
    assert EncodeAll(frames)[..n] == Encode(frames[0]).value[..n];
    ReadCut(frames[0], n);
    assert frames[..0] == [];
  }

  // Past a whole first frame, reading goes on in the rest.
  lemma PeelFrame(frames: seq<Frame>, n: nat)
    requires AllLegal(frames) && frames != [] && |Encode(frames[0]).value| <= n <= |EncodeAll(frames)|
    ensures var first, rest := Encode(frames[0]).value, frames[1..];
      var k := WholeFrames(frames, n);
      && k == 1 + WholeFrames(rest, n - |first|)
      && frames[..k] == [frames[0]] + rest[..k - 1]
      && |EncodeAll(frames[..k])| == |first| + |EncodeAll(rest[..k - 1])|
      && n - |first| <= |EncodeAll(rest)|
      && ReadAll(EncodeAll(frames)[..n])
        == Reading([frames[0]] + ReadAll(EncodeAll(rest)[..n - |first|]).frames,
                   ReadAll(EncodeAll(rest)[..n - |first|]).error)
  {
    var first, rest := Encode(frames[0]).value, frames[1..];
    var k := WholeFrames(frames, n);
    TakeFrames(frames, k);
    assert EncodeAll(frames)[..n] == first + EncodeAll(rest)[..n - |first|];
    ReadEncoded(frames[0], EncodeAll(rest)[..n - |first|]);
  }

  lemma TakeFrames(frames: seq<Frame>, k: nat)
    requires AllLegal(frames) && 0 < k <= |frames|
    ensures frames[..k] == [frames[0]] + frames[1..][..k - 1]
    ensures |EncodeAll(frames[..k])| == |Encode(frames[0]).value| + |EncodeAll(frames[1..][..k - 1])|
  {
    assert frames[..k][0] == frames[0] && frames[..k][1..] == frames[1..][..k - 1];
  }

  lemma ReadWhole(frames: seq<Frame>)
    requires AllLegal(frames)
    ensures ReadAll(EncodeAll(frames)) == Reading(frames, None)
  {
    var n := |EncodeAll(frames)|;
    assert frames[..|frames|] == frames;
    assert EncodeAll(frames)[..n] == EncodeAll(frames);
    WholeFramesExact(frames, n, |frames|);
    ReadPrefix(frames, n);
  }

  // On arbitrary bytes, the frames read re-encode to exactly the bytes consumed.
  lemma {:induction false} ReadSound(bytes: seq<byte>)
    ensures AllLegal(ReadAll(bytes).frames)
    ensures EncodeAll(ReadAll(bytes).frames) <= bytes
    decreases |bytes|
  {
    var next := ReadNext(bytes);
    if next.Got? {
      ReadIsEncoding(bytes);
      ReadSound(next.rest);
      var more := ReadAll(next.rest).frames;
      var all := ReadAll(bytes).frames;
      assert all[0] == next.frame && all[1..] == more;
    }
  }

  // ------------------------------------------------------------- messages

  function EncodeMessage(bytes: seq<byte>): Result<seq<byte>, IoError> {
    if 0 < |bytes| <= MAX_REQUEST_BYTES then Ok(ToLe(|bytes|, 4) + bytes) else Err(InvalidData)
  }

  function ParseMessageLen(prefix: seq<byte>): Result<nat, IoError>
    requires |prefix| == 4
  {
    var len := FromLe(prefix);
    if len == 0 || len > MAX_REQUEST_BYTES then Err(InvalidData) else Ok(len)
  }

  function NextMessage(bytes: seq<byte>): Result<(seq<byte>, seq<byte>), IoError> {
    if |bytes| < 4 then Err(UnexpectedEof)
    else match ParseMessageLen(bytes[..4])
      case Err(e) => Err(e)
      case Ok(n) => if |bytes| - 4 < n then Err(UnexpectedEof) else Ok((bytes[4..4 + n], bytes[4 + n..]))
  }

  // A message reads back and leaves what follows; cut anywhere it is an error.
  lemma MessageRoundTrip(m: seq<byte>, tail: seq<byte>, n: nat)
    requires EncodeMessage(m).Ok?
    ensures NextMessage(EncodeMessage(m).value + tail) == Ok((m, tail))
    ensures n < |EncodeMessage(m).value| ==> NextMessage(EncodeMessage(m).value[..n]) == Err(UnexpectedEof)
  {
    PowerValues();
    FromTo(|m|, 4);
    var whole := EncodeMessage(m).value;
    assert (whole + tail)[..4] == ToLe(|m|, 4);
    assert (whole + tail)[4..4 + |m|] == m;
    assert (whole + tail)[4 + |m|..] == tail;
    if 4 <= n < |whole| {
      assert whole[..n][..4] == ToLe(|m|, 4);
    }
  }

  // The envelopes reject exactly what their readers reject: nothing that can be
  // written is unreadable, and a readable message can be written.
  lemma MessageIsEncoding(bytes: seq<byte>)
    ensures var next := NextMessage(bytes);
      next.Ok? ==> EncodeMessage(next.value.0).Ok? && EncodeMessage(next.value.0).value + next.value.1 == bytes
  {
    if NextMessage(bytes).Ok? {
      ToFrom(bytes[..4]);
      var n := FromLe(bytes[..4]);
      assert bytes == bytes[..4] + bytes[4..4 + n] + bytes[4 + n..];
    }
  }
}
