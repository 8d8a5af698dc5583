/**
 The handoff's one message on its stream socket, crates/muxd/src/migrate.rs: a
 32-bit length and a body. The receiver's first read also collects descriptors
 and may end anywhere; the rest is read exactly. What it assembles does not
 depend on where that first read ended.
 */
module HandoffMessage {
  import opened Wrappers
  import opened Terminal
  import opened LittleEndian
  import opened WireFrames

  const MAX_PAYLOAD_BYTES: nat := 64 * 1024 * 1024

  // The body a byte stream carries.
  function Body(stream: seq<byte>): Result<seq<byte>, IoError> {
    if |stream| < 4 then Err(UnexpectedEof)
    else
      var len := FromLe(stream[..4]);
      if len == 0 || len > MAX_PAYLOAD_BYTES then Err(InvalidData)
      else if |stream| - 4 < len then Err(UnexpectedEof)
      else Ok(stream[4..4 + len])
  }

  // Top a buffer up to `n` bytes from the stream behind it.
  method TopUp(buf: seq<byte>, n: nat, reader: ByteReader) returns (r: Result<seq<byte>, IoError>)
    modifies reader
    ensures r.Ok? <==> n <= |buf| + |old(reader.rest)|
    ensures r.Ok? ==> n <= |r.value| && r.value + reader.rest == buf + old(reader.rest)
    ensures r.Err? ==> r.error == UnexpectedEof
  {
    if |buf| >= n { return Ok(buf); }
    var more := reader.ReadExact(n - |buf|);
    if more.Err? { return Err(more.error); }
    return Ok(buf + more.value);
  }

  // Whatever the first read returned, the result is that of the whole stream.
  method Receive(first: seq<byte>, reader: ByteReader) returns (r: Result<seq<byte>, IoError>)
    modifies reader
    ensures r == Body(first + old(reader.rest))
  {
    ghost var stream := first + reader.rest;
    var buf := TopUp(first, 4, reader);
    if buf.Err? { return Err(buf.error); }
    assert buf.value[..4] == stream[..4];
    var len := FromLe(buf.value[..4]);
    if len == 0 || len > MAX_PAYLOAD_BYTES { return Err(InvalidData); }
    assert buf.value[4..] + reader.rest == stream[4..];
    var body := TopUp(buf.value[4..], len, reader);
    if body.Err? { return Err(body.error); }
    assert body.value[..len] == stream[4..][..len];
    assert stream[4..][..len] == stream[4..4 + len];
    return Ok(body.value[..len]);
  }

  // A message built the way the sender builds it reads back if it is within the
  // receiver's limit, which the sender does not check; cut short it is an error
  // rather than a shorter body.
  lemma BodyRoundTrip(body: seq<byte>, n: nat)
    requires |body| < 0x1_0000_0000
    ensures var message := ToLe(|body|, 4) + body;
      if 0 < |body| <= MAX_PAYLOAD_BYTES then
        Body(message) == Ok(body) && (n < |message| ==> Body(message[..n]) == Err(UnexpectedEof))
      else Body(message) == Err(InvalidData)
  {
    PowerValues();
    FromTo(|body|, 4);
    var message := ToLe(|body|, 4) + body;
    assert message[..4] == ToLe(|body|, 4);
    assert message[4..4 + |body|] == body;
    if 4 <= n < |message| { assert message[..n][..4] == message[..4]; }
  }
}
