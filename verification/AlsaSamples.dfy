/** Signed 16-bit samples and their little-endian bytes, as alsa/pcm_mux.c packs them. */
module AlsaSamples {
  import opened Terminal

  // Samples in a ring, and in a packet.
  const RING: nat := 8192
  const PACKET: nat := 480

  newtype int16 = x: int | -0x8000 <= x < 0x8000

  function Low(s: int16): byte { (s as int % 0x1_0000 % 256) as byte }

  function High(s: int16): byte { (s as int % 0x1_0000 / 256) as byte }

  function Join(lo: byte, hi: byte): int16 {
    var u := lo as int + 256 * hi as int;
    (if u < 0x8000 then u else u - 0x1_0000) as int16
  }

  lemma JoinSplit(s: int16)
    ensures Join(Low(s), High(s)) == s
  {
    var u := s as int % 0x1_0000;
    assert u == if s < 0 then s as int + 0x1_0000 else s as int;
    assert u == u % 256 + 256 * (u / 256);
  }

  // The samples of a byte string; a trailing odd byte is no sample.
  function Decode(bytes: seq<byte>): (samples: seq<int16>)
    ensures |samples| == |bytes| / 2
  {
    seq(|bytes| / 2, i requires 0 <= i < |bytes| / 2 => Join(bytes[2 * i], bytes[2 * i + 1]))
  }

  lemma DecodeExtend(bytes: seq<byte>, s: int16)
    requires |bytes| % 2 == 0
    ensures Decode(bytes + [Low(s), High(s)]) == Decode(bytes) + [s]
  {
    JoinSplit(s);
  }
}
