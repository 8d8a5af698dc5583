/**
 The virtual terminal as the daemon sees it: an abstract state that is fed
 bytes, resized, and rendered as a reattach dump. The terminal itself is
 foreign code; the laws below are what the daemon relies on.
 */
module Terminal {
  newtype byte = x: int | 0 <= x < 256

  datatype Vt<!V> = Vt(
    blank: (nat, nat) -> V,
    feed: (V, seq<byte>) -> V,
    resize: (V, nat, nat) -> V,
    render: V -> seq<byte>,
    size: V -> (nat, nat))

  // Replaying a dump on a fresh terminal of the same size.
  function Replay<V>(t: Vt<V>, v: V): V {
    t.feed(t.blank(t.size(v).0, t.size(v).1), t.render(v))
  }

  // Feeding is a monoid action and replay is faithful.
  ghost predicate Lawful<V(!new)>(t: Vt<V>) {
    && (forall v, a, b :: t.feed(t.feed(v, a), b) == t.feed(v, a + b))
    && (forall v :: t.feed(v, []) == v)
    && (forall v :: Replay(t, v) == v)
  }

  // A terminal that only keeps its transcript obeys the laws, so they are
  // consistent; it also tells any two different inputs apart.
  datatype Transcript = Transcript(cols: nat, rows: nat, fed: seq<byte>)

  function TranscriptVt(): Vt<Transcript> {
    Vt((c, r) => Transcript(c, r, []),
       (v: Transcript, bytes) => v.(fed := v.fed + bytes),
       (v: Transcript, c, r) => v.(cols := c, rows := r),
       (v: Transcript) => v.fed,
       (v: Transcript) => (v.cols, v.rows))
  }

  lemma TranscriptIsLawful()
    ensures Lawful(TranscriptVt())
  {
    var t := TranscriptVt();
    forall v: Transcript, a, b ensures t.feed(t.feed(v, a), b) == t.feed(v, a + b) {
      assert v.fed + a + b == v.fed + (a + b);
    }
    forall v: Transcript ensures t.feed(v, []) == v && Replay(t, v) == v {
      assert v.fed + [] == v.fed;
      assert [] + v.fed == v.fed;
    }
  }
}
