/**
 The sample clock of alsa/pcm_mux.c: elapsed nanoseconds to frames without
 overflow or drift, and the unwrapping of ALSA's modular application pointer.
 */
module AlsaClock {
  import opened LittleEndian

  const RATE: nat := 48000
  const NANOS: nat := 1_000_000_000

  // Frames elapsed, as the source computes them.
  function Frames(elapsed: nat): nat {
    elapsed / NANOS * RATE + elapsed % NANOS * RATE / NANOS
  }

  lemma ScaleSign(d: int, n: nat)
    requires n > 0
    ensures d >= 1 ==> d * n >= n
    ensures d <= -1 ==> d * n <= 0 - n
  {
    assert d >= 1 ==> (d - 1) * n >= 0;
    assert d <= -1 ==> (-1 - d) * n >= 0;
  }

  // Quotient and remainder are determined by the division equation.
  lemma DivisionUnique(x: int, n: nat, q: int, r: int)
    requires n > 0 && 0 <= r < n && x == q * n + r
    ensures x / n == q && x % n == r
  {
    var d := x / n - q;
    assert x == x / n * n + x % n;
    assert d * n == r - x % n by { assert d * n == x / n * n - q * n; }
    ScaleSign(d, n);
  }

  lemma DivSplit(q: nat, r: nat, n: nat)
    requires n > 0
    ensures (q * n + r) / n == q + r / n
  {
    var d := r / n;
    assert q * n + r == (q + d) * n + r % n by {
      assert r == d * n + r % n;
      assert (q + d) * n == q * n + d * n;
    }
    DivisionUnique(q * n + r, n, q + d, r % n);
  }

  // The split computation is the exact floor of the product, for every elapsed
  // time, so the clock never drifts.
  lemma FramesExact(elapsed: nat)
    ensures Frames(elapsed) == elapsed * RATE / NANOS
  {
    var q, r := elapsed / NANOS, elapsed % NANOS;
    assert elapsed == q * NANOS + r;
    assert elapsed * RATE == (q * RATE) * NANOS + r * RATE;
    DivSplit(q * RATE, r * RATE, NANOS);
  }

  // No intermediate value leaves 64 bits, for any 64-bit elapsed time; the plain
  // product would, after about four and a half days.
  lemma FramesFitsU64(elapsed: nat)
    requires elapsed < U64_LIMIT
    ensures elapsed / NANOS * RATE < U64_LIMIT
    ensures elapsed % NANOS * RATE < U64_LIMIT
    ensures Frames(elapsed) < U64_LIMIT
    ensures elapsed * RATE < U64_LIMIT <==> elapsed <= 384_307_168_202_282
  {
    FramesExact(elapsed);
    assert elapsed / NANOS <= 18_446_744_073;
  }

  lemma FramesMonotone(a: nat, b: nat)
    requires a <= b
    ensures Frames(a) <= Frames(b)
  {
    FramesExact(a);
    FramesExact(b);
    DivMonotone(a * RATE, b * RATE, NANOS);
  }

  lemma DivMonotone(a: nat, b: nat, n: nat)
    requires n > 0 && a <= b
    ensures a / n <= b / n
  {
    var d := a / n - b / n;
    assert a == a / n * n + a % n;
    assert b == b / n * n + b % n;
    assert d * n == a / n * n - b / n * n;
    ScaleSign(d, n);
  }

  // ------------------------------------------------- application pointer

  datatype Unwrap = Unwrap(boundary: nat, cycles: nat, last: nat) {
    function Total(): nat { cycles + last }
  }

  predicate UnwrapOk(u: Unwrap) {
    u.boundary > 0 && u.last < u.boundary && u.cycles % u.boundary == 0
  }

  lemma StartsUnwrapped(boundary: nat)
    requires boundary > 0
    ensures UnwrapOk(Unwrap(boundary, 0, 0))
  {
    CycleMultiples(0, boundary);
  }

  function Observe(u: Unwrap, value: nat): Unwrap {
    var cycles :=
      if value < u.last && u.last - value > u.boundary / 2 then u.cycles + u.boundary
      else if value > u.last && value - u.last > u.boundary / 2 && u.cycles >= u.boundary then u.cycles - u.boundary
      else u.cycles;
    Unwrap(u.boundary, cycles, value)
  }

  // The start of the cycle a position lies in.
  function CycleOf(position: nat, boundary: nat): (home: nat)
    requires boundary > 0
    ensures home + position % boundary == position
  {
    DivisionEquation(position, boundary);
    position - position % boundary
  }

  // Which moves the observation recovers. Staying in the cycle, half a boundary
  // either way, and any distance forward while no wrap has been counted yet; into
  // a neighbouring cycle, strictly less than half.
  predicate Recoverable(u: Unwrap, position: nat)
    requires u.boundary > 0
  {
    var b, home, move := u.boundary, CycleOf(position, u.boundary), position - u.Total();
    if home == u.cycles then -move <= b / 2 && (move <= b / 2 || u.cycles == 0)
    else if home == u.cycles + b then b - move > b / 2
    else home == u.cycles - b && b + move > b / 2
  }

  // The observation gives the true position if and only if the move is one of
  // those; right or wrong, it leaves a well-formed counter.
  lemma ObserveExact(u: Unwrap, position: nat)
    requires UnwrapOk(u)
    ensures var after := Observe(u, position % u.boundary);
      UnwrapOk(after) && (after.Total() == position <==> Recoverable(u, position))
  {
    DivisionEquation(position, u.boundary);
    FirstCycle(u.cycles, u.boundary);
    ObserveKeepsMultiple(u, position % u.boundary);
    ChosenCycle(u, position % u.boundary, CycleOf(position, u.boundary));
  }

  lemma DivisionEquation(x: nat, n: nat)
    requires n > 0
    ensures x == x / n * n + x % n && x % n < n && x % n <= x
  {
  }

  lemma FirstCycle(cycles: nat, b: nat)
    requires b > 0 && cycles % b == 0
    ensures cycles == 0 || cycles >= b
  {
  }

  lemma ObserveKeepsMultiple(u: Unwrap, value: nat)
    requires UnwrapOk(u) && value < u.boundary
    ensures UnwrapOk(Observe(u, value))
  {
    var b, c := u.boundary, u.cycles / u.boundary;
    DivisionEquation(u.cycles, b);
    assert (c + 1) * b == c * b + b && (c - 1) * b == c * b - b;
    CycleMultiples(c + 1, b);
    CycleMultiples(c - 1, b);
  }

  lemma ChosenCycle(u: Unwrap, value: nat, home: nat)
    requires u.boundary > 0 && u.last < u.boundary && value < u.boundary
    requires u.cycles == 0 || u.cycles >= u.boundary
    ensures var b, move := u.boundary, home + value - u.Total();
      Observe(u, value).cycles == home <==>
        if home == u.cycles then -move <= b / 2 && (move <= b / 2 || u.cycles == 0)
        else if home == u.cycles + b then b - move > b / 2
        else home == u.cycles - b && b + move > b / 2
  {
  }

  // In particular a pointer that moved less than half the boundary either way is
  // always recovered.
  lemma ObserveRecovers(u: Unwrap, position: nat)
    requires UnwrapOk(u)
    requires 2 * (position - u.Total()) < u.boundary && 2 * (u.Total() - position) < u.boundary
    ensures var after := Observe(u, position % u.boundary);
      UnwrapOk(after) && after.Total() == position
  {
    NearbyCycle(u, position);
    ObserveExact(u, position);
  }

  lemma NearbyCycle(u: Unwrap, position: nat)
    requires UnwrapOk(u)
    requires 2 * (position - u.Total()) < u.boundary && 2 * (u.Total() - position) < u.boundary
    ensures CycleOf(position, u.boundary) in {u.cycles - u.boundary, u.cycles, u.cycles + u.boundary}
  {
    DivisionEquation(position, u.boundary);
    DivisionEquation(u.cycles, u.boundary);
    WithinOneCycle(u.cycles / u.boundary, position / u.boundary, u.boundary, u.last, position % u.boundary);
  }

  // And one that moved exactly half a boundary, either way, is recovered if and
  // only if it did not cross a wrap.
  lemma HalfBoundaryMove(u: Unwrap, position: nat)
    requires UnwrapOk(u)
    requires 2 * (position - u.Total()) == u.boundary || 2 * (u.Total() - position) == u.boundary
    ensures Observe(u, position % u.boundary).Total() == position <==> CycleOf(position, u.boundary) == u.cycles
  {
    ObserveExact(u, position);
  }

  lemma WithinOneCycle(c: int, q: int, b: nat, last: nat, value: nat)
    requires b > 0 && last < b && value < b
    requires 2 * (q * b + value - c * b - last) < b && 2 * (c * b + last - q * b - value) < b
    ensures q * b == c * b || q * b == c * b + b || q * b == c * b - b
  {
    var k := q - c;
    assert k * b == q * b - c * b;
    ScaleSign(k - 1, b);
    ScaleSign(k + 1, b);
    assert (k - 1) * b == k * b - b && (k + 1) * b == k * b + b;
  }

  lemma CycleMultiples(q: int, b: nat)
    requires b > 0
    ensures q * b % b == 0
  {
    DivisionUnique(q * b, b, q, 0);
  }
}
