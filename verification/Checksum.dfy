/**
 * The rolling weak checksum of internal/sync/checksum.go: section 3 of
 * Tridgell and Mackerras, "The rsync algorithm" (TR-CS-96-05), computed in
 * uint32 arithmetic that wraps.
 */
module Checksum {
  import opened Prelude

  const MODULUS := 0x1_0000
  const UINT32 := 0x1_0000_0000

  datatype WeakChecksum = WeakChecksum(a: int, b: int, length: int)

  /** The value a uint32 holds after an operation whose exact result is x. */
  function Wrap(x: int): (r: int)
    ensures 0 <= r < UINT32
  {
    x % UINT32
  }

  /** The mathematical sum of the bytes, with no modulus. */
  function ByteSum(window: Bytes): nat {
    if window == [] then 0 else window[0] + ByteSum(window[1..])
  }

  /** The mathematical position-weighted sum: the first byte counts |window| times, the last once. */
  function WeightedSum(window: Bytes): nat {
    if window == [] then 0 else |window| * window[0] + WeightedSum(window[1..])
  }

  /** What the checksum of a window is, stated without wraparound. */
  function Fresh(window: Bytes): WeakChecksum {
    WeakChecksum(ByteSum(window) % MODULUS, WeightedSum(window) % MODULUS, |window| % UINT32)
  }

  function Sum(w: WeakChecksum): int {
    Wrap(w.a + Wrap(w.b * MODULUS))
  }

  function Roll(w: WeakChecksum, out: Byte, inn: Byte): WeakChecksum {
    var a := Wrap(Wrap(w.a - out) + inn) % MODULUS;
    var b := Wrap(Wrap(w.b - Wrap(w.length * out)) + a) % MODULUS;
    WeakChecksum(a, b, w.length)
  }

  /** Rolls w along data: k single-byte steps of a window that started at data[from..from + size]. */
  function RollAlong(w: WeakChecksum, data: Bytes, from: nat, size: nat, k: nat): WeakChecksum
    requires from + size + k <= |data|
    decreases k
  {
    if k == 0 then w
    else
      var before := RollAlong(w, data, from, size, k - 1);
      Roll(before, data[from + k - 1], data[from + size + k - 1])
  }

  // ---- The sums, written out ----

  function Total(s: seq<int>): int {
    if s == [] then 0 else s[0] + Total(s[1..])
  }

  /** a is the sum of the bytes and b the sum of each byte times its distance from the end, both modulo 2^16. */
  lemma SumsWrittenOut(window: Bytes)
    ensures Fresh(window).a == Total(seq(|window|, i requires 0 <= i < |window| => window[i])) % 65536
    ensures Fresh(window).b == Total(seq(|window|, i requires 0 <= i < |window| => (|window| - i) * window[i])) % 65536
  {
    ByteSumIsTotal(window);
    WeightedSumIsTotal(window);
  }

  lemma {:induction false} ByteSumIsTotal(w: Bytes)
    ensures ByteSum(w) == Total(seq(|w|, i requires 0 <= i < |w| => w[i]))
  {
    if w != [] {
      ByteSumIsTotal(w[1..]);
      var terms := seq(|w|, i requires 0 <= i < |w| => w[i] as int);
      assert terms[1..] == seq(|w[1..]|, i requires 0 <= i < |w[1..]| => w[1..][i] as int);
    }
  }

  lemma {:induction false} WeightedSumIsTotal(w: Bytes)
    ensures WeightedSum(w) == Total(seq(|w|, i requires 0 <= i < |w| => (|w| - i) * w[i]))
  {
    if w != [] {
      WeightedSumIsTotal(w[1..]);
      var terms := seq(|w|, i requires 0 <= i < |w| => (|w| - i) * w[i]);
      assert terms[1..] == seq(|w[1..]|, i requires 0 <= i < |w[1..]| => (|w[1..]| - i) * w[1..][i]);
    }
  }

  // ---- Sums of a window that grows at its end ----

  lemma {:induction false} ByteSumSnoc(w: Bytes, x: Byte)
    ensures ByteSum(w + [x]) == ByteSum(w) + x
  {
    if w == [] {
      assert [] + [x] == [x];
      assert ByteSum([x]) == x + ByteSum([]);
    } else {
      assert (w + [x])[1..] == w[1..] + [x];
      ByteSumSnoc(w[1..], x);
    }
  }

  lemma {:induction false} WeightedSumSnoc(w: Bytes, x: Byte)
    ensures WeightedSum(w + [x]) == WeightedSum(w) + ByteSum(w) + x
  {
    if w == [] {
      assert [] + [x] == [x];
      assert WeightedSum([x]) == 1 * x + WeightedSum([]);
    } else {
      assert (w + [x])[1..] == w[1..] + [x];
      WeightedSumSnoc(w[1..], x);
      assert (|w| + 1) * w[0] == |w| * w[0] + w[0];
    }
  }

  // ---- Wraparound is harmless: 2^16 divides 2^32 ----

  lemma WrapKeepsResidue(x: int)
    ensures Wrap(x) % MODULUS == x % MODULUS
  {
    var q := x / UINT32;
    assert x == Wrap(x) + MODULUS * (MODULUS * q);
    Congruent(Wrap(x), x, MODULUS * q);
  }

  lemma Congruent(x: int, y: int, k: int)
    requires y == x + MODULUS * k
    ensures x % MODULUS == y % MODULUS
  {
  }

  lemma SumCongruent(x: int, y: int, z: int)
    requires x % MODULUS == y % MODULUS
    ensures (x + z) % MODULUS == (y + z) % MODULUS
    ensures (z - x) % MODULUS == (z - y) % MODULUS
  {
    var k := y / MODULUS - x / MODULUS;
    assert y == x + MODULUS * k;
    Congruent(x + z, y + z, k);
    Congruent(z - y, z - x, k);
  }

  lemma ProductCongruent(x: int, y: int, z: int)
    requires x % MODULUS == y % MODULUS
    ensures (x * z) % MODULUS == (y * z) % MODULUS
  {
    var k := y / MODULUS - x / MODULUS;
    assert y == x + MODULUS * k;
    assert y * z == x * z + MODULUS * (k * z);
    Congruent(x * z, y * z, k * z);
  }

  /** Rolling one byte on is the same as starting over on the shifted window. */
  lemma RollIsFresh(w: Bytes, inn: Byte)
    requires w != []
    ensures Roll(Fresh(w), w[0], inn) == Fresh(w[1..] + [inn])
  {
    var next := w[1..] + [inn];
    var out := w[0];
    ByteSumSnoc(w[1..], inn);
    WeightedSumSnoc(w[1..], inn);
    RollFirst(ByteSum(w), out, inn);
    RollSecond(WeightedSum(w), |w|, out, ByteSum(next));
    assert WeightedSum(next) == WeightedSum(w) - |w| * out + ByteSum(next);
  }

  lemma RollFirst(s: int, out: int, inn: int)
    ensures Wrap(Wrap(s % MODULUS - out) + inn) % MODULUS == (s - out + inn) % MODULUS
  {
    WrapKeepsResidue(s % MODULUS - out);
    WrapKeepsResidue(Wrap(s % MODULUS - out) + inn);
    SumCongruent(Wrap(s % MODULUS - out), s % MODULUS - out, inn);
    SumCongruent(s % MODULUS, s, inn - out);
  }

  lemma RollSecond(t: int, n: int, out: int, s: int)
    ensures Wrap(Wrap(t % MODULUS - Wrap((n % UINT32) * out)) + s % MODULUS) % MODULUS
         == (t - n * out + s) % MODULUS
  {
    var p := Wrap((n % UINT32) * out);
    ProductResidue(n, out);
    var x := t % MODULUS - p;
    assert x % MODULUS == (t - n * out) % MODULUS by {
      SumCongruent(p, n * out, t % MODULUS);
      SumCongruent(t % MODULUS, t, - n * out);
    }
    SumResidue(x, t - n * out, s);
  }

  lemma ProductResidue(n: int, out: int)
    ensures Wrap((n % UINT32) * out) % MODULUS == (n * out) % MODULUS
  {
    WrapKeepsResidue(n);
    ProductCongruent(n % UINT32, n, out);
    WrapKeepsResidue((n % UINT32) * out);
  }

  lemma SumResidue(x: int, y: int, s: int)
    requires x % MODULUS == y % MODULUS
    ensures Wrap(Wrap(x) + s % MODULUS) % MODULUS == (y + s) % MODULUS
  {
    WrapKeepsResidue(x);
    SumCongruent(Wrap(x), y, s % MODULUS);
    SumCongruent(s % MODULUS, s, y);
    WrapKeepsResidue(Wrap(x) + s % MODULUS);
  }

  /** An empty window lets out the byte it lets in. */
  lemma RollEmpty(x: Byte)
    ensures Roll(Fresh([]), x, x) == Fresh([])
  {
    assert Fresh([]) == WeakChecksum(0, 0, 0);
    RollFirst(0, x, x);
    RollSecond(0, 0, x, 0);
  }

  /** After any number of rolls the state is the checksum of the window then covered. */
  lemma {:induction false} RollAlongIsFresh(data: Bytes, from: nat, size: nat, k: nat)
    requires from + size + k <= |data|
    ensures RollAlong(Fresh(data[from..from + size]), data, from, size, k) == Fresh(data[from + k..from + k + size])
  {
    hide Roll, Fresh;
    if k == 0 {
    } else if size == 0 {
      RollAlongIsFresh(data, from, size, k - 1);
      assert data[from + k - 1..from + k - 1 + size] == [];
      assert data[from + k..from + k + size] == [];
      RollEmpty(data[from + k - 1]);
    } else {
      RollAlongIsFresh(data, from, size, k - 1);
      var w := data[from + k - 1..from + k - 1 + size];
      RollIsFresh(w, data[from + size + k - 1]);
      assert w[1..] + [data[from + size + k - 1]] == data[from + k..from + k + size];
    }
  }

  /** Both accumulators stay below 2^16, for a fresh state and after every roll. */
  predicate InRange(w: WeakChecksum) {
    0 <= w.a < MODULUS && 0 <= w.b < MODULUS
  }

  lemma RollStaysInRange(w: WeakChecksum, out: Byte, inn: Byte)
    ensures InRange(Roll(w, out, inn))
  {
  }

  /** The 32-bit value determines both accumulators; its addition never wraps. */
  lemma SumInjective(v: WeakChecksum, w: WeakChecksum)
    requires InRange(v) && InRange(w)
    ensures Sum(v) == v.a + v.b * MODULUS
    ensures Sum(v) == Sum(w) <==> v.a == w.a && v.b == w.b
  {
  }

  // ---- newWeakChecksum, as the source's loop ----

  method NewWeakChecksum(window: Bytes) returns (w: WeakChecksum)
    ensures w == Fresh(window)
  {
    var a, b := 0, 0;
    var n := Wrap(|window|);
    var i := 0;
    while i < |window|
      invariant 0 <= i <= |window|
      invariant (a + ByteSum(window[i..])) % MODULUS == ByteSum(window) % MODULUS
      invariant (b + WeightedSum(window[i..])) % MODULUS == WeightedSum(window) % MODULUS
    {
      var c := window[i];
      assert window[i..][1..] == window[i + 1..];
      NewStep(a, ByteSum(window[i..]), c, ByteSum(window[i + 1..]));
      WeightStep(b, WeightedSum(window[i..]), |window|, i, c, WeightedSum(window[i + 1..]));
      a := Wrap(a + c);
      b := Wrap(b + Wrap(Wrap(n - Wrap(i)) * c));
      i := i + 1;
    }
    assert window[i..] == [];
    w := WeakChecksum(a % MODULUS, b % MODULUS, n);
  }

  lemma NewStep(a: int, before: int, c: int, after: int)
    requires before == c + after
    ensures (Wrap(a + c) + after) % MODULUS == (a + before) % MODULUS
  {
    WrapKeepsResidue(a + c);
    SumCongruent(Wrap(a + c), a + c, after);
  }

  lemma WeightStep(b: int, before: int, len: int, i: int, c: int, after: int)
    requires before == (len - i) * c + after
    ensures (Wrap(b + Wrap(Wrap(Wrap(len) - Wrap(i)) * c)) + after) % MODULUS == (b + before) % MODULUS
  {
    var d := Wrap(len) - Wrap(i);
    WrapKeepsResidue(len);
    WrapKeepsResidue(i);
    SumCongruent(Wrap(len), len, - Wrap(i));
    SumCongruent(Wrap(i), i, len);
    WrapKeepsResidue(d);
    ProductCongruent(Wrap(d), len - i, c);
    WrapKeepsResidue(Wrap(d) * c);
    var p := Wrap(Wrap(d) * c);
    SumCongruent(p, (len - i) * c, b);
    NewStep(b, p + after, p, after);
    SumCongruent(b + p, b + (len - i) * c, after);
  }
}
