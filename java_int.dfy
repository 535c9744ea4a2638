/** Java `int` arithmetic: 32-bit two's-complement values whose addition wraps. */
module JavaInts {
  const MIN_INT: int := -0x8000_0000
  const MAX_INT: int := 0x7fff_ffff

  predicate InInt32(x: int) {
    MIN_INT <= x <= MAX_INT
  }

  predicate AllInInt32(xs: seq<int>) {
    forall k :: 0 <= k < |xs| ==> InInt32(xs[k])
  }

  /** Java `int` addition: the exact sum wrapped into the 32-bit range. */
  function Int32Add(a: int, b: int): (r: int)
    requires InInt32(a) && InInt32(b)
    ensures InInt32(r)
    ensures (r - (a + b)) % 0x1_0000_0000 == 0
    ensures InInt32(a + b) ==> r == a + b
  {
    (a + b - MIN_INT) % 0x1_0000_0000 + MIN_INT
  }

  /** The exact sum of a sequence of integers. */
  function Sum(xs: seq<int>): (r: int)
    ensures (forall k :: 0 <= k < |xs| ==> xs[k] >= 0) ==> r >= 0
  {
    if xs == [] then 0 else xs[0] + Sum(xs[1..])
  }

  /** Two multiples of 2^32 add up to a multiple of 2^32. */
  lemma MultiplesAdd(a: int, b: int)
    requires a % 0x1_0000_0000 == 0 && b % 0x1_0000_0000 == 0
    ensures (a + b) % 0x1_0000_0000 == 0
  {
    var m := 0x1_0000_0000;
    assert a == (a / m) * m && b == (b / m) * m;
    assert a + b == (a / m + b / m) * m;
  }

  /** Adding a sequence of Java ints to a running Java int, one `+` at a time. The
      result agrees with the exact sum modulo 2^32, and equals it when the base and
      the addends are non-negative and the exact sum fits. */
  function Int32Sum(base: int, xs: seq<int>): (r: int)
    requires InInt32(base) && AllInInt32(xs)
    ensures InInt32(r)
    ensures (r - (base + Sum(xs))) % 0x1_0000_0000 == 0
    ensures 0 <= base && (forall k :: 0 <= k < |xs| ==> xs[k] >= 0) && base + Sum(xs) <= MAX_INT ==>
              r == base + Sum(xs)
    decreases |xs|
  {
    if xs == [] then base
    else
      var next := Int32Add(base, xs[0]);
      var r := Int32Sum(next, xs[1..]);
      MultiplesAdd(r - (next + Sum(xs[1..])), next - (base + xs[0]));
      r
  }
}
