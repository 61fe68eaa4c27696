/** Floor division and powers of two on natural numbers. */
module Arithmetic {

  const TWO_64: nat := 0x1_0000_0000_0000_0000
  const TWO_127: nat := 0x8000_0000_0000_0000_0000_0000_0000_0000
  const TWO_128: nat := 0x1_0000_0000_0000_0000_0000_0000_0000_0000

  function Div(n: nat, d: nat): (q: nat)
    requires d > 0
  {
    n / d
  }

  lemma {:induction false} MulMono(a: nat, b: nat, d: nat)
    requires a <= b
    ensures a * d <= b * d
  {
    if a < b {
      MulMono(a, b - 1, d);
      assert b * d == (b - 1) * d + d;
    }
  }

  lemma {:induction false} DivMod(n: nat, d: nat)
    requires d > 0
    ensures n == n / d * d + n % d
  {
  }

  /** The floor is the greatest multiple that fits. */
  lemma {:induction false} FloorAtLeast(n: nat, d: nat, q: nat)
    requires d > 0
    ensures q <= n / d <==> q * d <= n
  {
    var p := n / d;
    DivMod(n, d);
    if q <= p {
      MulMono(q, p, d);
    } else {
      MulMono(p + 1, q, d);
      Distribute(p, 1, d);
    }
  }

  lemma {:induction false} Distribute(a: nat, b: nat, d: nat)
    ensures (a + b) * d == a * d + b * d
  {
  }

  lemma {:induction false} FloorShift(n: nat, k: nat, d: nat)
    requires d > 0
    ensures (n + k * d) / d == n / d + k
  {
    var p := n / d;
    DivMod(n, d);
    Distribute(p, k, d);
    Distribute(p + k, 1, d);
    assert 0 <= k * d;
    FloorAtLeast(n + k * d, d, p + k);
    FloorAtLeast(n + k * d, d, p + k + 1);
  }

  lemma {:induction false} FloorMono(m: nat, n: nat, d: nat)
    requires d > 0 && m <= n
    ensures m / d <= n / d
  {
    FloorAtLeast(m, d, m / d);
    FloorAtLeast(n, d, m / d);
  }

  /** A multiple that does not fit is above the floor. */
  lemma {:induction false} FloorAtMost(n: nat, d: nat, q: nat)
    requires d > 0 && n <= q * d
    ensures n / d <= q
  {
    FloorAtLeast(n, d, q + 1);
    Distribute(q, 1, d);
  }

  function Power2(k: nat): (r: nat)
    ensures r > 0
  {
    if k == 0 then 1 else 2 * Power2(k - 1)
  }

  lemma {:induction false} Power2Add(a: nat, b: nat)
    ensures Power2(a + b) == Power2(a) * Power2(b)
  {
    if a > 0 {
      Power2Add(a - 1, b);
    }
  }

  lemma {:induction false} Power2Mono(a: nat, b: nat)
    requires a <= b
    ensures Power2(a) <= Power2(b) && (a < b ==> 2 * Power2(a) <= Power2(b))
  {
    if a < b {
      Power2Mono(a, b - 1);
    }
  }

  lemma {:induction false} Power2Is()
    ensures Power2(64) == TWO_64 && Power2(127) == TWO_127 && Power2(128) == TWO_128
  {
    hide Power2;
    Power2Small();
    Power2Add(1, 127);
    Power2Add(8, 8);
    Power2Add(16, 16);
    Power2Add(32, 32);
    Power2Add(64, 64);
  }

  lemma {:induction false} Power2Small()
    ensures Power2(1) == 2 && Power2(8) == 256
  {
  }
}
