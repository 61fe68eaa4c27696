/**
 The curves that turn the power of votes into claims and curation weights, and the proof that each of them
 rises.  All are on natural numbers; a result of 2^64 or more is refused where a weight is needed.
 */
module RewardCurves {
  import opened Arithmetic

  datatype Curve =
    | Quadratic(s: nat)
    | QuadraticCuration(alpha: nat)
    | Linear
    | SquareRoot
    | Ratio(s: nat)               // the weight of a vote before the curves were chosen per fund

  /** The place of the highest one in the binary form of x. */
  function Msb(x: nat): (n: nat)
    requires x > 0
  {
    if x == 1 then 0 else Msb(x / 2) + 1
  }

  lemma {:induction false} MsbBounds(x: nat)
    requires x > 0
    ensures Power2(Msb(x)) <= x < 2 * Power2(Msb(x))
  {
    if x > 1 {
      MsbBounds(x / 2);
    }
  }

  lemma {:induction false} MsbMono(x: nat, y: nat)
    requires 0 < x <= y
    ensures Msb(x) <= Msb(y)
  {
    MsbBounds(x);
    MsbBounds(y);
    if Msb(y) < Msb(x) {
      Power2Mono(Msb(y), Msb(x));
    }
  }

  function ShiftRight(v: nat, k: nat): (r: nat)
  {
    Div(v, Power2(k))
  }

  lemma {:induction false} ShiftBelow(v: nat, k: nat, z: nat)
    requires v < Power2(k + z)
    ensures ShiftRight(v, k) < Power2(z)
  {
    Power2Add(z, k);
    FloorAtLeast(v, Power2(k), Power2(z));
  }

  lemma {:induction false} ShiftMono(v: nat, w: nat, k: nat)
    requires v <= w
    ensures ShiftRight(v, k) <= ShiftRight(w, k)
  {
    FloorMono(v, w, Power2(k));
  }

  /**
   A square root from the binary form: half the exponent, and the leading digits of exponent and mantissa
   shifted down by one.  The parts have no digit in common, so joining them is adding them.
   */
  function ApproxSqrt(x: nat): (r: nat)
  {
    if x == 0 then 0
    else
      var n := Msb(x);
      var z := n / 2;
      MsbBounds(x);
      var mantissa := x - Power2(n);
      var high := if n % 2 == 1 then Power2(z) else 0;
      var low := ShiftRight(mantissa, n - z);
      Power2(z) + (high + low) / 2
  }

  /**
   The root of a number with even exponent 2z lies in the lower half of [2^z,
   2^(z+1)), that of one with odd exponent in the upper half.
   */
  lemma {:induction false} SqrtRange(x: nat)
    requires x > 0
    ensures var n, r := Msb(x), ApproxSqrt(x);
            var p := Power2(n / 2);
            && p <= r < 2 * p
            && (if n % 2 == 0 then 2 * r <= 3 * p - 1 else 2 * r >= 3 * p - 1)
  {
    var n := Msb(x);
    var z := n / 2;
    hide Msb, ShiftRight, Power2;
    MsbBounds(x);
    var mantissa := x - Power2(n);
    ShiftBelow(mantissa, n - z, z);
  }

  lemma {:induction false} SqrtMono(x: nat, y: nat)
    requires x <= y
    ensures ApproxSqrt(x) <= ApproxSqrt(y)
  {
    if 0 < x {
      MsbMono(x, y);
      if Msb(x) == Msb(y) {
        SqrtSame(x, y);
      } else {
        SqrtHigher(x, y);
      }
    }
  }

  lemma {:induction false} SqrtSame(x: nat, y: nat)
    requires 0 < x <= y && Msb(x) == Msb(y)
    ensures ApproxSqrt(x) <= ApproxSqrt(y)
  {
    hide Msb, ShiftRight, Power2;
    var n := Msb(x);
    MsbBounds(x);
    ShiftMono(x - Power2(n), y - Power2(n), n - n / 2);
  }

  lemma {:induction false} SqrtHigher(x: nat, y: nat)
    requires 0 < x <= y && Msb(x) < Msb(y)
    ensures ApproxSqrt(x) <= ApproxSqrt(y)
  {
    hide Msb, ApproxSqrt, Power2;
    SqrtRange(x);
    SqrtRange(y);
    if Msb(x) / 2 < Msb(y) / 2 {
      Power2Mono(Msb(x) / 2, Msb(y) / 2);
    }
  }

  /** A root that is too small by less than one, or too large by little. */
  predicate Near(x: nat, r: nat)
  {
    x < (r + 1) * (r + 1) && 8 * (r * r) <= 9 * x
  }

  /** The approximate root is never below the root rounded down, and its square at most an eighth too large. */
  lemma {:induction false} SqrtNear(x: nat)
    ensures Near(x, ApproxSqrt(x))
  {
    if x > 0 {
      if Msb(x) % 2 == 0 {
        SqrtEven(x);
      } else {
        SqrtOdd(x);
      }
    }
  }

  lemma {:induction false} SqrtParts(x: nat, n: nat, p: nat, m: nat, low: nat)
    requires x > 0 && n == Msb(x) && p == Power2(n / 2) && x == Power2(n) + m && low == ShiftRight(m, n - n / 2)
    ensures ApproxSqrt(x) == p + ((if n % 2 == 1 then p else 0) + low) / 2
  {
    hide Msb, ShiftRight, Power2;
  }

  lemma {:induction false} SqrtEven(x: nat)
    requires x > 0 && Msb(x) % 2 == 0
    ensures Near(x, ApproxSqrt(x))
  {
    hide Msb, ShiftRight, Power2, Near, ApproxSqrt;
    var n := Msb(x);
    var p, s := Power2(n / 2), Power2(n);
    MsbBounds(x);
    var m := x - s;
    var low := ShiftRight(m, n - n / 2);
    SqrtParts(x, n, p, m, low);
    LeadingPower(n);
    Shifted(m, n - n / 2, p);
    EvenRoot(x, p, s, m, low);
  }

  lemma {:induction false} SqrtOdd(x: nat)
    requires x > 0 && Msb(x) % 2 == 1
    ensures Near(x, ApproxSqrt(x))
  {
    hide Msb, ShiftRight, Power2, Near, ApproxSqrt;
    var n := Msb(x);
    var p, s := Power2(n / 2), Power2(n);
    MsbBounds(x);
    var m := x - s;
    var low := ShiftRight(m, n - n / 2);
    SqrtParts(x, n, p, m, low);
    LeadingPower(n);
    Shifted(m, n - n / 2, 2 * p);
    OddRoot(x, p, s, m, low);
  }

  lemma {:induction false} LeadingPower(n: nat)
    ensures var p := Power2(n / 2);
            && (n % 2 == 0 ==> Power2(n) == p * p && Power2(n - n / 2) == p)
            && (n % 2 == 1 ==> Power2(n) == 2 * (p * p) && Power2(n - n / 2) == 2 * p)
            && (p == 1 || p % 2 == 0)
  {
    var z := n / 2;
    var p := Power2(z);
    Power2Add(z, z);
    if n % 2 == 1 {
      assert n - z == z + 1 && n == 2 * z + 1;
      assert Power2(z + 1) == 2 * p && Power2(2 * z + 1) == 2 * Power2(2 * z);
    }
  }

  lemma {:induction false} Shifted(v: nat, k: nat, w: nat)
    requires w == Power2(k)
    ensures var q := ShiftRight(v, k);
            q * w <= v < (q + 1) * w
  {
    FloorAtLeast(v, w, ShiftRight(v, k));
    FloorAtLeast(v, w, ShiftRight(v, k) + 1);
  }

  lemma {:induction false} SquareOfSum(a: int, b: int)
    ensures (a + b) * (a + b) == a * a + 2 * (a * b) + b * b
  {
  }

  /** p is the leading power, q what the root has beyond it. */
  lemma {:induction false} EvenRoot(x: nat, p: nat, s: nat, m: nat, low: nat)
    requires p > 0 && s == p * p && x == s + m && x < 2 * s && low * p <= m < (low + 1) * p
    ensures Near(x, p + low / 2)
  {
    var q := low / 2;
    MulMono(2 * q, low, p);
    MulMono(low + 1, 2 * q + 2, p);
    TwiceOf(q, p);
    TwiceOf(q + 1, p);
    Distribute(q, 1, p);
    if 2 * q > p {
      MulMono(p, 2 * q, p);
    }
    SquareOfSum(p, q);
    SquareOfSum(p, q + 1);
    Distribute(q, 1, q + 1);
    EvenSlack(p, q);
    assert q * p == p * q && (q + 1) * p == p * (q + 1);
  }

  lemma {:induction false} TwiceOf(q: nat, p: nat)
    ensures (2 * q) * p == 2 * (q * p)
  {
  }

  lemma {:induction false} EvenSlack(p: nat, q: nat)
    requires 2 * q <= p
    ensures 8 * (q * q) <= p * p + 2 * (p * q)
  {
    var d := p - 2 * q;
    SquareOfSum(2 * q, d);
    assert (2 * q) * (2 * q) == 4 * (q * q) && (2 * q) * d == 2 * (q * d);
    assert p * q == 2 * (q * q) + q * d by {
      assert p * q == (2 * q + d) * q;
    }
  }

  lemma {:induction false} OddRoot(x: nat, p: nat, s: nat, m: nat, low: nat)
    requires p > 0 && s == 2 * (p * p) && x == s + m && x < 2 * s && low * (2 * p) <= m < (low + 1) * (2 * p)
    requires p == 1 || p % 2 == 0
    ensures Near(x, p + (p + low) / 2)
  {
    DigitsBelow(p, m, low);
    if p > 1 {
      var q := (p + low) / 2;
      OddBounds(p, m, low, q);
      SquareOfSum(p, q);
      OddUpper(p, q);
      OddLower(p, q);
      assert x < 4 * (p * q) + 4 * p <= (p + q + 1) * (p + q + 1);
      assert 9 * x >= 36 * (p * q);
    }
  }

  lemma {:induction false} DigitsBelow(p: nat, m: nat, low: nat)
    requires m < 2 * (p * p) && low * (2 * p) <= m
    ensures low < p
  {
    assert p * (2 * p) == 2 * (p * p);
    if low >= p {
      MulMono(p, low, 2 * p);
      assert false;
    }
  }

  lemma {:induction false} OddBounds(p: nat, m: nat, low: nat, q: nat)
    requires low * (2 * p) <= m < (low + 1) * (2 * p) && p % 2 == 0 && low < p && q == (p + low) / 2
    ensures p <= 2 * q && q <= p && 4 * (p * q) <= 2 * (p * p) + m < 4 * (p * q) + 4 * p
  {
    MulMono(2 * q - p, low, 2 * p);
    MulMono(low + 1, 2 * q + 2 - p, 2 * p);
    Expand(2 * q - p, q, p);
    Expand(2 * q + 2 - p, q + 1, p);
    Distribute(q, 1, p);
    assert q * p == p * q && (q + 1) * p == p * (q + 1);
  }

  lemma {:induction false} Expand(u: nat, q: nat, p: nat)
    requires u + p == 2 * q
    ensures u * (2 * p) == 4 * (p * q) - 2 * (p * p)
  {
    assert u * (2 * p) == 2 * (u * p);
    assert (u + p) * p == u * p + p * p;
    assert (2 * q) * p == 2 * (p * q);
  }

  lemma {:induction false} OddUpper(p: nat, q: nat)
    requires p <= 2 * q && q <= p
    ensures 2 * (p * p) + 2 * (q * q) <= 5 * (p * q)
  {
    var d, e := p - q, 2 * q - p;
    assert q == d + e && p == 2 * d + e;
    assert p * p == 4 * (d * d) + 4 * (d * e) + e * e;
    assert q * q == d * d + 2 * (d * e) + e * e;
    assert p * q == 2 * (d * d) + 3 * (d * e) + e * e;
    assert d * e >= 0 && e * e >= 0;
  }

  lemma {:induction false} OddLower(p: nat, q: nat)
    ensures 4 * (p * q) + 4 * p <= (p + q + 1) * (p + q + 1)
  {
    var d := p - (q + 1);
    SquareOfSum(q + 1, d);
    SquareOfSum(p, q + 1);
    assert p * (q + 1) == (q + 1) * (q + 1) + d * (q + 1);
    assert d * (q + 1) == (q + 1) * d;
    assert p * (q + 1) == p * q + p;
    assert d * d >= 0;
  }

  function Evaluate(curve: Curve, r: nat): (v: nat)
    requires curve.QuadraticCuration? ==> curve.alpha > 0
    requires curve.Ratio? ==> curve.s > 0
  {
    match curve
    case Quadratic(s) => (r + s) * (r + s) - s * s
    case QuadraticCuration(alpha) => Div(r * TWO_64, 2 * alpha + r)
    case Linear => r
    case SquareRoot => ApproxSqrt(r)
    case Ratio(s) => Div((TWO_64 - 1) * r, 2 * s + r)
  }

  /** What each curve makes of the power of votes. */
  lemma {:induction false} CurveIs(curve: Curve, r: nat)
    requires curve.QuadraticCuration? ==> curve.alpha > 0
    requires curve.Ratio? ==> curve.s > 0
    ensures var v := Evaluate(curve, r);
            match curve
            case Quadratic(s) => v == r * (r + 2 * s)
            case QuadraticCuration(alpha) => v * (2 * alpha + r) <= r * TWO_64 < (v + 1) * (2 * alpha + r)
            case Linear => v == r
            case SquareRoot => Near(r, v)
            case Ratio(s) => v * (2 * s + r) <= r * (TWO_64 - 1) < (v + 1) * (2 * s + r)
  {
    hide ApproxSqrt;
    var v := Evaluate(curve, r);
    match curve
    case Quadratic(s) =>
    case QuadraticCuration(alpha) =>
      FloorAtLeast(r * TWO_64, 2 * alpha + r, v);
      FloorAtLeast(r * TWO_64, 2 * alpha + r, v + 1);
    case Linear =>
    case SquareRoot => SqrtNear(r);
    case Ratio(s) =>
      FloorAtLeast((TWO_64 - 1) * r, 2 * s + r, v);
      FloorAtLeast((TWO_64 - 1) * r, 2 * s + r, v + 1);
  }

  /** b * r / (k + r) rises with r and stays at most b. */
  lemma {:induction false} RatioMono(b: nat, k: nat, x: nat, y: nat)
    requires k > 0 && x <= y
    ensures b * x / (k + x) <= b * y / (k + y) <= b
    ensures b > 0 ==> b * y / (k + y) < b
  {
    RatioBelow(b, k, x);
    RatioBelow(b, k, y);
    var q := b * x / (k + x);
    FloorAtLeast(b * x, k + x, q);
    MulMono(q, b, y - x);
    assert q * (k + y) == q * (k + x) + q * (y - x);
    assert b * y == b * x + b * (y - x);
    FloorAtLeast(b * y, k + y, q);
  }

  lemma {:induction false} RatioBelow(b: nat, k: nat, x: nat)
    requires k > 0
    ensures b * x / (k + x) <= b && (b > 0 ==> b * x / (k + x) < b)
  {
    assert b * (k + x) == b * k + b * x;
    assert b > 0 ==> b * k > 0;
    FloorAtLeast(b * x, k + x, b);
    FloorAtLeast(b * x, k + x, b + 1);
    Distribute(b, 1, k + x);
  }

  lemma {:induction false} SquareMono(s: nat, x: nat, y: nat)
    requires x <= y
    ensures (x + s) * (x + s) <= (y + s) * (y + s)
  {
    MulMono(x + s, y + s, x + s);
    MulMono(x + s, y + s, y + s);
    assert (x + s) * (y + s) == (y + s) * (x + s);
  }

  /** Every curve rises, and the two that are fractions of a limit stay below 2^64. */
  lemma {:induction false} CurveRises(curve: Curve, x: nat, y: nat)
    requires curve.QuadraticCuration? ==> curve.alpha > 0
    requires curve.Ratio? ==> curve.s > 0
    requires x <= y
    ensures Evaluate(curve, x) <= Evaluate(curve, y)
    ensures curve.QuadraticCuration? || curve.Ratio? ==> Evaluate(curve, y) < TWO_64
    ensures curve.SquareRoot? && y < TWO_64 * TWO_64 ==> Evaluate(curve, y) < TWO_64
  {
    match curve {
      case Quadratic(s) => SquareMono(s, x, y);
      case QuadraticCuration(alpha) =>
        RatioMono(TWO_64, 2 * alpha, x, y);
        assert x * TWO_64 == TWO_64 * x && y * TWO_64 == TWO_64 * y;
      case Linear =>
      case SquareRoot =>
        SqrtMono(x, y);
        if 0 < y < TWO_64 * TWO_64 {
          SqrtBelow(y);
        }
      case Ratio(s) => RatioMono(TWO_64 - 1, 2 * s, x, y);
    }
  }

  lemma {:induction false} SqrtBelow(y: nat)
    requires 0 < y < TWO_64 * TWO_64
    ensures ApproxSqrt(y) < TWO_64
  {
    SqrtRange(y);
    MsbBounds(y);
    Power2Is();
    Power2Add(1, 63);
    Power2Small();
    if Msb(y) >= 128 {
      Power2Mono(128, Msb(y));
    }
    Power2Mono(Msb(y) / 2, 63);
  }
}
