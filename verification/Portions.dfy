/** Dividing an amount among parts of a whole, each share rounded down. */
module Portions {
  import opened Arithmetic

  const PERCENT_100: nat := 10000

  function Total(s: seq<nat>): (r: nat)
  {
    if s == [] then 0 else Total(s[..|s| - 1]) + s[|s| - 1]
  }

  /** Each entry's share of `amount`, rounded down. */
  function Shares(amount: nat, parts: seq<nat>, whole: nat): (r: seq<nat>)
    requires whole > 0
    ensures |r| == |parts| && forall i :: 0 <= i < |r| ==> r[i] == amount * parts[i] / whole
  {
    seq(|parts|, i requires 0 <= i < |parts| => amount * parts[i] / whole)
  }

  lemma {:induction false} FloorAdds(a: nat, b: nat, d: nat)
    requires d > 0
    ensures a / d + b / d <= (a + b) / d
  {
    FloorAtLeast(a, d, a / d);
    FloorAtLeast(b, d, b / d);
    Distribute(a / d, b / d, d);
    FloorAtLeast(a + b, d, a / d + b / d);
  }

  /** Shares of parts that do not exceed the whole do not exceed the amount. */
  lemma {:induction false} SharesWithin(amount: nat, parts: seq<nat>, whole: nat)
    requires whole > 0
    ensures Total(Shares(amount, parts, whole)) <= amount * Total(parts) / whole
    ensures Total(parts) <= whole ==> Total(Shares(amount, parts, whole)) <= amount
    decreases |parts|
  {
    SharesBelow(amount, parts, whole);
    if Total(parts) <= whole {
      MulMono(Total(parts), whole, amount);
      assert Total(parts) * amount == amount * Total(parts) && whole * amount == amount * whole;
      FloorAtMost(amount * Total(parts), whole, amount);
    }
  }

  lemma {:induction false} SharesBelow(amount: nat, parts: seq<nat>, whole: nat)
    requires whole > 0
    ensures Total(Shares(amount, parts, whole)) <= amount * Total(parts) / whole
    decreases |parts|
  {
    if parts == [] {
      assert amount * 0 == 0;
    } else {
      var n := |parts| - 1;
      var init := parts[..n];
      SharesBelow(amount, init, whole);
      assert Shares(amount, parts, whole)[..n] == Shares(amount, init, whole);
      FloorAdds(amount * Total(init), amount * parts[n], whole);
      assert amount * Total(init) + amount * parts[n] == amount * (Total(init) + parts[n]);
    }
  }

  lemma {:induction false} TotalAppend(s: seq<nat>, v: nat)
    ensures Total(s + [v]) == Total(s) + v
  {
    assert (s + [v])[..|s|] == s;
  }

  lemma {:induction false} TotalUpdate(s: seq<nat>, k: nat, v: nat)
    requires k < |s|
    ensures s[k] <= Total(s)
    ensures Total(s[k := v]) == Total(s) - s[k] + v
  {
    var n := |s| - 1;
    if k == n {
      assert s[k := v][..n] == s[..n];
    } else {
      TotalUpdate(s[..n], k, v);
      assert s[k := v][..n] == s[..n][k := v];
    }
  }

  lemma {:induction false} TotalPrefix(s: seq<nat>, k: nat)
    requires k <= |s|
    ensures Total(s[..k]) <= Total(s)
  {
    if k < |s| {
      TotalPrefix(s[..|s| - 1], k);
      assert s[..|s| - 1][..k] == s[..k];
    } else {
      assert s[..k] == s;
    }
  }

  /** A part of n, rounded down. */
  function Part(n: nat, part: nat, whole: nat): (r: nat)
    requires whole > 0
  {
    Div(n * part, whole)
  }

  lemma {:induction false} PartIs(n: nat, part: nat, whole: nat)
    requires whole > 0
    ensures Part(n, part, whole) * whole <= n * part < (Part(n, part, whole) + 1) * whole
  {
    FloorAtLeast(n * part, whole, Part(n, part, whole));
    FloorAtLeast(n * part, whole, Part(n, part, whole) + 1);
  }

  lemma {:induction false} PartWithin(n: nat, part: nat, whole: nat)
    requires whole > 0 && part <= whole
    ensures Part(n, part, whole) <= n
  {
    MulMono(part, whole, n);
    assert part * n == n * part && whole * n == n * whole;
    FloorAtMost(n * part, whole, n);
  }

  /**
   A comment's reward by receiver: each curator, each beneficiary, the
   author's stake and TSD; and what it claims of its fund.
   */
  datatype Payout = Payout(curators: seq<nat>, beneficiaries: seq<nat>, score: nat, tsd: nat, claimed: nat)

  lemma {:induction false} TotalMono(s: seq<nat>, t: seq<nat>)
    requires |s| == |t| && forall i :: 0 <= i < |s| ==> s[i] <= t[i]
    ensures Total(s) <= Total(t)
  {
    if s != [] {
      TotalMono(s[..|s| - 1], t[..|t| - 1]);
    }
  }
}
