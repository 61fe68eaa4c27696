/**
 What the chain keeps derived from stakes, proxies and vote ballots, stated from scratch, and what
 one walk up a proxy chain adds to it.
 */
module VoteTallies {
  import opened Common
  import opened Sums
  import opened ProxyForest

  type Arrays = map<Name, seq<int>>
  type Ballots = map<Name, set<Name>>  // the witnesses each account votes for

  /** Slot i of an account's array is the stake exactly i + 1 hops below it. */
  ghost predicate ArraysOk(d: nat, proxy: Proxies, stake: map<Name, int>, arrays: Arrays)
  {
    forall b :: ArrayOk(d, proxy, stake, arrays, b)
  }

  ghost predicate ArrayOk(d: nat, proxy: Proxies, stake: map<Name, int>, arrays: Arrays, b: Name)
  {
    b in stake && b in arrays ==>
      && |arrays[b]| == d
      && forall i :: 0 <= i < d ==> arrays[b][i] == Below(proxy, stake, b, i + 1)
  }

  ghost predicate Votes(ballots: Ballots, a: Name, w: Name)
  {
    a in ballots && w in ballots[a]
  }

  /** The weight of every account that votes for w. */
  ghost function VoterWeights(d: nat, proxy: Proxies, stake: map<Name, int>, ballots: Ballots, w: Name): map<Name, int>
  {
    map a | a in stake && Votes(ballots, a, w) :: Within(proxy, stake, a, d)
  }

  ghost function Tally(d: nat, proxy: Proxies, stake: map<Name, int>, ballots: Ballots, w: Name): int
  {
    Sum(VoterWeights(d, proxy, stake, ballots, w))
  }

  ghost function Prefix(delta: seq<int>, n: int): int
    requires n < |delta|
    decreases n + 1
  {
    if n < 0 then 0 else delta[n] + Prefix(delta, n - 1)
  }

  /** What the walk from `a`, already `at` hops above its start, adds to slot i of b. */
  ghost function Gain(d: nat, proxy: Proxies, a: Name, delta: seq<int>, at: nat, b: Name, i: nat): int
    requires |delta| == d + 1 && i < d
    decreases d - at
  {
    if a !in proxy || at >= d then 0
    else
      (if proxy[a] == b && at <= i then delta[i - at] else 0) + Gain(d, proxy, proxy[a], delta, at + 1, b, i)
  }

  /** The root at which the walk ends within the depth limit, and its height. */
  ghost function Top(d: nat, proxy: Proxies, a: Name, at: nat): (r: Option<(Name, nat)>)
    ensures r.Some? && at <= d ==> at <= r.value.1 <= d && r.value.0 !in proxy
    decreases d - at
  {
    if a !in proxy then Some((a, at))
    else if at >= d then None
    else Top(d, proxy, proxy[a], at + 1)
  }

  lemma {:induction false} TopIsUp(d: nat, proxy: Proxies, a: Name, at: nat, r: Name, n: nat)
    requires at <= d
    ensures Top(d, proxy, a, at) == Some((r, at + n)) <==> Up(proxy, a, n) == Some(r) && r !in proxy && at + n <= d
    decreases d - at
  {
    if a in proxy && at < d {
      if n > 0 {
        TopIsUp(d, proxy, proxy[a], at + 1, r, n - 1);
      }
    }
  }

  lemma {:induction false} GainMiss(d: nat, proxy: Proxies, a: Name, delta: seq<int>, at: nat, b: Name, i: nat)
    requires |delta| == d + 1 && i < d
    requires forall n: nat :: 1 <= n <= i + 1 - at ==> Up(proxy, a, n) != Some(b)
    ensures Gain(d, proxy, a, delta, at, b, i) == 0
    decreases d - at
  {
    if a in proxy && at < d {
      assert Up(proxy, a, 1) == Up(proxy, proxy[a], 0);
      forall n: nat | 1 <= n <= i - at ensures Up(proxy, proxy[a], n) != Some(b) {
        assert Up(proxy, a, n + 1) == Up(proxy, proxy[a], n);
      }
      GainMiss(d, proxy, proxy[a], delta, at + 1, b, i);
    }
  }

  lemma {:induction false} GainHit(d: nat, proxy: Proxies, a: Name, delta: seq<int>, at: nat, b: Name, i: nat, n: nat)
    requires Acyclic(proxy) && |delta| == d + 1 && i < d
    requires 1 <= n && Up(proxy, a, n) == Some(b) && at + n - 1 <= i
    ensures Gain(d, proxy, a, delta, at, b, i) == delta[i - (at + n - 1)]
    decreases d - at
  {
    assert a in proxy && at < d;
    if n == 1 {
      assert proxy[a] == b by {
        assert Up(proxy, a, 1) == Up(proxy, proxy[a], 0);
      }
      GainMiss(d, proxy, b, delta, at + 1, b, i);
    } else {
      assert Up(proxy, proxy[a], n - 1) == Some(b);
      assert proxy[a] != b;
      GainHit(d, proxy, proxy[a], delta, at + 1, b, i, n - 1);
    }
  }

  /** `after` is `before` with the walk's gains added. */
  ghost predicate Walked(d: nat, proxy: Proxies, a: Name, delta: seq<int>, at: nat, before: Arrays, after: Arrays)
    requires |delta| == d + 1
  {
    && (forall b :: b in after <==> b in before)
    && forall b :: b in before ==>
         && |before[b]| == d == |after[b]|
         && forall i :: 0 <= i < d ==> after[b][i] == before[b][i] + Gain(d, proxy, a, delta, at, b, i)
  }

  /* ---- A change of stake ---- */

  ghost function StakeDelta(d: nat, delta: int): (r: seq<int>)
    ensures |r| == d + 1 && r[0] == delta && forall i :: 0 < i <= d ==> r[i] == 0
  {
    [delta] + seq(d, i => 0)
  }

  lemma {:induction false} PrefixOfStakeDelta(d: nat, delta: int, n: nat)
    requires n <= d
    ensures Prefix(StakeDelta(d, delta), n) == delta
    decreases n
  {
    if n == 0 {
      assert Prefix(StakeDelta(d, delta), -1) == 0;
    } else {
      PrefixOfStakeDelta(d, delta, n - 1);
    }
  }

  lemma {:induction false} StakeGain(d: nat, proxy: Proxies, x: Name, delta: int, b: Name, i: nat)
    requires Acyclic(proxy) && i < d
    ensures Gain(d, proxy, x, StakeDelta(d, delta), 0, b, i) == if Up(proxy, x, i + 1) == Some(b) then delta else 0
  {
    if n: nat :| 1 <= n <= i + 1 && Up(proxy, x, n) == Some(b) {
      GainHit(d, proxy, x, StakeDelta(d, delta), 0, b, i, n);
      if Up(proxy, x, i + 1) == Some(b) {
        OneHeight(proxy, x, n, i + 1);
      }
    } else {
      GainMiss(d, proxy, x, StakeDelta(d, delta), 0, b, i);
    }
  }

  /** The walk after a change of stake leaves the arrays right. */
  lemma {:induction false} StakeArrays(
    d: nat, proxy: Proxies, stake: map<Name, int>, x: Name, delta: int, before: Arrays, after: Arrays)
    requires Acyclic(proxy) && x in stake
    requires ArraysOk(d, proxy, stake, before)
    requires Walked(d, proxy, x, StakeDelta(d, delta), 0, before, after)
    ensures ArraysOk(d, proxy, stake[x := stake[x] + delta], after)
  {
    hide Below, Gain;
    var stake' := stake[x := stake[x] + delta];
    forall b ensures ArrayOk(d, proxy, stake', after, b) {
      assert ArrayOk(d, proxy, stake, before, b);
      forall i: nat | i < d
        ensures Below(proxy, stake', b, i + 1)
          == Below(proxy, stake, b, i + 1) + Gain(d, proxy, x, StakeDelta(d, delta), 0, b, i)
      {
        StakeGain(d, proxy, x, delta, b, i);
        StakeChange(proxy, stake, x, delta, b, i + 1);
      }
    }
  }

  /** A root's weight moves with x's stake exactly when the walk from x tops out there. */
  lemma {:induction false} StakeWithin(proxy: Proxies, stake: map<Name, int>, x: Name, delta: int, b: Name, d: nat)
    requires x in stake && b !in proxy
    ensures Within(proxy, stake[x := stake[x] + delta], b, d) == Within(proxy, stake, b, d) +
            if exists n: nat :: n <= d && Up(proxy, x, n) == Some(b) then delta else 0
    decreases d
  {
    StakeChange(proxy, stake, x, delta, b, d);
    if d > 0 {
      StakeWithin(proxy, stake, x, delta, b, d - 1);
      if n: nat :| n < d && Up(proxy, x, n) == Some(b) {
        UpUp(proxy, x, n, d - n);
      }
    }
  }

  /** Two tallies whose voters weigh the same but for one of them. */
  lemma {:induction false} TallyChange(
    d: nat, proxy: Proxies, stake: map<Name, int>, proxy': Proxies, stake': map<Name, int>,
    ballots: Ballots, w: Name, r: Name, change: int)
    requires forall a :: a in stake <==> a in stake'
    requires forall a :: a in stake && a != r && Votes(ballots, a, w) ==>
               Within(proxy', stake', a, d) == Within(proxy, stake, a, d)
    requires r in stake ==> Within(proxy', stake', r, d) == Within(proxy, stake, r, d) + change
    ensures Tally(d, proxy', stake', ballots, w) == Tally(d, proxy, stake, ballots, w) +
            if r in stake && Votes(ballots, r, w) then change else 0
  {
    var m := VoterWeights(d, proxy, stake, ballots, w);
    var n := VoterWeights(d, proxy', stake', ballots, w);
    if r in stake && Votes(ballots, r, w) {
      SumChange(m, n, r);
    } else {
      assert m == n;
    }
  }

  /** What a walk with totals `delta` adds to the votes of w: the top's share, if the top votes for w. */
  ghost function VoteGain(d: nat, proxy: Proxies, ballots: Ballots, x: Name, delta: seq<int>, at: nat, w: Name): int
    requires |delta| == d + 1
  {
    var top := Top(d, proxy, x, at);
    if top.Some? && Votes(ballots, top.value.0, w) && at <= d then Prefix(delta, d - top.value.1) else 0
  }

  /** Only accounts without a proxy have vote ballots. */
  ghost predicate RootsVote(proxy: Proxies, ballots: Ballots)
  {
    forall a, w :: Votes(ballots, a, w) ==> a !in proxy
  }

  lemma {:induction false} UpIsAccount(proxy: Proxies, stake: map<Name, int>, x: Name, k: nat)
    requires x in stake && forall a :: a in proxy ==> proxy[a] in stake
    ensures Up(proxy, x, k).Some? ==> Up(proxy, x, k).value in stake
    decreases k
  {
    if k > 0 && x in proxy {
      UpIsAccount(proxy, stake, proxy[x], k - 1);
    }
  }

  lemma {:induction false} TallySame(
    d: nat, proxy: Proxies, stake: map<Name, int>, proxy': Proxies, stake': map<Name, int>, ballots: Ballots, w: Name)
    requires forall a :: a in stake <==> a in stake'
    requires forall a :: a in stake && Votes(ballots, a, w) ==>
               Within(proxy', stake', a, d) == Within(proxy, stake, a, d)
    ensures Tally(d, proxy', stake', ballots, w) == Tally(d, proxy, stake, ballots, w)
  {
    assert VoterWeights(d, proxy, stake, ballots, w) == VoterWeights(d, proxy', stake', ballots, w);
  }

  lemma {:induction false} StakeWithinTop(d: nat, proxy: Proxies, stake: map<Name, int>, x: Name, delta: int, a: Name)
    requires x in stake && a !in proxy
    ensures var top := Top(d, proxy, x, 0);
            Within(proxy, stake[x := stake[x] + delta], a, d) == Within(proxy, stake, a, d) +
            if top.Some? && top.value.0 == a then delta else 0
  {
    StakeWithin(proxy, stake, x, delta, a, d);
    var top := Top(d, proxy, x, 0);
    if top.Some? && top.value.0 == a {
      TopIsUp(d, proxy, x, 0, a, top.value.1);
    }
    if n: nat :| n <= d && Up(proxy, x, n) == Some(a) {
      TopIsUp(d, proxy, x, 0, a, n);
    }
  }

  lemma {:induction false} TopIsAccount(d: nat, proxy: Proxies, stake: map<Name, int>, x: Name)
    requires x in stake && forall a :: a in proxy ==> proxy[a] in stake
    requires Top(d, proxy, x, 0).Some?
    ensures Top(d, proxy, x, 0).value.0 in stake
  {
    var (r, n) := Top(d, proxy, x, 0).value;
    TopIsUp(d, proxy, x, 0, r, n);
    UpIsAccount(proxy, stake, x, n);
  }

  /** The walk after a change of stake leaves every tally right. */
  lemma {:induction false} StakeTally(
    d: nat, proxy: Proxies, stake: map<Name, int>, ballots: Ballots, x: Name, delta: int, w: Name)
    requires RootsVote(proxy, ballots)
    requires x in stake && forall a :: a in proxy ==> proxy[a] in stake
    ensures Tally(d, proxy, stake[x := stake[x] + delta], ballots, w)
         == Tally(d, proxy, stake, ballots, w) + VoteGain(d, proxy, ballots, x, StakeDelta(d, delta), 0, w)
  {
    var stake' := stake[x := stake[x] + delta];
    forall a | Votes(ballots, a, w)
      ensures Within(proxy, stake', a, d) == Within(proxy, stake, a, d) +
              if Top(d, proxy, x, 0).Some? && Top(d, proxy, x, 0).value.0 == a then delta else 0
    {
      StakeWithinTop(d, proxy, stake, x, delta, a);
    }
    if Top(d, proxy, x, 0).Some? {
      var (r, n) := Top(d, proxy, x, 0).value;
      TopIsAccount(d, proxy, stake, x);
      StakeWithinTop(d, proxy, stake, x, delta, r);
      PrefixOfStakeDelta(d, delta, d - n);
      TallyChange(d, proxy, stake, proxy, stake', ballots, w, r, delta);
    } else {
      TallySame(d, proxy, stake, proxy, stake', ballots, w);
    }
  }

  /* ---- Removing or adding the proxy of x ---- */

  /** The stake x has at each height below it, from its own on. */
  ghost function Levels(d: nat, proxy: Proxies, stake: map<Name, int>, x: Name): (r: seq<int>)
    ensures |r| == d + 1
  {
    seq(d + 1, i requires 0 <= i => Below(proxy, stake, x, i))
  }

  ghost function Negated(delta: seq<int>): (r: seq<int>)
    ensures |r| == |delta| && forall i :: 0 <= i < |delta| ==> r[i] == -delta[i]
  {
    seq(|delta|, i requires 0 <= i < |delta| => -delta[i])
  }

  lemma {:induction false} GainNegated(d: nat, proxy: Proxies, a: Name, delta: seq<int>, at: nat, b: Name, i: nat)
    requires |delta| == d + 1 && i < d
    ensures Gain(d, proxy, a, Negated(delta), at, b, i) == -Gain(d, proxy, a, delta, at, b, i)
    decreases d - at
  {
    if a in proxy && at < d {
      GainNegated(d, proxy, proxy[a], delta, at + 1, b, i);
    }
  }

  lemma {:induction false} PrefixNegated(delta: seq<int>, n: int)
    requires n < |delta|
    ensures Prefix(Negated(delta), n) == -Prefix(delta, n)
    decreases n + 1
  {
    if n >= 0 {
      PrefixNegated(delta, n - 1);
    }
  }

  lemma {:induction false} GainAbove(d: nat, proxy: Proxies, stake: map<Name, int>, x: Name, b: Name, i: nat, n: nat)
    requires Acyclic(proxy) && i < d && 1 <= n <= i + 1 && Up(proxy, x, n) == Some(b)
    ensures Gain(d, proxy, x, Levels(d, proxy, stake, x), 0, b, i)
         == Below(proxy, stake, b, i + 1) - Below(proxy - {x}, stake, b, i + 1)
  {
    hide Gain, Below, Up, Acyclic;
    GainHit(d, proxy, x, Levels(d, proxy, stake, x), 0, b, i, n);
    DetachAbove(proxy, stake, x, b, n, i + 1);
  }

  lemma {:induction false} GainElsewhere(
    d: nat, proxy: Proxies, stake: map<Name, int>, x: Name, delta: seq<int>, b: Name, i: nat)
    requires i < d && |delta| == d + 1 && forall n: nat :: 1 <= n <= i + 1 ==> Up(proxy, x, n) != Some(b)
    ensures Gain(d, proxy, x, delta, 0, b, i) == 0
    ensures Below(proxy, stake, b, i + 1) == Below(proxy - {x}, stake, b, i + 1)
  {
    hide Gain, Below, Up;
    GainMiss(d, proxy, x, delta, 0, b, i);
    DetachElsewhere(proxy, stake, x, b, i + 1);
  }

  /** What the walk with x's levels adds is what x's proxy contributes. */
  lemma {:induction false} GainOfLevels(d: nat, proxy: Proxies, stake: map<Name, int>, x: Name, b: Name, i: nat)
    requires Acyclic(proxy) && i < d
    ensures Gain(d, proxy, x, Levels(d, proxy, stake, x), 0, b, i)
         == Below(proxy, stake, b, i + 1) - Below(proxy - {x}, stake, b, i + 1)
  {
    if n: nat :| 1 <= n <= i + 1 && Up(proxy, x, n) == Some(b) {
      GainAbove(d, proxy, stake, x, b, i, n);
    } else {
      GainElsewhere(d, proxy, stake, x, Levels(d, proxy, stake, x), b, i);
    }
  }

  /** Walking with x's levels negated turns the arrays into those of the graph without x's proxy. */
  lemma {:induction false} DetachArrays(
    d: nat, proxy: Proxies, stake: map<Name, int>, x: Name, before: Arrays, after: Arrays)
    requires Acyclic(proxy)
    requires ArraysOk(d, proxy, stake, before)
    requires Walked(d, proxy, x, Negated(Levels(d, proxy, stake, x)), 0, before, after)
    ensures ArraysOk(d, proxy - {x}, stake, after)
  {
    hide Below, Gain;
    forall b ensures ArrayOk(d, proxy - {x}, stake, after, b) {
      assert ArrayOk(d, proxy, stake, before, b);
      forall i: nat | i < d
        ensures Below(proxy - {x}, stake, b, i + 1)
             == Below(proxy, stake, b, i + 1) + Gain(d, proxy, x, Negated(Levels(d, proxy, stake, x)), 0, b, i)
      {
        GainOfLevels(d, proxy, stake, x, b, i);
        GainNegated(d, proxy, x, Levels(d, proxy, stake, x), 0, b, i);
      }
    }
  }

  /** Walking with x's levels in the graph that has x's proxy completes the arrays. */
  lemma {:induction false} AttachArrays(
    d: nat, proxy: Proxies, stake: map<Name, int>, x: Name, before: Arrays, after: Arrays)
    requires Acyclic(proxy)
    requires ArraysOk(d, proxy - {x}, stake, before)
    requires Walked(d, proxy, x, Levels(d, proxy, stake, x), 0, before, after)
    ensures ArraysOk(d, proxy, stake, after)
  {
    hide Below, Gain;
    forall b ensures ArrayOk(d, proxy, stake, after, b) {
      assert ArrayOk(d, proxy - {x}, stake, before, b);
      forall i: nat | i < d
        ensures Below(proxy, stake, b, i + 1)
             == Below(proxy - {x}, stake, b, i + 1) + Gain(d, proxy, x, Levels(d, proxy, stake, x), 0, b, i)
      {
        GainOfLevels(d, proxy, stake, x, b, i);
      }
    }
  }

  /** The same levels, read off before or after x's proxy changes. */
  lemma {:induction false} LevelsStay(d: nat, proxy: Proxies, stake: map<Name, int>, x: Name)
    requires Acyclic(proxy)
    ensures Levels(d, proxy - {x}, stake, x) == Levels(d, proxy, stake, x)
  {
    forall k: nat ensures Below(proxy - {x}, stake, x, k) == Below(proxy, stake, x, k) {
      DetachSubtree(proxy, stake, x, k);
    }
  }

  lemma {:induction false} PrefixOfLevels(d: nat, proxy: Proxies, stake: map<Name, int>, x: Name, n: nat)
    requires n <= d
    ensures Prefix(Levels(d, proxy, stake, x), n) == Within(proxy, stake, x, n)
    decreases n
  {
    if n > 0 {
      PrefixOfLevels(d, proxy, stake, x, n - 1);
    } else {
      assert Prefix(Levels(d, proxy, stake, x), -1) == 0;
    }
  }

  /** A root n hops above x loses what x has within the remaining depth. */
  lemma {:induction false} DetachWithinAbove(proxy: Proxies, stake: map<Name, int>, x: Name, r: Name, n: nat, d: nat)
    requires Acyclic(proxy) && n > 0 && Up(proxy, x, n) == Some(r)
    ensures Within(proxy - {x}, stake, r, d)
      == Within(proxy, stake, r, d) - if n <= d then Within(proxy, stake, x, d - n) else 0
    decreases d
  {
    DetachAbove(proxy, stake, x, r, n, d);
    if d > 0 {
      DetachWithinAbove(proxy, stake, x, r, n, d - 1);
    }
  }

  lemma {:induction false} DetachWithinElsewhere(proxy: Proxies, stake: map<Name, int>, x: Name, r: Name, d: nat)
    requires forall n: nat :: 0 < n <= d ==> Up(proxy, x, n) != Some(r)
    ensures Within(proxy - {x}, stake, r, d) == Within(proxy, stake, r, d)
    decreases d
  {
    DetachElsewhere(proxy, stake, x, r, d);
    if d > 0 {
      DetachWithinElsewhere(proxy, stake, x, r, d - 1);
    }
  }

  lemma {:induction false} DetachWithinTop(d: nat, proxy: Proxies, stake: map<Name, int>, x: Name, a: Name)
    requires Acyclic(proxy) && x in proxy && a !in proxy
    ensures var top := Top(d, proxy, x, 0);
            Within(proxy, stake, a, d) == Within(proxy - {x}, stake, a, d) +
            if top.Some? && top.value.0 == a then Prefix(Levels(d, proxy, stake, x), d - top.value.1) else 0
  {
    var top := Top(d, proxy, x, 0);
    if top.Some? && top.value.0 == a {
      var n := top.value.1;
      TopIsUp(d, proxy, x, 0, a, n);
      DetachWithinAbove(proxy, stake, x, a, n, d);
      PrefixOfLevels(d, proxy, stake, x, d - n);
    } else {
      forall n: nat | 0 < n <= d ensures Up(proxy, x, n) != Some(a) {
        TopIsUp(d, proxy, x, 0, a, n);
      }
      DetachWithinElsewhere(proxy, stake, x, a, d);
    }
  }

  /** Adding x's proxy adds to every tally what the walk adds. */
  lemma {:induction false} DetachTally(
    d: nat, proxy: Proxies, stake: map<Name, int>, ballots: Ballots, x: Name, w: Name)
    requires Acyclic(proxy) && RootsVote(proxy, ballots) && x in proxy
    requires x in stake && forall a :: a in proxy ==> proxy[a] in stake
    ensures Tally(d, proxy, stake, ballots, w)
         == Tally(d, proxy - {x}, stake, ballots, w) + VoteGain(d, proxy, ballots, x, Levels(d, proxy, stake, x), 0, w)
  {
    hide Within, Prefix, Levels;
    var top, cut, levels := Top(d, proxy, x, 0), proxy - {x}, Levels(d, proxy, stake, x);
    forall a | a !in proxy
      ensures Within(proxy, stake, a, d) == Within(cut, stake, a, d) +
              if top.Some? && top.value.0 == a then Prefix(levels, d - top.value.1) else 0
    {
      DetachWithinTop(d, proxy, stake, x, a);
    }
    if top.Some? {
      TopIsAccount(d, proxy, stake, x);
      TallyChange(d, cut, stake, proxy, stake, ballots, w, top.value.0, Prefix(levels, d - top.value.1));
    } else {
      TallySame(d, cut, stake, proxy, stake, ballots, w);
    }
  }

  /* ---- Votes ---- */

  /** One vote more adds the voter's weight to that witness and nothing elsewhere. */
  lemma {:induction false} TallyVote(
    d: nat, proxy: Proxies, stake: map<Name, int>, ballots: Ballots, x: Name, v: Name, w: Name)
    requires x in stake && x in ballots && v !in ballots[x]
    ensures Tally(d, proxy, stake, ballots[x := ballots[x] + {v}], w)
         == Tally(d, proxy, stake, ballots, w) + if w == v then Within(proxy, stake, x, d) else 0
  {
    var m := VoterWeights(d, proxy, stake, ballots, w);
    var n := VoterWeights(d, proxy, stake, ballots[x := ballots[x] + {v}], w);
    if w == v {
      SumUpdate(m, x, Within(proxy, stake, x, d));
      assert n == m[x := Within(proxy, stake, x, d)];
    } else {
      assert n == m;
    }
  }

  /** Dropping all votes of x takes x's weight from every witness it voted for. */
  lemma {:induction false} TallyWithout(
    d: nat, proxy: Proxies, stake: map<Name, int>, ballots: Ballots, x: Name, w: Name)
    requires x in stake
    ensures Tally(d, proxy, stake, ballots[x := {}], w)
         == Tally(d, proxy, stake, ballots, w) - if Votes(ballots, x, w) then Within(proxy, stake, x, d) else 0
  {
    var m := VoterWeights(d, proxy, stake, ballots, w);
    var n := VoterWeights(d, proxy, stake, ballots[x := {}], w);
    if Votes(ballots, x, w) {
      SumRemove(m, x);
      assert n == m - {x};
    } else {
      assert n == m;
    }
  }

  /** Every tally is between nothing and all the stake. */
  lemma {:induction false} TallyBounds(d: nat, proxy: Proxies, stake: map<Name, int>, ballots: Ballots, w: Name)
    requires RootsVote(proxy, ballots)
    requires forall a :: a in proxy ==> proxy[a] in stake
    requires forall x :: x in stake ==> 0 <= stake[x]
    ensures 0 <= Tally(d, proxy, stake, ballots, w) <= Sum(stake)
  {
    RootsWeighAtMostAll(proxy, stake, d, VoterWeights(d, proxy, stake, ballots, w));
  }

  lemma {:induction false} TallyNewAccount(
    d: nat, proxy: Proxies, stake: map<Name, int>, ballots: Ballots, x: Name, w: Name)
    requires x !in stake && x !in ballots
    ensures Tally(d, proxy, stake[x := 0], ballots, w) == Tally(d, proxy, stake, ballots, w)
  {
    forall a ensures Within(proxy, stake[x := 0], a, d) == Within(proxy, stake, a, d) {
      WithinNewAccount(proxy, stake, x, a, d);
    }
    assert VoterWeights(d, proxy, stake[x := 0], ballots, w) == VoterWeights(d, proxy, stake, ballots, w);
  }

  lemma {:induction false} WithinNewAccount(proxy: Proxies, stake: map<Name, int>, x: Name, a: Name, d: nat)
    requires x !in stake
    ensures Within(proxy, stake[x := 0], a, d) == Within(proxy, stake, a, d)
    decreases d
  {
    NewAccount(proxy, stake, x, a, d);
    if d > 0 {
      WithinNewAccount(proxy, stake, x, a, d - 1);
    }
  }
}
