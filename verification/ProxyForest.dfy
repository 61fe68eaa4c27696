/**
 The proxy graph of the accounts, and the stake found a given number of hops below an account.

 An account whose proxy field is empty (PROXY_TO_SELF_ACCOUNT) has no entry in the proxy map, so
 the accounts that vote for themselves are the roots.  Everything here is computed from scratch
 from the proxy map and the stakes; module `Voting` proves that the arrays and vote totals which
 the chain updates in place always equal it.
 */
module ProxyForest {
  import opened Common
  import opened Sums

  /** Account names, numbered in the order in which the name indexes list them. */
  type Name = nat

  type Proxies = map<Name, Name>

  /** The account reached by following `k` proxies from `a`, if that many exist. */
  ghost function Up(proxy: Proxies, a: Name, k: nat): (r: Option<Name>)
    decreases k
  {
    if k == 0 then Some(a)
    else if a in proxy then Up(proxy, proxy[a], k - 1)
    else None
  }

  ghost predicate Acyclic(proxy: Proxies)
  {
    forall a: Name, k: nat :: k > 0 ==> Up(proxy, a, k) != Some(a)
  }

  /** The stakes of the accounts exactly `k` hops below `b`. */
  ghost function StakesBelow(proxy: Proxies, stake: map<Name, int>, b: Name, k: nat): map<Name, int>
  {
    map x | x in stake && Up(proxy, x, k) == Some(b) :: stake[x]
  }

  ghost function Below(proxy: Proxies, stake: map<Name, int>, b: Name, k: nat): int
  {
    Sum(StakesBelow(proxy, stake, b, k))
  }

  /** The stake at most `d` hops below `b`, counted level by level. */
  ghost function Within(proxy: Proxies, stake: map<Name, int>, b: Name, d: nat): int
  {
    Below(proxy, stake, b, d) + if d == 0 then 0 else Within(proxy, stake, b, d - 1)
  }

  lemma {:induction false} UpUp(proxy: Proxies, a: Name, j: nat, k: nat)
    requires Up(proxy, a, j).Some?
    ensures Up(proxy, a, j + k) == Up(proxy, Up(proxy, a, j).value, k)
    decreases j
  {
    if j > 0 {
      UpUp(proxy, proxy[a], j - 1, k);
    }
  }

  /** A path that stops stays stopped. */
  lemma {:induction false} UpEnds(proxy: Proxies, a: Name, j: nat, k: nat)
    requires Up(proxy, a, j).None? && j <= k
    ensures Up(proxy, a, k).None?
    decreases j
  {
    if a in proxy {
      UpEnds(proxy, proxy[a], j - 1, k - 1);
    }
  }

  /** Without cycles an account is at no more than one height above another. */
  lemma {:induction false} OneHeight(proxy: Proxies, a: Name, j: nat, k: nat)
    requires Acyclic(proxy) && Up(proxy, a, j).Some? && Up(proxy, a, j) == Up(proxy, a, k)
    ensures j == k
  {
    var low, gap := if j <= k then j else k, if j <= k then k - j else j - k;
    UpUp(proxy, a, low, gap);
  }

  lemma {:induction false} BelowSelf(proxy: Proxies, stake: map<Name, int>, b: Name)
    ensures Below(proxy, stake, b, 0) == At(stake, b)
  {
    var m := StakesBelow(proxy, stake, b, 0);
    if b in stake {
      assert m == map[b := stake[b]];
      SumRemove(m, b);
      assert m - {b} == map[];
    } else {
      assert m == map[];
    }
  }

  /** One account's stake change shows at every height exactly at the account found there. */
  lemma {:induction false} StakeChange(proxy: Proxies, stake: map<Name, int>, x: Name, delta: int, b: Name, k: nat)
    requires x in stake
    ensures Below(proxy, stake[x := stake[x] + delta], b, k)
         == Below(proxy, stake, b, k) + if Up(proxy, x, k) == Some(b) then delta else 0
  {
    var m, v := StakesBelow(proxy, stake, b, k), stake[x] + delta;
    var n := StakesBelow(proxy, stake[x := v], b, k);
    if Up(proxy, x, k) == Some(b) {
      SumChange(m, n, x);
    } else {
      assert n == m;
    }
  }

  /** A new account with no stake changes no level. */
  lemma {:induction false} NewAccount(proxy: Proxies, stake: map<Name, int>, x: Name, b: Name, k: nat)
    requires x !in stake
    ensures Below(proxy, stake[x := 0], b, k) == Below(proxy, stake, b, k)
  {
    var m := StakesBelow(proxy, stake, b, k);
    var n := StakesBelow(proxy, stake[x := 0], b, k);
    if Up(proxy, x, k) == Some(b) {
      assert n == m[x := 0];
      SumUpdate(m, x, 0);
    } else {
      assert n == m;
    }
  }

  /* ---- Removing the proxy of x ---- */

  /** `y` reaches `x` in fewer than `k` hops. */
  ghost predicate Passes(proxy: Proxies, y: Name, x: Name, k: nat)
  {
    exists j: nat :: j < k && Up(proxy, y, j) == Some(x)
  }

  /** Without x's proxy, exactly the paths that go on beyond x stop. */
  lemma {:induction false} CutPath(proxy: Proxies, x: Name, y: Name, k: nat)
    ensures Up(proxy - {x}, y, k) == if Passes(proxy, y, x, k) then None else Up(proxy, y, k)
    decreases k
  {
    var cut := proxy - {x};
    if k == 0 {
    } else if y == x {
      assert Up(proxy, y, 0) == Some(x);
    } else if y in proxy {
      CutPath(proxy, x, proxy[y], k - 1);
      assert cut[y] == proxy[y];
      assert Up(proxy, y, 0) == Some(y);
      if j: nat :| j < k - 1 && Up(proxy, proxy[y], j) == Some(x) {
        assert Up(proxy, y, j + 1) == Some(x);
      }
      if j: nat :| j < k && Up(proxy, y, j) == Some(x) {
        assert Up(proxy, proxy[y], j - 1) == Some(x);
      }
    } else {
      forall j: nat | j < k ensures Up(proxy, y, j) != Some(x) {
      }
    }
  }

  lemma {:induction false} DetachAcyclic(proxy: Proxies, x: Name)
    requires Acyclic(proxy)
    ensures Acyclic(proxy - {x})
  {
    forall a: Name, k: nat | k > 0 ensures Up(proxy - {x}, a, k) != Some(a) {
      CutPath(proxy, x, a, k);
    }
  }

  /** The subtree under x keeps its shape when x's own proxy goes. */
  lemma {:induction false} DetachSubtree(proxy: Proxies, stake: map<Name, int>, x: Name, k: nat)
    requires Acyclic(proxy)
    ensures Below(proxy - {x}, stake, x, k) == Below(proxy, stake, x, k)
  {
    forall y ensures Up(proxy - {x}, y, k) == Some(x) <==> Up(proxy, y, k) == Some(x) {
      CutPath(proxy, x, y, k);
      if j: nat :| j < k && Up(proxy, y, j) == Some(x) {
        if Up(proxy, y, k) == Some(x) {
          OneHeight(proxy, y, j, k);
        }
      }
    }
    assert StakesBelow(proxy - {x}, stake, x, k) == StakesBelow(proxy, stake, x, k);
  }

  /** An account `d` hops above x loses, at every level from `d` on, what x has at that distance less `d`. */
  lemma {:induction false} DetachAbove(proxy: Proxies, stake: map<Name, int>, x: Name, b: Name, d: nat, k: nat)
    requires Acyclic(proxy) && d > 0 && Up(proxy, x, d) == Some(b)
    ensures Below(proxy - {x}, stake, b, k)
         == Below(proxy, stake, b, k) - if d <= k then Below(proxy, stake, x, k - d) else 0
  {
    var whole := StakesBelow(proxy, stake, b, k);
    var kept := StakesBelow(proxy - {x}, stake, b, k);
    var lost := if d <= k then StakesBelow(proxy, stake, x, k - d) else map[];
    forall y
      ensures Up(proxy - {x}, y, k) == Some(b) <==>
              Up(proxy, y, k) == Some(b) && !(d <= k && Up(proxy, y, k - d) == Some(x))
      ensures d <= k && Up(proxy, y, k - d) == Some(x) ==> Up(proxy, y, k) == Some(b)
    {
      CutPath(proxy, x, y, k);
      if j: nat :| j < k && Up(proxy, y, j) == Some(x) {
        UpUp(proxy, y, j, k - j);
        if Up(proxy, y, k) == Some(b) {
          OneHeight(proxy, x, d, k - j);
        }
      }
      if d <= k && Up(proxy, y, k - d) == Some(x) {
        UpUp(proxy, y, k - d, d);
      }
    }
    assert Splits(whole, kept, lost);
    SumSplit(whole, kept, lost);
    if d > k {
      SumZero(lost);
    }
  }

  /** Accounts that are not above x lose nothing. */
  lemma {:induction false} DetachElsewhere(proxy: Proxies, stake: map<Name, int>, x: Name, b: Name, k: nat)
    requires forall d: nat :: 0 < d <= k ==> Up(proxy, x, d) != Some(b)
    ensures Below(proxy - {x}, stake, b, k) == Below(proxy, stake, b, k)
  {
    forall y ensures Up(proxy - {x}, y, k) == Some(b) <==> Up(proxy, y, k) == Some(b) {
      CutPath(proxy, x, y, k);
      if j: nat :| j < k && Up(proxy, y, j) == Some(x) {
        UpUp(proxy, y, j, k - j);
      }
    }
    assert StakesBelow(proxy - {x}, stake, b, k) == StakesBelow(proxy, stake, b, k);
  }

  /** Giving a root x the proxy p closes no cycle when the walk from p ends without meeting x. */
  lemma {:induction false} AttachAcyclic(proxy: Proxies, x: Name, p: Name, n: nat)
    requires Acyclic(proxy) && x !in proxy
    requires Up(proxy, p, n).Some? && Up(proxy, p, n).value !in proxy
    requires forall i: nat :: i <= n ==> Up(proxy, p, i) != Some(x)
    ensures Acyclic(proxy[x := p])
  {
    var joined := proxy[x := p];
    assert joined - {x} == proxy;
    forall a: Name, k: nat | k > 0 ensures Up(joined, a, k) != Some(a) {
      if Up(joined, a, k) == Some(a) {
        CutPath(joined, x, a, k);
        var j: nat :| j < k && Up(joined, a, j) == Some(x);
        UpUp(joined, a, k, j);
        UpUp(joined, a, j, k);
        assert Up(joined, x, k) == Some(x);
        assert Up(joined, p, k - 1) == Some(x);
        var first := FirstVisit(joined, p, x, k - 1);
        CutPath(joined, x, p, first);
        UpUp(proxy, p, n, 1);
        if n < first {
          UpEnds(proxy, p, n + 1, first);
        }
      }
    }
  }

  lemma {:induction false} FirstVisit(proxy: Proxies, y: Name, x: Name, k: nat) returns (first: nat)
    requires Up(proxy, y, k) == Some(x)
    ensures first <= k && Up(proxy, y, first) == Some(x)
    ensures forall i: nat :: i < first ==> Up(proxy, y, i) != Some(x)
    decreases k
  {
    if i: nat :| i < k && Up(proxy, y, i) == Some(x) {
      first := FirstVisit(proxy, y, x, i);
    } else {
      first := k;
    }
  }

  /* ---- Where each stake is counted ---- */

  /** The account that counts x's stake: the one `d` hops up, or the root if that comes sooner. */
  ghost function Anchor(proxy: Proxies, x: Name, d: nat): Name
    decreases d
  {
    if d == 0 || x !in proxy then x else Anchor(proxy, proxy[x], d - 1)
  }

  ghost function Anchored(proxy: Proxies, stake: map<Name, int>, b: Name, d: nat): map<Name, int>
  {
    map x | x in stake && Anchor(proxy, x, d) == b :: stake[x]
  }

  lemma {:induction false} AnchorOfProxied(proxy: Proxies, x: Name, b: Name, d: nat)
    requires b in proxy
    ensures Anchor(proxy, x, d) == b <==> Up(proxy, x, d) == Some(b)
    decreases d
  {
    if d > 0 && x in proxy {
      AnchorOfProxied(proxy, proxy[x], b, d - 1);
    }
  }

  lemma {:induction false} AnchorOfRoot(proxy: Proxies, x: Name, b: Name, d: nat)
    requires b !in proxy && d > 0
    ensures Anchor(proxy, x, d) == b <==> Anchor(proxy, x, d - 1) == b || Up(proxy, x, d) == Some(b)
    ensures !(Anchor(proxy, x, d - 1) == b && Up(proxy, x, d) == Some(b))
    decreases d
  {
    if x in proxy && d > 1 {
      AnchorOfRoot(proxy, proxy[x], b, d - 1);
    }
  }

  lemma {:induction false} RootCounts(proxy: Proxies, stake: map<Name, int>, b: Name, d: nat)
    requires b !in proxy
    ensures Sum(Anchored(proxy, stake, b, d)) == Within(proxy, stake, b, d)
    decreases d
  {
    if d == 0 {
      assert Anchored(proxy, stake, b, 0) == StakesBelow(proxy, stake, b, 0);
    } else {
      RootCounts(proxy, stake, b, d - 1);
      forall x
        ensures Anchor(proxy, x, d) == b <==> Anchor(proxy, x, d - 1) == b || Up(proxy, x, d) == Some(b)
        ensures !(Anchor(proxy, x, d - 1) == b && Up(proxy, x, d) == Some(b))
      {
        AnchorOfRoot(proxy, x, b, d);
      }
      SumSplit(Anchored(proxy, stake, b, d), Anchored(proxy, stake, b, d - 1), StakesBelow(proxy, stake, b, d));
    }
  }

  /** What `validate_invariants` adds up for one account: a root's whole weight, else its last slot. */
  ghost function Share(proxy: Proxies, stake: map<Name, int>, b: Name, d: nat): int
  {
    if b in proxy then Below(proxy, stake, b, d) else Within(proxy, stake, b, d)
  }

  ghost function Shares(proxy: Proxies, stake: map<Name, int>, d: nat): map<Name, int>
  {
    map b | b in stake :: Share(proxy, stake, b, d)
  }

  lemma {:induction false} ShareIsAnchored(proxy: Proxies, stake: map<Name, int>, b: Name, d: nat)
    ensures Share(proxy, stake, b, d) == Sum(Anchored(proxy, stake, b, d))
  {
    if b in proxy {
      forall x ensures Anchor(proxy, x, d) == b <==> Up(proxy, x, d) == Some(b) {
        AnchorOfProxied(proxy, x, b, d);
      }
      assert Anchored(proxy, stake, b, d) == StakesBelow(proxy, stake, b, d);
    } else {
      RootCounts(proxy, stake, b, d);
    }
  }

  ghost function Anchors(proxy: Proxies, stake: map<Name, int>, d: nat): map<Name, Name>
  {
    map x | x in stake :: Anchor(proxy, x, d)
  }

  lemma {:induction false} ShareIsFibre(proxy: Proxies, stake: map<Name, int>, b: Name, d: nat)
    ensures Share(proxy, stake, b, d) == Sum(Fibre(stake, Anchors(proxy, stake, d), b))
  {
    ShareIsAnchored(proxy, stake, b, d);
    assert Fibre(stake, Anchors(proxy, stake, d), b) == Anchored(proxy, stake, b, d);
  }

  lemma {:induction false} AnchorIsAccount(proxy: Proxies, stake: map<Name, int>, x: Name, d: nat)
    requires x in stake && forall a :: a in proxy ==> proxy[a] in stake
    ensures Anchor(proxy, x, d) in stake
    decreases d
  {
    if d > 0 && x in proxy {
      AnchorIsAccount(proxy, stake, proxy[x], d - 1);
    }
  }

  /** Root weights plus the cut-off last slots of proxied accounts are exactly the stake there is. */
  lemma {:induction false} SharesAreAllStake(proxy: Proxies, stake: map<Name, int>, d: nat)
    requires forall a :: a in proxy ==> proxy[a] in stake
    ensures Sum(Shares(proxy, stake, d)) == Sum(stake)
  {
    var anchors, shares := Anchors(proxy, stake, d), Shares(proxy, stake, d);
    forall x | x in stake ensures anchors[x] in shares {
      AnchorIsAccount(proxy, stake, x, d);
    }
    forall b ensures Share(proxy, stake, b, d) == Sum(Fibre(stake, anchors, b)) {
      ShareIsFibre(proxy, stake, b, d);
    }
    SumPartition(stake, anchors, shares);
  }

  lemma {:induction false} BelowNonNegative(proxy: Proxies, stake: map<Name, int>, b: Name, k: nat)
    requires forall x :: x in stake ==> 0 <= stake[x]
    ensures 0 <= Below(proxy, stake, b, k)
  {
    SumSubmap(StakesBelow(proxy, stake, b, k), stake);
  }

  lemma {:induction false} WithinNonNegative(proxy: Proxies, stake: map<Name, int>, b: Name, d: nat)
    requires forall x :: x in stake ==> 0 <= stake[x]
    ensures 0 <= Within(proxy, stake, b, d)
    decreases d
  {
    BelowNonNegative(proxy, stake, b, d);
    if d > 0 {
      WithinNonNegative(proxy, stake, b, d - 1);
    }
  }

  /** No group of roots weighs more than all the stake. */
  lemma {:induction false} RootsWeighAtMostAll(proxy: Proxies, stake: map<Name, int>, d: nat, weights: map<Name, int>)
    requires forall a :: a in proxy ==> proxy[a] in stake
    requires forall x :: x in stake ==> 0 <= stake[x]
    requires forall a :: a in weights ==> a in stake && a !in proxy && weights[a] == Within(proxy, stake, a, d)
    ensures 0 <= Sum(weights) <= Sum(stake)
  {
    var shares := Shares(proxy, stake, d);
    forall b | b in shares ensures 0 <= shares[b] {
      BelowNonNegative(proxy, stake, b, d);
      WithinNonNegative(proxy, stake, b, d);
    }
    SumSubmap(weights, shares);
    SharesAreAllStake(proxy, stake, d);
  }
}
