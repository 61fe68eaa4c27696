/**
 Stake-weighted witness voting: the account, vote and witness objects that the evaluators and the
 block-end steps update in place, with every derived total kept up incrementally.

 `Valid` says that the incrementally kept data always equal their definition from scratch; every
 operation keeps it.  A failing FC_ASSERT is an operation that returns false after its undo
 session has put the objects back.
 */
module Voting {
  import opened Common
  import opened Sums
  import opened ProxyForest
  import opened VirtualTime
  import opened VoteTallies
  import opened Selection

  const MAX_ACCOUNT_WITNESS_VOTES: nat := 1000

  /** Every witness has the votes of its voters, and the virtual clock has passed nobody. */
  ghost predicate WitnessesOk(
    d: nat, proxy: Proxies, stake: map<Name, int>, ballots: Ballots, now: nat, witnesses: Witnesses)
  {
    forall w {:trigger WitnessOk(d, proxy, stake, ballots, now, w, witnesses[w])} ::
      w in witnesses ==> WitnessOk(d, proxy, stake, ballots, now, w, witnesses[w])
  }

  ghost predicate WitnessOk(
    d: nat, proxy: Proxies, stake: map<Name, int>, ballots: Ballots, now: nat, w: Name, record: Witness)
  {
    && record.votes == Tally(d, proxy, stake, ballots, w)
    && OnTime(record, now)
  }

  /** The walk from `a` ends at a root that votes for w. */
  ghost predicate TopVotes(d: nat, proxy: Proxies, ballots: Ballots, a: Name, at: nat, w: Name)
  {
    var top := Top(d, proxy, a, at);
    top.Some? && Votes(ballots, top.value.0, w)
  }

  /** `after` is `before` with the walk's vote change, if the walk reaches a voter of w. */
  ghost predicate Revised(
    d: nat, proxy: Proxies, ballots: Ballots, a: Name, delta: seq<int>, at: nat, now: nat, w: Name, before: Witness,
    after: Witness)
    requires |delta| == d + 1
  {
    var gain := VoteGain(d, proxy, ballots, a, delta, at, w);
    && 0 <= before.votes + gain
    && after == if TopVotes(d, proxy, ballots, a, at, w) then AdjustVote(before, now, gain) else before
  }

  ghost predicate AllRevised(
    d: nat, proxy: Proxies, ballots: Ballots, a: Name, delta: seq<int>, at: nat, now: nat, before: Witnesses,
    after: Witnesses)
    requires |delta| == d + 1
  {
    && (forall w :: w in after <==> w in before)
    && forall w :: w in before ==> Revised(d, proxy, ballots, a, delta, at, now, w, before[w], after[w])
  }

  /** The walk can be made: no witness it reaches would be left with negative votes. */
  ghost predicate Payable(
    d: nat, proxy: Proxies, ballots: Ballots, a: Name, delta: seq<int>, at: nat, witnesses: Witnesses)
    requires |delta| == d + 1
  {
    forall w :: w in witnesses ==> 0 <= witnesses[w].votes + VoteGain(d, proxy, ballots, a, delta, at, w)
  }

  /** No witness the walk reaches would have more votes than there is stake. */
  ghost predicate WithinTotal(
    d: nat, proxy: Proxies, ballots: Ballots, a: Name, delta: seq<int>, at: nat, total: int, witnesses: Witnesses)
    requires |delta| == d + 1
  {
    forall w :: w in witnesses && TopVotes(d, proxy, ballots, a, at, w) ==>
      witnesses[w].votes + VoteGain(d, proxy, ballots, a, delta, at, w) <= total
  }

  lemma {:induction false} RevisedTotal(
    d: nat, proxy: Proxies, ballots: Ballots, a: Name, delta: seq<int>, now: nat, w: Name, before: Witness,
    after: Witness)
    requires |delta| == d + 1 && Revised(d, proxy, ballots, a, delta, 0, now, w, before, after)
    requires OnTime(before, now)
    ensures after.votes == before.votes + VoteGain(d, proxy, ballots, a, delta, 0, w)
    ensures OnTime(after, now)
  {
    AdjustKeepsOnTime(before, now, VoteGain(d, proxy, ballots, a, delta, 0, w));
  }

  /** Walks that add exactly the difference of two tallies take one right record to the other. */
  lemma {:induction false} RevisedWitness(
    d: nat, proxy: Proxies, ballots: Ballots, a: Name, delta: seq<int>, now: nat, w: Name, before: Witness,
    after: Witness,
    proxy0: Proxies, stake0: map<Name, int>, ballots0: Ballots, proxy1: Proxies, stake1: map<Name, int>,
    ballots1: Ballots)
    requires |delta| == d + 1 && Revised(d, proxy, ballots, a, delta, 0, now, w, before, after)
    requires WitnessOk(d, proxy0, stake0, ballots0, now, w, before)
    requires Tally(d, proxy1, stake1, ballots1, w)
          == Tally(d, proxy0, stake0, ballots0, w) + VoteGain(d, proxy, ballots, a, delta, 0, w)
    ensures WitnessOk(d, proxy1, stake1, ballots1, now, w, after)
  {
    RevisedTotal(d, proxy, ballots, a, delta, now, w, before, after);
  }

  /** One proxy's array, raised by the levels that come from `at` + 1 hops below it. */
  method RaiseSlots(slots: seq<int>, delta: seq<int>, at: nat) returns (r: seq<int>)
    requires |delta| == |slots| + 1 && at < |slots|
    ensures |r| == |slots|
    ensures forall j :: 0 <= j < |slots| ==> r[j] == slots[j] + if at <= j then delta[j - at] else 0
  {
    r := slots;
    var i := |slots| - at - 1;
    while i >= 0
      invariant -1 <= i <= |slots| - at - 1
      invariant |r| == |slots|
      invariant forall j :: 0 <= j < |slots| ==> r[j] == slots[j] + if i + at < j then delta[j - at] else 0
    {
      r := r[i + at := r[i + at] + delta[i]];
      i := i - 1;
    }
  }

  method TotalUpTo(delta: seq<int>, n: nat) returns (total: int)
    requires n < |delta|
    ensures total == Prefix(delta, n)
  {
    total := 0;
    var i: int := n;
    while i >= 0
      invariant -1 <= i <= n
      invariant total + Prefix(delta, i) == Prefix(delta, n)
    {
      total := total + delta[i];
      i := i - 1;
    }
  }

  lemma {:induction false} WalkedStep(
    d: nat, proxy: Proxies, a: Name, delta: seq<int>, at: nat, before: Arrays, slots: seq<int>, after: Arrays)
    requires |delta| == d + 1 && a in proxy && at < d && proxy[a] in before
    requires forall b :: b in before ==> |before[b]| == d
    requires |slots| == d && forall j :: 0 <= j < d ==>
      slots[j] == before[proxy[a]][j] + if at <= j then delta[j - at] else 0
    requires Walked(d, proxy, proxy[a], delta, at + 1, before[proxy[a] := slots], after)
    ensures Walked(d, proxy, a, delta, at, before, after)
  {
    var mid := before[proxy[a] := slots];
    forall b, i | b in before && 0 <= i < d
      ensures after[b][i] == before[b][i] + Gain(d, proxy, a, delta, at, b, i)
    {
      assert after[b][i] == mid[b][i] + Gain(d, proxy, proxy[a], delta, at + 1, b, i);
    }
  }

  lemma {:induction false} WalkedNowhere(d: nat, proxy: Proxies, a: Name, delta: seq<int>, at: nat, arrays: Arrays)
    requires |delta| == d + 1 && (a !in proxy || at >= d)
    requires forall b :: b in arrays ==> |arrays[b]| == d
    ensures Walked(d, proxy, a, delta, at, arrays, arrays)
  {
  }

  /** The records of the voters' witnesses after the same change `total` to each. */
  ghost predicate Adjusted(ballots: Ballots, a: Name, total: int, now: nat, before: Witnesses, after: Witnesses)
  {
    && (forall w :: w in after <==> w in before)
    && (forall w :: w in before && Votes(ballots, a, w) ==>
      0 <= before[w].votes + total && after[w] == AdjustVote(before[w], now, total))
    && (forall w :: w in before && !Votes(ballots, a, w) ==> after[w] == before[w])
  }

  /** At a root the walk is one change to each witness the root votes for. */
  lemma {:induction false} RevisedAtRoot(
    d: nat, proxy: Proxies, ballots: Ballots, a: Name, delta: seq<int>, at: nat, now: nat, before: Witnesses,
    after: Witnesses)
    requires |delta| == d + 1 && at <= d && a !in proxy
    requires Payable(d, proxy, ballots, a, delta, at, before)
    requires Adjusted(ballots, a, Prefix(delta, d - at), now, before, after)
    ensures AllRevised(d, proxy, ballots, a, delta, at, now, before, after)
  {
    forall w | w in before ensures Revised(d, proxy, ballots, a, delta, at, now, w, before[w], after[w]) {
    }
  }

  lemma {:induction false} RootTotal(
    d: nat, proxy: Proxies, ballots: Ballots, a: Name, delta: seq<int>, at: nat, total: int, witnesses: Witnesses)
    requires |delta| == d + 1 && at <= d && a !in proxy && a in ballots
    requires forall w :: Votes(ballots, a, w) ==> w in witnesses
    requires Payable(d, proxy, ballots, a, delta, at, witnesses)
    ensures forall w :: w in ballots[a] ==> w in witnesses && 0 <= witnesses[w].votes + Prefix(delta, d - at)
    ensures WithinTotal(d, proxy, ballots, a, delta, at, total, witnesses) <==>
            forall w :: w in ballots[a] ==> witnesses[w].votes + Prefix(delta, d - at) <= total
  {
    forall w | w in ballots[a]
      ensures w in witnesses && TopVotes(d, proxy, ballots, a, at, w)
      ensures VoteGain(d, proxy, ballots, a, delta, at, w) == Prefix(delta, d - at)
    {
      assert Votes(ballots, a, w);
    }
  }

  lemma {:induction false} RevisedNowhere(
    d: nat, proxy: Proxies, ballots: Ballots, a: Name, delta: seq<int>, at: nat, now: nat, total: int,
    witnesses: Witnesses)
    requires |delta| == d + 1 && a in proxy && at >= d
    requires Payable(d, proxy, ballots, a, delta, at, witnesses)
    ensures AllRevised(d, proxy, ballots, a, delta, at, now, witnesses, witnesses)
    ensures WithinTotal(d, proxy, ballots, a, delta, at, total, witnesses)
  {
  }

  /** One hop of the walk changes nothing about where it ends. */
  lemma {:induction false} RevisedUp(
    d: nat, proxy: Proxies, ballots: Ballots, a: Name, delta: seq<int>, at: nat, now: nat, total: int,
    before: Witnesses, after: Witnesses)
    requires |delta| == d + 1 && a in proxy && at < d
    ensures Payable(d, proxy, ballots, a, delta, at, before) ==>
      Payable(d, proxy, ballots, proxy[a], delta, at + 1, before)
    ensures WithinTotal(d, proxy, ballots, a, delta, at, total, before) <==>
            WithinTotal(d, proxy, ballots, proxy[a], delta, at + 1, total, before)
    ensures AllRevised(d, proxy, ballots, proxy[a], delta, at + 1, now, before, after) ==>
            AllRevised(d, proxy, ballots, a, delta, at, now, before, after)
  {
    assert Top(d, proxy, a, at) == Top(d, proxy, proxy[a], at + 1);
    forall w
      ensures TopVotes(d, proxy, ballots, a, at, w) == TopVotes(d, proxy, ballots, proxy[a], at + 1, w)
      ensures VoteGain(d, proxy, ballots, a, delta, at, w) == VoteGain(d, proxy, ballots, proxy[a], delta, at + 1, w)
    {
    }
  }

  /* ---- Walks that take right totals to right totals ---- */

  /** What every walk below is given: accounts exist, stakes are not negative, only roots vote. */
  ghost predicate Ground(proxy: Proxies, stake: map<Name, int>, ballots: Ballots)
  {
    && RootsVote(proxy, ballots)
    && (forall a :: a in proxy ==> proxy[a] in stake)
    && (forall a :: a in stake ==> 0 <= stake[a])
  }

  /** A walk whose gains lead from the tallies of one situation to those of another. */
  ghost predicate Leads(
    d: nat, proxy: Proxies, ballots: Ballots, x: Name, delta: seq<int>,
    proxy0: Proxies, stake0: map<Name, int>, ballots0: Ballots, proxy1: Proxies, stake1: map<Name, int>,
    ballots1: Ballots)
    requires |delta| == d + 1
  {
    forall w :: Tally(d, proxy1, stake1, ballots1, w)
             == Tally(d, proxy0, stake0, ballots0, w) + VoteGain(d, proxy, ballots, x, delta, 0, w)
  }

  /** Such a walk can always be made, and it passes the check against the total stake. */
  lemma {:induction false} LeadsPayable(
    d: nat, proxy: Proxies, ballots: Ballots, x: Name, delta: seq<int>, now: nat, total: int, witnesses: Witnesses,
    proxy0: Proxies, stake0: map<Name, int>, ballots0: Ballots, proxy1: Proxies, stake1: map<Name, int>,
    ballots1: Ballots)
    requires |delta| == d + 1
    requires Leads(d, proxy, ballots, x, delta, proxy0, stake0, ballots0, proxy1, stake1, ballots1)
    requires WitnessesOk(d, proxy0, stake0, ballots0, now, witnesses)
    requires Ground(proxy1, stake1, ballots1)
    ensures Payable(d, proxy, ballots, x, delta, 0, witnesses)
    ensures Sum(stake1) <= total ==> WithinTotal(d, proxy, ballots, x, delta, 0, total, witnesses)
  {
    forall w | w in witnesses
      ensures 0 <= witnesses[w].votes + VoteGain(d, proxy, ballots, x, delta, 0, w) <= Sum(stake1)
    {
      assert WitnessOk(d, proxy0, stake0, ballots0, now, w, witnesses[w]);
      TallyBounds(d, proxy1, stake1, ballots1, w);
    }
  }

  lemma {:induction false} LeadsRevised(
    d: nat, proxy: Proxies, ballots: Ballots, x: Name, delta: seq<int>, now: nat, before: Witnesses, after: Witnesses,
    proxy0: Proxies, stake0: map<Name, int>, ballots0: Ballots, proxy1: Proxies, stake1: map<Name, int>,
    ballots1: Ballots)
    requires |delta| == d + 1
    requires Leads(d, proxy, ballots, x, delta, proxy0, stake0, ballots0, proxy1, stake1, ballots1)
    requires WitnessesOk(d, proxy0, stake0, ballots0, now, before)
    requires AllRevised(d, proxy, ballots, x, delta, 0, now, before, after)
    ensures WitnessesOk(d, proxy1, stake1, ballots1, now, after)
  {
    forall w | w in after ensures WitnessOk(d, proxy1, stake1, ballots1, now, w, after[w]) {
      assert WitnessOk(d, proxy0, stake0, ballots0, now, w, before[w]);
      RevisedWitness(d, proxy, ballots, x, delta, now, w, before[w], after[w], proxy0, stake0, ballots0, proxy1,
        stake1, ballots1);
    }
  }

  lemma {:induction false} StakeLeads(
    d: nat, proxy: Proxies, stake: map<Name, int>, ballots: Ballots, x: Name, delta: int)
    requires Ground(proxy, stake, ballots) && x in stake
    ensures Leads(d, proxy, ballots, x, StakeDelta(d, delta), proxy, stake, ballots, proxy,
      stake[x := stake[x] + delta], ballots)
  {
    forall w
      ensures Tally(d, proxy, stake[x := stake[x] + delta], ballots, w)
           == Tally(d, proxy, stake, ballots, w) + VoteGain(d, proxy, ballots, x, StakeDelta(d, delta), 0, w)
    {
      StakeTally(d, proxy, stake, ballots, x, delta, w);
    }
  }

  /** Walking with x's levels negated takes away x's votes, if it is a root, or its part of its root's. */
  lemma {:induction false} LeaveLeads(d: nat, proxy: Proxies, stake: map<Name, int>, ballots: Ballots, x: Name)
    requires Acyclic(proxy) && Ground(proxy, stake, ballots) && x in stake && x in ballots
    ensures Leads(d, proxy, ballots, x, Negated(Levels(d, proxy, stake, x)),
                  proxy, stake, ballots, proxy - {x}, stake, ballots[x := {}])
  {
    forall w
      ensures Tally(d, proxy - {x}, stake, ballots[x := {}], w)
           == Tally(d, proxy, stake, ballots, w)
             + VoteGain(d, proxy, ballots, x, Negated(Levels(d, proxy, stake, x)), 0, w)
    {
      LeaveTally(d, proxy, stake, ballots, x, w);
    }
  }

  lemma {:induction false} LeaveTally(d: nat, proxy: Proxies, stake: map<Name, int>, ballots: Ballots, x: Name, w: Name)
    requires Acyclic(proxy) && Ground(proxy, stake, ballots) && x in stake && x in ballots
    ensures Tally(d, proxy - {x}, stake, ballots[x := {}], w)
         == Tally(d, proxy, stake, ballots, w)
           + VoteGain(d, proxy, ballots, x, Negated(Levels(d, proxy, stake, x)), 0, w)
  {
    hide Tally, Acyclic, VoteGain, Levels, Negated, RootsVote;
    if x in proxy {
      NoBallot(proxy, ballots, x);
      DetachTally(d, proxy, stake, ballots, x, w);
      NegatedGain(d, proxy, ballots, x, Levels(d, proxy, stake, x), w);
    } else {
      assert proxy - {x} == proxy;
      TallyWithout(d, proxy, stake, ballots, x, w);
      NegatedGain(d, proxy, ballots, x, Levels(d, proxy, stake, x), w);
      RootGain(d, proxy, stake, ballots, x, w);
    }
  }

  lemma {:induction false} NoBallot(proxy: Proxies, ballots: Ballots, x: Name)
    requires RootsVote(proxy, ballots) && x in proxy && x in ballots
    ensures ballots[x := {}] == ballots
  {
    if w :| w in ballots[x] {
      assert Votes(ballots, x, w);
    }
    assert ballots[x] == {};
  }

  lemma {:induction false} NegatedGain(d: nat, proxy: Proxies, ballots: Ballots, x: Name, levels: seq<int>, w: Name)
    requires |levels| == d + 1
    ensures VoteGain(d, proxy, ballots, x, Negated(levels), 0, w) == -VoteGain(d, proxy, ballots, x, levels, 0, w)
  {
    hide Prefix, Top;
    var top := Top(d, proxy, x, 0);
    if top.Some? {
      PrefixNegated(levels, d - top.value.1);
    }
  }

  lemma {:induction false} RootGain(d: nat, proxy: Proxies, stake: map<Name, int>, ballots: Ballots, x: Name, w: Name)
    requires x !in proxy
    ensures VoteGain(d, proxy, ballots, x, Levels(d, proxy, stake, x), 0, w)
         == if Votes(ballots, x, w) then Within(proxy, stake, x, d) else 0
  {
    hide Levels, Within, Prefix;
    PrefixOfLevels(d, proxy, stake, x, d);
  }

  lemma {:induction false} JoinLeads(d: nat, proxy: Proxies, stake: map<Name, int>, ballots: Ballots, x: Name)
    requires Acyclic(proxy) && Ground(proxy, stake, ballots) && x in stake && x in proxy
    ensures Leads(d, proxy, ballots, x, Levels(d, proxy, stake, x), proxy - {x}, stake, ballots, proxy, stake, ballots)
  {
    forall w
      ensures Tally(d, proxy, stake, ballots, w)
           == Tally(d, proxy - {x}, stake, ballots, w)
             + VoteGain(d, proxy, ballots, x, Levels(d, proxy, stake, x), 0, w)
    {
      DetachTally(d, proxy, stake, ballots, x, w);
    }
  }

  /** The levels of an account, negated, read off its own stake and array. */
  method NegatedLevels(own: int, slots: seq<int>) returns (delta: seq<int>)
    ensures |delta| == |slots| + 1 && delta[0] == -own
    ensures forall i :: 0 <= i < |slots| ==> delta[i + 1] == -slots[i]
  {
    delta := [-own];
    for i := 0 to |slots|
      invariant |delta| == i + 1 && delta[0] == -own
      invariant forall j :: 0 <= j < i ==> delta[j + 1] == -slots[j]
    {
      delta := delta + [-slots[i]];
    }
  }

  method Opposite(delta: seq<int>) returns (r: seq<int>)
    ensures r == Negated(delta)
  {
    r := [];
    for i := 0 to |delta|
      invariant |r| == i && forall j :: 0 <= j < i ==> r[j] == -delta[j]
    {
      r := r + [-delta[i]];
    }
  }

  lemma {:induction false} NegatedTwice(delta: seq<int>)
    ensures Negated(Negated(delta)) == delta
  {
  }

  /** The array of x holds its levels above the own one. */
  lemma {:induction false} ReadLevels(
    d: nat, proxy: Proxies, stake: map<Name, int>, arrays: Arrays, x: Name, delta: seq<int>)
    requires ArraysOk(d, proxy, stake, arrays) && x in stake && x in arrays
    requires |delta| == |arrays[x]| + 1 && delta[0] == -stake[x]
    requires forall i :: 0 <= i < |arrays[x]| ==> delta[i + 1] == -arrays[x][i]
    ensures delta == Negated(Levels(d, proxy, stake, x))
  {
    assert ArrayOk(d, proxy, stake, arrays, x);
    BelowSelf(proxy, stake, x);
    hide Below;
    var levels := Levels(d, proxy, stake, x);
    forall i | 0 <= i < |delta| ensures delta[i] == -levels[i] {
      if i > 0 {
        assert delta[(i - 1) + 1] == -arrays[x][i - 1];
      }
    }
  }

  lemma {:induction false} GroundWithout(proxy: Proxies, stake: map<Name, int>, ballots: Ballots, x: Name)
    requires Ground(proxy, stake, ballots)
    ensures Ground(proxy - {x}, stake, ballots[x := {}])
  {
    var cleared := ballots[x := {}];
    forall a, w | Votes(cleared, a, w) ensures a !in proxy {
      assert Votes(ballots, a, w);
    }
  }

  /** From p the proxies end without meeting x, and x, p and those above are no more than the limit. */
  ghost predicate ChainFits(d: nat, proxy: Proxies, x: Name, p: Name)
  {
    exists n: nat :: ChainEnds(proxy, x, p, n) && (n == 0 || n + 2 <= d)
  }

  ghost predicate ChainEnds(proxy: Proxies, x: Name, p: Name, n: nat)
  {
    && Up(proxy, p, n).Some?
    && Up(proxy, p, n).value !in proxy
    && forall i: nat :: i <= n ==> Up(proxy, p, i) != Some(x)
  }

  /** A chain that comes to x, or in a cycle-free graph back to itself, does not fit. */
  lemma {:induction false} ChainMeets(d: nat, proxy: Proxies, x: Name, p: Name, n: nat)
    requires Acyclic(proxy) && Up(proxy, p, n).Some?
    requires Up(proxy, p, n) == Some(x) || exists i: nat :: i < n && Up(proxy, p, i) == Up(proxy, p, n)
    ensures !ChainFits(d, proxy, x, p)
  {
    if i: nat :| i < n && Up(proxy, p, i) == Up(proxy, p, n) {
      OneHeight(proxy, p, i, n);
    }
    forall m: nat ensures !ChainEnds(proxy, x, p, m) {
      if m < n && Up(proxy, p, m).Some? {
        UpUp(proxy, p, m, 1);
        UpUp(proxy, p, m, n - m);
      }
    }
  }

  lemma {:induction false} ChainTooLong(d: nat, proxy: Proxies, x: Name, p: Name, n: nat)
    requires n > 0 && Up(proxy, p, n).Some? && n + 2 > d
    ensures !ChainFits(d, proxy, x, p)
  {
    forall m: nat | m < n ensures !ChainEnds(proxy, x, p, m) {
      if Up(proxy, p, m).Some? {
        UpUp(proxy, p, m, n - m);
      }
    }
  }

  lemma {:induction false} RootsOnly(proxy: Proxies, stake: map<Name, int>, ballots: Ballots, x: Name)
    requires Ground(proxy, stake, ballots) && x in proxy && x in ballots
    ensures ballots[x := {}] == ballots
  {
    assert forall w :: w in ballots[x] ==> Votes(ballots, x, w);
    assert ballots[x] == {};
  }

  ghost predicate Voteless(ballots: Ballots, x: Name)
  {
    forall w :: !Votes(ballots, x, w)
  }

  /** Clearing the votes of x leaves the other votes and only those. */
  lemma {:induction false} ClearedVotes(ballots: Ballots, cleared: Ballots, x: Name)
    requires cleared == ballots[x := {}]
    ensures forall a, w :: Votes(cleared, a, w) ==> Votes(ballots, a, w)
    ensures Voteless(cleared, x)
  {
  }

  /** A chain that fits closes no cycle, and x has the same levels below it as before. */
  lemma {:induction false} NewChain(d: nat, proxy: Proxies, stake: map<Name, int>, x: Name, p: Name)
    requires Acyclic(proxy) && ChainFits(d, proxy, x, p)
    ensures Acyclic(proxy[x := p]) && proxy[x := p] - {x} == proxy - {x}
    ensures Levels(d, proxy[x := p], stake, x) == Levels(d, proxy, stake, x)
  {
    var joined, cut := proxy[x := p], proxy - {x};
    var n: nat :| ChainEnds(proxy, x, p, n);
    forall i: nat | i <= n + 1 ensures Up(cut, p, i) == Up(proxy, p, i) {
      CutPath(proxy, x, p, i);
    }
    DetachAcyclic(proxy, x);
    AttachAcyclic(cut, x, p, n);
    assert cut[x := p] == joined && joined - {x} == cut;
    LevelsStay(d, joined, stake, x);
    LevelsStay(d, proxy, stake, x);
  }

  /* ---- Which objects exist, and who may vote ---- */

  /** What a walk up the proxies needs of the objects it touches. */
  ghost predicate Linked(d: nat, proxy: Proxies, arrays: Arrays, ballots: Ballots, witnesses: Witnesses)
  {
    && (forall a :: a in arrays ==> a in ballots && |arrays[a]| == d)
    && (forall a :: a in proxy ==> proxy[a] in arrays)
    && (forall a, w :: Votes(ballots, a, w) ==> w in witnesses)
  }

  /**
   Everything that refers to an account or a witness refers to one that exists; only accounts that
   have neither a proxy nor declined their rights have votes; the vote counts are right.
   */
  ghost predicate Objects(
    d: nat, stake: map<Name, int>, proxy: Proxies, arrays: Arrays, declined: set<Name>, ballots: Ballots,
    votedFor: map<Name, nat>, witnesses: Witnesses)
  {
    && Linked(d, proxy, arrays, ballots, witnesses)
    && (forall a :: a in stake ==> a in arrays && a in votedFor && 0 <= stake[a])
    && (forall a :: a in proxy ==> a in stake && proxy[a] in stake && a !in declined)
    && (forall a, w :: Votes(ballots, a, w) ==> a !in proxy && a !in declined)
    && (forall a :: a in votedFor ==> a in ballots && votedFor[a] == |ballots[a]|)
    && (forall a :: a in ballots ==> a in stake)
  }

  lemma {:induction false} ObjectsGround(
    d: nat, stake: map<Name, int>, proxy: Proxies, arrays: Arrays, declined: set<Name>, ballots: Ballots,
    votedFor: map<Name, nat>, witnesses: Witnesses, x: Name)
    requires Objects(d, stake, proxy, arrays, declined, ballots, votedFor, witnesses)
    ensures Linked(d, proxy, arrays, ballots, witnesses) && Ground(proxy, stake, ballots)
    ensures x in stake ==> x in arrays && x in ballots && 0 <= stake[x]
    ensures x in proxy ==> x in stake
  {
  }

  /** Arrays and witnesses may change their contents. */
  lemma {:induction false} ObjectsWalked(
    d: nat, stake: map<Name, int>, proxy: Proxies, arrays: Arrays, declined: set<Name>, ballots: Ballots,
    votedFor: map<Name, nat>, witnesses: Witnesses, arrays': Arrays, witnesses': Witnesses)
    requires Objects(d, stake, proxy, arrays, declined, ballots, votedFor, witnesses)
    requires Linked(d, proxy, arrays', ballots, witnesses') && forall b :: b in arrays' <==> b in arrays
    ensures Objects(d, stake, proxy, arrays', declined, ballots, votedFor, witnesses')
  {
  }

  lemma {:induction false} ObjectsStake(
    d: nat, stake: map<Name, int>, proxy: Proxies, arrays: Arrays, declined: set<Name>, ballots: Ballots,
    votedFor: map<Name, nat>, witnesses: Witnesses, x: Name, v: nat)
    requires Objects(d, stake, proxy, arrays, declined, ballots, votedFor, witnesses) && x in stake
    ensures Objects(d, stake[x := v], proxy, arrays, declined, ballots, votedFor, witnesses)
  {
  }

  lemma {:induction false} ObjectsDrop(
    d: nat, stake: map<Name, int>, proxy: Proxies, arrays: Arrays, declined: set<Name>, ballots: Ballots,
    votedFor: map<Name, nat>, witnesses: Witnesses, x: Name)
    requires Objects(d, stake, proxy, arrays, declined, ballots, votedFor, witnesses)
    ensures Objects(d, stake, proxy - {x}, arrays, declined, ballots, votedFor, witnesses)
  {
  }

  lemma {:induction false} ObjectsClear(
    d: nat, stake: map<Name, int>, proxy: Proxies, arrays: Arrays, declined: set<Name>, ballots: Ballots,
    votedFor: map<Name, nat>, witnesses: Witnesses, x: Name)
    requires Objects(d, stake, proxy, arrays, declined, ballots, votedFor, witnesses) && x in stake
    ensures Objects(d, stake, proxy, arrays, declined, ballots[x := {}], votedFor[x := 0], witnesses)
    ensures Voteless(ballots[x := {}], x)
  {
    ClearedVotes(ballots, ballots[x := {}], x);
  }

  /** An account without votes may take a proxy. */
  lemma {:induction false} ObjectsTake(
    d: nat, stake: map<Name, int>, proxy: Proxies, arrays: Arrays, declined: set<Name>, ballots: Ballots,
    votedFor: map<Name, nat>, witnesses: Witnesses, x: Name, p: Name)
    requires Objects(d, stake, proxy, arrays, declined, ballots, votedFor, witnesses)
    requires x in stake && p in stake && x !in declined && Voteless(ballots, x)
    ensures Objects(d, stake, proxy[x := p], arrays, declined, ballots, votedFor, witnesses)
  {
  }

  lemma {:induction false} ObjectsDecline(
    d: nat, stake: map<Name, int>, proxy: Proxies, arrays: Arrays, declined: set<Name>, ballots: Ballots,
    votedFor: map<Name, nat>, witnesses: Witnesses, x: Name)
    requires Objects(d, stake, proxy, arrays, declined, ballots, votedFor, witnesses)
    requires x !in proxy && Voteless(ballots, x)
    ensures Objects(d, stake, proxy, arrays, declined + {x}, ballots, votedFor, witnesses)
  {
  }

  lemma {:induction false} ObjectsVote(
    d: nat, stake: map<Name, int>, proxy: Proxies, arrays: Arrays, declined: set<Name>, ballots: Ballots,
    votedFor: map<Name, nat>, witnesses: Witnesses, x: Name, ballot: set<Name>)
    requires Objects(d, stake, proxy, arrays, declined, ballots, votedFor, witnesses)
    requires x in stake && x !in proxy && (x in declined ==> ballot <= ballots[x]) && x in ballots
    requires forall w :: w in ballot ==> w in witnesses
    ensures Objects(d, stake, proxy, arrays, declined, ballots[x := ballot], votedFor[x := |ballot|], witnesses)
  {
    var ballots' := ballots[x := ballot];
    forall a, w | Votes(ballots', a, w) ensures w in witnesses && a !in proxy && a !in declined {
      assert a != x || a in declined ==> Votes(ballots, a, w);
    }
  }

  lemma {:induction false} ObjectsBallot(
    d: nat, stake: map<Name, int>, proxy: Proxies, arrays: Arrays, declined: set<Name>, ballots: Ballots,
    votedFor: map<Name, nat>, witnesses: Witnesses, x: Name)
    requires Objects(d, stake, proxy, arrays, declined, ballots, votedFor, witnesses) && x in stake
    ensures x in ballots && x in votedFor && votedFor[x] == |ballots[x]|
    ensures forall w :: w in ballots[x] ==> w in witnesses
    ensures x in declined ==> ballots[x] == {}
  {
    assert forall w :: w in ballots[x] ==> Votes(ballots, x, w);
  }

  lemma {:induction false} ObjectsAccount(
    d: nat, stake: map<Name, int>, proxy: Proxies, arrays: Arrays, declined: set<Name>, ballots: Ballots,
    votedFor: map<Name, nat>, witnesses: Witnesses, x: Name, slots: seq<int>)
    requires Objects(d, stake, proxy, arrays, declined, ballots, votedFor, witnesses)
    requires x !in stake && |slots| == d
    ensures x !in ballots && x !in proxy
    ensures Objects(d, stake[x := 0], proxy, arrays[x := slots], declined, ballots[x := {}], votedFor[x := 0],
      witnesses)
  {
    var ballots' := ballots[x := {}];
    forall a, w | Votes(ballots', a, w) ensures Votes(ballots, a, w) {
    }
  }

  lemma {:induction false} ObjectsWitnesses(
    d: nat, stake: map<Name, int>, proxy: Proxies, arrays: Arrays, declined: set<Name>, ballots: Ballots,
    votedFor: map<Name, nat>, witnesses: Witnesses, witnesses': Witnesses)
    requires Objects(d, stake, proxy, arrays, declined, ballots, votedFor, witnesses)
    requires forall w :: w in witnesses ==> w in witnesses'
    ensures Objects(d, stake, proxy, arrays, declined, ballots, votedFor, witnesses')
  {
  }

  /** Nobody is below an account that does not exist yet. */
  lemma {:induction false} NothingBelow(
    d: nat, stake: map<Name, int>, proxy: Proxies, arrays: Arrays, declined: set<Name>, ballots: Ballots,
    votedFor: map<Name, nat>, witnesses: Witnesses, x: Name, k: nat)
    requires Objects(d, stake, proxy, arrays, declined, ballots, votedFor, witnesses)
    requires x !in stake && k > 0
    ensures Below(proxy, stake[x := 0], x, k) == 0
  {
    var below := StakesBelow(proxy, stake[x := 0], x, k);
    forall y | y in stake[x := 0] ensures Up(proxy, y, k) != Some(x) {
      if y in stake {
        UpIsAccount(proxy, stake, y, k);
      }
    }
    assert below == map[];
  }

  lemma {:induction false} NewArrays(
    d: nat, stake: map<Name, int>, proxy: Proxies, arrays: Arrays, declined: set<Name>, ballots: Ballots,
    votedFor: map<Name, nat>, witnesses: Witnesses, x: Name, slots: seq<int>)
    requires Objects(d, stake, proxy, arrays, declined, ballots, votedFor, witnesses)
    requires ArraysOk(d, proxy, stake, arrays)
    requires x !in stake && |slots| == d && forall i :: 0 <= i < d ==> slots[i] == 0
    ensures ArraysOk(d, proxy, stake[x := 0], arrays[x := slots])
  {
    hide Below, Objects;
    var stake', arrays' := stake[x := 0], arrays[x := slots];
    forall b ensures ArrayOk(d, proxy, stake', arrays', b) {
      assert ArrayOk(d, proxy, stake, arrays, b);
      forall k: nat | k > 0
        ensures Below(proxy, stake', b, k) == if b == x then 0 else Below(proxy, stake, b, k)
      {
        NewAccount(proxy, stake, x, b, k);
        NothingBelow(d, stake, proxy, arrays, declined, ballots, votedFor, witnesses, x, k);
      }
    }
  }

  lemma {:induction false} NewTallies(
    d: nat, proxy: Proxies, stake: map<Name, int>, ballots: Ballots, now: nat, witnesses: Witnesses, x: Name)
    requires WitnessesOk(d, proxy, stake, ballots, now, witnesses)
    requires x !in stake && x !in ballots
    ensures WitnessesOk(d, proxy, stake[x := 0], ballots[x := {}], now, witnesses)
  {
    forall w | w in witnesses ensures WitnessOk(d, proxy, stake[x := 0], ballots[x := {}], now, w, witnesses[w]) {
      assert WitnessOk(d, proxy, stake, ballots, now, w, witnesses[w]);
      TallyNewAccount(d, proxy, stake, ballots, x, w);
      TallyWithout(d, proxy, stake[x := 0], ballots, x, w);
    }
  }

  /** A witness nobody votes for yet has no votes and is on time. */
  lemma {:induction false} NewWitnessOk(
    d: nat, proxy: Proxies, stake: map<Name, int>, ballots: Ballots, now: nat, witnesses: Witnesses, v: Name,
    record: Witness)
    requires WitnessesOk(d, proxy, stake, ballots, now, witnesses)
    requires forall a :: !Votes(ballots, a, v)
    requires record.votes == 0 && OnTime(record, now)
    ensures WitnessesOk(d, proxy, stake, ballots, now, witnesses[v := record])
  {
    var witnesses' := witnesses[v := record];
    forall w | w in witnesses' ensures WitnessOk(d, proxy, stake, ballots, now, w, witnesses'[w]) {
      if w == v {
        assert VoterWeights(d, proxy, stake, ballots, v) == map[];
      } else {
        assert WitnessOk(d, proxy, stake, ballots, now, w, witnesses[w]);
      }
    }
  }

  /** A record may change in what neither votes nor clock depend on. */
  lemma {:induction false} SameRecord(
    d: nat, proxy: Proxies, stake: map<Name, int>, ballots: Ballots, now: nat, witnesses: Witnesses, v: Name,
    record: Witness)
    requires WitnessesOk(d, proxy, stake, ballots, now, witnesses) && v in witnesses
    requires record == witnesses[v].(hasKey := record.hasKey)
    ensures WitnessesOk(d, proxy, stake, ballots, now, witnesses[v := record])
  {
    var witnesses' := witnesses[v := record];
    forall w | w in witnesses' ensures WitnessOk(d, proxy, stake, ballots, now, w, witnesses'[w]) {
      assert WitnessOk(d, proxy, stake, ballots, now, w, witnesses[w]);
    }
  }

  /** The totals do not depend on the clock or on how witnesses were scheduled. */
  lemma {:induction false} RoundKeepsTotals(
    d: nat, proxy: Proxies, stake: map<Name, int>, ballots: Ballots, now: nat, witnesses: Witnesses, now': nat,
    witnesses': Witnesses)
    requires WitnessesOk(d, proxy, stake, ballots, now, witnesses)
    requires SameBut(witnesses, witnesses') && ClockBehind(witnesses', now')
    ensures WitnessesOk(d, proxy, stake, ballots, now', witnesses')
  {
    forall w | w in witnesses' ensures WitnessOk(d, proxy, stake, ballots, now', w, witnesses'[w]) {
      assert WitnessOk(d, proxy, stake, ballots, now, w, witnesses[w]);
    }
  }

  lemma {:induction false} TotalsOnTime(
    d: nat, proxy: Proxies, stake: map<Name, int>, ballots: Ballots, now: nat, witnesses: Witnesses)
    requires WitnessesOk(d, proxy, stake, ballots, now, witnesses)
    ensures ClockBehind(witnesses, now)
  {
    forall w | w in witnesses ensures OnTime(witnesses[w], now) {
      assert WitnessOk(d, proxy, stake, ballots, now, w, witnesses[w]);
    }
  }

  /** What one more or one less vote does to the tallies. */
  lemma {:induction false} VoteChange(
    d: nat, proxy: Proxies, stake: map<Name, int>, ballots: Ballots, now: nat, witnesses: Witnesses, x: Name,
    v: Name, approve: bool, weight: int)
    requires WitnessesOk(d, proxy, stake, ballots, now, witnesses) && v in witnesses && x in stake && x in ballots
    requires x !in proxy
    requires Ground(proxy, stake, ballots) && approve == (v !in ballots[x]) && weight == Within(proxy, stake, x, d)
    ensures var delta := if approve then weight else -weight;
            var ballots' := ballots[x := if approve then ballots[x] + {v} else ballots[x] - {v}];
            && 0 <= witnesses[v].votes + delta <= Sum(stake)
            && WitnessesOk(d, proxy, stake, ballots', now, witnesses[v := AdjustVote(witnesses[v], now, delta)])
  {
    var delta := if approve then weight else -weight;
    var ballots' := ballots[x := if approve then ballots[x] + {v} else ballots[x] - {v}];
    forall w ensures Tally(d, proxy, stake, ballots', w)
      == Tally(d, proxy, stake, ballots, w) + if w == v then delta else 0 {
      if approve {
        TallyVote(d, proxy, stake, ballots, x, v, w);
      } else {
        assert ballots[x] - {v} + {v} == ballots[x];
        assert ballots'[x := ballots'[x] + {v}] == ballots;
        TallyVote(d, proxy, stake, ballots', x, v, w);
      }
    }
    assert WitnessOk(d, proxy, stake, ballots, now, v, witnesses[v]);
    forall a, w | Votes(ballots', a, w) ensures a !in proxy {
      assert a != x ==> Votes(ballots, a, w);
    }
    TallyBounds(d, proxy, stake, ballots', v);
    AdjustKeepsOnTime(witnesses[v], now, delta);
    var witnesses' := witnesses[v := AdjustVote(witnesses[v], now, delta)];
    forall w | w in witnesses' ensures WitnessOk(d, proxy, stake, ballots', now, w, witnesses'[w]) {
      if w != v {
        assert WitnessOk(d, proxy, stake, ballots, now, w, witnesses[w]);
      }
    }
  }

  /* ---- Deposits that arrive before the withdrawal they come from is taken off ---- */

  /** What the deposits bring to the votes of w. */
  ghost function Arriving(d: nat, proxy: Proxies, ballots: Ballots, deposits: seq<(Name, nat)>, w: Name): (r: nat)
  {
    if deposits == [] then 0
    else
      var last := deposits[|deposits| - 1];
      Arriving(d, proxy, ballots, deposits[..|deposits| - 1], w)
        + if TopVotes(d, proxy, ballots, last.0, 0, w) then last.1 else 0
  }

  lemma {:induction false} ArrivingGrows(
    d: nat, proxy: Proxies, ballots: Ballots, deposits: seq<(Name, nat)>, n: nat, w: Name)
    requires n <= |deposits|
    ensures Arriving(d, proxy, ballots, deposits[..n], w) <= Arriving(d, proxy, ballots, deposits, w)
    decreases |deposits| - n
  {
    if n == |deposits| {
      assert deposits[..n] == deposits;
    } else {
      assert deposits[..n + 1][..n] == deposits[..n];
      ArrivingGrows(d, proxy, ballots, deposits, n + 1, w);
    }
  }

  function DepositTotal(deposits: seq<(Name, nat)>): (r: nat)
  {
    if deposits == [] then 0 else DepositTotal(deposits[..|deposits| - 1]) + deposits[|deposits| - 1].1
  }

  /** The stakes with all deposits credited. */
  ghost function Credited(stake: map<Name, int>, deposits: seq<(Name, nat)>): (r: map<Name, int>)
    requires forall i :: 0 <= i < |deposits| ==> deposits[i].0 in stake
    ensures forall a :: a in stake ==> a in r && stake[a] <= r[a]
  {
    if deposits == [] then stake
    else
      var (to, amount) := deposits[|deposits| - 1];
      var r := Credited(stake, deposits[..|deposits| - 1]);
      r[to := r[to] + amount]
  }

  /** The votes after the first i deposits, none of which led to more votes than the total. */
  ghost predicate Arrived(
    d: nat, proxy: Proxies, ballots: Ballots, deposits: seq<(Name, nat)>, i: nat, total: int, start: Witnesses,
    witnesses: Witnesses)
    requires i <= |deposits|
  {
    && (forall w :: w in witnesses <==> w in start)
    && forall w :: w in start ==>
         && witnesses[w].votes == start[w].votes + Arriving(d, proxy, ballots, deposits[..i], w)
         && witnesses[w].votes <= total
  }

  lemma {:induction false} NoneArrived(
    d: nat, proxy: Proxies, ballots: Ballots, deposits: seq<(Name, nat)>, total: int, stake: map<Name, int>,
    witnesses: Witnesses)
    requires forall w :: w in witnesses ==> witnesses[w].votes <= total
    ensures Arrived(d, proxy, ballots, deposits, 0, total, witnesses, witnesses)
    ensures DepositTotal(deposits[..0]) == 0 && Credited(stake, deposits[..0]) == stake
  {
    assert deposits[..0] == [];
  }

  lemma {:induction false} AllArrived(
    d: nat, proxy: Proxies, ballots: Ballots, deposits: seq<(Name, nat)>, total: int, start: Witnesses,
    witnesses: Witnesses)
    requires Arrived(d, proxy, ballots, deposits, |deposits|, total, start, witnesses)
    ensures forall w :: w in start ==> start[w].votes + Arriving(d, proxy, ballots, deposits, w) <= total
  {
    assert deposits[..|deposits|] == deposits;
  }

  lemma {:induction false} CreditedNext(stake: map<Name, int>, deposits: seq<(Name, nat)>, i: nat)
    requires i < |deposits| && forall j :: 0 <= j < |deposits| ==> deposits[j].0 in stake
    ensures var r := Credited(stake, deposits[..i]);
            deposits[i].0 in r && Credited(stake, deposits[..i + 1])
              == r[deposits[i].0 := r[deposits[i].0] + deposits[i].1]
  {
    assert deposits[..i + 1][..i] == deposits[..i];
  }

  lemma {:induction false} DepositGain(d: nat, proxy: Proxies, ballots: Ballots, to: Name, amount: nat, w: Name)
    ensures VoteGain(d, proxy, ballots, to, StakeDelta(d, amount), 0, w)
      == if TopVotes(d, proxy, ballots, to, 0, w) then amount else 0
  {
    var top := Top(d, proxy, to, 0);
    if top.Some? {
      PrefixOfStakeDelta(d, amount, d - top.value.1);
    }
  }

  lemma {:induction false} ArrivingNext(
    d: nat, proxy: Proxies, ballots: Ballots, deposits: seq<(Name, nat)>, i: nat, w: Name)
    requires i < |deposits|
    ensures Arriving(d, proxy, ballots, deposits[..i + 1], w)
         == Arriving(d, proxy, ballots, deposits[..i], w)
           + if TopVotes(d, proxy, ballots, deposits[i].0, 0, w) then deposits[i].1 else 0
  {
    assert deposits[..i + 1][..i] == deposits[..i];
  }

  lemma {:induction false} DepositArrives(
    d: nat, proxy: Proxies, ballots: Ballots, deposits: seq<(Name, nat)>, i: nat, total: int, now: nat,
    start: Witnesses, before: Witnesses, after: Witnesses)
    requires i < |deposits| && Arrived(d, proxy, ballots, deposits, i, total, start, before)
    requires var change := StakeDelta(d, deposits[i].1);
             && (deposits[i].1 == 0 ==> after == before)
             && (deposits[i].1 > 0 ==>
                  && WithinTotal(d, proxy, ballots, deposits[i].0, change, 0, total, before)
                  && AllRevised(d, proxy, ballots, deposits[i].0, change, 0, now, before, after))
    ensures Arrived(d, proxy, ballots, deposits, i + 1, total, start, after)
  {
    var (to, amount) := deposits[i];
    forall w | w in start
      ensures after[w].votes == start[w].votes + Arriving(d, proxy, ballots, deposits[..i + 1], w) <= total
    {
      DepositGain(d, proxy, ballots, to, amount, w);
      ArrivingNext(d, proxy, ballots, deposits, i, w);
      assert amount > 0 ==> Revised(d, proxy, ballots, to, StakeDelta(d, amount), 0, now, w, before[w], after[w]);
    }
  }

  lemma {:induction false} DepositRefused(
    d: nat, proxy: Proxies, ballots: Ballots, deposits: seq<(Name, nat)>, i: nat, total: int, start: Witnesses,
    before: Witnesses)
    requires i < |deposits| && Arrived(d, proxy, ballots, deposits, i, total, start, before)
    requires !WithinTotal(d, proxy, ballots, deposits[i].0, StakeDelta(d, deposits[i].1), 0, total, before)
    ensures exists w :: w in start && start[w].votes + Arriving(d, proxy, ballots, deposits, w) > total
  {
    var (to, amount) := deposits[i];
    var change := StakeDelta(d, amount);
    var w :| w in before && TopVotes(d, proxy, ballots, to, 0, w)
      && before[w].votes + VoteGain(d, proxy, ballots, to, change, 0, w) > total;
    DepositGain(d, proxy, ballots, to, amount, w);
    ArrivingNext(d, proxy, ballots, deposits, i, w);
    ArrivingGrows(d, proxy, ballots, deposits, i + 1, w);
    assert w in start && start[w].votes + Arriving(d, proxy, ballots, deposits, w) > total;
  }

  /** No witness has more votes than there is stake. */
  lemma {:induction false} VotesBounded(
    d: nat, proxy: Proxies, stake: map<Name, int>, ballots: Ballots, now: nat, witnesses: Witnesses)
    requires WitnessesOk(d, proxy, stake, ballots, now, witnesses) && Ground(proxy, stake, ballots)
    ensures forall w :: w in witnesses ==> 0 <= witnesses[w].votes <= Sum(stake)
  {
    forall w | w in witnesses ensures 0 <= witnesses[w].votes <= Sum(stake) {
      assert WitnessOk(d, proxy, stake, ballots, now, w, witnesses[w]);
      TallyBounds(d, proxy, stake, ballots, w);
    }
  }

  ghost function Total(slots: seq<int>, n: nat): int
    requires n <= |slots|
  {
    if n == 0 then 0 else slots[n - 1] + Total(slots, n - 1)
  }

  lemma {:induction false} TotalIsWithin(d: nat, proxy: Proxies, stake: map<Name, int>, arrays: Arrays, a: Name, n: nat)
    requires ArrayOk(d, proxy, stake, arrays, a) && a in stake && a in arrays && n <= d
    ensures stake[a] + Total(arrays[a], n) == Within(proxy, stake, a, n)
    decreases n
  {
    hide Below;
    if n == 0 {
      BelowSelf(proxy, stake, a);
    } else {
      TotalIsWithin(d, proxy, stake, arrays, a, n - 1);
    }
  }

  lemma {:induction false} StoredIsShare(d: nat, proxy: Proxies, stake: map<Name, int>, arrays: Arrays, a: Name)
    requires ArraysOk(d, proxy, stake, arrays) && a in stake && a in arrays
    ensures |arrays[a]| == d
    ensures a !in proxy ==> stake[a] + Total(arrays[a], d) == Share(proxy, stake, a, d)
    ensures a in proxy && d > 0 ==> arrays[a][d - 1] == Share(proxy, stake, a, d)
    ensures a in proxy && d == 0 ==> stake[a] == Share(proxy, stake, a, d)
  {
    hide Below;
    assert ArrayOk(d, proxy, stake, arrays, a);
    TotalIsWithin(d, proxy, stake, arrays, a, d);
    BelowSelf(proxy, stake, a);
  }

  /**
   A deposit can be refused although every total is right: two accounts vote for the same witness
   with all the stake there is, and one powers down into the other.
   */
  lemma {:induction false} DepositCanBeRefused(d: nat)
    ensures var stake := map[1 := 100, 2 := 0];
            var ballots := map[1 := {7}, 2 := {7}];
            && Tally(d, map[], stake, ballots, 7) == 100 == Sum(stake)
            && 100 + Arriving(d, map[], ballots, [(2, 50)], 7) > Sum(stake)
  {
    var stake: map<Name, int> := map[1 := 100, 2 := 0];
    var ballots: Ballots := map[1 := {7}, 2 := {7}];
    SumRemove(stake, 1);
    SumRemove(stake - {1}, 2);
    assert stake - {1} - {2} == map[];
    LoneWithin(d, stake, 1);
    LoneWithin(d, stake, 2);
    assert VoterWeights(d, map[], stake, ballots, 7) == stake;
    assert [(2, 50)][..0] == [];
    assert Votes(ballots, 2, 7) && Top(d, map[], 2, 0) == Some((2, 0));
    assert TopVotes(d, map[], ballots, 2, 0, 7);
    assert Arriving(d, map[], ballots, [], 7) == 0;
  }

  /** Without proxies an account weighs its own stake. */
  lemma {:induction false} LoneWithin(d: nat, stake: map<Name, int>, a: Name)
    requires a in stake
    ensures Within(map[], stake, a, d) == stake[a]
    decreases d
  {
    BelowSelf(map[], stake, a);
    if d > 0 {
      LoneWithin(d - 1, stake, a);
      assert StakesBelow(map[], stake, a, d) == map[];
    }
  }

  /* ---- Stake that goes without a walk ---- */

  lemma {:induction false} ObjectsArrays(
    d: nat, stake: map<Name, int>, proxy: Proxies, arrays: Arrays, declined: set<Name>, ballots: Ballots,
    votedFor: map<Name, nat>, witnesses: Witnesses, x: Name)
    requires Objects(d, stake, proxy, arrays, declined, ballots, votedFor, witnesses) && x in stake && x in ballots
    ensures forall b :: b in arrays ==> |arrays[b]| == d
    ensures x in proxy ==> proxy[x] in stake && proxy[x] in arrays && ballots[x] == {}
    ensures forall w :: Votes(ballots, x, w) ==> w in witnesses
  {
    if x in proxy {
      assert forall w :: w in ballots[x] ==> Votes(ballots, x, w);
    }
  }

  /** The arrays are right without x's stake exactly when nobody is above x to count it. */
  lemma {:induction false} ClearedArrays(d: nat, proxy: Proxies, stake: map<Name, int>, arrays: Arrays, x: Name)
    requires Acyclic(proxy) && x in stake && ArraysOk(d, proxy, stake, arrays)
    requires forall b :: b in arrays ==> |arrays[b]| == d
    requires x in proxy ==> proxy[x] in stake && proxy[x] in arrays
    ensures ArraysOk(d, proxy, stake[x := 0], arrays) <==> stake[x] == 0 || x !in proxy || d == 0
  {
    hide Below, Acyclic, StakeDelta;
    var gone := -stake[x];
    assert stake[x := 0] == stake[x := stake[x] + gone];
    if x !in proxy || d == 0 {
      WalkedNowhere(d, proxy, x, StakeDelta(d, gone), 0, arrays);
      StakeArrays(d, proxy, stake, x, gone, arrays, arrays);
    } else if stake[x] == 0 {
      assert stake[x := 0] == stake;
    } else {
      StakeChange(proxy, stake, x, gone, proxy[x], 1);
      assert Up(proxy, x, 1) == Up(proxy, proxy[x], 0);
      assert ArrayOk(d, proxy, stake, arrays, proxy[x]);
      assert arrays[proxy[x]][0] == Below(proxy, stake, proxy[x], 0 + 1);
      assert !ArrayOk(d, proxy, stake[x := 0], arrays, proxy[x]);
    }
  }

  /** The tallies are right without x's stake exactly when x's root does not vote within the depth. */
  lemma {:induction false} ClearedTallies(
    d: nat, proxy: Proxies, stake: map<Name, int>, ballots: Ballots, now: nat, witnesses: Witnesses, x: Name)
    requires Ground(proxy, stake, ballots) && x in stake && x in ballots
    requires WitnessesOk(d, proxy, stake, ballots, now, witnesses)
    requires x in proxy ==> ballots[x] == {}
    requires forall w :: Votes(ballots, x, w) ==> w in witnesses
    ensures x !in proxy || d == 0 ==>
      (WitnessesOk(d, proxy, stake[x := 0], ballots, now, witnesses) <==> stake[x] == 0 || ballots[x] == {})
    ensures stake[x] == 0 ==> WitnessesOk(d, proxy, stake[x := 0], ballots, now, witnesses)
  {
    hide Tally, WitnessOk, OnTime;
    if stake[x] == 0 {
      assert stake[x := 0] == stake;
    } else if x !in proxy || d == 0 {
      if ballots[x] == {} {
        forall w | w in witnesses ensures WitnessOk(d, proxy, stake[x := 0], ballots, now, w, witnesses[w]) {
          assert WitnessOk(d, proxy, stake, ballots, now, w, witnesses[w]);
          ClearedTally(d, proxy, stake, ballots, now, x, w, witnesses[w]);
        }
      } else {
        var w :| w in ballots[x];
        assert Votes(ballots, x, w);
        assert WitnessOk(d, proxy, stake, ballots, now, w, witnesses[w]);
        ClearedTally(d, proxy, stake, ballots, now, x, w, witnesses[w]);
      }
    }
  }

  lemma {:induction false} ClearedTally(
    d: nat, proxy: Proxies, stake: map<Name, int>, ballots: Ballots, now: nat, x: Name, w: Name, record: Witness)
    requires Ground(proxy, stake, ballots) && x in stake && (x !in proxy || (d == 0 && !Votes(ballots, x, w)))
    requires WitnessOk(d, proxy, stake, ballots, now, w, record)
    ensures WitnessOk(d, proxy, stake[x := 0], ballots, now, w, record) <==> stake[x] == 0 || !Votes(ballots, x, w)
  {
    hide Tally, OnTime, Prefix, StakeDelta;
    var gone := -stake[x];
    assert stake[x := 0] == stake[x := stake[x] + gone];
    StakeTally(d, proxy, stake, ballots, x, gone, w);
    PrefixOfStakeDelta(d, gone, d);
  }

  datatype Operation =
    | CreateAccountOp(account: Name)
    | WitnessUpdateOp(producer: Name, id: nat, hasKey: bool)
    | AddStakeOp(account: Name, amount: nat)
    | PowerDownOp(account: Name, amount: nat, deposits: seq<(Name, nat)>)
    | SetProxyOp(account: Name, newProxy: Option<Name>)
    | VoteOp(account: Name, producer: Name, approve: bool)
    | DeclineOp(account: Name)
    | ScheduleOp(nowHi: bv64)
    | ClearNullOp

  predicate MovesStake(op: Operation)
  {
    op.CreateAccountOp? || op.AddStakeOp? || op.PowerDownOp? || op.ClearNullOp?
  }

  class VotingDatabase {
    const maxDepth: nat                   // MAX_PROXY_RECURSION_DEPTH
    const nullAccount: Name               // NULL_ACCOUNT, for which nobody can sign
    var stake: map<Name, int>             // account_object::SCORE
    var proxy: Proxies                    // account_object::proxy
    var proxied: Arrays                   // account_object::proxied_SCOREfundTMEbalance_votes
    var declined: set<Name>               // the accounts whose can_vote is false
    var ballots: Ballots                  // witness_vote_index, by account
    var votedFor: map<Name, nat>          // account_object::witnesses_voted_for
    var witnesses: Witnesses              // witness_index
    var totalScore: int                   // dynamic_global_property_object::totalSCORE
    var now: nat                          // witness_schedule_object::current_virtual_time
    const maxWitnesses: nat               // MAX_WITNESSES
    const maxVoted: nat                   // witness_schedule_object::max_voted_witnesses
    const maxMiners: nat                  // witness_schedule_object::max_miner_witnesses
    const shuffled: array<Option<Name>>   // witness_schedule_object::current_shuffled_witnesses
    var numScheduled: nat                 // witness_schedule_object::num_scheduled_witnesses

    /** The proxy graph has no cycle and the proxied arrays are the levels below each account. */
    ghost predicate ProxiesOk()
      reads this
    {
      && Acyclic(proxy)
      && ArraysOk(maxDepth, proxy, stake, proxied)
    }

    /** Consistent, with `extra` stake held by accounts beyond what totalScore says. */
    ghost predicate ValidBut(extra: int)
      reads this
    {
      && Objects(maxDepth, stake, proxy, proxied, declined, ballots, votedFor, witnesses)
      && ProxiesOk()
      && WitnessesOk(maxDepth, proxy, stake, ballots, now, witnesses)
      && Sum(stake) == totalScore + extra
      && ScheduleOk()
    }

    ghost predicate ScheduleOk()
      reads this
    {
      && now <= MAX_TIME && shuffled.Length == maxWitnesses
      && 0 < maxWitnesses < 256 && maxVoted + maxMiners <= maxWitnesses
    }

    ghost predicate Valid()
      reads this
    {
      ValidBut(0)
    }

    /** The null account neither votes nor has a proxy. */
    ghost predicate Silent()
      reads this
    {
      nullAccount !in proxy && (nullAccount in ballots ==> ballots[nullAccount] == {})
    }

    /** What validate_invariants adds up for one account, from the stored array. */
    ghost function StoredShare(a: Name): int
      requires a in stake && a in proxied && |proxied[a]| == maxDepth
      reads this
    {
      if a !in proxy then stake[a] + Total(proxied[a], maxDepth)
      else if maxDepth > 0 then proxied[a][maxDepth - 1]
      else stake[a]
    }

    /** In every consistent state the stored shares add up to the total stake, and no witness has more votes. */
    lemma {:induction false} ValidateInvariants(shares: map<Name, int>)
      requires Valid()
      requires forall a :: a in shares <==> a in stake
      requires forall a :: a in shares ==> a in proxied && |proxied[a]| == maxDepth && shares[a] == StoredShare(a)
      ensures Sum(shares) == totalScore
      ensures forall w :: w in witnesses ==> 0 <= witnesses[w].votes <= totalScore
    {
      hide Sum, Share, WitnessesOk;
      forall a | a in shares ensures shares[a] == Share(proxy, stake, a, maxDepth) {
        StoredIsShare(maxDepth, proxy, stake, proxied, a);
      }
      assert shares == Shares(proxy, stake, maxDepth);
      SharesAreAllStake(proxy, stake, maxDepth);
      AllBounded();
    }

    constructor (maxDepth: nat, nullAccount: Name, maxWitnesses: nat, maxVoted: nat, maxMiners: nat)
      requires 0 < maxWitnesses < 256 && maxVoted + maxMiners <= maxWitnesses
      ensures Valid() && Silent() && fresh(shuffled)
      ensures this.maxDepth == maxDepth && this.nullAccount == nullAccount && stake == map[] && witnesses == map[]
      ensures totalScore == 0 && now == 0 && numScheduled == 1
      ensures shuffled.Length == maxWitnesses && forall i :: 0 <= i < maxWitnesses ==> shuffled[i] == None
    {
      this.nullAccount := nullAccount;
      this.maxDepth, this.maxWitnesses, this.maxVoted, this.maxMiners := maxDepth, maxWitnesses, maxVoted, maxMiners;
      stake, proxy, proxied, declined := map[], map[], map[], {};
      ballots, votedFor, witnesses, totalScore, now := map[], map[], map[], 0, 0;
      shuffled, numScheduled := new Option<Name>[maxWitnesses](i => None), 1;
      new;
      forall a: Name, k: nat | k > 0 ensures Up(proxy, a, k) != Some(a) {
        assert Up(proxy, a, k) == None;
      }
    }

    /** One witness's vote change; refused when it would have more votes than there is stake. */
    method AdjustWitnessVote(w: Name, delta: int) returns (ok: bool)
      requires w in witnesses && 0 <= witnesses[w].votes + delta
      modifies this`witnesses
      ensures ok <==> old(witnesses)[w].votes + delta <= totalScore
      ensures witnesses == if ok then old(witnesses)[w := AdjustVote(old(witnesses)[w], now, delta)] else old(witnesses)
    {
      var r := AdjustVote(witnesses[w], now, delta);
      if r.votes > totalScore {
        return false;
      }
      witnesses := witnesses[w := r];
      return true;
    }

    /** The same change for every witness that `a` votes for. */
    method AdjustWitnessVotes(a: Name, delta: int) returns (ok: bool)
      requires a in ballots
      requires forall w :: w in ballots[a] ==> w in witnesses && 0 <= witnesses[w].votes + delta
      modifies this`witnesses
      ensures ok <==> forall w :: w in ballots[a] ==> old(witnesses)[w].votes + delta <= totalScore
      ensures ok ==> Adjusted(ballots, a, delta, now, old(witnesses), witnesses)
    {
      var todo := ballots[a];
      while todo != {}
        invariant todo <= ballots[a]
        invariant forall w :: w in witnesses <==> w in old(witnesses)
        invariant forall w :: w in ballots[a] && w !in todo ==>
          && witnesses[w] == AdjustVote(old(witnesses)[w], now, delta)
          && old(witnesses)[w].votes + delta <= totalScore
        invariant forall w :: w in witnesses && (w !in ballots[a] || w in todo) ==> witnesses[w] == old(witnesses)[w]
        decreases todo
      {
        var w :| w in todo;
        ok := AdjustWitnessVote(w, delta);
        if !ok {
          return;
        }
        todo := todo - {w};
      }
      ok := true;
    }

    /** The end of a walk at a root: its votes change by what arrives within the depth limit. */
    method AdjustAtRoot(a: Name, total: int, ghost delta: seq<int>, ghost at: nat) returns (ok: bool)
      requires |delta| == maxDepth + 1 && at <= maxDepth && total == Prefix(delta, maxDepth - at)
      requires a in ballots && a !in proxy
      requires forall v, w :: Votes(ballots, v, w) ==> w in witnesses
      requires Payable(maxDepth, proxy, ballots, a, delta, at, witnesses)
      modifies this`witnesses
      ensures ok <==> WithinTotal(maxDepth, proxy, ballots, a, delta, at, totalScore, old(witnesses))
      ensures ok ==> AllRevised(maxDepth, proxy, ballots, a, delta, at, now, old(witnesses), witnesses)
      ensures ok ==> forall w :: w in witnesses <==> w in old(witnesses)
    {
      RootTotal(maxDepth, proxy, ballots, a, delta, at, totalScore, witnesses);
      ok := AdjustWitnessVotes(a, total);
      if ok {
        RevisedAtRoot(maxDepth, proxy, ballots, a, delta, at, now, old(witnesses), witnesses);
      }
    }

    /** Adds a change with one part per level below `a` to everyone above it, `at` hops up already. */
    method AdjustProxiedLevels(a: Name, delta: seq<int>, at: nat) returns (ok: bool)
      requires |delta| == maxDepth + 1 && at <= maxDepth
      requires a in proxied && Linked(maxDepth, proxy, proxied, ballots, witnesses)
      requires Payable(maxDepth, proxy, ballots, a, delta, at, witnesses)
      modifies this`proxied, this`witnesses
      ensures ok <==> WithinTotal(maxDepth, proxy, ballots, a, delta, at, totalScore, old(witnesses))
      ensures ok ==>
        Linked(maxDepth, proxy, proxied, ballots, witnesses) && (forall b :: b in proxied <==> b in old(proxied))
      ensures ok ==> forall w :: w in witnesses <==> w in old(witnesses)
      ensures ok ==> Walked(maxDepth, proxy, a, delta, at, old(proxied), proxied)
      ensures ok ==> AllRevised(maxDepth, proxy, ballots, a, delta, at, now, old(witnesses), witnesses)
      decreases maxDepth - at
    {
      hide Walked, Payable, WithinTotal, AllRevised, Prefix;
      if a in proxy {
        if at >= maxDepth {
          // nested proxies are not supported, the vote does not propagate
          WalkedNowhere(maxDepth, proxy, a, delta, at, proxied);
          RevisedNowhere(maxDepth, proxy, ballots, a, delta, at, now, totalScore, witnesses);
          return true;
        }
        var above := proxy[a];
        var slots := RaiseSlots(proxied[above], delta, at);
        proxied := proxied[above := slots];
        RevisedUp(maxDepth, proxy, ballots, a, delta, at, now, totalScore, witnesses, witnesses);
        ok := AdjustProxiedLevels(above, delta, at + 1);
        if ok {
          WalkedStep(maxDepth, proxy, a, delta, at, old(proxied), slots, proxied);
          RevisedUp(maxDepth, proxy, ballots, a, delta, at, now, totalScore, old(witnesses), witnesses);
        }
      } else {
        var total := TotalUpTo(delta, maxDepth - at);
        ok := AdjustAtRoot(a, total, delta, at);
        WalkedNowhere(maxDepth, proxy, a, delta, at, proxied);
      }
    }

    /** The same walk for one account's own stake change, which touches one slot per ancestor. */
    method AdjustProxiedStake(a: Name, delta: int, at: nat) returns (ok: bool)
      requires at <= maxDepth
      requires a in proxied && Linked(maxDepth, proxy, proxied, ballots, witnesses)
      requires Payable(maxDepth, proxy, ballots, a, StakeDelta(maxDepth, delta), at, witnesses)
      modifies this`proxied, this`witnesses
      ensures ok <==>
        WithinTotal(maxDepth, proxy, ballots, a, StakeDelta(maxDepth, delta), at, totalScore, old(witnesses))
      ensures ok ==>
        Linked(maxDepth, proxy, proxied, ballots, witnesses) && (forall b :: b in proxied <==> b in old(proxied))
      ensures ok ==> forall w :: w in witnesses <==> w in old(witnesses)
      ensures ok ==> Walked(maxDepth, proxy, a, StakeDelta(maxDepth, delta), at, old(proxied), proxied)
      ensures ok ==>
        AllRevised(maxDepth, proxy, ballots, a, StakeDelta(maxDepth, delta), at, now, old(witnesses), witnesses)
      decreases maxDepth - at
    {
      hide Walked, Payable, WithinTotal, AllRevised, Prefix, StakeDelta;
      ghost var change := StakeDelta(maxDepth, delta);
      if a in proxy {
        if at >= maxDepth {
          WalkedNowhere(maxDepth, proxy, a, change, at, proxied);
          RevisedNowhere(maxDepth, proxy, ballots, a, change, at, now, totalScore, witnesses);
          return true;
        }
        var above := proxy[a];
        var slots := proxied[above][at := proxied[above][at] + delta];
        proxied := proxied[above := slots];
        RevisedUp(maxDepth, proxy, ballots, a, change, at, now, totalScore, witnesses, witnesses);
        ok := AdjustProxiedStake(above, delta, at + 1);
        if ok {
          WalkedStep(maxDepth, proxy, a, change, at, old(proxied), slots, proxied);
          RevisedUp(maxDepth, proxy, ballots, a, change, at, now, totalScore, old(witnesses), witnesses);
        }
      } else {
        PrefixOfStakeDelta(maxDepth, delta, maxDepth - at);
        ok := AdjustAtRoot(a, delta, change, at);
        WalkedNowhere(maxDepth, proxy, a, change, at, proxied);
      }
    }

    /** What the totals rest on, for stakes and votes that may not be stored yet. */
    ghost predicate TotalsOk(proxy': Proxies, stake': map<Name, int>, ballots': Ballots)
      reads this
    {
      && ArraysOk(maxDepth, proxy', stake', proxied)
      && WitnessesOk(maxDepth, proxy', stake', ballots', now, witnesses)
    }

    /** The walk for a change of stake, from totals that are right for the old stake. */
    method WalkStake(x: Name, delta: int, ghost stake0: map<Name, int>) returns (ok: bool)
      requires x in stake0 && x in proxied && Linked(maxDepth, proxy, proxied, ballots, witnesses) && Acyclic(proxy)
      requires Ground(proxy, stake0, ballots) && 0 <= stake0[x] + delta
      requires TotalsOk(proxy, stake0, ballots)
      modifies this`proxied, this`witnesses
      ensures ok <==>
        WithinTotal(maxDepth, proxy, ballots, x, StakeDelta(maxDepth, delta), 0, totalScore, old(witnesses))
      ensures Sum(stake0) + delta <= totalScore ==> ok
      ensures ok ==> forall w :: w in witnesses <==> w in old(witnesses)
      ensures ok ==> forall a :: a in proxied <==> a in old(proxied)
      ensures ok ==> Linked(maxDepth, proxy, proxied, ballots, witnesses)
      ensures ok ==> TotalsOk(proxy, stake0[x := stake0[x] + delta], ballots)
      ensures ok ==>
        AllRevised(maxDepth, proxy, ballots, x, StakeDelta(maxDepth, delta), 0, now, old(witnesses), witnesses)
    {
      hide Sum, Acyclic, ArraysOk, WitnessesOk, WithinTotal, Walked, AllRevised, Payable, Leads;
      ghost var change, stake1 := StakeDelta(maxDepth, delta), stake0[x := stake0[x] + delta];
      SumUpdate(stake0, x, stake0[x] + delta);
      StakeLeads(maxDepth, proxy, stake0, ballots, x, delta);
      LeadsPayable(maxDepth, proxy, ballots, x, change, now, totalScore, witnesses, proxy, stake0, ballots, proxy,
        stake1, ballots);
      ok := AdjustProxiedStake(x, delta, 0);
      if ok {
        StakeArrays(maxDepth, proxy, stake0, x, delta, old(proxied), proxied);
        LeadsRevised(maxDepth, proxy, ballots, x, change, now, old(witnesses), witnesses, proxy, stake0, ballots,
          proxy, stake1, ballots);
      }
    }

    /** Changes the stake of one account and lets the change run up its proxies. */
    method ShiftStake(x: Name, delta: int, ghost extra: int) returns (ok: bool)
      requires ValidBut(extra) && x in stake && 0 <= stake[x] + delta
      modifies this`stake, this`proxied, this`witnesses
      ensures ok <==>
        WithinTotal(maxDepth, proxy, ballots, x, StakeDelta(maxDepth, delta), 0, totalScore, old(witnesses))
      ensures ok ==> ValidBut(extra + delta) && stake == old(stake)[x := old(stake)[x] + delta]
      ensures ok ==>
        AllRevised(maxDepth, proxy, ballots, x, StakeDelta(maxDepth, delta), 0, now, old(witnesses), witnesses)
      ensures extra + delta <= 0 ==> ok
      ensures !ok ==> stake == old(stake) && proxied == old(proxied) && witnesses == old(witnesses)
    {
      hide Sum, Acyclic, ArraysOk, WitnessesOk, WithinTotal, Objects, Ground, Linked, StakeDelta;
      var stake0, proxied0, witnesses0 := stake, proxied, witnesses;
      ObjectsGround(maxDepth, stake, proxy, proxied, declined, ballots, votedFor, witnesses, x);
      SumUpdate(stake, x, stake[x] + delta);
      ObjectsStake(maxDepth, stake, proxy, proxied, declined, ballots, votedFor, witnesses, x, stake[x] + delta);
      stake := stake[x := stake[x] + delta];
      ok := WalkStake(x, delta, stake0);
      if !ok {
        stake, proxied, witnesses := stake0, proxied0, witnesses0;
        return;
      }
      ObjectsWalked(maxDepth, stake, proxy, proxied0, declined, ballots, votedFor, witnesses0, proxied, witnesses);
    }

    /**
     Takes the levels of x away from everything above it.  What is left is right for a graph in
     which x has neither a proxy nor votes; the check against the total stake never fires.
     */
    method LeaveProxies(x: Name) returns (delta: seq<int>)
      requires x in stake && x in proxied && x in ballots && Linked(maxDepth, proxy, proxied, ballots, witnesses)
      requires Acyclic(proxy)
      requires Ground(proxy, stake, ballots) && Sum(stake) <= totalScore
      requires TotalsOk(proxy, stake, ballots)
      modifies this`proxied, this`witnesses
      ensures delta == Negated(Levels(maxDepth, proxy, stake, x))
      ensures Linked(maxDepth, proxy, proxied, ballots, witnesses) && (forall b :: b in proxied <==> b in old(proxied))
      ensures forall w :: w in witnesses <==> w in old(witnesses)
      ensures TotalsOk(proxy - {x}, stake, ballots[x := {}])
    {
      hide Sum, Acyclic, Ground, ArraysOk, WitnessesOk, WithinTotal, Walked, AllRevised, Payable, Leads, Levels,
        Negated, Linked;
      ghost var cut, cleared := proxy - {x}, ballots[x := {}];
      delta := NegatedLevels(stake[x], proxied[x]);
      ReadLevels(maxDepth, proxy, stake, proxied, x, delta);
      LeaveLeads(maxDepth, proxy, stake, ballots, x);
      GroundWithout(proxy, stake, ballots, x);
      LeadsPayable(maxDepth, proxy, ballots, x, delta, now, totalScore, witnesses, proxy, stake, ballots, cut, stake,
        cleared);
      var ok := AdjustProxiedLevels(x, delta, 0);
      DetachArrays(maxDepth, proxy, stake, x, old(proxied), proxied);
      LeadsRevised(maxDepth, proxy, ballots, x, delta, now, old(witnesses), witnesses, proxy, stake, ballots, cut,
        stake, cleared);
    }

    /** Gives everything above x, which has just been given a proxy, the levels of x. */
    method JoinProxies(x: Name, delta: seq<int>)
      requires x in stake && x in proxy && x in proxied && Linked(maxDepth, proxy, proxied, ballots, witnesses)
      requires Acyclic(proxy)
      requires Ground(proxy, stake, ballots) && Sum(stake) <= totalScore
      requires TotalsOk(proxy - {x}, stake, ballots)
      requires delta == Levels(maxDepth, proxy, stake, x)
      modifies this`proxied, this`witnesses
      ensures Linked(maxDepth, proxy, proxied, ballots, witnesses) && (forall b :: b in proxied <==> b in old(proxied))
      ensures forall w :: w in witnesses <==> w in old(witnesses)
      ensures TotalsOk(proxy, stake, ballots)
    {
      hide Sum, Acyclic, Ground, ArraysOk, WitnessesOk, WithinTotal, Walked, AllRevised, Payable, Leads, Levels, Linked;
      ghost var cut := proxy - {x};
      JoinLeads(maxDepth, proxy, stake, ballots, x);
      LeadsPayable(maxDepth, proxy, ballots, x, delta, now, totalScore, witnesses, cut, stake, ballots, proxy, stake,
        ballots);
      var ok := AdjustProxiedLevels(x, delta, 0);
      AttachArrays(maxDepth, proxy, stake, x, old(proxied), proxied);
      LeadsRevised(maxDepth, proxy, ballots, x, delta, now, old(witnesses), witnesses, cut, stake, ballots, proxy,
        stake, ballots);
    }

    /** The check for proxy loops and for proxy chains that are too long. */
    method FollowProxies(x: Name, p: Name) returns (fits: bool)
      requires Acyclic(proxy) && p != x
      ensures fits <==> ChainFits(maxDepth, proxy, x, p)
    {
      var chain := {x, p};
      var current, n := p, 0;
      while current in proxy
        invariant Up(proxy, p, n) == Some(current)
        invariant forall i: nat :: i <= n ==> Up(proxy, p, i).Some? && Up(proxy, p, i) != Some(x)
        invariant forall y :: y in chain ==> y == x || exists i: nat :: i <= n && Up(proxy, p, i) == Some(y)
        invariant x in chain && forall i: nat :: i <= n ==> Up(proxy, p, i).value in chain
        invariant |chain| == n + 2 && (n > 0 ==> n + 2 <= maxDepth)
        decreases maxDepth - n
      {
        var next := proxy[current];
        UpUp(proxy, p, n, 1);
        assert Up(proxy, current, 1) == Up(proxy, next, 0);
        if next in chain {
          ChainMeets(maxDepth, proxy, x, p, n + 1);
          return false;
        }
        chain := chain + {next};
        current, n := next, n + 1;
        if |chain| > maxDepth {
          ChainTooLong(maxDepth, proxy, x, p, n);
          return false;
        }
      }
      assert ChainEnds(proxy, x, p, n);
      fits := true;
    }

    /** account_witness_proxy: sets or clears the proxy of x, moving its levels from one chain to another. */
    method SetProxy(x: Name, p: Option<Name>) returns (ok: bool)
      requires Valid()
      modifies this`proxy, this`proxied, this`ballots, this`votedFor, this`witnesses
      ensures Valid()
      ensures ok <==>
        && x in stake && x !in declined && p != Some(x)
        && p != (if x in old(proxy) then Some(old(proxy)[x]) else None)
        && (p.Some? ==> p.value in stake && ChainFits(maxDepth, old(proxy), x, p.value))
      ensures proxy == if !ok then old(proxy) else if p.Some? then old(proxy)[x := p.value] else old(proxy) - {x}
      ensures ballots == if ok && p.Some? then old(ballots)[x := {}] else old(ballots)
      ensures !ok ==> proxied == old(proxied) && votedFor == old(votedFor) && witnesses == old(witnesses)
    {
      if x !in stake || p == Some(x) {
        return false;
      }
      if x in declined || p == (if x in proxy then Some(proxy[x]) else None) {
        return false;
      }
      if p.None? {
        DropProxy(x);
        return true;
      }
      ok := TakeProxy(x, p.value);
    }

    /** Clears the proxy of an account that has one. */
    method DropProxy(x: Name)
      requires Valid() && x in proxy
      modifies this`proxy, this`proxied, this`witnesses
      ensures Valid() && proxy == old(proxy) - {x}
    {
      hide Sum, Acyclic, ArraysOk, WitnessesOk, Objects, Ground, Linked, Levels, Negated;
      ObjectsGround(maxDepth, stake, proxy, proxied, declined, ballots, votedFor, witnesses, x);
      RootsOnly(proxy, stake, ballots, x);
      var _ := LeaveProxies(x);
      ObjectsWalked(maxDepth, stake, proxy, old(proxied), declined, ballots, votedFor, old(witnesses), proxied,
        witnesses);
      ObjectsDrop(maxDepth, stake, proxy, proxied, declined, ballots, votedFor, witnesses, x);
      DetachAcyclic(proxy, x);
      proxy := proxy - {x};
    }

    /** Gives x the proxy p if the chain above p allows it. */
    method TakeProxy(x: Name, p: Name) returns (ok: bool)
      requires Valid() && x in stake && x !in declined && p != x
      modifies this`proxy, this`proxied, this`ballots, this`votedFor, this`witnesses
      ensures Valid()
      ensures ok <==> p in stake && ChainFits(maxDepth, old(proxy), x, p)
      ensures proxy == if ok then old(proxy)[x := p] else old(proxy)
      ensures ballots == if ok then old(ballots)[x := {}] else old(ballots)
      ensures !ok ==> proxied == old(proxied) && votedFor == old(votedFor) && witnesses == old(witnesses)
    {
      hide Sum, Acyclic, ArraysOk, WitnessesOk, Objects, Ground, Linked, Levels, Negated, ChainFits;
      var proxied0, witnesses0 := proxied, witnesses;
      ObjectsGround(maxDepth, stake, proxy, proxied, declined, ballots, votedFor, witnesses, x);
      var delta := LeaveProxies(x);
      ok := p in stake;
      if ok {
        ok := FollowProxies(x, p);
      }
      if !ok {
        proxied, witnesses := proxied0, witnesses0;
        return;
      }
      ObjectsWalked(maxDepth, stake, proxy, proxied0, declined, ballots, votedFor, witnesses0, proxied, witnesses);
      Reattach(x, p, delta);
    }

    /** Stores the proxy p that was found to fit x, clears the votes of x, and adds its levels back. */
    method Reattach(x: Name, p: Name, delta: seq<int>)
      requires Objects(maxDepth, stake, proxy, proxied, declined, ballots, votedFor, witnesses)
      requires Acyclic(proxy) && Sum(stake) == totalScore && ScheduleOk()
      requires TotalsOk(proxy - {x}, stake, ballots[x := {}])
      requires x in stake && p in stake && x !in declined && ChainFits(maxDepth, proxy, x, p)
      requires delta == Negated(Levels(maxDepth, proxy, stake, x))
      modifies this`proxy, this`proxied, this`ballots, this`votedFor, this`witnesses
      ensures Valid()
      ensures proxy == old(proxy)[x := p] && ballots == old(ballots)[x := {}]
    {
      hide Sum, Acyclic, ArraysOk, WitnessesOk, Objects, Ground, Linked, Levels, Negated, ChainFits;
      NewChain(maxDepth, proxy, stake, x, p);
      var gain := Opposite(delta);
      NegatedTwice(Levels(maxDepth, proxy, stake, x));
      ObjectsClear(maxDepth, stake, proxy, proxied, declined, ballots, votedFor, witnesses, x);
      ballots, votedFor := ballots[x := {}], votedFor[x := 0];
      ObjectsTake(maxDepth, stake, proxy, proxied, declined, ballots, votedFor, witnesses, x, p);
      proxy := proxy[x := p];
      ObjectsGround(maxDepth, stake, proxy, proxied, declined, ballots, votedFor, witnesses, x);
      JoinProxies(x, gain);
      ObjectsWalked(maxDepth, stake, proxy, old(proxied), declined, ballots, votedFor, old(witnesses), proxied,
        witnesses);
    }

    /** New stake, as a deposit into the fund or a claimed reward gives it. */
    method AddStake(x: Name, amount: nat)
      requires Valid() && x in stake
      modifies this`stake, this`proxied, this`witnesses, this`totalScore
      ensures Valid()
      ensures stake == old(stake)[x := old(stake)[x] + amount] && totalScore == old(totalScore) + amount
    {
      hide Sum, Acyclic, ArraysOk, WitnessesOk, Objects, Ground, Linked, AllRevised, StakeDelta, WithinTotal;
      ObjectsGround(maxDepth, stake, proxy, proxied, declined, ballots, votedFor, witnesses, x);
      totalScore := totalScore + amount;
      var change: int := amount;
      var _ := ShiftStake(x, change, -change);
    }

    /** The total weight of an account that votes for itself. */
    method WitnessVoteWeight(x: Name) returns (weight: int)
      requires x in stake && x in proxied && ArraysOk(maxDepth, proxy, stake, proxied)
      ensures weight == Within(proxy, stake, x, maxDepth)
    {
      hide Below;
      weight := stake[x];
      BelowSelf(proxy, stake, x);
      assert ArrayOk(maxDepth, proxy, stake, proxied, x);
      for i := 0 to maxDepth
        invariant weight == Within(proxy, stake, x, i)
      {
        weight := weight + proxied[x][i];
      }
    }

    /** accountWitnessVote: x starts or stops voting for v. */
    method AccountWitnessVote(x: Name, v: Name, approve: bool) returns (ok: bool)
      requires Valid()
      modifies this`ballots, this`votedFor, this`witnesses
      ensures Valid()
      ensures ok <==>
        && x in stake && v in witnesses && x !in proxy && (approve ==> x !in declined)
        && approve == (v !in old(ballots)[x])
        && (approve ==> |old(ballots)[x]| < MAX_ACCOUNT_WITNESS_VOTES)
      ensures ok ==> ballots == old(ballots)[x := if approve then old(ballots)[x] + {v} else old(ballots)[x] - {v}]
      ensures !ok ==> ballots == old(ballots) && votedFor == old(votedFor) && witnesses == old(witnesses)
    {
      hide Sum, Acyclic, ArraysOk, WitnessesOk, Objects, Ground, Linked, Within, Votes, AdjustVote;
      if x !in stake || v !in witnesses || x in proxy || (approve && x in declined) {
        return false;
      }
      ObjectsGround(maxDepth, stake, proxy, proxied, declined, ballots, votedFor, witnesses, x);
      ObjectsBallot(maxDepth, stake, proxy, proxied, declined, ballots, votedFor, witnesses, x);
      if approve != (v !in ballots[x]) || (approve && votedFor[x] >= MAX_ACCOUNT_WITNESS_VOTES) {
        return false;
      }
      var weight := WitnessVoteWeight(x);
      VoteChange(maxDepth, proxy, stake, ballots, now, witnesses, x, v, approve, weight);
      ok := AdjustWitnessVote(v, if approve then weight else -weight);
      var ballot := if approve then ballots[x] + {v} else ballots[x] - {v};
      assert |ballot| == if approve then |ballots[x]| + 1 else |ballots[x]| - 1;
      ObjectsWitnesses(maxDepth, stake, proxy, proxied, declined, ballots, votedFor, old(witnesses), witnesses);
      CastBallot(x, ballot, if approve then votedFor[x] + 1 else votedFor[x] - 1);
    }

    method CastBallot(x: Name, ballot: set<Name>, count: nat)
      requires Objects(maxDepth, stake, proxy, proxied, declined, ballots, votedFor, witnesses)
      requires x in stake && x !in proxy && x in ballots && (x in declined ==> ballot <= ballots[x])
      requires count == |ballot|
      requires forall w :: w in ballot ==> w in witnesses
      modifies this`ballots, this`votedFor
      ensures Objects(maxDepth, stake, proxy, proxied, declined, ballots, votedFor, witnesses)
      ensures ballots == old(ballots)[x := ballot] && votedFor == old(votedFor)[x := count]
    {
      hide Objects;
      ObjectsVote(maxDepth, stake, proxy, proxied, declined, ballots, votedFor, witnesses, x, ballot);
      ballots, votedFor := ballots[x := ballot], votedFor[x := count];
    }

    /** The end of process_decline_voting_rights for one account: it loses votes, proxy and rights for good. */
    method DeclineVotingRights(x: Name)
      requires Valid() && x in stake
      modifies this`proxy, this`proxied, this`declined, this`ballots, this`votedFor, this`witnesses
      ensures Valid()
      ensures declined == old(declined) + {x} && proxy == old(proxy) - {x} && ballots == old(ballots)[x := {}]
    {
      hide Sum, Acyclic, ArraysOk, WitnessesOk, Objects, Ground, Linked, Levels, Negated, Voteless;
      ObjectsGround(maxDepth, stake, proxy, proxied, declined, ballots, votedFor, witnesses, x);
      var _ := LeaveProxies(x);
      ObjectsWalked(maxDepth, stake, proxy, old(proxied), declined, ballots, votedFor, old(witnesses), proxied,
        witnesses);
      DetachAcyclic(proxy, x);
      Retire(x);
    }

    /** Clears what the account may no longer have; no total is touched. */
    method Retire(x: Name)
      requires Objects(maxDepth, stake, proxy, proxied, declined, ballots, votedFor, witnesses) && x in stake
      modifies this`proxy, this`declined, this`ballots, this`votedFor
      ensures Objects(maxDepth, stake, proxy, proxied, declined, ballots, votedFor, witnesses)
      ensures declined == old(declined) + {x} && proxy == old(proxy) - {x} && ballots == old(ballots)[x := {}]
    {
      hide Objects, Voteless;
      ObjectsClear(maxDepth, stake, proxy, proxied, declined, ballots, votedFor, witnesses, x);
      ballots, votedFor := ballots[x := {}], votedFor[x := 0];
      ObjectsDrop(maxDepth, stake, proxy, proxied, declined, ballots, votedFor, witnesses, x);
      proxy := proxy - {x};
      ObjectsDecline(maxDepth, stake, proxy, proxied, declined, ballots, votedFor, witnesses, x);
      declined := declined + {x};
    }

    method CreateAccount(x: Name) returns (ok: bool)
      requires Valid()
      modifies this`stake, this`proxied, this`ballots, this`votedFor
      ensures Valid() && ok == (x !in old(stake))
      ensures stake == if ok then old(stake)[x := 0] else old(stake)
      ensures ballots == if ok then old(ballots)[x := {}] else old(ballots)
      ensures old(Silent()) ==> Silent()
    {
      hide Sum, Acyclic, ArraysOk, WitnessesOk, Objects;
      if x in stake {
        return false;
      }
      var slots := seq(maxDepth, i => 0);
      ObjectsAccount(maxDepth, stake, proxy, proxied, declined, ballots, votedFor, witnesses, x, slots);
      NewArrays(maxDepth, stake, proxy, proxied, declined, ballots, votedFor, witnesses, x, slots);
      NewTallies(maxDepth, proxy, stake, ballots, now, witnesses, x);
      SumUpdate(stake, x, 0);
      stake, proxied := stake[x := 0], proxied[x := slots];
      ballots, votedFor := ballots[x := {}], votedFor[x := 0];
      ok := true;
    }

    /** witness_update: a new witness, or a new block signing key for an old one; its owner must be an account. */
    method WitnessUpdate(w: Name, id: nat, hasKey: bool) returns (ok: bool)
      requires Valid()
      modifies this`witnesses
      ensures Valid() && ok == (w in stake)
      ensures witnesses == if !ok then old(witnesses)
                           else if w in old(witnesses) then old(witnesses)[w := old(witnesses)[w].(hasKey := hasKey)]
                           else old(witnesses)[w := NewWitness(id, hasKey)]
    {
      hide Sum, Acyclic, ArraysOk, WitnessesOk, Votes;
      if w !in stake {
        return false;
      }
      if w in witnesses {
        var updated := witnesses[w := witnesses[w].(hasKey := hasKey)];
        SameRecord(maxDepth, proxy, stake, ballots, now, witnesses, w, updated[w]);
        witnesses := updated;
      } else {
        NewWitnessOk(maxDepth, proxy, stake, ballots, now, witnesses, w, NewWitness(id, hasKey));
        witnesses := witnesses[w := NewWitness(id, hasKey)];
      }
      ok := true;
    }

    /**
     The stake of an account is taken off it and off the total without a walk up its proxies, as
     clear_null_account_balance does.  The totals stay right exactly when nobody else counted that stake.
     */
    method ClearStake(x: Name)
      requires Valid() && x in stake && x in ballots
      modifies this`stake, this`totalScore
      ensures stake == old(stake)[x := 0] && totalScore == old(totalScore) - old(stake)[x]
      ensures Valid() <==> old(stake)[x] == 0 || ((x !in proxy || maxDepth == 0) && ballots[x] == {})
    {
      hide Sum, Acyclic, ArraysOk, WitnessesOk, Objects, Ground, Linked;
      ObjectsGround(maxDepth, stake, proxy, proxied, declined, ballots, votedFor, witnesses, x);
      ObjectsArrays(maxDepth, stake, proxy, proxied, declined, ballots, votedFor, witnesses, x);
      SumUpdate(stake, x, 0);
      ClearedArrays(maxDepth, proxy, stake, proxied, x);
      ClearedTallies(maxDepth, proxy, stake, ballots, now, witnesses, x);
      ObjectsStake(maxDepth, stake, proxy, proxied, declined, ballots, votedFor, witnesses, x, 0);
      if stake[x] > 0 {
        totalScore := totalScore - stake[x];
        stake := stake[x := 0];
      }
      assert stake == old(stake)[x := 0];
    }

    /** clear_null_account_balance, for the stake: nobody can have voted or set a proxy for the null account. */
    method ClearNull()
      requires Valid() && Silent() && nullAccount in stake
      modifies this`stake, this`totalScore
      ensures Valid() && stake == old(stake)[nullAccount := 0]
      ensures totalScore == old(totalScore) - old(stake)[nullAccount]
    {
      hide Sum, Acyclic, ArraysOk, WitnessesOk, Objects;
      ObjectsBallot(maxDepth, stake, proxy, proxied, declined, ballots, votedFor, witnesses, nullAccount);
      ClearStake(nullAccount);
    }

    /**
     update_witness_schedule4: picks the producers of the next round and moves the virtual clock.  The plan says who is
     picked and in what order; it is carried out on witnesses and clock, and the schedule is the shuffled list.
     */
    method UpdateWitnessSchedule(nowHi: bv64) returns (ok: bool, p: Plan)
      requires Valid()
      modifies this`witnesses, this`now, this`numScheduled, shuffled
      ensures Valid()
      ensures ok <==> |Keyed(old(witnesses))| >= maxWitnesses || |Keyed(old(witnesses))| == |old(witnesses).Keys|
      ensures ok ==> Planned(old(witnesses), old(now), maxVoted, maxMiners, maxWitnesses, p)
      ensures ok ==> CarriedOut(old(witnesses), p, witnesses, now)
      ensures ok ==> SameBut(old(witnesses), witnesses) && (old(now) <= now || now == 0)
      ensures ok ==> Distinct(p.active) && forall i :: 0 <= i < |p.active| ==> p.active[i] in Keyed(old(witnesses))
      ensures ok ==>
        && |p.active| == (if |old(witnesses).Keys| < maxWitnesses then |old(witnesses).Keys| else maxWitnesses)
        && numScheduled == AtLeastOne(|p.active|)
        && shuffled[..] == Shuffled(Scheduled(p.active, maxWitnesses), numScheduled, nowHi, numScheduled)
        && multiset(shuffled[..|p.active|]) == multiset(Named(p.active))
        && forall i :: |p.active| <= i < maxWitnesses ==> shuffled[i] == None
      ensures !ok ==>
        witnesses == old(witnesses) && now == old(now) && numScheduled == old(numScheduled)
          && shuffled[..] == old(shuffled[..])
    {
      hide Sum, Acyclic, ArraysOk, WitnessesOk, Objects, OnTime, Named, Shuffled, Scheduled, Planned, CarriedOut;
      TotalsOnTime(maxDepth, proxy, stake, ballots, now, witnesses);
      Cardinality(Keyed(witnesses), witnesses.Keys);
      var ws, newTime, timeshare;
      ok, p, timeshare, ws, newTime := PlanRound(witnesses, now, maxVoted, maxMiners, maxWitnesses);
      if !ok {
        return;
      }
      RoundKeepsTotals(maxDepth, proxy, stake, ballots, now, witnesses, newTime, ws);
      ObjectsWitnesses(maxDepth, stake, proxy, proxied, declined, ballots, votedFor, witnesses, ws);
      witnesses, now := ws, newTime;
      numScheduled := StoreShuffled(shuffled, p.active, nowHi);
    }

    /**
     Credits deposits of stake one after the other while the total still counts the withdrawal they
     come from only once.  The check on the witnesses' votes refuses them exactly when some witness
     would for a moment have more votes than that total.
     */
    method CreditDeposits(deposits: seq<(Name, nat)>) returns (ok: bool)
      requires Valid() && forall i :: 0 <= i < |deposits| ==> deposits[i].0 in stake
      modifies this`stake, this`proxied, this`witnesses
      ensures ok <==> forall w :: w in old(witnesses) ==>
                old(witnesses)[w].votes + Arriving(maxDepth, proxy, ballots, deposits, w) <= totalScore
      ensures ok ==> ValidBut(DepositTotal(deposits)) && stake == Credited(old(stake), deposits)
      ensures !ok ==> Valid() && stake == old(stake) && proxied == old(proxied) && witnesses == old(witnesses)
    {
      hide Sum, Acyclic, ArraysOk, WitnessesOk, Objects, Ground, Linked, AllRevised, StakeDelta, WithinTotal,
        Arrived, Arriving, Credited, DepositTotal;
      var stake0, proxied0, witnesses0 := stake, proxied, witnesses;
      AllBounded();
      NoneArrived(maxDepth, proxy, ballots, deposits, totalScore, stake, witnesses);
      for i := 0 to |deposits|
        invariant ValidBut(DepositTotal(deposits[..i]))
        invariant stake == Credited(old(stake), deposits[..i])
        invariant Arrived(maxDepth, proxy, ballots, deposits, i, totalScore, old(witnesses), witnesses)
      {
        CreditedNext(old(stake), deposits, i);
        ok := CreditOne(deposits, i, witnesses0);
        if !ok {
          stake, proxied, witnesses := stake0, proxied0, witnesses0;
          return;
        }
      }
      assert deposits[..|deposits|] == deposits;
      AllArrived(maxDepth, proxy, ballots, deposits, totalScore, old(witnesses), witnesses);
      ok := true;
    }

    /** Credits deposit number i; refused only if some witness would then have too many votes. */
    method CreditOne(deposits: seq<(Name, nat)>, i: nat, ghost start: Witnesses) returns (ok: bool)
      requires i < |deposits| && deposits[i].0 in stake && ValidBut(DepositTotal(deposits[..i]))
      requires Arrived(maxDepth, proxy, ballots, deposits, i, totalScore, start, witnesses)
      modifies this`stake, this`proxied, this`witnesses
      ensures ok ==> ValidBut(DepositTotal(deposits[..i + 1]))
      ensures ok ==> stake == old(stake)[deposits[i].0 := old(stake)[deposits[i].0] + deposits[i].1]
      ensures ok ==> Arrived(maxDepth, proxy, ballots, deposits, i + 1, totalScore, start, witnesses)
      ensures !ok ==>
        exists w :: w in start && start[w].votes + Arriving(maxDepth, proxy, ballots, deposits, w) > totalScore
    {
      hide Sum, Acyclic, ArraysOk, WitnessesOk, Objects, Ground, Linked, AllRevised, StakeDelta, WithinTotal,
        Arriving, Arrived;
      assert deposits[..i + 1][..i] == deposits[..i];
      var (to, share) := deposits[i];
      ok := true;
      if share > 0 {
        ObjectsGround(maxDepth, stake, proxy, proxied, declined, ballots, votedFor, witnesses, to);
        ok := ShiftStake(to, share, DepositTotal(deposits[..i]));
      }
      if ok {
        DepositArrives(maxDepth, proxy, ballots, deposits, i, totalScore, now, start, old(witnesses), witnesses);
      } else {
        DepositRefused(maxDepth, proxy, ballots, deposits, i, totalScore, start, old(witnesses));
      }
    }

    lemma AllBounded()
      requires Valid()
      ensures forall w :: w in witnesses ==> 0 <= witnesses[w].votes <= totalScore
    {
      hide Sum, Acyclic, ArraysOk, WitnessesOk, Objects, Ground, Linked;
      ObjectsGround(maxDepth, stake, proxy, proxied, declined, ballots, votedFor, witnesses, 0);
      VotesBounded(maxDepth, proxy, stake, ballots, now, witnesses);
    }

    /** One withdrawal of a power-down, part of which its routes deposit as stake elsewhere. */
    method PowerDown(from: Name, amount: nat, deposits: seq<(Name, nat)>) returns (ok: bool)
      requires Valid() && from in stake && amount <= stake[from] && DepositTotal(deposits) <= amount
      requires forall i :: 0 <= i < |deposits| ==> deposits[i].0 in stake
      modifies this`stake, this`proxied, this`witnesses, this`totalScore
      ensures Valid()
      ensures ok <==> forall w :: w in old(witnesses) ==>
                old(witnesses)[w].votes + Arriving(maxDepth, proxy, ballots, deposits, w) <= old(totalScore)
      ensures ok ==> var credited := Credited(old(stake), deposits); stake == credited[from := credited[from] - amount]
      ensures ok ==> totalScore == old(totalScore) - (amount - DepositTotal(deposits))
      ensures !ok ==>
        stake == old(stake) && proxied == old(proxied) && witnesses == old(witnesses) && totalScore == old(totalScore)
    {
      hide Sum, Acyclic, ArraysOk, WitnessesOk, Objects, AllRevised, StakeDelta, WithinTotal, Arriving;
      var deposited := 0;
      for i := 0 to |deposits|
        invariant deposited == DepositTotal(deposits[..i])
      {
        assert deposits[..i + 1][..i] == deposits[..i];
        deposited := deposited + deposits[i].1;
      }
      assert deposits[..|deposits|] == deposits;
      ok := CreditDeposits(deposits);
      if !ok {
        return;
      }
      totalScore := totalScore - (amount - deposited);
      var taken: int := amount;
      ok := ShiftStake(from, -taken, taken);
    }

    method Apply(op: Operation)
      requires Valid() && Silent()
      modifies this, shuffled
      ensures Valid() && Silent()
      ensures forall a :: a in old(stake) ==> a in stake
      ensures !MovesStake(op) ==> stake == old(stake) && totalScore == old(totalScore)
    {
      hide Sum, Acyclic, ArraysOk, WitnessesOk, Objects, ChainFits, Arriving, Keyed, SameBut, Named, Distinct;
      hide Planned, CarriedOut, Shuffled, Scheduled;
      match op
      case CreateAccountOp(a) => var _ := CreateAccount(a);
      case WitnessUpdateOp(w, id, hasKey) => var _ := WitnessUpdate(w, id, hasKey);
      case AddStakeOp(a, amount) =>
        if a in stake {
          AddStake(a, amount);
        }
      case PowerDownOp(a, amount, deposits) =>
        if && a in stake && amount <= stake[a] && DepositTotal(deposits) <= amount
           && forall i :: 0 <= i < |deposits| ==> deposits[i].0 in stake {
          var _ := PowerDown(a, amount, deposits);
        }
      case SetProxyOp(a, p) =>
        if a != nullAccount {
          var _ := SetProxy(a, p);
        }
      case VoteOp(a, w, approve) =>
        if a != nullAccount {
          var _ := AccountWitnessVote(a, w, approve);
        }
      case DeclineOp(a) =>
        if a in stake && a != nullAccount {
          DeclineVotingRights(a);
        }
      case ScheduleOp(nowHi) => var _, _ := UpdateWitnessSchedule(nowHi);
      case ClearNullOp =>
        if nullAccount in stake {
          ClearNull();
        }
    }

    /** Applies any sequence of operations, whatever each of them answers. */
    method Run(ops: seq<Operation>)
      requires Valid() && Silent()
      modifies this, shuffled
      ensures Valid() && Silent()
      ensures forall a :: a in old(stake) ==> a in stake
    {
      hide Sum, Acyclic, ArraysOk, WitnessesOk, Objects, ChainFits, Arriving, Keyed, SameBut, Named, Distinct;
      for i := 0 to |ops|
        invariant Valid() && Silent()
        invariant forall a :: a in old(stake) ==> a in stake
      {
        Apply(ops[i]);
      }
    }
  }
}
