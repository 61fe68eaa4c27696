/**
 Votes on a comment and what they earn: the weight each vote gets for curation, the payout of curators,
 beneficiaries and the author, and the reward fund that pays for all comments of a block.
 */
module Curation {
  import opened Arithmetic
  import opened RewardCurves
  import opened Portions

  const REVERSE_AUCTION_WINDOW: nat := 600
  const MAX_VOTE_CHANGES: nat := 127

  // ---------- Votes ----------

  datatype Vote = Vote(voter: nat, power: int, weight: nat, percent: int, changes: nat)

  function Weights(votes: seq<Vote>): (r: seq<nat>)
    ensures |r| == |votes| && forall i :: 0 <= i < |r| ==> r[i] == votes[i].weight
  {
    seq(|votes|, i requires 0 <= i < |votes| => votes[i].weight)
  }

  ghost function NetPower(votes: seq<Vote>): (r: int)
  {
    if votes == [] then 0 else NetPower(votes[..|votes| - 1]) + votes[|votes| - 1].power
  }

  lemma {:induction false} NetUpdate(votes: seq<Vote>, k: nat, v: Vote)
    requires k < |votes|
    ensures NetPower(votes[k := v]) == NetPower(votes) - votes[k].power + v.power
  {
    var n := |votes| - 1;
    if k == n {
      assert votes[k := v][..n] == votes[..n];
    } else {
      NetUpdate(votes[..n], k, v);
      assert votes[k := v][..n] == votes[..n][k := v];
    }
  }

  lemma {:induction false} NetAppend(votes: seq<Vote>, v: Vote)
    ensures NetPower(votes + [v]) == NetPower(votes) + v.power
    ensures Weights(votes + [v]) == Weights(votes) + [v.weight]
  {
    assert (votes + [v])[..|votes|] == votes;
  }

  /** A vote early in the reverse auction counts for less: for nothing at once, for all its weight after the end. */
  function Discounted(weight: nat, age: nat): (r: nat)
    ensures r <= weight && (age == 0 ==> r == 0) && (age >= REVERSE_AUCTION_WINDOW ==> r == weight)
  {
    var delta := if age < REVERSE_AUCTION_WINDOW then age else REVERSE_AUCTION_WINDOW;
    DiscountBelow(weight, delta);
    weight * delta / REVERSE_AUCTION_WINDOW
  }

  /** The later a vote, the more of its weight counts: in the auction, in proportion to its age, rounded down. */
  lemma {:induction false} DiscountRises(weight: nat, age: nat, later: nat)
    requires age <= later
    ensures Discounted(weight, age) <= Discounted(weight, later)
    ensures var r := Discounted(weight, age);
            age <= REVERSE_AUCTION_WINDOW ==>
              r * REVERSE_AUCTION_WINDOW <= weight * age < (r + 1) * REVERSE_AUCTION_WINDOW
  {
    var delta := if age < REVERSE_AUCTION_WINDOW then age else REVERSE_AUCTION_WINDOW;
    var delta' := if later < REVERSE_AUCTION_WINDOW then later else REVERSE_AUCTION_WINDOW;
    MulMono(delta, delta', weight);
    assert delta * weight == weight * delta && delta' * weight == weight * delta';
    FloorMono(weight * delta, weight * delta', REVERSE_AUCTION_WINDOW);
    FloorAtLeast(weight * delta, REVERSE_AUCTION_WINDOW, Discounted(weight, age));
    FloorAtLeast(weight * delta, REVERSE_AUCTION_WINDOW, Discounted(weight, age) + 1);
  }

  lemma {:induction false} DiscountBelow(weight: nat, delta: nat)
    requires delta <= REVERSE_AUCTION_WINDOW
    ensures weight * delta / REVERSE_AUCTION_WINDOW <= weight
  {
    MulMono(delta, REVERSE_AUCTION_WINDOW, weight);
    assert delta * weight == weight * delta;
    FloorAtMost(weight * delta, REVERSE_AUCTION_WINDOW, weight);
  }

  datatype Ballot = Ballot(voter: nat, percent: int, power: nat, now: nat, eligible: bool)

  /** The power of a vote, for or against. */
  function Signed(b: Ballot): (r: int)
    ensures (r == b.power && b.percent >= 0) || (r == -(b.power as int) && b.percent < 0)
  {
    if b.percent < 0 then -(b.power as int) else b.power
  }

  /** What a comment counts. */
  datatype Tally = Tally(net: int, abs: nat, voted: nat, totalWeight: nat, votes: seq<Vote>)

  /** Which vote is this voter's, -1 if there is none. */
  ghost function IndexOf(votes: seq<Vote>, voter: nat): (k: int)
    ensures -1 <= k < |votes|
  {
    if votes == [] then -1
    else if votes[|votes| - 1].voter == voter then |votes| - 1
    else IndexOf(votes[..|votes| - 1], voter)
  }

  lemma {:induction false} IndexIs(votes: seq<Vote>, voter: nat, k: int)
    requires -1 <= k < |votes| && (k >= 0 ==> votes[k].voter == voter)
    requires forall i :: k < i < |votes| ==> votes[i].voter != voter
    ensures IndexOf(votes, voter) == k
  {
    if k < |votes| - 1 {
      IndexIs(votes[..|votes| - 1], voter, k);
    }
  }

  class Comment {
    const curve: Curve
    const created: nat
    const lockout: nat              // the time from which no vote may raise the payout
    var net: int                    // net_SCOREreward
    var abs: nat                    // abs_SCOREreward
    var voted: nat                  // vote_SCOREreward
    var totalWeight: nat            // total_vote_weight
    var votes: seq<Vote>

    ghost predicate CurveOk()
    {
      (curve.QuadraticCuration? ==> curve.alpha > 0) && (curve.Ratio? ==> curve.s > 0)
    }

    /** The weights fit in the total, the total in the curve of all power voted for the comment and in 64 bits. */
    ghost predicate Valid()
      reads this
    {
      && CurveOk()
      && net == NetPower(votes)
      && Total(Weights(votes)) <= totalWeight < TWO_64
      && totalWeight <= Evaluate(curve, voted)
      && (forall i, j :: 0 <= i < j < |votes| ==> votes[i].voter != votes[j].voter)
    }

    constructor (curve: Curve, created: nat, lockout: nat)
      requires (curve.QuadraticCuration? ==> curve.alpha > 0) && (curve.Ratio? ==> curve.s > 0)
      ensures Valid() && votes == [] && net == abs == voted == totalWeight == 0
      ensures this.curve == curve && this.created == created && this.lockout == lockout
    {
      this.curve, this.created, this.lockout := curve, created, lockout;
      net, abs, voted, totalWeight, votes := 0, 0, 0, 0, [];
    }

    method Find(voter: nat) returns (k: int)
      ensures -1 <= k < |votes|
      ensures k >= 0 ==> votes[k].voter == voter
      ensures k < 0 ==> forall i :: 0 <= i < |votes| ==> votes[i].voter != voter
      ensures k == IndexOf(votes, voter)
    {
      k := |votes| - 1;
      while k >= 0 && votes[k].voter != voter
        invariant -1 <= k < |votes|
        invariant forall i :: k < i < |votes| ==> votes[i].voter != voter
        decreases k
      {
        k := k - 1;
      }
      IndexIs(votes, voter, k);
    }

    ghost function Now(): Tally
      reads this
    {
      Tally(net, abs, voted, totalWeight, votes)
    }

    /** The tally after a first vote; a refused one changes nothing. */
    ghost function Added(t: Tally, b: Ballot): Tally
      requires CurveOk()
    {
      CurveRises(curve, t.voted, t.voted + b.power);
      var gain := Evaluate(curve, t.voted + b.power) - Evaluate(curve, t.voted);
      var up := b.percent > 0;
      if b.percent == 0 || b.power == 0 || (up && b.now >= lockout) then t
      else if up && b.eligible && Evaluate(curve, t.voted + b.power) >= TWO_64 then t
      else
        var weight := if up && b.eligible then gain else 0;
        var age := if b.now > created then b.now - created else 0;
        Tally(t.net + Signed(b), t.abs + b.power, if up then t.voted + b.power else t.voted, t.totalWeight + weight,
              t.votes + [Vote(b.voter, Signed(b), Discounted(weight, age), b.percent, 0)])
    }

    /** The tally after vote k is changed; a refused change changes nothing. */
    ghost function Changed(t: Tally, k: nat, b: Ballot): Tally
      requires k < |t.votes|
    {
      var v := t.votes[k];
      if v.changes >= MAX_VOTE_CHANGES || v.percent == b.percent || (v.power < Signed(b) && b.now >= lockout) then t
      else
        Tally(t.net - v.power + Signed(b), t.abs + b.power, t.voted,
              if t.totalWeight >= v.weight then t.totalWeight - v.weight else 0,
              t.votes[k := Vote(b.voter, Signed(b), 0, b.percent, v.changes + 1)])
    }

    /** The tally after the first n of some ballots. */
    ghost function Cast(t: Tally, ballots: seq<Ballot>, n: nat): Tally
      requires CurveOk() && n <= |ballots|
    {
      if n == 0 then t
      else
        var before := Cast(t, ballots, n - 1);
        var k := IndexOf(before.votes, ballots[n - 1].voter);
        if k < 0 then Added(before, ballots[n - 1]) else Changed(before, k, ballots[n - 1])
    }

    /** The weight a vote of positive power adds. */
    function Gain(power: nat): (r: nat)
      requires CurveOk()
      reads this
      ensures r == Evaluate(curve, voted + power) - Evaluate(curve, voted)
    {
      CurveRises(curve, voted, voted + power);
      Evaluate(curve, voted + power) - Evaluate(curve, voted)
    }

    /** A first vote by this voter. */
    method AddVote(b: Ballot) returns (ok: bool)
      requires Valid() && b.now >= created && forall i :: 0 <= i < |votes| ==> votes[i].voter != b.voter
      modifies this
      ensures Valid()
      ensures ok <==> && b.percent != 0 && b.power > 0 && (b.percent > 0 ==> b.now < lockout)
                      && (b.percent > 0 && b.eligible ==> Evaluate(curve, old(voted) + b.power) < TWO_64)
      ensures !ok ==>
        votes == old(votes) && totalWeight == old(totalWeight) && voted == old(voted) && net == old(net)
          && abs == old(abs)
      ensures ok ==>
        var up := b.percent > 0;
        var gain := if up && b.eligible then old(Gain(b.power)) else 0;
        && votes == old(votes) + [Vote(b.voter, Signed(b), Discounted(gain, b.now - created), b.percent, 0)]
        && totalWeight == old(totalWeight) + gain
        && voted == (if up then old(voted) + b.power else old(voted))
        && abs == old(abs) + b.power
      ensures Now() == Added(old(Now()), b)
    {
      hide Evaluate, Total, Weights, NetPower, Discounted;
      if b.percent == 0 || b.power == 0 || (b.percent > 0 && b.now >= lockout) {
        return false;
      }
      var up := b.percent > 0;
      var gain := 0;
      if up {
        CurveRises(curve, voted, voted + b.power);
        if b.eligible {
          if Evaluate(curve, voted + b.power) >= TWO_64 {
            return false;
          }
          gain := Gain(b.power);
        }
      }
      var v := Vote(b.voter, Signed(b), Discounted(gain, b.now - created), b.percent, 0);
      NetAppend(votes, v);
      TotalAppend(Weights(votes), v.weight);
      net, abs := net + v.power, abs + b.power;
      voted := if up then voted + b.power else voted;
      totalWeight := totalWeight + gain;
      votes := votes + [v];
      ok := true;
    }

    /** A changed vote loses its weight for good. */
    method ChangeVote(k: nat, b: Ballot) returns (ok: bool)
      requires Valid() && k < |votes| && votes[k].voter == b.voter
      modifies this
      ensures Valid()
      ensures ok <==> && old(votes)[k].changes < MAX_VOTE_CHANGES && old(votes)[k].percent != b.percent
                      && (old(votes)[k].power < Signed(b) ==> b.now < lockout)
      ensures !ok ==>
        votes == old(votes) && totalWeight == old(totalWeight) && voted == old(voted) && net == old(net)
          && abs == old(abs)
      ensures ok ==>
        && votes == old(votes)[k := Vote(b.voter, Signed(b), 0, b.percent, old(votes)[k].changes + 1)]
        && totalWeight == old(totalWeight) - old(votes)[k].weight
        && voted == old(voted) && abs == old(abs) + b.power
      ensures Now() == Changed(old(Now()), k, b)
    {
      hide Evaluate, Total, NetPower;
      var v := votes[k];
      var power := Signed(b);
      if v.changes >= MAX_VOTE_CHANGES || v.percent == b.percent || (v.power < power && b.now >= lockout) {
        return false;
      }
      var v' := Vote(b.voter, power, 0, b.percent, v.changes + 1);
      NetUpdate(votes, k, v');
      TotalUpdate(Weights(votes), k, 0);
      assert Weights(votes[k := v']) == Weights(votes)[k := 0];
      net, abs := net - v.power + power, abs + b.power;
      totalWeight := totalWeight - v.weight;
      votes := votes[k := v'];
      ok := true;
    }

    /** Any sequence of votes and vote changes. */
    method CastAll(ballots: seq<Ballot>)
      requires Valid() && forall b :: b in ballots ==> b.now >= created
      modifies this
      ensures Valid() && Now() == Cast(old(Now()), ballots, |ballots|)
    {
      hide Comment.Added, Comment.Changed;
      for i := 0 to |ballots|
        invariant Valid() && Now() == Cast(old(Now()), ballots, i)
      {
        var k := Find(ballots[i].voter);
        if k < 0 {
          var _ := AddVote(ballots[i]);
        } else {
          var _ := ChangeVote(k, ballots[i]);
        }
      }
    }

    /** Each curator's claim, what they get together, and what goes back to the author. */
    method PayCurators(allowed: bool, most: nat) returns (claims: seq<nat>, paid: nat, unclaimed: nat)
      requires Valid()
      ensures paid == Total(claims) <= most
      ensures unclaimed == (if allowed then most - paid else 0) && (!allowed ==> paid == 0)
      ensures claims == if allowed && totalWeight > 0 then Shares(most, Weights(votes), totalWeight) else []
    {
      claims, unclaimed := [], most;
      if !allowed {
        return claims, 0, 0;
      }
      if totalWeight > 0 {
        ghost var weights := Weights(votes);
        ghost var shares := Shares(most, weights, totalWeight);
        SharesWithin(most, weights, totalWeight);
        for i := 0 to |votes|
          invariant claims == shares[..i] && unclaimed == most - Total(claims) && Total(claims) <= Total(shares)
        {
          TotalPrefix(shares, i + 1);
          assert shares[..i + 1] == shares[..i] + [shares[i]];
          TotalAppend(shares[..i], shares[i]);
          var claim := most * votes[i].weight / totalWeight;
          unclaimed := unclaimed - claim;
          claims := claims + [claim];
        }
        assert shares[..|votes|] == shares;
      }
      paid := most - unclaimed;
    }
  }

  // ---------- Payout ----------

  /** The cuts of the beneficiaries, as they are taken one by one, and their sum. */
  method PayBeneficiaries(author: nat, weights: seq<nat>) returns (cuts: seq<nat>, total: nat)
    requires Total(weights) <= PERCENT_100
    ensures cuts == Shares(author, weights, PERCENT_100) && total == Total(cuts) <= author
  {
    cuts, total := [], 0;
    ghost var shares := Shares(author, weights, PERCENT_100);
    SharesWithin(author, weights, PERCENT_100);
    for i := 0 to |weights|
      invariant cuts == shares[..i] && total == Total(cuts)
    {
      var cut := author * weights[i] / PERCENT_100;
      assert shares[..i + 1] == shares[..i] + [shares[i]];
      TotalAppend(shares[..i], shares[i]);
      cuts, total := cuts + [cut], total + cut;
    }
    assert shares[..|weights|] == shares;
  }

  /** How a reward is split among curators, beneficiaries and the author. */
  ghost predicate Split(
    votes: seq<Vote>, totalWeight: nat, reward: nat, allowed: bool, curation: nat, weights: seq<nat>, percentTSD: nat,
    p: Payout)
    requires curation <= PERCENT_100
  {
    var curators := Part(reward, curation, PERCENT_100);
    && Total(p.curators) + Total(p.beneficiaries) + p.score + p.tsd == p.claimed <= reward
    && (allowed ==> p.claimed == reward) && (!allowed ==> p.claimed + curators == reward)
    && p.curators == (if allowed && totalWeight > 0 then Shares(curators, Weights(votes), totalWeight) else [])
    && (var left := p.claimed - Total(p.curators);
        left >= 0 && p.beneficiaries == Shares(left, weights, PERCENT_100))
    && p.tsd == Part(p.tsd + p.score, percentTSD, 2 * PERCENT_100)
  }

  /**
   A comment's reward is split with nothing lost or made: curators, beneficiaries, the author's stake and the
   author's share in TSD add up to what is claimed, which is the whole reward unless curation is not allowed.
   */
  method CashOut(c: Comment, reward: nat, allowed: bool, curation: nat, weights: seq<nat>, percentTSD: nat)
    returns (p: Payout)
    requires c.Valid() && curation <= PERCENT_100 && Total(weights) <= PERCENT_100 && percentTSD <= PERCENT_100
    ensures Split(c.votes, c.totalWeight, reward, allowed, curation, weights, percentTSD, p)
  {
    hide Part, Total, Shares, Weights, Evaluate, NetPower;
    PartWithin(reward, curation, PERCENT_100);
    var curators := Part(reward, curation, PERCENT_100);
    var author := reward - curators;
    var claims, paid, unclaimed := c.PayCurators(allowed, curators);
    author := author + unclaimed;
    var claimed := author + paid;
    var cuts, total := PayBeneficiaries(author, weights);
    author := author - total;
    PartWithin(author, percentTSD, 2 * PERCENT_100);
    var tsd := Part(author, percentTSD, 2 * PERCENT_100);
    p := Payout(claims, cuts, author - tsd, tsd, claimed);
  }

  /** A comment due for payout: its claim on the fund, the share of it that counts, and the most it accepts. */
  datatype Due = Due(claim: nat, rewardWeight: nat, most: nat)

  function Claims(due: seq<Due>): (r: seq<nat>)
    ensures |r| == |due| && forall i :: 0 <= i < |r| ==> r[i] == due[i].claim
  {
    seq(|due|, i requires 0 <= i < |due| => due[i].claim)
  }

  /** What a comment gets: its share of the fund, nothing if that is dust, and never more than it accepts. */
  function Reward(fund: nat, claims: nat, d: Due, dust: nat -> bool): (r: nat)
    requires claims > 0
    ensures r <= d.most
  {
    var payout := fund * (d.claim * d.rewardWeight / PERCENT_100) / claims;
    var kept := if dust(payout) then 0 else payout;
    if kept < d.most then kept else d.most
  }

  lemma {:induction false} RewardWithinShare(fund: nat, claims: nat, d: Due, dust: nat -> bool)
    requires claims > 0 && d.rewardWeight <= PERCENT_100
    ensures Reward(fund, claims, d, dust) <= fund * d.claim / claims
    ensures exists share: nat ::
      && share * claims <= fund * (d.claim * d.rewardWeight / PERCENT_100) < (share + 1) * claims
      && Reward(fund, claims, d, dust) == if dust(share) then 0 else if share < d.most then share else d.most
  {
    var worth := fund * (d.claim * d.rewardWeight / PERCENT_100);
    FloorAtLeast(worth, claims, worth / claims);
    FloorAtLeast(worth, claims, worth / claims + 1);
    PartWithin(d.claim, d.rewardWeight, PERCENT_100);
    var claim := d.claim * d.rewardWeight / PERCENT_100;
    MulMono(claim, d.claim, fund);
    assert claim * fund == fund * claim && d.claim * fund == fund * d.claim;
    FloorMono(fund * claim, fund * d.claim, claims);
  }

  /**
   Payouts are all taken against the fund as it was, with every claim
   of the block counted first: it covers them all.
   */
  method PayComments(fund: nat, recent: nat, due: seq<Due>, dust: nat -> bool)
    returns (fund': nat, claims: nat, payouts: seq<nat>)
    requires forall d :: d in due ==> d.claim > 0 && d.rewardWeight <= PERCENT_100
    ensures claims == recent + Total(Claims(due))
    ensures |payouts| == |due| && forall i :: 0 <= i < |due| ==>
      claims > 0 && payouts[i] == Reward(fund, claims, due[i], dust)
    ensures fund' + Total(payouts) == fund
  {
    hide Total, Reward, Claims;
    claims := CountClaims(recent, due);
    var awarded := 0;
    payouts := [];
    NothingTotal();
    for i := 0 to |due|
      invariant |payouts| == i && awarded == Total(payouts)
      invariant forall j :: 0 <= j < i ==> claims > 0 && payouts[j] == Reward(fund, claims, due[j], dust)
    {
      var r := Reward(fund, claims, due[i], dust);
      TotalAppend(payouts, r);
      payouts, awarded := payouts + [r], awarded + r;
    }
    if due != [] {
      FundCovers(fund, claims, due, payouts, dust);
    } else {
      assert payouts == [];
    }
    fund' := fund - awarded;
  }

  lemma {:induction false} NothingTotal()
    ensures Total([]) == 0
  {
  }

  /** The recent claims with those of the comments that are due. */
  method CountClaims(recent: nat, due: seq<Due>) returns (claims: nat)
    requires forall d :: d in due ==> d.claim > 0
    ensures claims == recent + Total(Claims(due)) && (due != [] ==> claims > 0)
  {
    claims := recent;
    ghost var all := Claims(due);
    for i := 0 to |due|
      invariant claims == recent + Total(all[..i]) && (i > 0 ==> claims > 0)
    {
      assert all[..i + 1] == all[..i] + [all[i]];
      TotalAppend(all[..i], all[i]);
      claims := claims + due[i].claim;
    }
    assert all[..|due|] == all;
  }

  lemma {:induction false} FundCovers(fund: nat, claims: nat, due: seq<Due>, payouts: seq<nat>, dust: nat -> bool)
    requires claims > 0 && Total(Claims(due)) <= claims && |payouts| == |due|
    requires forall d :: d in due ==> d.rewardWeight <= PERCENT_100
    requires forall i :: 0 <= i < |due| ==> payouts[i] == Reward(fund, claims, due[i], dust)
    ensures Total(payouts) <= fund
  {
    var shares := Shares(fund, Claims(due), claims);
    forall i | 0 <= i < |due| ensures payouts[i] <= shares[i] {
      RewardWithinShare(fund, claims, due[i], dust);
    }
    TotalMono(payouts, shares);
    SharesWithin(fund, Claims(due), claims);
  }
}
