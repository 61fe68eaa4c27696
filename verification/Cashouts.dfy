/** The payout of a comment, from the votes on it to the accounts that are paid. */
module Cashouts {
  import opened Portions
  import opened Curation
  import opened Ledger

  function Voters(votes: seq<Vote>): (r: seq<nat>)
    ensures |r| == |votes| && forall i :: 0 <= i < |r| ==> r[i] == votes[i].voter
  {
    seq(|votes|, i requires 0 <= i < |votes| => votes[i].voter)
  }

  /** One fund has paid a reward: all of it, or less if curators may not be paid. */
  ghost predicate Taken(before: map<nat, int>, after: map<nat, int>, fund: nat, reward: nat, whole: bool)
  {
    && fund in before && fund in after && before[fund] - reward <= after[fund] <= before[fund]
    && after == before[fund := after[fund]] && (whole ==> after[fund] == before[fund] - reward)
  }

  /** What the comment's rules hand out is what they take from the fund, so the ledger stays balanced. */
  method CashOutComment(
    db: LedgerDatabase, c: Comment, fund: nat, author: nat, reward: nat, allowed: bool, curation: nat,
    beneficiaries: seq<Ledger.Share>, percentTSD: nat) returns (ok: bool, p: Payout)
    requires db.Valid() && c.Valid() && curation <= PERCENT_100 && percentTSD <= PERCENT_100
    requires Total(Values(beneficiaries)) <= PERCENT_100
    modifies db
    ensures db.Valid()
    ensures Split(c.votes, c.totalWeight, reward, allowed, curation, Values(beneficiaries), percentTSD, p)
    ensures |p.curators| <= |c.votes| && |p.beneficiaries| == |beneficiaries|
    ensures var pay := Payment(p, fund, author, Voters(c.votes), Names(beneficiaries));
            && (ok <==> MayPay(old(db.accounts), old(db.gpo), old(db.funds), pay))
            && (ok ==> PaidFor(old(db.accounts), old(db.gpo), db.accounts, pay, db.feed, db.printRate, db.now, db.rate))
    ensures if ok then Taken(old(db.funds), db.funds, fund, reward, allowed)
            else db.funds == old(db.funds) && db.accounts == old(db.accounts) && db.gpo == old(db.gpo)
  {
    hide LedgerDatabase.Valid, Comment.Valid, Total, Part, Shares, PaidFor, MayPay;
    p := CashOut(c, reward, allowed, curation, Values(beneficiaries), percentTSD);
    ok := db.PaySplit(p, fund, author, Voters(c.votes), Names(beneficiaries));
  }

  function Names(list: seq<Ledger.Share>): (r: seq<nat>)
    ensures |r| == |list| && forall i :: 0 <= i < |r| ==> r[i] == list[i].to
  {
    seq(|list|, i requires 0 <= i < |list| => list[i].to)
  }
}
