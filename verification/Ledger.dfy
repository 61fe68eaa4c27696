/**
 The ledger: every place where TME, TSD and SCORE are kept, the supplies recorded for them, and the operations
 and block-end steps that move them.  The recorded supplies are at all times exactly what is held.
 */
module Ledger {
  import opened Common
  import opened Arithmetic
  import opened Portions
  import opened Sums
  import opened Holders
  import opened Orders

  const SECONDS_PER_YEAR: nat := 60 * 60 * 24 * 365
  const COMPOUND_INTERVAL: nat := 60 * 60 * 24 * 30
  const SAVINGS_REQUEST_LIMIT: nat := 100

  // ---------- What is held where ----------

  /** The balance times seconds on which interest is due, and when it was last brought up to date and paid. */
  datatype Accrual = Accrual(seconds: nat, updated: nat, paid: nat)

  datatype Account = Account(
    tme: nat, tmeSavings: nat, tmeReward: nat,
    tsd: nat, tsdSavings: nat, tsdReward: nat,
    score: nat, scoreReward: nat, scoreRewardTme: nat,
    accrual: Accrual, savingsAccrual: Accrual,
    requests: int)

  datatype Amount = Amount(symbol: Symbol, value: nat)

  datatype Sale = Sale(seller: nat, left: Amount)
  datatype Conversion = Conversion(owner: nat, tsd: nat, date: nat)
  datatype Transfer = Transfer(from: nat, to: nat, amount: Amount, complete: nat)
  datatype Escrow = Escrow(from: nat, to: nat, agent: nat, tme: nat, tsd: nat, fee: Amount,
                           toApproved: bool, agentApproved: bool, disputed: bool, deadline: nat, expiration: nat)

  /** The dynamic global properties that count money. */
  datatype Globals = Globals(
    supply: int,          // current_supply
    tsdSupply: int,       // current_TSD_supply
    totalScore: int,      // totalSCORE
    scoreFund: int,       // totalTMEfundForSCORE
    rewardFund: int,      // total_reward_fund_TME
    pendingScore: int,    // pending_rewarded_SCORE
    pendingTme: int)      // pending_rewarded_SCOREvalueInTME

  /** The median price: so many TSD for so many TME. */
  datatype Feed = Feed(tsd: nat, tme: nat)

  /** The part of an amount that is in a given asset. */
  function In(t: Symbol, s: Symbol, v: int): int { if s == t then v else 0 }

  function AccountTme(a: Account): int { a.tme + a.tmeSavings + a.tmeReward }
  function AccountTsd(a: Account): int { a.tsd + a.tsdSavings + a.tsdReward }
  function AccountScore(a: Account): int { a.score }
  function AccountReward(a: Account): int { a.scoreReward }
  function AccountPending(a: Account): int { a.scoreRewardTme }
  function SaleTme(s: Sale): int { In(TME, s.left.symbol, s.left.value) }
  function SaleTsd(s: Sale): int { In(TSD, s.left.symbol, s.left.value) }
  function ConversionTsd(c: Conversion): int { c.tsd }
  function TransferTme(t: Transfer): int { In(TME, t.amount.symbol, t.amount.value) }
  function TransferTsd(t: Transfer): int { In(TSD, t.amount.symbol, t.amount.value) }
  function EscrowTme(e: Escrow): int { e.tme + In(TME, e.fee.symbol, e.fee.value) }
  function EscrowTsd(e: Escrow): int { e.tsd + In(TSD, e.fee.symbol, e.fee.value) }
  function FundTme(v: int): int { v }

  // ---------- Interest ----------

  /** The interest that falls due when a TSD balance is touched, and the accrual after that. */
  ghost function Accrue(balance: nat, a: Accrual, now: nat, rate: nat): (r: (nat, Accrual))
  {
    if a.updated == now then (0, a)
    else
      var seconds := a.seconds + balance * (if now > a.updated then now - a.updated else 0);
      if seconds > 0 && now - a.paid > COMPOUND_INTERVAL then
        (seconds / SECONDS_PER_YEAR * rate / PERCENT_100, Accrual(0, now, now))
      else (0, Accrual(seconds, now, a.paid))
  }

  /** An account after its liquid balance changes by d, interest first. */
  ghost function Adjusted(a: Account, s: Symbol, d: int, now: nat, rate: nat): (r: Account)
    requires d >= 0 || (if s == TME then a.tme else a.tsd) >= -d
  {
    if s == TME then a.(tme := a.tme + d)
    else
      var (interest, accrual) := Accrue(a.tsd, a.accrual, now, rate);
      a.(tsd := a.tsd + interest + d, accrual := accrual)
  }

  ghost function AdjustedSavings(a: Account, s: Symbol, d: int, now: nat, rate: nat): (r: Account)
    requires d >= 0 || (if s == TME then a.tmeSavings else a.tsdSavings) >= -d
  {
    if s == TME then a.(tmeSavings := a.tmeSavings + d)
    else
      var (interest, accrual) := Accrue(a.tsdSavings, a.savingsAccrual, now, rate);
      a.(tsdSavings := a.tsdSavings + interest + d, savingsAccrual := accrual)
  }

  ghost function Interest(a: Account, s: Symbol, savings: bool, now: nat, rate: nat): (r: nat)
  {
    if s == TME then 0
    else if savings then Accrue(a.tsdSavings, a.savingsAccrual, now, rate).0
    else Accrue(a.tsd, a.accrual, now, rate).0
  }

  type Accounts = map<nat, Account>

  function Neg(v: nat): int { -(v as int) }

  /** The accounts after one of them is adjusted; nothing happens if it could not pay. */
  ghost function Adjust(accounts: Accounts, a: nat, s: Symbol, d: int, now: nat, rate: nat): Accounts
  {
    if a in accounts && (d >= 0 || (if s == TME then accounts[a].tme else accounts[a].tsd) >= -d)
    then accounts[a := Adjusted(accounts[a], s, d, now, rate)] else accounts
  }

  ghost function AdjustInSavings(accounts: Accounts, a: nat, s: Symbol, d: int, now: nat, rate: nat): Accounts
  {
    if a in accounts && (d >= 0 || (if s == TME then accounts[a].tmeSavings else accounts[a].tsdSavings) >= -d)
    then accounts[a := AdjustedSavings(accounts[a], s, d, now, rate)] else accounts
  }

  /** Changing one account changes the sums over all by the difference. */
  lemma {:induction false} AccountChange(accounts: Accounts, a: nat, acc: Account)
    requires a in accounts
    ensures var r := accounts[a := acc];
            && r.Keys == accounts.Keys
            && SumOf(r, AccountTme) == SumOf(accounts, AccountTme) + AccountTme(acc) - AccountTme(accounts[a])
            && SumOf(r, AccountTsd) == SumOf(accounts, AccountTsd) + AccountTsd(acc) - AccountTsd(accounts[a])
            && SumOf(r, AccountScore) == SumOf(accounts, AccountScore) + acc.score - accounts[a].score
            && SumOf(r, AccountReward) == SumOf(accounts, AccountReward) + acc.scoreReward - accounts[a].scoreReward
            && SumOf(r, AccountPending) == SumOf(accounts, AccountPending)
              + acc.scoreRewardTme - accounts[a].scoreRewardTme
  {
    SumOfUpdate(accounts, AccountTme, a, acc);
    SumOfUpdate(accounts, AccountTsd, a, acc);
    SumOfUpdate(accounts, AccountScore, a, acc);
    SumOfUpdate(accounts, AccountReward, a, acc);
    SumOfUpdate(accounts, AccountPending, a, acc);
  }

  lemma {:induction false} AccountAdd(accounts: Accounts, a: nat, acc: Account)
    requires a !in accounts
    ensures var r := accounts[a := acc];
            && SumOf(r, AccountTme) == SumOf(accounts, AccountTme) + AccountTme(acc)
            && SumOf(r, AccountTsd) == SumOf(accounts, AccountTsd) + AccountTsd(acc)
            && SumOf(r, AccountScore) == SumOf(accounts, AccountScore) + acc.score
            && SumOf(r, AccountReward) == SumOf(accounts, AccountReward) + acc.scoreReward
            && SumOf(r, AccountPending) == SumOf(accounts, AccountPending) + acc.scoreRewardTme
  {
    SumOfUpdate(accounts, AccountTme, a, acc);
    SumOfUpdate(accounts, AccountTsd, a, acc);
    SumOfUpdate(accounts, AccountScore, a, acc);
    SumOfUpdate(accounts, AccountReward, a, acc);
    SumOfUpdate(accounts, AccountPending, a, acc);
  }

  /**
   The sums that make up the supplies do not notice a change that
   leaves an account's holdings as they were, but for d.
   */
  ghost predicate Shifted(before: Accounts, after: Accounts, tme: int, tsd: int)
  {
    && after.Keys == before.Keys
    && SumOf(after, AccountTme) == SumOf(before, AccountTme) + tme
    && SumOf(after, AccountTsd) == SumOf(before, AccountTsd) + tsd
    && SumOf(after, AccountScore) == SumOf(before, AccountScore)
    && SumOf(after, AccountReward) == SumOf(before, AccountReward)
    && SumOf(after, AccountPending) == SumOf(before, AccountPending)
  }

  lemma {:induction false} AdjustedIs(accounts: Accounts, a: nat, s: Symbol, d: int, now: nat, rate: nat)
    requires a in accounts && (d >= 0 || (if s == TME then accounts[a].tme else accounts[a].tsd) >= -d)
    ensures var acc := accounts[a];
            && Interest(acc, TME, false, now, rate) == 0
            && Interest(acc, TSD, false, now, rate) == Accrue(acc.tsd, acc.accrual, now, rate).0
            && Adjust(accounts, a, s, d, now, rate) == accounts[a :=
              if s == TME then acc.(tme := acc.tme + d)
              else acc.(tsd := acc.tsd + Accrue(acc.tsd, acc.accrual, now, rate).0 + d,
                        accrual := Accrue(acc.tsd, acc.accrual, now, rate).1)]
  {
    hide Accrue;
  }

  lemma {:induction false} AdjustedSavingsIs(accounts: Accounts, a: nat, s: Symbol, d: int, now: nat, rate: nat)
    requires a in accounts && (d >= 0 || (if s == TME then accounts[a].tmeSavings else accounts[a].tsdSavings) >= -d)
    ensures var acc := accounts[a];
            && Interest(acc, TME, true, now, rate) == 0
            && Interest(acc, TSD, true, now, rate) == Accrue(acc.tsdSavings, acc.savingsAccrual, now, rate).0
            && AdjustInSavings(accounts, a, s, d, now, rate) == accounts[a :=
              if s == TME then acc.(tmeSavings := acc.tmeSavings + d)
              else acc.(tsdSavings := acc.tsdSavings + Accrue(acc.tsdSavings, acc.savingsAccrual, now, rate).0 + d,
                        savingsAccrual := Accrue(acc.tsdSavings, acc.savingsAccrual, now, rate).1)]
  {
    hide Accrue;
  }

  /** Touching a balance early makes no difference to the balance times seconds, as long as no interest is paid. */
  lemma {:induction false} AccrueSplit(balance: nat, a: Accrual, t: nat, now: nat, rate: nat)
    requires a.updated <= t <= now && Accrue(balance, a, t, rate).1.paid == a.paid
    requires Accrue(balance, a, now, rate).1.paid == a.paid != now
    ensures Accrue(balance, Accrue(balance, a, t, rate).1, now, rate).1 == Accrue(balance, a, now, rate).1
  {
    Distribute(t - a.updated, now - t, balance);
    assert balance * (t - a.updated) == (t - a.updated) * balance && balance * (now - t) == (now - t) * balance;
    assert balance * (now - a.updated) == (now - a.updated) * balance;
  }

  /** Interest is paid at most once in a month, and no more than the rate on what was held for whole years. */
  lemma {:induction false} InterestWithin(balance: nat, a: Accrual, now: nat, rate: nat)
    ensures var (interest, after) := Accrue(balance, a, now, rate);
            && (interest > 0 ==> after.seconds == 0 && after.paid == now > a.paid + COMPOUND_INTERVAL)
            && (a.updated <= now ==>
                  interest * PERCENT_100 * SECONDS_PER_YEAR <= rate * (a.seconds + balance * (now - a.updated)))
  {
    var (interest, after) := Accrue(balance, a, now, rate);
    if interest > 0 && a.updated <= now {
      var seconds := a.seconds + balance * (now - a.updated);
      var years := seconds / SECONDS_PER_YEAR;
      FloorAtLeast(years * rate, PERCENT_100, interest);
      FloorAtLeast(seconds, SECONDS_PER_YEAR, years);
      MulMono(interest * PERCENT_100, years * rate, SECONDS_PER_YEAR);
      MulMono(years * SECONDS_PER_YEAR, seconds, rate);
      ThreeFactors(years, rate, SECONDS_PER_YEAR);
      assert seconds * rate == rate * seconds;
    } else if a.updated <= now {
      var seconds := a.seconds + balance * (now - a.updated);
      MulMono(0, rate, seconds);
      assert interest * PERCENT_100 * SECONDS_PER_YEAR == 0;
    }
  }

  lemma {:induction false} ThreeFactors(a: nat, b: nat, c: nat)
    ensures a * b * c == a * c * b
  {
  }

  lemma {:induction false} AdjustShifts(accounts: Accounts, a: nat, s: Symbol, d: int, now: nat, rate: nat)
    requires a in accounts && (d >= 0 || (if s == TME then accounts[a].tme else accounts[a].tsd) >= -d)
    ensures Shifted(accounts, Adjust(accounts, a, s, d, now, rate), In(TME, s, d),
      In(TSD, s, d) + Interest(accounts[a], s, false, now, rate))
  {
    hide Accrue, SumOf;
    AccountChange(accounts, a, Adjusted(accounts[a], s, d, now, rate));
  }

  lemma {:induction false} SavingsShift(accounts: Accounts, a: nat, s: Symbol, d: int, now: nat, rate: nat)
    requires a in accounts && (d >= 0 || (if s == TME then accounts[a].tmeSavings else accounts[a].tsdSavings) >= -d)
    ensures Shifted(accounts, AdjustInSavings(accounts, a, s, d, now, rate), In(TME, s, d),
      In(TSD, s, d) + Interest(accounts[a], s, true, now, rate))
  {
    hide Accrue, SumOf;
    AccountChange(accounts, a, AdjustedSavings(accounts[a], s, d, now, rate));
  }

  /** The accounts after one of them has d more requests waiting. */
  ghost function Recounted(accounts: Accounts, a: nat, d: int): Accounts
  {
    if a in accounts then accounts[a := accounts[a].(requests := accounts[a].requests + d)] else accounts
  }

  /** The accounts after an order has paid and received; what is left of one that closes goes back to its seller. */
  ghost function Filled(
    accounts: Accounts, s: Sale, pays: nat, receives: nat, close: bool, now: nat, rate: nat): Accounts
    requires pays <= s.left.value
  {
    var paid := Adjust(accounts, s.seller, Other(s.left.symbol), receives, now, rate);
    if close && pays < s.left.value then Adjust(paid, s.seller, s.left.symbol, s.left.value - pays, now, rate) else paid
  }

  /** The orders after one of them has paid. */
  ghost function Reduced(sales: Sales, id: nat, pays: nat, close: bool): Sales
    requires id in sales && pays <= sales[id].left.value
  {
    var s := sales[id];
    if close || pays == s.left.value then sales - {id}
    else sales[id := s.(left := Amount(s.left.symbol, s.left.value - pays))]
  }

  /** Two orders have traded. */
  ghost predicate BothFilled(
    accounts: Accounts, sales: Sales, accounts': Accounts, sales': Sales, i: nat, j: nat, iPays: nat, jPays: nat,
    closeI: bool, closeJ: bool, now: nat, rate: nat)
  {
    && i in sales && j in sales && i != j && iPays <= sales[i].left.value && jPays <= sales[j].left.value
    && var first := Reduced(sales, i, iPays, closeI);
    && j in first && first[j] == sales[j]
    && sales' == Reduced(first, j, jPays, closeJ)
    && accounts' == Filled(Filled(accounts, sales[i], iPays, jPays, closeI, now, rate), sales[j], jPays, iPays, closeJ,
      now, rate)
  }

  type Sales = map<nat, Sale>
  type Conversions = map<(nat, nat), Conversion>
  type Escrows = map<(nat, nat), Escrow>
  type Transfers = map<(nat, nat), Transfer>

  /**
   All the TME there is: with accounts, in orders, escrows and savings
   withdrawals, in the reward funds and behind SCORE.
   */
  ghost function HeldTme(
    accounts: Accounts, sales: Sales, escrows: Escrows, transfers: Transfers, funds: map<nat, int>, g: Globals): int
  {
    SumOf(accounts, AccountTme) + SumOf(sales, SaleTme) + SumOf(escrows, EscrowTme) + SumOf(transfers, TransferTme)
    + SumOf(funds, FundTme) + g.scoreFund + g.rewardFund + g.pendingTme
  }

  ghost function HeldTsd(
    accounts: Accounts, sales: Sales, conversions: Conversions, escrows: Escrows, transfers: Transfers): int
  {
    SumOf(accounts, AccountTsd) + SumOf(sales, SaleTsd) + SumOf(conversions, ConversionTsd)
      + SumOf(escrows, EscrowTsd) + SumOf(transfers, TransferTsd)
  }

  class LedgerDatabase {
    var accounts: Accounts
    var sales: map<nat, Sale>                       // limit orders
    var conversions: map<(nat, nat), Conversion>    // convert requests, by owner and request id
    var escrows: map<(nat, nat), Escrow>            // by sender and escrow id
    var transfers: map<(nat, nat), Transfer>        // withdrawals from savings, by owner and request id
    var funds: map<nat, int>                        // reward funds
    var gpo: Globals
    var now: nat                                    // head block time
    var rate: nat                                   // TSD_interest_rate
    var feed: Option<Feed>                          // current_median_history
    var printRate: nat                              // TSD_print_rate

    /** What is held of each asset, less what the global properties say. */
    ghost function GapTme(): int
      reads this
    {
      HeldTme(accounts, sales, escrows, transfers, funds, gpo) - gpo.supply
    }

    ghost function GapTsd(): int
      reads this
    {
      HeldTsd(accounts, sales, conversions, escrows, transfers) - gpo.tsdSupply
    }

    ghost function GapScore(): int
      reads this
    {
      SumOf(accounts, AccountScore) - gpo.totalScore
    }

    /** Rewards not yet claimed, in SCORE and in the TME set aside for them, are what the global properties say. */
    ghost predicate RewardsMatch()
      reads this
    {
      SumOf(accounts, AccountReward) == gpo.pendingScore && SumOf(accounts, AccountPending) == gpo.pendingTme
    }

    ghost predicate Gaps(tme: int, tsd: int, score: int)
      reads this
    {
      GapTme() == tme && GapTsd() == tsd && GapScore() == score
    }

    /** Everyone who is owed something is an account. */
    ghost predicate Refs()
      reads this
    {
      && (forall k :: k in sales ==> sales[k].seller in accounts)
      && (forall k :: k in conversions ==> conversions[k].owner in accounts)
      && (forall k :: k in escrows ==> EscrowOk(escrows[k], accounts.Keys))
      && (forall k :: k in transfers ==> transfers[k].from in accounts && transfers[k].to in accounts)
    }

    ghost predicate Sane()
      reads this
    {
      RewardsMatch() && Refs() && printRate <= PERCENT_100 && (feed.Some? ==> feed.value.tsd > 0 && feed.value.tme > 0)
    }

    /** The supply equations: what is held of each asset is what the global properties say. */
    ghost predicate Valid()
      reads this
    {
      Gaps(0, 0, 0) && Sane()
    }

    /** A ledger put back to what it was is as sound as it was. */
    twostate lemma PutBack()
      requires old(Valid())
      requires accounts == old(accounts) && sales == old(sales) && conversions == old(conversions)
      requires escrows == old(escrows) && transfers == old(transfers) && funds == old(funds) && gpo == old(gpo)
      requires feed == old(feed) && printRate == old(printRate)
      ensures Valid()
    {
      hide HeldTme, HeldTsd, SumOf, EscrowOk;
    }

    /**
     Genesis: the supply equations hold from the start exactly if the
     initial supply divides evenly among the accounts.
     */
    constructor (count: nat, initSupply: nat, stake: nat)
      requires count > 0
      ensures accounts == GenesisAccounts(count, initSupply / count, stake)
      ensures gpo == Globals(initSupply, 0, stake * count, 0, 0, 0, 0) && sales == map[]
      ensures Valid() <==> initSupply % count == 0
    {
      hide SumOf, NewAccount;
      accounts, sales, conversions, escrows, transfers := GenesisAccounts(0, 0, 0), map[], map[], map[], map[];
      funds, now, rate, feed, printRate := map[], 0, 0, None, PERCENT_100;
      gpo := Globals(initSupply, 0, stake * count, 0, 0, 0, 0);
      new;
      for i := 0 to count
        invariant accounts == GenesisAccounts(i, initSupply / count, stake)
        invariant sales == map[] && conversions == map[] && escrows == map[] && transfers == map[] && funds == map[]
        invariant gpo == Globals(initSupply, 0, stake * count, 0, 0, 0, 0) && feed == None && printRate == PERCENT_100
      {
        accounts := accounts[i + 3 := NewAccount().(tme := initSupply / count, score := stake)];
      }
      GenesisSums(count, initSupply / count, stake);
      EmptySums();
      DivMod(initSupply, count);
      assert stake * count == count * stake;
    }

    // ---------- Moving amounts ----------

    method AdjustBalance(a: nat, s: Symbol, d: int)
      requires a in accounts && (d >= 0 || (if s == TME then accounts[a].tme else accounts[a].tsd) >= -d)
      modifies this`accounts, this`gpo
      ensures accounts == Adjust(old(accounts), a, s, d, now, rate) && accounts.Keys == old(accounts).Keys
      ensures gpo == old(gpo).(tsdSupply := old(gpo).tsdSupply + Interest(old(accounts)[a], s, false, now, rate))
      ensures Gaps(old(GapTme()) + In(TME, s, d), old(GapTsd()) + In(TSD, s, d), old(GapScore()))
      ensures old(Sane()) ==> Sane()
      ensures Stakes(accounts) == Stakes(old(accounts))
    {
      hide SumOf, Adjust, Interest, EscrowOk;
      hide Stakes;
      AdjustShifts(accounts, a, s, d, now, rate);
      AdjustStakes(accounts, a, s, d, now, rate);
      AdjustedIs(accounts, a, s, d, now, rate);
      var acc := accounts[a];
      if s == TME {
        acc := acc.(tme := acc.tme + d);
      } else {
        var interest, accrual := PayInterest(acc.tsd, acc.accrual);
        acc := acc.(tsd := acc.tsd + interest + d, accrual := accrual);
      }
      accounts := accounts[a := acc];
    }

    /** Interest on a TSD balance that is touched is made from nothing, if it is due. */
    method PayInterest(balance: nat, a: Accrual) returns (interest: nat, after: Accrual)
      modifies this`gpo
      ensures (interest, after) == Accrue(balance, a, now, rate)
      ensures gpo == old(gpo).(tsdSupply := old(gpo).tsdSupply + interest)
    {
      interest, after := 0, a;
      if after.updated != now {
        if now > after.updated {
          after := after.(seconds := after.seconds + balance * (now - after.updated));
        }
        after := after.(updated := now);
        if after.seconds > 0 && after.updated - after.paid > COMPOUND_INTERVAL {
          interest := after.seconds / SECONDS_PER_YEAR;
          interest := interest * rate;
          interest := interest / PERCENT_100;
          after := after.(seconds := 0, paid := now);
          gpo := gpo.(tsdSupply := gpo.tsdSupply + interest);
        }
      }
    }

    method AdjustSavings(a: nat, s: Symbol, d: int)
      requires a in accounts && (d >= 0 || (if s == TME then accounts[a].tmeSavings else accounts[a].tsdSavings) >= -d)
      modifies this`accounts, this`gpo
      ensures accounts == AdjustInSavings(old(accounts), a, s, d, now, rate) && accounts.Keys == old(accounts).Keys
      ensures gpo == old(gpo).(tsdSupply := old(gpo).tsdSupply + Interest(old(accounts)[a], s, true, now, rate))
      ensures Gaps(old(GapTme()) + In(TME, s, d), old(GapTsd()) + In(TSD, s, d), old(GapScore()))
      ensures old(Sane()) ==> Sane()
      ensures Stakes(accounts) == Stakes(old(accounts))
    {
      hide SumOf, AdjustInSavings, Interest, EscrowOk;
      hide Stakes;
      SavingsShift(accounts, a, s, d, now, rate);
      AdjustStakes(accounts, a, s, d, now, rate);
      AdjustedSavingsIs(accounts, a, s, d, now, rate);
      var acc := accounts[a];
      if s == TME {
        acc := acc.(tmeSavings := acc.tmeSavings + d);
      } else {
        var interest, accrual := PayInterest(acc.tsdSavings, acc.savingsAccrual);
        acc := acc.(tsdSavings := acc.tsdSavings + interest + d, savingsAccrual := accrual);
      }
      accounts := accounts[a := acc];
    }

    method AdjustReward(a: nat, s: Symbol, d: int)
      requires a in accounts && (d >= 0 || (if s == TME then accounts[a].tmeReward else accounts[a].tsdReward) >= -d)
      modifies this`accounts
      ensures accounts == old(accounts)[a := AdjustedReward(old(accounts)[a], s, d)]
      ensures accounts.Keys == old(accounts).Keys
      ensures Gaps(old(GapTme()) + In(TME, s, d), old(GapTsd()) + In(TSD, s, d), old(GapScore()))
      ensures old(Sane()) ==> Sane()
      ensures Stakes(accounts) == Stakes(old(accounts))
    {
      hide SumOf, EscrowOk;
      hide Stakes;
      StakesUpdate(accounts, a, AdjustedReward(accounts[a], s, d));
      AccountChange(accounts, a, AdjustedReward(accounts[a], s, d));
      var acc := accounts[a];
      if s == TME {
        acc := acc.(tmeReward := acc.tmeReward + d);
      } else {
        acc := acc.(tsdReward := acc.tsdReward + d);
      }
      accounts := accounts[a := acc];
    }

    /** Supply made (or, if negative, destroyed) without a holder yet. */
    method AdjustSupply(s: Symbol, d: int)
      modifies this`gpo
      ensures gpo == if s == TME then old(gpo).(supply := old(gpo).supply + d)
        else old(gpo).(tsdSupply := old(gpo).tsdSupply + d)
      ensures Gaps(old(GapTme()) - In(TME, s, d), old(GapTsd()) - In(TSD, s, d), old(GapScore()))
      ensures old(Sane()) ==> Sane()
    {
      hide SumOf;
      gpo := if s == TME then gpo.(supply := gpo.supply + d) else gpo.(tsdSupply := gpo.tsdSupply + d);
    }

    /** TME enters the fund behind SCORE, and its holder gets SCORE for it, at once or as a reward to be claimed. */
    method CreateScore(a: nat, tme: nat, reward: bool) returns (made: nat)
      requires a in accounts && Priced(gpo, reward)
      modifies this`accounts, this`gpo
      ensures made == NewScore(old(gpo), tme, reward) && accounts.Keys == old(accounts).Keys
      ensures accounts == old(accounts)[a := WithScore(old(accounts)[a], tme, made, reward)]
      ensures gpo == MoreScore(old(gpo), tme, made, reward)
      ensures Gaps(old(GapTme()) + tme, old(GapTsd()), old(GapScore())) && (old(Sane()) ==> Sane())
      ensures Stakes(accounts) == if reward then Stakes(old(accounts)) else Raised(Stakes(old(accounts)), a, made)
    {
      hide SumOf, EscrowOk, NewScore;
      made := Buy(tme, reward);
      hide Stakes;
      StakesUpdate(accounts, a, WithScore(accounts[a], tme, made, reward));
      AccountChange(accounts, a, WithScore(accounts[a], tme, made, reward));
      var acc := accounts[a];
      if reward {
        acc := acc.(scoreReward := acc.scoreReward + made, scoreRewardTme := acc.scoreRewardTme + tme);
        gpo := gpo.(pendingScore := gpo.pendingScore + made, pendingTme := gpo.pendingTme + tme);
      } else {
        acc := acc.(score := acc.score + made);
        gpo := gpo.(totalScore := gpo.totalScore + made, scoreFund := gpo.scoreFund + tme);
      }
      accounts := accounts[a := acc];
    }

    /** What an amount of TME buys at the price of the moment. */
    method Buy(tme: nat, reward: bool) returns (made: nat)
      requires Priced(gpo, reward)
      ensures made == NewScore(gpo, tme, reward)
    {
      if reward {
        made := Part(tme, gpo.totalScore + gpo.pendingScore, gpo.scoreFund + gpo.pendingTme);
      } else if gpo.scoreFund == 0 || gpo.totalScore == 0 {
        made := Part(tme, 1000000, 1000);
      } else {
        made := Part(tme, gpo.totalScore, gpo.scoreFund);
      }
    }

    /** What an amount of SCORE is worth at the price of the moment. */
    method Sell(score: nat) returns (value: nat)
      requires Priced(gpo, false)
      ensures value == ScoreValue(gpo, score)
    {
      if gpo.scoreFund == 0 || gpo.totalScore == 0 {
        value := Part(score, 1000, 1000000);
      } else {
        value := Part(score, gpo.scoreFund, gpo.totalScore);
      }
    }

    method PutSale(k: nat, s: Sale)
      requires s.seller in accounts
      modifies this`sales
      ensures sales == old(sales)[k := s]
      ensures Gaps(old(GapTme()) + SaleTme(s) - (if k in old(sales) then SaleTme(old(sales)[k]) else 0),
        old(GapTsd()) + SaleTsd(s) - (if k in old(sales) then SaleTsd(old(sales)[k]) else 0), old(GapScore()))
      ensures old(Sane()) ==> Sane()
    {
      hide SumOf, EscrowOk;
      SumOfUpdate(sales, SaleTme, k, s);
      SumOfUpdate(sales, SaleTsd, k, s);
      sales := sales[k := s];
    }

    method RemoveSale(k: nat)
      requires k in sales
      modifies this`sales
      ensures sales == old(sales) - {k} && (old(Sane()) ==> Sane())
      ensures Gaps(old(GapTme()) - SaleTme(old(sales)[k]), old(GapTsd()) - SaleTsd(old(sales)[k]), old(GapScore()))
    {
      hide SumOf, EscrowOk;
      SumOfRemove(sales, SaleTme, k);
      SumOfRemove(sales, SaleTsd, k);
      sales := sales - {k};
    }

    method PutConversion(k: (nat, nat), c: Conversion)
      requires k !in conversions && c.owner in accounts
      modifies this`conversions
      ensures conversions == old(conversions)[k := c] && (old(Sane()) ==> Sane())
      ensures Gaps(old(GapTme()), old(GapTsd()) + c.tsd, old(GapScore()))
    {
      hide SumOf, EscrowOk;
      SumOfUpdate(conversions, ConversionTsd, k, c);
      conversions := conversions[k := c];
    }

    method RemoveConversion(k: (nat, nat))
      requires k in conversions
      modifies this`conversions
      ensures conversions == old(conversions) - {k} && (old(Sane()) ==> Sane())
      ensures Gaps(old(GapTme()), old(GapTsd()) - old(conversions)[k].tsd, old(GapScore()))
    {
      hide SumOf, EscrowOk;
      SumOfRemove(conversions, ConversionTsd, k);
      conversions := conversions - {k};
    }

    method PutEscrow(k: (nat, nat), e: Escrow)
      requires EscrowOk(e, accounts.Keys)
      modifies this`escrows
      ensures escrows == old(escrows)[k := e] && (old(Sane()) ==> Sane())
      ensures Gaps(old(GapTme()) + EscrowTme(e) - (if k in old(escrows) then EscrowTme(old(escrows)[k]) else 0),
        old(GapTsd()) + EscrowTsd(e) - (if k in old(escrows) then EscrowTsd(old(escrows)[k]) else 0), old(GapScore()))
    {
      hide SumOf, EscrowOk;
      SumOfUpdate(escrows, EscrowTme, k, e);
      SumOfUpdate(escrows, EscrowTsd, k, e);
      escrows := escrows[k := e];
    }

    method RemoveEscrow(k: (nat, nat))
      requires k in escrows
      modifies this`escrows
      ensures escrows == old(escrows) - {k} && (old(Sane()) ==> Sane())
      ensures Gaps(old(GapTme()) - EscrowTme(old(escrows)[k]), old(GapTsd()) - EscrowTsd(old(escrows)[k]),
        old(GapScore()))
    {
      hide SumOf, EscrowOk;
      SumOfRemove(escrows, EscrowTme, k);
      SumOfRemove(escrows, EscrowTsd, k);
      escrows := escrows - {k};
    }

    method PutTransfer(k: (nat, nat), t: Transfer)
      requires k !in transfers && t.from in accounts && t.to in accounts
      modifies this`transfers
      ensures transfers == old(transfers)[k := t] && (old(Sane()) ==> Sane())
      ensures Gaps(old(GapTme()) + TransferTme(t), old(GapTsd()) + TransferTsd(t), old(GapScore()))
    {
      hide SumOf, EscrowOk;
      SumOfUpdate(transfers, TransferTme, k, t);
      SumOfUpdate(transfers, TransferTsd, k, t);
      transfers := transfers[k := t];
    }

    method RemoveTransfer(k: (nat, nat))
      requires k in transfers
      modifies this`transfers
      ensures transfers == old(transfers) - {k} && (old(Sane()) ==> Sane())
      ensures Gaps(old(GapTme()) - TransferTme(old(transfers)[k]), old(GapTsd()) - TransferTsd(old(transfers)[k]),
        old(GapScore()))
    {
      hide SumOf, EscrowOk;
      SumOfRemove(transfers, TransferTme, k);
      SumOfRemove(transfers, TransferTsd, k);
      transfers := transfers - {k};
    }

    method AdjustFund(i: nat, d: int)
      requires i in funds
      modifies this`funds
      ensures funds == old(funds)[i := old(funds)[i] + d]
      ensures Gaps(old(GapTme()) + d, old(GapTsd()), old(GapScore())) && (old(Sane()) ==> Sane())
    {
      hide SumOf, EscrowOk;
      SumOfUpdate(funds, FundTme, i, funds[i] + d);
      funds := funds[i := funds[i] + d];
    }

    // ---------- Operations ----------

    function Balance(a: nat, s: Symbol): nat
      requires a in accounts
      reads this
    {
      if s == TME then accounts[a].tme else accounts[a].tsd
    }

    method TransferTo(from: nat, to: nat, amount: Amount) returns (ok: bool)
      requires Valid()
      modifies this`accounts, this`gpo
      ensures Valid() && accounts.Keys == old(accounts).Keys
      ensures ok <==> from in old(accounts) && to in old(accounts) && old(Balance(from, amount.symbol)) >= amount.value
      ensures !ok ==> accounts == old(accounts) && gpo == old(gpo)
      ensures ok ==>
        accounts == Adjust(Adjust(old(accounts), from, amount.symbol, Neg(amount.value), now, rate), to,
          amount.symbol, amount.value, now, rate)
      ensures SameFund(old(gpo), gpo)
      ensures Stakes(accounts) == Stakes(old(accounts))
    {
      hide Stakes, LedgerDatabase.GapTme, LedgerDatabase.GapTsd, LedgerDatabase.GapScore, LedgerDatabase.Sane, Adjust,
        Interest;
      ok := from in accounts && to in accounts && Balance(from, amount.symbol) >= amount.value;
      if ok {
        AdjustBalance(from, amount.symbol, Neg(amount.value));
        AdjustBalance(to, amount.symbol, amount.value);
      }
    }

    method TransferToScoreFund(from: nat, to: nat, tme: nat) returns (ok: bool)
      requires Valid()
      modifies this`accounts, this`gpo
      ensures Valid() && accounts.Keys == old(accounts).Keys
      ensures ok <==>
        from in old(accounts) && to in old(accounts) && old(accounts)[from].tme >= tme && Priced(old(gpo), false)
      ensures !ok ==> accounts == old(accounts) && gpo == old(gpo)
      ensures ok ==> gpo == MoreScore(old(gpo), tme, NewScore(old(gpo), tme, false), false)
      ensures ok ==>
        var paid := Adjust(old(accounts), from, TME, Neg(tme), now, rate);
        to in paid && accounts == paid[to := WithScore(paid[to], tme, NewScore(old(gpo), tme, false), false)]
      ensures Solvent(old(gpo)) ==> Solvent(gpo)
      ensures ok ==> Stakes(accounts) == Raised(Stakes(old(accounts)), to, NewScore(old(gpo), tme, false))
    {
      hide Stakes, LedgerDatabase.GapTme, LedgerDatabase.GapTsd, LedgerDatabase.GapScore, LedgerDatabase.Sane, Adjust,
        NewScore;
      ok := from in accounts && to in accounts && accounts[from].tme >= tme && Priced(gpo, false);
      if ok {
        if Solvent(gpo) {
          MoreKeepsSolvent(gpo, tme);
        }
        AdjustBalance(from, TME, Neg(tme));
        var _ := CreateScore(to, tme, false);
      }
    }

    method TransferToSavings(from: nat, to: nat, amount: Amount) returns (ok: bool)
      requires Valid()
      modifies this`accounts, this`gpo
      ensures Valid() && accounts.Keys == old(accounts).Keys
      ensures ok <==> from in old(accounts) && to in old(accounts) && old(Balance(from, amount.symbol)) >= amount.value
      ensures !ok ==> accounts == old(accounts) && gpo == old(gpo)
      ensures ok ==>
        accounts == AdjustInSavings(Adjust(old(accounts), from, amount.symbol, Neg(amount.value), now, rate), to,
          amount.symbol, amount.value, now, rate)
      ensures SameFund(old(gpo), gpo)
      ensures Stakes(accounts) == Stakes(old(accounts))
    {
      hide Stakes, LedgerDatabase.GapTme, LedgerDatabase.GapTsd, LedgerDatabase.GapScore, LedgerDatabase.Sane, Adjust,
        AdjustInSavings, Interest;
      ok := from in accounts && to in accounts && Balance(from, amount.symbol) >= amount.value;
      if ok {
        AdjustBalance(from, amount.symbol, Neg(amount.value));
        AdjustSavings(to, amount.symbol, amount.value);
      }
    }

    method CountRequest(a: nat, d: int)
      requires a in accounts
      modifies this`accounts
      ensures accounts == Recounted(old(accounts), a, d)
      ensures accounts.Keys == old(accounts).Keys && Gaps(old(GapTme()), old(GapTsd()), old(GapScore()))
      ensures old(Sane()) ==> Sane()
      ensures Stakes(accounts) == Stakes(old(accounts))
    {
      hide SumOf, EscrowOk;
      hide Stakes;
      StakesUpdate(accounts, a, accounts[a].(requests := accounts[a].requests + d));
      AccountChange(accounts, a, accounts[a].(requests := accounts[a].requests + d));
      accounts := accounts[a := accounts[a].(requests := accounts[a].requests + d)];
    }

    method TransferFromSavings(id: nat, t: Transfer) returns (ok: bool)
      requires Valid()
      modifies this`accounts, this`gpo, this`transfers
      ensures Valid() && accounts.Keys == old(accounts).Keys
      ensures ok <==> && t.from in old(accounts) && t.to in old(accounts) && (t.from, id) !in old(transfers)
                      && old(accounts)[t.from].requests < SAVINGS_REQUEST_LIMIT
                      && (if t.amount.symbol == TME then old(accounts)[t.from].tmeSavings
                        else old(accounts)[t.from].tsdSavings) >= t.amount.value
      ensures transfers == if ok then old(transfers)[(t.from, id) := t] else old(transfers)
      ensures ok ==>
        accounts == Recounted(AdjustInSavings(old(accounts), t.from, t.amount.symbol, Neg(t.amount.value), now,
          rate), t.from, 1)
      ensures !ok ==> accounts == old(accounts) && gpo == old(gpo)
      ensures SameFund(old(gpo), gpo)
      ensures Stakes(accounts) == Stakes(old(accounts))
    {
      hide Stakes, LedgerDatabase.GapTme, LedgerDatabase.GapTsd, LedgerDatabase.GapScore, LedgerDatabase.Sane,
        AdjustInSavings, Interest;
      ok := && t.from in accounts && t.to in accounts && (t.from, id) !in transfers
            && accounts[t.from].requests < SAVINGS_REQUEST_LIMIT
            && (if t.amount.symbol == TME then accounts[t.from].tmeSavings
              else accounts[t.from].tsdSavings) >= t.amount.value;
      if ok {
        AdjustSavings(t.from, t.amount.symbol, Neg(t.amount.value));
        PutTransfer((t.from, id), t);
        CountRequest(t.from, 1);
      }
    }

    method CancelFromSavings(from: nat, id: nat) returns (ok: bool)
      requires Valid()
      modifies this`accounts, this`gpo, this`transfers
      ensures Valid() && accounts.Keys == old(accounts).Keys
      ensures ok <==> (from, id) in old(transfers)
      ensures transfers == old(transfers) - {(from, id)}
      ensures ok ==>
        var t := old(transfers)[(from, id)];
        accounts == Recounted(AdjustInSavings(old(accounts), t.from, t.amount.symbol, t.amount.value, now, rate),
          t.from, -1)
      ensures !ok ==> accounts == old(accounts) && gpo == old(gpo)
      ensures SameFund(old(gpo), gpo)
      ensures Stakes(accounts) == Stakes(old(accounts))
    {
      hide Stakes, LedgerDatabase.GapTme, LedgerDatabase.GapTsd, LedgerDatabase.GapScore, LedgerDatabase.RewardsMatch,
        AdjustInSavings, Interest, EscrowOk;
      ok := (from, id) in transfers;
      if ok {
        var t := transfers[(from, id)];
        AdjustSavings(t.from, t.amount.symbol, t.amount.value);
        RemoveTransfer((from, id));
        CountRequest(t.from, -1);
      } else {
        assert transfers - {(from, id)} == transfers;
      }
    }

    method Convert(owner: nat, id: nat, tsd: nat, delay: nat) returns (ok: bool)
      requires Valid()
      modifies this`accounts, this`gpo, this`conversions
      ensures Valid() && accounts.Keys == old(accounts).Keys
      ensures ok <==>
        owner in old(accounts) && old(accounts)[owner].tsd >= tsd && feed.Some? && (owner, id) !in old(conversions)
      ensures conversions == if ok then old(conversions)[(owner, id) := Conversion(owner, tsd, now + delay)]
        else old(conversions)
      ensures ok ==> accounts == Adjust(old(accounts), owner, TSD, Neg(tsd), now, rate)
      ensures !ok ==> accounts == old(accounts) && gpo == old(gpo)
      ensures SameFund(old(gpo), gpo)
      ensures Stakes(accounts) == Stakes(old(accounts))
    {
      hide Stakes, LedgerDatabase.GapTme, LedgerDatabase.GapTsd, LedgerDatabase.GapScore, LedgerDatabase.Sane, Adjust,
        Interest;
      ok := owner in accounts && accounts[owner].tsd >= tsd && feed.Some? && (owner, id) !in conversions;
      if ok {
        var c := Conversion(owner, tsd, now + delay);
        AdjustBalance(owner, TSD, Neg(tsd));
        PutConversion((owner, id), c);
      }
    }

    /** What a new limit order sells leaves its seller's balance. */
    method PlaceSale(id: nat, s: Sale) returns (ok: bool)
      requires Valid()
      modifies this`accounts, this`gpo, this`sales
      ensures Valid() && accounts.Keys == old(accounts).Keys
      ensures ok <==>
        s.seller in old(accounts) && id !in old(sales) && old(Balance(s.seller, s.left.symbol)) >= s.left.value
      ensures sales == if ok then old(sales)[id := s] else old(sales)
      ensures !ok ==> accounts == old(accounts) && gpo == old(gpo)
      ensures ok ==> accounts == Adjust(old(accounts), s.seller, s.left.symbol, Neg(s.left.value), now, rate)
      ensures SameFund(old(gpo), gpo)
      ensures Stakes(accounts) == Stakes(old(accounts))
    {
      hide Stakes, LedgerDatabase.GapTme, LedgerDatabase.GapTsd, LedgerDatabase.GapScore, LedgerDatabase.Sane, Adjust,
        Interest;
      ok := s.seller in accounts && id !in sales && Balance(s.seller, s.left.symbol) >= s.left.value;
      if ok {
        AdjustBalance(s.seller, s.left.symbol, Neg(s.left.value));
        PutSale(id, s);
      }
    }

    method CancelSale(id: nat)
      requires id in sales && sales[id].seller in accounts
      modifies this`accounts, this`gpo, this`sales
      ensures accounts.Keys == old(accounts).Keys && sales == old(sales) - {id}
      ensures Gaps(old(GapTme()), old(GapTsd()), old(GapScore())) && (old(Sane()) ==> Sane())
      ensures old(Valid()) ==> Valid()
      ensures var o := old(sales)[id];
              accounts == Adjust(old(accounts), o.seller, o.left.symbol, o.left.value, now, rate)
      ensures SameFund(old(gpo), gpo)
      ensures Stakes(accounts) == Stakes(old(accounts))
    {
      hide Stakes, LedgerDatabase.GapTme, LedgerDatabase.GapTsd, LedgerDatabase.GapScore, LedgerDatabase.Sane, Adjust,
        Interest;
      var s := sales[id];
      AdjustBalance(s.seller, s.left.symbol, s.left.value);
      RemoveSale(id);
    }

    /** An order pays and receives; what is left of it stays for sale or goes back to the seller. */
    method FillSale(id: nat, pays: nat, receives: nat, close: bool)
      requires id in sales && sales[id].seller in accounts && pays <= sales[id].left.value
      modifies this`accounts, this`gpo, this`sales
      ensures accounts.Keys == old(accounts).Keys && (old(Sane()) ==> Sane())
      ensures sales == Reduced(old(sales), id, pays, close)
      ensures accounts == Filled(old(accounts), old(sales)[id], pays, receives, close, now, rate)
      ensures var s := old(sales)[id].left.symbol;
              Gaps(old(GapTme()) + In(TME, Other(s), receives) - In(TME, s, pays),
                old(GapTsd()) + In(TSD, Other(s), receives) - In(TSD, s, pays), old(GapScore()))
      ensures SameFund(old(gpo), gpo)
      ensures Stakes(accounts) == Stakes(old(accounts))
    {
      hide Stakes, LedgerDatabase.GapTme, LedgerDatabase.GapTsd, LedgerDatabase.GapScore, LedgerDatabase.Sane, Adjust,
        Interest;
      var s := sales[id];
      AdjustBalance(s.seller, Other(s.left.symbol), receives);
      if pays == s.left.value {
        RemoveSale(id);
      } else {
        PutSale(id, s.(left := Amount(s.left.symbol, s.left.value - pays)));
        if close {
          CancelSale(id);
        }
      }
    }

    /** Two orders trade: what one pays the other receives. */
    method FillSales(i: nat, j: nat, iPays: nat, jPays: nat, closeI: bool, closeJ: bool) returns (ok: bool)
      requires Valid()
      modifies this`accounts, this`gpo, this`sales
      ensures Valid() && accounts.Keys == old(accounts).Keys
      ensures ok <==>
        && i in old(sales) && j in old(sales) && i != j && old(sales)[i].left.symbol != old(sales)[j].left.symbol
                      && iPays <= old(sales)[i].left.value && jPays <= old(sales)[j].left.value
      ensures !ok ==> accounts == old(accounts) && gpo == old(gpo) && sales == old(sales)
      ensures ok ==>
        BothFilled(old(accounts), old(sales), accounts, sales, i, j, iPays, jPays, closeI, closeJ, now, rate)
      ensures SameFund(old(gpo), gpo)
      ensures Stakes(accounts) == Stakes(old(accounts))
    {
      hide Stakes, LedgerDatabase.GapTme, LedgerDatabase.GapTsd, LedgerDatabase.GapScore, LedgerDatabase.RewardsMatch,
        EscrowOk;
      hide Filled;
      ok := && i in sales && j in sales && i != j && sales[i].left.symbol != sales[j].left.symbol
            && iPays <= sales[i].left.value && jPays <= sales[j].left.value;
      if ok {
        FillSale(i, iPays, jPays, closeI);
        FillSale(j, jPays, iPays, closeJ);
      }
    }

    // ---------- Escrow ----------

    /** The amounts and the fee leave the sender and are held until both sides agree. */
    method EscrowTransfer(id: nat, e: Escrow) returns (ok: bool)
      requires Valid() && !e.toApproved && !e.agentApproved
      modifies this`accounts, this`gpo, this`escrows
      ensures Valid() && accounts.Keys == old(accounts).Keys
      ensures ok <==> && e.from in old(accounts) && e.to in old(accounts) && e.agent in old(accounts)
                      && e.deadline > now && e.expiration > now && (e.from, id) !in old(escrows)
                      && old(accounts)[e.from].tme >= EscrowTme(e) && old(accounts)[e.from].tsd >= EscrowTsd(e)
      ensures escrows == if ok then old(escrows)[(e.from, id) := e] else old(escrows)
      ensures !ok ==> accounts == old(accounts) && gpo == old(gpo)
      ensures ok ==>
        accounts == Adjust(Adjust(old(accounts), e.from, TME, -EscrowTme(e), now, rate), e.from, TSD, -EscrowTsd(e),
          now, rate)
      ensures SameFund(old(gpo), gpo)
      ensures Stakes(accounts) == Stakes(old(accounts))
    {
      hide Stakes, LedgerDatabase.GapTme, LedgerDatabase.GapTsd, LedgerDatabase.GapScore, LedgerDatabase.Sane, Adjust,
        Interest;
      ok := && e.from in accounts && e.to in accounts && e.agent in accounts
            && e.deadline > now && e.expiration > now && (e.from, id) !in escrows
            && accounts[e.from].tme >= EscrowTme(e) && accounts[e.from].tsd >= EscrowTsd(e);
      if ok {
        TmeOnly(accounts, e.from, -EscrowTme(e), now, rate);
        AdjustBalance(e.from, TME, -EscrowTme(e));
        AdjustBalance(e.from, TSD, -EscrowTsd(e));
        PutEscrow((e.from, id), e);
      }
    }

    /** Everything in an escrow goes back to its sender. */
    method ReturnEscrow(k: (nat, nat))
      requires k in escrows && escrows[k].from in accounts
      modifies this`accounts, this`gpo, this`escrows
      ensures accounts.Keys == old(accounts).Keys && escrows == old(escrows) - {k}
      ensures accounts == Returned(old(accounts), old(escrows)[k], now, rate)
      ensures Gaps(old(GapTme()), old(GapTsd()), old(GapScore())) && (old(Sane()) ==> Sane())
      ensures SameFund(old(gpo), gpo)
      ensures Stakes(accounts) == Stakes(old(accounts))
    {
      hide Stakes, LedgerDatabase.GapTme, LedgerDatabase.GapTsd, LedgerDatabase.GapScore, LedgerDatabase.Sane, Adjust,
        Interest;
      var e := escrows[k];
      AdjustBalance(e.from, TME, e.tme);
      AdjustBalance(e.from, TSD, e.tsd);
      AdjustBalance(e.from, e.fee.symbol, e.fee.value);
      RemoveEscrow(k);
    }

    /** One side approves or rejects; when both have approved, the agent gets the fee. */
    method EscrowApprove(k: (nat, nat), to: nat, agent: nat, who: nat, approve: bool) returns (ok: bool)
      requires Valid() && (who == to || who == agent)
      modifies this`accounts, this`gpo, this`escrows
      ensures Valid() && accounts.Keys == old(accounts).Keys
      ensures ok <==>
        && k in old(escrows) && old(escrows)[k].to == to && old(escrows)[k].agent == agent
        && old(escrows)[k].deadline >= now
                      && (who == to ==> !old(escrows)[k].toApproved)
                      && (who == agent ==> !old(escrows)[k].agentApproved)
      ensures !ok ==> escrows == old(escrows) && accounts == old(accounts) && gpo == old(gpo)
      ensures ok ==>
        escrows == if approve then old(escrows)[k := Approved(old(escrows)[k], who)] else old(escrows) - {k}
      ensures ok ==>
        var e := old(escrows)[k];
        accounts == if !approve then Returned(old(accounts), e, now, rate)
                    else if BothApprove(e, who) then Adjust(old(accounts), agent, e.fee.symbol, e.fee.value, now, rate)
                    else old(accounts)
      ensures SameFund(old(gpo), gpo)
      ensures Stakes(accounts) == Stakes(old(accounts))
    {
      hide Stakes, LedgerDatabase.GapTme, LedgerDatabase.GapTsd, LedgerDatabase.GapScore, LedgerDatabase.RewardsMatch,
        Adjust, Interest;
      ok := && k in escrows && escrows[k].to == to && escrows[k].agent == agent && escrows[k].deadline >= now
            && (who == to ==> !escrows[k].toApproved) && (who == agent ==> !escrows[k].agentApproved);
      if !ok {
        return;
      }
      if !approve {
        ReturnEscrow(k);
        return;
      }
      var e := escrows[k];
      e := e.(toApproved := e.toApproved || who == to, agentApproved := e.agentApproved || who == agent);
      if e.toApproved && e.agentApproved {
        AdjustBalance(agent, e.fee.symbol, e.fee.value);
        e := e.(fee := Amount(e.fee.symbol, 0));
      }
      PutEscrow(k, e);
    }

    method EscrowDispute(k: (nat, nat), to: nat, agent: nat) returns (ok: bool)
      requires Valid()
      modifies this`escrows
      ensures Valid()
      ensures ok <==>
        && k in old(escrows) && now < old(escrows)[k].expiration && old(escrows)[k].toApproved
        && old(escrows)[k].agentApproved
                      && !old(escrows)[k].disputed && old(escrows)[k].to == to && old(escrows)[k].agent == agent
      ensures escrows == if ok then old(escrows)[k := old(escrows)[k].(disputed := true)] else old(escrows)
    {
      hide Stakes, LedgerDatabase.GapTme, LedgerDatabase.GapTsd, LedgerDatabase.GapScore, LedgerDatabase.RewardsMatch;
      ok := && k in escrows && now < escrows[k].expiration && escrows[k].toApproved && escrows[k].agentApproved
            && !escrows[k].disputed && escrows[k].to == to && escrows[k].agent == agent;
      if ok {
        PutEscrow(k, escrows[k].(disputed := true));
      }
    }

    /** Who may release what to whom. */
    method CheckRelease(e: Escrow, r: Release) returns (ok: bool)
      ensures ok <==> MayRelease(e, r, now)
    {
      ok := false;
      if e.tme < r.tme || e.tsd < r.tsd || e.to != r.to || e.agent != r.agent {
        return;
      }
      if (r.receiver != e.from && r.receiver != e.to) || !e.toApproved || !e.agentApproved {
        return;
      }
      if e.disputed {
        if r.who != e.agent {
          return;
        }
      } else {
        if r.who != e.from && r.who != e.to {
          return;
        }
        if e.expiration > now && r.receiver != (if r.who == e.from then e.to else e.from) {
          return;
        }
      }
      ok := true;
    }

    /** Part or all of an approved escrow is released to one of the two sides. */
    method EscrowRelease(k: (nat, nat), r: Release) returns (ok: bool)
      requires Valid()
      modifies this`accounts, this`gpo, this`escrows
      ensures Valid() && accounts.Keys == old(accounts).Keys
      ensures ok <==> k in old(escrows) && MayRelease(old(escrows)[k], r, now)
      ensures !ok ==> escrows == old(escrows) && accounts == old(accounts) && gpo == old(gpo)
      ensures ok ==>
        var e := old(escrows)[k];
        && escrows == (if e.tme == r.tme && e.tsd == r.tsd then old(escrows) - {k}
          else old(escrows)[k := e.(tme := e.tme - r.tme, tsd := e.tsd - r.tsd)])
        && accounts == Adjust(Adjust(old(accounts), r.receiver, TME, r.tme, now, rate), r.receiver, TSD, r.tsd, now,
          rate)
      ensures SameFund(old(gpo), gpo)
      ensures Stakes(accounts) == Stakes(old(accounts))
    {
      hide Stakes, LedgerDatabase.GapTme, LedgerDatabase.GapTsd, LedgerDatabase.GapScore, LedgerDatabase.RewardsMatch,
        Adjust, Interest, MayRelease;
      ReleaseWithin(escrows, k, r, now);
      ok := false;
      if k !in escrows {
        return;
      }
      var e := escrows[k];
      ok := CheckRelease(e, r);
      if !ok {
        return;
      }
      AdjustBalance(r.receiver, TME, r.tme);
      AdjustBalance(r.receiver, TSD, r.tsd);
      if e.tme == r.tme && e.tsd == r.tsd {
        RemoveEscrow(k);
      } else {
        PutEscrow(k, e.(tme := e.tme - r.tme, tsd := e.tsd - r.tsd));
      }
    }

    /** Escrows that were not approved in time go back, each to its sender, in some order. */
    method ExpireEscrows() returns (ghost order: seq<(nat, nat)>)
      requires Valid()
      modifies this`accounts, this`gpo, this`escrows
      ensures Valid() && accounts.Keys == old(accounts).Keys
      ensures Lists(order, set k | k in old(escrows) && Lapsed(old(escrows)[k], now))
      ensures escrows == old(escrows) - Named(order) && Named(order) <= old(escrows).Keys
      ensures accounts == AllReturned(old(accounts), old(escrows), order, now, rate)
      ensures SameFund(old(gpo), gpo)
      ensures Stakes(accounts) == Stakes(old(accounts))
    {
      hide Stakes, LedgerDatabase.GapTme, LedgerDatabase.GapTsd, LedgerDatabase.GapScore, LedgerDatabase.RewardsMatch;
      hide Returned, AllReturned, Named, Lists, Working;
      order := [];
      ghost var due := set k | k in escrows && Lapsed(escrows[k], now);
      var todo := set k |
        k in escrows && escrows[k].deadline <= now && !(escrows[k].toApproved && escrows[k].agentApproved);
      assert todo == due;
      NoneReturned(accounts, escrows, now, rate);
      WorkStarts(due);
      while todo != {}
        invariant Stakes(accounts) == Stakes(old(accounts))
        invariant SameFund(old(gpo), gpo)
        invariant Valid() && accounts.Keys == old(accounts).Keys
        invariant Working(order, todo, due)
        invariant Named(order) <= old(escrows).Keys && escrows == old(escrows) - Named(order)
        invariant accounts == AllReturned(old(accounts), old(escrows), order, now, rate)
        decreases todo
      {
        var k :| k in todo;
        WorkNext(order, todo, due, k);
        ReturnedNext(old(accounts), old(escrows), order, k, now, rate);
        ReturnEscrow(k);
        order, todo := order + [k], todo - {k};
      }
      WorkDone(order, due);
    }

    // ---------- Rewards and accounts ----------

    /**
     A claimed reward moves from what is pending to the account; its
     SCORE takes its share of the TME set aside with it.
     */
    method ClaimReward(a: nat, tme: nat, tsd: nat, score: nat) returns (ok: bool)
      requires Valid()
      modifies this`accounts, this`gpo
      ensures Valid() && accounts.Keys == old(accounts).Keys
      ensures ok <==>
        a in old(accounts) && tme <= old(accounts)[a].tmeReward && tsd <= old(accounts)[a].tsdReward
          && score <= old(accounts)[a].scoreReward
      ensures !ok ==> accounts == old(accounts) && gpo == old(gpo)
      ensures ok ==>
        && accounts[a].score == old(accounts)[a].score + score
        && accounts[a].scoreReward == old(accounts)[a].scoreReward - score
        && gpo.totalScore == old(gpo).totalScore + score
        && gpo.scoreFund == old(gpo).scoreFund + ClaimValue(old(accounts)[a], score)
        && (score == old(accounts)[a].scoreReward ==> accounts[a].scoreRewardTme == 0)
        && ClaimedBy(old(accounts), accounts, a, tme, tsd, score, now, rate)
      ensures ok && Solvent(old(gpo)) ==>
        (Solvent(gpo) <==> score == 0 || old(gpo).scoreFund > 0 || ClaimValue(old(accounts)[a], score) > 0)
      ensures ok ==> Stakes(accounts) == Raised(Stakes(old(accounts)), a, score)
    {
      hide Stakes, LedgerDatabase.GapTme, LedgerDatabase.GapTsd, LedgerDatabase.GapScore, LedgerDatabase.Sane, Interest,
        Liquidated;
      ok := a in accounts && tme <= accounts[a].tmeReward && tsd <= accounts[a].tsdReward
        && score <= accounts[a].scoreReward;
      if ok {
        MoveRewards(a, tme, tsd);
        ClaimScore(a, score);
      }
    }

    /** Rewards in coin become liquid. */
    method MoveRewards(a: nat, tme: nat, tsd: nat)
      requires Valid() && a in accounts && tme <= accounts[a].tmeReward && tsd <= accounts[a].tsdReward
      modifies this`accounts, this`gpo
      ensures Valid() && accounts.Keys == old(accounts).Keys && Stakes(accounts) == Stakes(old(accounts))
      ensures accounts == old(accounts)[a := Liquidated(old(accounts)[a], tme, tsd, now, rate)]
      ensures SameFund(old(gpo), gpo) && gpo == old(gpo).(tsdSupply := gpo.tsdSupply)
    {
      hide Stakes, LedgerDatabase.GapTme, LedgerDatabase.GapTsd, LedgerDatabase.GapScore, LedgerDatabase.Sane,
        Interest;
      AdjustReward(a, TME, Neg(tme));
      AdjustReward(a, TSD, Neg(tsd));
      AdjustBalance(a, TME, tme);
      AdjustBalance(a, TSD, tsd);
    }

    method ShareOfPending(a: Account, score: nat) returns (moved: nat)
      requires score <= a.scoreReward
      ensures moved == ClaimValue(a, score)
    {
      if score == a.scoreReward {
        moved := a.scoreRewardTme;
      } else {
        moved := a.scoreRewardTme * score / a.scoreReward;
      }
    }

    method ClaimScore(a: nat, score: nat)
      requires a in accounts && score <= accounts[a].scoreReward
      modifies this`accounts, this`gpo
      ensures accounts == old(accounts)[a := Claimed(old(accounts)[a], score)] && accounts.Keys == old(accounts).Keys
      ensures Stakes(accounts) == Raised(Stakes(old(accounts)), a, score)
      ensures var moved := ClaimValue(old(accounts)[a], score);
              gpo == old(gpo).(totalScore := old(gpo).totalScore + score, scoreFund := old(gpo).scoreFund + moved,
                               pendingScore := old(gpo).pendingScore - score, pendingTme := old(gpo).pendingTme - moved)
      ensures Gaps(old(GapTme()), old(GapTsd()), old(GapScore())) && (old(Sane()) ==> Sane())
    {
      hide SumOf, EscrowOk, ClaimValue;
      var moved := ShareOfPending(accounts[a], score);
      hide Stakes;
      StakesUpdate(accounts, a, Claimed(accounts[a], score));
      AccountChange(accounts, a, Claimed(accounts[a], score));
      var acc := accounts[a];
      acc := acc.(score := acc.score + score, scoreReward := acc.scoreReward - score,
                  scoreRewardTme := acc.scoreRewardTme - moved);
      accounts := accounts[a := acc];
      gpo := gpo.(totalScore := gpo.totalScore + score, scoreFund := gpo.scoreFund + moved,
                  pendingScore := gpo.pendingScore - score, pendingTme := gpo.pendingTme - moved);
    }

    /** The creator's fee becomes the new account's first stake. */
    method CreateAccount(creator: nat, name: nat, fee: nat, minFee: nat) returns (ok: bool)
      requires Valid()
      modifies this`accounts, this`gpo
      ensures Valid()
      ensures ok <==>
        && creator in old(accounts) && name !in old(accounts) && old(accounts)[creator].tme >= fee >= minFee
                      && (fee > 0 ==> Priced(old(gpo), false))
      ensures !ok ==> accounts == old(accounts) && gpo == old(gpo)
      ensures ok ==>
        accounts.Keys == old(accounts).Keys + {name} && accounts[creator].tme == old(accounts)[creator].tme - fee
      ensures ok ==>
        accounts == Adjust(old(accounts), creator, TME, Neg(fee), now, rate)[name := accounts[name]]
      ensures ok ==> accounts[name] == NewAccount().(score := if fee > 0 then NewScore(old(gpo), fee, false) else 0)
      ensures ok ==> gpo == if fee > 0 then MoreScore(old(gpo), fee, accounts[name].score, false) else old(gpo)
      ensures Solvent(old(gpo)) ==> Solvent(gpo)
      ensures ok ==> Stakes(accounts) == Stakes(old(accounts))[name := accounts[name].score]
    {
      hide Stakes, LedgerDatabase.GapTme, LedgerDatabase.GapTsd, LedgerDatabase.GapScore, LedgerDatabase.Sane, NewScore;
      ok := && creator in accounts && name !in accounts && accounts[creator].tme >= fee >= minFee
            && (fee > 0 ==> Priced(gpo, false));
      if ok {
        if Solvent(gpo) {
          MoreKeepsSolvent(gpo, fee);
        }
        AdjustBalance(creator, TME, Neg(fee));
        OpenAccount(name);
        if fee > 0 {
          var _ := CreateScore(name, fee, false);
        }
      }
    }

    method OpenAccount(name: nat)
      requires name !in accounts
      modifies this`accounts
      ensures accounts == old(accounts)[name := NewAccount()] && accounts.Keys == old(accounts).Keys + {name}
      ensures Stakes(accounts) == Stakes(old(accounts))[name := 0]
      ensures Gaps(old(GapTme()), old(GapTsd()), old(GapScore())) && (old(Sane()) ==> Sane())
    {
      hide SumOf, NewAccount;
      hide Stakes;
      StakesUpdate(accounts, name, NewAccount());
      AccountAdd(accounts, name, NewAccount());
      accounts := accounts[name := NewAccount()];
    }

    // ---------- Block-end steps ----------

    /** TME becomes TSD at the median price, as far as the print rate allows; the rest stays TME. */
    method CreateTsd(a: nat, tme: nat, reward: bool) returns (tsd: nat, rest: nat)
      requires a in accounts && Sane()
      modifies this`accounts, this`gpo
      ensures Gaps(old(GapTme()) + tme, old(GapTsd()), old(GapScore())) && Sane() && accounts.Keys == old(accounts).Keys
      ensures feed.Some? ==>
        rest == tme - Part(tme, printRate, PERCENT_100) && tsd == Part(tme - rest, feed.value.tsd, feed.value.tme)
      ensures feed.None? ==> rest == tme && tsd == 0
      ensures gpo.supply == old(gpo).supply - (tme - rest)
      ensures accounts == Printed(old(accounts), a, tme, reward, feed, printRate, now, rate)
      ensures reward ==>
        gpo == old(gpo).(supply := old(gpo).supply - (tme - rest), tsdSupply := old(gpo).tsdSupply + tsd)
      ensures SameFund(old(gpo), gpo)
      ensures Stakes(accounts) == Stakes(old(accounts))
    {
      hide Stakes, LedgerDatabase.GapTme, LedgerDatabase.GapTsd, LedgerDatabase.GapScore, LedgerDatabase.RewardsMatch,
        LedgerDatabase.Refs, Adjust, Interest, Part;
      if feed.None? {
        TmeOnly(accounts, a, tme, now, rate);
        AdjustBalance(a, TME, tme);
        return 0, tme;
      }
      PartWithin(tme, printRate, PERCENT_100);
      var printed := Part(tme, printRate, PERCENT_100);
      rest := tme - printed;
      tsd := Part(printed, feed.value.tsd, feed.value.tme);
      if tme == 0 {
        PartOfNothing(feed.value.tsd, feed.value.tme);
        PartOfNothing(printRate, PERCENT_100);
        return;
      }
      GiveBoth(a, tsd, rest, reward);
      AdjustSupply(TME, Neg(printed));
      AdjustSupply(TSD, tsd);
    }

    /** Two amounts for an account, as rewards to be claimed or at once. */
    method GiveBoth(a: nat, tsd: nat, tme: nat, reward: bool)
      requires a in accounts && Sane()
      modifies this`accounts, this`gpo
      ensures Gaps(old(GapTme()) + tme, old(GapTsd()) + tsd, old(GapScore())) && Sane()
      ensures accounts.Keys == old(accounts).Keys && Stakes(accounts) == Stakes(old(accounts))
      ensures accounts ==
        if reward then
          old(accounts)[a := old(accounts)[a].(tsdReward := old(accounts)[a].tsdReward + tsd,
                                               tmeReward := old(accounts)[a].tmeReward + tme)]
        else Adjust(Adjust(old(accounts), a, TSD, tsd, now, rate), a, TME, tme, now, rate)
      ensures gpo == old(gpo).(tsdSupply := gpo.tsdSupply) && (reward ==> gpo == old(gpo))
    {
      hide Stakes, LedgerDatabase.GapTme, LedgerDatabase.GapTsd, LedgerDatabase.GapScore, LedgerDatabase.Sane, Adjust,
        Interest;
      if reward {
        AdjustReward(a, TSD, tsd);
        AdjustReward(a, TME, tme);
      } else {
        AdjustBalance(a, TSD, tsd);
        AdjustBalance(a, TME, tme);
      }
    }

    /** Pays a list of rewards in SCORE to be claimed. */
    method RewardAll(list: seq<Share>)
      requires Sane() && Priced(gpo, true) && forall x :: x in list ==> x.to in accounts
      modifies this`accounts, this`gpo
      ensures Sane() && Priced(gpo, true) && accounts.Keys == old(accounts).Keys
      ensures Rewards(accounts, gpo) == Rewarded(Rewards(old(accounts), old(gpo)), list, |list|)
      ensures Gaps(old(GapTme()) + Total(Values(list)), old(GapTsd()), old(GapScore()))
      ensures SameFund(old(gpo), gpo)
      ensures Stakes(accounts) == Stakes(old(accounts))
    {
      hide Stakes, LedgerDatabase.GapTme, LedgerDatabase.GapTsd, LedgerDatabase.GapScore, LedgerDatabase.Sane,
        NewScore, Total, OneReward, Rewarded, WithScore, MoreScore;
      ghost var all := Values(list);
      TotalNothing(all);
      NoneRewarded(Rewards(accounts, gpo), list);
      for i := 0 to |list|
        invariant Stakes(accounts) == Stakes(old(accounts))
        invariant SameFund(old(gpo), gpo)
        invariant Sane() && Priced(gpo, true) && accounts.Keys == old(accounts).Keys
        invariant Rewards(accounts, gpo) == Rewarded(Rewards(old(accounts), old(gpo)), list, i)
        invariant Gaps(old(GapTme()) + Total(all[..i]), old(GapTsd()), old(GapScore()))
      {
        assert all[..i + 1] == all[..i] + [all[i]];
        TotalAppend(all[..i], all[i]);
        NextRewarded(Rewards(old(accounts), old(gpo)), list, i);
        OneRewardIs(accounts, gpo, list[i]);
        var _ := CreateScore(list[i].to, list[i].tme, true);
      }
      assert all[..|list|] == all;
    }

    /** The parts of a payout in SCORE. */
    method PayScores(p: CommentPay)
      requires Sane() && Priced(gpo, true) && p.author in accounts
      requires forall x :: x in p.curators ==> x.to in accounts
      requires forall x :: x in p.beneficiaries ==> x.to in accounts
      modifies this`accounts, this`gpo
      ensures Sane() && accounts.Keys == old(accounts).Keys && SameFund(old(gpo), gpo)
      ensures Rewards(accounts, gpo) == Rewarded(Rewards(old(accounts), old(gpo)), InScore(p), |InScore(p)|)
      ensures Gaps(old(GapTme()) + Total(Values(p.curators)) + Total(Values(p.beneficiaries)) + p.score,
        old(GapTsd()), old(GapScore()))
      ensures Stakes(accounts) == Stakes(old(accounts))
    {
      hide Rewarded, InScore, OneReward, WithScore, MoreScore, Part;
      hide Stakes, LedgerDatabase.GapTme, LedgerDatabase.GapTsd, LedgerDatabase.GapScore, LedgerDatabase.Sane, NewScore,
        Total, Values;
      RewardAll(p.curators);
      RewardAll(p.beneficiaries);
      OneRewardIs(accounts, gpo, Share(p.author, p.score));
      var _ := CreateScore(p.author, p.score, true);
      AllRewarded(Rewards(old(accounts), old(gpo)), p);
    }

    /**
     A comment's reward is handed out to curators, beneficiaries and author, and what it claimed leaves the fund.
     The supply equations survive exactly if the two are the same.
     */
    method PayComment(p: CommentPay) returns (ok: bool)
      requires Valid()
      modifies this`accounts, this`gpo, this`funds
      ensures accounts.Keys == old(accounts).Keys && SameFund(old(gpo), gpo)
      ensures ok <==> MayPay(old(accounts), old(gpo), old(funds), p)
      ensures !ok ==> accounts == old(accounts) && gpo == old(gpo) && funds == old(funds)
      ensures ok ==> funds == old(funds)[p.fund := old(funds)[p.fund] - p.claimed]
      ensures Valid() <==> !ok || p.claimed == HandedOut(p)
      ensures ok ==> PaidFor(old(accounts), old(gpo), accounts, p, feed, printRate, now, rate)
      ensures Stakes(accounts) == Stakes(old(accounts))
    {
      hide Rewarded, Printed, PaidFor, Adjust, InScore, OneReward, WithScore, MoreScore, Part;
      hide Stakes, LedgerDatabase.GapTme, LedgerDatabase.GapTsd, LedgerDatabase.GapScore, LedgerDatabase.Sane, NewScore,
        Total, Values;
      ok := && p.fund in funds && p.author in accounts && Priced(gpo, true)
            && (forall x :: x in p.curators ==> x.to in accounts)
            && (forall x :: x in p.beneficiaries ==> x.to in accounts);
      if !ok {
        return;
      }
      PayScores(p);
      SaneFeed();
      AllPaidFor(old(accounts), old(gpo), p, feed, printRate, now, rate);
      var _, _ := CreateTsd(p.author, p.tsd, true);
      AdjustFund(p.fund, Neg(p.claimed));
    }

    /** SCORE can be priced unless the fund is negative, and as a reward if fund and pending TME are not nothing. */
    lemma WhenPriced()
      requires Valid()
      ensures Priced(gpo, false) <==> gpo.scoreFund >= 0
      ensures Priced(gpo, true) <==> gpo.scoreFund + gpo.pendingTme > 0
    {
      hide HeldTme, HeldTsd, SumOf, EscrowOk;
      SumOfNonNegative(accounts, AccountScore);
      SumOfNonNegative(accounts, AccountReward);
    }

    lemma SaneFeed()
      requires Sane()
      ensures printRate <= PERCENT_100 && (feed.Some? ==> feed.value.tsd > 0 && feed.value.tme > 0)
    {
    }

    /** A payout whose parts add up to what it claims. */
    method PaySplit(p: Payout, fund: nat, author: nat, curators: seq<nat>, beneficiaries: seq<nat>) returns (ok: bool)
      requires Valid() && |p.curators| <= |curators| && |p.beneficiaries| <= |beneficiaries|
      requires Total(p.curators) + Total(p.beneficiaries) + p.score + p.tsd == p.claimed
      modifies this`accounts, this`gpo, this`funds
      ensures Valid() && accounts.Keys == old(accounts).Keys && SameFund(old(gpo), gpo)
      ensures ok <==>
        MayPay(old(accounts), old(gpo), old(funds), Payment(p, fund, author, curators, beneficiaries))
      ensures ok ==> fund in old(funds) && funds == old(funds)[fund := old(funds)[fund] - p.claimed]
      ensures !ok ==> accounts == old(accounts) && gpo == old(gpo) && funds == old(funds)
      ensures ok ==>
        PaidFor(old(accounts), old(gpo), accounts, Payment(p, fund, author, curators, beneficiaries), feed, printRate,
          now, rate)
      ensures Stakes(accounts) == Stakes(old(accounts))
    {
      hide Stakes, LedgerDatabase.GapTme, LedgerDatabase.GapTsd, LedgerDatabase.GapScore, LedgerDatabase.Sane, Total;
      hide PaidFor;
      var pay := Payment(p, fund, author, curators, beneficiaries);
      assert Values(pay.curators) == p.curators && Values(pay.beneficiaries) == p.beneficiaries;
      ok := PayComment(pay);
    }

    /** Shares of the content reward go to the reward funds. */
    method PayRewardFunds(reward: nat, list: seq<Share>) returns (used: nat)
      requires Sane() && forall x :: x in list ==> x.to in funds
      modifies this`funds
      ensures used == Total(Shares(reward, Values(list), PERCENT_100)) && funds.Keys == old(funds).Keys
      ensures funds == WithShares(old(funds), reward, list, |list|)
      ensures Gaps(old(GapTme()) + used, old(GapTsd()), old(GapScore())) && Sane()
    {
      hide Stakes, LedgerDatabase.GapTme, LedgerDatabase.GapTsd, LedgerDatabase.GapScore, LedgerDatabase.Sane, Total;
      used := 0;
      ghost var shares := Shares(reward, Values(list), PERCENT_100);
      TotalNothing(shares);
      for i := 0 to |list|
        invariant used == Total(shares[..i]) && funds.Keys == old(funds).Keys
        invariant funds == WithShares(old(funds), reward, list, i)
        invariant Gaps(old(GapTme()) + used, old(GapTsd()), old(GapScore())) && Sane()
      {
        assert shares[..i + 1] == shares[..i] + [shares[i]];
        TotalAppend(shares[..i], shares[i]);
        var r := reward * list[i].tme / PERCENT_100;
        assert r == Part(reward, list[i].tme, PERCENT_100);
        AdjustFund(list[i].to, r);
        used := used + r;
      }
      assert shares[..|list|] == shares;
    }

    /** New TME of a block: to the reward funds, behind SCORE, and to the witness; all of it is counted as supply. */
    method ProcessFunds(newTme: nat, list: seq<Share>, producer: nat, weight: nat, factor: nat)
      returns (ok: bool, made: nat)
      requires Valid() && producer in accounts && factor > 0 && forall x :: x in list ==> x.to in funds
      modifies this`accounts, this`gpo, this`funds
      ensures Valid() && accounts.Keys == old(accounts).Keys
      ensures ok <==> MayInflate(old(gpo), newTme, list)
      ensures !ok ==> accounts == old(accounts) && gpo == old(gpo) && funds == old(funds) && made == 0
      ensures ok && weight == factor ==> gpo.supply == old(gpo).supply + newTme
      ensures Solvent(old(gpo)) ==> Solvent(gpo)
      ensures ok && old(gpo).scoreFund >= 0 && Part(newTme, STAKE_PERCENT, PERCENT_100) > 0 ==> Solvent(gpo)
      ensures ok ==> Stakes(accounts) == Raised(Stakes(old(accounts)), producer, made)
      ensures ok ==> gpo.totalScore == old(gpo).totalScore + made
      ensures ok ==>
        Inflated(old(accounts), old(funds), old(gpo), accounts, funds, gpo, newTme, list, producer, weight, factor)
    {
      hide WithShares;
      hide Stakes, LedgerDatabase.GapTme, LedgerDatabase.GapTsd, LedgerDatabase.GapScore, LedgerDatabase.Sane, NewScore,
        Total, Part, Shares, Values;
      var content, stake := Part(newTme, CONTENT_PERCENT, PERCENT_100), Part(newTme, STAKE_PERCENT, PERCENT_100);
      ContentAndStake(newTme);
      var planned := SumShares(content, list);
      ok := planned <= content && Priced(gpo.(scoreFund := gpo.scoreFund + stake), false);
      made := 0;
      if !ok {
        return;
      }
      var used := PayRewardFunds(content, list);
      var pay := Part(newTme - used - stake, weight, factor);
      WholePay(newTme - used - stake, weight, factor);
      Inflate(used, stake, pay);
      if Solvent(gpo) {
        MoreKeepsSolvent(gpo, pay);
      }
      made := CreateScore(producer, pay, false);
    }

    method Inflate(used: nat, stake: nat, pay: nat)
      requires Sane()
      modifies this`gpo
      ensures gpo == old(gpo).(scoreFund := old(gpo).scoreFund + stake, supply := old(gpo).supply + used + stake + pay)
      ensures Gaps(old(GapTme()) - used - pay, old(GapTsd()), old(GapScore())) && Sane()
    {
      hide SumOf, EscrowOk;
      gpo := gpo.(scoreFund := gpo.scoreFund + stake, supply := gpo.supply + used + stake + pay);
    }

    method PayConversion(k: (nat, nat)) returns (issue: nat)
      requires Sane() && k in conversions && feed.Some?
      modifies this`accounts, this`gpo, this`conversions
      ensures Sane() && accounts.Keys == old(accounts).Keys && conversions == old(conversions) - {k} && gpo == old(gpo)
      ensures issue == Issue(old(conversions)[k], feed.value)
      ensures accounts == Adjust(old(accounts), old(conversions)[k].owner, TME, issue, now, rate)
      ensures Gaps(old(GapTme()) + issue, old(GapTsd()) - old(conversions)[k].tsd, old(GapScore()))
      ensures Stakes(accounts) == Stakes(old(accounts))
    {
      hide Stakes, LedgerDatabase.GapTme, LedgerDatabase.GapTsd, LedgerDatabase.GapScore, LedgerDatabase.RewardsMatch,
        EscrowOk, Adjust, Part;
      var c := conversions[k];
      issue := Part(c.tsd, feed.value.tme, feed.value.tsd);
      AdjustBalance(c.owner, TME, issue);
      RemoveConversion(k);
    }

    /**
     Conversions that are due are paid in TME at the median price, each to its owner, in some order: TSD goes, TME
     comes.
     */
    method ProcessConversions() returns (ghost order: seq<(nat, nat)>)
      requires Valid()
      modifies this`accounts, this`gpo, this`conversions
      ensures Valid() && accounts.Keys == old(accounts).Keys
      ensures feed.None? ==> order == []
      ensures feed.Some? ==> Lists(order, set k | k in old(conversions) && old(conversions)[k].date <= now)
      ensures Named(order) <= old(conversions).Keys && conversions == old(conversions) - Named(order)
      ensures feed.None? ==> accounts == old(accounts) && gpo == old(gpo)
      ensures feed.Some? ==> accounts == AllConverted(old(accounts), old(conversions), order, feed.value, now, rate)
      ensures feed.Some? ==> gpo == old(gpo).(
        supply := old(gpo).supply + Issued(old(conversions), order, feed.value),
        tsdSupply := old(gpo).tsdSupply - Converted(old(conversions), order))
      ensures SameFund(old(gpo), gpo)
      ensures Stakes(accounts) == Stakes(old(accounts))
    {
      hide Stakes, LedgerDatabase.GapTme, LedgerDatabase.GapTsd, LedgerDatabase.GapScore, LedgerDatabase.RewardsMatch,
        LedgerDatabase.Refs, Issue, Adjust;
      hide AllConverted, Issued, Converted, Named, Lists, Working;
      order := [];
      WorkStarts({});
      WorkDone([], {});
      if feed.None? {
        return;
      }
      var due := set k | k in conversions && conversions[k].date <= now;
      var todo := due;
      NoneConverted(accounts, conversions, feed.value, now, rate);
      WorkStarts(due);
      var netTme, netTsd: nat := 0, 0;
      while todo != {}
        invariant Stakes(accounts) == Stakes(old(accounts))
        invariant gpo == old(gpo) && Gaps(netTme, -(netTsd as int), 0) && Sane() && accounts.Keys == old(accounts).Keys
        invariant Working(order, todo, due) && Named(order) <= old(conversions).Keys
        invariant conversions == old(conversions) - Named(order)
        invariant accounts == AllConverted(old(accounts), old(conversions), order, feed.value, now, rate)
        invariant netTme == Issued(old(conversions), order, feed.value) && netTsd == Converted(old(conversions), order)
        decreases todo
      {
        var k :| k in todo;
        WorkNext(order, todo, due, k);
        ConvertedNext(old(accounts), old(conversions), order, k, feed.value, now, rate);
        netTsd := netTsd + conversions[k].tsd;
        var issue := PayConversion(k);
        netTme := netTme + issue;
        order, todo := order + [k], todo - {k};
      }
      WorkDone(order, due);
      AdjustSupply(TME, netTme);
      AdjustSupply(TSD, Neg(netTsd));
    }

    method PayTransfer(k: (nat, nat))
      requires Valid() && k in transfers
      modifies this`accounts, this`gpo, this`transfers
      ensures Valid() && accounts.Keys == old(accounts).Keys && transfers == old(transfers) - {k}
      ensures accounts == Withdrawn(old(accounts), old(transfers)[k], now, rate)
      ensures SameFund(old(gpo), gpo)
      ensures Stakes(accounts) == Stakes(old(accounts))
    {
      hide Stakes, LedgerDatabase.GapTme, LedgerDatabase.GapTsd, LedgerDatabase.GapScore, LedgerDatabase.RewardsMatch,
        EscrowOk, Adjust, Interest;
      var t := transfers[k];
      AdjustBalance(t.to, t.amount.symbol, t.amount.value);
      CountRequest(t.from, -1);
      RemoveTransfer(k);
    }

    /** Withdrawals from savings whose time has come are paid out, each to its receiver, in some order. */
    method ProcessSavings() returns (ghost order: seq<(nat, nat)>)
      requires Valid()
      modifies this`accounts, this`gpo, this`transfers
      ensures Valid() && accounts.Keys == old(accounts).Keys
      ensures Lists(order, set k | k in old(transfers) && old(transfers)[k].complete <= now)
      ensures Named(order) <= old(transfers).Keys && transfers == old(transfers) - Named(order)
      ensures accounts == AllWithdrawn(old(accounts), old(transfers), order, now, rate)
      ensures SameFund(old(gpo), gpo)
      ensures Stakes(accounts) == Stakes(old(accounts))
    {
      hide Stakes, LedgerDatabase.GapTme, LedgerDatabase.GapTsd, LedgerDatabase.GapScore, LedgerDatabase.Sane;
      hide Withdrawn, AllWithdrawn, Named, Lists, Working;
      order := [];
      var due := set k | k in transfers && transfers[k].complete <= now;
      var todo := due;
      NoneWithdrawn(accounts, transfers, now, rate);
      WorkStarts(due);
      while todo != {}
        invariant Stakes(accounts) == Stakes(old(accounts))
        invariant SameFund(old(gpo), gpo)
        invariant Valid() && accounts.Keys == old(accounts).Keys
        invariant Working(order, todo, due) && Named(order) <= old(transfers).Keys
        invariant transfers == old(transfers) - Named(order)
        invariant accounts == AllWithdrawn(old(accounts), old(transfers), order, now, rate)
        decreases todo
      {
        var k :| k in todo;
        WorkNext(order, todo, due, k);
        WithdrawnNext(old(accounts), old(transfers), order, k, now, rate);
        PayTransfer(k);
        order, todo := order + [k], todo - {k};
      }
      WorkDone(order, due);
    }

    // ---------- Powering down ----------

    /**
     Stake that stays stake moves to another account; the total is
     brought up to date by the withdrawal as a whole.
     */
    method DepositScore(list: seq<Deposit>)
      requires Sane() && forall x :: x in list ==> x.to in accounts
      modifies this`accounts
      ensures Sane() && accounts.Keys == old(accounts).Keys
      ensures Gaps(old(GapTme()), old(GapTsd()), old(GapScore()) + Deposited(list, true, |list|))
      ensures OnlyScore(old(accounts), accounts)
      ensures Stakes(accounts) == WithDeposits(Stakes(old(accounts)), list, |list|)
    {
      hide Stakes, LedgerDatabase.GapTme, LedgerDatabase.GapTsd, LedgerDatabase.GapScore, LedgerDatabase.Sane;
      hide OnlyScore, WithDeposits, Deposited;
      NoDeposits(accounts, list);
      for i := 0 to |list|
        invariant Sane() && accounts.Keys == old(accounts).Keys
        invariant Gaps(old(GapTme()), old(GapTsd()), old(GapScore()) + Deposited(list, true, i))
        invariant Stakes(accounts) == WithDeposits(Stakes(old(accounts)), list, i)
        invariant OnlyScore(old(accounts), accounts)
      {
        NextDeposit(old(accounts), accounts, list, i);
        if list[i].auto {
          AddScore(list[i].to, list[i].score);
        }
      }
    }

    method AddScore(a: nat, v: nat)
      requires a in accounts
      modifies this`accounts
      ensures accounts == old(accounts)[a := old(accounts)[a].(score := old(accounts)[a].score + v)]
      ensures accounts.Keys == old(accounts).Keys
      ensures Stakes(accounts) == Raised(Stakes(old(accounts)), a, v)
      ensures Gaps(old(GapTme()), old(GapTsd()), old(GapScore()) + v) && (old(Sane()) ==> Sane())
    {
      hide SumOf, EscrowOk;
      hide Stakes;
      StakesUpdate(accounts, a, accounts[a].(score := accounts[a].score + v));
      AccountChange(accounts, a, accounts[a].(score := accounts[a].score + v));
      accounts := accounts[a := accounts[a].(score := accounts[a].score + v)];
    }

    /** Pays SCORE out in TME from the fund behind it; the account's own SCORE falls by `loses`. */
    method PayOut(a: nat, score: nat, loses: nat)
      requires a in accounts && Priced(gpo, false) && loses <= accounts[a].score
      modifies this`accounts, this`gpo
      ensures accounts.Keys == old(accounts).Keys
      ensures var value := ScoreValue(old(gpo), score);
              && accounts == old(accounts)[a :=
                old(accounts)[a].(score := old(accounts)[a].score - loses, tme := old(accounts)[a].tme + value)]
              && gpo == old(gpo).(scoreFund := old(gpo).scoreFund - value, totalScore := old(gpo).totalScore - score)
      ensures Stakes(accounts) == Raised(Stakes(old(accounts)), a, Neg(loses))
      ensures Gaps(old(GapTme()), old(GapTsd()), old(GapScore()) + score - loses) && (old(Sane()) ==> Sane())
    {
      hide SumOf, EscrowOk, ScoreValue;
      var value := Sell(score);
      var acc := accounts[a].(score := accounts[a].score - loses, tme := accounts[a].tme + value);
      hide Stakes;
      StakesUpdate(accounts, a, acc);
      AccountChange(accounts, a, acc);
      accounts := accounts[a := acc];
      gpo := gpo.(scoreFund := gpo.scoreFund - value, totalScore := gpo.totalScore - score);
    }

    method DepositCoin(list: seq<Deposit>) returns (ok: bool)
      requires Sane() && forall x :: x in list ==> x.to in accounts
      modifies this`accounts, this`gpo
      ensures ok ==> Sane() && accounts.Keys == old(accounts).Keys
      ensures ok ==> Gaps(old(GapTme()), old(GapTsd()), old(GapScore()) + Deposited(list, false, |list|))
      ensures ok ==> CoinsArrive(old(accounts), accounts, old(gpo), list, |list|)
      ensures ok ==> gpo == AfterCoins(old(gpo), list, |list|)
      ensures ok ==> gpo.totalScore == old(gpo).totalScore - Deposited(list, false, |list|)
      ensures Solvent(old(gpo)) && Deposited(list, false, |list|) <= old(gpo).totalScore ==> ok && Solvent(gpo)
      ensures ok ==> Stakes(accounts) == Stakes(old(accounts))
    {
      hide Stakes, LedgerDatabase.GapTme, LedgerDatabase.GapTsd, LedgerDatabase.GapScore, LedgerDatabase.Sane,
        ScoreValue, Deposited, CoinsArrive, AfterCoins;
      DepositedNone(list, false);
      NoCoins(accounts, gpo, list);
      for i := 0 to |list|
        invariant Stakes(accounts) == Stakes(old(accounts))
        invariant Sane() && accounts.Keys == old(accounts).Keys
        invariant Gaps(old(GapTme()), old(GapTsd()), old(GapScore()) + Deposited(list, false, i))
        invariant CoinsArrive(old(accounts), accounts, old(gpo), list, i) && gpo == AfterCoins(old(gpo), list, i)
        invariant gpo.totalScore == old(gpo).totalScore - Deposited(list, false, i)
        invariant Solvent(old(gpo)) && Deposited(list, false, |list|) <= old(gpo).totalScore ==> Solvent(gpo)
      {
        DepositedMono(list, false, i + 1, |list|);
        DepositedNext(list, false, i);
        NextCoin(old(accounts), accounts, old(gpo), list, i);
        if !list[i].auto {
          ok := PayCoin(list[i].to, list[i].score);
          if !ok {
            return;
          }
        }
      }
      ok := true;
    }

    /** A deposit in coin. */
    method PayCoin(a: nat, score: nat) returns (ok: bool)
      requires Sane() && a in accounts
      modifies this`accounts, this`gpo
      ensures ok ==> Sane() && accounts.Keys == old(accounts).Keys && gpo.totalScore == old(gpo).totalScore - score
      ensures ok ==> Gaps(old(GapTme()), old(GapTsd()), old(GapScore()) + score)
      ensures ok ==>
        accounts == old(accounts)[a := old(accounts)[a].(tme := old(accounts)[a].tme + Worth(old(gpo), score))]
      ensures ok ==> gpo == Paying(old(gpo), score)
      ensures Solvent(old(gpo)) && score <= old(gpo).totalScore ==> ok && Solvent(gpo)
      ensures ok ==> Stakes(accounts) == Stakes(old(accounts))
    {
      hide Stakes, LedgerDatabase.GapTme, LedgerDatabase.GapTsd, LedgerDatabase.GapScore, LedgerDatabase.Sane,
        ScoreValue;
      if Solvent(gpo) && score <= gpo.totalScore {
        PayoutKeepsSolvent(gpo, score);
      }
      ok := Priced(gpo, false);
      if ok {
        PayOut(a, score, 0);
      }
    }

    /** One instalment of a power-down; if SCORE cannot be priced nothing happens. */
    method Withdraw(from: nat, w: nat, list: seq<Deposit>) returns (ok: bool)
      requires Valid() && from in accounts && w <= accounts[from].score && (forall x :: x in list ==> x.to in accounts)
      requires Deposited(list, true, |list|) + Deposited(list, false, |list|) <= w
      modifies this`accounts, this`gpo
      ensures Valid() && accounts.Keys == old(accounts).Keys
      ensures !ok ==> accounts == old(accounts) && gpo == old(gpo)
      ensures Solvent(old(gpo)) ==> ok && Solvent(gpo)
      ensures ok ==> gpo.totalScore == old(gpo).totalScore - (w - Deposited(list, true, |list|))
      ensures ok ==> Stakes(accounts) == Raised(WithDeposits(Stakes(old(accounts)), list, |list|), from, Neg(w))
      ensures ok ==> PaidOut(old(accounts), old(gpo), accounts, gpo, from, w, list)
    {
      hide PaidOut;
      hide HeldTme, HeldTsd, SumOf, EscrowOk, Deposited, ScoreValue;
      var accounts0, gpo0 := accounts, gpo;
      ok := WithdrawAll(from, w, list);
      if !ok {
        accounts, gpo := accounts0, gpo0;
      }
    }

    method WithdrawAll(from: nat, w: nat, list: seq<Deposit>) returns (ok: bool)
      requires Valid() && from in accounts && w <= accounts[from].score && (forall x :: x in list ==> x.to in accounts)
      requires Deposited(list, true, |list|) + Deposited(list, false, |list|) <= w
      modifies this`accounts, this`gpo
      ensures ok ==> Valid() && accounts.Keys == old(accounts).Keys
      ensures Solvent(old(gpo)) ==> ok && Solvent(gpo)
      ensures ok ==> gpo.totalScore == old(gpo).totalScore - (w - Deposited(list, true, |list|))
      ensures ok ==> Stakes(accounts) == Raised(WithDeposits(Stakes(old(accounts)), list, |list|), from, Neg(w))
      ensures ok ==> PaidOut(old(accounts), old(gpo), accounts, gpo, from, w, list)
    {
      hide PaidOut, CoinsArrive, AfterCoins, OnlyScore;
      hide Stakes, LedgerDatabase.GapTme, LedgerDatabase.GapTsd, LedgerDatabase.Sane, Deposited, ScoreValue, SumOf;
      ScoreWithin(accounts, from);
      DepositScore(list);
      ghost var scored := accounts;
      ScoreOnly(old(accounts), scored, from);
      ok := DepositCoin(list);
      if ok {
        CoinsOnly(scored, accounts, old(gpo), list, from);
        ok := Priced(gpo, false);
        if ok {
          if Solvent(gpo) {
            PayoutKeepsSolvent(gpo, w - Deposited(list, true, |list|) - Deposited(list, false, |list|));
          }
          AllPaidOut(old(accounts), scored, accounts, old(gpo), from, w, list);
          PayOut(from, w - Deposited(list, true, |list|) - Deposited(list, false, |list|), w);
        }
      }
    }

    // ---------- The null account ----------

    method BurnTme(n: nat) returns (total: nat)
      requires Sane() && n in accounts
      modifies this`accounts, this`gpo
      ensures Sane() && accounts.Keys == old(accounts).Keys && gpo == old(gpo)
      ensures total == AccountTme(old(accounts)[n])
      ensures accounts == old(accounts)[n := old(accounts)[n].(tme := 0, tmeSavings := 0, tmeReward := 0)]
      ensures Gaps(old(GapTme()) - total, old(GapTsd()), old(GapScore()))
    {
      hide Stakes, LedgerDatabase.GapTme, LedgerDatabase.GapTsd, LedgerDatabase.GapScore, LedgerDatabase.Sane, Accrue;
      total := AccountTme(accounts[n]);
      AdjustBalance(n, TME, Neg(accounts[n].tme));
      AdjustSavings(n, TME, Neg(accounts[n].tmeSavings));
      AdjustReward(n, TME, Neg(accounts[n].tmeReward));
    }

    /** Interest that falls due in the process stays behind. */
    method BurnTsd(n: nat) returns (total: nat)
      requires Sane() && n in accounts
      modifies this`accounts, this`gpo
      ensures Sane() && accounts.Keys == old(accounts).Keys
      ensures total == AccountTsd(old(accounts)[n])
      ensures accounts[n] == old(accounts)[n].(
        tsd := accounts[n].tsd, tsdSavings := accounts[n].tsdSavings, tsdReward := 0,
        accrual := accounts[n].accrual, savingsAccrual := accounts[n].savingsAccrual)
      ensures accounts == old(accounts)[n := accounts[n]]
      ensures gpo == old(gpo).(tsdSupply := old(gpo).tsdSupply + AccountTsd(accounts[n]))
      ensures Gaps(old(GapTme()), old(GapTsd()) - total, old(GapScore()))
    {
      hide Stakes, LedgerDatabase.GapTme, LedgerDatabase.GapTsd, LedgerDatabase.GapScore, LedgerDatabase.Sane, Accrue;
      var a := accounts[n];
      total := AccountTsd(a);
      if a.tsd > 0 {
        AdjustBalance(n, TSD, Neg(a.tsd));
      }
      if a.tsdSavings > 0 {
        AdjustSavings(n, TSD, Neg(a.tsdSavings));
      }
      AdjustReward(n, TSD, Neg(a.tsdReward));
    }

    /** SCORE is taken out of the fund at its price, rewards with the TME set aside for them. */
    method BurnStake(n: nat) returns (tme: nat)
      requires Sane() && n in accounts && (accounts[n].score > 0 ==> Priced(gpo, false))
      modifies this`accounts, this`gpo
      ensures Sane() && accounts.Keys == old(accounts).Keys
      ensures accounts[n] == old(accounts)[n].(score := 0, scoreReward := 0,
        scoreRewardTme := if old(accounts)[n].scoreReward > 0 then 0 else old(accounts)[n].scoreRewardTme)
      ensures accounts == old(accounts)[n := accounts[n]]
      ensures gpo.supply == old(gpo).supply && gpo.tsdSupply == old(gpo).tsdSupply
      ensures var score := old(accounts)[n].score;
              if score > 0
              then gpo.scoreFund == old(gpo).scoreFund - ScoreValue(old(gpo), score)
                && gpo.totalScore == old(gpo).totalScore - score
              else SameFund(old(gpo), gpo)
      ensures tme == (if old(accounts)[n].score > 0 then ScoreValue(old(gpo), old(accounts)[n].score) else 0)
                     + (if old(accounts)[n].scoreReward > 0 then old(accounts)[n].scoreRewardTme else 0)
      ensures Gaps(old(GapTme()) - tme, old(GapTsd()), old(GapScore()))
    {
      hide SumOf, EscrowOk, ScoreValue;
      tme := 0;
      var a := accounts[n];
      if a.score > 0 {
        tme := Sell(a.score);
        gpo := gpo.(totalScore := gpo.totalScore - a.score, scoreFund := gpo.scoreFund - tme);
        a := a.(score := 0);
      }
      if a.scoreReward > 0 {
        tme := tme + a.scoreRewardTme;
        gpo := gpo.(pendingScore := gpo.pendingScore - a.scoreReward, pendingTme := gpo.pendingTme - a.scoreRewardTme);
        a := a.(scoreReward := 0, scoreRewardTme := 0);
      }
      AccountChange(accounts, n, a);
      accounts := accounts[n := a];
    }

    lemma ScoreBounded(n: nat)
      requires Valid() && n in accounts
      ensures accounts[n].score <= gpo.totalScore
    {
      hide HeldTme, HeldTsd, SumOf, EscrowOk;
      ScoreWithin(accounts, n);
    }

    /** Whatever has reached the null account is destroyed, and the supplies fall by it. */
    method ClearNull(n: nat) returns (ok: bool)
      requires Valid() && n in accounts
      modifies this`accounts, this`gpo
      ensures Valid() && accounts.Keys == old(accounts).Keys
      ensures ok <==> (old(accounts)[n].score > 0 ==> Priced(old(gpo), false))
      ensures !ok ==> accounts == old(accounts) && gpo == old(gpo)
      ensures ok ==>
        AccountTme(accounts[n]) == 0 && accounts[n].score == 0 && accounts[n].scoreReward == 0
          && accounts[n].tsdReward == 0
      ensures ok ==>
        && accounts == old(accounts)[n := accounts[n]]
        && gpo.supply == old(gpo).supply - AccountTme(old(accounts)[n]) - StakeValue(old(accounts)[n], old(gpo))
        && gpo.tsdSupply == old(gpo).tsdSupply - (AccountTsd(old(accounts)[n]) - AccountTsd(accounts[n]))
        && gpo.totalScore == old(gpo).totalScore - old(accounts)[n].score
      ensures Solvent(old(gpo)) ==> Solvent(gpo)
      ensures ok ==> Stakes(accounts) == Stakes(old(accounts))[n := 0]
    {
      hide Stakes, LedgerDatabase.GapTme, LedgerDatabase.GapTsd, LedgerDatabase.GapScore, LedgerDatabase.Sane,
        ScoreValue;
      ok := accounts[n].score > 0 ==> Priced(gpo, false);
      if !ok {
        return;
      }
      ScoreBounded(n);
      var tme := BurnTme(n);
      var tsd := BurnTsd(n);
      if Solvent(gpo) {
        PayoutKeepsSolvent(gpo, accounts[n].score);
      }
      ValueSame(old(gpo), gpo, accounts[n].score);
      var staked := BurnStake(n);
      AdjustSupply(TME, Neg(tme + staked));
      AdjustSupply(TSD, Neg(tsd));
      StakesUpdate(old(accounts), n, accounts[n]);
    }

    /** A new block: its time, and the interest rate, price and print rate that hold from then on. */
    method NewBlock(time: nat, interest: nat, price: Option<Feed>, printing: nat)
      requires Valid() && printing <= PERCENT_100 && (price.Some? ==> price.value.tsd > 0 && price.value.tme > 0)
      modifies this`now, this`rate, this`feed, this`printRate
      ensures Valid() && now == time && rate == interest && feed == price && printRate == printing
    {
      hide SumOf, EscrowOk;
      now, rate, feed, printRate := time, interest, price, printing;
    }

    /** One operation of a transaction. */
    method Apply(op: Operation)
      requires Valid()
      modifies this
      ensures Valid()
      ensures old(Solvent(gpo)) ==> (Solvent(gpo) <==> !old(Unbacked(op)))
      ensures Still(op) ==> SameFund(old(gpo), gpo) && Stakes(accounts) == Stakes(old(accounts))
      ensures !Trading(op) ==> sales == old(sales)
    {
      hide Stakes, LedgerDatabase.GapTme, LedgerDatabase.GapTsd, LedgerDatabase.GapScore, LedgerDatabase.Sane, Total,
        Values, Shares, Part, Adjust, AdjustInSavings, EscrowOk, MayRelease, Deposited, NewScore, EscrowTme,
        EscrowTsd;
      match op {
        case Send(from, to, amount) =>
          var _ := TransferTo(from, to, amount);
        case PowerUp(from, to, tme) =>
          var _ := TransferToScoreFund(from, to, tme);
        case Save(from, to, amount) =>
          var _ := TransferToSavings(from, to, amount);
        case Unsave(id, t) =>
          var _ := TransferFromSavings(id, t);
        case CancelUnsave(from, id) =>
          var _ := CancelFromSavings(from, id);
        case ConvertTsd(owner, id, tsd, delay) =>
          var _ := Convert(owner, id, tsd, delay);
        case Sell(id, s) =>
          var _ := PlaceSale(id, s);
        case CancelOrder(id) =>
          if id in sales && sales[id].seller in accounts {
            CancelSale(id);
          }
        case Trade(i, j, iPays, jPays, closeI, closeJ) =>
          var _ := FillSales(i, j, iPays, jPays, closeI, closeJ);
        case OpenEscrow(id, e) =>
          var _ := EscrowTransfer(id, e.(toApproved := false, agentApproved := false));
        case ApproveEscrow(k, to, agent, who, approve) =>
          if who == to || who == agent {
            var _ := EscrowApprove(k, to, agent, who, approve);
          }
        case DisputeEscrow(k, to, agent) =>
          var _ := EscrowDispute(k, to, agent);
        case ReleaseEscrow(k, r) =>
          var _ := EscrowRelease(k, r);
        case Claim(a, tme, tsd, score) =>
          var _ := ClaimReward(a, tme, tsd, score);
        case Register(creator, name, fee, minFee) =>
          var _ := CreateAccount(creator, name, fee, minFee);
        case Block(step) =>
          Step(step);
      }
    }

    /** One step of a block. */
    method Step(step: BlockStep)
      requires Valid()
      modifies this
      ensures Valid() && (old(Solvent(gpo)) ==> Solvent(gpo))
      ensures Resting(step) ==> SameFund(old(gpo), gpo) && Stakes(accounts) == Stakes(old(accounts))
      ensures sales == old(sales)
    {
      hide Stakes, LedgerDatabase.GapTme, LedgerDatabase.GapTsd, LedgerDatabase.GapScore, LedgerDatabase.Sane, Total,
        Values, Shares, Part, Deposited, NewScore, ScoreValue, Lapsed;
      match step {
        case Begin(time, interest, price, printing) =>
          if printing <= PERCENT_100 && (price.Some? ==> price.value.tsd > 0 && price.value.tme > 0) {
            NewBlock(time, interest, price, printing);
          }
        case Null(n) =>
          if n in accounts {
            var _ := ClearNull(n);
          }
        case Inflation(newTme, list, producer, weight, factor) =>
          if producer in accounts && factor > 0 && forall x :: x in list ==> x.to in funds {
            var _, _ := ProcessFunds(newTme, list, producer, weight, factor);
          }
        case Conversions =>
          var _ := ProcessConversions();
        case Cashout(p) =>
          if p.claimed == HandedOut(p) {
            var _ := PayComment(p);
          }
        case Instalment(from, w, list) =>
          if && from in accounts && w <= accounts[from].score && (forall x :: x in list ==> x.to in accounts)
             && Deposited(list, true, |list|) + Deposited(list, false, |list|) <= w {
            var _ := Withdraw(from, w, list);
          }
        case SavingsDue =>
          var _ := ProcessSavings();
        case EscrowsDue =>
          var _ := ExpireEscrows();
      }
    }

    /** A claim of SCORE that brings no TME with it, while there is none behind SCORE. */
    ghost predicate Unbacked(op: Operation)
      reads this
    {
      && op.Claim? && op.a in accounts && 0 < op.score <= accounts[op.a].scoreReward
      && op.tme <= accounts[op.a].tmeReward && op.tsd <= accounts[op.a].tsdReward
      && gpo.scoreFund == 0 && ClaimValue(accounts[op.a], op.score) == 0
    }

    /**
     From any state that satisfies the supply equations, every operation and every step of a block keeps them.
     A fund behind SCORE stays there as long as SCORE does, unless SCORE is claimed while there is none.
     */
    method Run(operations: seq<Operation>) returns (ghost unbacked: bool)
      requires Valid()
      modifies this
      ensures Valid()
      ensures old(Solvent(gpo)) && !unbacked ==> Solvent(gpo)
    {
      hide Stakes, LedgerDatabase.GapTme, LedgerDatabase.GapTsd, LedgerDatabase.GapScore, LedgerDatabase.Sane,
        LedgerDatabase.Unbacked;
      unbacked := false;
      for i := 0 to |operations|
        invariant Valid()
        invariant old(Solvent(gpo)) && !unbacked ==> Solvent(gpo)
      {
        unbacked := unbacked || Unbacked(operations[i]);
        Apply(operations[i]);
      }
    }
  }

  datatype Operation =
    | Send(from: nat, to: nat, amount: Amount)
    | PowerUp(from: nat, to: nat, tme: nat)
    | Save(from: nat, to: nat, amount: Amount)
    | Unsave(id: nat, t: Transfer)
    | CancelUnsave(from: nat, id: nat)
    | ConvertTsd(owner: nat, id: nat, tsd: nat, delay: nat)
    | Sell(id: nat, s: Sale)
    | CancelOrder(id: nat)
    | Trade(i: nat, j: nat, iPays: nat, jPays: nat, closeI: bool, closeJ: bool)
    | OpenEscrow(id: nat, e: Escrow)
    | ApproveEscrow(k: (nat, nat), to: nat, agent: nat, who: nat, approve: bool)
    | DisputeEscrow(k: (nat, nat), to: nat, agent: nat)
    | ReleaseEscrow(k: (nat, nat), r: Release)
    | Claim(a: nat, tme: nat, tsd: nat, score: nat)
    | Register(creator: nat, name: nat, fee: nat, minFee: nat)
    | Block(step: BlockStep)

  datatype BlockStep =
    | Begin(time: nat, interest: nat, price: Option<Feed>, printing: nat)
    | Null(n: nat)
    | Inflation(newTme: nat, list: seq<Share>, producer: nat, weight: nat, factor: nat)
    | Conversions
    | Cashout(p: CommentPay)
    | Instalment(from: nat, w: nat, deposits: seq<Deposit>)
    | SavingsDue
    | EscrowsDue

  /** The steps that leave everybody's SCORE alone. */
  predicate Resting(step: BlockStep)
  {
    !step.Null? && !step.Inflation? && !step.Instalment?
  }

  /** The operations on limit orders. */
  predicate Trading(op: Operation)
  {
    op.Sell? || op.CancelOrder? || op.Trade?
  }

  /** The operations that leave everybody's SCORE alone. */
  predicate Still(op: Operation)
  {
    if op.Block? then Resting(op.step) else !op.PowerUp? && !op.Claim? && !op.Register?
  }

  /** The miner, null and temp accounts, and `count` accounts with equal balances and stakes. */
  function GenesisAccounts(count: nat, tme: nat, stake: nat): (r: Accounts)
    ensures forall a: nat :: a in r <==> a < count + 3
  {
    if count == 0 then map[0 := NewAccount(), 1 := NewAccount(), 2 := NewAccount()]
    else GenesisAccounts(count - 1, tme, stake)[count + 2 := NewAccount().(tme := tme, score := stake)]
  }

  lemma {:induction false} GenesisSums(count: nat, tme: nat, stake: nat)
    ensures var r := GenesisAccounts(count, tme, stake);
            && SumOf(r, AccountTme) == count * tme && SumOf(r, AccountTsd) == 0
            && SumOf(r, AccountScore) == count * stake
            && SumOf(r, AccountReward) == 0 && SumOf(r, AccountPending) == 0
  {
    hide SumOf, NewAccount;
    if count == 0 {
      EmptyAccounts();
    } else {
      GenesisSums(count - 1, tme, stake);
      AccountAdd(GenesisAccounts(count - 1, tme, stake), count + 2, NewAccount().(tme := tme, score := stake));
      Distribute(count - 1, 1, tme);
      Distribute(count - 1, 1, stake);
    }
  }

  lemma {:induction false} EmptyAccounts()
    ensures var r := GenesisAccounts(0, 0, 0);
            && SumOf(r, AccountTme) == 0 && SumOf(r, AccountTsd) == 0 && SumOf(r, AccountScore) == 0
            && SumOf(r, AccountReward) == 0 && SumOf(r, AccountPending) == 0
  {
    hide SumOf, NewAccount;
    var none: Accounts := map[];
    NoAccounts(none);
    var one := none[0 := NewAccount()];
    AccountAdd(none, 0, NewAccount());
    var two := one[1 := NewAccount()];
    AccountAdd(one, 1, NewAccount());
    AccountAdd(two, 2, NewAccount());
    assert two[2 := NewAccount()] == GenesisAccounts(0, 0, 0);
  }

  lemma {:induction false} NoAccounts(none: Accounts)
    requires none == map[]
    ensures SumOf(none, AccountTme) == 0 && SumOf(none, AccountTsd) == 0 && SumOf(none, AccountScore) == 0
    ensures SumOf(none, AccountReward) == 0 && SumOf(none, AccountPending) == 0
  {
  }

  lemma {:induction false} EmptySums()
    ensures SumOf<nat, Sale>(map[], SaleTme) == 0 && SumOf<nat, Sale>(map[], SaleTsd) == 0
    ensures SumOf<(nat, nat), Conversion>(map[], ConversionTsd) == 0 && SumOf<nat, int>(map[], FundTme) == 0
    ensures SumOf<(nat, nat), Escrow>(map[], EscrowTme) == 0 && SumOf<(nat, nat), Escrow>(map[], EscrowTsd) == 0
    ensures SumOf<(nat, nat), Transfer>(map[], TransferTme) == 0 && SumOf<(nat, nat), Transfer>(map[], TransferTsd) == 0
  {
  }

  /**
   Paying SCORE out of the fund leaves it covered exactly if there is a
   fund, or so little SCORE that it is worth nothing.
   */
  lemma {:induction false} FundCoversPayout(g: Globals, score: nat)
    requires Priced(g, false) && score <= g.totalScore
    ensures ScoreValue(g, score) <= g.scoreFund <==> g.scoreFund > 0 || score < 1000
  {
    if g.scoreFund > 0 && g.totalScore > 0 {
      PartWithin(g.scoreFund, score, g.totalScore);
      assert g.scoreFund * score == score * g.scoreFund;
    }
  }

  /** There is a fund behind SCORE, or no SCORE. */
  predicate Solvent(g: Globals)
  {
    g.totalScore >= 0 && g.scoreFund >= 0 && (g.scoreFund > 0 || g.totalScore == 0)
  }

  /** Neither the fund nor the SCORE it backs has changed. */
  predicate SameFund(g: Globals, h: Globals)
  {
    h.scoreFund == g.scoreFund && h.totalScore == g.totalScore
  }

  /** New SCORE always comes with TME behind it. */
  lemma {:induction false} MoreKeepsSolvent(g: Globals, tme: nat)
    requires Solvent(g)
    ensures Solvent(MoreScore(g, tme, NewScore(g, tme, false), false))
  {
    if tme == 0 {
      PartOfNothing(1000000, 1000);
      if g.scoreFund > 0 {
        PartOfNothing(g.totalScore, g.scoreFund);
      }
    }
  }

  /** Rounding down keeps the fund from running out before SCORE does. */
  lemma {:induction false} PayoutKeepsSolvent(g: Globals, score: nat)
    requires Solvent(g) && score <= g.totalScore
    ensures Solvent(g.(scoreFund := g.scoreFund - ScoreValue(g, score), totalScore := g.totalScore - score))
  {
    var fund: nat, total: nat := g.scoreFund, g.totalScore;
    if fund > 0 && total > 0 {
      PartWithin(fund, score, total);
      assert fund * score == score * fund;
      if score < total {
        FloorAtLeast(score * fund, total, fund);
        MulMono(score + 1, total, fund);
        Distribute(score, 1, fund);
        assert fund * total == total * fund;
      }
    }
  }

  lemma {:induction false} ScoreWithin(accounts: Accounts, a: nat)
    requires a in accounts
    ensures accounts[a].score <= SumOf(accounts, AccountScore)
  {
    SumOfRemove(accounts, AccountScore, a);
    SumOfNonNegative(accounts - {a}, AccountScore);
  }

  lemma {:induction false} DepositedMono(list: seq<Deposit>, auto: bool, i: nat, n: nat)
    requires i <= n <= |list|
    ensures Deposited(list, auto, i) <= Deposited(list, auto, n)
  {
    if i < n {
      DepositedMono(list, auto, i, n - 1);
    }
  }

  lemma {:induction false} DepositedNone(list: seq<Deposit>, auto: bool)
    ensures Deposited(list, auto, 0) == 0
  {
  }

  lemma {:induction false} DepositedNext(list: seq<Deposit>, auto: bool, i: nat)
    requires i < |list|
    ensures Deposited(list, auto, i + 1) == Deposited(list, auto, i) + if list[i].auto == auto then list[i].score else 0
  {
  }

  /** The worth of SCORE that can be priced. */
  ghost function Worth(g: Globals, score: nat): nat
  {
    if Priced(g, false) then ScoreValue(g, score) else 0
  }

  /** The counters after SCORE has been paid out at its price. */
  ghost function Paying(g: Globals, score: nat): Globals
  {
    g.(scoreFund := g.scoreFund - Worth(g, score), totalScore := g.totalScore - score)
  }

  /** The counters after the first n deposits, those in coin having been paid out of the fund one after the other. */
  ghost function AfterCoins(g: Globals, list: seq<Deposit>, n: nat): Globals
    requires n <= |list|
  {
    if n == 0 then g
    else
      var before := AfterCoins(g, list, n - 1);
      if list[n - 1].auto then before else Paying(before, list[n - 1].score)
  }

  /** What one account receives of them. */
  ghost function CoinsFor(g: Globals, list: seq<Deposit>, a: nat, n: nat): nat
    requires n <= |list|
  {
    if n == 0 then 0
    else
      CoinsFor(g, list, a, n - 1)
        + if !list[n - 1].auto && list[n - 1].to == a then Worth(AfterCoins(g, list, n - 1), list[n - 1].score) else 0
  }

  /** The coins have reached their receivers, and nothing else has changed. */
  ghost predicate CoinsArrive(before: Accounts, after: Accounts, g: Globals, list: seq<Deposit>, n: nat)
    requires n <= |list|
  {
    && after.Keys == before.Keys
    && forall a :: a in before ==> after[a] == before[a].(tme := before[a].tme + CoinsFor(g, list, a, n))
  }

  lemma {:induction false} NoCoins(accounts: Accounts, g: Globals, list: seq<Deposit>)
    ensures CoinsArrive(accounts, accounts, g, list, 0) && AfterCoins(g, list, 0) == g
  {
  }

  lemma {:induction false} NextCoin(before: Accounts, now: Accounts, g: Globals, list: seq<Deposit>, i: nat)
    requires i < |list| && CoinsArrive(before, now, g, list, i) && list[i].to in now
    ensures var d, h := list[i], AfterCoins(g, list, i);
            if d.auto then CoinsArrive(before, now, g, list, i + 1) && AfterCoins(g, list, i + 1) == h
            else
              && AfterCoins(g, list, i + 1) == Paying(h, d.score)
              && CoinsArrive(before, now[d.to := now[d.to].(tme := now[d.to].tme + Worth(h, d.score))], g, list, i + 1)
  {
    hide Worth;
  }

  /** Only SCORE has come in. */
  ghost predicate OnlyScore(before: Accounts, after: Accounts)
  {
    && after.Keys == before.Keys
    && forall a :: a in before ==> after[a] == before[a].(score := after[a].score) && after[a].score >= before[a].score
  }

  lemma {:induction false} NoDeposits(accounts: Accounts, list: seq<Deposit>)
    ensures OnlyScore(accounts, accounts) && Deposited(list, true, 0) == 0
    ensures WithDeposits(Stakes(accounts), list, 0) == Stakes(accounts)
  {
  }

  lemma {:induction false} NextDeposit(before: Accounts, now: Accounts, list: seq<Deposit>, i: nat)
    requires OnlyScore(before, now) && i < |list| && list[i].to in now
    requires Stakes(now) == WithDeposits(Stakes(before), list, i)
    ensures var d := list[i];
            && Deposited(list, true, i + 1) == Deposited(list, true, i) + (if d.auto then d.score else 0)
            && WithDeposits(Stakes(before), list, i + 1)
              == (if d.auto then Raised(Stakes(now), d.to, d.score) else Stakes(now))
            && OnlyScore(before, now[d.to := now[d.to].(score := now[d.to].score + d.score)])
  {
    hide Stakes;
  }

  lemma {:induction false} ScoreOnly(before: Accounts, after: Accounts, a: nat)
    requires OnlyScore(before, after) && a in before
    ensures a in after && after[a].score >= before[a].score
  {
  }

  lemma {:induction false} CoinsOnly(before: Accounts, after: Accounts, g: Globals, list: seq<Deposit>, a: nat)
    requires CoinsArrive(before, after, g, list, |list|) && a in before
    ensures a in after && after[a].score == before[a].score
  {
  }

  /**
   An instalment has been paid: each receiver of coin has what his parts were worth when they were paid, the account
   what its own part was worth last, and the fund has lost just that.  SCORE aside, nothing else has changed.
   */
  ghost predicate PaidOut(
    before: Accounts, g: Globals, after: Accounts, g': Globals, from: nat, w: nat, list: seq<Deposit>)
  {
    && Deposited(list, true, |list|) + Deposited(list, false, |list|) <= w
    && var kept := w - Deposited(list, true, |list|) - Deposited(list, false, |list|);
    var last := Worth(AfterCoins(g, list, |list|), kept);
    && after.Keys == before.Keys && g' == Paying(AfterCoins(g, list, |list|), kept)
    && forall a :: a in before ==>
         after[a] == before[a].(
           score := after[a].score,
           tme := before[a].tme + CoinsFor(g, list, a, |list|) + if a == from then last else 0)
  }

  lemma {:induction false} AllPaidOut(
    before: Accounts, scored: Accounts, now: Accounts, g: Globals, from: nat, w: nat, list: seq<Deposit>)
    requires OnlyScore(before, scored) && CoinsArrive(scored, now, g, list, |list|) && from in now
    requires Deposited(list, true, |list|) + Deposited(list, false, |list|) <= w <= now[from].score
    ensures var kept := w - Deposited(list, true, |list|) - Deposited(list, false, |list|);
            var h := AfterCoins(g, list, |list|);
            var after :=
              now[from := now[from].(score := now[from].score - w, tme := now[from].tme + Worth(h, kept))];
            PaidOut(before, g, after, Paying(h, kept), from, w, list)
  {
    hide Worth, Deposited, CoinsFor, AfterCoins;
  }

  /** What the fund pays for deposits in coin is what all their receivers get. */
  lemma {:induction false} FundPays(g: Globals, list: seq<Deposit>, n: nat, names: seq<nat>)
    requires n <= |list| && (forall i, j :: 0 <= i < j < |names| ==> names[i] != names[j])
    requires forall d :: d in list ==> d.to in names
    ensures AfterCoins(g, list, n).scoreFund == g.scoreFund - Total(CoinsOf(g, list, names, n))
  {
    hide Worth, Total;
    if n == 0 {
      NothingPaid(CoinsOf(g, list, names, 0));
    } else {
      FundPays(g, list, n - 1, names);
      var before, after := CoinsOf(g, list, names, n - 1), CoinsOf(g, list, names, n);
      var d := list[n - 1];
      assert d in list;
      var k :| 0 <= k < |names| && names[k] == d.to;
      if d.auto {
        assert after == before;
      } else {
        assert after == before[k := before[k] + Worth(AfterCoins(g, list, n - 1), d.score)];
        TotalUpdate(before, k, before[k] + Worth(AfterCoins(g, list, n - 1), d.score));
      }
    }
  }

  ghost function CoinsOf(g: Globals, list: seq<Deposit>, names: seq<nat>, n: nat): (r: seq<nat>)
    requires n <= |list|
    ensures |r| == |names|
  {
    seq(|names|, i requires 0 <= i < |names| => CoinsFor(g, list, names[i], n))
  }

  lemma {:induction false} NothingPaid(s: seq<nat>)
    requires forall i :: 0 <= i < |s| ==> s[i] == 0
    ensures Total(s) == 0
  {
    if s != [] {
      NothingPaid(s[..|s| - 1]);
    }
  }

  /** A part of an instalment for another account, as stake or in coin. */
  datatype Deposit = Deposit(to: nat, score: nat, auto: bool)

  function Deposited(list: seq<Deposit>, auto: bool, n: nat): (r: nat)
    requires n <= |list|
  {
    if n == 0 then 0 else Deposited(list, auto, n - 1) + if list[n - 1].auto == auto then list[n - 1].score else 0
  }

  /** The reward funds after the first n shares of a reward. */
  ghost function WithShares(funds: map<nat, int>, reward: nat, list: seq<Share>, n: nat): map<nat, int>
    requires n <= |list|
  {
    if n == 0 then funds
    else
      var before := WithShares(funds, reward, list, n - 1);
      var x := list[n - 1];
      if x.to in before then before[x.to := before[x.to] + Part(reward, x.tme, PERCENT_100)] else before
  }

  /** The shares of the reward funds do not exceed the content part, and what is left can buy SCORE. */
  ghost predicate MayInflate(g: Globals, newTme: nat, list: seq<Share>)
  {
    var content := Part(newTme, CONTENT_PERCENT, PERCENT_100);
    var stake := Part(newTme, STAKE_PERCENT, PERCENT_100);
    && Total(Shares(content, Values(list), PERCENT_100)) <= content
    && Priced(g.(scoreFund := g.scoreFund + stake), false)
  }

  /**
   New TME: of the content part each reward fund gets its share, the stake part goes behind SCORE, and the rest, by
   weight, buys the producer SCORE.
   */
  ghost predicate Inflated(
    before: Accounts, funds: map<nat, int>, g: Globals, after: Accounts, funds': map<nat, int>, g': Globals,
    newTme: nat, list: seq<Share>, producer: nat, weight: nat, factor: nat)
  {
    var content, stake := Part(newTme, CONTENT_PERCENT, PERCENT_100), Part(newTme, STAKE_PERCENT, PERCENT_100);
    var used := Total(Shares(content, Values(list), PERCENT_100));
    && factor > 0 && used + stake <= newTme && producer in before && producer in after
    && funds' == WithShares(funds, content, list, |list|)
    && var pay := Part(newTme - used - stake, weight, factor);
    var h := g.(scoreFund := g.scoreFund + stake, supply := g.supply + used + stake + pay);
    && Priced(h, false)
    && var made := NewScore(h, pay, false);
    after == before[producer := WithScore(before[producer], pay, made, false)] && g' == MoreScore(h, pay, made, false)
  }

  const CONTENT_PERCENT: nat := 7500
  const STAKE_PERCENT: nat := 1500

  /** An amount for someone. */
  datatype Share = Share(to: nat, tme: nat)

  function Values(list: seq<Share>): (r: seq<nat>)
    ensures |r| == |list| && forall i :: 0 <= i < |r| ==> r[i] == list[i].tme
  {
    seq(|list|, i requires 0 <= i < |list| => list[i].tme)
  }

  lemma {:induction false} TotalNothing(s: seq<nat>)
    ensures Total(s[..0]) == 0
  {
  }

  lemma {:induction false} ContentAndStake(newTme: nat)
    ensures Part(newTme, CONTENT_PERCENT, PERCENT_100) + Part(newTme, STAKE_PERCENT, PERCENT_100) <= newTme
  {
  }

  lemma {:induction false} WholePay(n: nat, weight: nat, factor: nat)
    requires factor > 0
    ensures weight == factor ==> Part(n, weight, factor) == n
  {
    FloorShift(0, n, factor);
  }

  method SumShares(reward: nat, list: seq<Share>) returns (total: nat)
    ensures total == Total(Shares(reward, Values(list), PERCENT_100))
  {
    hide Total;
    total := 0;
    ghost var shares := Shares(reward, Values(list), PERCENT_100);
    TotalNothing(shares);
    for i := 0 to |list|
      invariant total == Total(shares[..i])
    {
      assert shares[..i + 1] == shares[..i] + [shares[i]];
      TotalAppend(shares[..i], shares[i]);
      total := total + reward * list[i].tme / PERCENT_100;
    }
    assert shares[..|list|] == shares;
  }

  /** What a comment's payout hands out, in TME: the parts of Curation.CashOut. */
  datatype CommentPay = CommentPay(fund: nat, author: nat, curators: seq<Share>, beneficiaries: seq<Share>,
      score: nat, tsd: nat, claimed: nat)

  /** All that a payout gives to someone. */
  function HandedOut(p: CommentPay): nat
  {
    Total(Values(p.curators)) + Total(Values(p.beneficiaries)) + p.score + p.tsd
  }

  function Paired(names: seq<nat>, amounts: seq<nat>): (r: seq<Share>)
    requires |amounts| <= |names|
    ensures |r| == |amounts| && forall i :: 0 <= i < |r| ==> r[i] == Share(names[i], amounts[i])
  {
    seq(|amounts|, i requires 0 <= i < |amounts| => Share(names[i], amounts[i]))
  }

  /** Who is paid which part of a payout. */
  function Payment(p: Payout, fund: nat, author: nat, curators: seq<nat>, beneficiaries: seq<nat>): (r: CommentPay)
    requires |p.curators| <= |curators| && |p.beneficiaries| <= |beneficiaries|
  {
    CommentPay(fund, author, Paired(curators, p.curators), Paired(beneficiaries, p.beneficiaries), p.score, p.tsd,
               p.claimed)
  }

  /** Fund and accounts are there, and SCORE has a price. */
  ghost predicate MayPay(accounts: Accounts, g: Globals, funds: map<nat, int>, p: CommentPay)
  {
    && p.fund in funds && p.author in accounts && Priced(g, true)
    && (forall x :: x in p.curators ==> x.to in accounts)
    && (forall x :: x in p.beneficiaries ==> x.to in accounts)
  }

  /** Everything that is paid in SCORE, in the order in which it is. */
  function InScore(p: CommentPay): seq<Share>
  {
    p.curators + p.beneficiaries + [Share(p.author, p.score)]
  }

  /** The accounts and counters while rewards in SCORE are paid. */
  datatype Rewarding = Rewards(accounts: Accounts, gpo: Globals)

  /** One reward in SCORE, at the price of the moment. */
  ghost function OneReward(r: Rewarding, x: Share): (t: Rewarding)
    ensures t.accounts.Keys == r.accounts.Keys && (Priced(r.gpo, true) ==> Priced(t.gpo, true))
  {
    if x.to in r.accounts && Priced(r.gpo, true) then
      var made := NewScore(r.gpo, x.tme, true);
      Rewards(r.accounts[x.to := WithScore(r.accounts[x.to], x.tme, made, true)], MoreScore(r.gpo, x.tme, made, true))
    else r
  }

  /** After the first n rewards of a list, each at the price that the ones before it have left. */
  ghost function Rewarded(r: Rewarding, list: seq<Share>, n: nat): (t: Rewarding)
    requires n <= |list|
    ensures t.accounts.Keys == r.accounts.Keys && (Priced(r.gpo, true) ==> Priced(t.gpo, true))
  {
    if n == 0 then r else OneReward(Rewarded(r, list, n - 1), list[n - 1])
  }

  lemma {:induction false} NoneRewarded(r: Rewarding, list: seq<Share>)
    ensures Rewarded(r, list, 0) == r
  {
  }

  lemma {:induction false} NextRewarded(r: Rewarding, list: seq<Share>, i: nat)
    requires i < |list|
    ensures Rewarded(r, list, i + 1) == OneReward(Rewarded(r, list, i), list[i])
  {
  }

  lemma {:induction false} OneRewardIs(accounts: Accounts, g: Globals, x: Share)
    requires x.to in accounts && Priced(g, true)
    ensures var made := NewScore(g, x.tme, true);
            var h := MoreScore(g, x.tme, made, true);
            && OneReward(Rewards(accounts, g), x)
              == Rewards(accounts[x.to := WithScore(accounts[x.to], x.tme, made, true)], h)
            && Priced(h, true) && SameFund(g, h)
  {
    hide NewScore;
  }

  /** What the first n of a list give to one account, in TME. */
  ghost function Given(list: seq<Share>, a: nat, n: nat): nat
    requires n <= |list|
  {
    if n == 0 then 0 else Given(list, a, n - 1) + if list[n - 1].to == a then list[n - 1].tme else 0
  }

  /** The SCORE that these buy. */
  ghost function Bought(r: Rewarding, list: seq<Share>, a: nat, n: nat): nat
    requires n <= |list| && Priced(r.gpo, true)
  {
    if n == 0 then 0
    else
      Bought(r, list, a, n - 1)
        + if list[n - 1].to == a then NewScore(Rewarded(r, list, n - 1).gpo, list[n - 1].tme, true) else 0
  }

  /** Each account gets what is meant for it, and nothing else about it changes. */
  lemma {:induction false} RewardedAt(r: Rewarding, list: seq<Share>, n: nat, a: nat)
    requires n <= |list| && Priced(r.gpo, true) && a in r.accounts
    ensures Rewarded(r, list, n).accounts[a] == r.accounts[a].(
      scoreReward := r.accounts[a].scoreReward + Bought(r, list, a, n),
      scoreRewardTme := r.accounts[a].scoreRewardTme + Given(list, a, n))
  {
    hide NewScore;
    if n > 0 {
      RewardedAt(r, list, n - 1, a);
    }
  }

  lemma {:induction false} RewardedMore(r: Rewarding, s: seq<Share>, t: seq<Share>, n: nat)
    requires n <= |t|
    ensures Rewarded(r, s + t, |s| + n) == Rewarded(Rewarded(r, s, |s|), t, n)
  {
    hide OneReward;
    if n > 0 {
      RewardedMore(r, s, t, n - 1);
    } else {
      RewardedPrefix(r, s, t, |s|);
    }
  }

  lemma {:induction false} RewardedPrefix(r: Rewarding, s: seq<Share>, t: seq<Share>, n: nat)
    requires n <= |s|
    ensures Rewarded(r, s + t, n) == Rewarded(r, s, n)
  {
    hide OneReward;
    if n > 0 {
      RewardedPrefix(r, s, t, n - 1);
    }
  }

  /** Curators, then beneficiaries, then the author. */
  lemma {:induction false} AllRewarded(r: Rewarding, p: CommentPay)
    ensures Rewarded(r, InScore(p), |InScore(p)|)
      == OneReward(Rewarded(Rewarded(r, p.curators, |p.curators|), p.beneficiaries, |p.beneficiaries|),
                   Share(p.author, p.score))
  {
    hide OneReward;
    RewardedMore(r, p.curators, p.beneficiaries, |p.beneficiaries|);
    RewardedPrefix(r, p.curators + p.beneficiaries, [Share(p.author, p.score)], |p.curators + p.beneficiaries|);
  }

  /** An account after TME has been turned into TSD for it as far as the print rate allows: as a reward, or at once. */
  ghost function Printed(
    accounts: Accounts, a: nat, tme: nat, reward: bool, feed: Option<Feed>, printRate: nat, now: nat,
    rate: nat): Accounts
    requires a in accounts && printRate <= PERCENT_100 && (feed.Some? ==> feed.value.tme > 0)
  {
    if feed.None? then Adjust(accounts, a, TME, tme, now, rate)
    else
      var printed := ToPrint(tme, printRate);
      var tsd, rest := Part(printed, feed.value.tsd, feed.value.tme), tme - printed;
      if reward then
        accounts[a := accounts[a].(tsdReward := accounts[a].tsdReward + tsd, tmeReward := accounts[a].tmeReward + rest)]
      else if tme == 0 then accounts
      else Adjust(Adjust(accounts, a, TSD, tsd, now, rate), a, TME, rest, now, rate)
  }

  /** The part of an amount that becomes TSD. */
  ghost function ToPrint(tme: nat, printRate: nat): (r: nat)
    requires printRate <= PERCENT_100
    ensures r <= tme
  {
    PartWithin(tme, printRate, PERCENT_100);
    Part(tme, printRate, PERCENT_100)
  }

  /**
   A payout has reached everybody: SCORE rewards are worth exactly what curators, beneficiaries and the author are
   given in SCORE, and the author alone gets what becomes of the rest.
   */
  ghost predicate PaidFor(
    before: Accounts, g: Globals, after: Accounts, p: CommentPay, feed: Option<Feed>, printRate: nat, now: nat,
    rate: nat)
  {
    var list := InScore(p);
    && after.Keys == before.Keys && p.author in before && Priced(g, true)
    && printRate <= PERCENT_100 && (feed.Some? ==> feed.value.tme > 0)
    && forall a :: a in before ==>
         var scored := before[a].(
           scoreReward := before[a].scoreReward + Bought(Rewards(before, g), list, a, |list|),
           scoreRewardTme := before[a].scoreRewardTme + Given(list, a, |list|));
         after[a] == if a == p.author
           then Printed(map[a := scored], a, p.tsd, true, feed, printRate, now, rate)[a] else scored
  }

  lemma {:induction false} AllPaidFor(
    before: Accounts, g: Globals, p: CommentPay, feed: Option<Feed>, printRate: nat, now: nat, rate: nat)
    requires Priced(g, true) && p.author in before
    requires printRate <= PERCENT_100 && (feed.Some? ==> feed.value.tme > 0)
    ensures var rewarded := Rewarded(Rewards(before, g), InScore(p), |InScore(p)|).accounts;
            PaidFor(before, g, Printed(rewarded, p.author, p.tsd, true, feed, printRate, now, rate), p, feed, printRate,
              now, rate)
  {
    hide Rewarded, Given, Bought, NewScore, Part, InScore;
    forall a | a in before {
      RewardedAt(Rewards(before, g), InScore(p), |InScore(p)|, a);
    }
  }

  function NewAccount(): (r: Account)
    ensures r.tme == r.tmeSavings == r.tmeReward == 0 && r.tsd == r.tsdSavings == r.tsdReward == 0
    ensures r.score == r.scoreReward == r.scoreRewardTme == 0
  {
    Account(0, 0, 0, 0, 0, 0, 0, 0, 0, Accrual(0, 0, 0), Accrual(0, 0, 0), 0)
  }

  /** Adjusting TME leaves an account's TSD alone. */
  lemma {:induction false} TmeOnly(accounts: Accounts, a: nat, d: int, now: nat, rate: nat)
    requires a in accounts
    ensures a in Adjust(accounts, a, TME, d, now, rate)
    ensures Adjust(accounts, a, TME, d, now, rate)[a].tsd == accounts[a].tsd
    ensures Interest(accounts[a], TME, false, now, rate) == 0
  {
  }

  /** Everything in an escrow is back with its sender. */
  ghost function Returned(accounts: Accounts, e: Escrow, now: nat, rate: nat): Accounts
  {
    var withTme := Adjust(accounts, e.from, TME, e.tme, now, rate);
    var withBoth := Adjust(withTme, e.from, TSD, e.tsd, now, rate);
    Adjust(withBoth, e.from, e.fee.symbol, e.fee.value, now, rate)
  }

  /** With this approval both sides have approved. */
  ghost predicate BothApprove(e: Escrow, who: nat)
  {
    (e.toApproved || who == e.to) && (e.agentApproved || who == e.agent)
  }

  ghost function Approved(e: Escrow, who: nat): (r: Escrow)
  {
    var f := e.(toApproved := e.toApproved || who == e.to, agentApproved := e.agentApproved || who == e.agent);
    if BothApprove(e, who) then f.(fee := Amount(e.fee.symbol, 0)) else f
  }

  /** The SCORE of every account. */
  function Stakes(accounts: Accounts): (r: map<nat, int>)
  {
    map a | a in accounts :: accounts[a].score
  }

  /** The same with more for one account. */
  function Raised(stakes: map<nat, int>, a: nat, v: int): map<nat, int>
  {
    if a in stakes then stakes[a := stakes[a] + v] else stakes
  }

  lemma {:induction false} StakesUpdate(accounts: Accounts, a: nat, acc: Account)
    ensures Stakes(accounts[a := acc]) == Stakes(accounts)[a := acc.score]
    ensures a in accounts ==> a in Stakes(accounts) && Stakes(accounts)[a] == accounts[a].score
    ensures a in accounts && acc.score == accounts[a].score ==> Stakes(accounts[a := acc]) == Stakes(accounts)
  {
    assert a in accounts && acc.score == accounts[a].score ==> Stakes(accounts)[a := acc.score] == Stakes(accounts);
  }

  lemma {:induction false} AdjustStakes(accounts: Accounts, a: nat, s: Symbol, d: int, now: nat, rate: nat)
    ensures Stakes(Adjust(accounts, a, s, d, now, rate)) == Stakes(accounts)
    ensures Stakes(AdjustInSavings(accounts, a, s, d, now, rate)) == Stakes(accounts)
  {
    hide Stakes, Accrue;
    if a in accounts {
      if d >= 0 || (if s == TME then accounts[a].tme else accounts[a].tsd) >= -d {
        StakesUpdate(accounts, a, Adjusted(accounts[a], s, d, now, rate));
      }
      if d >= 0 || (if s == TME then accounts[a].tmeSavings else accounts[a].tsdSavings) >= -d {
        StakesUpdate(accounts, a, AdjustedSavings(accounts[a], s, d, now, rate));
      }
    }
  }

  /** The stakes after the first n deposits, as far as they keep stake as stake. */
  ghost function WithDeposits(stakes: map<nat, int>, list: seq<Deposit>, n: nat): map<nat, int>
    requires n <= |list|
  {
    if n == 0 then stakes
    else
      var before := WithDeposits(stakes, list, n - 1);
      if list[n - 1].auto then Raised(before, list[n - 1].to, list[n - 1].score) else before
  }

  /** What the null account's SCORE and rewards take out of the funds behind them. */
  ghost function StakeValue(a: Account, g: Globals): nat
    requires a.score > 0 ==> Priced(g, false)
  {
    (if a.score > 0 then ScoreValue(g, a.score) else 0) + if a.scoreReward > 0 then a.scoreRewardTme else 0
  }

  lemma {:induction false} ValueSame(g: Globals, h: Globals, score: nat)
    requires SameFund(g, h)
    ensures Priced(g, false) <==> Priced(h, false)
    ensures Priced(g, false) ==> ScoreValue(g, score) == ScoreValue(h, score)
  {
  }

  // ---------- Steps that are due ----------

  ghost function Named(order: seq<(nat, nat)>): set<(nat, nat)>
  {
    set k | k in order
  }

  ghost predicate Once(order: seq<(nat, nat)>)
  {
    forall i, j :: 0 <= i < j < |order| ==> order[i] != order[j]
  }

  /** An order in which each of some keys comes once. */
  ghost predicate Lists(order: seq<(nat, nat)>, keys: set<(nat, nat)>)
  {
    Once(order) && Named(order) == keys
  }

  /** What is due has been done in this order, but for what is left to do. */
  ghost predicate Working(order: seq<(nat, nat)>, todo: set<(nat, nat)>, due: set<(nat, nat)>)
  {
    Once(order) && Named(order) !! todo && Named(order) + todo == due
  }

  lemma {:induction false} WorkStarts(due: set<(nat, nat)>)
    ensures Working([], due, due) && Named([]) == {}
  {
  }

  lemma {:induction false} WorkNext(order: seq<(nat, nat)>, todo: set<(nat, nat)>, due: set<(nat, nat)>, k: (nat, nat))
    requires Working(order, todo, due) && k in todo
    ensures k in due && k !in Named(order)
    ensures Working(order + [k], todo - {k}, due) && Named(order + [k]) == Named(order) + {k}
  {
  }

  lemma {:induction false} WorkDone(order: seq<(nat, nat)>, due: set<(nat, nat)>)
    requires Working(order, {}, due)
    ensures Lists(order, due) && Named(order) == due
  {
  }

  /** The accounts after some escrows have been returned one after the other. */
  ghost function AllReturned(
    accounts: Accounts, escrows: Escrows, order: seq<(nat, nat)>, now: nat, rate: nat): Accounts
    requires Named(order) <= escrows.Keys
  {
    if order == [] then accounts
    else
      var n := |order| - 1;
      assert Named(order[..n]) <= Named(order) && order[n] in Named(order);
      Returned(AllReturned(accounts, escrows, order[..n], now, rate), escrows[order[n]], now, rate)
  }

  lemma {:induction false} NoneReturned(accounts: Accounts, escrows: Escrows, now: nat, rate: nat)
    ensures AllReturned(accounts, escrows, [], now, rate) == accounts
  {
  }

  lemma {:induction false} ReturnedNext(
    accounts: Accounts, escrows: Escrows, order: seq<(nat, nat)>, k: (nat, nat), now: nat, rate: nat)
    requires Named(order) <= escrows.Keys && k in escrows
    ensures Named(order + [k]) <= escrows.Keys
    ensures AllReturned(accounts, escrows, order + [k], now, rate)
         == Returned(AllReturned(accounts, escrows, order, now, rate), escrows[k], now, rate)
  {
    assert (order + [k])[..|order|] == order;
  }

  /** What a conversion pays: its TSD at the median price, rounded down. */
  ghost function Issue(c: Conversion, f: Feed): nat
    requires f.tsd > 0
  {
    Part(c.tsd, f.tme, f.tsd)
  }

  ghost function AllConverted(
    accounts: Accounts, conversions: Conversions, order: seq<(nat, nat)>, f: Feed, now: nat, rate: nat): Accounts
    requires Named(order) <= conversions.Keys && f.tsd > 0
  {
    if order == [] then accounts
    else
      var n := |order| - 1;
      assert Named(order[..n]) <= Named(order) && order[n] in Named(order);
      var c := conversions[order[n]];
      Adjust(AllConverted(accounts, conversions, order[..n], f, now, rate), c.owner, TME, Issue(c, f), now, rate)
  }

  /** The TME that conversions make, and the TSD they take. */
  ghost function Issued(conversions: Conversions, order: seq<(nat, nat)>, f: Feed): nat
    requires Named(order) <= conversions.Keys && f.tsd > 0
  {
    if order == [] then 0
    else
      var n := |order| - 1;
      assert Named(order[..n]) <= Named(order) && order[n] in Named(order);
      Issued(conversions, order[..n], f) + Issue(conversions[order[n]], f)
  }

  ghost function Converted(conversions: Conversions, order: seq<(nat, nat)>): nat
    requires Named(order) <= conversions.Keys
  {
    if order == [] then 0
    else
      var n := |order| - 1;
      assert Named(order[..n]) <= Named(order) && order[n] in Named(order);
      Converted(conversions, order[..n]) + conversions[order[n]].tsd
  }

  lemma {:induction false} NoneConverted(accounts: Accounts, conversions: Conversions, f: Feed, now: nat, rate: nat)
    requires f.tsd > 0
    ensures AllConverted(accounts, conversions, [], f, now, rate) == accounts
    ensures Issued(conversions, [], f) == 0 == Converted(conversions, [])
  {
  }

  lemma {:induction false} ConvertedNext(
    accounts: Accounts, conversions: Conversions, order: seq<(nat, nat)>, k: (nat, nat), f: Feed, now: nat, rate: nat)
    requires Named(order) <= conversions.Keys && k in conversions && f.tsd > 0
    ensures Named(order + [k]) <= conversions.Keys
    ensures var c := conversions[k];
            && AllConverted(accounts, conversions, order + [k], f, now, rate)
               == Adjust(AllConverted(accounts, conversions, order, f, now, rate), c.owner, TME, Issue(c, f), now, rate)
            && Issued(conversions, order + [k], f) == Issued(conversions, order, f) + Issue(c, f)
            && Converted(conversions, order + [k]) == Converted(conversions, order) + c.tsd
  {
    assert (order + [k])[..|order|] == order;
  }

  /** A withdrawal from savings has been paid out. */
  ghost function Withdrawn(accounts: Accounts, t: Transfer, now: nat, rate: nat): Accounts
  {
    Recounted(Adjust(accounts, t.to, t.amount.symbol, t.amount.value, now, rate), t.from, -1)
  }

  ghost function AllWithdrawn(
    accounts: Accounts, transfers: Transfers, order: seq<(nat, nat)>, now: nat, rate: nat): Accounts
    requires Named(order) <= transfers.Keys
  {
    if order == [] then accounts
    else
      var n := |order| - 1;
      assert Named(order[..n]) <= Named(order) && order[n] in Named(order);
      Withdrawn(AllWithdrawn(accounts, transfers, order[..n], now, rate), transfers[order[n]], now, rate)
  }

  lemma {:induction false} NoneWithdrawn(accounts: Accounts, transfers: Transfers, now: nat, rate: nat)
    ensures AllWithdrawn(accounts, transfers, [], now, rate) == accounts
  {
  }

  lemma {:induction false} WithdrawnNext(
    accounts: Accounts, transfers: Transfers, order: seq<(nat, nat)>, k: (nat, nat), now: nat, rate: nat)
    requires Named(order) <= transfers.Keys && k in transfers
    ensures Named(order + [k]) <= transfers.Keys
    ensures AllWithdrawn(accounts, transfers, order + [k], now, rate)
         == Withdrawn(AllWithdrawn(accounts, transfers, order, now, rate), transfers[k], now, rate)
  {
    assert (order + [k])[..|order|] == order;
  }

  /** An escrow nobody may still approve. */
  ghost predicate Lapsed(e: Escrow, now: nat)
  {
    !(e.toApproved && e.agentApproved) && e.deadline <= now
  }

  datatype Release = Release(to: nat, agent: nat, who: nat, receiver: nat, tme: nat, tsd: nat)

  /**
   Before expiration each side may release only to the other,
   afterwards to either; in a dispute only the agent may.
   */
  ghost predicate MayRelease(e: Escrow, r: Release, now: nat)
  {
    && e.tme >= r.tme && e.tsd >= r.tsd && e.to == r.to && e.agent == r.agent
    && (r.receiver == e.from || r.receiver == e.to)
    && e.toApproved && e.agentApproved
    && (if e.disputed then r.who == e.agent
        else
          && (r.who == e.from || r.who == e.to)
          && (e.expiration > now ==> (if r.who == e.from then r.receiver == e.to else r.receiver == e.from)))
  }

  /** What is released is held, and goes to one of the two sides. */
  lemma {:induction false} ReleaseWithin(escrows: Escrows, k: (nat, nat), r: Release, now: nat)
    ensures k in escrows && MayRelease(escrows[k], r, now) ==>
      && r.tme <= escrows[k].tme && r.tsd <= escrows[k].tsd
      && (r.receiver == escrows[k].from || r.receiver == escrows[k].to)
      && escrows[k].toApproved && escrows[k].agentApproved
  {
  }

  /** The TME set aside that goes with claimed SCORE: all of it with the last, otherwise a share rounded down. */
  ghost function ClaimValue(a: Account, score: nat): (r: nat)
    requires score <= a.scoreReward
    ensures r <= a.scoreRewardTme && (score == a.scoreReward ==> r == a.scoreRewardTme)
  {
    if score == a.scoreReward then a.scoreRewardTme
    else
      PartWithin(a.scoreRewardTme, score, a.scoreReward);
      a.scoreRewardTme * score / a.scoreReward
  }

  ghost function Claimed(a: Account, score: nat): (r: Account)
    requires score <= a.scoreReward
  {
    a.(score := a.score + score, scoreReward := a.scoreReward - score,
      scoreRewardTme := a.scoreRewardTme - ClaimValue(a, score))
  }

  /** Rewards in coin have become liquid. */
  ghost function Liquidated(a: Account, tme: nat, tsd: nat, now: nat, rate: nat): (r: Account)
    requires tme <= a.tmeReward && tsd <= a.tsdReward
    ensures r.score == a.score && r.scoreReward == a.scoreReward && r.scoreRewardTme == a.scoreRewardTme
  {
    var taken := a.(tmeReward := a.tmeReward - tme, tsdReward := a.tsdReward - tsd);
    Adjusted(Adjusted(taken, TME, tme, now, rate), TSD, tsd, now, rate)
  }

  /** A claim has moved the rewards of one account into its balances, and changed nothing else. */
  ghost predicate ClaimedBy(
    before: Accounts, after: Accounts, a: nat, tme: nat, tsd: nat, score: nat, now: nat, rate: nat)
  {
    && a in before && tme <= before[a].tmeReward && tsd <= before[a].tsdReward && score <= before[a].scoreReward
    && after == before[a := Claimed(Liquidated(before[a], tme, tsd, now, rate), score)]
  }

  ghost function AdjustedReward(a: Account, s: Symbol, d: int): (r: Account)
    requires d >= 0 || (if s == TME then a.tmeReward else a.tsdReward) >= -d
  {
    if s == TME then a.(tmeReward := a.tmeReward + d) else a.(tsdReward := a.tsdReward + d)
  }

  /** An escrow is between accounts, and once both sides have approved it the fee has been paid. */
  ghost predicate EscrowOk(e: Escrow, names: set<nat>)
  {
    && e.from in names && e.to in names && e.agent in names
    && (e.toApproved && e.agentApproved ==> e.fee.value == 0)
  }

  // ---------- The price of SCORE ----------

  /** SCORE can be priced: the fund and the total are not negative, and for rewards the fund is not empty. */
  predicate Priced(g: Globals, reward: bool)
  {
    if reward then g.totalScore + g.pendingScore >= 0 && g.scoreFund + g.pendingTme > 0
    else g.totalScore >= 0 && g.scoreFund >= 0
  }

  /** What an amount of TME buys, rounded down; without a fund or a total the price is a thousand to one. */
  ghost function NewScore(g: Globals, tme: nat, reward: bool): (r: nat)
    requires Priced(g, reward)
  {
    if reward then Part(tme, g.totalScore + g.pendingScore, g.scoreFund + g.pendingTme)
    else if g.scoreFund == 0 || g.totalScore == 0 then Part(tme, 1000000, 1000)
    else Part(tme, g.totalScore, g.scoreFund)
  }

  /** What an amount of SCORE is worth, rounded down. */
  ghost function ScoreValue(g: Globals, score: nat): (r: nat)
    requires Priced(g, false)
  {
    if g.scoreFund == 0 || g.totalScore == 0 then Part(score, 1000, 1000000) else Part(score, g.scoreFund, g.totalScore)
  }

  /** So much TME for so much SCORE; one for a thousand while there is nothing of the one or the other. */
  ghost function Price(g: Globals): (int, int)
  {
    if g.scoreFund == 0 || g.totalScore == 0 then (1000, 1000000) else (g.scoreFund, g.totalScore)
  }

  /** New SCORE never dilutes the old by more than the last unit: it is the most that the price allows. */
  lemma {:induction false} BuysAtPrice(g: Globals, tme: nat, reward: bool)
    requires Priced(g, reward)
    ensures var made := NewScore(g, tme, reward);
            var (fund, total) :=
              if reward then (g.scoreFund + g.pendingTme, g.totalScore + g.pendingScore) else Price(g);
            made * fund <= tme * total < (made + 1) * fund
  {
    if reward {
      PartIs(tme, g.totalScore + g.pendingScore, g.scoreFund + g.pendingTme);
    } else if g.scoreFund == 0 || g.totalScore == 0 {
      PartIs(tme, 1000000, 1000);
    } else {
      PartIs(tme, g.totalScore, g.scoreFund);
    }
  }

  /** SCORE is paid out at the same price, rounded down. */
  lemma {:induction false} SellsAtPrice(g: Globals, score: nat)
    requires Priced(g, false)
    ensures var value := ScoreValue(g, score);
            var (fund, total) := Price(g);
            value * total <= score * fund < (value + 1) * total
  {
    if g.scoreFund == 0 || g.totalScore == 0 {
      PartIs(score, 1000, 1000000);
    } else {
      PartIs(score, g.scoreFund, g.totalScore);
    }
  }

  lemma {:induction false} PartOfNothing(b: nat, c: nat)
    requires c > 0
    ensures Part(0, b, c) == 0
  {
    assert 0 * b == 0;
  }

  ghost function WithScore(a: Account, tme: nat, made: nat, reward: bool): Account
  {
    if reward then a.(scoreReward := a.scoreReward + made, scoreRewardTme := a.scoreRewardTme + tme)
      else a.(score := a.score + made)
  }

  ghost function MoreScore(g: Globals, tme: nat, made: nat, reward: bool): Globals
  {
    if reward then g.(pendingScore := g.pendingScore + made, pendingTme := g.pendingTme + tme)
    else g.(scoreFund := g.scoreFund + tme, totalScore := g.totalScore + made)
  }
}
