/**
 One node: the votes, the ledger and the delegations together.  Each of the three keeps its own record of the SCORE
 of every account, which the program stores once; every operation moves all three alike, and every assertion of
 validate_invariants about the supplies and the votes holds in all states that operations and block steps lead to.
 */
module Nodes {
  import opened Common
  import opened Sums
  import opened Holders
  import Arithmetic
  import Portions
  import ProxyForest
  import VoteTallies
  import Voting
  import Ledger
  import Delegation
  import Market

  // ---------- One instalment, seen by each of the three ----------

  /** What each route of an account receives of an instalment. */
  function Parts(routes: seq<Delegation.Route>, w: nat): (r: seq<Ledger.Deposit>)
    ensures |r| == |routes|
  {
    seq(|routes|, i requires 0 <= i < |routes| =>
      Ledger.Deposit(routes[i].to, Delegation.Deposit(routes[i], w), routes[i].auto))
  }

  /** What each route receives as stake. */
  function StakeParts(routes: seq<Delegation.Route>, w: nat): (r: seq<(nat, nat)>)
    ensures |r| == |routes|
  {
    seq(|routes|, i requires 0 <= i < |routes| =>
      (routes[i].to, if routes[i].auto then Delegation.Deposit(routes[i], w) else 0))
  }

  /** What the routes of one kind receive together. */
  function Deposited(routes: seq<Delegation.Route>, w: nat, auto: bool): nat
  {
    Ledger.Deposited(Parts(routes, w), auto, |routes|)
  }

  lemma {:induction false} PartsAdd(routes: seq<Delegation.Route>, w: nat, auto: bool, n: nat)
    requires n <= |routes|
    ensures Ledger.Deposited(Parts(routes, w), auto, n) == Delegation.Deposits(routes, w, auto, n)
  {
    if n > 0 {
      PartsAdd(routes, w, auto, n - 1);
    }
  }

  lemma {:induction false} StakePartsAdd(routes: seq<Delegation.Route>, w: nat, n: nat)
    requires n <= |routes|
    ensures Voting.DepositTotal(StakeParts(routes, w)[..n]) == Delegation.Deposits(routes, w, true, n)
  {
    if n > 0 {
      StakePartsAdd(routes, w, n - 1);
      assert StakeParts(routes, w)[..n][..n - 1] == StakeParts(routes, w)[..n - 1];
    }
  }

  /** The stakes after the deposits are the same for the votes and for the ledger. */
  lemma {:induction false} CreditedParts(stake: map<nat, int>, routes: seq<Delegation.Route>, w: nat, n: nat)
    requires n <= |routes| && forall i :: 0 <= i < |routes| ==> routes[i].to in stake
    ensures forall i :: 0 <= i < n ==> StakeParts(routes, w)[..n][i].0 in stake
    ensures Voting.Credited(stake, StakeParts(routes, w)[..n]) == Ledger.WithDeposits(stake, Parts(routes, w), n)
  {
    hide Delegation.Deposit;
    if n > 0 {
      CreditedParts(stake, routes, w, n - 1);
      assert StakeParts(routes, w)[..n][..n - 1] == StakeParts(routes, w)[..n - 1];
    }
  }

  /** And for the delegations. */
  lemma {:induction false} DepositedScores(
    accounts: Delegation.Accounts, routes: seq<Delegation.Route>, w: nat, n: nat)
    requires n <= |routes| && forall r :: r in routes ==> r.to in accounts
    ensures Delegation.Scores(Delegation.AfterDeposits(accounts, routes, w, n))
      == Ledger.WithDeposits(Delegation.Scores(accounts), Parts(routes, w), n)
  {
    hide Delegation.Deposit, Delegation.Scores, Delegation.Raised, Ledger.Raised;
    if n > 0 {
      DepositedScores(accounts, routes, w, n - 1);
      var before := Delegation.AfterDeposits(accounts, routes, w, n - 1);
      RaisedScores(before, routes[n - 1].to, Delegation.Deposit(routes[n - 1], w));
    }
  }

  lemma {:induction false} RaisedScores(accounts: Delegation.Accounts, a: nat, v: nat)
    requires a in accounts
    ensures Delegation.Scores(Delegation.Raised(accounts, a, v)) == Ledger.Raised(Delegation.Scores(accounts), a, v)
  {
    ScoresUpdate(accounts, a, accounts[a].(score := accounts[a].score + v));
  }

  lemma {:induction false} ScoresUpdate(accounts: Delegation.Accounts, a: nat, acc: Delegation.Account)
    ensures Delegation.Scores(accounts[a := acc]) == Delegation.Scores(accounts)[a := acc.score]
    ensures a in accounts ==> a in Delegation.Scores(accounts) && Delegation.Scores(accounts)[a] == accounts[a].score
  {
  }

  lemma {:induction false} WithdrawnScores(
    accounts: Delegation.Accounts, loans: Delegation.Loans, due: seq<Delegation.Return>,
    routes: seq<Delegation.Route>, a: nat)
    requires Delegation.Balanced(accounts, loans, due) && a in accounts
    requires accounts[a].next.Some? && accounts[a].rate > 0 && forall r :: r in routes ==> r.to in accounts
    ensures var w := Delegation.Instalment(accounts[a]);
            Delegation.Scores(Delegation.Withdrawn(accounts, routes, a))
              == AfterInstalment(Delegation.Scores(accounts), routes, w, a)
  {
    hide Delegation.Balanced, Delegation.AfterDeposits, Delegation.Scores, Delegation.Instalment, Delegation.Paid;
    hide Ledger.WithDeposits, Delegation.SamePlans;
    var w := Delegation.Instalment(accounts[a]);
    var next := Delegation.AfterDeposits(accounts, routes, w, |routes|);
    DepositedScores(accounts, routes, w, |routes|);
    Delegation.DepositedKeeps(accounts, loans, due, routes, w, |routes|);
    Delegation.PaidAfterDeposits(next, accounts, loans, due, a);
    ScoresUpdate(next, a, Delegation.Paid(next[a]));
  }

  /** The new stakes that the votes, the ledger and the delegations compute for an instalment are the same. */
  lemma {:induction false} PartsFit(
    accounts: Delegation.Accounts, loans: Delegation.Loans, due: seq<Delegation.Return>,
    routes: seq<Delegation.Route>, a: nat)
    requires Delegation.Balanced(accounts, loans, due) && a in accounts
    requires accounts[a].next.Some? && accounts[a].rate > 0 && forall r :: r in routes ==> r.to in accounts
    requires Portions.Total(Delegation.Percents(routes)) <= Portions.PERCENT_100
    ensures var w, stake := Delegation.Instalment(accounts[a]), Delegation.Scores(accounts);
            && w <= accounts[a].score
            && (forall x :: x in Parts(routes, w) ==> x.to in accounts)
            && Deposited(routes, w, true) + Deposited(routes, w, false) <= w
            && (forall i :: 0 <= i < |routes| ==> StakeParts(routes, w)[i].0 in stake)
            && Voting.DepositTotal(StakeParts(routes, w)) == Deposited(routes, w, true)
            && Voting.Credited(stake, StakeParts(routes, w)) == Ledger.WithDeposits(stake, Parts(routes, w), |routes|)
            && Delegation.Scores(Delegation.Withdrawn(accounts, routes, a)) == AfterInstalment(stake, routes, w, a)
  {
    hide Delegation.Balanced, Delegation.Deposits, Delegation.Withdrawn, Ledger.Deposited, Ledger.WithDeposits;
    hide Voting.DepositTotal, Voting.Credited, Delegation.Percents, Portions.Total, Ledger.Raised;
    var w, stake := Delegation.Instalment(accounts[a]), Delegation.Scores(accounts);
    assert StakeParts(routes, w)[..|routes|] == StakeParts(routes, w);
    forall i | 0 <= i < |routes| ensures routes[i].to in stake {
      assert routes[i] in routes;
    }
    PartsAdd(routes, w, true, |routes|);
    PartsAdd(routes, w, false, |routes|);
    Delegation.DepositsWithin(routes, w);
    StakePartsAdd(routes, w, |routes|);
    CreditedParts(stake, routes, w, |routes|);
    WithdrawnScores(accounts, loans, due, routes, a);
  }

  /** Everybody's SCORE after an instalment of a. */
  ghost function AfterInstalment(stake: map<nat, int>, routes: seq<Delegation.Route>, w: nat, a: nat): map<nat, int>
  {
    Ledger.Raised(Ledger.WithDeposits(stake, Parts(routes, w), |routes|), a, Ledger.Neg(w))
  }

  // ---------- New accounts ----------

  const CREATE_ACCOUNT_DELEGATION_RATIO: nat := 2

  /** What a new account is lent and twice its fee, at the current price, come to no less than twice the least fee. */
  ghost predicate EnoughLent(g: Ledger.Globals, fee: nat, minFee: nat, lent: nat)
    requires Ledger.Priced(g, false)
  {
    Ledger.NewScore(g, fee * CREATE_ACCOUNT_DELEGATION_RATIO, false) + lent
      >= Ledger.NewScore(g, minFee * CREATE_ACCOUNT_DELEGATION_RATIO, false)
  }

  /** A fee that is accepted passes this test whatever is lent, so nothing ever has to be. */
  lemma {:induction false} AlwaysEnoughLent(g: Ledger.Globals, fee: nat, minFee: nat, lent: nat)
    requires Ledger.Priced(g, false) && fee >= minFee
    ensures EnoughLent(g, fee, minFee, lent)
  {
    var n, m := minFee * CREATE_ACCOUNT_DELEGATION_RATIO, fee * CREATE_ACCOUNT_DELEGATION_RATIO;
    if g.scoreFund == 0 || g.totalScore == 0 {
      PartRises(n, m, 1000000, 1000);
    } else {
      PartRises(n, m, g.totalScore, g.scoreFund);
    }
  }

  lemma {:induction false} PartRises(n: nat, m: nat, a: nat, b: nat)
    requires n <= m && b > 0
    ensures Portions.Part(n, a, b) <= Portions.Part(m, a, b)
  {
    Arithmetic.MulMono(n, m, a);
    Arithmetic.FloorMono(n * a, m * a, b);
  }

  // ---------- The node ----------

  const NULL_ACCOUNT: nat := 1

  datatype Operation =
    | Order(order: Market.Operation)
    | Money(transfer: Ledger.Operation)
    | Vote(vote: Voting.Operation)
    | Lend(loan: Delegation.Operation)
    | PowerUp(from: nat, to: nat, tme: nat)
    | Claim(a: nat, tme: nat, tsd: nat, score: nat)
    | Register(creator: nat, name: nat, fee: nat, minFee: nat, lent: nat, time: nat)
    | Produce(newTme: nat, list: seq<Ledger.Share>, producer: nat, weight: nat, factor: nat)
    | Instalment(a: nat)
    | Returns(time: nat)
    | ClearNull

  class Node {
    const voting: Voting.VotingDatabase
    const ledger: Ledger.LedgerDatabase
    const delegation: Delegation.DelegationDatabase
    const market: Market.MarketDatabase

    /** All three know the same SCORE of every account, and the same total. */
    ghost predicate Agrees()
      reads voting, ledger, delegation
    {
      && Ledger.Stakes(ledger.accounts) == voting.stake == Delegation.Scores(delegation.accounts)
      && ledger.gpo.totalScore == voting.totalScore
    }

    ghost predicate Valid()
      reads voting, ledger, delegation, market
    {
      && voting.Valid() && voting.Silent()
      && ledger.Valid() && market.ledger == ledger && market.Booked()
      && delegation.Valid() && delegation.Silent()
      && voting.nullAccount == delegation.nullAccount == NULL_ACCOUNT
      && Agrees()
    }

    /** Genesis: the miner, null and temp accounts, and `count` accounts with equal balances and stakes. */
    constructor (
      count: nat, initSupply: nat, stake: nat, maxDepth: nat, maxWitnesses: nat, maxVoted: nat, maxMiners: nat)
      requires count > 0 && 0 < maxWitnesses < 256 && maxVoted + maxMiners <= maxWitnesses
      ensures Valid() <==> initSupply % count == 0
      ensures fresh(voting) && fresh(ledger) && fresh(delegation) && fresh(market) && fresh(voting.shuffled)
    {
      hide Market.BooksOk, Market.Mirrors;
      hide Voting.VotingDatabase.Valid, Ledger.LedgerDatabase.Valid, Delegation.DelegationDatabase.Valid;
      hide Voting.VotingDatabase.Silent, Delegation.DelegationDatabase.Silent, Ledger.Stakes, Delegation.Scores;
      hide Ledger.GenesisAccounts, GenesisStake;
      var scores := map a: nat | 0 <= a < count + 3 :: GenesisStake(a, stake);
      var money := new Ledger.LedgerDatabase(count, initSupply, stake);
      ledger := money;
      delegation := new Delegation.DelegationDatabase(scores, scores.Keys, NULL_ACCOUNT);
      market := new Market.MarketDatabase(money);
      voting := new Voting.VotingDatabase(maxDepth, NULL_ACCOUNT, maxWitnesses, maxVoted, maxMiners);
      new;
      GenesisVotes(voting, count, stake);
      GenesisStakes(count, initSupply / count, stake);
      assert voting.stake == Ledger.Stakes(ledger.accounts);
      ScoresFrom(delegation.accounts, voting.stake);
    }

    lemma SameNames()
      requires Agrees()
      ensures ledger.accounts.Keys == voting.stake.Keys == delegation.accounts.Keys
      ensures forall a :: a in voting.stake ==>
        ledger.accounts[a].score == voting.stake[a] == delegation.accounts[a].score
    {
      assert Ledger.Stakes(ledger.accounts).Keys == ledger.accounts.Keys;
      assert Delegation.Scores(delegation.accounts).Keys == delegation.accounts.Keys;
      forall a | a in voting.stake
        ensures ledger.accounts[a].score == voting.stake[a] == delegation.accounts[a].score
      {
        assert Ledger.Stakes(ledger.accounts)[a] == Delegation.Scores(delegation.accounts)[a];
      }
    }

    /** New SCORE that the ledger has booked reaches the votes and the delegations. */
    method Spread(a: nat, v: nat)
      requires voting.Valid() && voting.Silent() && ledger.Valid() && delegation.Valid() && delegation.Silent()
      requires voting.nullAccount == delegation.nullAccount == NULL_ACCOUNT
      requires market.ledger == ledger && market.Booked()
      requires voting.stake == Delegation.Scores(delegation.accounts) && a in voting.stake
      requires Ledger.Stakes(ledger.accounts) == Ledger.Raised(voting.stake, a, v)
      requires ledger.gpo.totalScore == voting.totalScore + v
      modifies voting`stake, voting`proxied, voting`witnesses, voting`totalScore, delegation`accounts
      ensures Valid() && voting.stake == Ledger.Raised(old(voting.stake), a, v)
    {
      hide Market.BooksOk, Market.Mirrors;
      hide Voting.VotingDatabase.Valid, Ledger.LedgerDatabase.Valid, Delegation.Balanced, Delegation.RoutesOk;
      hide Delegation.Scores, Ledger.Stakes;
      ScoreNames(delegation.accounts);
      RaisedScores(delegation.accounts, a, v);
      voting.AddStake(a, v);
      delegation.AddScore(a, v);
    }

    method PowerUp(from: nat, to: nat, tme: nat) returns (ok: bool)
      requires Valid()
      modifies voting, ledger, delegation
      ensures Valid()
      ensures ok <==>
        && from in old(voting.stake) && to in old(voting.stake) && old(ledger.accounts)[from].tme >= tme
        && Ledger.Priced(old(ledger.gpo), false)
      ensures voting.stake ==
        if ok then Ledger.Raised(old(voting.stake), to, Ledger.NewScore(old(ledger.gpo), tme, false))
        else old(voting.stake)
      ensures ok ==>
        ledger.gpo == Ledger.MoreScore(old(ledger.gpo), tme, Ledger.NewScore(old(ledger.gpo), tme, false), false)
    {
      hide Market.BooksOk, Market.Mirrors;
      hide Voting.VotingDatabase.Valid, Ledger.LedgerDatabase.Valid, Delegation.DelegationDatabase.Valid;
      hide Delegation.Scores, Ledger.Stakes, Ledger.NewScore;
      SameNames();
      var before := ledger.gpo.totalScore;
      ok := ledger.TransferToScoreFund(from, to, tme);
      if ok {
        Spread(to, ledger.gpo.totalScore - before);
      }
    }

    /** A claimed reward: its SCORE starts to count. */
    method Claim(a: nat, tme: nat, tsd: nat, score: nat) returns (ok: bool)
      requires Valid()
      modifies voting, ledger, delegation
      ensures Valid()
      ensures ok <==>
        && a in old(voting.stake)
        && tme <= old(ledger.accounts)[a].tmeReward && tsd <= old(ledger.accounts)[a].tsdReward
        && score <= old(ledger.accounts)[a].scoreReward
      ensures voting.stake == if ok then Ledger.Raised(old(voting.stake), a, score) else old(voting.stake)
      ensures ok ==>
        Ledger.ClaimedBy(old(ledger.accounts), ledger.accounts, a, tme, tsd, score, ledger.now, ledger.rate)
    {
      hide Ledger.ClaimedBy;
      hide Market.BooksOk, Market.Mirrors;
      hide Voting.VotingDatabase.Valid, Ledger.LedgerDatabase.Valid, Delegation.DelegationDatabase.Valid;
      hide Delegation.Scores, Ledger.Stakes, Ledger.ClaimValue;
      SameNames();
      ok := ledger.ClaimReward(a, tme, tsd, score);
      if ok {
        Spread(a, score);
      }
    }

    /** The new TME of a block; the producer's part becomes stake. */
    method Produce(newTme: nat, list: seq<Ledger.Share>, producer: nat, weight: nat, factor: nat) returns (ok: bool)
      requires Valid() && producer in voting.stake && factor > 0 && forall x :: x in list ==> x.to in ledger.funds
      modifies voting, ledger, delegation
      ensures Valid() && (!ok ==> voting.stake == old(voting.stake))
      ensures voting.stake == Ledger.Raised(old(voting.stake), producer, voting.totalScore - old(voting.totalScore))
      ensures ok ==>
        Ledger.Inflated(old(ledger.accounts), old(ledger.funds), old(ledger.gpo), ledger.accounts, ledger.funds,
          ledger.gpo, newTme, list, producer, weight, factor)
      ensures ok <==> Ledger.MayInflate(old(ledger.gpo), newTme, list)
    {
      hide Ledger.Inflated, Ledger.MayInflate;
      hide Market.BooksOk, Market.Mirrors;
      hide Voting.VotingDatabase.Valid, Ledger.LedgerDatabase.Valid, Delegation.DelegationDatabase.Valid;
      hide Delegation.Scores, Ledger.Stakes;
      SameNames();
      var made;
      ok, made := ledger.ProcessFunds(newTme, list, producer, weight, factor);
      if ok {
        Spread(producer, made);
      }
    }

    /** A new account: its fee is its first stake, and its creator may lend it more; see AlwaysEnoughLent. */
    method Register(creator: nat, name: nat, fee: nat, minFee: nat, lent: nat, time: nat) returns (ok: bool)
      requires Valid() && creator != NULL_ACCOUNT
      modifies voting, ledger, delegation
      ensures Valid()
      ensures ok <==>
        && creator in old(voting.stake) && name !in old(voting.stake)
        && old(ledger.accounts)[creator].tme >= fee >= minFee && (fee > 0 ==> Ledger.Priced(old(ledger.gpo), false))
        && Delegation.Available(old(delegation.accounts)[creator]) >= lent
      ensures voting.stake ==
        if !ok then old(voting.stake)
        else old(voting.stake)[name := if fee > 0 then Ledger.NewScore(old(ledger.gpo), fee, false) else 0]
      ensures ok ==> Lends(old(delegation.accounts), delegation.accounts, creator, name, lent, voting.stake)
      ensures ok ==>
        delegation.loans == if lent == 0 then old(delegation.loans)
          else old(delegation.loans)[(creator, name) :=
            Delegation.Loan(lent, time + Delegation.CREATE_ACCOUNT_DELEGATION_TIME)]
    {
      hide Market.BooksOk, Market.Mirrors;
      hide Voting.VotingDatabase.Valid, Ledger.LedgerDatabase.Valid, Delegation.DelegationDatabase.Valid;
      hide Delegation.Scores, Ledger.Stakes, Delegation.Available, Ledger.NewScore, Ledger.Solvent;
      hide Voting.VotingDatabase.Silent, Delegation.DelegationDatabase.Silent;
      SameNames();
      ok := creator in delegation.accounts && Delegation.Available(delegation.accounts[creator]) >= lent;
      if !ok {
        return;
      }
      ok := ledger.CreateAccount(creator, name, fee, minFee);
      if !ok {
        return;
      }
      Ledger.StakesUpdate(old(ledger.accounts), name, ledger.accounts[name]);
      Admit(creator, name, lent, ledger.accounts[name].score, time);
    }

    /** An account that the ledger has opened becomes known to the votes and the delegations. */
    method Admit(creator: nat, name: nat, lent: nat, made: nat, time: nat)
      requires voting.Valid() && voting.Silent() && ledger.Valid() && delegation.Valid() && delegation.Silent()
      requires voting.nullAccount == delegation.nullAccount == NULL_ACCOUNT
      requires market.ledger == ledger && market.Booked()
      requires voting.stake == Delegation.Scores(delegation.accounts)
      requires creator != NULL_ACCOUNT && creator in delegation.accounts && name !in delegation.accounts
      requires Delegation.Available(delegation.accounts[creator]) >= lent
      requires Ledger.Stakes(ledger.accounts) == voting.stake[name := made]
      requires ledger.gpo.totalScore == voting.totalScore + made
      modifies voting, delegation
      ensures Valid() && voting.stake == old(voting.stake)[name := made]
      ensures Lends(old(delegation.accounts), delegation.accounts, creator, name, lent, voting.stake)
      ensures delegation.loans == if lent == 0 then old(delegation.loans)
        else old(delegation.loans)[(creator, name) :=
          Delegation.Loan(lent, time + Delegation.CREATE_ACCOUNT_DELEGATION_TIME)]
    {
      hide Market.BooksOk, Market.Mirrors;
      hide Voting.VotingDatabase.Valid, Ledger.LedgerDatabase.Valid, Delegation.DelegationDatabase.Valid;
      hide Delegation.Scores, Ledger.Stakes, Delegation.Available, Delegation.WithAccount, Delegation.AmountAt;
      hide Delegation.DelegationDatabase.Silent, Lends;
      ScoreNames(delegation.accounts);
      CreatedScores(delegation.accounts, creator, name, lent, made);
      var _ := delegation.CreateAccount(creator, name, lent, made, time);
      var _ := voting.CreateAccount(name);
      voting.AddStake(name, made);
      LendsIs(old(delegation.accounts), creator, name, lent, made, voting.stake);
    }

    /** No witness has more votes than there is SCORE while the deposits are already counted and the rest still is. */
    ghost predicate Payable(routes: seq<Delegation.Route>, w: nat)
      reads voting
    {
      forall x :: x in voting.witnesses ==>
        voting.witnesses[x].votes
          + Voting.Arriving(voting.maxDepth, voting.proxy, voting.ballots, StakeParts(routes, w), x)
          <= voting.totalScore
    }

    /** One instalment of a power-down.  It is refused if a witness would for a moment have too many votes. */
    method PayInstalment(a: nat) returns (ok: bool)
      requires Valid() && a in delegation.accounts && delegation.accounts[a].next.Some?
      modifies voting, ledger, delegation
      ensures Valid()
      ensures !ok ==>
        && voting.stake == old(voting.stake) && ledger.accounts == old(ledger.accounts)
        && delegation.accounts == old(delegation.accounts)
      ensures a in delegation.routes && old(delegation.accounts)[a].rate > 0
      ensures var w := Delegation.Instalment(old(delegation.accounts)[a]);
              && (Ledger.Solvent(old(ledger.gpo)) ==> (ok <==> old(Payable(delegation.routes[a], w))))
              && (ok ==> voting.stake == AfterInstalment(old(voting.stake), delegation.routes[a], w, a))
              && (ok ==> Ledger.PaidOut(old(ledger.accounts), old(ledger.gpo), ledger.accounts, ledger.gpo, a, w,
                Parts(delegation.routes[a], w)))
      ensures ok ==> Delegation.PaysFrom(old(delegation.accounts), delegation.accounts, delegation.routes[a], a)
    {
      hide Voting.VotingDatabase.Valid, Voting.VotingDatabase.Silent, Ledger.LedgerDatabase.Valid;
      hide Delegation.Balanced, Delegation.RoutesOk, Delegation.DelegationDatabase.Silent, Delegation.Covered;
      hide Delegation.Scores, Ledger.Stakes, Delegation.Withdrawn, AfterInstalment, Ledger.Deposited, Voting.Credited;
      hide Ledger.PaidOut, Delegation.PaysFrom;
      hide Voting.DepositTotal, Node.Payable, Delegation.Instalment, Delegation.Deposits, Delegation.TotalScore;
      SameNames();
      Delegation.AccountCovered(delegation.accounts, delegation.loans, delegation.due, a);
      Delegation.RoutesLead(delegation.routes, delegation.accounts.Keys, a);
      var routes := delegation.routes[a];
      var w := Delegation.Instalment(delegation.accounts[a]);
      PartsFit(delegation.accounts, delegation.loans, delegation.due, routes, a);
      ok := PayOut(a, w, routes);
      if ok {
        var _, _, _, _ := delegation.PayInstalment(a);
      }
    }

    /** The votes and the ledger pay an instalment, or neither does. */
    method PayOut(a: nat, w: nat, routes: seq<Delegation.Route>) returns (ok: bool)
      requires voting.Valid() && voting.Silent() && ledger.Valid()
      requires voting.stake == Ledger.Stakes(ledger.accounts) && voting.totalScore == ledger.gpo.totalScore
      requires a in ledger.accounts && a in voting.stake && w <= ledger.accounts[a].score && w <= voting.stake[a]
      requires forall x :: x in Parts(routes, w) ==> x.to in ledger.accounts
      requires Deposited(routes, w, true) + Deposited(routes, w, false) <= w
      requires forall i :: 0 <= i < |routes| ==> StakeParts(routes, w)[i].0 in voting.stake
      requires Voting.DepositTotal(StakeParts(routes, w)) == Deposited(routes, w, true)
      requires Voting.Credited(voting.stake, StakeParts(routes, w))
        == Ledger.WithDeposits(voting.stake, Parts(routes, w), |routes|)
      modifies voting`stake, voting`proxied, voting`witnesses, voting`totalScore, ledger`accounts, ledger`gpo
      ensures voting.Valid() && voting.Silent() && ledger.Valid()
      ensures voting.stake == Ledger.Stakes(ledger.accounts) && voting.totalScore == ledger.gpo.totalScore
      ensures !ok ==> voting.stake == old(voting.stake) && ledger.accounts == old(ledger.accounts)
      ensures ok ==> voting.stake == AfterInstalment(old(voting.stake), routes, w, a)
      ensures ok ==>
        Ledger.PaidOut(old(ledger.accounts), old(ledger.gpo), ledger.accounts, ledger.gpo, a, w, Parts(routes, w))
      ensures Ledger.Solvent(old(ledger.gpo)) ==> (ok <==> old(Payable(routes, w)))
    {
      hide Voting.Objects, ProxyForest.Acyclic, VoteTallies.ArraysOk, Voting.WitnessesOk, Sum;
      hide Ledger.LedgerDatabase.Valid, Ledger.Stakes, Ledger.WithDeposits, Voting.Credited, Ledger.Deposited;
      hide Ledger.PaidOut;
      hide Voting.DepositTotal, Voting.Arriving;
      var stake0, proxied0, witnesses0, total0 := voting.stake, voting.proxied, voting.witnesses, voting.totalScore;
      ok := voting.PowerDown(a, w, StakeParts(routes, w));
      if !ok {
        return;
      }
      ok := ledger.Withdraw(a, w, Parts(routes, w));
      if !ok {
        voting.stake, voting.proxied, voting.witnesses, voting.totalScore := stake0, proxied0, witnesses0, total0;
      }
    }

    /** Whatever has reached the null account is destroyed, its stake included. */
    method ClearNull() returns (ok: bool)
      requires Valid() && NULL_ACCOUNT in voting.stake
      modifies voting, ledger, delegation
      ensures Valid()
      ensures ok <==> (old(voting.stake)[NULL_ACCOUNT] > 0 ==> Ledger.Priced(old(ledger.gpo), false))
      ensures voting.stake == if ok then old(voting.stake)[NULL_ACCOUNT := 0] else old(voting.stake)
    {
      hide Market.BooksOk, Market.Mirrors;
      hide Voting.VotingDatabase.Valid, Ledger.LedgerDatabase.Valid, Delegation.DelegationDatabase.Valid;
      hide Delegation.Scores, Ledger.Stakes;
      SameNames();
      ok := ledger.ClearNull(NULL_ACCOUNT);
      if ok {
        ScoresUpdate(delegation.accounts, NULL_ACCOUNT, delegation.accounts[NULL_ACCOUNT].(score := 0));
        voting.ClearNull();
        delegation.ClearStake(NULL_ACCOUNT);
      }
    }

    /** Lent stake whose time has come goes back; nobody's SCORE changes. */
    method ExpireReturns(time: nat)
      requires Valid()
      modifies delegation
      ensures Valid() && delegation.due == Delegation.Kept(old(delegation.due), time)
      ensures Delegation.Released(old(delegation.accounts), delegation.accounts, old(delegation.due), delegation.due)
    {
      hide Market.BooksOk, Market.Mirrors;
      hide Voting.VotingDatabase.Valid, Ledger.LedgerDatabase.Valid, Delegation.Balanced, Delegation.RoutesOk;
      hide Delegation.Scores, Ledger.Stakes;
      ghost var before := delegation.accounts;
      if NULL_ACCOUNT in before {
        Delegation.AccountCovered(before, delegation.loans, delegation.due, NULL_ACCOUNT);
      }
      delegation.ExpireReturns(time);
      Delegation.ScoresKept(before, delegation.accounts);
    }

    /** One operation of a transaction, or one step of a block. */
    method Apply(op: Operation)
      requires Valid()
      modifies voting, voting.shuffled, ledger, delegation, market
      ensures Valid()
    {
      hide Market.BooksOk, Market.Mirrors;
      hide Voting.VotingDatabase.Valid, Ledger.LedgerDatabase.Valid, Delegation.DelegationDatabase.Valid;
      hide Voting.VotingDatabase.Silent, Delegation.DelegationDatabase.Silent, Delegation.Scores, Ledger.Stakes;
      hide Market.MarketDatabase.Booked, Ledger.Priced, Ledger.Raised, Node.Payable, Delegation.Instalment,
        AfterInstalment, Delegation.Available, Ledger.NewScore;
      SameNames();
      match op {
        case Order(order) =>
          market.Apply(order);
        case Money(transfer) =>
          if Ledger.Still(transfer) && !Ledger.Trading(transfer) {
            ledger.Apply(transfer);
          }
        case Vote(vote) =>
          if !Voting.MovesStake(vote) {
            voting.Apply(vote);
          }
        case Lend(loan) =>
          if loan.Delegate? || loan.Withdraw? || loan.SetRoute? {
            delegation.Apply(loan);
          }
        case Returns(time) =>
          ExpireReturns(time);
        case _ =>
          MoveStake(op);
      }
    }

    /** The operations and steps that change somebody's SCORE. */
    method MoveStake(op: Operation)
      requires Valid()
      modifies voting, ledger, delegation
      ensures Valid()
    {
      hide Market.BooksOk, Market.Mirrors;
      hide Voting.VotingDatabase.Valid, Ledger.LedgerDatabase.Valid, Delegation.DelegationDatabase.Valid;
      hide Voting.VotingDatabase.Silent, Delegation.DelegationDatabase.Silent, Delegation.Scores, Ledger.Stakes;
      hide Market.MarketDatabase.Booked, Ledger.Priced, Ledger.Raised, Node.Payable, Delegation.Instalment,
        AfterInstalment, Delegation.Available, Ledger.NewScore, Lends, Ledger.Inflated, Ledger.ClaimedBy;
      match op {
        case PowerUp(from, to, tme) =>
          var _ := PowerUp(from, to, tme);
        case Claim(a, tme, tsd, score) =>
          var _ := Claim(a, tme, tsd, score);
        case Register(creator, name, fee, minFee, lent, time) =>
          if creator != NULL_ACCOUNT {
            var _ := Register(creator, name, fee, minFee, lent, time);
          }
        case Produce(newTme, list, producer, weight, factor) =>
          if producer in voting.stake && factor > 0 && forall x :: x in list ==> x.to in ledger.funds {
            var _ := Produce(newTme, list, producer, weight, factor);
          }
        case Instalment(a) =>
          if a in delegation.accounts && delegation.accounts[a].next.Some? {
            var _ := PayInstalment(a);
          }
        case ClearNull =>
          if NULL_ACCOUNT in voting.stake {
            var _ := ClearNull();
          }
        case _ =>
      }
    }

    /** What validate_invariants asserts about the supplies and the votes, and that nobody promises stake twice. */
    ghost predicate Sound()
      reads voting, ledger, delegation
    {
      && ledger.gpo.supply == Ledger.HeldTme(ledger.accounts, ledger.sales, ledger.escrows, ledger.transfers,
        ledger.funds, ledger.gpo)
      && ledger.gpo.tsdSupply == Ledger.HeldTsd(ledger.accounts, ledger.sales, ledger.conversions, ledger.escrows,
        ledger.transfers)
      && ledger.gpo.totalScore + ledger.gpo.pendingScore
        == SumOf(ledger.accounts, Ledger.AccountScore) + SumOf(ledger.accounts, Ledger.AccountReward)
      && ledger.gpo.pendingTme == SumOf(ledger.accounts, Ledger.AccountPending)
      && (forall w :: w in voting.witnesses ==> 0 <= voting.witnesses[w].votes <= ledger.gpo.totalScore)
      && (exists shares: map<nat, int> :: VoteShares(shares) && Sum(shares) == ledger.gpo.totalScore)
      && (forall a :: a in ledger.accounts ==>
            && a in delegation.accounts && 0 <= Delegation.Available(delegation.accounts[a])
            && delegation.accounts[a].score == ledger.accounts[a].score)
    }

    /** The votes that each account stands for, from the stored arrays. */
    ghost predicate VoteShares(shares: map<nat, int>)
      reads voting
    {
      && shares.Keys == voting.stake.Keys
      && forall a :: a in shares ==>
           a in voting.proxied && |voting.proxied[a]| == voting.maxDepth && shares[a] == voting.StoredShare(a)
    }

    lemma ValidateInvariants()
      requires Valid()
      ensures Sound()
    {
      hide Ledger.LedgerDatabase.Refs, Ledger.HeldTme, Ledger.HeldTsd, SumOf, Sum, Delegation.RoutesOk, Voting.Objects;
      hide Ledger.Stakes, Delegation.Scores, Delegation.Balanced, Voting.WitnessesOk;
      SameNames();
      SharesExist();
      forall a | a in delegation.accounts ensures Delegation.Covered(delegation.accounts[a]) {
        Delegation.AccountCovered(delegation.accounts, delegation.loans, delegation.due, a);
      }
    }

    lemma SharesExist()
      requires voting.Valid()
      ensures exists shares: map<nat, int> :: VoteShares(shares) && Sum(shares) == voting.totalScore
      ensures forall w :: w in voting.witnesses ==> 0 <= voting.witnesses[w].votes <= voting.totalScore
    {
      forall a | a in voting.stake ensures a in voting.proxied && |voting.proxied[a]| == voting.maxDepth {
      }
      var shares := map a | a in voting.stake :: voting.StoredShare(a);
      voting.ValidateInvariants(shares);
      assert VoteShares(shares);
    }

    /**
     Any sequence of operations and block steps, whatever each of them answers: all three records stay in step, and
     every assertion about supplies and votes holds at the end.
     */
    method Run(operations: seq<Operation>)
      requires Valid()
      modifies voting, voting.shuffled, ledger, delegation, market
      ensures Valid() && Sound()
    {
      hide Node.Valid, Node.Sound;
      for i := 0 to |operations|
        invariant Valid()
      {
        Apply(operations[i]);
      }
      ValidateInvariants();
    }
  }

  /** The creator has lent the new account stake. */
  ghost predicate Lends(
    before: Delegation.Accounts, after: Delegation.Accounts, creator: nat, name: nat, lent: nat,
    stake: map<nat, int>)
  {
    && creator in before && name !in before && name in stake && stake[name] >= 0
    && after == Delegation.WithAccount(before, creator, name, lent, stake[name])
  }

  lemma {:induction false} LendsIs(
    before: Delegation.Accounts, creator: nat, name: nat, lent: nat, made: nat, stake: map<nat, int>)
    requires creator in before && name !in before && name in stake && stake[name] == made
    ensures Lends(before, Delegation.WithAccount(before, creator, name, lent, made), creator, name, lent, stake)
  {
  }

  lemma {:induction false} ScoresFrom(accounts: Delegation.Accounts, stake: map<nat, int>)
    requires accounts.Keys == stake.Keys && forall a :: a in stake ==> accounts[a].score == stake[a]
    ensures Delegation.Scores(accounts) == stake
  {
  }

  lemma {:induction false} ScoreNames(accounts: Delegation.Accounts)
    ensures Delegation.Scores(accounts).Keys == accounts.Keys
  {
  }

  /** The accounts of genesis, as the votes see them. */
  method GenesisVotes(voting: Voting.VotingDatabase, count: nat, stake: nat)
    requires voting.Valid() && voting.Silent() && voting.stake == map[] && voting.totalScore == 0
    modifies voting
    ensures voting.Valid() && voting.Silent()
    ensures forall a :: a in voting.stake <==> 0 <= a < count + 3
    ensures forall a :: a in voting.stake ==> voting.stake[a] == GenesisStake(a, stake)
    ensures voting.totalScore == stake * count
  {
    hide Voting.VotingDatabase.Valid;
    for i := 0 to count + 3
      invariant voting.Valid() && voting.Silent()
      invariant forall a :: a in voting.stake <==> 0 <= a < i
      invariant forall a :: a in voting.stake ==> voting.stake[a] == GenesisStake(a, stake)
      invariant voting.totalScore == GenesisTotal(i, stake)
    {
      GenesisTotals(i, stake);
      var _ := voting.CreateAccount(i);
      voting.AddStake(i, GenesisStake(i, stake));
    }
    assert stake * count == count * stake;
  }

  ghost function GenesisTotal(i: nat, stake: nat): nat
  {
    if i < 3 then 0 else (i - 3) * stake
  }

  lemma {:induction false} GenesisTotals(i: nat, stake: nat)
    ensures GenesisTotal(i + 1, stake) == GenesisTotal(i, stake) + GenesisStake(i, stake)
  {
    if i >= 3 {
      assert (i - 2) * stake == (i - 3) * stake + stake;
    } else if i == 2 {
      assert 0 * stake == 0;
    }
  }

  function GenesisStake(a: nat, stake: nat): nat
  {
    if a < 3 then 0 else stake
  }

  lemma {:induction false} GenesisStakes(count: nat, tme: nat, stake: nat)
    ensures var stakes := Ledger.Stakes(Ledger.GenesisAccounts(count, tme, stake));
            forall a: nat :: (a in stakes <==> a < count + 3) && (a in stakes ==> stakes[a] == GenesisStake(a, stake))
  {
    if count > 0 {
      GenesisStakes(count - 1, tme, stake);
      var before := Ledger.GenesisAccounts(count - 1, tme, stake);
      Ledger.StakesUpdate(before, count + 2, Ledger.NewAccount().(tme := tme, score := stake));
    }
  }

  lemma {:induction false} CreatedScores(accounts: Delegation.Accounts, creator: nat, name: nat, lent: nat, stake: nat)
    requires creator in accounts && name !in accounts
    ensures var after := Delegation.WithAccount(accounts, creator, name, lent, stake);
            && Delegation.Scores(after) == Delegation.Scores(accounts)[name := stake]
            && forall a :: a in after && a != creator && a != name ==> after[a] == accounts[a]
  {
  }
}
