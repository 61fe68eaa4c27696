/**
 Powering down and delegating stake.  An account may lend stake to others and be withdrawing part of its own at
 the same time; it never promises the same stake twice.
 */
module Delegation {
  import opened Common
  import opened Arithmetic
  import opened Portions
  import opened Sums

  const WITHDRAW_INTERVALS: nat := 4
  const WITHDRAW_INTERVAL_SECONDS: nat := 60 * 60 * 24 * 7
  const MAX_ROUTES: nat := 10
  const CASHOUT_WINDOW: nat := 60 * 60 * 24 * 7
  const CREATE_ACCOUNT_DELEGATION_TIME: nat := 60 * 60 * 24

  datatype Account = Account(
    score: nat,            // SCORE
    delegated: nat,        // SCOREDelegated
    received: nat,         // SCOREreceived
    toWithdraw: nat,
    withdrawn: nat,
    rate: nat,             // SCOREwithdrawRateInTME
    next: Option<nat>,     // nextSCOREwithdrawalTime
    mined: bool)

  /** What is still to be withdrawn. */
  function Pending(a: Account): int
  {
    a.toWithdraw - a.withdrawn
  }

  /**
   The stake that is not lent covers what is still to be withdrawn; a power-down in progress has paid whole
   instalments, and one that is over has paid everything.
   */
  ghost predicate Covered(a: Account)
  {
    && a.withdrawn <= a.toWithdraw
    && a.delegated + Pending(a) <= a.score
    && (if a.next.Some? then a.rate > 0 && a.withdrawn < a.toWithdraw && a.withdrawn % a.rate == 0
        else a.rate == 0 && a.withdrawn == a.toWithdraw)
  }

  function Min(a: nat, b: nat): nat { if a < b then a else b }

  /** The next instalment. */
  function Instalment(a: Account): (w: nat)
    requires a.rate > 0
  {
    if Pending(a) < a.rate then Min(a.score, a.toWithdraw % a.rate) else Min(a.score, a.rate)
  }

  /** An account after it has paid an instalment. */
  function Paid(a: Account): (r: Account)
    requires a.rate > 0 && a.next.Some?
  {
    var w := Instalment(a);
    if w > a.score then a
    else
      var b := a.(score := a.score - w, withdrawn := a.withdrawn + w);
      if b.withdrawn >= b.toWithdraw || b.score == 0 then b.(rate := 0, next := None)
      else b.(next := Some(a.next.value + WITHDRAW_INTERVAL_SECONDS))
  }

  lemma {:induction false} ModuloOfRest(total: nat, done: nat, rate: nat)
    requires rate > 0 && done <= total && done % rate == 0 && total - done < rate
    ensures total % rate == total - done
  {
    var q := done / rate;
    DivMod(done, rate);
    Distribute(q, 1, rate);
    FloorAtLeast(total, rate, q);
    FloorAtLeast(total, rate, q + 1);
    DivMod(total, rate);
  }

  lemma {:induction false} NextMultiple(done: nat, rate: nat)
    requires rate > 0 && done % rate == 0
    ensures (done + rate) % rate == 0
  {
    FloorShift(done, 1, rate);
    DivMod(done, rate);
    DivMod(done + rate, rate);
    Distribute(done / rate, 1, rate);
  }

  /** An instalment is the rate or what is left, comes out of stake that is not lent, and leaves the account covered. */
  lemma {:induction false} PaidKeeps(a: Account)
    requires Covered(a) && a.next.Some?
    ensures var b := Paid(a);
            && Instalment(a) == Min(a.rate, Pending(a)) > 0
            && Covered(b) && b.score == a.score - Instalment(a) && b.withdrawn == a.withdrawn + Instalment(a)
            && b.delegated == a.delegated && b.toWithdraw == a.toWithdraw
            && (b.next.None? <==> Pending(a) <= a.rate)
            && (b.next.Some? ==> b.rate == a.rate && b.next == Some(a.next.value + WITHDRAW_INTERVAL_SECONDS))
  {
    if Pending(a) < a.rate {
      ModuloOfRest(a.toWithdraw, a.withdrawn, a.rate);
    } else {
      NextMultiple(a.withdrawn, a.rate);
    }
  }

  /** k instalments without interruption. */
  ghost function Instalments(a: Account, k: nat): (r: Account)
    requires Covered(a)
    decreases k
  {
    if k == 0 || a.next.None? then a
    else
      PaidKeeps(a);
      Instalments(Paid(a), k - 1)
  }

  /**
   A power-down that is not interrupted pays exactly what was asked: after k instalments k times the rate or
   everything, and it is over after as many as the amount divided by the rate, rounded up.
   */
  lemma {:induction false} PowerDownPays(a: Account, k: nat)
    requires Covered(a) && a.next.Some?
    ensures var b := Instalments(a, k);
            && b.withdrawn - a.withdrawn == Min(k * a.rate, Pending(a)) == a.score - b.score
            && (b.next.None? <==> k >= (Pending(a) + a.rate - 1) / a.rate)
    decreases k
  {
    hide Paid, Instalment;
    FloorAtLeast(Pending(a) + a.rate - 1, a.rate, 1);
    FloorAtLeast(Pending(a) + a.rate - 1, a.rate, 2);
    if k == 0 {
      assert 0 * a.rate == 0;
    } else {
      PaidKeeps(a);
      var b := Paid(a);
      assert k * a.rate == (k - 1) * a.rate + a.rate;
      MulMono(0, k - 1, a.rate);
      if b.next.Some? {
        PowerDownPays(b, k - 1);
        FloorShift(Pending(b) + a.rate - 1, 1, a.rate);
      }
    }
  }

  // ---------- Sums of what is lent ----------

  /** Stake on its way back to a delegator. */
  datatype Return = Return(delegator: nat, amount: nat, expiration: nat)

  ghost function Returning(due: seq<Return>, a: nat): (r: nat)
  {
    if due == [] then 0
    else Returning(due[..|due| - 1], a) + if due[|due| - 1].delegator == a then due[|due| - 1].amount else 0
  }

  lemma {:induction false} ReturningSplit(s: seq<Return>, t: seq<Return>, a: nat)
    ensures Returning(s + t, a) == Returning(s, a) + Returning(t, a)
    decreases |t|
  {
    if t == [] {
      assert s + t == s;
    } else {
      var n := |t| - 1;
      ReturningSplit(s, t[..n], a);
      assert (s + t)[..|s| + n] == s + t[..n];
    }
  }

  lemma {:induction false} ReturningWithout(s: seq<Return>, k: nat, a: nat)
    requires k < |s|
    ensures Returning(s, a) == Returning(s[..k] + s[k + 1..], a) + if s[k].delegator == a then s[k].amount else 0
  {
    assert s == s[..k] + ([s[k]] + s[k + 1..]);
    ReturningSplit(s[..k], [s[k]] + s[k + 1..], a);
    ReturningSplit([s[k]], s[k + 1..], a);
    ReturningSplit(s[..k], s[k + 1..], a);
    assert [s[k]][..0] == [];
  }

  /** The returns whose time has not come. */
  function Kept(due: seq<Return>, now: nat): (r: seq<Return>)
  {
    if due == [] then []
    else Kept(due[..|due| - 1], now) + if due[|due| - 1].expiration >= now then [due[|due| - 1]] else []
  }

  lemma {:induction false} KeptNone(due: seq<Return>, now: nat)
    ensures Kept(due[..0], now) == [] && due[0..] == due
  {
  }

  lemma {:induction false} KeptNext(due: seq<Return>, n: nat, now: nat)
    requires n < |due|
    ensures Kept(due[..n + 1], now) == Kept(due[..n], now) + if due[n].expiration >= now then [due[n]] else []
  {
    assert due[..n + 1][..n] == due[..n];
  }

  /** What is on its way back to an account and does not arrive before a time. */
  ghost function Held(due: seq<Return>, a: nat, time: nat): nat
  {
    Returning(Kept(due, time), a)
  }

  lemma {:induction false} HeldWithin(due: seq<Return>, a: nat, time: nat)
    ensures Held(due, a, time) <= Returning(due, a)
  {
    if due != [] {
      var n := |due| - 1;
      HeldWithin(due[..n], a, time);
      if due[n].expiration >= time {
        ReturningSplit(Kept(due[..n], time), [due[n]], a);
        ReturningOne(due[n], a);
      } else {
        assert Kept(due, time) == Kept(due[..n], time);
      }
    }
  }

  /** What does not arrive before a time is still there after everything due earlier has been returned. */
  lemma {:induction false} KeptKept(due: seq<Return>, now: nat, time: nat)
    requires now <= time
    ensures Kept(Kept(due, now), time) == Kept(due, time)
  {
    if due != [] {
      var n := |due| - 1;
      KeptKept(due[..n], now, time);
      if due[n].expiration >= now {
        var kept := Kept(due[..n], now) + [due[n]];
        assert kept[..|kept| - 1] == Kept(due[..n], now);
      } else {
        assert Kept(due, now) == Kept(due[..n], now);
      }
    }
  }

  lemma {:induction false} KeptMore(due: seq<Return>, more: seq<Return>, time: nat)
    requires |more| <= 1
    ensures Kept(due + more, time) == Kept(due, time) + Kept(more, time)
  {
    if more == [] {
      assert due + more == due;
    } else {
      KeptNext(due + more, |due|, time);
      assert (due + more)[..|due|] == due && (due + more)[..|due| + 1] == due + more;
      assert more[..0] == [];
    }
  }

  lemma {:induction false} HeldMore(due: seq<Return>, more: seq<Return>)
    requires |more| <= 1
    ensures forall a, time :: Held(due + more, a, time) >= Held(due, a, time)
  {
    forall a, time ensures Held(due + more, a, time) >= Held(due, a, time) {
      KeptMore(due, more, time);
      ReturningSplit(Kept(due, time), Kept(more, time), a);
    }
  }

  lemma {:induction false} HeldStays(due: seq<Return>, now: nat)
    ensures forall a, time :: now <= time ==> Held(Kept(due, now), a, time) == Held(due, a, time)
  {
    forall a, time | now <= time ensures Held(Kept(due, now), a, time) == Held(due, a, time) {
      KeptKept(due, now, time);
    }
  }

  datatype Loan = Loan(amount: nat, until: nat)

  type Loans = map<(nat, nat), Loan>   // by delegator and delegatee

  ghost function OutMap(loans: Loans, a: nat): map<(nat, nat), int>
  {
    map k | k in loans :: if k.0 == a then loans[k].amount else 0
  }

  ghost function InMap(loans: Loans, a: nat): map<(nat, nat), int>
  {
    map k | k in loans :: if k.1 == a then loans[k].amount else 0
  }

  /** What an account lends, and what it has been lent. */
  ghost function Lent(loans: Loans, a: nat): int { Sum(OutMap(loans, a)) }
  ghost function Borrowed(loans: Loans, a: nat): int { Sum(InMap(loans, a)) }

  ghost function AmountAt(loans: Loans, k: (nat, nat)): nat
  {
    if k in loans then loans[k].amount else 0
  }

  /** Changing a loan changes what its two accounts lend and have been lent by the difference. */
  lemma {:induction false} LoanUpdate(loans: Loans, k: (nat, nat), l: Loan, a: nat)
    ensures Lent(loans[k := l], a) == Lent(loans, a) + if k.0 == a then l.amount - AmountAt(loans, k) else 0
    ensures Borrowed(loans[k := l], a) == Borrowed(loans, a) + if k.1 == a then l.amount - AmountAt(loans, k) else 0
  {
    LentUpdate(loans, k, l, a);
    BorrowedUpdate(loans, k, l, a);
  }

  lemma {:induction false} LentUpdate(loans: Loans, k: (nat, nat), l: Loan, a: nat)
    ensures Lent(loans[k := l], a) == Lent(loans, a) + if k.0 == a then l.amount - AmountAt(loans, k) else 0
  {
    SumUpdate(OutMap(loans, a), k, if k.0 == a then l.amount else 0);
    assert OutMap(loans[k := l], a) == OutMap(loans, a)[k := if k.0 == a then l.amount else 0];
  }

  lemma {:induction false} BorrowedUpdate(loans: Loans, k: (nat, nat), l: Loan, a: nat)
    ensures Borrowed(loans[k := l], a) == Borrowed(loans, a) + if k.1 == a then l.amount - AmountAt(loans, k) else 0
  {
    SumUpdate(InMap(loans, a), k, if k.1 == a then l.amount else 0);
    assert InMap(loans[k := l], a) == InMap(loans, a)[k := if k.1 == a then l.amount else 0];
  }

  lemma {:induction false} LoanRemove(loans: Loans, k: (nat, nat), a: nat)
    requires k in loans
    ensures Lent(loans - {k}, a) == Lent(loans, a) - if k.0 == a then loans[k].amount else 0
    ensures Borrowed(loans - {k}, a) == Borrowed(loans, a) - if k.1 == a then loans[k].amount else 0
  {
    SumRemove(OutMap(loans, a), k);
    SumRemove(InMap(loans, a), k);
    assert OutMap(loans - {k}, a) == OutMap(loans, a) - {k};
    assert InMap(loans - {k}, a) == InMap(loans, a) - {k};
  }

  // ---------- The accounts ----------

  type Accounts = map<nat, Account>

  /** Every account is covered, and its totals are those of the loans and of the stake on its way back. */
  ghost predicate Balanced(accounts: Accounts, loans: Loans, due: seq<Return>)
  {
    && (forall k :: k in loans ==> k.0 in accounts && k.1 in accounts && k.0 != k.1)
    && (forall i :: 0 <= i < |due| ==> due[i].delegator in accounts)
    && (forall a :: a in accounts ==> AccountOk(accounts[a], loans, due, a))
  }

  ghost predicate AccountOk(acc: Account, loans: Loans, due: seq<Return>, a: nat)
  {
    && Covered(acc)
    && acc.delegated == Lent(loans, a) + Returning(due, a)
    && acc.received == Borrowed(loans, a)
  }

  /** What an account can still lend. */
  function Available(a: Account): int
  {
    a.score - a.delegated - Pending(a)
  }

  lemma {:induction false} AmountNow(loans: Loans, k: (nat, nat), amount: nat)
    requires if k in loans then loans[k].amount == amount else amount == 0
    ensures AmountAt(loans, k) == amount
  {
  }

  /** Only what is lent and borrowed differs. */
  ghost predicate SameStakes(before: Accounts, after: Accounts)
  {
    forall a :: a in before && a in after ==>
      after[a] == before[a].(delegated := after[a].delegated, received := after[a].received)
  }

  lemma {:induction false} ScoresKept(before: Accounts, after: Accounts)
    requires after.Keys == before.Keys && forall a :: a in before ==> after[a].score == before[a].score
    ensures Scores(after) == Scores(before)
  {
    assert Scores(after).Keys == after.Keys;
    assert forall a :: a in after ==> Scores(after)[a] == Scores(before)[a];
  }

  function Lending(accounts: Accounts, k: (nat, nat), delta: nat): (r: Accounts)
    requires k.0 in accounts && k.1 in accounts && k.0 != k.1
    ensures r.Keys == accounts.Keys && SameStakes(accounts, r)
    ensures forall a :: a in r && a != k.0 ==> r[a].delegated == accounts[a].delegated
  {
    var a, b := accounts[k.0], accounts[k.1];
    accounts[k.0 := a.(delegated := a.delegated + delta)][k.1 := b.(received := b.received + delta)]
  }

  lemma {:induction false} RaiseKeeps(accounts: Accounts, loans: Loans, due: seq<Return>, k: (nat, nat), l: Loan)
    requires Balanced(accounts, loans, due) && k.0 in accounts && k.1 in accounts && k.0 != k.1
    requires 0 <= l.amount - AmountAt(loans, k) <= Available(accounts[k.0])
    ensures Balanced(Lending(accounts, k, l.amount - AmountAt(loans, k)), loans[k := l], due)
  {
    hide Lent, Borrowed, Returning, AmountAt;
    var next := Lending(accounts, k, l.amount - AmountAt(loans, k));
    forall a | a in next ensures AccountOk(next[a], loans[k := l], due, a) {
      LoanUpdate(loans, k, l, a);
      assert AccountOk(accounts[a], loans, due, a);
    }
  }

  lemma {:induction false} RaiseShifts(accounts: Accounts, k: (nat, nat), was: nat, amount: nat)
    requires k.0 in accounts && k.1 in accounts && k.0 != k.1 && amount >= was
    ensures Shifts(accounts, Lending(accounts, k, amount - was), k.0, k.1, was, amount)
  {
  }

  lemma {:induction false} LowerShifts(accounts: Accounts, k: (nat, nat), was: nat, amount: nat)
    requires k.0 in accounts && k.1 in accounts && k.0 != k.1 && amount < was && was - amount <= accounts[k.1].received
    ensures Shifts(accounts, accounts[k.1 := accounts[k.1].(received := accounts[k.1].received - (was - amount))],
      k.0, k.1, was, amount)
  {
  }

  lemma {:induction false} LowerKeeps(
    accounts: Accounts, loans: Loans, due: seq<Return>, k: (nat, nat), amount: nat, until: nat)
    requires Balanced(accounts, loans, due) && k in loans && amount < loans[k].amount
    ensures var delta := loans[k].amount - amount;
            && delta <= accounts[k.1].received
            && Balanced(accounts[k.1 := accounts[k.1].(received := accounts[k.1].received - delta)],
                        if amount > 0 then loans[k := loans[k].(amount := amount)] else loans - {k},
                        due + [Return(k.0, delta, until)])
  {
    hide Lent, Borrowed, Returning;
    var delta := loans[k].amount - amount;
    LoanWithin(loans, k);
    assert AccountOk(accounts[k.1], loans, due, k.1);
    var next := accounts[k.1 := accounts[k.1].(received := accounts[k.1].received - delta)];
    var loans' := if amount > 0 then loans[k := loans[k].(amount := amount)] else loans - {k};
    var due' := due + [Return(k.0, delta, until)];
    forall a | a in next ensures AccountOk(next[a], loans', due', a) {
      assert AccountOk(accounts[a], loans, due, a);
      LoanUpdate(loans, k, loans[k].(amount := amount), a);
      LoanRemove(loans, k, a);
      ReturningSplit(due, [Return(k.0, delta, until)], a);
      ReturningOne(Return(k.0, delta, until), a);
    }
  }

  lemma {:induction false} ReturningOne(r: Return, a: nat)
    ensures Returning([r], a) == if r.delegator == a then r.amount else 0
  {
    assert [r][..0] == [];
  }

  /** A loan is part of what its borrower has been lent. */
  lemma {:induction false} LoanWithin(loans: Loans, k: (nat, nat))
    requires k in loans
    ensures loans[k].amount <= Borrowed(loans, k.1)
  {
    var m := InMap(loans, k.1);
    SumRemove(m, k);
    SumNonNegative(m - {k});
  }

  datatype Route = Route(to: nat, percent: nat, auto: bool)

  /** What a route counts for: the search for an account's routes starts behind the one to account 0. */
  function Percent(r: Route): nat
  {
    if r.to == 0 then 0 else r.percent
  }

  function Percents(routes: seq<Route>): (r: seq<nat>)
    ensures |r| == |routes| && forall i :: 0 <= i < |r| ==> r[i] == Percent(routes[i])
  {
    seq(|routes|, i requires 0 <= i < |routes| => Percent(routes[i]))
  }

  /** No account sends away more than everything, and only to accounts. */
  ghost predicate RoutesOk(routes: map<nat, seq<Route>>, names: set<nat>)
  {
    && routes.Keys == names
    && (forall a :: a in routes ==> Total(Percents(routes[a])) <= PERCENT_100)
    && (forall a, r :: a in routes && r in routes[a] ==> r.to in names)
  }

  /** Nothing lent and nothing to withdraw. */
  predicate Free(a: Account)
  {
    a.delegated == 0 && Pending(a) == 0
  }

  lemma {:induction false} ShiftsKeep(
    before: Accounts, after: Accounts, from: nat, to: nat, was: nat, amount: nat)
    requires Shifts(before, after, from, to, was, amount)
    ensures after.Keys == before.Keys && SameStakes(before, after)
    ensures forall a :: a in after && a != from ==> after[a].delegated == before[a].delegated
  {
  }

  /** Delegated stake has fallen by what is no longer on its way back. */
  ghost predicate Released(before: Accounts, after: Accounts, due: seq<Return>, due': seq<Return>)
  {
    && after.Keys == before.Keys
    && forall a :: a in before ==>
         && after[a] == before[a].(delegated := after[a].delegated)
         && after[a].delegated == before[a].delegated - (Returning(due, a) - Returning(due', a))
  }

  lemma {:induction false} ReleasedNone(accounts: Accounts, due: seq<Return>)
    ensures Released(accounts, accounts, due, due)
  {
    hide Returning;
  }

  lemma {:induction false} ReleasedBoth(
    before: Accounts, now: Accounts, after: Accounts, due: seq<Return>, due': seq<Return>, due'': seq<Return>)
    requires Released(before, now, due, due') && Released(now, after, due', due'')
    ensures Released(before, after, due, due'')
  {
    hide Returning;
  }

  lemma {:induction false} ReleasedFacts(before: Accounts, after: Accounts, due: seq<Return>, now: nat)
    requires Released(before, after, due, Kept(due, now))
    ensures after.Keys == before.Keys && SameStakes(before, after)
    ensures forall a :: a in after ==> after[a].delegated <= before[a].delegated
  {
    hide Returning, Kept;
    forall a | a in after ensures after[a].delegated <= before[a].delegated {
      HeldWithin(due, a, now);
    }
  }

  /** How far a pass over the returns has come: of the first ones those that stay, and all the others. */
  ghost predicate Worked(due: seq<Return>, due': seq<Return>, seen: nat, k: nat, now: nat)
  {
    seen <= |due| && k == |Kept(due[..seen], now)| && due' == Kept(due[..seen], now) + due[seen..]
  }

  lemma {:induction false} WorkedNone(due: seq<Return>, now: nat)
    ensures Worked(due, due, 0, 0, now)
  {
    KeptNone(due, now);
  }

  lemma {:induction false} WorkedNext(due: seq<Return>, due': seq<Return>, seen: nat, k: nat, now: nat)
    requires Worked(due, due', seen, k, now) && k < |due'|
    ensures due'[k].expiration >= now ==> Worked(due, due', seen + 1, k + 1, now)
    ensures due'[k].expiration < now ==> Worked(due, due'[..k] + due'[k + 1..], seen + 1, k, now)
  {
    hide Kept;
    KeptNext(due, seen, now);
    assert due[seen..] == [due[seen]] + due[seen + 1..];
    assert due'[k] == due[seen];
    if due'[k].expiration < now {
      assert due'[..k] == Kept(due[..seen], now) && due'[k + 1..] == due[seen + 1..];
    }
  }

  lemma {:induction false} WorkedAll(due: seq<Return>, due': seq<Return>, seen: nat, k: nat, now: nat)
    requires Worked(due, due', seen, k, now) && k == |due'|
    ensures due' == Kept(due, now)
  {
    assert seen == |due| && due[..seen] == due;
  }

  /** The later of two times. */
  function Later(a: nat, b: nat): (r: nat)
    ensures r >= a && r >= b && (r == a || r == b)
  {
    if a < b then b else a
  }

  /** A loan is made, or its amount changes and its time stays; nothing lent is no loan. */
  function Relent(loans: Loans, k: (nat, nat), amount: nat, now: nat): Loans
  {
    if k !in loans then loans[k := Loan(amount, now)]
    else if amount == 0 < loans[k].amount then loans - {k}
    else loans[k := Loan(amount, loans[k].until)]
  }

  /** What is taken back is due a full window later, and not before the loan's own time; nothing else is. */
  function Recalled(loans: Loans, k: (nat, nat), amount: nat, now: nat): (r: seq<Return>)
    ensures |r| <= 1
  {
    if k in loans && amount < loans[k].amount then
      [Return(k.0, loans[k].amount - amount, Later(now + CASHOUT_WINDOW, loans[k].until))]
    else []
  }

  /** The borrower has the new amount at once; the delegator's stake is committed to more, but never to less. */
  ghost predicate Shifts(before: Accounts, after: Accounts, from: nat, to: nat, was: nat, amount: nat)
  {
    && from in before && to in before && after.Keys == before.Keys
    && (forall a :: a in before && a != from && a != to ==> after[a] == before[a])
    && after[from] == before[from].(delegated := before[from].delegated + if amount > was then amount - was else 0)
    && after[to] == before[to].(received := after[to].received)
    && after[to].received == before[to].received + amount - was
  }

  class DelegationDatabase {
    var accounts: Accounts
    var loans: Loans
    var due: seq<Return>                    // returns that have not expired
    var routes: map<nat, seq<Route>>        // withdraw routes by account
    const nullAccount: nat                  // NULL_ACCOUNT, for which nobody can sign

    ghost predicate Valid()
      reads this
    {
      && Balanced(accounts, loans, due)
      && RoutesOk(routes, accounts.Keys)
    }

    /** The null account lends nothing and is not powering down. */
    ghost predicate Silent()
      reads this
    {
      nullAccount in accounts ==> Free(accounts[nullAccount])
    }

    constructor (scores: map<nat, nat>, mined: set<nat>, nullAccount: nat)
      ensures Silent() && this.nullAccount == nullAccount
      ensures Valid() && accounts.Keys == scores.Keys && loans == map[] && due == []
      ensures forall a :: a in scores ==> accounts[a] == Account(scores[a], 0, 0, 0, 0, 0, None, a in mined)
    {
      accounts := map a | a in scores :: Account(scores[a], 0, 0, 0, 0, 0, None, a in mined);
      routes := map a | a in scores :: [];
      loans, due := map[], [];
      this.nullAccount := nullAccount;
    }

    /** Lends stake, changes a loan, or ends it; what is taken back stays reserved until it has been returned. */
    method DelegateScore(from: nat, to: nat, amount: nat, minLoan: nat, minUpdate: nat, now: nat) returns (ok: bool)
      requires Valid() && from != to
      modifies this`accounts, this`loans, this`due
      ensures Valid() && accounts.Keys == old(accounts).Keys && SameStakes(old(accounts), accounts)
      ensures forall a :: a in accounts && a != from ==> accounts[a].delegated == old(accounts)[a].delegated
      ensures ok <==> old(MayDelegate(from, to, amount, minLoan, minUpdate))
      ensures !ok ==> accounts == old(accounts) && loans == old(loans) && due == old(due)
      ensures ok ==> loans == Relent(old(loans), (from, to), amount, now)
      ensures ok ==> Shifts(old(accounts), accounts, from, to, old(AmountAt(loans, (from, to))), amount)
      ensures ok ==> due == old(due) + Recalled(old(loans), (from, to), amount, now)
    {
      hide Balanced, AmountAt, Available, RoutesOk, Lending, Later, Shifts;
      ok := false;
      if from !in accounts || to !in accounts {
        return;
      }
      var k := (from, to);
      ghost var was := AmountAt(loans, k);
      AmountNow(loans, k, if k in loans then loans[k].amount else 0);
      var available := Available(accounts[from]);
      if k !in loans {
        if available < amount || amount < minLoan {
          return;
        }
        RaiseKeeps(accounts, loans, due, k, Loan(amount, now));
        RaiseShifts(accounts, k, 0, amount);
        Lend(from, to, amount);
        loans := loans[k := Loan(amount, now)];
      } else if amount >= loans[k].amount {
        var delta := amount - loans[k].amount;
        if delta < minUpdate || available < delta {
          return;
        }
        RaiseKeeps(accounts, loans, due, k, Loan(amount, loans[k].until));
        RaiseShifts(accounts, k, loans[k].amount, amount);
        Lend(from, to, delta);
        loans := loans[k := Loan(amount, loans[k].until)];
      } else {
        var delta := loans[k].amount - amount;
        if amount > 0 && (delta < minUpdate || amount < minLoan) {
          return;
        }
        Recall(k, amount, now);
      }
      ShiftsKeep(old(accounts), accounts, from, to, was, amount);
      ok := true;
    }

    /** What a loan is lowered by is due for return; until then it counts as delegated. */
    method Recall(k: (nat, nat), amount: nat, now: nat)
      requires Valid() && k in loans && amount < loans[k].amount && k.0 != k.1 && k.0 in accounts && k.1 in accounts
      modifies this`accounts, this`loans, this`due
      ensures Valid()
      ensures loans == Relent(old(loans), k, amount, now) && due == old(due) + Recalled(old(loans), k, amount, now)
      ensures Shifts(old(accounts), accounts, k.0, k.1, old(loans)[k].amount, amount)
    {
      hide Balanced, RoutesOk, Later, Shifts;
      var delta := loans[k].amount - amount;
      var until := Later(now + CASHOUT_WINDOW, loans[k].until);
      LowerKeeps(accounts, loans, due, k, amount, until);
      LowerShifts(accounts, k, loans[k].amount, amount);
      due := due + [Return(k.0, delta, until)];
      accounts := accounts[k.1 := accounts[k.1].(received := accounts[k.1].received - delta)];
      loans := if amount > 0 then loans[k := loans[k].(amount := amount)] else loans - {k};
      assert accounts.Keys == old(accounts).Keys;
    }

    method Lend(from: nat, to: nat, delta: nat)
      requires from in accounts && to in accounts && from != to
      modifies this`accounts
      ensures accounts == Lending(old(accounts), (from, to), delta)
    {
      accounts := accounts[from := accounts[from].(delegated := accounts[from].delegated + delta)];
      accounts := accounts[to := accounts[to].(received := accounts[to].received + delta)];
    }

    ghost predicate MayDelegate(from: nat, to: nat, amount: nat, minLoan: nat, minUpdate: nat)
      reads this
    {
      from in accounts && to in accounts &&
      if (from, to) !in loans then
        Available(accounts[from]) >= amount >= minLoan
      else
        var now := loans[(from, to)].amount;
        if amount >= now then amount - now >= minUpdate && Available(accounts[from]) >= amount - now
        else amount > 0 ==> now - amount >= minUpdate && amount >= minLoan
    }

    /** Until their time has come, returns still count as delegated. */
    lemma Reserved(a: nat, time: nat)
      requires Valid() && a in accounts
      ensures accounts[a].delegated >= Lent(loans, a) + Held(due, a, time)
    {
      hide Lent, Borrowed, Covered;
      assert AccountOk(accounts[a], loans, due, a);
      HeldWithin(due, a, time);
    }

    /** Stake whose time has come goes back to its delegator. */
    method ExpireReturns(now: nat)
      requires Valid()
      modifies this`accounts, this`due
      ensures Valid() && due == Kept(old(due), now)
      ensures Released(old(accounts), accounts, old(due), due)
      ensures accounts.Keys == old(accounts).Keys && SameStakes(old(accounts), accounts)
      ensures forall a :: a in accounts ==> accounts[a].delegated <= old(accounts)[a].delegated
    {
      hide Balanced, RoutesOk, Returning, Kept, Worked, Released;
      var k := 0;
      ghost var seen := 0;
      WorkedNone(due, now);
      ReleasedNone(accounts, due);
      while k < |due|
        invariant Valid() && Worked(old(due), due, seen, k, now) && k <= |due|
        invariant Released(old(accounts), accounts, old(due), due)
        decreases |due| - k
      {
        WorkedNext(old(due), due, seen, k, now);
        if due[k].expiration < now {
          ghost var accounts0, due0 := accounts, due;
          ReturnOne(k);
          ReleasedBoth(old(accounts), accounts0, accounts, old(due), due0, due);
        } else {
          k := k + 1;
        }
        seen := seen + 1;
      }
      WorkedAll(old(due), due, seen, k, now);
      ReleasedFacts(old(accounts), accounts, old(due), now);
    }

    method ReturnOne(k: nat)
      requires Valid() && k < |due|
      modifies this`accounts, this`due
      ensures Valid() && due == old(due)[..k] + old(due)[k + 1..]
      ensures Released(old(accounts), accounts, old(due), due)
    {
      hide Balanced, RoutesOk, Returning;
      var r := due[k];
      ReturnKeeps(accounts, loans, due, k);
      forall a ensures Returning(due, a) - Returning(due[..k] + due[k + 1..], a)
        == if r.delegator == a then r.amount else 0
      {
        ReturningWithout(due, k, a);
      }
      accounts := accounts[r.delegator :=
        accounts[r.delegator].(delegated := accounts[r.delegator].delegated - r.amount)];
      due := due[..k] + due[k + 1..];
      assert accounts.Keys == old(accounts).Keys;
    }

    /** Starts, restarts or cancels a power-down. */
    method WithdrawScore(a: nat, amount: nat, minScore: nat, now: nat) returns (ok: bool)
      requires Valid()
      modifies this`accounts
      ensures Valid() && accounts.Keys == old(accounts).Keys
      ensures ok <==> a in old(accounts) && MayWithdraw(old(accounts)[a], amount, minScore)
      ensures accounts == if ok then old(accounts)[a := Withdrawing(old(accounts)[a], amount, now)] else old(accounts)
    {
      hide Balanced, RoutesOk;
      ok := false;
      if a !in accounts || accounts[a].score - accounts[a].delegated < amount {
        return;
      }
      if !accounts[a].mined && accounts[a].score <= minScore && amount > 0 {
        return;
      }
      if amount == 0 {
        if accounts[a].rate == 0 {
          return;
        }
      } else if accounts[a].rate == Rate(amount) {
        return;
      }
      ok := true;
      if ok {
        WithdrawingKeeps(accounts, loans, due, a, amount, minScore, now);
        var acc := accounts[a];
        if amount == 0 {
          acc := acc.(rate := 0, next := None, toWithdraw := 0, withdrawn := 0);
        } else {
          acc := acc.(rate := Rate(amount), next := Some(now + WITHDRAW_INTERVAL_SECONDS), toWithdraw := amount,
                      withdrawn := 0);
        }
        accounts := accounts[a := acc];
        assert accounts.Keys == old(accounts).Keys;
      }
    }

    /** Stake that comes from elsewhere. */
    method AddScore(a: nat, v: nat)
      requires Valid() && a in accounts
      modifies this`accounts
      ensures Valid() && accounts == Raised(old(accounts), a, v)
    {
      hide Balanced, RoutesOk;
      RaisedKeeps(accounts, loans, due, a, v);
      accounts := accounts[a := accounts[a].(score := accounts[a].score + v)];
    }

    /** Sets, changes or removes the share of withdrawals that goes to another account. */
    method SetRoute(a: nat, r: Route) returns (ok: bool)
      requires Valid()
      modifies this`routes
      ensures Valid()
      ensures ok <==> && a in accounts && r.to in accounts
                      && (HasRoute(old(routes)[a], r.to) || (r.percent > 0 && |old(routes)[a]| < MAX_ROUTES))
                      && Total(Percents(Routed(old(routes)[a], r))) <= PERCENT_100
      ensures routes == if ok then old(routes)[a := Routed(old(routes)[a], r)] else old(routes)
    {
      hide Balanced, Total, Percents, RoutesOk, Routed, HasRoute;
      ok := false;
      if a !in accounts || r.to !in accounts {
        return;
      }
      RoutesLead(routes, accounts.Keys, a);
      var list := routes[a];
      var k := 0;
      while k < |list| && list[k].to != r.to
        invariant k <= |list| && forall i :: 0 <= i < k ==> list[i].to != r.to
      {
        k := k + 1;
      }
      RoutedAt(list, k, r);
      if k == |list| {
        if r.percent == 0 || |list| >= MAX_ROUTES {
          return;
        }
        list := list + [r];
      } else if r.percent == 0 {
        list := list[..k] + list[k + 1..];
      } else {
        list := list[k := r];
      }
      var total := SumPercents(list);
      if total > PERCENT_100 {
        return;
      }
      RoutesSet(routes, accounts.Keys, a, r);
      routes := routes[a := list];
      ok := true;
    }

    /** The instalment leaves the account: part of it as stake to others, the rest in coin to others and to itself. */
    method PayInstalment(a: nat) returns (w: nat, asScore: nat, asCoin: nat, kept: nat)
      requires Valid() && a in accounts && accounts[a].next.Some?
      modifies this`accounts
      ensures Valid() && accounts.Keys == old(accounts).Keys
      ensures Covered(old(accounts)[a]) && w == Instalment(old(accounts)[a]) == asScore + asCoin + kept
      ensures asScore == Deposits(routes[a], w, true, |routes[a]|)
      ensures asCoin == Deposits(routes[a], w, false, |routes[a]|)
      ensures accounts == Withdrawn(old(accounts), routes[a], a) && PaysFrom(old(accounts), accounts, routes[a], a)
      ensures TotalScore(accounts) == TotalScore(old(accounts)) - asCoin - kept
      ensures old(Silent()) ==> Silent()
    {
      hide Balanced, TotalScore, Covered, Instalment, Paid, RoutesOk, AfterDeposits, Deposits, SamePlans;
      AccountCovered(accounts, loans, due, a);
      RoutesLead(routes, accounts.Keys, a);
      ghost var before := accounts;
      w := Instalment(accounts[a]);
      asScore := DepositScore(routes[a], w);
      asCoin := CoinDeposits(routes[a], w);
      DepositsWithin(routes[a], w);
      kept := w - asScore - asCoin;
      DepositedKeeps(before, loans, due, routes[a], w, |routes[a]|);
      PaidAfterDeposits(accounts, before, loans, due, a);
      ScoreChange(accounts, a, Paid(accounts[a]));
      accounts := accounts[a := Paid(accounts[a])];
      assert accounts.Keys == before.Keys;
      if old(Silent()) && nullAccount in accounts {
        StaysFree(before, loans, due, routes[a], a, nullAccount);
      }
    }

    /** First pass over the routes: those that keep stake as stake. */
    method DepositScore(list: seq<Route>, w: nat) returns (total: nat)
      requires forall r :: r in list ==> r.to in accounts
      modifies this`accounts
      ensures accounts == AfterDeposits(old(accounts), list, w, |list|) && total == Deposits(list, w, true, |list|)
    {
      total := 0;
      for i := 0 to |list|
        invariant accounts == AfterDeposits(old(accounts), list, w, i) && total == Deposits(list, w, true, i)
      {
        if list[i].auto && list[i].to != 0 {
          var d := w * list[i].percent / PERCENT_100;
          total := total + d;
          accounts := accounts[list[i].to := accounts[list[i].to].(score := accounts[list[i].to].score + d)];
        }
      }
    }

    /**
     One pass over the accounts by the time of their next instalment.  Every power-down that is due pays, and if
     none is a whole interval late each pays once and none is left due.  The pass moves on before it stores the
     next time; so an account that is later than that may be passed over, and a lone power-down always is.
     */
    method ProcessWithdrawals(now: nat)
      requires Valid()
      modifies this`accounts
      ensures Valid() && accounts.Keys == old(accounts).Keys
      ensures forall a :: a in accounts ==> PaidSince(old(accounts)[a], accounts[a], now)
      ensures Prompt(old(accounts), now) ==> forall a :: a in accounts ==> PaidOnce(old(accounts)[a], accounts[a], now)
      ensures Alone(old(accounts)) ==> forall a :: a in accounts && IsDue(old(accounts)[a], now) ==>
        PaidAgain(old(accounts)[a], accounts[a])
    {
      hide Balanced, TotalScore, Paid, RoutesOk, Withdrawn, Deposits, Before, Covered, Instalment;
      hide PaidSince, PaidOnce, PaidAgain, Unpaid, Passing, AccountOk;
      var current := Least(accounts, accounts.Keys);
      ghost var seen: set<nat> := {};
      PassingNone(accounts, current, now);
      while current.Some? && accounts[current.value].next.Some? && accounts[current.value].next.value <= now
        invariant Valid() && accounts.Keys == old(accounts).Keys && (current.Some? ==> current.value in accounts)
        invariant Passing(old(accounts), accounts, seen, current, now)
        decreases PendingTotal(accounts)
      {
        var a := current.value;
        AccountCovered(accounts, loans, due, a);
        RoutesLead(routes, accounts.Keys, a);
        PendingFalls(accounts, loans, due, routes[a], a);
        var later := set b | b in accounts && Before(accounts[a], a, accounts[b], b);
        var next := Least(accounts, later);
        ghost var before := accounts;
        var _, _, _, _ := PayInstalment(a);
        PassingNext(old(accounts), before, accounts, loans, due, routes[a], seen, a, next, now);
        seen := seen + {a};
        current := next;
      }
      PassingDone(old(accounts), accounts, seen, current, now);
    }

    /**
     An account's stake is taken away without regard to what it is committed to, as clear_null_account_balance does.
     Everything stays covered exactly if it is committed to nothing, or had no stake.
     */
    method ClearStake(n: nat)
      requires Valid() && n in accounts
      modifies this`accounts
      ensures accounts == old(accounts)[n := old(accounts)[n].(score := 0)]
      ensures Valid() <==> old(accounts)[n].score == 0 || Free(old(accounts)[n])
    {
      hide Balanced, RoutesOk, Free;
      Cleared(accounts, loans, due, n);
      accounts := accounts[n := accounts[n].(score := 0)];
      assert accounts.Keys == old(accounts).Keys;
    }

    /** A new account, with a loan from its creator and the stake its fee buys. */
    method CreateAccount(creator: nat, name: nat, loan: nat, stake: nat, now: nat) returns (ok: bool)
      requires Valid()
      modifies this`accounts, this`loans, this`routes
      ensures Valid()
      ensures ok <==> creator in old(accounts) && name !in old(accounts) && Available(old(accounts)[creator]) >= loan
      ensures !ok ==> accounts == old(accounts) && loans == old(loans)
      ensures ok ==> accounts.Keys == old(accounts).Keys + {name} && AmountAt(loans, (creator, name)) == loan
      ensures ok ==> accounts == WithAccount(old(accounts), creator, name, loan, stake)
      ensures ok ==> routes == old(routes)[name := []]
      ensures ok ==>
        loans == if loan > 0 then old(loans)[(creator, name) := Loan(loan, now + CREATE_ACCOUNT_DELEGATION_TIME)]
                 else old(loans)
      ensures old(Silent()) && creator != nullAccount ==> Silent()
    {
      hide Free, Balanced, Available, Total, Percents, RoutesOk, Lending, Raised, WithAccount;
      ok := creator in accounts && name !in accounts && Available(accounts[creator]) >= loan;
      if !ok {
        return;
      }
      NewAccountKeeps(accounts, loans, due, name);
      RoutesGrow(routes, accounts.Keys, name);
      accounts := accounts[name := Account(0, 0, 0, 0, 0, 0, None, false)];
      routes := routes[name := []];
      assert accounts.Keys == old(accounts).Keys + {name};
      if loan > 0 {
        RaiseKeeps(accounts, loans, due, (creator, name), Loan(loan, now + CREATE_ACCOUNT_DELEGATION_TIME));
        Lend(creator, name, loan);
        loans := loans[(creator, name) := Loan(loan, now + CREATE_ACCOUNT_DELEGATION_TIME)];
      }
      CreatedAccounts(old(accounts), creator, name, loan, stake);
      if old(Silent()) && creator != nullAccount {
        CreatedFree(old(accounts), creator, name, loan, stake, nullAccount);
      }
      AddScore(name, stake);
    }

    /** One operation, or the end of a block. */
    method Apply(op: Operation)
      requires Valid() && Silent()
      modifies this
      ensures Valid() && Silent()
      ensures op.Delegate? || op.Withdraw? || op.SetRoute? ==> Scores(accounts) == Scores(old(accounts))
      ensures forall a, time :: (op.EndBlock? ==> op.now <= time) ==> Held(due, a, time) >= Held(old(due), a, time)
    {
      hide Held, Recalled, Kept, Relent, Shifts;
      hide Balanced, RoutesOk, Total, TotalScore, Withdrawn, Deposits, Routed, Percents, Scores, PaidOnce, PaidAgain;
      match op {
        case Delegate(from, to, amount, minLoan, minUpdate, now) =>
          if from != to && from != nullAccount {
            var _ := DelegateScore(from, to, amount, minLoan, minUpdate, now);
            ScoresKept(old(accounts), accounts);
            HeldMore(old(due), Recalled(old(loans), (from, to), amount, now));
          }
        case Withdraw(a, amount, minScore, now) =>
          if a != nullAccount {
            var _ := WithdrawScore(a, amount, minScore, now);
            ScoresKept(old(accounts), accounts);
          }
        case SetRoute(a, r) =>
          var _ := SetRoute(a, r);
        case Stake(a, v) =>
          if a in accounts {
            AddScore(a, v);
          }
        case Create(creator, name, loan, stake, now) =>
          if creator != nullAccount {
            var _ := CreateAccount(creator, name, loan, stake, now);
          }
        case ClearNull =>
          if nullAccount in accounts {
            ClearStake(nullAccount);
          }
        case EndBlock(now) =>
          if nullAccount in accounts {
            AccountCovered(accounts, loans, due, nullAccount);
          }
          ProcessWithdrawals(now);
          ExpireReturns(now);
          HeldStays(old(due), now);
      }
    }

    /**
     Over any run, no account promises stake twice, and every total is that of the loans and returns behind it.
     Nothing that is on its way back arrives before its time.
     */
    method Run(operations: seq<Operation>)
      requires Valid() && Silent()
      modifies this
      ensures Valid() && Silent()
      ensures forall a, time :: EndBy(operations, time) ==> Held(due, a, time) >= Held(old(due), a, time)
    {
      hide Held;
      for i := 0 to |operations|
        invariant Valid() && Silent()
        invariant forall a, time :: EndBy(operations, time) ==> Held(due, a, time) >= Held(old(due), a, time)
      {
        Apply(operations[i]);
      }
    }
  }

  /** No block of a run is later than the given time. */
  ghost predicate EndBy(operations: seq<Operation>, time: nat)
  {
    forall op :: op in operations && op.EndBlock? ==> op.now <= time
  }

  datatype Operation =
    | Delegate(from: nat, to: nat, amount: nat, minLoan: nat, minUpdate: nat, now: nat)
    | Withdraw(a: nat, amount: nat, minScore: nat, now: nat)
    | SetRoute(a: nat, r: Route)
    | Stake(a: nat, v: nat)
    | Create(creator: nat, name: nat, loan: nat, stake: nat, now: nat)
    | ClearNull
    | EndBlock(now: nat)

  lemma {:induction false} Cleared(accounts: Accounts, loans: Loans, due: seq<Return>, n: nat)
    requires Balanced(accounts, loans, due) && n in accounts
    ensures Balanced(accounts[n := accounts[n].(score := 0)], loans, due) <==>
      accounts[n].score == 0 || Free(accounts[n])
  {
    hide Lent, Borrowed, Returning;
    var after := accounts[n := accounts[n].(score := 0)];
    assert AccountOk(accounts[n], loans, due, n);
    assert AccountOk(after[n], loans, due, n) <==> accounts[n].score == 0 || Free(accounts[n]);
    forall a | a in after && a != n ensures AccountOk(after[a], loans, due, a) {
      assert AccountOk(accounts[a], loans, due, a);
    }
  }

  /** The accounts with a new one, which has been lent stake by its creator. */
  ghost function WithAccount(accounts: Accounts, creator: nat, name: nat, loan: nat, stake: nat): (r: Accounts)
    requires creator in accounts && name !in accounts
  {
    var lender := accounts[creator];
    accounts[creator := lender.(delegated := lender.delegated + loan)]
            [name := Account(stake, 0, loan, 0, 0, 0, None, false)]
  }

  lemma {:induction false} CreatedAccounts(accounts: Accounts, creator: nat, name: nat, loan: nat, stake: nat)
    requires creator in accounts && name !in accounts
    ensures var empty := accounts[name := Account(0, 0, 0, 0, 0, 0, None, false)];
            && Raised(Lending(empty, (creator, name), loan), name, stake)
              == WithAccount(accounts, creator, name, loan, stake)
            && (loan == 0 ==> Lending(empty, (creator, name), loan) == empty)
  {
  }

  lemma {:induction false} CreatedFree(accounts: Accounts, creator: nat, name: nat, loan: nat, stake: nat, n: nat)
    requires creator in accounts && name !in accounts && n != creator && (n in accounts ==> Free(accounts[n]))
    ensures var after := WithAccount(accounts, creator, name, loan, stake);
            n in after ==> Free(after[n])
  {
  }

  lemma {:induction false} RoutesGrow(routes: map<nat, seq<Route>>, names: set<nat>, name: nat)
    requires RoutesOk(routes, names) && name !in names
    ensures RoutesOk(routes[name := []], names + {name})
  {
    assert Percents([]) == [];
  }

  lemma {:induction false} NewAccountKeeps(accounts: Accounts, loans: Loans, due: seq<Return>, name: nat)
    requires Balanced(accounts, loans, due) && name !in accounts
    ensures Balanced(accounts[name := Account(0, 0, 0, 0, 0, 0, None, false)], loans, due)
    ensures (forall a :: (a, name) !in loans)
  {
    hide Returning;
    SumZero(OutMap(loans, name));
    SumZero(InMap(loans, name));
    NotReturning(due, name);
    var next := accounts[name := Account(0, 0, 0, 0, 0, 0, None, false)];
    forall a | a in next ensures AccountOk(next[a], loans, due, a) {
      assert a in accounts ==> AccountOk(accounts[a], loans, due, a);
    }
  }

  lemma {:induction false} NotReturning(due: seq<Return>, name: nat)
    requires forall i :: 0 <= i < |due| ==> due[i].delegator != name
    ensures Returning(due, name) == 0
  {
    if due != [] {
      NotReturning(due[..|due| - 1], name);
    }
  }

  /** Second pass: those that pay in coin. */
  method CoinDeposits(list: seq<Route>, w: nat) returns (total: nat)
    ensures total == Deposits(list, w, false, |list|)
  {
    total := 0;
    for i := 0 to |list|
      invariant total == Deposits(list, w, false, i)
    {
      if !list[i].auto && list[i].to != 0 {
        total := total + w * list[i].percent / PERCENT_100;
      }
    }
  }

  lemma {:induction false} RoutesLead(routes: map<nat, seq<Route>>, names: set<nat>, a: nat)
    requires RoutesOk(routes, names) && a in names
    ensures a in routes && (forall r :: r in routes[a] ==> r.to in names) && Total(Percents(routes[a])) <= PERCENT_100
  {
  }

  // ---------- One pass over the power-downs ----------

  /** The order of the index by the time of the next instalment; accounts without one come last. */
  predicate Before(x: Account, a: nat, y: Account, b: nat)
  {
    if x.next.Some? && y.next.Some? then x.next.value < y.next.value || (x.next == y.next && a < b)
    else x.next.Some? || (y.next.None? && a < b)
  }

  lemma {:induction false} BeforeOrders(x: Account, a: nat, y: Account, b: nat, z: Account, c: nat)
    ensures a != b ==> (Before(x, a, y, b) <==> !Before(y, b, x, a))
    ensures Before(x, a, y, b) && Before(y, b, z, c) ==> Before(x, a, z, c)
    ensures !Before(x, a, x, a)
  {
  }

  /** The first of some accounts. */
  method Least(accounts: Accounts, names: set<nat>) returns (first: Option<nat>)
    requires names <= accounts.Keys
    ensures first.None? ==> names == {}
    ensures first.Some? ==> first.value in names
    ensures first.Some? ==>
      forall a :: a in names && a != first.value ==> Before(accounts[first.value], first.value, accounts[a], a)
  {
    hide Before;
    if names == {} {
      return None;
    }
    var least :| least in names;
    var rest := names - {least};
    while rest != {}
      invariant rest <= names && least in names && least !in rest
      invariant forall a :: a in names && a !in rest && a != least ==> Before(accounts[least], least, accounts[a], a)
      decreases rest
    {
      var b :| b in rest;
      forall c | c in names
        ensures Before(accounts[b], b, accounts[least], least) && Before(accounts[least], least, accounts[c], c) ==>
                Before(accounts[b], b, accounts[c], c)
        ensures !Before(accounts[b], b, accounts[least], least) ==> Before(accounts[least], least, accounts[b], b)
      {
        BeforeOrders(accounts[b], b, accounts[least], least, accounts[c], c);
      }
      if Before(accounts[b], b, accounts[least], least) {
        least := b;
      }
      rest := rest - {b};
    }
    first := Some(least);
  }

  predicate IsDue(a: Account, now: nat)
  {
    a.next.Some? && a.next.value <= now
  }

  /** Nobody is a whole interval late. */
  ghost predicate Prompt(accounts: Accounts, now: nat)
  {
    forall a :: a in accounts && accounts[a].next.Some? ==> now < accounts[a].next.value + WITHDRAW_INTERVAL_SECONDS
  }

  /** At most one account powers down. */
  ghost predicate Alone(accounts: Accounts)
  {
    forall a, b :: a in accounts && b in accounts && accounts[a].next.Some? && accounts[b].next.Some? ==> a == b
  }

  /** Only stake has come in. */
  ghost predicate Unpaid(before: Account, after: Account)
  {
    after.score >= before.score && after == before.(score := after.score)
  }

  /** What was due has paid something, what was not has not. */
  ghost predicate PaidSince(before: Account, after: Account, now: nat)
  {
    if IsDue(before, now) then before.withdrawn < after.withdrawn <= before.toWithdraw == after.toWithdraw
      else Unpaid(before, after)
  }

  /** The rate, or what is left. */
  function Share(a: Account): int
  {
    if a.rate < Pending(a) then a.rate else Pending(a)
  }

  /** Exactly one instalment; the next one, if any is left, is an interval later. */
  ghost predicate PaidAgain(before: Account, after: Account)
  {
    && before.next.Some? && after.toWithdraw == before.toWithdraw && after.withdrawn == before.withdrawn + Share(before)
    && (if Pending(before) <= before.rate then after.next == None
        else after.next == Some(before.next.value + WITHDRAW_INTERVAL_SECONDS) && after.rate == before.rate)
  }

  /** Exactly one instalment if one was due, and none is due now. */
  ghost predicate PaidOnce(before: Account, after: Account, now: nat)
  {
    !IsDue(after, now) && if IsDue(before, now) then PaidAgain(before, after) else Unpaid(before, after)
  }

  /** A lone power-down is still due after a pass exactly if it was a whole interval late and has more to pay. */
  lemma {:induction false} LoneStaysDue(before: Account, after: Account, now: nat)
    requires PaidAgain(before, after)
    ensures IsDue(after, now) <==> Pending(before) > before.rate && before.next.value + WITHDRAW_INTERVAL_SECONDS <= now
  {
  }

  /** An account two intervals late, and the only one to power down, is still due after the pass. */
  method LateStaysDue(a: nat, stake: nat, now: nat) returns (after: Account)
    requires stake >= WITHDRAW_INTERVALS && 2 * WITHDRAW_INTERVAL_SECONDS <= now
    ensures after.toWithdraw == stake && after.withdrawn == stake / WITHDRAW_INTERVALS && IsDue(after, now)
  {
    hide Covered, Balanced, PaidSince, PaidOnce, PaidAgain, MayWithdraw, Withdrawing, RoutesOk;
    var scores, mined: set<nat> := map[a := stake], {a};
    var db := new DelegationDatabase(scores, mined, 0);
    ghost var first := db.accounts[a];
    var ok := db.WithdrawScore(a, stake, 0, 0);
    LateWithdrawing(first, stake);
    ghost var before := db.accounts[a];
    db.ProcessWithdrawals(now);
    after := db.accounts[a];
    LonePays(before, after, stake, now);
  }

  lemma {:induction false} LateWithdrawing(a: Account, stake: nat)
    requires a == Account(stake, 0, 0, 0, 0, 0, None, true) && stake >= WITHDRAW_INTERVALS
    ensures MayWithdraw(a, stake, 0) && Withdrawing(a, stake, 0).next == Some(WITHDRAW_INTERVAL_SECONDS)
    ensures var b := Withdrawing(a, stake, 0);
            b.toWithdraw == stake && b.withdrawn == 0 && b.rate == stake / WITHDRAW_INTERVALS
  {
  }

  lemma {:induction false} LonePays(before: Account, after: Account, stake: nat, now: nat)
    requires PaidAgain(before, after) && stake >= WITHDRAW_INTERVALS && 2 * WITHDRAW_INTERVAL_SECONDS <= now
    requires before.toWithdraw == stake && before.withdrawn == 0 && before.rate == stake / WITHDRAW_INTERVALS
    requires before.next == Some(WITHDRAW_INTERVAL_SECONDS)
    ensures after.toWithdraw == stake && after.withdrawn == stake / WITHDRAW_INTERVALS && IsDue(after, now)
  {
    LoneStaysDue(before, after, now);
  }

  /**
   Where a pass stands: the accounts seen were due and have paid; the others are as they were and not before the
   current one.
   */
  ghost predicate Passing(start: Accounts, accounts: Accounts, seen: set<nat>, current: Option<nat>, now: nat)
  {
    && accounts.Keys == start.Keys && seen <= start.Keys && (current.Some? ==> current.value in start)
    && (forall a :: a in seen ==> IsDue(start[a], now) && PaidSince(start[a], accounts[a], now))
    && (forall a :: a in start && a !in seen ==> Unpaid(start[a], accounts[a]))
    && (forall a :: a in start && a !in seen ==>
          current.Some? && (a == current.value || Before(accounts[current.value], current.value, accounts[a], a)))
    && (Prompt(start, now) ==> forall a :: a in seen ==> PaidOnce(start[a], accounts[a], now))
    && (Alone(start) ==> forall a :: a in seen ==>
          && PaidAgain(start[a], accounts[a])
          && (current.Some? ==> current.value !in seen && accounts[current.value].next.None?))
  }

  lemma {:induction false} PassingNone(accounts: Accounts, current: Option<nat>, now: nat)
    requires current.None? ==> accounts.Keys == {}
    requires current.Some? ==> current.value in accounts
    requires current.Some? ==> forall a :: a in accounts && a != current.value ==>
      Before(accounts[current.value], current.value, accounts[a], a)
    ensures Passing(accounts, accounts, {}, current, now)
  {
  }

  lemma {:induction false} PassingDone(
    start: Accounts, accounts: Accounts, seen: set<nat>, current: Option<nat>, now: nat)
    requires Passing(start, accounts, seen, current, now)
    requires current.Some? ==> !IsDue(accounts[current.value], now)
    ensures forall a :: a in accounts ==> PaidSince(start[a], accounts[a], now)
    ensures Prompt(start, now) ==> forall a :: a in accounts ==> PaidOnce(start[a], accounts[a], now)
    ensures Alone(start) ==> forall a :: a in accounts && IsDue(start[a], now) ==> PaidAgain(start[a], accounts[a])
  {
    forall a | a in accounts && a !in seen ensures !IsDue(accounts[a], now) && Unpaid(start[a], accounts[a]) {
    }
  }

  /** What one instalment does to the account that pays it and to the others. */
  lemma {:induction false} WithdrawnIs(accounts: Accounts, loans: Loans, due: seq<Return>, list: seq<Route>, a: nat)
    requires Balanced(accounts, loans, due) && a in accounts && accounts[a].next.Some? && accounts[a].rate > 0
    requires forall r :: r in list ==> r.to in accounts
    ensures var after := Withdrawn(accounts, list, a);
            Pays(accounts, after, a)
  {
    hide AfterDeposits, Returning, Lent, Borrowed, Instalment;
    var w := Instalment(accounts[a]);
    var next := AfterDeposits(accounts, list, w, |list|);
    DepositedKeeps(accounts, loans, due, list, w, |list|);
    assert AccountOk(next[a], loans, due, a);
    PaidKeeps(next[a]);
  }

  /** An instalment of another account changes nothing about an account without commitments. */
  lemma {:induction false} StaysFree(
    accounts: Accounts, loans: Loans, due: seq<Return>, list: seq<Route>, a: nat, n: nat)
    requires Balanced(accounts, loans, due) && a in accounts && accounts[a].next.Some? && accounts[a].rate > 0
    requires forall r :: r in list ==> r.to in accounts
    requires n in accounts && Free(accounts[n])
    ensures var after := Withdrawn(accounts, list, a);
            n in after && Free(after[n])
  {
    hide Withdrawn;
    assert AccountOk(accounts[a], loans, due, a);
    WithdrawnIs(accounts, loans, due, list, a);
  }

  lemma {:induction false} PassingNext(
    start: Accounts, before: Accounts, accounts: Accounts, loans: Loans, due: seq<Return>, list: seq<Route>,
    seen: set<nat>, a: nat, next: Option<nat>, now: nat)
    requires Passing(start, before, seen, Some(a), now) && Balanced(before, loans, due) && IsDue(before[a], now)
    requires before[a].rate > 0
    requires forall r :: r in list ==> r.to in before
    requires accounts == Withdrawn(before, list, a)
    requires next.Some? ==> next.value in before && Before(before[a], a, before[next.value], next.value)
    requires forall b :: b in before && Before(before[a], a, before[b], b) ==>
      next.Some? && (b == next.value || Before(before[next.value], next.value, before[b], b))
    ensures Passing(start, accounts, seen + {a}, next, now)
  {
    hide Withdrawn, Balanced, PaidOnce, PaidSince, PaidAgain, Unpaid, Before;
    WithdrawnIs(before, loans, due, list, a);
    PassingPaid(start, before, accounts, seen, a, now);
    PassingOrder(start, before, accounts, seen, a, next, now);
    if Alone(start) {
      PassingAlone(start, before, accounts, seen, a, next, now);
    }
  }

  /** One instalment, seen from the whole pass. */
  ghost predicate Pays(before: Accounts, accounts: Accounts, a: nat)
  {
    && accounts.Keys == before.Keys && a in before && PaidAgain(before[a], accounts[a])
    && 0 < Share(before[a]) <= Pending(before[a])
    && forall b :: b in before && b != a ==> Unpaid(before[b], accounts[b])
  }

  lemma {:induction false} PassingPaid(
    start: Accounts, before: Accounts, accounts: Accounts, seen: set<nat>, a: nat, now: nat)
    requires Passing(start, before, seen, Some(a), now) && IsDue(before[a], now) && Pays(before, accounts, a)
    ensures forall b :: b in seen + {a} ==> IsDue(start[b], now) && PaidSince(start[b], accounts[b], now)
    ensures forall b :: b in start && b !in seen + {a} ==> Unpaid(start[b], accounts[b])
    ensures Prompt(start, now) ==> forall b :: b in seen + {a} ==> PaidOnce(start[b], accounts[b], now)
  {
    hide Before;
  }

  lemma {:induction false} PassingOrder(
    start: Accounts, before: Accounts, accounts: Accounts, seen: set<nat>, a: nat, next: Option<nat>, now: nat)
    requires Passing(start, before, seen, Some(a), now) && Pays(before, accounts, a)
    requires next.Some? ==> next.value in before && Before(before[a], a, before[next.value], next.value)
    requires forall b :: b in before && Before(before[a], a, before[b], b) ==>
      next.Some? && (b == next.value || Before(before[next.value], next.value, before[b], b))
    ensures forall b :: b in start && b !in seen + {a} ==>
      next.Some? && (b == next.value || Before(accounts[next.value], next.value, accounts[b], b))
    ensures next.Some? ==> next.value != a
  {
    hide PaidOnce, PaidSince, PaidAgain;
  }

  lemma {:induction false} PassingAlone(
    start: Accounts, before: Accounts, accounts: Accounts, seen: set<nat>, a: nat, next: Option<nat>, now: nat)
    requires Passing(start, before, seen, Some(a), now) && IsDue(before[a], now) && Pays(before, accounts, a)
    requires Alone(start)
    requires next.Some? ==> next.value in before && next.value != a
    ensures seen == {} && PaidAgain(start[a], accounts[a])
    ensures next.Some? ==> accounts[next.value].next.None?
  {
    hide Before, PaidOnce, PaidSince;
    if b :| b in seen {
    }
  }

  ghost function Pendings(accounts: Accounts): map<nat, int>
  {
    map a | a in accounts :: Pending(accounts[a])
  }

  /** All that is still to be withdrawn. */
  ghost function PendingTotal(accounts: Accounts): int { Sum(Pendings(accounts)) }

  /** Every instalment brings the end nearer. */
  lemma {:induction false} PendingFalls(accounts: Accounts, loans: Loans, due: seq<Return>, list: seq<Route>, a: nat)
    requires Balanced(accounts, loans, due) && a in accounts && accounts[a].next.Some? && accounts[a].rate > 0
    requires forall r :: r in list ==> r.to in accounts
    ensures 0 <= PendingTotal(Withdrawn(accounts, list, a)) < PendingTotal(accounts)
  {
    hide AfterDeposits, Returning, Lent, Borrowed, Sum, Instalment;
    var w := Instalment(accounts[a]);
    var next := AfterDeposits(accounts, list, w, |list|);
    DepositedKeeps(accounts, loans, due, list, w, |list|);
    PaidAfterDeposits(next, accounts, loans, due, a);
    assert AccountOk(next[a], loans, due, a);
    PaidKeeps(next[a]);
    var after := Withdrawn(accounts, list, a);
    SumChange(Pendings(accounts), Pendings(after), a);
    forall x | x in after ensures Pending(after[x]) >= 0 {
      assert AccountOk(after[x], loans, due, x);
    }
    SumNonNegative(Pendings(after));
  }

  ghost predicate HasRoute(list: seq<Route>, to: nat)
  {
    exists r :: r in list && r.to == to
  }

  /** The routes of an account after one is set: a share of nothing removes it. */
  function Routed(list: seq<Route>, r: Route): (s: seq<Route>)
  {
    if list == [] then [r]
    else if list[0].to != r.to then [list[0]] + Routed(list[1..], r)
    else if r.percent == 0 then list[1..]
    else [r] + list[1..]
  }

  lemma {:induction false} RoutedAt(list: seq<Route>, k: nat, r: Route)
    requires k <= |list| && forall i :: 0 <= i < k ==> list[i].to != r.to
    requires k < |list| ==> list[k].to == r.to
    ensures Routed(list, r) == if k == |list| then list + [r] else if r.percent == 0 then list[..k] + list[k + 1..]
      else list[k := r]
    ensures HasRoute(list, r.to) <==> k < |list|
  {
    if k == 0 {
      if list != [] {
        assert list[0] in list;
        assert list[..0] + list[1..] == list[1..];
      }
    } else {
      RoutedAt(list[1..], k - 1, r);
      if k < |list| {
        assert list[k] in list;
        assert list[1..][..k - 1] == list[1..k] && list[1..][k..] == list[k + 1..];
      }
    }
  }

  lemma {:induction false} RoutedTo(list: seq<Route>, r: Route)
    ensures forall x :: x in Routed(list, r) ==> x == r || x in list
  {
    if list != [] && list[0].to != r.to {
      RoutedTo(list[1..], r);
    }
  }

  lemma {:induction false} RoutesSet(routes: map<nat, seq<Route>>, names: set<nat>, a: nat, r: Route)
    requires RoutesOk(routes, names) && a in names && r.to in names
    requires Total(Percents(Routed(routes[a], r))) <= PERCENT_100
    ensures RoutesOk(routes[a := Routed(routes[a], r)], names)
  {
    RoutedTo(routes[a], r);
  }

  method SumPercents(list: seq<Route>) returns (total: nat)
    ensures total == Total(Percents(list))
  {
    total := 0;
    ghost var all := Percents(list);
    for i := 0 to |list|
      invariant total == Total(all[..i])
    {
      assert all[..i + 1] == all[..i] + [all[i]];
      TotalAppend(all[..i], all[i]);
      if list[i].to != 0 {
        total := total + list[i].percent;
      }
    }
    assert all[..|list|] == all;
  }

  lemma {:induction false} AccountCovered(accounts: Accounts, loans: Loans, due: seq<Return>, a: nat)
    requires Balanced(accounts, loans, due) && a in accounts
    ensures Covered(accounts[a])
    ensures accounts[a].next.Some? ==>
      accounts[a].rate > 0 && Instalment(accounts[a]) == Min(accounts[a].rate, Pending(accounts[a])) > 0
  {
    assert AccountOk(accounts[a], loans, due, a);
    if accounts[a].next.Some? {
      PaidKeeps(accounts[a]);
    }
  }

  /** The accounts after an account's instalment. */
  ghost function Withdrawn(accounts: Accounts, list: seq<Route>, a: nat): (r: Accounts)
    requires a in accounts && accounts[a].next.Some? && accounts[a].rate > 0 && forall r :: r in list ==>
      r.to in accounts
  {
    var next := AfterDeposits(accounts, list, Instalment(accounts[a]), |list|);
    if next[a].next.Some? && next[a].rate > 0 then next[a := Paid(next[a])] else next
  }

  /** An instalment of one account, with what its routes receive as stake. */
  ghost predicate PaysFrom(before: Accounts, after: Accounts, list: seq<Route>, a: nat)
  {
    && a in before && before[a].next.Some? && before[a].rate > 0 && (forall r :: r in list ==> r.to in before)
    && after == Withdrawn(before, list, a)
  }

  /** Stake coming in does not change an instalment. */
  lemma {:induction false} PaidAfterDeposits(next: Accounts, before: Accounts, loans: Loans, due: seq<Return>, a: nat)
    requires Balanced(next, loans, due) && Balanced(before, loans, due) && SamePlans(before, next)
    requires a in before && a in next && before[a].next.Some?
    ensures next[a].next.Some? && next[a].rate > 0
    ensures Paid(next[a]).score == next[a].score - Instalment(before[a])
    ensures Balanced(next[a := Paid(next[a])], loans, due)
  {
    hide Lent, Borrowed, Returning;
    assert AccountOk(before[a], loans, due, a) && AccountOk(next[a], loans, due, a);
    PaidKeeps(before[a]);
    PaidKeeps(next[a]);
    var after := next[a := Paid(next[a])];
    assert AccountOk(after[a], loans, due, a);
  }

  /** The rate of a power-down: a quarter of the amount, and at least one. */
  function Rate(amount: nat): (r: nat)
    ensures r >= 1 && (amount >= WITHDRAW_INTERVALS ==>
      r * WITHDRAW_INTERVALS <= amount < (r + 1) * WITHDRAW_INTERVALS)
    ensures amount < WITHDRAW_INTERVALS ==> r == 1
  {
    if amount / WITHDRAW_INTERVALS == 0 then 1 else amount / WITHDRAW_INTERVALS
  }

  ghost predicate MayWithdraw(acc: Account, amount: nat, minScore: nat)
  {
    && acc.score - acc.delegated >= amount
    && (acc.mined || acc.score > minScore || amount == 0)
    && (if amount == 0 then acc.rate != 0 else acc.rate != Rate(amount))
  }

  ghost function Withdrawing(acc: Account, amount: nat, now: nat): (r: Account)
  {
    if amount == 0 then acc.(rate := 0, next := None, toWithdraw := 0, withdrawn := 0)
    else acc.(rate := Rate(amount), next := Some(now + WITHDRAW_INTERVAL_SECONDS), toWithdraw := amount, withdrawn := 0)
  }

  lemma {:induction false} WithdrawingKeeps(
    accounts: Accounts, loans: Loans, due: seq<Return>, a: nat, amount: nat, minScore: nat, now: nat)
    requires Balanced(accounts, loans, due) && a in accounts && MayWithdraw(accounts[a], amount, minScore)
    ensures Balanced(accounts[a := Withdrawing(accounts[a], amount, now)], loans, due)
  {
    hide Lent, Borrowed, Returning;
    assert AccountOk(accounts[a], loans, due, a);
  }

  lemma {:induction false} ReturnKeeps(accounts: Accounts, loans: Loans, due: seq<Return>, k: nat)
    requires Balanced(accounts, loans, due) && k < |due|
    ensures var r := due[k];
            && r.delegator in accounts && r.amount <= accounts[r.delegator].delegated
            && Balanced(accounts[r.delegator :=
              accounts[r.delegator].(delegated := accounts[r.delegator].delegated - r.amount)],
                        loans, due[..k] + due[k + 1..])
  {
    hide Lent, Borrowed, Returning;
    var r := due[k];
    var d := r.delegator;
    assert AccountOk(accounts[d], loans, due, d);
    ReturningWithout(due, k, d);
    LentNonNegative(loans, d);
    var next := accounts[d := accounts[d].(delegated := accounts[d].delegated - r.amount)];
    var due' := due[..k] + due[k + 1..];
    forall a | a in next ensures AccountOk(next[a], loans, due', a) {
      assert AccountOk(accounts[a], loans, due, a);
      ReturningWithout(due, k, a);
    }
  }

  lemma {:induction false} LentNonNegative(loans: Loans, a: nat)
    ensures Lent(loans, a) >= 0
  {
    SumNonNegative(OutMap(loans, a));
  }

  function Raised(accounts: Accounts, a: nat, v: nat): (r: Accounts)
    requires a in accounts
    ensures r.Keys == accounts.Keys
  {
    accounts[a := accounts[a].(score := accounts[a].score + v)]
  }

  lemma {:induction false} RaisedKeeps(accounts: Accounts, loans: Loans, due: seq<Return>, a: nat, v: nat)
    requires Balanced(accounts, loans, due) && a in accounts
    ensures Balanced(Raised(accounts, a, v), loans, due)
  {
    hide Lent, Borrowed, Returning;
    assert AccountOk(accounts[a], loans, due, a);
  }

  // ---------- Withdrawals ----------

  function Deposit(r: Route, w: nat): (v: nat)
    ensures r.to == 0 ==> v == 0
  {
    if r.to == 0 then 0 else w * r.percent / PERCENT_100
  }

  /** Account 0 never receives stake from anybody's routes, although such routes can be set. */
  lemma {:induction false} FirstAccountUnpaid(accounts: Accounts, routes: seq<Route>, w: nat, n: nat)
    requires n <= |routes| && (forall r :: r in routes ==> r.to in accounts) && 0 in accounts
    ensures AfterDeposits(accounts, routes, w, n)[0] == accounts[0]
  {
    if n > 0 {
      FirstAccountUnpaid(accounts, routes, w, n - 1);
    }
  }

  /** What the first n routes of one kind receive of an instalment. */
  ghost function Deposits(routes: seq<Route>, w: nat, auto: bool, n: nat): (r: nat)
    requires n <= |routes|
  {
    if n == 0 then 0
    else Deposits(routes, w, auto, n - 1) + if routes[n - 1].auto == auto then Deposit(routes[n - 1], w) else 0
  }

  /** Both kinds together receive no more than the instalment. */
  lemma {:induction false} DepositsWithin(routes: seq<Route>, w: nat)
    requires Total(Percents(routes)) <= PERCENT_100
    ensures Deposits(routes, w, true, |routes|) + Deposits(routes, w, false, |routes|) <= w
  {
    var shares := Shares(w, Percents(routes), PERCENT_100);
    DepositsAdd(routes, w, |routes|);
    assert shares[..|routes|] == shares;
    SharesWithin(w, Percents(routes), PERCENT_100);
  }

  lemma {:induction false} NothingShared(shares: seq<nat>)
    ensures Total(shares[..0]) == 0
  {
  }

  lemma {:induction false} DepositsAdd(routes: seq<Route>, w: nat, n: nat)
    requires n <= |routes|
    ensures Deposits(routes, w, true, n) + Deposits(routes, w, false, n)
      == Total(Shares(w, Percents(routes), PERCENT_100)[..n])
  {
    hide Total, Percents;
    if n == 0 {
      NothingShared(Shares(w, Percents(routes), PERCENT_100));
    } else {
      DepositsAdd(routes, w, n - 1);
      var shares := Shares(w, Percents(routes), PERCENT_100);
      assert shares[..n] == shares[..n - 1] + [shares[n - 1]];
      TotalAppend(shares[..n - 1], shares[n - 1]);
    }
  }

  /** The accounts after the first n routes that keep stake as stake. */
  ghost function AfterDeposits(accounts: Accounts, routes: seq<Route>, w: nat, n: nat): (r: Accounts)
    requires n <= |routes| && forall r :: r in routes ==> r.to in accounts
    ensures r.Keys == accounts.Keys
  {
    if n == 0 then accounts
    else
      var before := AfterDeposits(accounts, routes, w, n - 1);
      if routes[n - 1].auto then Raised(before, routes[n - 1].to, Deposit(routes[n - 1], w)) else before
  }

  ghost function Scores(accounts: Accounts): map<nat, int>
  {
    map a | a in accounts :: accounts[a].score
  }

  ghost function TotalScore(accounts: Accounts): int { Sum(Scores(accounts)) }

  lemma {:induction false} ScoreChange(accounts: Accounts, a: nat, acc: Account)
    requires a in accounts
    ensures TotalScore(accounts[a := acc]) == TotalScore(accounts) - accounts[a].score + acc.score
  {
    SumUpdate(Scores(accounts), a, acc.score);
    assert Scores(accounts[a := acc]) == Scores(accounts)[a := acc.score];
  }

  lemma {:induction false} DepositedKeeps(
    accounts: Accounts, loans: Loans, due: seq<Return>, routes: seq<Route>, w: nat, n: nat)
    requires Balanced(accounts, loans, due) && n <= |routes| && forall r :: r in routes ==> r.to in accounts
    ensures Balanced(AfterDeposits(accounts, routes, w, n), loans, due)
    ensures TotalScore(AfterDeposits(accounts, routes, w, n)) == TotalScore(accounts) + Deposits(routes, w, true, n)
    ensures SamePlans(accounts, AfterDeposits(accounts, routes, w, n))
  {
    hide Balanced, TotalScore, Deposit, SamePlans, Raised;
    if n > 0 {
      DepositedKeeps(accounts, loans, due, routes, w, n - 1);
      if routes[n - 1].auto {
        var before := AfterDeposits(accounts, routes, w, n - 1);
        var to, v := routes[n - 1].to, Deposit(routes[n - 1], w);
        RaisedKeeps(before, loans, due, to, v);
        RaisedPlans(accounts, before, to, v);
      }
    } else {
      NothingDeposited(accounts);
    }
  }

  lemma {:induction false} NothingDeposited(accounts: Accounts)
    ensures SamePlans(accounts, accounts)
  {
  }

  lemma {:induction false} RaisedPlans(accounts: Accounts, before: Accounts, to: nat, v: nat)
    requires SamePlans(accounts, before) && to in before
    ensures SamePlans(accounts, Raised(before, to, v)) && TotalScore(Raised(before, to, v)) == TotalScore(before) + v
  {
    hide TotalScore;
    ScoreChange(before, to, before[to].(score := before[to].score + v));
  }

  /** Stake has only come in. */
  ghost predicate SamePlans(before: Accounts, after: Accounts)
  {
    forall a :: a in before && a in after ==>
      after[a].score >= before[a].score && after[a] == before[a].(score := after[a].score)
  }
}
