/**
 The internal market: a book of limit orders for each of two assets, on top of the ledger that holds what they sell.
 A new order is matched against the other book from its best order on; what is left of it rests.
 */
module Market {
  import opened Arithmetic
  import opened Orders
  import opened Ledger

  // ---------- Books ----------

  /** A book in the order of its price index. */
  ghost predicate Sorted(book: seq<Order>)
  {
    forall i, j :: 0 <= i < j < |book| ==> Before(book[i], book[j])
  }

  ghost predicate BookOk(book: seq<Order>, s: Symbol, nextId: nat)
  {
    && Sorted(book)
    && forall i :: 0 <= i < |book| ==> Listed(book[i], s, nextId)
  }

  ghost predicate Listed(o: Order, s: Symbol, nextId: nat)
  {
    OrderOk(o) && Findable(o.base, o.quote) && o.sells == s && o.id < nextId
  }

  /** No order of one book would trade with one of the other. */
  ghost predicate Uncrossed(a: seq<Order>, b: seq<Order>)
  {
    forall x, y :: x in a && y in b ==> !Crosses(x, y)
  }

  /** The place of a new order in its book: behind every order that is not worse, since its id is the highest. */
  method Place(book: seq<Order>, o: Order) returns (k: nat)
    requires BookOk(book, o.sells, o.id) && OrderOk(o)
    ensures k <= |book| && Sorted(book[..k] + [o] + book[k..])
  {
    k := 0;
    while k < |book| && !Before(o, book[k])
      invariant k <= |book|
      invariant forall i :: 0 <= i < k ==> Before(book[i], o)
    {
      k := k + 1;
    }
    if k < |book| {
      forall j | k <= j < |book| ensures Before(o, book[j]) {
        if j > k {
          BeforeTrans(o, book[k], book[j]);
        }
      }
    }
  }

  lemma {:induction false} WithoutKeeps(book: seq<Order>, k: nat, s: Symbol, nextId: nat)
    requires BookOk(book, s, nextId) && k < |book|
    ensures BookOk(book[..k] + book[k + 1..], s, nextId)
  {
    var r := book[..k] + book[k + 1..];
    forall i | 0 <= i < |r| ensures r[i] == book[if i < k then i else i + 1] {
    }
    forall i, j | 0 <= i < j < |r| ensures Before(r[i], r[j]) {
      assert Before(book[if i < k then i else i + 1], book[if j < k then j else j + 1]);
    }
  }

  datatype Operation =
    | Create(owner: nat, orderid: nat, sells: Symbol, amount: nat, base: nat, quote: nat, expiration: nat,
      fillOrKill: bool)
    | Cancel(owner: nat, orderid: nat)
    | Expire

  type Books = map<Symbol, seq<Order>>

  /** Both books are sound and do not cross. */
  ghost predicate BooksOk(book: Books, nextId: nat)
  {
    && (forall s: Symbol :: s in book)
    && BookOk(book[TME], TME, nextId) && BookOk(book[TSD], TSD, nextId)
    && Uncrossed(book[TME], book[TSD])
  }

  /** A book whose best order has paid. */
  function AfterFront(side: seq<Order>, pays: nat): (r: seq<Order>)
    requires side != [] && pays <= side[0].forSale && side[0].base > 0
  {
    var left := Left(side[0], pays);
    (if left == 0 then [] else [side[0].(forSale := left)]) + side[1..]
  }

  ghost predicate SameTerms(x: Order, y: Order)
  {
    x.base == y.base && x.quote == y.quote
  }

  lemma {:induction false} AfterFrontTerms(side: seq<Order>, pays: nat)
    requires side != [] && pays <= side[0].forSale && side[0].base > 0
    ensures forall x :: x in AfterFront(side, pays) ==> exists y :: y in side && SameTerms(x, y)
  {
    hide Left;
    forall x | x in AfterFront(side, pays) ensures exists y :: y in side && SameTerms(x, y) {
      if x in side[1..] {
        assert x in side && SameTerms(x, x);
      } else {
        assert side[0] in side && SameTerms(x, side[0]);
      }
    }
  }

  lemma {:induction false} AfterFrontBook(side: seq<Order>, pays: nat, s: Symbol, nextId: nat)
    requires BookOk(side, s, nextId) && side != [] && pays <= side[0].forSale && side[0].base > 0
    ensures BookOk(AfterFront(side, pays), s, nextId)
  {
    hide Before, OrderOk, Left;
    var r := AfterFront(side, pays);
    if Left(side[0], pays) == 0 {
      WithoutKeeps(side, 0, s, nextId);
      assert r == side[..0] + side[1..];
    } else {
      LeftOk(side[0], pays);
      PriceOnly(side[0], Left(side[0], pays));
      assert r == side[0 := side[0].(forSale := Left(side[0], pays))];
    }
  }

  lemma {:induction false} AfterFrontClosed(side: seq<Order>, pays: nat)
    requires side != [] && pays <= side[0].forSale && side[0].base > 0
    ensures Left(side[0], pays) == 0 ==> AfterFront(side, pays) == side[1..]
  {
  }

  /** How an order compares does not depend on how much it still sells. */
  lemma {:induction false} PriceOnly(o: Order, v: nat)
    ensures var o' := o.(forSale := v);
            forall x :: && (Before(o', x) <==> Before(o, x)) && (Before(x, o') <==> Before(x, o))
                        && (Crosses(o', x) <==> Crosses(o, x)) && (Crosses(x, o') <==> Crosses(x, o))
  {
  }

  lemma {:induction false} TakerLeft(o: Order, maker: Order)
    requires OrderOk(o) && OrderOk(maker) && Crosses(o, maker)
    ensures var d := Match(o, maker);
            d.takerPays <= o.forSale && d.makerPays <= maker.forSale && o.base > 0 && maker.base > 0
            && var left := Left(o, d.takerPays);
            left > 0 ==> OrderOk(o.(forSale := left)) && Left(maker, d.makerPays) == 0
  {
    MatchIsFair(o, maker);
    var d := Match(o, maker);
    if Left(o, d.takerPays) > 0 {
      LeftOk(o, d.takerPays);
    }
  }

  lemma {:induction false} FrontFacts(book: Books, o: Order)
    requires BooksOk(book, o.id) && book[Other(o.sells)] != []
    ensures var maker := book[Other(o.sells)][0];
            && maker.sells == Other(o.sells) && OrderOk(maker) && maker.base > 0 && maker.quote > 0 && maker.id < o.id
    ensures OrderOk(o) ==> o.base > 0
  {
    assert Listed(book[Other(o.sells)][0], Other(o.sells), o.id);
  }

  /** The best order of a book pays: the books stay sound. */
  lemma {:induction false} NextFront(book: Books, s: Symbol, pays: nat, nextId: nat)
    requires BooksOk(book, nextId) && book[s] != [] && pays <= book[s][0].forSale && book[s][0].base > 0
    ensures BooksOk(book[s := AfterFront(book[s], pays)], nextId)
  {
    hide Left, BookOk, AfterFront;
    AfterFrontTerms(book[s], pays);
    AfterFrontBook(book[s], pays, s, nextId) by {
      assert BookOk(book[s], s, nextId);
    }
  }

  // ---------- How a new order fares ----------

  /** Where accounts and books stand. */
  datatype Standing = Standing(accounts: Accounts, book: Books, left: nat)

  /** One match of a taker with the best order of the other book; interest falls due on TSD that is touched. */
  ghost function Traded(accounts: Accounts, book: Books, o: Order, now: nat, rate: nat): (r: Standing)
    requires BooksOk(book, o.id) && OrderOk(o)
    requires book[Other(o.sells)] != [] && Crosses(o, book[Other(o.sells)][0])
  {
    var side := book[Other(o.sells)];
    var maker := side[0];
    FrontFacts(book, o);
    MatchIsFair(o, maker);
    var d := Match(o, maker);
    Standing(Paid(Paid(accounts, o, d.takerPays, d.makerPays, now, rate), maker, d.makerPays, d.takerPays, now, rate),
             book[maker.sells := AfterFront(side, d.makerPays)], Left(o, d.takerPays))
  }

  /** The accounts after an order has paid and received. */
  ghost function Paid(accounts: Accounts, o: Order, pays: nat, receives: nat, now: nat, rate: nat): Accounts
    requires pays <= o.forSale && o.base > 0
  {
    Filled(accounts, SaleOf(o), pays, receives, Left(o, pays) == 0, now, rate)
  }

  /** A match keeps the books sound, and closes the best order unless it closes the taker. */
  lemma {:induction false} TradeKeeps(accounts: Accounts, book: Books, o: Order, now: nat, rate: nat)
    requires BooksOk(book, o.id) && OrderOk(o)
    requires book[Other(o.sells)] != [] && Crosses(o, book[Other(o.sells)][0])
    ensures var r := Traded(accounts, book, o, now, rate);
            && BooksOk(r.book, o.id) && r.left < o.forSale && r.book[o.sells] == book[o.sells]
            && (r.left > 0 ==>
                  OrderOk(o.(forSale := r.left)) && r.book[Other(o.sells)] == book[Other(o.sells)][1..])
  {
    hide Crosses, Match, Left, OrderOk, Uncrossed, BookOk, ToReceive, Paid;
    var side := book[Other(o.sells)];
    var maker := side[0];
    FrontFacts(book, o);
    MatchIsFair(o, maker);
    var d := Match(o, maker);
    NextFront(book, maker.sells, d.makerPays, o.id);
    TakerLeft(o, maker);
    AfterFrontClosed(side, d.makerPays);
  }

  /**
   Matching an order with the best of the other book for as long as they cross: accounts, books, and what is left
   of it.
   */
  ghost function Settle(accounts: Accounts, book: Books, o: Order, now: nat, rate: nat): (r: Standing)
    requires BooksOk(book, o.id) && OrderOk(o)
    decreases |book[Other(o.sells)]|
  {
    var side := book[Other(o.sells)];
    if side == [] || !Crosses(o, side[0]) then Standing(accounts, book, o.forSale)
    else
      TradeKeeps(accounts, book, o, now, rate);
      var r := Traded(accounts, book, o, now, rate);
      if r.left == 0 then r else Settle(r.accounts, r.book, o.(forSale := r.left), now, rate)
  }

  /** An order has been added to its book. */
  ghost predicate Rests(before: Books, after: Books, o: Order)
  {
    && o.sells in before
    && exists k :: 0 <= k <= |before[o.sells]| && after == before[o.sells := Inserted(before[o.sells], k, o)]
  }

  ghost function Inserted(side: seq<Order>, k: nat, o: Order): (r: seq<Order>)
    requires k <= |side|
  {
    side[..k] + [o] + side[k..]
  }

  /** A new order takes its place among those it does not cross. */
  lemma {:induction false} RestKeeps(book: Books, o: Order, k: nat)
    requires BooksOk(book, o.id) && OrderOk(o) && Findable(o.base, o.quote) && k <= |book[o.sells]|
    requires Sorted(Inserted(book[o.sells], k, o))
    requires book[Other(o.sells)] == [] || !Crosses(o, book[Other(o.sells)][0])
    ensures BooksOk(book[o.sells := Inserted(book[o.sells], k, o)], o.id + 1)
  {
    hide Before, Crosses, Sorted, OrderOk;
    var side, other := book[o.sells], book[Other(o.sells)];
    NoneCrossed(o, other, o.id);
    InsertedAre(side, o, k);
  }

  lemma {:induction false} NoneCrossed(o: Order, other: seq<Order>, nextId: nat)
    requires BookOk(other, Other(o.sells), nextId) && OrderOk(o) && (other == [] || !Crosses(o, other[0]))
    ensures forall y :: y in other ==> !Crosses(o, y) && !Crosses(y, o)
  {
    hide Before, Crosses;
    forall y | y in other ensures !Crosses(o, y) && !Crosses(y, o) {
      if Crosses(o, y) {
        var j :| 0 <= j < |other| && other[j] == y;
        BestDecides(o, other[0], y);
      }
      CrossesBoth(o, y);
    }
  }

  lemma {:induction false} InsertedAre(side: seq<Order>, o: Order, k: nat)
    requires k <= |side|
    ensures forall x :: x in side[..k] + [o] + side[k..] ==> x == o || x in side
  {
  }

  lemma {:induction false} CrossesBoth(a: Order, b: Order)
    ensures Crosses(a, b) <==> Crosses(b, a)
  {
  }

  lemma {:induction false} RemoveKeeps(book: Books, s: Symbol, k: nat, nextId: nat)
    requires BooksOk(book, nextId) && k < |book[s]|
    ensures BooksOk(book[s := Without(book[s], k)], nextId)
  {
    hide Before, Crosses, Sorted, OrderOk;
    WithoutKeeps(book[s], k, s, nextId);
    forall x | x in Without(book[s], k) ensures x in book[s] {
    }
  }

  function Without(side: seq<Order>, k: nat): seq<Order>
    requires k < |side|
  {
    side[..k] + side[k + 1..]
  }

  // ---------- The orders in the ledger ----------

  function SaleOf(o: Order): Sale
  {
    Sale(o.seller, Amount(o.sells, o.forSale))
  }

  ghost predicate InBook(book: Books, o: Order)
  {
    o.sells in book && o in book[o.sells]
  }

  /** The ledger holds exactly what the orders of the books still sell. */
  ghost predicate Mirrors(sales: Sales, book: Books)
  {
    && (forall o :: InBook(book, o) ==> o.id in sales && sales[o.id] == SaleOf(o))
    && (forall id :: id in sales ==> exists o :: InBook(book, o) && o.id == id)
    && (forall o, p :: InBook(book, o) && InBook(book, p) && o.id == p.id ==> o == p)
  }

  /** The same with one more order that has not come to rest. */
  ghost predicate InHand(sales: Sales, book: Books, o: Order)
  {
    o.id in sales && sales[o.id] == SaleOf(o) && Mirrors(sales - {o.id}, book)
  }

  /** An order that leaves its book leaves the ledger. */
  lemma {:induction false} MirrorsWithout(sales: Sales, book: Books, s: Symbol, k: nat, nextId: nat)
    requires Mirrors(sales, book) && BooksOk(book, nextId) && k < |book[s]|
    ensures var o := book[s][k];
            o.sells == s && o.id in sales && sales[o.id] == SaleOf(o)
            && Mirrors(sales - {o.id}, book[s := Without(book[s], k)])
  {
    hide Crosses, OrderOk;
    var o := book[s][k];
    assert Listed(o, s, nextId) && InBook(book, o);
    var book' := book[s := Without(book[s], k)];
    forall p ensures InBook(book', p) <==> InBook(book, p) && p != o {
      StillThere(book[s], k, p);
    }
  }

  lemma {:induction false} StillThere(side: seq<Order>, k: nat, p: Order)
    requires k < |side| && Sorted(side)
    ensures p in Without(side, k) <==> p in side && p != side[k]
  {
    assert side == side[..k] + [side[k]] + side[k + 1..];
    if p in side[..k] {
      var i :| 0 <= i < k && side[i] == p;
      assert Before(side[i], side[k]);
    }
    if p in side[k + 1..] {
      var i :| k < i < |side| && side[i] == p;
      assert Before(side[k], side[i]);
    }
  }

  /** An order that has paid in part sells less. */
  lemma {:induction false} MirrorsReduced(sales: Sales, book: Books, s: Symbol, v: nat, nextId: nat)
    requires Mirrors(sales, book) && BooksOk(book, nextId) && book[s] != []
    ensures var o := book[s][0].(forSale := v);
            Mirrors(sales[o.id := SaleOf(o)], book[s := [o] + book[s][1..]])
  {
    hide Crosses, OrderOk;
    var front := book[s][0];
    var o := front.(forSale := v);
    assert Listed(front, s, nextId) && InBook(book, front);
    var book' := book[s := [o] + book[s][1..]];
    assert InBook(book', o);
    forall p ensures InBook(book', p) <==> p == o || (InBook(book, p) && p != front) {
      StillThere(book[s], 0, p);
      assert Without(book[s], 0) == book[s][1..];
    }
  }

  /** The best order of a book has paid. */
  lemma {:induction false} MirrorsFront(sales: Sales, book: Books, s: Symbol, pays: nat, nextId: nat)
    requires Mirrors(sales, book) && BooksOk(book, nextId) && book[s] != []
    requires pays <= book[s][0].forSale && book[s][0].base > 0
    ensures var o := book[s][0];
            && o.id in sales && sales[o.id] == SaleOf(o)
            && Mirrors(Reduced(sales, o.id, pays, Left(o, pays) == 0), book[s := AfterFront(book[s], pays)])
  {
    hide Mirrors, BookOk, Uncrossed;
    var o := book[s][0];
    MirrorsWithout(sales, book, s, 0, nextId);
    MirrorsReduced(sales, book, s, o.forSale - pays, nextId);
    assert Without(book[s], 0) == book[s][1..];
    LeftPart(o, pays);
  }

  lemma {:induction false} LeftPart(o: Order, pays: nat)
    requires pays <= o.forSale && o.base > 0
    ensures Left(o, pays) == 0 || (pays < o.forSale && Left(o, pays) == o.forSale - pays)
    ensures pays == o.forSale ==> Left(o, pays) == 0
  {
  }

  /** A new order comes to rest. */
  lemma {:induction false} MirrorsRest(sales: Sales, book: Books, o: Order, k: nat)
    requires InHand(sales, book, o) && o.sells in book && k <= |book[o.sells]|
    ensures Mirrors(sales, book[o.sells := Inserted(book[o.sells], k, o)])
  {
    var side := book[o.sells];
    var book' := book[o.sells := Inserted(side, k, o)];
    forall p ensures InBook(book', p) <==> p == o || InBook(book, p) {
      assert side == side[..k] + side[k..];
      assert p in Inserted(side, k, o) <==> p == o || p in side;
    }
    forall id | id in sales ensures exists p :: InBook(book', p) && p.id == id {
      if id == o.id {
        assert InBook(book', o);
      } else {
        assert id in sales - {o.id};
        var p :| InBook(book, p) && p.id == id;
        assert InBook(book', p);
      }
    }
  }

  lemma {:induction false} NewIsFree(sales: Sales, book: Books, nextId: nat)
    requires Mirrors(sales, book) && BooksOk(book, nextId)
    ensures nextId !in sales
  {
    hide OrderOk, Crosses;
    if nextId in sales {
      var o :| InBook(book, o) && o.id == nextId;
      BookOf(book, o.sells, nextId);
    }
  }

  lemma {:induction false} BookOf(book: Books, s: Symbol, nextId: nat)
    requires BooksOk(book, nextId)
    ensures BookOk(book[s], s, nextId)
  {
    match s case TME => case TSD =>
  }


  /** The orders that have not expired. */
  ghost predicate Unexpired(before: seq<Order>, after: seq<Order>, now: nat)
  {
    forall o :: o in after <==> o in before && o.expiration >= now
  }

  /** Only expired orders are missing. */
  ghost predicate Dropped(before: seq<Order>, after: seq<Order>, now: nat)
  {
    (forall o :: o in after ==> o in before) && (forall o :: o in before && o.expiration >= now ==> o in after)
  }

  lemma {:induction false} DropOne(before: seq<Order>, side: seq<Order>, k: nat, now: nat)
    requires Dropped(before, side, now) && k < |side| && side[k].expiration < now
    ensures Dropped(before, side[..k] + side[k + 1..], now)
  {
    assert side == side[..k] + [side[k]] + side[k + 1..];
  }

  ghost predicate NoSuch(side: seq<Order>, owner: nat, orderid: nat)
  {
    forall o :: o in side ==> o.seller != owner || o.orderid != orderid
  }

  lemma {:induction false} NoneAtAll(book: Books, owner: nat, orderid: nat)
    requires TME in book && TSD in book && NoSuch(book[TME], owner, orderid) && NoSuch(book[TSD], owner, orderid)
    ensures forall s :: s in book ==> NoSuch(book[s], owner, orderid)
  {
    forall s | s in book ensures NoSuch(book[s], owner, orderid) {
      match s case TME => case TSD =>
    }
  }

  function NewOrder(op: Operation, id: nat): (o: Order)
    requires op.Create?
  {
    Order(id, op.owner, op.orderid, op.sells, op.amount, op.base, op.quote, op.expiration)
  }

  lemma {:induction false} BothSymbols<T>(m: map<Symbol, T>)
    requires TME in m && TSD in m
    ensures forall s: Symbol :: s in m
  {
    forall s: Symbol ensures s in m {
      match s case TME => case TSD =>
    }
  }

  // ---------- The market ----------

  /** Nobody's SCORE is touched. */
  ghost predicate ScoreStays(accounts: Accounts, gpo: Globals, accounts': Accounts, gpo': Globals)
  {
    accounts'.Keys == accounts.Keys && Stakes(accounts') == Stakes(accounts) && SameFund(gpo, gpo')
  }

  class MarketDatabase {
    const ledger: LedgerDatabase
    var book: Books
    var nextId: nat

    ghost predicate Valid()
      reads this, ledger
    {
      ledger.Valid() && Booked()
    }

    /** The books are sound, and the ledger holds what they sell. */
    ghost predicate Booked()
      reads this, ledger`sales
    {
      BooksOk(book, nextId) && Mirrors(ledger.sales, book)
    }

    constructor (ledger: LedgerDatabase)
      requires ledger.sales == map[]
      ensures this.ledger == ledger && book == map[TME := [], TSD := []] && nextId == 0 && Booked()
    {
      this.ledger := ledger;
      book, nextId := map[TME := [], TSD := []], 0;
      new;
      BothSymbols(book);
    }

    /** Matches an order in hand with the best one of the other book. */
    method MatchBest(o: Order) returns (left: nat)
      requires ledger.Valid() && BooksOk(book, nextId) && InHand(ledger.sales, book, o) && OrderOk(o) && o.id == nextId
      requires book[Other(o.sells)] != [] && Crosses(o, book[Other(o.sells)][0])
      modifies this`book, ledger`accounts, ledger`gpo, ledger`sales
      ensures ledger.Valid() && BooksOk(book, nextId)
      ensures Standing(ledger.accounts, book, left)
        == Traded(old(ledger.accounts), old(book), o, ledger.now, ledger.rate)
      ensures if left > 0 then InHand(ledger.sales, book, o.(forSale := left)) else Mirrors(ledger.sales, book)
      ensures ScoreStays(old(ledger.accounts), old(ledger.gpo), ledger.accounts, ledger.gpo)
    {
      hide LedgerDatabase.Valid, BookOk, Uncrossed, Crosses, Left, Match, ToReceive, Mirrors, Stakes, Filled, Reduced;
      var s := Other(o.sells);
      var maker := book[s][0];
      FrontFacts(book, o);
      MatchIsFair(o, maker);
      var d := Match(o, maker);
      NextFront(book, s, d.makerPays, o.id);
      left := Left(o, d.takerPays);
      var rest := Left(maker, d.makerPays);
      TradeMirrors(ledger.sales, book, o, d.takerPays, d.makerPays);
      var _ := ledger.FillSales(o.id, maker.id, d.takerPays, d.makerPays, left == 0, rest == 0);
      book := book[s := (if rest == 0 then [] else [maker.(forSale := rest)]) + book[s][1..]];
    }

    /** Where the search for matches starts: behind orders priced beyond the greatest price, of which there are none. */
    method FirstCandidate(s: Symbol) returns (k: nat)
      requires BooksOk(book, nextId)
      ensures k == 0
    {
      hide Sorted, Uncrossed, Before, Crosses;
      k := 0;
      while k < |book[s]| && !Findable(book[s][k].base, book[s][k].quote)
        invariant k <= |book[s]|
        invariant k > 0 ==> !Findable(book[s][0].base, book[s][0].quote)
      {
        k := k + 1;
      }
      if k > 0 {
        BookOf(book, s, nextId);
      }
    }

    /**
     Matches a new order until it is closed or nothing in the other book reaches it; then it rests.
     It never trades at a price beyond its limit, and the books end up uncrossed.
     */
    method ApplyOrder(o: Order) returns (left: nat)
      requires ledger.Valid() && BooksOk(book, nextId) && InHand(ledger.sales, book, o)
      requires OrderOk(o) && Findable(o.base, o.quote) && o.id == nextId
      modifies this, ledger`accounts, ledger`gpo, ledger`sales
      ensures Valid() && nextId == old(nextId) + 1
      ensures var r := Settle(old(ledger.accounts), old(book), o, ledger.now, ledger.rate);
              && ledger.accounts == r.accounts && left == r.left
              && if left > 0 then Rests(r.book, book, o.(forSale := left)) else book == r.book
      ensures ScoreStays(old(ledger.accounts), old(ledger.gpo), ledger.accounts, ledger.gpo)
    {
      hide BookOk, Uncrossed, Crosses, Left, Match, Traded, Mirrors, LedgerDatabase.Valid, Stakes, OrderOk;
      var s := Other(o.sells);
      var first := FirstCandidate(s);
      PositiveBase(o);
      var rest := o;
      left := o.forSale;
      while left > 0 && first < |book[s]| && Crosses(rest, book[s][first])
        invariant ledger.Valid() && BooksOk(book, nextId) && nextId == o.id && left <= o.forSale
        invariant if left > 0 then InHand(ledger.sales, book, rest) else Mirrors(ledger.sales, book)
        invariant rest == o.(forSale := left) && (left > 0 ==> OrderOk(rest))
        invariant Settle(old(ledger.accounts), old(book), o, ledger.now, ledger.rate)
          == if left > 0 then Settle(ledger.accounts, book, rest, ledger.now, ledger.rate)
             else Standing(ledger.accounts, book, 0)
        invariant ScoreStays(old(ledger.accounts), old(ledger.gpo), ledger.accounts, ledger.gpo)
        decreases left > 0, |book[s]|
      {
        TradeKeeps(ledger.accounts, book, rest, ledger.now, ledger.rate);
        left := MatchBest(rest);
        rest := rest.(forSale := left);
      }
      if left > 0 {
        Rest(rest);
      } else {
        NextIdOnly(book, nextId);
      }
      nextId := nextId + 1;
    }

    /** An order in hand takes its place in its book. */
    method Rest(o: Order)
      requires BooksOk(book, nextId) && InHand(ledger.sales, book, o)
      requires OrderOk(o) && Findable(o.base, o.quote) && o.id == nextId
      requires book[Other(o.sells)] == [] || !Crosses(o, book[Other(o.sells)][0])
      modifies this`book
      ensures BooksOk(book, nextId + 1) && Mirrors(ledger.sales, book) && Rests(old(book), book, o)
    {
      hide Crosses, Sorted, Uncrossed, Mirrors, OrderOk;
      var side := book[o.sells];
      BookOf(book, o.sells, nextId);
      var k := Place(side, o);
      RestKeeps(book, o, k);
      MirrorsRest(ledger.sales, book, o, k);
      book := book[o.sells := side[..k] + [o] + side[k..]];
      assert book == old(book)[o.sells := Inserted(side, k, o)];
    }

    /** The place of an account's order in a book, if it has one there. */
    method Find(s: Symbol, owner: nat, orderid: nat) returns (k: int)
      requires s in book
      ensures -1 <= k < |book[s]|
      ensures k >= 0 ==> book[s][k].seller == owner && book[s][k].orderid == orderid
      ensures k < 0 <==> NoSuch(book[s], owner, orderid)
    {
      k := |book[s]| - 1;
      while k >= 0 && (book[s][k].seller != owner || book[s][k].orderid != orderid)
        invariant -1 <= k < |book[s]|
        invariant forall i :: k < i < |book[s]| ==> book[s][i].seller != owner || book[s][i].orderid != orderid
        decreases k
      {
        k := k - 1;
      }
      assert k >= 0 ==> book[s][k] in book[s];
    }

    /** Takes an order out of its book and gives back what it still sells. */
    method Remove(s: Symbol, k: nat)
      requires Valid() && s in book && k < |book[s]|
      modifies this`book, ledger`accounts, ledger`gpo, ledger`sales
      ensures Valid() && book == old(book)[s := Without(old(book)[s], k)]
      ensures var o := old(book)[s][k];
              ledger.accounts == Adjust(old(ledger.accounts), o.seller, s, o.forSale, ledger.now, ledger.rate)
      ensures ScoreStays(old(ledger.accounts), old(ledger.gpo), ledger.accounts, ledger.gpo)
    {
      hide BookOk, Uncrossed, LedgerDatabase.Valid, Mirrors, Stakes, Adjust;
      var o := book[s][k];
      MirrorsWithout(ledger.sales, book, s, k, nextId);
      SellerKnown(o.id);
      RemoveKeeps(book, s, k, nextId);
      ledger.CancelSale(o.id);
      book := book[s := book[s][..k] + book[s][k + 1..]];
    }

    lemma SellerKnown(id: nat)
      requires ledger.Valid() && id in ledger.sales
      ensures ledger.sales[id].seller in ledger.accounts
    {
      hide LedgerDatabase.GapTme, LedgerDatabase.GapTsd, LedgerDatabase.GapScore, LedgerDatabase.RewardsMatch;
    }

    /** A new order: refused without effect, or matched and, unless it must be filled at once, left to rest. */
    method CreateOrder(op: Operation) returns (ok: bool)
      requires Valid() && op.Create? && Findable(op.base, op.quote)
      modifies this, ledger`accounts, ledger`gpo, ledger`sales
      ensures Valid()
      ensures !ok ==>
        ledger.accounts == old(ledger.accounts) && ledger.sales == old(ledger.sales) && book == old(book)
          && nextId == old(nextId)
      ensures if Acceptable(old(ledger.accounts), old(book), ledger.now, op) then
                var r := Placed(old(ledger.accounts), old(book), old(nextId), op, ledger.now, ledger.rate);
                && (ok <==> r.left == 0 || !op.fillOrKill)
                && (ok ==>
                      && ledger.accounts == r.accounts
                      && if r.left > 0 then Rests(r.book, book, NewOrder(op, old(nextId)).(forSale := r.left))
                         else book == r.book)
              else
                !ok
      ensures ScoreStays(old(ledger.accounts), old(ledger.gpo), ledger.accounts, ledger.gpo)
    {
      hide BooksOk, LedgerDatabase.Valid, Mirrors, Stakes, Acceptable, Placed;
      BooksThere(book, nextId);
      ok := Check(op);
      if !ok {
        return;
      }
      var accounts, gpo, sales, books, id := ledger.accounts, ledger.gpo, ledger.sales, book, nextId;
      var left := PlaceOrder(op);
      if op.fillOrKill && left > 0 {
        ledger.accounts, ledger.gpo, ledger.sales := accounts, gpo, sales;
        book, nextId := books, id;
        ledger.PutBack();
        ok := false;
      }
    }

    /** What an acceptable order sells leaves its owner's balance; then it is matched. */
    method PlaceOrder(op: Operation) returns (left: nat)
      requires Valid() && op.Create? && Findable(op.base, op.quote) && Acceptable(ledger.accounts, book, ledger.now, op)
      modifies this, ledger`accounts, ledger`gpo, ledger`sales
      ensures Valid()
      ensures var r := Placed(old(ledger.accounts), old(book), old(nextId), op, ledger.now, ledger.rate);
              && left == r.left && ledger.accounts == r.accounts
              && if left > 0 then Rests(r.book, book, NewOrder(op, old(nextId)).(forSale := left)) else book == r.book
      ensures ScoreStays(old(ledger.accounts), old(ledger.gpo), ledger.accounts, ledger.gpo)
    {
      hide BooksOk, LedgerDatabase.Valid, Mirrors, Stakes, Adjust, Settle, OrderOk, NoSuch, Rests;
      NewIsFree(ledger.sales, book, nextId);
      NewOk(op, nextId);
      var o := NewOrder(op, nextId);
      ghost var sales := ledger.sales;
      var _ := ledger.PlaceSale(nextId, SaleOf(o));
      assert ledger.sales - {nextId} == sales;
      left := ApplyOrder(o);
    }

    method Check(op: Operation) returns (ok: bool)
      requires op.Create? && forall s: Symbol :: s in book
      ensures ok <==> Acceptable(ledger.accounts, book, ledger.now, op)
    {
      ok := false;
      if op.expiration <= ledger.now || op.amount == 0 || op.base == 0 || op.quote == 0 {
        return;
      }
      var get := op.amount * op.quote / op.base;
      if get == 0 || get >= INT64 || op.owner !in ledger.accounts
         || Liquid(ledger.accounts[op.owner], op.sells) < op.amount {
        return;
      }
      var i := Find(TME, op.owner, op.orderid);
      var j := Find(TSD, op.owner, op.orderid);
      if i < 0 && j < 0 {
        NoneAtAll(book, op.owner, op.orderid);
        ok := true;
      }
    }

    /** Cancelling an order gives back what it has not sold. */
    method CancelOrder(owner: nat, orderid: nat) returns (ok: bool)
      requires Valid()
      modifies this`book, ledger`accounts, ledger`gpo, ledger`sales
      ensures Valid()
      ensures ok <==> exists s :: s in old(book) && !NoSuch(old(book)[s], owner, orderid)
      ensures !ok ==> ledger.accounts == old(ledger.accounts) && book == old(book)
      ensures ok ==> exists s: Symbol, k: nat ::
        && KnownAs(old(book), owner, orderid, s, k) && book == old(book)[s := Without(old(book)[s], k)]
        && ledger.accounts
          == Adjust(old(ledger.accounts), owner, s, old(book)[s][k].forSale, ledger.now, ledger.rate)
      ensures ScoreStays(old(ledger.accounts), old(ledger.gpo), ledger.accounts, ledger.gpo)
    {
      hide BookOk, Uncrossed, LedgerDatabase.Valid, Mirrors, Stakes, Adjust;
      ok := true;
      var k := Find(TME, owner, orderid);
      if k >= 0 {
        Remove(TME, k);
        assert KnownAs(old(book), owner, orderid, TME, k);
        return;
      }
      k := Find(TSD, owner, orderid);
      if k >= 0 {
        Remove(TSD, k);
        assert KnownAs(old(book), owner, orderid, TSD, k);
        return;
      }
      NoneAtAll(book, owner, orderid);
      ok := false;
    }

    /** Expired orders of one book are cancelled; the others stay. */
    method ExpireSide(s: Symbol)
      requires Valid()
      modifies this`book, ledger`accounts, ledger`gpo, ledger`sales
      ensures Valid() && Other(s) in book && Other(s) in old(book) && book[Other(s)] == old(book)[Other(s)]
      ensures s in book && s in old(book) && Unexpired(old(book)[s], book[s], ledger.now)
      ensures ScoreStays(old(ledger.accounts), old(ledger.gpo), ledger.accounts, ledger.gpo)
    {
      hide BookOk, Uncrossed, LedgerDatabase.Valid, Mirrors, Stakes, Adjust, Before;
      var k := 0;
      while k < |book[s]|
        invariant Valid() && book[Other(s)] == old(book)[Other(s)]
        invariant k <= |book[s]|
        invariant forall i :: 0 <= i < k ==> book[s][i].expiration >= ledger.now
        invariant Dropped(old(book)[s], book[s], ledger.now)
        invariant ScoreStays(old(ledger.accounts), old(ledger.gpo), ledger.accounts, ledger.gpo)
        decreases |book[s]| - k
      {
        if book[s][k].expiration < ledger.now {
          DropOne(old(book)[s], book[s], k, ledger.now);
          Remove(s, k);
        } else {
          k := k + 1;
        }
      }
    }

    method ExpireOrders()
      requires Valid()
      modifies this`book, ledger`accounts, ledger`gpo, ledger`sales
      ensures Valid()
      ensures forall s: Symbol :: s in book && s in old(book) && Unexpired(old(book)[s], book[s], ledger.now)
      ensures ScoreStays(old(ledger.accounts), old(ledger.gpo), ledger.accounts, ledger.gpo)
    {
      hide BookOk, Uncrossed, LedgerDatabase.Valid, Mirrors, Stakes;
      ExpireSide(TME);
      ExpireSide(TSD);
      forall s: Symbol ensures s in book && s in old(book) && Unexpired(old(book)[s], book[s], ledger.now) {
        match s case TME => case TSD =>
      }
    }

    method Apply(op: Operation)
      requires Valid()
      modifies this, ledger`accounts, ledger`gpo, ledger`sales
      ensures Valid() && ScoreStays(old(ledger.accounts), old(ledger.gpo), ledger.accounts, ledger.gpo)
    {
      hide BookOk, Uncrossed, LedgerDatabase.Valid, Mirrors, Stakes, Settle;
      match op {
        case Create(_, _, _, _, base, quote, _, _) =>
          if Findable(base, quote) {
            var _ := CreateOrder(op);
          }
        case Cancel(owner, orderid) =>
          var _ := CancelOrder(owner, orderid);
        case Expire =>
          ExpireOrders();
      }
    }

    /** Any sequence of operations keeps the books uncrossed and fillable, and the supplies whole. */
    method Run(operations: seq<Operation>)
      requires Valid()
      modifies this, ledger`accounts, ledger`gpo, ledger`sales
      ensures Valid() && ScoreStays(old(ledger.accounts), old(ledger.gpo), ledger.accounts, ledger.gpo)
    {
      hide BookOk, Uncrossed, LedgerDatabase.Valid, Mirrors, Stakes;
      for i := 0 to |operations|
        invariant Valid() && ScoreStays(old(ledger.accounts), old(ledger.gpo), ledger.accounts, ledger.gpo)
      {
        Apply(operations[i]);
      }
    }
  }

  /** Both orders of a match pay: the ledger follows the books. */
  lemma {:induction false} TradeMirrors(sales: Sales, book: Books, o: Order, takerPays: nat, makerPays: nat)
    requires InHand(sales, book, o) && BooksOk(book, o.id) && OrderOk(o) && book[Other(o.sells)] != []
    requires takerPays <= o.forSale && makerPays <= book[Other(o.sells)][0].forSale
    ensures var maker := book[Other(o.sells)][0];
            && maker.base > 0 && o.base > 0
            && maker.id in sales && sales[maker.id] == SaleOf(maker)
            && maker.id != o.id && maker.sells == Other(o.sells)
            && var first := Reduced(sales, o.id, takerPays, Left(o, takerPays) == 0);
            && maker.id in first && first[maker.id] == SaleOf(maker)
            && var last := Reduced(first, maker.id, makerPays, Left(maker, makerPays) == 0);
            var book' := book[Other(o.sells) := AfterFront(book[Other(o.sells)], makerPays)];
            if Left(o, takerPays) > 0 then InHand(last, book', o.(forSale := Left(o, takerPays)))
            else Mirrors(last, book')
  {
    hide Mirrors, BookOk, Uncrossed, OrderOk, Left, AfterFront;
    var maker := book[Other(o.sells)][0];
    FrontFacts(book, o);
    assert o.base > 0 by { PositiveBase(o); }
    MirrorsFront(sales - {o.id}, book, Other(o.sells), makerPays, o.id);
    LeftPart(o, takerPays);
    LeftPart(maker, makerPays);
    ReducedApart(sales, o, maker, takerPays, makerPays);
  }

  lemma {:induction false} PositiveBase(o: Order)
    requires OrderOk(o)
    ensures o.base > 0 && o.forSale > 0
  {
  }

  /** What one order pays does not matter to the others. */
  lemma {:induction false} ReducedApart(sales: Sales, o: Order, maker: Order, takerPays: nat, makerPays: nat)
    requires o.id in sales && sales[o.id] == SaleOf(o) && takerPays <= o.forSale && o.base > 0
    requires maker.id in sales && sales[maker.id] == SaleOf(maker) && makerPays <= maker.forSale && maker.base > 0
    requires o.id != maker.id
    ensures var first := Reduced(sales, o.id, takerPays, Left(o, takerPays) == 0);
            && maker.id in first && first[maker.id] == SaleOf(maker)
            && var last := Reduced(first, maker.id, makerPays, Left(maker, makerPays) == 0);
            && last - {o.id} == Reduced(sales - {o.id}, maker.id, makerPays, Left(maker, makerPays) == 0)
            && (Left(o, takerPays) == 0 ==> last == last - {o.id})
            && (Left(o, takerPays) > 0 ==>
                  o.id in last && last[o.id] == SaleOf(o.(forSale := Left(o, takerPays))))
  {
    hide Left;
    LeftPart(o, takerPays);
    LeftPart(maker, makerPays);
  }

  lemma {:induction false} BooksThere(book: Books, nextId: nat)
    requires BooksOk(book, nextId)
    ensures forall s: Symbol :: s in book
  {
  }

  lemma {:induction false} NextIdOnly(book: Books, nextId: nat)
    requires BooksOk(book, nextId)
    ensures BooksOk(book, nextId + 1)
  {
  }

  /** The checks a new order must pass before anything changes. */
  ghost predicate Acceptable(accounts: Accounts, book: Books, now: nat, op: Operation)
    requires op.Create?
  {
    && op.expiration > now
    && op.amount > 0 && op.base > 0 && op.quote > 0 && 0 < op.amount * op.quote / op.base < INT64
    && op.owner in accounts && Liquid(accounts[op.owner], op.sells) >= op.amount
    && forall s :: s in book ==> NoSuch(book[s], op.owner, op.orderid)
  }

  function Liquid(a: Account, s: Symbol): nat
  {
    if s == TME then a.tme else a.tsd
  }

  lemma {:induction false} NewOk(op: Operation, id: nat)
    requires op.Create? && op.amount > 0 && op.base > 0 && op.quote > 0 && 0 < op.amount * op.quote / op.base < INT64
    ensures OrderOk(NewOrder(op, id))
  {
  }

  /** How a new order fares once the amount it sells has left its owner's balance. */
  ghost function Placed(accounts: Accounts, book: Books, nextId: nat, op: Operation, now: nat, rate: nat): (r: Standing)
    requires op.Create? && BooksOk(book, nextId) && Acceptable(accounts, book, now, op)
  {
    NewOk(op, nextId);
    Settle(Adjust(accounts, op.owner, op.sells, Neg(op.amount), now, rate), book, NewOrder(op, nextId), now, rate)
  }

  /** Order k of a book is the one an account knows under that number. */
  ghost predicate KnownAs(book: Books, owner: nat, orderid: nat, s: Symbol, k: nat)
  {
    s in book && k < |book[s]| && book[s][k].seller == owner && book[s][k].orderid == orderid
  }
}
