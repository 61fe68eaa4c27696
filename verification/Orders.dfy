/**
 Limit orders and what happens when two of them meet.  An order offers `base` of the asset it sells for every
 `quote` of the other one; amounts are traded at the resting order's price, rounded down.
 */
module Orders {
  import opened Arithmetic

  datatype Symbol = TME | TSD

  function Other(s: Symbol): Symbol { if s == TME then TSD else TME }

  const MAX_SUPPLY: nat := 1_000_000_000_000_000_000   // MAX_SCORE_SUPPLY
  const INT64: nat := 0x8000_0000_0000_0000            // amounts are below this

  datatype Order = Order(id: nat, seller: nat, orderid: nat, sells: Symbol, forSale: nat, base: nat, quote: nat,
      expiration: nat)

  /** A price is not beyond the greatest one, where the search for matches starts. */
  predicate Findable(base: nat, quote: nat)
  {
    base <= MAX_SUPPLY * quote
  }

  /** What an order asks for all it still sells. */
  function ToReceive(o: Order): (r: nat)
    requires o.base > 0
  {
    o.forSale * o.quote / o.base
  }

  /** A resting order sells something, and would still receive at least one unit for it. */
  ghost predicate OrderOk(o: Order)
  {
    o.base > 0 && o.quote > 0 && o.forSale > 0 && 0 < ToReceive(o) < INT64
  }

  /** The taker's limit is met by the maker's price. */
  predicate Crosses(taker: Order, maker: Order)
  {
    maker.base * taker.base >= maker.quote * taker.quote
  }

  /** `a` stands before `b` in the book: a better price for takers, or the same price and an earlier order. */
  predicate Before(a: Order, b: Order)
  {
    a.base * b.quote > b.base * a.quote || (a.base * b.quote == b.base * a.quote && a.id < b.id)
  }

  /** As prices: the maker asks no more for a unit than the taker pays, and the cheaper order comes first. */
  lemma {:induction false} AsPrices(a: Order, b: Order)
    requires a.base > 0 && a.quote > 0 && b.base > 0 && b.quote > 0
    ensures Crosses(a, b) <==> (b.base as real) / (b.quote as real) >= (a.quote as real) / (a.base as real)
    ensures Before(a, b) <==>
      || (a.base as real) / (a.quote as real) > (b.base as real) / (b.quote as real)
      || ((a.base as real) / (a.quote as real) == (b.base as real) / (b.quote as real) && a.id < b.id)
  {
    Ratios(b.base, b.quote, a.quote, a.base);
    Ratios(a.base, a.quote, b.base, b.quote);
    Ratios(b.base, b.quote, a.base, a.quote);
  }

  /** Fractions compare as the products across do. */
  lemma {:induction false} Ratios(a: nat, b: nat, c: nat, d: nat)
    requires b > 0 && d > 0
    ensures (a as real) / (b as real) >= (c as real) / (d as real) <==> a * d >= c * b
  {
    var x, y := (a as real) / (b as real), (c as real) / (d as real);
    var bd := (b as real) * (d as real);
    assert x * bd == (a as real) * (d as real);
    assert y * bd == (c as real) * (b as real);
    assert (a * d) as real == (a as real) * (d as real) && (c * b) as real == (c as real) * (b as real);
    if x >= y {
      assert (x - y) * bd >= 0.0;
    } else {
      assert (y - x) * bd > 0.0;
    }
  }

  lemma {:induction false} Cancel(c: nat, a: nat, b: nat)
    requires c > 0 && c * a >= c * b
    ensures a >= b && (c * a > c * b ==> a > b)
  {
    if a < b {
      MulMono(a + 1, b, c);
    } else if a == b {
      assert c * a == c * b;
    }
  }

  /** Ratios compare transitively: a1/a2 >= b1/b2 >= c1/c2. */
  lemma {:induction false} RatioTrans(a1: nat, a2: nat, b1: nat, b2: nat, c1: nat, c2: nat)
    requires b2 > 0 && a1 * b2 >= b1 * a2 && b1 * c2 >= c1 * b2
    ensures a1 * c2 >= c1 * a2
    ensures a1 * b2 > b1 * a2 && c2 > 0 ==> a1 * c2 > c1 * a2
    ensures b1 * c2 > c1 * b2 && a2 > 0 ==> a1 * c2 > c1 * a2
  {
    MulMono(b1 * a2, a1 * b2, c2);
    MulMono(c1 * b2, b1 * c2, a2);
    assert (a1 * b2) * c2 == b2 * (a1 * c2) by { Product(a1, b2, c2); }
    assert (b1 * a2) * c2 == (b1 * c2) * a2 by { Product(b1, a2, c2); Product(b1, c2, a2); }
    assert (c1 * b2) * a2 == b2 * (c1 * a2) by { Product(c1, b2, a2); }
    if a1 * b2 > b1 * a2 && c2 > 0 {
      MulMono(b1 * a2 + 1, a1 * b2, c2);
      Distribute(b1 * a2, 1, c2);
    }
    if b1 * c2 > c1 * b2 && a2 > 0 {
      MulMono(c1 * b2 + 1, b1 * c2, a2);
      Distribute(c1 * b2, 1, a2);
    }
    Cancel(b2, a1 * c2, c1 * a2);
  }

  lemma {:induction false} Product(a: nat, b: nat, c: nat)
    ensures a * b * c == b * (a * c) && a * b * c == a * c * b
  {
  }

  lemma {:induction false} BeforeTrans(a: Order, b: Order, c: Order)
    requires a.quote > 0 && b.quote > 0 && c.quote > 0 && Before(a, b) && Before(b, c)
    ensures Before(a, c)
  {
    RatioTrans(a.base, a.quote, b.base, b.quote, c.base, c.quote);
    if a.base * b.quote == b.base * a.quote && b.base * c.quote == c.base * b.quote {
      RatioTrans(c.base, c.quote, b.base, b.quote, a.base, a.quote);
    }
  }

  /** An order that the best of the book does not reach is reached by none. */
  lemma {:induction false} BestDecides(taker: Order, best: Order, maker: Order)
    requires best.quote > 0 && maker.quote > 0 && taker.quote > 0 && taker.base > 0
    requires best == maker || Before(best, maker)
    requires Crosses(taker, maker)
    ensures Crosses(taker, best)
  {
    if best != maker {
      RatioTrans(best.base, best.quote, maker.base, maker.quote, taker.quote, taker.base);
    }
  }

  // ---------- One match ----------

  /** What changes hands: the taker pays what the maker receives, and the other way round. */
  datatype Deal = Deal(takerPays: nat, makerPays: nat)

  function Match(taker: Order, maker: Order): (d: Deal)
    requires maker.base > 0 && maker.quote > 0
  {
    if taker.forSale <= ToReceive(maker) then
      Deal(taker.forSale, taker.forSale * maker.base / maker.quote)
    else
      Deal(ToReceive(maker), maker.forSale)
  }

  /** An order after it has paid: gone if all is sold or what is left would buy nothing. */
  function Left(o: Order, pays: nat): (r: nat)
    requires pays <= o.forSale && o.base > 0
    ensures r <= o.forSale - pays
  {
    if (o.forSale - pays) * o.quote / o.base == 0 then 0 else o.forSale - pays
  }

  /**
   Every match is at the maker's price: the taker sells all it has and receives what that buys, rounded down, or the
   maker sells all it has for what that costs, rounded down.  It moves a positive amount each way, no more than there
   is, and gives the taker at least the floor of its own limit.
   */
  lemma {:induction false} MatchIsFair(taker: Order, maker: Order)
    requires OrderOk(taker) && OrderOk(maker) && Crosses(taker, maker)
    ensures var d := Match(taker, maker);
            && 0 < d.takerPays <= taker.forSale && 0 < d.makerPays <= maker.forSale
            && (if d.takerPays == taker.forSale
                then d.makerPays * maker.quote <= d.takerPays * maker.base < (d.makerPays + 1) * maker.quote
                else d.makerPays == maker.forSale
                     && d.takerPays * maker.base <= maker.forSale * maker.quote < (d.takerPays + 1) * maker.base)
            && d.makerPays >= d.takerPays * taker.quote / taker.base
            && d.takerPays >= d.makerPays * maker.quote / maker.base
  {
    var n, o, r := taker.forSale, maker.forSale, ToReceive(maker);
    FloorAtLeast(o * maker.quote, maker.base, r);
    if n <= r {
      var got := n * maker.base / maker.quote;
      BoughtWithin(n, r, o, maker.base, maker.quote);
      LimitKept(n, taker, maker);
      FloorAtLeast(n * maker.base, maker.quote, got);
      FloorAtLeast(n * maker.base, maker.quote, got + 1);
      FloorAtMost(got * maker.quote, maker.base, n);
    } else {
      LimitKept(r, taker, maker);
      FloorAtLeast(r * maker.base, maker.quote, r * maker.base / maker.quote);
      FloorAtLeast(o * maker.quote, maker.base, r + 1);
      BoughtWithin(r, r, o, maker.base, maker.quote);
    }
  }

  /** Paying n, no more than the maker asks for all it has, buys no more than it has. */
  lemma {:induction false} BoughtWithin(n: nat, r: nat, o: nat, base: nat, quote: nat)
    requires base > 0 && quote > 0 && n <= r && r * base <= o * quote
    ensures n * base / quote <= o
  {
    MulMono(n, r, base);
    FloorAtMost(n * base, quote, o);
  }

  /** At the maker's price, n buys at least what the taker's limit says. */
  lemma {:induction false} LimitKept(n: nat, taker: Order, maker: Order)
    requires taker.base > 0 && taker.quote > 0 && maker.base > 0 && maker.quote > 0 && Crosses(taker, maker)
    ensures n * maker.base / maker.quote >= n * taker.quote / taker.base
  {
    var q := n * taker.quote / taker.base;
    FloorAtLeast(n * taker.quote, taker.base, q);
    assert taker.quote * n >= q * taker.base;
    RatioTrans(maker.base, maker.quote, taker.quote, taker.base, q, n);
    FloorAtLeast(n * maker.base, maker.quote, q);
  }

  /** What is left of an order is an order that could be filled. */
  lemma {:induction false} LeftOk(o: Order, pays: nat)
    requires OrderOk(o) && pays <= o.forSale && Left(o, pays) > 0
    ensures OrderOk(o.(forSale := Left(o, pays)))
    ensures Left(o, pays) == o.forSale - pays && Left(o, pays) * o.quote >= o.base
  {
    var rest := o.forSale - pays;
    MulMono(rest, o.forSale, o.quote);
    FloorMono(rest * o.quote, o.forSale * o.quote, o.base);
  }

  /** An order that closes has sold all, or has too little left to buy a unit. */
  lemma {:induction false} Closed(o: Order, pays: nat)
    requires OrderOk(o) && pays <= o.forSale && Left(o, pays) == 0
    ensures (o.forSale - pays) * o.quote < o.base
  {
    FloorAtLeast((o.forSale - pays) * o.quote, o.base, 1);
  }

  /** No sound order is priced beyond the greatest price, so a search from there misses none. */
  lemma {:induction false} PriceBounded(o: Order)
    requires OrderOk(o) && o.forSale <= MAX_SUPPLY
    ensures Findable(o.base, o.quote)
  {
    FloorAtLeast(o.forSale * o.quote, o.base, 1);
    MulMono(o.forSale, MAX_SUPPLY, o.quote);
  }
}
