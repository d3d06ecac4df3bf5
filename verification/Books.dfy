/**
 The order book cache (storage/book.go): entries keyed by their printed price, and the cached best
 prices by which the best entry is found again.
 */
module Books {
  import opened Decimals

  datatype BookOrder = BookOrder(price: Decimal, amount: Decimal, total: Decimal)

  type Levels = map<string, BookOrder>

  // ----- best prices -----

  predicate Readable(levels: Levels) { forall k | k in levels :: Parse(k).Some? }

  /** The price of an entry, in ticks. */
  function Ticks(key: string, scale: nat): nat {
    if Parse(key).Some? then Rounded(Parse(key).value, scale) else 0
  }

  /** Every key is a price printed at the pair's scale. */
  ghost predicate Printed(levels: Levels, scale: nat) {
    forall k | k in levels :: k == Print(Ticks(k, scale), scale)
  }

  lemma PrintedKey(a: Decimal, scale: nat)
    ensures Parse(Text(a, scale)).Some? && Text(a, scale) == Print(Ticks(Text(a, scale), scale), scale)
  {
    TextIsStable(a, scale);
  }

  lemma PrintedIsReadable(levels: Levels, scale: nat)
    requires Printed(levels, scale)
    ensures Readable(levels)
  {
    forall k | k in levels ensures Parse(k).Some? {
      ParsePrint(Ticks(k, scale), scale);
    }
  }

  ghost predicate Highest(levels: Levels, scale: nat, best: nat) {
    if levels == map[] then best == 0 else
      (exists k :: k in levels && Ticks(k, scale) == best) && forall k | k in levels :: Ticks(k, scale) <= best
  }

  ghost predicate Lowest(levels: Levels, scale: nat, best: nat) {
    if levels == map[] then best == 0 else
      (exists k :: k in levels && Ticks(k, scale) == best) && forall k | k in levels :: best <= Ticks(k, scale)
  }

  /** The best price, printed again, is the key of the best entry, and of no other. */
  lemma BestIsFoundAgain(levels: Levels, scale: nat, best: nat)
    requires Printed(levels, scale) && levels != map[]
    requires Highest(levels, scale, best) || Lowest(levels, scale, best)
    ensures Print(best, scale) in levels && Ticks(Print(best, scale), scale) == best
    ensures forall k | k in levels && Ticks(k, scale) == best :: k == Print(best, scale)
  {
    var k :| k in levels && Ticks(k, scale) == best;
    assert k == Print(best, scale);
  }

  // ----- the prices of a book side -----

  /** The prices in a book side, in ticks. */
  function PricesOf(levels: Levels, scale: nat): set<nat> {
    set k | k in levels :: Ticks(k, scale)
  }

  /** A price is in the book exactly when its printed form is a key. */
  lemma PrintedIn(levels: Levels, scale: nat, n: nat)
    requires Printed(levels, scale)
    ensures Print(n, scale) in levels <==> n in PricesOf(levels, scale)
  {
    PrintedTicks(n, scale);
  }

  lemma PrintedTicks(n: nat, scale: nat)
    ensures Ticks(Print(n, scale), scale) == n
  {
    ParsePrint(n, scale);
    assert Pow10(0) == 1;
  }

  /** Adding an entry adds its price. */
  lemma PlacedPrice(levels: Levels, scale: nat, n: nat, own: BookOrder)
    requires Printed(levels, scale)
    ensures Printed(levels[Print(n, scale) := own], scale)
    ensures PricesOf(levels[Print(n, scale) := own], scale) == PricesOf(levels, scale) + {n}
  {
    hide Print, Ticks;
    PrintedTicks(n, scale);
    var (key, more) := (Print(n, scale), levels[Print(n, scale) := own]);
    assert key in more && Ticks(key, scale) == n;
    forall p | p in PricesOf(levels, scale) ensures p in PricesOf(more, scale) {
      var k :| k in levels && Ticks(k, scale) == p;
      assert k in more;
    }
  }

  predicate TopOf(prices: set<nat>, best: nat) {
    if prices == {} then best == 0 else best in prices && forall p | p in prices :: p <= best
  }

  predicate BottomOf(prices: set<nat>, best: nat) {
    if prices == {} then best == 0 else best in prices && forall p | p in prices :: best <= p
  }

  lemma BestOfPrices(levels: Levels, scale: nat, best: nat)
    ensures Highest(levels, scale, best) <==> TopOf(PricesOf(levels, scale), best)
    ensures Lowest(levels, scale, best) <==> BottomOf(PricesOf(levels, scale), best)
    ensures PricesOf(levels, scale) == {} <==> levels == map[]
  {
    hide Ticks;
    if levels != map[] {
      var k :| k in levels;
      assert Ticks(k, scale) in PricesOf(levels, scale);
    }
    assert forall k | k in levels :: Ticks(k, scale) in PricesOf(levels, scale);
  }

  // ----- sorting -----

  predicate Ascending(s: seq<nat>) { forall i, j | 0 <= i < j < |s| :: s[i] <= s[j] }

  function Insert(x: nat, s: seq<nat>): (r: seq<nat>)
    ensures multiset(r) == multiset(s) + multiset{x}
  {
    if s == [] || x <= s[0] then [x] + s
    else
      assert s == [s[0]] + s[1..];
      [s[0]] + Insert(x, s[1..])
  }

  lemma Prefixed(x: nat, s: seq<nat>)
    requires Ascending(s) && forall y | y in s :: x <= y
    ensures Ascending([x] + s)
  {
    var r := [x] + s;
    forall i, j | 0 <= i < j < |r| ensures r[i] <= r[j] {
      assert r[j] == s[j - 1] && s[j - 1] in s;
      if i > 0 { assert r[i] == s[i - 1]; }
    }
  }

  lemma {:induction false} InsertAscends(x: nat, s: seq<nat>)
    requires Ascending(s)
    ensures Ascending(Insert(x, s))
  {
    if s != [] && x > s[0] {
      var r := Insert(x, s[1..]);
      InsertAscends(x, s[1..]);
      forall y | y in r ensures s[0] <= y {
        assert y in multiset(r);
        assert y == x || y in s[1..];
      }
      Prefixed(s[0], r);
    } else {
      Prefixed(x, s);
    }
  }

  /** Sorting by the library. */
  function Sorted(s: seq<nat>): (r: seq<nat>)
    ensures Ascending(r) && multiset(r) == multiset(s) && |r| == |s|
  {
    if s == [] then [] else
      assert s == [s[0]] + s[1..];
      InsertAscends(s[0], Sorted(s[1..]));
      var r := Insert(s[0], Sorted(s[1..]));
      assert |multiset(r)| == |multiset(s)|;
      r
  }

  lemma SortedEnds(s: seq<nat>)
    requires s != []
    ensures var r := Sorted(s);
            r[0] in s && r[|r| - 1] in s && forall x | x in s :: r[0] <= x <= r[|r| - 1]
  {
    var r := Sorted(s);
    assert r[0] in multiset(r) && r[|r| - 1] in multiset(r);
    forall x | x in s ensures r[0] <= x <= r[|r| - 1] {
      assert x in multiset(r);
    }
  }

  // ----- the spread -----

  /** How far the bid is below the ask, in percent of the ask. */
  function SpreadOf(bid: nat, ask: nat): real {
    if bid > 0 && ask > 0 then 100.0 - bid as real * 100.0 / ask as real else 0.0
  }

  lemma QuotientBelow(x: real, y: real)
    requires y > 0.0
    ensures x * 100.0 / y < 100.0 <==> x < y
  {
    var q := x * 100.0 / y;
    assert q * y == x * 100.0;
    if q < 100.0 {
      assert (100.0 - q) * y > 0.0;
    } else {
      assert (q - 100.0) * y >= 0.0;
    }
  }

  /** The spread is positive exactly when there is a bid and it is below the ask. */
  lemma SpreadPositive(bid: nat, ask: nat)
    ensures SpreadOf(bid, ask) > 0.0 <==> 0 < bid < ask
  {
    if bid > 0 && ask > 0 {
      QuotientBelow(bid as real, ask as real);
    }
  }

  /** Whenever the spread is positive, the decider's look-up of the best bid finds an entry. */
  lemma PositiveSpreadFindsBid(bids: Levels, asks: Levels, scale: nat, bid: nat, ask: nat)
    requires Printed(bids, scale) && Printed(asks, scale) && Highest(bids, scale, bid) && Lowest(asks, scale, ask)
    requires SpreadOf(bid, ask) > 0.0
    ensures Print(bid, scale) in bids && Print(ask, scale) in asks && Print(bid, scale) != Print(ask, scale)
  {
    SpreadPositive(bid, ask);
    BestIsFoundAgain(bids, scale, bid);
    BestIsFoundAgain(asks, scale, ask);
    if Print(bid, scale) == Print(ask, scale) {
      PrintInjective(bid, ask, scale);
    }
  }

  class Book {
    const PriceScale: nat
    var maxBidPrice: nat
    var minAskPrice: nat
    var LastPrice: string
    var Spread: real
    var Profit: int
    var BoughtVolume: int
    var BoughtCost: int
    var bids: Levels
    var asks: Levels

    /** The keys are printed prices and the cached best prices are up to date. */
    ghost predicate Valid()
      reads this
    {
      && Printed(bids, PriceScale) && Printed(asks, PriceScale)
      && Highest(bids, PriceScale, maxBidPrice) && Lowest(asks, PriceScale, minAskPrice)
    }

    constructor (scale: nat)
      ensures Valid() && PriceScale == scale && bids == map[] && asks == map[] && Spread == 0.0
      ensures Profit == 0 && BoughtVolume == 0 && BoughtCost == 0
    {
      PriceScale := scale;
      maxBidPrice, minAskPrice, LastPrice, Spread := 0, 0, "", 0.0;
      Profit, BoughtVolume, BoughtCost := 0, 0, 0;
      bids, asks := map[], map[];
    }

    method SetSpread(spread: real)
      modifies this`Spread
      ensures Spread == spread
    { Spread := spread; }

    method AddBid(price: string, bid: BookOrder)
      modifies this`bids
      ensures bids == old(bids)[price := bid]
    { bids := bids[price := bid]; }

    method DeleteBid(price: string)
      modifies this`bids
      ensures bids == old(bids) - {price}
    { bids := bids - {price}; }

    method AddAsk(price: string, ask: BookOrder)
      modifies this`asks
      ensures asks == old(asks)[price := ask]
    { asks := asks[price := ask]; }

    method DeleteAsk(price: string)
      modifies this`asks
      ensures asks == old(asks) - {price}
    { asks := asks - {price}; }

    method GetBid(price: string) returns (r: Option<BookOrder>)
      ensures r == if price in bids then Some(bids[price]) else None
    { r := if price in bids then Some(bids[price]) else None; }

    method GetAsk(price: string) returns (r: Option<BookOrder>)
      ensures r == if price in asks then Some(asks[price]) else None
    { r := if price in asks then Some(asks[price]) else None; }

    /** The entry under the cached best price, in whatever state the book is. Unless it is being patched
        just now, that is the entry with the highest price, or none if there is no bid at all. */
    method GetMaxBid() returns (r: Option<BookOrder>)
      ensures r == if Print(maxBidPrice, PriceScale) in bids then Some(bids[Print(maxBidPrice, PriceScale)]) else None
      ensures Valid() ==> (r.None? <==> bids == map[])
      ensures Valid() && r.Some? ==> exists k :: k in bids && r.value == bids[k] && forall j | j in bids && j != k :: Ticks(j, PriceScale) < Ticks(k, PriceScale)
    {
      var key := Print(maxBidPrice, PriceScale);
      if Valid() && bids != map[] { BestIsFoundAgain(bids, PriceScale, maxBidPrice); }
      r := if key in bids then Some(bids[key]) else None;
    }

    method GetMinAsk() returns (r: Option<BookOrder>)
      ensures r == if Print(minAskPrice, PriceScale) in asks then Some(asks[Print(minAskPrice, PriceScale)]) else None
      ensures Valid() ==> (r.None? <==> asks == map[])
      ensures Valid() && r.Some? ==> exists k :: k in asks && r.value == asks[k] && forall j | j in asks && j != k :: Ticks(k, PriceScale) < Ticks(j, PriceScale)
    {
      var key := Print(minAskPrice, PriceScale);
      if Valid() && asks != map[] { BestIsFoundAgain(asks, PriceScale, minAskPrice); }
      r := if key in asks then Some(asks[key]) else None;
    }

    /** Collects the readable prices of all entries. */
    method CollectPrices(levels: Levels) returns (ok: bool, prices: seq<nat>, texts: map<nat, string>)
      ensures ok <==> Readable(levels)
      ensures ok ==> forall k | k in levels :: Ticks(k, PriceScale) in prices
      ensures ok ==> forall p | p in prices :: p in texts && texts[p] in levels && Ticks(texts[p], PriceScale) == p
    {
      prices, texts := [], map[];
      var rest := levels.Keys;
      while rest != {}
        invariant rest <= levels.Keys
        invariant forall k | k in levels.Keys - rest :: Parse(k).Some? && Ticks(k, PriceScale) in prices
        invariant forall p | p in prices :: p in texts && texts[p] in levels && Ticks(texts[p], PriceScale) == p
      {
        var price :| price in rest;
        var pf := Parse(price);
        if pf.None? { return false, prices, texts; }
        prices := prices + [Rounded(pf.value, PriceScale)];
        texts := texts[Rounded(pf.value, PriceScale) := price];
        rest := rest - {price};
      }
      ok := true;
    }

    method UpdateMaxBidPrice() returns (ok: bool)
      modifies this`maxBidPrice
      ensures ok <==> Readable(bids)
      ensures ok ==> Highest(bids, PriceScale, maxBidPrice)
    {
      if |bids| > 0 {
        var k0 :| k0 in bids;
        var read, bidsPrices, texts := CollectPrices(bids);
        if !read { return false; }
        assert Ticks(k0, PriceScale) in bidsPrices;
        SortedEnds(bidsPrices);
        var sorted := Sorted(bidsPrices);
        var best := Parse(texts[sorted[|sorted| - 1]]);
        if best.None? { return false; }
        maxBidPrice := Rounded(best.value, PriceScale);
      } else {
        maxBidPrice := 0;
      }
      ok := true;
    }

    method UpdateMinAskPrice() returns (ok: bool)
      modifies this`minAskPrice
      ensures ok <==> Readable(asks)
      ensures ok ==> Lowest(asks, PriceScale, minAskPrice)
    {
      if |asks| > 0 {
        var k0 :| k0 in asks;
        var read, askPrices, texts := CollectPrices(asks);
        if !read { return false; }
        assert Ticks(k0, PriceScale) in askPrices;
        SortedEnds(askPrices);
        var sorted := Sorted(askPrices);
        var best := Parse(texts[sorted[0]]);
        if best.None? { return false; }
        minAskPrice := Rounded(best.value, PriceScale);
      } else {
        minAskPrice := 0;
      }
      ok := true;
    }

    method AddProfit(v: int)
      modifies this`Profit
      ensures Profit == old(Profit) + v
    { Profit := Profit + v; }

    method SubProfit(v: int)
      modifies this`Profit
      ensures Profit == old(Profit) - v
    { Profit := Profit - v; }

    method AddBoughtCost(v: int)
      modifies this`BoughtCost
      ensures BoughtCost == old(BoughtCost) + v
    { BoughtCost := BoughtCost + v; }

    method AddBoughtVolume(v: int)
      modifies this`BoughtVolume
      ensures BoughtVolume == old(BoughtVolume) + v
    { BoughtVolume := BoughtVolume + v; }
  }
}
