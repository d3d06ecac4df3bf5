/**
 Re-pricing: when a watcher moves its order, why a freshly placed order stays where it is, and why
 an order cannot be moved forever.
 */
module Chase {
  import opened Decimals
  import opened Books

  // ----- when a move is required -----

  /** An order is to be moved when somebody is ahead of it, or when the price right behind it is empty. */
  predicate MoveBuyRequired(bids: set<nat>, best: nat, limit: nat) {
    best > limit || limit == 0 || limit - 1 !in bids
  }

  predicate MoveSellRequired(asks: set<nat>, best: nat, limit: nat) {
    best < limit || limit + 1 !in asks
  }

  method IsMoveBuyOrderRequired(book: Book, limit: nat) returns (isReq: bool)
    requires Printed(book.bids, book.PriceScale)
    ensures isReq == MoveBuyRequired(PricesOf(book.bids, book.PriceScale), book.maxBidPrice, limit)
    ensures isReq <==> book.maxBidPrice > limit || !(exists k :: k in book.bids && Ticks(k, book.PriceScale) + 1 == limit)
    ensures book.Valid() ==>
              (isReq <==> (exists k :: k in book.bids && Ticks(k, book.PriceScale) > limit)
                          || !(exists k :: k in book.bids && Ticks(k, book.PriceScale) + 1 == limit))
  {
    hide Print, Ticks;
    var prevPriceExists := false;
    if limit > 0 {
      var previous := book.GetBid(Print(limit - 1, book.PriceScale));
      prevPriceExists := previous.Some?;
      PrintedIn(book.bids, book.PriceScale, limit - 1);
    }
    var nextPriceExists := book.maxBidPrice > limit;
    isReq := nextPriceExists || !prevPriceExists;
    PriceIsThere(book.bids, book.PriceScale, limit - 1);
    if book.Valid() { SomebodyAhead(book.bids, book.PriceScale, book.maxBidPrice, limit); }
  }

  method IsMoveSellOrderRequired(book: Book, limit: nat) returns (isReq: bool)
    requires Printed(book.asks, book.PriceScale)
    ensures isReq == MoveSellRequired(PricesOf(book.asks, book.PriceScale), book.minAskPrice, limit)
    ensures isReq <==> book.minAskPrice < limit || !(exists k :: k in book.asks && Ticks(k, book.PriceScale) == limit + 1)
    ensures book.Valid() && book.asks != map[] ==>
              (isReq <==> (exists k :: k in book.asks && Ticks(k, book.PriceScale) < limit)
                          || !(exists k :: k in book.asks && Ticks(k, book.PriceScale) == limit + 1))
    ensures book.Valid() && book.asks == map[] ==> isReq
  {
    hide Print, Ticks;
    var previous := book.GetAsk(Print(limit + 1, book.PriceScale));
    PrintedIn(book.asks, book.PriceScale, limit + 1);
    var nextPriceExists := book.minAskPrice < limit;
    isReq := nextPriceExists || previous.None?;
    PriceIsThere(book.asks, book.PriceScale, limit + 1);
    if book.Valid() && book.asks != map[] { SomebodyBelow(book.asks, book.PriceScale, book.minAskPrice, limit); }
  }

  lemma PriceIsThere(levels: Levels, scale: nat, n: int)
    ensures n in PricesOf(levels, scale) <==> exists k :: k in levels && Ticks(k, scale) == n
  {
    hide Ticks;
  }

  /** The best bid is ahead of a price exactly when some bid is. */
  lemma SomebodyAhead(bids: Levels, scale: nat, best: nat, limit: nat)
    requires Highest(bids, scale, best)
    ensures best > limit <==> exists k :: k in bids && Ticks(k, scale) > limit
  {
    hide Ticks;
  }

  lemma SomebodyBelow(asks: Levels, scale: nat, best: nat, limit: nat)
    requires Lowest(asks, scale, best) && asks != map[]
    ensures best < limit <==> exists k :: k in asks && Ticks(k, scale) < limit
  {
    hide Ticks;
  }

  // ----- placement is stable -----

  /** An order placed one tick above the best bid and folded into the book is not moved. */
  lemma BuyPlacementIsStable(bids: Levels, scale: nat, best: nat, own: BookOrder)
    requires Printed(bids, scale) && Highest(bids, scale, best) && bids != map[]
    ensures var bids' := bids[Print(best + 1, scale) := own];
            && Printed(bids', scale) && Highest(bids', scale, best + 1)
            && !MoveBuyRequired(PricesOf(bids', scale), best + 1, best + 1)
  {
    hide Print, Ticks, Highest, PricesOf, Printed;
    var bids' := bids[Print(best + 1, scale) := own];
    PlacedPrice(bids, scale, best + 1, own);
    BestOfPrices(bids, scale, best);
    BestOfPrices(bids', scale, best + 1);
  }

  lemma SellPlacementIsStable(asks: Levels, scale: nat, best: nat, own: BookOrder)
    requires Printed(asks, scale) && Lowest(asks, scale, best) && asks != map[] && best > 0
    ensures var asks' := asks[Print(best - 1, scale) := own];
            && Printed(asks', scale) && Lowest(asks', scale, best - 1)
            && !MoveSellRequired(PricesOf(asks', scale), best - 1, best - 1)
  {
    hide Print, Ticks, Lowest, PricesOf, Printed;
    var asks' := asks[Print(best - 1, scale) := own];
    PlacedPrice(asks, scale, best - 1, own);
    BestOfPrices(asks, scale, best);
    BestOfPrices(asks', scale, best - 1);
  }

  // ----- a chase -----

  /** One side of the book at the moment of a move: its prices, and the best of them. */
  datatype Snapshot = Snapshot(prices: set<nat>, best: nat)

  /** A watcher moves its buy order: its own bid is in the book, a move is required, and the spread
      still allows an order to be started. The new limit is one tick above the best bid. */
  ghost predicate MovesBuy(s: Snapshot, limit: nat, ask: nat, start: real) {
    && TopOf(s.prices, s.best) && limit in s.prices
    && MoveBuyRequired(s.prices, s.best, limit)
    && SpreadOf(s.best, ask) > 0.0 && SpreadOf(s.best, ask) >= start
  }

  ghost predicate ChasesBuy(moves: seq<Snapshot>, limit: nat, ask: nat, start: real)
    decreases |moves|
  {
    moves == [] || (MovesBuy(moves[0], limit, ask, start) && ChasesBuy(moves[1..], moves[0].best + 1, ask, start))
  }

  /** The highest bid that the start spread allows. */
  function Ceiling(ask: nat, start: real): real { ask as real * (100.0 - start) / 100.0 }

  lemma SpreadBoundsBid(bid: nat, ask: nat, start: real)
    requires bid > 0 && ask > 0 && SpreadOf(bid, ask) >= start
    ensures bid as real <= Ceiling(ask, start)
  {
    var q := bid as real * 100.0 / ask as real;
    assert q * ask as real == bid as real * 100.0;
    assert q <= 100.0 - start;
    assert (100.0 - start - q) * ask as real >= 0.0;
  }

  /** A move raises the limit by at least one tick, from a limit within the start-spread bound. */
  lemma MoveRaisesLimit(s: Snapshot, limit: nat, ask: nat, start: real)
    requires MovesBuy(s, limit, ask, start)
    ensures limit <= s.best && s.best + 1 > limit && s.best as real <= Ceiling(ask, start)
  {
    SpreadBoundsBid(s.best, ask, start);
  }

  /** With the asks fixed, the number of consecutive moves is bounded by the ticks between the first
      limit and the start-spread bound, plus one. */
  lemma {:induction false} BuyChaseEnds(moves: seq<Snapshot>, limit: nat, ask: nat, start: real)
    requires ChasesBuy(moves, limit, ask, start) && moves != []
    ensures |moves| as real <= Ceiling(ask, start) - limit as real + 1.0
    decreases |moves|
  {
    hide MovesBuy, Ceiling;
    MoveRaisesLimit(moves[0], limit, ask, start);
    if |moves| > 1 {
      BuyChaseEnds(moves[1..], moves[0].best + 1, ask, start);
      assert |moves| as real == |moves[1..]| as real + 1.0;
    }
  }

  // ----- placement after a move -----

  /** The bids after a move: the new price is in, and the old one is out unless others bid it too. */
  function AfterBuyMove(bids: set<nat>, limit: nat, best: nat, shared: bool): set<nat> {
    (if shared then bids else bids - {limit}) + {best + 1}
  }

  /** A move is stable unless the bot has outbid itself: it moves again if and only if the best bid was
      its own alone, for then the price that it leaves is the one right behind the new one. */
  lemma BuyMoveIsStable(bids: set<nat>, limit: nat, best: nat, shared: bool)
    requires TopOf(bids, best) && limit in bids
    ensures TopOf(AfterBuyMove(bids, limit, best, shared), best + 1)
    ensures MoveBuyRequired(AfterBuyMove(bids, limit, best, shared), best + 1, best + 1) <==> (best == limit && !shared)
  {}

  /** The chase of an order that outbids itself n times, above bids of others that stay where they are. */
  function SelfChase(others: set<nat>, limit: nat, n: nat): seq<Snapshot>
    decreases n
  {
    if n == 0 then [] else [Snapshot(others + {limit}, limit)] + SelfChase(others, limit + 1, n - 1)
  }

  lemma SpreadNarrows(bid: nat, higher: nat, ask: nat)
    requires 0 < bid <= higher && ask > 0
    ensures SpreadOf(bid, ask) >= SpreadOf(higher, ask)
  {
    QuotientsOrdered(bid as real * 100.0, higher as real * 100.0, ask as real);
  }

  lemma QuotientsOrdered(a: real, b: real, c: real)
    requires a <= b && c > 0.0
    ensures a / c <= b / c
  {
    assert (b / c - a / c) * c == b - a;
  }

  /** A lonely best bid with a gap behind it chases itself, each time one tick, for as long as the start
      spread allows: the bound on consecutive moves is met. */
  lemma {:induction false} ChasesItself(others: set<nat>, limit: nat, n: nat, ask: nat, start: real)
    requires limit > 0 && forall p | p in others :: p < limit - 1
    requires n > 0 ==> SpreadOf(limit + n - 1, ask) > 0.0 && SpreadOf(limit + n - 1, ask) >= start
    ensures |SelfChase(others, limit, n)| == n && ChasesBuy(SelfChase(others, limit, n), limit, ask, start)
    ensures forall i | 0 <= i < n - 1 ::
              SelfChase(others, limit, n)[i + 1].prices
              == AfterBuyMove(SelfChase(others, limit, n)[i].prices, limit + i, limit + i, false)
    decreases n
  {
    if n > 0 {
      var moves := SelfChase(others, limit, n);
      assert ask > 0;
      SpreadNarrows(limit, limit + n - 1, ask);
      ChasesItself(others, limit + 1, n - 1, ask, start);
      assert moves[1..] == SelfChase(others, limit + 1, n - 1);
      assert TopOf(moves[0].prices, limit) && MovesBuy(moves[0], limit, ask, start);
      forall i | 0 <= i < n - 1
        ensures moves[i + 1].prices == AfterBuyMove(moves[i].prices, limit + i, limit + i, false)
      {
        assert moves[i + 1] == moves[1..][i];
        if i == 0 {
          assert moves[1].prices == others + {limit + 1};
          assert others + {limit} - {limit} == others;
        } else {
          assert moves[i] == moves[1..][i - 1];
          assert moves[1..][(i - 1) + 1].prices == AfterBuyMove(moves[1..][i - 1].prices, limit + 1 + (i - 1), limit + 1 + (i - 1), false);
        }
      }
    }
  }

  /** The number of self-outbids can be the whole bound: every price from the limit up to the ceiling. */
  lemma SelfChaseMeetsTheBound(others: set<nat>, limit: nat, n: nat, ask: nat, start: real)
    requires 0 < limit && (forall p | p in others :: p < limit - 1) && n > 0
    requires limit + n - 1 < ask && (limit + n - 1) as real <= Ceiling(ask, start)
    ensures ChasesBuy(SelfChase(others, limit, n), limit, ask, start) && |SelfChase(others, limit, n)| == n
  {
    BidBoundsSpread(limit + n - 1, ask, start);
    SpreadPositive(limit + n - 1, ask);
    ChasesItself(others, limit, n, ask, start);
  }

  lemma BidBoundsSpread(bid: nat, ask: nat, start: real)
    requires bid > 0 && ask > 0 && bid as real <= Ceiling(ask, start)
    ensures SpreadOf(bid, ask) >= start
  {
    var top := ask as real * (100.0 - start);
    assert bid as real * 100.0 <= top by { Hundredths(bid as real, top); }
    QuotientsOrdered(bid as real * 100.0, top, ask as real);
    Cancels(ask as real, 100.0 - start);
  }

  lemma Hundredths(a: real, b: real)
    requires a <= b / 100.0
    ensures a * 100.0 <= b
  {}

  lemma Cancels(c: real, x: real)
    requires c > 0.0
    ensures c * x / c == x
  {}

  // ----- the sell side -----

  /** A sell order is moved while its price keeps a spread over the bought price. */
  ghost predicate MovesSell(s: Snapshot, limit: nat, bought: nat, start: real) {
    && BottomOf(s.prices, s.best) && limit in s.prices
    && MoveSellRequired(s.prices, s.best, limit)
    && s.best > 0
    && (100.0 - bought as real * 100.0 / s.best as real) > 0.0
    && (100.0 - bought as real * 100.0 / s.best as real) > start
  }

  ghost predicate ChasesSell(moves: seq<Snapshot>, limit: nat, bought: nat, start: real)
    decreases |moves|
  {
    moves == [] ||
    (MovesSell(moves[0], limit, bought, start) && ChasesSell(moves[1..], moves[0].best - 1, bought, start))
  }

  lemma PositiveProduct(a: real, b: real)
    requires a > 0.0 && b > 0.0
    ensures a * b > 0.0
  {}

  lemma Distributes(a: real, b: real, c: real)
    ensures (a - b) * c == a * c - b * c
  {}

  lemma SpreadBoundsAsk(bought: nat, ask: nat, start: real)
    requires ask > 0 && (100.0 - bought as real * 100.0 / ask as real) > start
    ensures ask as real * (100.0 - start) > bought as real * 100.0
    ensures start < 100.0
  {
    var q := bought as real * 100.0 / ask as real;
    assert q * ask as real == bought as real * 100.0;
    PositiveProduct(100.0 - start - q, ask as real);
    Distributes(100.0 - start, q, ask as real);
    if start >= 100.0 {
      PositiveProduct(-q, ask as real);
    }
  }

  lemma MoveLowersLimit(s: Snapshot, limit: nat, bought: nat, start: real)
    requires MovesSell(s, limit, bought, start)
    ensures s.best <= limit && s.best - 1 < limit && start < 100.0
    ensures s.best as real * (100.0 - start) > bought as real * 100.0
  {
    SpreadBoundsAsk(bought, s.best, start);
  }

  lemma ScaledMonotone(a: real, b: real, c: real)
    requires a <= b && c >= 0.0
    ensures a * c <= b * c
  {}

  /** Each move lowers the limit by at least a tick while the ask stays above the bought price by
      the start spread, so the number of moves is bounded by the ticks in between, plus one. */
  lemma {:induction false} SellChaseEnds(moves: seq<Snapshot>, limit: nat, bought: nat, start: real)
    requires ChasesSell(moves, limit, bought, start) && moves != []
    ensures start < 100.0
    ensures (limit as real + 1.0 - |moves| as real) * (100.0 - start) > bought as real * 100.0
    decreases |moves|
  {
    hide MovesSell;
    var s := moves[0];
    MoveLowersLimit(s, limit, bought, start);
    if |moves| > 1 {
      assert moves[1..] != [] && s.best > 0 by { SellMoveFacts(s, limit, bought, start); }
      SellChaseEnds(moves[1..], s.best - 1, bought, start);
      assert |moves| as real == |moves[1..]| as real + 1.0;
      ScaledMonotone((s.best - 1) as real + 1.0 - |moves[1..]| as real, limit as real + 1.0 - |moves| as real, 100.0 - start);
    } else {
      ScaledMonotone(s.best as real, limit as real, 100.0 - start);
    }
  }

  lemma SellMoveFacts(s: Snapshot, limit: nat, bought: nat, start: real)
    requires MovesSell(s, limit, bought, start)
    ensures s.best > 0
  {}

  function AfterSellMove(asks: set<nat>, limit: nat, best: nat, shared: bool): set<nat>
    requires best > 0
  {
    (if shared then asks else asks - {limit}) + {best - 1}
  }

  /** The same on the ask side: the order moves again if and only if it has undercut itself. */
  lemma SellMoveIsStable(asks: set<nat>, limit: nat, best: nat, shared: bool)
    requires BottomOf(asks, best) && limit in asks && best > 0
    ensures BottomOf(AfterSellMove(asks, limit, best, shared), best - 1)
    ensures MoveSellRequired(AfterSellMove(asks, limit, best, shared), best - 1, best - 1) <==> (best == limit && !shared)
  {}
}
