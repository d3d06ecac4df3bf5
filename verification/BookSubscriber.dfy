/**
 The subscriber that patches the order book cache message by message (subscriber/orderbook.go),
 against the plain reading of a message stream: for each price the last writer wins, and an entry
 without a total removes the price.
 */
module BookSubscriber {
  import opened Decimals
  import opened Books

  /** One entry of a message, all texts. */
  datatype Entry = Entry(price: string, amount: string, total: string)

  datatype Message = Message(last: string, bids: seq<Entry>, asks: seq<Entry>)

  predicate Removes(e: Entry) { e.total == "" }

  predicate WellFormed(e: Entry) {
    Parse(e.price).Some? && (Removes(e) || (Parse(e.amount).Some? && Parse(e.total).Some?))
  }

  function KeyOf(e: Entry, scale: nat): string {
    if Parse(e.price).Some? then Text(Parse(e.price).value, scale) else ""
  }

  function OrderOf(e: Entry): BookOrder
    requires WellFormed(e) && !Removes(e)
  {
    BookOrder(Parse(e.price).value, Parse(e.amount).value, Parse(e.total).value)
  }

  predicate AllWellFormed(es: seq<Entry>) { forall i | 0 <= i < |es| :: WellFormed(es[i]) }

  function LastIndex(keys: seq<string>, key: string): (i: int)
    ensures -1 <= i < |keys|
    ensures i >= 0 ==> keys[i] == key
    ensures forall j | i < j < |keys| :: keys[j] != key
  {
    if keys == [] then -1
    else if keys[|keys| - 1] == key then |keys| - 1
    else LastIndex(keys[..|keys| - 1], key)
  }

  lemma LastIndexIs(keys: seq<string>, key: string, i: int)
    requires -1 <= i < |keys| && (i >= 0 ==> keys[i] == key) && forall j | i < j < |keys| :: keys[j] != key
    ensures LastIndex(keys, key) == i
  {}

  function Keys(es: seq<Entry>, scale: nat): (keys: seq<string>)
    ensures |keys| == |es|
  {
    seq(|es|, i requires 0 <= i < |es| => KeyOf(es[i], scale))
  }

  /** The entry that decides about a key: the last one that names it. */
  function LastNaming(es: seq<Entry>, key: string, scale: nat): int { LastIndex(Keys(es, scale), key) }

  /** What the last entry naming the key makes of it; a key that no entry names stays as it was. */
  ghost predicate Decided(before: Levels, es: seq<Entry>, after: Levels, key: string, scale: nat)
    requires AllWellFormed(es)
  {
    var i := LastNaming(es, key, scale);
    if i < 0 then (key in after <==> key in before) && (key in after ==> after[key] == before[key])
    else (key in after <==> !Removes(es[i])) && (key in after ==> after[key] == OrderOf(es[i]))
  }

  /** What a stream of entries makes of a book: its last writer wins. */
  ghost predicate LastWriterWins(before: Levels, es: seq<Entry>, after: Levels, scale: nat)
    requires AllWellFormed(es)
  {
    forall key :: Decided(before, es, after, key, scale)
  }

  function Patched(levels: Levels, e: Entry, scale: nat): Levels
    requires WellFormed(e)
  {
    if Removes(e) then levels - {KeyOf(e, scale)} else levels[KeyOf(e, scale) := OrderOf(e)]
  }

  lemma NoEntries(before: Levels, scale: nat)
    ensures LastWriterWins(before, [], before, scale)
  {}

  lemma OneEntry(before: Levels, e: Entry, scale: nat)
    requires WellFormed(e)
    ensures LastWriterWins(before, [e], Patched(before, e, scale), scale)
  {
    hide KeyOf;
    forall key ensures Decided(before, [e], Patched(before, e, scale), key, scale) {
      LastIndexIs(Keys([e], scale), key, if KeyOf(e, scale) == key then 0 else -1);
    }
  }

  lemma LastNamingAppend(es: seq<Entry>, more: seq<Entry>, key: string, scale: nat)
    ensures var (i, k) := (LastNaming(more, key, scale), LastNaming(es + more, key, scale));
            -1 <= i < |more| && k == if i >= 0 then |es| + i else LastNaming(es, key, scale)
    ensures -1 <= LastNaming(es, key, scale) < |es|
  {
    hide KeyOf;
    var (a, b) := (Keys(es, scale), Keys(more, scale));
    assert Keys(es + more, scale) == a + b;
    var i := LastIndex(b, key);
    LastIndexIs(a + b, key, if i >= 0 then |a| + i else LastIndex(a, key));
  }

  lemma DecidedAppend(before: Levels, es: seq<Entry>, mid: Levels, more: seq<Entry>, after: Levels, key: string, scale: nat)
    requires AllWellFormed(es) && AllWellFormed(more)
    requires Decided(before, es, mid, key, scale) && Decided(mid, more, after, key, scale)
    ensures AllWellFormed(es + more) && Decided(before, es + more, after, key, scale)
  {
    hide WellFormed, Removes, LastNaming;
    LastNamingAppend(es, more, key, scale);
  }

  /** Two streams one after the other. */
  lemma LastWriterAppend(before: Levels, es: seq<Entry>, mid: Levels, more: seq<Entry>, after: Levels, scale: nat)
    requires AllWellFormed(es) && AllWellFormed(more)
    requires LastWriterWins(before, es, mid, scale) && LastWriterWins(mid, more, after, scale)
    ensures AllWellFormed(es + more) && LastWriterWins(before, es + more, after, scale)
  {
    hide WellFormed, Decided;
    forall key ensures Decided(before, es + more, after, key, scale) {
      DecidedAppend(before, es, mid, more, after, key, scale);
    }
  }

  lemma LastWriterStep(before: Levels, es: seq<Entry>, mid: Levels, e: Entry, scale: nat)
    requires AllWellFormed(es) && WellFormed(e) && LastWriterWins(before, es, mid, scale)
    ensures AllWellFormed(es + [e]) && LastWriterWins(before, es + [e], Patched(mid, e, scale), scale)
  {
    hide WellFormed;
    OneEntry(mid, e, scale);
    LastWriterAppend(before, es, mid, [e], Patched(mid, e, scale), scale);
  }

  /** Patching keeps the keys printed. */
  lemma PatchedIsPrinted(levels: Levels, e: Entry, scale: nat)
    requires Printed(levels, scale) && WellFormed(e)
    ensures Printed(Patched(levels, e, scale), scale)
  {
    PrintedKey(Parse(e.price).value, scale);
  }

  /** What the entry that is the last to name a price makes of the book: without a total the price is gone, with one
      the book has exactly this entry. */
  lemma LastEntryDecides(before: Levels, es: seq<Entry>, after: Levels, scale: nat, i: nat)
    requires AllWellFormed(es) && LastWriterWins(before, es, after, scale) && i < |es| && Parse(es[i].price).Some?
    requires forall j | i < j < |es| ::
               Parse(es[j].price).Some? ==> Text(Parse(es[j].price).value, scale) != Text(Parse(es[i].price).value, scale)
    ensures var key := Text(Parse(es[i].price).value, scale);
            if es[i].total == "" then key !in after
            else && key in after && Parse(es[i].amount).Some? && Parse(es[i].total).Some?
                 && after[key] == BookOrder(Parse(es[i].price).value, Parse(es[i].amount).value, Parse(es[i].total).value)
  {
    hide Text, Parse;
    var key := KeyOf(es[i], scale);
    forall j | i < j < |es| ensures Keys(es, scale)[j] != key {
      assert WellFormed(es[j]);
    }
    LastIndexIs(Keys(es, scale), key, i);
    assert Decided(before, es, after, key, scale) && WellFormed(es[i]);
  }

  /** A price that no entry names stays as it was. */
  lemma UnnamedStays(before: Levels, es: seq<Entry>, after: Levels, scale: nat, key: string)
    requires AllWellFormed(es) && LastWriterWins(before, es, after, scale)
    requires forall j | 0 <= j < |es| :: Parse(es[j].price).Some? ==> Text(Parse(es[j].price).value, scale) != key
    ensures (key in after <==> key in before) && (key in after ==> after[key] == before[key])
  {
    hide Text, Parse;
    forall j | 0 <= j < |es| ensures Keys(es, scale)[j] != key {
      assert WellFormed(es[j]);
    }
    LastIndexIs(Keys(es, scale), key, -1);
    assert Decided(before, es, after, key, scale);
  }

  function Bids(ms: seq<Message>): seq<Entry> {
    if ms == [] then [] else Bids(ms[..|ms| - 1]) + ms[|ms| - 1].bids
  }

  function Asks(ms: seq<Message>): seq<Entry> {
    if ms == [] then [] else Asks(ms[..|ms| - 1]) + ms[|ms| - 1].asks
  }

  class OrderBook {
    const orderBook: Book

    constructor (book: Book)
      ensures orderBook == book
    {
      orderBook := book;
    }

    method CreateBookOrder(e: Entry, price: Decimal) returns (r: Option<BookOrder>)
      ensures r.Some? <==> Parse(e.amount).Some? && Parse(e.total).Some?
      ensures r.Some? ==> r.value == BookOrder(price, Parse(e.amount).value, Parse(e.total).value)
    {
      var amount := Parse(e.amount);
      if amount.None? { return None; }
      var total := Parse(e.total);
      if total.None? { return None; }
      r := Some(BookOrder(price, amount.value, total.value));
    }

    /** Patches the bids entry by entry. */
    method PatchBids(es: seq<Entry>) returns (ok: bool)
      requires Printed(orderBook.bids, orderBook.PriceScale)
      modifies orderBook`bids
      ensures ok <==> AllWellFormed(es)
      ensures ok <==> forall i | 0 <= i < |es| ::
                        Parse(es[i].price).Some? && (es[i].total == "" || (Parse(es[i].amount).Some? && Parse(es[i].total).Some?))
      ensures ok ==> LastWriterWins(old(orderBook.bids), es, orderBook.bids, orderBook.PriceScale)
      ensures ok ==> Printed(orderBook.bids, orderBook.PriceScale)
    {
      hide LastWriterWins, Printed;
      NoEntries(orderBook.bids, orderBook.PriceScale);
      for i := 0 to |es|
        invariant AllWellFormed(es[..i]) && Printed(orderBook.bids, orderBook.PriceScale)
        invariant LastWriterWins(old(orderBook.bids), es[..i], orderBook.bids, orderBook.PriceScale)
      {
        var bid := es[i];
        var price := Parse(bid.price);
        if price.None? { return false; }
        var priceStr := Text(price.value, orderBook.PriceScale);
        ghost var mid := orderBook.bids;
        if bid.total == "" {
          orderBook.DeleteBid(priceStr);
        } else {
          var o := CreateBookOrder(bid, price.value);
          if o.None? { return false; }
          orderBook.AddBid(priceStr, o.value);
        }
        LastWriterStep(old(orderBook.bids), es[..i], mid, bid, orderBook.PriceScale);
        PatchedIsPrinted(mid, bid, orderBook.PriceScale);
        assert es[..i + 1] == es[..i] + [bid];
      }
      assert es[..|es|] == es;
      ok := true;
    }

    method UpdateMaxBids(es: seq<Entry>) returns (ok: bool)
      requires orderBook.Valid()
      modifies orderBook`bids, orderBook`maxBidPrice
      ensures ok <==> AllWellFormed(es)
      ensures ok ==> orderBook.Valid() && LastWriterWins(old(orderBook.bids), es, orderBook.bids, orderBook.PriceScale)
    {
      hide LastWriterWins, Printed, Highest, Lowest;
      NoEntries(orderBook.bids, orderBook.PriceScale);
      if |es| > 0 {
        ok := PatchBids(es);
        if !ok { return; }
        PrintedIsReadable(orderBook.bids, orderBook.PriceScale);
        ok := orderBook.UpdateMaxBidPrice();
        if !ok { return; }
      }
      ok := true;
    }

    /** Patches the asks entry by entry. */
    method PatchAsks(es: seq<Entry>) returns (ok: bool)
      requires Printed(orderBook.asks, orderBook.PriceScale)
      modifies orderBook`asks
      ensures ok <==> AllWellFormed(es)
      ensures ok <==> forall i | 0 <= i < |es| ::
                        Parse(es[i].price).Some? && (es[i].total == "" || (Parse(es[i].amount).Some? && Parse(es[i].total).Some?))
      ensures ok ==> LastWriterWins(old(orderBook.asks), es, orderBook.asks, orderBook.PriceScale)
      ensures ok ==> Printed(orderBook.asks, orderBook.PriceScale)
    {
      hide LastWriterWins, Printed;
      NoEntries(orderBook.asks, orderBook.PriceScale);
      for i := 0 to |es|
        invariant AllWellFormed(es[..i]) && Printed(orderBook.asks, orderBook.PriceScale)
        invariant LastWriterWins(old(orderBook.asks), es[..i], orderBook.asks, orderBook.PriceScale)
      {
        var ask := es[i];
        var price := Parse(ask.price);
        if price.None? { return false; }
        var priceStr := Text(price.value, orderBook.PriceScale);
        ghost var mid := orderBook.asks;
        if ask.total == "" {
          orderBook.DeleteAsk(priceStr);
        } else {
          var o := CreateBookOrder(ask, price.value);
          if o.None? { return false; }
          orderBook.AddAsk(priceStr, o.value);
        }
        LastWriterStep(old(orderBook.asks), es[..i], mid, ask, orderBook.PriceScale);
        PatchedIsPrinted(mid, ask, orderBook.PriceScale);
        assert es[..i + 1] == es[..i] + [ask];
      }
      assert es[..|es|] == es;
      ok := true;
    }

    method UpdateAsks(es: seq<Entry>) returns (ok: bool)
      requires orderBook.Valid()
      modifies orderBook`asks, orderBook`minAskPrice
      ensures ok <==> AllWellFormed(es)
      ensures ok ==> orderBook.Valid() && LastWriterWins(old(orderBook.asks), es, orderBook.asks, orderBook.PriceScale)
    {
      hide LastWriterWins, Printed, Highest, Lowest;
      NoEntries(orderBook.asks, orderBook.PriceScale);
      if |es| > 0 {
        ok := PatchAsks(es);
        if !ok { return; }
        PrintedIsReadable(orderBook.asks, orderBook.PriceScale);
        ok := orderBook.UpdateMinAskPrice();
        if !ok { return; }
      }
      ok := true;
    }

    method UpdateSpread()
      modifies orderBook`Spread
      ensures orderBook.Spread == SpreadOf(orderBook.maxBidPrice, orderBook.minAskPrice)
    {
      if orderBook.maxBidPrice > 0 && orderBook.minAskPrice > 0 {
        var newSpread := 100.0 - orderBook.maxBidPrice as real * 100.0 / orderBook.minAskPrice as real;
        if newSpread != orderBook.Spread {
          orderBook.SetSpread(newSpread);
        }
      } else {
        orderBook.SetSpread(0.0);
      }
    }

    /** One message: bids, asks, then the spread. */
    method Process(m: Message) returns (ok: bool)
      requires orderBook.Valid()
      modifies orderBook
      ensures ok <==> AllWellFormed(m.bids) && AllWellFormed(m.asks)
      ensures ok ==> orderBook.Valid() && orderBook.Spread == SpreadOf(orderBook.maxBidPrice, orderBook.minAskPrice)
      ensures ok ==> LastWriterWins(old(orderBook.bids), m.bids, orderBook.bids, orderBook.PriceScale)
      ensures ok ==> LastWriterWins(old(orderBook.asks), m.asks, orderBook.asks, orderBook.PriceScale)
      ensures orderBook.Profit == old(orderBook.Profit)
    {
      hide LastWriterWins, AllWellFormed, SpreadOf, Printed, Highest, Lowest;
      orderBook.LastPrice := m.last;
      ok := UpdateMaxBids(m.bids);
      if !ok { return; }
      ok := UpdateAsks(m.asks);
      if !ok { return; }
      UpdateSpread();
    }

    /** Any number of messages from an empty book, until one of them cannot be read. The book holds
        for every price what its last writer said, the cached prices are the best ones, and the
        spread is positive exactly when there is a bid below the ask. */
    method Start(ms: seq<Message>) returns (ok: bool)
      requires orderBook.Valid() && orderBook.bids == map[] && orderBook.asks == map[] && orderBook.Spread == 0.0
      modifies orderBook
      ensures ok <==> Legible(ms)
      ensures ok ==> Reads(ms, orderBook.bids, orderBook.asks, orderBook.PriceScale)
      ensures ok ==> orderBook.Valid() && orderBook.Spread == SpreadOf(orderBook.maxBidPrice, orderBook.minAskPrice)
      ensures ok ==> (orderBook.Spread > 0.0 <==> 0 < orderBook.maxBidPrice < orderBook.minAskPrice)
    {
      hide LastWriterWins, AllWellFormed, SpreadOf, Printed, Highest, Lowest, Reads, Bids, Asks;
      EmptyIsFlat(orderBook);
      NothingRead(orderBook.PriceScale);
      for i := 0 to |ms|
        invariant Legible(ms[..i]) && Reads(ms[..i], orderBook.bids, orderBook.asks, orderBook.PriceScale)
        invariant orderBook.Valid() && orderBook.Spread == SpreadOf(orderBook.maxBidPrice, orderBook.minAskPrice)
      {
        ghost var (bids, asks) := (orderBook.bids, orderBook.asks);
        ok := Process(ms[i]);
        if !ok { return; }
        ReadsOneMore(ms[..i], bids, asks, ms[i], orderBook.bids, orderBook.asks, orderBook.PriceScale);
        assert ms[..i + 1] == ms[..i] + [ms[i]];
      }
      assert ms[..|ms|] == ms;
      SpreadPositive(orderBook.maxBidPrice, orderBook.minAskPrice);
      ok := true;
    }
  }

  lemma EmptyIsFlat(b: Book)
    requires b.Valid() && b.bids == map[] && b.asks == map[]
    ensures b.maxBidPrice == 0 && b.minAskPrice == 0
  {}

  /** Every entry of every message can be read. */
  predicate Legible(ms: seq<Message>) {
    forall i | 0 <= i < |ms| :: AllWellFormed(ms[i].bids) && AllWellFormed(ms[i].asks)
  }

  /** The book is what the last writers of the whole stream made of an empty one. */
  ghost predicate Reads(ms: seq<Message>, bids: Levels, asks: Levels, scale: nat) {
    && AllWellFormed(Bids(ms)) && AllWellFormed(Asks(ms))
    && LastWriterWins(map[], Bids(ms), bids, scale) && LastWriterWins(map[], Asks(ms), asks, scale)
  }

  lemma NothingRead(scale: nat)
    ensures Reads([], map[], map[], scale) && SpreadOf(0, 0) == 0.0
  {
    NoEntries(map[], scale);
  }

  lemma ReadsOneMore(ms: seq<Message>, bids: Levels, asks: Levels, m: Message, bids': Levels, asks': Levels, scale: nat)
    requires Reads(ms, bids, asks, scale) && AllWellFormed(m.bids) && AllWellFormed(m.asks)
    requires LastWriterWins(bids, m.bids, bids', scale) && LastWriterWins(asks, m.asks, asks', scale)
    ensures Reads(ms + [m], bids', asks', scale)
  {
    hide LastWriterWins, AllWellFormed;
    assert (ms + [m])[..|ms|] == ms;
    LastWriterAppend(map[], Bids(ms), bids, m.bids, bids', scale);
    LastWriterAppend(map[], Asks(ms), asks, m.asks, asks', scale);
  }
}
