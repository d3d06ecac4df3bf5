/**
 What every activation of a process does to the world, read off the session, the store and the exchange
 alone; and over all steps, exactly which of them completes a side, asks for an order or sends one.
 */
module SpreadDeeds {
  import opened Totals
  import opened Exchange
  import opened Lanes
  import opened Rounding
  import opened SpreadSession
  import opened SpreadProtocol
  import opened SpreadInvariant
  import opened SpreadSteps
  import opened SpreadRuns
  import opened SpreadTheorems
  import opened SpreadStalls
  import opened SpreadBooking

  /** What becomes of a session, the store and the exchange, what is booked, and which watchers remain; or
      the bot stops with an error. */
  datatype Deed =
    | Does(fields: Fields, watchers: multiset<Oid>, store: Store, venue: Venue, booked: int)
    | Breaks

  function Follows(w: World, sid: Sid, d: Deed): World
    requires sid < |w.entries|
  {
    if d.Breaks? then w.(status := Failed)
    else World(w.entries[sid := Entry(d.fields, d.watchers, false)], d.store, d.venue, w.profit + d.booked, Running)
  }

  /** An outcome, once its writes are made. */
  ghost predicate ComesTo(oc: Outcome, e: Entry, self: multiset<Oid>, d: Deed) {
    match oc
    case Fails => d.Breaks?
    case Panics => false
    case Acts(ws, _, store, venue, booked) =>
      d == Does(ApplyAll(ws, e.fields), Remaining(e, self, oc), store, venue, booked)
  }

  lemma Comes(w: World, sid: Sid, self: multiset<Oid>, oc: Outcome, d: Deed)
    requires Managed(w, sid) && w.status.Running? && ComesTo(oc, w.entries[sid], self, d)
    ensures Land(w, sid, self, oc) == Follows(w, sid, d)
  {}

  /** Nothing happens. */
  function Rests(e: Entry, store: Store, v: Venue): Deed { Does(e.fields, e.watchers, store, v, 0) }

  lemma RestsLeaves(w: World, sid: Sid)
    requires Managed(w, sid) && w.status.Running?
    ensures Follows(w, sid, Rests(w.entries[sid], w.store, w.venue)) == w
  {
    assert Entry(w.entries[sid].fields, w.entries[sid].watchers, false) == w.entries[sid];
    assert w.entries[sid := w.entries[sid]] == w.entries;
  }

  // ----- requests -----

  /** The exchange with one request more. */
  function Asked(v: Venue, req: Request): Venue { Venue(v.orders, v.pending[v.nextRid := req], v.replies, v.nextRid + 1) }

  /** A request for what is left of the total at a price, which may alter an order. */
  ghost function Bid(f: Fields, sid: Sid, store: Store, price: nat, target: Oid): Request
    requires f.buyOrders <= store.Keys && price > 0
  {
    var cost := Total(f.buyOrders, Costs(store));
    Request(sid, Buy, price, RoundHalfEven((f.buyTotal - cost as real) / (price as real)), target, cost)
  }

  /** A request for what is left of the sell volume. */
  ghost function Offer(f: Fields, sid: Sid, store: Store, price: nat, target: Oid): Request
    requires f.sellOrders <= store.Keys
  {
    var sold := Total(f.sellOrders, Fills(store));
    Request(sid, Sell, price, f.sellVolume - sold, target, sold)
  }

  lemma SameRequests(f: Fields, sid: Sid, store: Store, price: nat, target: Oid)
    ensures f.buyOrders <= store.Keys && price > 0 ==> BuyRequest(f, sid, store, price, target) == Bid(f, sid, store, price, target)
    ensures f.sellOrders <= store.Keys ==> SellRequest(f, sid, store, price, target) == Offer(f, sid, store, price, target)
  {}

  // ----- the decider -----

  /** A decider sends the order that is needed when its guard is open and the funds suffice, clears the flag and
      stores the ids; otherwise it leaves everything as it was. */
  ghost function Decides(e: Entry, sid: Sid, store: Store, v: Venue, m: Market): Deed
    requires e.fields.needBuy ==> e.fields.buyOrders <= store.Keys
    requires e.fields.needSell ==> e.fields.sellOrders <= store.Keys
    requires m.buyOpen ==> m.price > 0
  {
    var f := e.fields;
    if f.needBuy && m.buyOpen && m.funded then
      Does(f.(needBuy := false, buyExt := m.ext, buyRid := v.nextRid), e.watchers, store, Asked(v, Bid(f, sid, store, m.price, 0)), 0)
    else if f.needSell && m.sellOpen && m.funded then
      Does(f.(needSell := false, sellExt := m.ext, sellRid := v.nextRid), e.watchers, store, Asked(v, Offer(f, sid, store, m.price, 0)), 0)
    else Rests(e, store, v)
  }

  lemma DecideComes(e: Entry, sid: Sid, store: Store, v: Venue, m: Market)
    requires !(e.fields.needBuy && e.fields.needSell) && (e.fields.needBuy || e.fields.needSell ==> !e.fields.isDone)
    requires e.fields.needBuy ==> e.fields.buyOrders <= store.Keys
    requires e.fields.needSell ==> e.fields.sellOrders <= store.Keys && e.fields.activeBuy in store
    requires m.buyOpen ==> m.price > 0
    requires !Decide(e.fields, sid, store, v, m).Panics?
    ensures ComesTo(Decide(e.fields, sid, store, v, m), e, multiset{}, Decides(e, sid, store, v, m))
  {
    hide BuyRequest, SellRequest, Bid, Offer, ApplyAll;
    SameRequests(e.fields, sid, store, m.price, 0);
    var oc := Decide(e.fields, sid, store, v, m);
    NoWrites(e.fields);
    if |oc.writes| == 2 { ApplyTwo(oc.writes[0], oc.writes[1], e.fields); }
    if |oc.writes| == 3 { ApplyThree(oc.writes[0], oc.writes[1], oc.writes[2], e.fields); }
  }

  lemma FlagsAlone(w: World, sid: Sid)
    requires WorldInv(w) && Managed(w, sid)
    ensures var f := w.entries[sid].fields;
            !(f.needBuy && f.needSell) && (f.needBuy || f.needSell ==> !f.isDone)
  {
    hide EntryInv;
    OneOwner(w.entries[sid], sid, w.store, w.venue);
  }

  lemma DecidesExactly(w: World, sid: Sid, m: Market)
    requires WorldInv(w) && Enabled(w, Deciding(sid, m))
    ensures var f := w.entries[sid].fields;
            (f.needBuy ==> f.buyOrders <= w.store.Keys) && (f.needSell ==> f.sellOrders <= w.store.Keys)
    ensures Next(w, Deciding(sid, m)) == Follows(w, sid, Decides(w.entries[sid], sid, w.store, w.venue, m))
  {
    hide WorldInv, Decide, Decides, ComesTo, Follows;
    FlagsAlone(w, sid);
    FlagSettles(w, sid);
    NeverPanicking(w, Deciding(sid, m));
    DecideComes(w.entries[sid], sid, w.store, w.venue, m);
    Comes(w, sid, multiset{}, Decide(w.entries[sid].fields, sid, w.store, w.venue, m),
          Decides(w.entries[sid], sid, w.store, w.venue, m));
  }

  lemma NeverPanicking(w: World, s: Step)
    requires WorldInv(w) && Enabled(w, s)
    ensures !Next(w, s).status.Panicked?
  {
    hide Next, Enabled;
    NextKeeps(w, s);
  }

  // ----- the watcher -----

  /** What the buy side's completion makes of the fields: the sell side opens on the bought volume. */
  ghost function Bought(f: Fields, oid: Oid, store: Store): Fields
    requires f.buyOrders <= store.Keys
  {
    f.(completedBuys := f.completedBuys + 1, prevBuy := 0, activeBuy := oid, buyExt := 0, buyRid := 0,
       activeSell := 0, sellExt := 0, sellRid := 0, needSell := true, sellVolume := Total(f.buyOrders, Fills(store)))
  }

  function Sold(f: Fields): Fields {
    f.(completedSells := f.completedSells + 1, prevSell := 0, activeSell := 0, sellExt := 0, sellRid := 0, isDone := true)
  }

  /** The exchange with one order in another version. */
  function WithOrder(v: Venue, oid: Oid, o: Order): Venue
    requires oid in v.orders
  {
    Venue(v.orders[oid := Live(o, v.orders[oid].req, v.orders[oid].drift)], v.pending, v.replies, v.nextRid)
  }

  /** A look at a watched buy order: a done one completes the buy side, a cancelled or rejected one, or one that is
      withdrawn now, is replaced, and an active one may be moved. */
  ghost function LooksAtBuy(e: Entry, sid: Sid, oid: Oid, store: Store, v: Venue, verdict: Verdict): Deed
    requires oid in store && e.fields.buyOrders <= store.Keys && MayMeet(v, oid, verdict)
  {
    var f := e.fields;
    var released := f.(prevBuy := oid, activeBuy := 0, needBuy := true);
    match store[oid].state
    case Done => Does(Bought(f, oid, store), multiset{}, store, v, -Total(f.buyOrders, Costs(store)))
    case Cancelled => Does(released, multiset{}, store, v, 0)
    case Rejected => Does(released, multiset{}, store, v, 0)
    case Active =>
      (match verdict
       case Keep => Rests(e, store, v)
       case Withdraw(_, Confirmed(last)) => Does(released, multiset{}, store[oid := last], WithOrder(v, oid, last), 0)
       case Withdraw(_, AlreadyDone) => Rests(e, store, v)
       case Withdraw(_, CancelError) => Breaks
       case Reprice(price, ext) =>
         Does(f.(prevBuy := oid, buyExt := ext, buyRid := v.nextRid), multiset{}, store, Asked(v, Bid(f, sid, store, price, oid)), 0))
    case _ => Rests(e, store, v)
  }

  /** The write lists of the buy side, added up. */
  lemma BuyWrites(f: Fields, oid: Oid, ext: ExtId, rid: Rid, volume: int)
    ensures ApplyAll([PrevBuy(oid), ActiveBuy(0), NeedBuy(true)], f) == f.(prevBuy := oid, activeBuy := 0, needBuy := true)
    ensures ApplyAll([PrevBuy(oid), BuyExt(ext), BuyRid(rid)], f) == f.(prevBuy := oid, buyExt := ext, buyRid := rid)
    ensures ApplyAll([BuyDone(oid, volume)], f)
            == f.(completedBuys := f.completedBuys + 1, prevBuy := 0, activeBuy := oid, buyExt := 0, buyRid := 0,
                  activeSell := 0, sellExt := 0, sellRid := 0, needSell := true, sellVolume := volume)
    ensures ApplyAll([BuyCancelled], f) == f.(buyExt := 0, buyRid := 0, needBuy := true)
    ensures ApplyAll([], f) == f
  {
    hide ApplyAll;
    ApplyThree(PrevBuy(oid), ActiveBuy(0), NeedBuy(true), f);
    ApplyThree(PrevBuy(oid), BuyExt(ext), BuyRid(rid), f);
    ApplyOne(BuyDone(oid, volume), f);
    ApplyOne(BuyCancelled, f);
    NoWrites(f);
  }

  lemma SellWrites(f: Fields, oid: Oid, ext: ExtId, rid: Rid)
    ensures ApplyAll([ActiveSell(0), NeedSell(true)], f) == f.(activeSell := 0, needSell := true)
    ensures ApplyAll([PrevSell(oid), ActiveSell(0), NeedSell(true)], f) == f.(prevSell := oid, activeSell := 0, needSell := true)
    ensures ApplyAll([PrevSell(oid), SellExt(ext), SellRid(rid)], f) == f.(prevSell := oid, sellExt := ext, sellRid := rid)
    ensures ApplyAll([SellDone], f) == Sold(f)
    ensures ApplyAll([SellCancelled], f) == f.(sellExt := 0, sellRid := 0, needSell := true)
    ensures ApplyAll([], f) == f
  {
    hide ApplyAll;
    ApplyTwo(ActiveSell(0), NeedSell(true), f);
    ApplyThree(PrevSell(oid), ActiveSell(0), NeedSell(true), f);
    ApplyThree(PrevSell(oid), SellExt(ext), SellRid(rid), f);
    ApplyOne(SellDone, f);
    ApplyOne(SellCancelled, f);
    NoWrites(f);
  }

  lemma WatchBuyComes(e: Entry, sid: Sid, oid: Oid, store: Store, v: Venue, verdict: Verdict)
    requires oid in store && store[oid].side.Buy? && e.fields.buyOrders <= store.Keys && MayMeet(v, oid, verdict)
    requires e.watchers == multiset{oid} && oid == e.fields.activeBuy
    ensures ComesTo(Watch(e.fields, sid, oid, store, v, verdict), e, multiset{oid}, LooksAtBuy(e, sid, oid, store, v, verdict))
  {
    hide BuyRequest, Bid, Apply, ApplyAll, BoughtCost, BoughtVolume, SellExecuted, WatchSell, LegalCancel, Costs, Fills;
    if verdict.Reprice? { SameRequests(e.fields, sid, store, verdict.price, oid); }
    SameSums(e.fields, store);
    BuyWrites(e.fields, oid, if verdict.Reprice? then verdict.ext else 0, v.nextRid, BoughtVolume(e.fields, store));
    assert e.watchers - multiset{oid} == multiset{};
  }

  lemma SameSums(f: Fields, store: Store)
    ensures f.buyOrders <= store.Keys ==> BoughtCost(f, store) == Total(f.buyOrders, Costs(store)) && BoughtVolume(f, store) == Total(f.buyOrders, Fills(store))
    ensures f.sellOrders <= store.Keys ==> SoldCost(f, store) == Total(f.sellOrders, Costs(store))
  {}

  /** The same for a sell order; what a cancelled or rejected one was is forgotten. */
  ghost function LooksAtSell(e: Entry, sid: Sid, oid: Oid, store: Store, v: Venue, verdict: Verdict): Deed
    requires oid in store && e.fields.sellOrders <= store.Keys && MayMeet(v, oid, verdict)
  {
    var f := e.fields;
    var released := f.(activeSell := 0, needSell := true);
    match store[oid].state
    case Done => Does(Sold(f), multiset{}, store, v, Total(f.sellOrders, Costs(store)))
    case Cancelled => Does(released, multiset{}, store, v, 0)
    case Rejected => Does(released, multiset{}, store, v, 0)
    case Active =>
      (match verdict
       case Keep => Rests(e, store, v)
       case Withdraw(_, Confirmed(last)) => Does(released.(prevSell := oid), multiset{}, store[oid := last], WithOrder(v, oid, last), 0)
       case Withdraw(_, AlreadyDone) => Rests(e, store, v)
       case Withdraw(_, CancelError) => Breaks
       case Reprice(price, ext) =>
         Does(f.(prevSell := oid, sellExt := ext, sellRid := v.nextRid), multiset{}, store, Asked(v, Offer(f, sid, store, price, oid)), 0))
    case _ => Rests(e, store, v)
  }

  lemma WatchSellComes(e: Entry, sid: Sid, oid: Oid, store: Store, v: Venue, verdict: Verdict)
    requires oid in store && store[oid].side.Sell? && e.fields.buyOrders <= store.Keys && e.fields.sellOrders <= store.Keys
    requires MayMeet(v, oid, verdict) && e.watchers == multiset{oid} && (e.fields.prevSell != 0 ==> e.fields.prevSell in store)
    ensures ComesTo(Watch(e.fields, sid, oid, store, v, verdict), e, multiset{oid}, LooksAtSell(e, sid, oid, store, v, verdict))
  {
    hide SellRequest, Offer, Apply, ApplyAll, SoldCost, BuyExecuted, WatchBuy, LegalCancel, Costs, Fills, Sold;
    if verdict.Reprice? { SameRequests(e.fields, sid, store, verdict.price, oid); }
    SameSums(e.fields, store);
    SellWrites(e.fields, oid, if verdict.Reprice? then verdict.ext else 0, v.nextRid);
    assert e.watchers - multiset{oid} == multiset{};
  }

  /** A watcher's order is the active one of the side at work, and all orders of that side are known once
      it is. */
  lemma WatchedFacts(w: World, sid: Sid, oid: Oid)
    requires WorldInv(w) && Managed(w, sid) && oid in w.entries[sid].watchers
    ensures var (e, f) := (w.entries[sid], w.entries[sid].fields);
            && e.watchers == multiset{oid} && !f.needBuy && !f.needSell && f.buyRid == 0 && f.sellRid == 0 && !f.isDone
            && (oid in w.store && w.store[oid].side.Buy? ==> f.completedBuys == 0 && oid == f.activeBuy && f.buyOrders <= w.store.Keys)
            && (oid in w.store && w.store[oid].side.Sell? ==>
                  && f.completedBuys == 1 && oid == f.activeSell && f.buyOrders <= w.store.Keys && f.sellOrders <= w.store.Keys
                  && (f.prevSell != 0 ==> f.prevSell in w.store))
  {
    hide EntryInv, BuyPhase, SellPhase, Solvent;
    var e := w.entries[sid];
    OneOwner(e, sid, w.store, w.venue);
    PhaseOf(e, sid, w.store, w.venue);
    PhaseCounts(e, sid, w.store, w.venue);
    if Buying(e, sid, w.store, w.venue) { WatchedBuy(e, sid, w.store, w.venue, oid); }
    else { WatchedSell(e, sid, w.store, w.venue, oid); }
  }

  lemma PhaseCounts(e: Entry, sid: Sid, store: Store, v: Venue)
    ensures Buying(e, sid, store, v) ==> e.fields.completedBuys == 0 && e.fields.completedSells == 0
    ensures Selling(e, sid, store, v) ==> e.fields.completedBuys == 1 && e.fields.completedSells == 0
  {
    hide Lanes.Open, Closed, Solvent;
  }

  lemma WatchesBuyExactly(w: World, sid: Sid, oid: Oid, verdict: Verdict)
    requires WorldInv(w) && Enabled(w, Watching(sid, oid, verdict)) && oid in w.store && w.store[oid].side.Buy?
    ensures w.entries[sid].fields.buyOrders <= w.store.Keys
    ensures Next(w, Watching(sid, oid, verdict)) == Follows(w, sid, LooksAtBuy(w.entries[sid], sid, oid, w.store, w.venue, verdict))
  {
    hide WorldInv, Watch, LooksAtBuy, ComesTo, Follows;
    WatchedFacts(w, sid, oid);
    WatchBuyComes(w.entries[sid], sid, oid, w.store, w.venue, verdict);
    Comes(w, sid, multiset{oid}, Watch(w.entries[sid].fields, sid, oid, w.store, w.venue, verdict),
          LooksAtBuy(w.entries[sid], sid, oid, w.store, w.venue, verdict));
  }

  lemma WatchesSellExactly(w: World, sid: Sid, oid: Oid, verdict: Verdict)
    requires WorldInv(w) && Enabled(w, Watching(sid, oid, verdict)) && oid in w.store && w.store[oid].side.Sell?
    ensures w.entries[sid].fields.sellOrders <= w.store.Keys
    ensures Next(w, Watching(sid, oid, verdict)) == Follows(w, sid, LooksAtSell(w.entries[sid], sid, oid, w.store, w.venue, verdict))
  {
    hide WorldInv, Watch, LooksAtSell, ComesTo, Follows;
    WatchedFacts(w, sid, oid);
    WatchSellComes(w.entries[sid], sid, oid, w.store, w.venue, verdict);
    Comes(w, sid, multiset{oid}, Watch(w.entries[sid].fields, sid, oid, w.store, w.venue, verdict),
          LooksAtSell(w.entries[sid], sid, oid, w.store, w.venue, verdict));
  }

  /** An order that the store does not have is left alone. */
  lemma WatchesUnknown(w: World, sid: Sid, oid: Oid, verdict: Verdict)
    requires WorldInv(w) && Enabled(w, Watching(sid, oid, verdict)) && oid !in w.store
    ensures Next(w, Watching(sid, oid, verdict)) == w == Follows(w, sid, Rests(w.entries[sid], w.store, w.venue))
  {
    hide WorldInv;
    RestsLeaves(w, sid);
    NoWrites(w.entries[sid].fields);
    assert w.entries[sid].watchers + multiset{} == w.entries[sid].watchers;
    Comes(w, sid, multiset{oid}, Idle(w.store, w.venue), Rests(w.entries[sid], w.store, w.venue));
  }

  // ----- the listener -----

  function WithoutReply(v: Venue, rid: Rid): Venue { Venue(v.orders, v.pending, v.replies - {rid}, v.nextRid) }

  /** A created order becomes the active one of its side, joins its orders and is watched. */
  function TakesUp(e: Entry, rid: Rid, oid: Oid, store: Store, v: Venue): Deed {
    var f := e.fields;
    Does(if rid == f.buyRid then f.(activeBuy := oid, buyExt := 0, buyRid := 0, buyOrders := f.buyOrders + {oid})
         else f.(activeSell := oid, sellExt := 0, sellRid := 0, sellOrders := f.sellOrders + {oid}),
         multiset{oid}, store, WithoutReply(v, rid), 0)
  }

  lemma CreatedComes(e: Entry, rid: Rid, store: Store, v: Venue, answer: CancelAnswer)
    requires rid in v.replies && v.replies[rid].1.Created? && LegalCancel(v, Looked(e.fields, rid), answer)
    requires if rid == e.fields.buyRid then rid != e.fields.sellRid else rid == e.fields.sellRid
    requires e.watchers == multiset{}
    ensures ComesTo(Listen(e.fields, rid, store, v, answer), e, multiset{}, TakesUp(e, rid, v.replies[rid].1.oid, store, v))
  {
    hide ApplyAll;
    var (f, oid) := (e.fields, v.replies[rid].1.oid);
    var oc := Listen(f, rid, store, v, answer);
    if rid == f.buyRid {
      assert oc.writes == [ActiveBuy(oid), BuyExt(0), BuyRid(0), AddBuy(oid)];
      ApplyFour(ActiveBuy(oid), BuyExt(0), BuyRid(0), AddBuy(oid), f);
    } else {
      assert oc.writes == [ActiveSell(oid), SellExt(0), SellRid(0), AddSell(oid)];
      ApplyFour(ActiveSell(oid), SellExt(0), SellRid(0), AddSell(oid), f);
    }
  }

  /** A refused buy request: the previous order decides, if there is one. Too small an amount completes the side, but
      an active order is only cancelled; an order that is over completes the side when done and makes the session
      ask again when cancelled. */
  ghost function HearsBuyRefused(e: Entry, rid: Rid, code: ErrorCode, store: Store, v: Venue, answer: CancelAnswer): Deed
    requires e.fields.prevBuy != 0 ==> e.fields.prevBuy in store && e.fields.buyOrders <= store.Keys
    requires LegalCancel(v, e.fields.prevBuy, answer)
  {
    var (f, v') := (e.fields, WithoutReply(v, rid));
    if f.prevBuy == 0 || code.OtherError? then Breaks
    else
      var p := store[f.prevBuy].state;
      var bought := Does(Bought(f, f.prevBuy, store), e.watchers, store, v', -Total(f.buyOrders, Costs(store)));
      match code
      case AmountTooSmall =>
        if p != Active then bought
        else if answer.Confirmed? then Does(f, e.watchers, store[f.prevBuy := answer.last], WithOrder(v', f.prevBuy, answer.last), 0)
        else Breaks
      case DoneOrder =>
        if p == Done then bought
        else if p == Cancelled then Does(f.(buyExt := 0, buyRid := 0, needBuy := true), e.watchers, store, v', 0)
        else Breaks
  }

  lemma BuyRefusedComes(e: Entry, rid: Rid, store: Store, v: Venue, answer: CancelAnswer)
    requires rid in v.replies && v.replies[rid].1.Refused? && rid == e.fields.buyRid && LegalCancel(v, e.fields.prevBuy, answer)
    requires e.fields.prevBuy != 0 ==> e.fields.prevBuy in store && e.fields.buyOrders <= store.Keys
    requires e.fields.prevSell == 0 && !Listen(e.fields, rid, store, v, answer).Panics?
    ensures ComesTo(Listen(e.fields, rid, store, v, answer), e, multiset{},
                    HearsBuyRefused(e, rid, v.replies[rid].1.code, store, v, answer))
  {
    hide Apply, ApplyAll, BoughtCost, BoughtVolume, SellExecuted, LegalCancel, Costs, Fills;
    if e.fields.prevBuy != 0 { SameSums(e.fields, store); BuyWrites(e.fields, e.fields.prevBuy, 0, 0, BoughtVolume(e.fields, store)); }
    NoWrites(e.fields);
    assert e.watchers - multiset{} == e.watchers && e.watchers + multiset{} == e.watchers;
  }

  /** A refused sell request; unlike a buy order, an active order that is cancelled now completes the side. */
  ghost function HearsSellRefused(e: Entry, rid: Rid, code: ErrorCode, store: Store, v: Venue, answer: CancelAnswer): Deed
    requires e.fields.prevSell != 0 ==> e.fields.prevSell in e.fields.sellOrders && e.fields.sellOrders <= store.Keys
    requires LegalCancel(v, e.fields.prevSell, answer)
  {
    var (f, v') := (e.fields, WithoutReply(v, rid));
    if f.prevSell == 0 || code.OtherError? then Breaks
    else
      var p := store[f.prevSell].state;
      var sold := Does(Sold(f), e.watchers, store, v', Total(f.sellOrders, Costs(store)));
      match code
      case AmountTooSmall =>
        if p != Active then sold
        else if answer.Confirmed? then
          Does(Sold(f), e.watchers, store[f.prevSell := answer.last], WithOrder(v', f.prevSell, answer.last),
               Total(f.sellOrders, Costs(store[f.prevSell := answer.last])))
        else Breaks
      case DoneOrder =>
        if p == Done then sold
        else if p == Cancelled then Does(f.(sellExt := 0, sellRid := 0, needSell := true), e.watchers, store, v', 0)
        else Breaks
  }

  lemma SellRefusedComes(e: Entry, rid: Rid, store: Store, v: Venue, answer: CancelAnswer)
    requires rid in v.replies && v.replies[rid].1.Refused? && rid != e.fields.buyRid && LegalCancel(v, e.fields.prevSell, answer)
    requires e.fields.prevSell != 0 ==> e.fields.prevSell in e.fields.sellOrders && e.fields.sellOrders <= store.Keys
    requires e.fields.prevBuy == 0 && e.fields.buyOrders <= store.Keys && !Listen(e.fields, rid, store, v, answer).Panics?
    ensures ComesTo(Listen(e.fields, rid, store, v, answer), e, multiset{},
                    HearsSellRefused(e, rid, v.replies[rid].1.code, store, v, answer))
  {
    hide Apply, ApplyAll, SoldCost, BuyExecuted, LegalCancel, Costs, Fills, Sold;
    SameSums(e.fields, store);
    if answer.Confirmed? { SameSums(e.fields, store[e.fields.prevSell := answer.last]); }
    SellWrites(e.fields, 0, 0, 0);
    assert e.watchers - multiset{} == e.watchers && e.watchers + multiset{} == e.watchers;
  }

  /** The reply to the buy or to the sell request, never to both. */
  lemma ReplyFacts(w: World, sid: Sid, rid: Rid)
    requires WorldInv(w) && Managed(w, sid) && rid in w.venue.replies
    requires rid == w.entries[sid].fields.buyRid || rid == w.entries[sid].fields.sellRid
    ensures var (e, f) := (w.entries[sid], w.entries[sid].fields);
            && rid != 0 && e.watchers == multiset{} && !f.needBuy && !f.needSell && !f.isDone && f.completedSells == 0
            && (if rid == f.buyRid then f.sellRid == 0 && f.prevSell == 0 && f.completedBuys == 0
                else f.sellRid == rid && f.prevBuy == 0 && f.completedBuys == 1 && f.buyOrders <= w.store.Keys)
            && (rid == f.buyRid && f.prevBuy != 0 ==> f.prevBuy in w.store && f.buyOrders <= w.store.Keys)
            && (rid == f.sellRid && f.prevSell != 0 ==> f.prevSell in f.sellOrders && f.sellOrders <= w.store.Keys)
  {
    hide EntryInv, BuyPhase, SellPhase, Solvent, Mirrors;
    var (e, store, v) := (w.entries[sid], w.store, w.venue);
    OneOwner(e, sid, store, v);
    ReplySide(e, sid, store, v, rid);
    PhaseCounts(e, sid, store, v);
    if rid == e.fields.buyRid {
      BuyReply(e, sid, store, v, rid);
      if e.fields.prevBuy != 0 { LookedBuy(e, sid, store, v, rid); }
    } else {
      SellReply(e, sid, store, v, rid);
      LookedSell(e, sid, store, v, rid);
    }
  }

  lemma HearsCreatedExactly(w: World, sid: Sid, rid: Rid, answer: CancelAnswer)
    requires WorldInv(w) && Enabled(w, Listening(sid, rid, answer)) && w.venue.replies[rid].1.Created?
    ensures Next(w, Listening(sid, rid, answer))
            == Follows(w, sid, TakesUp(w.entries[sid], rid, w.venue.replies[rid].1.oid, w.store, w.venue))
  {
    hide WorldInv, Listen, TakesUp, ComesTo, Follows;
    ReplyFacts(w, sid, rid);
    CreatedComes(w.entries[sid], rid, w.store, w.venue, answer);
    Comes(w, sid, multiset{}, Listen(w.entries[sid].fields, rid, w.store, w.venue, answer),
          TakesUp(w.entries[sid], rid, w.venue.replies[rid].1.oid, w.store, w.venue));
  }

  lemma HearsBuyRefusedExactly(w: World, sid: Sid, rid: Rid, answer: CancelAnswer)
    requires WorldInv(w) && Enabled(w, Listening(sid, rid, answer)) && w.venue.replies[rid].1.Refused?
    requires rid == w.entries[sid].fields.buyRid
    ensures var f := w.entries[sid].fields; f.prevBuy != 0 ==> f.prevBuy in w.store && f.buyOrders <= w.store.Keys
    ensures Next(w, Listening(sid, rid, answer))
            == Follows(w, sid, HearsBuyRefused(w.entries[sid], rid, w.venue.replies[rid].1.code, w.store, w.venue, answer))
  {
    hide WorldInv, Listen, HearsBuyRefused, ComesTo, Follows;
    ReplyFacts(w, sid, rid);
    NeverPanicking(w, Listening(sid, rid, answer));
    BuyRefusedComes(w.entries[sid], rid, w.store, w.venue, answer);
    Comes(w, sid, multiset{}, Listen(w.entries[sid].fields, rid, w.store, w.venue, answer),
          HearsBuyRefused(w.entries[sid], rid, w.venue.replies[rid].1.code, w.store, w.venue, answer));
  }

  lemma HearsSellRefusedExactly(w: World, sid: Sid, rid: Rid, answer: CancelAnswer)
    requires WorldInv(w) && Enabled(w, Listening(sid, rid, answer)) && w.venue.replies[rid].1.Refused?
    requires rid != w.entries[sid].fields.buyRid
    ensures LegalCancel(w.venue, w.entries[sid].fields.prevSell, answer)
    ensures var f := w.entries[sid].fields; f.prevSell != 0 ==> f.prevSell in f.sellOrders && f.sellOrders <= w.store.Keys
    ensures Next(w, Listening(sid, rid, answer))
            == Follows(w, sid, HearsSellRefused(w.entries[sid], rid, w.venue.replies[rid].1.code, w.store, w.venue, answer))
  {
    hide WorldInv, Listen, HearsSellRefused, ComesTo, Follows;
    ReplyFacts(w, sid, rid);
    NeverPanicking(w, Listening(sid, rid, answer));
    SellRefusedComes(w.entries[sid], rid, w.store, w.venue, answer);
    Comes(w, sid, multiset{}, Listen(w.entries[sid].fields, rid, w.store, w.venue, answer),
          HearsSellRefused(w.entries[sid], rid, w.venue.replies[rid].1.code, w.store, w.venue, answer));
  }

  // ----- over all steps: why a side completes, why an order is asked for, why one is sent -----

  /** The listener of the session hears that its request of a side was refused, after the order `prev`. */
  predicate HearsRefused(w: World, s: Step, sid: Sid, side: Side, code: ErrorCode) {
    && s.Listening? && s.sid == sid && sid < |w.entries| && s.rid in w.venue.replies && w.venue.replies[s.rid].1 == Refused(code)
    && var f := w.entries[sid].fields;
       if side.Buy? then s.rid == f.buyRid && f.prevBuy in w.store
       else s.rid == f.sellRid && s.rid != f.buyRid && f.prevSell in w.store
  }

  function PrevState(w: World, sid: Sid, side: Side): State
    requires sid < |w.entries|
    requires (if side.Buy? then w.entries[sid].fields.prevBuy else w.entries[sid].fields.prevSell) in w.store
  {
    w.store[if side.Buy? then w.entries[sid].fields.prevBuy else w.entries[sid].fields.prevSell].state
  }

  /** A watcher of the session looks at an order of a side that is at least active. */
  predicate LooksAt(w: World, s: Step, sid: Sid, side: Side) {
    s.Watching? && s.sid == sid && s.oid in w.store && w.store[s.oid].side == side
  }

  /** A side ends when its watched order is done, when its alter is refused because the order is done, or because
      what is left is too small: then the order must be over, or for a sell be cancelled on the spot. */
  predicate EndsSide(w: World, s: Step, sid: Sid, side: Side) {
    || (LooksAt(w, s, sid, side) && w.store[s.oid].state == Done)
    || (HearsRefused(w, s, sid, side, DoneOrder) && PrevState(w, sid, side) == Done)
    || (HearsRefused(w, s, sid, side, AmountTooSmall)
        && (PrevState(w, sid, side) != Active || (side.Sell? && s.answer.Confirmed?)))
  }

  /** A side asks for a new order when its watched order is cancelled, rejected or withdrawn, or its alter is
      refused because the order was cancelled. */
  predicate AsksAgain(w: World, s: Step, sid: Sid, side: Side) {
    || (LooksAt(w, s, sid, side) && (w.store[s.oid].state == Cancelled || w.store[s.oid].state == Rejected))
    || (LooksAt(w, s, sid, side) && w.store[s.oid].state == Active && s.verdict.Withdraw? && s.verdict.answer.Confirmed?)
    || (HearsRefused(w, s, sid, side, DoneOrder) && PrevState(w, sid, side) == Cancelled)
  }

  /** A decider places the order that is asked for. */
  predicate Places(w: World, s: Step, sid: Sid, side: Side) {
    && s.Deciding? && s.sid == sid && sid < |w.entries| && s.market.funded
    && if side.Buy? then w.entries[sid].fields.needBuy && s.market.buyOpen else w.entries[sid].fields.needSell && s.market.sellOpen
  }

  /** A watcher moves an active order. */
  predicate Moves(w: World, s: Step, sid: Sid, side: Side) {
    LooksAt(w, s, sid, side) && w.store[s.oid].state == Active && s.verdict.Reprice?
  }

  /** What a step makes of the flags, the counters and the request ids of a session. */
  ghost predicate Explained(w: World, s: Step, sid: Sid, f: Fields, f': Fields) {
    && f'.completedBuys == f.completedBuys + (if EndsSide(w, s, sid, Buy) then 1 else 0)
    && f'.completedSells == f.completedSells + (if EndsSide(w, s, sid, Sell) then 1 else 0)
    && (f'.isDone <==> f.isDone || EndsSide(w, s, sid, Sell))
    && (f'.needBuy <==> AsksAgain(w, s, sid, Buy) || (f.needBuy && !Places(w, s, sid, Buy)))
    && (f'.needSell <==> EndsSide(w, s, sid, Buy) || AsksAgain(w, s, sid, Sell) || (f.needSell && !Places(w, s, sid, Sell)))
    && (f'.buyRid != 0 && f'.buyRid != f.buyRid <==> Places(w, s, sid, Buy) || Moves(w, s, sid, Buy))
    && (f'.sellRid != 0 && f'.sellRid != f.sellRid <==> Places(w, s, sid, Sell) || Moves(w, s, sid, Sell))
  }

  /** The deed of a step is explained. */
  ghost predicate Accounted(w: World, s: Step, sid: Sid, d: Deed)
    requires sid < |w.entries|
  {
    d.Does? ==> Explained(w, s, sid, w.entries[sid].fields, d.fields)
  }

  lemma DecidingExplained(w: World, sid: Sid, m: Market)
    requires Managed(w, sid) && (m.buyOpen ==> m.price > 0)
    requires var f := w.entries[sid].fields;
             && (f.needBuy ==> f.buyOrders <= w.store.Keys) && (f.needSell ==> f.sellOrders <= w.store.Keys)
             && !(f.needBuy && f.needSell) && w.venue.nextRid != 0 && f.buyRid < w.venue.nextRid && f.sellRid < w.venue.nextRid
    ensures Accounted(w, Deciding(sid, m), sid, Decides(w.entries[sid], sid, w.store, w.venue, m))
  {
    hide Asked, Bid, Offer;
  }

  lemma Numbered(w: World, sid: Sid)
    requires WorldInv(w) && Managed(w, sid)
    ensures w.venue.nextRid != 0 && w.entries[sid].fields.buyRid < w.venue.nextRid && w.entries[sid].fields.sellRid < w.venue.nextRid
  {
    hide EntryInv, Mirrors, Attributed, AllKnown, Ledger;
    LanesKnown(w.entries[sid], sid, w.store, w.venue);
  }

  lemma BuyLookExplained(w: World, sid: Sid, oid: Oid, verdict: Verdict)
    requires Managed(w, sid) && oid in w.store && w.store[oid].side.Buy? && MayMeet(w.venue, oid, verdict) && w.venue.nextRid != 0
    requires var f := w.entries[sid].fields;
             f.buyOrders <= w.store.Keys && !f.needBuy && !f.needSell && f.buyRid == 0 && f.sellRid == 0 && !f.isDone
    ensures Accounted(w, Watching(sid, oid, verdict), sid, LooksAtBuy(w.entries[sid], sid, oid, w.store, w.venue, verdict))
  {
    hide Asked, Bid, WithOrder, LegalCancel, HearsRefused;
    NotHeard(w, Watching(sid, oid, verdict), sid);
  }

  lemma SellLookExplained(w: World, sid: Sid, oid: Oid, verdict: Verdict)
    requires Managed(w, sid) && oid in w.store && w.store[oid].side.Sell? && MayMeet(w.venue, oid, verdict) && w.venue.nextRid != 0
    requires var f := w.entries[sid].fields;
             f.sellOrders <= w.store.Keys && !f.needBuy && !f.needSell && f.buyRid == 0 && f.sellRid == 0 && !f.isDone
    ensures Accounted(w, Watching(sid, oid, verdict), sid, LooksAtSell(w.entries[sid], sid, oid, w.store, w.venue, verdict))
  {
    hide Asked, Offer, WithOrder, LegalCancel, HearsRefused;
    NotHeard(w, Watching(sid, oid, verdict), sid);
  }

  lemma NotHeard(w: World, s: Step, sid: Sid)
    requires !s.Listening?
    ensures forall side, code :: !HearsRefused(w, s, sid, side, code)
  {}

  lemma WatchingEnabled(w: World, sid: Sid, oid: Oid, verdict: Verdict)
    requires Enabled(w, Watching(sid, oid, verdict))
    ensures Managed(w, sid) && oid in w.entries[sid].watchers && MayMeet(w.venue, oid, verdict)
  {}

  lemma CreatedExplained(w: World, sid: Sid, rid: Rid, answer: CancelAnswer)
    requires Managed(w, sid) && rid in w.venue.replies && w.venue.replies[rid].1.Created?
    ensures Accounted(w, Listening(sid, rid, answer), sid, TakesUp(w.entries[sid], rid, w.venue.replies[rid].1.oid, w.store, w.venue))
  {
    hide WithoutReply;
  }

  lemma BuyRefusalExplained(w: World, sid: Sid, rid: Rid, answer: CancelAnswer)
    requires Managed(w, sid) && rid in w.venue.replies && w.venue.replies[rid].1.Refused? && 0 !in w.store
    requires var f := w.entries[sid].fields;
             && rid == f.buyRid && rid != 0 && f.sellRid == 0 && !f.needBuy && !f.needSell && !f.isDone
             && (f.prevBuy != 0 ==> f.prevBuy in w.store && f.buyOrders <= w.store.Keys) && LegalCancel(w.venue, f.prevBuy, answer)
    ensures Accounted(w, Listening(sid, rid, answer), sid,
                      HearsBuyRefused(w.entries[sid], rid, w.venue.replies[rid].1.code, w.store, w.venue, answer))
  {
    hide WithOrder, WithoutReply, LegalCancel;
  }

  lemma SellRefusalExplained(w: World, sid: Sid, rid: Rid, answer: CancelAnswer)
    requires Managed(w, sid) && rid in w.venue.replies && w.venue.replies[rid].1.Refused? && 0 !in w.store
    requires var f := w.entries[sid].fields;
             && rid == f.sellRid && rid != f.buyRid && rid != 0 && !f.needBuy && !f.needSell && !f.isDone
             && (f.prevSell != 0 ==> f.prevSell in f.sellOrders && f.sellOrders <= w.store.Keys) && LegalCancel(w.venue, f.prevSell, answer)
    ensures Accounted(w, Listening(sid, rid, answer), sid,
                      HearsSellRefused(w.entries[sid], rid, w.venue.replies[rid].1.code, w.store, w.venue, answer))
  {
    hide WithOrder, WithoutReply, LegalCancel;
  }

  lemma ListeningEnabled(w: World, sid: Sid, rid: Rid, answer: CancelAnswer)
    requires Enabled(w, Listening(sid, rid, answer))
    ensures Managed(w, sid) && rid in w.venue.replies
    ensures rid == w.entries[sid].fields.buyRid || rid == w.entries[sid].fields.sellRid
    ensures LegalCancel(w.venue, if rid == w.entries[sid].fields.buyRid then w.entries[sid].fields.prevBuy else w.entries[sid].fields.prevSell, answer)
  {}

  lemma ZeroUnknown(w: World)
    requires WorldInv(w)
    ensures 0 !in w.store
  {
    hide EntryInv;
  }

  lemma OthersExplained(w: World, s: Step, sid: Sid)
    requires Enabled(w, s) && sid < |w.entries|
    requires !s.Deciding? && !s.Watching? && !s.Listening?
    ensures sid < |Next(w, s).entries| && Next(w, s).entries[sid].fields == w.entries[sid].fields
  {
    hide Accept, Refuse, CanAccept;
  }

  lemma DeedLands(w: World, s: Step, sid: Sid, d: Deed)
    requires Enabled(w, s) && Managed(w, sid) && Next(w, s) == Follows(w, sid, d) && Accounted(w, s, sid, d)
    ensures sid < |Next(w, s).entries|
    ensures Next(w, s).status.Running? ==> Explained(w, s, sid, w.entries[sid].fields, Next(w, s).entries[sid].fields)
  {
    hide Enabled, Next, Explained;
  }

  lemma UnknownExplained(w: World, sid: Sid, oid: Oid, verdict: Verdict)
    requires sid < |w.entries| && oid !in w.store
    ensures Explained(w, Watching(sid, oid, verdict), sid, w.entries[sid].fields, w.entries[sid].fields)
  {}

  lemma Elsewhere(w: World, s: Step, sid: Sid)
    requires sid < |w.entries| && (s.Deciding? || s.Watching? || s.Listening? ==> s.sid != sid)
    ensures Explained(w, s, sid, w.entries[sid].fields, w.entries[sid].fields)
  {}

  // ----- over all steps: what is booked, and when the bot gives up -----

  /** The bot gives up when a cancel comes back with an error, when a refusal is of another kind or finds no order
      to go by, and when the order that it finds is not in a state that the code knows what to do with. */
  predicate GivesUp(w: World, s: Step) {
    || s.Faulting?
    || (s.Watching? && s.oid in w.store && w.store[s.oid].state == Active && s.verdict.Withdraw? && s.verdict.answer.CancelError?)
    || (s.Listening? && s.sid < |w.entries| && s.rid in w.venue.replies && w.venue.replies[s.rid].1.Refused?
        && var f := w.entries[s.sid].fields;
           var (p, code) := (if s.rid == f.buyRid then f.prevBuy else f.prevSell, w.venue.replies[s.rid].1.code);
           || p !in w.store || code.OtherError?
           || (code.AmountTooSmall? && w.store[p].state == Active && !s.answer.Confirmed?)
           || (code.DoneOrder? && w.store[p].state != Done && w.store[p].state != Cancelled))
  }

  /** A completed buy side is booked as a cost, a completed sell side as what it brought in, at the sums of the store
      as the step leaves it. */
  ghost predicate Booked(w: World, s: Step, d: Deed)
    requires BySomebody(s) && s.sid < |w.entries|
  {
    var f := w.entries[s.sid].fields;
    d.Does? ==>
      if EndsSide(w, s, s.sid, Buy) then f.buyOrders <= d.store.Keys && d.booked == -Total(f.buyOrders, Costs(d.store))
      else if EndsSide(w, s, s.sid, Sell) then f.sellOrders <= d.store.Keys && d.booked == Total(f.sellOrders, Costs(d.store))
      else d.booked == 0
  }

  predicate BySomebody(s: Step) { s.Deciding? || s.Listening? || s.Watching? }

  lemma WatchingBooks(w: World, sid: Sid, oid: Oid, verdict: Verdict, d: Deed)
    requires Managed(w, sid) && MayMeet(w.venue, oid, verdict)
    requires var f := w.entries[sid].fields;
             if oid !in w.store then d == Rests(w.entries[sid], w.store, w.venue)
             else if w.store[oid].side.Buy? then f.buyOrders <= w.store.Keys && d == LooksAtBuy(w.entries[sid], sid, oid, w.store, w.venue, verdict)
             else f.sellOrders <= w.store.Keys && d == LooksAtSell(w.entries[sid], sid, oid, w.store, w.venue, verdict)
    ensures Booked(w, Watching(sid, oid, verdict), d) && (d.Breaks? <==> GivesUp(w, Watching(sid, oid, verdict)))
  {
    hide Asked, Offer, Bid, WithOrder, LegalCancel, Costs;
  }

  lemma HearingBooks(w: World, sid: Sid, rid: Rid, answer: CancelAnswer, d: Deed)
    requires Managed(w, sid) && rid in w.venue.replies && 0 !in w.store
    requires var (e, f) := (w.entries[sid], w.entries[sid].fields);
             match w.venue.replies[rid].1
             case Created(oid) => d == TakesUp(e, rid, oid, w.store, w.venue)
             case Refused(code) =>
               if rid == f.buyRid then
                 && (f.prevBuy != 0 ==> f.prevBuy in w.store && f.buyOrders <= w.store.Keys) && LegalCancel(w.venue, f.prevBuy, answer)
                 && d == HearsBuyRefused(e, rid, code, w.store, w.venue, answer)
               else
                 && rid == f.sellRid && (f.prevSell != 0 ==> f.prevSell in f.sellOrders && f.sellOrders <= w.store.Keys)
                 && LegalCancel(w.venue, f.prevSell, answer)
                 && d == HearsSellRefused(e, rid, code, w.store, w.venue, answer)
    ensures Booked(w, Listening(sid, rid, answer), d) && (d.Breaks? <==> GivesUp(w, Listening(sid, rid, answer)))
  {
    hide WithOrder, WithoutReply, LegalCancel, Costs, Bought, Sold;
  }

  /** Whatever a process does, the profit moves exactly by the side that it completes, and the bot stops exactly
      when it gives up. */
  lemma BooksExactly(w: World, s: Step)
    requires WorldInv(w) && Enabled(w, s) && BySomebody(s)
    ensures s.sid < |w.entries|
    ensures Next(w, s).status.Failed? <==> GivesUp(w, s)
    ensures var (f, w') := (w.entries[s.sid].fields, Next(w, s));
            w'.status.Running? ==>
              if EndsSide(w, s, s.sid, Buy) then f.buyOrders <= w'.store.Keys && w'.profit == w.profit - Total(f.buyOrders, Costs(w'.store))
              else if EndsSide(w, s, s.sid, Sell) then f.sellOrders <= w'.store.Keys && w'.profit == w.profit + Total(f.sellOrders, Costs(w'.store))
              else w'.profit == w.profit
  {
    hide WorldInv, Next, Enabled, EndsSide, GivesUp, LooksAtBuy, LooksAtSell, Decides, TakesUp, HearsBuyRefused, HearsSellRefused;
    var d := Happens(w, s);
  }

  /** The deed of an activation, with what it books. */
  lemma Happens(w: World, s: Step) returns (d: Deed)
    requires WorldInv(w) && Enabled(w, s) && BySomebody(s)
    ensures s.sid < |w.entries| && Next(w, s) == Follows(w, s.sid, d)
    ensures Managed(w, s.sid) && Accounted(w, s, s.sid, d) && Booked(w, s, d) && (d.Breaks? <==> GivesUp(w, s))
  {
    hide WorldInv, Next, Enabled, Follows, Explained, Booked, GivesUp, LooksAtBuy, LooksAtSell, Decides, TakesUp, HearsBuyRefused, HearsSellRefused;
    match s
    case Deciding(sid, m) =>
      DecidesExactly(w, sid, m);
      DecidingEnabled(w, sid, m);
      FlagsAlone(w, sid);
      Numbered(w, sid);
      d := Decides(w.entries[sid], sid, w.store, w.venue, m);
      DecidingExplained(w, sid, m);
      DecidingBooks(w, sid, m);
    case Watching(sid, oid, verdict) =>
      WatchingEnabled(w, sid, oid, verdict);
      WatchedFacts(w, sid, oid);
      Numbered(w, sid);
      if oid !in w.store {
        WatchesUnknown(w, sid, oid, verdict);
        d := Rests(w.entries[sid], w.store, w.venue);
        UnknownExplained(w, sid, oid, verdict);
      } else if w.store[oid].side.Buy? {
        WatchesBuyExactly(w, sid, oid, verdict);
        d := LooksAtBuy(w.entries[sid], sid, oid, w.store, w.venue, verdict);
        BuyLookExplained(w, sid, oid, verdict);
      } else {
        WatchesSellExactly(w, sid, oid, verdict);
        d := LooksAtSell(w.entries[sid], sid, oid, w.store, w.venue, verdict);
        SellLookExplained(w, sid, oid, verdict);
      }
      WatchingBooks(w, sid, oid, verdict, d);
    case Listening(sid, rid, answer) =>
      ListeningEnabled(w, sid, rid, answer);
      ReplyFacts(w, sid, rid);
      ZeroUnknown(w);
      match w.venue.replies[rid].1 {
        case Created(oid) =>
          HearsCreatedExactly(w, sid, rid, answer);
          d := TakesUp(w.entries[sid], rid, oid, w.store, w.venue);
          CreatedExplained(w, sid, rid, answer);
        case Refused(code) =>
          if rid == w.entries[sid].fields.buyRid {
            HearsBuyRefusedExactly(w, sid, rid, answer);
            d := HearsBuyRefused(w.entries[sid], rid, code, w.store, w.venue, answer);
            BuyRefusalExplained(w, sid, rid, answer);
          } else {
            HearsSellRefusedExactly(w, sid, rid, answer);
            d := HearsSellRefused(w.entries[sid], rid, code, w.store, w.venue, answer);
            SellRefusalExplained(w, sid, rid, answer);
          }
      }
      HearingBooks(w, sid, rid, answer, d);
  }

  lemma DecidingEnabled(w: World, sid: Sid, m: Market)
    requires Enabled(w, Deciding(sid, m))
    ensures Managed(w, sid) && (m.buyOpen ==> m.price > 0)
  {}

  lemma DecidingBooks(w: World, sid: Sid, m: Market)
    requires Managed(w, sid) && (m.buyOpen ==> m.price > 0)
    requires var f := w.entries[sid].fields;
             (f.needBuy ==> f.buyOrders <= w.store.Keys) && (f.needSell ==> f.sellOrders <= w.store.Keys)
    ensures var d := Decides(w.entries[sid], sid, w.store, w.venue, m);
            Booked(w, Deciding(sid, m), d) && d.Does? && !GivesUp(w, Deciding(sid, m))
  {
    hide Asked, Bid, Offer;
  }

  /** Over all steps: a session's sides complete, its flags rise and fall and its requests are sent for these reasons
      and for no others. */
  lemma EveryStepExplained(w: World, s: Step, sid: Sid)
    requires WorldInv(w) && Enabled(w, s) && Managed(w, sid) && Next(w, s).status.Running?
    ensures sid < |Next(w, s).entries|
    ensures Explained(w, s, sid, w.entries[sid].fields, Next(w, s).entries[sid].fields)
  {
    hide WorldInv, Next, Enabled, Explained, Follows, Accounted;
    if ActsForOther(s, sid) {
      OtherProcess(w, s, sid);
      Elsewhere(w, s, sid);
    } else if BySomebody(s) {
      var d := Happens(w, s);
      DeedLands(w, s, sid, d);
    } else {
      OthersExplained(w, s, sid);
      Elsewhere(w, s, sid);
    }
  }

  // ----- the clean-up -----

  /** The clean-up removes exactly the sessions that are done, changes nothing else in any session, and takes exactly
      their orders from the store. */
  lemma CleansExactly(w: World)
    requires Enabled(w, CleaningUp)
    ensures var w' := Next(w, CleaningUp);
            && |w'.entries| == |w.entries| && w'.venue == w.venue && w'.profit == w.profit && w'.status == w.status
            && (forall i | 0 <= i < |w.entries| ::
                  && w'.entries[i].fields == w.entries[i].fields && w'.entries[i].watchers == w.entries[i].watchers
                  && (w'.entries[i].removed <==> w.entries[i].removed || w.entries[i].fields.isDone))
            && (forall o :: o in w'.store <==>
                  o in w.store && !exists i :: 0 <= i < |w.entries| && w.entries[i].fields.isDone && !w.entries[i].removed
                                               && (o in w.entries[i].fields.buyOrders || o in w.entries[i].fields.sellOrders))
            && (forall o | o in w'.store :: w'.store[o] == w.store[o])
  {
    forall o: Oid ensures o in SweptOrders(w.entries) <==>
                     exists i :: 0 <= i < |w.entries| && w.entries[i].fields.isDone && !w.entries[i].removed
                                 && (o in w.entries[i].fields.buyOrders || o in w.entries[i].fields.sellOrders) {
      if o in SweptOrders(w.entries) { SweptIds(w.entries, o); }
      forall i | 0 <= i < |w.entries| && Swept(w.entries[i]) && (o in w.entries[i].fields.buyOrders || o in w.entries[i].fields.sellOrders)
        ensures o in SweptOrders(w.entries)
      {
        SweptContains(w.entries, i, o);
      }
    }
  }
}
