/**
 What holds of every session in every reachable state, and why each activation of a process
 keeps it. A session is in its buy phase, its sell phase or done; the side at work is an open
 lane, the other side is closed.
 */
module SpreadInvariant {
  import opened Totals
  import opened Exchange
  import opened Lanes
  import opened Budgets
  import opened SpreadSession
  import opened SpreadProtocol

  function BuyLane(e: Entry): Lane {
    Lane(e.fields.needBuy, e.fields.buyRid, e.fields.prevBuy, e.fields.activeBuy, e.fields.buyOrders,
         if e.fields.completedBuys == 0 then e.watchers else multiset{})
  }

  function SellLane(e: Entry): Lane {
    Lane(e.fields.needSell, e.fields.sellRid, e.fields.prevSell, e.fields.activeSell, e.fields.sellOrders,
         if e.fields.completedBuys == 0 then multiset{} else e.watchers)
  }

  ghost predicate BuyPhase(e: Entry, sid: Sid, store: Store, v: Venue) {
    && e.fields.completedBuys == 0 && e.fields.completedSells == 0 && !e.fields.isDone
    && e.fields.prevSell == 0 && e.fields.activeSell == 0 && e.fields.sellOrders == {}
    && Lanes.Open(BuyLane(e), sid, Buy, store, v)
    && Closed(SellLane(e), sid, Sell, store, v)
  }

  ghost predicate SellPhase(e: Entry, sid: Sid, store: Store, v: Venue) {
    && e.fields.completedBuys == 1 && e.fields.completedSells == 0 && !e.fields.isDone
    && e.fields.prevBuy == 0 && e.fields.activeBuy in e.fields.buyOrders
    && Closed(BuyLane(e), sid, Buy, store, v)
    && Lanes.Open(SellLane(e), sid, Sell, store, v)
    && e.fields.sellVolume == BoughtVolume(e.fields, store)
  }

  ghost predicate DonePhase(e: Entry, sid: Sid, store: Store, v: Venue) {
    && e.fields.completedBuys == 1 && e.fields.completedSells == 1 && e.fields.isDone
    && e.fields.prevBuy == 0 && e.fields.prevSell == 0 && e.fields.activeBuy in e.fields.buyOrders
    && Closed(BuyLane(e), sid, Buy, store, v)
    && Closed(SellLane(e), sid, Sell, store, v)
    && e.fields.sellVolume == BoughtVolume(e.fields, store)
  }

  /** After clean-up only the exchange remembers the orders, all of them final. */
  ghost predicate Retired(l: Lane, sid: Sid, side: Side, v: Venue) {
    && Tracked(l, sid, side, map[], v) && Owners(l) == 0 && l.prev == 0
    && (forall o | o in l.orders :: v.orders[o].order.state.Final())
  }

  ghost predicate RemovedPhase(e: Entry, sid: Sid, v: Venue) {
    && e.fields.completedBuys == 1 && e.fields.completedSells == 1 && e.fields.isDone
    && Retired(BuyLane(e), sid, Buy, v)
    && Retired(SellLane(e), sid, Sell, v)
  }

  ghost predicate EntryInv(e: Entry, sid: Sid, store: Store, v: Venue) {
    && (if e.removed then RemovedPhase(e, sid, v)
        else BuyPhase(e, sid, store, v) || SellPhase(e, sid, store, v) || DonePhase(e, sid, store, v))
    && Solvent(e, sid, v)
  }

  ghost predicate Solvent(e: Entry, sid: Sid, v: Venue) {
    && Budgeted(BuyLane(e), sid, Buy, v, e.fields.buyTotal)
    && Budgeted(SellLane(e), sid, Sell, v, e.fields.sellVolume as real)
  }

  /** What a session has contributed to the book's profit. */
  ghost function Contribution(e: Entry, v: Venue): int
    requires e.fields.buyOrders <= v.orders.Keys && e.fields.sellOrders <= v.orders.Keys
  {
    (if e.fields.completedSells > 0 then Total(e.fields.sellOrders, Costs(Truth(v))) else 0)
    - (if e.fields.completedBuys > 0 then Total(e.fields.buyOrders, Costs(Truth(v))) else 0)
  }

  /** The orders of a session are its own; those of a completed side are final at the exchange. */
  lemma LanesKnown(e: Entry, sid: Sid, store: Store, v: Venue)
    requires EntryInv(e, sid, store, v) && (!e.removed ==> Mirrors(store, v))
    ensures OwnRid(BuyLane(e), sid, Buy, v) && OwnRid(SellLane(e), sid, Sell, v)
    ensures e.fields.buyOrders <= v.orders.Keys && e.fields.sellOrders <= v.orders.Keys
    ensures forall o | o in e.fields.buyOrders :: OwnedBy(v, o, sid, Buy)
    ensures forall o | o in e.fields.sellOrders :: OwnedBy(v, o, sid, Sell)
    ensures e.fields.completedBuys > 0 ==> forall o | o in e.fields.buyOrders :: v.orders[o].order.state.Final()
    ensures e.fields.completedSells > 0 ==> forall o | o in e.fields.sellOrders :: v.orders[o].order.state.Final()
  {
    hide Waiting, OwnRid, Budgeted;
    var any := if e.removed then map[] else store;
    assert Tracked(BuyLane(e), sid, Buy, any, v) && Tracked(SellLane(e), sid, Sell, any, v);
    LaneOrdersKnown(BuyLane(e), sid, Buy, any, v);
    LaneOrdersKnown(SellLane(e), sid, Sell, any, v);
  }

  lemma OrdersKnown(e: Entry, sid: Sid, store: Store, v: Venue)
    requires EntryInv(e, sid, store, v)
    ensures e.fields.buyOrders <= v.orders.Keys && e.fields.sellOrders <= v.orders.Keys
  {
    hide Waiting, OwnRid, Budgeted;
    var any := if e.removed then map[] else store;
    assert Tracked(BuyLane(e), sid, Buy, any, v) && Tracked(SellLane(e), sid, Sell, any, v);
    LaneOrdersKnown(BuyLane(e), sid, Buy, any, v);
    LaneOrdersKnown(SellLane(e), sid, Sell, any, v);
  }

  lemma ClosedFacts(l: Lane, sid: Sid, side: Side, store: Store, v: Venue)
    requires Closed(l, sid, side, store, v)
    ensures OwnRid(l, sid, side, v) && Tracked(l, sid, side, store, v) && Settled(l.orders, store)
    ensures l.orders <= v.orders.Keys && !l.need && l.rid == 0 && l.watchers == multiset{}
    ensures forall o | o in l.orders :: OwnedBy(v, o, sid, side)
  {}

  lemma OpenFacts(l: Lane, sid: Sid, side: Side, store: Store, v: Venue)
    requires Lanes.Open(l, sid, side, store, v)
    ensures OwnRid(l, sid, side, v) && Tracked(l, sid, side, store, v) && l.orders <= v.orders.Keys
  {
    LaneOrdersKnown(l, sid, side, store, v);
  }

  lemma LaneOrdersKnown(l: Lane, sid: Sid, side: Side, store: Store, v: Venue)
    requires Tracked(l, sid, side, store, v)
    ensures l.orders <= v.orders.Keys
  {
    assert forall o | o in l.orders :: OwnedBy(v, o, sid, side);
  }

  // ----- what others do leaves a session alone -----

  ghost predicate AroundBoth(sid: Sid, store: Store, v: Venue, store': Store, v': Venue) {
    Around(sid, Buy, store, v, store', v') && Around(sid, Sell, store, v, store', v')
  }

  lemma CostsStay(orders: set<Oid>, sid: Sid, side: Side, v: Venue, v': Venue)
    requires OrdersAround(sid, side, v, v')
    requires forall o | o in orders :: OwnedBy(v, o, sid, side) && v.orders[o].order.state.Final()
    ensures orders <= v.orders.Keys && orders <= v'.orders.Keys
    ensures Total(orders, Costs(Truth(v))) == Total(orders, Costs(Truth(v')))
  {
    forall o | o in orders ensures o in v'.orders && v'.orders[o].order == v.orders[o].order {
      assert EvolvesLive(v.orders[o], v'.orders[o]);
    }
    TotalSame(orders, Costs(Truth(v)), Costs(Truth(v')));
  }

  lemma RetiredAround(l: Lane, sid: Sid, side: Side, store: Store, v: Venue, store': Store, v': Venue)
    requires Retired(l, sid, side, v) && Around(sid, side, store, v, store', v')
    ensures Retired(l, sid, side, v')
  {
    assert Around(sid, side, map[], v, map[], v');
    TrackedAround(l, sid, side, map[], v, map[], v');
    forall o | o in l.orders ensures v'.orders[o].order.state.Final() {
      assert EvolvesLive(v.orders[o], v'.orders[o]);
    }
  }

  lemma FillsStay(orders: set<Oid>, sid: Sid, side: Side, store: Store, v: Venue, store': Store)
    requires Settled(orders, store) && StoreAround(sid, side, store, v, store')
    requires forall o | o in orders :: OwnedBy(v, o, sid, side)
    ensures orders <= store.Keys && orders <= store'.Keys
    ensures Total(orders, Fills(store)) == Total(orders, Fills(store'))
  {
    SettledStays(orders, sid, side, store, v, store');
    TotalSame(orders, Fills(store), Fills(store'));
  }

  lemma PhasesAround(e: Entry, sid: Sid, store: Store, v: Venue, store': Store, v': Venue)
    requires !e.removed && AroundBoth(sid, store, v, store', v')
    ensures BuyPhase(e, sid, store, v) ==> BuyPhase(e, sid, store', v')
    ensures SellPhase(e, sid, store, v) ==> SellPhase(e, sid, store', v')
    ensures DonePhase(e, sid, store, v) ==> DonePhase(e, sid, store', v')
  {
    hide VenueValid, Mirrors, Lanes.Open, Closed, Tracked;
    var (b, s) := (BuyLane(e), SellLane(e));
    if Lanes.Open(b, sid, Buy, store, v) { OpenAround(b, sid, Buy, store, v, store', v'); }
    if Lanes.Open(s, sid, Sell, store, v) { OpenAround(s, sid, Sell, store, v, store', v'); }
    if Closed(s, sid, Sell, store, v) { ClosedAround(s, sid, Sell, store, v, store', v'); }
    if Closed(b, sid, Buy, store, v) {
      ClosedFacts(b, sid, Buy, store, v);
      ClosedAround(b, sid, Buy, store, v, store', v');
      FillsStay(b.orders, sid, Buy, store, v, store');
    }
  }

  /** Steps around a session keep its invariant and its contribution. */
  lemma EntryAround(e: Entry, sid: Sid, store: Store, v: Venue, store': Store, v': Venue)
    requires EntryInv(e, sid, store, v) && AroundBoth(sid, store, v, store', v')
    requires !e.removed ==> Mirrors(store, v)
    ensures EntryInv(e, sid, store', v')
    ensures e.fields.buyOrders <= v.orders.Keys && e.fields.sellOrders <= v.orders.Keys
    ensures e.fields.buyOrders <= v'.orders.Keys && e.fields.sellOrders <= v'.orders.Keys
    ensures Contribution(e, v') == Contribution(e, v)
  {
    hide OrdersAround, StoreAround, RequestsAround, VenueValid, Mirrors, Lanes.Open, Closed, Tracked, Budgeted;
    var (b, s) := (BuyLane(e), SellLane(e));
    LanesKnown(e, sid, store, v);
    if e.removed {
      RetiredAround(b, sid, Buy, store, v, store', v');
      RetiredAround(s, sid, Sell, store, v, store', v');
    } else {
      PhasesAround(e, sid, store, v, store', v');
    }
    BudgetedAround(b, sid, Buy, store, v, store', v', e.fields.buyTotal);
    BudgetedAround(s, sid, Sell, store, v, store', v', e.fields.sellVolume as real);
    OrdersKnown(e, sid, store', v');
    if e.fields.completedBuys > 0 {
      CostsStay(b.orders, sid, Buy, v, v');
    }
    if e.fields.completedSells > 0 {
      CostsStay(s.orders, sid, Sell, v, v');
    }
  }

  function After(e: Entry, self: multiset<Oid>, oc: Outcome): Entry
    requires oc.Acts?
  {
    e.(fields := ApplyAll(oc.writes, e.fields), watchers := Remaining(e, self, oc))
  }

  ghost predicate AroundOthers(sid: Sid, store: Store, v: Venue, store': Store, v': Venue) {
    forall i | i != sid :: AroundBoth(i, store, v, store', v')
  }

  ghost predicate Books(e: Entry, v: Venue, e': Entry, v': Venue, amount: int) {
    && e.fields.buyOrders <= v.orders.Keys && e.fields.sellOrders <= v.orders.Keys
    && e'.fields.buyOrders <= v'.orders.Keys && e'.fields.sellOrders <= v'.orders.Keys
    && amount == Contribution(e', v') - Contribution(e, v)
  }

  /** A session moves on soundly: its invariant is kept, all other sessions are left alone, and
      exactly the change of its contribution is booked. */
  ghost predicate Advances(e: Entry, e': Entry, sid: Sid, store: Store, v: Venue, store': Store, v': Venue, booked: int) {
    && VenueValid(v') && Mirrors(store', v')
    && AroundOthers(sid, store, v, store', v')
    && EntryInv(e', sid, store', v')
    && Books(e, v, e', v', booked)
  }

  /** An activation never runs into a missing order, and moves its session on soundly. */
  ghost predicate Sound(e: Entry, sid: Sid, self: multiset<Oid>, store: Store, v: Venue, oc: Outcome) {
    && !oc.Panics?
    && (oc.Acts? ==> Advances(e, After(e, self, oc), sid, store, v, oc.store, oc.venue, oc.booked))
  }

  ghost predicate Ready(e: Entry, sid: Sid, store: Store, v: Venue) {
    !e.removed && EntryInv(e, sid, store, v) && VenueValid(v) && Mirrors(store, v)
  }

  ghost predicate Buying(e: Entry, sid: Sid, store: Store, v: Venue) {
    !e.removed && BuyPhase(e, sid, store, v) && Solvent(e, sid, v) && VenueValid(v) && Mirrors(store, v)
  }

  ghost predicate Selling(e: Entry, sid: Sid, store: Store, v: Venue) {
    !e.removed && SellPhase(e, sid, store, v) && Solvent(e, sid, v) && VenueValid(v) && Mirrors(store, v)
  }

  /** The side at work tells the phase. */
  lemma PhaseOf(e: Entry, sid: Sid, store: Store, v: Venue)
    requires Ready(e, sid, store, v)
    ensures e.fields.needBuy || e.fields.buyRid != 0 ==> Buying(e, sid, store, v)
    ensures e.fields.needSell || e.fields.sellRid != 0 ==> Selling(e, sid, store, v)
    ensures e.watchers != multiset{} ==> Buying(e, sid, store, v) || Selling(e, sid, store, v)
    ensures Buying(e, sid, store, v) ==> Sane(BuyLane(e), sid, Buy, store, v, e.fields.buyTotal)
    ensures Selling(e, sid, store, v) ==> Sane(SellLane(e), sid, Sell, store, v, e.fields.sellVolume as real)
  {}

  // ----- from lanes to sessions -----

  predicate SameSellSide(f: Fields, f': Fields) {
    && f'.needSell == f.needSell && f'.sellRid == f.sellRid && f'.prevSell == f.prevSell && f'.activeSell == f.activeSell
    && f'.sellOrders == f.sellOrders && f'.sellVolume == f.sellVolume && f'.completedSells == f.completedSells
  }

  predicate SameBuySide(f: Fields, f': Fields) {
    && f'.needBuy == f.needBuy && f'.buyRid == f.buyRid && f'.prevBuy == f.prevBuy && f'.activeBuy == f.activeBuy
    && f'.buyOrders == f.buyOrders && f'.buyTotal == f.buyTotal && f'.completedBuys == f.completedBuys
  }

  /** A step of the open buy side. */
  lemma BuySideKeeps(e: Entry, e': Entry, sid: Sid, store: Store, v: Venue, store': Store, v': Venue)
    requires Buying(e, sid, store, v)
    requires Around(sid, Sell, store, v, store', v')
    requires SameSellSide(e.fields, e'.fields) && !e'.removed && !e'.fields.isDone
    requires e'.fields.completedBuys == 0 && e'.fields.buyTotal == e.fields.buyTotal
    requires Sane(BuyLane(e'), sid, Buy, store', v', e.fields.buyTotal)
    ensures EntryInv(e', sid, store', v') && Books(e, v, e', v', 0)
  {
    assert SellLane(e') == SellLane(e);
    ClosedAround(SellLane(e), sid, Sell, store, v, store', v');
    BudgetedAround(SellLane(e), sid, Sell, store, v, store', v', e.fields.sellVolume as real);
    LaneOrdersKnown(BuyLane(e), sid, Buy, store, v);
    LaneOrdersKnown(BuyLane(e'), sid, Buy, store', v');
    assert BuyPhase(e', sid, store', v');
  }

  lemma BuySideStep(e: Entry, e': Entry, sid: Sid, store: Store, v: Venue, store': Store, v': Venue)
    requires Buying(e, sid, store, v)
    requires Around(sid, Sell, store, v, store', v') && AroundOthers(sid, store, v, store', v')
    requires SameSellSide(e.fields, e'.fields) && !e'.removed && !e'.fields.isDone
    requires e'.fields.completedBuys == 0 && e'.fields.buyTotal == e.fields.buyTotal
    requires Sane(BuyLane(e'), sid, Buy, store', v', e.fields.buyTotal)
    ensures Advances(e, e', sid, store, v, store', v', 0)
  {
    hide Around, EntryInv, Budgeted, VenueValid, Mirrors;
    BuySideKeeps(e, e', sid, store, v, store', v');
    assert VenueValid(v') && Mirrors(store', v');
  }

  /** A step of the open sell side. */
  lemma SellSideKeeps(e: Entry, e': Entry, sid: Sid, store: Store, v: Venue, store': Store, v': Venue)
    requires Selling(e, sid, store, v)
    requires Around(sid, Buy, store, v, store', v')
    requires SameBuySide(e.fields, e'.fields) && !e'.removed && !e'.fields.isDone
    requires e'.fields.completedSells == 0 && e'.fields.sellVolume == e.fields.sellVolume
    requires Sane(SellLane(e'), sid, Sell, store', v', e.fields.sellVolume as real)
    ensures EntryInv(e', sid, store', v') && Books(e, v, e', v', 0)
  {
    assert BuyLane(e') == BuyLane(e);
    ClosedBuyAround(e, sid, store, v, store', v');
    LaneOrdersKnown(SellLane(e), sid, Sell, store, v);
    LaneOrdersKnown(SellLane(e'), sid, Sell, store', v');
    assert SellPhase(e', sid, store', v');
  }

  lemma SellSideStep(e: Entry, e': Entry, sid: Sid, store: Store, v: Venue, store': Store, v': Venue)
    requires Selling(e, sid, store, v)
    requires Around(sid, Buy, store, v, store', v') && AroundOthers(sid, store, v, store', v')
    requires SameBuySide(e.fields, e'.fields) && !e'.removed && !e'.fields.isDone
    requires e'.fields.completedSells == 0 && e'.fields.sellVolume == e.fields.sellVolume
    requires Sane(SellLane(e'), sid, Sell, store', v', e.fields.sellVolume as real)
    ensures Advances(e, e', sid, store, v, store', v', 0)
  {
    hide Around, EntryInv, Budgeted, VenueValid, Mirrors;
    SellSideKeeps(e, e', sid, store, v, store', v');
    assert VenueValid(v') && Mirrors(store', v');
  }

  /** The closed buy side of a selling session stays closed, within its budget and worth the same. */
  lemma ClosedBuyAround(e: Entry, sid: Sid, store: Store, v: Venue, store': Store, v': Venue)
    requires Closed(BuyLane(e), sid, Buy, store, v) && Around(sid, Buy, store, v, store', v') && Mirrors(store, v)
    requires Budgeted(BuyLane(e), sid, Buy, v, e.fields.buyTotal)
    ensures Closed(BuyLane(e), sid, Buy, store', v')
    ensures Budgeted(BuyLane(e), sid, Buy, v', e.fields.buyTotal)
    ensures e.fields.buyOrders <= store.Keys && e.fields.buyOrders <= store'.Keys
    ensures BoughtVolume(e.fields, store) == BoughtVolume(e.fields, store')
    ensures e.fields.buyOrders <= v.orders.Keys && e.fields.buyOrders <= v'.orders.Keys
    ensures Total(e.fields.buyOrders, Costs(Truth(v))) == Total(e.fields.buyOrders, Costs(Truth(v')))
  {
    var b := BuyLane(e);
    ClosedAround(b, sid, Buy, store, v, store', v');
    BudgetedAround(b, sid, Buy, store, v, store', v', e.fields.buyTotal);
    FillsStay(b.orders, sid, Buy, store, v, store');
    CostsStay(b.orders, sid, Buy, v, v');
  }

  /** The buy side completes: its cost is booked and the sell side opens on what was bought. */
  lemma BuyDoneStep(e: Entry, e': Entry, sid: Sid, store: Store, v: Venue, v': Venue, oid: Oid)
    requires Buying(e, sid, store, v) && e.fields.buyOrders <= store.Keys && v'.orders == v.orders
    requires Around(sid, Sell, store, v, store, v') && AroundOthers(sid, store, v, store, v')
    requires e' == e.(fields := Apply(BuyDone(oid, BoughtVolume(e.fields, store)), e.fields), watchers := multiset{})
    requires oid in e.fields.buyOrders && !e.fields.needBuy
    requires Closed(BuyLane(e'), sid, Buy, store, v')
    ensures Advances(e, e', sid, store, v, store, v', -BoughtCost(e.fields, store))
  {
    hide OrdersAround, StoreAround, RequestsAround, AroundOthers, VenueValid, Closed, Lanes.Open, Tracked, Budgeted;
    var (s, s') := (SellLane(e), SellLane(e'));
    ClosedFacts(s, sid, Sell, store, v);
    ClosedAround(s, sid, Sell, store, v, store, v');
    ClosedOpens(s, s', sid, Sell, store, v');
    ClosedFacts(s, sid, Sell, store, v');
    OpenFacts(s', sid, Sell, store, v');
    OpenFacts(BuyLane(e), sid, Buy, store, v);
    ClosedFacts(BuyLane(e'), sid, Buy, store, v');
    BudgetedIdle(BuyLane(e), BuyLane(e'), sid, Buy, v, v', e.fields.buyTotal);
    NothingOwned(s', sid, Sell, store, v', e'.fields.sellVolume as real);
    SettledIsTrue(e.fields.buyOrders, store, v);
    assert SellPhase(e', sid, store, v');
  }

  lemma ClosedOpens(s: Lane, s': Lane, sid: Sid, side: Side, store: Store, v: Venue)
    requires Closed(s, sid, side, store, v) && s' == s.(need := true)
    ensures Lanes.Open(s', sid, side, store, v)
  {}

  lemma NothingOwned(l: Lane, sid: Sid, side: Side, store: Store, v: Venue, cap: real)
    requires VenueValid(v) && Tracked(l, sid, side, store, v) && l.orders == {} && l.rid == 0
    ensures Budgeted(l, sid, side, v, cap)
  {
    assert Owned(v, sid, side) == {} by {
      assert forall o | OwnedBy(v, o, sid, side) :: o in l.orders;
    }
  }

  /** The sell side completes: its cost is booked and the session is done. */
  lemma SellDoneStep(e: Entry, e': Entry, sid: Sid, store: Store, v: Venue, store': Store, v': Venue)
    requires Selling(e, sid, store, v) && Mirrors(store', v')
    requires Around(sid, Buy, store, v, store', v') && AroundOthers(sid, store, v, store', v')
    requires e' == e.(fields := Apply(SellDone, e.fields), watchers := multiset{})
    requires Closed(SellLane(e'), sid, Sell, store', v') && e.fields.sellOrders <= store'.Keys
    requires Budgeted(SellLane(e'), sid, Sell, v', e.fields.sellVolume as real)
    ensures Advances(e, e', sid, store, v, store', v', SoldCost(e.fields, store'))
  {
    hide OrdersAround, StoreAround, RequestsAround, AroundOthers, VenueValid, Mirrors, Closed, Lanes.Open, Tracked, Budgeted;
    ClosedFacts(BuyLane(e), sid, Buy, store, v);
    OpenFacts(SellLane(e), sid, Sell, store, v);
    ClosedFacts(SellLane(e'), sid, Sell, store', v');
    assert BuyLane(e') == BuyLane(e);
    ClosedBuyAround(e, sid, store, v, store', v');
    SettledIsTrue(e.fields.sellOrders, store', v');
    assert DonePhase(e', sid, store', v');
  }
}
