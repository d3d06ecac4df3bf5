/**
 Restarting a session from a dump (strategy/spread.go): request ids and watchers are lost, and what the
 session left behind decides which order is watched again.
 */
module Recovery {
  import opened Totals
  import opened Exchange
  import opened Lanes
  import opened Budgets
  import opened SpreadSession
  import opened SpreadProtocol
  import opened SpreadInvariant
  import opened SpreadServices
  import opened SpreadSteps
  import opened SpreadTheorems
  import opened SpreadStalls
  import opened SpreadAnchors
  import D = Decimals

  /** What a dump keeps of a session: the unexported request ids are not written. */
  function Dumped(f: Fields): Fields { f.(buyRid := 0, sellRid := 0) }

  /** The exchange's answer when an order is looked up: the order, nothing, or an error. */
  datatype Lookup = Found(oid: Oid, order: Order) | NotThere | LookupError

  /** Which order the restarted session watches, when nothing fails. */
  function Rewatched(f: Fields, lookup: Lookup): D.Option<Oid> {
    if f.activeSell != 0 then D.Some(f.activeSell)
    else if f.activeBuy != 0 then D.Some(f.activeBuy)
    else if (f.buyExt != 0 || f.sellExt != 0) && lookup.Found? then D.Some(lookup.oid)
    else D.None
  }

  /** The fields of the restarted session. */
  function Refilled(f: Fields, lookup: Lookup): Fields {
    if f.activeSell != 0 || f.activeBuy != 0 || !lookup.Found? then Dumped(f)
    else if f.buyExt != 0 then Dumped(f).(activeBuy := lookup.oid, buyExt := 0)
    else if f.sellExt != 0 then Dumped(f).(activeSell := lookup.oid, sellExt := 0)
    else Dumped(f)
  }

  function Restarted(e: Entry, lookup: Lookup): Entry {
    var w := Rewatched(e.fields, lookup);
    Entry(Refilled(e.fields, lookup), if w.Some? then multiset{w.value} else multiset{}, e.removed)
  }

  class Spread {
    const storage: OrderStore

    constructor (storage: OrderStore)
      ensures this.storage == storage
    { this.storage := storage; }

    /** The store asks the exchange for an order it does not have. */
    method UpdateOrderStateByID(lookup: Lookup) returns (r: Result<()>)
      modifies storage
      ensures lookup.LookupError? <==> r.Failure?
      ensures r.Failure? ==> r.fault == ResponseError
      ensures storage.userOrders == if lookup.Found? then old(storage.userOrders)[lookup.oid := lookup.order] else old(storage.userOrders)
    {
      match lookup
      case Found(oid, order) =>
        storage.UpsertUserOrder(oid, order);
        r := Success(());
      case NotThere => r := Success(());
      case LookupError => r := Failure(ResponseError);
    }

    /** An order found by its external id becomes the active one. */
    method AdoptBuyOrder(sess: Session, oid: Oid)
      modifies sess
      ensures TrailOf(sess) == Written([ActiveBuy(oid), BuyExt(0), BuyRid(0)], old(TrailOf(sess)))
    {
      hide Session.View;
      ghost var t := TrailOf(sess);
      sess.SetActiveBuyOrderID(oid);
      sess.SetActiveBuyExtOrderID(0);
      sess.SetActiveBuyOrderRequestID(0);
      WrittenThree(ActiveBuy(oid), BuyExt(0), BuyRid(0), t);
    }

    method AdoptSellOrder(sess: Session, oid: Oid)
      modifies sess
      ensures TrailOf(sess) == Written([ActiveSell(oid), SellExt(0), SellRid(0)], old(TrailOf(sess)))
    {
      hide Session.View;
      ghost var t := TrailOf(sess);
      sess.SetActiveSellOrderID(oid);
      sess.SetActiveSellExtOrderID(0);
      sess.SetActiveSellOrderRequestID(0);
      WrittenThree(ActiveSell(oid), SellExt(0), SellRid(0), t);
    }

    /** Restarts the watcher of an old session; the decider and the listener are started afterwards
        in any case. The exchange is asked for the order to be watched when the store does not have it,
        and always for the order behind an external id; one that is not there ends in a missing order. */
    method ProcessOldSession(sess: Session, lookup: Lookup) returns (r: Result<D.Option<Oid>>)
      requires sess.View().buyRid == 0 && sess.View().sellRid == 0
      modifies sess, storage
      ensures r.Success? ==> r.value == Rewatched(old(sess.View()), lookup) && sess.View() == Refilled(old(sess.View()), lookup)
      ensures var (f, store) := (old(sess.View()), old(storage.userOrders));
              var asked := if f.activeSell != 0 then f.activeSell !in store
                           else if f.activeBuy != 0 then f.activeBuy !in store
                           else f.buyExt != 0 || f.sellExt != 0;
              && storage.userOrders == (if asked && lookup.Found? then store[lookup.oid := lookup.order] else store)
              && (r == Failure(ResponseError) <==> asked && lookup.LookupError?)
      ensures var f := old(sess.View());
              r == Failure(NilOrder) <==>
              f.activeSell == 0 && f.activeBuy == 0 && (f.buyExt != 0 || f.sellExt != 0) && lookup.NotThere?
      ensures r.Failure? ==> r.fault == NilOrder || r.fault == ResponseError
      ensures r.Success? ==>
                var f := old(sess.View());
                if f.activeSell != 0 then r.value == D.Some(f.activeSell) && sess.View() == f
                else if f.activeBuy != 0 then r.value == D.Some(f.activeBuy) && sess.View() == f
                else if f.buyExt != 0 then
                  lookup.Found? && r.value == D.Some(lookup.oid) && sess.View() == f.(activeBuy := lookup.oid, buyExt := 0)
                else if f.sellExt != 0 then
                  lookup.Found? && r.value == D.Some(lookup.oid) && sess.View() == f.(activeSell := lookup.oid, sellExt := 0)
                else r.value == D.None && sess.View() == f
    {
      ghost var t := TrailOf(sess);
      if lookup.Found? { AdoptedFields(t, lookup); }
      if sess.ActiveSellOrderID != 0 {
        var order := storage.GetUserOrder(sess.ActiveSellOrderID);
        if order.Failure? { var _ :- UpdateOrderStateByID(lookup); }
        return Success(D.Some(sess.ActiveSellOrderID));
      } else if sess.ActiveBuyOrderID != 0 {
        var order := storage.GetUserOrder(sess.ActiveBuyOrderID);
        if order.Failure? { var _ :- UpdateOrderStateByID(lookup); }
        return Success(D.Some(sess.ActiveBuyOrderID));
      } else if sess.ActiveBuyExtOrderID != 0 {
        var _ :- UpdateOrderStateByID(lookup);
        if lookup.NotThere? { return Failure(NilOrder); }
        AdoptBuyOrder(sess, lookup.oid);
        return Success(D.Some(lookup.oid));
      } else if sess.ActiveSellExtOrderID != 0 {
        var _ :- UpdateOrderStateByID(lookup);
        if lookup.NotThere? { return Failure(NilOrder); }
        AdoptSellOrder(sess, lookup.oid);
        return Success(D.Some(lookup.oid));
      }
      r := Success(D.None);
    }
  }

  lemma AdoptedFields(t: Trail, lookup: Lookup)
    requires lookup.Found?
    ensures Written([ActiveBuy(lookup.oid), BuyExt(0), BuyRid(0)], t).fields
            == t.fields.(activeBuy := lookup.oid, buyExt := 0, buyRid := 0)
    ensures Written([ActiveSell(lookup.oid), SellExt(0), SellRid(0)], t).fields
            == t.fields.(activeSell := lookup.oid, sellExt := 0, sellRid := 0)
  {
    WrittenThree(ActiveBuy(lookup.oid), BuyExt(0), BuyRid(0), t);
    WrittenThree(ActiveSell(lookup.oid), SellExt(0), SellRid(0), t);
  }

  /** A session dumped while one of its orders is watched comes back exactly as it was: one watcher on
      that order, the same fields, the invariant intact. */
  lemma WatchedIsRestored(run: seq<Step>, sid: Sid, lookup: Lookup)
    requires Legal(InitialWorld(), run) && Managed(Reached(run), sid)
    requires Reached(run).entries[sid].watchers != multiset{}
    ensures var (w, e) := (Reached(run), Reached(run).entries[sid]);
            && Restarted(e, lookup) == e
            && EntryInv(Restarted(e, lookup), sid, w.store, w.venue) && OwnerCount(Restarted(e, lookup)) == 1
  {
    hide Reached, EntryInv;
    ManagedIsReady(run, sid);
    var (w, e) := (Reached(run), Reached(run).entries[sid]);
    OneOwner(e, sid, w.store, w.venue);
    WatcherFacts(e, sid, w.store, w.venue);
  }

  lemma WatcherFacts(e: Entry, sid: Sid, store: Store, v: Venue)
    requires Ready(e, sid, store, v) && e.watchers != multiset{}
    ensures e.fields.buyRid == 0 && e.fields.sellRid == 0
    ensures if e.fields.completedBuys == 0 then e.fields.activeSell == 0 && e.fields.activeBuy != 0 && e.watchers == multiset{e.fields.activeBuy}
            else e.fields.activeSell != 0 && e.watchers == multiset{e.fields.activeSell}
  {
    hide EntryInv, BuyPhase, SellPhase, Solvent;
    PhaseOf(e, sid, store, v);
    var o :| o in e.watchers;
    if Buying(e, sid, store, v) {
      WatchedBuy(e, sid, store, v, o);
      BuyPhaseFacts(e, sid, store, v);
    } else {
      WatchedSell(e, sid, store, v, o);
      SellPhaseFacts(e, sid, store, v);
    }
  }

  lemma BuyPhaseFacts(e: Entry, sid: Sid, store: Store, v: Venue)
    requires Buying(e, sid, store, v)
    ensures e.fields.completedBuys == 0 && e.fields.activeSell == 0 && e.fields.sellRid == 0
  {
    hide Lanes.Open, Tracked, Solvent;
    ClosedFacts(SellLane(e), sid, Sell, store, v);
  }

  lemma SellPhaseFacts(e: Entry, sid: Sid, store: Store, v: Venue)
    requires Selling(e, sid, store, v)
    ensures e.fields.completedBuys == 1 && e.fields.buyRid == 0 && !e.fields.needBuy
    ensures e.fields.activeBuy in e.fields.buyOrders && e.fields.activeBuy != 0
    ensures e.fields.buyOrders <= store.Keys && store[e.fields.activeBuy].state.Final() && !e.fields.isDone
  {
    hide Lanes.Open, Tracked, Solvent;
    ClosedFacts(BuyLane(e), sid, Buy, store, v);
    assert OwnedBy(v, e.fields.activeBuy, sid, Buy);
  }

  /** An order or an external id is left to take up. */
  predicate HasOrder(f: Fields, lookup: Lookup) {
    f.activeSell != 0 || f.activeBuy != 0 || ((f.buyExt != 0 || f.sellExt != 0) && lookup.Found?)
  }

  /** A session that is not done comes back with a single owner if and only if it either has an order
      to watch or asks for a new one, but not both. */
  lemma RestartedOwner(e: Entry, sid: Sid, store: Store, v: Venue, lookup: Lookup)
    requires Ready(e, sid, store, v) && !e.fields.isDone
    ensures OwnerCount(Restarted(e, lookup)) == 1 <==> (HasOrder(e.fields, lookup) <==> !(e.fields.needBuy || e.fields.needSell))
  {
    hide EntryInv;
    OneOwner(e, sid, store, v);
  }

  /** A request of the session is still unanswered, or its answer has not been read. */
  predicate InFlight(e: Entry, v: Venue) { Awaits(BuyLane(e), v) || Awaits(SellLane(e), v) }

  lemma LostRid(l: Lane, l': Lane, sid: Sid, side: Side, v: Venue)
    requires VenueValid(v) && OwnRid(l, sid, side, v) && Awaits(l, v) && l'.rid == 0
    ensures !OwnRid(l', sid, side, v)
  {}

  lemma RestartDropsRids(e: Entry, lookup: Lookup)
    ensures BuyLane(Restarted(e, lookup)).rid == 0 && SellLane(Restarted(e, lookup)).rid == 0
    ensures Restarted(e, lookup).removed == e.removed
  {}

  /** A restart drops the id of a request in flight: its answer will find nobody who waits for it. */
  lemma InFlightIsLost(e: Entry, sid: Sid, store: Store, v: Venue, lookup: Lookup)
    requires Ready(e, sid, store, v) && InFlight(e, v)
    ensures !EntryInv(Restarted(e, lookup), sid, store, v)
  {
    hide EntryInv, Mirrors, VenueValid, OwnRid, Awaits, BuyLane, SellLane, Restarted;
    var r := Restarted(e, lookup);
    RestartDropsRids(e, lookup);
    LanesKnown(e, sid, store, v);
    if Awaits(BuyLane(e), v) { LostRid(BuyLane(e), BuyLane(r), sid, Buy, v); }
    else { LostRid(SellLane(e), SellLane(r), sid, Sell, v); }
    if EntryInv(r, sid, store, v) { LanesKnown(r, sid, store, v); }
  }

  /** With nothing in flight and no stall, a session comes back as it was or with a second owner. */
  lemma RestoredOrShared(e: Entry, sid: Sid, store: Store, v: Venue, lookup: Lookup)
    requires Ready(e, sid, store, v) && !e.fields.isDone && e.fields.buyRid == 0 && e.fields.sellRid == 0
    ensures EntryInv(Restarted(e, lookup), sid, store, v)
            <==> (HasOrder(e.fields, lookup) <==> !(e.fields.needBuy || e.fields.needSell))
    ensures EntryInv(Restarted(e, lookup), sid, store, v) ==> Restarted(e, lookup) == e
  {
    hide EntryInv, BuyPhase, SellPhase;
    RestartedOwner(e, sid, store, v, lookup);
    OneOwner(e, sid, store, v);
    var r := Restarted(e, lookup);
    if e.watchers != multiset{} {
      WatcherFacts(e, sid, store, v);
      assert r == e;
    } else if !HasOrder(e.fields, lookup) {
      assert r == e;
    }
    if EntryInv(r, sid, store, v) { OneOwner(r, sid, store, v); }
  }

  /** A stalled session's request id is gone for good: without it the cancelled order is watched again. */
  lemma StalledIsRestored(e: Entry, sid: Sid, store: Store, v: Venue, lookup: Lookup)
    requires Ready(e, sid, store, v) && Anchored(e, store, v) && Stalled(BuyLane(e), v)
    ensures var r := Restarted(e, lookup);
            && r == e.(fields := e.fields.(buyRid := 0), watchers := multiset{e.fields.activeBuy})
            && EntryInv(r, sid, store, v) && OwnerCount(r) == 1
    ensures !e.fields.needBuy && !e.fields.needSell && e.fields.sellRid == 0
  {
    hide Mirrors;
    StalledOwnsNothingElse(e, sid, store, v);
    StalledLane(e, sid, store, v);
    var r := Restarted(e, lookup);
    var l := BuyLane(e);
    assert BuyLane(r) == l.(rid := 0, watchers := multiset{l.active}) && SellLane(r) == SellLane(e);
    WatchAgainKeepsOpen(l, sid, store, v);
    BudgetedIdle(l, BuyLane(r), sid, Buy, v, v, e.fields.buyTotal);
    assert BuyPhase(r, sid, store, v);
  }

  lemma StalledLane(e: Entry, sid: Sid, store: Store, v: Venue)
    requires Ready(e, sid, store, v) && Anchored(e, store, v) && Stalled(BuyLane(e), v)
    ensures Buying(e, sid, store, v) && e.fields.activeSell == 0
    ensures e.fields.activeBuy != 0 && e.fields.activeBuy in e.fields.buyOrders
  {
    hide Solvent, Waiting;
    PhaseOf(e, sid, store, v);
    PrevIsOwn(e, sid, store, v);
    assert Tracked(BuyLane(e), sid, Buy, store, v);
  }

  lemma WatchAgainKeepsOpen(l: Lane, sid: Sid, store: Store, v: Venue)
    requires Lanes.Open(l, sid, Buy, store, v) && Stalled(l, v) && l.active in l.orders && l.active != 0 && VenueValid(v)
    ensures Lanes.Open(l.(rid := 0, watchers := multiset{l.active}), sid, Buy, store, v)
  {
    assert Waiting(l, sid, Buy, store, v);
  }

  /** A session that is not done comes back sound if and only if no request of it was in flight and it
      either has an order to watch or asks for a new one, but not both. */
  lemma RestoredExactly(run: seq<Step>, sid: Sid, lookup: Lookup)
    requires Legal(InitialWorld(), run) && Reached(run).status.Running? && Managed(Reached(run), sid)
    requires !Reached(run).entries[sid].fields.isDone
    ensures var (w, e) := (Reached(run), Reached(run).entries[sid]);
            EntryInv(Restarted(e, lookup), sid, w.store, w.venue) <==>
            && !InFlight(e, w.venue)
            && (HasOrder(e.fields, lookup) <==> !(e.fields.needBuy || e.fields.needSell))
  {
    hide Legal, Reached, EntryInv, Anchored;
    var (w, e) := (Reached(run), Reached(run).entries[sid]);
    ManagedIsReady(run, sid);
    AnchoredInRun(run);
    SellSideNeverStalls(run, sid);
    if InFlight(e, w.venue) {
      InFlightIsLost(e, sid, w.store, w.venue, lookup);
    } else if Stalled(BuyLane(e), w.venue) {
      StalledIsRestored(e, sid, w.store, w.venue, lookup);
      StalledLane(e, sid, w.store, w.venue);
    } else {
      RestoredOrShared(e, sid, w.store, w.venue, lookup);
    }
  }

  /** A restart heals a stalled session: it is sound again, and the first look at the cancelled order asks
      for a new one. */
  lemma RestartHeals(run: seq<Step>, sid: Sid, lookup: Lookup, verdict: Verdict)
    requires Legal(InitialWorld(), run) && Reached(run).status.Running? && Managed(Reached(run), sid)
    requires Stalled(BuyLane(Reached(run).entries[sid]), Reached(run).venue)
    requires MayMeet(Reached(run).venue, Reached(run).entries[sid].fields.activeBuy, verdict)
    ensures var (w, a) := (Reached(run), Reached(run).entries[sid].fields.activeBuy);
            var r := Restarted(w.entries[sid], lookup);
            && EntryInv(r, sid, w.store, w.venue) && r.watchers == multiset{a}
            && Watch(r.fields, sid, a, w.store, w.venue, verdict)
               == Writes([PrevBuy(a), ActiveBuy(0), NeedBuy(true)], w.store, w.venue)
  {
    hide Legal, Reached, EntryInv, Watch, Waiting;
    var (w, e) := (Reached(run), Reached(run).entries[sid]);
    ManagedIsReady(run, sid);
    AnchoredInRun(run);
    assert Anchored(e, w.store, w.venue);
    StalledIsRestored(e, sid, w.store, w.venue, lookup);
    StalledLane(e, sid, w.store, w.venue);
    BuySideOf(e, sid, w.store, w.venue, e.fields.activeBuy);
    FinalIsReopened(Restarted(e, lookup).fields, sid, e.fields.activeBuy, w.store, w.venue, verdict);
  }

  /** A session in its sell phase comes back watching its sell order, or without one its completed buy
      order. Whatever the market then says, the first look at a done buy order books the buy side a second
      time, and the first look at any other opens the buy side again. */
  lemma SellingBooksTwice(e: Entry, sid: Sid, store: Store, v: Venue, lookup: Lookup, verdict: Verdict)
    requires Selling(e, sid, store, v) && MayMeet(v, e.fields.activeBuy, verdict)
    ensures var (r, f, a) := (Restarted(e, lookup), e.fields, e.fields.activeBuy);
            && r.watchers == multiset{if f.activeSell != 0 then f.activeSell else a}
            && f.buyOrders <= store.Keys && a in store
            && (f.activeSell == 0 ==>
                  var look := Watch(r.fields, sid, a, store, v, verdict);
                  && OwnerCount(r) == (if f.needSell then 2 else 1)
                  && (look == Acts([BuyDone(a, BoughtVolume(f, store))], multiset{}, store, v, -BoughtCost(f, store))
                      <==> store[a].state.Done?)
                  && (look == Writes([PrevBuy(a), ActiveBuy(0), NeedBuy(true)], store, v) <==> !store[a].state.Done?))
  {
    hide EntryInv, BuyPhase, SellPhase, Solvent, Watch;
    assert Ready(e, sid, store, v) by { SellingIsReady(e, sid, store, v); }
    OneOwner(e, sid, store, v);
    SellPhaseFacts(e, sid, store, v);
    var (f, a) := (Restarted(e, lookup).fields, e.fields.activeBuy);
    assert f.buyOrders == e.fields.buyOrders;
    BuySideOf(e, sid, store, v, a);
    if e.fields.activeSell == 0 {
      if store[a].state.Done? { DoneIsBooked(f, sid, a, store, v, verdict); }
      else { FinalIsReopened(f, sid, a, store, v, verdict); }
      NobodyWatches(e, sid, store, v);
    }
  }

  lemma SellingIsReady(e: Entry, sid: Sid, store: Store, v: Venue)
    requires Selling(e, sid, store, v)
    ensures Ready(e, sid, store, v)
  {}

  /** Without an active sell order nobody watches. */
  lemma NobodyWatches(e: Entry, sid: Sid, store: Store, v: Venue)
    requires Selling(e, sid, store, v) && e.fields.activeSell == 0
    ensures e.watchers == multiset{} && !e.fields.needBuy
  {
    hide Tracked, Waiting, Solvent;
  }

  lemma BuySideOf(e: Entry, sid: Sid, store: Store, v: Venue, oid: Oid)
    requires Ready(e, sid, store, v) && oid in e.fields.buyOrders && oid in store
    ensures store[oid].side.Buy?
  {
    hide EntryInv, Solvent;
    LanesKnown(e, sid, store, v);
  }

  lemma DoneIsBooked(f: Fields, sid: Sid, oid: Oid, store: Store, v: Venue, verdict: Verdict)
    requires oid in store && store[oid].state.Done? && store[oid].side.Buy? && f.buyOrders <= store.Keys && MayMeet(v, oid, verdict)
    ensures Watch(f, sid, oid, store, v, verdict)
            == Acts([BuyDone(oid, BoughtVolume(f, store))], multiset{}, store, v, -BoughtCost(f, store))
  {}

  lemma FinalIsReopened(f: Fields, sid: Sid, oid: Oid, store: Store, v: Venue, verdict: Verdict)
    requires oid in store && store[oid].state.Final() && !store[oid].state.Done? && store[oid].side.Buy? && MayMeet(v, oid, verdict)
    ensures Watch(f, sid, oid, store, v, verdict) == Writes([PrevBuy(oid), ActiveBuy(0), NeedBuy(true)], store, v)
  {}

  /** Some watcher of the restarted session may complete the buy side once more. */
  ghost predicate BooksBuyAgain(e: Entry, lookup: Lookup, sid: Sid, store: Store, v: Venue) {
    && e.fields.completedBuys == 1
    && exists oid, verdict, volume ::
         oid in Restarted(e, lookup).watchers && MayMeet(v, oid, verdict)
         && Completes(Watch(Restarted(e, lookup).fields, sid, oid, store, v, verdict), oid, volume)
  }

  predicate Completes(oc: Outcome, oid: Oid, volume: int) { oc.Acts? && oc.writes == [BuyDone(oid, volume)] }

  /** A restart books a completed buy side again if and only if the session was dumped without a sell
      order and its bought order is done. */
  lemma BooksTwiceExactly(run: seq<Step>, sid: Sid, lookup: Lookup)
    requires Legal(InitialWorld(), run) && Reached(run).status.Running? && Managed(Reached(run), sid)
    requires !Reached(run).entries[sid].fields.isDone
    ensures var (w, f) := (Reached(run), Reached(run).entries[sid].fields);
            BooksBuyAgain(w.entries[sid], lookup, sid, w.store, w.venue) <==>
            && f.completedBuys == 1 && f.activeSell == 0
            && f.activeBuy in w.store && w.store[f.activeBuy].state.Done?
  {
    hide Legal, Reached, EntryInv, Watch, Selling, Anchored;
    var (w, e) := (Reached(run), Reached(run).entries[sid]);
    ManagedIsReady(run, sid);
    AnchoredInRun(run);
    if e.fields.completedBuys == 1 {
      SecondPhase(e, sid, w.store, w.venue);
      SellingBooksTwice(e, sid, w.store, w.venue, lookup, Keep);
      if e.fields.activeSell != 0 {
        forall verdict, volume | MayMeet(w.venue, e.fields.activeSell, verdict)
          ensures !Completes(Watch(Restarted(e, lookup).fields, sid, e.fields.activeSell, w.store, w.venue, verdict), e.fields.activeSell, volume)
        {
          SellLookBooksNoBuy(e, Restarted(e, lookup).fields, sid, w.store, w.venue, verdict, volume);
        }
      } else {
        forall verdict | MayMeet(w.venue, e.fields.activeBuy, verdict)
          ensures w.store[e.fields.activeBuy].state.Done? ||
                  Watch(Restarted(e, lookup).fields, sid, e.fields.activeBuy, w.store, w.venue, verdict)
                  == Writes([PrevBuy(e.fields.activeBuy), ActiveBuy(0), NeedBuy(true)], w.store, w.venue)
        {
          SellingBooksTwice(e, sid, w.store, w.venue, lookup, verdict);
        }
        if w.store[e.fields.activeBuy].state.Done? {
          assert MayMeet(w.venue, e.fields.activeBuy, Keep)
                 && Completes(Watch(Restarted(e, lookup).fields, sid, e.fields.activeBuy, w.store, w.venue, Keep),
                              e.fields.activeBuy, BoughtVolume(e.fields, w.store));
        }
      }
    }
  }

  lemma SecondPhase(e: Entry, sid: Sid, store: Store, v: Venue)
    requires Ready(e, sid, store, v) && !e.fields.isDone && e.fields.completedBuys == 1
    ensures Selling(e, sid, store, v)
  {
    hide Lanes.Open, Closed, Solvent;
  }

  lemma SellLookBooksNoBuy(e: Entry, f: Fields, sid: Sid, store: Store, v: Venue, verdict: Verdict, volume: int)
    requires Ready(e, sid, store, v) && Anchored(e, store, v) && e.fields.activeSell != 0
    requires MayMeet(v, e.fields.activeSell, verdict)
    ensures !Completes(Watch(f, sid, e.fields.activeSell, store, v, verdict), e.fields.activeSell, volume)
  {
    hide EntryInv, Solvent, BoughtCost, SoldCost, SellRequest;
    LanesKnown(e, sid, store, v);
    assert e.fields.activeSell in e.fields.sellOrders;
  }

  /** A session dumped while its first buy request is in flight takes the order up by its external id, but
      never adds it to its orders: when the order is done, the booking leaves it out altogether. */
  lemma AdoptedIsNotCounted(e: Entry, sid: Sid, store: Store, v: Venue, oid: Oid, order: Order, verdict: Verdict)
    requires Buying(e, sid, store, v) && e.fields.activeBuy == 0 && e.fields.buyExt != 0
    requires e.fields.buyRid in v.replies && v.replies[e.fields.buyRid].1 == Created(oid)
    requires oid in store && store[oid].state.Done? && MayMeet(v, oid, verdict)
    ensures var (r, f) := (Restarted(e, Found(oid, order)), e.fields);
            && r.watchers == multiset{oid} && r.fields.activeBuy == oid && oid !in r.fields.buyOrders
            && f.buyOrders <= store.Keys
            && Watch(r.fields, sid, oid, store, v, verdict)
               == Acts([BuyDone(oid, BoughtVolume(f, store))], multiset{}, store, v, -BoughtCost(f, store))
            && Total(f.buyOrders + {oid}, Fills(store)) == BoughtVolume(f, store) + store[oid].filled
            && Total(f.buyOrders + {oid}, Costs(store)) == BoughtCost(f, store) + store[oid].price * store[oid].filled
  {
    hide Watch, Tracked, Solvent, MayMeet;
    assert Waiting(BuyLane(e), sid, Buy, store, v);
    var f := Restarted(e, Found(oid, order)).fields;
    assert f.buyOrders == e.fields.buyOrders;
    DoneIsBooked(f, sid, oid, store, v, verdict);
    TotalAdd(e.fields.buyOrders, Fills(store), oid);
    TotalAdd(e.fields.buyOrders, Costs(store), oid);
  }
}
