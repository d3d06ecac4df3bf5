/** Every activation of the decider, the listener and the watchers keeps the invariant of its session. */
module SpreadSteps {
  import opened Totals
  import opened Exchange
  import opened Lanes
  import opened Budgets
  import opened Rounding
  import opened SpreadSession
  import opened SpreadProtocol
  import opened SpreadInvariant

  // ----- the reach of a step -----

  lemma AroundTransitive(sid: Sid, side: Side, s0: Store, v0: Venue, s1: Store, v1: Venue, s2: Store, v2: Venue)
    requires Around(sid, side, s0, v0, s1, v1) && Around(sid, side, s1, v1, s2, v2)
    ensures Around(sid, side, s0, v0, s2, v2)
  {
    OrdersAroundTransitive(sid, side, v0, v1, v2);
    RequestsAroundTransitive(sid, side, v0, v1, v2);
  }

  lemma OrdersAroundTransitive(sid: Sid, side: Side, v0: Venue, v1: Venue, v2: Venue)
    requires OrdersAround(sid, side, v0, v1) && OrdersAround(sid, side, v1, v2)
    ensures OrdersAround(sid, side, v0, v2)
  {}

  lemma RequestsAroundTransitive(sid: Sid, side: Side, v0: Venue, v1: Venue, v2: Venue)
    requires VenueValid(v0) && VenueValid(v1) && VenueValid(v2)
    requires RequestsAround(sid, side, v0, v1) && RequestsAround(sid, side, v1, v2)
    ensures RequestsAround(sid, side, v0, v2)
  {}

  lemma NobodyMoves(sid: Sid, side: Side, store: Store, v: Venue)
    requires VenueValid(v) && Mirrors(store, v)
    ensures Around(sid, side, store, v, store, v)
  {
    StoreUntouched(sid, side, store, v);
  }

  lemma NobodyMovesAll(sid: Sid, store: Store, v: Venue)
    requires VenueValid(v) && Mirrors(store, v)
    ensures AroundOthers(sid, store, v, store, v)
  {
    forall i | i != sid ensures AroundBoth(i, store, v, store, v) {
      NobodyMoves(i, Buy, store, v);
      NobodyMoves(i, Sell, store, v);
    }
  }

  lemma SendReach(sid: Sid, store: Store, v: Venue, req: Request)
    requires VenueValid(v) && Mirrors(store, v) && req.sid == sid
    ensures VenueValid(Send(v, req)) && Mirrors(store, Send(v, req))
    ensures AroundOthers(sid, store, v, store, Send(v, req))
    ensures Around(sid, if req.side.Buy? then Sell else Buy, store, v, store, Send(v, req))
  {
    forall i | i != sid ensures AroundBoth(i, store, v, store, Send(v, req)) {
      SendIsAround(i, Buy, store, v, req);
      SendIsAround(i, Sell, store, v, req);
    }
    SendIsAround(sid, if req.side.Buy? then Sell else Buy, store, v, req);
  }

  lemma TakeReplyReach(sid: Sid, side: Side, store: Store, v: Venue, rid: Rid)
    requires VenueValid(v) && Mirrors(store, v) && rid in v.replies && From(v.replies[rid].0, sid, side)
    ensures VenueValid(TakeReply(v, rid)) && Mirrors(store, TakeReply(v, rid))
    ensures AroundOthers(sid, store, v, store, TakeReply(v, rid))
    ensures Around(sid, if side.Buy? then Sell else Buy, store, v, store, TakeReply(v, rid))
  {
    forall i | i != sid ensures AroundBoth(i, store, v, store, TakeReply(v, rid)) {
      TakeReplyIsAround(i, Buy, store, v, rid);
      TakeReplyIsAround(i, Sell, store, v, rid);
    }
    TakeReplyIsAround(sid, if side.Buy? then Sell else Buy, store, v, rid);
  }

  /** A confirmed cancel is an evolution that the store hears of. */
  lemma CancelReach(sid: Sid, store: Store, v: Venue, oid: Oid, last: Order, store': Store, v': Venue)
    requires VenueValid(v) && Mirrors(store, v) && LegalCancel(v, oid, Confirmed(last))
    requires store' == store[oid := last] && v' == Replace(v, oid, last)
    ensures VenueValid(v') && Mirrors(store', v')
    ensures AroundOthers(sid, store, v, store', v') && AroundBoth(sid, store, v, store', v')
  {
    forall i | i != sid ensures AroundBoth(i, store, v, store', v') {
      EvolveIsAround(i, Buy, store, v, oid, last, store');
      EvolveIsAround(i, Sell, store, v, oid, last, store');
    }
    EvolveIsAround(sid, Buy, store, v, oid, last, store');
    EvolveIsAround(sid, Sell, store, v, oid, last, store');
  }

  lemma AroundOthersTransitive(sid: Sid, s0: Store, v0: Venue, s1: Store, v1: Venue, s2: Store, v2: Venue)
    requires AroundOthers(sid, s0, v0, s1, v1) && AroundOthers(sid, s1, v1, s2, v2)
    ensures AroundOthers(sid, s0, v0, s2, v2)
  {
    forall i | i != sid ensures AroundBoth(i, s0, v0, s2, v2) {
      assert AroundBoth(i, s0, v0, s1, v1) && AroundBoth(i, s1, v1, s2, v2);
      AroundTransitive(i, Buy, s0, v0, s1, v1, s2, v2);
      AroundTransitive(i, Sell, s0, v0, s1, v1, s2, v2);
    }
  }

  // ----- sizing is affordable -----

  lemma BuyRequestAffordable(e: Entry, sid: Sid, store: Store, v: Venue, price: nat, target: Oid)
    requires Tracked(BuyLane(e), sid, Buy, store, v) && VenueValid(v) && Mirrors(store, v)
    requires e.fields.buyOrders <= store.Keys && price > 0
    ensures var req := BuyRequest(e.fields, sid, store, price, target);
            Affordable(req, e.fields.buyTotal) && req.sized == Seen(e.fields.buyOrders, store)
  {
    RoundedQuotient(e.fields.buyTotal - BoughtCost(e.fields, store) as real, price);
    assert forall o | o in BuyLane(e).orders :: OwnedBy(v, o, sid, Buy);
    TotalSame(e.fields.buyOrders, Costs(store), FilledWeights(store));
  }

  lemma SellRequestAffordable(e: Entry, sid: Sid, store: Store, v: Venue, price: nat, target: Oid)
    requires Tracked(SellLane(e), sid, Sell, store, v) && VenueValid(v) && Mirrors(store, v)
    requires e.fields.sellOrders <= store.Keys
    ensures var req := SellRequest(e.fields, sid, store, price, target);
            Affordable(req, e.fields.sellVolume as real) && req.sized == Seen(e.fields.sellOrders, store)
  {
    assert forall o | o in SellLane(e).orders :: OwnedBy(v, o, sid, Sell);
    TotalSame(e.fields.sellOrders, Fills(store), FilledWeights(store));
  }

  // ----- doing nothing -----

  lemma IdleIsSound(e: Entry, sid: Sid, self: multiset<Oid>, store: Store, v: Venue)
    requires Ready(e, sid, store, v)
    ensures Sound(e, sid, self, store, v, Idle(store, v))
  {
    NobodyMovesAll(sid, store, v);
    OrdersKnown(e, sid, store, v);
    assert After(e, self, Idle(store, v)) == e;
  }

  lemma FlipIsSound(e: Entry, sid: Sid, store: Store, v: Venue, a: Write, b: Write)
    requires Ready(e, sid, store, v) && Apply(b, Apply(a, e.fields)) == e.fields
    ensures Sound(e, sid, multiset{}, store, v, Writes([a, b], store, v))
  {
    ApplyTwo(a, b, e.fields);
    NobodyMovesAll(sid, store, v);
    OrdersKnown(e, sid, store, v);
    assert After(e, multiset{}, Writes([a, b], store, v)) == e;
  }

  // ----- the decider -----

  lemma CreateBuyIsSound(e: Entry, sid: Sid, store: Store, v: Venue, m: Market)
    requires Buying(e, sid, store, v) && e.fields.needBuy && m.price > 0
    ensures e.fields.buyOrders <= store.Keys
    ensures Sound(e, sid, multiset{}, store, v, CreateBuy(e.fields, sid, store, v, m))
  {
    hide Around, AroundOthers, Tracked, Waiting, Closed, Budgeted, VenueValid, Mirrors, EntryInv;
    var b := BuyLane(e);
    assert Settled(b.orders, store);
    if m.funded {
      var req := BuyRequest(e.fields, sid, store, m.price, 0);
      var e' := After(e, multiset{}, CreateBuy(e.fields, sid, store, v, m));
      ApplyThree(NeedBuy(false), BuyExt(m.ext), BuyRid(v.nextRid), e.fields);
      SendReach(sid, store, v, req);
      BuyRequestAffordable(e, sid, store, v, m.price, 0);
      CreateKeepsSane(b, sid, Buy, store, v, req, e.fields.buyTotal);
      assert BuyLane(e') == b.(need := false, rid := v.nextRid);
      BuySideStep(e, e', sid, store, v, store, Send(v, req));
    } else {
      FlipIsSound(e, sid, store, v, NeedBuy(false), NeedBuy(true));
    }
  }

  lemma CreateSellIsSound(e: Entry, sid: Sid, store: Store, v: Venue, m: Market)
    requires Selling(e, sid, store, v) && e.fields.needSell
    ensures e.fields.sellOrders <= store.Keys
    ensures Sound(e, sid, multiset{}, store, v, CreateSell(e.fields, sid, store, v, m))
  {
    hide Around, AroundOthers, Tracked, Waiting, Closed, Budgeted, VenueValid, Mirrors, EntryInv;
    var s := SellLane(e);
    assert Settled(s.orders, store);
    if m.funded {
      var req := SellRequest(e.fields, sid, store, m.price, 0);
      var e' := After(e, multiset{}, CreateSell(e.fields, sid, store, v, m));
      ApplyThree(NeedSell(false), SellExt(m.ext), SellRid(v.nextRid), e.fields);
      SendReach(sid, store, v, req);
      SellRequestAffordable(e, sid, store, v, m.price, 0);
      CreateKeepsSane(s, sid, Sell, store, v, req, e.fields.sellVolume as real);
      assert SellLane(e') == s.(need := false, rid := v.nextRid);
      SellSideStep(e, e', sid, store, v, store, Send(v, req));
    } else {
      FlipIsSound(e, sid, store, v, NeedSell(false), NeedSell(true));
    }
  }

  /** The decider never misses an order and never disturbs a session that does not wait for it. */
  lemma DecideIsSound(e: Entry, sid: Sid, store: Store, v: Venue, m: Market)
    requires Ready(e, sid, store, v) && (m.buyOpen ==> m.price > 0)
    ensures Sound(e, sid, multiset{}, store, v, Decide(e.fields, sid, store, v, m))
  {
    PhaseOf(e, sid, store, v);
    IdleIsSound(e, sid, multiset{}, store, v);
    if !e.fields.isDone && e.fields.needBuy && m.buyOpen {
      CreateBuyIsSound(e, sid, store, v, m);
    } else if !e.fields.isDone && e.fields.needBuy {
      CreateBuyIsSound(e, sid, store, v, m.(price := 1));
    } else if !e.fields.isDone && e.fields.needSell {
      CreateSellIsSound(e, sid, store, v, m);
    }
  }

  // ----- the listener -----

  /** A reply to a set request id belongs to the side that waits for it. */
  lemma ReplySide(e: Entry, sid: Sid, store: Store, v: Venue, rid: Rid)
    requires Ready(e, sid, store, v) && rid in v.replies
    requires rid == e.fields.buyRid || rid == e.fields.sellRid
    ensures rid == e.fields.buyRid ==> Buying(e, sid, store, v)
    ensures rid != e.fields.buyRid ==> Selling(e, sid, store, v)
  {
    PhaseOf(e, sid, store, v);
  }

  lemma BuyReply(e: Entry, sid: Sid, store: Store, v: Venue, rid: Rid)
    requires Buying(e, sid, store, v) && rid in v.replies && rid == e.fields.buyRid
    ensures rid != 0 && e.fields.sellRid == 0 && !e.fields.needBuy && e.watchers == multiset{}
    ensures From(v.replies[rid].0, sid, Buy)
    ensures e.fields.prevSell == 0
  {
    hide Around, Mirrors, Budgeted;
    assert SellLane(e).rid == 0;
  }

  lemma SellReply(e: Entry, sid: Sid, store: Store, v: Venue, rid: Rid)
    requires Selling(e, sid, store, v) && rid in v.replies && rid == e.fields.sellRid
    ensures rid != 0 && e.fields.buyRid == 0 && !e.fields.needSell && e.watchers == multiset{}
    ensures From(v.replies[rid].0, sid, Sell)
    ensures e.fields.prevBuy == 0
  {
    hide Around, Mirrors, Budgeted;
    assert BuyLane(e).rid == 0;
  }

  lemma OpenedBuyIsSound(e: Entry, sid: Sid, store: Store, v: Venue, rid: Rid)
    requires Buying(e, sid, store, v) && rid in v.replies && rid == e.fields.buyRid
    requires v.replies[rid].1.Created? && Delivered(store, v, rid)
    ensures Sound(e, sid, multiset{}, store, v, Opened(e.fields, rid, v.replies[rid].1.oid, store, TakeReply(v, rid)))
  {
    hide Around, AroundOthers, Lanes.Open, Closed, Budgeted, VenueValid, Mirrors, EntryInv;
    BuyReply(e, sid, store, v, rid);
    var oid := v.replies[rid].1.oid;
    var oc := Opened(e.fields, rid, oid, store, TakeReply(v, rid));
    var e' := After(e, multiset{}, oc);
    var b := BuyLane(e);
    assert oc.writes == [ActiveBuy(oid), BuyExt(0), BuyRid(0), AddBuy(oid)];
    ApplyFour(ActiveBuy(oid), BuyExt(0), BuyRid(0), AddBuy(oid), e.fields);
    TakeReplyReach(sid, Buy, store, v, rid);
    OpenedKeepsSane(b, sid, Buy, store, v, e.fields.buyTotal);
    assert BuyLane(e') == b.(rid := 0, active := oid, orders := b.orders + {oid}, watchers := b.watchers + multiset{oid});
    BuySideStep(e, e', sid, store, v, store, TakeReply(v, rid));
  }

  lemma OpenedSellIsSound(e: Entry, sid: Sid, store: Store, v: Venue, rid: Rid)
    requires Selling(e, sid, store, v) && rid in v.replies && rid == e.fields.sellRid
    requires v.replies[rid].1.Created? && Delivered(store, v, rid)
    ensures Sound(e, sid, multiset{}, store, v, Opened(e.fields, rid, v.replies[rid].1.oid, store, TakeReply(v, rid)))
  {
    hide Around, AroundOthers, Lanes.Open, Closed, Budgeted, VenueValid, Mirrors, EntryInv;
    SellReply(e, sid, store, v, rid);
    var oid := v.replies[rid].1.oid;
    var oc := Opened(e.fields, rid, oid, store, TakeReply(v, rid));
    var e' := After(e, multiset{}, oc);
    var s := SellLane(e);
    assert oc.writes == [ActiveSell(oid), SellExt(0), SellRid(0), AddSell(oid)];
    ApplyFour(ActiveSell(oid), SellExt(0), SellRid(0), AddSell(oid), e.fields);
    TakeReplyReach(sid, Sell, store, v, rid);
    OpenedKeepsSane(s, sid, Sell, store, v, e.fields.sellVolume as real);
    assert SellLane(e') == s.(rid := 0, active := oid, orders := s.orders + {oid}, watchers := s.watchers + multiset{oid});
    SellSideStep(e, e', sid, store, v, store, TakeReply(v, rid));
  }

  /** What a listener knows of the order it looks up after a refusal. */
  lemma LookedBuy(e: Entry, sid: Sid, store: Store, v: Venue, rid: Rid)
    requires Buying(e, sid, store, v) && rid in v.replies && rid == e.fields.buyRid && e.fields.prevBuy != 0
    ensures e.fields.prevBuy in e.fields.buyOrders && e.fields.buyOrders <= store.Keys
    ensures store[e.fields.prevBuy].state.Code() >= Active.Code()
  {
    hide Around, Mirrors, Budgeted, Closed;
    BuyReply(e, sid, store, v, rid);
    assert Waiting(BuyLane(e), sid, Buy, store, v);
  }

  lemma LookedSell(e: Entry, sid: Sid, store: Store, v: Venue, rid: Rid)
    requires Selling(e, sid, store, v) && rid in v.replies && rid == e.fields.sellRid
    ensures e.fields.sellOrders <= store.Keys && e.fields.buyOrders <= store.Keys
    ensures e.fields.prevSell != 0 ==>
              e.fields.prevSell in e.fields.sellOrders && store[e.fields.prevSell].state.Code() >= Active.Code()
  {
    hide Around, Mirrors, Budgeted;
    SellReply(e, sid, store, v, rid);
    assert Waiting(SellLane(e), sid, Sell, store, v);
    assert Settled(e.fields.buyOrders, store);
  }

  /** A refused buy request whose previous order is final completes the buy side. */
  lemma RefusedBuyDone(e: Entry, sid: Sid, store: Store, v: Venue, rid: Rid, oid: Oid)
    requires Buying(e, sid, store, v) && rid in v.replies && rid == e.fields.buyRid && v.replies[rid].1.Refused?
    requires oid == e.fields.prevBuy != 0 && oid in store && store[oid].state.Final() && e.fields.buyOrders <= store.Keys
    ensures Sound(e, sid, multiset{}, store, v, BuyExecuted(e.fields, oid, store[oid], store, TakeReply(v, rid), AlreadyDone))
  {
    hide Around, AroundOthers, Lanes.Open, Closed, Settled, Budgeted, VenueValid, Mirrors, EntryInv, SellPhase;
    BuyReply(e, sid, store, v, rid);
    LookedBuy(e, sid, store, v, rid);
    var v' := TakeReply(v, rid);
    var w := BuyDone(oid, BoughtVolume(e.fields, store));
    var e' := e.(fields := Apply(w, e.fields), watchers := multiset{});
    ApplyOne(w, e.fields);
    TakeReplyReach(sid, Buy, store, v, rid);
    RefusedCloses(BuyLane(e), sid, Buy, store, v, oid);
    assert BuyLane(e') == BuyLane(e).(prev := 0, active := oid, rid := 0);
    assert After(e, multiset{}, BuyExecuted(e.fields, oid, store[oid], store, v', AlreadyDone)) == e';
    BuyDoneStep(e, e', sid, store, v, v', oid);
  }

  lemma RefusedBuyReopens(e: Entry, sid: Sid, store: Store, v: Venue, rid: Rid)
    requires Buying(e, sid, store, v) && rid in v.replies && rid == e.fields.buyRid && v.replies[rid].1.Refused?
    requires e.fields.prevBuy in store && store[e.fields.prevBuy].state.Final()
    ensures Sound(e, sid, multiset{}, store, v, Writes([BuyCancelled], store, TakeReply(v, rid)))
  {
    hide Around, AroundOthers, Lanes.Open, Closed, Budgeted, VenueValid, Mirrors, EntryInv;
    BuyReply(e, sid, store, v, rid);
    var e' := After(e, multiset{}, Writes([BuyCancelled], store, TakeReply(v, rid)));
    ApplyOne(BuyCancelled, e.fields);
    TakeReplyReach(sid, Buy, store, v, rid);
    RefusedReopensSane(BuyLane(e), sid, Buy, store, v, e.fields.buyTotal);
    assert BuyLane(e') == BuyLane(e).(need := true, rid := 0);
    BuySideStep(e, e', sid, store, v, store, TakeReply(v, rid));
  }

  /** The refused buy request whose previous order is cancelled on the spot: the request id stays. */
  lemma RefusedBuyStalls(e: Entry, sid: Sid, store: Store, v: Venue, rid: Rid, last: Order)
    requires Buying(e, sid, store, v) && rid in v.replies && rid == e.fields.buyRid && v.replies[rid].1.Refused?
    requires e.fields.prevBuy in store && LegalCancel(v, e.fields.prevBuy, Confirmed(last))
    ensures var oid := e.fields.prevBuy;
            Sound(e, sid, multiset{}, store, v, Idle(store[oid := last], Replace(TakeReply(v, rid), oid, last)))
  {
    hide Around, AroundOthers, Lanes.Open, Closed, Budgeted, VenueValid, Mirrors, EntryInv;
    var oid := e.fields.prevBuy;
    var store', v1 := store[oid := last], Replace(v, oid, last);
    var v' := TakeReply(v1, rid);
    assert v' == Replace(TakeReply(v, rid), oid, last);
    BuyReply(e, sid, store, v, rid);
    CancelReach(sid, store, v, oid, last, store', v1);
    SaneAround(BuyLane(e), sid, Buy, store, v, store', v1, e.fields.buyTotal);
    TakeReplyReach(sid, Buy, store', v1, rid);
    RefusedStallsSane(BuyLane(e), sid, Buy, store', v1, e.fields.buyTotal);
    AroundOthersTransitive(sid, store, v, store', v1, store', v');
    AroundTransitive(sid, Sell, store, v, store', v1, store', v');
    assert After(e, multiset{}, Idle(store', v')) == e;
    BuySideStep(e, e, sid, store, v, store', v');
  }

  lemma RefusedBuyIsSound(e: Entry, sid: Sid, store: Store, v: Venue, rid: Rid, answer: CancelAnswer)
    requires Buying(e, sid, store, v) && rid in v.replies && rid == e.fields.buyRid && v.replies[rid].1.Refused?
    requires LegalCancel(v, e.fields.prevBuy, answer)
    ensures LegalCancel(TakeReply(v, rid), e.fields.prevBuy, answer)
    ensures Sound(e, sid, multiset{}, store, v, Refusal(e.fields, rid, v.replies[rid].1.code, store, TakeReply(v, rid), answer))
  {
    hide Around, AroundOthers, Lanes.Open, Closed, Budgeted, VenueValid, Mirrors, EntryInv, Advances;
    BuyReply(e, sid, store, v, rid);
    if e.fields.prevBuy != 0 {
      LookedBuy(e, sid, store, v, rid);
      if store[e.fields.prevBuy].state.Final() {
        RefusedBuyDone(e, sid, store, v, rid, e.fields.prevBuy);
        RefusedBuyReopens(e, sid, store, v, rid);
      } else if answer.Confirmed? {
        RefusedBuyStalls(e, sid, store, v, rid, answer.last);
      }
    }
  }

  /** A refused sell request whose previous order is or becomes final completes the session. */
  lemma RefusedSellDone(e: Entry, sid: Sid, store: Store, v: Venue, rid: Rid, store1: Store, v1: Venue)
    requires Selling(e, sid, store, v) && rid in v.replies && rid == e.fields.sellRid && v.replies[rid].1.Refused?
    requires e.fields.prevSell in store1 && store1[e.fields.prevSell].state.Final() && e.fields.sellOrders <= store1.Keys
    requires e.fields.buyOrders <= store1.Keys
    requires AroundBoth(sid, store, v, store1, v1) && AroundOthers(sid, store, v, store1, v1) && Mirrors(store1, v1)
    requires rid in v1.replies && v1.replies[rid] == v.replies[rid]
    ensures Sound(e, sid, multiset{}, store, v, SellFlags(e.fields, store1, TakeReply(v1, rid)))
  {
    hide Around, AroundOthers, Lanes.Open, Closed, Settled, Budgeted, Mirrors, VenueValid, EntryInv, BuyPhase;
    SellReply(e, sid, store, v, rid);
    var v' := TakeReply(v1, rid);
    var s := SellLane(e);
    var e' := e.(fields := Apply(SellDone, e.fields), watchers := multiset{});
    ApplyOne(SellDone, e.fields);
    SaneAround(s, sid, Sell, store, v, store1, v1, e.fields.sellVolume as real);
    TakeReplyReach(sid, Sell, store1, v1, rid);
    RefusedCloses(s, sid, Sell, store1, v1, 0);
    RefusedReopensSane(s, sid, Sell, store1, v1, e.fields.sellVolume as real);
    assert SellLane(e') == s.(prev := 0, active := 0, rid := 0);
    AroundOthersTransitive(sid, store, v, store1, v1, store1, v');
    AroundTransitive(sid, Buy, store, v, store1, v1, store1, v');
    SellClosedBudget(s, sid, store1, v1, v', rid, e.fields.sellVolume as real);
    assert After(e, multiset{}, SellFlags(e.fields, store1, v')) == e';
    SellDoneStep(e, e', sid, store, v, store1, v');
  }

  lemma SellClosedBudget(s: Lane, sid: Sid, store: Store, v: Venue, v': Venue, rid: Rid, cap: real)
    requires Budgeted(s, sid, Sell, v, cap) && VenueValid(v) && v' == TakeReply(v, rid)
    ensures Budgeted(s.(prev := 0, active := 0, rid := 0), sid, Sell, v', cap)
  {
    BudgetedIdle(s, s.(prev := 0, active := 0, rid := 0), sid, Sell, v, v', cap);
  }

  lemma RefusedSellReopens(e: Entry, sid: Sid, store: Store, v: Venue, rid: Rid)
    requires Selling(e, sid, store, v) && rid in v.replies && rid == e.fields.sellRid && v.replies[rid].1.Refused?
    requires e.fields.prevSell in store && store[e.fields.prevSell].state.Final()
    ensures Sound(e, sid, multiset{}, store, v, Writes([SellCancelled], store, TakeReply(v, rid)))
  {
    hide Around, AroundOthers, Lanes.Open, Closed, Budgeted, VenueValid, Mirrors, EntryInv;
    SellReply(e, sid, store, v, rid);
    var e' := After(e, multiset{}, Writes([SellCancelled], store, TakeReply(v, rid)));
    ApplyOne(SellCancelled, e.fields);
    TakeReplyReach(sid, Sell, store, v, rid);
    RefusedReopensSane(SellLane(e), sid, Sell, store, v, e.fields.sellVolume as real);
    assert SellLane(e') == SellLane(e).(need := true, rid := 0);
    SellSideStep(e, e', sid, store, v, store, TakeReply(v, rid));
  }

  lemma RefusedSellIsSound(e: Entry, sid: Sid, store: Store, v: Venue, rid: Rid, answer: CancelAnswer)
    requires Selling(e, sid, store, v) && rid in v.replies && rid == e.fields.sellRid && v.replies[rid].1.Refused?
    requires LegalCancel(v, e.fields.prevSell, answer)
    ensures rid != e.fields.buyRid && LegalCancel(TakeReply(v, rid), e.fields.prevSell, answer)
    ensures Sound(e, sid, multiset{}, store, v, Refusal(e.fields, rid, v.replies[rid].1.code, store, TakeReply(v, rid), answer))
  {
    hide Around, AroundOthers, Lanes.Open, Closed, Budgeted, VenueValid, Mirrors, EntryInv, Advances, SellFlags;
    SellReply(e, sid, store, v, rid);
    LookedSell(e, sid, store, v, rid);
    var oid := e.fields.prevSell;
    if oid != 0 {
      if store[oid].state.Final() {
        NobodyMovesAll(sid, store, v);
        NobodyMoves(sid, Buy, store, v);
        NobodyMoves(sid, Sell, store, v);
        RefusedSellDone(e, sid, store, v, rid, store, v);
        RefusedSellReopens(e, sid, store, v, rid);
      } else if answer.Confirmed? {
        var store', v' := store[oid := answer.last], Replace(v, oid, answer.last);
        CancelReach(sid, store, v, oid, answer.last, store', v');
        RefusedSellDone(e, sid, store, v, rid, store', v');
        assert TakeReply(v', rid) == Replace(TakeReply(v, rid), oid, answer.last);
      }
    }
  }

  /** The listener never misses an order, whichever reply arrives. */
  lemma ListenIsSound(e: Entry, sid: Sid, store: Store, v: Venue, rid: Rid, answer: CancelAnswer)
    requires Ready(e, sid, store, v) && rid in v.replies
    requires rid == e.fields.buyRid || rid == e.fields.sellRid
    requires Delivered(store, v, rid) && LegalCancel(v, Looked(e.fields, rid), answer)
    ensures Sound(e, sid, multiset{}, store, v, Listen(e.fields, rid, store, v, answer))
  {
    hide Around, AroundOthers, Lanes.Open, Closed, Budgeted, VenueValid, Mirrors, EntryInv, Advances, Refusal, Opened;
    ReplySide(e, sid, store, v, rid);
    match v.replies[rid].1
    case Created(oid) =>
      if rid == e.fields.buyRid { OpenedBuyIsSound(e, sid, store, v, rid); }
      else { OpenedSellIsSound(e, sid, store, v, rid); }
    case Refused(code) =>
      if rid == e.fields.buyRid { RefusedBuyIsSound(e, sid, store, v, rid, answer); }
      else { RefusedSellIsSound(e, sid, store, v, rid, answer); }
  }

  // ----- the watcher -----

  /** A watched order is the session's only watched order, the active one, and of the side at work. */
  lemma WatchedBuy(e: Entry, sid: Sid, store: Store, v: Venue, oid: Oid)
    requires Buying(e, sid, store, v) && oid in e.watchers
    ensures e.watchers == multiset{oid} && e.watchers - multiset{oid} == multiset{}
    ensures oid == e.fields.activeBuy && oid in e.fields.buyOrders && oid != 0
    ensures !e.fields.needBuy && e.fields.buyRid == 0
    ensures oid in store ==> store[oid].side.Buy? && e.fields.buyOrders <= store.Keys
  {
    hide Around, Budgeted, Closed;
    var b := BuyLane(e);
    SoleOwner(b, oid);
    assert OwnedBy(v, oid, sid, Buy);
    if oid in store {
      assert forall o | o in b.orders :: o == oid || o in b.orders - {oid};
    }
  }

  lemma WatchedSell(e: Entry, sid: Sid, store: Store, v: Venue, oid: Oid)
    requires Selling(e, sid, store, v) && oid in e.watchers
    ensures e.watchers == multiset{oid} && e.watchers - multiset{oid} == multiset{}
    ensures oid == e.fields.activeSell && oid in e.fields.sellOrders && oid != 0
    ensures !e.fields.needSell && e.fields.sellRid == 0
    ensures e.fields.prevSell != 0 ==> e.fields.prevSell in store
    ensures e.fields.buyOrders <= store.Keys
    ensures oid in store ==> store[oid].side.Sell? && e.fields.sellOrders <= store.Keys
  {
    hide Around, Budgeted;
    var s := SellLane(e);
    SoleOwner(s, oid);
    assert OwnedBy(v, oid, sid, Sell);
    assert Settled(e.fields.buyOrders, store);
    if oid in store {
      assert forall o | o in s.orders :: o == oid || o in s.orders - {oid};
    }
  }

  lemma WatchedBuyDone(e: Entry, sid: Sid, store: Store, v: Venue, oid: Oid)
    requires Buying(e, sid, store, v) && oid in e.watchers && oid in store && store[oid].state.Final()
    ensures Sound(e, sid, multiset{oid}, store, v, BuyExecuted(e.fields, oid, store[oid], store, v, AlreadyDone))
  {
    hide Around, AroundOthers, Lanes.Open, Closed, Settled, Budgeted, VenueValid, Mirrors, EntryInv, SellPhase;
    WatchedBuy(e, sid, store, v, oid);
    var w := BuyDone(oid, BoughtVolume(e.fields, store));
    var e' := e.(fields := Apply(w, e.fields), watchers := multiset{});
    ApplyOne(w, e.fields);
    NobodyMovesAll(sid, store, v);
    NobodyMoves(sid, Sell, store, v);
    FinishCloses(BuyLane(e), sid, Buy, store, v, oid, oid);
    assert BuyLane(e') == BuyLane(e).(prev := 0, active := oid, watchers := BuyLane(e).watchers - multiset{oid});
    assert After(e, multiset{oid}, BuyExecuted(e.fields, oid, store[oid], store, v, AlreadyDone)) == e';
    BuyDoneStep(e, e', sid, store, v, v, oid);
  }

  lemma WatchedSellDone(e: Entry, sid: Sid, store: Store, v: Venue, oid: Oid)
    requires Selling(e, sid, store, v) && oid in e.watchers && oid in store && store[oid].state.Final()
    ensures Sound(e, sid, multiset{oid}, store, v, SellFlags(e.fields, store, v))
  {
    hide Around, AroundOthers, Lanes.Open, Closed, Settled, Budgeted, VenueValid, Mirrors, EntryInv, BuyPhase;
    WatchedSell(e, sid, store, v, oid);
    var e' := e.(fields := Apply(SellDone, e.fields), watchers := multiset{});
    ApplyOne(SellDone, e.fields);
    NobodyMovesAll(sid, store, v);
    NobodyMoves(sid, Buy, store, v);
    var s := SellLane(e);
    FinishCloses(s, sid, Sell, store, v, oid, 0);
    assert SellLane(e') == s.(prev := 0, active := 0, watchers := s.watchers - multiset{oid});
    LeavingBudget(s, SellLane(e'), sid, Sell, v, e.fields.sellVolume as real);
    assert After(e, multiset{oid}, SellFlags(e.fields, store, v)) == e';
    SellDoneStep(e, e', sid, store, v, store, v);
  }

  lemma LeavingBudget(l: Lane, l': Lane, sid: Sid, side: Side, v: Venue, cap: real)
    requires Budgeted(l, sid, side, v, cap) && l'.rid == l.rid
    ensures Budgeted(l', sid, side, v, cap)
  {}

  /** The watcher leaves an order that is final in the store it looks at, or that it has just cancelled. */
  lemma BuyReleaseIsSound(e: Entry, sid: Sid, store: Store, v: Venue, oid: Oid, store': Store, v': Venue)
    requires Buying(e, sid, store, v) && oid in e.watchers
    requires AroundBoth(sid, store, v, store', v') && AroundOthers(sid, store, v, store', v') && Mirrors(store', v')
    requires oid in store' && store'[oid].state.Final()
    ensures Sound(e, sid, multiset{oid}, store, v, Writes([PrevBuy(oid), ActiveBuy(0), NeedBuy(true)], store', v'))
  {
    hide Around, AroundOthers, Lanes.Open, Closed, Settled, Budgeted, VenueValid, Mirrors, EntryInv, SellPhase;
    WatchedBuy(e, sid, store, v, oid);
    var b := BuyLane(e);
    var e' := After(e, multiset{oid}, Writes([PrevBuy(oid), ActiveBuy(0), NeedBuy(true)], store', v'));
    ApplyThree(PrevBuy(oid), ActiveBuy(0), NeedBuy(true), e.fields);
    SaneAround(b, sid, Buy, store, v, store', v', e.fields.buyTotal);
    ReleaseKeepsSane(b, sid, Buy, store', v', oid, oid, e.fields.buyTotal);
    assert BuyLane(e') == b.(need := true, prev := oid, active := 0, watchers := b.watchers - multiset{oid});
    BuySideStep(e, e', sid, store, v, store', v');
  }

  lemma SellReleaseIsSound(e: Entry, sid: Sid, store: Store, v: Venue, oid: Oid, store': Store, v': Venue)
    requires Selling(e, sid, store, v) && oid in e.watchers
    requires AroundBoth(sid, store, v, store', v') && AroundOthers(sid, store, v, store', v') && Mirrors(store', v')
    requires oid in store' && store'[oid].state.Final()
    ensures Sound(e, sid, multiset{oid}, store, v, Writes([PrevSell(oid), ActiveSell(0), NeedSell(true)], store', v'))
    ensures Sound(e, sid, multiset{oid}, store, v, Writes([ActiveSell(0), NeedSell(true)], store', v'))
  {
    hide Around, AroundOthers, Lanes.Open, Closed, Settled, Budgeted, VenueValid, Mirrors, EntryInv, BuyPhase;
    WatchedSell(e, sid, store, v, oid);
    var s := SellLane(e);
    var e1 := After(e, multiset{oid}, Writes([PrevSell(oid), ActiveSell(0), NeedSell(true)], store', v'));
    var e2 := After(e, multiset{oid}, Writes([ActiveSell(0), NeedSell(true)], store', v'));
    ApplyThree(PrevSell(oid), ActiveSell(0), NeedSell(true), e.fields);
    ApplyTwo(ActiveSell(0), NeedSell(true), e.fields);
    SaneAround(s, sid, Sell, store, v, store', v', e.fields.sellVolume as real);
    ReleaseKeepsSane(s, sid, Sell, store', v', oid, oid, e.fields.sellVolume as real);
    ReleaseKeepsSane(s, sid, Sell, store', v', oid, s.prev, e.fields.sellVolume as real);
    assert SellLane(e1) == s.(need := true, prev := oid, active := 0, watchers := s.watchers - multiset{oid});
    assert SellLane(e2) == s.(need := true, prev := s.prev, active := 0, watchers := s.watchers - multiset{oid});
    SellSideStep(e, e1, sid, store, v, store', v');
    SellSideStep(e, e2, sid, store, v, store', v');
  }

  lemma BuyMoveIsSound(e: Entry, sid: Sid, store: Store, v: Venue, oid: Oid, price: nat, ext: ExtId)
    requires Buying(e, sid, store, v) && oid in e.watchers && price > 0
    requires oid in store && store[oid].state.Code() >= Active.Code()
    ensures e.fields.buyOrders <= store.Keys
    ensures Sound(e, sid, multiset{oid}, store, v,
                  Writes([PrevBuy(oid), BuyExt(ext), BuyRid(v.nextRid)], store,
                         Send(v, BuyRequest(e.fields, sid, store, price, e.fields.activeBuy))))
  {
    hide Around, AroundOthers, Tracked, Waiting, Closed, Settled, Budgeted, VenueValid, Mirrors, EntryInv, SellPhase;
    WatchedBuy(e, sid, store, v, oid);
    var b := BuyLane(e);
    var req := BuyRequest(e.fields, sid, store, price, e.fields.activeBuy);
    var e' := After(e, multiset{oid}, Writes([PrevBuy(oid), BuyExt(ext), BuyRid(v.nextRid)], store, Send(v, req)));
    ApplyThree(PrevBuy(oid), BuyExt(ext), BuyRid(v.nextRid), e.fields);
    SendReach(sid, store, v, req);
    BuyRequestAffordable(e, sid, store, v, price, e.fields.activeBuy);
    MoveKeepsSane(b, sid, Buy, store, v, oid, req, e.fields.buyTotal);
    assert BuyLane(e') == b.(prev := oid, rid := v.nextRid, watchers := b.watchers - multiset{oid});
    BuySideStep(e, e', sid, store, v, store, Send(v, req));
  }

  lemma SellMoveIsSound(e: Entry, sid: Sid, store: Store, v: Venue, oid: Oid, price: nat, ext: ExtId)
    requires Selling(e, sid, store, v) && oid in e.watchers
    requires oid in store && store[oid].state.Code() >= Active.Code()
    ensures e.fields.sellOrders <= store.Keys
    ensures Sound(e, sid, multiset{oid}, store, v,
                  Writes([PrevSell(oid), SellExt(ext), SellRid(v.nextRid)], store,
                         Send(v, SellRequest(e.fields, sid, store, price, oid))))
  {
    hide Around, AroundOthers, Tracked, Waiting, Closed, Settled, Budgeted, VenueValid, Mirrors, EntryInv, BuyPhase;
    WatchedSell(e, sid, store, v, oid);
    var s := SellLane(e);
    var req := SellRequest(e.fields, sid, store, price, oid);
    var e' := After(e, multiset{oid}, Writes([PrevSell(oid), SellExt(ext), SellRid(v.nextRid)], store, Send(v, req)));
    ApplyThree(PrevSell(oid), SellExt(ext), SellRid(v.nextRid), e.fields);
    SendReach(sid, store, v, req);
    SellRequestAffordable(e, sid, store, v, price, oid);
    MoveKeepsSane(s, sid, Sell, store, v, oid, req, e.fields.sellVolume as real);
    assert SellLane(e') == s.(prev := oid, rid := v.nextRid, watchers := s.watchers - multiset{oid});
    SellSideStep(e, e', sid, store, v, store, Send(v, req));
  }

  lemma WatchBuyIsSound(e: Entry, sid: Sid, store: Store, v: Venue, oid: Oid, verdict: Verdict)
    requires Ready(e, sid, store, v) && Buying(e, sid, store, v) && oid in e.watchers
    requires oid in store && store[oid].state.Code() >= Active.Code()
    requires verdict.Withdraw? ==> LegalCancel(v, oid, verdict.answer)
    requires verdict.Reprice? ==> verdict.price > 0
    ensures Sound(e, sid, multiset{oid}, store, v, WatchBuy(e.fields, sid, oid, store, v, verdict))
  {
    hide Around, AroundOthers, BuyPhase, SellPhase, Budgeted, VenueValid, Mirrors, EntryInv, Advances, BuyExecuted;
    NobodyMovesAll(sid, store, v);
    NobodyMoves(sid, Buy, store, v);
    NobodyMoves(sid, Sell, store, v);
    WatchedBuy(e, sid, store, v, oid);
    if store[oid].state.Final() {
      WatchedBuyDone(e, sid, store, v, oid);
      BuyReleaseIsSound(e, sid, store, v, oid, store, v);
    } else {
      IdleIsSound(e, sid, multiset{oid}, store, v);
      match verdict
      case Keep =>
      case Withdraw(_, answer) =>
        if answer.Confirmed? {
          var store', v' := store[oid := answer.last], Replace(v, oid, answer.last);
          CancelReach(sid, store, v, oid, answer.last, store', v');
          BuyReleaseIsSound(e, sid, store, v, oid, store', v');
        }
      case Reprice(price, ext) => BuyMoveIsSound(e, sid, store, v, oid, price, ext);
    }
  }

  lemma WatchSellIsSound(e: Entry, sid: Sid, store: Store, v: Venue, oid: Oid, verdict: Verdict)
    requires Ready(e, sid, store, v) && Selling(e, sid, store, v) && oid in e.watchers
    requires oid in store && store[oid].state.Code() >= Active.Code()
    requires verdict.Withdraw? ==> LegalCancel(v, oid, verdict.answer)
    ensures Sound(e, sid, multiset{oid}, store, v, WatchSell(e.fields, sid, oid, store, v, verdict))
  {
    hide Around, AroundOthers, BuyPhase, SellPhase, Budgeted, VenueValid, Mirrors, EntryInv, Advances, SellFlags;
    NobodyMovesAll(sid, store, v);
    NobodyMoves(sid, Buy, store, v);
    NobodyMoves(sid, Sell, store, v);
    WatchedSell(e, sid, store, v, oid);
    if store[oid].state.Final() {
      WatchedSellDone(e, sid, store, v, oid);
      SellReleaseIsSound(e, sid, store, v, oid, store, v);
    } else {
      IdleIsSound(e, sid, multiset{oid}, store, v);
      match verdict
      case Keep =>
      case Withdraw(_, answer) =>
        if answer.Confirmed? {
          var store', v' := store[oid := answer.last], Replace(v, oid, answer.last);
          CancelReach(sid, store, v, oid, answer.last, store', v');
          SellReleaseIsSound(e, sid, store, v, oid, store', v');
        }
      case Reprice(price, ext) => SellMoveIsSound(e, sid, store, v, oid, price, ext);
    }
  }

  /** A watcher never misses an order, whatever the market and the exchange do. */
  lemma WatchIsSound(e: Entry, sid: Sid, store: Store, v: Venue, oid: Oid, verdict: Verdict)
    requires Ready(e, sid, store, v) && oid in e.watchers
    requires verdict.Withdraw? ==> LegalCancel(v, oid, verdict.answer)
    requires verdict.Reprice? ==> verdict.price > 0
    ensures Sound(e, sid, multiset{oid}, store, v, Watch(e.fields, sid, oid, store, v, verdict))
  {
    hide Around, AroundOthers, BuyPhase, SellPhase, Budgeted, VenueValid, Mirrors, EntryInv, Advances, WatchBuy, WatchSell;
    PhaseOf(e, sid, store, v);
    IdleIsSound(e, sid, multiset{oid}, store, v);
    if oid in store && store[oid].state.Code() >= Active.Code() {
      if Buying(e, sid, store, v) {
        WatchedBuy(e, sid, store, v, oid);
        WatchBuyIsSound(e, sid, store, v, oid, verdict);
      } else {
        WatchedSell(e, sid, store, v, oid);
        WatchSellIsSound(e, sid, store, v, oid, verdict);
      }
    }
  }
}
