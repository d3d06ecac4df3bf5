/**
 What holds of every session of the buy strategy: an open lane whose set request id always has its
 answer outstanding, or a closed one that is done. Every activation of a process keeps it.
 */
module BuyInvariant {
  import opened Totals
  import opened Exchange
  import opened Lanes
  import opened Budgets
  import opened Rounding
  import opened BuySession
  import opened BuyProtocol
  import P = SpreadProtocol
  import S = SpreadInvariant
  import Steps = SpreadSteps

  function LaneOf(e: Entry): Lane {
    Lane(e.fields.need, e.fields.rid, e.fields.prev, e.fields.active, e.fields.orders, e.watchers)
  }

  ghost predicate EntryInv(e: Entry, sid: Sid, store: Store, v: Venue) {
    && (if e.fields.isDone then e.fields.completed == 1 && Closed(LaneOf(e), sid, Buy, store, v)
        else e.fields.completed == 0 && Lanes.Open(LaneOf(e), sid, Buy, store, v) && !Stalled(LaneOf(e), v))
    && Budgeted(LaneOf(e), sid, Buy, v, e.fields.buyTotal)
  }

  /** What a completed session has contributed to the book, in cost or in volume. */
  datatype Measure = Cost | Volume

  ghost function Measured(m: Measure, store: Store): map<nat, int> {
    if m.Cost? then Costs(store) else Fills(store)
  }

  ghost function Contribution(m: Measure, e: Entry, v: Venue): int
    requires e.fields.orders <= v.orders.Keys
  {
    if e.fields.completed > 0 then Total(e.fields.orders, Measured(m, Truth(v))) else 0
  }

  ghost predicate Books(e: Entry, v: Venue, e': Entry, v': Venue, cost: int, volume: int) {
    && e.fields.orders <= v.orders.Keys && e'.fields.orders <= v'.orders.Keys
    && cost == Contribution(Cost, e', v') - Contribution(Cost, e, v)
    && volume == Contribution(Volume, e', v') - Contribution(Volume, e, v)
  }

  ghost predicate Advances(e: Entry, e': Entry, sid: Sid, store: Store, v: Venue, store': Store, v': Venue, cost: int, volume: int) {
    && VenueValid(v') && Mirrors(store', v')
    && S.AroundOthers(sid, store, v, store', v')
    && EntryInv(e', sid, store', v')
    && Books(e, v, e', v', cost, volume)
  }

  ghost predicate Sound(e: Entry, sid: Sid, self: multiset<Oid>, store: Store, v: Venue, oc: Outcome) {
    && !oc.Panics?
    && (oc.Acts? ==> Advances(e, After(e, self, oc), sid, store, v, oc.store, oc.venue, oc.cost, oc.volume))
  }

  ghost predicate Ready(e: Entry, sid: Sid, store: Store, v: Venue) {
    EntryInv(e, sid, store, v) && VenueValid(v) && Mirrors(store, v)
  }

  lemma OrdersKnown(e: Entry, sid: Sid, store: Store, v: Venue)
    requires EntryInv(e, sid, store, v)
    ensures Tracked(LaneOf(e), sid, Buy, store, v) && e.fields.orders <= v.orders.Keys
    ensures forall o | o in e.fields.orders :: OwnedBy(v, o, sid, Buy)
  {
    hide Waiting, OwnRid, Budgeted;
    S.LaneOrdersKnown(LaneOf(e), sid, Buy, store, v);
    assert forall o | o in LaneOf(e).orders :: OwnedBy(v, o, sid, Buy);
  }

  // ----- steps around a session -----

  lemma EntryAround(e: Entry, sid: Sid, store: Store, v: Venue, store': Store, v': Venue)
    requires Ready(e, sid, store, v) && Around(sid, Buy, store, v, store', v')
    ensures EntryInv(e, sid, store', v') && Books(e, v, e, v', 0, 0)
  {
    hide OrdersAround, StoreAround, RequestsAround, VenueValid, Mirrors, Lanes.Open, Closed, Tracked, Budgeted;
    var l := LaneOf(e);
    OrdersKnown(e, sid, store, v);
    assert OwnRid(l, sid, Buy, v) by { RidIsOwn(l, sid, store, v); }
    RequestsStay(l, sid, Buy, v, v');
    if e.fields.isDone {
      S.ClosedFacts(l, sid, Buy, store, v);
      ClosedAround(l, sid, Buy, store, v, store', v');
      FinalAtVenue(l.orders, store, v);
      SumsStay(l.orders, sid, v, v');
    } else {
      OpenAround(l, sid, Buy, store, v, store', v');
    }
    BudgetedAround(l, sid, Buy, store, v, store', v', e.fields.buyTotal);
    OrdersKnown(e, sid, store', v');
  }

  lemma RidIsOwn(l: Lane, sid: Sid, store: Store, v: Venue)
    requires Tracked(l, sid, Buy, store, v)
    ensures OwnRid(l, sid, Buy, v)
  {}

  lemma FinalAtVenue(orders: set<Oid>, store: Store, v: Venue)
    requires Settled(orders, store) && Mirrors(store, v)
    ensures forall o | o in orders :: o in v.orders && v.orders[o].order.state.Final()
  {}

  lemma SumsStay(orders: set<Oid>, sid: Sid, v: Venue, v': Venue)
    requires OrdersAround(sid, Buy, v, v')
    requires forall o | o in orders :: OwnedBy(v, o, sid, Buy) && v.orders[o].order.state.Final()
    ensures orders <= v.orders.Keys && orders <= v'.orders.Keys
    ensures Total(orders, Costs(Truth(v))) == Total(orders, Costs(Truth(v')))
    ensures Total(orders, Fills(Truth(v))) == Total(orders, Fills(Truth(v')))
  {
    forall o | o in orders ensures o in v'.orders && v'.orders[o].order == v.orders[o].order {
      assert EvolvesLive(v.orders[o], v'.orders[o]);
    }
    TotalSame(orders, Costs(Truth(v)), Costs(Truth(v')));
    TotalSame(orders, Fills(Truth(v)), Fills(Truth(v')));
  }

  // ----- from lanes to sessions -----

  /** A step of an open session that stays open. */
  lemma WorkStep(e: Entry, e': Entry, sid: Sid, store: Store, v: Venue, store': Store, v': Venue)
    requires Ready(e, sid, store, v) && !e.fields.isDone
    requires S.AroundOthers(sid, store, v, store', v')
    requires e'.fields.completed == 0 && !e'.fields.isDone && e'.fields.buyTotal == e.fields.buyTotal
    requires Sane(LaneOf(e'), sid, Buy, store', v', e.fields.buyTotal) && !Stalled(LaneOf(e'), v')
    ensures Advances(e, e', sid, store, v, store', v', 0, 0)
  {
    hide Lanes.Open, S.AroundOthers, VenueValid, Mirrors, Budgeted;
    OrdersKnown(e, sid, store, v);
    OrdersKnown(e', sid, store', v');
  }

  /** The session completes: its cost and volume are booked. */
  lemma DoneStep(e: Entry, e': Entry, sid: Sid, store: Store, v: Venue, store': Store, v': Venue, oid: Oid)
    requires Ready(e, sid, store, v) && !e.fields.isDone && Mirrors(store', v')
    requires VenueValid(v') && S.AroundOthers(sid, store, v, store', v')
    requires e' == Entry(Apply(Executed(oid), e.fields), multiset{})
    requires Closed(LaneOf(e'), sid, Buy, store', v') && Budgeted(LaneOf(e'), sid, Buy, v', e.fields.buyTotal)
    ensures e.fields.orders <= store'.Keys
    ensures Advances(e, e', sid, store, v, store', v', BoughtCost(e.fields, store'), BoughtVolume(e.fields, store'))
  {
    hide Lanes.Open, S.AroundOthers, VenueValid, Mirrors, Budgeted, Closed;
    OrdersKnown(e, sid, store, v);
    S.ClosedFacts(LaneOf(e'), sid, Buy, store', v');
    SettledIsTrue(e.fields.orders, store', v');
  }

  lemma IdleIsSound(e: Entry, sid: Sid, self: multiset<Oid>, store: Store, v: Venue)
    requires Ready(e, sid, store, v)
    ensures Sound(e, sid, self, store, v, Idle(store, v))
  {
    Steps.NobodyMovesAll(sid, store, v);
    OrdersKnown(e, sid, store, v);
    assert After(e, self, Idle(store, v)) == e;
  }

  lemma BuyRequestAffordable(e: Entry, sid: Sid, store: Store, v: Venue, price: nat, target: Oid)
    requires Tracked(LaneOf(e), sid, Buy, store, v) && VenueValid(v) && Mirrors(store, v)
    requires e.fields.orders <= store.Keys && price > 0
    ensures var req := BuyRequest(e.fields, sid, store, price, target);
            Affordable(req, e.fields.buyTotal) && req.sized == Seen(e.fields.orders, store)
  {
    RoundedQuotient(e.fields.buyTotal - BoughtCost(e.fields, store) as real, price);
    assert forall o | o in LaneOf(e).orders :: OwnedBy(v, o, sid, Buy);
    TotalSame(e.fields.orders, Costs(store), FilledWeights(store));
  }

  // ----- the decider -----

  lemma DecideIsSound(e: Entry, sid: Sid, store: Store, v: Venue, m: P.Market)
    requires Ready(e, sid, store, v) && (m.buyOpen ==> m.price > 0)
    ensures Sound(e, sid, multiset{}, store, v, Decide(e.fields, sid, store, v, m))
  {
    hide Around, S.AroundOthers, Waiting, Budgeted, VenueValid, Mirrors, EntryInv, Advances;
    IdleIsSound(e, sid, multiset{}, store, v);
    if !e.fields.isDone && e.fields.need {
      NeedIsSettled(e, sid, store, v);
      if m.buyOpen {
        if m.funded { CreateIsSound(e, sid, store, v, m); }
        else {
          ApplyTwo(Need(false), Need(true), e.fields);
          assert After(e, multiset{}, Writes([Need(false), Need(true)], store, v)) == e == After(e, multiset{}, Idle(store, v));
        }
      }
    }
  }

  lemma NeedIsSettled(e: Entry, sid: Sid, store: Store, v: Venue)
    requires Ready(e, sid, store, v) && !e.fields.isDone && e.fields.need
    ensures Settled(e.fields.orders, store) && e.fields.orders <= store.Keys
  {
    hide Waiting, Budgeted, Tracked;
    assert Settled(LaneOf(e).orders, store);
  }

  lemma CreateIsSound(e: Entry, sid: Sid, store: Store, v: Venue, m: P.Market)
    requires Ready(e, sid, store, v) && !e.fields.isDone && e.fields.need && m.price > 0
    requires e.fields.orders <= store.Keys
    ensures Sound(e, sid, multiset{}, store, v,
                  Writes([Need(false), SetExt(m.ext), SetRid(v.nextRid)], store, Send(v, BuyRequest(e.fields, sid, store, m.price, 0))))
  {
    hide Around, S.AroundOthers, Tracked, Waiting, Budgeted, VenueValid, Mirrors, Advances;
    var l := LaneOf(e);
    var req := BuyRequest(e.fields, sid, store, m.price, 0);
    var oc := Writes([Need(false), SetExt(m.ext), SetRid(v.nextRid)], store, Send(v, req));
    var e' := After(e, multiset{}, oc);
    ApplyThree(Need(false), SetExt(m.ext), SetRid(v.nextRid), e.fields);
    Steps.SendReach(sid, store, v, req);
    OrdersKnown(e, sid, store, v);
    BuyRequestAffordable(e, sid, store, v, m.price, 0);
    CreateKeepsSane(l, sid, Buy, store, v, req, e.fields.buyTotal);
    assert LaneOf(e') == l.(need := false, rid := v.nextRid);
    WorkStep(e, e', sid, store, v, store, Send(v, req));
  }

  // ----- the listener -----

  /** A reply to the session's request finds the session waiting for it. */
  lemma ReplyFacts(e: Entry, sid: Sid, store: Store, v: Venue)
    requires Ready(e, sid, store, v) && e.fields.rid in v.replies
    ensures !e.fields.isDone && e.fields.rid != 0 && !e.fields.need && e.watchers == multiset{}
    ensures From(v.replies[e.fields.rid].0, sid, Buy)
    ensures e.fields.orders <= store.Keys
    ensures e.fields.prev != 0 ==> e.fields.prev in e.fields.orders && store[e.fields.prev].state.Code() >= Active.Code()
  {
    hide Budgeted, Settled;
  }

  lemma OpenedIsSound(e: Entry, sid: Sid, store: Store, v: Venue)
    requires Ready(e, sid, store, v) && e.fields.rid in v.replies && v.replies[e.fields.rid].1.Created?
    requires P.Delivered(store, v, e.fields.rid)
    ensures var oid := v.replies[e.fields.rid].1.oid;
            Sound(e, sid, multiset{}, store, v,
                  Acts([SetActive(oid), SetExt(0), SetRid(0), Add(oid)], multiset{oid}, store, TakeReply(v, e.fields.rid), 0, 0))
  {
    hide Around, S.AroundOthers, Lanes.Open, Budgeted, VenueValid, Mirrors, Advances;
    var (l, rid) := (LaneOf(e), e.fields.rid);
    var oid := v.replies[rid].1.oid;
    var oc := Acts([SetActive(oid), SetExt(0), SetRid(0), Add(oid)], multiset{oid}, store, TakeReply(v, rid), 0, 0);
    var e' := After(e, multiset{}, oc);
    ReplyFacts(e, sid, store, v);
    ApplyFour(SetActive(oid), SetExt(0), SetRid(0), Add(oid), e.fields);
    Steps.TakeReplyReach(sid, Buy, store, v, rid);
    OpenedKeepsSane(l, sid, Buy, store, v, e.fields.buyTotal);
    assert LaneOf(e') == l.(rid := 0, active := oid, orders := l.orders + {oid}, watchers := l.watchers + multiset{oid});
    WorkStep(e, e', sid, store, v, store, TakeReply(v, rid));
  }

  /** The order to be replaced is over: the session reopens ... */
  lemma ReopenIsSound(e: Entry, sid: Sid, store: Store, v: Venue)
    requires Ready(e, sid, store, v) && e.fields.rid in v.replies && v.replies[e.fields.rid].1.Refused?
    requires e.fields.prev in store && store[e.fields.prev].state.Final()
    ensures Sound(e, sid, multiset{}, store, v, Writes([SetExt(0), SetRid(0), Need(true)], store, TakeReply(v, e.fields.rid)))
  {
    hide Around, S.AroundOthers, Lanes.Open, Budgeted, VenueValid, Mirrors, Advances;
    var (l, rid) := (LaneOf(e), e.fields.rid);
    var e' := After(e, multiset{}, Writes([SetExt(0), SetRid(0), Need(true)], store, TakeReply(v, rid)));
    ReplyFacts(e, sid, store, v);
    ApplyThree(SetExt(0), SetRid(0), Need(true), e.fields);
    Steps.TakeReplyReach(sid, Buy, store, v, rid);
    RefusedReopensSane(l, sid, Buy, store, v, e.fields.buyTotal);
    assert LaneOf(e') == l.(need := true, rid := 0);
    WorkStep(e, e', sid, store, v, store, TakeReply(v, rid));
  }

  lemma ReadyIsSane(e: Entry, sid: Sid, store: Store, v: Venue)
    requires Ready(e, sid, store, v) && !e.fields.isDone
    ensures Sane(LaneOf(e), sid, Buy, store, v, e.fields.buyTotal)
  {}

  lemma RefusedClosesLane(l: Lane, sid: Sid, store: Store, v: Venue, cap: real, active: Oid)
    requires Sane(l, sid, Buy, store, v, cap)
    requires l.rid in v.replies && v.replies[l.rid].1.Refused?
    requires l.prev in store && store[l.prev].state.Final()
    ensures Closed(l.(prev := 0, active := active, rid := 0), sid, Buy, store, TakeReply(v, l.rid))
    ensures Budgeted(l.(prev := 0, active := active, rid := 0), sid, Buy, TakeReply(v, l.rid), cap)
  {
    hide Lanes.Open, Closed;
    RefusedCloses(l, sid, Buy, store, v, active);
    BudgetedIdle(l, l.(prev := 0, active := active, rid := 0), sid, Buy, v, TakeReply(v, l.rid), cap);
  }

  /** ... or completes, at the store and the exchange that a cancel may have changed. */
  lemma RefusedDone(e: Entry, sid: Sid, store: Store, v: Venue, store1: Store, v1: Venue)
    requires Ready(e, sid, store, v) && e.fields.rid in v.replies && v.replies[e.fields.rid].1.Refused?
    requires Around(sid, Buy, store, v, store1, v1) && S.AroundOthers(sid, store, v, store1, v1)
    requires VenueValid(v1) && Mirrors(store1, v1) && v1.replies == v.replies
    requires e.fields.prev in store1 && store1[e.fields.prev].state.Final()
    ensures Sound(e, sid, multiset{}, store, v, SetFlags(e.fields, e.fields.prev, store1, TakeReply(v1, e.fields.rid)))
  {
    hide OrdersAround, StoreAround, RequestsAround, S.AroundOthers, Lanes.Open, Budgeted, VenueValid, Mirrors, Advances, Closed, Sane;
    var (l, rid) := (LaneOf(e), e.fields.rid);
    var v' := TakeReply(v1, rid);
    ReplyFacts(e, sid, store, v);
    ReadyIsSane(e, sid, store, v);
    SaneAround(l, sid, Buy, store, v, store1, v1, e.fields.buyTotal);
    RefusedClosesLane(l, sid, store1, v1, e.fields.buyTotal, e.fields.prev);
    Steps.TakeReplyReach(sid, Buy, store1, v1, rid);
    Steps.AroundOthersTransitive(sid, store, v, store1, v1, store1, v');
    var e' := Entry(Apply(Executed(e.fields.prev), e.fields), multiset{});
    assert LaneOf(e') == l.(prev := 0, active := e.fields.prev, rid := 0);
    DoneStep(e, e', sid, store, v, store1, v', e.fields.prev);
    ApplyOne(Executed(e.fields.prev), e.fields);
    assert After(e, multiset{}, SetFlags(e.fields, e.fields.prev, store1, v')) == e';
  }

  lemma RefusalIsSound(e: Entry, sid: Sid, store: Store, v: Venue, answer: P.CancelAnswer)
    requires Ready(e, sid, store, v) && e.fields.rid in v.replies && v.replies[e.fields.rid].1.Refused?
    requires P.LegalCancel(v, e.fields.prev, answer)
    ensures P.LegalCancel(TakeReply(v, e.fields.rid), e.fields.prev, answer)
    ensures var rid := e.fields.rid;
            Sound(e, sid, multiset{}, store, v, Refusal(e.fields, v.replies[rid].1.code, store, TakeReply(v, rid), answer))
  {
    hide Around, S.AroundOthers, Lanes.Open, Closed, Budgeted, VenueValid, Mirrors, EntryInv, Advances, SetFlags;
    var (oid, rid) := (e.fields.prev, e.fields.rid);
    ReplyFacts(e, sid, store, v);
    if oid != 0 {
      if store[oid].state.Final() {
        Steps.NobodyMovesAll(sid, store, v);
        Steps.NobodyMoves(sid, Buy, store, v);
        RefusedDone(e, sid, store, v, store, v);
        ReopenIsSound(e, sid, store, v);
      } else if answer.Confirmed? {
        var store', v' := store[oid := answer.last], Replace(v, oid, answer.last);
        Steps.CancelReach(sid, store, v, oid, answer.last, store', v');
        RefusedDone(e, sid, store, v, store', v');
        assert TakeReply(v', rid) == Replace(TakeReply(v, rid), oid, answer.last);
      }
    }
  }

  lemma ListenIsSound(e: Entry, sid: Sid, store: Store, v: Venue, rid: Rid, answer: P.CancelAnswer)
    requires Ready(e, sid, store, v) && rid in v.replies && rid == e.fields.rid
    requires P.Delivered(store, v, rid) && P.LegalCancel(v, e.fields.prev, answer)
    ensures Sound(e, sid, multiset{}, store, v, Listen(e.fields, rid, store, v, answer))
  {
    hide Around, S.AroundOthers, Lanes.Open, Closed, Budgeted, VenueValid, Mirrors, EntryInv, Advances, Refusal;
    match v.replies[rid].1
    case Created(oid) => OpenedIsSound(e, sid, store, v);
    case Refused(code) => RefusalIsSound(e, sid, store, v, answer);
  }

  // ----- the watcher -----

  lemma WatchedFacts(e: Entry, sid: Sid, store: Store, v: Venue, oid: Oid)
    requires Ready(e, sid, store, v) && oid in e.watchers
    ensures !e.fields.isDone && e.watchers == multiset{oid} && e.watchers - multiset{oid} == multiset{}
    ensures !e.fields.need && e.fields.rid == 0 && oid == e.fields.active && oid in e.fields.orders && oid != 0
    ensures oid in store ==> e.fields.orders <= store.Keys
    ensures 0 !in v.pending && 0 !in v.replies
  {
    hide Around, Budgeted;
    var l := LaneOf(e);
    SoleOwner(l, oid);
    if oid in store {
      assert forall o | o in l.orders :: o == oid || o in l.orders - {oid};
    }
  }

  lemma WatchedDone(e: Entry, sid: Sid, store: Store, v: Venue, oid: Oid)
    requires Ready(e, sid, store, v) && oid in e.watchers && oid in store && store[oid].state.Final()
    ensures Sound(e, sid, multiset{oid}, store, v, SetFlags(e.fields, oid, store, v))
  {
    hide Around, S.AroundOthers, Lanes.Open, VenueValid, Mirrors, Advances, Closed, EntryInv, Budgeted;
    var l := LaneOf(e);
    WatchedFacts(e, sid, store, v, oid);
    ReadyIsSane(e, sid, store, v);
    Steps.NobodyMovesAll(sid, store, v);
    FinishCloses(l, sid, Buy, store, v, oid, oid);
    var e' := Entry(Apply(Executed(oid), e.fields), multiset{});
    assert LaneOf(e') == l.(prev := 0, active := oid, watchers := l.watchers - multiset{oid});
    BudgetedIdle(l, LaneOf(e'), sid, Buy, v, v, e.fields.buyTotal);
    DoneStep(e, e', sid, store, v, store, v, oid);
    ApplyOne(Executed(oid), e.fields);
    assert After(e, multiset{oid}, SetFlags(e.fields, oid, store, v)) == e';
  }

  lemma ReleaseIsSound(e: Entry, sid: Sid, store: Store, v: Venue, oid: Oid, store': Store, v': Venue)
    requires Ready(e, sid, store, v) && oid in e.watchers
    requires Around(sid, Buy, store, v, store', v') && S.AroundOthers(sid, store, v, store', v')
    requires VenueValid(v') && Mirrors(store', v') && oid in store' && store'[oid].state.Final()
    ensures Sound(e, sid, multiset{oid}, store, v, Writes([SetPrev(oid), SetActive(0), Need(true)], store', v'))
  {
    hide Around, S.AroundOthers, Lanes.Open, VenueValid, Mirrors, Advances, EntryInv, Budgeted;
    var l := LaneOf(e);
    WatchedFacts(e, sid, store, v, oid);
    ReadyIsSane(e, sid, store, v);
    SaneAround(l, sid, Buy, store, v, store', v', e.fields.buyTotal);
    ReleaseKeepsSane(l, sid, Buy, store', v', oid, oid, e.fields.buyTotal);
    ApplyThree(SetPrev(oid), SetActive(0), Need(true), e.fields);
    var e' := After(e, multiset{oid}, Writes([SetPrev(oid), SetActive(0), Need(true)], store', v'));
    assert LaneOf(e') == l.(need := true, prev := oid, active := 0, watchers := l.watchers - multiset{oid});
    NotDone(e, sid, store, v, oid);
    WorkStep(e, e', sid, store, v, store', v');
  }

  lemma NotDone(e: Entry, sid: Sid, store: Store, v: Venue, oid: Oid)
    requires EntryInv(e, sid, store, v) && oid in e.watchers
    ensures !e.fields.isDone && e.fields.completed == 0
  {
    hide Budgeted, Tracked;
  }

  lemma MoveIsSound(e: Entry, sid: Sid, store: Store, v: Venue, oid: Oid, price: nat, ext: nat)
    requires Ready(e, sid, store, v) && oid in e.watchers && price > 0
    requires oid in store && store[oid].state.Code() >= Active.Code()
    ensures e.fields.orders <= store.Keys
    ensures Sound(e, sid, multiset{oid}, store, v,
                  Writes([SetPrev(oid), SetExt(ext), SetRid(v.nextRid)], store, Send(v, BuyRequest(e.fields, sid, store, price, e.fields.active))))
  {
    hide Around, S.AroundOthers, Lanes.Open, VenueValid, Mirrors, Advances, EntryInv, Budgeted, Tracked;
    var l := LaneOf(e);
    WatchedFacts(e, sid, store, v, oid);
    ReadyIsSane(e, sid, store, v);
    OrdersKnown(e, sid, store, v);
    NotDone(e, sid, store, v, oid);
    var req := BuyRequest(e.fields, sid, store, price, e.fields.active);
    var oc := Writes([SetPrev(oid), SetExt(ext), SetRid(v.nextRid)], store, Send(v, req));
    BuyRequestAffordable(e, sid, store, v, price, e.fields.active);
    Steps.SendReach(sid, store, v, req);
    MoveKeepsSane(l, sid, Buy, store, v, oid, req, e.fields.buyTotal);
    ApplyThree(SetPrev(oid), SetExt(ext), SetRid(v.nextRid), e.fields);
    var e' := After(e, multiset{oid}, oc);
    assert LaneOf(e') == l.(prev := oid, rid := v.nextRid, watchers := l.watchers - multiset{oid});
    WorkStep(e, e', sid, store, v, store, Send(v, req));
  }

  lemma WatchIsSound(e: Entry, sid: Sid, store: Store, v: Venue, oid: Oid, verdict: P.Verdict)
    requires Ready(e, sid, store, v) && oid in e.watchers
    requires verdict.Withdraw? ==> P.LegalCancel(v, oid, verdict.answer)
    requires verdict.Reprice? ==> verdict.price > 0
    ensures Sound(e, sid, multiset{oid}, store, v, Watch(e.fields, sid, oid, store, v, verdict))
  {
    hide Around, S.AroundOthers, Lanes.Open, VenueValid, Mirrors, Advances, EntryInv, Budgeted, SetFlags, BoughtCost;
    IdleIsSound(e, sid, multiset{oid}, store, v);
    WatchedFacts(e, sid, store, v, oid);
    if oid in store && store[oid].state.Code() >= Active.Code() {
      if store[oid].state.Final() {
        Steps.NobodyMovesAll(sid, store, v);
        Steps.NobodyMoves(sid, Buy, store, v);
        WatchedDone(e, sid, store, v, oid);
        ReleaseIsSound(e, sid, store, v, oid, store, v);
      } else {
        match verdict
        case Keep =>
        case Withdraw(_, answer) =>
          if answer.Confirmed? {
            var store', v' := store[oid := answer.last], Replace(v, oid, answer.last);
            Steps.CancelReach(sid, store, v, oid, answer.last, store', v');
            ReleaseIsSound(e, sid, store, v, oid, store', v');
          }
        case Reprice(price, ext) => MoveIsSound(e, sid, store, v, oid, price, ext);
      }
    }
  }
}
