/**
 Booking after the fact. The code sets the done flags of a side first and reads the sums to book
 afterwards. That is sound as long as the session is not cleaned up in between: from the moment a
 side is complete its orders and their sums never change again.
 */
module SpreadBooking {
  import opened Totals
  import opened Exchange
  import opened Lanes
  import opened SpreadSession
  import opened SpreadProtocol
  import opened SpreadInvariant
  import opened SpreadRuns
  import opened SpreadTheorems

  predicate Completed(e: Entry, side: Side) {
    if side.Buy? then e.fields.completedBuys == 1 else e.fields.completedSells == 1
  }

  function OrdersOn(e: Entry, side: Side): set<Oid> {
    if side.Buy? then e.fields.buyOrders else e.fields.sellOrders
  }

  function LaneOn(e: Entry, side: Side): Lane {
    if side.Buy? then BuyLane(e) else SellLane(e)
  }

  // ----- a completed side -----

  /** A completed side is closed and owns exactly its orders, all of them final in the store. */
  lemma CompletedFacts(e: Entry, sid: Sid, side: Side, store: Store, v: Venue)
    requires Ready(e, sid, store, v) && Completed(e, side)
    ensures Settled(OrdersOn(e, side), store) && Owned(v, sid, side) == OrdersOn(e, side)
    ensures forall r | r in v.pending :: !From(v.pending[r], sid, side)
  {
    hide Solvent, Waiting, Lanes.Open;
    var l := LaneOn(e, side);
    assert Closed(l, sid, side, store, v);
    OwnsExactly(l, sid, side, store, v);
  }

  lemma OwnsExactly(l: Lane, sid: Sid, side: Side, store: Store, v: Venue)
    requires Closed(l, sid, side, store, v) && VenueValid(v)
    ensures Owned(v, sid, side) == l.orders
    ensures forall r | r in v.pending :: !From(v.pending[r], sid, side)
  {
    assert l.rid == 0;
  }

  // ----- what one step can do to store and exchange -----

  /** At most one order moves on, in store and exchange alike. */
  ghost predicate Touches(store: Store, v: Venue, store': Store, v': Venue) {
    || (store' == store && v'.orders == v.orders)
    || exists oid, last :: MovesOn(store, v, store', v', oid, last)
  }

  ghost predicate MovesOn(store: Store, v: Venue, store': Store, v': Venue, oid: Oid, last: Order) {
    && oid in v.orders && Evolves(v.orders[oid].order, last)
    && store' == store[oid := last] && v'.orders == v.orders[oid := v.orders[oid].(order := last)]
  }

  lemma CancelTouches(store: Store, v: Venue, oid: Oid, answer: CancelAnswer)
    requires LegalCancel(v, oid, answer) && answer.Confirmed?
    ensures Touches(store, v, store[oid := answer.last], Replace(v, oid, answer.last))
  {
    assert MovesOn(store, v, store[oid := answer.last], Replace(v, oid, answer.last), oid, answer.last);
  }

  lemma DecideTouches(f: Fields, sid: Sid, store: Store, v: Venue, m: Market)
    requires m.buyOpen ==> m.price > 0
    ensures var oc := Decide(f, sid, store, v, m); oc.Acts? ==> Touches(store, v, oc.store, oc.venue)
  {
    hide BoughtCost, SoldVolume;
  }

  lemma ListenTouches(f: Fields, rid: Rid, store: Store, v: Venue, answer: CancelAnswer)
    requires rid in v.replies && LegalCancel(v, Looked(f, rid), answer)
    ensures var oc := Listen(f, rid, store, v, answer); oc.Acts? ==> Touches(store, v, oc.store, oc.venue)
  {
    hide BoughtCost, BoughtVolume, SoldCost, Touches;
    var oid := Looked(f, rid);
    if answer.Confirmed? {
      CancelTouches(store, v, oid, answer);
      SameOrders(store, v, store[oid := answer.last], Replace(v, oid, answer.last), Replace(TakeReply(v, rid), oid, answer.last));
    }
    assert Touches(store, v, store, TakeReply(v, rid)) by { Untouched(store, v, rid); }
  }

  lemma Untouched(store: Store, v: Venue, rid: Rid)
    ensures Touches(store, v, store, TakeReply(v, rid)) && Touches(store, v, store, v)
  {}

  lemma SameOrders(store: Store, v: Venue, store': Store, v1: Venue, v2: Venue)
    requires Touches(store, v, store', v1) && v2.orders == v1.orders
    ensures Touches(store, v, store', v2)
  {
    if !(store' == store && v1.orders == v.orders) {
      var oid, last :| MovesOn(store, v, store', v1, oid, last);
      assert MovesOn(store, v, store', v2, oid, last);
    }
  }

  lemma WatchTouches(f: Fields, sid: Sid, oid: Oid, store: Store, v: Venue, verdict: Verdict)
    requires verdict.Withdraw? ==> LegalCancel(v, oid, verdict.answer)
    requires verdict.Reprice? ==> verdict.price > 0
    ensures var oc := Watch(f, sid, oid, store, v, verdict); oc.Acts? ==> Touches(store, v, oc.store, oc.venue)
  {
    hide BoughtCost, BoughtVolume, SoldCost, SoldVolume, Touches;
    if verdict.Withdraw? && verdict.answer.Confirmed? {
      CancelTouches(store, v, oid, verdict.answer);
    }
    Untouched(store, v, 0);
    forall v': Venue | v'.orders == v.orders ensures Touches(store, v, store, v') {
      SameOrders(store, v, store, v, v');
    }
  }

  /** Final orders stay as they are, and no order changes hands. */
  ghost predicate Keeps(sid: Sid, side: Side, store: Store, v: Venue, store': Store, v': Venue) {
    && Owned(v', sid, side) == Owned(v, sid, side)
    && forall o | o in store && o in store' && store[o].state.Final() :: store'[o] == store[o]
  }

  lemma TouchKeeps(sid: Sid, side: Side, store: Store, v: Venue, store': Store, v': Venue)
    requires VenueValid(v) && Mirrors(store, v) && Touches(store, v, store', v')
    ensures Keeps(sid, side, store, v, store', v')
  {
    if !(store' == store && v'.orders == v.orders) {
      var oid, last :| MovesOn(store, v, store', v', oid, last);
    }
  }

  /** Counters never fall. */
  lemma {:induction false} CountersGrow(ws: seq<Write>, f: Fields)
    ensures ApplyAll(ws, f).completedBuys >= f.completedBuys && ApplyAll(ws, f).completedSells >= f.completedSells
    decreases |ws|
  {
    if ws != [] { CountersGrow(ws[1..], Apply(ws[0], f)); }
  }

  lemma LandGrows(w: World, sid: Sid, i: Sid, self: multiset<Oid>, oc: Outcome)
    requires sid < |w.entries| && i < |w.entries| && oc.Acts?
    ensures var w' := Land(w, sid, self, oc);
            && |w'.entries| == |w.entries| && w'.entries[i].removed == w.entries[i].removed
            && w'.entries[i].fields.completedBuys >= w.entries[i].fields.completedBuys
            && w'.entries[i].fields.completedSells >= w.entries[i].fields.completedSells
  {
    CountersGrow(oc.writes, w.entries[sid].fields);
  }

  /** A session's counters never fall and a removed session stays removed. */
  lemma NextGrows(w: World, s: Step, i: Sid)
    requires Enabled(w, s) && i < |w.entries|
    ensures var w' := Next(w, s);
            && i < |w'.entries| && (w.entries[i].removed ==> w'.entries[i].removed)
            && w'.entries[i].fields.completedBuys >= w.entries[i].fields.completedBuys
            && w'.entries[i].fields.completedSells >= w.entries[i].fields.completedSells
  {
    hide Decide, Listen, Watch, Accept, Refuse, CanAccept, LegalCancel;
    match s
    case Deciding(sid, m) =>
      var oc := Decide(w.entries[sid].fields, sid, w.store, w.venue, m);
      if oc.Acts? { LandGrows(w, sid, i, multiset{}, oc); }
    case Listening(sid, rid, answer) =>
      var oc := Listen(w.entries[sid].fields, rid, w.store, w.venue, answer);
      if oc.Acts? { LandGrows(w, sid, i, multiset{}, oc); }
    case Watching(sid, oid, verdict) =>
      var oc := Watch(w.entries[sid].fields, sid, oid, w.store, w.venue, verdict);
      if oc.Acts? { LandGrows(w, sid, i, multiset{oid}, oc); }
    case _ =>
  }

  lemma AcceptKeepsOwned(store: Store, v: Venue, rid: Rid, oid: Oid, first: State, last: Order, sid: Sid, side: Side)
    requires CanAccept(v, rid, oid, first, last) && forall r | r in v.pending :: !From(v.pending[r], sid, side)
    ensures Owned(Accept(v, rid, oid, first, last), sid, side) == Owned(v, sid, side)
  {}

  /** While a side has no request pending, a step leaves its orders its own and final orders frozen. */
  lemma NextKeepsFinal(w: World, s: Step, sid: Sid, side: Side)
    requires WorldInv(w) && Enabled(w, s) && Next(w, s).status.Running?
    requires forall r | r in w.venue.pending :: !From(w.venue.pending[r], sid, side)
    ensures Keeps(sid, side, w.store, w.venue, Next(w, s).store, Next(w, s).venue)
  {
    hide EntryInv, Decide, Listen, Watch, Accept, Touches, LegalCancel, Keeps;
    match s
    case Deciding(j, m) =>
      DecideTouches(w.entries[j].fields, j, w.store, w.venue, m);
      TouchKeeps(sid, side, w.store, w.venue, Next(w, s).store, Next(w, s).venue);
    case Listening(j, rid, answer) =>
      ListenTouches(w.entries[j].fields, rid, w.store, w.venue, answer);
      TouchKeeps(sid, side, w.store, w.venue, Next(w, s).store, Next(w, s).venue);
    case Watching(j, oid, verdict) =>
      WatchTouches(w.entries[j].fields, j, oid, w.store, w.venue, verdict);
      TouchKeeps(sid, side, w.store, w.venue, Next(w, s).store, Next(w, s).venue);
    case _ => ExchangeKeepsFinal(w, s, sid, side);
  }

  lemma ExchangeKeepsFinal(w: World, s: Step, sid: Sid, side: Side)
    requires WorldInv(w) && Enabled(w, s) && !s.Deciding? && !s.Listening? && !s.Watching?
    requires forall r | r in w.venue.pending :: !From(w.venue.pending[r], sid, side)
    ensures Keeps(sid, side, w.store, w.venue, Next(w, s).store, Next(w, s).venue)
  {
    hide EntryInv, Accept, AllKnown, Ledger, Attributed, CanAccept;
    match s
    case Accepting(rid, oid, first, last) => AcceptKeepsOwned(w.store, w.venue, rid, oid, first, last, sid, side);
    case _ =>
  }

  // ----- the sums of a completed side -----

  lemma StepFreezes(w: World, s: Step, sid: Sid, side: Side)
    requires WorldInv(w) && Enabled(w, s) && Managed(w, sid) && Completed(w.entries[sid], side)
    requires Next(w, s).status.Running? && Managed(Next(w, s), sid)
    ensures Completed(Next(w, s).entries[sid], side)
    ensures Frozen(w, Next(w, s), sid, side)
  {
    hide EntryInv, Next, Enabled;
    var (e, w') := (w.entries[sid], Next(w, s));
    CompletedFacts(e, sid, side, w.store, w.venue);
    NextKeeps(w, s);
    NextGrows(w, s, sid);
    CountersBounded(w'.entries[sid], sid, w'.store, w'.venue);
    CountersBounded(e, sid, w.store, w.venue);
    CompletedFacts(w'.entries[sid], sid, side, w'.store, w'.venue);
    NextKeepsFinal(w, s, sid, side);
    SumsFollow(OrdersOn(e, side), w.store, w'.store);
  }

  lemma CountersBounded(e: Entry, sid: Sid, store: Store, v: Venue)
    requires Ready(e, sid, store, v)
    ensures e.fields.completedBuys <= 1 && e.fields.completedSells <= 1
  {
    hide Lanes.Open, Closed, Solvent;
  }

  lemma SumsFollow(orders: set<Oid>, store: Store, store': Store)
    requires Settled(orders, store) && Settled(orders, store')
    requires forall o | o in orders :: store'[o] == store[o]
    ensures orders <= store.Keys && orders <= store'.Keys
    ensures Total(orders, Costs(store')) == Total(orders, Costs(store)) && Total(orders, Fills(store')) == Total(orders, Fills(store))
  {
    TotalSame(orders, Costs(store), Costs(store'));
    TotalSame(orders, Fills(store), Fills(store'));
  }

  /** Same orders, same cost, same volume. */
  ghost predicate Frozen(w: World, w': World, sid: Sid, side: Side)
    requires Managed(w, sid) && Managed(w', sid)
  {
    var orders := OrdersOn(w.entries[sid], side);
    && OrdersOn(w'.entries[sid], side) == orders && orders <= w.store.Keys && orders <= w'.store.Keys
    && Total(orders, Costs(w'.store)) == Total(orders, Costs(w.store))
    && Total(orders, Fills(w'.store)) == Total(orders, Fills(w.store))
  }

  lemma {:induction false} RemovedStays(w: World, run: seq<Step>, sid: Sid)
    requires Legal(w, run) && sid < |w.entries| && w.entries[sid].removed
    ensures sid < |Run(w, run).entries| && Run(w, run).entries[sid].removed
    decreases |run|
  {
    hide Enabled, Next;
    if run != [] {
      NextGrows(w, run[0], sid);
      RemovedStays(Next(w, run[0]), run[1..], sid);
    }
  }

  /** However long a process waits before it reads the sums of a side that it has completed, it reads
      the same sums, whatever happens meanwhile, unless the session is cleaned up. */
  lemma {:induction false} SumsAreFrozen(w: World, run: seq<Step>, sid: Sid, side: Side)
    requires WorldInv(w) && Managed(w, sid) && Completed(w.entries[sid], side)
    requires Legal(w, run) && Run(w, run).status.Running? && Managed(Run(w, run), sid)
    ensures Frozen(w, Run(w, run), sid, side)
    decreases |run|
  {
    hide WorldInv, Enabled, Next, Completed;
    if run == [] {
      StillFrozen(w, sid, side);
    } else {
      var w1 := Next(w, run[0]);
      NextGrows(w, run[0], sid);
      if w1.entries[sid].removed { RemovedStays(w1, run[1..], sid); }
      if !w1.status.Running? { StoppedRun(w1, run[1..]); }
      StepFreezes(w, run[0], sid, side);
      NextKeeps(w, run[0]);
      SumsAreFrozen(w1, run[1..], sid, side);
    }
  }

  lemma StillFrozen(w: World, sid: Sid, side: Side)
    requires WorldInv(w) && Managed(w, sid) && Completed(w.entries[sid], side)
    ensures Frozen(w, w, sid, side)
  {
    hide EntryInv;
    CompletedFacts(w.entries[sid], sid, side, w.store, w.venue);
  }

  /** A clean-up between the done flag and the reading of the sums takes the orders away, the bought ones in
      any case: the reading then runs into a missing order. */
  lemma CleanUpOvertakes(w: World, sid: Sid)
    requires WorldInv(w) && Managed(w, sid) && w.entries[sid].fields.isDone
    ensures SellFlags(w.entries[sid].fields, w.store - SweptOrders(w.entries), w.venue).Panics?
  {
    hide Attributed, AllKnown, Ledger, Mirrors, VenueValid, Solvent, Tracked;
    var e := w.entries[sid];
    assert EntryInv(e, sid, w.store, w.venue);
    SweptContains(w.entries, sid, e.fields.activeBuy);
  }

  lemma {:induction false} SweptContains(entries: seq<Entry>, i: nat, o: Oid)
    requires i < |entries| && Swept(entries[i]) && o in entries[i].fields.buyOrders + entries[i].fields.sellOrders
    ensures o in SweptOrders(entries)
  {
    if i > 0 { SweptContains(entries[1..], i - 1, o); }
  }

  // ----- a cancel that overtakes the store's news -----

  /** A sum misses exactly what one order has filled since the store last heard of it. */
  lemma LateSum(orders: set<Oid>, oid: Oid, store: Store, last: Order)
    requires orders <= store.Keys && oid in orders && last.price == store[oid].price
    ensures Total(orders, Costs(store[oid := last])) - Total(orders, Costs(store)) == last.price * (last.filled - store[oid].filled)
  {
    var (m, m') := (Costs(store), Costs(store[oid := last]));
    TotalPick(orders, m, oid);
    TotalPick(orders, m', oid);
    TotalSame(orders - {oid}, m, m');
    assert Total(orders, m') - Total(orders, m) == m'[oid] - m[oid];
    Difference(last.price, last.filled, store[oid].filled);
  }

  lemma Difference(a: int, b: int, c: int)
    ensures a * (b - c) == a * b - a * c
  {}

  /** The protocol lets the store hear of a cancelled order no later than the answer to the cancel. Were the
      answer faster, the sell side would be booked short by exactly the fills not heard of, so it is
      booked right if and only if the store knew them all (or they cost nothing). */
  lemma LateCancelBooksShort(f: Fields, oid: Oid, store: Store, v: Venue, last: Order)
    requires f.buyOrders <= store.Keys && f.sellOrders <= store.Keys && oid in f.sellOrders
    requires Mirrors(store, v) && LegalCancel(v, oid, Confirmed(last)) && store[oid].state.Active?
    ensures var heard := SellExecuted(f, oid, store[oid], store, v, Confirmed(last));
            var late := SellFlags(f, store, Replace(v, oid, last));
            && heard.Acts? && late.Acts? && heard.writes == late.writes && heard.venue == late.venue
            && heard.booked - late.booked == last.price * (last.filled - store[oid].filled) >= 0
            && (late.booked == heard.booked <==> last.filled == store[oid].filled || last.price == 0)
  {
    hide Mirrors, LegalCancel, SellExecuted, SellFlags, Total;
    NewsOfCancelled(oid, store, v, last);
    LateSum(f.sellOrders, oid, store, last);
    BookedSums(f, oid, store, v, last);
    ZeroProduct(last.price, last.filled - store[oid].filled);
  }

  lemma NewsOfCancelled(oid: Oid, store: Store, v: Venue, last: Order)
    requires oid in store && Mirrors(store, v) && LegalCancel(v, oid, Confirmed(last))
    ensures last.price == store[oid].price && last.filled >= store[oid].filled
  {}

  lemma BookedSums(f: Fields, oid: Oid, store: Store, v: Venue, last: Order)
    requires f.buyOrders <= store.Keys && f.sellOrders <= store.Keys && oid in f.sellOrders
    requires LegalCancel(v, oid, Confirmed(last)) && store[oid].state.Active?
    ensures SellExecuted(f, oid, store[oid], store, v, Confirmed(last))
            == Acts([SellDone], multiset{}, store[oid := last], Replace(v, oid, last), Total(f.sellOrders, Costs(store[oid := last])))
    ensures SellFlags(f, store, Replace(v, oid, last))
            == Acts([SellDone], multiset{}, store, Replace(v, oid, last), Total(f.sellOrders, Costs(store)))
  {}

  lemma ZeroProduct(a: nat, b: nat)
    ensures a * b >= 0 && (a * b == 0 <==> a == 0 || b == 0)
  {}
}
