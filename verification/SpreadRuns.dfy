/** The invariant over all runs of any number of sessions, and the book's profit as a ledger of them. */
module SpreadRuns {
  import opened Exchange
  import opened Lanes
  import opened Budgets
  import opened SpreadSession
  import opened SpreadProtocol
  import opened SpreadInvariant
  import opened SpreadSteps

  ghost predicate AllKnown(entries: seq<Entry>, v: Venue) {
    forall e | e in entries :: e.fields.buyOrders <= v.orders.Keys && e.fields.sellOrders <= v.orders.Keys
  }

  /** What all sessions together have contributed to the profit, cleaned-up ones included. */
  ghost function Ledger(entries: seq<Entry>, v: Venue): int
    requires AllKnown(entries, v)
  {
    if entries == [] then 0 else Contribution(entries[0], v) + Ledger(entries[1..], v)
  }

  /** Requests and orders belong to sessions that exist. */
  ghost predicate Attributed(v: Venue, n: nat) {
    && (forall r | r in v.pending :: v.pending[r].sid < n)
    && (forall r | r in v.replies :: v.replies[r].0.sid < n)
    && (forall o | o in v.orders :: v.orders[o].req.sid < n)
  }

  ghost predicate EntriesInv(entries: seq<Entry>, store: Store, v: Venue) {
    forall i | 0 <= i < |entries| :: EntryInv(entries[i], i, store, v)
  }

  ghost predicate WorldInv(w: World) {
    && !w.status.Panicked?
    && VenueValid(w.venue) && Mirrors(w.store, w.venue) && Attributed(w.venue, |w.entries|)
    && EntriesInv(w.entries, w.store, w.venue)
    && AllKnown(w.entries, w.venue) && w.profit == Ledger(w.entries, w.venue)
  }

  lemma EntriesKnown(entries: seq<Entry>, store: Store, v: Venue)
    requires EntriesInv(entries, store, v)
    ensures AllKnown(entries, v)
  {
    hide EntryInv;
    forall e | e in entries ensures e.fields.buyOrders <= v.orders.Keys && e.fields.sellOrders <= v.orders.Keys {
      var i :| 0 <= i < |entries| && entries[i] == e;
      OrdersKnown(e, i, store, v);
    }
  }

  /** The ledger moves by what one session contributes. */
  lemma {:induction false} LedgerMoves(entries: seq<Entry>, entries': seq<Entry>, v: Venue, v': Venue, sid: int, delta: int)
    requires |entries'| == |entries| && AllKnown(entries, v) && AllKnown(entries', v')
    requires forall i | 0 <= i < |entries| :: Contribution(entries'[i], v') == Contribution(entries[i], v) + (if i == sid then delta else 0)
    ensures Ledger(entries', v') == Ledger(entries, v) + (if 0 <= sid < |entries| then delta else 0)
  {
    hide Contribution;
    if entries != [] {
      assert Contribution(entries'[0], v') == Contribution(entries[0], v) + (if 0 == sid then delta else 0);
      LedgerMoves(entries[1..], entries'[1..], v, v', sid - 1, delta);
    }
  }

  lemma {:induction false} LedgerGrows(entries: seq<Entry>, e: Entry, v: Venue)
    requires AllKnown(entries + [e], v) && AllKnown(entries, v)
    ensures Ledger(entries + [e], v) == Ledger(entries, v) + Contribution(e, v)
  {
    hide Contribution;
    if entries != [] {
      assert (entries + [e])[1..] == entries[1..] + [e];
      LedgerGrows(entries[1..], e, v);
    } else {
      assert (entries + [e])[1..] == [];
    }
  }

  // ----- steps of the sessions' processes -----

  /** An activation of a session's process, seen from the whole world. */
  lemma LandKeeps(w: World, sid: Sid, self: multiset<Oid>, oc: Outcome)
    requires WorldInv(w) && sid < |w.entries|
    requires Sound(w.entries[sid], sid, self, w.store, w.venue, oc)
    requires oc.Acts? ==> Attributed(oc.venue, |w.entries|)
    ensures WorldInv(Land(w, sid, self, oc))
  {
    hide Around, Budgeted, VenueValid, Mirrors, EntryInv, Attributed;
    if oc.Acts? {
      var w' := Land(w, sid, self, oc);
      var e' := After(w.entries[sid], self, oc);
      assert w'.entries == w.entries[sid := e'];
      forall i | 0 <= i < |w.entries|
        ensures EntryInv(w'.entries[i], i, w'.store, w'.venue)
        ensures Books(w.entries[i], w.venue, w'.entries[i], w'.venue, if i == sid then oc.booked else 0)
      {
        if i != sid {
          assert AroundBoth(i, w.store, w.venue, w'.store, w'.venue);
          EntryAround(w.entries[i], i, w.store, w.venue, w'.store, w'.venue);
        }
      }
      EntriesKnown(w'.entries, w'.store, w'.venue);
      LedgerMoves(w.entries, w'.entries, w.venue, w'.venue, sid, oc.booked);
    }
  }

  lemma DecideAttributed(f: Fields, sid: Sid, store: Store, v: Venue, m: Market, n: nat)
    requires Attributed(v, n) && sid < n && (m.buyOpen ==> m.price > 0)
    ensures Decide(f, sid, store, v, m).Acts? ==> Attributed(Decide(f, sid, store, v, m).venue, n)
  {}

  lemma ExecutedAttributed(f: Fields, oid: Oid, order: Order, store: Store, v: Venue, answer: CancelAnswer, n: nat)
    requires Attributed(v, n) && LegalCancel(v, oid, answer)
    ensures BuyExecuted(f, oid, order, store, v, answer).Acts? ==> Attributed(BuyExecuted(f, oid, order, store, v, answer).venue, n)
    ensures SellExecuted(f, oid, order, store, v, answer).Acts? ==> Attributed(SellExecuted(f, oid, order, store, v, answer).venue, n)
  {
    hide BoughtCost, BoughtVolume, SoldCost;
  }

  lemma ListenAttributed(f: Fields, rid: Rid, store: Store, v: Venue, answer: CancelAnswer, n: nat)
    requires Attributed(v, n) && rid in v.replies && LegalCancel(v, Looked(f, rid), answer)
    ensures Listen(f, rid, store, v, answer).Acts? ==> Attributed(Listen(f, rid, store, v, answer).venue, n)
  {
    hide BuyExecuted, SellExecuted;
    var oid := Looked(f, rid);
    if oid in store { ExecutedAttributed(f, oid, store[oid], store, TakeReply(v, rid), answer, n); }
  }

  lemma WatchAttributed(f: Fields, sid: Sid, oid: Oid, store: Store, v: Venue, verdict: Verdict, n: nat)
    requires Attributed(v, n) && sid < n
    requires verdict.Withdraw? ==> LegalCancel(v, oid, verdict.answer)
    requires verdict.Reprice? ==> verdict.price > 0
    ensures Watch(f, sid, oid, store, v, verdict).Acts? ==> Attributed(Watch(f, sid, oid, store, v, verdict).venue, n)
  {
    hide BoughtCost, BoughtVolume, SoldCost, SoldVolume;
  }

  // ----- steps of the exchange -----

  /** A step around every session keeps the world. */
  lemma AroundAllKeeps(w: World, w': World)
    requires WorldInv(w) && !w'.status.Panicked?
    requires w'.entries == w.entries && w'.profit == w.profit
    requires VenueValid(w'.venue) && Mirrors(w'.store, w'.venue) && Attributed(w'.venue, |w.entries|)
    requires forall i | 0 <= i < |w.entries| ::
               EntryInv(w.entries[i], i, w'.store, w'.venue) && Books(w.entries[i], w.venue, w.entries[i], w'.venue, 0)
    ensures WorldInv(w')
  {
    hide Around, Budgeted, VenueValid, Mirrors, EntryInv, Attributed;
    EntriesKnown(w'.entries, w'.store, w'.venue);
    LedgerMoves(w.entries, w'.entries, w.venue, w'.venue, 0, 0);
  }

  lemma EvolveKeeps(w: World, oid: Oid, o: Order, store': Store, v': Venue)
    requires WorldInv(w) && oid in w.venue.orders && Evolves(w.venue.orders[oid].order, o)
    requires v' == Replace(w.venue, oid, o) && (store' == w.store || store' == w.store[oid := o])
    ensures WorldInv(w.(store := store', venue := v'))
  {
    hide Around, Budgeted, EntryInv;
    forall i | 0 <= i < |w.entries|
      ensures EntryInv(w.entries[i], i, store', v') && Books(w.entries[i], w.venue, w.entries[i], v', 0)
    {
      EvolveIsAround(i, Buy, w.store, w.venue, oid, o, store');
      EvolveIsAround(i, Sell, w.store, w.venue, oid, o, store');
      EntryAround(w.entries[i], i, w.store, w.venue, store', v');
    }
    EvolveIsAround(0, Buy, w.store, w.venue, oid, o, store');
    assert VenueValid(v') && Attributed(v', |w.entries|);
    AroundAllKeeps(w, w.(store := store', venue := v'));
  }

  lemma SyncKeeps(w: World, oid: Oid)
    requires WorldInv(w) && oid in w.venue.orders
    ensures WorldInv(w.(store := w.store[oid := w.venue.orders[oid].order]))
  {
    var o := w.venue.orders[oid].order;
    assert Evolves(o, o) by { hide EntryInv, Mirrors; }
    assert Replace(w.venue, oid, o) == w.venue;
    EvolveKeeps(w, oid, o, w.store[oid := o], w.venue);
  }

  /** The session whose request is answered waits for it with an open lane. */
  lemma Waiter(e: Entry, sid: Sid, store: Store, v: Venue, rid: Rid)
    requires EntryInv(e, sid, store, v) && VenueValid(v) && Mirrors(store, v)
    requires rid in v.pending && v.pending[rid].sid == sid
    ensures v.pending[rid].side.Buy? ==> Buying(e, sid, store, v) && e.fields.buyRid == rid
    ensures v.pending[rid].side.Sell? ==> Selling(e, sid, store, v) && e.fields.sellRid == rid
  {
    hide Mirrors, Budgeted, Waiting, Settled;
  }

  lemma AcceptBuy(e: Entry, sid: Sid, store: Store, v: Venue, rid: Rid, oid: Oid, first: State, last: Order)
    requires Buying(e, sid, store, v) && CanAccept(v, rid, oid, first, last) && From(v.pending[rid], sid, Buy)
    ensures var v' := Accept(v, rid, oid, first, last);
            EntryInv(e, sid, store, v') && Books(e, v, e, v', 0)
  {
    hide Around, Budgeted, Lanes.Open, Closed, VenueValid, Mirrors, CanAccept, Accept, EntryInv;
    AcceptIsValid(store, v, rid, oid, first, last);
    AcceptKeepsOpen(BuyLane(e), sid, Buy, store, v, rid, oid, first, last);
    AcceptKeepsBudgeted(BuyLane(e), sid, Buy, store, v, rid, oid, first, last, e.fields.buyTotal);
    AcceptIsAround(sid, Sell, store, v, rid, oid, first, last);
    BuySideKeeps(e, e, sid, store, v, store, Accept(v, rid, oid, first, last));
  }

  lemma AcceptSell(e: Entry, sid: Sid, store: Store, v: Venue, rid: Rid, oid: Oid, first: State, last: Order)
    requires Selling(e, sid, store, v) && CanAccept(v, rid, oid, first, last) && From(v.pending[rid], sid, Sell)
    ensures var v' := Accept(v, rid, oid, first, last);
            EntryInv(e, sid, store, v') && Books(e, v, e, v', 0)
  {
    hide Around, Budgeted, Lanes.Open, Closed, VenueValid, Mirrors, CanAccept, Accept, EntryInv;
    AcceptIsValid(store, v, rid, oid, first, last);
    AcceptKeepsOpen(SellLane(e), sid, Sell, store, v, rid, oid, first, last);
    AcceptKeepsBudgeted(SellLane(e), sid, Sell, store, v, rid, oid, first, last, e.fields.sellVolume as real);
    AcceptIsAround(sid, Buy, store, v, rid, oid, first, last);
    SellSideKeeps(e, e, sid, store, v, store, Accept(v, rid, oid, first, last));
  }

  lemma AcceptKeeps(w: World, rid: Rid, oid: Oid, first: State, last: Order)
    requires WorldInv(w) && CanAccept(w.venue, rid, oid, first, last)
    ensures WorldInv(w.(venue := Accept(w.venue, rid, oid, first, last)))
  {
    hide Around, Budgeted, EntryInv, EndTarget;
    var v' := Accept(w.venue, rid, oid, first, last);
    var req := w.venue.pending[rid];
    AcceptIsValid(w.store, w.venue, rid, oid, first, last);
    forall i | 0 <= i < |w.entries|
      ensures EntryInv(w.entries[i], i, w.store, v') && Books(w.entries[i], w.venue, w.entries[i], v', 0)
    {
      if i == req.sid {
        Waiter(w.entries[i], i, w.store, w.venue, rid);
        if req.side.Buy? { AcceptBuy(w.entries[i], i, w.store, w.venue, rid, oid, first, last); }
        else { AcceptSell(w.entries[i], i, w.store, w.venue, rid, oid, first, last); }
      } else {
        AcceptIsAround(i, Buy, w.store, w.venue, rid, oid, first, last);
        AcceptIsAround(i, Sell, w.store, w.venue, rid, oid, first, last);
        EntryAround(w.entries[i], i, w.store, w.venue, w.store, v');
      }
    }
    AcceptAttributed(w.venue, rid, oid, first, last, |w.entries|);
    AroundAllKeeps(w, w.(venue := v'));
  }

  lemma AcceptAttributed(v: Venue, rid: Rid, oid: Oid, first: State, last: Order, n: nat)
    requires Attributed(v, n) && CanAccept(v, rid, oid, first, last)
    ensures Attributed(Accept(v, rid, oid, first, last), n)
  {}

  lemma RefuseBudget(l: Lane, sid: Sid, side: Side, v: Venue, rid: Rid, code: ErrorCode, cap: real)
    requires Budgeted(l, sid, side, v, cap) && rid in v.pending && l.rid == rid
    ensures Budgeted(l, sid, side, Refuse(v, rid, code), cap)
  {
    BudgetedIdle(l, l, sid, side, v, Refuse(v, rid, code), cap);
  }

  lemma RefuseBuy(e: Entry, sid: Sid, store: Store, v: Venue, rid: Rid, code: ErrorCode)
    requires Buying(e, sid, store, v) && rid in v.pending && From(v.pending[rid], sid, Buy) && rid == e.fields.buyRid
    ensures EntryInv(e, sid, store, Refuse(v, rid, code)) && Books(e, v, e, Refuse(v, rid, code), 0)
  {
    hide Around, Budgeted, Lanes.Open, Closed, VenueValid, EntryInv;
    RefuseIsAround(sid, Sell, store, v, rid, code);
    RefuseKeepsOpen(BuyLane(e), sid, Buy, store, v, rid, code);
    RefuseBudget(BuyLane(e), sid, Buy, v, rid, code, e.fields.buyTotal);
    BuySideKeeps(e, e, sid, store, v, store, Refuse(v, rid, code));
  }

  lemma RefuseSell(e: Entry, sid: Sid, store: Store, v: Venue, rid: Rid, code: ErrorCode)
    requires Selling(e, sid, store, v) && rid in v.pending && From(v.pending[rid], sid, Sell) && rid == e.fields.sellRid
    ensures EntryInv(e, sid, store, Refuse(v, rid, code)) && Books(e, v, e, Refuse(v, rid, code), 0)
  {
    hide Around, Budgeted, Lanes.Open, Closed, VenueValid, EntryInv;
    RefuseIsAround(sid, Buy, store, v, rid, code);
    RefuseKeepsOpen(SellLane(e), sid, Sell, store, v, rid, code);
    RefuseBudget(SellLane(e), sid, Sell, v, rid, code, e.fields.sellVolume as real);
    SellSideKeeps(e, e, sid, store, v, store, Refuse(v, rid, code));
  }

  lemma RefuseKeeps(w: World, rid: Rid, code: ErrorCode)
    requires WorldInv(w) && rid in w.venue.pending
    ensures WorldInv(w.(venue := Refuse(w.venue, rid, code)))
  {
    hide Around, Budgeted, EntryInv;
    var v' := Refuse(w.venue, rid, code);
    var req := w.venue.pending[rid];
    RefuseIsAround(req.sid, Buy, w.store, w.venue, rid, code);
    forall i | 0 <= i < |w.entries|
      ensures EntryInv(w.entries[i], i, w.store, v') && Books(w.entries[i], w.venue, w.entries[i], v', 0)
    {
      if i == req.sid {
        Waiter(w.entries[i], i, w.store, w.venue, rid);
        if req.side.Buy? { RefuseBuy(w.entries[i], i, w.store, w.venue, rid, code); }
        else { RefuseSell(w.entries[i], i, w.store, w.venue, rid, code); }
      } else {
        RefuseIsAround(i, Buy, w.store, w.venue, rid, code);
        RefuseIsAround(i, Sell, w.store, w.venue, rid, code);
        EntryAround(w.entries[i], i, w.store, w.venue, w.store, v');
      }
    }
    AroundAllKeeps(w, w.(venue := v'));
  }

  // ----- opening sessions and cleaning up -----

  lemma FreshEntry(sid: Sid, store: Store, v: Venue, buyTotal: real)
    requires VenueValid(v) && Attributed(v, sid)
    ensures EntryInv(Entry(NewFields(buyTotal), multiset{}, false), sid, store, v)
    ensures Contribution(Entry(NewFields(buyTotal), multiset{}, false), v) == 0
  {
    var e := Entry(NewFields(buyTotal), multiset{}, false);
    assert Tracked(BuyLane(e), sid, Buy, store, v) && Tracked(SellLane(e), sid, Sell, store, v);
    NothingOwned(BuyLane(e), sid, Buy, store, v, e.fields.buyTotal);
    NothingOwned(SellLane(e), sid, Sell, store, v, e.fields.sellVolume as real);
    assert BuyPhase(e, sid, store, v);
  }

  lemma OpenKeeps(w: World, buyTotal: real)
    requires WorldInv(w)
    ensures WorldInv(w.(entries := w.entries + [Entry(NewFields(buyTotal), multiset{}, false)]))
  {
    hide Around, Budgeted, EntryInv, Contribution;
    var e := Entry(NewFields(buyTotal), multiset{}, false);
    FreshEntry(|w.entries|, w.store, w.venue, buyTotal);
    EntriesKnown(w.entries + [e], w.store, w.venue);
    LedgerGrows(w.entries, e, w.venue);
  }

  lemma {:induction false} SweptIds(entries: seq<Entry>, o: Oid)
    requires o in SweptOrders(entries)
    ensures exists i :: 0 <= i < |entries| && Swept(entries[i]) && (o in entries[i].fields.buyOrders || o in entries[i].fields.sellOrders)
  {
    if Swept(entries[0]) && o in entries[0].fields.buyOrders + entries[0].fields.sellOrders {
    } else {
      SweptIds(entries[1..], o);
      var i :| 0 <= i < |entries[1..]| && Swept(entries[1..][i]) && (o in entries[1..][i].fields.buyOrders || o in entries[1..][i].fields.sellOrders);
      assert entries[i + 1] == entries[1..][i];
    }
  }

  lemma OwnedByItsSession(e: Entry, sid: Sid, store: Store, v: Venue, o: Oid)
    requires EntryInv(e, sid, store, v)
    requires o in e.fields.buyOrders || o in e.fields.sellOrders
    ensures o in v.orders && v.orders[o].req.sid == sid
  {
    hide Budgeted, OwnRid, Owners, Settled;
    assert o in BuyLane(e).orders || o in SellLane(e).orders;
    if o in BuyLane(e).orders { assert OwnedBy(v, o, sid, Buy); } else { assert OwnedBy(v, o, sid, Sell); }
  }

  /** Cleaning up takes nothing from a session that stays. */
  lemma SweepIsAround(w: World, sid: Sid, side: Side, store': Store)
    requires WorldInv(w) && sid < |w.entries| && !Swept(w.entries[sid])
    requires store' == w.store - SweptOrders(w.entries)
    ensures Around(sid, side, w.store, w.venue, store', w.venue)
  {
    hide EntryInv;
    forall o | o in w.store && OwnedBy(w.venue, o, sid, side) ensures o !in SweptOrders(w.entries) {
      if o in SweptOrders(w.entries) {
        SweptIds(w.entries, o);
        var i :| 0 <= i < |w.entries| && Swept(w.entries[i]) && (o in w.entries[i].fields.buyOrders || o in w.entries[i].fields.sellOrders);
        OwnedByItsSession(w.entries[i], i, w.store, w.venue, o);
      }
    }
  }

  lemma SweptRetires(e: Entry, sid: Sid, store: Store, v: Venue)
    requires EntryInv(e, sid, store, v) && Mirrors(store, v) && Swept(e)
    ensures EntryInv(e.(removed := true), sid, store, v)
    ensures Contribution(e.(removed := true), v) == Contribution(e, v)
  {
    hide Budgeted;
    var e' := e.(removed := true);
    assert BuyLane(e') == BuyLane(e) && SellLane(e') == SellLane(e);
    OrdersKnown(e, sid, store, v);
  }

  lemma RemovedAnywhere(e: Entry, sid: Sid, store: Store, store': Store, v: Venue)
    requires EntryInv(e, sid, store, v) && e.removed
    ensures EntryInv(e, sid, store', v)
  {}

  lemma SweepKeeps(w: World)
    requires WorldInv(w)
    ensures WorldInv(w.(entries := Sweep(w.entries), store := w.store - SweptOrders(w.entries)))
  {
    hide Around, Budgeted, EntryInv, Contribution, VenueValid;
    var store' := w.store - SweptOrders(w.entries);
    var entries' := Sweep(w.entries);
    forall i | 0 <= i < |w.entries|
      ensures EntryInv(entries'[i], i, store', w.venue)
      ensures w.entries[i] in w.entries && Contribution(entries'[i], w.venue) == Contribution(w.entries[i], w.venue)
    {
      var e := w.entries[i];
      if Swept(e) {
        SweptRetires(e, i, w.store, w.venue);
        RemovedAnywhere(e.(removed := true), i, w.store, store', w.venue);
      } else {
        SweepIsAround(w, i, Buy, store');
        SweepIsAround(w, i, Sell, store');
        EntryAround(e, i, w.store, w.venue, store', w.venue);
      }
    }
    EntriesKnown(entries', store', w.venue);
    LedgerMoves(w.entries, entries', w.venue, w.venue, 0, 0);
  }

  // ----- all runs -----

  lemma InitialInv()
    ensures WorldInv(InitialWorld())
  {}

  lemma NextKeeps(w: World, s: Step)
    requires WorldInv(w) && Enabled(w, s)
    ensures WorldInv(Next(w, s))
  {
    hide Around, Budgeted, EntryInv, Accept, Refuse, CanAccept, Decide, Listen, Watch, Sound, Attributed, VenueValid;
    match s
    case Open(buyTotal) => OpenKeeps(w, buyTotal);
    case Deciding(sid, m) =>
      DecideIsSound(w.entries[sid], sid, w.store, w.venue, m);
      DecideAttributed(w.entries[sid].fields, sid, w.store, w.venue, m, |w.entries|);
      LandKeeps(w, sid, multiset{}, Decide(w.entries[sid].fields, sid, w.store, w.venue, m));
    case Listening(sid, rid, answer) =>
      ListenIsSound(w.entries[sid], sid, w.store, w.venue, rid, answer);
      ListenAttributed(w.entries[sid].fields, rid, w.store, w.venue, answer, |w.entries|);
      LandKeeps(w, sid, multiset{}, Listen(w.entries[sid].fields, rid, w.store, w.venue, answer));
    case Watching(sid, oid, verdict) =>
      WatchIsSound(w.entries[sid], sid, w.store, w.venue, oid, verdict);
      WatchAttributed(w.entries[sid].fields, sid, oid, w.store, w.venue, verdict, |w.entries|);
      LandKeeps(w, sid, multiset{oid}, Watch(w.entries[sid].fields, sid, oid, w.store, w.venue, verdict));
    case Accepting(rid, oid, first, last) => AcceptKeeps(w, rid, oid, first, last);
    case Refusing(rid, code) => RefuseKeeps(w, rid, code);
    case Evolving(oid, order) => EvolveKeeps(w, oid, order, w.store, Replace(w.venue, oid, order));
    case Syncing(oid) => SyncKeeps(w, oid);
    case CleaningUp => SweepKeeps(w);
    case Faulting =>
  }

  /** Every legal run from the start keeps the invariant. */
  lemma {:induction false} RunKeeps(w: World, run: seq<Step>)
    requires WorldInv(w) && Legal(w, run)
    ensures WorldInv(Run(w, run))
    decreases |run|
  {
    hide WorldInv, Enabled, Next;
    if run != [] {
      NextKeeps(w, run[0]);
      RunKeeps(Next(w, run[0]), run[1..]);
    }
  }

  lemma StoppedRun(w: World, run: seq<Step>)
    requires !w.status.Running? && Legal(w, run)
    ensures run == []
  {}

  lemma {:induction false} RunAppend(w: World, run: seq<Step>, s: Step)
    requires Legal(w, run) && Enabled(Run(w, run), s)
    ensures Legal(w, run + [s]) && Run(w, run + [s]) == Next(Run(w, run), s)
    decreases |run|
  {
    hide Enabled, Next;
    if run == [] {
      assert [s][1..] == [];
      assert run + [s] == [s];
    } else {
      assert (run + [s])[1..] == run[1..] + [s];
      RunAppend(Next(w, run[0]), run[1..], s);
    }
  }
}
