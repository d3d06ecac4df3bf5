/**
 What the invariant says about every run from an empty bot: one owner per session, no missing
 order, one-way phases, a budget, no overselling, an exact ledger.
 */
module SpreadTheorems {
  import opened Totals
  import opened Exchange
  import opened Lanes
  import opened Budgets
  import opened SpreadProtocol
  import opened SpreadInvariant
  import opened SpreadRuns

  /** The world after a run from the start. */
  ghost function Reached(run: seq<Step>): World
    requires Legal(InitialWorld(), run)
  {
    Run(InitialWorld(), run)
  }

  lemma ReachedInv(run: seq<Step>)
    requires Legal(InitialWorld(), run)
    ensures WorldInv(Reached(run))
  {
    InitialInv();
    RunKeeps(InitialWorld(), run);
  }

  /** A session that has not been cleaned up. */
  ghost predicate Managed(w: World, sid: Sid) {
    sid < |w.entries| && !w.entries[sid].removed
  }

  lemma ManagedIsReady(run: seq<Step>, sid: Sid)
    requires Legal(InitialWorld(), run) && Managed(Reached(run), sid)
    ensures var w := Reached(run); Ready(w.entries[sid], sid, w.store, w.venue)
  {
    hide EntryInv, Reached;
    ReachedInv(run);
  }

  // ----- one owner -----

  /** Everything that entitles a process to act on the session. */
  function OwnerCount(e: Entry): nat {
    var f := e.fields;
    (if f.needBuy then 1 else 0) + (if f.buyRid != 0 then 1 else 0)
    + (if f.needSell then 1 else 0) + (if f.sellRid != 0 then 1 else 0)
    + |e.watchers| + (if f.isDone then 1 else 0)
  }

  lemma OneOwner(e: Entry, sid: Sid, store: Store, v: Venue)
    requires Ready(e, sid, store, v)
    ensures OwnerCount(e) == 1
    ensures forall o | o in e.watchers ::
              && e.watchers == multiset{o}
              && if e.fields.completedBuys == 0
                 then o == e.fields.activeBuy && o in e.fields.buyOrders
                 else o == e.fields.activeSell && o in e.fields.sellOrders
  {
    hide Tracked, Waiting, Budgeted, VenueValid, Mirrors;
    forall o | o in e.watchers ensures e.watchers == multiset{o} {
      if e.fields.completedBuys == 0 { SoleOwner(BuyLane(e), o); } else { SoleOwner(SellLane(e), o); }
    }
  }

  /** At every moment exactly one of the need flags, the request ids, one watcher and the done
      flag owns a session, and a watcher watches the active order of its side. */
  lemma SingleOwner(run: seq<Step>, sid: Sid)
    requires Legal(InitialWorld(), run) && Managed(Reached(run), sid)
    ensures var e := Reached(run).entries[sid];
            && OwnerCount(e) == 1
            && forall o | o in e.watchers ::
                 && e.watchers == multiset{o}
                 && if e.fields.completedBuys == 0
                    then o == e.fields.activeBuy && o in e.fields.buyOrders
                    else o == e.fields.activeSell && o in e.fields.sellOrders
  {
    hide EntryInv, Reached;
    ManagedIsReady(run, sid);
    OneOwner(Reached(run).entries[sid], sid, Reached(run).store, Reached(run).venue);
  }

  /** A decider that may create an order finds the orders of the session, and for a sell the bought order. */
  lemma FlagSettles(w: World, sid: Sid)
    requires WorldInv(w) && Managed(w, sid)
    ensures var f := w.entries[sid].fields;
            && (f.needBuy ==> f.buyOrders <= w.store.Keys)
            && (f.needSell ==> f.sellOrders <= w.store.Keys && f.activeBuy in w.store)
  {
    hide Mirrors, VenueValid, Attributed, AllKnown, Ledger, Solvent;
    var e := w.entries[sid];
    assert EntryInv(e, sid, w.store, w.venue);
  }

  /** No process ever looks up an order that the store does not have. */
  lemma NeverPanics(run: seq<Step>)
    requires Legal(InitialWorld(), run)
    ensures !Reached(run).status.Panicked?
  {
    ReachedInv(run);
  }

  /** The phases are one-way: what belongs to the other side is empty, each side completes at most
      once, and the order that the selling session prices itself by is in the store. */
  lemma OneWayPhases(run: seq<Step>, sid: Sid)
    requires Legal(InitialWorld(), run) && Managed(Reached(run), sid)
    ensures var (e, store) := (Reached(run).entries[sid], Reached(run).store);
            var f := e.fields;
            && f.completedSells <= f.completedBuys <= 1
            && (f.isDone <==> f.completedSells == 1)
            && (f.completedBuys == 0 ==>
                  !f.needSell && f.sellRid == 0 && f.prevSell == 0 && f.activeSell == 0 && f.sellOrders == {})
            && (f.completedBuys == 1 ==>
                  !f.needBuy && f.buyRid == 0 && f.prevBuy == 0 && f.activeBuy in f.buyOrders
                  && Settled(f.buyOrders, store))
            && (f.prevBuy != 0 ==> f.prevBuy in f.buyOrders && f.prevBuy in store && store[f.prevBuy].state.Code() >= Active.Code())
            && (f.prevSell != 0 ==> f.prevSell in f.sellOrders && f.prevSell in store && store[f.prevSell].state.Code() >= Active.Code())
  {
    hide OwnRid, Waiting, Budgeted, VenueValid, Mirrors, Reached;
    ManagedIsReady(run, sid);
    var e := Reached(run).entries[sid];
    assert BuyLane(e).rid == e.fields.buyRid && SellLane(e).rid == e.fields.sellRid;
  }

  // ----- money -----

  /** What can still fill. */
  function Remainder(o: Order): int {
    Weight(o.side, o.price, if o.state.Final() then 0 else o.volume - o.filled)
  }

  ghost function Remainders(store: Store): map<nat, int> {
    map o | o in store :: Remainder(store[o])
  }

  lemma {:induction false} TotalSum(s: set<nat>, a: map<nat, int>, b: map<nat, int>, c: map<nat, int>)
    requires s <= a.Keys && s <= b.Keys && s <= c.Keys
    requires forall x | x in s :: c[x] == a[x] + b[x]
    ensures Total(s, c) == Total(s, a) + Total(s, b)
    decreases s
  {
    if s != {} {
      var x :| x in s;
      TotalPick(s, a, x);
      TotalPick(s, b, x);
      TotalPick(s, c, x);
      TotalSum(s - {x}, a, b, c);
    }
  }

  /** The exposure is what has been filled plus what can still fill. */
  lemma ExposureSplits(v: Venue, sid: Sid, side: Side)
    ensures Owned(v, sid, side) <= Truth(v).Keys
    ensures Exposure(v, sid, side)
            == Total(Owned(v, sid, side), FilledWeights(Truth(v))) + Total(Owned(v, sid, side), Remainders(Truth(v)))
  {
    var s := Owned(v, sid, side);
    forall o | o in s ensures Commitments(v)[o] == FilledWeights(Truth(v))[o] + Remainders(Truth(v))[o] {
      var order := v.orders[o].order;
      assert order.price * order.volume == order.price * order.filled + order.price * (order.volume - order.filled);
    }
    TotalSum(s, FilledWeights(Truth(v)), Remainders(Truth(v)), Commitments(v));
  }

  /** Buying stays within the total, but for the rounding of one volume at that order's limit price
      and the fills that were unseen when that order was sized. */
  lemma BudgetHolds(run: seq<Step>, sid: Sid)
    requires Legal(InitialWorld(), run) && sid < |Reached(run).entries|
    ensures var (v, cap) := (Reached(run).venue, Reached(run).entries[sid].fields.buyTotal);
            Owned(v, sid, Buy) == {} ||
            exists o :: OwnedBy(v, o, sid, Buy) && v.orders[o].drift >= 0
                        && Exposure(v, sid, Buy) as real <= cap + v.orders[o].req.price as real / 2.0 + v.orders[o].drift as real
  {
    hide Reached, Closed, Lanes.Open, VenueValid, Mirrors, BuyPhase, SellPhase, DonePhase, RemovedPhase, Exposure;
    ReachedInv(run);
    var w := Reached(run);
    assert Solvent(w.entries[sid], sid, w.venue);
    if Owned(w.venue, sid, Buy) != {} {
      var o :| Covers(w.venue, sid, Buy, w.entries[sid].fields.buyTotal, o);
    }
  }

  /** With all fills seen when sizing, half a unit at the highest limit price is all there is. */
  lemma BudgetWhenCurrent(run: seq<Step>, sid: Sid, highest: nat)
    requires Legal(InitialWorld(), run) && sid < |Reached(run).entries|
    requires var v := Reached(run).venue;
             forall o | OwnedBy(v, o, sid, Buy) :: v.orders[o].drift == 0 && v.orders[o].req.price <= highest
    ensures var (v, cap) := (Reached(run).venue, Reached(run).entries[sid].fields.buyTotal);
            Owned(v, sid, Buy) != {} ==> Exposure(v, sid, Buy) as real <= cap + highest as real / 2.0
  {
    hide Reached, Exposure;
    BudgetHolds(run, sid);
  }

  /** Selling never exceeds what was bought, but for fills unseen when sizing; and the volume to
      sell is exactly what the exchange filled on the buy side. */
  lemma NeverOversells(run: seq<Step>, sid: Sid)
    requires Legal(InitialWorld(), run) && Managed(Reached(run), sid)
    ensures var (v, f) := (Reached(run).venue, Reached(run).entries[sid].fields);
            && f.buyOrders <= Truth(v).Keys
            && (f.completedBuys == 1 ==> f.sellVolume == Total(f.buyOrders, Fills(Truth(v))))
            && (Owned(v, sid, Sell) == {} ||
                exists o :: OwnedBy(v, o, sid, Sell) && v.orders[o].drift >= 0
                            && Exposure(v, sid, Sell) <= f.sellVolume + v.orders[o].drift)
  {
    hide Reached, EntryInv, Exposure;
    ReachedInv(run);
    ManagedIsReady(run, sid);
    var w := Reached(run);
    var e := w.entries[sid];
    SellVolumeIsBought(e, sid, w.store, w.venue);
    if Owned(w.venue, sid, Sell) != {} {
      SomeOrderCovers(e, sid, w.store, w.venue);
    }
  }

  lemma SellVolumeIsBought(e: Entry, sid: Sid, store: Store, v: Venue)
    requires Ready(e, sid, store, v)
    ensures e.fields.buyOrders <= Truth(v).Keys
    ensures e.fields.completedBuys == 1 ==> e.fields.sellVolume == Total(e.fields.buyOrders, Fills(Truth(v)))
  {
    hide Waiting, OwnRid, Owners, Solvent;
    OrdersKnown(e, sid, store, v);
    if e.fields.completedBuys == 1 {
      ClosedFacts(BuyLane(e), sid, Buy, store, v);
      SettledIsTrue(e.fields.buyOrders, store, v);
    }
  }

  lemma SomeOrderCovers(e: Entry, sid: Sid, store: Store, v: Venue)
    requires EntryInv(e, sid, store, v) && Owned(v, sid, Sell) != {}
    ensures exists o :: OwnedBy(v, o, sid, Sell) && v.orders[o].drift >= 0
                        && Exposure(v, sid, Sell) <= e.fields.sellVolume + v.orders[o].drift
  {
    hide BuyPhase, SellPhase, DonePhase, RemovedPhase, Exposure;
    assert Solvent(e, sid, v);
    var o :| Covers(v, sid, Sell, e.fields.sellVolume as real, o);
  }

  /** When the exchange opens a sell order, the session's sold volume and remainder together are
      exactly its volume plus the unseen fills: it oversells if and only if there are any. */
  lemma OversellsExactlyByDrift(run: seq<Step>, rid: Rid, oid: Oid, first: State, last: Order)
    requires Legal(InitialWorld(), run) && CanAccept(Reached(run).venue, rid, oid, first, last)
    requires Reached(run).venue.pending[rid].side.Sell?
    ensures var w := Reached(run);
            var sid := w.venue.pending[rid].sid;
            var v' := Accept(w.venue, rid, oid, first, last);
            && sid < |w.entries| && v'.orders[oid].drift >= 0
            && Exposure(v', sid, Sell) == w.entries[sid].fields.sellVolume + v'.orders[oid].drift
            && (Exposure(v', sid, Sell) <= w.entries[sid].fields.sellVolume <==> v'.orders[oid].drift == 0)
  {
    hide Reached, Waiting, Tracked, Settled, EntryInv, Closed;
    ReachedInv(run);
    var w := Reached(run);
    var sid := w.venue.pending[rid].sid;
    assert Attributed(w.venue, |w.entries|);
    var e := w.entries[sid];
    Waiter(e, sid, w.store, w.venue, rid);
    ExposureAtAcceptance(SellLane(e), sid, Sell, w.store, w.venue, rid, oid, first, last);
    AcceptKeepsBudgeted(SellLane(e), sid, Sell, w.store, w.venue, rid, oid, first, last, e.fields.sellVolume as real);
    assert OwnedBy(Accept(w.venue, rid, oid, first, last), oid, sid, Sell);
  }

  /** When the exchange opens a buy order, what the session has spent and can still spend is its total
      plus the cost of the unseen fills, up to half a unit at the order's price either way: beyond
      rounding, the budget is exceeded by exactly what was not seen. */
  lemma OverspendsExactlyByDrift(run: seq<Step>, rid: Rid, oid: Oid, first: State, last: Order)
    requires Legal(InitialWorld(), run) && CanAccept(Reached(run).venue, rid, oid, first, last)
    requires Reached(run).venue.pending[rid].side.Buy?
    ensures var w := Reached(run);
            var req := w.venue.pending[rid];
            var v' := Accept(w.venue, rid, oid, first, last);
            && req.sid < |w.entries| && v'.orders[oid].drift >= 0
            && var beyond := Exposure(v', req.sid, Buy) as real - (w.entries[req.sid].fields.buyTotal + v'.orders[oid].drift as real);
               -(req.price as real / 2.0) <= beyond <= req.price as real / 2.0
  {
    hide Reached, Waiting, Tracked, Settled, EntryInv, Closed;
    ReachedInv(run);
    var w := Reached(run);
    var req := w.venue.pending[rid];
    assert Attributed(w.venue, |w.entries|);
    var e := w.entries[req.sid];
    Waiter(e, req.sid, w.store, w.venue, rid);
    ExposureAtAcceptance(BuyLane(e), req.sid, Buy, w.store, w.venue, rid, oid, first, last);
    AcceptKeepsBudgeted(BuyLane(e), req.sid, Buy, w.store, w.venue, rid, oid, first, last, e.fields.buyTotal);
    assert OwnedBy(Accept(w.venue, rid, oid, first, last), oid, req.sid, Buy);
  }

  /** The book's profit is, at every moment, what the completed sell sides earned minus what the
      completed buy sides cost, at the exchange's own figures and with cleaned-up sessions included. */
  lemma ProfitIsLedger(run: seq<Step>)
    requires Legal(InitialWorld(), run)
    ensures var w := Reached(run);
            AllKnown(w.entries, w.venue) && w.profit == Ledger(w.entries, w.venue)
  {
    ReachedInv(run);
  }
}
