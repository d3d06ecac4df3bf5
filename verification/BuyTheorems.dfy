/**
 What holds in every run of the buy strategy: no missing orders, no stalled session, a budget, and
 a book of bought cost and volume that counts every completed session exactly once.
 */
module BuyTheorems {
  import opened Exchange
  import opened Lanes
  import opened Budgets
  import opened BuySession
  import opened BuyProtocol
  import opened BuyInvariant
  import P = SpreadProtocol
  import S = SpreadInvariant
  import R = SpreadRuns

  ghost predicate AllKnown(entries: seq<Entry>, v: Venue) {
    forall e | e in entries :: e.fields.orders <= v.orders.Keys
  }

  /** What all sessions together have contributed. */
  ghost function Ledger(m: Measure, entries: seq<Entry>, v: Venue): int
    requires AllKnown(entries, v)
  {
    if entries == [] then 0 else Contribution(m, entries[0], v) + Ledger(m, entries[1..], v)
  }

  ghost predicate EntriesInv(entries: seq<Entry>, store: Store, v: Venue) {
    forall i | 0 <= i < |entries| :: EntryInv(entries[i], i, store, v)
  }

  ghost predicate WorldInv(w: World) {
    && !w.status.Panicked?
    && VenueValid(w.venue) && Mirrors(w.store, w.venue) && R.Attributed(w.venue, |w.entries|)
    && EntriesInv(w.entries, w.store, w.venue)
    && AllKnown(w.entries, w.venue)
    && w.boughtCost == Ledger(Cost, w.entries, w.venue) && w.boughtVolume == Ledger(Volume, w.entries, w.venue)
  }

  lemma EntriesKnown(entries: seq<Entry>, store: Store, v: Venue)
    requires EntriesInv(entries, store, v)
    ensures AllKnown(entries, v)
  {
    hide EntryInv;
    forall e | e in entries ensures e.fields.orders <= v.orders.Keys {
      var i :| 0 <= i < |entries| && entries[i] == e;
      OrdersKnown(e, i, store, v);
    }
  }

  lemma {:induction false} LedgerMoves(m: Measure, entries: seq<Entry>, entries': seq<Entry>, v: Venue, v': Venue, sid: int, delta: int)
    requires |entries'| == |entries| && AllKnown(entries, v) && AllKnown(entries', v')
    requires forall i | 0 <= i < |entries| ::
               Contribution(m, entries'[i], v') == Contribution(m, entries[i], v) + (if i == sid then delta else 0)
    ensures Ledger(m, entries', v') == Ledger(m, entries, v) + (if 0 <= sid < |entries| then delta else 0)
  {
    hide Contribution;
    if entries != [] {
      assert Contribution(m, entries'[0], v') == Contribution(m, entries[0], v) + (if 0 == sid then delta else 0);
      LedgerMoves(m, entries[1..], entries'[1..], v, v', sid - 1, delta);
    }
  }

  lemma {:induction false} LedgerGrows(m: Measure, entries: seq<Entry>, e: Entry, v: Venue)
    requires AllKnown(entries + [e], v) && AllKnown(entries, v)
    ensures Ledger(m, entries + [e], v) == Ledger(m, entries, v) + Contribution(m, e, v)
  {
    hide Contribution;
    if entries != [] {
      assert (entries + [e])[1..] == entries[1..] + [e];
      LedgerGrows(m, entries[1..], e, v);
    } else {
      assert (entries + [e])[1..] == [];
    }
  }

  // ----- steps -----

  lemma LandKeeps(w: World, sid: Sid, self: multiset<Oid>, oc: Outcome)
    requires WorldInv(w) && sid < |w.entries|
    requires Sound(w.entries[sid], sid, self, w.store, w.venue, oc)
    requires oc.Acts? ==> R.Attributed(oc.venue, |w.entries|)
    ensures WorldInv(Land(w, sid, self, oc))
  {
    hide Around, Budgeted, VenueValid, Mirrors, EntryInv, R.Attributed, Contribution;
    if oc.Acts? {
      var w' := Land(w, sid, self, oc);
      forall i | 0 <= i < |w.entries|
        ensures EntryInv(w'.entries[i], i, w'.store, w'.venue)
        ensures Books(w.entries[i], w.venue, w'.entries[i], w'.venue, if i == sid then oc.cost else 0, if i == sid then oc.volume else 0)
      {
        if i != sid {
          assert S.AroundBoth(i, w.store, w.venue, w'.store, w'.venue);
          EntryAround(w.entries[i], i, w.store, w.venue, w'.store, w'.venue);
        }
      }
      EntriesKnown(w'.entries, w'.store, w'.venue);
      LedgerMoves(Cost, w.entries, w'.entries, w.venue, w'.venue, sid, oc.cost);
      LedgerMoves(Volume, w.entries, w'.entries, w.venue, w'.venue, sid, oc.volume);
    }
  }

  lemma DecideAttributed(f: Fields, sid: Sid, store: Store, v: Venue, m: P.Market, n: nat)
    requires R.Attributed(v, n) && sid < n && (m.buyOpen ==> m.price > 0)
    ensures Decide(f, sid, store, v, m).Acts? ==> R.Attributed(Decide(f, sid, store, v, m).venue, n)
  {
    hide BoughtCost;
  }

  lemma ListenAttributed(f: Fields, rid: Rid, store: Store, v: Venue, answer: P.CancelAnswer, n: nat)
    requires R.Attributed(v, n) && rid in v.replies && P.LegalCancel(v, f.prev, answer)
    ensures Listen(f, rid, store, v, answer).Acts? ==> R.Attributed(Listen(f, rid, store, v, answer).venue, n)
  {}

  lemma WatchAttributed(f: Fields, sid: Sid, oid: Oid, store: Store, v: Venue, verdict: P.Verdict, n: nat)
    requires R.Attributed(v, n) && sid < n
    requires verdict.Withdraw? ==> P.LegalCancel(v, oid, verdict.answer)
    requires verdict.Reprice? ==> verdict.price > 0
    ensures Watch(f, sid, oid, store, v, verdict).Acts? ==> R.Attributed(Watch(f, sid, oid, store, v, verdict).venue, n)
  {
    hide BoughtCost, BoughtVolume;
  }

  /** Steps of the exchange: every session stays sound and contributes the same. */
  lemma ExchangeKeeps(w: World, store': Store, v': Venue)
    requires WorldInv(w)
    requires VenueValid(v') && Mirrors(store', v') && R.Attributed(v', |w.entries|)
    requires forall i | 0 <= i < |w.entries| ::
               EntryInv(w.entries[i], i, store', v') && Books(w.entries[i], w.venue, w.entries[i], v', 0, 0)
    ensures WorldInv(w.(store := store', venue := v'))
  {
    hide Budgeted, VenueValid, Mirrors, EntryInv, R.Attributed, Contribution;
    EntriesKnown(w.entries, store', v');
    LedgerMoves(Cost, w.entries, w.entries, w.venue, v', 0, 0);
    LedgerMoves(Volume, w.entries, w.entries, w.venue, v', 0, 0);
  }

  lemma EvolveKeeps(w: World, oid: Oid, o: Order, store': Store, v': Venue)
    requires WorldInv(w) && oid in w.venue.orders && Evolves(w.venue.orders[oid].order, o)
    requires v' == Replace(w.venue, oid, o) && (store' == w.store || store' == w.store[oid := o])
    ensures WorldInv(w.(store := store', venue := v'))
  {
    hide Around, Budgeted, EntryInv, Contribution;
    forall i | 0 <= i < |w.entries|
      ensures EntryInv(w.entries[i], i, store', v') && Books(w.entries[i], w.venue, w.entries[i], v', 0, 0)
    {
      EvolveIsAround(i, Buy, w.store, w.venue, oid, o, store');
      EntryAround(w.entries[i], i, w.store, w.venue, store', v');
    }
    EvolveIsAround(0, Buy, w.store, w.venue, oid, o, store');
    assert VenueValid(v') && R.Attributed(v', |w.entries|);
    ExchangeKeeps(w, store', v');
  }

  lemma SyncKeeps(w: World, oid: Oid)
    requires WorldInv(w) && oid in w.venue.orders
    ensures WorldInv(w.(store := w.store[oid := w.venue.orders[oid].order]))
  {
    var o := w.venue.orders[oid].order;
    assert Evolves(o, o) by { hide EntryInv, Mirrors; }
    assert Replace(w.venue, oid, o) == w.venue;
    EvolveKeeps(w, oid, o, w.store[oid := o], w.venue);
  }

  /** The answer to a session's own request leaves it waiting for the reply. */
  lemma OwnAnswer(e: Entry, sid: Sid, store: Store, v: Venue, rid: Rid)
    requires Ready(e, sid, store, v) && rid in v.pending && From(v.pending[rid], sid, Buy)
    ensures !e.fields.isDone && e.fields.rid == rid && Sane(LaneOf(e), sid, Buy, store, v, e.fields.buyTotal)
  {
    hide Mirrors, Budgeted, Waiting, Settled;
  }

  lemma AcceptOwn(e: Entry, sid: Sid, store: Store, v: Venue, rid: Rid, oid: Oid, first: State, last: Order)
    requires Ready(e, sid, store, v) && CanAccept(v, rid, oid, first, last) && From(v.pending[rid], sid, Buy)
    ensures var v' := Accept(v, rid, oid, first, last); EntryInv(e, sid, store, v') && Books(e, v, e, v', 0, 0)
  {
    hide Around, Budgeted, Lanes.Open, Closed, VenueValid, Mirrors, Tracked;
    OwnAnswer(e, sid, store, v, rid);
    AcceptKeepsOpen(LaneOf(e), sid, Buy, store, v, rid, oid, first, last);
    AcceptKeepsBudgeted(LaneOf(e), sid, Buy, store, v, rid, oid, first, last, e.fields.buyTotal);
    OrdersKnown(e, sid, store, v);
    OrdersKnown(e, sid, store, Accept(v, rid, oid, first, last));
  }

  lemma RefuseOwn(e: Entry, sid: Sid, store: Store, v: Venue, rid: Rid, code: ErrorCode)
    requires Ready(e, sid, store, v) && rid in v.pending && From(v.pending[rid], sid, Buy)
    ensures var v' := Refuse(v, rid, code); EntryInv(e, sid, store, v') && Books(e, v, e, v', 0, 0)
  {
    hide Around, Budgeted, Lanes.Open, Closed, VenueValid, Mirrors, Tracked;
    var v' := Refuse(v, rid, code);
    OwnAnswer(e, sid, store, v, rid);
    RefuseKeepsOpen(LaneOf(e), sid, Buy, store, v, rid, code);
    BudgetedIdle(LaneOf(e), LaneOf(e), sid, Buy, v, v', e.fields.buyTotal);
    OrdersKnown(e, sid, store, v);
    OrdersKnown(e, sid, store, v');
  }

  lemma AcceptKeeps(w: World, rid: Rid, oid: Oid, first: State, last: Order)
    requires WorldInv(w) && CanAccept(w.venue, rid, oid, first, last)
    ensures WorldInv(w.(venue := Accept(w.venue, rid, oid, first, last)))
  {
    hide Around, Budgeted, EntryInv, EndTarget, Contribution;
    var v' := Accept(w.venue, rid, oid, first, last);
    AcceptIsValid(w.store, w.venue, rid, oid, first, last);
    forall i | 0 <= i < |w.entries|
      ensures EntryInv(w.entries[i], i, w.store, v') && Books(w.entries[i], w.venue, w.entries[i], v', 0, 0)
    {
      if From(w.venue.pending[rid], i, Buy) {
        AcceptOwn(w.entries[i], i, w.store, w.venue, rid, oid, first, last);
      } else {
        AcceptIsAround(i, Buy, w.store, w.venue, rid, oid, first, last);
        EntryAround(w.entries[i], i, w.store, w.venue, w.store, v');
      }
    }
    AttributedAccept(w.venue, rid, oid, first, last, |w.entries|);
    ExchangeKeeps(w, w.store, v');
  }

  lemma AttributedAccept(v: Venue, rid: Rid, oid: Oid, first: State, last: Order, n: nat)
    requires R.Attributed(v, n) && CanAccept(v, rid, oid, first, last)
    ensures R.Attributed(Accept(v, rid, oid, first, last), n)
  {}

  lemma RefuseKeeps(w: World, rid: Rid, code: ErrorCode)
    requires WorldInv(w) && rid in w.venue.pending
    ensures WorldInv(w.(venue := Refuse(w.venue, rid, code)))
  {
    hide Around, Budgeted, EntryInv, Contribution;
    var v' := Refuse(w.venue, rid, code);
    forall i | 0 <= i < |w.entries|
      ensures EntryInv(w.entries[i], i, w.store, v') && Books(w.entries[i], w.venue, w.entries[i], v', 0, 0)
    {
      if From(w.venue.pending[rid], i, Buy) {
        RefuseOwn(w.entries[i], i, w.store, w.venue, rid, code);
      } else {
        RefuseIsAround(i, Buy, w.store, w.venue, rid, code);
        EntryAround(w.entries[i], i, w.store, w.venue, w.store, v');
      }
    }
    RefuseIsAround(0, Buy, w.store, w.venue, rid, code);
    assert R.Attributed(v', |w.entries|);
    ExchangeKeeps(w, w.store, v');
  }

  lemma NewEntry(sid: Sid, store: Store, v: Venue, n: nat, buyTotal: real)
    requires VenueValid(v) && R.Attributed(v, n) && sid == n
    ensures EntryInv(Entry(NewFields(buyTotal), multiset{}), sid, store, v)
  {
    var l := LaneOf(Entry(NewFields(buyTotal), multiset{}));
    assert Tracked(l, sid, Buy, store, v);
    S.NothingOwned(l, sid, Buy, store, v, buyTotal);
  }

  lemma OpenKeeps(w: World, buyTotal: real)
    requires WorldInv(w)
    ensures WorldInv(w.(entries := w.entries + [Entry(NewFields(buyTotal), multiset{})]))
  {
    hide Around, Budgeted, EntryInv;
    var e := Entry(NewFields(buyTotal), multiset{});
    NewEntry(|w.entries|, w.store, w.venue, |w.entries|, buyTotal);
    var entries' := w.entries + [e];
    assert EntriesInv(entries', w.store, w.venue);
    EntriesKnown(entries', w.store, w.venue);
    LedgerGrows(Cost, w.entries, e, w.venue);
    LedgerGrows(Volume, w.entries, e, w.venue);
  }

  lemma NextKeeps(w: World, s: Step)
    requires WorldInv(w) && Enabled(w, s)
    ensures WorldInv(Next(w, s))
  {
    hide Around, Budgeted, EntryInv, Accept, Refuse, CanAccept, Decide, Listen, Watch, Sound, R.Attributed, VenueValid;
    match s
    case Open(buyTotal) => OpenKeeps(w, buyTotal);
    case Deciding(sid, m) =>
      DecideIsSound(w.entries[sid], sid, w.store, w.venue, m);
      DecideAttributed(w.entries[sid].fields, sid, w.store, w.venue, m, |w.entries|);
      LandKeeps(w, sid, multiset{}, Decide(w.entries[sid].fields, sid, w.store, w.venue, m));
    case Listening(sid, rid, answer) =>
      ListenIsSound(w.entries[sid], sid, w.store, w.venue, rid, answer);
      ListenAttributed(w.entries[sid].fields, rid, w.store, w.venue, answer, |w.entries|);
      LandKeeps(w, sid, multiset{}, Listen(w.entries[sid].fields, rid, w.store, w.venue, answer));
    case Watching(sid, oid, verdict) =>
      WatchIsSound(w.entries[sid], sid, w.store, w.venue, oid, verdict);
      WatchAttributed(w.entries[sid].fields, sid, oid, w.store, w.venue, verdict, |w.entries|);
      LandKeeps(w, sid, multiset{oid}, Watch(w.entries[sid].fields, sid, oid, w.store, w.venue, verdict));
    case Accepting(rid, oid, first, last) => AcceptKeeps(w, rid, oid, first, last);
    case Refusing(rid, code) => RefuseKeeps(w, rid, code);
    case Evolving(oid, order) => EvolveKeeps(w, oid, order, w.store, Replace(w.venue, oid, order));
    case Syncing(oid) => SyncKeeps(w, oid);
    case Faulting =>
  }

  lemma InitialInv()
    ensures WorldInv(InitialWorld())
  {}

  lemma {:induction false} RunKeeps(w: World, run: seq<Step>)
    requires WorldInv(w) && Legal(w, run)
    ensures WorldInv(Run(w, run))
    decreases |run|
  {
    hide WorldInv, Enabled, Next;
    if run != [] {
      NextKeeps(w, run[0]);
      RunKeeps(Next(w, run[0]), run[1..]);
    }
  }

  // ----- theorems over all runs -----

  ghost function Reached(run: seq<Step>): World
    requires Legal(InitialWorld(), run)
  {
    Run(InitialWorld(), run)
  }

  lemma ReachedInv(run: seq<Step>)
    requires Legal(InitialWorld(), run)
    ensures WorldInv(Reached(run))
  {
    InitialInv();
    RunKeeps(InitialWorld(), run);
  }

  lemma NeverPanics(run: seq<Step>)
    requires Legal(InitialWorld(), run)
    ensures !Reached(run).status.Panicked?
  {
    ReachedInv(run);
  }

  /** A session is either done, or exactly one of need flag, outstanding request and watcher owns it:
      unlike the spread strategy's buy side it can never stall. */
  lemma NeverStalls(run: seq<Step>, sid: Sid)
    requires Legal(InitialWorld(), run) && sid < |Reached(run).entries|
    ensures var (e, v) := (Reached(run).entries[sid], Reached(run).venue);
            && (e.fields.rid != 0 ==> e.fields.rid in v.pending || e.fields.rid in v.replies)
            && (if e.fields.isDone then 1 else 0) + (if e.fields.need then 1 else 0) + (if e.fields.rid != 0 then 1 else 0) + |e.watchers| == 1
            && (e.fields.completed == if e.fields.isDone then 1 else 0)
            && (forall o | o in e.watchers :: e.watchers == multiset{o} && o == e.fields.active && o in e.fields.orders)
  {
    hide Tracked, Waiting, Budgeted, VenueValid, Mirrors, Reached;
    ReachedInv(run);
    var e := Reached(run).entries[sid];
    assert EntryInv(e, sid, Reached(run).store, Reached(run).venue);
    forall o | o in e.watchers ensures e.watchers == multiset{o} {
      SoleOwner(LaneOf(e), o);
    }
  }

  /** Buying stays within the total, but for one rounding and the fills unseen when sizing. */
  lemma BudgetHolds(run: seq<Step>, sid: Sid)
    requires Legal(InitialWorld(), run) && sid < |Reached(run).entries|
    ensures var (v, cap) := (Reached(run).venue, Reached(run).entries[sid].fields.buyTotal);
            Owned(v, sid, Buy) == {} ||
            exists o :: OwnedBy(v, o, sid, Buy) && v.orders[o].drift >= 0
                        && Exposure(v, sid, Buy) as real <= cap + v.orders[o].req.price as real / 2.0 + v.orders[o].drift as real
  {
    hide Reached, Closed, Lanes.Open, VenueValid, Mirrors, Exposure;
    ReachedInv(run);
    var w := Reached(run);
    assert EntryInv(w.entries[sid], sid, w.store, w.venue);
    if Owned(w.venue, sid, Buy) != {} {
      var o :| Covers(w.venue, sid, Buy, w.entries[sid].fields.buyTotal, o);
    }
  }

  /** When the exchange opens an order, what the session has spent and can still spend is its total plus
      the cost of the unseen fills, up to half a unit at the order's price either way. */
  lemma OverspendsExactlyByDrift(run: seq<Step>, rid: Rid, oid: Oid, first: State, last: Order)
    requires Legal(InitialWorld(), run) && CanAccept(Reached(run).venue, rid, oid, first, last)
    requires Reached(run).venue.pending[rid].side.Buy?
    ensures var w := Reached(run);
            var req := w.venue.pending[rid];
            var v' := Accept(w.venue, rid, oid, first, last);
            && req.sid < |w.entries| && v'.orders[oid].drift >= 0
            && var beyond := Exposure(v', req.sid, Buy) as real - (w.entries[req.sid].fields.buyTotal + v'.orders[oid].drift as real);
               -(req.price as real / 2.0) <= beyond <= req.price as real / 2.0
  {
    hide Reached, Waiting, Tracked, Settled, Closed;
    ReachedInv(run);
    var w := Reached(run);
    var req := w.venue.pending[rid];
    assert R.Attributed(w.venue, |w.entries|);
    var e := w.entries[req.sid];
    OwnAnswer(e, req.sid, w.store, w.venue, rid);
    ExposureAtAcceptance(LaneOf(e), req.sid, Buy, w.store, w.venue, rid, oid, first, last);
    AcceptKeepsBudgeted(LaneOf(e), req.sid, Buy, w.store, w.venue, rid, oid, first, last, e.fields.buyTotal);
    assert OwnedBy(Accept(w.venue, rid, oid, first, last), oid, req.sid, Buy);
  }

  /** The book's bought cost and bought volume are, at every moment, exactly those of the completed
      sessions' orders at the exchange. */
  lemma BookIsLedger(run: seq<Step>)
    requires Legal(InitialWorld(), run)
    ensures var w := Reached(run);
            && AllKnown(w.entries, w.venue)
            && w.boughtCost == Ledger(Cost, w.entries, w.venue) && w.boughtVolume == Ledger(Volume, w.entries, w.venue)
  {
    ReachedInv(run);
  }
}
