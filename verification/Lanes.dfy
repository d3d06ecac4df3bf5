/**
 One side of a trading session: a need flag, a request id, or one watcher of a live order.
 Exactly one of the three holds the right to act; the lane's invariant says what each of them
 may rely on. The buy side and the sell side of a spread session and the whole buy strategy
 are lanes.
 */
module Lanes {
  import opened Exchange

  datatype Lane = Lane(need: bool, rid: Rid, prev: Oid, active: Oid, orders: set<Oid>, watchers: multiset<Oid>)

  /** How many holders of the right to act there are. */
  function Owners(l: Lane): nat {
    (if l.need then 1 else 0) + (if l.rid != 0 then 1 else 0) + |l.watchers|
  }

  /** The request that a lane waits for, whether or not it has been answered. */
  predicate Awaits(l: Lane, v: Venue) {
    l.rid != 0 && (l.rid in v.pending || l.rid in v.replies)
  }

  /** A set request id that nobody will ever answer. */
  predicate Stalled(l: Lane, v: Venue) {
    l.rid != 0 && !Awaits(l, v)
  }

  /** The lane's request id names the lane's only request, and never comes to name another's. */
  ghost predicate OwnRid(l: Lane, sid: Sid, side: Side, v: Venue) {
    && l.rid < v.nextRid
    && (forall r | r in v.pending && From(v.pending[r], sid, side) :: r == l.rid)
    && (forall r | r in v.replies && From(v.replies[r].0, sid, side) :: r == l.rid)
    && (l.rid in v.pending ==> From(v.pending[l.rid], sid, side))
    && (l.rid in v.replies ==> From(v.replies[l.rid].0, sid, side))
  }

  /** The lane knows all its orders and all its requests. */
  ghost predicate Tracked(l: Lane, sid: Sid, side: Side, store: Store, v: Venue) {
    && OwnRid(l, sid, side, v)
    && (forall o | o in l.orders :: OwnedBy(v, o, sid, side))
    && (forall o | OwnedBy(v, o, sid, side) ::
          o in l.orders || (l.rid in v.replies && v.replies[l.rid].1 == Created(o)))
    && (l.prev != 0 ==> l.prev in l.orders && l.prev in store && store[l.prev].state.Code() >= Active.Code())
  }

  /** An outstanding request is the lane's own; an alter is aimed at the previous order. */
  ghost predicate Aimed(l: Lane, req: Request, sid: Sid, side: Side, store: Store) {
    && From(req, sid, side)
    && (req.target == 0 ==> Settled(l.orders, store))
    && (req.target != 0 ==> req.target == l.prev && l.prev in l.orders && Settled(l.orders - {l.prev}, store))
  }

  ghost predicate Waiting(l: Lane, sid: Sid, side: Side, store: Store, v: Venue) {
    && l.orders <= store.Keys
    && (l.rid in v.pending ==> Aimed(l, v.pending[l.rid], sid, side, store))
    && (l.rid in v.replies ==>
          var (req, reply) := v.replies[l.rid];
          && Aimed(l, req, sid, side, store)
          && (reply.Created? ==>
                && reply.oid !in l.orders && OwnedBy(v, reply.oid, sid, side)
                && (req.target != 0 ==> req.target in v.orders && v.orders[req.target].order.state.Final())))
    && (Stalled(l, v) ==> Settled(l.orders, store))
  }

  ghost predicate Open(l: Lane, sid: Sid, side: Side, store: Store, v: Venue) {
    && Tracked(l, sid, side, store, v)
    && Owners(l) == 1
    && (l.need ==> Settled(l.orders, store))
    && (l.rid != 0 ==> Waiting(l, sid, side, store, v))
    && (forall o | o in l.watchers ::
          o == l.active && o in l.orders && o != 0 && Settled(l.orders - {o}, store))
  }

  ghost predicate Closed(l: Lane, sid: Sid, side: Side, store: Store, v: Venue) {
    Tracked(l, sid, side, store, v) && Owners(l) == 0 && Settled(l.orders, store)
  }

  // ----- what the rest of the world may do around a lane -----

  ghost predicate OrdersAround(sid: Sid, side: Side, v: Venue, v': Venue) {
    && (forall o | OwnedBy(v, o, sid, side) :: o in v'.orders && EvolvesLive(v.orders[o], v'.orders[o]))
    && (forall o | OwnedBy(v', o, sid, side) :: OwnedBy(v, o, sid, side))
  }

  ghost predicate EvolvesLive(a: Live, b: Live) {
    b.req == a.req && b.drift == a.drift && Evolves(a.order, b.order)
  }

  ghost predicate StoreAround(sid: Sid, side: Side, store: Store, v: Venue, store': Store) {
    forall o | o in store && OwnedBy(v, o, sid, side) :: o in store' && Evolves(store[o], store'[o])
  }

  ghost predicate RequestsAround(sid: Sid, side: Side, v: Venue, v': Venue) {
    && v.nextRid <= v'.nextRid
    && (forall r | r in v.pending && From(v.pending[r], sid, side) :: r in v'.pending)
    && (forall r | r in v'.pending :: (r >= v.nextRid && !From(v'.pending[r], sid, side)) || (r in v.pending && v.pending[r] == v'.pending[r]))
    && (forall r | r in v.replies && From(v.replies[r].0, sid, side) :: r in v'.replies)
    && (forall r | r in v'.replies :: (r in v.replies && v'.replies[r] == v.replies[r])
                                      || (r in v.pending && v.pending[r] == v'.replies[r].0)
                                      || (r >= v.nextRid && !From(v'.replies[r].0, sid, side)))
  }

  /** The exchange and everybody else only let the orders of a lane evolve and leave its requests alone. */
  ghost predicate Around(sid: Sid, side: Side, store: Store, v: Venue, store': Store, v': Venue) {
    && VenueValid(v) && VenueValid(v')
    && OrdersAround(sid, side, v, v')
    && StoreAround(sid, side, store, v, store')
    && RequestsAround(sid, side, v, v')
  }

  lemma RequestsStay(l: Lane, sid: Sid, side: Side, v: Venue, v': Venue)
    requires VenueValid(v) && VenueValid(v') && RequestsAround(sid, side, v, v')
    requires OwnRid(l, sid, side, v)
    ensures OwnRid(l, sid, side, v')
    ensures l.rid in v.pending <==> l.rid in v'.pending
    ensures l.rid in v.pending ==> v'.pending[l.rid] == v.pending[l.rid]
    ensures l.rid in v.replies <==> l.rid in v'.replies
    ensures l.rid in v.replies ==> v'.replies[l.rid] == v.replies[l.rid]
  {}

  lemma SettledStays(orders: set<Oid>, sid: Sid, side: Side, store: Store, v: Venue, store': Store)
    requires Settled(orders, store) && StoreAround(sid, side, store, v, store')
    requires forall o | o in orders :: OwnedBy(v, o, sid, side)
    ensures Settled(orders, store')
  {}

  lemma TrackedAround(l: Lane, sid: Sid, side: Side, store: Store, v: Venue, store': Store, v': Venue)
    requires Tracked(l, sid, side, store, v) && Around(sid, side, store, v, store', v')
    ensures Tracked(l, sid, side, store', v')
  {
    RequestsStay(l, sid, side, v, v');
  }

  lemma OpenAround(l: Lane, sid: Sid, side: Side, store: Store, v: Venue, store': Store, v': Venue)
    requires Open(l, sid, side, store, v) && Around(sid, side, store, v, store', v')
    ensures Open(l, sid, side, store', v')
  {
    hide RequestsAround, VenueValid;
    TrackedAround(l, sid, side, store, v, store', v');
    RequestsStay(l, sid, side, v, v');
    forall s | s <= l.orders && Settled(s, store) ensures Settled(s, store') {
      SettledStays(s, sid, side, store, v, store');
    }
    if l.rid != 0 {
      assert l.orders <= store'.Keys;
      assert Waiting(l, sid, side, store', v');
    }
  }

  lemma ClosedAround(l: Lane, sid: Sid, side: Side, store: Store, v: Venue, store': Store, v': Venue)
    requires Closed(l, sid, side, store, v) && Around(sid, side, store, v, store', v')
    ensures Closed(l, sid, side, store', v')
  {
    TrackedAround(l, sid, side, store, v, store', v');
    SettledStays(l.orders, sid, side, store, v, store');
  }

  // ----- steps of the exchange that every lane survives -----

  lemma EvolveIsValid(store: Store, v: Venue, oid: Oid, o: Order, store': Store)
    requires VenueValid(v) && Mirrors(store, v)
    requires oid in v.orders && Evolves(v.orders[oid].order, o)
    requires store' == store || store' == store[oid := o]
    ensures VenueValid(Replace(v, oid, o)) && Mirrors(store', Replace(v, oid, o))
  {}

  lemma EvolveStoreAround(sid: Sid, side: Side, store: Store, v: Venue, oid: Oid, o: Order, store': Store)
    requires Mirrors(store, v) && oid in v.orders && Evolves(v.orders[oid].order, o)
    requires store' == store || store' == store[oid := o]
    ensures StoreAround(sid, side, store, v, store')
  {}

  lemma EvolveVenueAround(sid: Sid, side: Side, v: Venue, oid: Oid, o: Order)
    requires VenueValid(v) && oid in v.orders && Evolves(v.orders[oid].order, o)
    ensures OrdersAround(sid, side, v, Replace(v, oid, o)) && RequestsAround(sid, side, v, Replace(v, oid, o))
  {}

  /** An order moves on at the exchange, and the store may or may not hear of it. */
  lemma EvolveIsAround(sid: Sid, side: Side, store: Store, v: Venue, oid: Oid, o: Order, store': Store)
    requires VenueValid(v) && Mirrors(store, v)
    requires oid in v.orders && Evolves(v.orders[oid].order, o)
    requires store' == store || store' == store[oid := o]
    ensures Mirrors(store', Replace(v, oid, o))
    ensures Around(sid, side, store, v, store', Replace(v, oid, o))
  {
    hide VenueValid, Mirrors, StoreAround, OrdersAround, RequestsAround;
    EvolveIsValid(store, v, oid, o, store');
    EvolveStoreAround(sid, side, store, v, oid, o, store');
    EvolveVenueAround(sid, side, v, oid, o);
  }

  lemma SendIsAround(sid: Sid, side: Side, store: Store, v: Venue, req: Request)
    requires VenueValid(v) && Mirrors(store, v) && !From(req, sid, side)
    ensures Around(sid, side, store, v, store, Send(v, req))
  {}

  lemma TakeReplyIsAround(sid: Sid, side: Side, store: Store, v: Venue, rid: Rid)
    requires VenueValid(v) && Mirrors(store, v) && (rid in v.replies ==> !From(v.replies[rid].0, sid, side))
    ensures Around(sid, side, store, v, store, TakeReply(v, rid))
  {}

  lemma AcceptIsValid(store: Store, v: Venue, rid: Rid, oid: Oid, first: State, last: Order)
    requires VenueValid(v) && Mirrors(store, v) && CanAccept(v, rid, oid, first, last)
    ensures VenueValid(Accept(v, rid, oid, first, last)) && Mirrors(store, Accept(v, rid, oid, first, last))
  {}

  lemma AcceptOrdersAround(sid: Sid, side: Side, v: Venue, rid: Rid, oid: Oid, first: State, last: Order)
    requires VenueValid(v) && CanAccept(v, rid, oid, first, last) && !From(v.pending[rid], sid, side)
    ensures OrdersAround(sid, side, v, Accept(v, rid, oid, first, last))
  {}

  lemma AcceptRequestsAround(sid: Sid, side: Side, v: Venue, rid: Rid, oid: Oid, first: State, last: Order)
    requires VenueValid(v) && CanAccept(v, rid, oid, first, last) && !From(v.pending[rid], sid, side)
    ensures RequestsAround(sid, side, v, Accept(v, rid, oid, first, last))
  {}

  lemma StoreUntouched(sid: Sid, side: Side, store: Store, v: Venue)
    requires Mirrors(store, v)
    ensures StoreAround(sid, side, store, v, store)
  {}

  lemma AcceptIsAround(sid: Sid, side: Side, store: Store, v: Venue, rid: Rid, oid: Oid, first: State, last: Order)
    requires VenueValid(v) && Mirrors(store, v) && CanAccept(v, rid, oid, first, last)
    requires !From(v.pending[rid], sid, side)
    ensures Around(sid, side, store, v, store, Accept(v, rid, oid, first, last))
  {
    AcceptIsValid(store, v, rid, oid, first, last);
    AcceptOrdersAround(sid, side, v, rid, oid, first, last);
    AcceptRequestsAround(sid, side, v, rid, oid, first, last);
    StoreUntouched(sid, side, store, v);
  }

  lemma RefuseIsAround(sid: Sid, side: Side, store: Store, v: Venue, rid: Rid, code: ErrorCode)
    requires VenueValid(v) && Mirrors(store, v) && rid in v.pending
    ensures VenueValid(Refuse(v, rid, code))
    ensures !From(v.pending[rid], sid, side) ==> Around(sid, side, store, v, store, Refuse(v, rid, code))
  {}

  // ----- answers to the lane's own request -----

  lemma AcceptKeepsOpen(l: Lane, sid: Sid, side: Side, store: Store, v: Venue,
                        rid: Rid, oid: Oid, first: State, last: Order)
    requires VenueValid(v) && Mirrors(store, v) && CanAccept(v, rid, oid, first, last)
    requires Open(l, sid, side, store, v) && From(v.pending[rid], sid, side)
    ensures Open(l, sid, side, store, Accept(v, rid, oid, first, last))
  {
    var v' := Accept(v, rid, oid, first, last);
    var req := v.pending[rid];
    assert rid == l.rid && oid !in l.orders;
    assert forall o | o in l.orders :: OwnedBy(v', o, sid, side);
    assert Waiting(l, sid, side, store, v');
  }

  lemma RefuseKeepsOpen(l: Lane, sid: Sid, side: Side, store: Store, v: Venue, rid: Rid, code: ErrorCode)
    requires VenueValid(v) && Open(l, sid, side, store, v)
    requires rid in v.pending && From(v.pending[rid], sid, side)
    ensures Open(l, sid, side, store, Refuse(v, rid, code))
  {
    assert Waiting(l, sid, side, store, Refuse(v, rid, code));
  }

  // ----- steps of the lane's own processes -----

  /** The decider creates an order: the need flag becomes a request id. */
  lemma CreateKeepsOpen(l: Lane, sid: Sid, side: Side, store: Store, v: Venue, req: Request)
    requires VenueValid(v) && Open(l, sid, side, store, v) && l.need
    requires From(req, sid, side) && req.target == 0
    ensures Open(l.(need := false, rid := v.nextRid), sid, side, store, Send(v, req))
  {
    assert Waiting(l.(need := false, rid := v.nextRid), sid, side, store, Send(v, req));
  }

  /** The watcher moves its order: it leaves and a request id takes over. */
  lemma MoveKeepsOpen(l: Lane, sid: Sid, side: Side, store: Store, v: Venue, oid: Oid, req: Request)
    requires VenueValid(v) && Open(l, sid, side, store, v) && oid in l.watchers
    requires oid in store && store[oid].state.Code() >= Active.Code()
    requires From(req, sid, side) && req.target == oid
    ensures Open(l.(prev := oid, rid := v.nextRid, watchers := l.watchers - multiset{oid}), sid, side, store, Send(v, req))
  {
    var l' := l.(prev := oid, rid := v.nextRid, watchers := l.watchers - multiset{oid});
    SoleOwner(l, oid);
    assert l.orders <= store.Keys by {
      forall o | o in l.orders ensures o in store {
        if o != oid { assert o in l.orders - {oid}; }
      }
    }
    assert Waiting(l', sid, side, store, Send(v, req));
  }

  /** The listener learns the order's id: the request id becomes a watcher. */
  lemma OpenedKeepsOpen(l: Lane, sid: Sid, side: Side, store: Store, v: Venue)
    requires VenueValid(v) && Mirrors(store, v) && Open(l, sid, side, store, v)
    requires l.rid in v.replies && v.replies[l.rid].1.Created?
    requires var t := v.replies[l.rid].0.target; t != 0 ==> t in store && t in v.orders && store[t] == v.orders[t].order
    ensures var oid := v.replies[l.rid].1.oid;
            Open(l.(rid := 0, active := oid, orders := l.orders + {oid}, watchers := l.watchers + multiset{oid}),
                 sid, side, store, TakeReply(v, l.rid))
  {
    var (req, reply) := v.replies[l.rid];
    var l' := l.(rid := 0, active := reply.oid, orders := l.orders + {reply.oid}, watchers := l.watchers + multiset{reply.oid});
    assert Waiting(l, sid, side, store, v);
    assert l.watchers == multiset{} && l'.watchers == multiset{reply.oid};
    assert Settled(l.orders, store) by {
      forall o | o in l.orders ensures o in store && store[o].state.Final() {
        if o != l.prev || req.target == 0 { assert req.target != 0 ==> o in l.orders - {l.prev}; }
      }
    }
    assert l'.orders - {reply.oid} == l.orders;
  }

  /** The watcher leaves a settled lane and asks for a new order. */
  lemma ReleaseKeepsOpen(l: Lane, sid: Sid, side: Side, store: Store, v: Venue, oid: Oid, prev: Oid)
    requires VenueValid(v) && Open(l, sid, side, store, v) && oid in l.watchers
    requires oid in store && store[oid].state.Final()
    requires prev == oid || prev == l.prev
    ensures Open(l.(need := true, prev := prev, active := 0, watchers := l.watchers - multiset{oid}), sid, side, store, v)
  {
    SoleOwner(l, oid);
    WatchedIsSettled(l, sid, side, store, v, oid);
  }

  /** The watcher leaves a settled lane for good. */
  lemma FinishCloses(l: Lane, sid: Sid, side: Side, store: Store, v: Venue, oid: Oid, active: Oid)
    requires VenueValid(v) && Open(l, sid, side, store, v) && oid in l.watchers
    requires oid in store && store[oid].state.Final()
    ensures Closed(l.(prev := 0, active := active, watchers := l.watchers - multiset{oid}), sid, side, store, v)
  {
    SoleOwner(l, oid);
    WatchedIsSettled(l, sid, side, store, v, oid);
  }

  /** A refused request while everything is settled: the listener asks for a new order ... */
  lemma RefusedReopens(l: Lane, sid: Sid, side: Side, store: Store, v: Venue)
    requires VenueValid(v) && Open(l, sid, side, store, v)
    requires l.rid in v.replies && v.replies[l.rid].1.Refused?
    requires l.prev in store && store[l.prev].state.Final()
    ensures Open(l.(need := true, rid := 0), sid, side, store, TakeReply(v, l.rid))
  {
    RefusedIsSettled(l, sid, side, store, v);
  }

  /** ... or ends the lane ... */
  lemma RefusedCloses(l: Lane, sid: Sid, side: Side, store: Store, v: Venue, active: Oid)
    requires VenueValid(v) && Open(l, sid, side, store, v)
    requires l.rid in v.replies && v.replies[l.rid].1.Refused?
    requires l.prev in store && store[l.prev].state.Final()
    ensures Closed(l.(prev := 0, active := active, rid := 0), sid, side, store, TakeReply(v, l.rid))
  {
    RefusedIsSettled(l, sid, side, store, v);
  }

  /** ... or forgets the reply and keeps the request id. */
  lemma RefusedStalls(l: Lane, sid: Sid, side: Side, store: Store, v: Venue)
    requires VenueValid(v) && Open(l, sid, side, store, v)
    requires l.rid in v.replies && v.replies[l.rid].1.Refused?
    requires l.prev in store && store[l.prev].state.Final()
    ensures Open(l, sid, side, store, TakeReply(v, l.rid)) && Stalled(l, TakeReply(v, l.rid))
  {
    RefusedIsSettled(l, sid, side, store, v);
    assert Waiting(l, sid, side, store, TakeReply(v, l.rid));
  }

  lemma SoleOwner(l: Lane, oid: Oid)
    requires Owners(l) == 1 && oid in l.watchers
    ensures l.watchers == multiset{oid} && l.watchers - multiset{oid} == multiset{} && !l.need && l.rid == 0
  {
    assert |l.watchers - multiset{oid}| == |l.watchers| - 1;
  }

  lemma WatchedIsSettled(l: Lane, sid: Sid, side: Side, store: Store, v: Venue, oid: Oid)
    requires Open(l, sid, side, store, v) && oid in l.watchers
    requires oid in store && store[oid].state.Final()
    ensures Settled(l.orders, store)
  {
    forall o | o in l.orders ensures o in store && store[o].state.Final() {
      if o != oid { assert o in l.orders - {oid}; }
    }
  }

  lemma RefusedIsSettled(l: Lane, sid: Sid, side: Side, store: Store, v: Venue)
    requires VenueValid(v) && Open(l, sid, side, store, v)
    requires l.rid in v.replies && v.replies[l.rid].1.Refused?
    requires l.prev in store && store[l.prev].state.Final()
    ensures Settled(l.orders, store)
  {
    assert Aimed(l, v.replies[l.rid].0, sid, side, store);
    forall o | o in l.orders ensures o in store && store[o].state.Final() {
      if o != l.prev { assert o in l.orders - {l.prev}; }
    }
  }
}
