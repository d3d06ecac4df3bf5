/**
 What a lane may spend. A request is sized from the fills in the store, so the exposure it
 opens exceeds the cap by the rounding of one volume and by the fills the bot had not seen.
 */
module Budgets {
  import opened Totals
  import opened Exchange
  import opened Lanes

  /** Half a quantity unit at the limit price when buying; selling counts units and is exact. */
  function Slack(side: Side, price: nat): real {
    if side.Buy? then price as real / 2.0 else 0.0
  }

  /** The filled weight that the bot sees in its store. */
  ghost function Seen(orders: set<Oid>, store: Store): int
    requires orders <= store.Keys
  {
    Total(orders, FilledWeights(store))
  }

  /** A request asks for what is left of the cap, up to the rounding of its volume. */
  predicate Affordable(req: Request, cap: real) {
    var left := cap - req.sized as real;
    left - Slack(req.side, req.price) <= Weight(req.side, req.price, req.volume) as real <= left + Slack(req.side, req.price)
  }

  /** The exposure is covered by the cap, one rounding and one drift. */
  ghost predicate Covers(v: Venue, sid: Sid, side: Side, cap: real, o: Oid) {
    && OwnedBy(v, o, sid, side)
    && Exposure(v, sid, side) as real <= cap + Slack(side, v.orders[o].req.price) + v.orders[o].drift as real
  }

  ghost predicate WithinCap(v: Venue, sid: Sid, side: Side, cap: real) {
    Owned(v, sid, side) == {} || exists o :: Covers(v, sid, side, cap, o)
  }

  /** Drift is never negative: what was seen when sizing is still filled when the order opens. */
  ghost predicate DriftsForward(v: Venue, sid: Sid, side: Side) {
    forall o | OwnedBy(v, o, sid, side) :: v.orders[o].drift >= 0
  }

  ghost predicate Budgeted(l: Lane, sid: Sid, side: Side, v: Venue, cap: real) {
    && WithinCap(v, sid, side, cap)
    && DriftsForward(v, sid, side)
    && (l.rid in v.pending ==>
          && Affordable(v.pending[l.rid], cap)
          && v.pending[l.rid].sized <= Total(Owned(v, sid, side), FilledWeights(Truth(v))))
  }

  // ----- the exposure only shrinks between acceptances -----

  lemma WeightMonotone(side: Side, price: nat, a: int, b: int)
    requires a <= b
    ensures Weight(side, price, a) <= Weight(side, price, b)
  {}

  lemma CommitmentShrinks(o: Order, o': Order)
    requires Evolves(o, o') && o.filled <= o.volume
    ensures Commitment(o') <= Commitment(o)
    ensures Weight(o.side, o.price, o.filled) <= Weight(o'.side, o'.price, o'.filled) <= Commitment(o')
  {
    WeightMonotone(o.side, o.price, o'.filled, o.volume);
    WeightMonotone(o.side, o.price, o.filled, o'.filled);
  }

  lemma ExposureAround(sid: Sid, side: Side, v: Venue, v': Venue)
    requires VenueValid(v) && OrdersAround(sid, side, v, v')
    ensures Owned(v', sid, side) == Owned(v, sid, side)
    ensures Exposure(v', sid, side) <= Exposure(v, sid, side)
    ensures Total(Owned(v, sid, side), FilledWeights(Truth(v))) <= Total(Owned(v, sid, side), FilledWeights(Truth(v')))
  {
    var s := Owned(v, sid, side);
    assert s == Owned(v', sid, side);
    forall o | o in s
      ensures Commitments(v')[o] <= Commitments(v)[o]
      ensures FilledWeights(Truth(v))[o] <= FilledWeights(Truth(v'))[o]
    {
      CommitmentShrinks(v.orders[o].order, v'.orders[o].order);
    }
    TotalMonotone(s, Commitments(v'), Commitments(v));
    TotalMonotone(s, FilledWeights(Truth(v)), FilledWeights(Truth(v')));
  }

  lemma WithinCapAround(sid: Sid, side: Side, v: Venue, v': Venue, cap: real)
    requires VenueValid(v) && OrdersAround(sid, side, v, v') && WithinCap(v, sid, side, cap)
    ensures WithinCap(v', sid, side, cap)
  {
    ExposureAround(sid, side, v, v');
    if Owned(v, sid, side) != {} {
      var o :| Covers(v, sid, side, cap, o);
      assert Covers(v', sid, side, cap, o);
    }
  }

  lemma BudgetedAround(l: Lane, sid: Sid, side: Side, store: Store, v: Venue, store': Store, v': Venue, cap: real)
    requires OwnRid(l, sid, side, v) && Around(sid, side, store, v, store', v') && Budgeted(l, sid, side, v, cap)
    ensures Budgeted(l, sid, side, v', cap)
  {
    WithinCapAround(sid, side, v, v', cap);
    ExposureAround(sid, side, v, v');
    RequestsStay(l, sid, side, v, v');
  }

  /** Steps of the lane that leave no request pending and no order changed. */
  lemma BudgetedIdle(l: Lane, l': Lane, sid: Sid, side: Side, v: Venue, v': Venue, cap: real)
    requires Budgeted(l, sid, side, v, cap) && v'.orders == v.orders && l'.rid !in v'.pending
    ensures Budgeted(l', sid, side, v', cap)
  {
    assert Owned(v', sid, side) == Owned(v, sid, side) && Commitments(v') == Commitments(v);
    if Owned(v, sid, side) != {} {
      var o :| Covers(v, sid, side, cap, o);
      assert Covers(v', sid, side, cap, o);
    }
  }

  // ----- sending and accepting -----

  /** A request sized from the store is affordable, and what was seen is really filled. */
  lemma SendKeepsBudgeted(l: Lane, l': Lane, sid: Sid, side: Side, store: Store, v: Venue, req: Request, cap: real)
    requires VenueValid(v) && Mirrors(store, v) && Tracked(l, sid, side, store, v)
    requires Budgeted(l, sid, side, v, cap) && l.rid !in v.replies
    requires l'.rid == v.nextRid && l.orders <= store.Keys
    requires Affordable(req, cap) && req.sized == Seen(l.orders, store)
    ensures Budgeted(l', sid, side, Send(v, req), cap)
  {
    var v' := Send(v, req);
    assert l.orders == Owned(v, sid, side) == Owned(v', sid, side);
    forall o | o in l.orders ensures FilledWeights(store)[o] <= FilledWeights(Truth(v))[o] {
      WeightMonotone(store[o].side, store[o].price, store[o].filled, v.orders[o].order.filled);
    }
    TotalMonotone(l.orders, FilledWeights(store), FilledWeights(Truth(v)));
    TotalSame(l.orders, FilledWeights(Truth(v)), FilledWeights(Truth(v')));
    assert Commitments(v') == Commitments(v);
    if Owned(v, sid, side) != {} {
      var o :| Covers(v, sid, side, cap, o);
      assert Covers(v', sid, side, cap, o);
    }
  }

  /** When an order opens, every earlier order of the lane is final at the exchange. */
  lemma AllFinalAtAcceptance(l: Lane, sid: Sid, side: Side, store: Store, v: Venue,
                             rid: Rid, oid: Oid, first: State, last: Order)
    requires VenueValid(v) && Mirrors(store, v) && CanAccept(v, rid, oid, first, last)
    requires Open(l, sid, side, store, v) && From(v.pending[rid], sid, side)
    ensures var ended := v.(orders := EndTarget(v, v.pending[rid], last));
            forall o | OwnedBy(ended, o, sid, side) :: ended.orders[o].order.state.Final()
  {
    var req := v.pending[rid];
    var ended := v.(orders := EndTarget(v, req, last));
    assert Aimed(l, req, sid, side, store);
    forall o | OwnedBy(ended, o, sid, side) ensures ended.orders[o].order.state.Final() {
      assert OwnedBy(v, o, sid, side);
      assert o in l.orders;
      if o != req.target {
        assert req.target != 0 ==> o in l.orders - {l.prev};
      }
    }
  }

  /** At acceptance the exposure is the filled weight plus the new order's weight. */
  lemma ExposureAtAcceptance(l: Lane, sid: Sid, side: Side, store: Store, v: Venue,
                             rid: Rid, oid: Oid, first: State, last: Order)
    requires VenueValid(v) && Mirrors(store, v) && CanAccept(v, rid, oid, first, last)
    requires Open(l, sid, side, store, v) && From(v.pending[rid], sid, side)
    ensures var v' := Accept(v, rid, oid, first, last);
            var req := v.pending[rid];
            Exposure(v', sid, side) == req.sized + v'.orders[oid].drift + Weight(req.side, req.price, req.volume)
  {
    var req := v.pending[rid];
    var ended := v.(orders := EndTarget(v, req, last));
    var v' := Accept(v, rid, oid, first, last);
    var before := Owned(ended, sid, side);
    assert Owned(v', sid, side) == before + {oid};
    AllFinalAtAcceptance(l, sid, side, store, v, rid, oid, first, last);
    TotalAdd(before, Commitments(v'), oid);
    forall o | o in before ensures Commitments(v')[o] == FilledWeights(Truth(ended))[o] {
      assert OwnedBy(ended, o, sid, side);
    }
    TotalSame(before, Commitments(v'), FilledWeights(Truth(ended)));
  }

  lemma AcceptKeepsBudgeted(l: Lane, sid: Sid, side: Side, store: Store, v: Venue,
                            rid: Rid, oid: Oid, first: State, last: Order, cap: real)
    requires VenueValid(v) && Mirrors(store, v) && CanAccept(v, rid, oid, first, last)
    requires Open(l, sid, side, store, v) && From(v.pending[rid], sid, side)
    requires Budgeted(l, sid, side, v, cap)
    ensures Budgeted(l, sid, side, Accept(v, rid, oid, first, last), cap)
  {
    var req := v.pending[rid];
    var ended := v.(orders := EndTarget(v, req, last));
    var v' := Accept(v, rid, oid, first, last);
    assert rid == l.rid;
    ExposureAtAcceptance(l, sid, side, store, v, rid, oid, first, last);
    assert Covers(v', sid, side, cap, oid);
    ExposureAround(sid, side, v, ended);
  }

  // ----- steps of an open lane together with its budget -----

  ghost predicate Sane(l: Lane, sid: Sid, side: Side, store: Store, v: Venue, cap: real) {
    VenueValid(v) && Mirrors(store, v) && Open(l, sid, side, store, v) && Budgeted(l, sid, side, v, cap)
  }

  lemma CreateKeepsSane(l: Lane, sid: Sid, side: Side, store: Store, v: Venue, req: Request, cap: real)
    requires Sane(l, sid, side, store, v, cap) && l.need && l.orders <= store.Keys
    requires From(req, sid, side) && req.target == 0
    requires Affordable(req, cap) && req.sized == Seen(l.orders, store)
    ensures Sane(l.(need := false, rid := v.nextRid), sid, side, store, Send(v, req), cap)
  {
    CreateKeepsOpen(l, sid, side, store, v, req);
    SendKeepsBudgeted(l, l.(need := false, rid := v.nextRid), sid, side, store, v, req, cap);
  }

  lemma MoveKeepsSane(l: Lane, sid: Sid, side: Side, store: Store, v: Venue, oid: Oid, req: Request, cap: real)
    requires Sane(l, sid, side, store, v, cap) && oid in l.watchers && l.orders <= store.Keys
    requires oid in store && store[oid].state.Code() >= Active.Code()
    requires From(req, sid, side) && req.target == oid
    requires Affordable(req, cap) && req.sized == Seen(l.orders, store)
    ensures Sane(l.(prev := oid, rid := v.nextRid, watchers := l.watchers - multiset{oid}), sid, side, store, Send(v, req), cap)
  {
    hide Waiting, Budgeted;
    MoveKeepsOpen(l, sid, side, store, v, oid, req);
    SoleOwner(l, oid);
    SendKeepsBudgeted(l, l.(prev := oid, rid := v.nextRid, watchers := l.watchers - multiset{oid}), sid, side, store, v, req, cap);
  }

  lemma OpenedKeepsSane(l: Lane, sid: Sid, side: Side, store: Store, v: Venue, cap: real)
    requires Sane(l, sid, side, store, v, cap)
    requires l.rid in v.replies && v.replies[l.rid].1.Created?
    requires var t := v.replies[l.rid].0.target; t != 0 ==> t in store && t in v.orders && store[t] == v.orders[t].order
    ensures var oid := v.replies[l.rid].1.oid;
            Sane(l.(rid := 0, active := oid, orders := l.orders + {oid}, watchers := l.watchers + multiset{oid}),
                 sid, side, store, TakeReply(v, l.rid), cap)
  {
    var oid := v.replies[l.rid].1.oid;
    var l' := l.(rid := 0, active := oid, orders := l.orders + {oid}, watchers := l.watchers + multiset{oid});
    OpenedKeepsOpen(l, sid, side, store, v);
    BudgetedIdle(l, l', sid, side, v, TakeReply(v, l.rid), cap);
  }

  lemma ReleaseKeepsSane(l: Lane, sid: Sid, side: Side, store: Store, v: Venue, oid: Oid, prev: Oid, cap: real)
    requires Sane(l, sid, side, store, v, cap) && oid in l.watchers
    requires oid in store && store[oid].state.Final() && (prev == oid || prev == l.prev)
    ensures Sane(l.(need := true, prev := prev, active := 0, watchers := l.watchers - multiset{oid}), sid, side, store, v, cap)
  {
    ReleaseKeepsOpen(l, sid, side, store, v, oid, prev);
    SoleOwner(l, oid);
  }

  lemma RefusedReopensSane(l: Lane, sid: Sid, side: Side, store: Store, v: Venue, cap: real)
    requires Sane(l, sid, side, store, v, cap)
    requires l.rid in v.replies && v.replies[l.rid].1.Refused?
    requires l.prev in store && store[l.prev].state.Final()
    ensures Sane(l.(need := true, rid := 0), sid, side, store, TakeReply(v, l.rid), cap)
  {
    RefusedReopens(l, sid, side, store, v);
    BudgetedIdle(l, l.(need := true, rid := 0), sid, side, v, TakeReply(v, l.rid), cap);
  }

  lemma RefusedStallsSane(l: Lane, sid: Sid, side: Side, store: Store, v: Venue, cap: real)
    requires Sane(l, sid, side, store, v, cap)
    requires l.rid in v.replies && v.replies[l.rid].1.Refused?
    requires l.prev in store && store[l.prev].state.Final()
    ensures Sane(l, sid, side, store, TakeReply(v, l.rid), cap)
  {
    RefusedStalls(l, sid, side, store, v);
    BudgetedIdle(l, l, sid, side, v, TakeReply(v, l.rid), cap);
  }

  lemma SaneAround(l: Lane, sid: Sid, side: Side, store: Store, v: Venue, store': Store, v': Venue, cap: real)
    requires Sane(l, sid, side, store, v, cap) && Around(sid, side, store, v, store', v') && Mirrors(store', v')
    ensures Sane(l, sid, side, store', v', cap)
  {
    OpenAround(l, sid, side, store, v, store', v');
    BudgetedAround(l, sid, side, store, v, store', v', cap);
  }
}
