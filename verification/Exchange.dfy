/**
 The exchange as an adversary bound by a contract, and the bot's order store as a mirror of it
 that may lag behind. Prices count ticks and volumes count quantity units, so both are integers;
 a cost is their product. Ids are natural numbers and 0 stands for an absent id.
 */
module Exchange {
  import opened Totals

  type Oid = nat
  type Rid = nat
  type Sid = nat

  datatype Side = Buy | Sell

  /** The order states with the codes the exchange sends. */
  datatype State = Pending | Hold | Placing | Active | Done | Rejected | Cancelled {
    function Code(): nat {
      match this
      case Pending => 1
      case Hold => 2
      case Placing => 3
      case Active => 4
      case Done => 5
      case Rejected => 6
      case Cancelled => 7
    }

    predicate Final() { Code() > Active.Code() }
  }

  datatype Order = Order(side: Side, price: nat, volume: nat, filled: nat, state: State)

  type Store = map<Oid, Order>

  /** What an order may become: fills only grow up to the volume, states only advance, final orders are frozen. */
  predicate Evolves(o: Order, o': Order) {
    && o'.side == o.side && o'.price == o.price && o'.volume == o.volume
    && o.filled <= o'.filled <= o'.volume
    && o.state.Code() <= o'.state.Code()
    && (o.state.Final() ==> o' == o)
  }

  /** A create request (target 0) or an alter request that replaces the order `target`.
      `sized` records the filled weight the bot saw when it chose the volume. */
  datatype Request = Request(sid: Sid, side: Side, price: nat, volume: int, target: Oid, sized: int)

  datatype ErrorCode = AmountTooSmall | DoneOrder | OtherError

  datatype Reply = Created(oid: Oid) | Refused(code: ErrorCode)

  /** An order as the exchange knows it, with the request that opened it. `drift` is the filled
      weight the session had at that moment beyond what the bot had seen when sizing. */
  datatype Live = Live(order: Order, req: Request, drift: int)

  datatype Venue = Venue(orders: map<Oid, Live>, pending: map<Rid, Request>,
                         replies: map<Rid, (Request, Reply)>, nextRid: Rid)

  ghost predicate VenueValid(v: Venue) {
    && v.nextRid > 0
    && (forall r | r in v.pending :: 0 < r < v.nextRid && r !in v.replies)
    && (forall r | r in v.replies :: 0 < r < v.nextRid)
    && (forall o | o in v.orders :: o != 0 && v.orders[o].order.side == v.orders[o].req.side
                                    && v.orders[o].order.filled <= v.orders[o].order.volume
                                    && v.orders[o].order.price == v.orders[o].req.price)
  }

  /** The store holds past versions of the exchange's orders. */
  ghost predicate Mirrors(store: Store, v: Venue) {
    forall o | o in store :: o in v.orders && Evolves(store[o], v.orders[o].order)
  }

  /** The client numbers its requests from a counter. */
  function Send(v: Venue, req: Request): Venue {
    v.(pending := v.pending[v.nextRid := req], nextRid := v.nextRid + 1)
  }

  predicate From(req: Request, sid: Sid, side: Side) { req.sid == sid && req.side == side }

  predicate OwnedBy(v: Venue, o: Oid, sid: Sid, side: Side) {
    o in v.orders && From(v.orders[o].req, sid, side)
  }

  ghost function Owned(v: Venue, sid: Sid, side: Side): set<Oid> {
    set o | o in v.orders && OwnedBy(v, o, sid, side)
  }

  /** What a quantity counts for: its cost when buying, itself when selling. */
  function Weight(side: Side, price: int, quantity: int): int {
    if side.Buy? then price * quantity else quantity
  }

  ghost function Fills(store: Store): map<nat, int> {
    map o | o in store :: store[o].filled
  }

  ghost function Costs(store: Store): map<nat, int> {
    map o | o in store :: store[o].price * store[o].filled
  }

  ghost function FilledWeights(store: Store): map<nat, int> {
    map o | o in store :: Weight(store[o].side, store[o].price, store[o].filled)
  }

  /** The exchange's own view of all orders. */
  function Truth(v: Venue): Store {
    map o | o in v.orders :: v.orders[o].order
  }

  /** What an order can still cost or move: its fills once final, its whole volume before. */
  function Commitment(o: Order): int {
    Weight(o.side, o.price, if o.state.Final() then o.filled else o.volume)
  }

  ghost function Commitments(v: Venue): map<nat, int> {
    map o | o in v.orders :: Commitment(v.orders[o].order)
  }

  /** Everything a session has filled on one side plus everything it can still fill. */
  ghost function Exposure(v: Venue, sid: Sid, side: Side): int {
    Total(Owned(v, sid, side), Commitments(v))
  }

  // ----- moves of the exchange -----

  predicate CanAccept(v: Venue, rid: Rid, oid: Oid, first: State, last: Order) {
    && rid in v.pending && oid != 0 && oid !in v.orders && first.Code() <= Active.Code()
    && var req := v.pending[rid];
    && req.volume > 0
    && req.target != oid
    && (req.target != 0 ==>
          && req.target in v.orders
          && !v.orders[req.target].order.state.Final()
          && Evolves(v.orders[req.target].order, last)
          && last.state.Final())
  }

  /** The orders after a possible alter has ended its target in the version `last`. */
  function EndTarget(v: Venue, req: Request, last: Order): map<Oid, Live> {
    if req.target != 0 && req.target in v.orders
    then v.orders[req.target := v.orders[req.target].(order := last)]
    else v.orders
  }

  ghost function Accept(v: Venue, rid: Rid, oid: Oid, first: State, last: Order): (v': Venue)
    requires CanAccept(v, rid, oid, first, last)
  {
    var req := v.pending[rid];
    var ended := v.(orders := EndTarget(v, req, last));
    var order := Order(req.side, req.price, req.volume, 0, first);
    var drift := Total(Owned(ended, req.sid, req.side), FilledWeights(Truth(ended))) - req.sized;
    Venue(ended.orders[oid := Live(order, req, drift)], v.pending - {rid},
          v.replies[rid := (req, Created(oid))], v.nextRid)
  }

  function Refuse(v: Venue, rid: Rid, code: ErrorCode): Venue
    requires rid in v.pending
  {
    v.(pending := v.pending - {rid}, replies := v.replies[rid := (v.pending[rid], Refused(code))])
  }

  function Replace(v: Venue, oid: Oid, o: Order): Venue
    requires oid in v.orders
  {
    v.(orders := v.orders[oid := v.orders[oid].(order := o)])
  }

  function TakeReply(v: Venue, rid: Rid): Venue {
    v.(replies := v.replies - {rid})
  }

  // ----- frozen orders -----

  /** Once every order of a set is final in the store, store and exchange agree on it for good. */
  ghost predicate Settled(orders: set<Oid>, store: Store) {
    forall o | o in orders :: o in store && store[o].state.Final()
  }

  lemma SettledIsTrue(orders: set<Oid>, store: Store, v: Venue)
    requires Settled(orders, store) && Mirrors(store, v)
    ensures orders <= store.Keys && orders <= Truth(v).Keys
    ensures Total(orders, Costs(store)) == Total(orders, Costs(Truth(v)))
    ensures Total(orders, Fills(store)) == Total(orders, Fills(Truth(v)))
    ensures Total(orders, FilledWeights(store)) == Total(orders, FilledWeights(Truth(v)))
  {
    TotalSame(orders, Costs(store), Costs(Truth(v)));
    TotalSame(orders, Fills(store), Fills(Truth(v)));
    TotalSame(orders, FilledWeights(store), FilledWeights(Truth(v)));
  }
}
