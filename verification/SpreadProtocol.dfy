/**
 The three processes of a spread session as steps over the session's fields, the order store and
 the exchange. Everything the code cannot control (prices, the moments a market guard opens,
 replies, the result of a cancel round trip) is data of the step.
 */
module SpreadProtocol {
  import opened Totals
  import opened Exchange
  import opened Rounding
  import opened SpreadSession

  /** The answer to a blocking cancel request; a confirmed one shows the order's last version. */
  datatype CancelAnswer = Confirmed(last: Order) | AlreadyDone | CancelError

  predicate LegalCancel(v: Venue, oid: Oid, answer: CancelAnswer) {
    answer.Confirmed? ==>
      oid in v.orders && Evolves(v.orders[oid].order, answer.last) && answer.last.state.Cancelled?
  }

  /** What one activation of a process does: its session writes in order, the orders it starts to
      watch, its effect on store and exchange, and what it books as profit. An activation may
      return an error instead, or run into an order that the store does not have. */
  datatype Outcome =
    | Acts(writes: seq<Write>, watched: multiset<Oid>, store: Store, venue: Venue, booked: int)
    | Fails
    | Panics

  function Idle(store: Store, v: Venue): Outcome { Acts([], multiset{}, store, v, 0) }

  function Writes(ws: seq<Write>, store: Store, v: Venue): Outcome { Acts(ws, multiset{}, store, v, 0) }

  // ----- sizing -----

  ghost function BoughtCost(f: Fields, store: Store): int
    requires f.buyOrders <= store.Keys
  { Total(f.buyOrders, Costs(store)) }

  ghost function BoughtVolume(f: Fields, store: Store): int
    requires f.buyOrders <= store.Keys
  { Total(f.buyOrders, Fills(store)) }

  ghost function SoldCost(f: Fields, store: Store): int
    requires f.sellOrders <= store.Keys
  { Total(f.sellOrders, Costs(store)) }

  ghost function SoldVolume(f: Fields, store: Store): int
    requires f.sellOrders <= store.Keys
  { Total(f.sellOrders, Fills(store)) }

  ghost function BuyRequest(f: Fields, sid: Sid, store: Store, price: nat, target: Oid): Request
    requires f.buyOrders <= store.Keys && price > 0
  {
    var cost := BoughtCost(f, store);
    Request(sid, Buy, price, RoundHalfEven((f.buyTotal - cost as real) / (price as real)), target, cost)
  }

  ghost function SellRequest(f: Fields, sid: Sid, store: Store, price: nat, target: Oid): Request
    requires f.sellOrders <= store.Keys
  {
    var sold := SoldVolume(f, store);
    Request(sid, Sell, price, f.sellVolume - sold, target, sold)
  }

  // ----- the decider -----

  /** What a look at the market reads besides: the session's sums once the spread is wide enough, and
      the previous sell order when a sell cannot be placed by the active session. */
  datatype Looks = Looks(sums: bool, previous: bool)

  /** The market as the decider finds it: which guard lets an order through, at which price,
      whether the balance suffices, and what is looked up when no guard does. */
  datatype Market = Market(buyOpen: bool, sellOpen: bool, price: nat, funded: bool, ext: ExtId, looks: Looks)

  ghost function CreateBuy(f: Fields, sid: Sid, store: Store, v: Venue, m: Market): Outcome
    requires f.buyOrders <= store.Keys && m.price > 0
  {
    if !m.funded then Writes([NeedBuy(false), NeedBuy(true)], store, v)
    else Writes([NeedBuy(false), BuyExt(m.ext), BuyRid(v.nextRid)], store, Send(v, BuyRequest(f, sid, store, m.price, 0)))
  }

  ghost function CreateSell(f: Fields, sid: Sid, store: Store, v: Venue, m: Market): Outcome
    requires f.sellOrders <= store.Keys
  {
    if !m.funded then Writes([NeedSell(false), NeedSell(true)], store, v)
    else Writes([NeedSell(false), SellExt(m.ext), SellRid(v.nextRid)], store, Send(v, SellRequest(f, sid, store, m.price, 0)))
  }

  ghost function Decide(f: Fields, sid: Sid, store: Store, v: Venue, m: Market): Outcome
    requires m.buyOpen ==> m.price > 0
  {
    if f.isDone then Idle(store, v)
    else if f.needBuy && (m.buyOpen || m.looks.sums) && !(f.buyOrders <= store.Keys) then Panics
    else if f.needBuy && m.buyOpen then CreateBuy(f, sid, store, v, m)
    else if f.needSell && f.activeBuy in store && (m.sellOpen || m.looks.sums) && !(f.sellOrders <= store.Keys) then Panics
    else if f.needSell && f.activeBuy in store && m.sellOpen then CreateSell(f, sid, store, v, m)
    else if f.needSell && m.looks.previous && f.prevSell != 0 && f.prevSell !in store then Panics
    else Idle(store, v)
  }

  // ----- completing a side -----

  ghost function BuyExecuted(f: Fields, oid: Oid, order: Order, store: Store, v: Venue, answer: CancelAnswer): Outcome
    requires LegalCancel(v, oid, answer)
  {
    if order.state.Active? then
      if answer.Confirmed? then Idle(store[oid := answer.last], Replace(v, oid, answer.last)) else Fails
    else if !(f.buyOrders <= store.Keys) then Panics
    else Acts([BuyDone(oid, BoughtVolume(f, store))], multiset{}, store, v, -BoughtCost(f, store))
  }

  ghost function SellFlags(f: Fields, store: Store, v: Venue): Outcome {
    if !(f.sellOrders <= store.Keys) || !(f.buyOrders <= store.Keys) then Panics
    else Acts([SellDone], multiset{}, store, v, SoldCost(f, store))
  }

  ghost function SellExecuted(f: Fields, oid: Oid, order: Order, store: Store, v: Venue, answer: CancelAnswer): Outcome
    requires LegalCancel(v, oid, answer)
  {
    if order.state.Active? then
      if answer.Confirmed? then SellFlags(f, store[oid := answer.last], Replace(v, oid, answer.last)) else Fails
    else SellFlags(f, store, v)
  }

  // ----- the listener -----

  /** The order that a refused request makes the listener look up. */
  function Looked(f: Fields, rid: Rid): Oid {
    if rid == f.buyRid then f.prevBuy else f.prevSell
  }

  ghost function Refusal(f: Fields, rid: Rid, code: ErrorCode, store: Store, v: Venue, answer: CancelAnswer): Outcome
    requires LegalCancel(v, Looked(f, rid), answer)
  {
    var oid := Looked(f, rid);
    if code.OtherError? || (f.prevBuy == 0 && f.prevSell == 0) then Fails
    else if oid !in store then Panics
    else if code.AmountTooSmall? then
      if rid == f.buyRid then BuyExecuted(f, oid, store[oid], store, v, answer)
      else SellExecuted(f, oid, store[oid], store, v, answer)
    else if store[oid].state.Cancelled? then
      if rid == f.buyRid then Writes([BuyCancelled], store, v) else Writes([SellCancelled], store, v)
    else if store[oid].state.Done? then
      if rid == f.buyRid then BuyExecuted(f, oid, store[oid], store, v, answer)
      else SellExecuted(f, oid, store[oid], store, v, answer)
    else Fails
  }

  function Opened(f: Fields, rid: Rid, oid: Oid, store: Store, v: Venue): Outcome {
    var buy := if rid == f.buyRid then [ActiveBuy(oid), BuyExt(0), BuyRid(0), AddBuy(oid)] else [];
    var sell := if rid == f.sellRid then [ActiveSell(oid), SellExt(0), SellRid(0), AddSell(oid)] else [];
    Acts(buy + sell, multiset{oid}, store, v, 0)
  }

  ghost function Listen(f: Fields, rid: Rid, store: Store, v: Venue, answer: CancelAnswer): Outcome
    requires rid in v.replies && LegalCancel(v, Looked(f, rid), answer)
  {
    match v.replies[rid].1
    case Created(oid) => Opened(f, rid, oid, store, TakeReply(v, rid))
    case Refused(code) => Refusal(f, rid, code, store, TakeReply(v, rid), answer)
  }

  // ----- the watcher -----

  /** What the market makes a watcher do with an active order: leave it, withdraw it because the spread
      is gone or no new order could be placed now, or reprice it. */
  datatype Verdict =
    | Keep
    | Withdraw(looks: Looks, answer: CancelAnswer)
    | Reprice(price: nat, ext: ExtId)
  {
    predicate Sums() { Reprice? || (Withdraw? && looks.sums) }

    predicate Previous() { Withdraw? && looks.previous }
  }

  /** A verdict that a watcher of the order may meet. */
  predicate MayMeet(v: Venue, oid: Oid, verdict: Verdict) {
    && (verdict.Withdraw? ==> LegalCancel(v, oid, verdict.answer))
    && (verdict.Reprice? ==> verdict.price > 0)
  }

  ghost function WatchBuy(f: Fields, sid: Sid, oid: Oid, store: Store, v: Venue, verdict: Verdict): Outcome
    requires oid in store
    requires verdict.Withdraw? ==> LegalCancel(v, oid, verdict.answer)
    requires verdict.Reprice? ==> verdict.price > 0
  {
    var order := store[oid];
    if order.state.Done? then BuyExecuted(f, oid, order, store, v, AlreadyDone)
    else if order.state.Final() then Writes([PrevBuy(oid), ActiveBuy(0), NeedBuy(true)], store, v)
    else if verdict.Sums() && !(f.buyOrders <= store.Keys) then Panics
    else match verdict
      case Keep => Idle(store, v)
      case Withdraw(_, Confirmed(last)) =>
        Writes([PrevBuy(oid), ActiveBuy(0), NeedBuy(true)], store[oid := last], Replace(v, oid, last))
      case Withdraw(_, AlreadyDone) => Idle(store, v)
      case Withdraw(_, CancelError) => Fails
      case Reprice(price, ext) =>
        Writes([PrevBuy(oid), BuyExt(ext), BuyRid(v.nextRid)], store,
               Send(v, BuyRequest(f, sid, store, price, f.activeBuy)))
  }

  ghost function WatchSell(f: Fields, sid: Sid, oid: Oid, store: Store, v: Venue, verdict: Verdict): Outcome
    requires oid in store
    requires verdict.Withdraw? ==> LegalCancel(v, oid, verdict.answer)
  {
    var order := store[oid];
    if order.state.Done? then SellExecuted(f, oid, order, store, v, AlreadyDone)
    else if order.state.Final() then Writes([ActiveSell(0), NeedSell(true)], store, v)
    else if verdict.Sums() && !(f.sellOrders <= store.Keys) then Panics
    else if verdict.Previous() && f.prevSell != 0 && f.prevSell !in store then Panics
    else match verdict
      case Keep => Idle(store, v)
      case Withdraw(_, Confirmed(last)) =>
        Writes([PrevSell(oid), ActiveSell(0), NeedSell(true)], store[oid := last], Replace(v, oid, last))
      case Withdraw(_, AlreadyDone) => Idle(store, v)
      case Withdraw(_, CancelError) => Fails
      case Reprice(price, ext) =>
        Writes([PrevSell(oid), SellExt(ext), SellRid(v.nextRid)], store,
               Send(v, SellRequest(f, sid, store, price, oid)))
  }

  ghost function Watch(f: Fields, sid: Sid, oid: Oid, store: Store, v: Venue, verdict: Verdict): Outcome
    requires verdict.Withdraw? ==> LegalCancel(v, oid, verdict.answer)
    requires verdict.Reprice? ==> verdict.price > 0
  {
    if oid !in store || store[oid].state.Code() < Active.Code() then Idle(store, v)
    else if store[oid].side.Buy? then WatchBuy(f, sid, oid, store, v, verdict)
    else WatchSell(f, sid, oid, store, v, verdict)
  }

  // ----- the world -----

  /** A session with the orders its watchers watch; `removed` once cleaned up. */
  datatype Entry = Entry(fields: Fields, watchers: multiset<Oid>, removed: bool)

  datatype Status = Running | Failed | Panicked

  datatype World = World(entries: seq<Entry>, store: Store, venue: Venue, profit: int, status: Status)

  function InitialVenue(): Venue { Venue(map[], map[], map[], 1) }

  function InitialWorld(): World { World([], map[], InitialVenue(), 0, Running) }

  datatype Step =
    | Open(buyTotal: real)
    | Deciding(sid: Sid, market: Market)
    | Listening(sid: Sid, rid: Rid, answer: CancelAnswer)
    | Watching(sid: Sid, oid: Oid, verdict: Verdict)
    | Accepting(rid: Rid, oid: Oid, first: State, last: Order)
    | Refusing(rid: Rid, code: ErrorCode)
    | Evolving(oid: Oid, order: Order)
    | Syncing(oid: Oid)
    | CleaningUp
    | Faulting

  /** The reply to a request is delivered after the store has heard what the request did to its target. */
  predicate Delivered(store: Store, v: Venue, rid: Rid)
    requires rid in v.replies
  {
    var (req, reply) := v.replies[rid];
    reply.Created? && req.target != 0 ==>
      req.target in store && req.target in v.orders && store[req.target] == v.orders[req.target].order
  }

  predicate Enabled(w: World, s: Step) {
    && w.status.Running?
    && match s
       case Open(_) => true
       case Deciding(sid, m) => sid < |w.entries| && !w.entries[sid].removed && (m.buyOpen ==> m.price > 0)
       case Listening(sid, rid, answer) =>
         && sid < |w.entries| && !w.entries[sid].removed && rid in w.venue.replies
         && (rid == w.entries[sid].fields.buyRid || rid == w.entries[sid].fields.sellRid)
         && Delivered(w.store, w.venue, rid)
         && LegalCancel(w.venue, Looked(w.entries[sid].fields, rid), answer)
       case Watching(sid, oid, verdict) =>
         && sid < |w.entries| && !w.entries[sid].removed && oid in w.entries[sid].watchers
         && (verdict.Withdraw? ==> LegalCancel(w.venue, oid, verdict.answer))
         && (verdict.Reprice? ==> verdict.price > 0)
       case Accepting(rid, oid, first, last) => CanAccept(w.venue, rid, oid, first, last)
       case Refusing(rid, _) => rid in w.venue.pending
       case Evolving(oid, order) => oid in w.venue.orders && Evolves(w.venue.orders[oid].order, order)
       case Syncing(oid) => oid in w.venue.orders
       case CleaningUp => true
       case Faulting => true
  }

  /** A process that has written to the session is finished with it: a watcher leaves. */
  function Remaining(e: Entry, self: multiset<Oid>, oc: Outcome): multiset<Oid>
    requires oc.Acts?
  {
    (if oc.writes == [] then e.watchers else e.watchers - self) + oc.watched
  }

  function Land(w: World, sid: Sid, self: multiset<Oid>, oc: Outcome): World
    requires sid < |w.entries|
  {
    match oc
    case Fails => w.(status := Failed)
    case Panics => w.(status := Panicked)
    case Acts(ws, _, store, venue, booked) =>
      var e := w.entries[sid];
      var e' := e.(fields := ApplyAll(ws, e.fields), watchers := Remaining(e, self, oc));
      w.(entries := w.entries[sid := e'], store := store, venue := venue, profit := w.profit + booked)
  }

  predicate Swept(e: Entry) { e.fields.isDone && !e.removed }

  /** The ids that cleaning up deletes from the store. */
  function SweptOrders(entries: seq<Entry>): set<Oid> {
    if entries == [] then {} else
      (if Swept(entries[0]) then entries[0].fields.buyOrders + entries[0].fields.sellOrders else {})
      + SweptOrders(entries[1..])
  }

  function SweepEntry(e: Entry): Entry { if Swept(e) then e.(removed := true) else e }

  function Sweep(entries: seq<Entry>): seq<Entry> {
    seq(|entries|, i requires 0 <= i < |entries| => SweepEntry(entries[i]))
  }

  ghost function Next(w: World, s: Step): World
    requires Enabled(w, s)
  {
    match s
    case Open(buyTotal) => w.(entries := w.entries + [Entry(NewFields(buyTotal), multiset{}, false)])
    case Deciding(sid, m) => Land(w, sid, multiset{}, Decide(w.entries[sid].fields, sid, w.store, w.venue, m))
    case Listening(sid, rid, answer) =>
      Land(w, sid, multiset{}, Listen(w.entries[sid].fields, rid, w.store, w.venue, answer))
    case Watching(sid, oid, verdict) =>
      Land(w, sid, multiset{oid}, Watch(w.entries[sid].fields, sid, oid, w.store, w.venue, verdict))
    case Accepting(rid, oid, first, last) => w.(venue := Accept(w.venue, rid, oid, first, last))
    case Refusing(rid, code) => w.(venue := Refuse(w.venue, rid, code))
    case Evolving(oid, order) => w.(venue := Replace(w.venue, oid, order))
    case Syncing(oid) => w.(store := w.store[oid := w.venue.orders[oid].order])
    case CleaningUp => w.(entries := Sweep(w.entries), store := w.store - SweptOrders(w.entries))
    case Faulting => w.(status := Failed)
  }

  /** A run is legal when each of its steps is enabled where it is taken. */
  ghost predicate Legal(w: World, run: seq<Step>)
    decreases |run|
  {
    run == [] || (Enabled(w, run[0]) && Legal(Next(w, run[0]), run[1..]))
  }

  ghost function Run(w: World, run: seq<Step>): World
    requires Legal(w, run)
    decreases |run|
  {
    if run == [] then w else Run(Next(w, run[0]), run[1..])
  }
}
