/**
 The buy strategy (strategy/buy.go): one lane per session, driven by a decider, a listener and
 watchers like the spread strategy, but done after one side.
 */
module BuyProtocol {
  import opened Totals
  import opened Exchange
  import opened Rounding
  import opened BuySession
  import P = SpreadProtocol

  datatype Outcome =
    | Acts(writes: seq<Write>, watched: multiset<Oid>, store: Store, venue: Venue, cost: int, volume: int)
    | Fails
    | Panics

  function Idle(store: Store, v: Venue): Outcome { Acts([], multiset{}, store, v, 0, 0) }

  function Writes(ws: seq<Write>, store: Store, v: Venue): Outcome { Acts(ws, multiset{}, store, v, 0, 0) }

  ghost function BoughtCost(f: Fields, store: Store): int
    requires f.orders <= store.Keys
  { Total(f.orders, Costs(store)) }

  ghost function BoughtVolume(f: Fields, store: Store): int
    requires f.orders <= store.Keys
  { Total(f.orders, Fills(store)) }

  ghost function BuyRequest(f: Fields, sid: Sid, store: Store, price: nat, target: Oid): Request
    requires f.orders <= store.Keys && price > 0
  {
    var cost := BoughtCost(f, store);
    Request(sid, Buy, price, RoundHalfEven((f.buyTotal - cost as real) / (price as real)), target, cost)
  }

  // ----- the processes -----

  ghost function Decide(f: Fields, sid: Sid, store: Store, v: Venue, m: P.Market): Outcome
    requires m.buyOpen ==> m.price > 0
  {
    if f.isDone || !f.need then Idle(store, v)
    else if (m.buyOpen || m.looks.sums) && !(f.orders <= store.Keys) then Panics
    else if !m.buyOpen then Idle(store, v)
    else if !m.funded then Writes([Need(false), Need(true)], store, v)
    else Writes([Need(false), SetExt(m.ext), SetRid(v.nextRid)], store, Send(v, BuyRequest(f, sid, store, m.price, 0)))
  }

  ghost function SetFlags(f: Fields, oid: Oid, store: Store, v: Venue): Outcome {
    if !(f.orders <= store.Keys) then Panics
    else Acts([Executed(oid)], multiset{}, store, v, BoughtCost(f, store), BoughtVolume(f, store))
  }

  /** Unlike the spread strategy's buy side, a cancelled order goes on to complete the session. */
  ghost function SetExecuted(f: Fields, oid: Oid, order: Order, store: Store, v: Venue, answer: P.CancelAnswer): Outcome
    requires P.LegalCancel(v, oid, answer)
  {
    if order.state.Active? then
      if answer.Confirmed? then SetFlags(f, oid, store[oid := answer.last], Replace(v, oid, answer.last)) else Fails
    else SetFlags(f, oid, store, v)
  }

  ghost function Refusal(f: Fields, code: ErrorCode, store: Store, v: Venue, answer: P.CancelAnswer): Outcome
    requires P.LegalCancel(v, f.prev, answer)
  {
    if code.OtherError? || f.prev == 0 then Fails
    else if f.prev !in store then Panics
    else if code.AmountTooSmall? || store[f.prev].state.Done? then SetExecuted(f, f.prev, store[f.prev], store, v, answer)
    else if store[f.prev].state.Cancelled? then Writes([SetExt(0), SetRid(0), Need(true)], store, v)
    else Fails
  }

  ghost function Listen(f: Fields, rid: Rid, store: Store, v: Venue, answer: P.CancelAnswer): Outcome
    requires rid in v.replies && P.LegalCancel(v, f.prev, answer)
  {
    match v.replies[rid].1
    case Created(oid) => Acts([SetActive(oid), SetExt(0), SetRid(0), Add(oid)], multiset{oid}, store, TakeReply(v, rid), 0, 0)
    case Refused(code) => Refusal(f, code, store, TakeReply(v, rid), answer)
  }

  ghost function Watch(f: Fields, sid: Sid, oid: Oid, store: Store, v: Venue, verdict: P.Verdict): Outcome
    requires verdict.Withdraw? ==> P.LegalCancel(v, oid, verdict.answer)
    requires verdict.Reprice? ==> verdict.price > 0
  {
    if oid !in store || store[oid].state.Code() < Active.Code() then Idle(store, v)
    else if store[oid].state.Done? then SetExecuted(f, oid, store[oid], store, v, P.AlreadyDone)
    else if store[oid].state.Final() then Writes([SetPrev(oid), SetActive(0), Need(true)], store, v)
    else if verdict.Sums() && !(f.orders <= store.Keys) then Panics
    else match verdict
      case Keep => Idle(store, v)
      case Withdraw(_, Confirmed(last)) =>
        Writes([SetPrev(oid), SetActive(0), Need(true)], store[oid := last], Replace(v, oid, last))
      case Withdraw(_, AlreadyDone) => Idle(store, v)
      case Withdraw(_, CancelError) => Fails
      case Reprice(price, ext) =>
        Writes([SetPrev(oid), SetExt(ext), SetRid(v.nextRid)], store, Send(v, BuyRequest(f, sid, store, price, f.active)))
  }

  // ----- the world -----

  datatype Entry = Entry(fields: Fields, watchers: multiset<Oid>)

  datatype World = World(entries: seq<Entry>, store: Store, venue: Venue, boughtCost: int, boughtVolume: int, status: P.Status)

  function InitialWorld(): World { World([], map[], P.InitialVenue(), 0, 0, P.Running) }

  datatype Step =
    | Open(buyTotal: real)
    | Deciding(sid: Sid, market: P.Market)
    | Listening(sid: Sid, rid: Rid, answer: P.CancelAnswer)
    | Watching(sid: Sid, oid: Oid, verdict: P.Verdict)
    | Accepting(rid: Rid, oid: Oid, first: State, last: Order)
    | Refusing(rid: Rid, code: ErrorCode)
    | Evolving(oid: Oid, order: Order)
    | Syncing(oid: Oid)
    | Faulting

  predicate Enabled(w: World, s: Step) {
    && w.status.Running?
    && match s
       case Open(_) => true
       case Deciding(sid, m) => sid < |w.entries| && (m.buyOpen ==> m.price > 0)
       case Listening(sid, rid, answer) =>
         && sid < |w.entries| && rid in w.venue.replies && rid == w.entries[sid].fields.rid
         && P.Delivered(w.store, w.venue, rid) && P.LegalCancel(w.venue, w.entries[sid].fields.prev, answer)
       case Watching(sid, oid, verdict) =>
         && sid < |w.entries| && oid in w.entries[sid].watchers
         && (verdict.Withdraw? ==> P.LegalCancel(w.venue, oid, verdict.answer))
         && (verdict.Reprice? ==> verdict.price > 0)
       case Accepting(rid, oid, first, last) => CanAccept(w.venue, rid, oid, first, last)
       case Refusing(rid, _) => rid in w.venue.pending
       case Evolving(oid, order) => oid in w.venue.orders && Evolves(w.venue.orders[oid].order, order)
       case Syncing(oid) => oid in w.venue.orders
       case Faulting => true
  }

  function After(e: Entry, self: multiset<Oid>, oc: Outcome): Entry
    requires oc.Acts?
  {
    Entry(ApplyAll(oc.writes, e.fields), (if oc.writes == [] then e.watchers else e.watchers - self) + oc.watched)
  }

  function Land(w: World, sid: Sid, self: multiset<Oid>, oc: Outcome): World
    requires sid < |w.entries|
  {
    match oc
    case Fails => w.(status := P.Failed)
    case Panics => w.(status := P.Panicked)
    case Acts(_, _, store, venue, cost, volume) =>
      World(w.entries[sid := After(w.entries[sid], self, oc)], store, venue, w.boughtCost + cost, w.boughtVolume + volume, w.status)
  }

  ghost function Next(w: World, s: Step): World
    requires Enabled(w, s)
  {
    match s
    case Open(buyTotal) => w.(entries := w.entries + [Entry(NewFields(buyTotal), multiset{})])
    case Deciding(sid, m) => Land(w, sid, multiset{}, Decide(w.entries[sid].fields, sid, w.store, w.venue, m))
    case Listening(sid, rid, answer) => Land(w, sid, multiset{}, Listen(w.entries[sid].fields, rid, w.store, w.venue, answer))
    case Watching(sid, oid, verdict) =>
      Land(w, sid, multiset{oid}, Watch(w.entries[sid].fields, sid, oid, w.store, w.venue, verdict))
    case Accepting(rid, oid, first, last) => w.(venue := Accept(w.venue, rid, oid, first, last))
    case Refusing(rid, code) => w.(venue := Refuse(w.venue, rid, code))
    case Evolving(oid, order) => w.(venue := Replace(w.venue, oid, order))
    case Syncing(oid) => w.(store := w.store[oid := w.venue.orders[oid].order])
    case Faulting => w.(status := P.Failed)
  }

  ghost predicate Legal(w: World, run: seq<Step>)
    decreases |run|
  {
    run == [] || (Enabled(w, run[0]) && Legal(Next(w, run[0]), run[1..]))
  }

  ghost function Run(w: World, run: seq<Step>): World
    requires Legal(w, run)
    decreases |run|
  {
    if run == [] then w else Run(Next(w, run[0]), run[1..])
  }
}
