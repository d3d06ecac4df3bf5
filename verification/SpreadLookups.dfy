/**
 The orders that a step reads without asking whether they are there. A missing one is what the bot runs
 into; no run of the protocol ever does.
 */
module SpreadLookups {
  import opened Exchange
  import opened SpreadSession
  import opened SpreadProtocol
  import opened SpreadRuns
  import opened SpreadTheorems

  /** A decider reads a side's orders to price an order or to look at the spread, and the previous sell order when
      no sell is placed. The sell side is looked at only once the active buy order is known. */
  function DeciderReads(f: Fields, store: Store, m: Market): set<Oid> {
    var selling := f.needSell && f.activeBuy in store;
    if f.isDone then {}
    else if f.needBuy && m.buyOpen then f.buyOrders
    else
      (if f.needBuy && m.looks.sums then f.buyOrders else {})
      + (if selling && (m.sellOpen || m.looks.sums) then f.sellOrders else {})
      + (if f.needSell && m.looks.previous && f.prevSell != 0 && !(selling && m.sellOpen) then {f.prevSell} else {})
  }

  /** The orders whose sums are taken when a side completes: a sale is reported beside the volume that was bought. */
  function BookingReads(f: Fields, side: Side): set<Oid> {
    if side.Buy? then f.buyOrders else f.sellOrders + f.buyOrders
  }

  /** A listener reads the previous order of a refused request, and the side's orders if that completes the side. */
  function ListenerReads(f: Fields, rid: Rid, reply: Reply, store: Store, answer: CancelAnswer): set<Oid> {
    var (side, p) := if rid == f.buyRid then (Buy, f.prevBuy) else (Sell, f.prevSell);
    match reply
    case Created(_) => {}
    case Refused(OtherError) => {}
    case Refused(AmountTooSmall) =>
      if f.prevBuy == 0 && f.prevSell == 0 then {}
      else {p} + (if p !in store || (store[p].state == Active && (side.Buy? || !answer.Confirmed?)) then {} else BookingReads(f, side))
    case Refused(DoneOrder) =>
      if f.prevBuy == 0 && f.prevSell == 0 then {}
      else {p} + (if p in store && store[p].state == Done then BookingReads(f, side) else {})
  }

  /** A watcher reads the orders of its side when it books them, compares the spread or sizes the moved order, and the
      previous sell order when it asks whether a sell could be placed. */
  function WatcherReads(f: Fields, oid: Oid, store: Store, verdict: Verdict): set<Oid> {
    if oid !in store then {}
    else if store[oid].state == Done then BookingReads(f, store[oid].side)
    else if store[oid].state != Active then {}
    else
      (if !verdict.Reprice? && !(verdict.Withdraw? && verdict.looks.sums) then {}
       else if store[oid].side.Buy? then f.buyOrders else f.sellOrders)
      + (if store[oid].side.Sell? && verdict.Withdraw? && verdict.looks.previous && f.prevSell != 0 then {f.prevSell} else {})
  }

  /** What a step reads; the exchange, the store and the clean-up read nothing of the kind. */
  function Reads(w: World, s: Step): set<Oid>
    requires Enabled(w, s)
  {
    match s
    case Deciding(sid, m) => DeciderReads(w.entries[sid].fields, w.store, m)
    case Listening(sid, rid, answer) => ListenerReads(w.entries[sid].fields, rid, w.venue.replies[rid].1, w.store, answer)
    case Watching(sid, oid, verdict) => WatcherReads(w.entries[sid].fields, oid, w.store, verdict)
    case _ => {}
  }

  /** From any world, reachable or not, a step runs into a missing order exactly when the store lacks one that it
      reads. */
  lemma PanicsExactly(w: World, s: Step)
    requires Enabled(w, s)
    ensures Next(w, s).status.Panicked? <==> !(Reads(w, s) <= w.store.Keys)
  {
    match s
    case Deciding(sid, m) => DeciderPanics(w.entries[sid].fields, sid, w.store, w.venue, m);
    case Listening(sid, rid, answer) => ListenerPanics(w.entries[sid].fields, rid, w.store, w.venue, answer);
    case Watching(sid, oid, verdict) => WatcherPanics(w.entries[sid].fields, sid, oid, w.store, w.venue, verdict);
    case _ => OthersRunOn(w, s);
  }

  lemma DeciderPanics(f: Fields, sid: Sid, store: Store, v: Venue, m: Market)
    requires m.buyOpen ==> m.price > 0
    ensures Decide(f, sid, store, v, m).Panics? <==> !(DeciderReads(f, store, m) <= store.Keys)
  {}

  lemma ListenerPanics(f: Fields, rid: Rid, store: Store, v: Venue, answer: CancelAnswer)
    requires rid in v.replies && LegalCancel(v, Looked(f, rid), answer)
    ensures Listen(f, rid, store, v, answer).Panics? <==> !(ListenerReads(f, rid, v.replies[rid].1, store, answer) <= store.Keys)
  {}

  lemma WatcherPanics(f: Fields, sid: Sid, oid: Oid, store: Store, v: Venue, verdict: Verdict)
    requires MayMeet(v, oid, verdict)
    ensures Watch(f, sid, oid, store, v, verdict).Panics? <==> !(WatcherReads(f, oid, store, verdict) <= store.Keys)
  {}

  lemma OthersRunOn(w: World, s: Step)
    requires Enabled(w, s) && !s.Deciding? && !s.Listening? && !s.Watching?
    ensures !Next(w, s).status.Panicked?
  {}

  /** Whatever step comes next in a run, every order that it reads is in the store. */
  lemma FindsWhatItReads(run: seq<Step>, s: Step)
    requires Legal(InitialWorld(), run) && Enabled(Reached(run), s)
    ensures Reads(Reached(run), s) <= Reached(run).store.Keys
  {
    hide Reads;
    ReachedInv(run);
    NextKeeps(Reached(run), s);
    PanicsExactly(Reached(run), s);
  }
}
