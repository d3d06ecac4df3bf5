/**
 What every activation of the buy strategy does to the world, read off the session, the store and the
 exchange alone; and exactly which of them completes a session, asks for an order, sends or books one.
 */
module BuyDeeds {
  import opened Totals
  import opened Exchange
  import opened Lanes
  import opened Budgets
  import opened Rounding
  import opened BuySession
  import opened BuyProtocol
  import opened BuyInvariant
  import opened BuyTheorems
  import P = SpreadProtocol
  import D = SpreadDeeds

  datatype Deed =
    | Does(fields: Fields, watchers: multiset<Oid>, store: Store, venue: Venue, cost: int, volume: int)
    | Breaks

  function Follows(w: World, sid: Sid, d: Deed): World
    requires sid < |w.entries|
  {
    if d.Breaks? then w.(status := P.Failed)
    else World(w.entries[sid := Entry(d.fields, d.watchers)], d.store, d.venue, w.boughtCost + d.cost, w.boughtVolume + d.volume, w.status)
  }

  ghost predicate ComesTo(oc: Outcome, e: Entry, self: multiset<Oid>, d: Deed) {
    match oc
    case Fails => d.Breaks?
    case Panics => false
    case Acts(_, _, store, venue, cost, volume) =>
      d == Does(After(e, self, oc).fields, After(e, self, oc).watchers, store, venue, cost, volume)
  }

  lemma Comes(w: World, sid: Sid, self: multiset<Oid>, oc: Outcome, d: Deed)
    requires sid < |w.entries| && ComesTo(oc, w.entries[sid], self, d)
    ensures Land(w, sid, self, oc) == Follows(w, sid, d)
  {}

  function Rests(e: Entry, store: Store, v: Venue): Deed { Does(e.fields, e.watchers, store, v, 0, 0) }

  /** A request for what is left of the total at a price, which may alter an order. */
  ghost function Bid(f: Fields, sid: Sid, store: Store, price: nat, target: Oid): Request
    requires f.orders <= store.Keys && price > 0
  {
    var cost := Total(f.orders, Costs(store));
    Request(sid, Buy, price, RoundHalfEven((f.buyTotal - cost as real) / (price as real)), target, cost)
  }

  lemma SameSums(f: Fields, sid: Sid, store: Store, price: nat, target: Oid)
    ensures f.orders <= store.Keys ==>
              && BoughtCost(f, store) == Total(f.orders, Costs(store)) && BoughtVolume(f, store) == Total(f.orders, Fills(store))
              && (price > 0 ==> BuyRequest(f, sid, store, price, target) == Bid(f, sid, store, price, target))
  {}

  /** The write lists, added up. */
  lemma AddedUp(f: Fields, oid: Oid, ext: nat, rid: Rid)
    ensures ApplyAll([], f) == f && ApplyAll([Need(false), Need(true)], f) == f.(need := true)
    ensures ApplyAll([Need(false), SetExt(ext), SetRid(rid)], f) == f.(need := false, ext := ext, rid := rid)
    ensures ApplyAll([SetPrev(oid), SetActive(0), Need(true)], f) == f.(prev := oid, active := 0, need := true)
    ensures ApplyAll([SetPrev(oid), SetExt(ext), SetRid(rid)], f) == f.(prev := oid, ext := ext, rid := rid)
    ensures ApplyAll([SetExt(0), SetRid(0), Need(true)], f) == f.(ext := 0, rid := 0, need := true)
    ensures ApplyAll([SetActive(oid), SetExt(0), SetRid(0), Add(oid)], f)
            == f.(active := oid, ext := 0, rid := 0, orders := f.orders + {oid})
    ensures ApplyAll([Executed(oid)], f) == Complete(f, oid)
  {
    hide ApplyAll;
    NothingAdds(f);
    ApplyTwo(Need(false), Need(true), f);
    ApplyThree(Need(false), SetExt(ext), SetRid(rid), f);
    ApplyThree(SetPrev(oid), SetActive(0), Need(true), f);
    ApplyThree(SetPrev(oid), SetExt(ext), SetRid(rid), f);
    ApplyThree(SetExt(0), SetRid(0), Need(true), f);
    ApplyFour(SetActive(oid), SetExt(0), SetRid(0), Add(oid), f);
    ApplyOne(Executed(oid), f);
  }

  lemma NothingAdds(f: Fields)
    ensures ApplyAll([], f) == f
  {}

  function Complete(f: Fields, oid: Oid): Fields {
    f.(completed := f.completed + 1, prev := 0, active := oid, ext := 0, rid := 0, isDone := true)
  }

  /** The session is complete, and cost and volume of all its orders are booked. */
  ghost function Completed(e: Entry, oid: Oid, watchers: multiset<Oid>, store: Store, v: Venue): Deed
    requires e.fields.orders <= store.Keys
  {
    Does(Complete(e.fields, oid), watchers, store, v, Total(e.fields.orders, Costs(store)), Total(e.fields.orders, Fills(store)))
  }

  // ----- the three processes -----

  ghost function Decides(e: Entry, sid: Sid, store: Store, v: Venue, m: P.Market): Deed
    requires (e.fields.need ==> e.fields.orders <= store.Keys) && (m.buyOpen ==> m.price > 0)
  {
    var f := e.fields;
    if f.need && m.buyOpen && m.funded then
      Does(f.(need := false, ext := m.ext, rid := v.nextRid), e.watchers, store, D.Asked(v, Bid(f, sid, store, m.price, 0)), 0, 0)
    else Rests(e, store, v)
  }

  /** A look at a watched order: a done one completes the session, a cancelled or rejected one, or one that is
      withdrawn now, is replaced, and an active one may be moved. */
  ghost function LooksAt(e: Entry, sid: Sid, oid: Oid, store: Store, v: Venue, verdict: P.Verdict): Deed
    requires (oid in store ==> e.fields.orders <= store.Keys) && P.MayMeet(v, oid, verdict)
  {
    var f := e.fields;
    var released := f.(prev := oid, active := 0, need := true);
    if oid !in store then Rests(e, store, v)
    else match store[oid].state
      case Done => Completed(e, oid, multiset{}, store, v)
      case Cancelled => Does(released, multiset{}, store, v, 0, 0)
      case Rejected => Does(released, multiset{}, store, v, 0, 0)
      case Active =>
        (match verdict
         case Keep => Rests(e, store, v)
         case Withdraw(_, Confirmed(last)) => Does(released, multiset{}, store[oid := last], D.WithOrder(v, oid, last), 0, 0)
         case Withdraw(_, AlreadyDone) => Rests(e, store, v)
         case Withdraw(_, CancelError) => Breaks
         case Reprice(price, ext) =>
           Does(f.(prev := oid, ext := ext, rid := v.nextRid), multiset{}, store, D.Asked(v, Bid(f, sid, store, price, oid)), 0, 0))
      case _ => Rests(e, store, v)
  }

  /** A reply: a created order is taken up and watched; for a refused request the previous order decides. Unlike in the
      spread strategy, an active order that is cancelled now completes the session. */
  ghost function Hears(e: Entry, reply: Reply, store: Store, v: Venue, answer: P.CancelAnswer): Deed
    requires e.fields.prev != 0 ==> e.fields.prev in e.fields.orders && e.fields.orders <= store.Keys
    requires P.LegalCancel(v, e.fields.prev, answer)
  {
    var (f, v') := (e.fields, D.WithoutReply(v, e.fields.rid));
    match reply
    case Created(oid) => Does(f.(active := oid, ext := 0, rid := 0, orders := f.orders + {oid}), multiset{oid}, store, v', 0, 0)
    case Refused(code) =>
      if f.prev == 0 || code.OtherError? then Breaks
      else
        var p := store[f.prev].state;
        match code
        case AmountTooSmall =>
          if p != Active then Completed(e, f.prev, multiset{}, store, v')
          else if answer.Confirmed? then
            Completed(e, f.prev, multiset{}, store[f.prev := answer.last], D.WithOrder(v', f.prev, answer.last))
          else Breaks
        case DoneOrder =>
          if p == Done then Completed(e, f.prev, multiset{}, store, v')
          else if p == Cancelled then Does(f.(ext := 0, rid := 0, need := true), multiset{}, store, v', 0, 0)
          else Breaks
  }

  lemma DecideComes(e: Entry, sid: Sid, store: Store, v: Venue, m: P.Market)
    requires (e.fields.need ==> e.fields.orders <= store.Keys && !e.fields.isDone) && (m.buyOpen ==> m.price > 0)
    ensures ComesTo(Decide(e.fields, sid, store, v, m), e, multiset{}, Decides(e, sid, store, v, m))
  {
    hide BuyRequest, Bid, Apply, ApplyAll;
    SameSums(e.fields, sid, store, m.price, 0);
    AddedUp(e.fields, 0, m.ext, v.nextRid);
    assert e.watchers - multiset{} == e.watchers && e.watchers + multiset{} == e.watchers;
  }

  lemma FlagsCome(e: Entry, self: multiset<Oid>, oid: Oid, store: Store, v: Venue)
    requires e.fields.orders <= store.Keys && e.watchers - self == multiset{}
    ensures ComesTo(SetFlags(e.fields, oid, store, v), e, self, Completed(e, oid, multiset{}, store, v))
  {
    hide Apply, ApplyAll, Complete, Costs, Fills;
    AddedUp(e.fields, oid, 0, 0);
  }

  lemma WritesCome(e: Entry, self: multiset<Oid>, ws: seq<Write>, f: Fields, watched: multiset<Oid>, store: Store, v: Venue)
    requires ws != [] && ApplyAll(ws, e.fields) == f && e.watchers - self == multiset{}
    ensures ComesTo(Acts(ws, watched, store, v, 0, 0), e, self, Does(f, watched, store, v, 0, 0))
  {}

  lemma RestCome(e: Entry, self: multiset<Oid>, store: Store, v: Venue)
    ensures ComesTo(Idle(store, v), e, self, Rests(e, store, v))
  {
    NothingAdds(e.fields);
    assert e.watchers + multiset{} == e.watchers;
  }

  lemma WatchComes(e: Entry, sid: Sid, oid: Oid, store: Store, v: Venue, verdict: P.Verdict)
    requires (oid in store ==> e.fields.orders <= store.Keys) && P.MayMeet(v, oid, verdict)
    requires e.watchers == multiset{oid} && oid == e.fields.active
    ensures ComesTo(Watch(e.fields, sid, oid, store, v, verdict), e, multiset{oid}, LooksAt(e, sid, oid, store, v, verdict))
  {
    hide BuyRequest, Bid, Apply, ApplyAll, SetFlags, Completed, ComesTo;
    assert e.watchers - multiset{oid} == multiset{};
    var f := e.fields;
    RestCome(e, multiset{oid}, store, v);
    BreaksCome(e, multiset{oid});
    if oid in store {
      AddedUp(f, oid, if verdict.Reprice? then verdict.ext else 0, v.nextRid);
      var (release, released) := ([SetPrev(oid), SetActive(0), Need(true)], f.(prev := oid, active := 0, need := true));
      FlagsCome(e, multiset{oid}, oid, store, v);
      WritesCome(e, multiset{oid}, release, released, multiset{}, store, v);
      match verdict
      case Keep =>
      case Withdraw(_, answer) =>
        if answer.Confirmed? {
          WritesCome(e, multiset{oid}, release, released, multiset{}, store[oid := answer.last], Replace(v, oid, answer.last));
        }
      case Reprice(price, ext) =>
        SameSums(f, sid, store, price, oid);
        WritesCome(e, multiset{oid}, [SetPrev(oid), SetExt(ext), SetRid(v.nextRid)], f.(prev := oid, ext := ext, rid := v.nextRid),
                   multiset{}, store, Send(v, BuyRequest(f, sid, store, price, oid)));
    }
  }

  lemma BreaksCome(e: Entry, self: multiset<Oid>)
    ensures ComesTo(Fails, e, self, Breaks)
  {}

  lemma ListenComes(e: Entry, store: Store, v: Venue, answer: P.CancelAnswer)
    requires e.fields.rid in v.replies && P.LegalCancel(v, e.fields.prev, answer) && e.watchers == multiset{}
    requires e.fields.prev != 0 ==> e.fields.prev in e.fields.orders && e.fields.orders <= store.Keys
    ensures ComesTo(Listen(e.fields, e.fields.rid, store, v, answer), e, multiset{},
                    Hears(e, v.replies[e.fields.rid].1, store, v, answer))
  {
    hide Apply, ApplyAll, SetFlags, Completed, ComesTo;
    var (f, v') := (e.fields, TakeReply(v, e.fields.rid));
    BreaksCome(e, multiset{});
    match v.replies[f.rid].1
    case Created(oid) =>
      AddedUp(f, oid, 0, 0);
      WritesCome(e, multiset{}, [SetActive(oid), SetExt(0), SetRid(0), Add(oid)],
                 f.(active := oid, ext := 0, rid := 0, orders := f.orders + {oid}), multiset{oid}, store, v');
    case Refused(code) =>
      if f.prev != 0 {
        AddedUp(f, f.prev, 0, 0);
        FlagsCome(e, multiset{}, f.prev, store, v');
        WritesCome(e, multiset{}, [SetExt(0), SetRid(0), Need(true)], f.(ext := 0, rid := 0, need := true), multiset{}, store, v');
        if answer.Confirmed? {
          FlagsCome(e, multiset{}, f.prev, store[f.prev := answer.last], Replace(v', f.prev, answer.last));
        }
      }
  }

  // ----- in every reachable world -----

  ghost predicate Activates(s: Step) { s.Deciding? || s.Watching? || s.Listening? }

  /** What an activation comes to. */
  ghost function DeedOf(w: World, s: Step): Deed
    requires WorldInv(w) && Enabled(w, s) && Activates(s)
  {
    Facts(w, s);
    var e := w.entries[s.sid];
    match s
    case Deciding(sid, m) => Decides(e, sid, w.store, w.venue, m)
    case Watching(sid, oid, verdict) => LooksAt(e, sid, oid, w.store, w.venue, verdict)
    case Listening(sid, rid, answer) => Hears(e, w.venue.replies[rid].1, w.store, w.venue, answer)
  }

  lemma Facts(w: World, s: Step)
    requires WorldInv(w) && Enabled(w, s) && Activates(s)
    ensures s.sid < |w.entries| && w.venue.nextRid != 0 && w.entries[s.sid].fields.rid < w.venue.nextRid && 0 !in w.store
    ensures var (e, f) := (w.entries[s.sid], w.entries[s.sid].fields);
            && (s.Deciding? ==> (f.need ==> f.orders <= w.store.Keys && !f.isDone && f.rid == 0) && (s.market.buyOpen ==> s.market.price > 0))
            && (s.Watching? ==>
                  && e.watchers == multiset{s.oid} && s.oid == f.active && (s.oid in w.store ==> f.orders <= w.store.Keys)
                  && P.MayMeet(w.venue, s.oid, s.verdict) && !f.need && !f.isDone && f.rid == 0)
            && (s.Listening? ==>
                  && s.rid in w.venue.replies && s.rid == f.rid && f.rid != 0 && e.watchers == multiset{} && !f.need && !f.isDone
                  && (f.prev != 0 ==> f.prev in f.orders && f.orders <= w.store.Keys) && P.LegalCancel(w.venue, f.prev, s.answer))
  {
    hide Lanes.Open, Closed, R.Attributed, AllKnown, Ledger, EntryInv;
    var e := w.entries[s.sid];
    assert EntryInv(e, s.sid, w.store, w.venue);
    OrdersKnown(e, s.sid, w.store, w.venue);
    match s
    case Deciding(sid, m) => if e.fields.need { NeededFacts(e, sid, w.store, w.venue); }
    case Watching(sid, oid, verdict) => WatchedFacts(e, sid, w.store, w.venue, oid);
    case Listening(sid, rid, answer) => ReplyFacts(e, sid, w.store, w.venue);
  }

  lemma NeededFacts(e: Entry, sid: Sid, store: Store, v: Venue)
    requires Ready(e, sid, store, v) && e.fields.need
    ensures !e.fields.isDone && e.fields.rid == 0 && e.fields.orders <= store.Keys
  {
    hide Waiting, Budgeted, Tracked;
    if !e.fields.isDone { NeedIsSettled(e, sid, store, v); }
  }

  /** Every activation does exactly that. */
  lemma ActivatesExactly(w: World, s: Step)
    requires WorldInv(w) && Enabled(w, s) && Activates(s)
    ensures s.sid < |w.entries| && Next(w, s) == Follows(w, s.sid, DeedOf(w, s))
  {
    hide WorldInv, Decide, Watch, Listen, Decides, LooksAt, Hears, ComesTo, Follows;
    Facts(w, s);
    var e := w.entries[s.sid];
    match s
    case Deciding(sid, m) =>
      DecideComes(e, sid, w.store, w.venue, m);
      Comes(w, sid, multiset{}, Decide(e.fields, sid, w.store, w.venue, m), DeedOf(w, s));
    case Watching(sid, oid, verdict) =>
      WatchComes(e, sid, oid, w.store, w.venue, verdict);
      Comes(w, sid, multiset{oid}, Watch(e.fields, sid, oid, w.store, w.venue, verdict), DeedOf(w, s));
    case Listening(sid, rid, answer) =>
      ListenComes(e, w.store, w.venue, answer);
      Comes(w, sid, multiset{}, Listen(e.fields, rid, w.store, w.venue, answer), DeedOf(w, s));
  }

  // ----- why -----

  predicate HearsRefused(w: World, s: Step, code: ErrorCode) {
    && s.Listening? && s.sid < |w.entries| && s.rid in w.venue.replies && w.venue.replies[s.rid].1 == Refused(code)
    && w.entries[s.sid].fields.prev in w.store
  }

  function PrevState(w: World, sid: Sid): State
    requires sid < |w.entries| && w.entries[sid].fields.prev in w.store
  {
    w.store[w.entries[sid].fields.prev].state
  }

  predicate SeesState(w: World, s: Step, state: State) {
    s.Watching? && s.oid in w.store && w.store[s.oid].state == state
  }

  /** A session ends when its watched order is done, when its alter is refused because the order is done, or because
      what is left is too small and the order is over or cancelled on the spot. */
  predicate Ends(w: World, s: Step) {
    || SeesState(w, s, Done)
    || (HearsRefused(w, s, DoneOrder) && PrevState(w, s.sid) == Done)
    || (HearsRefused(w, s, AmountTooSmall) && (PrevState(w, s.sid) != Active || s.answer.Confirmed?))
  }

  /** It asks for a new order when its watched order is cancelled, rejected or withdrawn, or its alter is refused because
      the order was cancelled. */
  predicate AsksAgain(w: World, s: Step) {
    || SeesState(w, s, Cancelled) || SeesState(w, s, Rejected)
    || (SeesState(w, s, Active) && s.verdict.Withdraw? && s.verdict.answer.Confirmed?)
    || (HearsRefused(w, s, DoneOrder) && PrevState(w, s.sid) == Cancelled)
  }

  predicate Places(w: World, s: Step) {
    s.Deciding? && s.sid < |w.entries| && s.market.funded && s.market.buyOpen && w.entries[s.sid].fields.need
  }

  predicate Moves(w: World, s: Step) { SeesState(w, s, Active) && s.verdict.Reprice? }

  predicate GivesUp(w: World, s: Step) {
    || (SeesState(w, s, Active) && s.verdict.Withdraw? && s.verdict.answer.CancelError?)
    || (s.Listening? && s.sid < |w.entries| && s.rid in w.venue.replies && w.venue.replies[s.rid].1.Refused?
        && var (p, code) := (w.entries[s.sid].fields.prev, w.venue.replies[s.rid].1.code);
           || p !in w.store || code.OtherError?
           || (code.AmountTooSmall? && w.store[p].state == Active && !s.answer.Confirmed?)
           || (code.DoneOrder? && w.store[p].state != Done && w.store[p].state != Cancelled))
  }

  /** The reasons, for the fields and the books. */
  ghost predicate Explained(w: World, s: Step, d: Deed)
    requires Activates(s) && s.sid < |w.entries|
  {
    var f := w.entries[s.sid].fields;
    && (d.Breaks? <==> GivesUp(w, s))
    && (d.Does? ==>
          && (d.fields.isDone <==> f.isDone || Ends(w, s))
          && d.fields.completed == f.completed + (if Ends(w, s) then 1 else 0)
          && (d.fields.need <==> AsksAgain(w, s) || (f.need && !Places(w, s)))
          && (d.fields.rid != 0 && d.fields.rid != f.rid <==> Places(w, s) || Moves(w, s))
          && (if Ends(w, s) then f.orders <= d.store.Keys && d.cost == Total(f.orders, Costs(d.store)) && d.volume == Total(f.orders, Fills(d.store))
              else d.cost == 0 && d.volume == 0))
  }

  lemma DecidingExplained(w: World, sid: Sid, m: P.Market)
    requires sid < |w.entries| && w.venue.nextRid != 0 && (m.buyOpen ==> m.price > 0)
    requires var f := w.entries[sid].fields; (f.need ==> f.orders <= w.store.Keys) && f.rid < w.venue.nextRid
    ensures Explained(w, Deciding(sid, m), Decides(w.entries[sid], sid, w.store, w.venue, m))
  {
    hide D.Asked, Bid;
  }

  lemma WatchingExplained(w: World, sid: Sid, oid: Oid, verdict: P.Verdict)
    requires sid < |w.entries| && w.venue.nextRid != 0 && P.MayMeet(w.venue, oid, verdict)
    requires var f := w.entries[sid].fields;
             (oid in w.store ==> f.orders <= w.store.Keys) && !f.need && !f.isDone && f.rid == 0
    ensures Explained(w, Watching(sid, oid, verdict), LooksAt(w.entries[sid], sid, oid, w.store, w.venue, verdict))
  {
    hide D.Asked, D.WithOrder, Bid, Costs, Fills, P.LegalCancel;
  }

  lemma ListeningExplained(w: World, sid: Sid, rid: Rid, answer: P.CancelAnswer)
    requires sid < |w.entries| && rid in w.venue.replies && 0 !in w.store
    requires var f := w.entries[sid].fields;
             && rid == f.rid && f.rid != 0 && !f.need && !f.isDone && P.LegalCancel(w.venue, f.prev, answer)
             && (f.prev != 0 ==> f.prev in f.orders && f.orders <= w.store.Keys)
    ensures Explained(w, Listening(sid, rid, answer), Hears(w.entries[sid], w.venue.replies[rid].1, w.store, w.venue, answer))
  {
    hide D.WithOrder, D.WithoutReply, Costs, Fills, P.LegalCancel;
  }

  /** In every reachable world an activation completes the session, raises or clears its flag, sends a request, books or
      gives up for these reasons and for no others. */
  lemma EveryDeedExplained(w: World, s: Step)
    requires WorldInv(w) && Enabled(w, s) && Activates(s)
    ensures s.sid < |w.entries| && Explained(w, s, DeedOf(w, s))
  {
    hide WorldInv, Decides, LooksAt, Hears, Explained;
    Facts(w, s);
    match s
    case Deciding(sid, m) => DecidingExplained(w, sid, m);
    case Watching(sid, oid, verdict) => WatchingExplained(w, sid, oid, verdict);
    case Listening(sid, rid, answer) => ListeningExplained(w, sid, rid, answer);
  }

  /** The same, said of the world that the step leaves. */
  lemma EveryStepExplained(w: World, s: Step)
    requires WorldInv(w) && Enabled(w, s) && Activates(s)
    ensures s.sid < |w.entries| && |Next(w, s).entries| == |w.entries|
    ensures Next(w, s).status.Failed? <==> GivesUp(w, s)
    ensures Next(w, s).status.Running? ==>
              var (w', f, f') := (Next(w, s), w.entries[s.sid].fields, Next(w, s).entries[s.sid].fields);
              && (f'.isDone <==> f.isDone || Ends(w, s))
              && f'.completed == f.completed + (if Ends(w, s) then 1 else 0)
              && (f'.need <==> AsksAgain(w, s) || (f.need && !Places(w, s)))
              && (f'.rid != 0 && f'.rid != f.rid <==> Places(w, s) || Moves(w, s))
              && (if Ends(w, s)
                  then f.orders <= w'.store.Keys
                       && w'.boughtCost == w.boughtCost + Total(f.orders, Costs(w'.store))
                       && w'.boughtVolume == w.boughtVolume + Total(f.orders, Fills(w'.store))
                  else w'.boughtCost == w.boughtCost && w'.boughtVolume == w.boughtVolume)
  {
    hide WorldInv, DeedOf, Ends, AsksAgain, Places, Moves, GivesUp, Next;
    RunsOn(w, s);
    ActivatesExactly(w, s);
    EveryDeedExplained(w, s);
  }

  lemma RunsOn(w: World, s: Step)
    requires Enabled(w, s)
    ensures w.status.Running?
  {}

  // ----- what is looked up -----

  /** The orders that a step reads without asking whether they are there. */
  function Reads(w: World, s: Step): set<Oid>
    requires Enabled(w, s)
  {
    match s
    case Deciding(sid, m) =>
      var f := w.entries[sid].fields;
      if f.need && !f.isDone && (m.buyOpen || m.looks.sums) then f.orders else {}
    case Watching(sid, oid, verdict) =>
      if SeesState(w, s, Done) || (SeesState(w, s, Active) && (verdict.Reprice? || (verdict.Withdraw? && verdict.looks.sums)))
      then w.entries[sid].fields.orders else {}
    case Listening(sid, rid, _) =>
      var (f, reply) := (w.entries[sid].fields, w.venue.replies[rid].1);
      if reply.Created? || reply.code.OtherError? || f.prev == 0 then {}
      else {f.prev} + (if f.prev in w.store && Ends(w, s) then f.orders else {})
    case _ => {}
  }

  /** From any world, reachable or not, a step runs into a missing order exactly when the store lacks one that it reads. */
  lemma PanicsExactly(w: World, s: Step)
    requires Enabled(w, s)
    ensures Next(w, s).status.Panicked? <==> !(Reads(w, s) <= w.store.Keys)
  {
    hide BuyRequest, Send, Accept, Refuse, CanAccept, P.LegalCancel;
  }

  lemma FindsWhatItReads(run: seq<Step>, s: Step)
    requires Legal(InitialWorld(), run) && Enabled(Reached(run), s)
    ensures Reads(Reached(run), s) <= Reached(run).store.Keys
  {
    hide Reads;
    ReachedInv(run);
    NextKeeps(Reached(run), s);
    PanicsExactly(Reached(run), s);
  }
}
