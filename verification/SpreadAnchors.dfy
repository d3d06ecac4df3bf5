/**
 What a session's ids are anchored to: an alter is aimed at the active order, and when a session has
 stalled its active order is the one that was cancelled under way.
 */
module SpreadAnchors {
  import opened Exchange
  import opened Lanes
  import opened SpreadSession
  import opened SpreadProtocol
  import opened SpreadInvariant
  import opened SpreadSteps
  import opened SpreadRuns
  import opened SpreadTheorems
  import opened SpreadStalls

  predicate AimedAtActive(f: Fields, req: Request) { req.target == 0 || req.target == f.activeBuy }

  predicate SellKnown(f: Fields) { f.activeSell == 0 || f.activeSell in f.sellOrders }

  /** An alter is aimed at the active order, and a stalled session's active order is its previous one,
      cancelled in the store. An active sell order is one of the session's. */
  ghost predicate Anchored(e: Entry, store: Store, v: Venue) {
    var f := e.fields;
    && (f.buyRid in v.pending ==> AimedAtActive(f, v.pending[f.buyRid]))
    && (f.buyRid in v.replies ==> AimedAtActive(f, v.replies[f.buyRid].0))
    && (Stalled(BuyLane(e), v) ==> f.activeBuy == f.prevBuy && f.prevBuy in store && store[f.prevBuy].state.Cancelled?)
    && SellKnown(f)
  }

  predicate Unnumbered(v: Venue) { 0 !in v.pending && 0 !in v.replies }

  lemma NoRequestAnchors(e: Entry, store: Store, v: Venue)
    requires Unnumbered(v) && e.fields.buyRid == 0
    ensures Anchored(e, store, v) <==> SellKnown(e.fields)
  {}

  /** Writes that store no buy request id and no active sell order. */
  predicate Calm(ws: seq<Write>) {
    forall w | w in ws :: !w.BuyRid? && (w.ActiveSell? ==> w.oid == 0)
  }

  lemma {:induction false} CalmKeeps(ws: seq<Write>, f: Fields)
    requires Calm(ws) && SellKnown(f)
    ensures SellKnown(ApplyAll(ws, f)) && (f.buyRid == 0 ==> ApplyAll(ws, f).buyRid == 0)
    decreases |ws|
  {
    if ws != [] {
      assert ws[0] in ws && Calm(ws[1..]);
      CalmKeeps(ws[1..], Apply(ws[0], f));
    }
  }

  lemma CalmAnchors(e: Entry, self: multiset<Oid>, oc: Outcome)
    requires oc.Acts? && Calm(oc.writes) && Unnumbered(oc.venue) && e.fields.buyRid == 0 && SellKnown(e.fields)
    ensures Anchored(After(e, self, oc), oc.store, oc.venue)
  {
    hide Anchored, Calm, SellKnown;
    CalmKeeps(oc.writes, e.fields);
    NoRequestAnchors(After(e, self, oc), oc.store, oc.venue);
  }

  /** A buy request is sent and its id stored last. */
  lemma SentAnchors(e: Entry, self: multiset<Oid>, first: Write, ext: ExtId, store: Store, v: Venue, req: Request)
    requires Unnumbered(v) && VenueValid(v) && SellKnown(e.fields) && AimedAtActive(e.fields, req)
    requires first == NeedBuy(false) || first.PrevBuy?
    ensures var oc := Writes([first, BuyExt(ext), BuyRid(v.nextRid)], store, Send(v, req));
            Anchored(After(e, self, oc), oc.store, oc.venue)
  {
    ApplyThree(first, BuyExt(ext), BuyRid(v.nextRid), e.fields);
  }

  lemma AnchoredAround(e: Entry, sid: Sid, store: Store, v: Venue, store': Store, v': Venue)
    requires Ready(e, sid, store, v) && !e.removed && Anchored(e, store, v) && Around(sid, Buy, store, v, store', v')
    ensures Anchored(e, store', v')
  {
    hide EntryInv, OrdersAround, RequestsAround, OwnRid;
    LanesKnown(e, sid, store, v);
    RequestsStay(BuyLane(e), sid, Buy, v, v');
    if Stalled(BuyLane(e), v) { PrevIsOwn(e, sid, store, v); }
  }

  lemma PrevIsOwn(e: Entry, sid: Sid, store: Store, v: Venue)
    requires Ready(e, sid, store, v) && !e.removed && e.fields.prevBuy in store
    ensures OwnedBy(v, e.fields.prevBuy, sid, Buy)
  {
    hide Waiting, Solvent, OwnRid;
    assert Tracked(BuyLane(e), sid, Buy, store, v);
  }

  lemma DecideAnchors(e: Entry, sid: Sid, store: Store, v: Venue, m: Market)
    requires Ready(e, sid, store, v) && Anchored(e, store, v) && (m.buyOpen ==> m.price > 0)
    ensures var oc := Decide(e.fields, sid, store, v, m);
            oc.Acts? ==> Anchored(After(e, multiset{}, oc), oc.store, oc.venue)
  {
    hide EntryInv, Mirrors, BuyRequest, SellRequest, ApplyAll;
    OneOwner(e, sid, store, v);
    var oc := Decide(e.fields, sid, store, v, m);
    if oc.Acts? {
      if oc.writes == [] {
        NoWrites(e.fields);
        assert After(e, multiset{}, oc) == e;
      } else if e.fields.needBuy && m.buyOpen && m.funded {
        AimsNowhere(e.fields, sid, store, m.price);
        SentAnchors(e, multiset{}, NeedBuy(false), m.ext, store, v, BuyRequest(e.fields, sid, store, m.price, 0));
      } else {
        CalmAnchors(e, multiset{}, oc);
      }
    }
  }

  lemma AimsNowhere(f: Fields, sid: Sid, store: Store, price: nat)
    requires f.buyOrders <= store.Keys && price > 0
    ensures AimedAtActive(f, BuyRequest(f, sid, store, price, 0)) && AimedAtActive(f, BuyRequest(f, sid, store, price, f.activeBuy))
  {}

  /** A reply to an alter, as the listener finds it. */
  lemma AlteredIsActive(e: Entry, sid: Sid, store: Store, v: Venue, rid: Rid)
    requires Ready(e, sid, store, v) && Anchored(e, store, v) && rid in v.replies && rid == e.fields.buyRid
    requires e.fields.prevBuy in store && store[e.fields.prevBuy].state.Active?
    ensures e.fields.activeBuy == e.fields.prevBuy
  {
    hide Solvent, Around;
    PhaseOf(e, sid, store, v);
    BuyReply(e, sid, store, v, rid);
    PrevIsOwn(e, sid, store, v);
    assert Waiting(BuyLane(e), sid, Buy, store, v);
  }

  lemma OpenedAnchors(f: Fields, rid: Rid, oid: Oid, store: Store, v: Venue)
    requires rid != 0 && (rid == f.buyRid || rid == f.sellRid) && !(rid == f.buyRid && rid == f.sellRid)
    requires SellKnown(f)
    ensures SellKnown(ApplyAll(Opened(f, rid, oid, store, v).writes, f))
  {
    if rid == f.buyRid {
      assert Opened(f, rid, oid, store, v).writes == [ActiveBuy(oid), BuyExt(0), BuyRid(0), AddBuy(oid)];
      ApplyFour(ActiveBuy(oid), BuyExt(0), BuyRid(0), AddBuy(oid), f);
    } else {
      assert Opened(f, rid, oid, store, v).writes == [ActiveSell(oid), SellExt(0), SellRid(0), AddSell(oid)];
      ApplyFour(ActiveSell(oid), SellExt(0), SellRid(0), AddSell(oid), f);
    }
  }

  lemma ListenAnchors(e: Entry, sid: Sid, store: Store, v: Venue, rid: Rid, answer: CancelAnswer)
    requires Ready(e, sid, store, v) && Anchored(e, store, v) && rid in v.replies
    requires rid == e.fields.buyRid || rid == e.fields.sellRid
    requires LegalCancel(v, Looked(e.fields, rid), answer)
    ensures var oc := Listen(e.fields, rid, store, v, answer);
            oc.Acts? && VenueValid(oc.venue) ==> Anchored(After(e, multiset{}, oc), oc.store, oc.venue)
  {
    hide EntryInv, BuyPhase, SellPhase, Solvent, Mirrors, Opened, Refusal;
    ReplySide(e, sid, store, v, rid);
    if rid == e.fields.buyRid { BuyReply(e, sid, store, v, rid); } else { SellReply(e, sid, store, v, rid); }
    var oc := Listen(e.fields, rid, store, v, answer);
    if oc.Acts? && VenueValid(oc.venue) {
      match v.replies[rid].1
      case Created(oid) =>
        OpenedHears(e.fields, rid, oid, store, v);
        OpenedAnchors(e.fields, rid, oid, store, TakeReply(v, rid));
        NoRequestAnchors(After(e, multiset{}, oc), oc.store, oc.venue);
      case Refused(code) =>
        RefusalHears(e.fields, rid, code, store, TakeReply(v, rid), answer);
        RefusalIsCalm(e.fields, rid, code, store, TakeReply(v, rid), answer);
        CalmKeeps(oc.writes, e.fields);
        if rid == e.fields.buyRid && code.AmountTooSmall? && store[e.fields.prevBuy].state.Active? {
          AlteredIsActive(e, sid, store, v, rid);
          RefusalCancels(e.fields, rid, store, TakeReply(v, rid), answer);
        } else {
          NoRequestAnchors(After(e, multiset{}, oc), oc.store, oc.venue);
        }
    }
  }

  lemma RefusalIsCalm(f: Fields, rid: Rid, code: ErrorCode, store: Store, v: Venue, answer: CancelAnswer)
    requires LegalCancel(v, Looked(f, rid), answer)
    ensures var oc := Refusal(f, rid, code, store, v, answer); oc.Acts? ==> Calm(oc.writes)
  {
    hide BoughtCost, BoughtVolume, SoldCost, ApplyAll;
  }

  /** The forgetting step leaves the order cancelled in the store and writes nothing. */
  lemma RefusalCancels(f: Fields, rid: Rid, store: Store, v: Venue, answer: CancelAnswer)
    requires rid == f.buyRid && f.prevBuy in store && store[f.prevBuy].state.Active? && LegalCancel(v, f.prevBuy, answer)
    ensures var oc := Refusal(f, rid, AmountTooSmall, store, v, answer);
            oc.Acts? ==> oc.writes == [] && oc.watched == multiset{} && oc.venue.pending == v.pending && oc.venue.replies == v.replies
                         && f.prevBuy in oc.store && oc.store[f.prevBuy].state.Cancelled?
  {}

  lemma WatchBuyAnchors(e: Entry, oid: Oid, sid: Sid, store: Store, v: Venue, verdict: Verdict)
    requires VenueValid(v) && e.fields.buyRid == 0 && SellKnown(e.fields) && oid in store
    requires verdict.Withdraw? ==> LegalCancel(v, oid, verdict.answer)
    requires verdict.Reprice? ==> verdict.price > 0
    ensures var oc := WatchBuy(e.fields, sid, oid, store, v, verdict);
            oc.Acts? ==> Anchored(After(e, multiset{oid}, oc), oc.store, oc.venue)
  {
    hide BoughtCost, BoughtVolume, BuyRequest, LegalCancel, ApplyAll, Anchored, SellKnown;
    var oc := WatchBuy(e.fields, sid, oid, store, v, verdict);
    if oc.Acts? {
      if verdict.Reprice? && !store[oid].state.Final() {
        AimsNowhere(e.fields, sid, store, verdict.price);
        SentAnchors(e, multiset{oid}, PrevBuy(oid), verdict.ext, store, v,
                    BuyRequest(e.fields, sid, store, verdict.price, e.fields.activeBuy));
      } else {
        CalmAnchors(e, multiset{oid}, oc);
      }
    }
  }

  lemma WatchSellAnchors(e: Entry, oid: Oid, sid: Sid, store: Store, v: Venue, verdict: Verdict)
    requires VenueValid(v) && e.fields.buyRid == 0 && SellKnown(e.fields) && oid in store
    requires verdict.Withdraw? ==> LegalCancel(v, oid, verdict.answer)
    ensures var oc := WatchSell(e.fields, sid, oid, store, v, verdict);
            oc.Acts? ==> Anchored(After(e, multiset{oid}, oc), oc.store, oc.venue)
  {
    hide SoldCost, SoldVolume, SellRequest, LegalCancel, ApplyAll, Anchored, SellKnown;
    var oc := WatchSell(e.fields, sid, oid, store, v, verdict);
    if oc.Acts? {
      CalmAnchors(e, multiset{oid}, oc);
    }
  }

  lemma WatchAnchors(e: Entry, sid: Sid, oid: Oid, store: Store, v: Venue, verdict: Verdict)
    requires Ready(e, sid, store, v) && Anchored(e, store, v) && oid in e.watchers
    requires verdict.Withdraw? ==> LegalCancel(v, oid, verdict.answer)
    requires verdict.Reprice? ==> verdict.price > 0
    ensures var oc := Watch(e.fields, sid, oid, store, v, verdict);
            oc.Acts? ==> Anchored(After(e, multiset{oid}, oc), oc.store, oc.venue)
  {
    hide EntryInv, Mirrors, WatchBuy, WatchSell, LegalCancel, Anchored;
    OneOwner(e, sid, store, v);
    NoRequestAnchors(e, store, v);
    assert After(e, multiset{oid}, Idle(store, v)) == e;
    if oid in store {
      WatchBuyAnchors(e, oid, sid, store, v, verdict);
      WatchSellAnchors(e, oid, sid, store, v, verdict);
    }
  }

  // ----- over whole runs -----

  ghost predicate AllAnchored(w: World) {
    forall i | 0 <= i < |w.entries| && !w.entries[i].removed :: Anchored(w.entries[i], w.store, w.venue)
  }

  /** The exchange answers the session's own request. */
  lemma AnswerAnchors(e: Entry, sid: Sid, store: Store, v: Venue, v': Venue, rid: Rid)
    requires Ready(e, sid, store, v) && !e.removed && Anchored(e, store, v)
    requires rid in v.pending && From(v.pending[rid], sid, Buy)
    requires v'.pending == v.pending - {rid} && v'.replies.Keys == v.replies.Keys + {rid} && v'.replies[rid].0 == v.pending[rid]
    ensures Anchored(e, store, v')
  {
    hide Waiting, Solvent;
    LanesKnown(e, sid, store, v);
    assert rid == e.fields.buyRid;
  }

  lemma ExchangeAnchors(w: World, s: Step, i: Sid)
    requires WorldInv(w) && Enabled(w, s) && Managed(w, i) && Anchored(w.entries[i], w.store, w.venue)
    requires s.Accepting? || s.Refusing? || s.Evolving? || s.Syncing?
    ensures Anchored(w.entries[i], Next(w, s).store, Next(w, s).venue)
  {
    hide EntryInv, Around, Anchored, Mirrors, VenueValid, EndTarget, Evolves;
    var e := w.entries[i];
    match s
    case Accepting(rid, oid, first, last) =>
      if From(w.venue.pending[rid], i, Buy) {
        AnswerAnchors(e, i, w.store, w.venue, Next(w, s).venue, rid);
      } else {
        AcceptIsAround(i, Buy, w.store, w.venue, rid, oid, first, last);
        AnchoredAround(e, i, w.store, w.venue, w.store, Next(w, s).venue);
      }
    case Refusing(rid, code) =>
      if From(w.venue.pending[rid], i, Buy) {
        AnswerAnchors(e, i, w.store, w.venue, Next(w, s).venue, rid);
      } else {
        RefuseIsAround(i, Buy, w.store, w.venue, rid, code);
        AnchoredAround(e, i, w.store, w.venue, w.store, Next(w, s).venue);
      }
    case Evolving(oid, order) =>
      EvolveIsAround(i, Buy, w.store, w.venue, oid, order, w.store);
      AnchoredAround(e, i, w.store, w.venue, w.store, Next(w, s).venue);
    case Syncing(oid) =>
      var o := w.venue.orders[oid].order;
      SelfEvolves(w.venue, oid);
      EvolveIsAround(i, Buy, w.store, w.venue, oid, o, w.store[oid := o]);
      AnchoredAround(e, i, w.store, w.venue, w.store[oid := o], w.venue);
  }

  lemma SelfEvolves(v: Venue, oid: Oid)
    requires VenueValid(v) && oid in v.orders
    ensures Evolves(v.orders[oid].order, v.orders[oid].order) && Replace(v, oid, v.orders[oid].order) == v
  {}

  lemma ProcessAnchors(w: World, s: Step)
    requires WorldInv(w) && Enabled(w, s) && AllAnchored(w) && Next(w, s).status.Running?
    requires s.Deciding? || s.Listening? || s.Watching?
    ensures s.sid < |Next(w, s).entries| && Anchored(Next(w, s).entries[s.sid], Next(w, s).store, Next(w, s).venue)
  {
    hide EntryInv, Anchored, Mirrors, Hears;
    hide Decide, Listen, Watch, LegalCancel;
    NextKeeps(w, s);
    var e := w.entries[s.sid];
    match s
    case Deciding(sid, m) => DecideAnchors(e, sid, w.store, w.venue, m);
    case Listening(sid, rid, answer) => ListenAnchors(e, sid, w.store, w.venue, rid, answer);
    case Watching(sid, oid, verdict) => WatchAnchors(e, sid, oid, w.store, w.venue, verdict);
  }

  lemma NextAnchors(w: World, s: Step)
    requires WorldInv(w) && Enabled(w, s) && AllAnchored(w) && Next(w, s).status.Running?
    ensures AllAnchored(Next(w, s))
  {
    hide EntryInv, Anchored, WorldInv, Around;
    hide Decide, Listen, Watch, LegalCancel, Accept, Refuse;
    var w' := Next(w, s);
    NextKeeps(w, s);
    forall i | 0 <= i < |w'.entries| && !w'.entries[i].removed ensures Anchored(w'.entries[i], w'.store, w'.venue) {
      if i >= |w.entries| {
        FreshAnchors(w, s, i);
      } else if ActsForOther(s, i) {
        OtherProcess(w, s, i);
        ManagedReady(w, i);
        AnchoredAround(w.entries[i], i, w.store, w.venue, w'.store, w'.venue);
      } else if s.Deciding? || s.Listening? || s.Watching? {
        ProcessAnchors(w, s);
      } else if s.CleaningUp? {
        SweepIsAround(w, i, Buy, w'.store);
        ManagedReady(w, i);
        AnchoredAround(w.entries[i], i, w.store, w.venue, w'.store, w'.venue);
      } else if !s.Open? && !s.Faulting? {
        ExchangeAnchors(w, s, i);
      }
    }
  }

  lemma ManagedReady(w: World, i: Sid)
    requires WorldInv(w) && Managed(w, i)
    ensures Ready(w.entries[i], i, w.store, w.venue)
  {
    hide EntryInv;
  }

  lemma FreshAnchors(w: World, s: Step, i: Sid)
    requires Enabled(w, s) && |w.entries| <= i < |Next(w, s).entries| && WorldInv(Next(w, s))
    ensures Anchored(Next(w, s).entries[i], Next(w, s).store, Next(w, s).venue)
  {
    hide EntryInv, Decide, Listen, Watch, Accept, Refuse;
  }

  lemma {:induction false} AnchoredInRun(run: seq<Step>)
    requires Legal(InitialWorld(), run) && Reached(run).status.Running?
    ensures AllAnchored(Reached(run))
    decreases |run|
  {
    hide WorldInv, Enabled, Next, Legal, Run, Anchored;
    if run == [] {
      NothingOpen(run);
    } else {
      var (before, last) := (run[..|run| - 1], run[|run| - 1]);
      RunSplit(InitialWorld(), run);
      ReachedInv(before);
      StillRunning(Reached(before), last);
      AnchoredInRun(before);
      NextAnchors(Reached(before), last);
    }
  }
}
