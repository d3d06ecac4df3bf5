/**
 When a session stops for good. A request id that is set always has its answer outstanding, except
 after one step: a buy request refused as too small while the previous order is still active. The
 listener then cancels that order and forgets the reply, and the session never moves again.
 */
module SpreadStalls {
  import opened Exchange
  import opened Lanes
  import opened SpreadSession
  import opened SpreadProtocol
  import opened SpreadInvariant
  import opened SpreadSteps
  import opened SpreadRuns
  import opened SpreadTheorems
  import opened SpreadBooking

  predicate Answerable(rid: Rid, v: Venue) {
    rid == 0 || rid in v.pending || rid in v.replies
  }

  /** The step that forgets a reply. */
  ghost predicate ForgetsReply(w: World, s: Step, sid: Sid) {
    && sid < |w.entries| && s.Listening? && s.sid == sid && s.rid in w.venue.replies
    && var f := w.entries[sid].fields;
    && s.rid == f.buyRid
    && w.venue.replies[s.rid].1 == Refused(AmountTooSmall)
    && f.prevBuy in w.store && w.store[f.prevBuy].state.Active?
    && s.answer.Confirmed?
  }

  /** A request id is either kept, cleared, or set by one of the writes. */
  lemma {:induction false} RidAfter(ws: seq<Write>, f: Fields)
    ensures var f' := ApplyAll(ws, f);
            && (f'.buyRid == f.buyRid || f'.buyRid == 0 || BuyRid(f'.buyRid) in ws)
            && (f'.sellRid == f.sellRid || f'.sellRid == 0 || SellRid(f'.sellRid) in ws)
    decreases |ws|
  {
    if ws != [] {
      RidAfterOne(ws[0], f);
      hide Apply;
      RidAfter(ws[1..], Apply(ws[0], f));
    }
  }

  lemma RidAfterOne(w: Write, f: Fields)
    ensures var f' := Apply(w, f);
            && (f'.buyRid == f.buyRid || f'.buyRid == 0 || BuyRid(f'.buyRid) == w)
            && (f'.sellRid == f.sellRid || f'.sellRid == 0 || SellRid(f'.sellRid) == w)
  {}

  ghost predicate Hears(e: Entry, v: Venue) {
    Answerable(e.fields.buyRid, v) && Answerable(e.fields.sellRid, v)
  }

  lemma DecideHears(e: Entry, sid: Sid, store: Store, v: Venue, m: Market)
    requires Hears(e, v) && (m.buyOpen ==> m.price > 0)
    ensures var oc := Decide(e.fields, sid, store, v, m);
            oc.Acts? ==> Hears(After(e, multiset{}, oc), oc.venue)
  {
    var oc := Decide(e.fields, sid, store, v, m);
    if oc.Acts? {
      RidAfter(oc.writes, e.fields);
    }
  }

  lemma WatchBuyHears(e: Entry, sid: Sid, oid: Oid, store: Store, v: Venue, verdict: Verdict)
    requires Hears(e, v) && oid in store
    requires verdict.Withdraw? ==> LegalCancel(v, oid, verdict.answer)
    requires verdict.Reprice? ==> verdict.price > 0
    ensures var oc := WatchBuy(e.fields, sid, oid, store, v, verdict);
            oc.Acts? ==> Hears(After(e, multiset{oid}, oc), oc.venue)
  {
    hide BoughtCost, BoughtVolume, BuyRequest, LegalCancel, ApplyAll;
    var oc := WatchBuy(e.fields, sid, oid, store, v, verdict);
    if oc.Acts? {
      RidAfter(oc.writes, e.fields);
    }
  }

  lemma WatchSellHears(e: Entry, sid: Sid, oid: Oid, store: Store, v: Venue, verdict: Verdict)
    requires Hears(e, v) && oid in store
    requires verdict.Withdraw? ==> LegalCancel(v, oid, verdict.answer)
    ensures var oc := WatchSell(e.fields, sid, oid, store, v, verdict);
            oc.Acts? ==> Hears(After(e, multiset{oid}, oc), oc.venue)
  {
    hide SoldCost, SoldVolume, SellRequest, LegalCancel, ApplyAll;
    var oc := WatchSell(e.fields, sid, oid, store, v, verdict);
    if oc.Acts? {
      RidAfter(oc.writes, e.fields);
    }
  }

  lemma WatchHears(e: Entry, sid: Sid, oid: Oid, store: Store, v: Venue, verdict: Verdict)
    requires Hears(e, v)
    requires verdict.Withdraw? ==> LegalCancel(v, oid, verdict.answer)
    requires verdict.Reprice? ==> verdict.price > 0
    ensures var oc := Watch(e.fields, sid, oid, store, v, verdict);
            oc.Acts? ==> Hears(After(e, multiset{oid}, oc), oc.venue)
  {
    hide WatchBuy, WatchSell;
    if oid in store {
      WatchBuyHears(e, sid, oid, store, v, verdict);
      WatchSellHears(e, sid, oid, store, v, verdict);
    }
  }

  /** A taken order leaves both request ids answerable. */
  lemma OpenedHears(f: Fields, rid: Rid, oid: Oid, store: Store, v: Venue)
    requires rid != 0
    requires (rid == f.buyRid && f.sellRid == 0) || (rid == f.sellRid && f.buyRid == 0)
    ensures var f' := ApplyAll(Opened(f, rid, oid, store, TakeReply(v, rid)).writes, f);
            f'.buyRid == 0 && f'.sellRid == 0
  {
    if rid == f.buyRid {
      assert Opened(f, rid, oid, store, TakeReply(v, rid)).writes == [ActiveBuy(oid), BuyExt(0), BuyRid(0), AddBuy(oid)];
      ApplyFour(ActiveBuy(oid), BuyExt(0), BuyRid(0), AddBuy(oid), f);
    } else {
      assert Opened(f, rid, oid, store, TakeReply(v, rid)).writes == [ActiveSell(oid), SellExt(0), SellRid(0), AddSell(oid)];
      ApplyFour(ActiveSell(oid), SellExt(0), SellRid(0), AddSell(oid), f);
    }
  }

  lemma NoWrites(f: Fields)
    ensures ApplyAll([], f) == f
  {}

  /** A refusal clears the request id, unless it ends in a cancelled buy order. */
  lemma RefusalHears(f: Fields, rid: Rid, code: ErrorCode, store: Store, v: Venue, answer: CancelAnswer)
    requires LegalCancel(v, Looked(f, rid), answer)
    requires rid != 0 && rid !in v.pending && rid !in v.replies
    requires (rid == f.buyRid && f.sellRid == 0) || (rid == f.sellRid && f.buyRid == 0)
    ensures var oc := Refusal(f, rid, code, store, v, answer);
            oc.Acts? ==>
              var f' := ApplyAll(oc.writes, f);
              && oc.venue.pending == v.pending && oc.venue.replies == v.replies
              && (rid == f.buyRid ==> f.prevBuy in store)
              && f'.sellRid == 0
              && f'.buyRid == (if rid == f.buyRid && code.AmountTooSmall? && store[f.prevBuy].state.Active? then rid else 0)
  {
    hide BoughtCost, BoughtVolume, SoldCost, ApplyAll;
    NoWrites(f);
    var oc := Refusal(f, rid, code, store, v, answer);
    if oc.Acts? && oc.writes != [] {
      assert oc.writes == [oc.writes[0]];
      ApplyOne(oc.writes[0], f);
    }
  }

  lemma ListenHears(e: Entry, sid: Sid, store: Store, v: Venue, rid: Rid, answer: CancelAnswer)
    requires Ready(e, sid, store, v) && Hears(e, v) && rid in v.replies
    requires rid == e.fields.buyRid || rid == e.fields.sellRid
    requires LegalCancel(v, Looked(e.fields, rid), answer)
    ensures var oc := Listen(e.fields, rid, store, v, answer);
            oc.Acts? ==>
              && (Hears(After(e, multiset{}, oc), oc.venue) <==>
                    !(rid == e.fields.buyRid && v.replies[rid].1 == Refused(AmountTooSmall)
                      && e.fields.prevBuy in store && store[e.fields.prevBuy].state.Active?))
              && Answerable(After(e, multiset{}, oc).fields.sellRid, oc.venue)
  {
    hide EntryInv, BuyPhase, SellPhase, Solvent, Mirrors, Refusal, Opened, Apply;
    ReplySide(e, sid, store, v, rid);
    if rid == e.fields.buyRid { BuyReply(e, sid, store, v, rid); } else { SellReply(e, sid, store, v, rid); }
    match v.replies[rid].1
    case Created(oid) => OpenedHears(e.fields, rid, oid, store, v);
    case Refused(code) => RefusalHears(e.fields, rid, code, store, TakeReply(v, rid), answer);
  }

  // ----- from sessions to worlds -----

  predicate ActsForOther(s: Step, sid: Sid) {
    (s.Deciding? || s.Listening? || s.Watching?) && s.sid != sid
  }

  /** A process of another session leaves the session and its requests alone. */
  lemma OtherProcess(w: World, s: Step, sid: Sid)
    requires WorldInv(w) && Enabled(w, s) && sid < |w.entries| && ActsForOther(s, sid)
    ensures var w' := Next(w, s);
            w'.status.Running? ==>
              && |w'.entries| == |w.entries| && w'.entries[sid] == w.entries[sid]
              && AroundBoth(sid, w.store, w.venue, w'.store, w'.venue)
  {
    hide EntryInv, Around, Decide, Listen, Watch, VenueValid, Mirrors, Attributed;
    match s
    case Deciding(j, m) => DecideIsSound(w.entries[j], j, w.store, w.venue, m);
    case Listening(j, rid, answer) => ListenIsSound(w.entries[j], j, w.store, w.venue, rid, answer);
    case Watching(j, oid, verdict) => WatchIsSound(w.entries[j], j, w.store, w.venue, oid, verdict);
  }

  lemma AnswerableStays(e: Entry, sid: Sid, store: Store, v: Venue, store': Store, v': Venue)
    requires EntryInv(e, sid, store, v) && AroundBoth(sid, store, v, store', v') && (!e.removed ==> Mirrors(store, v))
    ensures Answerable(e.fields.buyRid, v') <==> Answerable(e.fields.buyRid, v)
    ensures Answerable(e.fields.sellRid, v') <==> Answerable(e.fields.sellRid, v)
  {
    hide EntryInv, StoreAround, OrdersAround, RequestsAround, OwnRid;
    LanesKnown(e, sid, store, v);
    RequestsStay(BuyLane(e), sid, Buy, v, v');
    RequestsStay(SellLane(e), sid, Sell, v, v');
  }

  /** While the answer of a set request id is outstanding, every step keeps it so, for both sides
      of the session, except the one step that forgets a reply. */
  lemma StallsExactly(run: seq<Step>, s: Step, sid: Sid)
    requires Legal(InitialWorld(), run) && Enabled(Reached(run), s) && Managed(Reached(run), sid)
    requires Hears(Reached(run).entries[sid], Reached(run).venue)
    ensures var (w, w') := (Reached(run), Next(Reached(run), s));
            w'.status.Running? && Managed(w', sid) ==>
              && (Hears(w'.entries[sid], w'.venue) <==> !ForgetsReply(w, s, sid))
              && !Stalled(SellLane(w'.entries[sid]), w'.venue)
  {
    hide EntryInv, Around, Decide, Listen, Watch, VenueValid, Mirrors, Attributed, Reached, Accept, CanAccept;
    ReachedInv(run);
    NextHears(Reached(run), s, sid);
  }

  lemma NextHears(w: World, s: Step, sid: Sid)
    requires WorldInv(w) && Enabled(w, s) && Managed(w, sid) && Hears(w.entries[sid], w.venue)
    ensures var w' := Next(w, s);
            w'.status.Running? && Managed(w', sid) ==>
              && (Hears(w'.entries[sid], w'.venue) <==> !ForgetsReply(w, s, sid))
              && Answerable(w'.entries[sid].fields.sellRid, w'.venue)
  {
    hide EntryInv, Around, Decide, Listen, Watch, VenueValid, Mirrors, Attributed;
    var (e, w') := (w.entries[sid], Next(w, s));
    if w'.status.Running? && Managed(w', sid) {
      if ActsForOther(s, sid) {
        OtherProcess(w, s, sid);
        AnswerableStays(e, sid, w.store, w.venue, w'.store, w'.venue);
      } else {
        match s
        case Deciding(_, m) => DecideHears(e, sid, w.store, w.venue, m);
        case Listening(_, rid, answer) => ListenForgets(w, sid, rid, answer);
        case Watching(_, oid, verdict) => WatchHears(e, sid, oid, w.store, w.venue, verdict);
        case _ =>
      }
    }
  }

  lemma ListenForgets(w: World, sid: Sid, rid: Rid, answer: CancelAnswer)
    requires WorldInv(w) && Enabled(w, Listening(sid, rid, answer)) && Hears(w.entries[sid], w.venue)
    ensures var (s, w') := (Listening(sid, rid, answer), Next(w, Listening(sid, rid, answer)));
            w'.status.Running? ==>
              && sid < |w'.entries|
              && (Hears(w'.entries[sid], w'.venue) <==> !ForgetsReply(w, s, sid))
              && Answerable(w'.entries[sid].fields.sellRid, w'.venue)
  {
    hide EntryInv, Around, Decide, Watch, VenueValid, Mirrors, Attributed;
    var e := w.entries[sid];
    ListenHears(e, sid, w.store, w.venue, rid, answer);
    if e.fields.buyRid == rid {
      ReplySide(e, sid, w.store, w.venue, rid);
      BuyReply(e, sid, w.store, w.venue, rid);
    }
  }

  /** A session whose buy request id will never be answered is frozen: no step of any process
      changes it, in any run whatever. */
  lemma StalledStays(w: World, s: Step, sid: Sid)
    requires WorldInv(w) && Enabled(w, s) && Managed(w, sid) && Stalled(BuyLane(w.entries[sid]), w.venue)
    ensures var w' := Next(w, s);
            w'.status.Running? ==>
              Managed(w', sid) && w'.entries[sid] == w.entries[sid] && Stalled(BuyLane(w'.entries[sid]), w'.venue)
  {
    hide EntryInv, Around, Decide, Listen, Watch, VenueValid, Mirrors, Attributed;
    var (e, w') := (w.entries[sid], Next(w, s));
    StalledOwnsNothingElse(e, sid, w.store, w.venue);
    if w'.status.Running? {
      if ActsForOther(s, sid) {
        OtherProcess(w, s, sid);
        AnswerableStays(e, sid, w.store, w.venue, w'.store, w'.venue);
      } else {
        match s
        case Deciding(_, m) => FrozenDecider(w, sid, m);
        case Accepting(rid, oid, first, last) => assert rid != e.fields.buyRid;
        case _ =>
      }
    }
  }

  lemma StalledOwnsNothingElse(e: Entry, sid: Sid, store: Store, v: Venue)
    requires Ready(e, sid, store, v) && Stalled(BuyLane(e), v)
    ensures !e.fields.needBuy && !e.fields.needSell && e.fields.sellRid == 0 && !e.fields.isDone && e.watchers == multiset{}
    ensures 0 !in v.replies && 0 !in v.pending
  {
    hide Around, Tracked, Waiting, Settled, Solvent, Mirrors;
    PhaseOf(e, sid, store, v);
    assert SellLane(e).rid == 0;
  }

  lemma FrozenDecider(w: World, sid: Sid, m: Market)
    requires Enabled(w, Deciding(sid, m))
    requires var f := w.entries[sid].fields; !f.needBuy && !f.needSell
    ensures Next(w, Deciding(sid, m)).entries[sid] == w.entries[sid] && Next(w, Deciding(sid, m)).venue == w.venue
  {}

  lemma {:induction false} StalledForever(w: World, run: seq<Step>, sid: Sid)
    requires WorldInv(w) && Legal(w, run) && Managed(w, sid) && Stalled(BuyLane(w.entries[sid]), w.venue)
    ensures Run(w, run).status.Running? ==>
              Managed(Run(w, run), sid) && Run(w, run).entries[sid] == w.entries[sid]
              && !Run(w, run).entries[sid].fields.isDone
    decreases |run|
  {
    hide EntryInv, Next, WorldInv, Enabled;
    StalledIsNotDone(w, sid);
    if run != [] {
      StalledStays(w, run[0], sid);
      NextKeeps(w, run[0]);
      if Next(w, run[0]).status.Running? {
        StalledForever(Next(w, run[0]), run[1..], sid);
      } else {
        assert run[1..] == [] by { StoppedRun(Next(w, run[0]), run[1..]); }
      }
    }
  }

  lemma StalledIsNotDone(w: World, sid: Sid)
    requires WorldInv(w) && Managed(w, sid) && Stalled(BuyLane(w.entries[sid]), w.venue)
    ensures !w.entries[sid].fields.isDone
  {
    hide EntryInv;
    StalledOwnsNothingElse(w.entries[sid], sid, w.store, w.venue);
  }

  /** The sell side of a session never stalls. */
  lemma {:induction false} SellSideNeverStalls(run: seq<Step>, sid: Sid)
    requires Legal(InitialWorld(), run) && Reached(run).status.Running? && Managed(Reached(run), sid)
    ensures !Stalled(SellLane(Reached(run).entries[sid]), Reached(run).venue)
  {
    hide WorldInv, EntryInv, Enabled, Next;
    InitialInv();
    SellHeardInRun(InitialWorld(), run, sid);
  }

  ghost predicate SellHeard(w: World) {
    forall i | 0 <= i < |w.entries| && !w.entries[i].removed :: Answerable(w.entries[i].fields.sellRid, w.venue)
  }

  lemma NextSellHeard(w: World, s: Step)
    requires WorldInv(w) && Enabled(w, s) && SellHeard(w) && Next(w, s).status.Running?
    ensures SellHeard(Next(w, s))
  {
    hide EntryInv, Around, Decide, Listen, Watch, VenueValid, Mirrors, Attributed, Accept;
    var w' := Next(w, s);
    forall i | 0 <= i < |w'.entries| && !w'.entries[i].removed
      ensures Answerable(w'.entries[i].fields.sellRid, w'.venue)
    {
      if i < |w.entries| && !w.entries[i].removed {
        if Stalled(BuyLane(w.entries[i]), w.venue) {
          StalledStays(w, s, i);
          StalledOwnsNothingElse(w.entries[i], i, w.store, w.venue);
        } else {
          NextHears(w, s, i);
        }
      }
    }
  }

  lemma {:induction false} SellHeardInRun(w: World, run: seq<Step>, sid: Sid)
    requires WorldInv(w) && SellHeard(w) && Legal(w, run) && Run(w, run).status.Running? && Managed(Run(w, run), sid)
    ensures !Stalled(SellLane(Run(w, run).entries[sid]), Run(w, run).venue)
    decreases |run|
  {
    hide WorldInv, EntryInv, Enabled, Next;
    if run != [] {
      if !Next(w, run[0]).status.Running? {
        StoppedRun(Next(w, run[0]), run[1..]);
      }
      NextKeeps(w, run[0]);
      NextSellHeard(w, run[0]);
      SellHeardInRun(Next(w, run[0]), run[1..], sid);
    }
  }

  // ----- over whole runs -----

  lemma {:induction false} RunSplit(w: World, run: seq<Step>)
    requires Legal(w, run) && run != []
    ensures var (before, last) := (run[..|run| - 1], run[|run| - 1]);
            Legal(w, before) && Enabled(Run(w, before), last) && Run(w, run) == Next(Run(w, before), last)
    decreases |run|
  {
    hide Enabled, Next;
    if |run| > 1 {
      RunSplit(Next(w, run[0]), run[1..]);
      assert run[1..][..|run| - 2] == run[..|run| - 1][1..];
    } else {
      assert run[..0] == [] && run[1..] == [];
    }
  }

  lemma StallStep(w: World, s: Step, sid: Sid)
    requires WorldInv(w) && Enabled(w, s) && Next(w, s).status.Running? && Managed(Next(w, s), sid)
    requires Managed(w, sid) ==> !Stalled(SellLane(w.entries[sid]), w.venue)
    ensures sid < |w.entries| ==> Managed(w, sid)
    ensures Stalled(BuyLane(Next(w, s).entries[sid]), Next(w, s).venue)
            <==> (Managed(w, sid) && Stalled(BuyLane(w.entries[sid]), w.venue)) || ForgetsReply(w, s, sid)
  {
    hide EntryInv, WorldInv, Enabled, ForgetsReply;
    if sid < |w.entries| {
      NextGrows(w, s, sid);
      if Stalled(BuyLane(w.entries[sid]), w.venue) { StalledStays(w, s, sid); } else { NextHears(w, s, sid); }
    } else {
      OpensFresh(w, s, sid);
    }
  }

  /** A session that was not there a step ago waits for nothing. */
  lemma OpensFresh(w: World, s: Step, sid: Sid)
    requires Enabled(w, s) && |w.entries| <= sid < |Next(w, s).entries|
    ensures Next(w, s).entries[sid].fields.buyRid == 0 && !ForgetsReply(w, s, sid)
  {
    hide Decide, Listen, Watch, Accept, Refuse;
  }

  /** Step k of the run is the one that forgets a reply. */
  ghost predicate ForgetsAt(run: seq<Step>, k: nat, sid: Sid) {
    k < |run| && Legal(InitialWorld(), run[..k]) && ForgetsReply(Reached(run[..k]), run[k], sid)
  }

  /** A session is stalled if and only if somewhere in its run a reply was forgotten. */
  lemma {:induction false} StallsIffForgotten(run: seq<Step>, sid: Sid)
    requires Legal(InitialWorld(), run) && Reached(run).status.Running?
    requires sid < |Reached(run).entries| ==> Managed(Reached(run), sid)
    ensures Managed(Reached(run), sid) && Stalled(BuyLane(Reached(run).entries[sid]), Reached(run).venue)
            <==> exists k :: ForgetsAt(run, k, sid)
    decreases |run|
  {
    hide WorldInv, Enabled, Next, ForgetsReply, Legal, Run;
    if run == [] {
      NothingOpen(run);
    } else {
      var (before, last) := (run[..|run| - 1], run[|run| - 1]);
      RunSplit(InitialWorld(), run);
      ReachedInv(before);
      StillRunning(Reached(before), last);
      if sid < |Reached(before).entries| { NextGrows(Reached(before), last, sid); }
      StallsIffForgotten(before, sid);
      if Managed(Reached(before), sid) { SellSideNeverStalls(before, sid); }
      LastForgets(run, sid);
      if sid < |Reached(run).entries| { StallStep(Reached(before), last, sid); }
      else { NobodyForgets(Reached(before), last, sid); }
    }
  }

  lemma NothingOpen(run: seq<Step>)
    requires run == []
    ensures Legal(InitialWorld(), run) && Reached(run) == InitialWorld()
  {}

  lemma StillRunning(w: World, s: Step)
    requires Enabled(w, s)
    ensures w.status.Running?
  {}

  lemma NobodyForgets(w: World, s: Step, sid: Sid)
    requires Enabled(w, s) && sid >= |w.entries|
    ensures !ForgetsReply(w, s, sid)
  {}

  lemma LastForgets(run: seq<Step>, sid: Sid)
    requires run != [] && Legal(InitialWorld(), run[..|run| - 1])
    ensures var (before, last) := (run[..|run| - 1], run[|run| - 1]);
            (exists k :: ForgetsAt(run, k, sid)) <==> (exists k :: ForgetsAt(before, k, sid)) || ForgetsReply(Reached(before), last, sid)
  {
    hide ForgetsReply, Legal, Reached;
    var before := run[..|run| - 1];
    forall k: nat | k < |before| ensures ForgetsAt(run, k, sid) <==> ForgetsAt(before, k, sid) {
      assert before[..k] == run[..k];
    }
    if k: nat :| ForgetsAt(before, k, sid) { assert ForgetsAt(run, k, sid); }
    if ForgetsReply(Reached(before), run[|run| - 1], sid) { assert ForgetsAt(run, |run| - 1, sid); }
    if k: nat :| ForgetsAt(run, k, sid) { assert k < |before| ==> ForgetsAt(before, k, sid); }
  }
}
