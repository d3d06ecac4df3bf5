/**
 Replies that come too early. A request is sent before its id is stored, and the listener passes over a
 reply whose id it does not find in the session. The theorems over all runs take for granted that no
 reply is read in that window; here is what the window is and what a reply read in it would do.
 */
module SpreadReplies {
  import opened Exchange
  import opened Lanes
  import opened SpreadSession
  import opened SpreadProtocol
  import opened SpreadInvariant
  import opened SpreadRuns
  import opened SpreadTheorems
  import opened SpreadStalls
  import opened SpreadAtomicity
  import opened SpreadWitnesses

  /** The session waits, or once its open section is finished will wait, for this reply. */
  ghost predicate Expects(fw: FineWorld, sid: Sid, rid: Rid) {
    && sid < |fw.entries| && rid in fw.venue.replies
    && var f := Finished(fw.entries[sid]).fields; rid == f.buyRid || rid == f.sellRid
  }

  /** The listener finds the reply's id in the session. */
  predicate Hearable(fe: FineEntry, rid: Rid) { rid == fe.raw.buyRid || rid == fe.raw.sellRid }

  /** A process that has sent the request has not stored its id yet. */
  predicate StillToStore(fe: FineEntry, rid: Rid) {
    exists k :: 0 <= k < |fe.sections| && fe.sections[k].Section?
                && (BuyRid(rid) in fe.sections[k].writes || SellRid(rid) in fe.sections[k].writes)
  }

  lemma SessionHears(fe: FineEntry, rid: Rid)
    requires SectionInv(fe) && rid != 0
    requires rid == Finished(fe).fields.buyRid || rid == Finished(fe).fields.sellRid
    ensures Hearable(fe, rid) <==> !StillToStore(fe, rid)
  {
    if fe.sections != [] {
      if fe.sections[0].Clearing? {
        FinishedClearing(fe);
      } else {
        FinishedOne(fe);
        RidAfter(fe.sections[0].writes, fe.raw);
      }
    }
  }

  lemma FineReached(run: seq<FineStep>)
    requires FineLegal(InitialFine(), run)
    ensures FineInv(FineRun(InitialFine(), run))
  {
    hide WorldInv;
    InitialInv();
    assert Coarse(InitialFine()) == InitialWorld();
    var coarse := FollowRun(InitialFine(), run, []);
  }

  lemma RepliesAreNumbered(fw: FineWorld)
    requires FineInv(fw)
    ensures 0 !in fw.venue.replies
  {
    hide WorldInv;
    RepliesNumbered(Coarse(fw));
  }

  /** In every reachable state the listener hears an expected reply if and only if nobody has still to store
      its id. */
  lemma HeardExactly(run: seq<FineStep>, sid: Sid, rid: Rid)
    requires FineLegal(InitialFine(), run) && Expects(FineRun(InitialFine(), run), sid, rid)
    ensures var fe := FineRun(InitialFine(), run).entries[sid]; Hearable(fe, rid) <==> !StillToStore(fe, rid)
  {
    hide FineLegal, FineRun, WorldInv;
    FineReached(run);
    RepliesAreNumbered(FineRun(InitialFine(), run));
    SessionHears(FineRun(InitialFine(), run).entries[sid], rid);
  }

  /** Passing over an expected reply stalls the side that waits for it, and an order that the reply announces
      stays unknown to the session. */
  lemma PassedOverStalls(run: seq<FineStep>, sid: Sid, rid: Rid)
    requires FineLegal(InitialFine(), run) && Expects(FineRun(InitialFine(), run), sid, rid)
    requires !Finished(FineRun(InitialFine(), run).entries[sid]).removed
    ensures var fw := FineRun(InitialFine(), run);
            var (e, v') := (Finished(fw.entries[sid]), TakeReply(fw.venue, rid));
            && Stalled(if rid == e.fields.buyRid then BuyLane(e) else SellLane(e), v')
            && (fw.venue.replies[rid].1.Created? ==>
                  fw.venue.replies[rid].1.oid !in (if rid == e.fields.buyRid then e.fields.buyOrders else e.fields.sellOrders))
  {
    hide FineLegal, FineRun, WorldInv, Finished;
    FineReached(run);
    var fw := FineRun(InitialFine(), run);
    RepliesAreNumbered(fw);
    var c := Coarse(fw);
    assert c.entries[sid] == Finished(fw.entries[sid]) && c.venue == fw.venue;
    Unanswered(c, sid, rid);
  }

  lemma Unanswered(w: World, sid: Sid, rid: Rid)
    requires WorldInv(w) && Managed(w, sid) && rid != 0 && rid in w.venue.replies
    requires rid == w.entries[sid].fields.buyRid || rid == w.entries[sid].fields.sellRid
    ensures var e := w.entries[sid];
            var l := if rid == e.fields.buyRid then BuyLane(e) else SellLane(e);
            && Stalled(l, TakeReply(w.venue, rid))
            && (w.venue.replies[rid].1.Created? ==> w.venue.replies[rid].1.oid !in l.orders)
  {
    hide Mirrors, AllKnown, Ledger, Attributed, Solvent;
    var e := w.entries[sid];
    assert EntryInv(e, sid, w.store, w.venue);
    assert Waiting(if rid == e.fields.buyRid then BuyLane(e) else SellLane(e), sid, if rid == e.fields.buyRid then Buy else Sell, w.store, w.venue);
  }

  // ----- it can happen -----

  const F1 := FineWorld([FineEntry(START, multiset{}, false, [])], map[], InitialVenue(), 0, Running)
  const F2 := F1.(entries := [FineEntry(START.(needBuy := false), multiset{}, false, [Clearing(Buy)])])
  const TOSTORE := Section(Decider, [BuyExt(7), BuyRid(1)], multiset{}, 0)
  const F3 := F1.(entries := [FineEntry(START.(needBuy := false), multiset{}, false, [TOSTORE])], venue := W2.venue)
  const F4 := F3.(venue := W3.venue)
  const OPENING := Begin(SpreadProtocol.Open(10.0))
  const SENDING := Create(0, 0, Buy, S2.market)

  lemma Cleared1()
    ensures FineEnabled(InitialFine(), OPENING) && FineNext(InitialFine(), OPENING) == F1
    ensures FineEnabled(F1, Clear(0, Buy)) && FineNext(F1, Clear(0, Buy)) == F2
  {
    hide OutcomeOf;
    var fe := FineEntry(START, multiset{}, false, []);
    assert fe.sections + [Clearing(Buy)] == [Clearing(Buy)];
    assert ClearEntry(fe, Buy) == F2.entries[0];
    assert F1.entries[0 := ClearEntry(fe, Buy)] == F2.entries;
  }

  lemma Sent1()
    ensures FineEnabled(F2, SENDING) && FineNext(F2, SENDING) == F3
  {
    FirstRequest(0, START.(needBuy := false), map[]);
    assert Send(InitialVenue(), CREATE) == W2.venue;
    var oc := Creation(START.(needBuy := false), 0, Buy, map[], InitialVenue(), S2.market);
    assert oc == Writes([NeedBuy(false), BuyExt(7), BuyRid(1)], map[], W2.venue);
    assert oc.writes[1..] == [BuyExt(7), BuyRid(1)];
    assert F2.entries[0].sections[0 := TOSTORE] == [TOSTORE];
    assert CreateEntry(F2.entries[0], 0, oc) == F3.entries[0];
    assert F2.entries[0 := F3.entries[0]] == F3.entries;
  }

  lemma Accepted1()
    ensures FineEnabled(F3, Begin(S3)) && FineNext(F3, Begin(S3)) == F4
  {
    hide OutcomeOf;
    Accepted0();
  }

  lemma FinePrepend(fw: FineWorld, run: seq<FineStep>)
    requires run != [] && FineEnabled(fw, run[0]) && FineLegal(FineNext(fw, run[0]), run[1..])
    ensures FineLegal(fw, run) && FineRun(fw, run) == FineRun(FineNext(fw, run[0]), run[1..])
  {}

  /** The exchange accepts an order while the decider has yet to store the request's id: the reply is there, and
      the listener would pass it over. */
  lemma AReplyComesEarly() returns (run: seq<FineStep>)
    ensures FineLegal(InitialFine(), run) && Expects(FineRun(InitialFine(), run), 0, 1)
    ensures !Hearable(FineRun(InitialFine(), run).entries[0], 1)
  {
    hide FineEnabled, FineNext, InitialFine;
    Cleared1();
    Sent1();
    Accepted1();
    run := [OPENING, Clear(0, Buy), SENDING, Begin(S3)];
    var (r1, r2, r3) := ([Clear(0, Buy), SENDING, Begin(S3)], [SENDING, Begin(S3)], [Begin(S3)]);
    assert run[1..] == r1 && r1[1..] == r2 && r2[1..] == r3 && r3[1..] == [];
    FinePrepend(F3, r3);
    FinePrepend(F2, r2);
    FinePrepend(F1, r1);
    FinePrepend(InitialFine(), run);
    FinishedOne(F4.entries[0]);
    ApplyTwo(BuyExt(7), BuyRid(1), START.(needBuy := false));
  }
}
