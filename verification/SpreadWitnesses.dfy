/**
 Concrete runs. They show that the exceptions of the theorems are real: a session that stalls after a
 refused move, a move accepted after unseen fills that breaks the budget, completed buy sides that a
 restart books twice or opens again, a first order that it loses, a completed session whose orders a
 clean-up takes away, and a cancel whose answer must not come before the store's news.
 All share a beginning: buy 10 units at price 1 with a total of 10.
 */
module SpreadWitnesses {
  import opened Totals
  import opened Exchange
  import opened Lanes
  import opened Rounding
  import opened SpreadSession
  import opened SpreadProtocol
  import opened SpreadInvariant
  import opened SpreadRuns
  import opened SpreadTheorems
  import opened SpreadBooking
  import opened Recovery

  const ORDER := Order(Buy, 1, 10, 0, Active)
  const PARTLY := Order(Buy, 1, 10, 6, Active)
  const ENDED := Order(Buy, 1, 10, 6, Cancelled)
  const WITHDRAWN := Order(Buy, 1, 10, 0, Cancelled)
  const CREATE := Request(0, Buy, 1, 10, 0, 0)
  const ALTER := Request(0, Buy, 1, 10, 5, 0)

  const START := NewFields(10.0)

  function Only(f: Fields, watchers: multiset<Oid>, store: Store, v: Venue, profit: int): World {
    World([Entry(f, watchers, false)], store, v, profit, Running)
  }

  function Sole(f: Fields, watchers: multiset<Oid>, store: Store, v: Venue): World { Only(f, watchers, store, v, 0) }

  const W1: World := Sole(START, multiset{}, map[], InitialVenue())
  const W2: World := Sole(START.(needBuy := false, buyExt := 7, buyRid := 1), multiset{}, map[],
                          Venue(map[], map[1 := CREATE], map[], 2))
  const W3: World := W2.(venue := Venue(map[5 := Live(ORDER, CREATE, 0)], map[], map[1 := (CREATE, Created(5))], 2))
  const WATCHED := START.(needBuy := false, activeBuy := 5, buyOrders := {5})
  const W4: World := Sole(WATCHED, multiset{5}, map[], Venue(map[5 := Live(ORDER, CREATE, 0)], map[], map[], 2))
  const W5: World := W4.(store := map[5 := ORDER])
  const MOVED := WATCHED.(prevBuy := 5, buyExt := 8, buyRid := 2)
  const W6: World := Sole(MOVED, multiset{}, map[5 := ORDER],
                          Venue(map[5 := Live(ORDER, CREATE, 0)], map[2 := ALTER], map[], 3))

  const S2 := Deciding(0, Market(true, false, 1, true, 7, Looks(true, false)))
  const S3 := Accepting(1, 5, Active, ORDER)
  const S4 := Listening(0, 1, CancelError)
  const S5 := Syncing(5)
  const S6 := Watching(0, 5, Reprice(1, 8))

  lemma FirstRequest(target: Oid, f: Fields, store: Store)
    requires f.buyTotal == 10.0 && f.buyOrders <= {5} && f.buyOrders <= store.Keys
    requires 5 in store ==> store[5] == ORDER
    ensures BuyRequest(f, 0, store, 1, target) == Request(0, Buy, 1, 10, target, 0)
  {
    if f.buyOrders == {5} {
      TotalPick({5}, Costs(store), 5);
      assert {5} - {5} == {};
    } else {
      assert f.buyOrders == {};
    }
    assert BoughtCost(f, store) == 0;
    assert (10.0 - 0 as real) / (1 as real) == 10.0;
    assert RoundHalfEven(10.0) == 10;
  }

  /** A step of the only session's process, from its outcome. */
  lemma Lands(w: World, s: Step, self: multiset<Oid>, oc: Outcome, f': Fields, watchers': multiset<Oid>)
    requires |w.entries| == 1 && !w.entries[0].removed && w.status.Running?
    requires Enabled(w, s) && Next(w, s) == Land(w, 0, self, oc)
    requires oc.Acts?
    requires f' == ApplyAll(oc.writes, w.entries[0].fields) && watchers' == Remaining(w.entries[0], self, oc)
    ensures Next(w, s) == Only(f', watchers', oc.store, oc.venue, w.profit + oc.booked)
  {
    hide Enabled, Next, ApplyAll;
    assert w.entries[0 := Entry(f', watchers', false)] == [Entry(f', watchers', false)];
  }

  lemma Created0()
    ensures Enabled(W1, S2) && Next(W1, S2) == W2
  {
    hide RoundHalfEven, BuyRequest, SellRequest, Apply;
    FirstRequest(0, START, map[]);
    ApplyThree(NeedBuy(false), BuyExt(7), BuyRid(1), START);
    var oc := Decide(START, 0, map[], InitialVenue(), S2.market);
    assert oc == Writes([NeedBuy(false), BuyExt(7), BuyRid(1)], map[], Send(InitialVenue(), CREATE));
    assert Send(InitialVenue(), CREATE) == W2.venue;
    CreatedFields();
    Lands(W1, S2, multiset{}, oc, W2.entries[0].fields, multiset{});
  }

  lemma CreatedFields()
    ensures Apply(BuyRid(1), Apply(BuyExt(7), Apply(NeedBuy(false), START))) == W2.entries[0].fields
  {}

  lemma Accepted0()
    ensures Enabled(W2, S3) && Next(W2, S3) == W3
  {
    var ended := W2.venue.(orders := EndTarget(W2.venue, CREATE, ORDER));
    assert Owned(ended, 0, Buy) == {};
    assert Accept(W2.venue, 1, 5, Active, ORDER) == W3.venue;
  }

  lemma Listened0()
    ensures Enabled(W3, S4) && Next(W3, S4) == W4
  {
    var f := W3.entries[0].fields;
    assert TakeReply(W3.venue, 1) == W4.venue;
    var oc := Listen(f, 1, W3.store, W3.venue, CancelError);
    assert oc == Opened(f, 1, 5, W3.store, W4.venue);
    assert oc.writes == [ActiveBuy(5), BuyExt(0), BuyRid(0), AddBuy(5)];
    ApplyFour(ActiveBuy(5), BuyExt(0), BuyRid(0), AddBuy(5), f);
    assert f.buyOrders + {5} == {5};
    assert ApplyAll(oc.writes, f) == WATCHED;
    Lands(W3, S4, multiset{}, oc, WATCHED, multiset{5});
  }

  lemma Moved0()
    ensures Enabled(W5, S6) && Next(W5, S6) == W6
  {
    var f := W5.entries[0].fields;
    FirstRequest(5, f, W5.store);
    ApplyThree(PrevBuy(5), BuyExt(8), BuyRid(2), f);
    assert Send(W5.venue, ALTER) == W6.venue;
    var oc := Watch(f, 0, 5, W5.store, W5.venue, S6.verdict);
    assert oc == Writes([PrevBuy(5), BuyExt(8), BuyRid(2)], W5.store, W6.venue);
    Lands(W5, S6, multiset{5}, oc, MOVED, multiset{});
  }

  lemma BuyAccepted() returns (run: seq<Step>)
    ensures Legal(InitialWorld(), run) && Reached(run) == W3
  {
    hide Enabled, Next;
    var w0 := InitialWorld();
    run := [];
    assert Enabled(w0, SpreadProtocol.Open(10.0)) && Next(w0, SpreadProtocol.Open(10.0)) == W1 by { OpenedWorld(); }
    RunAppend(w0, run, SpreadProtocol.Open(10.0));
    run := run + [SpreadProtocol.Open(10.0)];
    Created0();
    RunAppend(w0, run, S2);
    run := run + [S2];
    Accepted0();
    RunAppend(w0, run, S3);
    run := run + [S3];
  }

  lemma BuyPlaced() returns (run: seq<Step>)
    ensures Legal(InitialWorld(), run) && Reached(run) == W5
  {
    hide Enabled, Next;
    var w0 := InitialWorld();
    run := BuyAccepted();
    Listened0();
    RunAppend(w0, run, S4);
    run := run + [S4];
    assert Enabled(W4, S5) && Next(W4, S5) == W5 by { SyncedWorld(); }
    RunAppend(w0, run, S5);
    run := run + [S5];
  }

  lemma Beginning() returns (run: seq<Step>)
    ensures Legal(InitialWorld(), run) && Reached(run) == W6
  {
    hide Enabled, Next;
    run := BuyPlaced();
    Moved0();
    RunAppend(InitialWorld(), run, S6);
    run := run + [S6];
  }

  lemma OpenedWorld()
    ensures Enabled(InitialWorld(), SpreadProtocol.Open(10.0)) && Next(InitialWorld(), SpreadProtocol.Open(10.0)) == W1
  {}

  lemma SyncedWorld()
    ensures Enabled(W4, S5) && Next(W4, S5) == W5
  {}

  // ----- a stalled session -----

  const REFUSED: Venue := Venue(map[5 := Live(ORDER, CREATE, 0)], map[], map[2 := (ALTER, Refused(AmountTooSmall))], 3)
  const FORGET := Listening(0, 2, Confirmed(WITHDRAWN))
  const FORGOTTEN: Venue := Venue(map[5 := Live(WITHDRAWN, CREATE, 0)], map[], map[], 3)

  lemma RefusedWorld()
    ensures Enabled(W6, Refusing(2, AmountTooSmall)) && Next(W6, Refusing(2, AmountTooSmall)) == W6.(venue := REFUSED)
  {
    assert Refuse(W6.venue, 2, AmountTooSmall) == REFUSED;
  }

  lemma ForgottenWorld()
    ensures Enabled(W6.(venue := REFUSED), FORGET)
    ensures Next(W6.(venue := REFUSED), FORGET) == W6.(venue := FORGOTTEN, store := map[5 := WITHDRAWN])
  {
    assert Replace(TakeReply(REFUSED, 2), 5, WITHDRAWN) == FORGOTTEN;
    assert W6.store[5 := WITHDRAWN] == map[5 := WITHDRAWN];
    var oc := Listen(MOVED, 2, W6.store, REFUSED, FORGET.answer);
    assert oc == Idle(map[5 := WITHDRAWN], FORGOTTEN);
    Lands(W6.(venue := REFUSED), FORGET, multiset{}, oc, MOVED, multiset{});
  }

  /** A session can stall: its request id stays set although nobody will ever answer it. */
  lemma ASessionStalls() returns (run: seq<Step>)
    ensures Legal(InitialWorld(), run) && Reached(run).status.Running? && Managed(Reached(run), 0)
    ensures Stalled(BuyLane(Reached(run).entries[0]), Reached(run).venue)
  {
    hide Enabled, Next;
    run := Beginning();
    RefusedWorld();
    RunAppend(InitialWorld(), run, Refusing(2, AmountTooSmall));
    run := run + [Refusing(2, AmountTooSmall)];
    ForgottenWorld();
    RunAppend(InitialWorld(), run, FORGET);
    run := run + [FORGET];
  }

  // ----- a budget broken by unseen fills -----

  const FILLED: Venue := Venue(map[5 := Live(PARTLY, CREATE, 0)], map[2 := ALTER], map[], 3)
  const SECOND := Order(Buy, 1, 10, 0, Active)
  const DRIFTED: Venue := Venue(map[5 := Live(ENDED, CREATE, 0), 6 := Live(SECOND, ALTER, 6)], map[],
                                map[2 := (ALTER, Created(6))], 3)

  lemma DriftedWorld()
    ensures Enabled(W6, Evolving(5, PARTLY)) && Next(W6, Evolving(5, PARTLY)) == W6.(venue := FILLED)
    ensures Enabled(W6.(venue := FILLED), Accepting(2, 6, Active, ENDED))
    ensures Next(W6.(venue := FILLED), Accepting(2, 6, Active, ENDED)) == W6.(venue := DRIFTED)
  {
    assert Replace(W6.venue, 5, PARTLY) == FILLED;
    var ended := FILLED.(orders := EndTarget(FILLED, ALTER, ENDED));
    assert ended.orders == map[5 := Live(ENDED, CREATE, 0)];
    assert Owned(ended, 0, Buy) == {5};
    TotalPick({5}, FilledWeights(Truth(ended)), 5);
    assert {5} - {5} == {};
    assert Accept(FILLED, 2, 6, Active, ENDED) == DRIFTED;
  }

  lemma DriftedExposure()
    ensures Exposure(DRIFTED, 0, Buy) == 16
  {
    assert Owned(DRIFTED, 0, Buy) == {5, 6};
    TotalPick({5, 6}, Commitments(DRIFTED), 5);
    assert {5, 6} - {5} == {6};
    TotalPick({6}, Commitments(DRIFTED), 6);
    assert {6} - {6} == {};
  }

  /** A total of 10 at prices of 1 can be exceeded by 6 when 6 units fill between the sizing of a
      move and its acceptance. */
  lemma UnseenFillsBreakTheBudget() returns (run: seq<Step>)
    ensures Legal(InitialWorld(), run) && Reached(run).status.Running? && Managed(Reached(run), 0)
    ensures Reached(run).entries[0].fields.buyTotal == 10.0
    ensures forall o | OwnedBy(Reached(run).venue, o, 0, Buy) :: Reached(run).venue.orders[o].req.price == 1
    ensures Exposure(Reached(run).venue, 0, Buy) == 16
  {
    hide Enabled, Next;
    run := Beginning();
    DriftedWorld();
    RunAppend(InitialWorld(), run, Evolving(5, PARTLY));
    run := run + [Evolving(5, PARTLY)];
    RunAppend(InitialWorld(), run, Accepting(2, 6, Active, ENDED));
    run := run + [Accepting(2, 6, Active, ENDED)];
    DriftedExposure();
  }

  // ----- a completed buy side -----

  const BOUGHT := Order(Buy, 1, 10, 10, Done)
  const BOUGHTVENUE: Venue := Venue(map[5 := Live(BOUGHT, CREATE, 0)], map[], map[], 2)
  const SELLING := START.(needBuy := false, activeBuy := 5, buyOrders := {5}, completedBuys := 1, needSell := true, sellVolume := 10)
  const B3: World := Only(SELLING, multiset{}, map[5 := BOUGHT], BOUGHTVENUE, -10)
  const BUYDONE := Watching(0, 5, Keep)

  lemma BoughtWorld()
    ensures Enabled(W5, Evolving(5, BOUGHT)) && Next(W5, Evolving(5, BOUGHT)) == W5.(venue := BOUGHTVENUE)
    ensures Enabled(W5.(venue := BOUGHTVENUE), Syncing(5))
    ensures Next(W5.(venue := BOUGHTVENUE), Syncing(5)) == W5.(venue := BOUGHTVENUE, store := map[5 := BOUGHT])
  {
    assert Replace(W5.venue, 5, BOUGHT) == BOUGHTVENUE;
    assert W5.store[5 := BOUGHT] == map[5 := BOUGHT];
  }

  lemma OneOrder(o: Oid, store: Store, price: nat, filled: nat)
    requires o in store && store[o].price == price && store[o].filled == filled
    ensures Total({o}, Costs(store)) == price * filled && Total({o}, Fills(store)) == filled
  {
    TotalPick({o}, Costs(store), o);
    TotalPick({o}, Fills(store), o);
    assert {o} - {o} == {};
  }

  lemma BuyCompleted()
    ensures var w := W5.(venue := BOUGHTVENUE, store := map[5 := BOUGHT]);
            Enabled(w, BUYDONE) && Next(w, BUYDONE) == B3
  {
    var w := W5.(venue := BOUGHTVENUE, store := map[5 := BOUGHT]);
    OneOrder(5, w.store, 1, 10);
    var oc := Watch(WATCHED, 0, 5, w.store, w.venue, Keep);
    assert oc == Acts([BuyDone(5, 10)], multiset{}, w.store, w.venue, -10);
    ApplyOne(BuyDone(5, 10), WATCHED);
    Lands(w, BUYDONE, multiset{5}, oc, SELLING, multiset{});
  }

  lemma BuySideDone() returns (run: seq<Step>)
    ensures Legal(InitialWorld(), run) && Reached(run) == B3
  {
    hide Enabled, Next;
    run := BuyPlaced();
    BoughtWorld();
    RunAppend(InitialWorld(), run, Evolving(5, BOUGHT));
    run := run + [Evolving(5, BOUGHT)];
    RunAppend(InitialWorld(), run, Syncing(5));
    run := run + [Syncing(5)];
    BuyCompleted();
    RunAppend(InitialWorld(), run, BUYDONE);
    run := run + [BUYDONE];
  }

  /** A session can be dumped while it waits to sell without a sell order. The buy side has been booked
      at 10; restarted, the session has two owners, and the watcher of the completed buy order books
      another 10. */
  lemma ARestartBooksTwice(lookup: Lookup) returns (run: seq<Step>)
    ensures Legal(InitialWorld(), run) && Reached(run).status.Running? && Managed(Reached(run), 0)
    ensures Reached(run).profit == -10
    ensures var (w, e) := (Reached(run), Restarted(Reached(run).entries[0], lookup));
            && OwnerCount(e) == 2 && e.watchers == multiset{5}
            && var oc := Watch(e.fields, 0, 5, w.store, w.venue, Keep); oc.Acts? && oc.booked == -10
  {
    hide EntryInv, Watch;
    run := BuySideDone();
    ManagedIsReady(run, 0);
    OneOrder(5, B3.store, 1, 10);
    assert Selling(B3.entries[0], 0, B3.store, B3.venue) by { PhaseOf(B3.entries[0], 0, B3.store, B3.venue); }
    SellingBooksTwice(B3.entries[0], 0, B3.store, B3.venue, lookup, Keep);
  }

  // ----- a first buy order in flight -----

  const E1: World := W3.(venue := Venue(map[5 := Live(BOUGHT, CREATE, 0)], map[], map[1 := (CREATE, Created(5))], 2))
  const E2: World := E1.(store := map[5 := BOUGHT])

  lemma BoughtUnheard()
    ensures Enabled(W3, Evolving(5, BOUGHT)) && Next(W3, Evolving(5, BOUGHT)) == E1
    ensures Enabled(E1, Syncing(5)) && Next(E1, Syncing(5)) == E2
  {
    assert Replace(W3.venue, 5, BOUGHT) == E1.venue;
    assert E1.store[5 := BOUGHT] == E2.store;
  }

  /** Restarted before it has read the reply to its first request, a session takes up the order, which has bought
      10 units for 10, and completes its buy side with nothing bought at no cost. */
  lemma ARestartLosesTheOrder() returns (run: seq<Step>)
    ensures Legal(InitialWorld(), run) && Reached(run).status.Running? && Managed(Reached(run), 0)
    ensures var (w, e) := (Reached(run), Restarted(Reached(run).entries[0], Found(5, BOUGHT)));
            && 5 in w.store && w.store[5] == BOUGHT && e.watchers == multiset{5}
            && Watch(e.fields, 0, 5, w.store, w.venue, Keep) == Acts([BuyDone(5, 0)], multiset{}, w.store, w.venue, 0)
  {
    hide EntryInv, Watch, Enabled, Next;
    run := BuyAccepted();
    BoughtUnheard();
    RunAppend(InitialWorld(), run, Evolving(5, BOUGHT));
    run := run + [Evolving(5, BOUGHT)];
    RunAppend(InitialWorld(), run, Syncing(5));
    run := run + [Syncing(5)];
    ManagedIsReady(run, 0);
    assert Buying(E2.entries[0], 0, E2.store, E2.venue) by { PhaseOf(E2.entries[0], 0, E2.store, E2.venue); }
    AdoptedIsNotCounted(E2.entries[0], 0, E2.store, E2.venue, 5, BOUGHT, Keep);
  }

  // ----- a buy side completed by a cancelled order -----

  const CUTVENUE: Venue := Venue(map[5 := Live(ENDED, CREATE, 0)], map[2 := ALTER], map[], 3)
  const CUTREFUSED: Venue := Venue(map[5 := Live(ENDED, CREATE, 0)], map[], map[2 := (ALTER, Refused(AmountTooSmall))], 3)
  const CUTDONE: Venue := Venue(map[5 := Live(ENDED, CREATE, 0)], map[], map[], 3)
  const C0: World := W6.(venue := CUTVENUE, store := map[5 := ENDED])
  const C1: World := C0.(venue := CUTREFUSED)
  const HEARCUT := Listening(0, 2, CancelError)
  const HALFSELLING := START.(needBuy := false, activeBuy := 5, buyOrders := {5}, completedBuys := 1, needSell := true, sellVolume := 6)
  const C2: World := Only(HALFSELLING, multiset{}, map[5 := ENDED], CUTDONE, -6)

  lemma CutWorld()
    ensures Enabled(W6, Evolving(5, ENDED)) && Next(W6, Evolving(5, ENDED)) == W6.(venue := CUTVENUE)
    ensures Enabled(W6.(venue := CUTVENUE), Syncing(5)) && Next(W6.(venue := CUTVENUE), Syncing(5)) == C0
    ensures Enabled(C0, Refusing(2, AmountTooSmall)) && Next(C0, Refusing(2, AmountTooSmall)) == C1
  {
    assert Replace(W6.venue, 5, ENDED) == CUTVENUE;
    assert W6.store[5 := ENDED] == C0.store;
    assert Refuse(CUTVENUE, 2, AmountTooSmall) == CUTREFUSED;
  }

  lemma CutHeard()
    ensures Enabled(C1, HEARCUT) && Next(C1, HEARCUT) == C2
  {
    OneOrder(5, C1.store, 1, 6);
    assert TakeReply(CUTREFUSED, 2) == CUTDONE;
    var oc := Listen(MOVED, 2, C1.store, CUTREFUSED, CancelError);
    assert oc == Acts([BuyDone(5, 6)], multiset{}, C1.store, CUTDONE, -6);
    ApplyOne(BuyDone(5, 6), MOVED);
    Lands(C1, HEARCUT, multiset{}, oc, HALFSELLING, multiset{});
  }

  /** A buy side can be completed by an order that was cancelled half filled. Restarted while it waits to
      sell, the session buys again. */
  lemma ARestartBuysAgain(lookup: Lookup) returns (run: seq<Step>)
    ensures Legal(InitialWorld(), run) && Reached(run).status.Running? && Managed(Reached(run), 0)
    ensures Reached(run).entries[0].fields.completedBuys == 1 && Reached(run).entries[0].fields.needSell
    ensures var (w, e) := (Reached(run), Restarted(Reached(run).entries[0], lookup));
            && OwnerCount(e) == 2 && e.watchers == multiset{5}
            && Watch(e.fields, 0, 5, w.store, w.venue, Keep) == Writes([PrevBuy(5), ActiveBuy(0), NeedBuy(true)], w.store, w.venue)
  {
    hide EntryInv, Watch, Enabled, Next;
    run := Beginning();
    CutWorld();
    RunAppend(InitialWorld(), run, Evolving(5, ENDED));
    run := run + [Evolving(5, ENDED)];
    RunAppend(InitialWorld(), run, Syncing(5));
    run := run + [Syncing(5)];
    RunAppend(InitialWorld(), run, Refusing(2, AmountTooSmall));
    run := run + [Refusing(2, AmountTooSmall)];
    CutHeard();
    RunAppend(InitialWorld(), run, HEARCUT);
    run := run + [HEARCUT];
    ManagedIsReady(run, 0);
    assert Selling(C2.entries[0], 0, C2.store, C2.venue) by { PhaseOf(C2.entries[0], 0, C2.store, C2.venue); }
    SellingBooksTwice(C2.entries[0], 0, C2.store, C2.venue, lookup, Keep);
  }

  // ----- a completed session -----

  const SELL := Request(0, Sell, 2, 10, 0, 0)
  const OFFER := Order(Sell, 2, 10, 0, Active)
  const SOLD := Order(Sell, 2, 10, 10, Done)
  const DECIDESELL := Deciding(0, Market(false, true, 2, true, 9, Looks(true, false)))
  const ASKING := SELLING.(needSell := false, sellExt := 9, sellRid := 2)
  const B4: World := Only(ASKING, multiset{}, map[5 := BOUGHT], Venue(map[5 := Live(BOUGHT, CREATE, 0)], map[2 := SELL], map[], 3), -10)
  const ACCEPTSELL := Accepting(2, 6, Active, OFFER)
  const B5: World := B4.(venue := Venue(map[5 := Live(BOUGHT, CREATE, 0), 6 := Live(OFFER, SELL, 0)], map[], map[2 := (SELL, Created(6))], 3))
  const LISTENSELL := Listening(0, 2, CancelError)
  const OFFERED := SELLING.(needSell := false, activeSell := 6, sellOrders := {6})
  const OFFERVENUE: Venue := Venue(map[5 := Live(BOUGHT, CREATE, 0), 6 := Live(OFFER, SELL, 0)], map[], map[], 3)
  const B6: World := Only(OFFERED, multiset{6}, map[5 := BOUGHT], OFFERVENUE, -10)
  const SOLDVENUE: Venue := Venue(map[5 := Live(BOUGHT, CREATE, 0), 6 := Live(SOLD, SELL, 0)], map[], map[], 3)
  const B8: World := B6.(venue := SOLDVENUE, store := map[5 := BOUGHT, 6 := SOLD])
  const SELLDONE := Watching(0, 6, Keep)
  const FINISHED := OFFERED.(activeSell := 0, completedSells := 1, isDone := true)
  const B9: World := Only(FINISHED, multiset{}, map[5 := BOUGHT, 6 := SOLD], SOLDVENUE, 10)

  lemma SellDecided()
    ensures Enabled(B3, DECIDESELL) && Next(B3, DECIDESELL) == B4
  {
    hide BuyRequest;
    assert SoldVolume(SELLING, B3.store) == 0;
    ApplyThree(NeedSell(false), SellExt(9), SellRid(2), SELLING);
    var oc := Decide(SELLING, 0, B3.store, B3.venue, DECIDESELL.market);
    assert Send(B3.venue, SELL) == B4.venue;
    assert oc == Writes([NeedSell(false), SellExt(9), SellRid(2)], B3.store, B4.venue);
    Lands(B3, DECIDESELL, multiset{}, oc, ASKING, multiset{});
  }

  /** It can as well be dumped while its first sell request is in flight. It then comes back with a single
      owner, the watcher of the completed buy order, which books another 10. */
  lemma ARestartForgetsTheSale(lookup: Lookup) returns (run: seq<Step>)
    ensures Legal(InitialWorld(), run) && Reached(run).status.Running? && Managed(Reached(run), 0)
    ensures Reached(run).profit == -10 && InFlight(Reached(run).entries[0], Reached(run).venue)
    ensures var (w, e) := (Reached(run), Restarted(Reached(run).entries[0], lookup));
            && OwnerCount(e) == 1 && e.watchers == multiset{5}
            && var oc := Watch(e.fields, 0, 5, w.store, w.venue, Keep); oc.Acts? && oc.booked == -10
  {
    hide EntryInv, Watch, Enabled, Next;
    run := BuySideDone();
    SellDecided();
    RunAppend(InitialWorld(), run, DECIDESELL);
    run := run + [DECIDESELL];
    ManagedIsReady(run, 0);
    OneOrder(5, B4.store, 1, 10);
    assert Selling(B4.entries[0], 0, B4.store, B4.venue) by { PhaseOf(B4.entries[0], 0, B4.store, B4.venue); }
    SellingBooksTwice(B4.entries[0], 0, B4.store, B4.venue, lookup, Keep);
  }

  lemma SellAccepted()
    ensures Enabled(B4, ACCEPTSELL) && Next(B4, ACCEPTSELL) == B5
  {
    var ended := B4.venue.(orders := EndTarget(B4.venue, SELL, OFFER));
    assert Owned(ended, 0, Sell) == {};
    assert Accept(B4.venue, 2, 6, Active, OFFER) == B5.venue;
  }

  lemma SellListened()
    ensures Enabled(B5, LISTENSELL) && Next(B5, LISTENSELL) == B6
  {
    assert TakeReply(B5.venue, 2) == OFFERVENUE;
    var oc := Listen(ASKING, 2, B5.store, B5.venue, CancelError);
    assert oc.writes == [ActiveSell(6), SellExt(0), SellRid(0), AddSell(6)];
    ApplyFour(ActiveSell(6), SellExt(0), SellRid(0), AddSell(6), ASKING);
    assert ASKING.sellOrders + {6} == {6};
    assert ApplyAll(oc.writes, ASKING) == OFFERED;
    Lands(B5, LISTENSELL, multiset{}, oc, OFFERED, multiset{6});
  }

  lemma SoldWorld()
    ensures Enabled(B6, Evolving(6, SOLD)) && Next(B6, Evolving(6, SOLD)) == B6.(venue := SOLDVENUE)
    ensures Enabled(B6.(venue := SOLDVENUE), Syncing(6)) && Next(B6.(venue := SOLDVENUE), Syncing(6)) == B8
  {
    assert Replace(B6.venue, 6, SOLD) == SOLDVENUE;
    assert B6.store[6 := SOLD] == B8.store;
  }

  lemma SellCompleted()
    ensures Enabled(B8, SELLDONE) && Next(B8, SELLDONE) == B9
  {
    OneOrder(6, B8.store, 2, 10);
    var oc := Watch(OFFERED, 0, 6, B8.store, B8.venue, Keep);
    assert oc == Acts([SellDone], multiset{}, B8.store, B8.venue, 20);
    ApplyOne(SellDone, OFFERED);
    Lands(B8, SELLDONE, multiset{6}, oc, FINISHED, multiset{});
  }

  lemma SellPlaced() returns (run: seq<Step>)
    ensures Legal(InitialWorld(), run) && Reached(run) == B6
  {
    hide Enabled, Next;
    run := BuySideDone();
    SellDecided();
    RunAppend(InitialWorld(), run, DECIDESELL);
    run := run + [DECIDESELL];
    SellAccepted();
    RunAppend(InitialWorld(), run, ACCEPTSELL);
    run := run + [ACCEPTSELL];
    SellListened();
    RunAppend(InitialWorld(), run, LISTENSELL);
    run := run + [LISTENSELL];
  }

  lemma SessionDone() returns (run: seq<Step>)
    ensures Legal(InitialWorld(), run) && Reached(run) == B9
  {
    hide Enabled, Next;
    run := SellPlaced();
    SoldWorld();
    RunAppend(InitialWorld(), run, Evolving(6, SOLD));
    run := run + [Evolving(6, SOLD)];
    RunAppend(InitialWorld(), run, Syncing(6));
    run := run + [Syncing(6)];
    SellCompleted();
    RunAppend(InitialWorld(), run, SELLDONE);
    run := run + [SELLDONE];
  }

  /** A session can be done whose orders a clean-up then takes away: whoever still has to read its sums
      runs into a missing order. */
  lemma ACleanUpOvertakes() returns (run: seq<Step>)
    ensures Legal(InitialWorld(), run) && Reached(run).status.Running? && Managed(Reached(run), 0)
    ensures Reached(run).profit == 10 && Reached(run).entries[0].fields.isDone
    ensures Legal(InitialWorld(), run + [CleaningUp])
    ensures var w := Reached(run + [CleaningUp]); SellFlags(Reached(run).entries[0].fields, w.store, w.venue).Panics?
  {
    hide EntryInv, Decide, Listen, Watch, SellFlags;
    run := SessionDone();
    ReachedInv(run);
    RunAppend(InitialWorld(), run, CleaningUp);
    CleanUpOvertakes(B9, 0);
  }

  // ----- a cancel whose answer overtakes the store's news -----

  const REOFFER := Request(0, Sell, 3, 10, 6, 0)
  const REPRICED := OFFERED.(prevSell := 6, sellExt := 10, sellRid := 3)
  const HALFSOLD := Order(Sell, 2, 10, 3, Active)
  const CUTSALE := Order(Sell, 2, 10, 3, Cancelled)
  const SALESTORE: Store := map[5 := BOUGHT, 6 := OFFER]
  const D1: World := B6.(store := SALESTORE)
  const D2: World := Only(REPRICED, multiset{}, SALESTORE,
                          Venue(map[5 := Live(BOUGHT, CREATE, 0), 6 := Live(OFFER, SELL, 0)], map[3 := REOFFER], map[], 4), -10)
  const D3: World := D2.(venue := Venue(map[5 := Live(BOUGHT, CREATE, 0), 6 := Live(HALFSOLD, SELL, 0)], map[3 := REOFFER], map[], 4))
  const D4: World := D2.(venue := Venue(map[5 := Live(BOUGHT, CREATE, 0), 6 := Live(HALFSOLD, SELL, 0)], map[],
                                        map[3 := (REOFFER, Refused(AmountTooSmall))], 4))
  const REPRICE := Watching(0, 6, Reprice(3, 10))
  const CUTSHORT := Listening(0, 3, Confirmed(CUTSALE))

  lemma OfferHeard()
    ensures Enabled(B6, Syncing(6)) && Next(B6, Syncing(6)) == D1
  {
    assert B6.store[6 := OFFER] == SALESTORE;
  }

  lemma Repriced()
    ensures Enabled(D1, REPRICE) && Next(D1, REPRICE) == D2
  {
    hide RoundHalfEven, BuyRequest;
    OneOrder(6, SALESTORE, 2, 0);
    ApplyThree(PrevSell(6), SellExt(10), SellRid(3), OFFERED);
    assert SellRequest(OFFERED, 0, SALESTORE, 3, 6) == REOFFER;
    assert Send(OFFERVENUE, REOFFER) == D2.venue;
    var oc := Watch(OFFERED, 0, 6, SALESTORE, OFFERVENUE, Reprice(3, 10));
    assert oc == Writes([PrevSell(6), SellExt(10), SellRid(3)], SALESTORE, D2.venue);
    Lands(D1, REPRICE, multiset{6}, oc, REPRICED, multiset{});
  }

  lemma RepriceRefused()
    ensures Enabled(D2, Evolving(6, HALFSOLD)) && Next(D2, Evolving(6, HALFSOLD)) == D3
    ensures Enabled(D3, Refusing(3, AmountTooSmall)) && Next(D3, Refusing(3, AmountTooSmall)) == D4
    ensures Enabled(D4, CUTSHORT)
  {
    assert Replace(D2.venue, 6, HALFSOLD) == D3.venue;
    assert Refuse(D3.venue, 3, AmountTooSmall) == D4.venue;
  }

  /** A run to the moment where the listener cancels a sell order that has sold three units at price 2 which
      the store has not heard of: were the answer to come first, 6 would never reach the profit. */
  lemma ALateCancel() returns (run: seq<Step>)
    ensures Legal(InitialWorld(), run) && Enabled(Reached(run), CUTSHORT)
    ensures var (w, f) := (Reached(run), Reached(run).entries[0].fields);
            var (v, last) := (TakeReply(w.venue, 3), CUTSALE);
            && 6 in w.store && LegalCancel(v, 6, Confirmed(last))
            && Listen(f, 3, w.store, w.venue, Confirmed(last)) == SellExecuted(f, 6, w.store[6], w.store, v, Confirmed(last))
            && var (heard, late) := (SellExecuted(f, 6, w.store[6], w.store, v, Confirmed(last)), SellFlags(f, w.store, Replace(v, 6, last)));
               heard.Acts? && late.Acts? && heard.booked == late.booked + 6
  {
    hide Enabled, Next;
    run := SellPlaced();
    OfferHeard();
    Repriced();
    RunAppend(InitialWorld(), run, Syncing(6));
    run := run + [Syncing(6)];
    RunAppend(InitialWorld(), run, REPRICE);
    run := run + [REPRICE];
    RepriceRefused();
    RunAppend(InitialWorld(), run, Evolving(6, HALFSOLD));
    run := run + [Evolving(6, HALFSOLD)];
    RunAppend(InitialWorld(), run, Refusing(3, AmountTooSmall));
    run := run + [Refusing(3, AmountTooSmall)];
    LateBy6();
  }

  lemma LateBy6()
    ensures var (v, last) := (TakeReply(D4.venue, 3), CUTSALE);
            && LegalCancel(v, 6, Confirmed(last))
            && Listen(REPRICED, 3, SALESTORE, D4.venue, Confirmed(last)) == SellExecuted(REPRICED, 6, OFFER, SALESTORE, v, Confirmed(last))
            && var (heard, late) := (SellExecuted(REPRICED, 6, OFFER, SALESTORE, v, Confirmed(last)), SellFlags(REPRICED, SALESTORE, Replace(v, 6, last)));
               heard.Acts? && late.Acts? && heard.booked == late.booked + 6
  {
    LateCancelBooksShort(REPRICED, 6, SALESTORE, TakeReply(D4.venue, 3), CUTSALE);
  }
}
