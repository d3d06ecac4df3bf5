/**
 Requests and their answers on a shared stream of messages (service/order.go): the refresh of the order
 store, one request per order that is not final and a counter of answers; and the cancel round trip.
 */
module Refresh {
  import opened Exchange
  import opened SpreadServices

  datatype Answer = Known(oid: Oid, order: Order) | Nothing | Erroneous

  datatype Event = Message(rid: Rid, answer: Answer) | Closed | Stopped | Silence

  datatype End = Refreshed | GivenUp | Failed

  /** How the wait ends, and after how many events, once `processed` answers have been counted. When
      the events run out, the bot is stopped. */
  function Ending(reqIds: set<Rid>, processed: nat, events: seq<Event>): (r: (End, nat))
    ensures r.1 <= |events|
    decreases |events|
  {
    if events == [] then (GivenUp, 0)
    else match events[0]
      case Closed => (Failed, 1)
      case Stopped => (GivenUp, 1)
      case Silence => (Failed, 1)
      case Message(rid, answer) =>
        if rid !in reqIds then
          var r := Ending(reqIds, processed, events[1..]); (r.0, r.1 + 1)
        else if answer.Erroneous? then (Failed, 1)
        else if processed + 1 == |reqIds| then (Refreshed, 1)
        else var r := Ending(reqIds, processed + 1, events[1..]); (r.0, r.1 + 1)
  }

  /** The store after the answers among some events. */
  function Upserted(store: Store, reqIds: set<Rid>, events: seq<Event>): Store {
    if events == [] then store
    else
      var (e, before) := (events[|events| - 1], Upserted(store, reqIds, events[..|events| - 1]));
      if e.Message? && e.rid in reqIds && e.answer.Known? then before[e.answer.oid := e.answer.order] else before
  }

  /** The event answers a request of ours with this order. */
  predicate Names(reqIds: set<Rid>, e: Event, o: Oid) {
    e.Message? && e.rid in reqIds && e.answer.Known? && e.answer.oid == o
  }

  /** It is the last of these events that does. */
  predicate LastNames(reqIds: set<Rid>, events: seq<Event>, i: int, o: Oid) {
    0 <= i < |events| && Names(reqIds, events[i], o) && forall j | i < j < |events| :: !Names(reqIds, events[j], o)
  }

  predicate Unnamed(reqIds: set<Rid>, events: seq<Event>, o: Oid) {
    forall i | 0 <= i < |events| :: !Names(reqIds, events[i], o)
  }

  /** Order o is as the last answer that names it says, or as it was if none does. */
  ghost predicate RefreshedAt(store: Store, reqIds: set<Rid>, events: seq<Event>, store': Store, o: Oid) {
    && (forall i | LastNames(reqIds, events, i, o) :: o in store' && store'[o] == events[i].answer.order)
    && (Unnamed(reqIds, events, o) ==> (o in store' <==> o in store) && (o in store ==> store'[o] == store[o]))
  }

  ghost predicate RefreshedBy(store: Store, reqIds: set<Rid>, events: seq<Event>, store': Store) {
    forall o :: RefreshedAt(store, reqIds, events, store', o)
  }

  lemma {:induction false} LastAnswerStays(store: Store, reqIds: set<Rid>, events: seq<Event>, o: Oid, i: int)
    requires LastNames(reqIds, events, i, o)
    ensures o in Upserted(store, reqIds, events) && Upserted(store, reqIds, events)[o] == events[i].answer.order
    decreases |events|
  {
    var before := events[..|events| - 1];
    if i < |before| {
      LastAnswerStays(store, reqIds, before, o, i);
    }
  }

  lemma {:induction false} UnnamedStays(store: Store, reqIds: set<Rid>, events: seq<Event>, o: Oid)
    requires Unnamed(reqIds, events, o)
    ensures (o in Upserted(store, reqIds, events) <==> o in store) && (o in store ==> Upserted(store, reqIds, events)[o] == store[o])
    decreases |events|
  {
    if events != [] {
      var before := events[..|events| - 1];
      assert !Names(reqIds, events[|events| - 1], o);
      UnnamedStays(store, reqIds, before, o);
    }
  }

  lemma UpsertedIsRefreshed(store: Store, reqIds: set<Rid>, events: seq<Event>)
    ensures RefreshedBy(store, reqIds, events, Upserted(store, reqIds, events))
  {
    hide Upserted, Unnamed;
    var store' := Upserted(store, reqIds, events);
    forall o: Oid ensures RefreshedAt(store, reqIds, events, store', o) {
      forall i | LastNames(reqIds, events, i, o) ensures o in store' && store'[o] == events[i].answer.order {
        LastAnswerStays(store, reqIds, events, o, i);
      }
      if Unnamed(reqIds, events, o) { UnnamedStays(store, reqIds, events, o); }
    }
  }

  /** The requests that some events answer. */
  function AnsweredIn(reqIds: set<Rid>, events: seq<Event>): set<Rid> {
    set i | 0 <= i < |events| && events[i].Message? && events[i].rid in reqIds :: events[i].rid
  }

  /** No request is answered twice. */
  predicate AnsweredOnce(reqIds: set<Rid>, events: seq<Event>) {
    forall i, j | 0 <= i < j < |events| && events[i].Message? && events[j].Message? && events[i].rid in reqIds ::
      events[i].rid != events[j].rid
  }

  lemma AnsweredMore(reqIds: set<Rid>, e: Event, rest: seq<Event>)
    ensures AnsweredIn(reqIds, [e] + rest)
            == AnsweredIn(reqIds, rest) + (if e.Message? && e.rid in reqIds then {e.rid} else {})
  {
    var all := [e] + rest;
    assert all[0] == e;
    assert forall i | 0 <= i < |rest| :: all[i + 1] == rest[i];
    forall r | r in AnsweredIn(reqIds, rest) ensures r in AnsweredIn(reqIds, all) {
      var i :| 0 <= i < |rest| && rest[i].Message? && rest[i].rid in reqIds && rest[i].rid == r;
      assert all[i + 1] == rest[i];
    }
  }

  lemma OnceMore(reqIds: set<Rid>, e: Event, rest: seq<Event>)
    ensures AnsweredOnce(reqIds, [e] + rest)
            <==> AnsweredOnce(reqIds, rest) && (e.Message? && e.rid in reqIds ==> e.rid !in AnsweredIn(reqIds, rest))
  {
    var all := [e] + rest;
    assert all[0] == e;
    assert forall i | 0 <= i < |rest| :: all[i + 1] == rest[i];
    assert forall i | 0 < i < |all| :: all[i] == rest[i - 1];
    if AnsweredOnce(reqIds, all) {
      forall i, j | 0 <= i < j < |rest| && rest[i].Message? && rest[j].Message? && rest[i].rid in reqIds
        ensures rest[i].rid != rest[j].rid
      {
        assert all[i + 1] == rest[i] && all[j + 1] == rest[j];
      }
    }
  }

  /** How many messages the counter counts. */
  function Counted(reqIds: set<Rid>, events: seq<Event>): nat {
    if events == [] then 0
    else (if events[0].Message? && events[0].rid in reqIds then 1 else 0) + Counted(reqIds, events[1..])
  }

  /** A good end comes with as many counted messages as there were requests. */
  lemma {:induction false} CounterCounts(reqIds: set<Rid>, processed: nat, events: seq<Event>)
    requires Ending(reqIds, processed, events).0.Refreshed?
    ensures Counted(reqIds, events[..Ending(reqIds, processed, events).1]) + processed == |reqIds|
    decreases |events|
  {
    var n := Ending(reqIds, processed, events).1;
    var (e, rest) := (events[0], events[1..]);
    assert events[..n][1..] == rest[..n - 1];
    if e.rid in reqIds && processed + 1 == |reqIds| {
      assert rest[..n - 1] == [];
    } else {
      CounterCounts(reqIds, if e.rid in reqIds then processed + 1 else processed, rest);
    }
  }

  /** There are as many answered requests as counted messages if and only if none is answered twice. */
  lemma {:induction false} OnceExactly(reqIds: set<Rid>, events: seq<Event>)
    ensures |AnsweredIn(reqIds, events)| <= Counted(reqIds, events)
    ensures |AnsweredIn(reqIds, events)| == Counted(reqIds, events) <==> AnsweredOnce(reqIds, events)
  {
    if events == [] {
      NothingAnswered(reqIds);
    } else {
      var (e, rest) := (events[0], events[1..]);
      assert events == [e] + rest;
      OnceExactly(reqIds, rest);
      AnsweredMore(reqIds, e, rest);
      OnceMore(reqIds, e, rest);
    }
  }

  lemma NothingAnswered(reqIds: set<Rid>)
    ensures AnsweredIn(reqIds, []) == {}
  {}

  lemma {:induction false} SubsetOfSameSize(a: set<Rid>, b: set<Rid>)
    requires a <= b && |a| == |b|
    ensures a == b
  {
    if x :| x in b && x !in a {
      SmallerSubset(a, b - {x});
    }
  }

  lemma {:induction false} SmallerSubset(a: set<Rid>, b: set<Rid>)
    requires a <= b
    ensures |a| <= |b|
  {
    if x :| x in a {
      SmallerSubset(a - {x}, b - {x});
    }
  }

  // ----- how the wait ends -----

  predicate Own(reqIds: set<Rid>, e: Event) { e.Message? && e.rid in reqIds }

  /** Event j is the answer that completes the count. */
  predicate Completes(reqIds: set<Rid>, processed: nat, events: seq<Event>, j: nat)
    requires j < |events|
  {
    Own(reqIds, events[j]) && !events[j].answer.Erroneous? && processed + Counted(reqIds, events[..j + 1]) == |reqIds|
  }

  /** The channel is closed, the minute is up, or an answer is an error. */
  predicate Breaks(reqIds: set<Rid>, e: Event) { e.Closed? || e.Silence? || (Own(reqIds, e) && e.answer.Erroneous?) }

  predicate Passes(reqIds: set<Rid>, processed: nat, events: seq<Event>, i: nat)
    requires i <= |events|
  {
    forall j: nat | j < i :: !Breaks(reqIds, events[j]) && !events[j].Stopped? && !Completes(reqIds, processed, events, j)
  }

  /** Event i, or the end of the stream, ends the wait, and that is how. */
  predicate EndsAt(reqIds: set<Rid>, processed: nat, events: seq<Event>, i: nat, end: End) {
    && i <= |events| && Passes(reqIds, processed, events, i)
    && match end
       case Refreshed => i < |events| && Completes(reqIds, processed, events, i)
       case Failed => i < |events| && Breaks(reqIds, events[i])
       case GivenUp => i == |events| || events[i].Stopped?
  }

  lemma CountedMore(reqIds: set<Rid>, events: seq<Event>, j: nat)
    requires j + 1 < |events|
    ensures Counted(reqIds, events[..j + 2]) == (if Own(reqIds, events[0]) then 1 else 0) + Counted(reqIds, events[1..][..j + 1])
  {
    assert events[..j + 2][1..] == events[1..][..j + 1];
  }

  lemma CountedOne(reqIds: set<Rid>, events: seq<Event>)
    requires events != []
    ensures Counted(reqIds, events[..1]) == if Own(reqIds, events[0]) then 1 else 0
  {
    assert events[..1][1..] == [];
  }

  lemma LaterEnd(reqIds: set<Rid>, processed: nat, events: seq<Event>, i: nat, end: End)
    requires events != [] && Passes(reqIds, processed, events, 1) && i < |events|
    ensures EndsAt(reqIds, processed + (if Own(reqIds, events[0]) then 1 else 0), events[1..], i, end)
            <==> EndsAt(reqIds, processed, events, i + 1, end)
  {
    var (rest, p) := (events[1..], processed + (if Own(reqIds, events[0]) then 1 else 0));
    forall j: nat | j < |rest| ensures Completes(reqIds, p, rest, j) <==> Completes(reqIds, processed, events, j + 1) {
      CountedMore(reqIds, events, j);
    }
    assert forall j | 0 < j < |events| :: events[j] == rest[j - 1];
  }

  /** The wait ends where and how the first deciding event says. */
  lemma {:induction false} EndingFound(reqIds: set<Rid>, processed: nat, events: seq<Event>) returns (i: nat)
    ensures EndsAt(reqIds, processed, events, i, Ending(reqIds, processed, events).0)
    ensures Ending(reqIds, processed, events).1 == if i < |events| then i + 1 else i
    decreases |events|
  {
    hide Completes, Counted;
    i := 0;
    if events != [] {
      CountedOne(reqIds, events);
      FirstCompletes(reqIds, processed, events);
      if Passes(reqIds, processed, events, 1) {
        var p := processed + (if Own(reqIds, events[0]) then 1 else 0);
        var j := EndingFound(reqIds, p, events[1..]);
        LaterEnd(reqIds, processed, events, j, Ending(reqIds, p, events[1..]).0);
        i := j + 1;
      }
    }
  }

  lemma FirstCompletes(reqIds: set<Rid>, processed: nat, events: seq<Event>)
    requires events != []
    ensures Completes(reqIds, processed, events, 0)
            <==> Own(reqIds, events[0]) && !events[0].answer.Erroneous? && processed + 1 == |reqIds|
  {
    CountedOne(reqIds, events);
  }

  lemma OneEnd(reqIds: set<Rid>, processed: nat, events: seq<Event>, i: nat, end: End, j: nat, other: End)
    requires EndsAt(reqIds, processed, events, i, end) && EndsAt(reqIds, processed, events, j, other)
    ensures i == j && end == other
  {
    hide Completes;
    assert i < j ==> i < |events|;
    assert j < i ==> j < |events|;
    assert i < |events| && Completes(reqIds, processed, events, i) ==> Own(reqIds, events[i]) && !events[i].answer.Erroneous? by {
      Decided(reqIds, processed, events, i);
    }
  }

  lemma Decided(reqIds: set<Rid>, processed: nat, events: seq<Event>, i: nat)
    ensures i < |events| && Completes(reqIds, processed, events, i) ==> Own(reqIds, events[i]) && !events[i].answer.Erroneous?
  {}

  /** The refresh ends well, fails or is given up if and only if the first event that decides anything
      completes the count, breaks the wait, or stops it (or nothing decides at all). */
  lemma EndsExactly(reqIds: set<Rid>, events: seq<Event>, end: End)
    ensures Ending(reqIds, 0, events).0 == end <==> exists i :: EndsAt(reqIds, 0, events, i, end)
  {
    hide EndsAt;
    var i := EndingFound(reqIds, 0, events);
    if j: nat :| EndsAt(reqIds, 0, events, j, end) {
      OneEnd(reqIds, 0, events, i, Ending(reqIds, 0, events).0, j, end);
    }
  }

  /** The events up to the end of the wait. */
  function Heard(reqIds: set<Rid>, events: seq<Event>): seq<Event> { events[..Ending(reqIds, 0, events).1] }

  /** When the refresh ends well, there was something to refresh, and every request has been answered
      if and only if none was answered twice up to then. */
  lemma RefreshedMeansAllAnswered(reqIds: set<Rid>, events: seq<Event>)
    requires Ending(reqIds, 0, events).0.Refreshed?
    ensures reqIds != {}
    ensures AnsweredIn(reqIds, Heard(reqIds, events)) == reqIds <==> AnsweredOnce(reqIds, Heard(reqIds, events))
  {
    hide AnsweredIn, AnsweredOnce;
    var heard := Heard(reqIds, events);
    CounterCounts(reqIds, 0, events);
    OnceExactly(reqIds, heard);
    AnsweredAreAsked(reqIds, heard);
    if AnsweredOnce(reqIds, heard) { SubsetOfSameSize(AnsweredIn(reqIds, heard), reqIds); }
    RefreshedAnswers(reqIds, 0, events);
  }

  lemma AnsweredAreAsked(reqIds: set<Rid>, events: seq<Event>)
    ensures AnsweredIn(reqIds, events) <= reqIds
  {}

  lemma {:induction false} RefreshedAnswers(reqIds: set<Rid>, processed: nat, events: seq<Event>)
    requires Ending(reqIds, processed, events).0.Refreshed?
    ensures reqIds != {}
    decreases |events|
  {
    if events[0].rid !in reqIds {
      RefreshedAnswers(reqIds, processed, events[1..]);
    }
  }

  /** With nothing to refresh the wait never ends well: no message counts. */
  lemma NothingToRefresh(events: seq<Event>)
    ensures !Ending({}, 0, events).0.Refreshed?
  {
    if Ending({}, 0, events).0.Refreshed? { RefreshedAnswers({}, 0, events); }
  }

  /** Two answers to one request end the wait while another request is still open. */
  lemma DoubleAnswerEndsEarly()
    ensures var events := [Message(1, Nothing), Message(1, Nothing)];
            Ending({1, 2}, 0, events) == (Refreshed, 2) && 2 !in AnsweredIn({1, 2}, events)
  {
    var events := [Message(1, Nothing), Message(1, Nothing)];
    assert events[1..] == [Message(1, Nothing)];
    assert |{1, 2}| == 2;
  }

  // ----- the cancel round trip -----

  datatype CancelReply = Accepted | AlreadyCancelled | OrderDone | OtherFailure

  datatype CancelEvent = Reply(rid: Rid, reply: CancelReply) | Unreadable | TimedOut

  /** How a cancel ends. A time-out ends in the dereference of an error that is nil. */
  datatype CancelEnd = Confirmed | CantCancelDone | CancelFailed | NilError

  /** When nothing more arrives, the wait times out. */
  function CancelEnding(id: Rid, events: seq<CancelEvent>): CancelEnd {
    if events == [] then NilError
    else match events[0]
      case Unreadable => CancelFailed
      case TimedOut => NilError
      case Reply(rid, reply) =>
        if rid != id then CancelEnding(id, events[1..])
        else match reply
          case Accepted => Confirmed
          case AlreadyCancelled => Confirmed
          case OrderDone => CantCancelDone
          case OtherFailure => CancelFailed
  }

  /** Only answers to other requests before moment i. */
  predicate OthersBefore(id: Rid, events: seq<CancelEvent>, i: nat)
    requires i <= |events|
  {
    forall j | 0 <= j < i :: events[j].Reply? && events[j].rid != id
  }

  /** The first event that is not an answer to another request, or the end of the stream. */
  function Deciding(id: Rid, events: seq<CancelEvent>): (i: nat)
    ensures i <= |events| && OthersBefore(id, events, i)
    ensures i < |events| ==> !(events[i].Reply? && events[i].rid != id)
  {
    if events == [] || !(events[0].Reply? && events[0].rid != id) then 0
    else
      var i := Deciding(id, events[1..]);
      assert forall j | 0 < j < i + 1 :: events[j] == events[1..][j - 1];
      i + 1
  }

  /** There is no other such event. */
  lemma OnlyDeciding(id: Rid, events: seq<CancelEvent>, i: nat)
    requires i <= |events| && OthersBefore(id, events, i)
    requires i < |events| ==> !(events[i].Reply? && events[i].rid != id)
    ensures Deciding(id, events) == i
  {}

  /** What the deciding event alone says. */
  function Verdict(events: seq<CancelEvent>, i: nat): CancelEnd
    requires i <= |events|
  {
    if i == |events| then NilError
    else match events[i]
      case Unreadable => CancelFailed
      case TimedOut => NilError
      case Reply(_, reply) =>
        if reply.OrderDone? then CantCancelDone else if reply.OtherFailure? then CancelFailed else Confirmed
  }

  lemma {:induction false} EndsAsDecided(id: Rid, events: seq<CancelEvent>)
    ensures CancelEnding(id, events) == Verdict(events, Deciding(id, events))
  {
    if events != [] && events[0].Reply? && events[0].rid != id {
      EndsAsDecided(id, events[1..]);
      var i := Deciding(id, events[1..]);
      assert i < |events[1..]| ==> events[1..][i] == events[i + 1];
    }
  }

  /** A cancel is confirmed if and only if the first event that is not an answer to another request is
      the exchange's word that the order is cancelled. */
  lemma ConfirmedExactly(id: Rid, events: seq<CancelEvent>)
    ensures CancelEnding(id, events).Confirmed? <==>
            exists i :: 0 <= i < |events| && OthersBefore(id, events, i)
                        && (events[i] == Reply(id, Accepted) || events[i] == Reply(id, AlreadyCancelled))
  {
    EndsAsDecided(id, events);
    if i :| 0 <= i < |events| && OthersBefore(id, events, i)
            && (events[i] == Reply(id, Accepted) || events[i] == Reply(id, AlreadyCancelled)) {
      OnlyDeciding(id, events, i);
    }
  }

  /** The order turns out to be done if and only if the exchange says so first. */
  lemma CantCancelDoneExactly(id: Rid, events: seq<CancelEvent>)
    ensures CancelEnding(id, events).CantCancelDone? <==>
            exists i :: 0 <= i < |events| && OthersBefore(id, events, i) && events[i] == Reply(id, OrderDone)
  {
    EndsAsDecided(id, events);
    if i :| 0 <= i < |events| && OthersBefore(id, events, i) && events[i] == Reply(id, OrderDone) {
      OnlyDeciding(id, events, i);
    }
  }

  /** A cancel fails with an error of its own if and only if another refusal, or a message that cannot
      be read, comes first. */
  lemma CancelFailedExactly(id: Rid, events: seq<CancelEvent>)
    ensures CancelEnding(id, events).CancelFailed? <==>
            exists i :: 0 <= i < |events| && OthersBefore(id, events, i)
                        && (events[i] == Unreadable || events[i] == Reply(id, OtherFailure))
  {
    EndsAsDecided(id, events);
    if i :| 0 <= i < |events| && OthersBefore(id, events, i) && (events[i] == Unreadable || events[i] == Reply(id, OtherFailure)) {
      OnlyDeciding(id, events, i);
    }
  }

  /** A cancel does not return at all, but dereferences an error that is nil, if and only if the time is
      up before anything but answers to other requests has arrived. In all other cases, a cancel that
      is not confirmed returns an error. */
  lemma NilErrorExactly(id: Rid, events: seq<CancelEvent>)
    ensures CancelEnding(id, events).NilError? <==>
            OthersBefore(id, events, |events|)
            || exists i :: 0 <= i < |events| && OthersBefore(id, events, i) && events[i].TimedOut?
  {
    EndsAsDecided(id, events);
    if OthersBefore(id, events, |events|) {
      OnlyDeciding(id, events, |events|);
    } else if i :| 0 <= i < |events| && OthersBefore(id, events, i) && events[i].TimedOut? {
      OnlyDeciding(id, events, i);
    }
  }

  /** It happens: one answer to another request, and then silence. */
  lemma TimeOutRunsIntoNil(id: Rid, other: Rid)
    requires other != id
    ensures CancelEnding(id, [Reply(other, Accepted), TimedOut]).NilError?
  {
    var events := [Reply(other, Accepted), TimedOut];
    assert OthersBefore(id, events, 1) && events[1].TimedOut?;
    NilErrorExactly(id, events);
  }

  method CancelOrder(id: Rid, events: seq<CancelEvent>) returns (r: CancelEnd)
    ensures r == CancelEnding(id, events)
  {
    var i := 0;
    while i < |events|
      invariant i <= |events| && CancelEnding(id, events) == CancelEnding(id, events[i..])
    {
      match events[i] {
        case Unreadable => return CancelFailed;
        case TimedOut => return NilError;
        case Reply(rid, reply) =>
          if rid == id {
            if reply == OrderDone { return CantCancelDone; }
            if reply == OtherFailure { return CancelFailed; }
            return Confirmed;
          }
      }
      i := i + 1;
    }
    r := NilError;
  }

  // ----- the refresh over objects -----

  class OrderService {
    const storage: OrderStore
    var nextRid: Rid

    constructor (storage: OrderStore)
      ensures this.storage == storage && nextRid == 1
    { this.storage, nextRid := storage, 1; }

    /** One request for every order that is not final. */
    method SendRequests() returns (reqIds: set<Rid>, ghost asked: map<Rid, Oid>)
      modifies this
      ensures asked.Keys == reqIds && forall r | r in reqIds :: old(nextRid) <= r < nextRid
      ensures asked.Values == (set o | o in storage.userOrders && !storage.userOrders[o].state.Final())
      ensures forall r, s | r in asked && s in asked && asked[r] == asked[s] :: r == s
    {
      reqIds, asked := {}, map[];
      var rest := storage.userOrders.Keys;
      while rest != {}
        invariant rest <= storage.userOrders.Keys && old(nextRid) <= nextRid
        invariant asked.Keys == reqIds && forall r | r in reqIds :: old(nextRid) <= r < nextRid
        invariant asked.Values == (set o | o in storage.userOrders.Keys - rest && !storage.userOrders[o].state.Final())
        invariant forall r, s | r in asked && s in asked && asked[r] == asked[s] :: r == s
      {
        var oid :| oid in rest;
        rest := rest - {oid};
        if storage.userOrders[oid].state.Code() > Active.Code() { continue; }
        ghost var before := asked;
        asked := asked[nextRid := oid];
        assert asked.Values == before.Values + {oid} by { AddedValue(before, nextRid, oid); }
        reqIds := reqIds + {nextRid};
        nextRid := nextRid + 1;
      }
    }

    /** Waits for the answers and stores them. */
    method UpdateOrdersStates(events: seq<Event>) returns (r: End, reqIds: set<Rid>)
      modifies this, storage
      ensures r == Ending(reqIds, 0, events).0
      ensures RefreshedBy(old(storage.userOrders), reqIds, Heard(reqIds, events), storage.userOrders)
      ensures |reqIds| == |set o | o in old(storage.userOrders) && !old(storage.userOrders[o]).state.Final()|
      ensures r.Refreshed? ==>
                reqIds != {} && (AnsweredIn(reqIds, Heard(reqIds, events)) == reqIds <==> AnsweredOnce(reqIds, Heard(reqIds, events)))
    {
      ghost var asked;
      reqIds, asked := SendRequests();
      SameSize(asked);
      r := Await(reqIds, events);
      if r.Refreshed? { RefreshedMeansAllAnswered(reqIds, events); }
    }

    method Await(reqIds: set<Rid>, events: seq<Event>) returns (r: End)
      modifies storage
      ensures r == Ending(reqIds, 0, events).0
      ensures RefreshedBy(old(storage.userOrders), reqIds, Heard(reqIds, events), storage.userOrders)
    {
      hide RefreshedBy;
      UpsertedIsRefreshed(storage.userOrders, reqIds, Heard(reqIds, events));
      var oNumber, oNumberProcessed, i := |reqIds|, 0, 0;
      while i < |events|
        invariant i <= |events|
        invariant Ending(reqIds, 0, events) == (Ending(reqIds, oNumberProcessed, events[i..]).0, Ending(reqIds, oNumberProcessed, events[i..]).1 + i)
        invariant storage.userOrders == Upserted(old(storage.userOrders), reqIds, events[..i])
      {
        assert events[..i + 1][..i] == events[..i];
        assert events[i..][1..] == events[i + 1..];
        match events[i] {
          case Closed => return Failed;
          case Stopped => return GivenUp;
          case Silence => return Failed;
          case Message(rid, answer) =>
            if rid in reqIds {
              if answer == Erroneous { return Failed; }
              if answer.Known? { storage.UpsertUserOrder(answer.oid, answer.order); }
              oNumberProcessed := oNumberProcessed + 1;
              if oNumberProcessed == oNumber { return Refreshed; }
            }
        }
        i := i + 1;
      }
      r := GivenUp;
    }
  }

  lemma AddedValue(m: map<Rid, Oid>, r: Rid, o: Oid)
    requires r !in m
    ensures m[r := o].Values == m.Values + {o}
  {
    var m' := m[r := o];
    assert m'[r] == o;
    forall v | v in m.Values ensures v in m'.Values {
      var k :| k in m && m[k] == v;
      assert m'[k] == v;
    }
  }

  /** As many requests as orders that are not final. */
  lemma {:induction false} SameSize(asked: map<Rid, Oid>)
    requires forall r, s | r in asked && s in asked && asked[r] == asked[s] :: r == s
    ensures |asked.Keys| == |asked.Values|
    decreases |asked|
  {
    if asked == map[] {
      assert asked.Values == {};
    } else {
      var r :| r in asked;
      var rest := asked - {r};
      assert asked == rest[r := asked[r]];
      AddedValue(rest, r, asked[r]);
      assert asked.Keys == rest.Keys + {r};
      SameSize(rest);
    }
  }
}
