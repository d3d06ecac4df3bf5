/**
 The message broker (broker/broker.go) as seen by one subscriber: which of the handled messages its
 channel takes, in which order, over any interleaving of registrations, removals, publications and
 receptions.
 */
module BrokerStreams {

  const EVENT_CH_SIZE := 1024

  type Chan = nat

  /** A channel: what its reader has received, what is still queued, and at which positions of the
      broker's stream all these messages were handled. */
  datatype Box<T> = Box(received: seq<T>, queue: seq<T>, positions: seq<nat>, closed: bool)

  function FreshBox<T>(): Box<T> { Box([], [], [], false) }

  function Offered<T>(b: Box<T>, msg: T, at: nat): Box<T> {
    if |b.queue| == EVENT_CH_SIZE then b else b.(queue := b.queue + [msg], positions := b.positions + [at])
  }

  function Taken<T>(b: Box<T>): Box<T>
    requires b.queue != []
  {
    b.(received := b.received + [b.queue[0]], queue := b.queue[1..])
  }

  datatype State<T> = State(handled: seq<T>, names: map<Chan, string>, boxes: map<Chan, Box<T>>)

  datatype Event<T> = Subscribed(c: Chan, name: string) | Unsubscribed(c: Chan) | Published(msg: T) | Received(c: Chan)

  /** A channel is made for its subscription; a reader waits while its queue is empty. */
  predicate Enabled<T>(s: State<T>, e: Event<T>) {
    match e
    case Subscribed(c, _) => c !in s.boxes
    case Unsubscribed(_) => true
    case Published(_) => true
    case Received(c) => c in s.boxes && s.boxes[c].queue != []
  }

  function Step<T>(s: State<T>, e: Event<T>): State<T>
    requires Enabled(s, e)
  {
    match e
    case Subscribed(c, name) => s.(names := s.names[c := name], boxes := s.boxes[c := FreshBox()])
    case Unsubscribed(c) =>
      if c in s.names && c in s.boxes
      then s.(names := s.names - {c}, boxes := s.boxes[c := s.boxes[c].(closed := true)])
      else s
    case Published(msg) =>
      State(s.handled + [msg], s.names,
            map c | c in s.boxes :: if c in s.names then Offered(s.boxes[c], msg, |s.handled|) else s.boxes[c])
    case Received(c) => s.(boxes := s.boxes[c := Taken(s.boxes[c])])
  }

  ghost predicate Legal<T>(trace: seq<Event<T>>)
    decreases |trace|, 0
  {
    trace == [] ||
    (Legal(trace[..|trace| - 1]) && Enabled(After(trace[..|trace| - 1]), trace[|trace| - 1]))
  }

  ghost function After<T>(trace: seq<Event<T>>): State<T>
    requires Legal(trace)
    decreases |trace|, 1
  {
    if trace == [] then State([], map[], map[]) else Step(After(trace[..|trace| - 1]), trace[|trace| - 1])
  }

  predicate Increasing(ps: seq<nat>) { forall i, j | 0 <= i < j < |ps| :: ps[i] < ps[j] }

  predicate Within(ps: seq<nat>, n: nat) { forall i | 0 <= i < |ps| :: ps[i] < n }

  function At<T>(handled: seq<T>, ps: seq<nat>): seq<T>
    requires Within(ps, |handled|)
  {
    seq(|ps|, i requires 0 <= i < |ps| => handled[ps[i]])
  }

  /** What a channel has taken is an order-preserving, duplicate-free selection of the stream. */
  ghost predicate Selects<T>(b: Box<T>, handled: seq<T>) {
    && Increasing(b.positions) && Within(b.positions, |handled|)
    && b.received + b.queue == At(handled, b.positions)
    && |b.queue| <= 1024
  }

  ghost predicate Inv<T>(s: State<T>) {
    && s.names.Keys <= s.boxes.Keys
    && (forall c | c in s.boxes :: (c in s.names <==> !s.boxes[c].closed) && Selects(s.boxes[c], s.handled))
  }

  lemma OfferSelects<T>(b: Box<T>, msg: T, handled: seq<T>)
    requires Selects(b, handled)
    ensures Selects(Offered(b, msg, |handled|), handled + [msg]) && Selects(b, handled + [msg])
  {
    assert At(handled + [msg], b.positions) == At(handled, b.positions);
    if |b.queue| != EVENT_CH_SIZE {
      var b' := Offered(b, msg, |handled|);
      assert b'.received + b'.queue == (b.received + b.queue) + [msg];
      assert At(handled + [msg], b'.positions) == At(handled, b.positions) + [msg];
    }
  }

  lemma TakeSelects<T>(b: Box<T>, handled: seq<T>)
    requires Selects(b, handled) && b.queue != []
    ensures Selects(Taken(b), handled)
  {
    assert Taken(b).received + Taken(b).queue == b.received + b.queue;
  }

  lemma StepKeeps<T>(s: State<T>, e: Event<T>)
    requires Inv(s) && Enabled(s, e)
    ensures Inv(Step(s, e))
  {
    hide Selects;
    match e
    case Subscribed(c, name) => assert Selects(FreshBox(), s.handled) by { FreshSelects(s.handled); }
    case Unsubscribed(c) => if c in s.names { CloseSelects(s.boxes[c], s.handled); }
    case Published(msg) =>
      forall c | c in s.boxes
        ensures Selects(Offered(s.boxes[c], msg, |s.handled|), s.handled + [msg]) && Selects(s.boxes[c], s.handled + [msg])
      {
        OfferSelects(s.boxes[c], msg, s.handled);
      }
    case Received(c) => TakeSelects(s.boxes[c], s.handled);
  }

  lemma FreshSelects<T>(handled: seq<T>)
    ensures Selects(FreshBox(), handled)
  {}

  lemma CloseSelects<T>(b: Box<T>, handled: seq<T>)
    requires Selects(b, handled)
    ensures Selects(b.(closed := true), handled)
  {}

  /** Every subscriber's stream is a selection, and a channel is closed exactly when it has been removed. */
  lemma {:induction false} StreamsAreSelections<T>(trace: seq<Event<T>>)
    requires Legal(trace)
    ensures Inv(After(trace))
    decreases |trace|
  {
    hide Inv;
    if trace == [] {
      assert Inv(After(trace)) by { NothingYet(trace); }
    } else {
      StreamsAreSelections(trace[..|trace| - 1]);
      StepKeeps(After(trace[..|trace| - 1]), trace[|trace| - 1]);
    }
  }

  lemma NothingYet<T>(trace: seq<Event<T>>)
    requires trace == []
    ensures Inv(After(trace))
  {}

  /** The message published at moment p reaches a channel if and only if the channel was registered
      then and its queue was not full; nothing that happens later changes that. */
  lemma {:induction false} DeliveredExactly<T>(trace: seq<Event<T>>, p: nat, c: Chan)
    requires Legal(trace) && p < |trace| && trace[p].Published? && c in After(trace).boxes
    ensures Legal(trace[..p])
    ensures var s := After(trace[..p]);
            |s.handled| in After(trace).boxes[c].positions <==>
            (c in s.names && c in s.boxes && |s.boxes[c].queue| != 1024)
    decreases |trace|
  {
    var (before, last) := (trace[..|trace| - 1], trace[|trace| - 1]);
    StreamsAreSelections(before);
    if p == |trace| - 1 {
      PublishedLast(After(before), last, c);
    } else {
      assert before[..p] == trace[..p] && before[p] == trace[p];
      PrefixLegal(before, p);
      HandledGrows(before, p);
      if c in After(before).boxes {
        DeliveredExactly(before, p, c);
      } else {
        BoxesGrow(before, p);
      }
      LaterStep(After(before), last, c, |After(trace[..p]).handled|);
    }
  }

  lemma PublishedLast<T>(s: State<T>, e: Event<T>, c: Chan)
    requires Inv(s) && e.Published? && c in s.boxes
    ensures |s.handled| in Step(s, e).boxes[c].positions <==> (c in s.names && |s.boxes[c].queue| != EVENT_CH_SIZE)
  {
    assert Selects(s.boxes[c], s.handled);
  }

  /** A later step neither adds nor removes an earlier position. */
  lemma LaterStep<T>(s: State<T>, e: Event<T>, c: Chan, at: nat)
    requires Inv(s) && Enabled(s, e) && at < |s.handled| && c in Step(s, e).boxes
    ensures c in s.boxes ==> (at in Step(s, e).boxes[c].positions <==> at in s.boxes[c].positions)
    ensures c !in s.boxes ==> Step(s, e).boxes[c].positions == []
  {}

  lemma {:induction false} PrefixLegal<T>(trace: seq<Event<T>>, p: nat)
    requires Legal(trace) && p <= |trace|
    ensures Legal(trace[..p])
    decreases |trace|
  {
    if p < |trace| {
      assert trace[..|trace| - 1][..p] == trace[..p];
      PrefixLegal(trace[..|trace| - 1], p);
    } else {
      assert trace[..p] == trace;
    }
  }

  /** A message is handled before everything that follows its publication. */
  lemma {:induction false} HandledGrows<T>(trace: seq<Event<T>>, p: nat)
    requires Legal(trace) && p < |trace| && trace[p].Published? && Legal(trace[..p])
    ensures |After(trace[..p]).handled| < |After(trace).handled|
    decreases |trace|
  {
    var before := trace[..|trace| - 1];
    if p < |trace| - 1 {
      assert before[..p] == trace[..p];
      HandledGrows(before, p);
    }
  }

  /** Channels stay. */
  lemma {:induction false} BoxesGrow<T>(trace: seq<Event<T>>, p: nat)
    requires Legal(trace) && p <= |trace| && Legal(trace[..p])
    ensures After(trace[..p]).boxes.Keys <= After(trace).boxes.Keys
    decreases |trace|
  {
    if p < |trace| {
      var before := trace[..|trace| - 1];
      assert before[..p] == trace[..p];
      BoxesGrow(before, p);
    } else {
      assert trace[..p] == trace;
    }
  }

  /** Channel c is registered at moment i and removed at the later moment j. */
  predicate RemovedAt<T>(trace: seq<Event<T>>, c: Chan, i: nat, j: nat) {
    i < j < |trace| && trace[i].Subscribed? && trace[i].c == c && trace[j] == Unsubscribed(c)
  }

  /** What one step does to the closing of a channel. */
  lemma StepCloses<T>(s: State<T>, e: Event<T>, c: Chan)
    requires Inv(s) && Enabled(s, e) && c in Step(s, e).boxes
    ensures c in s.boxes ==> (Step(s, e).boxes[c].closed <==> s.boxes[c].closed || e == Unsubscribed(c))
    ensures c !in s.boxes ==> e.Subscribed? && e.c == c && !Step(s, e).boxes[c].closed
  {}

  /** A channel exists exactly from its registration on. */
  lemma {:induction false} KnownSince<T>(trace: seq<Event<T>>, c: Chan)
    requires Legal(trace)
    ensures c in After(trace).boxes <==> exists i :: 0 <= i < |trace| && trace[i].Subscribed? && trace[i].c == c
    decreases |trace|
  {
    if trace != [] {
      var (before, last) := (trace[..|trace| - 1], trace[|trace| - 1]);
      KnownSince(before, c);
      if i :| 0 <= i < |before| && before[i].Subscribed? && before[i].c == c { assert trace[i] == before[i]; }
      if i :| 0 <= i < |trace| && trace[i].Subscribed? && trace[i].c == c { assert i < |before| ==> before[i] == trace[i]; }
    }
  }

  /** A registered channel ends up closed if and only if a removal was handled after its registration: every
      removal handled before is lost, and the channel then stays open although its subscriber has left. */
  lemma {:induction false} ClosedExactly<T>(trace: seq<Event<T>>, c: Chan)
    requires Legal(trace) && c in After(trace).boxes
    ensures After(trace).boxes[c].closed <==> exists i, j :: RemovedAt(trace, c, i, j)
    decreases |trace|
  {
    hide Step, Enabled, Inv;
    var (before, last) := (trace[..|trace| - 1], trace[|trace| - 1]);
    StreamsAreSelections(before);
    StepCloses(After(before), last, c);
    KnownSince(before, c);
    forall i: nat, j: nat | RemovedAt(trace, c, i, j)
      ensures c in After(before).boxes && (j < |before| ==> RemovedAt(before, c, i, j))
    {
      assert before[i] == trace[i] && (j < |before| ==> before[j] == trace[j]);
    }
    if c in After(before).boxes {
      ClosedExactly(before, c);
      if i, j :| RemovedAt(before, c, i, j) { assert RemovedAt(trace, c, i, j); }
      var i :| 0 <= i < |before| && before[i].Subscribed? && before[i].c == c;
      assert last == Unsubscribed(c) ==> RemovedAt(trace, c, i, |before|);
    }
  }

  /** For example, a removal handled right before the registration instead of right after it. */
  lemma EarlyRemovalIsLost<T>(s: State<T>, c: Chan, name: string)
    requires Inv(s) && c !in s.boxes
    ensures var s' := Step(Step(s, Unsubscribed(c)), Subscribed(c, name));
            c in s'.names && !s'.boxes[c].closed
    ensures var s' := Step(Step(s, Subscribed(c, name)), Unsubscribed(c));
            c !in s'.names && s'.boxes[c].closed
  {}
}
