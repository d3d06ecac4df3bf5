/**
 The broker's loop (broker/broker.go) over channels with a bounded queue. Each turn does to every
 subscriber's channel what the stream model says. Sending needs room and an open channel, closing
 needs an open channel, so no turn blocks, sends on a closed channel or closes one twice.
 */
module Brokers {
  import opened BrokerStreams

  class Channel<T> {
    var queue: seq<T>
    var closed: bool
    ghost var received: seq<T>
    ghost var positions: seq<nat>

    ghost function View(): Box<T>
      reads this
    {
      Box(received, queue, positions, closed)
    }

    constructor ()
      ensures View() == FreshBox()
    {
      queue, closed, received, positions := [], false, [], [];
    }

    method Send(msg: T, ghost at: nat)
      requires !closed && |queue| < EVENT_CH_SIZE
      modifies this
      ensures View() == Offered(old(View()), msg, at)
    {
      queue := queue + [msg];
      positions := positions + [at];
    }

    method Close()
      requires !closed
      modifies this
      ensures View() == old(View()).(closed := true)
    { closed := true; }

    method Receive() returns (msg: T)
      requires queue != []
      modifies this
      ensures View() == Taken(old(View())) && msg == old(queue)[0]
    {
      msg := queue[0];
      received := received + [msg];
      queue := queue[1..];
    }
  }

  class Broker<T> {
    var subscribers: map<Channel<T>, string>
    ghost var handled: seq<T>

    ghost predicate Valid()
      reads this, subscribers.Keys
    {
      forall c | c in subscribers :: !c.closed && |c.queue| <= EVENT_CH_SIZE
    }

    constructor ()
      ensures Valid() && subscribers == map[] && handled == []
    {
      subscribers, handled := map[], [];
    }

    /** A registration reaches the loop. */
    method Register(c: Channel<T>, name: string)
      requires Valid() && !c.closed && |c.queue| <= EVENT_CH_SIZE
      modifies this`subscribers
      ensures Valid() && subscribers == old(subscribers)[c := name]
    { subscribers := subscribers[c := name]; }

    /** A removal reaches the loop; an unknown channel is left alone. */
    method Remove(c: Channel<T>)
      requires Valid()
      modifies this`subscribers, c
      ensures Valid() && subscribers == old(subscribers) - {c}
      ensures c.View() == if c in old(subscribers) then old(c.View()).(closed := true) else old(c.View())
    {
      if c !in subscribers { return; }
      subscribers := subscribers - {c};
      c.Close();
    }

    /** A message reaches the loop: every subscriber with room in its queue gets it. */
    method Deliver(msg: T)
      requires Valid()
      modifies this`handled, subscribers.Keys
      ensures Valid() && subscribers == old(subscribers) && handled == old(handled) + [msg]
      ensures forall c | c in subscribers :: c.View() == Offered(old(c.View()), msg, |old(handled)|)
    {
      var rest := subscribers.Keys;
      while rest != {}
        invariant rest <= subscribers.Keys && Valid() && subscribers == old(subscribers) && handled == old(handled)
        invariant forall c | c in rest :: c.View() == old(c.View())
        invariant forall c | c in subscribers.Keys - rest :: c.View() == Offered(old(c.View()), msg, |old(handled)|)
      {
        var msgCh :| msgCh in rest;
        rest := rest - {msgCh};
        if |msgCh.queue| == EVENT_CH_SIZE { continue; }
        msgCh.Send(msg, |handled|);
      }
      handled := handled + [msg];
    }
  }
}
