/** The buy strategy in the form of the code (strategy/buy.go), method by method against its protocol. */
module BuyServices {
  import opened Totals
  import opened Exchange
  import opened Rounding
  import opened Books
  import opened BuySession
  import opened BuyProtocol
  import P = SpreadProtocol
  import opened V = SpreadServices

  /** The state after an activation is the one its outcome describes, reached by its writes in their
      order. */
  ghost predicate Carried<T>(oc: Outcome, t: Trail, cost: int, volume: int,
                             r: Result<T>, t': Trail, store': Store, venue': Venue, cost': int, volume': int) {
    match oc
    case Fails => r.Failure? && r.fault != NilOrder
    case Panics => r == Failure(NilOrder)
    case Acts(ws, _, store, venue, c, n) =>
      r.Success? && t' == Written(ws, t) && store' == store && venue' == venue && cost' == cost + c && volume' == volume + n
  }

  class Buy {
    const storage: OrderStore
    const wire: Wire
    const orderBook: Book

    constructor (storage: OrderStore, wire: Wire, book: Book)
      ensures this.storage == storage && this.wire == wire && orderBook == book
    { this.storage, this.wire, orderBook := storage, wire, book; }

    /** The sum of the filled volumes (service/buy/session.go). */
    method GetSessTotalBoughtVolume(sess: BuySession.Session) returns (r: Result<int>)
      ensures r.Success? <==> sess.View().orders <= storage.userOrders.Keys
      ensures r.Success? ==> r.value == BoughtVolume(sess.View(), storage.userOrders)
      ensures r.Failure? ==> r.fault == NilOrder
    {
      var total, rest := 0, sess.BuyOrders;
      while rest != {}
        invariant rest <= sess.BuyOrders && sess.BuyOrders - rest <= storage.userOrders.Keys
        invariant total == Total(sess.BuyOrders - rest, Fills(storage.userOrders))
      {
        var oid :| oid in rest;
        var order :- storage.GetUserOrder(oid);
        ghost var summed := sess.BuyOrders - rest;
        rest := rest - {oid};
        assert sess.BuyOrders - rest == summed + {oid};
        TotalAdd(summed, Fills(storage.userOrders), oid);
        if order.filled == 0 { continue; }
        total := total + order.filled;
      }
      assert sess.BuyOrders - rest == sess.BuyOrders;
      r := Success(total);
    }

    method GetSessTotalBoughtCost(sess: BuySession.Session) returns (r: Result<int>)
      ensures r.Success? <==> sess.View().orders <= storage.userOrders.Keys
      ensures r.Success? ==> r.value == BoughtCost(sess.View(), storage.userOrders)
      ensures r.Failure? ==> r.fault == NilOrder
    {
      var total, rest := 0, sess.BuyOrders;
      while rest != {}
        invariant rest <= sess.BuyOrders && sess.BuyOrders - rest <= storage.userOrders.Keys
        invariant total == Total(sess.BuyOrders - rest, Costs(storage.userOrders))
      {
        var oid :| oid in rest;
        var order :- storage.GetUserOrder(oid);
        ghost var summed := sess.BuyOrders - rest;
        rest := rest - {oid};
        assert sess.BuyOrders - rest == summed + {oid};
        TotalAdd(summed, Costs(storage.userOrders), oid);
        if order.filled == 0 { continue; }
        total := total + order.price * order.filled;
      }
      assert sess.BuyOrders - rest == sess.BuyOrders;
      r := Success(total);
    }

    method CalculateBuyOrder(sess: BuySession.Session, sid: Sid, price: nat, target: Oid) returns (r: Result<Request>)
      requires price > 0
      ensures r.Success? <==> sess.View().orders <= storage.userOrders.Keys
      ensures r.Success? ==> r.value == BuyRequest(sess.View(), sid, storage.userOrders, price, target)
      ensures r.Failure? ==> r.fault == NilOrder
    {
      var cost :- GetSessTotalBoughtCost(sess);
      var total := sess.BuyTotal - cost as real;
      r := Success(Request(sid, Side.Buy, price, RoundHalfEven(total / (price as real)), target, cost));
    }

    method IsBuyOrderCreationAvailable(sess: BuySession.Session, m: P.Market) returns (r: Result<bool>)
      ensures var (f, store) := (sess.View(), storage.userOrders);
              r == if !f.need || !(m.buyOpen || m.looks.sums) then Success(false)
                   else if !(f.orders <= store.Keys) then Failure(NilOrder)
                   else Success(m.buyOpen)
    {
      if !sess.IsNeedToCreateBuyOrder { return Success(false); }
      if !(m.buyOpen || m.looks.sums) { return Success(false); }
      var bought :- GetSessTotalBoughtCost(sess);
      r := Success(m.buyOpen);
    }

    method CreateBuyOrder(sess: BuySession.Session, sid: Sid, m: P.Market) returns (r: Result<()>)
      requires m.price > 0
      modifies sess, wire
      ensures var (f, store, v) := (old(sess.View()), storage.userOrders, old(wire.venue));
              if !(f.orders <= store.Keys) then r == Failure(NilOrder)
              else if !m.funded then r == Failure(InsufficientFunds) && TrailOf(sess) == Written([Need(false), Need(true)], old(TrailOf(sess))) && wire.venue == v
              else && r == Success(()) && TrailOf(sess) == Written([Need(false), SetExt(m.ext), SetRid(v.nextRid)], old(TrailOf(sess)))
                   && wire.venue == Send(v, BuyRequest(f, sid, store, m.price, 0))
    {
      hide BuySession.Session.View;
      ghost var t := TrailOf(sess);
      sess.SetIsNeedToCreateBuyOrder(false);
      var req :- CalculateBuyOrder(sess, sid, m.price, 0);
      if !m.funded {
        sess.SetIsNeedToCreateBuyOrder(true);
        WrittenTwo(Need(false), Need(true), t);
        return Failure(InsufficientFunds);
      }
      var rid := wire.Post(req);
      sess.SetActiveBuyExtOrderID(m.ext);
      sess.SetActiveBuyOrderRequestID(rid);
      WrittenThree(Need(false), SetExt(m.ext), SetRid(rid), t);
      r := Success(());
    }

    /** One round of the decider; it stops when the session is done. */
    method Decide(sess: BuySession.Session, sid: Sid, m: P.Market) returns (r: Result<bool>)
      requires m.buyOpen ==> m.price > 0
      modifies sess, wire
      ensures Carried(BuyProtocol.Decide(old(sess.View()), sid, storage.userOrders, old(wire.venue), m),
                   old(TrailOf(sess)), orderBook.BoughtCost, orderBook.BoughtVolume,
                   r, TrailOf(sess), storage.userOrders, wire.venue, orderBook.BoughtCost, orderBook.BoughtVolume)
      ensures r.Success? ==> (r.value <==> old(sess.View()).isDone)
    {
      WrittenNone(TrailOf(sess));
      if sess.IsDone { return Success(true); }
      var isBuyAvailable :- IsBuyOrderCreationAvailable(sess, m);
      if isBuyAvailable {
        var created := CreateBuyOrder(sess, sid, m);
        if created == Failure(NilOrder) { return Failure(NilOrder); }
      }
      r := Success(false);
    }

    /** An active order is cancelled first; then the session is complete. */
    method SetBuyOrderExecutedFlags(sess: BuySession.Session, oid: Oid, order: Order, answer: P.CancelAnswer) returns (r: Result<()>)
      requires P.LegalCancel(wire.venue, oid, answer)
      modifies sess, wire, storage, orderBook`BoughtCost, orderBook`BoughtVolume
      ensures Carried(SetExecuted(old(sess.View()), oid, order, old(storage.userOrders), old(wire.venue), answer),
                   old(TrailOf(sess)), old(orderBook.BoughtCost), old(orderBook.BoughtVolume),
                   r, TrailOf(sess), storage.userOrders, wire.venue, orderBook.BoughtCost, orderBook.BoughtVolume)
    {
      hide BuySession.Session.View;
      ghost var t := TrailOf(sess);
      if order.state == Active {
        var _ :- wire.CancelOrder(oid, answer, storage);
      }
      sess.SetBuyOrderExecutedFlags(oid);
      WrittenOne(Executed(oid), t);
      var cost :- GetSessTotalBoughtCost(sess);
      orderBook.AddBoughtCost(cost);
      var volume := GetSessTotalBoughtVolume(sess);
      orderBook.AddBoughtVolume(volume.value);
      r := Success(());
    }

    /** A refused request completes the session, reopens it, or makes the bot fail. */
    method CheckListenOrderErrors(sess: BuySession.Session, code: ErrorCode, answer: P.CancelAnswer) returns (r: Result<bool>)
      requires P.LegalCancel(wire.venue, sess.View().prev, answer)
      modifies sess, wire, storage, orderBook`BoughtCost, orderBook`BoughtVolume
      ensures Carried(Refusal(old(sess.View()), code, old(storage.userOrders), old(wire.venue), answer),
                   old(TrailOf(sess)), old(orderBook.BoughtCost), old(orderBook.BoughtVolume),
                   r, TrailOf(sess), storage.userOrders, wire.venue, orderBook.BoughtCost, orderBook.BoughtVolume)
      ensures r.Success? ==> r.value
    {
      hide SetExecuted, ApplyAll;
      ghost var t := TrailOf(sess);
      if code == AmountTooSmall && sess.PrevBuyOrderID != 0 {
        var o :- storage.GetUserOrder(sess.PrevBuyOrderID);
        var _ :- SetBuyOrderExecutedFlags(sess, sess.PrevBuyOrderID, o, answer);
        return Success(true);
      } else if code == DoneOrder && sess.PrevBuyOrderID != 0 {
        var o :- storage.GetUserOrder(sess.PrevBuyOrderID);
        if o.state == Cancelled {
          Reopen(sess);
          return Success(true);
        } else if o.state == Exchange.State.Done {
          var _ :- SetBuyOrderExecutedFlags(sess, sess.PrevBuyOrderID, o, answer);
          return Success(true);
        }
      }
      r := Failure(ResponseError);
    }

    method Reopen(sess: BuySession.Session)
      modifies sess
      ensures TrailOf(sess) == Written([SetExt(0), SetRid(0), Need(true)], old(TrailOf(sess)))
    {
      hide BuySession.Session.View;
      ghost var t := TrailOf(sess);
      sess.SetActiveBuyExtOrderID(0);
      sess.SetActiveBuyOrderRequestID(0);
      sess.SetIsNeedToCreateBuyOrder(true);
      WrittenThree(SetExt(0), SetRid(0), Need(true), t);
    }

    /** One reply to the session's request; a new order gets a watcher. */
    method Listen(sess: BuySession.Session, rid: Rid, answer: P.CancelAnswer) returns (r: Result<multiset<Oid>>)
      requires rid == sess.View().rid && rid in wire.venue.replies && P.LegalCancel(wire.venue, sess.View().prev, answer)
      modifies sess, wire, storage, orderBook`BoughtCost, orderBook`BoughtVolume
      ensures var oc := BuyProtocol.Listen(old(sess.View()), rid, old(storage.userOrders), old(wire.venue), answer);
              && Carried(oc, old(TrailOf(sess)), old(orderBook.BoughtCost), old(orderBook.BoughtVolume),
                      r, TrailOf(sess), storage.userOrders, wire.venue, orderBook.BoughtCost, orderBook.BoughtVolume)
              && (r.Success? ==> oc.Acts? && r.value == oc.watched)
    {
      hide Refusal, ApplyAll, BuySession.Session.View;
      var (_, reply) := wire.venue.replies[rid];
      wire.Take(rid);
      match reply
      case Refused(code) =>
        RefusalWatchesNobody(sess.View(), code, storage.userOrders, wire.venue, answer);
        var skip :- CheckListenOrderErrors(sess, code, answer);
        r := Success(multiset{});
      case Created(oid) =>
        TakeOrder(sess, oid);
        r := Success(multiset{oid});
    }

    method TakeOrder(sess: BuySession.Session, oid: Oid)
      modifies sess
      ensures TrailOf(sess) == Written([SetActive(oid), SetExt(0), SetRid(0), Add(oid)], old(TrailOf(sess)))
    {
      hide BuySession.Session.View;
      ghost var t := TrailOf(sess);
      sess.SetActiveBuyOrderID(oid);
      sess.SetActiveBuyExtOrderID(0);
      sess.SetActiveBuyOrderRequestID(0);
      sess.AddBuyOrder(oid);
      WrittenFour(SetActive(oid), SetExt(0), SetRid(0), Add(oid), t);
    }

    /** One look at a watched order; true means that the watcher is finished. */
    method CheckOrderState(sess: BuySession.Session, sid: Sid, oid: Oid, verdict: P.Verdict) returns (r: Result<bool>)
      requires verdict.Withdraw? ==> P.LegalCancel(wire.venue, oid, verdict.answer)
      requires verdict.Reprice? ==> verdict.price > 0
      modifies sess, wire, storage, orderBook`BoughtCost, orderBook`BoughtVolume
      ensures var oc := Watch(old(sess.View()), sid, oid, old(storage.userOrders), old(wire.venue), verdict);
              && Carried(oc, old(TrailOf(sess)), old(orderBook.BoughtCost), old(orderBook.BoughtVolume),
                      r, TrailOf(sess), storage.userOrders, wire.venue, orderBook.BoughtCost, orderBook.BoughtVolume)
              && (r.Success? ==> oc.Acts? && (r.value <==> oc.writes != []))
    {
      hide ApplyAll, BuySession.Session.View, BoughtCost, BoughtVolume;
      WrittenNone(TrailOf(sess));
      var found := storage.GetUserOrder(oid);
      if found.Failure? { return Success(false); }
      var order := found.value;
      if order.state.Code() < Active.Code() { return Success(false); }
      if order.state.Code() > Active.Code() {
        if order.state == Exchange.State.Done {
          var _ :- SetBuyOrderExecutedFlags(sess, oid, order, P.AlreadyDone);
          return Success(true);
        }
        Release(sess, oid);
        return Success(true);
      }
      match verdict
      case Keep => r := Success(false);
      case Withdraw(looks, answer) =>
        if looks.sums { var bought :- CalculateBuyOrder(sess, sid, 1, 0); }
        r := CancelBuyOrder(sess, oid, answer);
      case Reprice(price, ext) => r := MoveBuyOrder(sess, sid, oid, price, ext);
    }

    method Release(sess: BuySession.Session, oid: Oid)
      modifies sess
      ensures TrailOf(sess) == Written([SetPrev(oid), SetActive(0), Need(true)], old(TrailOf(sess)))
    {
      hide BuySession.Session.View;
      ghost var t := TrailOf(sess);
      sess.SetPrevBuyOrderID(oid);
      sess.SetActiveBuyOrderID(0);
      sess.SetIsNeedToCreateBuyOrder(true);
      WrittenThree(SetPrev(oid), SetActive(0), Need(true), t);
    }

    method CancelBuyOrder(sess: BuySession.Session, oid: Oid, answer: P.CancelAnswer) returns (r: Result<bool>)
      requires P.LegalCancel(wire.venue, oid, answer)
      modifies sess, wire, storage
      ensures var (f, store, v) := (old(sess.View()), old(storage.userOrders), old(wire.venue));
              match answer
              case Confirmed(last) =>
                && r == Success(true) && TrailOf(sess) == Written([SetPrev(oid), SetActive(0), Need(true)], old(TrailOf(sess)))
                && storage.userOrders == store[oid := last] && wire.venue == Replace(v, oid, last)
              case AlreadyDone => r == Success(false) && TrailOf(sess) == old(TrailOf(sess)) && storage.userOrders == store && wire.venue == v
              case CancelError => r == Failure(ResponseError)
    {
      hide ApplyAll, BuySession.Session.View, P.LegalCancel;
      var cancelled := wire.CancelOrder(oid, answer, storage);
      if cancelled.Failure? {
        if cancelled.fault == CantCancelDoneOrder { return Success(false); }
        return Failure(cancelled.fault);
      }
      Release(sess, oid);
      r := Success(true);
    }

    method MoveBuyOrder(sess: BuySession.Session, sid: Sid, oid: Oid, price: nat, ext: nat) returns (r: Result<bool>)
      requires price > 0
      modifies sess, wire
      ensures var (f, store, v) := (old(sess.View()), storage.userOrders, old(wire.venue));
              if !(f.orders <= store.Keys) then r == Failure(NilOrder)
              else && r == Success(true) && TrailOf(sess) == Written([SetPrev(oid), SetExt(ext), SetRid(v.nextRid)], old(TrailOf(sess)))
                   && wire.venue == Send(v, BuyRequest(f, sid, store, price, f.active))
    {
      var req :- CalculateBuyOrder(sess, sid, price, sess.ActiveBuyOrderID);
      hide BuySession.Session.View, ApplyAll;
      ghost var t := TrailOf(sess);
      var rid := wire.Post(req);
      sess.SetPrevBuyOrderID(oid);
      sess.SetActiveBuyExtOrderID(ext);
      sess.SetActiveBuyOrderRequestID(rid);
      WrittenThree(SetPrev(oid), SetExt(ext), SetRid(rid), t);
      r := Success(true);
    }
  }

  lemma RefusalWatchesNobody(f: Fields, code: ErrorCode, store: Store, v: Venue, answer: P.CancelAnswer)
    requires P.LegalCancel(v, f.prev, answer)
    ensures var oc := Refusal(f, code, store, v, answer); oc.Acts? ==> oc.watched == multiset{}
  {}
}
