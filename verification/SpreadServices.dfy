/**
 The services of the spread strategy in the form of the code: methods that read the order store,
 talk to the exchange and write the session setter by setter. Each does exactly what the protocol
 says an activation does.
 */
module SpreadServices {
  import opened Totals
  import opened Exchange
  import opened Rounding
  import opened Books
  import opened SpreadSession
  import opened SpreadProtocol

  /** Why a service gives up; NilOrder is the dereference of an order that the store does not have. */
  datatype Fault = InsufficientFunds | CantCancelDoneOrder | ResponseError | NilOrder

  datatype Result<T> = Success(value: T) | Failure(fault: Fault) {
    predicate IsFailure() { Failure? }
    function PropagateFailure<U>(): Result<U>
      requires Failure?
    { Failure(fault) }
    function Extract(): T
      requires Success?
    { value }
  }

  /** The state after an activation is the one its outcome describes, reached by its writes in their
      order. */
  ghost predicate Performed<T>(oc: Outcome, t: Trail, profit: int,
                               r: Result<T>, t': Trail, store': Store, venue': Venue, profit': int) {
    match oc
    case Fails => r.Failure? && r.fault != NilOrder
    case Panics => r == Failure(NilOrder)
    case Acts(ws, _, store, venue, booked) =>
      r.Success? && t' == Written(ws, t) && store' == store && venue' == venue && profit' == profit + booked
  }

  /** The orders of the account (storage/storage.go). */
  class OrderStore {
    var userOrders: Store

    method GetUserOrder(id: Oid) returns (r: Result<Order>)
      ensures r == if id in userOrders then Success(userOrders[id]) else Failure(NilOrder)
    {
      if id in userOrders { return Success(userOrders[id]); }
      r := Failure(NilOrder);
    }

    method UpsertUserOrder(id: Oid, order: Order)
      modifies this
      ensures userOrders == old(userOrders)[id := order]
    { userOrders := userOrders[id := order]; }
  }

  /** The connection to the exchange. */
  class Wire {
    var venue: Venue

    /** Sends a create or an alter request and returns its number. */
    method Post(req: Request) returns (rid: Rid)
      modifies this
      ensures rid == old(venue).nextRid && venue == Send(old(venue), req)
    {
      rid := venue.nextRid;
      venue := Send(venue, req);
    }

    method Take(rid: Rid)
      modifies this
      ensures venue == TakeReply(old(venue), rid)
    { venue := TakeReply(venue, rid); }

    /** A cancel round trip; the order's last version reaches the store with the answer. */
    method CancelOrder(oid: Oid, answer: CancelAnswer, storage: OrderStore) returns (r: Result<()>)
      requires LegalCancel(venue, oid, answer)
      modifies this, storage
      ensures answer.Confirmed? ==> r.Success? && venue == Replace(old(venue), oid, answer.last)
                                    && storage.userOrders == old(storage.userOrders)[oid := answer.last]
      ensures !answer.Confirmed? ==> venue == old(venue) && storage.userOrders == old(storage.userOrders)
      ensures answer.AlreadyDone? ==> r == Failure(CantCancelDoneOrder)
      ensures answer.CancelError? ==> r == Failure(ResponseError)
    {
      match answer
      case Confirmed(last) =>
        venue := Replace(venue, oid, last);
        storage.UpsertUserOrder(oid, last);
        r := Success(());
      case AlreadyDone => r := Failure(CantCancelDoneOrder);
      case CancelError => r := Failure(ResponseError);
    }
  }

  /** The sums over a session's orders (service/spread/session.go). */
  class SessionSums {
    const storage: OrderStore

    constructor (storage: OrderStore)
      ensures this.storage == storage
    { this.storage := storage; }

    method GetSessTotalBoughtVolume(sess: Session) returns (r: Result<int>)
      ensures r.Success? <==> sess.View().buyOrders <= storage.userOrders.Keys
      ensures r.Success? ==> r.value == BoughtVolume(sess.View(), storage.userOrders)
      ensures r.Failure? ==> r.fault == NilOrder
    {
      var total, rest := 0, sess.BuyOrders;
      while rest != {}
        invariant rest <= sess.BuyOrders && sess.BuyOrders - rest <= storage.userOrders.Keys
        invariant total == Total(sess.BuyOrders - rest, Fills(storage.userOrders))
      {
        var oid :| oid in rest;
        var order :- storage.GetUserOrder(oid);
        ghost var summed := sess.BuyOrders - rest;
        rest := rest - {oid};
        assert sess.BuyOrders - rest == summed + {oid};
        TotalAdd(summed, Fills(storage.userOrders), oid);
        if order.filled == 0 { continue; }
        total := total + order.filled;
      }
      assert sess.BuyOrders - rest == sess.BuyOrders;
      r := Success(total);
    }

    method GetSessTotalBoughtCost(sess: Session) returns (r: Result<int>)
      ensures r.Success? <==> sess.View().buyOrders <= storage.userOrders.Keys
      ensures r.Success? ==> r.value == BoughtCost(sess.View(), storage.userOrders)
      ensures r.Failure? ==> r.fault == NilOrder
    {
      var total, rest := 0, sess.BuyOrders;
      while rest != {}
        invariant rest <= sess.BuyOrders && sess.BuyOrders - rest <= storage.userOrders.Keys
        invariant total == Total(sess.BuyOrders - rest, Costs(storage.userOrders))
      {
        var oid :| oid in rest;
        var order :- storage.GetUserOrder(oid);
        ghost var summed := sess.BuyOrders - rest;
        rest := rest - {oid};
        assert sess.BuyOrders - rest == summed + {oid};
        TotalAdd(summed, Costs(storage.userOrders), oid);
        if order.filled == 0 { continue; }
        total := total + order.price * order.filled;
      }
      assert sess.BuyOrders - rest == sess.BuyOrders;
      r := Success(total);
    }

    method GetSessTotalSoldVolume(sess: Session) returns (r: Result<int>)
      ensures r.Success? <==> sess.View().sellOrders <= storage.userOrders.Keys
      ensures r.Success? ==> r.value == SoldVolume(sess.View(), storage.userOrders)
      ensures r.Failure? ==> r.fault == NilOrder
    {
      var total, rest := 0, sess.SellOrders;
      while rest != {}
        invariant rest <= sess.SellOrders && sess.SellOrders - rest <= storage.userOrders.Keys
        invariant total == Total(sess.SellOrders - rest, Fills(storage.userOrders))
      {
        var oid :| oid in rest;
        var order :- storage.GetUserOrder(oid);
        ghost var summed := sess.SellOrders - rest;
        rest := rest - {oid};
        assert sess.SellOrders - rest == summed + {oid};
        TotalAdd(summed, Fills(storage.userOrders), oid);
        if order.filled == 0 { continue; }
        total := total + order.filled;
      }
      assert sess.SellOrders - rest == sess.SellOrders;
      r := Success(total);
    }

    method GetSessTotalSoldCost(sess: Session) returns (r: Result<int>)
      ensures r.Success? <==> sess.View().sellOrders <= storage.userOrders.Keys
      ensures r.Success? ==> r.value == SoldCost(sess.View(), storage.userOrders)
      ensures r.Failure? ==> r.fault == NilOrder
    {
      var total, rest := 0, sess.SellOrders;
      while rest != {}
        invariant rest <= sess.SellOrders && sess.SellOrders - rest <= storage.userOrders.Keys
        invariant total == Total(sess.SellOrders - rest, Costs(storage.userOrders))
      {
        var oid :| oid in rest;
        var order :- storage.GetUserOrder(oid);
        ghost var summed := sess.SellOrders - rest;
        rest := rest - {oid};
        assert sess.SellOrders - rest == summed + {oid};
        TotalAdd(summed, Costs(storage.userOrders), oid);
        if order.filled == 0 { continue; }
        total := total + order.price * order.filled;
      }
      assert sess.SellOrders - rest == sess.SellOrders;
      r := Success(total);
    }
  }

  /** Sizing, placing and completing orders (service/spread/order.go). */
  class OrderService {
    const storage: OrderStore
    const wire: Wire
    const orderBook: Book
    const sums: SessionSums

    constructor (storage: OrderStore, wire: Wire, book: Book)
      ensures this.storage == storage && this.wire == wire && orderBook == book && sums.storage == storage
    {
      this.storage, this.wire, orderBook := storage, wire, book;
      sums := new SessionSums(storage);
    }

    /** What is left of the total, at the given price. */
    method CalculateBuyOrder(sess: Session, sid: Sid, price: nat, target: Oid) returns (r: Result<Request>)
      requires sums.storage == storage && price > 0
      ensures r.Success? <==> sess.View().buyOrders <= storage.userOrders.Keys
      ensures r.Success? ==> r.value == BuyRequest(sess.View(), sid, storage.userOrders, price, target)
      ensures r.Failure? ==> r.fault == NilOrder
    {
      var cost :- sums.GetSessTotalBoughtCost(sess);
      var total := sess.BuyTotal - cost as real;
      var amount := RoundHalfEven(total / (price as real));
      r := Success(Request(sid, Buy, price, amount, target, cost));
    }

    method CalculateSellOrder(sess: Session, sid: Sid, price: nat, target: Oid) returns (r: Result<Request>)
      requires sums.storage == storage
      ensures r.Success? <==> sess.View().sellOrders <= storage.userOrders.Keys
      ensures r.Success? ==> r.value == SellRequest(sess.View(), sid, storage.userOrders, price, target)
      ensures r.Failure? ==> r.fault == NilOrder
    {
      var sold :- sums.GetSessTotalSoldVolume(sess);
      r := Success(Request(sid, Sell, price, sess.SellVolume - sold, target, sold));
    }

    method CreateBuyOrder(sess: Session, sid: Sid, m: Market) returns (r: Result<()>)
      requires sums.storage == storage && m.price > 0
      modifies sess, wire
      ensures r == Failure(NilOrder) <==> !(old(sess.View()).buyOrders <= storage.userOrders.Keys)
      ensures old(sess.View()).buyOrders <= storage.userOrders.Keys ==>
                var oc := CreateBuy(old(sess.View()), sid, storage.userOrders, old(wire.venue), m);
                && r == (if m.funded then Success(()) else Failure(InsufficientFunds))
                && TrailOf(sess) == Written(oc.writes, old(TrailOf(sess))) && wire.venue == oc.venue
    {
      hide Session.View;
      ghost var t := TrailOf(sess);
      sess.SetIsNeedToCreateBuyOrder(false);
      var req :- CalculateBuyOrder(sess, sid, m.price, 0);
      if !m.funded {
        sess.SetIsNeedToCreateBuyOrder(true);
        WrittenTwo(NeedBuy(false), NeedBuy(true), t);
        return Failure(InsufficientFunds);
      }
      var rid := wire.Post(req);
      sess.SetActiveBuyExtOrderID(m.ext);
      sess.SetActiveBuyOrderRequestID(rid);
      WrittenThree(NeedBuy(false), BuyExt(m.ext), BuyRid(rid), t);
      r := Success(());
    }

    method CreateSellOrder(sess: Session, sid: Sid, m: Market) returns (r: Result<()>)
      requires sums.storage == storage
      modifies sess, wire
      ensures r == Failure(NilOrder) <==> !(old(sess.View()).sellOrders <= storage.userOrders.Keys)
      ensures old(sess.View()).sellOrders <= storage.userOrders.Keys ==>
                var oc := CreateSell(old(sess.View()), sid, storage.userOrders, old(wire.venue), m);
                && r == (if m.funded then Success(()) else Failure(InsufficientFunds))
                && TrailOf(sess) == Written(oc.writes, old(TrailOf(sess))) && wire.venue == oc.venue
    {
      hide Session.View;
      ghost var t := TrailOf(sess);
      sess.SetIsNeedToCreateSellOrder(false);
      var req :- CalculateSellOrder(sess, sid, m.price, 0);
      if !m.funded {
        sess.SetIsNeedToCreateSellOrder(true);
        WrittenTwo(NeedSell(false), NeedSell(true), t);
        return Failure(InsufficientFunds);
      }
      var rid := wire.Post(req);
      sess.SetActiveSellExtOrderID(m.ext);
      sess.SetActiveSellOrderRequestID(rid);
      WrittenThree(NeedSell(false), SellExt(m.ext), SellRid(rid), t);
      r := Success(());
    }

    /** An active order is cancelled and nothing else; any other completes the buy side. */
    method SetBuyOrderExecutedFlags(sess: Session, oid: Oid, order: Order, answer: CancelAnswer) returns (r: Result<()>)
      requires sums.storage == storage && LegalCancel(wire.venue, oid, answer)
      modifies sess, wire, storage, orderBook`Profit
      ensures Performed(BuyExecuted(old(sess.View()), oid, order, old(storage.userOrders), old(wire.venue), answer),
                        old(TrailOf(sess)), old(orderBook.Profit),
                        r, TrailOf(sess), storage.userOrders, wire.venue, orderBook.Profit)
    {
      hide Session.View;
      ghost var t := TrailOf(sess);
      if order.state == Active {
        r := wire.CancelOrder(oid, answer, storage);
        return;
      }
      var volume :- sums.GetSessTotalBoughtVolume(sess);
      sess.SetBuyOrderDoneFlags(oid, volume);
      WrittenOne(BuyDone(oid, volume), t);
      var cost := sums.GetSessTotalBoughtCost(sess);
      orderBook.SubProfit(cost.value);
      r := Success(());
    }

    /** An active order is cancelled first; then the sell side is complete. */
    method SetSellOrderExecutedFlags(sess: Session, oid: Oid, order: Order, answer: CancelAnswer) returns (r: Result<()>)
      requires sums.storage == storage && LegalCancel(wire.venue, oid, answer)
      modifies sess, wire, storage, orderBook`Profit
      ensures Performed(SellExecuted(old(sess.View()), oid, order, old(storage.userOrders), old(wire.venue), answer),
                        old(TrailOf(sess)), old(orderBook.Profit),
                        r, TrailOf(sess), storage.userOrders, wire.venue, orderBook.Profit)
    {
      hide Session.View;
      ghost var t := TrailOf(sess);
      if order.state == Active {
        var _ :- wire.CancelOrder(oid, answer, storage);
      }
      sess.SetSellOrderDoneFlags();
      WrittenOne(SellDone, t);
      var cost :- sums.GetSessTotalSoldCost(sess);
      orderBook.AddProfit(cost);
      var soldVolume := sums.GetSessTotalSoldVolume(sess);
      var boughtVolume :- sums.GetSessTotalBoughtVolume(sess);
      r := Success(());
    }
  }

  /** Decides whether an order may be created now (service/spread/decider.go). */
  class Decider {
    const orders: OrderService

    constructor (orders: OrderService)
      ensures this.orders == orders
    { this.orders := orders; }

    method IsBuyOrderCreationAvailable(sess: Session, sid: Sid, m: Market) returns (r: Result<bool>)
      requires orders.sums.storage == orders.storage && (m.buyOpen ==> m.price > 0)
      ensures var (f, store) := (sess.View(), orders.storage.userOrders);
              r == if !f.needBuy || !(m.buyOpen || m.looks.sums) then Success(false)
                   else if !(f.buyOrders <= store.Keys) then Failure(NilOrder)
                   else Success(m.buyOpen)
    {
      if !sess.IsNeedToCreateBuyOrder { return Success(false); }
      if !(m.buyOpen || m.looks.sums) { return Success(false); }
      var bought :- orders.sums.GetSessTotalBoughtCost(sess);
      r := Success(m.buyOpen);
    }

    method IsSellOrderCreationAvailable(sess: Session, sid: Sid, m: Market) returns (r: Result<bool>)
      requires orders.sums.storage == orders.storage
      ensures var (f, store) := (sess.View(), orders.storage.userOrders);
              r == if !f.needSell then Success(false)
                   else if f.activeBuy in store && (m.sellOpen || m.looks.sums) && !(f.sellOrders <= store.Keys) then Failure(NilOrder)
                   else if f.activeBuy in store && m.sellOpen then Success(true)
                   else if m.looks.previous && f.prevSell != 0 && f.prevSell !in store then Failure(NilOrder)
                   else Success(false)
    {
      if !sess.IsNeedToCreateSellOrder { return Success(false); }
      var bought := orders.storage.GetUserOrder(sess.ActiveBuyOrderID);
      if bought.Success? && (m.sellOpen || m.looks.sums) {
        var sold :- orders.sums.GetSessTotalSoldVolume(sess);
        if m.sellOpen { return Success(true); }
      }
      if m.looks.previous && sess.PrevSellOrderID != 0 {
        var _ :- orders.storage.GetUserOrder(sess.PrevSellOrderID);
      }
      r := Success(false);
    }

    /** One round of the decider; it stops when the session is done. */
    method Decide(sess: Session, sid: Sid, m: Market) returns (r: Result<bool>)
      requires orders.sums.storage == orders.storage && (m.buyOpen ==> m.price > 0)
      modifies sess, orders.wire
      ensures Performed(SpreadProtocol.Decide(old(sess.View()), sid, orders.storage.userOrders, old(orders.wire.venue), m),
                        old(TrailOf(sess)), orders.orderBook.Profit,
                        r, TrailOf(sess), orders.storage.userOrders, orders.wire.venue, orders.orderBook.Profit)
      ensures r.Success? ==> (r.value <==> old(sess.View()).isDone)
    {
      if sess.IsDone { return Success(true); }
      var isBuyAvailable :- IsBuyOrderCreationAvailable(sess, sid, m);
      if isBuyAvailable {
        var created := orders.CreateBuyOrder(sess, sid, m);
        if created == Failure(NilOrder) { return Failure(NilOrder); }
      } else {
        var isSellAvailable :- IsSellOrderCreationAvailable(sess, sid, m);
        if isSellAvailable {
          var created := orders.CreateSellOrder(sess, sid, m);
          if created == Failure(NilOrder) { return Failure(NilOrder); }
        }
      }
      r := Success(false);
    }
  }

  /** Turns the exchange's replies into orders (strategy/spread.go). */
  class Listener {
    const orders: OrderService

    constructor (orders: OrderService)
      ensures this.orders == orders
    { this.orders := orders; }

    /** Too small an amount: the previous order is considered executed. */
    method PreviousIsExecuted(sess: Session, rid: Rid, answer: CancelAnswer) returns (r: Result<bool>)
      requires orders.sums.storage == orders.storage
      requires rid == sess.View().buyRid || rid == sess.View().sellRid
      requires sess.View().prevBuy != 0 || sess.View().prevSell != 0
      requires LegalCancel(orders.wire.venue, Looked(sess.View(), rid), answer)
      modifies sess, orders.wire, orders.storage, orders.orderBook`Profit
      ensures Performed(Refusal(old(sess.View()), rid, AmountTooSmall, old(orders.storage.userOrders), old(orders.wire.venue), answer),
                        old(TrailOf(sess)), old(orders.orderBook.Profit),
                        r, TrailOf(sess), orders.storage.userOrders, orders.wire.venue, orders.orderBook.Profit)
      ensures r.Success? ==> r.value
    {
      hide BuyExecuted, SellExecuted, ApplyAll;
      if rid == sess.activeBuyOrderRequestID {
        var o :- orders.storage.GetUserOrder(sess.PrevBuyOrderID);
        var _ :- orders.SetBuyOrderExecutedFlags(sess, sess.PrevBuyOrderID, o, answer);
      } else if rid == sess.activeSellOrderRequestID {
        var o :- orders.storage.GetUserOrder(sess.PrevSellOrderID);
        var _ :- orders.SetSellOrderExecutedFlags(sess, sess.PrevSellOrderID, o, answer);
      }
      r := Success(true);
    }

    /** The order to be altered is over: done or cancelled, or the bot fails. */
    method AlteredIsOver(sess: Session, rid: Rid, answer: CancelAnswer) returns (r: Result<bool>)
      requires orders.sums.storage == orders.storage
      requires rid == sess.View().buyRid || rid == sess.View().sellRid
      requires sess.View().prevBuy != 0 || sess.View().prevSell != 0
      requires LegalCancel(orders.wire.venue, Looked(sess.View(), rid), answer)
      modifies sess, orders.wire, orders.storage, orders.orderBook`Profit
      ensures Performed(Refusal(old(sess.View()), rid, DoneOrder, old(orders.storage.userOrders), old(orders.wire.venue), answer),
                        old(TrailOf(sess)), old(orders.orderBook.Profit),
                        r, TrailOf(sess), orders.storage.userOrders, orders.wire.venue, orders.orderBook.Profit)
      ensures r.Success? ==> r.value
    {
      hide BuyExecuted, SellExecuted, ApplyAll;
      ghost var t := TrailOf(sess);
      if rid == sess.activeBuyOrderRequestID {
        var o :- orders.storage.GetUserOrder(sess.PrevBuyOrderID);
        if o.state == Cancelled {
          sess.SetBuyOrderCancelledFlags();
          WrittenOne(BuyCancelled, t);
          return Success(true);
        } else if o.state == Done {
          var _ :- orders.SetBuyOrderExecutedFlags(sess, sess.PrevBuyOrderID, o, answer);
          return Success(true);
        }
      } else if rid == sess.activeSellOrderRequestID {
        var o :- orders.storage.GetUserOrder(sess.PrevSellOrderID);
        if o.state == Cancelled {
          sess.SetSellOrderCancelledFlags();
          WrittenOne(SellCancelled, t);
          return Success(true);
        } else if o.state == Done {
          var _ :- orders.SetSellOrderExecutedFlags(sess, sess.PrevSellOrderID, o, answer);
          return Success(true);
        }
      }
      r := Failure(ResponseError);
    }

    /** A refused request ends the previous order's side, reopens it, or makes the bot fail. */
    method CheckListenOrderErrors(sess: Session, rid: Rid, code: ErrorCode, answer: CancelAnswer) returns (r: Result<bool>)
      requires orders.sums.storage == orders.storage
      requires rid == sess.View().buyRid || rid == sess.View().sellRid
      requires LegalCancel(orders.wire.venue, Looked(sess.View(), rid), answer)
      modifies sess, orders.wire, orders.storage, orders.orderBook`Profit
      ensures Performed(Refusal(old(sess.View()), rid, code, old(orders.storage.userOrders), old(orders.wire.venue), answer),
                        old(TrailOf(sess)), old(orders.orderBook.Profit),
                        r, TrailOf(sess), orders.storage.userOrders, orders.wire.venue, orders.orderBook.Profit)
      ensures r.Success? ==> r.value
    {
      hide BuyExecuted, SellExecuted, ApplyAll;
      if code == AmountTooSmall && (sess.PrevBuyOrderID != 0 || sess.PrevSellOrderID != 0) {
        r := PreviousIsExecuted(sess, rid, answer);
        return;
      } else if code == DoneOrder && (sess.PrevBuyOrderID != 0 || sess.PrevSellOrderID != 0) {
        r := AlteredIsOver(sess, rid, answer);
        return;
      }
      r := Failure(ResponseError);
    }

    /** The session learns the id of its new order. */
    method TakeOrder(sess: Session, rid: Rid, oid: Oid)
      modifies sess
      ensures TrailOf(sess) == Written(Opened(old(sess.View()), rid, oid, map[], InitialVenue()).writes, old(TrailOf(sess)))
    {
      ghost var t := TrailOf(sess);
      ghost var buy := if rid == t.fields.buyRid then [ActiveBuy(oid), BuyExt(0), BuyRid(0), AddBuy(oid)] else [];
      ghost var sell := if rid == t.fields.sellRid then [ActiveSell(oid), SellExt(0), SellRid(0), AddSell(oid)] else [];
      if sess.activeBuyOrderRequestID == rid {
        TakeBuyOrder(sess, oid);
      }
      if sess.activeSellOrderRequestID == rid {
        TakeSellOrder(sess, oid);
      }
      WrittenAppend(buy, sell, t);
      WrittenNone(t);
      WrittenNone(Written(buy, t));
    }

    method TakeBuyOrder(sess: Session, oid: Oid)
      modifies sess
      ensures TrailOf(sess) == Written([ActiveBuy(oid), BuyExt(0), BuyRid(0), AddBuy(oid)], old(TrailOf(sess)))
      ensures sess.View().sellRid == old(sess.View()).sellRid
    {
      hide Session.View;
      ghost var t := TrailOf(sess);
      sess.SetActiveBuyOrderID(oid);
      sess.SetActiveBuyExtOrderID(0);
      sess.SetActiveBuyOrderRequestID(0);
      sess.AddBuyOrder(oid);
      WrittenFour(ActiveBuy(oid), BuyExt(0), BuyRid(0), AddBuy(oid), t);
    }

    method TakeSellOrder(sess: Session, oid: Oid)
      modifies sess
      ensures TrailOf(sess) == Written([ActiveSell(oid), SellExt(0), SellRid(0), AddSell(oid)], old(TrailOf(sess)))
    {
      hide Session.View;
      ghost var t := TrailOf(sess);
      sess.SetActiveSellOrderID(oid);
      sess.SetActiveSellExtOrderID(0);
      sess.SetActiveSellOrderRequestID(0);
      sess.AddSellOrder(oid);
      WrittenFour(ActiveSell(oid), SellExt(0), SellRid(0), AddSell(oid), t);
    }

    /** One reply to one of the session's two requests; a new order gets a watcher. */
    method Listen(sess: Session, rid: Rid, answer: CancelAnswer) returns (r: Result<multiset<Oid>>)
      requires orders.sums.storage == orders.storage
      requires rid == sess.View().buyRid || rid == sess.View().sellRid
      requires rid in orders.wire.venue.replies && LegalCancel(orders.wire.venue, Looked(sess.View(), rid), answer)
      modifies sess, orders.wire, orders.storage, orders.orderBook`Profit
      ensures var oc := SpreadProtocol.Listen(old(sess.View()), rid, old(orders.storage.userOrders), old(orders.wire.venue), answer);
              && Performed(oc, old(TrailOf(sess)), old(orders.orderBook.Profit),
                           r, TrailOf(sess), orders.storage.userOrders, orders.wire.venue, orders.orderBook.Profit)
              && (r.Success? ==> oc.Acts? && r.value == oc.watched)
    {
      hide Refusal, ApplyAll, Session.View;
      var (_, reply) := orders.wire.venue.replies[rid];
      orders.wire.Take(rid);
      match reply
      case Refused(code) =>
        var skip :- CheckListenOrderErrors(sess, rid, code, answer);
        NobodyWatched(old(sess.View()), rid, code, old(orders.storage.userOrders), TakeReply(old(orders.wire.venue), rid), answer);
        r := Success(multiset{});
      case Created(oid) =>
        TakeOrder(sess, rid, oid);
        r := Success(multiset{oid});
    }
  }

  /** Watches one live order (service/spread/watch.go). The result of a check is whether the watcher
      is finished. */
  class Watcher {
    const orders: OrderService

    constructor (orders: OrderService)
      ensures this.orders == orders
    { this.orders := orders; }

    method CheckOrderState(sess: Session, sid: Sid, oid: Oid, verdict: Verdict) returns (r: Result<bool>)
      requires orders.sums.storage == orders.storage
      requires verdict.Withdraw? ==> LegalCancel(orders.wire.venue, oid, verdict.answer)
      requires verdict.Reprice? ==> verdict.price > 0
      modifies sess, orders.wire, orders.storage, orders.orderBook`Profit
      ensures var oc := Watch(old(sess.View()), sid, oid, old(orders.storage.userOrders), old(orders.wire.venue), verdict);
              && Performed(oc, old(TrailOf(sess)), old(orders.orderBook.Profit),
                           r, TrailOf(sess), orders.storage.userOrders, orders.wire.venue, orders.orderBook.Profit)
              && (r.Success? ==> oc.Acts? && (r.value <==> oc.writes != []))
    {
      hide WatchBuy, WatchSell, ApplyAll, Session.View, LegalCancel;
      var found := orders.storage.GetUserOrder(oid);
      WrittenNone(TrailOf(sess));
      if found.Failure? { return Success(false); }
      var order := found.value;
      if order.state.Code() < Active.Code() { return Success(false); }
      if order.side == Buy {
        r := CheckBuyOrder(sess, sid, oid, order, verdict);
      } else {
        r := CheckSellOrder(sess, sid, oid, order, verdict);
      }
    }

    method CheckBuyOrder(sess: Session, sid: Sid, oid: Oid, order: Order, verdict: Verdict) returns (r: Result<bool>)
      requires orders.sums.storage == orders.storage
      requires oid in orders.storage.userOrders && order == orders.storage.userOrders[oid]
      requires order.state.Code() >= Active.Code()
      requires verdict.Withdraw? ==> LegalCancel(orders.wire.venue, oid, verdict.answer)
      requires verdict.Reprice? ==> verdict.price > 0
      modifies sess, orders.wire, orders.storage, orders.orderBook`Profit
      ensures var oc := WatchBuy(old(sess.View()), sid, oid, old(orders.storage.userOrders), old(orders.wire.venue), verdict);
              && Performed(oc, old(TrailOf(sess)), old(orders.orderBook.Profit),
                           r, TrailOf(sess), orders.storage.userOrders, orders.wire.venue, orders.orderBook.Profit)
              && (r.Success? ==> oc.Acts? && (r.value <==> oc.writes != []))
    {
      hide ApplyAll, Session.View, LegalCancel, BoughtCost, BoughtVolume;
      WrittenNone(TrailOf(sess));
      if order.state.Code() > Active.Code() {
        r := BuyOrderExecuted(sess, oid, order);
        return;
      }
      match verdict
      case Keep => r := Success(false);
      case Withdraw(looks, answer) =>
        if looks.sums { var bought :- orders.CalculateBuyOrder(sess, sid, 1, 0); }
        r := CancelBuyOrder(sess, oid, answer);
      case Reprice(price, ext) => r := MoveBuyOrder(sess, sid, oid, price, ext);
    }

    method BuyOrderExecuted(sess: Session, oid: Oid, order: Order) returns (r: Result<bool>)
      requires orders.sums.storage == orders.storage && order.state.Final()
      modifies sess, orders.wire, orders.storage, orders.orderBook`Profit
      ensures var (f, store, v) := (old(sess.View()), old(orders.storage.userOrders), old(orders.wire.venue));
              var oc := if order.state.Done? then BuyExecuted(f, oid, order, store, v, AlreadyDone)
                        else Writes([PrevBuy(oid), ActiveBuy(0), NeedBuy(true)], store, v);
              && Performed(oc, old(TrailOf(sess)), old(orders.orderBook.Profit),
                           r, TrailOf(sess), orders.storage.userOrders, orders.wire.venue, orders.orderBook.Profit)
              && (r.Success? ==> oc.Acts? && r.value && oc.writes != [])
    {
      hide ApplyAll, Session.View, BoughtCost, BoughtVolume;
      if order.state == Done {
        var _ :- orders.SetBuyOrderExecutedFlags(sess, oid, order, AlreadyDone);
        return Success(true);
      }
      ReopenBuy(sess, oid);
      r := Success(true);
    }

    /** The order is over without being done: a new one is needed. */
    method ReopenBuy(sess: Session, oid: Oid)
      modifies sess
      ensures TrailOf(sess) == Written([PrevBuy(oid), ActiveBuy(0), NeedBuy(true)], old(TrailOf(sess)))
    {
      hide Session.View;
      ghost var t := TrailOf(sess);
      sess.SetPrevBuyOrderID(oid);
      sess.SetActiveBuyOrderID(0);
      sess.SetIsNeedToCreateBuyOrder(true);
      WrittenThree(PrevBuy(oid), ActiveBuy(0), NeedBuy(true), t);
    }

    method CancelBuyOrder(sess: Session, oid: Oid, answer: CancelAnswer) returns (r: Result<bool>)
      requires LegalCancel(orders.wire.venue, oid, answer)
      modifies sess, orders.wire, orders.storage
      ensures var (f, store, v) := (old(sess.View()), old(orders.storage.userOrders), old(orders.wire.venue));
              match answer
              case Confirmed(last) =>
                && r == Success(true) && TrailOf(sess) == Written([PrevBuy(oid), ActiveBuy(0), NeedBuy(true)], old(TrailOf(sess)))
                && orders.storage.userOrders == store[oid := last] && orders.wire.venue == Replace(v, oid, last)
              case AlreadyDone =>
                r == Success(false) && TrailOf(sess) == old(TrailOf(sess)) && orders.storage.userOrders == store && orders.wire.venue == v
              case CancelError => r == Failure(ResponseError)
    {
      hide ApplyAll, Session.View, LegalCancel;
      var cancelled := orders.wire.CancelOrder(oid, answer, orders.storage);
      if cancelled.Failure? {
        if cancelled.fault == CantCancelDoneOrder { return Success(false); }
        return Failure(cancelled.fault);
      }
      ReopenBuy(sess, oid);
      r := Success(true);
    }

    method MoveBuyOrder(sess: Session, sid: Sid, oid: Oid, price: nat, ext: ExtId) returns (r: Result<bool>)
      requires orders.sums.storage == orders.storage && price > 0
      modifies sess, orders.wire
      ensures var (f, store, v) := (old(sess.View()), orders.storage.userOrders, old(orders.wire.venue));
              if !(f.buyOrders <= store.Keys) then r == Failure(NilOrder)
              else && r == Success(true)
                   && TrailOf(sess) == Written([PrevBuy(oid), BuyExt(ext), BuyRid(v.nextRid)], old(TrailOf(sess)))
                   && orders.wire.venue == Send(v, BuyRequest(f, sid, store, price, f.activeBuy))
    {
      var req :- orders.CalculateBuyOrder(sess, sid, price, sess.ActiveBuyOrderID);
      hide Session.View, ApplyAll;
      ghost var t := TrailOf(sess);
      var rid := orders.wire.Post(req);
      sess.SetPrevBuyOrderID(oid);
      sess.SetActiveBuyExtOrderID(ext);
      sess.SetActiveBuyOrderRequestID(rid);
      WrittenThree(PrevBuy(oid), BuyExt(ext), BuyRid(rid), t);
      r := Success(true);
    }

    method CheckSellOrder(sess: Session, sid: Sid, oid: Oid, order: Order, verdict: Verdict) returns (r: Result<bool>)
      requires orders.sums.storage == orders.storage
      requires oid in orders.storage.userOrders && order == orders.storage.userOrders[oid]
      requires order.state.Code() >= Active.Code()
      requires verdict.Withdraw? ==> LegalCancel(orders.wire.venue, oid, verdict.answer)
      modifies sess, orders.wire, orders.storage, orders.orderBook`Profit
      ensures var oc := WatchSell(old(sess.View()), sid, oid, old(orders.storage.userOrders), old(orders.wire.venue), verdict);
              && Performed(oc, old(TrailOf(sess)), old(orders.orderBook.Profit),
                           r, TrailOf(sess), orders.storage.userOrders, orders.wire.venue, orders.orderBook.Profit)
              && (r.Success? ==> oc.Acts? && (r.value <==> oc.writes != []))
    {
      hide ApplyAll, Session.View, LegalCancel, SoldCost, SoldVolume;
      WrittenNone(TrailOf(sess));
      if order.state.Code() > Active.Code() {
        r := SellOrderExecuted(sess, oid, order);
        return;
      }
      var _ :- PriceSellOrder(sess, sid, verdict.Sums(), verdict.Previous());
      match verdict
      case Keep => r := Success(false);
      case Withdraw(_, answer) => r := CancelSellOrder(sess, oid, answer);
      case Reprice(price, ext) => r := MoveSellOrder(sess, sid, oid, price, ext);
    }

    /** Before an order is moved or withdrawn, the decider may look at what has been sold and at the
        previous order. */
    method PriceSellOrder(sess: Session, sid: Sid, seesSums: bool, seesPrevious: bool) returns (r: Result<()>)
      requires orders.sums.storage == orders.storage
      ensures var (f, store) := (sess.View(), orders.storage.userOrders);
              r == if seesSums && !(f.sellOrders <= store.Keys) then Failure(NilOrder)
                   else if seesPrevious && f.prevSell != 0 && f.prevSell !in store then Failure(NilOrder)
                   else Success(())
    {
      if seesSums { var sold :- orders.CalculateSellOrder(sess, sid, 1, 0); }
      if seesPrevious && sess.PrevSellOrderID != 0 {
        var _ :- orders.storage.GetUserOrder(sess.PrevSellOrderID);
      }
      r := Success(());
    }

    method SellOrderExecuted(sess: Session, oid: Oid, order: Order) returns (r: Result<bool>)
      requires orders.sums.storage == orders.storage && order.state.Final()
      modifies sess, orders.wire, orders.storage, orders.orderBook`Profit
      ensures var (f, store, v) := (old(sess.View()), old(orders.storage.userOrders), old(orders.wire.venue));
              var oc := if order.state.Done? then SellExecuted(f, oid, order, store, v, AlreadyDone)
                        else Writes([ActiveSell(0), NeedSell(true)], store, v);
              && Performed(oc, old(TrailOf(sess)), old(orders.orderBook.Profit),
                           r, TrailOf(sess), orders.storage.userOrders, orders.wire.venue, orders.orderBook.Profit)
              && (r.Success? ==> oc.Acts? && r.value && oc.writes != [])
    {
      hide ApplyAll, Session.View, SoldCost, SoldVolume;
      if order.state == Done {
        var _ :- orders.SetSellOrderExecutedFlags(sess, oid, order, AlreadyDone);
        return Success(true);
      }
      ghost var t := TrailOf(sess);
      sess.SetActiveSellOrderID(0);
      sess.SetIsNeedToCreateSellOrder(true);
      WrittenTwo(ActiveSell(0), NeedSell(true), t);
      r := Success(true);
    }

    method CancelSellOrder(sess: Session, oid: Oid, answer: CancelAnswer) returns (r: Result<bool>)
      requires LegalCancel(orders.wire.venue, oid, answer)
      modifies sess, orders.wire, orders.storage
      ensures var (f, store, v) := (old(sess.View()), old(orders.storage.userOrders), old(orders.wire.venue));
              match answer
              case Confirmed(last) =>
                && r == Success(true) && TrailOf(sess) == Written([PrevSell(oid), ActiveSell(0), NeedSell(true)], old(TrailOf(sess)))
                && orders.storage.userOrders == store[oid := last] && orders.wire.venue == Replace(v, oid, last)
              case AlreadyDone =>
                r == Success(false) && TrailOf(sess) == old(TrailOf(sess)) && orders.storage.userOrders == store && orders.wire.venue == v
              case CancelError => r == Failure(ResponseError)
    {
      hide ApplyAll, Session.View, LegalCancel;
      ghost var t := TrailOf(sess);
      var cancelled := orders.wire.CancelOrder(oid, answer, orders.storage);
      if cancelled.Failure? {
        if cancelled.fault == CantCancelDoneOrder { return Success(false); }
        return Failure(cancelled.fault);
      }
      sess.SetPrevSellOrderID(oid);
      sess.SetActiveSellOrderID(0);
      sess.SetIsNeedToCreateSellOrder(true);
      WrittenThree(PrevSell(oid), ActiveSell(0), NeedSell(true), t);
      r := Success(true);
    }

    method MoveSellOrder(sess: Session, sid: Sid, oid: Oid, price: nat, ext: ExtId) returns (r: Result<bool>)
      requires orders.sums.storage == orders.storage
      modifies sess, orders.wire
      ensures var (f, store, v) := (old(sess.View()), orders.storage.userOrders, old(orders.wire.venue));
              if !(f.sellOrders <= store.Keys) then r == Failure(NilOrder)
              else && r == Success(true)
                   && TrailOf(sess) == Written([PrevSell(oid), SellExt(ext), SellRid(v.nextRid)], old(TrailOf(sess)))
                   && orders.wire.venue == Send(v, SellRequest(f, sid, store, price, oid))
    {
      var req :- orders.CalculateSellOrder(sess, sid, price, oid);
      hide Session.View, ApplyAll;
      ghost var t := TrailOf(sess);
      var rid := orders.wire.Post(req);
      sess.SetPrevSellOrderID(oid);
      sess.SetActiveSellExtOrderID(ext);
      sess.SetActiveSellOrderRequestID(rid);
      WrittenThree(PrevSell(oid), SellExt(ext), SellRid(rid), t);
      r := Success(true);
    }
  }

  lemma NobodyWatched(f: Fields, rid: Rid, code: ErrorCode, store: Store, v: Venue, answer: CancelAnswer)
    requires LegalCancel(v, Looked(f, rid), answer)
    ensures var oc := Refusal(f, rid, code, store, v, answer); oc.Acts? ==> oc.watched == multiset{}
  {}
}
