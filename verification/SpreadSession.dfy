/**
 The shared record of a spread session (storage/spread/session.go). Its fields as a value, the
 locked setters as atomic writes, and the record itself as a class whose methods are the setters.
 */
module SpreadSession {
  import opened Exchange

  /** External ids are numbered like all other ids; 0 is the empty one. */
  type ExtId = nat

  datatype Fields = Fields(
    buyRid: Rid, buyExt: ExtId, sellRid: Rid, sellExt: ExtId,
    prevBuy: Oid, activeBuy: Oid, activeSell: Oid, prevSell: Oid,
    completedBuys: nat, completedSells: nat,
    buyTotal: real, sellVolume: int,
    buyOrders: set<Oid>, sellOrders: set<Oid>,
    needBuy: bool, needSell: bool, isDone: bool)

  function NewFields(buyTotal: real): Fields {
    Fields(0, 0, 0, 0, 0, 0, 0, 0, 0, 0, buyTotal, 0, {}, {}, true, false, false)
  }

  /** One locked write. */
  datatype Write =
    | NeedBuy(flag: bool)
    | NeedSell(flag: bool)
    | BuyExt(ext: ExtId)
    | SellExt(ext: ExtId)
    | BuyRid(rid: Rid)
    | SellRid(rid: Rid)
    | PrevBuy(oid: Oid)
    | PrevSell(oid: Oid)
    | ActiveBuy(oid: Oid)
    | ActiveSell(oid: Oid)
    | AddBuy(oid: Oid)
    | AddSell(oid: Oid)
    | BuyDone(oid: Oid, volume: int)
    | SellDone
    | BuyCancelled
    | SellCancelled

  function Apply(w: Write, f: Fields): Fields {
    match w
    case NeedBuy(flag) => f.(needBuy := flag)
    case NeedSell(flag) => f.(needSell := flag)
    case BuyExt(ext) => f.(buyExt := ext)
    case SellExt(ext) => f.(sellExt := ext)
    case BuyRid(rid) => f.(buyRid := rid)
    case SellRid(rid) => f.(sellRid := rid)
    case PrevBuy(oid) => f.(prevBuy := oid)
    case PrevSell(oid) => f.(prevSell := oid)
    case ActiveBuy(oid) => f.(activeBuy := oid)
    case ActiveSell(oid) => f.(activeSell := oid)
    case AddBuy(oid) => f.(buyOrders := f.buyOrders + {oid})
    case AddSell(oid) => f.(sellOrders := f.sellOrders + {oid})
    case BuyDone(oid, volume) =>
      f.(completedBuys := f.completedBuys + 1, prevBuy := 0, activeBuy := oid, buyExt := 0, buyRid := 0,
         activeSell := 0, sellExt := 0, sellRid := 0, needSell := true, sellVolume := volume)
    case SellDone =>
      f.(completedSells := f.completedSells + 1, prevSell := 0, activeSell := 0, sellExt := 0, sellRid := 0, isDone := true)
    case BuyCancelled => f.(buyExt := 0, buyRid := 0, needBuy := true)
    case SellCancelled => f.(sellExt := 0, sellRid := 0, needSell := true)
  }

  function ApplyAll(ws: seq<Write>, f: Fields): Fields
    decreases |ws|
  {
    if ws == [] then f else ApplyAll(ws[1..], Apply(ws[0], f))
  }

  lemma ApplyOne(a: Write, f: Fields)
    ensures ApplyAll([a], f) == Apply(a, f)
  {
    assert ApplyAll([a], f) == ApplyAll([a][1..], Apply(a, f));
  }

  lemma ApplyTwo(a: Write, b: Write, f: Fields)
    ensures ApplyAll([a, b], f) == Apply(b, Apply(a, f))
  {
    assert [a, b][1..] == [b];
    assert ApplyAll([b], Apply(a, f)) == ApplyAll([b][1..], Apply(b, Apply(a, f)));
  }

  lemma ApplyThree(a: Write, b: Write, c: Write, f: Fields)
    ensures ApplyAll([a, b, c], f) == Apply(c, Apply(b, Apply(a, f)))
  {
    assert [a, b, c][1..] == [b, c];
    ApplyTwo(b, c, Apply(a, f));
  }

  lemma ApplyFour(a: Write, b: Write, c: Write, d: Write, f: Fields)
    ensures ApplyAll([a, b, c, d], f) == Apply(d, Apply(c, Apply(b, Apply(a, f))))
  {
    assert [a, b, c, d][1..] == [b, c, d];
    ApplyThree(b, c, d, Apply(a, f));
  }

  lemma {:induction false} ApplyAppend(a: seq<Write>, b: seq<Write>, f: Fields)
    ensures ApplyAll(a + b, f) == ApplyAll(b, ApplyAll(a, f))
    decreases |a|
  {
    if a == [] {
      assert a + b == b;
    } else {
      assert (a + b)[1..] == a[1..] + b;
      ApplyAppend(a[1..], b, Apply(a[0], f));
    }
  }

  class Session {
    var activeBuyOrderRequestID: Rid
    var ActiveBuyExtOrderID: ExtId
    var activeSellOrderRequestID: Rid
    var ActiveSellExtOrderID: ExtId
    var PrevBuyOrderID: Oid
    var ActiveBuyOrderID: Oid
    var ActiveSellOrderID: Oid
    var PrevSellOrderID: Oid
    var CompletedBuyOrders: nat
    var CompletedSellOrders: nat
    var BuyTotal: real
    var SellVolume: int
    var BuyOrders: set<Oid>
    var SellOrders: set<Oid>
    var IsNeedToCreateBuyOrder: bool
    var IsNeedToCreateSellOrder: bool
    var IsDone: bool

    /** Every locked write so far, in the order in which it was made. */
    ghost var log: seq<Write>

    function View(): Fields
      reads this
    {
      Fields(activeBuyOrderRequestID, ActiveBuyExtOrderID, activeSellOrderRequestID, ActiveSellExtOrderID,
             PrevBuyOrderID, ActiveBuyOrderID, ActiveSellOrderID, PrevSellOrderID,
             CompletedBuyOrders, CompletedSellOrders, BuyTotal, SellVolume, BuyOrders, SellOrders,
             IsNeedToCreateBuyOrder, IsNeedToCreateSellOrder, IsDone)
    }

    constructor (buyVolume: real)
      ensures View() == Fields(0, 0, 0, 0, 0, 0, 0, 0, 0, 0, buyVolume, 0, {}, {}, true, false, false)
      ensures View() == NewFields(buyVolume) && log == []
    {
      log := [];
      activeBuyOrderRequestID, ActiveBuyExtOrderID, activeSellOrderRequestID, ActiveSellExtOrderID := 0, 0, 0, 0;
      PrevBuyOrderID, ActiveBuyOrderID, ActiveSellOrderID, PrevSellOrderID := 0, 0, 0, 0;
      CompletedBuyOrders, CompletedSellOrders := 0, 0;
      BuyTotal, SellVolume := buyVolume, 0;
      BuyOrders, SellOrders := {}, {};
      IsNeedToCreateBuyOrder, IsNeedToCreateSellOrder, IsDone := true, false, false;
    }

    method SetIsNeedToCreateBuyOrder(flag: bool)
      modifies this
      ensures View() == old(View()).(needBuy := flag)
      ensures View() == Apply(NeedBuy(flag), old(View())) && log == old(log) + [NeedBuy(flag)]
    {
      IsNeedToCreateBuyOrder := flag;
      log := log + [NeedBuy(flag)];
    }

    method SetIsNeedToCreateSellOrder(flag: bool)
      modifies this
      ensures View() == old(View()).(needSell := flag)
      ensures View() == Apply(NeedSell(flag), old(View())) && log == old(log) + [NeedSell(flag)]
    {
      IsNeedToCreateSellOrder := flag;
      log := log + [NeedSell(flag)];
    }

    method SetActiveBuyExtOrderID(ext: ExtId)
      modifies this
      ensures View() == old(View()).(buyExt := ext)
      ensures View() == Apply(BuyExt(ext), old(View())) && log == old(log) + [BuyExt(ext)]
    {
      ActiveBuyExtOrderID := ext;
      log := log + [BuyExt(ext)];
    }

    method SetActiveSellExtOrderID(ext: ExtId)
      modifies this
      ensures View() == old(View()).(sellExt := ext)
      ensures View() == Apply(SellExt(ext), old(View())) && log == old(log) + [SellExt(ext)]
    {
      ActiveSellExtOrderID := ext;
      log := log + [SellExt(ext)];
    }

    method SetActiveBuyOrderRequestID(rid: Rid)
      modifies this
      ensures View() == old(View()).(buyRid := rid)
      ensures View() == Apply(BuyRid(rid), old(View())) && log == old(log) + [BuyRid(rid)]
    {
      activeBuyOrderRequestID := rid;
      log := log + [BuyRid(rid)];
    }

    method SetActiveSellOrderRequestID(rid: Rid)
      modifies this
      ensures View() == old(View()).(sellRid := rid)
      ensures View() == Apply(SellRid(rid), old(View())) && log == old(log) + [SellRid(rid)]
    {
      activeSellOrderRequestID := rid;
      log := log + [SellRid(rid)];
    }

    method SetPrevBuyOrderID(oid: Oid)
      modifies this
      ensures View() == old(View()).(prevBuy := oid)
      ensures View() == Apply(PrevBuy(oid), old(View())) && log == old(log) + [PrevBuy(oid)]
    {
      PrevBuyOrderID := oid;
      log := log + [PrevBuy(oid)];
    }

    method SetPrevSellOrderID(oid: Oid)
      modifies this
      ensures View() == old(View()).(prevSell := oid)
      ensures View() == Apply(PrevSell(oid), old(View())) && log == old(log) + [PrevSell(oid)]
    {
      PrevSellOrderID := oid;
      log := log + [PrevSell(oid)];
    }

    method SetActiveBuyOrderID(oid: Oid)
      modifies this
      ensures View() == old(View()).(activeBuy := oid)
      ensures View() == Apply(ActiveBuy(oid), old(View())) && log == old(log) + [ActiveBuy(oid)]
    {
      ActiveBuyOrderID := oid;
      log := log + [ActiveBuy(oid)];
    }

    method SetActiveSellOrderID(oid: Oid)
      modifies this
      ensures View() == old(View()).(activeSell := oid)
      ensures View() == Apply(ActiveSell(oid), old(View())) && log == old(log) + [ActiveSell(oid)]
    {
      ActiveSellOrderID := oid;
      log := log + [ActiveSell(oid)];
    }

    method AddBuyOrder(oid: Oid)
      modifies this
      ensures View() == old(View()).(buyOrders := old(View()).buyOrders + {oid})
      ensures View() == Apply(AddBuy(oid), old(View())) && log == old(log) + [AddBuy(oid)]
    {
      BuyOrders := BuyOrders + {oid};
      log := log + [AddBuy(oid)];
    }

    method AddSellOrder(oid: Oid)
      modifies this
      ensures View() == old(View()).(sellOrders := old(View()).sellOrders + {oid})
      ensures View() == Apply(AddSell(oid), old(View())) && log == old(log) + [AddSell(oid)]
    {
      SellOrders := SellOrders + {oid};
      log := log + [AddSell(oid)];
    }

    /** The writes of SetBuyOrderDoneFlags that concern the buy side ... */
    method CompleteBuySide(oid: Oid)
      modifies this
      ensures View() == old(View()).(completedBuys := old(CompletedBuyOrders) + 1,
                                     prevBuy := 0, activeBuy := oid, buyExt := 0, buyRid := 0)
      ensures log == old(log)
    {
      CompletedBuyOrders := CompletedBuyOrders + 1;
      PrevBuyOrderID := 0;
      ActiveBuyOrderID := oid;
      ActiveBuyExtOrderID := 0;
      activeBuyOrderRequestID := 0;
    }

    method ForgetSellOrder()
      modifies this
      ensures View() == old(View()).(activeSell := 0, sellExt := 0, sellRid := 0)
      ensures log == old(log)
    {
      ActiveSellOrderID := 0;
      ActiveSellExtOrderID := 0;
      activeSellOrderRequestID := 0;
    }

    /** ... and those that open the sell side. */
    method OpenSellSide(sellVolume: int)
      modifies this
      ensures View() == old(View()).(activeSell := 0, sellExt := 0, sellRid := 0, needSell := true, sellVolume := sellVolume)
      ensures log == old(log)
    {
      ForgetSellOrder();
      IsNeedToCreateSellOrder := true;
      SellVolume := sellVolume;
    }

    method SetBuyOrderDoneFlags(oid: Oid, sellVolume: int)
      modifies this
      ensures View() == old(View()).(completedBuys := old(View()).completedBuys + 1, prevBuy := 0, activeBuy := oid,
                                     buyExt := 0, buyRid := 0, activeSell := 0, sellExt := 0, sellRid := 0,
                                     needSell := true, sellVolume := sellVolume)
      ensures View() == Apply(BuyDone(oid, sellVolume), old(View())) && log == old(log) + [BuyDone(oid, sellVolume)]
    {
      CompleteBuySide(oid);
      OpenSellSide(sellVolume);
      log := log + [BuyDone(oid, sellVolume)];
    }

    method CompleteSellSide()
      modifies this
      ensures View() == old(View()).(completedSells := old(CompletedSellOrders) + 1, prevSell := 0,
                                     activeSell := 0, sellExt := 0, sellRid := 0)
      ensures log == old(log)
    {
      CompletedSellOrders := CompletedSellOrders + 1;
      PrevSellOrderID := 0;
      ForgetSellOrder();
    }

    method SetSellOrderDoneFlags()
      modifies this
      ensures View() == old(View()).(completedSells := old(View()).completedSells + 1, prevSell := 0, activeSell := 0,
                                     sellExt := 0, sellRid := 0, isDone := true)
      ensures View() == Apply(SellDone, old(View())) && log == old(log) + [SellDone]
    {
      CompleteSellSide();
      IsDone := true;
      log := log + [SellDone];
    }

    method SetBuyOrderCancelledFlags()
      modifies this
      ensures View() == old(View()).(buyExt := 0, buyRid := 0, needBuy := true)
      ensures View() == Apply(BuyCancelled, old(View())) && log == old(log) + [BuyCancelled]
    {
      ActiveBuyExtOrderID := 0;
      activeBuyOrderRequestID := 0;
      IsNeedToCreateBuyOrder := true;
      log := log + [BuyCancelled];
    }

    method SetSellOrderCancelledFlags()
      modifies this
      ensures View() == old(View()).(sellExt := 0, sellRid := 0, needSell := true)
      ensures View() == Apply(SellCancelled, old(View())) && log == old(log) + [SellCancelled]
    {
      ActiveSellExtOrderID := 0;
      activeSellOrderRequestID := 0;
      IsNeedToCreateSellOrder := true;
      log := log + [SellCancelled];
    }
  }

  /** A session's fields, and the writes that have made them. */
  datatype Trail = Trail(fields: Fields, log: seq<Write>)

  ghost function TrailOf(sess: Session): Trail
    reads sess
  {
    Trail(sess.View(), sess.log)
  }

  /** Some writes later, made in exactly this order. */
  ghost function Written(ws: seq<Write>, t: Trail): Trail {
    Trail(ApplyAll(ws, t.fields), t.log + ws)
  }

  lemma WrittenNone(t: Trail)
    ensures Written([], t) == t
  {}

  lemma WrittenOne(a: Write, t: Trail)
    ensures Written([a], t) == Trail(Apply(a, t.fields), t.log + [a])
  {
    ApplyOne(a, t.fields);
  }

  lemma WrittenTwo(a: Write, b: Write, t: Trail)
    ensures Written([a, b], t) == Trail(Apply(b, Apply(a, t.fields)), t.log + [a] + [b])
  {
    ApplyTwo(a, b, t.fields);
    assert t.log + [a, b] == t.log + [a] + [b];
  }

  lemma WrittenThree(a: Write, b: Write, c: Write, t: Trail)
    ensures Written([a, b, c], t) == Trail(Apply(c, Apply(b, Apply(a, t.fields))), t.log + [a] + [b] + [c])
  {
    ApplyThree(a, b, c, t.fields);
    assert t.log + [a, b, c] == t.log + [a] + [b] + [c];
  }

  lemma WrittenFour(a: Write, b: Write, c: Write, d: Write, t: Trail)
    ensures Written([a, b, c, d], t) == Trail(Apply(d, Apply(c, Apply(b, Apply(a, t.fields)))), t.log + [a] + [b] + [c] + [d])
  {
    ApplyFour(a, b, c, d, t.fields);
    assert t.log + [a, b, c, d] == t.log + [a] + [b] + [c] + [d];
  }

  lemma WrittenAppend(a: seq<Write>, b: seq<Write>, t: Trail)
    ensures Written(a + b, t) == Written(b, Written(a, t))
  {
    ApplyAppend(a, b, t.fields);
    assert t.log + (a + b) == t.log + a + b;
  }
}
