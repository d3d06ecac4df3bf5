/**
 The shared record of a session of the buy strategy (storage/buy/session.go): its fields as a value,
 the locked setters as atomic writes, and the record as a class.
 */
module BuySession {
  import opened Exchange

  datatype Fields = Fields(
    rid: Rid, ext: nat, prev: Oid, active: Oid, completed: nat,
    buyTotal: real, orders: set<Oid>, need: bool, isDone: bool)

  function NewFields(buyTotal: real): Fields { Fields(0, 0, 0, 0, 0, buyTotal, {}, true, false) }

  datatype Write =
    | Need(flag: bool)
    | SetExt(ext: nat)
    | SetRid(rid: Rid)
    | SetPrev(oid: Oid)
    | SetActive(oid: Oid)
    | Add(oid: Oid)
    | Executed(oid: Oid)

  function Apply(w: Write, f: Fields): Fields {
    match w
    case Need(flag) => f.(need := flag)
    case SetExt(ext) => f.(ext := ext)
    case SetRid(rid) => f.(rid := rid)
    case SetPrev(oid) => f.(prev := oid)
    case SetActive(oid) => f.(active := oid)
    case Add(oid) => f.(orders := f.orders + {oid})
    case Executed(oid) => f.(completed := f.completed + 1, prev := 0, active := oid, ext := 0, rid := 0, isDone := true)
  }

  function ApplyAll(ws: seq<Write>, f: Fields): Fields
    decreases |ws|
  {
    if ws == [] then f else ApplyAll(ws[1..], Apply(ws[0], f))
  }

  lemma ApplyOne(a: Write, f: Fields)
    ensures ApplyAll([a], f) == Apply(a, f)
  {
    assert ApplyAll([a], f) == ApplyAll([a][1..], Apply(a, f));
  }

  lemma ApplyTwo(a: Write, b: Write, f: Fields)
    ensures ApplyAll([a, b], f) == Apply(b, Apply(a, f))
  {
    assert [a, b][1..] == [b];
    ApplyOne(b, Apply(a, f));
  }

  lemma ApplyThree(a: Write, b: Write, c: Write, f: Fields)
    ensures ApplyAll([a, b, c], f) == Apply(c, Apply(b, Apply(a, f)))
  {
    assert [a, b, c][1..] == [b, c];
    ApplyTwo(b, c, Apply(a, f));
  }

  lemma ApplyFour(a: Write, b: Write, c: Write, d: Write, f: Fields)
    ensures ApplyAll([a, b, c, d], f) == Apply(d, Apply(c, Apply(b, Apply(a, f))))
  {
    assert [a, b, c, d][1..] == [b, c, d];
    ApplyThree(b, c, d, Apply(a, f));
  }

  class Session {
    var activeBuyOrderRequestID: Rid
    var ActiveBuyExtOrderID: nat
    var PrevBuyOrderID: Oid
    var ActiveBuyOrderID: Oid
    var CompletedBuyOrders: nat
    var BuyTotal: real
    var BuyOrders: set<Oid>
    var IsNeedToCreateBuyOrder: bool
    var IsDone: bool

    /** Every locked write so far, in the order in which it was made. */
    ghost var log: seq<Write>

    function View(): Fields
      reads this
    {
      Fields(activeBuyOrderRequestID, ActiveBuyExtOrderID, PrevBuyOrderID, ActiveBuyOrderID, CompletedBuyOrders,
             BuyTotal, BuyOrders, IsNeedToCreateBuyOrder, IsDone)
    }

    constructor (buyVolume: real)
      ensures View() == Fields(0, 0, 0, 0, 0, buyVolume, {}, true, false)
      ensures View() == NewFields(buyVolume) && log == []
    {
      log := [];
      activeBuyOrderRequestID, ActiveBuyExtOrderID, PrevBuyOrderID, ActiveBuyOrderID := 0, 0, 0, 0;
      CompletedBuyOrders, BuyTotal, BuyOrders := 0, buyVolume, {};
      IsNeedToCreateBuyOrder, IsDone := true, false;
    }

    method SetIsNeedToCreateBuyOrder(flag: bool)
      modifies this
      ensures View() == old(View()).(need := flag)
      ensures View() == Apply(Need(flag), old(View())) && log == old(log) + [Need(flag)]
    {
      IsNeedToCreateBuyOrder := flag;
      log := log + [Need(flag)];
    }

    method SetActiveBuyExtOrderID(ext: nat)
      modifies this
      ensures View() == old(View()).(ext := ext)
      ensures View() == Apply(SetExt(ext), old(View())) && log == old(log) + [SetExt(ext)]
    {
      ActiveBuyExtOrderID := ext;
      log := log + [SetExt(ext)];
    }

    method SetActiveBuyOrderRequestID(rid: Rid)
      modifies this
      ensures View() == old(View()).(rid := rid)
      ensures View() == Apply(SetRid(rid), old(View())) && log == old(log) + [SetRid(rid)]
    {
      activeBuyOrderRequestID := rid;
      log := log + [SetRid(rid)];
    }

    method SetPrevBuyOrderID(oid: Oid)
      modifies this
      ensures View() == old(View()).(prev := oid)
      ensures View() == Apply(SetPrev(oid), old(View())) && log == old(log) + [SetPrev(oid)]
    {
      PrevBuyOrderID := oid;
      log := log + [SetPrev(oid)];
    }

    method SetActiveBuyOrderID(oid: Oid)
      modifies this
      ensures View() == old(View()).(active := oid)
      ensures View() == Apply(SetActive(oid), old(View())) && log == old(log) + [SetActive(oid)]
    {
      ActiveBuyOrderID := oid;
      log := log + [SetActive(oid)];
    }

    method AddBuyOrder(oid: Oid)
      modifies this
      ensures View() == old(View()).(orders := old(View()).orders + {oid})
      ensures View() == Apply(Add(oid), old(View())) && log == old(log) + [Add(oid)]
    {
      BuyOrders := BuyOrders + {oid};
      log := log + [Add(oid)];
    }

    method SetBuyOrderExecutedFlags(oid: Oid)
      modifies this
      ensures View() == old(View()).(completed := old(View()).completed + 1, prev := 0, active := oid,
                                     ext := 0, rid := 0, isDone := true)
      ensures View() == Apply(Executed(oid), old(View())) && log == old(log) + [Executed(oid)]
    {
      CompletedBuyOrders := CompletedBuyOrders + 1;
      PrevBuyOrderID := 0;
      ActiveBuyOrderID := oid;
      ActiveBuyExtOrderID := 0;
      activeBuyOrderRequestID := 0;
      IsDone := true;
      log := log + [Executed(oid)];
    }
  }

  /** A session's fields, and the writes that have made them. */
  datatype Trail = Trail(fields: Fields, log: seq<Write>)

  ghost function TrailOf(sess: Session): Trail
    reads sess
  {
    Trail(sess.View(), sess.log)
  }

  /** Some writes later, made in exactly this order. */
  ghost function Written(ws: seq<Write>, t: Trail): Trail {
    Trail(ApplyAll(ws, t.fields), t.log + ws)
  }

  lemma WrittenNone(t: Trail)
    ensures Written([], t) == t
  {}

  lemma WrittenOne(a: Write, t: Trail)
    ensures Written([a], t) == Trail(Apply(a, t.fields), t.log + [a])
  {
    ApplyOne(a, t.fields);
  }

  lemma WrittenTwo(a: Write, b: Write, t: Trail)
    ensures Written([a, b], t) == Trail(Apply(b, Apply(a, t.fields)), t.log + [a] + [b])
  {
    ApplyTwo(a, b, t.fields);
    assert t.log + [a, b] == t.log + [a] + [b];
  }

  lemma WrittenThree(a: Write, b: Write, c: Write, t: Trail)
    ensures Written([a, b, c], t) == Trail(Apply(c, Apply(b, Apply(a, t.fields))), t.log + [a] + [b] + [c])
  {
    ApplyThree(a, b, c, t.fields);
    assert t.log + [a, b, c] == t.log + [a] + [b] + [c];
  }

  lemma WrittenFour(a: Write, b: Write, c: Write, d: Write, t: Trail)
    ensures Written([a, b, c, d], t) == Trail(Apply(d, Apply(c, Apply(b, Apply(a, t.fields)))), t.log + [a] + [b] + [c] + [d])
  {
    ApplyFour(a, b, c, d, t.fields);
    assert t.log + [a, b, c, d] == t.log + [a] + [b] + [c] + [d];
  }
}
