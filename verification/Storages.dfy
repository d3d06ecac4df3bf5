/** The garbage collection of the order store (storage/storage.go): done sessions and their orders. */
module Storages {
  import opened Totals
  import opened Exchange
  import opened SpreadSession

  /** The sessions of all books, by their unique ids, as they are when the collection starts. */
  type Registry = map<Sid, Fields>

  ghost function DoneIn(all: Registry, ids: set<Sid>): set<Sid>
  {
    set id | id in ids && id in all && all[id].isDone
  }

  ghost function OrdersOf(all: Registry, ids: set<Sid>): set<Oid>
    requires ids <= all.Keys
  {
    set id, o | id in ids && o in all[id].buyOrders + all[id].sellOrders :: o
  }

  ghost function Sizes(all: Registry): map<nat, int> {
    map id | id in all :: |all[id].buyOrders| + |all[id].sellOrders|
  }

  /** How many orders some sessions have together. */
  ghost function Count(all: Registry, ids: set<Sid>): int
    requires ids <= all.Keys
  {
    Total(ids, Sizes(all))
  }

  lemma OrdersOfMore(all: Registry, ids: set<Sid>, id: Sid)
    requires ids <= all.Keys && id in all
    ensures OrdersOf(all, ids + {id}) == OrdersOf(all, ids) + (all[id].buyOrders + all[id].sellOrders)
  {
    var more := ids + {id};
    assert forall o | o in all[id].buyOrders + all[id].sellOrders :: id in more && o in OrdersOf(all, more);
    assert forall i, o | i in ids && o in all[i].buyOrders + all[i].sellOrders :: i in more && o in OrdersOf(all, more);
  }

  lemma DoneMore(all: Registry, ids: set<Sid>, id: Sid)
    requires ids <= all.Keys && id in all
    ensures DoneIn(all, ids + {id}) == DoneIn(all, ids) + (if all[id].isDone then {id} else {})
  {}

  lemma TotalMore(swept: set<Sid>, gone: set<Sid>, all: Registry, id: Sid)
    requires swept + gone <= all.Keys && id in all && id !in swept + gone
    ensures Count(all, swept + (gone + {id})) == Count(all, swept + gone) + |all[id].buyOrders| + |all[id].sellOrders|
  {
    assert swept + (gone + {id}) == swept + gone + {id};
    TotalAdd(swept + gone, Sizes(all), id);
  }

  /** A session whose orders are not deleted keeps its sums. */
  lemma SumsSurvive(orders: set<Oid>, gone: set<Oid>, store: Store)
    requires orders <= store.Keys && orders !! gone
    ensures orders <= (store - gone).Keys
    ensures Total(orders, Costs(store - gone)) == Total(orders, Costs(store))
    ensures Total(orders, Fills(store - gone)) == Total(orders, Fills(store))
  {
    TotalSame(orders, Costs(store), Costs(store - gone));
    TotalSame(orders, Fills(store), Fills(store - gone));
  }

  /** No order belongs to two sessions. */
  ghost predicate Separate(all: Registry) {
    forall i, j | i in all && j in all && i != j ::
      all[i].buyOrders + all[i].sellOrders !! all[j].buyOrders + all[j].sellOrders
  }

  /** A session that stays keeps all its orders and all its sums. */
  lemma SurvivorSums(all: Registry, id: Sid, store: Store)
    requires Separate(all) && id in all && !all[id].isDone
    requires all[id].buyOrders + all[id].sellOrders <= store.Keys
    ensures var store' := store - OrdersOf(all, DoneIn(all, all.Keys));
            && all[id].buyOrders + all[id].sellOrders <= store'.Keys
            && Total(all[id].buyOrders, Costs(store')) == Total(all[id].buyOrders, Costs(store))
            && Total(all[id].buyOrders, Fills(store')) == Total(all[id].buyOrders, Fills(store))
            && Total(all[id].sellOrders, Costs(store')) == Total(all[id].sellOrders, Costs(store))
            && Total(all[id].sellOrders, Fills(store')) == Total(all[id].sellOrders, Fills(store))
  {
    var gone := OrdersOf(all, DoneIn(all, all.Keys));
    forall o | o in gone ensures o !in all[id].buyOrders + all[id].sellOrders {
      var j :| j in DoneIn(all, all.Keys) && o in all[j].buyOrders + all[j].sellOrders;
    }
    SumsSurvive(all[id].buyOrders, gone, store);
    SumsSurvive(all[id].sellOrders, gone, store);
  }

  /** What a collection leaves holds nothing that is done. */
  lemma NothingLeft(all: Registry)
    ensures var left := all - DoneIn(all, all.Keys); DoneIn(left, left.Keys) == {}
  {}

  ghost function Emptied(shelf: Shelf, all: Registry): Shelf {
    map b | b in shelf :: shelf[b] - DoneIn(all, shelf[b].Keys)
  }

  lemma EmptiedFiles(shelf: Shelf, objs: map<Sid, Session>, all: Registry)
    requires Files(shelf, objs)
    ensures Files(Emptied(shelf, all), objs - DoneIn(all, objs.Keys))
  {}

  lemma EmptiedCovers(shelf: Shelf, objs: map<Sid, Session>, all: Registry)
    requires Covers(shelf, objs)
    ensures Covers(Emptied(shelf, all), objs - DoneIn(all, objs.Keys))
  {
    forall id | id in objs - DoneIn(all, objs.Keys) ensures exists b :: b in Emptied(shelf, all) && id in Emptied(shelf, all)[b] {
      var b :| b in shelf && id in shelf[b];
      assert b in Emptied(shelf, all) && id in Emptied(shelf, all)[b];
    }
  }

  lemma EmptiedApart(shelf: Shelf, all: Registry)
    requires Apart(shelf)
    ensures Apart(Emptied(shelf, all))
  {
    forall a, b | a in shelf && b in shelf && a != b ensures Emptied(shelf, all)[a].Keys !! Emptied(shelf, all)[b].Keys {
      assert shelf[a].Keys !! shelf[b].Keys;
    }
  }

  /** What a collection leaves is again a shelf of separate books. */
  lemma ShelvedAfter(shelf: Shelf, objs: map<Sid, Session>, all: Registry)
    requires Shelved(shelf, objs)
    ensures Shelved(Emptied(shelf, all), objs - DoneIn(all, objs.Keys))
  {
    hide Files, Covers, Apart, Emptied, DoneIn;
    EmptiedFiles(shelf, objs, all);
    EmptiedCovers(shelf, objs, all);
    EmptiedApart(shelf, all);
  }

  /** The session objects and what they hold. */
  ghost predicate Viewed(objs: map<Sid, Session>, all: Registry)
    reads objs.Values
  {
    objs.Keys == all.Keys && forall id | id in objs :: objs[id].View() == all[id]
  }

  /** The sessions of one order book. */
  class SessionBook {
    var SpreadSessions: map<Sid, Session>

    ghost predicate Within(objs: map<Sid, Session>)
      reads this
    {
      forall id | id in SpreadSessions :: id in objs && SpreadSessions[id] == objs[id]
    }
  }

  /** What each book holds. */
  type Shelf = map<SessionBook, map<Sid, Session>>

  /** The books share no session, and together hold all of them. */
  ghost predicate Shelved(shelf: Shelf, objs: map<Sid, Session>) {
    Files(shelf, objs) && Covers(shelf, objs) && Apart(shelf)
  }

  ghost predicate Files(shelf: Shelf, objs: map<Sid, Session>) {
    forall b, id | b in shelf && id in shelf[b] :: id in objs && shelf[b][id] == objs[id]
  }

  ghost predicate Covers(shelf: Shelf, objs: map<Sid, Session>) {
    forall id | id in objs :: exists b :: b in shelf && id in shelf[b]
  }

  ghost predicate Apart(shelf: Shelf) {
    forall a, b | a in shelf && b in shelf && a != b :: shelf[a].Keys !! shelf[b].Keys
  }

  /** The done sessions of some of the books are gone; the other books are as they were. */
  ghost predicate Collected(shelf: Shelf, all: Registry, done: set<SessionBook>)
    reads shelf.Keys
  {
    forall b | b in shelf ::
      b.SpreadSessions == if b in done then shelf[b] - DoneIn(all, shelf[b].Keys) else shelf[b]
  }

  ghost function IdsOf(shelf: Shelf, books: set<SessionBook>): set<Sid> {
    set b, id | b in books && b in shelf && id in shelf[b] :: id
  }

  lemma IdsOfPlus(shelf: Shelf, books: set<SessionBook>, b: SessionBook)
    requires b in shelf
    ensures IdsOf(shelf, books + {b}) == IdsOf(shelf, books) + shelf[b].Keys
  {
    var more := books + {b};
    forall id | id in IdsOf(shelf, books) + shelf[b].Keys ensures id in IdsOf(shelf, more) {
      if id in shelf[b] {
        assert b in more;
      } else {
        var a :| a in books && a in shelf && id in shelf[a];
        assert a in more;
      }
    }
  }

  lemma IdsApart(shelf: Shelf, objs: map<Sid, Session>, books: set<SessionBook>, b: SessionBook)
    requires Shelved(shelf, objs) && b in shelf && b !in books
    ensures IdsOf(shelf, books) !! shelf[b].Keys && IdsOf(shelf, books) <= objs.Keys && shelf[b].Keys <= objs.Keys
  {
    forall id | id in IdsOf(shelf, books) ensures id in objs && id !in shelf[b] {
      var a :| a in books && a in shelf && id in shelf[a];
      assert shelf[a].Keys !! shelf[b].Keys;
    }
  }

  lemma IdsOfAll(shelf: Shelf, objs: map<Sid, Session>)
    requires Shelved(shelf, objs)
    ensures IdsOf(shelf, shelf.Keys) == objs.Keys && IdsOf(shelf, {}) == {}
  {
    forall id | id in objs ensures id in IdsOf(shelf, shelf.Keys) {
      var b :| b in shelf && id in shelf[b];
      assert b in shelf.Keys;
    }
  }

  class Storage {
    var userOrders: Store
    var orderBooks: set<SessionBook>

    /** Deletes the orders of a set one by one. */
    method DeleteOrders(orders: set<Oid>) returns (deleted: nat)
      modifies this`userOrders
      ensures userOrders == old(userOrders) - orders && deleted == |orders|
    {
      deleted := 0;
      var rest := orders;
      while rest != {}
        invariant rest <= orders && userOrders == old(userOrders) - (orders - rest) && deleted == |orders| - |rest|
      {
        var id :| id in rest;
        deleted := deleted + 1;
        userOrders := userOrders - {id};
        rest := rest - {id};
      }
    }

    /** A done session goes, with its orders. */
    method RetireSession(book: SessionBook, id: Sid, ghost f: Fields) returns (deleted: nat)
      requires id in book.SpreadSessions && book.SpreadSessions[id].View() == f
      modifies this`userOrders, book
      ensures book.SpreadSessions == old(book.SpreadSessions) - {id}
      ensures userOrders == old(userOrders) - (f.buyOrders + f.sellOrders)
      ensures deleted == |f.buyOrders| + |f.sellOrders|
    {
      var sess := book.SpreadSessions[id];
      var bought := DeleteOrders(sess.BuyOrders);
      var sold := DeleteOrders(sess.SellOrders);
      deleted := bought + sold;
      book.SpreadSessions := book.SpreadSessions - {id};
    }

    /** One book: its done sessions go, and their orders with them. */
    method CleanUpBook(book: SessionBook, ghost objs: map<Sid, Session>, ghost all: Registry, ghost swept: set<Sid>)
      returns (deleted: nat)
      requires Viewed(objs, all) && book.Within(objs) && swept <= all.Keys && swept !! book.SpreadSessions.Keys
      modifies this`userOrders, book
      ensures book.SpreadSessions == old(book.SpreadSessions) - DoneIn(all, old(book.SpreadSessions.Keys))
      ensures userOrders == old(userOrders) - OrdersOf(all, DoneIn(all, old(book.SpreadSessions.Keys)))
      ensures deleted == Count(all, swept + DoneIn(all, old(book.SpreadSessions.Keys))) - Count(all, swept)
    {
      hide OrdersOf, DoneIn, Count, Session.View;
      deleted := 0;
      ghost var sessions := book.SpreadSessions;
      ghost var gone: set<Sid> := {};
      NothingDone(all, swept);
      var rest := book.SpreadSessions.Keys;
      assert sessions.Keys - rest == {};
      while rest != {}
        invariant rest <= sessions.Keys && gone == DoneIn(all, sessions.Keys - rest) && gone <= sessions.Keys - rest
        invariant book.SpreadSessions == sessions - gone && Viewed(objs, all)
        invariant userOrders == old(userOrders) - OrdersOf(all, gone)
        invariant deleted == Count(all, swept + gone) - Count(all, swept)
      {
        var id :| id in rest;
        DoneMore(all, sessions.Keys - rest, id);
        assert sessions.Keys - (rest - {id}) == sessions.Keys - rest + {id};
        rest := rest - {id};
        assert id in book.SpreadSessions && book.SpreadSessions[id] == objs[id];
        ViewIsDone(book.SpreadSessions[id]);
        if !book.SpreadSessions[id].IsDone { continue; }
        OrdersOfMore(all, gone, id);
        TotalMore(swept, gone, all, id);
        var retired := RetireSession(book, id, all[id]);
        deleted := deleted + retired;
        gone := gone + {id};
      }
      assert sessions.Keys - rest == sessions.Keys;
    }

    /** Exactly the done sessions and exactly their orders go, and the number of those orders is
        returned. */
    method CleanUpOldOrders(ghost shelf: Shelf, ghost objs: map<Sid, Session>, ghost all: Registry) returns (deleted: nat)
      requires Viewed(objs, all) && Shelved(shelf, objs) && shelf.Keys == orderBooks && Collected(shelf, all, {})
      modifies this`userOrders, orderBooks
      ensures orderBooks == old(orderBooks) && Collected(shelf, all, orderBooks)
      ensures userOrders == old(userOrders) - OrdersOf(all, DoneIn(all, all.Keys))
      ensures deleted == Count(all, DoneIn(all, all.Keys))
    {
      hide OrdersOf, DoneIn, Count, Viewed, SessionBook.Within, IdsOf, Shelved;
      deleted := 0;
      ghost var done: set<SessionBook> := {};
      NothingDone(all, {});
      SameKeys(objs, all);
      IdsOfAll(shelf, objs);
      var rest := orderBooks;
      while rest != {}
        invariant rest <= orderBooks && orderBooks == old(orderBooks) && done == orderBooks - rest
        invariant Viewed(objs, all) && Collected(shelf, all, done)
        invariant IdsOf(shelf, done) <= all.Keys && DoneIn(all, IdsOf(shelf, done)) <= all.Keys
        invariant userOrders == old(userOrders) - OrdersOf(all, DoneIn(all, IdsOf(shelf, done)))
        invariant deleted == Count(all, DoneIn(all, IdsOf(shelf, done)))
      {
        var book :| book in rest;
        IdsOfPlus(shelf, done, book);
        IdsApart(shelf, objs, done, book);
        DoneParts(all, IdsOf(shelf, done), shelf[book].Keys);
        BookWithin(book, shelf, objs);
        var more := CleanUpBook(book, objs, all, DoneIn(all, IdsOf(shelf, done)));
        deleted := deleted + more;
        done := done + {book};
        rest := rest - {book};
      }
      assert done == orderBooks;
    }

    /** A second collection finds nothing: it returns 0 and deletes no order. */
    method CleanUpTwice(ghost shelf: Shelf, ghost objs: map<Sid, Session>, ghost all: Registry) returns (first: nat, second: nat)
      requires Viewed(objs, all) && Shelved(shelf, objs) && shelf.Keys == orderBooks && Collected(shelf, all, {})
      modifies this`userOrders, orderBooks
      ensures first == Count(all, DoneIn(all, all.Keys)) && second == 0
      ensures userOrders == old(userOrders) - OrdersOf(all, DoneIn(all, all.Keys))
      ensures forall b | b in shelf :: b.SpreadSessions == shelf[b] - DoneIn(all, shelf[b].Keys)
    {
      hide OrdersOf, Count, Shelved, DoneIn, Viewed, Collected, Emptied;
      SameKeys(objs, all);
      first := CleanUpOldOrders(shelf, objs, all);
      ghost var (gone, left) := (DoneIn(all, all.Keys), Emptied(shelf, all));
      ShelvedAfter(shelf, objs, all);
      ViewedAfter(objs, all);
      EmptiedCollected(shelf, all);
      NothingLeft(all);
      NothingDone(all - gone, {});
      second := CleanUpOldOrders(left, objs - gone, all - gone);
      StillEmptied(shelf, all);
    }
  }

  lemma ViewedAfter(objs: map<Sid, Session>, all: Registry)
    requires Viewed(objs, all)
    ensures Viewed(objs - DoneIn(all, all.Keys), all - DoneIn(all, all.Keys))
  {}

  /** After a collection every book holds what it is to keep. */
  lemma EmptiedCollected(shelf: Shelf, all: Registry)
    requires Collected(shelf, all, shelf.Keys)
    ensures Emptied(shelf, all).Keys == shelf.Keys
    ensures Collected(Emptied(shelf, all), all - DoneIn(all, all.Keys), {})
  {}

  lemma StillEmptied(shelf: Shelf, all: Registry)
    requires Collected(Emptied(shelf, all), all - DoneIn(all, all.Keys), shelf.Keys)
    ensures forall b | b in shelf :: b.SpreadSessions == shelf[b] - DoneIn(all, shelf[b].Keys)
  {
    var (kept, left) := (Emptied(shelf, all), all - DoneIn(all, all.Keys));
    forall b | b in shelf ensures b.SpreadSessions == shelf[b] - DoneIn(all, shelf[b].Keys) {
      assert b in kept && DoneIn(left, kept[b].Keys) == {};
      assert kept[b] - {} == kept[b];
    }
  }

  lemma BookWithin(b: SessionBook, shelf: Shelf, objs: map<Sid, Session>)
    requires Shelved(shelf, objs) && b in shelf && b.SpreadSessions == shelf[b]
    ensures b.Within(objs)
  {}

  lemma SameKeys(objs: map<Sid, Session>, all: Registry)
    requires Viewed(objs, all)
    ensures objs.Keys == all.Keys
  {}

  lemma DoneParts(all: Registry, a: set<Sid>, b: set<Sid>)
    requires a <= all.Keys && b <= all.Keys
    ensures DoneIn(all, a + b) == DoneIn(all, a) + DoneIn(all, b)
    ensures DoneIn(all, a) <= a && DoneIn(all, b) <= b && DoneIn(all, a + b) <= a + b
    ensures OrdersOf(all, DoneIn(all, a + b)) == OrdersOf(all, DoneIn(all, a)) + OrdersOf(all, DoneIn(all, b))
  {
    assert DoneIn(all, a + b) == DoneIn(all, a) + DoneIn(all, b);
    OrdersOfUnion(all, DoneIn(all, a), DoneIn(all, b));
  }

  lemma OrdersOfUnion(all: Registry, a: set<Sid>, b: set<Sid>)
    requires a <= all.Keys && b <= all.Keys
    ensures OrdersOf(all, a + b) == OrdersOf(all, a) + OrdersOf(all, b)
  {
    assert forall i, o | i in a && o in all[i].buyOrders + all[i].sellOrders :: i in a + b && o in OrdersOf(all, a + b);
    assert forall i, o | i in b && o in all[i].buyOrders + all[i].sellOrders :: i in a + b && o in OrdersOf(all, a + b);
  }

  lemma ViewIsDone(s: Session)
    ensures s.View().isDone == s.IsDone
  {}

  lemma NothingDone(all: Registry, swept: set<Sid>)
    requires swept <= all.Keys
    ensures DoneIn(all, {}) == {} && OrdersOf(all, {}) == {} && Count(all, swept + {}) == Count(all, swept) && Count(all, {}) == 0
  {
    assert swept + {} == swept;
  }
}
