/**
 The arbitrage chain (strategy/arbitrage.go): buy base for USDT, sell base for quoted, sell quoted for
 USDT. A leg is ordered only after the previous one is done in the store, and if all three fill at
 their limits without fees, the profit is the announced one up to the cutting of three amounts.
 */
module Arbitrage {
  import opened Rounding
  import opened Decimals
  import opened Exchange

  /** An order of the account: what was bought, what was sold for it, and the fee. */
  datatype Trade = Trade(state: State, bought: real, sold: real, fee: real)

  type Trades = map<Oid, Trade>

  /** Stores only move forward: orders stay known and final ones are frozen. */
  ghost predicate Later(s: Trades, s': Trades) {
    forall o | o in s :: o in s' && (s[o].state.Final() ==> s'[o] == s[o])
  }

  /** What a waiting leg may see: the store at an accounting event, with the time that has passed, or
      the end of the wait. */
  datatype Event = Seen(store: Trades, late: bool) | Expired | Stopped | Closed

  datatype Answer = Opened(oid: Oid) | Refusal | Interrupted

  /** The surroundings of one leg: the store when its order is sent, the answer, the events, and the
      store when the leg is over. */
  datatype Leg = Leg(before: Trades, answer: Answer, events: seq<Event>, after: Trades)

  ghost predicate Orderly(leg: Leg) {
    && Later(leg.before, leg.after)
    && (forall i | 0 <= i < |leg.events| && leg.events[i].Seen? :: Later(leg.events[i].store, leg.after))
  }

  datatype Outcome = Completed(oid: Oid) | NotCompleted(oid: Oid) | Failed

  /** The first event that decides about a watched order: true once it is done, false when it is over
      otherwise or the wait ends, nothing when the wait fails. */
  function Watched(oid: Oid, events: seq<Event>): Option<bool> {
    if events == [] then Some(false)
    else match events[0]
      case Closed => None
      case Expired => Some(false)
      case Stopped => Some(false)
      case Seen(store, late) =>
        if oid !in store then (if late then None else Watched(oid, events[1..]))
        else if store[oid].state.Done? then Some(true)
        else if store[oid].state.Final() then Some(false)
        else Watched(oid, events[1..])
  }

  method WatchOrder(oid: Oid, events: seq<Event>) returns (r: Option<bool>)
    ensures r == Watched(oid, events)
  {
    var i := 0;
    while i < |events|
      invariant i <= |events| && Watched(oid, events) == Watched(oid, events[i..])
    {
      match events[i] {
        case Closed => return None;
        case Expired => return Some(false);
        case Stopped => return Some(false);
        case Seen(store, late) =>
          if oid !in store {
            if late { return None; }
          } else if store[oid].state == Done {
            return Some(true);
          } else if store[oid].state == Cancelled || store[oid].state == State.Rejected {
            return Some(false);
          }
      }
      i := i + 1;
    }
    r := Some(false);
  }

  /** An event that leaves the watch waiting: the order is not there yet, or not over yet. */
  predicate Undecided(oid: Oid, e: Event) {
    e.Seen? && if oid in e.store then e.store[oid].state.Code() <= Active.Code() else !e.late
  }

  predicate UndecidedBefore(oid: Oid, events: seq<Event>, i: nat)
    requires i <= |events|
  {
    forall j | 0 <= j < i :: Undecided(oid, events[j])
  }

  /** The first event that is not undecided, or the end of the stream. */
  function FirstDecided(oid: Oid, events: seq<Event>): (i: nat)
    ensures i <= |events| && UndecidedBefore(oid, events, i)
    ensures i < |events| ==> !Undecided(oid, events[i])
  {
    if events == [] || !Undecided(oid, events[0]) then 0
    else
      var i := FirstDecided(oid, events[1..]);
      assert forall j | 0 < j < i + 1 :: events[j] == events[1..][j - 1];
      i + 1
  }

  lemma OnlyDecided(oid: Oid, events: seq<Event>, i: nat)
    requires i <= |events| && UndecidedBefore(oid, events, i) && (i < |events| ==> !Undecided(oid, events[i]))
    ensures FirstDecided(oid, events) == i
  {}

  /** What the deciding event alone says. */
  function Ruling(oid: Oid, events: seq<Event>, i: nat): Option<bool>
    requires i <= |events|
  {
    if i == |events| then Some(false)
    else match events[i]
      case Closed => None
      case Expired => Some(false)
      case Stopped => Some(false)
      case Seen(store, _) => if oid in store then Some(store[oid].state.Done?) else None
  }

  lemma {:induction false} WatchedIsRuled(oid: Oid, events: seq<Event>)
    ensures Watched(oid, events) == Ruling(oid, events, FirstDecided(oid, events))
  {
    if events != [] && Undecided(oid, events[0]) {
      WatchedIsRuled(oid, events[1..]);
      var i := FirstDecided(oid, events[1..]);
      assert i < |events[1..]| ==> events[1..][i] == events[i + 1];
    }
  }

  /** A watch completes if and only if the first event that decides anything shows the order done. */
  lemma CompletedExactly(oid: Oid, events: seq<Event>)
    ensures Watched(oid, events) == Some(true) <==>
            exists i :: 0 <= i < |events| && UndecidedBefore(oid, events, i) && events[i].Seen? && ShowsDone(oid, events[i])
  {
    WatchedIsRuled(oid, events);
    if i :| 0 <= i < |events| && UndecidedBefore(oid, events, i) && events[i].Seen? && ShowsDone(oid, events[i]) {
      OnlyDecided(oid, events, i);
    }
  }

  predicate ShowsDone(oid: Oid, e: Event)
    requires e.Seen?
  {
    oid in e.store && e.store[oid].state.Done?
  }

  /** It fails if and only if first the channel is closed, or the order is late and still not there. */
  lemma FailedExactly(oid: Oid, events: seq<Event>)
    ensures Watched(oid, events) == None <==>
            exists i :: 0 <= i < |events| && UndecidedBefore(oid, events, i)
                        && (events[i].Closed? || (events[i].Seen? && oid !in events[i].store && events[i].late))
  {
    WatchedIsRuled(oid, events);
    if i :| 0 <= i < |events| && UndecidedBefore(oid, events, i)
            && (events[i].Closed? || (events[i].Seen? && oid !in events[i].store && events[i].late)) {
      OnlyDecided(oid, events, i);
    }
  }

  /** It ends uncompleted if and only if first the time is up, the bot is stopped, or the order is cancelled
      or rejected, or nothing decides at all. */
  lemma NotCompletedExactly(oid: Oid, events: seq<Event>)
    ensures Watched(oid, events) == Some(false) <==>
            UndecidedBefore(oid, events, |events|)
            || exists i :: 0 <= i < |events| && UndecidedBefore(oid, events, i) && GivesUp(oid, events[i])
  {
    WatchedIsRuled(oid, events);
    if UndecidedBefore(oid, events, |events|) {
      OnlyDecided(oid, events, |events|);
    } else if i :| 0 <= i < |events| && UndecidedBefore(oid, events, i) && GivesUp(oid, events[i]) {
      OnlyDecided(oid, events, i);
    }
  }

  predicate GivesUp(oid: Oid, e: Event) {
    || e.Expired? || e.Stopped?
    || (e.Seen? && oid in e.store && (e.store[oid].state == Cancelled || e.store[oid].state == State.Rejected))
  }

  function OutcomeOf(leg: Leg): Outcome {
    if leg.answer.Refusal? then Failed
    else
      var oid := if leg.answer.Opened? then leg.answer.oid else 0;
      match Watched(oid, leg.events)
      case None => Failed
      case Some(done) => if done then Completed(oid) else NotCompleted(oid)
  }

  /** A refused order fails; otherwise the watch of the order decides, of order 0 when the bot is stopped
      before the answer. */
  method CreateAndWaitExecOrder(leg: Leg) returns (r: Outcome)
    ensures r == OutcomeOf(leg)
    ensures var oid := if leg.answer.Opened? then leg.answer.oid else 0;
            && (r.Failed? <==> leg.answer.Refusal? || Watched(oid, leg.events) == None)
            && (r == Completed(oid) <==> !leg.answer.Refusal? && Watched(oid, leg.events) == Some(true))
            && (r == NotCompleted(oid) <==> !leg.answer.Refusal? && Watched(oid, leg.events) == Some(false))
  {
    if leg.answer.Refusal? { return Failed; }
    var oid := if leg.answer.Opened? then leg.answer.oid else 0;
    var isCompleted := WatchOrder(oid, leg.events);
    if isCompleted.None? { return Failed; }
    r := if isCompleted.value then Completed(oid) else NotCompleted(oid);
  }

  /** A completed leg's order is done in the store when the leg is over. */
  lemma CompletedIsDone(leg: Leg)
    requires Orderly(leg) && OutcomeOf(leg).Completed?
    ensures DoneIn(leg.after, OutcomeOf(leg).oid)
  {
    CompletedExactly(OutcomeOf(leg).oid, leg.events);
  }

  predicate DoneIn(store: Trades, oid: Oid) { oid in store && store[oid].state.Done? }

  // ----- amounts -----

  /** The prepared amount of a real number: one decimal more than the unit, then cut. */
  function Cut(a: real, unit: real): real
    requires unit > 0.0
  {
    var n := RoundHalfEven(10.0 * (a / unit));
    (n / 10) as real * unit
  }

  lemma CutUnits(y: real)
    ensures var units := RoundHalfEven(10.0 * y) / 10;
            y - 0.95 <= units as real <= y + 0.05
  {
    var n := RoundHalfEven(10.0 * y);
    assert n == 10 * (n / 10) + n % 10;
  }

  /** Cutting loses at most 0.95 units and adds at most 0.05. */
  lemma CutNear(a: real, unit: real)
    requires unit > 0.0
    ensures a - 0.95 * unit <= Cut(a, unit) <= a + 0.05 * unit
  {
    var y := a / unit;
    var units := (RoundHalfEven(10.0 * y) / 10) as real;
    CutUnits(y);
    TimesQuotient(unit, a);
    TimesMonotone(unit, y - 0.95, units);
    TimesMonotone(unit, units, y + 0.05);
    TimesDistributes(unit, y, -0.95);
    TimesDistributes(unit, y, 0.05);
    assert y + -0.95 == y - 0.95;
  }

  // ----- the same cut on decimal texts -----

  function ValueOf(a: Decimal): real { a.mantissa as real / Pow10(a.scale) as real }

  lemma SignReal(p: real, x: real)
    requires p > 0.0
    ensures (x * p < 0.0 <==> x < 0.0) && (x * p > 0.0 <==> x > 0.0)
  {}

  lemma CompareFraction(r: nat, d: nat, c: real)
    requires d > 0
    ensures r as real / d as real < c <==> r as real < c * d as real
    ensures r as real / d as real > c <==> r as real > c * d as real
  {
    var f := r as real / d as real;
    assert f * d as real == r as real;
    assert (f - c) * d as real == f * d as real - c * d as real;
    SignReal(d as real, f - c);
  }

  lemma Fraction(n: nat, d: nat, q: nat, r: nat)
    requires d > 0 && n == q * d + r && r < d
    ensures n as real / d as real == q as real + r as real / d as real
    ensures 0.0 <= r as real / d as real < 1.0
  {
    var f := r as real / d as real;
    assert f * d as real == r as real;
    assert (q as real + f) * d as real == (q * d) as real + r as real;
    CompareFraction(r, d, 0.0);
    CompareFraction(r, d, 1.0);
  }

  /** Rounding a quotient of naturals and rounding it as a real number are the same. */
  lemma SameRounding(n: nat, d: nat)
    requires d > 0
    ensures RoundHalfEven(n as real / d as real) == RoundedRatio(n, d)
  {
    Fraction(n, d, n / d, n % d);
    CompareFraction(n % d, d, 0.5);
    var x := n as real / d as real;
    assert x.Floor == n / d;
  }

  lemma RatioOfMultiple(q: nat, d: nat)
    requires d > 0
    ensures RoundedRatio(q * d, d) == q
  {
    Remainder(q * d, d, q, 0);
  }

  lemma RatioScale(n: nat, d: nat, p: nat)
    requires d > 0 && p > 0
    ensures d * p > 0 && RoundedRatio(n * p, d * p) == RoundedRatio(n, d)
  {
    var (q, r) := (n / d, n % d);
    MultipleAtLeast(d, p);
    assert n * p == (d * p) * q + r * p by { assert n == d * q + r; }
    assert r * p < d * p by { MultipleAtLeast(p, d - r); }
    Remainder(n * p, d * p, q, r * p);
    assert 2 * (r * p) < d * p <==> 2 * r < d by { assert 2 * (r * p) - d * p == p * (2 * r - d); Sign(p, 2 * r - d); }
    assert 2 * (r * p) == d * p <==> 2 * r == d by { assert 2 * (r * p) - d * p == p * (2 * r - d); Sign(p, 2 * r - d); }
  }

  lemma Sign(p: int, x: int)
    requires p > 0
    ensures (p * x < 0 <==> x < 0) && (p * x == 0 <==> x == 0)
  {}

  /** The printed amount, cut as a text, denotes the cut of the number: the two descriptions of
      the preparation of an amount agree. */
  lemma CutIsPrepared(a: Decimal, scale: nat)
    ensures Cut(ValueOf(a), 1.0 / Pow10(scale) as real) == (Rounded(a, scale + 1) / 10) as real * (1.0 / Pow10(scale) as real)
  {
    hide RoundHalfEven, Pow10, Rounded;
    var (m, unit, d) := (a.mantissa, Pow10(scale), Pow10(a.scale));
    var top := m * Pow10(scale + 1);
    PowNext(m, scale);
    InUnits(m, d, unit);
    SameRounding(top, d);
    RoundedAsRatio(a, scale);
  }

  lemma RoundedAsRatio(a: Decimal, scale: nat)
    ensures Rounded(a, scale + 1) == RoundedRatio(a.mantissa * Pow10(scale + 1), Pow10(a.scale))
  {
    hide Pow10, RoundedRatio;
    if a.scale <= scale + 1 {
      RoundedExact(a, scale);
      RatioOfMultiple(Rounded(a, scale + 1), Pow10(a.scale));
    } else {
      PowAdd(a.scale - (scale + 1), scale + 1);
      RatioScale(a.mantissa, Pow10(a.scale - (scale + 1)), Pow10(scale + 1));
    }
  }

  lemma InUnits(m: nat, d: nat, unit: nat)
    requires d > 0 && unit > 0
    ensures 10.0 * (m as real / d as real / (1.0 / unit as real)) == (10 * (m * unit)) as real / d as real
  {
    var x := m as real / d as real;
    assert x / (1.0 / unit as real) == x * unit as real;
    assert x * unit as real == (m * unit) as real / d as real;
  }

  // ----- the chain -----

  /** A price in a book, with the total behind it. */
  datatype Quote = Quote(price: real, total: real)

  /** The quantity units and least totals of the three pairs. */
  datatype Pairs = Pairs(baseUnit: real, crossUnit: real, quotedUnit: real, crossMinimum: real, quotedMinimum: real)

  /** An order that was sent: its amount and price, the store at that moment, and how its leg ended. */
  datatype Sent = Sent(amount: real, price: real, store: Trades, outcome: Outcome)

  /** The expected result of the chain, in percent. */
  function ExpectedSpread(start: real, base: real, cross: real, quoted: real): real
    requires start > 0.0 && base > 0.0
  {
    start / base * cross * quoted * 100.0 / start - 100.0
  }

  /** The expected result exceeds the percentage if and only if what comes back at the three prices exceeds
      the start by it. */
  lemma SpreadExceeds(start: real, percent: real, base: real, cross: real, quoted: real)
    requires start > 0.0 && base > 0.0
    ensures ExpectedSpread(start, base, cross, quoted) > percent <==> start / base * cross * quoted > start + start * percent / 100.0
  {
    var w := start / base * cross * quoted;
    var r := w * 100.0 / start;
    assert r * start == w * 100.0;
    var d := r - (100.0 + percent);
    assert d * start == 100.0 * (w - (start + start * percent / 100.0));
    SignReal(start, d);
  }

  /** The trade that a leg's order has become. */
  function TradeOf(leg: Leg): Trade
    requires OutcomeOf(leg).Completed? && DoneIn(leg.after, OutcomeOf(leg).oid)
  {
    leg.after[OutcomeOf(leg).oid]
  }

  /** Each leg starts in a store later than the end of the previous one. */
  ghost predicate Chained(legs: seq<Leg>)
    requires |legs| == 3
  {
    && (forall i | 0 <= i < 3 :: Orderly(legs[i]))
    && Later(legs[0].after, legs[1].before) && Later(legs[1].after, legs[2].before)
  }

  lemma NextStoreKnows(leg: Leg, next: Leg)
    requires Orderly(leg) && Later(leg.after, next.before) && OutcomeOf(leg).Completed?
    ensures DoneIn(leg.after, OutcomeOf(leg).oid) && DoneIn(next.before, OutcomeOf(leg).oid)
  {
    CompletedIsDone(leg);
  }

  /** Sends up to three orders. Every order after the first is sent while the store knows the previous
      one as done, with an amount cut from what that one brought in; a leg that is not completed is
      cancelled and ends the chain. */
  method CheckBuyBaseOption(start: real, percent: real, base: Quote, cross: Quote, quoted: Quote, pairs: Pairs, legs: seq<Leg>)
    returns (log: seq<Sent>, cancelled: Option<Oid>)
    requires start > 0.0 && base.price > 0.0
    requires pairs.baseUnit > 0.0 && pairs.crossUnit > 0.0 && pairs.quotedUnit > 0.0
    requires |legs| == 3 && Chained(legs)
    ensures log != [] <==>
            && base.total > start && cross.total > pairs.crossMinimum && quoted.total > pairs.quotedMinimum
            && start / base.price * cross.price * quoted.price > start + start * percent / 100.0
    ensures |log| <= 3 && (|log| >= 2 <==> log != [] && OutcomeOf(legs[0]).Completed?)
    ensures |log| == 3 <==> |log| >= 2 && OutcomeOf(legs[1]).Completed?
    ensures forall i | 0 <= i < |log| :: log[i].store == legs[i].before && log[i].outcome == OutcomeOf(legs[i])
    ensures |log| >= 2 ==> log[0].outcome.Completed? && DoneIn(log[1].store, log[0].outcome.oid)
    ensures |log| == 3 ==> log[1].outcome.Completed? && DoneIn(log[2].store, log[1].outcome.oid)
    ensures |log| >= 1 ==> log[0].amount == Cut(start / base.price, pairs.baseUnit) && log[0].price == base.price
    ensures |log| >= 2 ==> DoneIn(legs[0].after, OutcomeOf(legs[0]).oid)
                           && log[1].amount == Cut(TradeOf(legs[0]).bought, pairs.crossUnit) && log[1].price == cross.price
    ensures |log| == 3 ==> DoneIn(legs[1].after, OutcomeOf(legs[1]).oid)
                           && log[2].amount == Cut(TradeOf(legs[1]).bought - TradeOf(legs[1]).fee, pairs.quotedUnit)
                           && log[2].price == quoted.price
    ensures cancelled == if log != [] && log[|log| - 1].outcome.NotCompleted? then Some(log[|log| - 1].outcome.oid) else None
  {
    hide Cut, ExpectedSpread, OutcomeOf, Orderly, Later;
    log, cancelled := [], None;
    SpreadExceeds(start, percent, base.price, cross.price, quoted.price);
    if !(base.total > start && cross.total > pairs.crossMinimum && quoted.total > pairs.quotedMinimum) { return; }
    var spread := ExpectedSpread(start, base.price, cross.price, quoted.price);
    if !(spread > percent) { return; }
    // 1. buy base for USDT
    var first := CreateAndWaitExecOrder(legs[0]);
    log := [Sent(Cut(start / base.price, pairs.baseUnit), base.price, legs[0].before, first)];
    cancelled := if first.NotCompleted? then Some(first.oid) else None;
    if !first.Completed? { return; }
    NextStoreKnows(legs[0], legs[1]);
    var buyBaseOrder := legs[0].after[first.oid];
    // 2. sell base for quoted
    var second := CreateAndWaitExecOrder(legs[1]);
    log := log + [Sent(Cut(buyBaseOrder.bought, pairs.crossUnit), cross.price, legs[1].before, second)];
    cancelled := if second.NotCompleted? then Some(second.oid) else None;
    if !second.Completed? { return; }
    NextStoreKnows(legs[1], legs[2]);
    var sellBaseOrder := legs[1].after[second.oid];
    // 3. sell quoted for USDT
    var third := CreateAndWaitExecOrder(legs[2]);
    log := log + [Sent(Cut(sellBaseOrder.bought - sellBaseOrder.fee, pairs.quotedUnit), quoted.price, legs[2].before, third)];
    cancelled := if third.NotCompleted? then Some(third.oid) else None;
  }

  // ----- the profit of a completed chain -----

  lemma TimesScaled(a: real, c: real, b: real)
    ensures Times(a, c * b) == c * Times(a, b)
  {}

  /** What the cutting of the three amounts can cost. */
  function CutLoss(base: real, cross: real, quoted: real, pairs: Pairs): real {
    0.95 * (Times(quoted, Times(cross, pairs.baseUnit)) + Times(quoted, Times(cross, pairs.crossUnit)) + Times(quoted, pairs.quotedUnit))
    + 0.05 * Times(base, pairs.baseUnit)
  }

  /** An order filled at its limit, without a fee. */
  predicate FilledBuy(t: Trade, sent: Sent) {
    t.bought == sent.amount && t.sold == Times(sent.price, sent.amount) && t.fee == 0.0
  }

  predicate FilledSell(t: Trade, sent: Sent) {
    t.sold == sent.amount && t.bought == Times(sent.price, sent.amount) && t.fee == 0.0
  }

  /** Selling a cut amount brings in at least the uncut amount's worth less 0.95 units' worth. */
  lemma SoldAtLeast(price: real, amount: real, lower: real, unit: real)
    requires price >= 0.0 && unit > 0.0 && lower <= amount
    ensures Times(price, Cut(amount, unit)) >= Times(price, lower) - 0.95 * Times(price, unit)
  {
    hide Cut;
    CutNear(amount, unit);
    TimesMonotone(price, lower - 0.95 * unit, Cut(amount, unit));
    TimesDistributes(price, lower, -0.95 * unit);
    TimesScaled(price, -0.95, unit);
    assert lower + -0.95 * unit == lower - 0.95 * unit;
  }

  lemma SpentAtMost(start: real, base: real, unit: real)
    requires base > 0.0 && unit > 0.0
    ensures Times(base, Cut(start / base, unit)) <= start + 0.05 * Times(base, unit)
  {
    hide Cut;
    var q := start / base;
    CutNear(q, unit);
    TimesMonotone(base, Cut(q, unit), q + 0.05 * unit);
    TimesDistributes(base, q, 0.05 * unit);
    TimesScaled(base, 0.05, unit);
    TimesQuotient(base, start);
  }

  /** The announced spread, as an amount. */
  lemma SpreadAsAmount(start: real, percent: real, base: real, cross: real, quoted: real)
    requires start > 0.0 && base > 0.0 && ExpectedSpread(start, base, cross, quoted) > percent
    ensures Times(quoted, Times(cross, start / base)) > start + start * percent / 100.0
  {
    var w := start / base * cross * quoted;
    assert w == Times(quoted, Times(cross, start / base));
    var r := w * 100.0 / start;
    assert r * start == w * 100.0;
    assert r > 100.0 + percent;
    assert (r - 100.0 - percent) * start > 0.0;
    assert (r - 100.0 - percent) * start == r * start - 100.0 * start - percent * start;
  }

  /** The value after three sells, with the loss of each cut carried along. */
  lemma LossesAddUp(cross: real, quoted: real, q: real, baseUnit: real, crossUnit: real, quotedUnit: real,
                    bought: real, received: real, gained: real)
    requires cross >= 0.0 && quoted >= 0.0
    requires bought >= q - 0.95 * baseUnit
    requires received >= Times(cross, bought) - 0.95 * Times(cross, crossUnit)
    requires gained >= Times(quoted, received) - 0.95 * Times(quoted, quotedUnit)
    ensures gained >= Times(quoted, Times(cross, q))
                      - 0.95 * (Times(quoted, Times(cross, baseUnit)) + Times(quoted, Times(cross, crossUnit)) + Times(quoted, quotedUnit))
  {
    var (v, b, c) := (Times(cross, q), Times(cross, baseUnit), Times(cross, crossUnit));
    TimesMonotone(cross, q - 0.95 * baseUnit, bought);
    TimesDistributes(cross, q, -0.95 * baseUnit);
    TimesScaled(cross, -0.95, baseUnit);
    assert q + -0.95 * baseUnit == q - 0.95 * baseUnit;
    assert received >= v + -0.95 * (b + c);
    TimesMonotone(quoted, v + -0.95 * (b + c), received);
    TimesDistributes(quoted, v, -0.95 * (b + c));
    TimesScaled(quoted, -0.95, b + c);
    TimesDistributes(quoted, b, c);
  }

  /** If all three orders fill at their limits without fees, what comes in exceeds what was spent by
      the announced percentage, less the explicit loss of the three cuts. */
  lemma ChainProfit(start: real, percent: real, base: Quote, cross: Quote, quoted: Quote, pairs: Pairs,
                    log: seq<Sent>, first: Trade, second: Trade, third: Trade)
    requires start > 0.0 && base.price > 0.0 && cross.price >= 0.0 && quoted.price >= 0.0
    requires pairs.baseUnit > 0.0 && pairs.crossUnit > 0.0 && pairs.quotedUnit > 0.0
    requires start / base.price * cross.price * quoted.price > start + start * percent / 100.0 && |log| == 3
    requires log[0].amount == Cut(start / base.price, pairs.baseUnit) && log[0].price == base.price
    requires log[1].amount == Cut(first.bought, pairs.crossUnit) && log[1].price == cross.price
    requires log[2].amount == Cut(second.bought - second.fee, pairs.quotedUnit) && log[2].price == quoted.price
    requires FilledBuy(first, log[0]) && FilledSell(second, log[1]) && FilledSell(third, log[2])
    ensures third.bought - first.sold
            > start * percent / 100.0 - CutLoss(base.price, cross.price, quoted.price, pairs)
  {
    hide Cut, ExpectedSpread, Times;
    var q := start / base.price;
    CutNear(q, pairs.baseUnit);
    SoldAtLeast(cross.price, first.bought, first.bought, pairs.crossUnit);
    SoldAtLeast(quoted.price, second.bought, second.bought, pairs.quotedUnit);
    LossesAddUp(cross.price, quoted.price, q, pairs.baseUnit, pairs.crossUnit, pairs.quotedUnit, first.bought, second.bought, third.bought);
    SpentAtMost(start, base.price, pairs.baseUnit);
    SpreadExceeds(start, percent, base.price, cross.price, quoted.price);
    SpreadAsAmount(start, percent, base.price, cross.price, quoted.price);
  }
}
