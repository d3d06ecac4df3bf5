/**
 The same processes with every locked setter as a step of its own. An activation opens a section
 that holds its remaining writes; a decider first clears the flag and looks at its orders only after
 that. Sections of different processes may interleave at will. No two of them are ever open on one
 session, because only the last write of a section gives the session away. A section is rolled
 forward, a cleared flag rolled back: either way every fine run is a run of whole activations.
 */
module SpreadAtomicity {
  import opened Totals
  import opened Exchange
  import opened SpreadSession
  import opened SpreadProtocol
  import opened SpreadInvariant
  import opened SpreadRuns
  import opened SpreadTheorems
  import opened SpreadBooking

  datatype Process = Decider | Listener | Watcher(oid: Oid)

  /** The rest of an activation: its writes still to come, the orders watched and the profit booked
      when the last one is done; or a decider that has cleared a flag and has sent nothing yet. */
  datatype Section =
    | Section(process: Process, writes: seq<Write>, watched: multiset<Oid>, booked: int)
    | Clearing(side: Side)
  {
    function By(): Process { if Clearing? then Decider else process }
  }

  datatype FineEntry = FineEntry(raw: Fields, watchers: multiset<Oid>, removed: bool, sections: seq<Section>)

  datatype FineWorld = FineWorld(entries: seq<FineEntry>, store: Store, venue: Venue, profit: int, status: Status)

  datatype FineStep =
    | Begin(step: Step)
    | Clear(sid: Sid, side: Side)
    | Create(sid: Sid, k: nat, side: Side, market: Market)
    | WriteOne(sid: Sid, k: nat)

  function RawEntry(fe: FineEntry): Entry { Entry(fe.raw, fe.watchers, fe.removed) }

  /** What the processes see: half-written fields and all. */
  function RawWorld(fw: FineWorld): World {
    World(seq(|fw.entries|, i requires 0 <= i < |fw.entries| => RawEntry(fw.entries[i])),
          fw.store, fw.venue, fw.profit, fw.status)
  }

  predicate BySession(s: Step) { s.Deciding? || s.Listening? || s.Watching? }

  function ProcessOf(s: Step): Process
    requires BySession(s)
  {
    match s
    case Deciding(_, _) => Decider
    case Listening(_, _, _) => Listener
    case Watching(_, oid, _) => Watcher(oid)
  }

  function SelfOf(p: Process): multiset<Oid> {
    if p.Watcher? then multiset{p.oid} else multiset{}
  }

  ghost function OutcomeOf(w: World, s: Step): Outcome
    requires BySession(s) && Enabled(w, s)
  {
    match s
    case Deciding(sid, m) => Decide(w.entries[sid].fields, sid, w.store, w.venue, m)
    case Listening(sid, rid, answer) => Listen(w.entries[sid].fields, rid, w.store, w.venue, answer)
    case Watching(sid, oid, verdict) => Watch(w.entries[sid].fields, sid, oid, w.store, w.venue, verdict)
  }

  predicate Engaged(fe: FineEntry, p: Process) {
    exists k :: 0 <= k < |fe.sections| && fe.sections[k].By() == p
  }

  /** A process may begin an activation unless it is still in one; a decider that lets an order through
      does not begin here but clears a flag. The clean-up keeps out while a session is being marked done. */
  predicate CanBegin(fw: FineWorld, s: Step) {
    && Enabled(RawWorld(fw), s)
    && (BySession(s) ==> !Engaged(fw.entries[s.sid], ProcessOf(s)))
    && (s.Deciding? ==> !s.market.buyOpen && !s.market.sellOpen)
    && (s.CleaningUp? ==> forall i | 0 <= i < |fw.entries| :: Unmarked(fw.entries[i]))
  }

  predicate Unmarked(fe: FineEntry) {
    forall k | 0 <= k < |fe.sections| :: fe.sections[k].Section? ==> SellDone !in fe.sections[k].writes
  }

  predicate Needed(f: Fields, side: Side) { if side.Buy? then f.needBuy else f.needSell }

  /** The first thing a decider does once a guard has let an order through. */
  function Flag(side: Side, need: bool): Write { if side.Buy? then NeedBuy(need) else NeedSell(need) }

  /** A decider may find a guard open whenever its flag is set, a sell only for a bought order it knows. */
  predicate CanClear(fw: FineWorld, sid: Sid, side: Side) {
    && fw.status.Running? && sid < |fw.entries|
    && var fe := fw.entries[sid];
       && !fe.removed && !fe.raw.isDone && !Engaged(fe, Decider) && Needed(fe.raw, side)
       && (side.Sell? ==> fe.raw.activeBuy in fw.store)
  }

  predicate CanCreate(fw: FineWorld, sid: Sid, k: nat, side: Side, m: Market) {
    && fw.status.Running? && sid < |fw.entries| && k < |fw.entries[sid].sections|
    && fw.entries[sid].sections[k] == Clearing(side) && m.price > 0
  }

  predicate CanWrite(fw: FineWorld, sid: Sid, k: nat) {
    && fw.status.Running? && sid < |fw.entries| && k < |fw.entries[sid].sections|
    && fw.entries[sid].sections[k].Section? && fw.entries[sid].sections[k].writes != []
  }

  predicate FineEnabled(fw: FineWorld, fs: FineStep) {
    match fs
    case Begin(s) => CanBegin(fw, s)
    case Clear(sid, side) => CanClear(fw, sid, side)
    case Create(sid, k, side, m) => CanCreate(fw, sid, k, side, m)
    case WriteOne(sid, k) => CanWrite(fw, sid, k)
  }

  function ClearEntry(fe: FineEntry, side: Side): FineEntry {
    fe.(raw := Apply(Flag(side, false), fe.raw), sections := fe.sections + [Clearing(side)])
  }

  /** What a decider that has cleared the flag goes on to do: look at the orders, size the request and send it. */
  ghost function Creation(f: Fields, sid: Sid, side: Side, store: Store, v: Venue, m: Market): Outcome
    requires m.price > 0
  {
    if side.Buy? then if f.buyOrders <= store.Keys then CreateBuy(f, sid, store, v, m) else Panics
    else if f.sellOrders <= store.Keys then CreateSell(f, sid, store, v, m) else Panics
  }

  /** The flag is cleared already; the other writes are still to come. */
  function CreateEntry(fe: FineEntry, k: nat, oc: Outcome): FineEntry
    requires k < |fe.sections| && oc.Acts? && oc.writes != []
  {
    fe.(sections := fe.sections[k := Section(Decider, oc.writes[1..], oc.watched, oc.booked)])
  }

  ghost function CreateNext(fw: FineWorld, sid: Sid, k: nat, side: Side, m: Market): FineWorld
    requires CanCreate(fw, sid, k, side, m)
  {
    var fe := fw.entries[sid];
    match Creation(fe.raw, sid, side, fw.store, fw.venue, m)
    case Fails => fw.(status := Failed)
    case Panics => fw.(status := Panicked)
    case Acts(ws, watched, store, venue, booked) =>
      fw.(entries := fw.entries[sid := CreateEntry(fe, k, Acts(ws, watched, store, venue, booked))], store := store, venue := venue)
  }

  function BeginEntry(fe: FineEntry, p: Process, oc: Outcome): FineEntry
    requires oc.Acts?
  {
    if oc.writes == [] then fe.(watchers := fe.watchers + oc.watched)
    else fe.(watchers := fe.watchers - SelfOf(p), sections := fe.sections + [Section(p, oc.writes, oc.watched, oc.booked)])
  }

  ghost function BeginNext(fw: FineWorld, s: Step): FineWorld
    requires CanBegin(fw, s)
  {
    var raw := RawWorld(fw);
    match s
    case Open(buyTotal) => fw.(entries := fw.entries + [FineEntry(NewFields(buyTotal), multiset{}, false, [])])
    case Accepting(rid, oid, first, last) => fw.(venue := Accept(fw.venue, rid, oid, first, last))
    case Refusing(rid, code) => fw.(venue := Refuse(fw.venue, rid, code))
    case Evolving(oid, order) => fw.(venue := Replace(fw.venue, oid, order))
    case Syncing(oid) => fw.(store := fw.store[oid := fw.venue.orders[oid].order])
    case CleaningUp =>
      fw.(entries := seq(|fw.entries|, i requires 0 <= i < |fw.entries| => SweepFine(fw.entries[i])),
          store := fw.store - SweptOrders(raw.entries))
    case Faulting => fw.(status := Failed)
    case _ =>
      match OutcomeOf(raw, s)
      case Fails => fw.(status := Failed)
      case Panics => fw.(status := Panicked)
      case Acts(ws, watched, store, venue, booked) =>
        fw.(entries := fw.entries[s.sid := BeginEntry(fw.entries[s.sid], ProcessOf(s), OutcomeOf(raw, s))],
            store := store, venue := venue, profit := if ws == [] then fw.profit + booked else fw.profit)
  }

  function SweepFine(fe: FineEntry): FineEntry {
    if Swept(RawEntry(fe)) then fe.(removed := true) else fe
  }

  function WriteEntry(fe: FineEntry, k: nat): FineEntry
    requires k < |fe.sections| && fe.sections[k].Section? && fe.sections[k].writes != []
  {
    var sec := fe.sections[k];
    var raw := Apply(sec.writes[0], fe.raw);
    if |sec.writes| == 1
    then fe.(raw := raw, watchers := fe.watchers + sec.watched, sections := fe.sections[..k] + fe.sections[k + 1..])
    else fe.(raw := raw, sections := fe.sections[k := sec.(writes := sec.writes[1..])])
  }

  ghost function FineNext(fw: FineWorld, fs: FineStep): FineWorld
    requires FineEnabled(fw, fs)
  {
    match fs
    case Begin(s) => BeginNext(fw, s)
    case Clear(sid, side) => fw.(entries := fw.entries[sid := ClearEntry(fw.entries[sid], side)])
    case Create(sid, k, side, m) => CreateNext(fw, sid, k, side, m)
    case WriteOne(sid, k) =>
      var fe := fw.entries[sid];
      fw.(entries := fw.entries[sid := WriteEntry(fe, k)],
          profit := if |fe.sections[k].writes| == 1 then fw.profit + fe.sections[k].booked else fw.profit)
  }

  // ----- rolling forward -----

  /** The session once its open sections are finished; a flag cleared for nothing yet counts as set. */
  function Finished(fe: FineEntry): Entry
    decreases |fe.sections|
  {
    if fe.sections == [] then RawEntry(fe) else
      var sec := fe.sections[0];
      if sec.Clearing? then Finished(fe.(raw := Apply(Flag(sec.side, true), fe.raw), sections := fe.sections[1..]))
      else Finished(fe.(raw := ApplyAll(sec.writes, fe.raw), watchers := fe.watchers + sec.watched, sections := fe.sections[1..]))
  }

  function ToBook(sections: seq<Section>): int {
    if sections == [] then 0 else (if sections[0].Section? then sections[0].booked else 0) + ToBook(sections[1..])
  }

  function ToBookAll(entries: seq<FineEntry>): int {
    if entries == [] then 0 else ToBook(entries[0].sections) + ToBookAll(entries[1..])
  }

  function Coarse(fw: FineWorld): World {
    World(seq(|fw.entries|, i requires 0 <= i < |fw.entries| => Finished(fw.entries[i])),
          fw.store, fw.venue, fw.profit + ToBookAll(fw.entries), fw.status)
  }

  // ----- only the last write gives the session away -----

  /** A write that entitles nobody to act. */
  predicate Quiet(w: Write) {
    match w
    case NeedBuy(flag) => !flag
    case NeedSell(flag) => !flag
    case BuyRid(rid) => rid == 0
    case SellRid(rid) => rid == 0
    case BuyDone(_, _) => false
    case SellDone => false
    case BuyCancelled => false
    case SellCancelled => false
    case _ => true
  }

  predicate ReleasesLast(ws: seq<Write>) {
    ws != [] && forall i | 0 <= i < |ws| - 1 :: Quiet(ws[i])
  }

  /** A listener only clears request ids. */
  predicate StoresNoRid(ws: seq<Write>) {
    forall w | w in ws :: (w.BuyRid? || w.SellRid?) ==> w.rid == 0
  }

  /** While a process is in its section, the half-written session entitles nobody else. */
  predicate Locked(fe: FineEntry, p: Process) {
    && fe.watchers == multiset{} && !fe.raw.isDone && !fe.removed
    && (p.Decider? ==> fe.raw.buyRid == 0 && fe.raw.sellRid == 0)
    && (p.Listener? ==> !fe.raw.needBuy && !fe.raw.needSell)
    && (p.Watcher? ==> !fe.raw.needBuy && !fe.raw.needSell && fe.raw.buyRid == 0 && fe.raw.sellRid == 0)
  }

  predicate SectionInv(fe: FineEntry) {
    && |fe.sections| <= 1
    && (fe.sections != [] ==>
          && Locked(fe, fe.sections[0].By())
          && (fe.sections[0].Section? ==> ReleasesLast(fe.sections[0].writes))
          && (fe.sections[0].By().Listener? ==> StoresNoRid(fe.sections[0].writes))
          && (fe.sections[0].Clearing? ==> !fe.raw.needBuy && !fe.raw.needSell))
  }

  ghost predicate FineInv(fw: FineWorld) {
    && WorldInv(Coarse(fw))
    && forall i | 0 <= i < |fw.entries| :: SectionInv(fw.entries[i])
  }

  /** A decider that creates an order clears the flag, and what it writes afterwards releases last. */
  lemma DecideReleasesLast(f: Fields, sid: Sid, side: Side, store: Store, v: Venue, m: Market)
    requires m.price > 0
    ensures var oc := Creation(f, sid, side, store, v, m);
            oc.Acts? ==>
              && oc.writes != [] && oc.writes[0] == Flag(side, false) && ReleasesLast(oc.writes[1..])
              && oc.watched == multiset{} && oc.booked == 0
  {}

  lemma ListenReleasesLast(f: Fields, rid: Rid, store: Store, v: Venue, answer: CancelAnswer)
    requires rid in v.replies && LegalCancel(v, Looked(f, rid), answer)
    requires rid != f.buyRid || rid != f.sellRid
    requires rid == f.buyRid || rid == f.sellRid
    ensures var oc := Listen(f, rid, store, v, answer);
            oc.Acts? && oc.writes != [] ==> ReleasesLast(oc.writes) && StoresNoRid(oc.writes)
  {
    hide BoughtCost, BoughtVolume, SoldCost, LegalCancel, TakeReply, Replace;
  }

  lemma WatchReleasesLast(f: Fields, sid: Sid, oid: Oid, store: Store, v: Venue, verdict: Verdict)
    requires verdict.Withdraw? ==> LegalCancel(v, oid, verdict.answer)
    requires verdict.Reprice? ==> verdict.price > 0
    ensures var oc := Watch(f, sid, oid, store, v, verdict);
            oc.Acts? && oc.writes != [] ==> ReleasesLast(oc.writes)
  {}

  // ----- rolling forward one session -----

  lemma FinishedOne(fe: FineEntry)
    requires |fe.sections| == 1 && fe.sections[0].Section?
    ensures var sec := fe.sections[0];
            Finished(fe) == Entry(ApplyAll(sec.writes, fe.raw), fe.watchers + sec.watched, fe.removed)
    ensures ToBook(fe.sections) == fe.sections[0].booked
  {
    var rest := fe.(raw := ApplyAll(fe.sections[0].writes, fe.raw), watchers := fe.watchers + fe.sections[0].watched, sections := fe.sections[1..]);
    assert fe.sections[1..] == [];
    assert Finished(fe) == Finished(rest) == RawEntry(rest);
  }

  lemma FinishedClearing(fe: FineEntry)
    requires |fe.sections| == 1 && fe.sections[0].Clearing?
    ensures Finished(fe) == Entry(Apply(Flag(fe.sections[0].side, true), fe.raw), fe.watchers, fe.removed)
    ensures ToBook(fe.sections) == 0
  {
    var rest := fe.(raw := Apply(Flag(fe.sections[0].side, true), fe.raw), sections := fe.sections[1..]);
    assert fe.sections[1..] == [];
    assert Finished(fe) == Finished(rest) == RawEntry(rest);
  }

  /** A write of an open section changes neither the session it will become nor, together with
      what it books, what will be booked; and the session stays locked until the last one. */
  lemma WriteRollsForward(fe: FineEntry, k: nat)
    requires SectionInv(fe) && k < |fe.sections| && fe.sections[k].Section? && fe.sections[k].writes != []
    ensures k == 0 && Finished(WriteEntry(fe, k)) == Finished(fe) && SectionInv(WriteEntry(fe, k))
    ensures ToBook(fe.sections)
            == ToBook(WriteEntry(fe, k).sections) + (if |fe.sections[k].writes| == 1 then fe.sections[k].booked else 0)
  {
    var sec := fe.sections[0];
    var fe' := WriteEntry(fe, 0);
    FinishedOne(fe);
    if |sec.writes| == 1 {
      assert sec.writes[1..] == [] && fe'.sections == [];
      assert ApplyAll(sec.writes, fe.raw) == Apply(sec.writes[0], fe.raw);
    } else {
      assert Quiet(sec.writes[0]);
      forall i | 0 <= i < |sec.writes[1..]| - 1 ensures Quiet(sec.writes[1..][i]) {
        assert sec.writes[1..][i] == sec.writes[i + 1];
      }
      FinishedOne(fe');
    }
  }

  lemma {:induction false} ToBookAllUpdate(entries: seq<FineEntry>, i: nat, fe': FineEntry)
    requires i < |entries|
    ensures ToBookAll(entries[i := fe']) == ToBookAll(entries) - ToBook(entries[i].sections) + ToBook(fe'.sections)
  {
    if i == 0 {
      assert entries[0 := fe'][1..] == entries[1..];
    } else {
      assert entries[i := fe'][1..] == entries[1..][i - 1 := fe'];
      ToBookAllUpdate(entries[1..], i - 1, fe');
    }
  }

  lemma {:induction false} ToBookAllAppend(entries: seq<FineEntry>, fe: FineEntry)
    ensures ToBookAll(entries + [fe]) == ToBookAll(entries) + ToBook(fe.sections)
  {
    if entries == [] {
      assert (entries + [fe])[1..] == [];
    } else {
      assert (entries + [fe])[1..] == entries[1..] + [fe];
      ToBookAllAppend(entries[1..], fe);
    }
  }

  /** Replacing one session rolls forward to replacing one session. */
  lemma CoarseUpdate(fw: FineWorld, sid: Sid, fe': FineEntry, store: Store, venue: Venue, profit: int)
    requires sid < |fw.entries|
    ensures var c := Coarse(fw.(entries := fw.entries[sid := fe'], store := store, venue := venue, profit := profit));
            && c.entries == Coarse(fw).entries[sid := Finished(fe')]
            && c.store == store && c.venue == venue && c.status == fw.status
            && c.profit == Coarse(fw).profit - fw.profit + profit - ToBook(fw.entries[sid].sections) + ToBook(fe'.sections)
  {
    ToBookAllUpdate(fw.entries, sid, fe');
  }

  // ----- opening a section -----

  /** With no section open the raw session is the rolled-forward one. */
  lemma EnabledTransfers(fw: FineWorld, s: Step)
    requires Enabled(RawWorld(fw), s) && BySession(s) && fw.entries[s.sid].sections == []
    ensures Enabled(Coarse(fw), s) && OutcomeOf(Coarse(fw), s) == OutcomeOf(RawWorld(fw), s)
  {
    assert Coarse(fw).entries[s.sid] == RawWorld(fw).entries[s.sid];
  }

  /** Whoever begins to write owns the session, so nobody else does. */
  lemma BeginLocks(fw: FineWorld, s: Step)
    requires FineInv(fw) && CanBegin(fw, s) && BySession(s) && fw.entries[s.sid].sections == []
    ensures var oc := OutcomeOf(RawWorld(fw), s);
            oc.Acts? ==> SectionInv(BeginEntry(fw.entries[s.sid], ProcessOf(s), oc))
  {
    hide WorldInv, Decide, Listen, Watch, LegalCancel, Delivered;
    var c := Coarse(fw);
    var fe := fw.entries[s.sid];
    EnabledTransfers(fw, s);
    assert c.entries[s.sid] == RawEntry(fe);
    OwnedOnce(c, s.sid);
    match s
    case Deciding(sid, m) => DecideStandsBy(fe.raw, sid, fw.store, fw.venue, m);
    case Listening(sid, rid, answer) => ListenReleasesLast(fe.raw, rid, fw.store, fw.venue, answer);
    case Watching(sid, oid, verdict) => WatchReleasesLast(fe.raw, sid, oid, fw.store, fw.venue, verdict);
  }

  /** With both guards closed the decider writes nothing. */
  lemma DecideStandsBy(f: Fields, sid: Sid, store: Store, v: Venue, m: Market)
    requires !m.buyOpen && !m.sellOpen
    ensures Decide(f, sid, store, v, m) in {Idle(store, v), Panics}
  {}

  lemma OwnedOnce(w: World, sid: Sid)
    requires WorldInv(w) && Managed(w, sid)
    ensures OwnerCount(w.entries[sid]) == 1
    ensures forall o | o in w.entries[sid].watchers :: w.entries[sid].watchers == multiset{o}
    ensures 0 !in w.venue.replies
  {
    hide EntryInv;
    OneOwner(w.entries[sid], sid, w.store, w.venue);
  }

  // ----- every fine step is a coarse step or none -----

  /** The fine step `fs` looks from afar like nothing, or like the coarse step that it begins. */
  ghost predicate Simulated(fw: FineWorld, fs: FineStep)
    requires FineEnabled(fw, fs)
  {
    var (c, c') := (Coarse(fw), Coarse(FineNext(fw, fs)));
    c' == c || ((fs.Begin? || fs.Create?) && Enabled(c, Begun(fs)) && c' == Next(c, Begun(fs)))
  }

  /** The coarse step of an activation: where it begins, or for an order the decider creates, where it sends. */
  function Begun(fs: FineStep): Step
    requires fs.Begin? || fs.Create?
  {
    match fs
    case Begin(s) => s
    case Create(sid, _, side, m) =>
      Deciding(sid, m.(buyOpen := side.Buy?, sellOpen := side.Sell?, looks := Looks(false, false)))
  }

  /** A process finds a session that another one is writing to closed. */
  lemma LockedOut(fw: FineWorld, s: Step)
    requires FineInv(fw) && CanBegin(fw, s) && BySession(s) && fw.entries[s.sid].sections != []
    ensures s.Deciding? && BeginNext(fw, s) == fw
  {
    hide WorldInv;
    var fe := fw.entries[s.sid];
    assert fe.sections[0].By() != ProcessOf(s);
    assert 0 !in fw.venue.replies by { RepliesNumbered(Coarse(fw)); }
    assert s.Deciding?;
    assert OutcomeOf(RawWorld(fw), s) == Idle(fw.store, fw.venue);
    assert BeginEntry(fe, Decider, OutcomeOf(RawWorld(fw), s)) == fe;
    assert fw.entries[s.sid := fe] == fw.entries;
  }

  lemma RepliesNumbered(w: World)
    requires WorldInv(w)
    ensures 0 !in w.venue.replies
  {
    hide EntryInv;
  }

  lemma NextLands(w: World, s: Step)
    requires Enabled(w, s) && BySession(s)
    ensures s.sid < |w.entries| && Next(w, s) == Land(w, s.sid, SelfOf(ProcessOf(s)), OutcomeOf(w, s))
  {
    hide Decide, Listen, Watch, Delivered, LegalCancel;
  }

  /** The fine world after an activation has begun. */
  lemma BeginLands(fw: FineWorld, s: Step)
    requires CanBegin(fw, s) && BySession(s)
    ensures s.sid < |fw.entries|
    ensures var oc := OutcomeOf(RawWorld(fw), s);
            BeginNext(fw, s) ==
              match oc
              case Fails => fw.(status := Failed)
              case Panics => fw.(status := Panicked)
              case Acts(ws, _, store, venue, booked) =>
                fw.(entries := fw.entries[s.sid := BeginEntry(fw.entries[s.sid], ProcessOf(s), oc)],
                    store := store, venue := venue, profit := if ws == [] then fw.profit + booked else fw.profit)
  {
    hide Decide, Listen, Watch, Delivered, LegalCancel;
  }

  lemma BegunEntry(fe: FineEntry, p: Process, oc: Outcome)
    requires fe.sections == [] && oc.Acts?
    ensures Finished(BeginEntry(fe, p, oc)) == After(RawEntry(fe), SelfOf(p), oc)
    ensures ToBook(BeginEntry(fe, p, oc).sections) == if oc.writes == [] then 0 else oc.booked
  {
    var fe' := BeginEntry(fe, p, oc);
    if oc.writes != [] {
      FinishedOne(fe');
    }
  }

  /** An activation that finds its session free is the coarse activation. */
  lemma BeginSimulates(fw: FineWorld, s: Step)
    requires FineInv(fw) && CanBegin(fw, s) && BySession(s) && s.sid < |fw.entries| && fw.entries[s.sid].sections == []
    ensures Enabled(Coarse(fw), s) && Coarse(BeginNext(fw, s)) == Next(Coarse(fw), s)
    ensures |BeginNext(fw, s).entries| == |fw.entries|
    ensures forall i | 0 <= i < |fw.entries| :: SectionInv(BeginNext(fw, s).entries[i])
  {
    hide WorldInv, OutcomeOf, Enabled, Next, BeginNext, SectionInv, BeginEntry, After;
    EnabledTransfers(fw, s);
    NextLands(Coarse(fw), s);
    BeginLands(fw, s);
    BeginLocks(fw, s);
    var oc := OutcomeOf(RawWorld(fw), s);
    if oc.Acts? {
      var fe' := BeginEntry(fw.entries[s.sid], ProcessOf(s), oc);
      var profit := if oc.writes == [] then fw.profit + oc.booked else fw.profit;
      BegunEntry(fw.entries[s.sid], ProcessOf(s), oc);
      CoarseUpdate(fw, s.sid, fe', oc.store, oc.venue, profit);
      LandsAfter(Coarse(fw), s.sid, SelfOf(ProcessOf(s)), oc);
    }
  }

  lemma LandsAfter(w: World, sid: Sid, self: multiset<Oid>, oc: Outcome)
    requires sid < |w.entries| && oc.Acts?
    ensures Land(w, sid, self, oc)
            == World(w.entries[sid := After(w.entries[sid], self, oc)], oc.store, oc.venue, w.profit + oc.booked, w.status)
  {}

  lemma ActivationSimulates(fw: FineWorld, s: Step)
    requires FineInv(fw) && CanBegin(fw, s) && BySession(s)
    ensures Simulated(fw, Begin(s))
    ensures |BeginNext(fw, s).entries| == |fw.entries|
    ensures forall i | 0 <= i < |fw.entries| :: SectionInv(BeginNext(fw, s).entries[i])
  {
    hide WorldInv, Enabled, Next, BeginNext, Coarse, OutcomeOf, SectionInv;
    BeginLands(fw, s);
    if fw.entries[s.sid].sections == [] { BeginSimulates(fw, s); } else { LockedOut(fw, s); }
  }

  lemma OpenSimulates(fw: FineWorld, buyTotal: real)
    requires FineInv(fw) && CanBegin(fw, SpreadProtocol.Open(buyTotal))
    ensures Simulated(fw, Begin(SpreadProtocol.Open(buyTotal)))
  {
    hide WorldInv, Decide, Listen, Watch, Accept, Refuse, OutcomeOf;
    var fe := FineEntry(NewFields(buyTotal), multiset{}, false, []);
    ToBookAllAppend(fw.entries, fe);
    assert Finished(fe) == RawEntry(fe);
    assert Coarse(fw.(entries := fw.entries + [fe])).entries == Coarse(fw).entries + [RawEntry(fe)];
  }

  // ----- cleaning up -----

  lemma {:induction false} StaysUnmarked(ws: seq<Write>, f: Fields)
    requires SellDone !in ws
    ensures ApplyAll(ws, f).isDone == f.isDone
    decreases |ws|
  {
    if ws != [] { StaysUnmarked(ws[1..], Apply(ws[0], f)); }
  }

  /** While no session is being marked done, the clean-up sees exactly the sessions that are. */
  lemma SweepSeesTheDone(fe: FineEntry)
    requires SectionInv(fe) && Unmarked(fe)
    ensures Swept(RawEntry(fe)) <==> Swept(Finished(fe))
    ensures Swept(RawEntry(fe)) ==> fe.sections == [] && Finished(fe) == RawEntry(fe)
    ensures Finished(SweepFine(fe)) == SweepEntry(Finished(fe)) && SweepFine(fe).sections == fe.sections
    ensures SectionInv(SweepFine(fe))
  {
    if fe.sections != [] && fe.sections[0].Clearing? {
      FinishedClearing(fe);
    } else if fe.sections != [] {
      FinishedOne(fe);
      StaysUnmarked(fe.sections[0].writes, fe.raw);
    }
  }

  lemma {:induction false} SameSweep(a: seq<Entry>, b: seq<Entry>)
    requires |a| == |b|
    requires forall i | 0 <= i < |a| :: (Swept(a[i]) <==> Swept(b[i])) && (Swept(a[i]) ==> a[i] == b[i])
    ensures SweptOrders(a) == SweptOrders(b)
  {
    if a != [] { 
      assert (Swept(a[0]) <==> Swept(b[0])) && (Swept(a[0]) ==> a[0] == b[0]);
      SameSweep(a[1..], b[1..]); 
    }
  }

  lemma {:induction false} SameToBook(a: seq<FineEntry>, b: seq<FineEntry>)
    requires |a| == |b| && forall i | 0 <= i < |a| :: a[i].sections == b[i].sections
    ensures ToBookAll(a) == ToBookAll(b)
  {
    if a != [] { SameToBook(a[1..], b[1..]); }
  }

  lemma CleaningSimulates(fw: FineWorld)
    requires FineInv(fw) && CanBegin(fw, CleaningUp)
    ensures Simulated(fw, Begin(CleaningUp))
    ensures forall i | 0 <= i < |fw.entries| :: SectionInv(BeginNext(fw, CleaningUp).entries[i])
    ensures |BeginNext(fw, CleaningUp).entries| == |fw.entries|
  {
    hide WorldInv, Swept, SectionInv, Unmarked;
    var (c, fw') := (Coarse(fw), BeginNext(fw, CleaningUp));
    forall i | 0 <= i < |fw.entries|
      ensures (Swept(RawWorld(fw).entries[i]) <==> Swept(c.entries[i])) && (Swept(RawWorld(fw).entries[i]) ==> RawWorld(fw).entries[i] == c.entries[i])
      ensures Coarse(fw').entries[i] == SweepEntry(c.entries[i]) && fw'.entries[i].sections == fw.entries[i].sections
      ensures SectionInv(fw'.entries[i])
    {
      SweepSeesTheDone(fw.entries[i]);
    }
    SameSweep(RawWorld(fw).entries, c.entries);
    SameToBook(fw.entries, fw'.entries);
    assert Coarse(fw').entries == Sweep(c.entries);
  }

  // ----- clearing a flag and creating an order -----

  /** A set flag means that nobody writes to the session, and that its flag is the only one. */
  lemma ClearFindsFree(fw: FineWorld, sid: Sid, side: Side)
    requires FineInv(fw) && CanClear(fw, sid, side)
    ensures var fe := fw.entries[sid];
            && fe.sections == [] && fe.watchers == multiset{} && fe.raw.buyRid == 0 && fe.raw.sellRid == 0
            && !Needed(fe.raw, if side.Buy? then Sell else Buy)
  {
    hide WorldInv;
    var fe := fw.entries[sid];
    if fe.sections != [] {
      assert false;
    }
    assert Coarse(fw).entries[sid] == RawEntry(fe);
    OwnedOnce(Coarse(fw), sid);
  }

  /** Clearing the flag changes nothing from afar, and nobody else may act any more. */
  lemma ClearSimulates(fw: FineWorld, sid: Sid, side: Side)
    requires FineInv(fw) && CanClear(fw, sid, side)
    ensures Coarse(FineNext(fw, Clear(sid, side))) == Coarse(fw)
    ensures forall i | 0 <= i < |fw.entries| :: SectionInv(FineNext(fw, Clear(sid, side)).entries[i])
  {
    hide WorldInv;
    var fe := fw.entries[sid];
    var fe' := ClearEntry(fe, side);
    ClearFindsFree(fw, sid, side);
    FinishedClearing(fe');
    assert Finished(fe') == RawEntry(fe) == Finished(fe);
    CoarseUpdate(fw, sid, fe', fw.store, fw.venue, fw.profit);
    assert Coarse(fw).entries[sid := Finished(fe')] == Coarse(fw).entries;
  }

  /** With the flag set back, creating an order is a whole round of the decider. */
  lemma CreationIsDeciding(w: World, sid: Sid, side: Side, f: Fields, m: Market)
    requires WorldInv(w) && Managed(w, sid) && m.price > 0
    requires w.entries[sid].fields == Apply(Flag(side, true), f) && !f.isDone && !f.needBuy && !f.needSell
    ensures Decide(w.entries[sid].fields, sid, w.store, w.venue, Begun(Create(sid, 0, side, m)).market)
            == Creation(f, sid, side, w.store, w.venue, m)
    ensures Creation(f, sid, side, w.store, w.venue, m).Acts?
  {
    hide WorldInv;
    FlagSettles(w, sid);
  }

  lemma CreatedEntry(fe: FineEntry, side: Side, oc: Outcome)
    requires SectionInv(fe) && fe.sections == [Clearing(side)]
    requires oc.Acts? && oc.writes != [] && oc.writes[0] == Flag(side, false) && ReleasesLast(oc.writes[1..])
    ensures Finished(CreateEntry(fe, 0, oc)) == After(Finished(fe), multiset{}, oc)
    ensures ToBook(CreateEntry(fe, 0, oc).sections) == oc.booked && ToBook(fe.sections) == 0
    ensures SectionInv(CreateEntry(fe, 0, oc))
  {
    FinishedClearing(fe);
    FinishedOne(CreateEntry(fe, 0, oc));
    var f := Apply(Flag(side, true), fe.raw);
    assert Apply(oc.writes[0], f) == fe.raw;
    assert ApplyAll(oc.writes, f) == ApplyAll(oc.writes[1..], fe.raw);
  }

  /** Sizing and sending after the flag was cleared is the coarse round at the moment of sending. */
  lemma CreateSimulates(fw: FineWorld, sid: Sid, k: nat, side: Side, m: Market)
    requires FineInv(fw) && CanCreate(fw, sid, k, side, m)
    ensures Simulated(fw, Create(sid, k, side, m))
    ensures |CreateNext(fw, sid, k, side, m).entries| == |fw.entries|
    ensures forall i | 0 <= i < |fw.entries| :: SectionInv(CreateNext(fw, sid, k, side, m).entries[i])
  {
    hide WorldInv, SectionInv, Creation, CreateEntry, Decide, Finished;
    var (c, fe, s) := (Coarse(fw), fw.entries[sid], Begun(Create(sid, k, side, m)));
    var oc := Creation(fe.raw, sid, side, fw.store, fw.venue, m);
    ClearedFields(fe, side, k);
    CreationIsDeciding(c, sid, side, fe.raw, m);
    DecideReleasesLast(fe.raw, sid, side, fw.store, fw.venue, m);
    CreatedEntry(fe, side, oc);
    CoarseUpdate(fw, sid, CreateEntry(fe, 0, oc), oc.store, oc.venue, fw.profit);
    LandsAfter(c, sid, multiset{}, oc);
    NextLands(c, s);
  }

  lemma ClearedFields(fe: FineEntry, side: Side, k: nat)
    requires SectionInv(fe) && k < |fe.sections| && fe.sections[k] == Clearing(side)
    ensures k == 0 && fe.sections == [Clearing(side)]
    ensures !fe.raw.isDone && !fe.raw.needBuy && !fe.raw.needSell && !fe.removed
    ensures Finished(fe).fields == Apply(Flag(side, true), fe.raw) && !Finished(fe).removed && !Finished(fe).fields.isDone
  {
    FinishedClearing(fe);
  }

  // ----- writing -----

  lemma WriteSimulates(fw: FineWorld, sid: Sid, k: nat)
    requires FineInv(fw) && FineEnabled(fw, WriteOne(sid, k))
    ensures Coarse(FineNext(fw, WriteOne(sid, k))) == Coarse(fw)
    ensures forall i | 0 <= i < |fw.entries| :: SectionInv(FineNext(fw, WriteOne(sid, k)).entries[i])
  {
    hide WorldInv, SectionInv;
    var fe := fw.entries[sid];
    var fe' := WriteEntry(fe, k);
    WriteRollsForward(fe, k);
    var profit := if |fe.sections[k].writes| == 1 then fw.profit + fe.sections[k].booked else fw.profit;
    CoarseUpdate(fw, sid, fe', fw.store, fw.venue, profit);
    assert Coarse(fw).entries[sid := Finished(fe')] == Coarse(fw).entries;
  }

  /** What the exchange does looks the same from afar. */
  lemma EnvironmentSimulates(fw: FineWorld, s: Step)
    requires CanBegin(fw, s) && !BySession(s) && !s.Open? && !s.CleaningUp?
    ensures Simulated(fw, Begin(s)) && BeginNext(fw, s).entries == fw.entries
  {
    hide Accept, Refuse, CanAccept;
  }

  lemma SimulatedInv(fw: FineWorld, fs: FineStep)
    requires WorldInv(Coarse(fw)) && FineEnabled(fw, fs) && Simulated(fw, fs)
    ensures WorldInv(Coarse(FineNext(fw, fs)))
  {
    hide WorldInv, Enabled, Next, Coarse;
    if Coarse(FineNext(fw, fs)) != Coarse(fw) {
      NextKeeps(Coarse(fw), Begun(fs));
    }
  }

  /** Every fine step looks like one coarse step or none, and keeps at most one section open. */
  lemma StepSimulates(fw: FineWorld, fs: FineStep)
    requires FineInv(fw) && FineEnabled(fw, fs)
    ensures Simulated(fw, fs) && FineInv(FineNext(fw, fs))
  {
    hide WorldInv, Enabled, Next, Coarse, Simulated, Finished, OutcomeOf;
    match fs {
      case WriteOne(sid, k) =>
        WriteSimulates(fw, sid, k);
        assert Simulated(fw, fs) by { StutterSimulates(fw, fs); }
      case Clear(sid, side) =>
        ClearSimulates(fw, sid, side);
        assert Simulated(fw, fs) by { StutterSimulates(fw, fs); }
      case Create(sid, k, side, m) =>
        CreateSimulates(fw, sid, k, side, m);
      case Begin(s) =>
        if BySession(s) { ActivationSimulates(fw, s); }
        else if s.Open? { OpenSimulates(fw, s.buyTotal); }
        else if s.CleaningUp? { CleaningSimulates(fw); }
        else { EnvironmentSimulates(fw, s); }
    }
    SimulatedInv(fw, fs);
  }

  lemma StutterSimulates(fw: FineWorld, fs: FineStep)
    requires FineEnabled(fw, fs) && Coarse(FineNext(fw, fs)) == Coarse(fw)
    ensures Simulated(fw, fs)
  {}

  // ----- fine runs -----

  function InitialFine(): FineWorld { FineWorld([], map[], InitialVenue(), 0, Running) }

  ghost predicate FineLegal(fw: FineWorld, run: seq<FineStep>)
    decreases |run|
  {
    run == [] || (FineEnabled(fw, run[0]) && FineLegal(FineNext(fw, run[0]), run[1..]))
  }

  ghost function FineRun(fw: FineWorld, run: seq<FineStep>): FineWorld
    requires FineLegal(fw, run)
    decreases |run|
  {
    if run == [] then fw else FineRun(FineNext(fw, run[0]), run[1..])
  }

  /** A run of whole activations ends where `run` does once its open sections are finished. */
  ghost predicate Atomic(run: seq<FineStep>)
    requires FineLegal(InitialFine(), run)
  {
    exists coarse ::
      Legal(InitialWorld(), coarse) && Reached(coarse) == Coarse(FineRun(InitialFine(), run))
  }

  /** However the setters of all processes interleave, at most one of decider, listener and watchers is
      writing to a session or has cleared its flag, and the run is a run of whole activations. */
  lemma FineRunsAreAtomic(run: seq<FineStep>)
    requires FineLegal(InitialFine(), run)
    ensures Atomic(run)
    ensures forall i | 0 <= i < |FineRun(InitialFine(), run).entries| ::
              |FineRun(InitialFine(), run).entries[i].sections| <= 1
  {
    hide WorldInv;
    InitialInv();
    assert Coarse(InitialFine()) == InitialWorld();
    var coarse := FollowRun(InitialFine(), run, []);
  }

  lemma {:induction false} FollowRun(fw: FineWorld, run: seq<FineStep>, done: seq<Step>) returns (coarse: seq<Step>)
    requires FineInv(fw) && FineLegal(fw, run)
    requires Legal(InitialWorld(), done) && Reached(done) == Coarse(fw)
    ensures Legal(InitialWorld(), coarse) && Reached(coarse) == Coarse(FineRun(fw, run)) && FineInv(FineRun(fw, run))
    decreases |run|
  {
    hide FineInv, FineEnabled, FineNext, Coarse, Enabled, Next;
    coarse := done;
    if run != [] {
      StepSimulates(fw, run[0]);
      if Coarse(FineNext(fw, run[0])) != Coarse(fw) {
        RunAppend(InitialWorld(), done, Begun(run[0]));
        coarse := done + [Begun(run[0])];
      }
      coarse := FollowRun(FineNext(fw, run[0]), run[1..], coarse);
    }
  }

  /** Even between two setters no process ever runs into a missing order. */
  lemma FineNeverPanics(run: seq<FineStep>)
    requires FineLegal(InitialFine(), run)
    ensures !FineRun(InitialFine(), run).status.Panicked?
  {
    hide Legal, Reached;
    FineRunsAreAtomic(run);
    var coarse :| Legal(InitialWorld(), coarse) && Reached(coarse) == Coarse(FineRun(InitialFine(), run));
    NeverPanics(coarse);
  }

  // ----- reading early -----

  /** Until the decider sends, the session it has cleared stays as it is. */
  lemma HoldsStill(fw: FineWorld, fs: FineStep, sid: Sid, side: Side)
    requires FineInv(fw) && FineEnabled(fw, fs) && sid < |fw.entries| && fw.entries[sid].sections == [Clearing(side)]
    requires !(fs.Create? && fs.sid == sid)
    ensures sid < |FineNext(fw, fs).entries| && FineNext(fw, fs).entries[sid] == fw.entries[sid]
  {
    hide WorldInv, OutcomeOf, Creation, Accept, Refuse, CanAccept, Decide, Listen, Watch, LegalCancel, Delivered;
    if fs.Begin? && BySession(fs.step) {
      BeginLands(fw, fs.step);
      if fs.step.sid == sid { LockedOut(fw, fs.step); }
    } else if fs.Clear? && fs.sid == sid {
      ClearFindsFree(fw, sid, fs.side);
    }
  }

  /** A side that needs an order has all its orders final in the store and no request out. */
  lemma NeededFacts(w: World, sid: Sid, side: Side)
    requires WorldInv(w) && Managed(w, sid) && Needed(w.entries[sid].fields, side)
    ensures Settled(OrdersOn(w.entries[sid], side), w.store) && OrdersOn(w.entries[sid], side) <= w.store.Keys
    ensures forall r | r in w.venue.pending :: !From(w.venue.pending[r], sid, side)
  {
    hide Mirrors, Attributed, AllKnown, Ledger, Solvent;
    var e := w.entries[sid];
    assert EntryInv(e, sid, w.store, w.venue);
    assert LaneOn(e, side).rid == 0;
  }

  /** The sums that size an order, as read from the store. */
  ghost predicate SameSums(e: Entry, side: Side, store: Store, store': Store)
    requires OrdersOn(e, side) <= store.Keys && OrdersOn(e, side) <= store'.Keys
  {
    && Total(OrdersOn(e, side), Costs(store')) == Total(OrdersOn(e, side), Costs(store))
    && Total(OrdersOn(e, side), Fills(store')) == Total(OrdersOn(e, side), Fills(store))
  }

  lemma NeededSumsStay(w: World, s: Step, sid: Sid, side: Side)
    requires WorldInv(w) && Enabled(w, s) && Managed(w, sid) && Needed(w.entries[sid].fields, side)
    requires Next(w, s).status.Running? && Managed(Next(w, s), sid) && Next(w, s).entries[sid] == w.entries[sid]
    ensures OrdersOn(w.entries[sid], side) <= w.store.Keys && OrdersOn(w.entries[sid], side) <= Next(w, s).store.Keys
    ensures SameSums(w.entries[sid], side, w.store, Next(w, s).store)
  {
    hide WorldInv, Next, Enabled;
    NeededFacts(w, sid, side);
    NextKeeps(w, s);
    NeededFacts(Next(w, s), sid, side);
    NextKeepsFinal(w, s, sid, side);
    SumsFollow(OrdersOn(w.entries[sid], side), w.store, Next(w, s).store);
  }

  ghost predicate Cleared(fw: FineWorld, sid: Sid, side: Side) {
    FineInv(fw) && fw.status.Running? && sid < |fw.entries| && fw.entries[sid].sections == [Clearing(side)]
  }

  /** From afar a cleared session is managed and still needs its order. */
  lemma ClearedIsNeeded(fw: FineWorld, sid: Sid, side: Side)
    requires Cleared(fw, sid, side)
    ensures Managed(Coarse(fw), sid) && Needed(Coarse(fw).entries[sid].fields, side)
    ensures OrdersOn(Coarse(fw).entries[sid], side) == OrdersOn(RawEntry(fw.entries[sid]), side)
  {
    hide WorldInv;
    ClearedFields(fw.entries[sid], side, 0);
  }

  /** Between clearing the flag and sending, the decider reads the same sums at whatever moment it does. */
  lemma {:induction false} ReadingCommutes(fw: FineWorld, run: seq<FineStep>, sid: Sid, side: Side)
    requires Cleared(fw, sid, side) && FineLegal(fw, run) && FineRun(fw, run).status.Running?
    requires forall i | 0 <= i < |run| :: !(run[i].Create? && run[i].sid == sid)
    ensures var (fw', e) := (FineRun(fw, run), RawEntry(fw.entries[sid]));
            && sid < |fw'.entries| && fw'.entries[sid] == fw.entries[sid]
            && OrdersOn(e, side) <= fw.store.Keys && OrdersOn(e, side) <= fw'.store.Keys
            && SameSums(e, side, fw.store, fw'.store)
    decreases |run|
  {
    hide FineInv, FineEnabled, FineNext, Enabled, Next, Coarse, Simulated, Needed;
    ClearedIsNeeded(fw, sid, side);
    if run == [] {
      Coarsely(fw);
      NeededFacts(Coarse(fw), sid, side);
    } else {
      var fw1 := FineNext(fw, run[0]);
      StillRuns(fw1, run[1..]);
      HoldsStill(fw, run[0], sid, side);
      StepSimulates(fw, run[0]);
      ReadingCommutes(fw1, run[1..], sid, side);
      SumsStay(fw, run[0], sid, side);
    }
  }

  lemma Coarsely(fw: FineWorld)
    requires FineInv(fw)
    ensures WorldInv(Coarse(fw)) && Coarse(fw).store == fw.store && Coarse(fw).status == fw.status
  {
    hide WorldInv;
  }

  lemma StillRuns(fw: FineWorld, run: seq<FineStep>)
    requires FineLegal(fw, run) && FineRun(fw, run).status.Running?
    ensures fw.status.Running?
  {
    if run != [] { assert FineEnabled(fw, run[0]); }
  }

  lemma SumsStay(fw: FineWorld, fs: FineStep, sid: Sid, side: Side)
    requires Cleared(fw, sid, side) && FineEnabled(fw, fs) && Simulated(fw, fs) && Cleared(FineNext(fw, fs), sid, side)
    requires FineNext(fw, fs).entries[sid] == fw.entries[sid]
    ensures var (fw', e) := (FineNext(fw, fs), RawEntry(fw.entries[sid]));
            && OrdersOn(e, side) <= fw.store.Keys && OrdersOn(e, side) <= fw'.store.Keys
            && SameSums(e, side, fw.store, fw'.store)
  {
    hide WorldInv, FineNext, FineEnabled, Next, Enabled, Finished, Needed;
    var (c, fw') := (Coarse(fw), FineNext(fw, fs));
    ClearedIsNeeded(fw, sid, side);
    ClearedIsNeeded(fw', sid, side);
    NeededFacts(c, sid, side);
    assert Coarse(fw').entries[sid] == c.entries[sid];
    if Coarse(fw') != c {
      NeededSumsStay(c, Begun(fs), sid, side);
    }
  }
}
