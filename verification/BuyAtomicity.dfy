/**
 The buy strategy with every locked setter as a step of its own, in the manner of SpreadAtomicity: no
 two of a session's processes are ever writing to it, and every fine run is a run of whole activations.
 */
module BuyAtomicity {
  import opened Exchange
  import Lanes
  import opened BuySession
  import opened BuyProtocol
  import opened BuyInvariant
  import opened BuyTheorems
  import P = SpreadProtocol

  datatype Process = Decider | Listener | Watcher(oid: Oid)

  /** The rest of an activation, or a decider that has cleared the flag and has sent nothing yet. */
  datatype Section =
    | Section(process: Process, writes: seq<Write>, watched: multiset<Oid>, cost: int, volume: int)
    | Clearing
  {
    function By(): Process { if Clearing? then Decider else process }
  }

  datatype FineEntry = FineEntry(raw: Fields, watchers: multiset<Oid>, sections: seq<Section>)

  datatype FineWorld =
    FineWorld(entries: seq<FineEntry>, store: Store, venue: Venue, boughtCost: int, boughtVolume: int, status: P.Status)

  datatype FineStep = Begin(step: Step) | Clear(sid: Sid) | Create(sid: Sid, k: nat, market: P.Market) | WriteOne(sid: Sid, k: nat)

  function RawEntry(fe: FineEntry): Entry { Entry(fe.raw, fe.watchers) }

  function RawWorld(fw: FineWorld): World {
    World(seq(|fw.entries|, i requires 0 <= i < |fw.entries| => RawEntry(fw.entries[i])),
          fw.store, fw.venue, fw.boughtCost, fw.boughtVolume, fw.status)
  }

  predicate BySession(s: Step) { s.Deciding? || s.Listening? || s.Watching? }

  function ProcessOf(s: Step): Process
    requires BySession(s)
  {
    match s
    case Deciding(_, _) => Decider
    case Listening(_, _, _) => Listener
    case Watching(_, oid, _) => Watcher(oid)
  }

  function SelfOf(p: Process): multiset<Oid> {
    if p.Watcher? then multiset{p.oid} else multiset{}
  }

  ghost function OutcomeOf(w: World, s: Step): Outcome
    requires BySession(s) && Enabled(w, s)
  {
    match s
    case Deciding(sid, m) => Decide(w.entries[sid].fields, sid, w.store, w.venue, m)
    case Listening(sid, rid, answer) => Listen(w.entries[sid].fields, rid, w.store, w.venue, answer)
    case Watching(sid, oid, verdict) => Watch(w.entries[sid].fields, sid, oid, w.store, w.venue, verdict)
  }

  predicate Engaged(fe: FineEntry, p: Process) {
    exists k :: 0 <= k < |fe.sections| && fe.sections[k].By() == p
  }

  predicate CanBegin(fw: FineWorld, s: Step) {
    && Enabled(RawWorld(fw), s)
    && (BySession(s) ==> !Engaged(fw.entries[s.sid], ProcessOf(s)))
    && (s.Deciding? ==> !s.market.buyOpen)
  }

  predicate CanClear(fw: FineWorld, sid: Sid) {
    && fw.status.Running? && sid < |fw.entries|
    && !fw.entries[sid].raw.isDone && !Engaged(fw.entries[sid], Decider) && fw.entries[sid].raw.need
  }

  predicate CanCreate(fw: FineWorld, sid: Sid, k: nat, m: P.Market) {
    && fw.status.Running? && sid < |fw.entries| && k < |fw.entries[sid].sections|
    && fw.entries[sid].sections[k].Clearing? && m.price > 0
  }

  predicate CanWrite(fw: FineWorld, sid: Sid, k: nat) {
    && fw.status.Running? && sid < |fw.entries| && k < |fw.entries[sid].sections|
    && fw.entries[sid].sections[k].Section? && fw.entries[sid].sections[k].writes != []
  }

  predicate FineEnabled(fw: FineWorld, fs: FineStep) {
    match fs
    case Begin(s) => CanBegin(fw, s)
    case Clear(sid) => CanClear(fw, sid)
    case Create(sid, k, m) => CanCreate(fw, sid, k, m)
    case WriteOne(sid, k) => CanWrite(fw, sid, k)
  }

  function SectionOf(p: Process, ws: seq<Write>, oc: Outcome): Section
    requires oc.Acts?
  {
    Section(p, ws, oc.watched, oc.cost, oc.volume)
  }

  function BeginEntry(fe: FineEntry, p: Process, oc: Outcome): FineEntry
    requires oc.Acts?
  {
    if oc.writes == [] then fe.(watchers := fe.watchers + oc.watched)
    else fe.(watchers := fe.watchers - SelfOf(p), sections := fe.sections + [SectionOf(p, oc.writes, oc)])
  }

  /** An activation that writes nothing books at once; any other books with its last write. */
  ghost function BeginNext(fw: FineWorld, s: Step): FineWorld
    requires CanBegin(fw, s)
  {
    match s
    case Open(buyTotal) => fw.(entries := fw.entries + [FineEntry(NewFields(buyTotal), multiset{}, [])])
    case Accepting(rid, oid, first, last) => fw.(venue := Accept(fw.venue, rid, oid, first, last))
    case Refusing(rid, code) => fw.(venue := Refuse(fw.venue, rid, code))
    case Evolving(oid, order) => fw.(venue := Replace(fw.venue, oid, order))
    case Syncing(oid) => fw.(store := fw.store[oid := fw.venue.orders[oid].order])
    case Faulting => fw.(status := P.Failed)
    case _ => Begun(fw, s.sid, ProcessOf(s), OutcomeOf(RawWorld(fw), s))
  }

  function Begun(fw: FineWorld, sid: Sid, p: Process, oc: Outcome): FineWorld
    requires sid < |fw.entries|
  {
    match oc
    case Fails => fw.(status := P.Failed)
    case Panics => fw.(status := P.Panicked)
    case Acts(ws, watched, store, venue, cost, volume) =>
      FineWorld(fw.entries[sid := BeginEntry(fw.entries[sid], p, oc)], store, venue,
                if ws == [] then fw.boughtCost + cost else fw.boughtCost,
                if ws == [] then fw.boughtVolume + volume else fw.boughtVolume, fw.status)
  }

  function ClearEntry(fe: FineEntry): FineEntry {
    fe.(raw := Apply(Need(false), fe.raw), sections := fe.sections + [Clearing])
  }

  /** What a decider that has cleared the flag goes on to do: look at the orders, size the request and send it. */
  ghost function Creation(f: Fields, sid: Sid, store: Store, v: Venue, m: P.Market): Outcome
    requires m.price > 0
  {
    if !(f.orders <= store.Keys) then Panics
    else if !m.funded then Writes([Need(false), Need(true)], store, v)
    else Writes([Need(false), SetExt(m.ext), SetRid(v.nextRid)], store, Send(v, BuyRequest(f, sid, store, m.price, 0)))
  }

  function CreateEntry(fe: FineEntry, k: nat, oc: Outcome): FineEntry
    requires k < |fe.sections| && oc.Acts? && oc.writes != []
  {
    fe.(sections := fe.sections[k := SectionOf(Decider, oc.writes[1..], oc)])
  }

  ghost function CreateNext(fw: FineWorld, sid: Sid, k: nat, m: P.Market): FineWorld
    requires CanCreate(fw, sid, k, m)
  {
    var fe := fw.entries[sid];
    var oc := Creation(fe.raw, sid, fw.store, fw.venue, m);
    if oc.Acts? then fw.(entries := fw.entries[sid := CreateEntry(fe, k, oc)], store := oc.store, venue := oc.venue)
    else fw.(status := P.Panicked)
  }

  function WriteEntry(fe: FineEntry, k: nat): FineEntry
    requires k < |fe.sections| && fe.sections[k].Section? && fe.sections[k].writes != []
  {
    var sec := fe.sections[k];
    var raw := Apply(sec.writes[0], fe.raw);
    if |sec.writes| == 1
    then FineEntry(raw, fe.watchers + sec.watched, fe.sections[..k] + fe.sections[k + 1..])
    else fe.(raw := raw, sections := fe.sections[k := sec.(writes := sec.writes[1..])])
  }

  ghost function FineNext(fw: FineWorld, fs: FineStep): FineWorld
    requires FineEnabled(fw, fs)
  {
    match fs
    case Begin(s) => BeginNext(fw, s)
    case Clear(sid) => fw.(entries := fw.entries[sid := ClearEntry(fw.entries[sid])])
    case Create(sid, k, m) => CreateNext(fw, sid, k, m)
    case WriteOne(sid, k) =>
      var sec := fw.entries[sid].sections[k];
      var last := |sec.writes| == 1;
      fw.(entries := fw.entries[sid := WriteEntry(fw.entries[sid], k)],
          boughtCost := if last then fw.boughtCost + sec.cost else fw.boughtCost,
          boughtVolume := if last then fw.boughtVolume + sec.volume else fw.boughtVolume)
  }

  // ----- rolling forward -----

  /** The session once its open sections are finished; a flag cleared for nothing yet counts as set. */
  function Finished(fe: FineEntry): Entry
    decreases |fe.sections|
  {
    if fe.sections == [] then RawEntry(fe) else
      var sec := fe.sections[0];
      if sec.Clearing? then Finished(fe.(raw := Apply(Need(true), fe.raw), sections := fe.sections[1..]))
      else Finished(FineEntry(ApplyAll(sec.writes, fe.raw), fe.watchers + sec.watched, fe.sections[1..]))
  }

  function ToBook(m: Measure, sections: seq<Section>): int {
    if sections == [] then 0
    else (if sections[0].Clearing? then 0 else if m.Cost? then sections[0].cost else sections[0].volume) + ToBook(m, sections[1..])
  }

  function ToBookAll(m: Measure, entries: seq<FineEntry>): int {
    if entries == [] then 0 else ToBook(m, entries[0].sections) + ToBookAll(m, entries[1..])
  }

  function Coarse(fw: FineWorld): World {
    World(seq(|fw.entries|, i requires 0 <= i < |fw.entries| => Finished(fw.entries[i])), fw.store, fw.venue,
          fw.boughtCost + ToBookAll(Cost, fw.entries), fw.boughtVolume + ToBookAll(Volume, fw.entries), fw.status)
  }

  // ----- only the last write gives the session away -----

  predicate Quiet(w: Write) {
    match w
    case Need(flag) => !flag
    case SetRid(rid) => rid == 0
    case Executed(_) => false
    case _ => true
  }

  predicate ReleasesLast(ws: seq<Write>) {
    ws != [] && forall i | 0 <= i < |ws| - 1 :: Quiet(ws[i])
  }

  /** While a process is in its section, the half-written session entitles nobody else. */
  predicate Locked(fe: FineEntry, p: Process) {
    && fe.watchers == multiset{} && !fe.raw.isDone
    && (p.Decider? || p.Watcher? ==> fe.raw.rid == 0)
    && (p.Listener? || p.Watcher? ==> !fe.raw.need)
  }

  predicate SectionInv(fe: FineEntry) {
    && |fe.sections| <= 1
    && (fe.sections != [] ==>
          && Locked(fe, fe.sections[0].By())
          && (if fe.sections[0].Clearing? then !fe.raw.need else ReleasesLast(fe.sections[0].writes)))
  }

  ghost predicate FineInv(fw: FineWorld) {
    && WorldInv(Coarse(fw))
    && forall i | 0 <= i < |fw.entries| :: SectionInv(fw.entries[i])
  }

  lemma DecideStandsBy(f: Fields, sid: Sid, store: Store, v: Venue, m: P.Market)
    requires !m.buyOpen
    ensures Decide(f, sid, store, v, m) in {Idle(store, v), Panics}
  {}

  lemma DecideReleasesLast(f: Fields, sid: Sid, store: Store, v: Venue, m: P.Market)
    requires m.price > 0
    ensures var oc := Creation(f, sid, store, v, m);
            oc.Acts? ==> oc.writes != [] && oc.writes[0] == Need(false) && ReleasesLast(oc.writes[1..])
                         && oc.watched == multiset{} && oc.cost == 0 && oc.volume == 0
  {}

  lemma ListenReleasesLast(f: Fields, rid: Rid, store: Store, v: Venue, answer: P.CancelAnswer)
    requires rid in v.replies && P.LegalCancel(v, f.prev, answer)
    ensures var oc := Listen(f, rid, store, v, answer); oc.Acts? && oc.writes != [] ==> ReleasesLast(oc.writes)
  {}

  lemma WatchReleasesLast(f: Fields, sid: Sid, oid: Oid, store: Store, v: Venue, verdict: P.Verdict)
    requires verdict.Withdraw? ==> P.LegalCancel(v, oid, verdict.answer)
    requires verdict.Reprice? ==> verdict.price > 0
    ensures var oc := Watch(f, sid, oid, store, v, verdict); oc.Acts? && oc.writes != [] ==> ReleasesLast(oc.writes)
  {}

  // ----- rolling forward one session -----

  lemma FinishedOne(fe: FineEntry)
    requires |fe.sections| == 1
    ensures var sec := fe.sections[0];
            && Finished(fe) == (if sec.Clearing? then Entry(Apply(Need(true), fe.raw), fe.watchers)
                                else Entry(ApplyAll(sec.writes, fe.raw), fe.watchers + sec.watched))
            && ToBook(Cost, fe.sections) == (if sec.Clearing? then 0 else sec.cost)
            && ToBook(Volume, fe.sections) == (if sec.Clearing? then 0 else sec.volume)
  {
    var sec := fe.sections[0];
    assert fe.sections[1..] == [];
    if sec.Clearing? {
      assert Finished(fe) == Finished(fe.(raw := Apply(Need(true), fe.raw), sections := []));
    } else {
      assert Finished(fe) == Finished(FineEntry(ApplyAll(sec.writes, fe.raw), fe.watchers + sec.watched, []));
    }
  }

  lemma WriteRollsForward(fe: FineEntry, k: nat)
    requires SectionInv(fe) && k < |fe.sections| && fe.sections[k].Section? && fe.sections[k].writes != []
    ensures k == 0 && Finished(WriteEntry(fe, k)) == Finished(fe) && SectionInv(WriteEntry(fe, k))
    ensures var (sec, sections') := (fe.sections[k], WriteEntry(fe, k).sections);
            && ToBook(Cost, fe.sections) == ToBook(Cost, sections') + (if |sec.writes| == 1 then sec.cost else 0)
            && ToBook(Volume, fe.sections) == ToBook(Volume, sections') + (if |sec.writes| == 1 then sec.volume else 0)
  {
    var sec := fe.sections[0];
    var fe' := WriteEntry(fe, 0);
    FinishedOne(fe);
    if |sec.writes| == 1 {
      assert sec.writes[1..] == [] && fe'.sections == [];
      assert ApplyAll(sec.writes, fe.raw) == Apply(sec.writes[0], fe.raw);
    } else {
      assert Quiet(sec.writes[0]);
      forall i | 0 <= i < |sec.writes[1..]| - 1 ensures Quiet(sec.writes[1..][i]) {
        assert sec.writes[1..][i] == sec.writes[i + 1];
      }
      FinishedOne(fe');
    }
  }

  lemma {:induction false} ToBookAllUpdate(m: Measure, entries: seq<FineEntry>, i: nat, fe': FineEntry)
    requires i < |entries|
    ensures ToBookAll(m, entries[i := fe']) == ToBookAll(m, entries) - ToBook(m, entries[i].sections) + ToBook(m, fe'.sections)
  {
    if i == 0 {
      assert entries[0 := fe'][1..] == entries[1..];
    } else {
      assert entries[i := fe'][1..] == entries[1..][i - 1 := fe'];
      ToBookAllUpdate(m, entries[1..], i - 1, fe');
    }
  }

  lemma {:induction false} ToBookAllAppend(m: Measure, entries: seq<FineEntry>, fe: FineEntry)
    ensures ToBookAll(m, entries + [fe]) == ToBookAll(m, entries) + ToBook(m, fe.sections)
  {
    if entries == [] {
      assert (entries + [fe])[1..] == [];
    } else {
      assert (entries + [fe])[1..] == entries[1..] + [fe];
      ToBookAllAppend(m, entries[1..], fe);
    }
  }

  /** Replacing one session rolls forward to replacing one session. */
  lemma CoarseUpdate(fw: FineWorld, sid: Sid, fw': FineWorld, fe': FineEntry)
    requires sid < |fw.entries| && fw'.entries == fw.entries[sid := fe']
    ensures var (c, c', sections) := (Coarse(fw), Coarse(fw'), fw.entries[sid].sections);
            && c'.entries == c.entries[sid := Finished(fe')]
            && c'.boughtCost == c.boughtCost - fw.boughtCost + fw'.boughtCost - ToBook(Cost, sections) + ToBook(Cost, fe'.sections)
            && c'.boughtVolume ==
                 c.boughtVolume - fw.boughtVolume + fw'.boughtVolume - ToBook(Volume, sections) + ToBook(Volume, fe'.sections)
  {
    ToBookAllUpdate(Cost, fw.entries, sid, fe');
    ToBookAllUpdate(Volume, fw.entries, sid, fe');
  }

  // ----- opening a section -----

  /** Need flag, request id and watcher exclude each other, and a done session has none of them. */
  lemma OwnedOnce(w: World, sid: Sid)
    requires WorldInv(w) && sid < |w.entries|
    ensures var e := w.entries[sid];
            && (if e.fields.isDone then 1 else 0) + (if e.fields.need then 1 else 0) + (if e.fields.rid != 0 then 1 else 0) + |e.watchers| == 1
            && (forall o | o in e.watchers :: e.watchers == multiset{o})
            && (e.fields.need ==> e.fields.orders <= w.store.Keys)
    ensures 0 !in w.venue.replies
  {
    hide Lanes.Tracked, Lanes.Waiting, Mirrors;
    var e := w.entries[sid];
    assert EntryInv(e, sid, w.store, w.venue);
    forall o | o in e.watchers ensures e.watchers == multiset{o} {
      Lanes.SoleOwner(LaneOf(e), o);
    }
  }

  lemma EnabledTransfers(fw: FineWorld, s: Step)
    requires Enabled(RawWorld(fw), s) && BySession(s) && fw.entries[s.sid].sections == []
    ensures Enabled(Coarse(fw), s) && OutcomeOf(Coarse(fw), s) == OutcomeOf(RawWorld(fw), s)
  {
    assert Coarse(fw).entries[s.sid] == RawWorld(fw).entries[s.sid];
  }

  /** Whoever begins to write owns the session, so nobody else does. */
  lemma BeginLocks(fw: FineWorld, s: Step)
    requires FineInv(fw) && CanBegin(fw, s) && BySession(s) && fw.entries[s.sid].sections == []
    ensures var oc := OutcomeOf(RawWorld(fw), s);
            oc.Acts? ==> SectionInv(BeginEntry(fw.entries[s.sid], ProcessOf(s), oc))
  {
    hide WorldInv, Decide, Listen, Watch, P.LegalCancel, P.Delivered;
    var fe := fw.entries[s.sid];
    EnabledTransfers(fw, s);
    assert Coarse(fw).entries[s.sid] == RawEntry(fe);
    OwnedOnce(Coarse(fw), s.sid);
    match s
    case Deciding(sid, m) => DecideStandsBy(fe.raw, sid, fw.store, fw.venue, m);
    case Listening(sid, rid, answer) => ListenReleasesLast(fe.raw, rid, fw.store, fw.venue, answer);
    case Watching(sid, oid, verdict) => WatchReleasesLast(fe.raw, sid, oid, fw.store, fw.venue, verdict);
  }

  // ----- every fine step is a coarse step or none -----

  /** The coarse step of an activation: where it begins, or for an order the decider creates, where it sends. */
  function StepOf(fs: FineStep): Step
    requires fs.Begin? || fs.Create?
  {
    match fs
    case Begin(s) => s
    case Create(sid, _, m) => Deciding(sid, m.(buyOpen := true))
  }

  ghost predicate Simulated(fw: FineWorld, fs: FineStep)
    requires FineEnabled(fw, fs)
  {
    var (c, c') := (Coarse(fw), Coarse(FineNext(fw, fs)));
    c' == c || ((fs.Begin? || fs.Create?) && Enabled(c, StepOf(fs)) && c' == Next(c, StepOf(fs)))
  }

  /** A process finds a session that another one is writing to closed. */
  lemma LockedOut(fw: FineWorld, s: Step)
    requires FineInv(fw) && CanBegin(fw, s) && BySession(s) && fw.entries[s.sid].sections != []
    ensures s.Deciding? && BeginNext(fw, s) == fw
  {
    hide WorldInv;
    var fe := fw.entries[s.sid];
    assert fe.sections[0].By() != ProcessOf(s);
    OwnedOnce(Coarse(fw), s.sid);
    assert s.Deciding?;
    assert OutcomeOf(RawWorld(fw), s) == Idle(fw.store, fw.venue);
    assert BeginEntry(fe, Decider, OutcomeOf(RawWorld(fw), s)) == fe;
    assert fw.entries[s.sid := fe] == fw.entries;
  }

  lemma Lands(fw: FineWorld, c: World, s: Step)
    requires BySession(s) && CanBegin(fw, s) && Enabled(c, s)
    ensures s.sid < |c.entries| && Next(c, s) == Land(c, s.sid, SelfOf(ProcessOf(s)), OutcomeOf(c, s))
    ensures s.sid < |fw.entries| && BeginNext(fw, s) == Begun(fw, s.sid, ProcessOf(s), OutcomeOf(RawWorld(fw), s))
  {
    hide Decide, Listen, Watch, P.Delivered, P.LegalCancel;
  }

  lemma BegunEntry(fe: FineEntry, p: Process, oc: Outcome)
    requires fe.sections == [] && oc.Acts?
    ensures var fe' := BeginEntry(fe, p, oc);
            && Finished(fe') == After(RawEntry(fe), SelfOf(p), oc)
            && ToBook(Cost, fe'.sections) == (if oc.writes == [] then 0 else oc.cost)
            && ToBook(Volume, fe'.sections) == (if oc.writes == [] then 0 else oc.volume)
  {
    if oc.writes != [] { FinishedOne(BeginEntry(fe, p, oc)); }
  }

  /** An activation that finds its session free is the coarse activation. */
  lemma BeginSimulates(fw: FineWorld, s: Step)
    requires FineInv(fw) && CanBegin(fw, s) && BySession(s) && s.sid < |fw.entries| && fw.entries[s.sid].sections == []
    ensures Enabled(Coarse(fw), s) && Coarse(BeginNext(fw, s)) == Next(Coarse(fw), s)
    ensures forall fe | fe in BeginNext(fw, s).entries :: SectionInv(fe)
  {
    hide WorldInv, OutcomeOf, Enabled, Next, BeginNext, SectionInv, BeginEntry, After;
    EnabledTransfers(fw, s);
    Lands(fw, Coarse(fw), s);
    BeginLocks(fw, s);
    var oc := OutcomeOf(RawWorld(fw), s);
    if oc.Acts? {
      BegunEntry(fw.entries[s.sid], ProcessOf(s), oc);
      CoarseUpdate(fw, s.sid, BeginNext(fw, s), BeginEntry(fw.entries[s.sid], ProcessOf(s), oc));
    }
  }

  lemma ActivationSimulates(fw: FineWorld, s: Step)
    requires FineInv(fw) && CanBegin(fw, s) && BySession(s)
    ensures Simulated(fw, Begin(s)) && forall fe | fe in BeginNext(fw, s).entries :: SectionInv(fe)
  {
    hide WorldInv, Enabled, Next, BeginNext, Coarse, OutcomeOf, SectionInv;
    Lands(fw, RawWorld(fw), s);
    if fw.entries[s.sid].sections == [] { BeginSimulates(fw, s); } else { LockedOut(fw, s); }
  }

  lemma OpenSimulates(fw: FineWorld, buyTotal: real)
    requires FineInv(fw) && CanBegin(fw, BuyProtocol.Open(buyTotal))
    ensures Simulated(fw, Begin(BuyProtocol.Open(buyTotal)))
  {
    hide WorldInv, Decide, Listen, Watch, Accept, Refuse, OutcomeOf;
    var fe := FineEntry(NewFields(buyTotal), multiset{}, []);
    ToBookAllAppend(Cost, fw.entries, fe);
    ToBookAllAppend(Volume, fw.entries, fe);
    assert Coarse(fw.(entries := fw.entries + [fe])).entries == Coarse(fw).entries + [RawEntry(fe)];
  }

  lemma EnvironmentSimulates(fw: FineWorld, s: Step)
    requires CanBegin(fw, s) && !BySession(s) && !s.Open?
    ensures Simulated(fw, Begin(s)) && BeginNext(fw, s).entries == fw.entries
  {
    hide Accept, Refuse, CanAccept;
  }

  // ----- clearing the flag and creating an order -----

  /** Clearing the flag changes nothing from afar, and nobody else may act any more. */
  lemma ClearSimulates(fw: FineWorld, sid: Sid)
    requires FineInv(fw) && CanClear(fw, sid)
    ensures Coarse(FineNext(fw, Clear(sid))) == Coarse(fw)
    ensures forall fe | fe in FineNext(fw, Clear(sid)).entries :: SectionInv(fe)
  {
    hide WorldInv;
    var fe := fw.entries[sid];
    var fe' := ClearEntry(fe);
    if fe.sections != [] { assert false; }
    assert Coarse(fw).entries[sid] == RawEntry(fe);
    OwnedOnce(Coarse(fw), sid);
    FinishedOne(fe');
    CoarseUpdate(fw, sid, FineNext(fw, Clear(sid)), fe');
    assert Coarse(fw).entries[sid := Finished(fe')] == Coarse(fw).entries;
  }

  lemma CreationIsDeciding(w: World, sid: Sid, f: Fields, m: P.Market)
    requires WorldInv(w) && sid < |w.entries| && m.price > 0
    requires w.entries[sid].fields == Apply(Need(true), f) && !f.isDone && !f.need
    ensures Decide(w.entries[sid].fields, sid, w.store, w.venue, m.(buyOpen := true)) == Creation(f, sid, w.store, w.venue, m)
    ensures Creation(f, sid, w.store, w.venue, m).Acts?
  {
    hide WorldInv;
    OwnedOnce(w, sid);
  }

  lemma CreatedEntry(fe: FineEntry, k: nat, oc: Outcome)
    requires SectionInv(fe) && k < |fe.sections| && fe.sections[k].Clearing?
    requires oc.Acts? && oc.writes != [] && oc.writes[0] == Need(false) && ReleasesLast(oc.writes[1..])
    ensures k == 0 && Finished(CreateEntry(fe, k, oc)) == After(Finished(fe), multiset{}, oc) && SectionInv(CreateEntry(fe, k, oc))
    ensures ToBook(Cost, CreateEntry(fe, k, oc).sections) == oc.cost && ToBook(Cost, fe.sections) == 0
    ensures ToBook(Volume, CreateEntry(fe, k, oc).sections) == oc.volume && ToBook(Volume, fe.sections) == 0
  {
    FinishedOne(fe);
    FinishedOne(CreateEntry(fe, k, oc));
    assert Apply(oc.writes[0], Apply(Need(true), fe.raw)) == fe.raw;
  }

  lemma ClearedFields(fe: FineEntry, k: nat)
    requires SectionInv(fe) && k < |fe.sections| && fe.sections[k].Clearing?
    ensures k == 0 && !fe.raw.isDone && !fe.raw.need && Finished(fe).fields == Apply(Need(true), fe.raw)
  {
    FinishedOne(fe);
  }

  /** Sizing and sending after the flag was cleared is the coarse round at the moment of sending. */
  lemma CreateSimulates(fw: FineWorld, sid: Sid, k: nat, m: P.Market)
    requires FineInv(fw) && CanCreate(fw, sid, k, m)
    ensures Simulated(fw, Create(sid, k, m)) && forall fe | fe in CreateNext(fw, sid, k, m).entries :: SectionInv(fe)
  {
    hide WorldInv, SectionInv, Creation, CreateEntry, Decide, Finished;
    var fe := fw.entries[sid];
    var oc := Creation(fe.raw, sid, fw.store, fw.venue, m);
    ClearedFields(fe, k);
    CreationIsDeciding(Coarse(fw), sid, fe.raw, m);
    DecideReleasesLast(fe.raw, sid, fw.store, fw.venue, m);
    CreatedEntry(fe, k, oc);
    CoarseUpdate(fw, sid, CreateNext(fw, sid, k, m), CreateEntry(fe, k, oc));
  }

  // ----- writing -----

  lemma WriteSimulates(fw: FineWorld, sid: Sid, k: nat)
    requires FineInv(fw) && CanWrite(fw, sid, k)
    ensures Coarse(FineNext(fw, WriteOne(sid, k))) == Coarse(fw)
    ensures forall fe | fe in FineNext(fw, WriteOne(sid, k)).entries :: SectionInv(fe)
  {
    hide WorldInv, SectionInv;
    var fe' := WriteEntry(fw.entries[sid], k);
    WriteRollsForward(fw.entries[sid], k);
    CoarseUpdate(fw, sid, FineNext(fw, WriteOne(sid, k)), fe');
    assert Coarse(fw).entries[sid := Finished(fe')] == Coarse(fw).entries;
  }

  lemma SimulatedInv(fw: FineWorld, fs: FineStep)
    requires WorldInv(Coarse(fw)) && FineEnabled(fw, fs) && Simulated(fw, fs)
    ensures WorldInv(Coarse(FineNext(fw, fs)))
  {
    hide WorldInv, Enabled, Next, Coarse;
    if Coarse(FineNext(fw, fs)) != Coarse(fw) {
      NextKeeps(Coarse(fw), StepOf(fs));
    }
  }

  lemma StutterSimulates(fw: FineWorld, fs: FineStep)
    requires FineEnabled(fw, fs) && Coarse(FineNext(fw, fs)) == Coarse(fw)
    ensures Simulated(fw, fs)
  {}

  /** Every fine step looks like one coarse step or none, and keeps at most one section open. */
  lemma StepSimulates(fw: FineWorld, fs: FineStep)
    requires FineInv(fw) && FineEnabled(fw, fs)
    ensures Simulated(fw, fs) && FineInv(FineNext(fw, fs))
  {
    hide WorldInv, Enabled, Next, Coarse, Simulated, Finished, OutcomeOf;
    match fs {
      case Clear(sid) =>
        ClearSimulates(fw, sid);
        StutterSimulates(fw, fs);
      case WriteOne(sid, k) =>
        WriteSimulates(fw, sid, k);
        StutterSimulates(fw, fs);
      case Create(sid, k, m) =>
        CreateSimulates(fw, sid, k, m);
      case Begin(s) =>
        if BySession(s) { ActivationSimulates(fw, s); }
        else if s.Open? { OpenSimulates(fw, s.buyTotal); }
        else { EnvironmentSimulates(fw, s); }
    }
    SimulatedInv(fw, fs);
  }

  // ----- fine runs -----

  function InitialFine(): FineWorld { FineWorld([], map[], P.InitialVenue(), 0, 0, P.Running) }

  ghost predicate FineLegal(fw: FineWorld, run: seq<FineStep>)
    decreases |run|
  {
    run == [] || (FineEnabled(fw, run[0]) && FineLegal(FineNext(fw, run[0]), run[1..]))
  }

  ghost function FineRun(fw: FineWorld, run: seq<FineStep>): FineWorld
    requires FineLegal(fw, run)
    decreases |run|
  {
    if run == [] then fw else FineRun(FineNext(fw, run[0]), run[1..])
  }

  lemma {:induction false} RunAppend(w: World, run: seq<Step>, s: Step)
    requires Legal(w, run) && Enabled(Run(w, run), s)
    ensures Legal(w, run + [s]) && Run(w, run + [s]) == Next(Run(w, run), s)
    decreases |run|
  {
    hide Enabled, Next;
    if run == [] {
      assert [s][1..] == [];
      assert run + [s] == [s];
    } else {
      assert (run + [s])[1..] == run[1..] + [s];
      RunAppend(Next(w, run[0]), run[1..], s);
    }
  }

  lemma {:induction false} FollowRun(fw: FineWorld, run: seq<FineStep>, done: seq<Step>) returns (coarse: seq<Step>)
    requires FineInv(fw) && FineLegal(fw, run)
    requires Legal(InitialWorld(), done) && Reached(done) == Coarse(fw)
    ensures Legal(InitialWorld(), coarse) && Reached(coarse) == Coarse(FineRun(fw, run)) && FineInv(FineRun(fw, run))
    decreases |run|
  {
    hide FineInv, FineEnabled, FineNext, Coarse, Enabled, Next;
    coarse := done;
    if run != [] {
      StepSimulates(fw, run[0]);
      if Coarse(FineNext(fw, run[0])) != Coarse(fw) {
        RunAppend(InitialWorld(), done, StepOf(run[0]));
        coarse := done + [StepOf(run[0])];
      }
      coarse := FollowRun(FineNext(fw, run[0]), run[1..], coarse);
    }
  }

  lemma NoStep(w: World)
    ensures Legal(w, []) && Run(w, []) == w
  {}

  lemma NobodyYet(fw: FineWorld)
    requires fw.entries == []
    ensures Coarse(fw) == World([], fw.store, fw.venue, fw.boughtCost, fw.boughtVolume, fw.status)
  {}

  lemma FineStart()
    ensures FineInv(InitialFine()) && Legal(InitialWorld(), []) && Reached([]) == Coarse(InitialFine())
  {
    hide WorldInv, Legal, Run, Coarse;
    InitialInv();
    NoStep(InitialWorld());
    NobodyYet(InitialFine());
  }

  /** A run of whole activations ends where `run` does once its open sections are finished. */
  ghost predicate Atomic(run: seq<FineStep>)
    requires FineLegal(InitialFine(), run)
  {
    exists coarse ::
      Legal(InitialWorld(), coarse) && Reached(coarse) == Coarse(FineRun(InitialFine(), run))
  }

  lemma OneSection(fw: FineWorld)
    requires FineInv(fw)
    ensures !fw.status.Panicked? && forall fe | fe in fw.entries :: |fe.sections| <= 1
  {}

  /** However the setters interleave, at most one process is writing to a session, no process misses an
      order, and the run is a run of whole activations. */
  lemma FineRunsAreAtomic(run: seq<FineStep>)
    requires FineLegal(InitialFine(), run)
    ensures Atomic(run)
    ensures !FineRun(InitialFine(), run).status.Panicked?
    ensures forall fe | fe in FineRun(InitialFine(), run).entries :: |fe.sections| <= 1
  {
    hide FineInv, Coarse, Legal, Reached, InitialFine, InitialWorld, FineLegal, FineRun;
    FineStart();
    var coarse := FollowRun(InitialFine(), run, []);
    OneSection(FineRun(InitialFine(), run));
  }
}
