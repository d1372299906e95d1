/**
 When an interaction can be counted a second time. A start makes earlier replacements
 durable, but not a journal line that was appended without being synced: the new
 process counts that line, and a power loss may still take it away.
 */
module LedgerRecount {
  import opened Durable
  import opened Ledger
  import opened LedgerRuns
  import opened LedgerAccount

  const ALL_WRITTEN := Io(Written, Written, Written, Written, Appended, Written)

  /** What happens after a relaunch: a power loss, and a client that sends `e` again. */
  datatype Sequel = Sequel(e: Entry, save: Outcome, snapshot: Entries, journal: seq<Entry>, registry: Registry,
                           later: nat, repair: Outcome, at: nat, io: Io)

  function Again(x: Sequel): Request {
    Request(x.e.lane, x.e.id, x.e.createdAt)
  }

  ghost function Relaunched(w: World, now: nat, x: Sequel): World
  {
    Next(w, Relaunch(now, Written, x.save))
  }

  function Loss(x: Sequel): Event {
    PowerLoss(x.snapshot, x.journal, x.registry, x.later, Written, x.repair)
  }

  /** The relaunched process has `e` in its ledger and in its lane's count; after the
      power loss the same interaction is answered as counted, under a larger count, by a
      process whose clock was not set back. */
  ghost predicate SecondCount(w: World, now: nat, x: Sequel)
  {
    var w1 := Relaunched(w, now, x);
    && w1.proc.Up? && x.e.id in w1.proc.mem.entries && w1.proc.mem.entries[x.e.id] == x.e
    && x.e.lane in w1.proc.mem.reg && Enabled(w1, Loss(x))
    && var w2 := Next(w1, Loss(x));
       && x.later <= x.at && Enabled(w2, Serve(Again(x), x.at, x.io))
       && var r := Record(w2.disk, w2.proc.mem, Again(x), x.at, x.io);
          && r.response == Response.Counted && x.e.id in r.mem.entries
          && w1.proc.mem.reg[x.e.lane] < r.mem.entries[x.e.id].count
  }

  /** The count that a start from the files as they look gives a lane. */
  ghost function CountAtStart(d: Disk, now: nat, l: LaneId): nat {
    var s, j, r := d.snapshot.visible, d.journal.visible, d.registry.visible;
    if FoldJournal(s, 0, j).Some? && l in r then Recovered(s, j, r, now, l) else 0
  }

  /** Some value of the journal lacks this needed line of the visible one, and the
      line's lane can still be counted up. */
  ghost predicate LooseLine(d: Disk, now: nat, e: Entry) {
    CountAtStart(d, now, e.lane) < MAX_SAFE && exists j :: Lacks(d, now, j, e)
  }

  ghost predicate Loose(d: Disk, now: nat) {
    exists e :: LooseLine(d, now, e)
  }

  // ------------------------------------------------------------------ starts

  lemma RepairedValid(r: Registry, live: Entries)
    requires ValidRegistry(r) && ValidEntries(live)
    ensures ValidRegistry(Reconciled(r, live))
  {
    var repaired := Reconciled(r, live);
    assert |repaired.Keys| == |r.Keys|;
    forall l | l in repaired ensures repaired[l] <= MAX_SAFE {
      assert IsMaxCount(live, l, MaxCount(live, l));
    }
  }

  /** What memory holds after any start that came up. */
  ghost predicate StartedFrom(d: Disk, now: nat, all: Entries, w: World) {
    && w.proc.Up? && w.clock == now
    && w.proc.mem.entries == Pruned(all, now)
    && w.proc.mem.reg == Reconciled(d.registry.visible, Pruned(all, now))
    && !w.proc.mem.appendUncertain
    && w.disk.snapshot == d.snapshot && w.disk.journal == d.journal
  }

  lemma StartEffect(w: World, d: Disk, now: nat, save: Outcome, all: Entries)
    requires FoldJournal(d.snapshot.visible, 0, d.journal.visible) == Some(all)
    ensures var w' := Restart(w, d, now, Written, save);
            && w'.disk.snapshot == d.snapshot && w'.disk.journal == d.journal
            && (w'.proc.Up? ==> StartedFrom(d, now, all, w'))
  {
    hide Pruned, Reconciled, Accepts, ValidRegistry, FoldJournal;
  }

  /** From acceptable files a start whose writes succeed comes up, ready to count. */
  lemma StartSucceeds(w: World, d: Disk, now: nat, all: Entries)
    requires Accepts(d.snapshot.visible, d.journal.visible, d.registry.visible, now) && ValidEntries(all)
    requires FoldJournal(d.snapshot.visible, 0, d.journal.visible) == Some(all) && Settled(d.registry)
    ensures var w' := Restart(w, d, now, Written, Written);
            && StartedFrom(d, now, all, w') && !w'.proc.mem.laneUncertain
            && w'.disk.registry == File(w'.proc.mem.reg, {w'.proc.mem.reg}) && ValidRegistry(w'.proc.mem.reg)
  {
    var r, live := d.registry.visible, Pruned(all, now);
    assert ValidRegistry(r) && ValidEntries(live);
    RepairedValid(r, live);
    hide Pruned, Reconciled, Accepts, ValidRegistry, FoldJournal, ValidEntries;
  }

  // ----------------------------------------------------------- one resending

  /** A request is counted only when its id is not among the live records. */
  lemma OnlyFreshCounted(d: Disk, m: Mem, req: Request, now: nat, io: Io)
    requires Record(d, m, req, now, io).response == Response.Counted
    ensures req.createdAt >= Horizon(now) && req.lane in m.reg && req.id !in Pruned(m.entries, now)
    ensures var r := Record(d, m, req, now, io);
            req.id in r.mem.entries ==> r.mem.entries[req.id].count <= MAX_SAFE
  {
    AdmitEffect(d, m, now, io);
    hide MaxCount, ValidRegistry, AdmitFresh, MakeRoom, CommitRegistry;
    assert req.lane in m.reg;
    if req.id in m.entries && Live(m.entries[req.id], now) {
      NotCounted(d, m, req, io);
    }
    var a := AdmitFresh(d, m, now, io);
    if req.id !in Pruned(m.entries, now) && a.response == Response.Counted {
      CountedEntry(a.disk, a.mem, req, io);
    }
  }

  lemma NotCounted(d: Disk, m: Mem, req: Request, io: Io)
    requires req.id in m.entries && req.lane in m.reg
    ensures Resend(d, m, req, io).response != Response.Counted
  {}

  lemma CountedEntry(d: Disk, m: Mem, req: Request, io: Io)
    requires req.lane in m.reg && req.id !in m.entries
    ensures var r := CountNew(d, m, req, io);
            req.id in r.mem.entries ==> r.mem.entries[req.id].count <= MAX_SAFE
  {
    CountNewEffect(d, m, req, io);
    hide MakeRoom, AppendNew, MaxCount;
  }

  /** With every write durable, a fresh request within its window is counted. */
  lemma FreshIsCounted(d: Disk, m: Mem, req: Request, now: nat)
    requires !m.appendUncertain && !m.laneUncertain && ValidRegistry(m.reg) && req.lane in m.reg
    requires Horizon(now) <= req.createdAt <= now + FUTURE_SKEW_MS && req.id !in Pruned(m.entries, now)
    requires |Pruned(m.entries, now)| < MAX_ENTRIES
    requires NewEntry(m.reg, Pruned(m.entries, now), req).count <= MAX_SAFE
    ensures var r := Record(d, m, req, now, ALL_WRITTEN);
            && r.response == Response.Counted && req.id in r.mem.entries
            && r.mem.entries[req.id] == NewEntry(m.reg, Pruned(m.entries, now), req)
  {
    var live := Pruned(m.entries, now);
    assert req.id in m.entries ==> !Live(m.entries[req.id], now);
    AdmitWritten(d, m, now);
    var a := AdmitFresh(d, m, now, ALL_WRITTEN);
    hide AdmitFresh, CountNew, ValidRegistry, Pruned, NewEntry;
    CountWritten(a.disk, a.mem, req);
  }

  lemma AdmitWritten(d: Disk, m: Mem, now: nat)
    ensures var a := AdmitFresh(d, m, now, ALL_WRITTEN);
            a.response == Response.Counted && a.mem.entries == Pruned(m.entries, now)
  {}

  lemma CountWritten(d: Disk, m: Mem, req: Request)
    requires ValidRegistry(m.reg) && req.lane in m.reg && req.id !in m.entries && |m.entries| < MAX_ENTRIES
    requires NewEntry(m.reg, m.entries, req).count <= MAX_SAFE
    ensures var r := CountNew(d, m, req, ALL_WRITTEN);
            && r.response == Response.Counted && req.id in r.mem.entries
            && r.mem.entries[req.id] == NewEntry(m.reg, m.entries, req)
  {
    var e := NewEntry(m.reg, m.entries, req);
    var reg := m.reg[req.lane := e.count];
    assert ValidRegistry(reg) by { assert reg.Keys == m.reg.Keys && |reg.Keys| == |reg| && |m.reg.Keys| == |m.reg|; }
    hide MaxCount, ValidRegistry, NewEntry;
    assert e.id == req.id && e.lane == req.lane by { NewEntryFields(m.reg, m.entries, req); }
  }

  lemma NewEntryFields(reg: Registry, entries: Entries, req: Request)
    requires req.lane in reg
    ensures var e := NewEntry(reg, entries, req);
            && e.id == req.id && e.lane == req.lane && e.count > reg[req.lane]
            && (forall k :: k in entries && entries[k].lane == req.lane ==> entries[k].count < e.count)
            && (e.count == reg[req.lane] + 1
                || exists k :: k in entries && entries[k].lane == req.lane && entries[k].count + 1 == e.count)
  {
    assert IsMaxCount(entries, req.lane, MaxCount(entries, req.lane));
  }

  /** From any reachable files a relaunch whose own writes succeed comes up and can count. */
  lemma AlwaysRestarts(w: World, now: nat) returns (all: Entries)
    requires Inv(w)
    ensures FoldJournal(w.disk.snapshot.visible, 0, w.disk.journal.visible) == Some(all)
    ensures var w' := Next(w, Relaunch(now, Written, Written));
            && StartedFrom(Synced(w.disk), now, all, w') && !w'.proc.mem.laneUncertain
            && w'.disk.registry == File(w'.proc.mem.reg, {w'.proc.mem.reg}) && ValidRegistry(w'.proc.mem.reg)
  {
    hide *;
    var d := w.disk;
    FilesVisible(w);
    AcceptsEveryChoice(w, d.snapshot.visible, d.journal.visible, d.registry.visible, now);
    all := VisibleReads(w, now);
    SyncedVisible(d);
    StartSucceeds(w, Synced(d), now, all);
    RelaunchIs(w, now);
  }

  lemma RelaunchIs(w: World, now: nat)
    ensures Next(w, Relaunch(now, Written, Written)) == Restart(w, Synced(w.disk), now, Written, Written)
  {
    hide Restart, Synced;
  }

  // ------------------------------------------------------- one way: a witness

  /** A line that a journal value lacks is not among the records read from that value. */
  lemma LackingIsUnread(w: World, now: nat, j: seq<Entry>, e: Entry) returns (all: Entries, rest: Entries)
    requires Inv(w) && Lacks(w.disk, now, j, e)
    ensures FoldJournal(w.disk.snapshot.visible, 0, w.disk.journal.visible) == Some(all)
    ensures FoldJournal(w.disk.snapshot.visible, 0, j) == Some(rest)
    ensures ValidEntries(all) && |all| <= MAX_ENTRIES && e.id in all && all[e.id] == e
    ensures SubMap(rest, all) && e.id !in rest && ValidEntries(rest) && Live(e, now) && j in Tails(w.disk.journal)
    ensures Accepts(w.disk.snapshot.visible, w.disk.journal.visible, w.disk.registry.visible, now)
  {
    var d := w.disk;
    var u, v, p :| Good(w, u, v, p, false);
    var s, lines := d.snapshot.visible, d.journal.visible;
    ReadBack(d, w.clock, u, v, p, s, lines, now, false);
    ReadBack(d, w.clock, u, v, p, s, j, now, false);
    AcceptsEveryChoice(w, s, lines, d.registry.visible, now);
    all, rest := FoldJournal(s, 0, lines).value, FoldJournal(s, 0, j).value;
    hide FilesAgree, MemAgrees, Accepts, FoldJournal, Inv;
    forall k | k in rest ensures k in all && all[k] == rest[k] {
      if rest[k] in j { assert rest[k] in lines && rest[k].id == k; }
    }
  }

  lemma MaxCountOfFewer(a: Entries, b: Entries, l: LaneId)
    requires SubMap(a, b)
    ensures MaxCount(a, l) <= MaxCount(b, l)
  {
    var m := MaxCount(a, l);
    assert IsMaxCount(a, l, m) && IsMaxCount(b, l, MaxCount(b, l));
    if m > 0 {
      var k :| k in a && a[k].lane == l && a[k].count == m;
      assert b[k] == a[k];
    }
  }

  lemma PrunedFewer(a: Entries, b: Entries, now: nat, later: nat)
    requires SubMap(a, b) && later >= now
    ensures SubMap(Pruned(a, later), Pruned(b, now))
  {}

  lemma FewerWithout(a: Entries, b: Entries, id: InteractionId)
    requires SubMap(a, b) && id in b && id !in a
    ensures |a| < |b|
  {
    SubmapSize(a[id := b[id]], b);
  }

  /** The lane's count does not move when fewer of the records are read again. */
  lemma RereadCount(r: Registry, live: Entries, rest: Entries, later: Entries, req: Request)
    requires SubMap(rest, live) && SubMap(later, rest) && req.lane in r
    ensures var reg := Reconciled(r, live);
            Reconciled(reg, rest)[req.lane] == reg[req.lane]
            && NewEntry(Reconciled(reg, rest), later, req).count == reg[req.lane] + 1
  {
    MaxCountOfFewer(rest, live, req.lane);
    MaxCountOfFewer(later, rest, req.lane);
    hide MaxCount;
  }

  function LossAndResend(w: World, now: nat, j: seq<Entry>, e: Entry, reg: Registry): (x: Sequel)
    ensures x.e == e && x.save == Written && x.snapshot == w.disk.snapshot.visible && x.journal == j && x.registry == reg
    ensures x.later == now && x.repair == Written && x.at == Max(now, e.createdAt) && x.io == ALL_WRITTEN
  {
    Sequel(e, Written, w.disk.snapshot.visible, j, reg, now, Written, Max(now, e.createdAt), ALL_WRITTEN)
  }

  lemma RelaunchComesUp(w: World, now: nat, all: Entries, x: Sequel)
    requires Inv(w) && x.save == Written && ValidEntries(all)
    requires FoldJournal(w.disk.snapshot.visible, 0, w.disk.journal.visible) == Some(all)
    requires Accepts(w.disk.snapshot.visible, w.disk.journal.visible, w.disk.registry.visible, now)
    ensures var w1 := Relaunched(w, now, x);
            && Inv(w1) && StartedFrom(Synced(w.disk), now, all, w1)
            && w1.disk.registry == File(w1.proc.mem.reg, {w1.proc.mem.reg})
  {
    StartSucceeds(w, Synced(w.disk), now, all);
    NextKeeps(w, Relaunch(now, Written, x.save));
    hide Inv, Restart, Accepts, FoldJournal;
  }

  lemma LossComesUp(w1: World, now: nat, x: Sequel, rest: Entries)
    requires Inv(w1) && w1.clock == now && x.later == now && x.repair == Written && ValidEntries(rest)
    requires Enabled(w1, Loss(x)) && FoldJournal(x.snapshot, 0, x.journal) == Some(rest)
    ensures var w2 := Next(w1, Loss(x));
            && StartedFrom(SettledAt(x.snapshot, x.journal, x.registry), now, rest, w2)
            && !w2.proc.mem.laneUncertain && ValidRegistry(w2.proc.mem.reg)
  {
    AcceptsEveryChoice(w1, x.snapshot, x.journal, x.registry, now);
    StartSucceeds(w1, SettledAt(x.snapshot, x.journal, x.registry), now, rest);
    hide Inv, Restart, Accepts, FoldJournal;
  }

  lemma SubMapTrans(a: Entries, b: Entries, c: Entries)
    requires SubMap(a, b) && SubMap(b, c)
    ensures SubMap(a, c)
  {}

  lemma RoomToCount(m: Mem, at: nat, rest: Entries, all: Entries, id: InteractionId)
    requires SubMap(m.entries, rest) && SubMap(rest, all) && id in all && id !in rest && |all| <= MAX_ENTRIES
    ensures |Pruned(m.entries, at)| < MAX_ENTRIES && id !in Pruned(m.entries, at) && SubMap(Pruned(m.entries, at), m.entries)
  {
    var later := Pruned(m.entries, at);
    SubMapTrans(later, m.entries, rest);
    SubMapTrans(later, rest, all);
    FewerWithout(later, all, id);
  }

  lemma InTime(e: Entry, now: nat)
    requires Live(e, now)
    ensures Horizon(Max(now, e.createdAt)) <= e.createdAt <= Max(now, e.createdAt) + FUTURE_SKEW_MS
  {}

  lemma PrunedIsPart(all: Entries, now: nat)
    ensures SubMap(Pruned(all, now), all)
  {}

  lemma ResendIsCounted(d: Disk, m: Mem, now: nat, all: Entries, rest: Entries, r: Registry, reg: Registry, e: Entry)
    requires m.entries == Pruned(rest, now) && m.reg == Reconciled(reg, m.entries) && ValidRegistry(m.reg)
    requires !m.appendUncertain && !m.laneUncertain && Live(e, now)
    requires SubMap(rest, all) && e.id in all && e.id !in rest && |all| <= MAX_ENTRIES && e.lane in r
    requires reg == Reconciled(r, Pruned(all, now)) && reg[e.lane] < MAX_SAFE
    ensures var res := Record(d, m, Request(e.lane, e.id, e.createdAt), Max(now, e.createdAt), ALL_WRITTEN);
            && res.response == Response.Counted && e.id in res.mem.entries
            && reg[e.lane] < res.mem.entries[e.id].count
  {
    hide *;
    var req, at := Request(e.lane, e.id, e.createdAt), Max(now, e.createdAt);
    InTime(e, now);
    PrunedFewer(rest, all, now, now);
    PrunedIsPart(rest, now);
    RoomToCount(m, at, rest, all, e.id);
    RereadCount(r, Pruned(all, now), m.entries, Pruned(m.entries, at), req);
    FreshIsCounted(d, m, req, at);
  }

  /** The relaunched process holds the record and has counted it. */
  lemma RelaunchHolds(w: World, now: nat, all: Entries, x: Sequel)
    requires Inv(w) && x.save == Written && ValidEntries(all)
    requires FoldJournal(w.disk.snapshot.visible, 0, w.disk.journal.visible) == Some(all)
    requires Accepts(w.disk.snapshot.visible, w.disk.journal.visible, w.disk.registry.visible, now)
    requires x.e.id in all && all[x.e.id] == x.e && Live(x.e, now)
    ensures var w1, r := Relaunched(w, now, x), w.disk.registry.visible;
            && Inv(w1) && w1.proc.Up? && w1.clock == now
            && x.e.id in w1.proc.mem.entries && w1.proc.mem.entries[x.e.id] == x.e
            && x.e.lane in r && w1.proc.mem.reg == Reconciled(r, Pruned(all, now))
            && w1.proc.mem.reg[x.e.lane] == CountAtStart(w.disk, now, x.e.lane)
            && w1.disk.registry.durable == {w1.proc.mem.reg}
            && w1.disk.snapshot.durable == {w.disk.snapshot.visible} && w1.disk.journal.durable == Tails(w.disk.journal)
  {
    assert x.e.id in Pruned(all, now) && Pruned(all, now)[x.e.id] == x.e;
    assert x.e.lane in w.disk.registry.visible;
    RelaunchComesUp(w, now, all, x);
    hide Inv, Accepts, FoldJournal, Next, Pruned, Reconciled, Relaunched, Tails, ValidEntries;
  }

  lemma LossResends(w1: World, now: nat, all: Entries, rest: Entries, r: Registry, x: Sequel)
    requires Inv(w1) && w1.clock == now && x.later == now && x.repair == Written && ValidEntries(rest)
    requires Enabled(w1, Loss(x)) && FoldJournal(x.snapshot, 0, x.journal) == Some(rest)
    requires x.at == Max(now, x.e.createdAt) && x.io == ALL_WRITTEN && Live(x.e, now)
    requires SubMap(rest, all) && x.e.id in all && x.e.id !in rest && |all| <= MAX_ENTRIES && x.e.lane in r
    requires x.registry == Reconciled(r, Pruned(all, now)) && x.registry[x.e.lane] < MAX_SAFE
    ensures var w2 := Next(w1, Loss(x));
            && Enabled(w2, Serve(Again(x), x.at, x.io)) && w2.proc.Up?
            && var res := Record(w2.disk, w2.proc.mem, Again(x), x.at, x.io);
               && res.response == Response.Counted && x.e.id in res.mem.entries
               && x.registry[x.e.lane] < res.mem.entries[x.e.id].count
  {
    LossComesUp(w1, now, x, rest);
    var w2 := Next(w1, Loss(x));
    hide Inv, FoldJournal, Next, Pruned, Reconciled, Record, ValidRegistry, ValidEntries, SubMap;
    ResendIsCounted(w2.disk, w2.proc.mem, now, all, rest, r, x.registry, x.e);
  }

  lemma LossEnabled(w1: World, x: Sequel)
    requires x.snapshot in w1.disk.snapshot.durable && x.journal in w1.disk.journal.durable
    requires x.registry in w1.disk.registry.durable
    ensures Enabled(w1, Loss(x))
  {}

  lemma NotBefore(now: nat, at: nat)
    ensures now <= Max(now, at)
  {}

  lemma CountedAgain(w: World, now: nat, x: Sequel)
    requires var w1 := Relaunched(w, now, x);
             && w1.proc.Up? && x.e.id in w1.proc.mem.entries && w1.proc.mem.entries[x.e.id] == x.e
             && x.e.lane in w1.proc.mem.reg && x.registry == w1.proc.mem.reg && Enabled(w1, Loss(x))
             && var w2 := Next(w1, Loss(x));
                && x.later <= x.at && Enabled(w2, Serve(Again(x), x.at, x.io)) && w2.proc.Up?
                && var r := Record(w2.disk, w2.proc.mem, Again(x), x.at, x.io);
                   && r.response == Response.Counted && x.e.id in r.mem.entries
                   && x.registry[x.e.lane] < r.mem.entries[x.e.id].count
    ensures SecondCount(w, now, x)
  {
    hide Next, Record, Relaunched, Enabled;
  }

  lemma LooseRecounts(w: World, now: nat, j: seq<Entry>, e: Entry) returns (x: Sequel)
    requires Inv(w) && Lacks(w.disk, now, j, e) && CountAtStart(w.disk, now, e.lane) < MAX_SAFE
    ensures SecondCount(w, now, x) && x.e == e
  {
    hide *;
    var d := w.disk;
    var all, rest := LackingIsUnread(w, now, j, e);
    x := LossAndResend(w, now, j, e, Reconciled(d.registry.visible, Pruned(all, now)));
    RelaunchHolds(w, now, all, x);
    var w1 := Relaunched(w, now, x);
    LossEnabled(w1, x);
    LossResends(w1, now, all, rest, d.registry.visible, x);
    NotBefore(now, e.createdAt);
    CountedAgain(w, now, x);
  }

  // ------------------------------------------------- the other way: no other

  /** A record that the files left by the power loss still hold is not counted again. */
  lemma StillReadNotCounted(w2: World, d: Disk, rest: Entries, x: Sequel)
    requires StartedFrom(d, x.later, rest, w2) && x.e.id in rest && rest[x.e.id] == x.e
    requires x.later <= x.at && Enabled(w2, Serve(Again(x), x.at, x.io))
    ensures Record(w2.disk, w2.proc.mem, Again(x), x.at, x.io).response != Response.Counted
  {
    var m := w2.proc.mem;
    assert x.e.createdAt >= Horizon(x.at) ==> x.e.id in Pruned(m.entries, x.at);
    hide Record, Pruned;
    if Record(w2.disk, m, Again(x), x.at, x.io).response == Response.Counted {
      OnlyFreshCounted(w2.disk, m, Again(x), x.at, x.io);
    }
  }

  lemma RelaunchedFrom(w: World, now: nat, x: Sequel) returns (all: Entries)
    requires Inv(w) && Relaunched(w, now, x).proc.Up?
    ensures var w1 := Relaunched(w, now, x);
            && FoldJournal(w.disk.snapshot.visible, 0, w.disk.journal.visible) == Some(all)
            && StartedFrom(Synced(w.disk), now, all, w1)
    ensures SubMap(w.disk.snapshot.visible, all)
    ensures forall k :: k in all ==> all[k].id == k && ((k in w.disk.snapshot.visible && w.disk.snapshot.visible[k] == all[k])
                                     || all[k] in w.disk.journal.visible)
  {
    var d := w.disk;
    all := VisibleReads(w, now);
    hide Inv, Restart, FoldJournal, Found, Synced;
    StartEffect(w, Synced(d), now, x.save, all);
    assert Relaunched(w, now, x) == Restart(w, Synced(d), now, Written, x.save);
    assert Synced(d).snapshot.visible == d.snapshot.visible by { SyncedVisible(d); }
  }

  lemma SyncedVisible(d: Disk)
    ensures var d' := Synced(d);
            && d'.snapshot.visible == d.snapshot.visible && d'.journal.visible == d.journal.visible
            && d'.registry.visible == d.registry.visible && Settled(d'.registry)
  {}

  /** Every record read from the visible files is in the snapshot or a journal line. */
  lemma VisibleReads(w: World, now: nat) returns (all: Entries)
    requires Inv(w)
    ensures FoldJournal(w.disk.snapshot.visible, 0, w.disk.journal.visible) == Some(all) && ValidEntries(all)
    ensures SubMap(w.disk.snapshot.visible, all)
    ensures forall k :: k in all ==> all[k].id == k && ((k in w.disk.snapshot.visible && w.disk.snapshot.visible[k] == all[k])
                                     || all[k] in w.disk.journal.visible)
  {
    var d := w.disk;
    var u, v, p :| Good(w, u, v, p, false);
    ReadBack(d, w.clock, u, v, p, d.snapshot.visible, d.journal.visible, now, false);
    AcceptsEveryChoice(w, d.snapshot.visible, d.journal.visible, d.registry.visible, now);
    all := FoldJournal(d.snapshot.visible, 0, d.journal.visible).value;
  }

  lemma LostFrom(w1: World, x: Sequel) returns (rest: Entries)
    requires Inv(w1) && Enabled(w1, Loss(x)) && Next(w1, Loss(x)).proc.Up?
    ensures StartedFrom(SettledAt(x.snapshot, x.journal, x.registry), x.later, rest, Next(w1, Loss(x)))
    ensures forall e :: e in Found(x.snapshot, x.journal) ==> e.id in rest && rest[e.id] == e
  {
    AcceptsEveryChoice(w1, x.snapshot, x.journal, x.registry, x.later);
    rest := FoldJournal(x.snapshot, 0, x.journal).value;
    hide Inv, Restart, Accepts, FoldJournal, Found;
    StartEffect(w1, SettledAt(x.snapshot, x.journal, x.registry), x.later, x.repair, rest);
  }

  lemma RelaunchFacts(w: World, now: nat, x: Sequel) returns (all: Entries)
    requires Inv(w) && SecondCount(w, now, x)
    ensures var d, w1, e := w.disk, Relaunched(w, now, x), x.e;
            && Inv(w1) && Enabled(w1, Loss(x)) && w1.proc.Up? && e.lane in w1.proc.mem.reg
            && x.snapshot == d.snapshot.visible && x.journal in Tails(d.journal)
            && e.id in all && all[e.id] == e && Live(e, now)
            && w1.proc.mem.reg[e.lane] == CountAtStart(d, now, e.lane)
    ensures SubMap(w.disk.snapshot.visible, all)
    ensures forall k :: k in all ==> all[k].id == k && ((k in w.disk.snapshot.visible && w.disk.snapshot.visible[k] == all[k])
                                     || all[k] in w.disk.journal.visible)
  {
    all := RelaunchedFrom(w, now, x);
    NextKeeps(w, Relaunch(now, Written, x.save));
    assert Synced(w.disk).journal.durable == Tails(w.disk.journal);
    hide Inv, Next, FoldJournal, Record, Reconciled, Found, Tails;
  }

  /** A record read from the visible files and not from the ones the loss left is lacking. */
  lemma UnreadLacks(d: Disk, now: nat, j: seq<Entry>, e: Entry, all: Entries)
    requires j in Tails(d.journal) && e.id in all && all[e.id] == e && Live(e, now)
    requires e !in Found(d.snapshot.visible, j)
    requires SubMap(d.snapshot.visible, all)
    requires forall k :: k in all ==> all[k].id == k && ((k in d.snapshot.visible && d.snapshot.visible[k] == all[k])
                                      || all[k] in d.journal.visible)
    ensures Lacks(d, now, j, e)
  {
    InFound(d.snapshot.visible, j, e.id);
    if e in j { LineFound(d.snapshot.visible, j, e); }
  }

  lemma SecondCountIsLoose(w: World, now: nat, x: Sequel)
    requires Inv(w) && SecondCount(w, now, x)
    ensures Lacks(w.disk, now, x.journal, x.e) && CountAtStart(w.disk, now, x.e.lane) < MAX_SAFE
  {
    hide *;
    var all := RelaunchFacts(w, now, x);
    Resent(w, now, x);
    UnreadAgain(Relaunched(w, now, x), x);
    UnreadLacks(w.disk, now, x.journal, x.e, all);
  }

  lemma Resent(w: World, now: nat, x: Sequel)
    requires SecondCount(w, now, x)
    ensures var w1 := Relaunched(w, now, x);
            && w1.proc.Up? && x.e.lane in w1.proc.mem.reg && Enabled(w1, Loss(x))
            && var w2 := Next(w1, Loss(x));
               && x.later <= x.at && Enabled(w2, Serve(Again(x), x.at, x.io)) && w2.proc.Up?
               && var r := Record(w2.disk, w2.proc.mem, Again(x), x.at, x.io);
                  && r.response == Response.Counted && x.e.id in r.mem.entries
                  && w1.proc.mem.reg[x.e.lane] < r.mem.entries[x.e.id].count
  {
    assert Enabled(Next(Relaunched(w, now, x), Loss(x)), Serve(Again(x), x.at, x.io));
    hide Next, Record, Relaunched;
  }

  lemma InFound(s: Entries, j: seq<Entry>, id: InteractionId)
    ensures id in s ==> s[id] in Found(s, j)
  {}

  lemma LineFound(s: Entries, j: seq<Entry>, e: Entry)
    requires e in j
    ensures e in Found(s, j)
  {}

  /** What is counted after the power loss is not in what the power loss left. */
  lemma UnreadAgain(w1: World, x: Sequel)
    requires Inv(w1) && Enabled(w1, Loss(x))
    requires var w2 := Next(w1, Loss(x));
             x.later <= x.at && Enabled(w2, Serve(Again(x), x.at, x.io)) && w2.proc.Up?
             && var r := Record(w2.disk, w2.proc.mem, Again(x), x.at, x.io);
                r.response == Response.Counted && x.e.id in r.mem.entries
    ensures x.e !in Found(x.snapshot, x.journal)
    ensures var w2 := Next(w1, Loss(x));
            Record(w2.disk, w2.proc.mem, Again(x), x.at, x.io).mem.entries[x.e.id].count <= MAX_SAFE
  {
    var w2 := Next(w1, Loss(x));
    hide Inv, Next, Record, Found;
    var rest := LostFrom(w1, x);
    OnlyFreshCounted(w2.disk, w2.proc.mem, Again(x), x.at, x.io);
    if x.e in Found(x.snapshot, x.journal) {
      StillReadNotCounted(w2, SettledAt(x.snapshot, x.journal, x.registry), rest, x);
    }
  }

  /** The same about one interaction: this very line can be counted again exactly when a
      value of the journal lacks it. */
  lemma LineCountedTwiceExactly(w: World, now: nat, e: Entry)
    requires Inv(w)
    ensures (exists x :: SecondCount(w, now, x) && x.e == e) <==> LooseLine(w.disk, now, e)
  {
    hide SecondCount, Lacks, CountAtStart, Inv;
    if x :| SecondCount(w, now, x) && x.e == e {
      SecondCountIsLoose(w, now, x);
      assert LooseLine(w.disk, now, e);
    }
    if LooseLine(w.disk, now, e) {
      var j :| Lacks(w.disk, now, j, e);
      var x := LooseRecounts(w, now, j, e);
      assert SecondCount(w, now, x) && x.e == e;
    }
  }

  /** From any reachable files: a relaunch can be followed by a power loss and a second
      count of an interaction the relaunched process had counted, exactly when some
      value of the journal lacks a live line of the visible journal that the snapshot
      does not hold, in a lane whose count is not at its limit. */
  lemma CountedTwiceExactly(w: World, now: nat)
    requires Inv(w)
    ensures (exists x :: SecondCount(w, now, x)) <==> Loose(w.disk, now)
  {
    hide SecondCount, LooseLine, Inv;
    if x :| SecondCount(w, now, x) {
      LineCountedTwiceExactly(w, now, x.e);
      assert LooseLine(w.disk, now, x.e);
    }
    if e :| LooseLine(w.disk, now, e) {
      LineCountedTwiceExactly(w, now, e);
    }
  }
}
