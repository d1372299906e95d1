/**
 Counts on disk only grow: no step lowers a count that every value of the registry
 file already has, and a restart recovers at least what was ever saved.
 */
module LedgerSaved {
  import opened Durable
  import opened Ledger
  import opened LedgerRuns
  import opened LedgerAccount

  predicate Below(r: Registry, r': Registry) {
    forall l :: l in r ==> l in r' && r[l] <= r'[l]
  }

  ghost predicate Grown(d: Disk, d': Disk) {
    forall r' :: r' in d'.registry.durable ==> exists r :: r in d.registry.durable && Below(r, r')
  }

  lemma SameGrown(d: Disk, d': Disk)
    requires forall r :: r in d'.registry.durable ==> r in d.registry.durable
    ensures Grown(d, d')
  {
    forall r' | r' in d'.registry.durable ensures exists r :: r in d.registry.durable && Below(r, r') {
      assert Below(r', r');
    }
  }

  /** A saved change of the registry that memory holds, when memory and file agree. */
  lemma ChangedGrown(d: Disk, d': Disk, reg: Registry)
    requires reg in d.registry.durable
    requires forall r :: r in d'.registry.durable ==> r in d.registry.durable || Below(reg, r)
    ensures Grown(d, d')
  {
    forall r' | r' in d'.registry.durable ensures exists r :: r in d.registry.durable && Below(r, r') {
      if r' in d.registry.durable { assert Below(r', r'); }
    }
  }

  lemma MemoryIsSaved(w: World)
    requires Inv(w) && w.proc.Up? && !w.proc.mem.laneUncertain
    ensures w.proc.mem.reg in w.disk.registry.durable
  {
    var u, v, p :| Good(w, u, v, p, false);
  }

  lemma FromLedgerAbove(reg: Registry, m: Mem, lane: LaneId)
    requires FromLedger(reg, m, lane)
    ensures Below(m.reg, reg)
  {}

  lemma ServeGrows(w: World, ev: Event)
    requires Inv(w) && Enabled(w, ev) && ev.Serve?
    ensures Grown(w.disk, Next(w, ev).disk)
  {
    var m := w.proc.mem;
    var r := Record(w.disk, m, ev.req, ev.now, ev.io);
    if m.laneUncertain {
      SameGrown(w.disk, r.disk);
    } else {
      MemoryIsSaved(w);
      RecordEffect(w.disk, m, ev.req, ev.now, ev.io);
      hide Inv, Record, MaxCount, FromLedger;
      forall x | FromLedger(x, m, ev.req.lane) ensures Below(m.reg, x) { FromLedgerAbove(x, m, ev.req.lane); }
      ChangedGrown(w.disk, r.disk, m.reg);
    }
  }

  lemma ChangeLanesGrows(w: World, ev: Event)
    requires Inv(w) && Enabled(w, ev) && ev.ChangeLanes?
    ensures Grown(w.disk, Next(w, ev).disk)
  {
    var m := w.proc.mem;
    if m.laneUncertain {
      SameGrown(w.disk, Next(w, ev).disk);
    } else {
      MemoryIsSaved(w);
      CommitEffect(w.disk, m, ev.reg, ev.save, Response.Counted);
      hide Inv, CommitRegistry;
      ChangedGrown(w.disk, Next(w, ev).disk, m.reg);
    }
  }

  lemma ReconciledAbove(r: Registry, entries: Entries)
    ensures Below(r, Reconciled(r, entries))
  {
  }

  lemma RestartGrows(w: World, d: Disk, now: nat, generation: Outcome, save: Outcome)
    requires Inv(w) && Reopened(w.disk, d)
    ensures Grown(w.disk, Restart(w, d, now, generation, save).disk)
  {
    assert d.journal.visible in w.disk.journal.durable;
    AcceptsEveryChoice(w, d.snapshot.visible, d.journal.visible, d.registry.visible, now);
    hide Inv, FoldJournal, Launch, Accepts, Found;
    var all := FoldJournal(d.snapshot.visible, 0, d.journal.visible).value;
    StartupRegistries(d, now, generation, save, all);
    var r := d.registry.visible;
    ReconciledAbove(r, Pruned(all, now));
    ChangedGrown(w.disk, Restart(w, d, now, generation, save).disk, r);
  }

  lemma NextRelaunch(w: World, ev: Event)
    requires Enabled(w, ev) && ev.Relaunch?
    ensures Next(w, ev).disk == if ev.generation == Written
                                then Restart(w, Synced(w.disk), ev.now, ev.generation, ev.save).disk else w.disk
  {
    hide Restart, Synced;
  }

  lemma RelaunchGrows(w: World, ev: Event)
    requires Inv(w) && Enabled(w, ev) && ev.Relaunch?
    ensures Grown(w.disk, Next(w, ev).disk)
  {
    hide *;
    FilesVisible(w);
    ReopenedSynced(w.disk);
    SameGrown(w.disk, w.disk);
    NextRelaunch(w, ev);
    RestartGrows(w, Synced(w.disk), ev.now, ev.generation, ev.save);
  }

  /** Whatever a step leaves as a value of the registry file, no lane of it is missing
      or lower than in one of the values the file could have before. */
  lemma CountsOnlyGrow(w: World, ev: Event)
    requires Inv(w) && Enabled(w, ev)
    ensures Grown(w.disk, Next(w, ev).disk)
  {
    hide Grown, Restart, Reopened, Inv, Record, CommitRegistry;
    match ev
    case Serve(_, _, _) => ServeGrows(w, ev);
    case ChangeLanes(_, _, _) => ChangeLanesGrows(w, ev);
    case PowerLoss(s, j, r, now, generation, save) =>
      ReopenedSettled(w.disk, s, j, r, now);
      RestartGrows(w, SettledAt(s, j, r), now, generation, save);
    case Relaunch(_, _, _) => RelaunchGrows(w, ev);
  }

  /** The lane has at least this count in every value the registry file may have. */
  predicate SavedAtLeast(d: Disk, l: LaneId, count: nat) {
    forall r :: r in d.registry.durable ==> l in r && count <= r[l]
  }

  // ------------------------------------------------------ what an answer means

  predicate Acknowledges(r: Response) {
    r == Response.Counted || r == Duplicate
  }

  /** The answer's entry is about the request, and its count is in every value the registry may have. */
  ghost predicate AnswerSaved(req: Request, r: Ledger.Result) {
    Acknowledges(r.response) ==>
      && req.id in r.mem.entries
      && var e := r.mem.entries[req.id];
         e.lane == req.lane && e.createdAt == req.createdAt && SavedAtLeast(r.disk, req.lane, e.count)
  }

  lemma CommitAnswered(d: Disk, m: Mem, reg: Registry, save: Outcome, ok: Response)
    requires Acknowledges(ok)
    ensures var r := CommitRegistry(d, m, reg, save, ok);
            && r.mem.entries == m.entries
            && (Acknowledges(r.response) ==> r.response == ok && r.disk.registry == File(reg, {reg}))
  {}

  lemma ResendSaved(d: Disk, m: Mem, req: Request, io: Io)
    requires req.id in m.entries && req.lane in m.reg && d.registry == File(m.reg, {m.reg})
    ensures AnswerSaved(req, Resend(d, m, req, io))
  {
    var e := m.entries[req.id];
    CommitAnswered(d, m, m.reg[req.lane := e.count], io.save, Duplicate);
    hide CommitRegistry;
  }

  lemma AppendSaved(d: Disk, m: Mem, e: Entry, req: Request, io: Io)
    requires e.lane in m.reg && e.id == req.id && e.lane == req.lane && e.createdAt == req.createdAt
    ensures AnswerSaved(req, AppendNew(d, m, e, io))
  {
    var d1 := d.(journal := Append(d.journal, e, io.append));
    var m1 := m.(entries := m.entries[e.id := e], journalEntries := m.journalEntries + 1);
    CommitAnswered(d1, m1, m.reg[e.lane := e.count], io.save, Response.Counted);
    hide CommitRegistry, Append;
  }

  lemma CountSaved(d: Disk, m: Mem, req: Request, io: Io)
    requires req.lane in m.reg
    ensures AnswerSaved(req, CountNew(d, m, req, io))
  {
    var e := NewEntry(m.reg, m.entries, req);
    assert e.id == req.id && e.lane == req.lane && e.createdAt == req.createdAt;
    var a := MakeRoom(d, m, io);
    RoomAnswers(d, m, io);
    hide MakeRoom, AppendNew, NewEntry, MaxCount, AnswerSaved;
    if a.response == Response.Counted { AppendSaved(a.disk, a.mem, e, req, io); }
    NoAnswer(req, a);
    NoAnswer(req, Result(d, m, CountExhausted));
    NoAnswer(req, Result(a.disk, a.mem, CapacityFull));
  }

  lemma RoomAnswers(d: Disk, m: Mem, io: Io)
    ensures MakeRoom(d, m, io).response in {Response.Counted, StorageError}
  {}

  lemma NoAnswer(req: Request, r: Ledger.Result)
    ensures !Acknowledges(r.response) ==> AnswerSaved(req, r)
  {}

  /** An answer that makes the client stop asking is backed by the disk: whatever a power
      loss leaves of the registry, the lane's count includes the interaction. */
  lemma AnswerIsSaved(w: World, ev: Event)
    requires Inv(w) && Enabled(w, ev) && ev.Serve?
    ensures AnswerSaved(ev.req, Record(w.disk, w.proc.mem, ev.req, ev.now, ev.io))
  {
    var d, m, req, io := w.disk, w.proc.mem, ev.req, ev.io;
    if m.appendUncertain || m.laneUncertain || !ValidRegistry(m.reg) || req.lane !in m.reg
       || req.createdAt < Horizon(ev.now) || req.createdAt > ev.now + FUTURE_SKEW_MS {
      return;
    }
    SavedRegistry(w);
    AdmitEffect(d, m, ev.now, io);
    var a := AdmitFresh(d, m, ev.now, io);
    assert a.response in {Response.Counted, StorageError};
    if req.id in m.entries { ResendSaved(d, m, req, io); }
    if a.response == Response.Counted {
      if req.id in a.mem.entries { ResendSaved(a.disk, a.mem, req, io); }
      CountSaved(a.disk, a.mem, req, io);
    }
    NoAnswer(req, a);
    hide Inv, AdmitFresh, Resend, CountNew, AnswerSaved, ValidRegistry, Pruned;
  }

  lemma SavedRegistry(w: World)
    requires Inv(w) && w.proc.Up? && !w.proc.mem.laneUncertain
    ensures w.disk.registry == File(w.proc.mem.reg, {w.proc.mem.reg})
  {
    var u, v, p :| Good(w, u, v, p, false);
  }

  // -------------------------------------------------------------------- runs

  /** A count once saved is there after every continuation of the run, and a restart
      recovers at least that count from whatever a power loss leaves. */
  lemma {:induction false} SavedCountsStay(ws: seq<World>, evs: seq<Event>, i: nat, k: nat, l: LaneId, count: nat)
    requires Run(ws, evs) && i <= k <= |evs| && SavedAtLeast(ws[i].disk, l, count)
    ensures SavedAtLeast(ws[k].disk, l, count)
    ensures forall s, j, r, now :: s in ws[k].disk.snapshot.durable && j in ws[k].disk.journal.durable
                                   && r in ws[k].disk.registry.durable && FoldJournal(s, 0, j).Some? ==>
              l in r && Recovered(s, j, r, now, l) >= count
    decreases k
  {
    if i < k {
      SavedCountsStay(ws, evs, i, k - 1, l, count);
      RunKeeps(ws, evs, k - 1);
      CountsOnlyGrow(ws[k - 1], evs[k - 1]);
      StillSaved(ws[k - 1].disk, ws[k].disk, l, count);
    }
  }

  lemma StillSaved(d: Disk, d': Disk, l: LaneId, count: nat)
    requires Grown(d, d') && SavedAtLeast(d, l, count)
    ensures SavedAtLeast(d', l, count)
  {}

  lemma HistoryGrowsStep(w: World, ev: Event)
    requires Enabled(w, ev)
    ensures w.hist <= Next(w, ev).hist
  {
    hide Record, Launch, CommitRegistry;
  }

  lemma {:induction false} HistoryGrows(ws: seq<World>, evs: seq<Event>, i: nat, k: nat)
    requires Run(ws, evs) && i <= k <= |evs|
    ensures ws[i].hist <= ws[k].hist
    decreases k
  {
    if i < k {
      HistoryGrows(ws, evs, i, k - 1);
      HistoryGrowsStep(ws[k - 1], evs[k - 1]);
    }
  }

  lemma TotalGrows(base: Registry, hist: set<Entry>, hist': set<Entry>, l: LaneId)
    requires hist <= hist'
    ensures Total(base, hist, l) <= Total(base, hist', l)
  {
    SubsetSize(OfLane(hist, l), OfLane(hist', l));
  }

  /** In a careful and prompt run a restart that loses no count recovers at least every count any value of
      the registry file ever had, also one that a power loss took away again. */
  lemma RecoversEverySave(ws: seq<World>, evs: seq<Event>, i: nat, saved: Registry,
                          s: Entries, j: seq<Entry>, r: Registry, now: nat, l: LaneId)
    requires Run(ws, evs) && Careful(ws, evs) && forall k :: 0 <= k < |evs| ==> Prompt(ws[k], evs[k])
    requires var w := ws[|evs|];
             s in w.disk.snapshot.durable && j in w.disk.journal.durable && r in w.disk.registry.durable && now >= w.clock
    requires l in r && NewestKept(ws[|evs|].hist + Found(s, j), ws[0].disk.registry.visible, r, now, l)
    requires i <= |evs| && saved in ws[i].disk.registry.durable && l in saved
    ensures FoldJournal(s, 0, j).Some? && Recovered(s, j, r, now, l) >= saved[l]
  {
    var base := ws[0].disk.registry.visible;
    RecoveredExactly(ws, evs, s, j, r, now, l);
    RunAccounts(ws, evs, i);
    HistoryGrows(ws, evs, i, |evs|);
    TotalGrows(base, ws[i].hist, ws[|evs|].hist + Found(s, j), l);
    var u, p :| Exact(ws[i], u, p) && Account(ws[i], base, p);
    assert InBounds(saved, base, ws[i].hist);
    hide Run, Careful, Exact, Total, Recovered, NewestKept;
  }
}
