/**
 Exactly-once counting: the count a restart recovers for a lane is the lane's first
 count plus the number of distinct interactions durably journaled for it.
 */
module LedgerAccount {
  import opened Durable
  import opened Ledger
  import opened LedgerRuns

  // -------------------------------------------------------------- the history

  /** The live history is in the generation `u`, and all of `u` is history. */
  ghost predicate HistoryAgrees(w: World, u: Entries) {
    && (forall k :: k in u ==> u[k] in w.hist)
    && (forall h :: h in w.hist && Live(h, w.clock) ==> h.id in u && u[h.id] == h)
  }

  /** The process works with exactly what no power loss takes away, and that is the history. */
  ghost predicate Exact(w: World, u: Entries, p: Option<Entry>) {
    Good(w, u, u, p, true) && HistoryAgrees(w, u)
  }

  /** A relaunch finds no line that a power loss can still take away from it. */
  ghost predicate KeepsLines(w: World, ev: Event) {
    ev.Relaunch? && ev.generation == Written ==> NothingLacks(w.disk, ev.now)
  }

  lemma InitialExact(w: World)
    requires Initial(w)
    ensures Exact(w, map[], None)
  {
    InitialInv(w, true);
    hide Good;
  }

  lemma ServeHistory(w: World, u: Entries, u': Entries, held: Entries)
    requires HistoryAgrees(w, u) && GenerationStep(u, u', held, w.clock) && ValidEntries(u')
    ensures HistoryAgrees(w.(hist := w.hist + Records(held)), u')
  {}

  lemma HistoryElsewhere(w: World, w': World, u: Entries)
    requires HistoryAgrees(w, u) && w.clock <= w'.clock && w.hist == w'.hist
    ensures HistoryAgrees(w', u)
  {
  }

  lemma GoodIsValid(w: World, u: Entries, v: Entries, p: Option<Entry>, timed: bool)
    requires Good(w, u, v, p, timed)
    ensures ValidEntries(v)
  {
    forall k | k in v ensures v[k].id == k && v[k].count <= MAX_SAFE {
      assert Upper(v, p)[k] == v[k];
    }
  }

  lemma ServeExact(w: World, ev: Event, u: Entries, p: Option<Entry>) returns (u': Entries, p': Option<Entry>)
    requires Exact(w, u, p) && Enabled(w, ev) && Timely(w, ev) && ev.Serve?
    ensures Exact(Next(w, ev), u', p')
    ensures p' == p || p' == None || (FreshRequest(w.proc.mem, ev.req, ev.now)
              && p' == Some(NewEntry(w.proc.mem.reg, Pruned(w.proc.mem.entries, ev.now), ev.req)))
  {
    hide Good, HistoryAgrees, GenerationStep, Record;
    var v';
    u', v', p' := ServeKeeps(w, ev, u, u, p, true);
    var w' := Next(w, ev);
    GoodIsValid(w', u', v', p', true);
    HistoryElsewhere(w, w.(clock := ev.now), u);
    ServeHistory(w.(clock := ev.now), u, u', w'.proc.mem.entries);
    HistoryElsewhere(w.(clock := ev.now, hist := w'.hist), w', u');
  }

  lemma ChangeLanesExact(w: World, ev: Event, u: Entries, p: Option<Entry>)
    requires Exact(w, u, p) && Enabled(w, ev) && Timely(w, ev) && ev.ChangeLanes?
    ensures Exact(Next(w, ev), u, p)
  {
    ChangeLanesKeeps(w, ev, u, u, p, true);
    HistoryElsewhere(w, Next(w, ev), u);
    hide Good, HistoryAgrees, CommitRegistry;
  }

  lemma RestartHistory(w: World, u: Entries, s: Entries, j: seq<Entry>, all: Entries, now: nat)
    requires HistoryAgrees(w, u) && now >= w.clock
    requires forall k :: k in u && Live(u[k], now) ==> k in all && all[k] == u[k]
    requires forall k :: k in all ==> (k in s && s[k] == all[k]) || all[k] in j
    requires forall e :: e in Found(s, j) ==> e.id in all && all[e.id] == e
    ensures HistoryAgrees(w.(clock := now, hist := w.hist + Found(s, j)), all)
  {}

  /** What a start reads is the history from then on. */
  lemma RestartReads(w: World, s: Entries, j: seq<Entry>, r: Registry, now: nat, u: Entries, p: Option<Entry>)
    returns (all: Entries)
    requires Exact(w, u, p) && now >= w.clock
    requires s in w.disk.snapshot.durable && j in w.disk.journal.durable && r in w.disk.registry.durable
    ensures FoldJournal(s, 0, j) == Some(all)
    ensures HistoryAgrees(w.(clock := now, hist := w.hist + Found(s, j)), all)
  {
    TimedIsInv(w, u, u, p, true);
    AcceptsEveryChoice(w, s, j, r, now);
    ReadBack(w.disk, w.clock, u, u, p, s, j, now, true);
    all := FoldJournal(s, 0, j).value;
    hide Good, HistoryAgrees, FoldJournal, Accepts;
    RestartHistory(w, u, s, j, all, now);
  }

  /** A start whose files can lose nothing more works with exactly the history. */
  lemma RestartExact(w: World, d: Disk, now: nat, generation: Outcome, save: Outcome, u: Entries, p: Option<Entry>)
    returns (all: Entries)
    requires Exact(w, u, p) && now >= w.clock && Reopened(w.disk, d) && NothingLacks(d, now)
    ensures Exact(Restart(w, d, now, generation, save), all, None)
    ensures FoldJournal(d.snapshot.visible, 0, d.journal.visible) == Some(all)
  {
    var s, j, r := d.snapshot.visible, d.journal.visible, d.registry.visible;
    assert j in w.disk.journal.durable;
    all := RestartReads(w, s, j, r, now, u, p);
    hide Good, HistoryAgrees, NothingLacks, Reopened, FoldJournal, Launch;
    var u', v' := RestartKeeps(w, d, now, generation, save, u, u, p, true);
    HistoryElsewhere(w.(clock := now, hist := w.hist + Found(s, j)), Restart(w, d, now, generation, save), all);
  }

  lemma DownExact(w: World, now: nat, u: Entries, p: Option<Entry>)
    requires Exact(w, u, p) && now >= w.clock
    ensures Exact(w.(proc := Down, clock := now), u, p)
  {
    ClockAdvances(w, now, u, u, p, true);
    HistoryElsewhere(w, w.(proc := Down, clock := now), u);
    hide FilesAgree, HistoryAgrees;
  }

  // ------------------------------------------------------------- the counts

  function OfLane(hist: set<Entry>, l: LaneId): set<Entry> {
    set e | e in hist && e.lane == l
  }

  function Base(base: Registry, l: LaneId): nat {
    if l in base then base[l] else 0
  }

  function Total(base: Registry, hist: set<Entry>, l: LaneId): nat {
    Base(base, l) + |OfLane(hist, l)|
  }

  /** Every journaled interaction older than the retry horizon has reached every
      value the saved registry may have. */
  predicate Reached(d: Disk, hist: set<Entry>, now: nat) {
    forall h, r :: h in hist && !Live(h, now) && r in d.registry.durable ==> h.lane in r && h.count <= r[h.lane]
  }

  ghost predicate InBounds(r: Registry, base: Registry, hist: set<Entry>) {
    base.Keys <= r.Keys && forall l :: l in r ==> Base(base, l) <= r[l] <= Total(base, hist, l)
  }

  ghost predicate CountsWithin(hist: set<Entry>, base: Registry) {
    forall h :: h in hist ==> Base(base, h.lane) < h.count <= Total(base, hist, h.lane)
  }

  ghost predicate CountsDistinct(hist: set<Entry>) {
    forall h, g :: h in hist && g in hist && h.lane == g.lane && h.count == g.count ==> h == g
  }

  ghost predicate CountsReached(hist: set<Entry>, base: Registry) {
    forall l :: OfLane(hist, l) != {} ==> exists h :: h in OfLane(hist, l) && h.count == Total(base, hist, l)
  }

  /** No recorded entry is about the same interaction. */
  predicate KeyNew(hist: set<Entry>, e: Entry) {
    forall h :: h in hist ==> h.id != e.id || h.createdAt != e.createdAt
  }

  /** Two entries about one interaction, an id with its creation time, are one entry. */
  ghost predicate KeysDistinct(hist: set<Entry>) {
    forall h, g :: h in hist && g in hist && h.id == g.id && h.createdAt == g.createdAt ==> h == g
  }

  /** Counts of one lane are exactly the numbers after its first count: distinct,
      no larger than their number, the largest of them reached. */
  ghost predicate Counted1To(hist: set<Entry>, base: Registry) {
    CountsWithin(hist, base) && CountsDistinct(hist) && CountsReached(hist, base) && KeysDistinct(hist)
  }

  ghost predicate Account(w: World, base: Registry, p: Option<Entry>) {
    && Counted1To(w.hist, base)
    && (forall r :: r in w.disk.registry.durable ==> InBounds(r, base, w.hist))
    && (w.proc.Up? ==> InBounds(w.proc.mem.reg, base, w.hist))
    && (p.Some? ==> KeyNew(w.hist, p.value) && p.value.count == Total(base, w.hist, p.value.lane) + 1)
  }

  ghost predicate Sound(w: World, base: Registry) {
    exists u, p :: Exact(w, u, p) && Account(w, base, p)
  }

  lemma AddTotal(hist: set<Entry>, base: Registry, e: Entry, l: LaneId)
    requires e !in hist
    ensures Total(base, hist + {e}, l) == Total(base, hist, l) + if l == e.lane then 1 else 0
    ensures OfLane(hist + {e}, l) == if l == e.lane then OfLane(hist, l) + {e} else OfLane(hist, l)
  {
    assert OfLane(hist + {e}, l) == if l == e.lane then OfLane(hist, l) + {e} else OfLane(hist, l);
  }

  lemma AddReached(hist: set<Entry>, base: Registry, e: Entry)
    requires CountsReached(hist, base) && e !in hist && e.count == Total(base, hist, e.lane) + 1
    ensures CountsReached(hist + {e}, base)
  {
    var hist' := hist + {e};
    forall l | OfLane(hist', l) != {} ensures exists h :: h in OfLane(hist', l) && h.count == Total(base, hist', l) {
      AddTotal(hist, base, e, l);
      if l == e.lane {
        assert e in OfLane(hist', l);
      } else {
        var h :| h in OfLane(hist, l) && h.count == Total(base, hist, l);
        assert h in OfLane(hist', l);
      }
    }
  }

  lemma AddDistinct(hist: set<Entry>, base: Registry, e: Entry)
    requires CountsWithin(hist, base) && CountsDistinct(hist) && KeysDistinct(hist)
    requires KeyNew(hist, e) && e.count == Total(base, hist, e.lane) + 1
    ensures CountsDistinct(hist + {e}) && KeysDistinct(hist + {e})
  {}

  lemma AddWithin(hist: set<Entry>, base: Registry, e: Entry)
    requires CountsWithin(hist, base) && e !in hist && e.count == Total(base, hist, e.lane) + 1
    ensures CountsWithin(hist + {e}, base)
    ensures forall l :: Total(base, hist, l) <= Total(base, hist + {e}, l)
    ensures Total(base, hist + {e}, e.lane) == e.count
  {
    forall l ensures Total(base, hist + {e}, l) == Total(base, hist, l) + if l == e.lane then 1 else 0 {
      AddTotal(hist, base, e, l);
    }
    assert Base(base, e.lane) <= Total(base, hist, e.lane);
    hide Total;
  }

  /** Journaling one more interaction under the next count keeps the counts exact. */
  lemma AddCounted(hist: set<Entry>, base: Registry, e: Entry)
    requires Counted1To(hist, base) && KeyNew(hist, e) && e.count == Total(base, hist, e.lane) + 1
    ensures Counted1To(hist + {e}, base) && e !in hist
    ensures forall l :: Total(base, hist, l) <= Total(base, hist + {e}, l)
    ensures Total(base, hist + {e}, e.lane) == e.count
  {
    assert e !in hist;
    AddReached(hist, base, e);
    AddDistinct(hist, base, e);
    AddWithin(hist, base, e);
  }

  /** The larger of a saved count and the largest live journaled count is the total. */
  lemma LargestIsTotal(hist: set<Entry>, base: Registry, r: Registry, live: Entries, l: LaneId, now: nat)
    requires Counted1To(hist, base) && l in r && InBounds(r, base, hist)
    requires forall h :: h in hist && Live(h, now) ==> h.id in live && live[h.id] == h
    requires forall k :: k in live ==> live[k] in hist
    requires forall h :: h in hist && !Live(h, now) && h.lane == l ==> h.count <= r[l]
    ensures Max(r[l], MaxCount(live, l)) == Total(base, hist, l)
  {}

  /** The lane's newest interaction is in the saved count, or its entry has not expired. */
  ghost predicate NewestKept(hist: set<Entry>, base: Registry, r: Registry, now: nat, l: LaneId)
    requires l in r
  {
    r[l] == Total(base, hist, l) || exists h :: h in OfLane(hist, l) && Live(h, now) && h.count == Total(base, hist, l)
  }

  /** Load prunes before it reconciles, so this is exactly when no count is missing. */
  lemma LargestIsTotalExactly(hist: set<Entry>, base: Registry, r: Registry, live: Entries, l: LaneId, now: nat)
    requires CountsWithin(hist, base) && l in r && InBounds(r, base, hist)
    requires forall h :: h in hist && Live(h, now) ==> h.id in live && live[h.id] == h
    requires forall k :: k in live ==> live[k] in hist && Live(live[k], now)
    ensures Max(r[l], MaxCount(live, l)) <= Total(base, hist, l)
    ensures Max(r[l], MaxCount(live, l)) == Total(base, hist, l) <==> NewestKept(hist, base, r, now, l)
  {
    hide *;
    LargestLive(hist, live, l, now);
    NoCountAbove(hist, base, r, l);
    NewestDecides(hist, base, r, l, now, MaxCount(live, l));
  }

  lemma NoCountAbove(hist: set<Entry>, base: Registry, r: Registry, l: LaneId)
    requires CountsWithin(hist, base) && l in r && InBounds(r, base, hist)
    ensures r[l] <= Total(base, hist, l) && forall h :: h in OfLane(hist, l) ==> h.count <= Total(base, hist, l)
  {}

  lemma NewestDecides(hist: set<Entry>, base: Registry, r: Registry, l: LaneId, now: nat, m: nat)
    requires l in r && r[l] <= Total(base, hist, l)
    requires forall h :: h in OfLane(hist, l) ==> h.count <= Total(base, hist, l)
    requires m == 0 || exists h :: h in OfLane(hist, l) && Live(h, now) && h.count == m
    requires forall h :: h in OfLane(hist, l) && Live(h, now) ==> h.count <= m
    ensures Max(r[l], m) <= Total(base, hist, l)
    ensures Max(r[l], m) == Total(base, hist, l) <==> NewestKept(hist, base, r, now, l)
  {
    hide Total, OfLane, Live;
  }

  /** The largest live count is 0 or the count of a live entry, and no live entry has more. */
  lemma LargestLive(hist: set<Entry>, live: Entries, l: LaneId, now: nat)
    requires forall h :: h in hist && Live(h, now) ==> h.id in live && live[h.id] == h
    requires forall k :: k in live ==> live[k] in hist && Live(live[k], now)
    ensures MaxCount(live, l) == 0 || exists h :: h in OfLane(hist, l) && Live(h, now) && h.count == MaxCount(live, l)
    ensures forall h :: h in OfLane(hist, l) && Live(h, now) ==> h.count <= MaxCount(live, l)
  {
    var m := MaxCount(live, l);
    assert IsMaxCount(live, l, m);
    hide MaxCount;
    if m > 0 {
      var k :| k in live && live[k].lane == l && live[k].count == m;
      assert live[k] in OfLane(hist, l);
    }
  }

  // ------------------------------------------------------------ one request

  /** The registry as it was, or with the lane raised to a count the ledger held. */
  ghost predicate FromLedger(reg: Registry, m: Mem, lane: LaneId) {
    || reg == m.reg
    || (lane in m.reg && (exists k :: k in m.entries && m.entries[k].lane == lane
                                       && m.reg[lane] < m.entries[k].count
                                       && reg == m.reg[lane := m.entries[k].count]))
  }

  ghost predicate NothingCounted(d: Disk, m: Mem, lane: LaneId, r: Ledger.Result) {
    && SubMap(r.mem.entries, m.entries)
    && FromLedger(r.mem.reg, m, lane)
    && (forall x :: x in r.disk.registry.durable ==> x in d.registry.durable || FromLedger(x, m, lane))
  }

  ghost predicate OneCounted(d: Disk, m: Mem, req: Request, now: nat, r: Ledger.Result) {
    && FreshRequest(m, req, now)
    && var live := Pruned(m.entries, now);
       var e := NewEntry(m.reg, live, req);
       && r.mem.entries == live[req.id := e]
       && (r.mem.reg == m.reg || r.mem.reg == m.reg[req.lane := e.count])
       && (forall x :: x in r.disk.registry.durable ==> x in d.registry.durable || x == m.reg[req.lane := e.count])
  }

  lemma AdmitEffect(d: Disk, m: Mem, now: nat, io: Io)
    ensures var a := AdmitFresh(d, m, now, io);
            && a.disk.registry == d.registry
            && (a.response == Counted ==> a.mem.entries == Pruned(m.entries, now) && a.mem.reg == m.reg)
            && (a.response == Counted || a.mem == m)
  {
  }

  lemma MakeRoomEffect(d: Disk, m: Mem, io: Io)
    ensures var a := MakeRoom(d, m, io);
            a.mem.entries == m.entries && a.mem.reg == m.reg && a.disk.registry == d.registry
  {
  }

  lemma AppendNewEffect(d: Disk, m: Mem, e: Entry, io: Io)
    requires e.lane in m.reg
    ensures var r := AppendNew(d, m, e, io);
            || (r.mem.entries == m.entries && r.mem.reg == m.reg && r.disk.registry == d.registry)
            || (&& r.mem.entries == m.entries[e.id := e]
                && (r.mem.reg == m.reg || r.mem.reg == m.reg[e.lane := e.count])
                && (forall x :: x in r.disk.registry.durable ==> x in d.registry.durable || x == m.reg[e.lane := e.count]))
  {
    var d1 := d.(journal := Append(d.journal, e, io.append));
    var m1 := m.(entries := m.entries[e.id := e], journalEntries := m.journalEntries + 1);
    CommitEffect(d1, m1, m.reg[e.lane := e.count], io.save, Response.Counted);
    hide CommitRegistry, Append;
  }

  /** A registry save changes the count in memory and on disk, or leaves both. */
  lemma CommitEffect(d: Disk, m: Mem, reg: Registry, save: Outcome, ok: Response)
    ensures var r := CommitRegistry(d, m, reg, save, ok);
            && r.mem.entries == m.entries && (r.mem.reg == m.reg || r.mem.reg == reg)
            && (forall x :: x in r.disk.registry.durable ==> x in d.registry.durable || x == reg)
  {}

  lemma CountNewEffect(d: Disk, m: Mem, req: Request, io: Io)
    requires req.lane in m.reg
    ensures var r := CountNew(d, m, req, io);
            var e := NewEntry(m.reg, m.entries, req);
            || (r.mem.entries == m.entries && r.mem.reg == m.reg && r.disk.registry == d.registry)
            || (&& r.mem.entries == m.entries[req.id := e]
                && (r.mem.reg == m.reg || r.mem.reg == m.reg[req.lane := e.count])
                && (forall x :: x in r.disk.registry.durable ==> x in d.registry.durable || x == m.reg[req.lane := e.count]))
  {
    MakeRoomEffect(d, m, io);
    var a := MakeRoom(d, m, io);
    AppendNewEffect(a.disk, a.mem, NewEntry(m.reg, m.entries, req), io);
    hide MakeRoom;
    hide AppendNew;
    hide MaxCount;
  }

  lemma RecordEffect(d: Disk, m: Mem, req: Request, now: nat, io: Io)
    ensures var r := Record(d, m, req, now, io);
            NothingCounted(d, m, req.lane, r) || OneCounted(d, m, req, now, r)
  {
    hide AdmitFresh;
    hide CountNew;
    hide MaxCount;
    hide ValidRegistry;
    if m.appendUncertain || m.laneUncertain || req.lane !in m.reg || !ValidRegistry(m.reg)
       || req.createdAt < Horizon(now) || req.createdAt > now + FUTURE_SKEW_MS {
      return;
    }
    if req.id in m.entries && Live(m.entries[req.id], now) {
      ResendEffect(d, m, req, io);
    } else {
      AdmitEffect(d, m, now, io);
      var a := AdmitFresh(d, m, now, io);
      if a.response == Counted {
        CountNewEffect(a.disk, a.mem, req, io);
      }
    }
  }

  lemma ResendEffect(d: Disk, m: Mem, req: Request, io: Io)
    requires req.id in m.entries && req.lane in m.reg
    ensures NothingCounted(d, m, req.lane, Resend(d, m, req, io))
  {
    var r := Resend(d, m, req, io);
    var e := m.entries[req.id];
    if e.lane == req.lane && e.createdAt == req.createdAt && m.reg[req.lane] < e.count {
      assert FromLedger(m.reg[req.lane := e.count], m, req.lane);
    }
  }

  // -------------------------------------------------------------- the steps

  lemma FromLedgerInBounds(reg: Registry, m: Mem, lane: LaneId, base: Registry, hist: set<Entry>)
    requires FromLedger(reg, m, lane) && InBounds(m.reg, base, hist) && Counted1To(hist, base)
    requires forall k :: k in m.entries ==> m.entries[k] in hist
    ensures InBounds(reg, base, hist)
  {}

  /** The next count is one more than the total, and it is a new interaction. */
  lemma NextIsNew(w: World, base: Registry, u: Entries, p: Option<Entry>, req: Request, now: nat)
    requires Exact(w, u, p) && Account(w, base, p) && w.proc.Up? && now >= w.clock && Reached(w.disk, w.hist, now)
    requires FreshRequest(w.proc.mem, req, now)
    ensures var e := NewEntry(w.proc.mem.reg, Pruned(w.proc.mem.entries, now), req);
            e.count == Total(base, w.hist, req.lane) + 1 && KeyNew(w.hist, e)
  {
    var m := w.proc.mem;
    var live := Pruned(m.entries, now);
    forall h | h in w.hist && Live(h, now) ensures h.id in live && live[h.id] == h {
      assert Live(h, w.clock) && h.id in u && Live(u[h.id], w.clock);
    }
    assert forall k :: k in live ==> live[k] in w.hist by {
      forall k | k in live ensures live[k] in w.hist { assert u[k] == live[k]; }
    }
    assert m.reg in w.disk.registry.durable;
    LargestIsTotal(w.hist, base, m.reg, live, req.lane, now);
  }

  lemma NothingCountedAccounts(w: World, w': World, lane: LaneId, base: Registry, p: Option<Entry>, r: Ledger.Result)
    requires Account(w, base, p) && w.proc.Up? && NothingCounted(w.disk, w.proc.mem, lane, r)
    requires w'.disk == r.disk && w'.proc == Up(r.mem) && w'.hist == w.hist
    requires forall k :: k in w.proc.mem.entries ==> w.proc.mem.entries[k] in w.hist
    ensures Account(w', base, None)
  {
    var m := w.proc.mem;
    hide Counted1To;
    hide InBounds;
    forall x | FromLedger(x, m, lane) ensures InBounds(x, base, w.hist) {
      FromLedgerInBounds(x, m, lane, base, w.hist);
    }
  }

  lemma PendingIsNext(w: World, ev: Event, base: Registry, u: Entries, p: Option<Entry>, p': Option<Entry>)
    requires Exact(w, u, p) && Account(w, base, p) && Enabled(w, ev) && Timely(w, ev) && ev.Serve? && Reached(w.disk, w.hist, ev.now)
    requires p' == p || p' == None || (FreshRequest(w.proc.mem, ev.req, ev.now)
             && p' == Some(NewEntry(w.proc.mem.reg, Pruned(w.proc.mem.entries, ev.now), ev.req)))
    ensures p'.Some? ==> KeyNew(w.hist, p'.value) && p'.value.count == Total(base, w.hist, p'.value.lane) + 1
  {
    if p' != p && p'.Some? {
      NextIsNew(w, base, u, p, ev.req, ev.now);
    }
  }

  lemma RecordsAfter(live: Entries, e: Entry)
    requires e.id !in live
    ensures Records(live[e.id := e]) == Records(live) + {e}
  {
    var all := live[e.id := e];
    assert all[e.id] == e;
    forall k | k in live ensures live[k] in Records(all) { assert all[k] == live[k]; }
  }

  lemma LiveRecords(entries: Entries, now: nat, hist: set<Entry>)
    requires forall k :: k in entries ==> entries[k] in hist
    ensures Records(Pruned(entries, now)) <= hist
  {
  }

  lemma BoundsGrow(x: Registry, base: Registry, hist: set<Entry>, e: Entry)
    requires InBounds(x, base, hist) && e !in hist && e.count == Total(base, hist, e.lane) + 1
    ensures InBounds(x, base, hist + {e})
    ensures e.lane in x ==> InBounds(x[e.lane := e.count], base, hist + {e})
  {
    forall l ensures Total(base, hist + {e}, l) == Total(base, hist, l) + if l == e.lane then 1 else 0 {
      AddTotal(hist, base, e, l);
    }
    hide Total;
  }

  /** The registries after a new interaction stay within the new totals. */
  lemma RegistriesGrow(d: Disk, d': Disk, reg: Registry, reg': Registry, base: Registry, hist: set<Entry>, e: Entry)
    requires forall x :: x in d.registry.durable ==> InBounds(x, base, hist)
    requires InBounds(reg, base, hist) && e.lane in reg && e !in hist && e.count == Total(base, hist, e.lane) + 1
    requires reg' == reg || reg' == reg[e.lane := e.count]
    requires forall x :: x in d'.registry.durable ==> x in d.registry.durable || x == reg[e.lane := e.count]
    ensures forall x :: x in d'.registry.durable ==> InBounds(x, base, hist + {e})
    ensures InBounds(reg', base, hist + {e})
  {
    BoundsGrow(reg, base, hist, e);
    forall x | x in d.registry.durable ensures InBounds(x, base, hist + {e}) {
      BoundsGrow(x, base, hist, e);
    }
    hide InBounds;
  }

  lemma OneCountedAccounts(w: World, w': World, req: Request, now: nat, base: Registry, p: Option<Entry>, r: Ledger.Result)
    requires w.proc.Up? && Account(w, base, p) && OneCounted(w.disk, w.proc.mem, req, now, r)
    requires forall k :: k in w.proc.mem.entries ==> w.proc.mem.entries[k] in w.hist
    requires var e := NewEntry(w.proc.mem.reg, Pruned(w.proc.mem.entries, now), req);
             e.count == Total(base, w.hist, req.lane) + 1 && KeyNew(w.hist, e)
    requires w'.disk == r.disk && w'.proc == Up(r.mem) && w'.hist == w.hist + Records(r.mem.entries)
    ensures Account(w', base, None)
  {
    var m := w.proc.mem;
    var live := Pruned(m.entries, now);
    var e := NewEntry(m.reg, live, req);
    RecordsAfter(live, e);
    hide Counted1To;
    hide InBounds;
    hide Records;
    hide Total;
    hide MaxCount;
    hide NewEntry;
    assert Records(live) <= w.hist by { LiveRecords(m.entries, now, w.hist); }
    assert w'.hist == w.hist + {e};
    AddCounted(w.hist, base, e);
    RegistriesGrow(w.disk, w'.disk, m.reg, r.mem.reg, base, w.hist, e);
  }

  lemma ServeAccounts(w: World, ev: Event, base: Registry, u: Entries, p: Option<Entry>)
    returns (u': Entries, p': Option<Entry>)
    requires Exact(w, u, p) && Account(w, base, p) && Enabled(w, ev) && Timely(w, ev) && ev.Serve?
    requires Reached(w.disk, w.hist, ev.now)
    ensures Exact(Next(w, ev), u', p') && Account(Next(w, ev), base, p')
  {
    var m := w.proc.mem;
    assert m.appendUncertain || p == None by { assert Exact(w, u, p); }
    hide Exact;
    hide Account;
    hide Reached;
    hide Record;
    hide MaxCount;
    u', p' := ServeExact(w, ev, u, p);
    var w' := Next(w, ev);
    MemoryInHistory(w, u, p);
    RecordEffect(w.disk, m, ev.req, ev.now, ev.io);
    var r := Record(w.disk, m, ev.req, ev.now, ev.io);
    if NothingCounted(w.disk, m, ev.req.lane, r) {
      HistoryStays(w.hist, m.entries, r.mem.entries);
      PendingIsNext(w, ev, base, u, p, p');
      NothingCountedAccounts(w, w', ev.req.lane, base, p, r);
      AccountWith(w', base, p');
    } else {
      NextIsNew(w, base, u, p, ev.req, ev.now);
      OneCountedAccounts(w, w', ev.req, ev.now, base, p, r);
      NoneWhenCounted(w', u', p', ev.req);
    }
  }

  lemma AccountWith(w: World, base: Registry, p: Option<Entry>)
    requires Account(w, base, None)
    requires p.Some? ==> KeyNew(w.hist, p.value) && p.value.count == Total(base, w.hist, p.value.lane) + 1
    ensures Account(w, base, p)
  {
  }

  lemma MemoryInHistory(w: World, u: Entries, p: Option<Entry>)
    requires Exact(w, u, p) && w.proc.Up?
    ensures forall k :: k in w.proc.mem.entries ==> w.proc.mem.entries[k] in w.hist
  {}

  lemma HistoryStays(hist: set<Entry>, a: Entries, b: Entries)
    requires SubMap(b, a) && forall k :: k in a ==> a[k] in hist
    ensures hist + Records(b) == hist
  {}

  lemma NoneWhenCounted(w': World, u': Entries, p': Option<Entry>, req: Request)
    requires Exact(w', u', p') && w'.proc.Up? && req.id in w'.proc.mem.entries
    requires p' == None || p'.value.id == req.id
    ensures p' == None
  {}

  lemma ChangeLanesAccounts(w: World, ev: Event, base: Registry, p: Option<Entry>)
    requires Account(w, base, p) && Enabled(w, ev) && ev.ChangeLanes?
    ensures Account(Next(w, ev), base, p)
  {
    hide Counted1To;
    hide Total;
    assert InBounds(ev.reg, base, w.hist);
    hide InBounds;
  }

  lemma FoundIsKnown(w: World, u: Entries, p: Option<Entry>, s: Entries, j: seq<Entry>)
    requires Exact(w, u, p) && s in w.disk.snapshot.durable && j in w.disk.journal.durable
    ensures forall e :: e in Found(s, j) ==> e in w.hist || p == Some(e)
  {}

  lemma FoundAddsOne(w: World, u: Entries, p: Option<Entry>, s: Entries, j: seq<Entry>)
    requires Exact(w, u, p) && s in w.disk.snapshot.durable && j in w.disk.journal.durable
    ensures w.hist + Found(s, j) == w.hist || (p.Some? && w.hist + Found(s, j) == w.hist + {p.value})
  {
    FoundIsKnown(w, u, p, s, j);
    hide Exact;
    hide Found;
  }

  /** What a restart finds is what was journaled, plus at most the one unreported entry. */
  lemma RestartCounts(w: World, u: Entries, p: Option<Entry>, base: Registry, s: Entries, j: seq<Entry>)
    requires Exact(w, u, p) && Account(w, base, p)
    requires s in w.disk.snapshot.durable && j in w.disk.journal.durable
    ensures Counted1To(w.hist + Found(s, j), base)
    ensures forall x :: InBounds(x, base, w.hist) ==> InBounds(x, base, w.hist + Found(s, j))
  {
    FoundAddsOne(w, u, p, s, j);
    hide Exact;
    hide Counted1To;
    hide InBounds;
    hide Total;
    hide Found;
    hide KeyNew;
    if w.hist + Found(s, j) != w.hist {
      AddCounted(w.hist, base, p.value);
      forall x | InBounds(x, base, w.hist) ensures InBounds(x, base, w.hist + {p.value}) {
        BoundsGrow(x, base, w.hist, p.value);
      }
    }
  }

  lemma ReconciledInBounds(r: Registry, live: Entries, base: Registry, hist: set<Entry>)
    requires InBounds(r, base, hist) && CountsWithin(hist, base)
    requires forall k :: k in live ==> live[k] in hist
    ensures InBounds(Reconciled(r, live), base, hist)
  {}

  lemma StartupRegistries(d: Disk, now: nat, generation: Outcome, save: Outcome, all: Entries)
    requires Settled(d.registry) && FoldJournal(d.snapshot.visible, 0, d.journal.visible) == Some(all)
    ensures var st := Launch(d, now, generation, save);
            var repaired := Reconciled(d.registry.visible, Pruned(all, now));
            && (st.proc.Up? ==> st.proc.mem.reg == repaired)
            && forall x :: x in st.disk.registry.durable ==> x == d.registry.visible || x == repaired
  {
    hide Reconciled;
    hide Pruned;
    hide Accepts;
    hide ValidRegistry;
  }

  /** Everything startup may make of the registry is within the counts it recovers. */
  lemma RepairInBounds(w: World, s: Entries, j: seq<Entry>, r: Registry, now: nat, base: Registry,
                       u: Entries, p: Option<Entry>) returns (all: Entries)
    requires Exact(w, u, p) && Account(w, base, p) && now >= w.clock
    requires s in w.disk.snapshot.durable && j in w.disk.journal.durable && r in w.disk.registry.durable
    ensures FoldJournal(s, 0, j) == Some(all)
    ensures var hist' := w.hist + Found(s, j);
            && Counted1To(hist', base) && InBounds(r, base, hist')
            && InBounds(Reconciled(r, Pruned(all, now)), base, hist')
  {
    var hist' := w.hist + Found(s, j);
    RestartCounts(w, u, p, base, s, j);
    all := RestartReads(w, s, j, r, now, u, p);
    assert InBounds(r, base, w.hist);
    RecoveredHistory(w, hist', all, now);
    hide Exact;
    hide HistoryAgrees;
    hide InBounds;
    ReconciledInBounds(r, Pruned(all, now), base, hist');
  }

  lemma RestartAccounts(w: World, d: Disk, now: nat, generation: Outcome, save: Outcome,
                        base: Registry, u: Entries, p: Option<Entry>)
    requires Exact(w, u, p) && Account(w, base, p) && now >= w.clock && Reopened(w.disk, d)
    ensures Account(Restart(w, d, now, generation, save), base, None)
  {
    hide Exact;
    hide Counted1To;
    hide InBounds;
    hide Launch;
    hide FoldJournal;
    hide Found;
    hide Reconciled;
    hide Pruned;
    hide Total;
    assert d.journal.visible in w.disk.journal.durable;
    var all := RepairInBounds(w, d.snapshot.visible, d.journal.visible, d.registry.visible, now, base, u, p);
    StartupRegistries(d, now, generation, save, all);
  }

  // --------------------------------------------------------------- the runs

  /** Every entry reaches the saved registry before it passes the retry horizon:
      when the clock moves on, and in the files after the step. */
  ghost predicate Prompt(w: World, ev: Event)
    requires Enabled(w, ev)
  {
    Reached(w.disk, w.hist, ev.now)
  }

  lemma RestartSound(w: World, d: Disk, now: nat, generation: Outcome, save: Outcome,
                     base: Registry, u: Entries, p: Option<Entry>)
    requires Exact(w, u, p) && Account(w, base, p) && now >= w.clock && Reopened(w.disk, d) && NothingLacks(d, now)
    ensures Sound(Restart(w, d, now, generation, save), base)
  {
    hide Exact;
    hide Account;
    hide Restart;
    var u' := RestartExact(w, d, now, generation, save, u, p);
    RestartAccounts(w, d, now, generation, save, base, u, p);
  }

  lemma NextAccounts(w: World, ev: Event, base: Registry)
    requires Sound(w, base) && Enabled(w, ev) && Timely(w, ev) && KeepsLines(w, ev) && Prompt(w, ev)
    ensures Sound(Next(w, ev), base)
  {
    var u, p :| Exact(w, u, p) && Account(w, base, p);
    var d := w.disk;
    assert d.snapshot.visible in d.snapshot.durable && d.journal.visible in d.journal.durable
           && d.registry.visible in d.registry.durable;
    hide Exact;
    hide Account;
    hide Restart;
    match ev
    case Serve(_, _, _) =>
      var u', p' := ServeAccounts(w, ev, base, u, p);
    case ChangeLanes(_, _, _) =>
      ChangeLanesExact(w, ev, u, p);
      ChangeLanesAccounts(w, ev, base, p);
    case PowerLoss(s, j, r, now, generation, save) =>
      ReopenedSettled(d, s, j, r, now);
      RestartSound(w, SettledAt(s, j, r), now, generation, save, base, u, p);
    case Relaunch(now, generation, save) =>
      ReopenedSynced(d);
      DownExact(w, now, u, p);
      if generation == Written {
        SyncedLacks(d, now);
        RestartSound(w, Synced(d), now, generation, save, base, u, p);
      } else {
        DownAccounts(w, now, base, p);
      }
  }

  lemma SyncedLacks(d: Disk, now: nat)
    requires NothingLacks(d, now)
    ensures NothingLacks(Synced(d), now)
  {
    assert Tails(Synced(d).journal) == Tails(d.journal);
    forall j, e | j in Tails(Synced(d).journal) && e in d.journal.visible ensures !Lacks(Synced(d), now, j, e) {
      assert !Lacks(d, now, j, e);
    }
  }

  lemma DownAccounts(w: World, now: nat, base: Registry, p: Option<Entry>)
    requires Account(w, base, p)
    ensures Account(w.(proc := Down, clock := now), base, p)
  {}

  /** The clock never goes back, and no relaunch of the run finds a line that can still be lost. */
  ghost predicate Careful(ws: seq<World>, evs: seq<Event>)
    requires |ws| > |evs|
  {
    forall k :: 0 <= k < |evs| ==> Timely(ws[k], evs[k]) && KeepsLines(ws[k], evs[k])
  }

  lemma InitialSound(w: World)
    requires Initial(w)
    ensures Sound(w, w.disk.registry.visible)
  {
    InitialExact(w);
    assert Account(w, w.disk.registry.visible, None);
    hide Exact;
  }

  lemma {:induction false} RunAccounts(ws: seq<World>, evs: seq<Event>, i: nat)
    requires Run(ws, evs) && Careful(ws, evs) && i <= |evs|
    requires forall k :: 0 <= k < |evs| ==> Prompt(ws[k], evs[k])
    ensures Sound(ws[i], ws[0].disk.registry.visible)
  {
    var base := ws[0].disk.registry.visible;
    hide Sound, Next, Enabled, Initial, KeepsLines, Prompt;
    if i == 0 {
      InitialSound(ws[0]);
    } else {
      RunAccounts(ws, evs, i - 1);
      NextAccounts(ws[i - 1], evs[i - 1], base);
    }
  }

  /** The count a restart recovers for a lane, from whatever a power loss left. */
  ghost function Recovered(s: Entries, j: seq<Entry>, r: Registry, now: nat, l: LaneId): nat
    requires FoldJournal(s, 0, j).Some? && l in r
  {
    Reconciled(r, Pruned(FoldJournal(s, 0, j).value, now))[l]
  }

  /** Exactly once: after any prompt and careful run, whatever a power loss leaves, no two
      interactions of a lane share a count, and a lane's recovered count is its first count
      plus the number of distinct interactions durably journaled for it, if and only if
      its newest one is in the saved count or not yet expired. */
  lemma RecoveredExactly(ws: seq<World>, evs: seq<Event>, s: Entries, j: seq<Entry>, r: Registry, now: nat, l: LaneId)
    requires Run(ws, evs) && Careful(ws, evs) && forall k :: 0 <= k < |evs| ==> Prompt(ws[k], evs[k])
    requires var w := ws[|evs|];
             s in w.disk.snapshot.durable && j in w.disk.journal.durable && r in w.disk.registry.durable && now >= w.clock
    requires l in r
    ensures FoldJournal(s, 0, j).Some?
    ensures var all, base := ws[|evs|].hist + Found(s, j), ws[0].disk.registry.visible;
            && CountsDistinct(all) && KeysDistinct(all)
            && Recovered(s, j, r, now, l) <= Total(base, all, l)
            && (Recovered(s, j, r, now, l) == Total(base, all, l) <==> NewestKept(all, base, r, now, l))
            && (Reached(SettledAt(s, j, r), all, now) ==> NewestKept(all, base, r, now, l))
  {
    var w, base := ws[|evs|], ws[0].disk.registry.visible;
    RunAccounts(ws, evs, |evs|);
    var u, p :| Exact(w, u, p) && Account(w, base, p);
    var hist' := w.hist + Found(s, j);
    RestartCounts(w, u, p, base, s, j);
    var all := RestartReads(w, s, j, r, now, u, p);
    var live := Pruned(all, now);
    RecoveredHistory(w, hist', all, now);
    assert InBounds(r, base, hist');
    DistinctOf(hist', base);
    hide Run, Careful, Exact, Account, Counted1To, HistoryAgrees, FoldJournal, MaxCount, Found, CountsWithin;
    LargestIsTotalExactly(hist', base, r, live, l, now);
    if Reached(SettledAt(s, j, r), hist', now) {
      LargestIsTotal(hist', base, r, live, l, now);
    }
  }

  lemma DistinctOf(hist: set<Entry>, base: Registry)
    requires Counted1To(hist, base)
    ensures CountsDistinct(hist) && KeysDistinct(hist) && CountsWithin(hist, base)
  {}

  lemma RecoveredHistory(w: World, hist: set<Entry>, all: Entries, now: nat)
    requires HistoryAgrees(w.(clock := now, hist := hist), all)
    ensures forall h :: h in hist && Live(h, now) ==> h.id in Pruned(all, now) && Pruned(all, now)[h.id] == h
    ensures forall k :: k in Pruned(all, now) ==> Pruned(all, now)[k] in hist && Live(Pruned(all, now)[k], now)
  {
  }

  // ---------------------------------------------- one entry per interaction

  /** No interaction has two journal entries; this needs no assumption about delays. */
  ghost predicate Unique(w: World) {
    exists u, p :: Exact(w, u, p) && KeysDistinct(w.hist) && (p.Some? ==> KeyNew(w.hist, p.value))
  }

  lemma InitialUnique(w: World)
    requires Initial(w)
    ensures Unique(w)
  {
    InitialExact(w);
    assert KeysDistinct(w.hist);
    hide Exact;
  }

  lemma FreshIsNew(w: World, u: Entries, p: Option<Entry>, req: Request, now: nat)
    requires Exact(w, u, p) && w.proc.Up? && now >= w.clock && FreshRequest(w.proc.mem, req, now)
    ensures KeyNew(w.hist, NewEntry(w.proc.mem.reg, Pruned(w.proc.mem.entries, now), req))
  {}

  lemma ServeUnique(w: World, ev: Event, u: Entries, p: Option<Entry>)
    requires Exact(w, u, p) && KeysDistinct(w.hist) && (p.Some? ==> KeyNew(w.hist, p.value))
    requires Enabled(w, ev) && Timely(w, ev) && ev.Serve?
    ensures Unique(Next(w, ev))
  {
    var m := w.proc.mem;
    assert m.appendUncertain || p == None by { assert Exact(w, u, p); }
    if FreshRequest(m, ev.req, ev.now) { FreshIsNew(w, u, p, ev.req, ev.now); }
    hide Exact, Record, MaxCount, KeyNew, KeysDistinct, Records, Pruned, Startup;
    var u', p' := ServeExact(w, ev, u, p);
    var w' := Next(w, ev);
    MemoryInHistory(w, u, p);
    RecordEffect(w.disk, m, ev.req, ev.now, ev.io);
    var r := Record(w.disk, m, ev.req, ev.now, ev.io);
    if NothingCounted(w.disk, m, ev.req.lane, r) {
      HistoryStays(w.hist, m.entries, r.mem.entries);
    } else {
      var live := Pruned(m.entries, ev.now);
      var e := NewEntry(m.reg, live, ev.req);
      RecordsAfter(live, e);
      LiveRecords(m.entries, ev.now, w.hist);
      assert w'.hist == w.hist + {e};
      AddKey(w.hist, e);
      NoneWhenCounted(w', u', p', ev.req);
    }
  }

  lemma AddKey(hist: set<Entry>, e: Entry)
    requires KeysDistinct(hist) && KeyNew(hist, e)
    ensures KeysDistinct(hist + {e})
  {
  }

  lemma RestartUnique(w: World, d: Disk, now: nat, generation: Outcome, save: Outcome, u: Entries, p: Option<Entry>)
    requires Exact(w, u, p) && KeysDistinct(w.hist) && (p.Some? ==> KeyNew(w.hist, p.value)) && now >= w.clock
    requires Reopened(w.disk, d) && NothingLacks(d, now)
    ensures Unique(Restart(w, d, now, generation, save))
  {
    assert d.journal.visible in w.disk.journal.durable;
    FoundAddsOne(w, u, p, d.snapshot.visible, d.journal.visible);
    if p.Some? { AddKey(w.hist, p.value); }
    hide Exact;
    hide Launch;
    hide Found;
    var u' := RestartExact(w, d, now, generation, save, u, p);
  }

  lemma NextUnique(w: World, ev: Event)
    requires Unique(w) && Enabled(w, ev) && Timely(w, ev) && KeepsLines(w, ev)
    ensures Unique(Next(w, ev)) && w.hist <= Next(w, ev).hist
  {
    var u, p :| Exact(w, u, p) && KeysDistinct(w.hist) && (p.Some? ==> KeyNew(w.hist, p.value));
    var d := w.disk;
    assert d.snapshot.visible in d.snapshot.durable && d.journal.visible in d.journal.durable
           && d.registry.visible in d.registry.durable;
    hide Exact;
    hide Record;
    hide Startup;
    match ev
    case Serve(_, _, _) => ServeUnique(w, ev, u, p);
    case ChangeLanes(_, _, _) => ChangeLanesExact(w, ev, u, p);
    case PowerLoss(s, j, r, now, generation, save) =>
      ReopenedSettled(d, s, j, r, now);
      RestartUnique(w, SettledAt(s, j, r), now, generation, save, u, p);
    case Relaunch(now, generation, save) =>
      ReopenedSynced(d);
      DownExact(w, now, u, p);
      if generation == Written {
        SyncedLacks(d, now);
        RestartUnique(w, Synced(d), now, generation, save, u, p);
      }
  }

  lemma {:induction false} RunUnique(ws: seq<World>, evs: seq<Event>, i: nat)
    requires Run(ws, evs) && Careful(ws, evs) && i <= |evs|
    ensures Unique(ws[i])
  {
    hide Unique, Next, Enabled, Initial, KeepsLines;
    if i == 0 {
      InitialUnique(ws[0]);
    } else {
      RunUnique(ws, evs, i - 1);
      NextUnique(ws[i - 1], evs[i - 1]);
    }
  }

  lemma ResendAddsNothing(w: World, u: Entries, p: Option<Entry>, ev: Event, h: Entry)
    requires Exact(w, u, p) && Enabled(w, ev) && Timely(w, ev) && ev.Serve?
    requires h in w.hist && ev.req.id == h.id && ev.req.createdAt == h.createdAt
    ensures Next(w, ev).hist == w.hist
    ensures SubMap(Next(w, ev).proc.mem.entries, w.proc.mem.entries)
  {
    var m := w.proc.mem;
    var r := Record(w.disk, m, ev.req, ev.now, ev.io);
    RecordEffect(w.disk, m, ev.req, ev.now, ev.io);
    MemoryInHistory(w, u, p);
    assert Live(h, ev.now) ==> h.id in Pruned(m.entries, ev.now) by {
      if Live(h, ev.now) {
        assert Live(h, w.clock) && h.id in u && h.id in m.entries;
        assert SubMap(m.entries, u);
      }
    }
    assert !FreshRequest(m, ev.req, ev.now);
    HistoryStays(w.hist, m.entries, r.mem.entries);
  }

  /** After any careful run: an interaction that was ever journaled is never counted
      again, whether its entry is still live or has long expired; resending it leaves
      the ledger alone. */
  lemma NeverCountedTwice(ws: seq<World>, evs: seq<Event>, ev: Event, h: Entry)
    requires Run(ws, evs) && Careful(ws, evs)
    requires var w := ws[|evs|];
             && Enabled(w, ev) && Timely(w, ev) && ev.Serve?
             && h in w.hist && ev.req.id == h.id && ev.req.createdAt == h.createdAt
    ensures var w := ws[|evs|];
            Next(w, ev).hist == w.hist && SubMap(Next(w, ev).proc.mem.entries, w.proc.mem.entries)
  {
    var w := ws[|evs|];
    RunUnique(ws, evs, |evs|);
    var u, p :| Exact(w, u, p) && KeysDistinct(w.hist) && (p.Some? ==> KeyNew(w.hist, p.value));
    ResendAddsNothing(w, u, p, ev, h);
  }
}
