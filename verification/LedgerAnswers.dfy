/**
 What the daemon answers: the table of answers over the request, the memory, the clock and
 how each write ends, and, over whole runs, what resending a recorded interaction gets.
 */
module LedgerAnswers {
  import opened Durable
  import opened Ledger
  import opened LedgerRuns
  import opened LedgerAccount
  import opened LedgerSaved
  import opened LedgerRecount

  /** Not yet seven days old. */
  predicate Recent(createdAt: nat, now: nat) {
    now <= createdAt + 604_800_000
  }

  /** Requests that are looked up: nothing is latched, the lane is known, and the creation
      time is neither more than seven days back nor more than five minutes ahead. */
  predicate Admissible(m: Mem, req: Request, now: nat) {
    && !m.appendUncertain && !m.laneUncertain && ValidRegistry(m.reg) && req.lane in m.reg
    && Recent(req.createdAt, now) && req.createdAt <= now + 300_000
  }

  predicate Recorded(m: Mem, req: Request, now: nat) {
    req.id in m.entries && Recent(m.entries[req.id].createdAt, now)
  }

  predicate SameInteraction(e: Entry, req: Request) {
    e.lane == req.lane && e.createdAt == req.createdAt
  }

  /** Every other request changes nothing, and the first reason that applies is its answer. */
  lemma Refusals(d: Disk, m: Mem, req: Request, now: nat, io: Io)
    requires !Admissible(m, req, now)
    ensures var r := Record(d, m, req, now, io);
            && r.disk == d && r.mem == m
            && r.response == (if m.appendUncertain || m.laneUncertain then Unavailable
                              else if !ValidRegistry(m.reg) then StorageError
                              else if req.lane !in m.reg then UnknownLane
                              else if req.createdAt + 604_800_000 < now then Gone
                              else TooFarAhead)
  {
    hide AdmitFresh, CountNew, Resend, ValidRegistry, Pruned;
  }

  /** A live record of the id: another interaction is a conflict. The same one is a
      duplicate, at once when its lane's count includes it, else once the raised count is
      saved; a save that failed is an error, one left unsettled latches. */
  lemma ResendAnswers(d: Disk, m: Mem, req: Request, now: nat, io: Io)
    requires Admissible(m, req, now) && Recorded(m, req, now) && m.entries[req.id].count <= MAX_SAFE
    ensures var r, e := Record(d, m, req, now, io), m.entries[req.id];
            var included := m.reg[req.lane] >= e.count;
            && (r.response == Conflict <==> !SameInteraction(e, req))
            && (r.response == Duplicate <==> SameInteraction(e, req) && (included || io.save == Written))
            && (r.response == StorageError <==> SameInteraction(e, req) && !included && io.save == Untouched)
            && (r.response == Unavailable <==> SameInteraction(e, req) && !included && io.save == Unsettled)
            && r.mem.entries == m.entries && r.disk.journal == d.journal && r.disk.snapshot == d.snapshot
            && (if SameInteraction(e, req) && !included
                then && r.mem.reg == (if io.save == Untouched then m.reg else m.reg[req.lane := e.count])
                     && r.mem.laneUncertain == (io.save == Unsettled)
                     && r.disk.registry == Replace(d.registry, m.reg[req.lane := e.count], io.save)
                else r.mem == m && r.disk == d)
  {
    RaisedValid(m.reg, req.lane, m.entries[req.id].count);
    hide AdmitFresh, CountNew, ValidRegistry, Pruned;
  }

  lemma RaisedValid(r: Registry, l: LaneId, count: nat)
    requires ValidRegistry(r) && l in r && count <= MAX_SAFE
    ensures ValidRegistry(r[l := count])
  {
    assert r[l := count].Keys == r.Keys;
    assert |r[l := count]| == |r[l := count].Keys| && |r| == |r.Keys|;
  }

  // ------------------------------------------------------------- fresh requests

  /** `keep` are the records still recent. */
  ghost predicate KeepsRecent(m: Mem, now: nat, keep: Entries) {
    && (forall k :: k in keep <==> k in m.entries && Recent(m.entries[k].createdAt, now))
    && (forall k :: k in keep ==> keep[k] == m.entries[k])
  }

  /** No record is too old, and no earlier start left one out of memory only. */
  predicate NothingStale(m: Mem, keep: Entries) {
    keep == m.entries && !m.needsCompaction
  }

  predicate Compacted(o1: Outcome, o2: Outcome) {
    o1 == Written && o2 == Written
  }

  /** `n` is one more than every count the lane has reached, in the registry and in `keep`. */
  ghost predicate NextCount(reg: Registry, keep: Entries, l: LaneId, n: nat)
    requires l in reg
  {
    && n > reg[l] && (forall k :: k in keep && keep[k].lane == l ==> n > keep[k].count)
    && (n == reg[l] + 1 || exists k :: k in keep && keep[k].lane == l && n == keep[k].count + 1)
  }

  /** Nothing stands in the way: stale records left the files, the count has a next one,
      a full journal was folded into the snapshot, and there is room for one more record. */
  predicate Clear(m: Mem, keep: Entries, n: nat, io: Io) {
    && (NothingStale(m, keep) || Compacted(io.admitSnapshot, io.admitJournal))
    && n <= 9_007_199_254_740_991
    && (NothingStale(m, keep) && m.journalEntries >= 128 ==> Compacted(io.fullSnapshot, io.fullJournal))
    && |keep| < 10_000
  }

  /** A request without a live record: what is in its way, in this order, or its append,
      and after a durable append the save of the raised count. */
  lemma FreshAnswers(d: Disk, m: Mem, req: Request, now: nat, io: Io, keep: Entries, n: nat)
    requires Admissible(m, req, now) && !Recorded(m, req, now)
    requires KeepsRecent(m, now, keep) && NextCount(m.reg, keep, req.lane, n)
    ensures var r := Record(d, m, req, now, io);
            && (!Clear(m, keep, n, io) ==>
                  r.response == (if !NothingStale(m, keep) && !Compacted(io.admitSnapshot, io.admitJournal) then StorageError
                                 else if n > 9_007_199_254_740_991 then CountExhausted
                                 else if NothingStale(m, keep) && m.journalEntries >= 128 && !Compacted(io.fullSnapshot, io.fullJournal)
                                 then StorageError
                                 else CapacityFull)
                  && r.mem.reg == m.reg && r.mem.entries in {m.entries, keep} && r.disk.registry == d.registry)
            && (Clear(m, keep, n, io) ==> ClearAnswer(d, m, req, io, keep, n, r))
  {
    hide MaxCount;
    AdmissionIs(d, m, req, now, io, keep);
    var a := AdmitFresh(d, m, now, io);
    if a.response == Counted {
      NextCountIs(m.reg, keep, req, n);
      RoomThenAppend(a.disk, a.mem, req, io, n);
    }
    hide AdmitFresh, CountNew, ValidRegistry, Pruned, NewEntry;
  }

  ghost predicate ClearAnswer(d: Disk, m: Mem, req: Request, io: Io, keep: Entries, n: nat, r: Ledger.Result)
    requires req.lane in m.reg
  {
    var e := Entry(req.id, req.lane, req.createdAt, n);
    && r.response == (match io.append
                      case NotOpened => StorageError
                      case NothingWritten => Unavailable
                      case LineWritten => Unavailable
                      case Appended => if io.save == Written then Counted
                                       else if io.save == Untouched then StorageError else Unavailable)
    && r.mem.entries == (if io.append == Appended then keep[req.id := e] else keep)
    && r.mem.appendUncertain == (io.append == NothingWritten || io.append == LineWritten)
    && r.mem.laneUncertain == (io.append == Appended && io.save == Unsettled)
    && r.mem.reg == (if io.append == Appended && io.save != Untouched then m.reg[req.lane := n] else m.reg)
    && r.disk.registry == (if io.append == Appended then Replace(d.registry, m.reg[req.lane := n], io.save) else d.registry)
    && (io.append == Appended ==> r.disk.journal.visible != [] && r.disk.journal.visible[|r.disk.journal.visible| - 1] == e
                                  && Settled(r.disk.journal))
  }

  lemma AdmissionIs(d: Disk, m: Mem, req: Request, now: nat, io: Io, keep: Entries)
    requires Admissible(m, req, now) && !Recorded(m, req, now) && KeepsRecent(m, now, keep)
    ensures var a := AdmitFresh(d, m, now, io);
            && Pruned(m.entries, now) == keep && req.id !in keep
            && (a.response == Counted <==> NothingStale(m, keep) || Compacted(io.admitSnapshot, io.admitJournal))
            && (a.response != Counted ==> a.response == StorageError && a.mem == m && a.disk.registry == d.registry)
            && (a.response == Counted ==>
                  && a.disk.registry == d.registry
                  && a.mem == if NothingStale(m, keep) then m
                              else m.(entries := keep, journalEntries := 0, needsCompaction := false))
            && Record(d, m, req, now, io) == if a.response == Counted then CountNew(a.disk, a.mem, req, io) else a
  {
    assert Pruned(m.entries, now) == keep;
    hide CountNew, Resend, ValidRegistry;
  }

  lemma NextCountIs(reg: Registry, keep: Entries, req: Request, n: nat)
    requires req.lane in reg && NextCount(reg, keep, req.lane, n)
    ensures NewEntry(reg, keep, req) == Entry(req.id, req.lane, req.createdAt, n)
  {
    assert IsMaxCount(keep, req.lane, MaxCount(keep, req.lane));
    hide MaxCount;
  }

  lemma RoomThenAppend(d: Disk, m: Mem, req: Request, io: Io, n: nat)
    requires !m.appendUncertain && !m.laneUncertain && ValidRegistry(m.reg) && req.lane in m.reg
    requires NewEntry(m.reg, m.entries, req) == Entry(req.id, req.lane, req.createdAt, n)
    ensures var r := CountNew(d, m, req, io);
            var full := m.journalEntries >= 128 && !Compacted(io.fullSnapshot, io.fullJournal);
            if n > 9_007_199_254_740_991 then r == Result(d, m, CountExhausted)
            else if full then r.response == StorageError && r.mem == m && r.disk.registry == d.registry
            else if |m.entries| >= 10_000 then
              r.response == CapacityFull && r.mem.reg == m.reg && r.mem.entries == m.entries && r.disk.registry == d.registry
            else ClearAnswer(d, m, req, io, m.entries, n, r)
  {
    hide MaxCount, NewEntry;
    if n <= MAX_SAFE { RaisedValid(m.reg, req.lane, n); }
    hide ValidRegistry;
  }

  // --------------------------------------------------------------------- starts

  /** No two different records for one id, and no count over the limit. */
  predicate Consistent(s: Entries, j: seq<Entry>) {
    && (forall e :: e in j ==> e.count <= 9_007_199_254_740_991 && (e.id in s ==> s[e.id] == e))
    && (forall e, f :: e in j && f in j && e.id == f.id ==> e == f)
  }

  /** Exactly such journals of at most 128 lines can be read back, and reading one gives every
      record of both files and no other. */
  lemma {:induction false} ReadableExactly(s: Entries, n: nat, j: seq<Entry>)
    requires n <= 128
    ensures FoldJournal(s, n, j).Some? <==> n + |j| <= 128 && Consistent(s, j)
    ensures FoldJournal(s, n, j).Some? ==>
              var all := FoldJournal(s, n, j).value;
              && (forall k :: k in s ==> k in all && all[k] == s[k]) && (forall e :: e in j ==> e.id in all && all[e.id] == e)
              && (forall k :: k in all ==> (k in s && all[k] == s[k]) || all[k] in j)
    decreases |j|
  {
    if j == [] {
    } else if InsertEntry(s, j[0]).None? {
      FirstConflicts(s, j);
    } else if n + 1 <= 128 {
      var next := InsertEntry(s, j[0]).value;
      ReadableExactly(next, n + 1, j[1..]);
      OneMoreLine(s, j, next);
      hide Consistent;
      assert forall e :: e in j <==> e == j[0] || e in j[1..];
    }
  }

  lemma FirstConflicts(s: Entries, j: seq<Entry>)
    requires j != [] && InsertEntry(s, j[0]).None?
    ensures !Consistent(s, j)
  {
    assert j[0] in j;
  }

  lemma OneMoreLine(s: Entries, j: seq<Entry>, next: Entries)
    requires j != [] && InsertEntry(s, j[0]) == Some(next)
    ensures Consistent(s, j) <==> Consistent(next, j[1..])
  {
    assert j == [j[0]] + j[1..];
    assert forall e :: e in j <==> e == j[0] || e in j[1..];
  }

  /** A start comes up exactly when the files read back, the registry is valid and knows the
      lane of every recent record, there are at most 10,000 of them, and the repaired
      counts, if any, are within the limit and were saved or may have been. */
  lemma StartsExactly(d: Disk, now: nat, save: Outcome, all: Entries, keep: Entries)
    requires var s, j := d.snapshot.visible, d.journal.visible;
             |j| <= 128 && Consistent(s, j) ==>
               FoldJournal(s, 0, j) == Some(all) && keep == Pruned(all, now)
    ensures var s, j, r := d.snapshot.visible, d.journal.visible, d.registry.visible;
            var ok := && ValidRegistry(r) && ValidEntries(s) && |j| <= 128 && Consistent(s, j)
                      && |keep| <= 10_000 && forall k :: k in keep ==> keep[k].lane in r;
            && (Startup(d, now, save).proc.Up? <==>
                  ok && (Reconciled(r, keep) == r || (ValidRegistry(Reconciled(r, keep)) && save != Untouched)))
            && (Startup(d, now, save).proc.Up? ==>
                  var m := Startup(d, now, save).proc.mem;
                  && m.entries == keep && m.reg == Reconciled(r, keep) && m.journalEntries == |j| && !m.appendUncertain
                  && (m.needsCompaction <==> keep != all)
                  && (m.laneUncertain <==> Reconciled(r, keep) != r && save == Unsettled))
  {
    ReadableExactly(d.snapshot.visible, 0, d.journal.visible);
    hide FoldJournal, Pruned, Reconciled, ValidRegistry, ValidEntries, Consistent;
  }

  /** A change of the lanes: refused while a save is unsettled; installed in memory and file
      once saved, and otherwise as the save left it. */
  lemma LaneChangeBrings(w: World, reg: Registry, now: nat, save: Outcome)
    requires Enabled(w, ChangeLanes(reg, now, save)) && ValidRegistry(reg)
    ensures var m, w' := w.proc.mem, Next(w, ChangeLanes(reg, now, save));
            && w'.proc.Up? && w'.hist == w.hist && w'.proc.mem.entries == m.entries
            && w'.disk.snapshot == w.disk.snapshot && w'.disk.journal == w.disk.journal
            && (m.laneUncertain || save == Untouched ==> w'.proc.mem == m && w'.disk == w.disk)
            && (!m.laneUncertain && save == Written ==>
                  w'.proc.mem == m.(reg := reg) && w'.disk.registry == File(reg, {reg}))
            && (!m.laneUncertain && save == Unsettled ==>
                  w'.proc.mem == m.(reg := reg, laneUncertain := true)
                  && w'.disk.registry == File(reg, w.disk.registry.durable + {reg}))
  {
    hide ValidRegistry, Record;
  }

  // ---------------------------------------------------------------------- runs

  /** After every careful run, an interaction the daemon once recorded, sent again within
      the seven days: the process that is up and not latched answers that it is a
      duplicate, unless its count still has to be saved and that save fails. */
  lemma RecordedIsDuplicate(ws: seq<World>, evs: seq<Event>, h: Entry, ev: Event)
    requires Run(ws, evs) && Careful(ws, evs)
    requires h in ws[|evs|].hist && ev.Serve? && Timely(ws[|evs|], ev) && ws[|evs|].proc.Up?
    requires ev.req == Request(h.lane, h.id, h.createdAt) && Recent(h.createdAt, ev.now) && h.createdAt <= ev.now + 300_000
    requires !ws[|evs|].proc.mem.appendUncertain && !ws[|evs|].proc.mem.laneUncertain
    ensures var m := ws[|evs|].proc.mem;
            && h.lane in m.reg
            && var r := Record(ws[|evs|].disk, m, ev.req, ev.now, ev.io);
               && (r.response == Duplicate <==> m.reg[h.lane] >= h.count || ev.io.save == Written)
               && r.response in {Duplicate, StorageError, Unavailable}
  {
    var w := ws[|evs|];
    RunUnique(ws, evs, |evs|);
    HeldWhileRecent(w, h, ev.now);
    ResendAnswers(w.disk, w.proc.mem, ev.req, ev.now, ev.io);
    hide Run, Careful, Unique, Record;
  }

  lemma HeldWhileRecent(w: World, h: Entry, now: nat)
    requires Unique(w) && h in w.hist && w.proc.Up? && now >= w.clock && Recent(h.createdAt, now)
    ensures var m := w.proc.mem;
            ValidRegistry(m.reg) && h.lane in m.reg && h.id in m.entries && m.entries[h.id] == h && h.count <= MAX_SAFE
  {
    hide Unique, Exact;
    var u, p := CertainPart(w);
    assert Live(h, w.clock);
    HeldBy(w, h, u, p);
  }

  lemma CertainPart(w: World) returns (u: Entries, p: Option<Entry>)
    requires Unique(w)
    ensures Exact(w, u, p)
  {
    hide Exact, KeyNew, KeysDistinct;
    u, p :| Exact(w, u, p) && KeysDistinct(w.hist) && (p.Some? ==> KeyNew(w.hist, p.value));
  }

  lemma HeldBy(w: World, h: Entry, u: Entries, p: Option<Entry>)
    requires Exact(w, u, p) && h in w.hist && w.proc.Up? && Live(h, w.clock)
    ensures var m := w.proc.mem;
            ValidRegistry(m.reg) && h.lane in m.reg && h.id in m.entries && m.entries[h.id] == h && h.count <= MAX_SAFE
  {
    assert h.id in u && u[h.id] == h;
    GoodIsValid(w, u, u, p, true);
  }

  /** An answer that the interaction was counted or known leaves it in the history, and its
      count in every value of the registry file. */
  lemma AnsweredIsKnown(w: World, ev: Event)
    requires Inv(w) && Enabled(w, ev) && ev.Serve?
    requires Acknowledges(Record(w.disk, w.proc.mem, ev.req, ev.now, ev.io).response)
    ensures exists h :: h in Next(w, ev).hist && Request(h.lane, h.id, h.createdAt) == ev.req
                        && SavedAtLeast(Next(w, ev).disk, h.lane, h.count)
  {
    AnswerIsSaved(w, ev);
    var r := Record(w.disk, w.proc.mem, ev.req, ev.now, ev.io);
    assert Inv(Next(w, ev)) by { NextKeeps(w, ev); }
    var u, v, p :| Good(Next(w, ev), u, v, p, false);
    GoodIsValid(Next(w, ev), u, v, p, false);
    hide Record, Inv;
    var e := r.mem.entries[ev.req.id];
    assert e in Records(r.mem.entries) && SubMap(r.mem.entries, v);
  }

  /** An interaction whose count is in every value of the registry file: the answer to
      sending it again is that it is a duplicate, whatever writes would do. */
  lemma KnownIsDuplicate(w: World, h: Entry, ev: Event)
    requires Unique(w) && Inv(w) && h in w.hist && w.proc.Up? && SavedAtLeast(w.disk, h.lane, h.count)
    requires ev.Serve? && ev.req == Request(h.lane, h.id, h.createdAt) && Timely(w, ev)
    requires Recent(h.createdAt, ev.now) && h.createdAt <= ev.now + 300_000
    requires !w.proc.mem.appendUncertain && !w.proc.mem.laneUncertain
    ensures Record(w.disk, w.proc.mem, ev.req, ev.now, ev.io).response == Duplicate
  {
    HeldWhileRecent(w, h, ev.now);
    SavedRegistry(w);
    ResendAnswers(w.disk, w.proc.mem, ev.req, ev.now, ev.io);
    hide Record, Inv, Unique;
  }

  /** A client that was told its interaction was counted, or known, and asks again within the
      seven days: after every careful run in between, whatever its writes would do, the
      answer is that it is a duplicate. */
  lemma AnsweredThenDuplicate(ws: seq<World>, evs: seq<Event>, i: nat, ev: Event)
    requires Run(ws, evs) && Careful(ws, evs) && i < |evs| && evs[i].Serve?
    requires Acknowledges(Record(ws[i].disk, ws[i].proc.mem, evs[i].req, evs[i].now, evs[i].io).response)
    requires ev.Serve? && ev.req == evs[i].req && Timely(ws[|evs|], ev) && ws[|evs|].proc.Up?
    requires Recent(ev.req.createdAt, ev.now) && ev.req.createdAt <= ev.now + 300_000
    requires !ws[|evs|].proc.mem.appendUncertain && !ws[|evs|].proc.mem.laneUncertain
    ensures Record(ws[|evs|].disk, ws[|evs|].proc.mem, ev.req, ev.now, ev.io).response == Duplicate
  {
    RunKeeps(ws, evs, i);
    AnsweredIsKnown(ws[i], evs[i]);
    var h :| h in ws[i + 1].hist && Request(h.lane, h.id, h.createdAt) == ev.req && SavedAtLeast(ws[i + 1].disk, h.lane, h.count);
    HistoryGrows(ws, evs, i + 1, |evs|);
    SavedCountsStay(ws, evs, i + 1, |evs|, h.lane, h.count);
    RunKeeps(ws, evs, |evs|);
    RunUnique(ws, evs, |evs|);
    KnownIsDuplicate(ws[|evs|], h, ev);
    hide Run, Careful, Record, Inv, Unique;
  }
}
