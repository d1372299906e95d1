/**
 The daemon's own code for the ledger: fields updated in place under the registry
 and ledger locks, one durable write after another. Each method is proved equal to
 the step function that `LedgerRuns` and `LedgerAccount` reason about.
 */
module LedgerDaemon {
  import opened Durable
  import opened Ledger

  lemma MaxCountUnique(entries: Entries, lane: LaneId, m: nat)
    requires IsMaxCount(entries, lane, m)
    ensures m == MaxCount(entries, lane)
  {}

  method MaxJournaledCount(entries: Entries, lane: LaneId) returns (m: nat)
    ensures m == MaxCount(entries, lane)
  {
    m := 0;
    var todo := entries.Keys;
    while todo != {}
      invariant todo <= entries.Keys
      invariant forall k :: k in entries && k !in todo && entries[k].lane == lane ==> entries[k].count <= m
      invariant m == 0 || exists k :: k in entries && entries[k].lane == lane && entries[k].count == m
      decreases |todo|
    {
      var k :| k in todo;
      todo := todo - {k};
      if entries[k].lane == lane && entries[k].count > m {
        m := entries[k].count;
      }
    }
    MaxCountUnique(entries, lane, m);
  }

  /** Recovery folds the journal lines over the snapshot, one line at a time. */
  method ReplayJournal(snapshot: Entries, lines: seq<Entry>) returns (r: Option<Entries>)
    ensures r == FoldJournal(snapshot, 0, lines)
  {
    var entries, n := snapshot, 0;
    while n < |lines|
      invariant 0 <= n <= |lines|
      invariant FoldJournal(entries, n, lines[n..]) == FoldJournal(snapshot, 0, lines)
    {
      assert lines[n..][0] == lines[n] && lines[n..][1..] == lines[n + 1..];
      if n + 1 > MAX_JOURNAL { return None; }
      var next := InsertEntry(entries, lines[n]);
      if next.None? { return None; }
      entries, n := next.value, n + 1;
    }
    r := Some(entries);
  }

  /** Every lane is at its old count or at one the ledger holds, and at no less than
      either of those seen so far. */
  ghost predicate RaisedSoFar(r0: Registry, r: Registry, entries: Entries, todo: set<InteractionId>) {
    && r.Keys == r0.Keys
    && (forall l :: l in r ==> r0[l] <= r[l])
    && (forall k :: k in entries && k !in todo && entries[k].lane in r ==> entries[k].count <= r[entries[k].lane])
    && (forall l :: l in r ==> (r[l] == r0[l] || exists k :: k in entries && entries[k].lane == l && entries[k].count == r[l]))
  }

  lemma RaisedAll(r0: Registry, r: Registry, entries: Entries)
    requires RaisedSoFar(r0, r, entries, {})
    ensures r == Reconciled(r0, entries)
  {
    forall l | l in r ensures r[l] == Max(r0[l], MaxCount(entries, l)) {
      var m := MaxCount(entries, l);
      assert IsMaxCount(entries, l, m);
    }
  }

  lemma RaiseOne(r0: Registry, r: Registry, entries: Entries, todo: set<InteractionId>, k: InteractionId)
    requires RaisedSoFar(r0, r, entries, todo) && k in todo && k in entries
    ensures var e := entries[k];
            RaisedSoFar(r0, if e.lane in r && e.count > r[e.lane] then r[e.lane := e.count] else r, entries, todo - {k})
  {
  }

  /** Raise every lane to the largest count among the entries, in whatever order they come. */
  method ReconcileLanes(r0: Registry, entries: Entries) returns (r: Registry, changed: bool)
    ensures r == Reconciled(r0, entries)
    ensures changed <==> r != r0
  {
    r, changed := r0, false;
    var todo := entries.Keys;
    while todo != {}
      invariant todo <= entries.Keys && RaisedSoFar(r0, r, entries, todo)
      invariant changed <==> r != r0
      decreases |todo|
    {
      var k :| k in todo;
      RaiseOne(r0, r, entries, todo, k);
      todo := todo - {k};
      var e := entries[k];
      if e.lane in r && e.count > r[e.lane] {
        r, changed := r[e.lane := e.count], true;
      }
    }
    RaisedAll(r0, r, entries);
  }

  class Daemon {
    var reg: Registry
    var entries: Entries
    var journalEntries: nat
    var needsCompaction: bool
    var laneUncertain: bool
    var appendUncertain: bool
    var disk: Disk

    ghost function Memory(): Mem
      reads this
    {
      Mem(reg, entries, journalEntries, needsCompaction, laneUncertain, appendUncertain)
    }

    /** Startup once both files are accepted: prune, repair the registry, save the repair. */
    constructor (d: Disk, now: nat, save: Outcome)
      requires Accepts(d.snapshot.visible, d.journal.visible, d.registry.visible, now)
      ensures disk == Startup(d, now, save).disk
      ensures Startup(d, now, save).proc.Up? ==> Startup(d, now, save).proc.mem == Memory()
    {
      hide FoldJournal, Pruned, Reconciled, ValidRegistry, ValidEntries;
      var all := ReplayJournal(d.snapshot.visible, d.journal.visible);
      var live := Pruned(all.value, now);
      var repaired, changed := ReconcileLanes(d.registry.visible, live);
      var saved := changed && ValidRegistry(repaired);
      reg, entries, journalEntries, needsCompaction := repaired, live, |d.journal.visible|, live != all.value;
      laneUncertain, appendUncertain := saved && save == Unsettled, false;
      disk := if saved then d.(registry := Replace(d.registry, repaired, save)) else d;
    }

    /** Keep a saved or possibly saved registry, restore the old one otherwise. */
    method CommitLaneMutation(proposed: Registry, save: Outcome, success: Response) returns (response: Response)
      modifies this
      ensures Result(disk, Memory(), response) == CommitRegistry(old(disk), old(Memory()), proposed, save, success)
    {
      var before := reg;
      reg := proposed;
      if !ValidRegistry(reg) || save == Untouched {
        reg := before;
        return StorageError;
      }
      disk := disk.(registry := Replace(disk.registry, reg, save));
      if save == Unsettled {
        laneUncertain := true;
        return Unavailable;
      }
      return success;
    }

    /** Replace the snapshot by `keep`, then clear the journal; memory follows only
        when both are durable. */
    method CompactLedger(keep: Entries, snapshot: Outcome, journal: Outcome) returns (done: bool)
      modifies this
      ensures Compaction(disk, done) == Compact(old(disk), keep, snapshot, journal)
      ensures Memory() == if done then old(Memory()).(entries := keep, journalEntries := 0, needsCompaction := false)
                          else old(Memory())
    {
      disk := disk.(snapshot := Replace(disk.snapshot, keep, snapshot));
      if snapshot != Written { return false; }
      disk := disk.(journal := Replace(disk.journal, [], journal));
      if journal != Written { return false; }
      entries, journalEntries, needsCompaction := keep, 0, false;
      return true;
    }

    /** One completed voice turn, recorded exactly once within the retry horizon. */
    method RecordInteraction(req: Request, now: nat, io: Io) returns (response: Response)
      modifies this
      ensures Result(disk, Memory(), response) == Record(old(disk), old(Memory()), req, now, io)
    {
      if appendUncertain || laneUncertain { return Unavailable; }
      if !ValidRegistry(reg) { return StorageError; }
      if req.lane !in reg { return UnknownLane; }
      if req.createdAt < Horizon(now) { return Gone; }
      if req.createdAt > now + FUTURE_SKEW_MS { return TooFarAhead; }
      if !(req.id in entries && Live(entries[req.id], now)) {
        var live := Pruned(entries, now);
        if live != entries || needsCompaction {
          var compacted := CompactLedger(live, io.admitSnapshot, io.admitJournal);
          if !compacted { return StorageError; }
        }
      }
      if req.id in entries {
        var existing := entries[req.id];
        if existing.lane != req.lane || existing.createdAt != req.createdAt { return Conflict; }
        if reg[req.lane] < existing.count {
          response := CommitLaneMutation(reg[req.lane := existing.count], io.save, Duplicate);
          return;
        }
        return Duplicate;
      }
      response := AppendAndCount(req, io);
    }

    method AppendAndCount(req: Request, io: Io) returns (response: Response)
      requires req.lane in reg
      modifies this
      ensures Result(disk, Memory(), response) == CountNew(old(disk), old(Memory()), req, io)
    {
      hide MaxCount, Compact, CommitRegistry, Append;
      var journaled := MaxJournaledCount(entries, req.lane);
      var next := Max(reg[req.lane], journaled) + 1;
      if next > MAX_SAFE { return CountExhausted; }
      if journalEntries >= MAX_JOURNAL {
        var compacted := CompactLedger(entries, io.fullSnapshot, io.fullJournal);
        if !compacted { return StorageError; }
      }
      if |entries| >= MAX_ENTRIES { return CapacityFull; }
      var entry := Entry(req.id, req.lane, req.createdAt, next);
      disk := disk.(journal := Append(disk.journal, entry, io.append));
      match io.append {
        case NotOpened => return StorageError;
        case NothingWritten => appendUncertain := true; return Unavailable;
        case LineWritten => appendUncertain := true; return Unavailable;
        case Appended =>
          entries, journalEntries := entries[entry.id := entry], journalEntries + 1;
          response := CommitLaneMutation(reg[req.lane := next], io.save, Counted);
      }
    }
  }
}
