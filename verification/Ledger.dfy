/**
 The interaction ledger of telepathosd: a snapshot file, an append-only journal
 and the lane registry, and the requests, failures and restarts that change them.
 Every durable write is one `Outcome`; the clock is an input. A crash between two
 writes of a request leaves the files of the same request whose next write ended
 `Untouched`, so a run followed by `PowerLoss` covers a crash at every point.
 */
module Ledger {
  import opened Durable

  const DEDUPE_WINDOW_MS: nat := 7 * 24 * 60 * 60 * 1_000
  const FUTURE_SKEW_MS: nat := 5 * 60 * 1_000
  const MAX_ENTRIES: nat := 10_000
  const MAX_JOURNAL: nat := 128
  const MAX_LANES: nat := 256
  const MAX_SAFE: nat := 9_007_199_254_740_991

  type LaneId = string
  type InteractionId = string

  datatype Entry = Entry(id: InteractionId, lane: LaneId, createdAt: nat, count: nat)
  type Entries = map<InteractionId, Entry>
  /** Interaction count of each lane; a lane without a stored count has 0. */
  type Registry = map<LaneId, nat>

  datatype Disk = Disk(snapshot: File<Entries>, journal: File<seq<Entry>>, registry: File<Registry>)

  datatype Mem = Mem(reg: Registry, entries: Entries, journalEntries: nat,
                     needsCompaction: bool, laneUncertain: bool, appendUncertain: bool)

  datatype Proc = Down | Up(mem: Mem)

  /** How an append ends: durable; failed before the file was opened; failed
      afterwards without, or with, the whole line having reached the file. */
  datatype AppendOutcome = Appended | NotOpened | NothingWritten | LineWritten

  datatype Request = Request(lane: LaneId, id: InteractionId, createdAt: nat)

  datatype Io = Io(admitSnapshot: Outcome, admitJournal: Outcome, fullSnapshot: Outcome,
                   fullJournal: Outcome, append: AppendOutcome, save: Outcome)

  datatype Response = Counted | Duplicate | Gone | TooFarAhead | UnknownLane
                    | Conflict | Unavailable | CapacityFull | StorageError | CountExhausted

  // ---------------------------------------------------------------- recovery

  function Horizon(now: nat): nat {
    if now < DEDUPE_WINDOW_MS then 0 else now - DEDUPE_WINDOW_MS
  }

  predicate Live(e: Entry, now: nat) {
    e.createdAt >= Horizon(now)
  }

  function Pruned(entries: Entries, now: nat): (r: Entries)
    ensures forall k :: k in r <==> k in entries && Live(entries[k], now)
    ensures forall k :: k in r ==> r[k] == entries[k]
  {
    map k | k in entries && Live(entries[k], now) :: entries[k]
  }

  predicate ValidRegistry(r: Registry) {
    0 < |r| <= MAX_LANES && forall l :: l in r ==> r[l] <= MAX_SAFE
  }

  predicate ValidEntries(m: Entries) {
    forall k :: k in m ==> m[k].id == k && m[k].count <= MAX_SAFE
  }

  /** One journal line over the entries read so far; a conflicting record refuses. */
  function InsertEntry(entries: Entries, e: Entry): Option<Entries> {
    if e.count > MAX_SAFE then None
    else if e.id in entries then (if entries[e.id] == e then Some(entries) else None)
    else Some(entries[e.id := e])
  }

  /** Left fold of the journal lines, `n` of which were already folded. */
  function FoldJournal(entries: Entries, n: nat, lines: seq<Entry>): Option<Entries>
    decreases |lines|
  {
    if lines == [] then Some(entries)
    else if n + 1 > MAX_JOURNAL then None
    else match InsertEntry(entries, lines[0])
      case None => None
      case Some(next) => FoldJournal(next, n + 1, lines[1..])
  }

  ghost predicate IsMaxCount(entries: Entries, lane: LaneId, m: nat) {
    && (forall k :: k in entries && entries[k].lane == lane ==> entries[k].count <= m)
    && (m == 0 || exists k :: k in entries && entries[k].lane == lane && entries[k].count == m)
  }

  /** Largest journaled count of a lane, 0 when it has none. */
  ghost function MaxCount(entries: Entries, lane: LaneId): (m: nat)
    ensures IsMaxCount(entries, lane, m)
    decreases |entries|
  {
    if entries == map[] then 0
    else
      var k :| k in entries;
      var rest := entries - {k};
      assert |rest.Keys| == |entries.Keys| - 1 by { assert rest.Keys == entries.Keys - {k}; }
      var m := MaxCount(rest, lane);
      assert forall x :: x in rest ==> entries[x] == rest[x];
      assert forall x :: x in entries ==> x == k || x in rest;
      if entries[k].lane == lane && entries[k].count > m then entries[k].count else m
  }

  function Max(a: nat, b: nat): nat {
    if a < b then b else a
  }

  /** Raise each lane's count to the largest one the ledger holds for it. */
  ghost function Reconciled(r: Registry, entries: Entries): (r': Registry)
    ensures r'.Keys == r.Keys
  {
    map l | l in r :: Max(r[l], MaxCount(entries, l))
  }

  /** Startup accepts these files: both parse, no two records of one id differ,
      the bounds hold, and every live entry belongs to a registered lane. */
  ghost predicate Accepts(s: Entries, j: seq<Entry>, r: Registry, now: nat) {
    && ValidRegistry(r)
    && ValidEntries(s)
    && FoldJournal(s, 0, j).Some?
    && var live := Pruned(FoldJournal(s, 0, j).value, now);
       |live| <= MAX_ENTRIES && forall k :: k in live ==> live[k].lane in r
  }

  datatype Started = Started(disk: Disk, proc: Proc)

  /** Read the visible files, repair the registry from the ledger, save the repair. */
  ghost function Startup(d: Disk, now: nat, save: Outcome): Started {
    var s, j, r := d.snapshot.visible, d.journal.visible, d.registry.visible;
    if !Accepts(s, j, r, now) then Started(d, Down)
    else
      var all := FoldJournal(s, 0, j).value;
      var live := Pruned(all, now);
      var repaired := Reconciled(r, live);
      var mem := Mem(repaired, live, |j|, live != all, false, false);
      if repaired == r then Started(d, Up(mem))
      else if !ValidRegistry(repaired) then Started(d, Down)
      else
        var d' := d.(registry := Replace(d.registry, repaired, save));
        match save
        case Written => Started(d', Up(mem))
        case Unsettled => Started(d', Up(mem.(laneUncertain := true)))
        case Untouched => Started(d', Down)
  }

  // ---------------------------------------------------------------- requests

  datatype Compaction = Compaction(disk: Disk, done: bool)

  /** Replace the snapshot, then clear the journal. */
  function Compact(d: Disk, entries: Entries, snapshot: Outcome, journal: Outcome): Compaction {
    var d1 := d.(snapshot := Replace(d.snapshot, entries, snapshot));
    if snapshot != Written then Compaction(d1, false)
    else Compaction(d1.(journal := Replace(d1.journal, [], journal)), journal == Written)
  }

  datatype Result = Result(disk: Disk, mem: Mem, response: Response)

  /** Save a registry mutation: keep it when the save is durable or unsettled
      (the latter latches), drop it when the old file is still in place. */
  function CommitRegistry(d: Disk, before: Mem, reg: Registry, save: Outcome, success: Response): Result {
    if save == Untouched || !ValidRegistry(reg) then Result(d, before, StorageError)
    else
      var d' := d.(registry := Replace(d.registry, reg, save));
      if save == Written then Result(d', before.(reg := reg), success)
      else Result(d', before.(reg := reg, laneUncertain := true), Unavailable)
  }

  /** The admission boundary: expired entries leave memory only together with the files. */
  function AdmitFresh(d: Disk, m: Mem, now: nat, io: Io): (r: Result)
    ensures r.mem.reg == m.reg
  {
    var live := Pruned(m.entries, now);
    if live == m.entries && !m.needsCompaction then Result(d, m, Counted)
    else
      var c := Compact(d, live, io.admitSnapshot, io.admitJournal);
      if c.done then Result(c.disk, m.(entries := live, journalEntries := 0, needsCompaction := false), Counted)
      else Result(c.disk, m, StorageError)
  }

  /** The whole line is visible unless the append failed before writing it. */
  function Append(f: File<seq<Entry>>, e: Entry, o: AppendOutcome): File<seq<Entry>> {
    match o
    case Appended => File(f.visible + [e], {f.visible + [e]})
    case LineWritten => File(f.visible + [e], f.durable + {f.visible + [e]})
    case NotOpened => f
    case NothingWritten => f
  }

  /** An interaction id that is already recorded: conflict, or repair and report a duplicate. */
  function Resend(d: Disk, m: Mem, req: Request, io: Io): Result
    requires req.id in m.entries && req.lane in m.reg
  {
    var e := m.entries[req.id];
    if e.lane != req.lane || e.createdAt != req.createdAt then Result(d, m, Conflict)
    else if m.reg[req.lane] < e.count then
      CommitRegistry(d, m, m.reg[req.lane := e.count], io.save, Duplicate)
    else Result(d, m, Duplicate)
  }

  /** A journal at its bound is folded into the snapshot before another append. */
  function MakeRoom(d: Disk, m: Mem, io: Io): (r: Result)
    ensures r.mem.reg == m.reg && r.mem.entries == m.entries
  {
    if m.journalEntries < MAX_JOURNAL then Result(d, m, Counted)
    else
      var c := Compact(d, m.entries, io.fullSnapshot, io.fullJournal);
      if c.done then Result(c.disk, m.(journalEntries := 0, needsCompaction := false), Counted)
      else Result(c.disk, m, StorageError)
  }

  /** Journal the entry first, then raise the registry count. */
  function AppendNew(d: Disk, m: Mem, e: Entry, io: Io): Result
    requires e.lane in m.reg
  {
    var d' := d.(journal := Append(d.journal, e, io.append));
    match io.append
    case NotOpened => Result(d', m, StorageError)
    case NothingWritten => Result(d', m.(appendUncertain := true), Unavailable)
    case LineWritten => Result(d', m.(appendUncertain := true), Unavailable)
    case Appended =>
      CommitRegistry(d', m.(entries := m.entries[e.id := e], journalEntries := m.journalEntries + 1),
                     m.reg[e.lane := e.count], io.save, Counted)
  }

  /** The entry a new interaction gets: one more than the larger of the registry
      count and the largest journaled count of its lane. */
  ghost function NewEntry(reg: Registry, entries: Entries, req: Request): Entry
    requires req.lane in reg
  {
    Entry(req.id, req.lane, req.createdAt, Max(reg[req.lane], MaxCount(entries, req.lane)) + 1)
  }

  ghost function CountNew(d: Disk, m: Mem, req: Request, io: Io): Result
    requires req.lane in m.reg
  {
    var e := NewEntry(m.reg, m.entries, req);
    if e.count > MAX_SAFE then Result(d, m, CountExhausted)
    else
      var a := MakeRoom(d, m, io);
      if a.response != Counted then a
      else if |a.mem.entries| >= MAX_ENTRIES then Result(a.disk, a.mem, CapacityFull)
      else AppendNew(a.disk, a.mem, e, io)
  }

  ghost function Record(d: Disk, m: Mem, req: Request, now: nat, io: Io): Result {
    if m.appendUncertain || m.laneUncertain then Result(d, m, Unavailable)
    else if !ValidRegistry(m.reg) then Result(d, m, StorageError)
    else if req.lane !in m.reg then Result(d, m, UnknownLane)
    else if req.createdAt < Horizon(now) then Result(d, m, Gone)
    else if req.createdAt > now + FUTURE_SKEW_MS then Result(d, m, TooFarAhead)
    else
      var known := req.id in m.entries && Live(m.entries[req.id], now);
      var a := if known then Result(d, m, Counted) else AdmitFresh(d, m, now, io);
      if a.response != Counted then a
      else if req.id in a.mem.entries then Resend(a.disk, a.mem, req, io)
      else CountNew(a.disk, a.mem, req, io)
  }
}
