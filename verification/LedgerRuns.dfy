/**
 Runs of the daemon over its files: requests, other lane changes, power losses and
 plain relaunches, in any order and with any failure of any write.
 */
module LedgerRuns {
  import opened Durable
  import opened Ledger

  /** `hist` is a history variable: every entry whose append was durable, or that
      was in the files at a start. No step reads it. */
  datatype World = World(disk: Disk, proc: Proc, clock: nat, hist: set<Entry>)

  datatype Event =
    | Serve(req: Request, now: nat, io: Io)
    /** Any other registry mutation: lanes may be added, counts stay. */
    | ChangeLanes(reg: Registry, now: nat, save: Outcome)
    /** The machine stops; the files come back as one of the values each may have.
        A start first replaces the generation file, and goes no further when that fails. */
    | PowerLoss(snapshot: Entries, journal: seq<Entry>, registry: Registry, now: nat,
                generation: Outcome, save: Outcome)
    /** Only the process stops; the files stay as they are, synced or not. */
    | Relaunch(now: nat, generation: Outcome, save: Outcome)

  /** Values the journal keeps open when its name can no longer be taken back: what
      is missing of the visible journal is a part that was appended and not synced. */
  function Tails(f: File<seq<Entry>>): set<seq<Entry>> {
    set j | j in f.durable && j <= f.visible
  }

  /** The files after the generation file was replaced: it lies in their directory,
      which is synced with it, so every earlier replacement is durable too. */
  function Synced(d: Disk): Disk {
    Disk(File(d.snapshot.visible, {d.snapshot.visible}),
         File(d.journal.visible, Tails(d.journal)),
         File(d.registry.visible, {d.registry.visible}))
  }

  function SettledAt(s: Entries, j: seq<Entry>, r: Registry): Disk {
    Disk(File(s, {s}), File(j, {j}), File(r, {r}))
  }

  ghost predicate Enabled(w: World, ev: Event) {
    match ev
    case Serve(_, _, _) => w.proc.Up?
    case ChangeLanes(reg, _, _) =>
      && w.proc.Up?
      && w.proc.mem.reg.Keys <= reg.Keys
      && (forall l :: l in reg ==> reg[l] == if l in w.proc.mem.reg then w.proc.mem.reg[l] else 0)
    case PowerLoss(s, j, r, _, _, _) =>
      s in w.disk.snapshot.durable && j in w.disk.journal.durable && r in w.disk.registry.durable
    case Relaunch(_, _, _) => true
  }

  /** The wall clock may be set back at any time; this step comes after the last one. */
  predicate Timely(w: World, ev: Event) {
    ev.now >= w.clock
  }

  function Records(m: Entries): set<Entry> {
    set k | k in m :: m[k]
  }

  function Found(s: Entries, j: seq<Entry>): set<Entry> {
    Records(s) + (set e | e in j)
  }

  /** A start: the generation file first, then the files of the ledger. */
  ghost function Launch(d: Disk, now: nat, generation: Outcome, save: Outcome): Started {
    if generation == Written then Startup(d, now, save) else Started(d, Down)
  }

  ghost function Restart(w: World, d: Disk, now: nat, generation: Outcome, save: Outcome): World {
    var started := Launch(d, now, generation, save);
    World(started.disk, started.proc, now, w.hist + Found(d.snapshot.visible, d.journal.visible))
  }

  ghost function Next(w: World, ev: Event): World
    requires Enabled(w, ev)
  {
    match ev
    case Serve(req, now, io) =>
      var r := Record(w.disk, w.proc.mem, req, now, io);
      World(r.disk, Up(r.mem), now, w.hist + Records(r.mem.entries))
    case ChangeLanes(reg, now, save) =>
      if w.proc.mem.laneUncertain then w.(clock := now)
      else
        var r := CommitRegistry(w.disk, w.proc.mem, reg, save, Counted);
        World(r.disk, Up(r.mem), now, w.hist)
    case PowerLoss(s, j, r, now, generation, save) =>
      Restart(w, SettledAt(s, j, r), now, generation, save)
    case Relaunch(now, generation, save) =>
      if generation == Written then Restart(w, Synced(w.disk), now, generation, save)
      else w.(proc := Down, clock := now)
  }

  // ------------------------------------------------- what every step keeps

  ghost predicate SubMap(a: Entries, b: Entries) {
    forall k :: k in a ==> k in b && b[k] == a[k]
  }

  /** One append of this process may have reached the file without being reported. */
  function Upper(v: Entries, p: Option<Entry>): Entries {
    match p
    case None => v
    case Some(e) => v[e.id := e]
  }

  ghost predicate JournalWithin(j: seq<Entry>, m: Entries) {
    |j| <= MAX_JOURNAL && forall e :: e in j ==> e.id in m && m[e.id] == e
  }

  ghost predicate Covers(s: Entries, j: seq<Entry>, u: Entries, now: nat) {
    forall k :: k in u && Live(u[k], now) ==> (k in s && s[k] == u[k]) || u[k] in j
  }

  ghost predicate LanesKnown(m: Entries, r: Registry) {
    forall k :: k in m ==> m[k].lane in r
  }

  /** `v` is the generation of records this process works with, `p` the one it could
      not report, `u` the part of `v` that no power loss takes away: every value any
      file may have agrees with `v` and `p`. While the clock has not gone back (`timed`),
      every value also holds what is live of `u`, and the visible files what is live of `v`. */
  ghost predicate FilesAgree(d: Disk, now: nat, u: Entries, v: Entries, p: Option<Entry>, timed: bool) {
    && ValidEntries(Upper(v, p)) && SubMap(u, v)
    && (p.Some? ==> p.value.id !in v)
    && |Upper(v, p)| <= MAX_ENTRIES
    && d.snapshot.visible in d.snapshot.durable
    && d.journal.visible in d.journal.durable
    && d.registry.visible in d.registry.durable
    && (forall s :: s in d.snapshot.durable ==> SubMap(s, v) && (timed ==> Covers(s, d.journal.visible, v, now)))
    && (forall j :: j in d.journal.durable ==> JournalWithin(j, Upper(v, p)))
    && (timed ==> forall s, j :: s in d.snapshot.durable && j in d.journal.durable ==> Covers(s, j, u, now))
    && (forall r :: r in d.registry.durable ==> ValidRegistry(r) && LanesKnown(Upper(v, p), r))
  }

  ghost predicate MemAgrees(d: Disk, m: Mem, now: nat, v: Entries, p: Option<Entry>, timed: bool) {
    && SubMap(m.entries, v)
    && (timed ==> forall k :: k in v && Live(v[k], now) ==> k in m.entries)
    && (m.needsCompaction || m.entries == v)
    && ValidRegistry(m.reg)
    && LanesKnown(v, m.reg)
    && (m.laneUncertain || d.registry == File(m.reg, {m.reg}))
    && (m.appendUncertain || (p.None? && |d.journal.visible| <= m.journalEntries <= MAX_JOURNAL))
  }

  ghost predicate Good(w: World, u: Entries, v: Entries, p: Option<Entry>, timed: bool) {
    && FilesAgree(w.disk, w.clock, u, v, p, timed)
    && (w.proc.Up? ==> MemAgrees(w.disk, w.proc.mem, w.clock, v, p, timed))
  }

  ghost predicate Inv(w: World) {
    exists u, v, p :: Good(w, u, v, p, false)
  }

  lemma TimedIsInv(w: World, u: Entries, v: Entries, p: Option<Entry>, timed: bool)
    requires Good(w, u, v, p, timed)
    ensures Good(w, u, v, p, false) && Inv(w)
  {
    assert Good(w, u, v, p, false);
  }

  /** A first start: no ledger files yet, and the registry as loaded. */
  ghost predicate Initial(w: World) {
    && w.disk.snapshot == File(map[], {map[]})
    && w.disk.journal == File([], {[]})
    && ValidRegistry(w.disk.registry.visible) && Settled(w.disk.registry)
    && w.hist == {} && w.proc == Down
  }

  lemma InitialInv(w: World, timed: bool)
    requires Initial(w)
    ensures Good(w, map[], map[], None, timed)
  {
  }

  // ------------------------------------------------------- reading the files

  /** Folding journal lines that agree with `m` succeeds and stays within `m`. */
  lemma {:induction false} FoldWithin(entries: Entries, n: nat, j: seq<Entry>, m: Entries)
    requires ValidEntries(m) && SubMap(entries, m)
    requires forall e :: e in j ==> e.id in m && m[e.id] == e
    requires n + |j| <= MAX_JOURNAL
    ensures FoldJournal(entries, n, j).Some?
    ensures var r := FoldJournal(entries, n, j).value;
            && SubMap(r, m) && SubMap(entries, r)
            && (forall e :: e in j ==> e.id in r)
            && (forall k :: k in r ==> k in entries || r[k] in j)
    decreases |j|
  {
    if j != [] {
      var next := InsertEntry(entries, j[0]).value;
      FoldWithin(next, n + 1, j[1..], m);
      var r := FoldJournal(entries, n, j).value;
      forall e | e in j ensures e.id in r {
        if e != j[0] { assert e in j[1..]; }
      }
    }
  }

  /** Reading back any combination of values the files may have gives a map that
      holds every certain live record, and nothing that conflicts with another one. */
  lemma ReadBack(d: Disk, now: nat, u: Entries, v: Entries, p: Option<Entry>, s: Entries, j: seq<Entry>, later: nat, timed: bool)
    requires FilesAgree(d, now, u, v, p, timed) && (timed ==> later >= now)
    requires s in d.snapshot.durable && j in d.journal.durable
    ensures FoldJournal(s, 0, j).Some?
    ensures var all := FoldJournal(s, 0, j).value;
            && SubMap(all, Upper(v, p)) && ValidEntries(all) && |all| <= MAX_ENTRIES
            && SubMap(s, all)
            && (forall e :: e in j ==> e.id in all && all[e.id] == e)
            && (timed ==> forall k :: k in u && Live(u[k], later) ==> k in all && all[k] == u[k])
            && (forall k :: k in all ==> (k in s && s[k] == all[k]) || all[k] in j)
            && |Pruned(all, later)| <= MAX_ENTRIES
  {
    var top := Upper(v, p);
    assert SubMap(s, top) by { assert SubMap(s, v); }
    assert JournalWithin(j, top);
    FoldWithin(s, 0, j, top);
    var all := FoldJournal(s, 0, j).value;
    SubmapSize(all, top);
    SubmapSize(Pruned(all, later), all);
    assert timed ==> Covers(s, j, u, now);
    forall k | timed && k in u && Live(u[k], later) ensures k in all && all[k] == u[k] {
      assert top[k] == u[k] && top[k].id == k;
      if !(k in s && s[k] == u[k]) { assert u[k] in j; }
    }
  }

  /** The daemon can always restart from its own files, whatever its clock says. */
  lemma AcceptsEveryChoice(w: World, s: Entries, j: seq<Entry>, r: Registry, now: nat)
    requires Inv(w)
    requires s in w.disk.snapshot.durable && j in w.disk.journal.durable && r in w.disk.registry.durable
    ensures Accepts(s, j, r, now)
    ensures |j| <= MAX_JOURNAL && |FoldJournal(s, 0, j).value| <= MAX_ENTRIES
    ensures forall e :: e in Found(s, j) ==> e.id in FoldJournal(s, 0, j).value && FoldJournal(s, 0, j).value[e.id] == e
  {
    var u, v, p :| Good(w, u, v, p, false);
    ReadBack(w.disk, w.clock, u, v, p, s, j, now, false);
    assert ValidEntries(s) by { assert SubMap(s, v); }
    assert LanesKnown(Upper(v, p), r);
  }

  lemma FilesVisible(w: World)
    requires Inv(w)
    ensures var d := w.disk;
            d.snapshot.visible in d.snapshot.durable && d.journal.visible in d.journal.durable
            && d.registry.visible in d.registry.durable
  {
    var u, v, p :| Good(w, u, v, p, false);
  }

  // ------------------------------------------------------------ single steps

  lemma ClockAdvances(w: World, now: nat, u: Entries, v: Entries, p: Option<Entry>, timed: bool)
    requires Good(w, u, v, p, timed) && (timed ==> now >= w.clock)
    ensures Good(w.(clock := now), u, v, p, timed)
  {
    if timed {
      forall s, j | s in w.disk.snapshot.durable && j in w.disk.journal.durable ensures Covers(s, j, u, now) {
        assert Covers(s, j, u, w.clock);
      }
      forall s | s in w.disk.snapshot.durable ensures Covers(s, w.disk.journal.visible, v, now) {
        assert Covers(s, w.disk.journal.visible, v, w.clock);
      }
    }
  }

  /** A compaction that stops half-way leaves the old generation, one that completes
      leaves exactly the records it was given. */
  lemma CompactKeeps(d: Disk, now: nat, u: Entries, v: Entries, keep: Entries, o1: Outcome, o2: Outcome, timed: bool)
    requires FilesAgree(d, now, u, v, None, timed)
    requires SubMap(keep, v) && (timed ==> forall k :: k in v && Live(v[k], now) ==> k in keep)
    ensures var c := Compact(d, keep, o1, o2);
            && FilesAgree(c.disk, now, u, v, None, timed)
            && c.disk.registry == d.registry
            && |c.disk.journal.visible| <= |d.journal.visible|
            && (c.done ==> FilesAgree(c.disk, now, keep, keep, None, timed) && c.disk.journal.visible == [])
  {
    SnapshotKeeps(d, now, u, v, keep, o1, timed);
    Cleared(d, now, u, v, keep, timed);
    if o1 == Written {
      ClearKeeps(d.(snapshot := File(keep, {keep})), now, u, v, keep, o2, timed);
    }
    hide FilesAgree;
  }

  lemma SnapshotKeeps(d: Disk, now: nat, u: Entries, v: Entries, keep: Entries, o: Outcome, timed: bool)
    requires FilesAgree(d, now, u, v, None, timed)
    requires SubMap(keep, v) && (timed ==> forall k :: k in v && Live(v[k], now) ==> k in keep)
    ensures FilesAgree(d.(snapshot := Replace(d.snapshot, keep, o)), now, u, v, None, timed)
  {
    assert timed ==> forall j :: Covers(keep, j, v, now) && Covers(keep, j, u, now);
    hide Covers, SubMap, JournalWithin, LanesKnown, ValidEntries, ValidRegistry;
  }

  lemma ClearKeeps(d: Disk, now: nat, u: Entries, v: Entries, keep: Entries, o: Outcome, timed: bool)
    requires FilesAgree(d, now, u, v, None, timed) && d.snapshot == File(keep, {keep})
    requires timed ==> forall k :: k in v && Live(v[k], now) ==> k in keep
    ensures FilesAgree(d.(journal := Replace(d.journal, [], o)), now, u, v, None, timed)
  {
    assert timed ==> Covers(keep, [], v, now) && Covers(keep, [], u, now);
    assert JournalWithin([], v);
    hide Covers, SubMap, JournalWithin, LanesKnown, ValidEntries, ValidRegistry;
  }

  lemma Cleared(d: Disk, now: nat, u: Entries, v: Entries, keep: Entries, timed: bool)
    requires FilesAgree(d, now, u, v, None, timed) && SubMap(keep, v)
    ensures FilesAgree(Disk(File(keep, {keep}), File([], {[]}), d.registry), now, keep, keep, None, timed)
  {
    SubmapSize(keep, v);
    forall r | r in d.registry.durable ensures LanesKnown(keep, r) { assert LanesKnown(v, r); }
    assert ValidEntries(keep) && SubMap(keep, keep);
    assert Covers(keep, [], keep, now) && JournalWithin([], keep);
    hide Covers, SubMap, JournalWithin, LanesKnown, ValidEntries, ValidRegistry;
  }

  lemma AppendKeeps(d: Disk, now: nat, u: Entries, v: Entries, e: Entry, o: AppendOutcome, timed: bool)
    requires FilesAgree(d, now, u, v, None, timed)
    requires e.id !in v && e.count <= MAX_SAFE && |v| < MAX_ENTRIES && |d.journal.visible| < MAX_JOURNAL
    requires forall r :: r in d.registry.durable ==> e.lane in r
    ensures var d' := d.(journal := Append(d.journal, e, o));
            match o
            case Appended => FilesAgree(d', now, v[e.id := e], v[e.id := e], None, timed)
            case LineWritten => FilesAgree(d', now, u, v, Some(e), timed)
            case _ => d' == d
  {
    if o == Appended { AppendedKeeps(d, now, u, v, e, timed); }
    if o == LineWritten { WrittenKeeps(d, now, u, v, e, timed); }
    hide FilesAgree;
  }

  /** What both successful appends share: the larger generation and the longer journal. */
  lemma OneMoreRecord(d: Disk, now: nat, u: Entries, v: Entries, e: Entry, timed: bool)
    requires FilesAgree(d, now, u, v, None, timed)
    requires e.id !in v && e.count <= MAX_SAFE && |v| < MAX_ENTRIES && |d.journal.visible| < MAX_JOURNAL
    requires forall r :: r in d.registry.durable ==> e.lane in r
    ensures var top := v[e.id := e];
            && |top| == |v| + 1 && ValidEntries(top) && JournalWithin(d.journal.visible + [e], top)
            && (forall r :: r in d.registry.durable ==> LanesKnown(top, r))
  {}

  /** A durable append also settles every line before it. */
  lemma AppendedKeeps(d: Disk, now: nat, u: Entries, v: Entries, e: Entry, timed: bool)
    requires FilesAgree(d, now, u, v, None, timed)
    requires e.id !in v && e.count <= MAX_SAFE && |v| < MAX_ENTRIES && |d.journal.visible| < MAX_JOURNAL
    requires forall r :: r in d.registry.durable ==> e.lane in r
    ensures FilesAgree(d.(journal := Append(d.journal, e, Appended)), now, v[e.id := e], v[e.id := e], None, timed)
  {
    OneMoreRecord(d, now, u, v, e, timed);
    var top, lines := v[e.id := e], d.journal.visible;
    forall s | s in d.snapshot.durable ensures SubMap(s, top) && (timed ==> Covers(s, lines + [e], top, now)) {
      assert SubMap(s, v) && (timed ==> Covers(s, lines, v, now));
    }
    assert SubMap(top, top);
    hide SubMap, Covers, JournalWithin, LanesKnown, ValidEntries, ValidRegistry;
  }

  lemma WrittenKeeps(d: Disk, now: nat, u: Entries, v: Entries, e: Entry, timed: bool)
    requires FilesAgree(d, now, u, v, None, timed)
    requires e.id !in v && e.count <= MAX_SAFE && |v| < MAX_ENTRIES && |d.journal.visible| < MAX_JOURNAL
    requires forall r :: r in d.registry.durable ==> e.lane in r
    ensures FilesAgree(d.(journal := Append(d.journal, e, LineWritten)), now, u, v, Some(e), timed)
  {
    OneMoreRecord(d, now, u, v, e, timed);
    var d', lines := d.(journal := Append(d.journal, e, LineWritten)), d.journal.visible;
    forall j | j in d'.journal.durable ensures JournalWithin(j, v[e.id := e]) {
      assert j == lines + [e] || JournalWithin(j, Upper(v, None));
    }
    forall s, j | timed && s in d'.snapshot.durable && j in d'.journal.durable ensures Covers(s, j, u, now) {
      if j == lines + [e] { assert Covers(s, lines, u, now); }
    }
    forall s | timed && s in d'.snapshot.durable ensures Covers(s, lines + [e], v, now) {
      assert Covers(s, lines, v, now);
    }
    hide SubMap, Covers, JournalWithin, LanesKnown, ValidEntries, ValidRegistry;
  }

  lemma CommitKeeps(d: Disk, now: nat, u: Entries, v: Entries, p: Option<Entry>, m: Mem, reg: Registry,
                    save: Outcome, ok: Response, timed: bool)
    requires FilesAgree(d, now, u, v, p, timed) && MemAgrees(d, m, now, v, p, timed)
    requires m.reg.Keys <= reg.Keys && !m.laneUncertain && LanesKnown(Upper(v, p), m.reg)
    ensures var r := CommitRegistry(d, m, reg, save, ok);
            FilesAgree(r.disk, now, u, v, p, timed) && MemAgrees(r.disk, r.mem, now, v, p, timed) && r.mem.entries == m.entries
  {
    hide FilesAgree, MemAgrees, CommitRegistry;
    assert LanesKnown(Upper(v, p), reg);
    CommitFiles(d, now, u, v, p, m, reg, save, ok, timed);
    CommitMem(d, now, v, p, m, reg, save, ok, timed);
  }

  lemma CommitFiles(d: Disk, now: nat, u: Entries, v: Entries, p: Option<Entry>, m: Mem, reg: Registry,
                    save: Outcome, ok: Response, timed: bool)
    requires FilesAgree(d, now, u, v, p, timed) && LanesKnown(Upper(v, p), reg)
    ensures FilesAgree(CommitRegistry(d, m, reg, save, ok).disk, now, u, v, p, timed)
  {}

  lemma CommitMem(d: Disk, now: nat, v: Entries, p: Option<Entry>, m: Mem, reg: Registry, save: Outcome, ok: Response, timed: bool)
    requires MemAgrees(d, m, now, v, p, timed) && !m.laneUncertain && m.reg.Keys <= reg.Keys
    ensures var r := CommitRegistry(d, m, reg, save, ok);
            MemAgrees(r.disk, r.mem, now, v, p, timed) && r.mem.entries == m.entries
  {
    var r := CommitRegistry(d, m, reg, save, ok);
    assert LanesKnown(v, reg);
    assert r.mem == m || (ValidRegistry(reg) && r.mem == m.(reg := reg, laneUncertain := save == Unsettled));
    hide SubMap, LanesKnown, ValidRegistry, Pruned;
  }

  /** Admission either leaves everything usable as before, or leaves memory and
      files on one and the same generation. */
  lemma AdmitKeeps(d: Disk, m: Mem, now: nat, u: Entries, v: Entries, io: Io, timed: bool) returns (u': Entries, v': Entries)
    requires FilesAgree(d, now, u, v, None, timed) && MemAgrees(d, m, now, v, None, timed)
    requires !m.appendUncertain && !m.laneUncertain
    ensures var a := AdmitFresh(d, m, now, io);
            && FilesAgree(a.disk, now, u', v', None, timed) && MemAgrees(a.disk, a.mem, now, v', None, timed)
            && SubMap(v', v) && (timed ==> forall k :: k in v && Live(v[k], now) ==> k in v') && (u == v ==> u' == v')
            && (a.response == Counted ==> a.mem.entries == v' && a.mem.entries == Pruned(m.entries, now) && !a.mem.needsCompaction)
            && (a.response != Counted ==> a.mem == m && v' == v)
            && a.mem.journalEntries <= MAX_JOURNAL
            && a.mem.reg == m.reg && !a.mem.appendUncertain && !a.mem.laneUncertain
            && a.disk.registry == d.registry && (a.response == Counted || a.response == StorageError)
  {
    var live := Pruned(m.entries, now);
    u', v' := u, v;
    if live == m.entries && !m.needsCompaction {
    } else {
      CompactKeeps(d, now, u, v, live, io.admitSnapshot, io.admitJournal, timed);
      var c := Compact(d, live, io.admitSnapshot, io.admitJournal);
      if c.done {
        u', v' := live, live;
        assert Pruned(live, now) == live;
      }
    }
    hide FilesAgree;
  }

  lemma MakeRoomKeeps(d: Disk, m: Mem, now: nat, u: Entries, v: Entries, io: Io, timed: bool)
    requires FilesAgree(d, now, u, v, None, timed) && MemAgrees(d, m, now, v, None, timed)
    requires m.entries == v && !m.appendUncertain && !m.needsCompaction && !m.laneUncertain
    ensures var a := MakeRoom(d, m, io);
            && FilesAgree(a.disk, now, u, v, None, timed) && MemAgrees(a.disk, a.mem, now, v, None, timed)
            && a.mem.entries == m.entries && a.mem.reg == m.reg && !a.mem.appendUncertain && !a.mem.laneUncertain
            && (a.response == Counted ==> a.mem.journalEntries < MAX_JOURNAL)
  {
    CompactKeeps(d, now, u, v, v, io.fullSnapshot, io.fullJournal, timed);
    hide FilesAgree;
  }

  /** The append itself, and the registry save after it. */
  lemma AppendAndCommitKeeps(d: Disk, m: Mem, now: nat, u: Entries, v: Entries, e: Entry, io: Io, timed: bool)
    returns (u': Entries, v': Entries, p': Option<Entry>)
    requires FilesAgree(d, now, u, v, None, timed) && MemAgrees(d, m, now, v, None, timed)
    requires m.entries == v && e.lane in m.reg && e.id !in v && e.count <= MAX_SAFE && |v| < MAX_ENTRIES
    requires !m.appendUncertain && !m.laneUncertain && m.journalEntries < MAX_JOURNAL
    ensures var r := AppendNew(d, m, e, io);
            && FilesAgree(r.disk, now, u', v', p', timed) && MemAgrees(r.disk, r.mem, now, v', p', timed)
            && v' == r.mem.entries && v' == (if io.append == Appended then v[e.id := e] else v)
            && (p' == None || p' == Some(e)) && (u == v ==> u' == v')
  {
    u', v', p' := u, v, None;
    AppendKeeps(d, now, u, v, e, io.append, timed);
    var d1 := d.(journal := Append(d.journal, e, io.append));
    if io.append == LineWritten { p' := Some(e); }
    LatchedMem(d, d1, m, now, v, p', timed);
    hide FilesAgree;
    hide MemAgrees;
    hide CommitRegistry;
    hide Append;
    if io.append == Appended {
      v' := v[e.id := e];
      u' := v';
      var m2 := m.(entries := v', journalEntries := m.journalEntries + 1);
      AppendedMem(d, d1, m, m2, now, v, e, timed);
      CommitKeeps(d1, now, u', v', None, m2, m2.reg[e.lane := e.count], io.save, Counted, timed);
    }
  }

  lemma LatchedMem(d: Disk, d1: Disk, m: Mem, now: nat, v: Entries, p: Option<Entry>, timed: bool)
    requires MemAgrees(d, m, now, v, None, timed) && d1 == d.(journal := d1.journal)
    ensures MemAgrees(d1, m.(appendUncertain := true), now, v, p, timed)
  {
  }

  lemma AppendedMem(d: Disk, d1: Disk, m: Mem, m2: Mem, now: nat, v: Entries, e: Entry, timed: bool)
    requires MemAgrees(d, m, now, v, None, timed) && m.entries == v && e.lane in m.reg && e.id !in v
    requires !m.appendUncertain && m.journalEntries < MAX_JOURNAL
    requires d1 == d.(journal := Append(d.journal, e, Appended))
    requires m2 == m.(entries := v[e.id := e], journalEntries := m.journalEntries + 1)
    ensures MemAgrees(d1, m2, now, v[e.id := e], None, timed) && LanesKnown(Upper(v[e.id := e], None), m2.reg)
  {
  }

  lemma CountNewKeeps(d: Disk, m: Mem, now: nat, u: Entries, v: Entries, req: Request, io: Io, timed: bool)
    returns (u': Entries, v': Entries, p': Option<Entry>)
    requires FilesAgree(d, now, u, v, None, timed) && MemAgrees(d, m, now, v, None, timed)
    requires m.entries == v && req.lane in m.reg && req.id !in v
    requires !m.appendUncertain && !m.laneUncertain && !m.needsCompaction
    ensures var r := CountNew(d, m, req, io);
            && FilesAgree(r.disk, now, u', v', p', timed) && MemAgrees(r.disk, r.mem, now, v', p', timed)
            && v' == r.mem.entries && (u == v ==> u' == v')
            && (p' == None || p' == Some(NewEntry(m.reg, m.entries, req)))
            && (v' == v || v' == v[req.id := NewEntry(m.reg, m.entries, req)])
  {
    hide FilesAgree;
    hide MemAgrees;
    hide MakeRoom;
    hide AppendNew;
    u', v', p' := u, v, None;
    var e := NewEntry(m.reg, m.entries, req);
    if e.count <= MAX_SAFE {
      MakeRoomKeeps(d, m, now, u, v, io, timed);
      var a := MakeRoom(d, m, io);
      if a.response == Counted && |a.mem.entries| < MAX_ENTRIES {
        u', v', p' := AppendAndCommitKeeps(a.disk, a.mem, now, u, v, e, io, timed);
      }
    }
  }

  lemma ResendKeeps(d: Disk, m: Mem, now: nat, u: Entries, v: Entries, req: Request, io: Io, timed: bool)
    requires FilesAgree(d, now, u, v, None, timed) && MemAgrees(d, m, now, v, None, timed) && !m.laneUncertain
    requires req.id in m.entries && req.lane in m.reg
    ensures var r := Resend(d, m, req, io);
            FilesAgree(r.disk, now, u, v, None, timed) && MemAgrees(r.disk, r.mem, now, v, None, timed) && r.mem.entries == m.entries
  {
    var e := m.entries[req.id];
    if m.reg[req.lane] < e.count {
      CommitKeeps(d, now, u, v, None, m, m.reg[req.lane := e.count], io.save, Duplicate, timed);
    }
  }

  /** What a request may do to the generation of records. */
  ghost predicate GenerationStep(v: Entries, v': Entries, held: Entries, now: nat) {
    && (forall k :: k in v && Live(v[k], now) ==> k in v' && v'[k] == v[k])
    && (forall k :: k in v' ==> (k in v && v'[k] == v[k]) || (k in held && held[k] == v'[k]))
    && SubMap(held, v')
  }

  /** Admission of a fresh id, then a new count. */
  ghost function AdmitAndCount(d: Disk, m: Mem, req: Request, now: nat, io: Io): Result
    requires req.lane in m.reg
  {
    var a := AdmitFresh(d, m, now, io);
    if a.response != Counted then a else CountNew(a.disk, a.mem, req, io)
  }

  lemma FreshKeeps(d: Disk, m: Mem, req: Request, now: nat, io: Io, u: Entries, v: Entries, timed: bool)
    returns (u': Entries, v': Entries, p': Option<Entry>)
    requires FilesAgree(d, now, u, v, None, timed) && MemAgrees(d, m, now, v, None, timed)
    requires !m.appendUncertain && !m.laneUncertain && req.lane in m.reg
    requires !(req.id in m.entries && Live(m.entries[req.id], now))
    ensures var r := AdmitAndCount(d, m, req, now, io);
            && FilesAgree(r.disk, now, u', v', p', timed) && MemAgrees(r.disk, r.mem, now, v', p', timed)
            && (timed ==> GenerationStep(v, v', r.mem.entries, now)) && (u == v ==> u' == v')
            && (p' == None || p' == Some(NewEntry(m.reg, Pruned(m.entries, now), req)))
    ensures AdmitFresh(d, m, now, io).response == Counted ==> req.id !in AdmitFresh(d, m, now, io).mem.entries
  {
    assert SubMap(m.entries, v);
    hide FilesAgree, MemAgrees, AdmitFresh, CountNew, GenerationStep, NewEntry, SubMap, Pruned;
    var u1, v1 := AdmitKeeps(d, m, now, u, v, io, timed);
    u', v', p' := u1, v1, None;
    var a := AdmitFresh(d, m, now, io);
    if a.response == Counted {
      assert req.id !in a.mem.entries by { PrunedAway(m.entries, now, req.id); }
      u', v', p' := CountNewKeeps(a.disk, a.mem, now, u1, v1, req, io, timed);
      if timed { GenerationOf(v, v1, v', AdmitAndCount(d, m, req, now, io).mem.entries, req.id, now); }
    } else {
      GenerationSame(v, m.entries, now);
    }
  }

  lemma PrunedAway(entries: Entries, now: nat, id: string)
    requires !(id in entries && Live(entries[id], now))
    ensures id !in Pruned(entries, now)
  {}

  lemma GenerationSame(v: Entries, held: Entries, now: nat)
    requires SubMap(held, v)
    ensures GenerationStep(v, v, held, now)
  {}

  /** Pruning and then possibly adding one new record. */
  lemma GenerationOf(v: Entries, v1: Entries, v': Entries, held: Entries, id: string, now: nat)
    requires SubMap(v1, v) && (forall k :: k in v && Live(v[k], now) ==> k in v1)
    requires held == v' && id !in v1 && (v' == v1 || (id in v' && v' == v1[id := v'[id]]))
    ensures GenerationStep(v, v', held, now)
  {}

  /** A request that goes past every check and is not yet in the ledger. */
  predicate FreshRequest(m: Mem, req: Request, now: nat) {
    && !m.appendUncertain && !m.laneUncertain && req.lane in m.reg && req.createdAt >= Horizon(now)
    && req.id !in Pruned(m.entries, now)
  }

  lemma RecordKeeps(d: Disk, m: Mem, req: Request, now: nat, io: Io, u: Entries, v: Entries, p: Option<Entry>, timed: bool)
    returns (u': Entries, v': Entries, p': Option<Entry>)
    requires FilesAgree(d, now, u, v, p, timed) && MemAgrees(d, m, now, v, p, timed)
    ensures var r := Record(d, m, req, now, io);
            FilesAgree(r.disk, now, u', v', p', timed) && MemAgrees(r.disk, r.mem, now, v', p', timed)
            && (timed ==> GenerationStep(v, v', r.mem.entries, now)) && (u == v ==> u' == v')
            && (p' == p || p' == None
                || (FreshRequest(m, req, now) && p' == Some(NewEntry(m.reg, Pruned(m.entries, now), req))))
  {
    assert SubMap(m.entries, v) && ValidRegistry(m.reg);
    assert m.appendUncertain || p.None?;
    hide FilesAgree;
    hide MemAgrees;
    hide AdmitFresh;
    hide CountNew;
    hide Resend;
    hide ValidRegistry;
    u', v', p' := u, v, p;
    if !(m.appendUncertain || m.laneUncertain || req.lane !in m.reg || req.createdAt < Horizon(now)
         || req.createdAt > now + FUTURE_SKEW_MS) {
      if req.id in m.entries && Live(m.entries[req.id], now) {
        ResendKeeps(d, m, now, u, v, req, io, timed);
      } else {
        u', v', p' := FreshKeeps(d, m, req, now, io, u, v, timed);
      }
    }
  }

  lemma SaveKeepsFiles(d: Disk, now: nat, u: Entries, v: Entries, p: Option<Entry>, reg: Registry, save: Outcome, timed: bool)
    requires FilesAgree(d, now, u, v, p, timed) && ValidRegistry(reg) && LanesKnown(Upper(v, p), reg)
    ensures FilesAgree(d.(registry := Replace(d.registry, reg, save)), now, u, v, p, timed)
  {
  }

  // ---------------------------------------------------------------- restarts

  /** What a new process finds: one value of the snapshot and one of the registry, and
      a journal of which only an appended part can still be taken away. */
  ghost predicate Reopened(d0: Disk, d: Disk) {
    && d.snapshot.visible in d0.snapshot.durable && Settled(d.snapshot)
    && d.registry.visible in d0.registry.durable && Settled(d.registry)
    && d.journal.visible in d.journal.durable
    && forall j :: j in d.journal.durable ==> j in d0.journal.durable && j <= d.journal.visible
  }

  /** A line that the visible journal holds, still needed, and not in the snapshot,
      that the journal's value `j` lacks. */
  predicate Lacks(d: Disk, now: nat, j: seq<Entry>, e: Entry) {
    j in Tails(d.journal) && e in d.journal.visible && e !in j && Live(e, now) && e.id !in d.snapshot.visible
  }

  /** No power loss takes a needed line away once the files' names are durable. */
  ghost predicate NothingLacks(d: Disk, now: nat) {
    forall j, e :: j in Tails(d.journal) && e in d.journal.visible ==> !Lacks(d, now, j, e)
  }

  lemma RepairedKnows(u: Entries, r: Registry, now: nat)
    requires LanesKnown(u, r)
    ensures LanesKnown(u, Reconciled(r, Pruned(u, now)))
  {
  }

  lemma StartupMemAgrees(d: Disk, now: nat, v: Entries, reg: Registry, lost: bool, timed: bool)
    requires ValidRegistry(reg) && LanesKnown(v, reg) && |d.journal.visible| <= MAX_JOURNAL
    requires lost || d.registry == File(reg, {reg})
    ensures var live := Pruned(v, now);
            MemAgrees(d, Mem(reg, live, |d.journal.visible|, live != v, lost, false), now, v, None, timed)
  {}

  lemma StartupKeeps(d: Disk, now: nat, save: Outcome, u: Entries, v: Entries, timed: bool)
    requires Settled(d.registry) && FilesAgree(d, now, u, v, None, timed)
    requires Accepts(d.snapshot.visible, d.journal.visible, d.registry.visible, now)
    requires FoldJournal(d.snapshot.visible, 0, d.journal.visible) == Some(v)
    requires |d.journal.visible| <= MAX_JOURNAL
    ensures var st := Startup(d, now, save);
            FilesAgree(st.disk, now, u, v, None, timed) && (st.proc.Up? ==> MemAgrees(st.disk, st.proc.mem, now, v, None, timed))
  {
    var r := d.registry.visible;
    assert LanesKnown(v, r) by { assert r in d.registry.durable; }
    RepairedKnows(v, r, now);
    hide FilesAgree;
    hide Accepts;
    hide MemAgrees;
    hide ValidRegistry;
    hide LanesKnown;
    hide FoldJournal;
    hide Pruned;
    hide Reconciled;
    var repaired := Reconciled(r, Pruned(v, now));
    if repaired == r {
      assert ValidRegistry(r) by { AcceptedRegistry(d, now); }
      StartupMemAgrees(d, now, v, r, false, timed);
    } else if ValidRegistry(repaired) && save != Untouched {
      SaveKeepsFiles(d, now, u, v, None, repaired, save, timed);
      StartupMemAgrees(d.(registry := Replace(d.registry, repaired, save)), now, v, repaired, save == Unsettled, timed);
    }
  }

  lemma AcceptedRegistry(d: Disk, now: nat)
    requires Accepts(d.snapshot.visible, d.journal.visible, d.registry.visible, now)
    ensures ValidRegistry(d.registry.visible)
  {
  }

  /** The records of `all` that no journal value of `d` lacks: all of them when nothing
      lacks, else those that were certain before. */
  ghost function Certain(d: Disk, now: nat, u: Entries, all: Entries): (r: Entries)
    ensures SubMap(r, all) && (NothingLacks(d, now) ==> r == all)
    ensures NothingLacks(d, now) || SubMap(r, u)
  {
    if NothingLacks(d, now) then all else map k | k in all && k in u && u[k] == all[k] :: all[k]
  }

  lemma ReopenedCovers(d: Disk, now: nat, j: seq<Entry>, all: Entries)
    requires NothingLacks(d, now) && j in Tails(d.journal)
    requires SubMap(d.snapshot.visible, all) && ValidEntries(all)
    requires forall k :: k in all ==> k in d.snapshot.visible || all[k] in d.journal.visible
    ensures Covers(d.snapshot.visible, j, all, now)
  {
    forall k | k in all && Live(all[k], now) && k !in d.snapshot.visible ensures all[k] in j {
      assert !Lacks(d, now, j, all[k]);
    }
  }

  /** Every kept journal value lies within what was read, and with the snapshot it
      still holds the certain records. */
  lemma ReopenedJournals(d0: Disk, d: Disk, now: nat, later: nat, u: Entries, v: Entries, p: Option<Entry>,
                         all: Entries, x: seq<Entry>, timed: bool)
    requires FilesAgree(d0, now, u, v, p, timed) && (timed ==> later >= now) && Reopened(d0, d) && x in d.journal.durable
    requires SubMap(all, Upper(v, p)) && SubMap(d.snapshot.visible, all) && ValidEntries(all)
    requires forall k :: k in all ==> k in d.snapshot.visible || all[k] in d.journal.visible
    requires forall e :: e in d.journal.visible ==> e.id in all && all[e.id] == e
    ensures JournalWithin(x, all) && (timed ==> Covers(d.snapshot.visible, x, Certain(d, later, u, all), later))
  {
    var s := d.snapshot.visible;
    assert x in d0.journal.durable && x <= d.journal.visible && x in Tails(d.journal);
    assert JournalWithin(x, Upper(v, p)) && (timed ==> Covers(s, x, u, now));
    hide FilesAgree, Reopened, Certain, Tails;
    assert forall e :: e in x ==> e in d.journal.visible;
    if NothingLacks(d, later) {
      ReopenedCovers(d, later, x, all);
    } else if timed {
      CoversFewer(s, x, u, Certain(d, later, u, all), now, later);
    }
  }

  lemma CoversFewer(s: Entries, j: seq<Entry>, u: Entries, u': Entries, now: nat, later: nat)
    requires Covers(s, j, u, now) && SubMap(u', u) && later >= now
    ensures Covers(s, j, u', later)
  {}

  lemma ReopenedAgree(d0: Disk, d: Disk, now: nat, later: nat, u: Entries, v: Entries, p: Option<Entry>, timed: bool)
    returns (all: Entries)
    requires FilesAgree(d0, now, u, v, p, timed) && (timed ==> later >= now) && Reopened(d0, d)
    ensures FoldJournal(d.snapshot.visible, 0, d.journal.visible) == Some(all) && SubMap(all, Upper(v, p))
    ensures FilesAgree(d, later, Certain(d, later, u, all), all, None, timed)
  {
    var s, j, r := d.snapshot.visible, d.journal.visible, d.registry.visible;
    ReadBack(d0, now, u, v, p, s, j, later, timed);
    all := FoldJournal(s, 0, j).value;
    assert ValidRegistry(r) && LanesKnown(all, r) by { assert LanesKnown(Upper(v, p), r); }
    forall x | x in d.journal.durable
      ensures JournalWithin(x, all) && (timed ==> Covers(s, x, Certain(d, later, u, all), later))
    {
      ReopenedJournals(d0, d, now, later, u, v, p, all, x, timed);
    }
    hide FilesAgree;
    OneGeneration(d, later, Certain(d, later, u, all), all, timed);
  }

  /** Files of a fresh start that hold `all` between them. */
  lemma OneGeneration(d: Disk, now: nat, u: Entries, all: Entries, timed: bool)
    requires Settled(d.snapshot) && Settled(d.registry) && d.journal.visible in d.journal.durable
    requires ValidEntries(all) && |all| <= MAX_ENTRIES && SubMap(u, all) && SubMap(d.snapshot.visible, all)
    requires Covers(d.snapshot.visible, d.journal.visible, all, now)
    requires ValidRegistry(d.registry.visible) && LanesKnown(all, d.registry.visible)
    requires forall x :: x in d.journal.durable ==> JournalWithin(x, all) && (timed ==> Covers(d.snapshot.visible, x, u, now))
    ensures FilesAgree(d, now, u, all, None, timed)
  {
    hide JournalWithin, LanesKnown, ValidRegistry, ValidEntries, Covers, SubMap;
  }

  lemma RestartKeeps(w: World, d: Disk, now: nat, generation: Outcome, save: Outcome, u: Entries, v: Entries, p: Option<Entry>, timed: bool)
    returns (u': Entries, v': Entries)
    requires Good(w, u, v, p, timed) && (timed ==> now >= w.clock) && Reopened(w.disk, d)
    ensures Good(Restart(w, d, now, generation, save), u', v', None, timed)
    ensures FoldJournal(d.snapshot.visible, 0, d.journal.visible) == Some(v') && SubMap(v', Upper(v, p))
    ensures u' == Certain(d, now, u, v')
  {
    TimedIsInv(w, u, v, p, timed);
    AcceptsEveryChoice(w, d.snapshot.visible, d.journal.visible, d.registry.visible, now);
    hide FilesAgree, MemAgrees, Startup, Accepts, FoldJournal, SubMap, Certain;
    v' := ReopenedAgree(w.disk, d, w.clock, now, u, v, p, timed);
    u' := Certain(d, now, u, v');
    StartupKeeps(d, now, save, u', v', timed);
  }

  lemma ReopenedSettled(d: Disk, s: Entries, j: seq<Entry>, r: Registry, now: nat)
    requires s in d.snapshot.durable && j in d.journal.durable && r in d.registry.durable
    ensures Reopened(d, SettledAt(s, j, r)) && NothingLacks(SettledAt(s, j, r), now)
  {
  }

  lemma ReopenedSynced(d: Disk)
    requires d.snapshot.visible in d.snapshot.durable && d.journal.visible in d.journal.durable
    requires d.registry.visible in d.registry.durable
    ensures Reopened(d, Synced(d))
  {
  }

  // ------------------------------------------------------------------- runs

  lemma SavedRegistryKnows(d: Disk, m: Mem, now: nat, u: Entries, v: Entries, p: Option<Entry>, timed: bool)
    requires FilesAgree(d, now, u, v, p, timed) && MemAgrees(d, m, now, v, p, timed) && !m.laneUncertain
    ensures LanesKnown(Upper(v, p), m.reg)
  {}

  lemma ServeKeeps(w: World, ev: Event, u: Entries, v: Entries, p: Option<Entry>, timed: bool)
    returns (u': Entries, v': Entries, p': Option<Entry>)
    requires Good(w, u, v, p, timed) && (timed ==> Timely(w, ev)) && Enabled(w, ev) && ev.Serve?
    ensures Good(Next(w, ev), u', v', p', timed)
    ensures (timed ==> GenerationStep(v, v', Next(w, ev).proc.mem.entries, ev.now)) && (u == v ==> u' == v')
    ensures p' == p || p' == None || (FreshRequest(w.proc.mem, ev.req, ev.now)
              && p' == Some(NewEntry(w.proc.mem.reg, Pruned(w.proc.mem.entries, ev.now), ev.req)))
  {
    hide FilesAgree;
    hide MemAgrees;
    hide GenerationStep;
    hide Record;
    ClockAdvances(w, ev.now, u, v, p, timed);
    u', v', p' := RecordKeeps(w.disk, w.proc.mem, ev.req, ev.now, ev.io, u, v, p, timed);
  }

  lemma ChangeLanesKeeps(w: World, ev: Event, u: Entries, v: Entries, p: Option<Entry>, timed: bool)
    requires Good(w, u, v, p, timed) && (timed ==> Timely(w, ev)) && Enabled(w, ev) && ev.ChangeLanes?
    ensures Good(Next(w, ev), u, v, p, timed)
  {
    hide FilesAgree;
    hide MemAgrees;
    hide CommitRegistry;
    ClockAdvances(w, ev.now, u, v, p, timed);
    if !w.proc.mem.laneUncertain {
      SavedRegistryKnows(w.disk, w.proc.mem, ev.now, u, v, p, timed);
      CommitKeeps(w.disk, ev.now, u, v, p, w.proc.mem, ev.reg, ev.save, Counted, timed);
    }
  }

  /** Every step keeps the generations, and with a clock that has not gone back also that
      every file value holds the certain records. */
  lemma NextAgrees(w: World, ev: Event, u: Entries, v: Entries, p: Option<Entry>, timed: bool)
    returns (u': Entries, v': Entries, p': Option<Entry>)
    requires Good(w, u, v, p, timed) && (timed ==> Timely(w, ev)) && Enabled(w, ev)
    ensures Good(Next(w, ev), u', v', p', timed)
  {
    var d := w.disk;
    assert d.snapshot.visible in d.snapshot.durable && d.journal.visible in d.journal.durable
           && d.registry.visible in d.registry.durable;
    hide Good, Restart, Reopened, NothingLacks;
    u', v', p' := u, v, p;
    match ev
    case Serve(_, _, _) => u', v', p' := ServeKeeps(w, ev, u, v, p, timed);
    case ChangeLanes(_, _, _) => ChangeLanesKeeps(w, ev, u, v, p, timed);
    case PowerLoss(s, j, r, now, generation, save) =>
      ReopenedSettled(d, s, j, r, now);
      u', v' := RestartKeeps(w, SettledAt(s, j, r), now, generation, save, u, v, p, timed);
      p' := None;
    case Relaunch(now, generation, save) =>
      if generation == Written {
        ReopenedSynced(d);
        u', v' := RestartKeeps(w, Synced(d), now, generation, save, u, v, p, timed);
        p' := None;
      } else {
        ClockAdvances(w, now, u, v, p, timed);
        DownKeeps(w.(clock := now), u, v, p, timed);
      }
  }

  lemma NextKeeps(w: World, ev: Event)
    requires Inv(w) && Enabled(w, ev)
    ensures Inv(Next(w, ev))
  {
    hide Good, Next, Enabled;
    var u, v, p :| Good(w, u, v, p, false);
    var u', v', p' := NextAgrees(w, ev, u, v, p, false);
  }

  lemma DownKeeps(w: World, u: Entries, v: Entries, p: Option<Entry>, timed: bool)
    requires Good(w, u, v, p, timed)
    ensures Good(w.(proc := Down), u, v, p, timed)
  {}

  /** The worlds of a run, first to last. */
  ghost predicate Run(ws: seq<World>, evs: seq<Event>) {
    && |ws| == |evs| + 1
    && Initial(ws[0])
    && forall i :: 0 <= i < |evs| ==> Enabled(ws[i], evs[i]) && ws[i + 1] == Next(ws[i], evs[i])
  }

  lemma {:induction false} RunKeeps(ws: seq<World>, evs: seq<Event>, i: nat)
    requires Run(ws, evs) && i <= |evs|
    ensures Inv(ws[i])
  {
    if i == 0 {
      InitialInv(ws[0], false);
    } else {
      RunKeeps(ws, evs, i - 1);
      NextKeeps(ws[i - 1], evs[i - 1]);
    }
  }

  /** After any run, relaunches over unsynced files and clocks set back included, startup
      accepts whatever a power loss leaves of the files, and the files as they look; the
      journal and the whole ledger stay within their bounds. */
  lemma StartupAlwaysAccepts(ws: seq<World>, evs: seq<Event>, s: Entries, j: seq<Entry>, r: Registry, now: nat)
    requires Run(ws, evs)
    requires var d := ws[|evs|].disk;
             s in d.snapshot.durable && j in d.journal.durable && r in d.registry.durable
    ensures Accepts(s, j, r, now)
    ensures |j| <= MAX_JOURNAL && |FoldJournal(s, 0, j).value| <= MAX_ENTRIES
    ensures forall e, f :: e in Found(s, j) && f in Found(s, j) && e.id == f.id ==> e == f
    ensures var d := ws[|evs|].disk;
            d.snapshot.visible in d.snapshot.durable && d.journal.visible in d.journal.durable
            && d.registry.visible in d.registry.durable
  {
    RunKeeps(ws, evs, |evs|);
    AcceptsEveryChoice(ws[|evs|], s, j, r, now);
    FilesVisible(ws[|evs|]);
  }
}
