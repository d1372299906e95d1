/**
 The bridge's outbox and the daemon's ledger together. Requests, answers and both
 processes can be lost at any time; an answer may arrive late, more than once, or never.
 */
module EndToEnd {
  import opened Durable
  import Ledger
  import LedgerRuns
  import LedgerAccount
  import LedgerSaved
  import Outbox

  type Turn = Outbox.Turn

  datatype Answer = Recorded(turn: Turn) | RetryExpired(turn: Turn)

  /** `promoted` and `retired` are history variables: turns whose `promote` returned after
      writing, or from a file that was durable, and turns whose `removeDelivered` was
      called after an answer. */
  datatype System = System(box: Outbox.Box, bridgeUp: bool, daemon: LedgerRuns.World,
                           answers: set<Answer>, promoted: set<Turn>, retired: set<Turn>)

  datatype Event =
    /** The bridge reserves, promotes or cancels a turn. */
    | Reserve(turn: Turn) | Promote(turn: Turn) | Cancel(turn: Turn)
    /** The bridge posts a pending turn; the daemon serves it. */
    | Post(turn: Turn, now: nat, io: Ledger.Io)
    /** An answer reaches the bridge. */
    | Deliver(answer: Answer)
    /** The bridge stops and reads back one of the values its file may have. */
    | BridgeRestart(rows: seq<Outbox.Row>, settled: bool)
    /** Anything else that happens to the daemon. */
    | Daemon(event: LedgerRuns.Event)

  function ToRequest(t: Turn): Ledger.Request {
    Ledger.Request(t.lane, t.id, t.createdAt)
  }

  function Serve(t: Turn, now: nat, io: Ledger.Io): LedgerRuns.Event {
    LedgerRuns.Serve(ToRequest(t), now, io)
  }

  ghost predicate Enabled(s: System, ev: Event) {
    match ev
    case Post(t, now, io) =>
      && s.bridgeUp && Outbox.Row(t, Outbox.Pending) in s.box.records
      && LedgerRuns.Enabled(s.daemon, Serve(t, now, io))
    case Deliver(a) => s.bridgeUp && a in s.answers
    case BridgeRestart(rows, settled) =>
      if settled then rows in s.box.file.durable else rows == s.box.file.visible
    case Daemon(e) => LedgerRuns.Enabled(s.daemon, e)
    case _ => s.bridgeUp
  }

  function AnswerOf(t: Turn, r: Ledger.Response): set<Answer> {
    match r
    case Counted => {Recorded(t)}
    case Duplicate => {Recorded(t)}
    case Gone => {RetryExpired(t)}
    case _ => {}
  }

  predicate Promised(b: Outbox.Box, r: Outbox.Reply) {
    r.verdict == Outbox.Done && (r.box != b || Settled(b.file))
  }

  ghost function Next(s: System, ev: Event, capacity: nat, io: Outbox.Disk): System
    requires Enabled(s, ev)
  {
    match ev
    case Reserve(t) => s.(box := Outbox.Reserve(s.box, capacity, t, io).box)
    case Cancel(t) => s.(box := Outbox.CancelReservation(s.box, t, io).box)
    case Promote(t) =>
      var r := Outbox.Promote(s.box, t, io);
      s.(box := r.box, promoted := s.promoted + if Promised(s.box, r) then {t} else {})
    case Post(t, now, dio) =>
      var r := Ledger.Record(s.daemon.disk, s.daemon.proc.mem, ToRequest(t), now, dio);
      s.(daemon := LedgerRuns.Next(s.daemon, Serve(t, now, dio)), answers := s.answers + AnswerOf(t, r.response))
    case Deliver(a) => (
      match a
      case Recorded(t) => s.(box := Outbox.RemoveDelivered(s.box, t, io).box, retired := s.retired + {t})
      case RetryExpired(t) => s.(box := Outbox.MarkExpired(s.box, t, io).box))
    case BridgeRestart(rows, settled) =>
      var file := if settled then File(rows, {rows}) else s.box.file;
      var r := Outbox.Reload(file, s.box.writes, io);
      s.(box := r.box, bridgeUp := r.verdict == Outbox.Done)
    case Daemon(e) => s.(daemon := LedgerRuns.Next(s.daemon, e))
  }

  // ------------------------------------------------------------- invariants

  predicate IsAbout(h: Ledger.Entry, t: Turn) {
    h.id == t.id && h.createdAt == t.createdAt
  }

  /** The daemon journaled an entry about exactly this turn, and whatever a power loss
      leaves of the registry, the lane's saved count includes it. */
  ghost predicate Durably(w: LedgerRuns.World, t: Turn) {
    exists h :: h in w.hist && h.lane == t.lane && IsAbout(h, t) && LedgerSaved.SavedAtLeast(w.disk, t.lane, h.count)
  }

  ghost predicate Inv(s: System, capacity: nat) {
    && Outbox.GoodFile(s.box.file, capacity)
    && (s.bridgeUp ==> Outbox.Inv(s.box, capacity))
    && LedgerRuns.Inv(s.daemon)
    && (forall t :: t in s.promoted && t !in s.retired ==> Outbox.Kept(s.box, t))
    && (forall t :: t in s.retired || Recorded(t) in s.answers ==> Durably(s.daemon, t))
  }

  ghost predicate Initial(s: System) {
    && s.box == Outbox.Box([], [], false, File([], {[]}), 0) && s.bridgeUp
    && LedgerRuns.Initial(s.daemon) && s.answers == {} && s.promoted == {} && s.retired == {}
  }

  ghost predicate TruthfulAbout(r: Ledger.Result, req: Ledger.Request) {
    r.response in {Ledger.Counted, Ledger.Duplicate} ==>
      && req.id in r.mem.entries
      && r.mem.entries[req.id].lane == req.lane && r.mem.entries[req.id].createdAt == req.createdAt
  }

  lemma CountNewTruth(d: Ledger.Disk, m: Ledger.Mem, req: Ledger.Request, io: Ledger.Io)
    requires req.lane in m.reg
    ensures TruthfulAbout(Ledger.CountNew(d, m, req, io), req)
  {
    var room := Ledger.MakeRoom(d, m, io);
    assert room.response in {Ledger.Counted, Ledger.StorageError} && room.mem.reg == m.reg;
    hide Ledger.MaxCount;
    hide Ledger.MakeRoom;
    hide Ledger.ValidRegistry;
  }

  lemma ResendTruth(d: Ledger.Disk, m: Ledger.Mem, req: Ledger.Request, io: Ledger.Io)
    requires req.id in m.entries && req.lane in m.reg
    ensures TruthfulAbout(Ledger.Resend(d, m, req, io), req)
  {
  }

  /** An answer that makes the bridge drop the turn is true: the entry was recorded. */
  lemma AnswerIsTrue(d: Ledger.Disk, m: Ledger.Mem, req: Ledger.Request, now: nat, io: Ledger.Io)
    ensures TruthfulAbout(Ledger.Record(d, m, req, now, io), req)
  {
    LedgerAccount.AdmitEffect(d, m, now, io);
    var a := Ledger.AdmitFresh(d, m, now, io);
    assert a.response in {Ledger.Counted, Ledger.StorageError};
    hide Ledger.AdmitFresh;
    hide Ledger.CountNew;
    hide Ledger.Resend;
    hide Ledger.ValidRegistry;
    hide Ledger.Pruned;
    if req.lane in m.reg {
      if req.id in m.entries { ResendTruth(d, m, req, io); }
      if req.lane in a.mem.reg {
        if req.id in a.mem.entries { ResendTruth(a.disk, a.mem, req, io); }
        CountNewTruth(a.disk, a.mem, req, io);
      }
    }
  }

  /** The answer that makes the bridge drop a turn is backed by the daemon's disk. */
  lemma AnswerIsDurable(w: LedgerRuns.World, t: Turn, now: nat, io: Ledger.Io)
    requires LedgerRuns.Inv(w) && LedgerRuns.Enabled(w, Serve(t, now, io))
    requires Ledger.Record(w.disk, w.proc.mem, ToRequest(t), now, io).response in {Ledger.Counted, Ledger.Duplicate}
    ensures Durably(LedgerRuns.Next(w, Serve(t, now, io)), t)
  {
    var ev := Serve(t, now, io);
    var r := Ledger.Record(w.disk, w.proc.mem, ToRequest(t), now, io);
    LedgerSaved.AnswerIsSaved(w, ev);
    LedgerRuns.NextKeeps(w, ev);
    hide Ledger.Record;
    var w' := LedgerRuns.Next(w, ev);
    var u, v, p :| LedgerRuns.Good(w', u, v, p, false);
    var e := r.mem.entries[t.id];
    assert e in LedgerRuns.Records(r.mem.entries) && e in w'.hist;
    assert LedgerRuns.SubMap(r.mem.entries, v) && v[t.id] == e;
    LedgerAccount.GoodIsValid(w', u, v, p, false);
  }

  /** What was durably recorded stays so, through every step of the daemon. */
  lemma DurablyStays(w: LedgerRuns.World, ev: LedgerRuns.Event)
    requires LedgerRuns.Inv(w) && LedgerRuns.Enabled(w, ev)
    ensures forall t :: Durably(w, t) ==> Durably(LedgerRuns.Next(w, ev), t)
  {
    LedgerSaved.CountsOnlyGrow(w, ev);
    LedgerSaved.HistoryGrowsStep(w, ev);
    hide LedgerRuns.Next, LedgerRuns.Enabled, LedgerRuns.Inv;
    var w' := LedgerRuns.Next(w, ev);
    forall t | Durably(w, t) ensures Durably(w', t) {
      var h :| h in w.hist && h.lane == t.lane && IsAbout(h, t) && LedgerSaved.SavedAtLeast(w.disk, t.lane, h.count);
      LedgerSaved.StillSaved(w.disk, w'.disk, t.lane, h.count);
    }
  }

  lemma BridgeKeeps(s: System, ev: Event, capacity: nat, io: Outbox.Disk)
    requires Inv(s, capacity) && Enabled(s, ev) && !ev.Post? && !ev.Daemon?
    ensures Inv(Next(s, ev, capacity, io), capacity)
  {
    hide LedgerRuns.Inv;
    hide Durably;
    hide Outbox.Kept;
    match ev
    case Reserve(t) => Outbox.ReserveKeeps(s.box, capacity, t, io);
    case Cancel(t) => Outbox.CancelKeeps(s.box, capacity, t, io);
    case Promote(t) => Outbox.PromoteKeeps(s.box, capacity, t, io);
    case Deliver(a) =>
      Outbox.RemoveKeeps(s.box, capacity, a.turn, io);
      Outbox.ExpireKeeps(s.box, capacity, a.turn, io);
    case BridgeRestart(rows, settled) => RestartKeeps(s, rows, settled, capacity, io);
  }

  lemma RestartKeeps(s: System, rows: seq<Outbox.Row>, settled: bool, capacity: nat, io: Outbox.Disk)
    requires Inv(s, capacity) && Enabled(s, BridgeRestart(rows, settled))
    ensures Inv(Next(s, BridgeRestart(rows, settled), capacity, io), capacity)
  {
    var file := if settled then File(rows, {rows}) else s.box.file;
    Outbox.ReloadKeeps(file, s.box.writes, capacity, io);
    var r := Outbox.Reload(file, s.box.writes, io);
    assert forall rs :: rs in file.durable ==> rs in s.box.file.durable;
    forall t | Outbox.Kept(s.box, t) ensures Outbox.Kept(r.box, t) {
      assert forall rs :: rs in file.durable ==> Outbox.Holds(rs, t);
    }
  }

  lemma NextKeeps(s: System, ev: Event, capacity: nat, io: Outbox.Disk)
    requires Inv(s, capacity) && Enabled(s, ev)
    ensures Inv(Next(s, ev, capacity, io), capacity)
  {
    hide Durably, LedgerRuns.Inv, LedgerRuns.Next, Ledger.Record;
    match ev
    case Post(t, now, dio) =>
      var r := Ledger.Record(s.daemon.disk, s.daemon.proc.mem, ToRequest(t), now, dio);
      if r.response in {Ledger.Counted, Ledger.Duplicate} { AnswerIsDurable(s.daemon, t, now, dio); }
      LedgerRuns.NextKeeps(s.daemon, Serve(t, now, dio));
      DurablyStays(s.daemon, Serve(t, now, dio));
    case Daemon(e) =>
      LedgerRuns.NextKeeps(s.daemon, e);
      DurablyStays(s.daemon, e);
    case _ => BridgeKeeps(s, ev, capacity, io);
  }

  ghost predicate Run(ss: seq<System>, evs: seq<Event>, capacity: nat, ios: seq<Outbox.Disk>) {
    && |ss| == |evs| + 1 && |ios| == |evs| && Initial(ss[0])
    && forall i :: 0 <= i < |evs| ==> Enabled(ss[i], evs[i]) && ss[i + 1] == Next(ss[i], evs[i], capacity, ios[i])
  }

  lemma {:induction false} RunKeeps(ss: seq<System>, evs: seq<Event>, capacity: nat, ios: seq<Outbox.Disk>, i: nat)
    requires Run(ss, evs, capacity, ios) && i <= |evs|
    ensures Inv(ss[i], capacity)
  {
    if i == 0 {
      LedgerRuns.InitialInv(ss[0].daemon, false);
    } else {
      RunKeeps(ss, evs, capacity, ios, i - 1);
      NextKeeps(ss[i - 1], evs[i - 1], capacity, ios[i - 1]);
    }
  }

  /** The daemon's clock never goes back, and no relaunch of it finds a journal line that a
      power loss can still take away. */
  ghost predicate Careful(ss: seq<System>, evs: seq<Event>)
    requires |ss| > |evs|
  {
    forall i :: 0 <= i < |evs| ==>
      && (evs[i].Daemon? ==> LedgerRuns.Timely(ss[i].daemon, evs[i].event) && LedgerAccount.KeepsLines(ss[i].daemon, evs[i].event))
      && (evs[i].Post? ==> evs[i].now >= ss[i].daemon.clock)
  }

  lemma {:induction false} RunUnique(ss: seq<System>, evs: seq<Event>, capacity: nat, ios: seq<Outbox.Disk>, i: nat)
    requires Run(ss, evs, capacity, ios) && Careful(ss, evs) && i <= |evs|
    ensures LedgerAccount.Unique(ss[i].daemon)
  {
    hide LedgerAccount.Unique, LedgerAccount.KeepsLines, LedgerRuns.Next, LedgerRuns.Enabled, LedgerRuns.Initial;
    if i == 0 {
      LedgerAccount.InitialUnique(ss[0].daemon);
    } else {
      RunUnique(ss, evs, capacity, ios, i - 1);
      var s, ev := ss[i - 1], evs[i - 1];
      if ev.Post? {
        assert LedgerAccount.KeepsLines(s.daemon, Serve(ev.turn, ev.now, ev.io)) by { ServeKeepsLines(s.daemon, ev); }
        LedgerAccount.NextUnique(s.daemon, Serve(ev.turn, ev.now, ev.io));
      } else if ev.Daemon? {
        LedgerAccount.NextUnique(s.daemon, ev.event);
      }
    }
  }

  lemma ServeKeepsLines(w: LedgerRuns.World, ev: Event)
    requires ev.Post?
    ensures LedgerAccount.KeepsLines(w, Serve(ev.turn, ev.now, ev.io))
  {}

  /** End to end. After any run, relaunches of both processes over unsynced files and clocks
      set back included: a promoted turn is pending or kept as expired in everything a
      crash may leave of the outbox, or was retired; and a retired turn was journaled by
      the daemon and is in its lane's count in everything a crash may leave of the
      registry. Exactly once: when the daemon's clock never went back and no relaunch of
      it found a line that could still be lost, no turn is journaled twice. */
  lemma ExactlyOnceEndToEnd(ss: seq<System>, evs: seq<Event>, capacity: nat, ios: seq<Outbox.Disk>, t: Turn)
    requires Run(ss, evs, capacity, ios)
    ensures var s := ss[|evs|];
            && (t in s.promoted ==> t in s.retired || Outbox.Kept(s.box, t))
            && (t in s.retired ==> Durably(s.daemon, t))
            && (Careful(ss, evs) ==>
                  forall h, g | h in s.daemon.hist && g in s.daemon.hist && IsAbout(h, t) && IsAbout(g, t) :: h == g)
  {
    RunKeeps(ss, evs, capacity, ios, |evs|);
    hide Run;
    if Careful(ss, evs) {
      RunUnique(ss, evs, capacity, ios, |evs|);
      assert LedgerAccount.KeysDistinct(ss[|evs|].daemon.hist);
    }
  }
}
