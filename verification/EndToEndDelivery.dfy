/**
 What delivery brings about end to end: once the removal of a turn is written, the bridge
 never posts that turn again, whatever happens, unless its key is reserved anew.
 */
module EndToEndDelivery {
  import opened Durable
  import LedgerRuns
  import LedgerAnswers
  import opened LedgerSaved
  import Ledger
  import Outbox
  import opened OutboxEffects
  import opened EndToEnd

  /** No step of the run reserves this turn's key. */
  predicate NotReservedAgain(evs: seq<Event>, i: nat, t: Turn) {
    forall k :: i <= k < |evs| && evs[k].Reserve? ==> !Outbox.SameKey(evs[k].turn, t)
  }

  lemma StepStaysGone(s: System, ev: Event, capacity: nat, io: Outbox.Disk, t: Turn)
    requires Enabled(s, ev) && s.box.file.visible in s.box.file.durable && NoRowFor(s.box, t) && (ev.Reserve? ==> !Outbox.SameKey(ev.turn, t))
    ensures NoRowFor(Next(s, ev, capacity, io).box, t)
  {
    hide AddsNoKey, LedgerRuns.Next, LedgerRuns.Enabled, Ledger.Record;
    match ev
    case Reserve(u) => OthersReserved(s.box, capacity, u, t, io);
    case Cancel(u) =>
      CancelAddsNoKey(s.box, u, io);
      StaysGone(s.box, Outbox.CancelReservation(s.box, u, io).box, t);
    case Promote(u) =>
      PromoteAddsNoKey(s.box, u, io);
      StaysGone(s.box, Outbox.Promote(s.box, u, io).box, t);
    case Deliver(a) =>
      RemoveAddsNoKey(s.box, a.turn, io);
      ExpireAddsNoKey(s.box, a.turn, io);
      StaysGone(s.box, Outbox.RemoveDelivered(s.box, a.turn, io).box, t);
      StaysGone(s.box, Outbox.MarkExpired(s.box, a.turn, io).box, t);
    case BridgeRestart(rows, settled) =>
      ReloadedGone(if settled then File(rows, {rows}) else s.box.file, s.box.writes, t, io);
    case _ =>
  }

  lemma BoxVisible(s: System, capacity: nat)
    requires Inv(s, capacity)
    ensures s.box.file.visible in s.box.file.durable
  {}

  lemma NoRowNoPost(s: System, t: Turn, now: nat, io: Ledger.Io)
    requires NoRowFor(s.box, t)
    ensures !Enabled(s, Post(t, now, io))
  {
    assert forall row :: row in s.box.records && row == Outbox.Row(t, Outbox.Pending) ==> Outbox.SameKey(row.turn, t);
  }

  lemma {:induction false} GoneUntil(ss: seq<System>, evs: seq<Event>, capacity: nat, ios: seq<Outbox.Disk>, t: Turn,
                                     i: nat, k: nat)
    requires Run(ss, evs, capacity, ios) && i <= k <= |evs| && NoRowFor(ss[i].box, t) && NotReservedAgain(evs, i, t)
    ensures NoRowFor(ss[k].box, t)
    decreases k
  {
    hide NoRowFor, Inv, Next, Enabled, Initial;
    if i < k {
      GoneUntil(ss, evs, capacity, ios, t, i, k - 1);
      RunKeeps(ss, evs, capacity, ios, k - 1);
      BoxVisible(ss[k - 1], capacity);
      StepStaysGone(ss[k - 1], evs[k - 1], capacity, ios[k - 1], t);
    }
  }

  /** In every run: an answer that reaches the bridge while the turn is pending and the outbox
      is not latched, and whose removal is written, takes the turn out of memory and of
      everything a crash may leave; it is never posted again unless it is reserved again. */
  lemma DeliveredIsNeverPosted(ss: seq<System>, evs: seq<Event>, capacity: nat, ios: seq<Outbox.Disk>, t: Turn,
                               i: nat, now: nat, io: Ledger.Io)
    requires Run(ss, evs, capacity, ios) && i < |evs| && evs[i] == Deliver(Recorded(t))
    requires !ss[i].box.latched && Outbox.Row(t, Outbox.Pending) in ss[i].box.records && ios[i](ss[i].box.writes) == Written
    requires NotReservedAgain(evs, i + 1, t)
    ensures NoRowFor(ss[|evs|].box, t) && !Enabled(ss[|evs|], Post(t, now, io))
    ensures forall row :: row in ss[i + 1].box.records <==> row in ss[i].box.records && row.turn != t
  {
    RunKeeps(ss, evs, capacity, ios, i);
    WrittenRemoval(ss[i].box, capacity, t, ios[i]);
    assert ss[i + 1] == Next(ss[i], evs[i], capacity, ios[i]);
    assert ss[i + 1].box == Outbox.RemoveDelivered(ss[i].box, t, ios[i]).box;
    GoneUntil(ss, evs, capacity, ios, t, i + 1, |evs|);
    NoRowNoPost(ss[|evs|], t, now, io);
    hide Run, Next, Inv, Outbox.RemoveDelivered;
  }

  // ----------------------------------------------------------- what a post gets

  /** A pending turn posted again after the daemon recorded it, within the seven days: in
      every careful run the up and unlatched daemon answers so, and once that answer is
      delivered and its removal written the turn leaves the outbox. */
  lemma RepostIsAnswered(ss: seq<System>, evs: seq<Event>, capacity: nat, ios: seq<Outbox.Disk>, t: Turn, now: nat,
                         dio: Ledger.Io, io: Outbox.Disk)
    requires Run(ss, evs, capacity, ios) && Careful(ss, evs)
    requires var s := ss[|evs|];
             && Enabled(s, Post(t, now, dio)) && t in s.retired + Answered(s) && now >= s.daemon.clock
             && !s.daemon.proc.mem.appendUncertain && !s.daemon.proc.mem.laneUncertain
    requires LedgerAnswers.Recent(t.createdAt, now) && t.createdAt <= now + 300_000
    ensures Recorded(t) in Next(ss[|evs|], Post(t, now, dio), capacity, io).answers
  {
    var s := ss[|evs|];
    RunKeeps(ss, evs, capacity, ios, |evs|);
    RunUnique(ss, evs, capacity, ios, |evs|);
    assert Durably(s.daemon, t);
    var h :| h in s.daemon.hist && h.lane == t.lane && IsAbout(h, t) && SavedAtLeast(s.daemon.disk, t.lane, h.count);
    LedgerAnswers.KnownIsDuplicate(s.daemon, h, Serve(t, now, dio));
    hide Run, Careful, Inv, Ledger.Record, LedgerRuns.Next;
  }

  /** A pending turn that is more than seven days old: the daemon, up and not latched, answers
      that it will not count it any more. */
  lemma OldTurnExpires(ss: seq<System>, evs: seq<Event>, capacity: nat, ios: seq<Outbox.Disk>, t: Turn, now: nat,
                       dio: Ledger.Io, io: Outbox.Disk)
    requires Run(ss, evs, capacity, ios)
    requires var s := ss[|evs|];
             && Enabled(s, Post(t, now, dio)) && t.lane in s.daemon.proc.mem.reg
             && !s.daemon.proc.mem.appendUncertain && !s.daemon.proc.mem.laneUncertain
    requires t.createdAt + 604_800_000 < now
    ensures RetryExpired(t) in Next(ss[|evs|], Post(t, now, dio), capacity, io).answers
    ensures Next(ss[|evs|], Post(t, now, dio), capacity, io).daemon.disk == ss[|evs|].daemon.disk
  {
    var s := ss[|evs|];
    RunKeeps(ss, evs, capacity, ios, |evs|);
    RegistryOf(s.daemon);
    LedgerAnswers.Refusals(s.daemon.disk, s.daemon.proc.mem, ToRequest(t), now, dio);
    hide Run, Inv, Ledger.Record, Ledger.ValidRegistry;
  }

  lemma RegistryOf(w: LedgerRuns.World)
    requires LedgerRuns.Inv(w) && w.proc.Up?
    ensures Ledger.ValidRegistry(w.proc.mem.reg)
  {
    var u, v, p :| LedgerRuns.Good(w, u, v, p, false);
  }

  /** That answer, delivered and written, keeps the turn as an expired row, and the outbox
      takes no new turn until an operator has dealt with it. */
  lemma ExpiredIsKept(s: System, capacity: nat, t: Turn, u: Turn, io: Outbox.Disk, later: Outbox.Disk)
    requires Inv(s, capacity) && s.bridgeUp && RetryExpired(t) in s.answers
    requires !s.box.latched && Outbox.Row(t, Outbox.Pending) in s.box.records && io(s.box.writes) == Written
    ensures Enabled(s, Deliver(RetryExpired(t)))
    ensures var s' := Next(s, Deliver(RetryExpired(t)), capacity, io);
            && Outbox.Row(t, Outbox.Expired) in s'.box.records && Settled(s'.box.file) && |s'.box.records| == |s.box.records|
            && (s'.box.cleanups == [] && !HasKey(s'.box.records, u) ==>
                  Outbox.Reserve(s'.box, capacity, u, later).verdict == Outbox.Blocked)
  {
    WrittenExpiry(s.box, capacity, t, io);
    var r := Outbox.MarkExpired(s.box, t, io);
    assert Next(s, Deliver(RetryExpired(t)), capacity, io).box == r.box;
    ReserveBrings(r.box, capacity, u, later);
    hide *;
    if r.box.cleanups == [] { NothingSwept(r.box, later); }
  }

  lemma NothingSwept(b: Outbox.Box, io: Outbox.Disk)
    requires b.cleanups == []
    ensures Outbox.Sweep(b, io) == Outbox.Reply(b, Outbox.Done)
  {}

  function Answered(s: System): set<Turn> {
    set a | a in s.answers && a.Recorded? :: a.turn
  }
}
