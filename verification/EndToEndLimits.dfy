/**
 When a turn that is still pending in the outbox can be counted twice: the daemon's exact
 condition, at the level of the whole system, and a run that reaches it.
 */
module EndToEndLimits {
  import opened Durable
  import Ledger
  import LedgerRuns
  import opened LedgerRecount
  import LedgerLimits
  import Outbox
  import opened EndToEnd

  predicate Pending(s: System, t: Turn) {
    s.bridgeUp && Outbox.Row(t, Outbox.Pending) in s.box.records
  }

  function Relaunch(now: nat, x: Sequel): Event {
    Daemon(LedgerRuns.Relaunch(now, Written, x.save))
  }

  /** The daemon is relaunched and has counted the turn, loses power and starts again, and
      is posted the same pending turn, with its clock not set back after that start. */
  ghost function Repeated(s: System, t: Turn, now: nat, x: Sequel, capacity: nat, io: Outbox.Disk): seq<System>
    requires Pending(s, t)
  {
    var s1 := Next(s, Relaunch(now, x), capacity, io);
    if !Enabled(s1, Daemon(Loss(x))) then [s, s1]
    else
      var s2 := Next(s1, Daemon(Loss(x)), capacity, io);
      if !Enabled(s2, Post(t, x.at, x.io)) then [s, s1, s2]
      else [s, s1, s2, Next(s2, Post(t, x.at, x.io), capacity, io)]
  }

  /** The turn is counted by the relaunched daemon and again, under a larger count, at the
      end, where it is answered as recorded. */
  ghost predicate CountedTwice(s: System, t: Turn, now: nat, x: Sequel, capacity: nat, io: Outbox.Disk)
    requires Pending(s, t)
  {
    var ss := Repeated(s, t, now, x, capacity, io);
    && |ss| == 4 && x.later <= x.at && ss[1].daemon.proc.Up? && ss[3].daemon.proc.Up?
    && var first, last := ss[1].daemon.proc.mem, ss[3].daemon.proc.mem;
       && t.id in first.entries && first.entries[t.id] == x.e && Again(x) == ToRequest(t)
       && t.lane in first.reg && t.id in last.entries && first.reg[t.lane] < last.entries[t.id].count
       && Ledger.Record(ss[2].daemon.disk, ss[2].daemon.proc.mem, ToRequest(t), x.at, x.io).response == Ledger.Counted
       && Recorded(t) in ss[3].answers
  }

  lemma ServedBy(w: LedgerRuns.World, req: Ledger.Request, now: nat, io: Ledger.Io)
    requires LedgerRuns.Enabled(w, LedgerRuns.Serve(req, now, io))
    ensures LedgerRuns.Next(w, LedgerRuns.Serve(req, now, io)).proc == Ledger.Up(Ledger.Record(w.disk, w.proc.mem, req, now, io).mem)
  {
    hide Ledger.Record;
  }

  /** Neither event of the daemon touches the outbox, so the turn is still pending. */
  lemma StillPending(s: System, t: Turn, now: nat, x: Sequel, capacity: nat, io: Outbox.Disk)
    requires Pending(s, t) && Again(x) == ToRequest(t)
    requires var w1 := Relaunched(s.daemon, now, x);
             LedgerRuns.Enabled(w1, Loss(x)) && LedgerRuns.Enabled(LedgerRuns.Next(w1, Loss(x)), Serve(t, x.at, x.io))
    ensures var ss, w1 := Repeated(s, t, now, x, capacity, io), Relaunched(s.daemon, now, x);
            var w2 := LedgerRuns.Next(w1, Loss(x));
            && |ss| == 4 && ss[1].daemon == w1 && ss[2].daemon == w2
            && ss[3].daemon == LedgerRuns.Next(w2, Serve(t, x.at, x.io))
            && (w2.proc.Up? && Ledger.Record(w2.disk, w2.proc.mem, ToRequest(t), x.at, x.io).response == Ledger.Counted ==>
                  Recorded(t) in ss[3].answers)
  {
    hide LedgerRuns.Next, Ledger.Record, LedgerRuns.Enabled;
  }

  lemma SystemRepeats(s: System, t: Turn, now: nat, x: Sequel, capacity: nat, io: Outbox.Disk)
    requires Pending(s, t) && SecondCount(s.daemon, now, x) && Again(x) == ToRequest(t)
    ensures CountedTwice(s, t, now, x, capacity, io)
  {
    var w1 := Relaunched(s.daemon, now, x);
    Resent(s.daemon, now, x);
    hide LedgerRuns.Next, Ledger.Record, LedgerRuns.Inv, Repeated, Relaunched, LedgerRuns.Enabled;
    ServedBy(LedgerRuns.Next(w1, Loss(x)), Again(x), x.at, x.io);
    StillPending(s, t, now, x, capacity, io);
  }

  lemma RepeatsInDaemon(s: System, t: Turn, now: nat, x: Sequel, capacity: nat, io: Outbox.Disk)
    requires Pending(s, t) && CountedTwice(s, t, now, x, capacity, io)
    ensures SecondCount(s.daemon, now, x) && Again(x) == ToRequest(t)
  {
    var w1 := Relaunched(s.daemon, now, x);
    assert LedgerRuns.Enabled(w1, Loss(x));
    ServedBy(LedgerRuns.Next(w1, Loss(x)), Again(x), x.at, x.io);
    hide LedgerRuns.Next, Ledger.Record, LedgerRuns.Inv;
  }

  /** From every reachable state with the turn still pending: a relaunch of the daemon can
      be followed by a power loss and a second count of it exactly when some value of the
      daemon's journal lacks a live visible line about it that the snapshot does not hold,
      in a lane whose count is below its limit. */
  lemma TurnCountedTwiceExactly(ss: seq<System>, evs: seq<Event>, capacity: nat, ios: seq<Outbox.Disk>, t: Turn,
                                now: nat, io: Outbox.Disk)
    requires Run(ss, evs, capacity, ios) && Pending(ss[|evs|], t)
    ensures var s := ss[|evs|];
            (exists x :: CountedTwice(s, t, now, x, capacity, io)) <==>
            (exists e :: LooseLine(s.daemon.disk, now, e) && e.lane == t.lane && IsAbout(e, t))
  {
    var s := ss[|evs|];
    RunKeeps(ss, evs, capacity, ios, |evs|);
    hide Run, SecondCount, CountedTwice, LooseLine, LedgerRuns.Inv, Pending;
    if x :| CountedTwice(s, t, now, x, capacity, io) {
      RepeatsInDaemon(s, t, now, x, capacity, io);
      LineCountedTwiceExactly(s.daemon, now, x.e);
      assert LooseLine(s.daemon.disk, now, x.e);
    }
    if e :| LooseLine(s.daemon.disk, now, e) && e.lane == t.lane && IsAbout(e, t) {
      LineCountedTwiceExactly(s.daemon, now, e);
      var x :| SecondCount(s.daemon, now, x) && x.e == e;
      SystemRepeats(s, t, now, x, capacity, io);
    }
  }

  // ------------------------------------------------------------------ one run

  const T: Turn := Outbox.Turn(LedgerLimits.LANE, "x", 0)
  const ALL: Outbox.Disk := (n: nat) => Written

  function BoxOf(records: seq<Outbox.Row>, writes: nat): Outbox.Box {
    Outbox.Box(records, [], false, File(records, {records}), writes)
  }

  function At(records: seq<Outbox.Row>, writes: nat, daemon: LedgerRuns.World, promoted: set<Turn>): System {
    System(BoxOf(records, writes), true, daemon, {}, promoted, {})
  }

  function S0(): System { At([], 0, LedgerLimits.Off(), {}) }
  function S1(): System { At([Outbox.Row(T, Outbox.Reserved)], 1, LedgerLimits.Off(), {}) }
  function S2(): System { At([Outbox.Row(T, Outbox.Pending)], 2, LedgerLimits.Off(), {T}) }
  function S3(): System { At([Outbox.Row(T, Outbox.Pending)], 2, LedgerLimits.Idle(), {T}) }
  function S4(): System { At([Outbox.Row(T, Outbox.Pending)], 2, LedgerLimits.Unsynced(), {T}) }

  const HALF: Event := Post(T, 0, ALL_WRITTEN.(append := Ledger.LineWritten))

  lemma BoxSteps(capacity: nat)
    requires capacity > 0
    ensures Next(S0(), Reserve(T), capacity, ALL) == S1() && Next(S1(), Promote(T), capacity, ALL) == S2()
  {
    assert [] + [Outbox.Row(T, Outbox.Reserved)] == [Outbox.Row(T, Outbox.Reserved)];
    assert [Outbox.Row(T, Outbox.Reserved)][0 := Outbox.Row(T, Outbox.Pending)] == [Outbox.Row(T, Outbox.Pending)];
    assert {} + {T} == {T};
  }

  lemma DaemonSteps(capacity: nat)
    ensures Enabled(S2(), Daemon(LedgerLimits.START)) && Next(S2(), Daemon(LedgerLimits.START), capacity, ALL) == S3()
    ensures Enabled(S3(), HALF) && Next(S3(), HALF, capacity, ALL) == S4()
  {
    LedgerLimits.StepStart();
    LedgerLimits.StepHalf();
    HalfUnavailable();
    hide LedgerRuns.Next, LedgerRuns.Initial, Ledger.Record;
  }

  lemma HalfUnavailable()
    ensures var w := LedgerLimits.Idle();
            Ledger.Record(w.disk, w.proc.mem, ToRequest(T), 0, ALL_WRITTEN.(append := Ledger.LineWritten)).response == Ledger.Unavailable
  {
    LedgerLimits.Arithmetic(0);
    hide Ledger.NewEntry, Ledger.Pruned, Ledger.ValidRegistry;
  }

  /** The append's sync fails, so the daemon answers nothing and the turn stays pending: in
      this reachable state the condition holds. */
  lemma PendingTurnCanRepeat(capacity: nat)
    requires capacity > 0
    ensures var ss, evs := [S0(), S1(), S2(), S3(), S4()], [Reserve(T), Promote(T), Daemon(LedgerLimits.START), HALF];
            Run(ss, evs, capacity, [ALL, ALL, ALL, ALL]) && Pending(S4(), T)
    ensures exists x :: CountedTwice(S4(), T, 0, x, capacity, ALL)
  {
    hide *;
    BoxSteps(capacity);
    DaemonSteps(capacity);
    Shapes();
    FourSteps(capacity, S0(), S1(), S2(), S3(), S4(), Reserve(T), Promote(T), Daemon(LedgerLimits.START), HALF);
    LedgerLimits.LineCanBeLost();
    TurnCountedTwiceExactly([S0(), S1(), S2(), S3(), S4()], [Reserve(T), Promote(T), Daemon(LedgerLimits.START), HALF],
                            capacity, [ALL, ALL, ALL, ALL], T, 0, ALL);
  }

  lemma Shapes()
    ensures Initial(S0()) && Enabled(S0(), Reserve(T)) && Enabled(S1(), Promote(T)) && Pending(S4(), T)
    ensures S4().daemon == LedgerLimits.Unsynced() && LedgerLimits.E.lane == T.lane && IsAbout(LedgerLimits.E, T)
  {
    LedgerLimits.StepStart();
    hide LedgerRuns.Next, LedgerRuns.Initial;
  }

  lemma FourSteps(capacity: nat, s0: System, s1: System, s2: System, s3: System, s4: System,
                  e0: Event, e1: Event, e2: Event, e3: Event)
    requires Initial(s0) && Enabled(s0, e0) && Next(s0, e0, capacity, ALL) == s1
    requires Enabled(s1, e1) && Next(s1, e1, capacity, ALL) == s2
    requires Enabled(s2, e2) && Next(s2, e2, capacity, ALL) == s3
    requires Enabled(s3, e3) && Next(s3, e3, capacity, ALL) == s4
    ensures Run([s0, s1, s2, s3, s4], [e0, e1, e2, e3], capacity, [ALL, ALL, ALL, ALL])
  {
    hide Next, Enabled, Initial;
  }
}
