/**
 Why counting once needs a clock that does not go back: an interaction that expired for a
 later clock value, and left the ledger, is fresh again for an earlier one.
 */
module LedgerClock {
  import opened Durable
  import opened Ledger
  import opened LedgerRuns
  import opened LedgerAccount
  import opened LedgerRecount
  import opened LedgerLimits

  function ResendOf(h: Entry): Request {
    Request(h.lane, h.id, h.createdAt)
  }

  /** The daemon is not latched, and has room for one more entry and one more count. */
  ghost predicate CanCount(m: Mem, h: Entry, now: nat) {
    && !m.appendUncertain && !m.laneUncertain && h.lane in m.reg
    && |Pruned(m.entries, now)| < MAX_ENTRIES
    && NewEntry(m.reg, Pruned(m.entries, now), ResendOf(h)).count <= MAX_SAFE
  }

  ghost predicate CountedAgainAt(w: World, h: Entry, now: nat)
    requires w.proc.Up?
  {
    exists io :: Record(w.disk, w.proc.mem, ResendOf(h), now, io).response == Response.Counted
  }

  lemma CountedHadRoom(d: Disk, m: Mem, h: Entry, now: nat, io: Io)
    requires Record(d, m, ResendOf(h), now, io).response == Response.Counted
    ensures CanCount(m, h, now) && Horizon(now) <= h.createdAt <= now + FUTURE_SKEW_MS
    ensures h.id !in Pruned(m.entries, now)
  {
    var req := ResendOf(h);
    OnlyFreshCounted(d, m, req, now, io);
    AdmitEffect(d, m, now, io);
    hide AdmitFresh, ValidRegistry, MaxCount, MakeRoom, AppendNew, Resend;
    var a := AdmitFresh(d, m, now, io);
    assert CountNew(a.disk, a.mem, req, io).response == Response.Counted;
  }

  /** After every careful run, for every clock value and every journaled interaction: sent
      again, it can be counted exactly when it is inside the window of that clock value
      and no longer among the records, and there is room; which takes a clock set back to
      a time at which the interaction had not expired, after it did. */
  lemma SetBackCountsTwiceExactly(ws: seq<World>, evs: seq<Event>, h: Entry, now: nat)
    requires Run(ws, evs) && Careful(ws, evs)
    requires h in ws[|evs|].hist && ws[|evs|].proc.Up?
    ensures var w := ws[|evs|];
            var m := w.proc.mem;
            && (CountedAgainAt(w, h, now) <==>
                  CanCount(m, h, now) && Horizon(now) <= h.createdAt <= now + FUTURE_SKEW_MS && h.id !in Pruned(m.entries, now))
            && (CountedAgainAt(w, h, now) ==> now < w.clock && Horizon(now) <= h.createdAt < Horizon(w.clock))
  {
    var w := ws[|evs|];
    var m := w.proc.mem;
    RunUnique(ws, evs, |evs|);
    var u, p :| Exact(w, u, p) && KeysDistinct(w.hist) && (p.Some? ==> KeyNew(w.hist, p.value));
    assert ValidRegistry(m.reg) && SubMap(m.entries, u);
    assert Live(h, w.clock) ==> h.id in u && u[h.id] == h && h.id in m.entries && m.entries[h.id] == h;
    hide Record, Run, Careful, Exact, CanCount, ValidRegistry, NewEntry;
    if CanCount(m, h, now) && Horizon(now) <= h.createdAt <= now + FUTURE_SKEW_MS && h.id !in Pruned(m.entries, now) {
      CanCountIs(m, h, now);
      FreshIsCounted(w.disk, m, ResendOf(h), now);
      assert CountedAgainAt(w, h, now);
    }
    if io :| Record(w.disk, m, ResendOf(h), now, io).response == Response.Counted {
      CountedHadRoom(w.disk, m, h, now, io);
      assert !Live(h, w.clock);
    }
  }

  lemma CanCountIs(m: Mem, h: Entry, now: nat)
    requires CanCount(m, h, now)
    ensures !m.appendUncertain && !m.laneUncertain && h.lane in m.reg && |Pruned(m.entries, now)| < MAX_ENTRIES
    ensures NewEntry(m.reg, Pruned(m.entries, now), ResendOf(h)).count <= MAX_SAFE
  {}

  // ------------------------------------------------------------------ one run

  function Once(): World { At(File([E], {[E]}), 1, Up(Holding(E)), {E}) }

  /** Relaunched once the interaction has expired: its line is still in the journal. */
  function Expired(late: nat): World {
    At(File([E], {[E]}), 1, Up(Mem(Reg(1), NoEntries(), 1, true, false, false)), {E}).(clock := late)
  }

  function RelaunchAt(late: nat): Event {
    Relaunch(late, Written, Written)
  }

  lemma StepOnce()
    ensures Enabled(Idle(), RETRY) && Next(Idle(), RETRY) == Once()
  {
    hide Record;
    ServeX(0, Appended, {});
    assert {} + {E} == {E};
  }

  lemma AcceptsExpired(late: nat)
    requires late > DEDUPE_WINDOW_MS
    ensures Accepts(NoEntries(), [E], Reg(1), late)
  {
    FoldOne();
    RegSize(1);
    assert Pruned(One(E), late) == NoEntries();
    hide FoldJournal, Pruned;
  }

  lemma StartExpired(w: World, d: Disk, late: nat)
    requires d == Once().disk && w.hist == {E} && late > DEDUPE_WINDOW_MS
    ensures Restart(w, d, late, Written, Written) == Expired(late)
  {
    FoldOne();
    MaxOfNone(LANE);
    RegSize(1);
    assert Pruned(One(E), late) == NoEntries() && One(E) != NoEntries();
    assert Reconciled(Reg(1), NoEntries()) == Reg(1);
    AcceptsExpired(late);
    hide FoldJournal, Pruned, Reconciled, MaxCount, Accepts, ValidRegistry;
  }

  lemma StepExpired(late: nat)
    requires late > DEDUPE_WINDOW_MS
    ensures Enabled(Once(), RelaunchAt(late)) && Next(Once(), RelaunchAt(late)) == Expired(late)
  {
    assert Synced(Once().disk) == Once().disk by { assert Tails(File([E], {[E]})) == {[E]}; }
    StartExpired(Once(), Once().disk, late);
    hide Restart, Synced;
  }

  lemma StepSetBack(late: nat)
    ensures Enabled(Expired(late), RETRY) && Next(Expired(late), RETRY) == Recounted()
  {
    Arithmetic(1);
    assert [] + [F] == [F] && Records(One(F)) == {F};
    hide Records, NewEntry, Pruned, ValidRegistry;
  }

  lemma NothingWasLost(late: nat)
    ensures KeepsLines(Off(), START) && KeepsLines(Idle(), RETRY) && KeepsLines(Once(), RelaunchAt(late)) && KeepsLines(Expired(late), RETRY)
    ensures Timely(Off(), START) && Timely(Idle(), RETRY) && Timely(Once(), RelaunchAt(late))
    ensures late > 0 ==> !Timely(Expired(late), RETRY)
  {}

  lemma FourSteps(w0: World, w1: World, w2: World, w3: World, w4: World, e0: Event, e1: Event, e2: Event, e3: Event)
    requires Initial(w0) && Enabled(w0, e0) && Next(w0, e0) == w1
    requires Enabled(w1, e1) && Next(w1, e1) == w2
    requires Enabled(w2, e2) && Next(w2, e2) == w3
    requires Enabled(w3, e3) && Next(w3, e3) == w4
    ensures Run([w0, w1, w2, w3, w4], [e0, e1, e2, e3])
  {
    hide Next, Enabled, Initial;
  }

  /** Every write succeeds and nothing is ever lost; only the clock goes back, once, from
      any time after the seven days to where it was. The interaction is counted twice. */
  lemma ClockSetBackCountsTwice(late: nat)
    requires late > DEDUPE_WINDOW_MS
    ensures var ws, evs := [Off(), Idle(), Once(), Expired(late), Recounted()], [START, RETRY, RelaunchAt(late), RETRY];
            && Run(ws, evs)
            && (forall k :: 0 <= k < |evs| ==> KeepsLines(ws[k], evs[k]) && (Timely(ws[k], evs[k]) <==> k < 3))
    ensures Recounted().hist == {E, F} && E != F && E.id == F.id && E.createdAt == F.createdAt
    ensures Recounted().disk.registry.visible == map[LANE := 2]
  {
    hide *;
    StepStart();
    StepOnce();
    StepExpired(late);
    StepSetBack(late);
    NothingWasLost(late);
    FourSteps(Off(), Idle(), Once(), Expired(late), Recounted(), START, RETRY, RelaunchAt(late), RETRY);
    RecountedHolds();
  }

  lemma RecountedHolds()
    ensures Recounted().hist == {E, F} && E != F && E.id == F.id && E.createdAt == F.createdAt
    ensures Recounted().disk.registry.visible == map[LANE := 2]
  {}
}
