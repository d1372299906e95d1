/**
 Two runs in full. A relaunch over a journal line that was never synced, a power loss
 that takes the line away, and the client's retry, counted a second time; and a count
 that was journaled but never saved, and is gone once its entry has expired.
 */
module LedgerLimits {
  import opened Durable
  import opened Ledger
  import opened LedgerRuns
  import opened LedgerAccount
  import opened LedgerRecount

  const LANE := "telepathos:direct"

  // The interaction is the entry with count 1 when first found, count 2 when counted again.
  const E: Entry := Entry("x", LANE, 0, 1)
  const F: Entry := Entry("x", LANE, 0, 2)
  const X: Request := Request(LANE, "x", 0)

  function Reg(n: nat): Registry {
    map[LANE := n]
  }

  function NoEntries(): Entries {
    map[]
  }

  function One(e: Entry): Entries {
    map["x" := e]
  }

  function At(journal: File<seq<Entry>>, count: nat, proc: Proc, hist: set<Entry>): World {
    World(Disk(File(NoEntries(), {NoEntries()}), journal, File(Reg(count), {Reg(count)})), proc, 0, hist)
  }

  lemma MaxOfNone(l: LaneId)
    ensures MaxCount(NoEntries(), l) == 0
  {}

  lemma MaxOfOne(e: Entry)
    ensures MaxCount(One(e), e.lane) == e.count
  {
    assert One(e)["x"] == e;
    assert IsMaxCount(One(e), e.lane, MaxCount(One(e), e.lane));
  }

  lemma RegSize(n: nat)
    ensures |Reg(n)| == 1
  {
  }

  /** A start that finds no interaction leaves the registry as it is. */
  lemma StartEmpty(w: World, d: Disk, count: nat)
    requires d == At(File([], {[]}), count, Down, {}).disk && count <= 2
    ensures Restart(w, d, 0, Written, Written) ==
            At(File([], {[]}), count, Up(Mem(Reg(count), NoEntries(), 0, false, false, false)), w.hist)
  {
    MaxOfNone(LANE);
    RegSize(count);
    assert Pruned(NoEntries(), 0) == NoEntries();
    assert Reconciled(Reg(count), NoEntries()) == Reg(count);
    assert Found(NoEntries(), []) == {};
    assert w.hist + {} == w.hist;
  }

  lemma FoldOne()
    ensures FoldJournal(NoEntries(), 0, [E]) == Some(One(E))
    ensures Pruned(One(E), 0) == One(E) && Found(NoEntries(), [E]) == {E}
  {}

  lemma ReconcileOne()
    ensures Reconciled(Reg(0), One(E)) == Reg(1)
  {
    MaxOfOne(E);
    assert Reconciled(Reg(0), One(E)).Keys == Reg(0).Keys == Reg(1).Keys;
  }

  lemma AcceptsOne()
    ensures Accepts(NoEntries(), [E], Reg(0), 0) && ValidRegistry(Reg(1)) && Reg(0) != Reg(1)
  {
    FoldOne();
    RegSize(0);
    RegSize(1);
    assert |One(E)| == 1;
    assert Reg(0)[LANE] == 0 && Reg(1)[LANE] == 1;
    hide FoldJournal;
    hide Pruned;
  }

  /** A start that finds the one line raises the lane's count and saves it. */
  lemma StartOne(w: World, d: Disk, durable: set<seq<Entry>>)
    requires d == At(File([E], durable), 0, Down, {}).disk && w.hist == {}
    ensures Restart(w, d, 0, Written, Written) ==
            At(File([E], durable), 1, Up(Mem(Reg(1), One(E), 1, false, false, false)), {E})
  {
    FoldOne();
    ReconcileOne();
    AcceptsOne();
    hide FoldJournal;
    hide Reconciled;
    hide Found;
    hide Pruned;
    hide Accepts;
    hide ValidRegistry;
    hide Reg;
    hide One;
    hide NoEntries;
    assert {} + {E} == {E};
  }

  lemma ServeX(count: nat, o: AppendOutcome, hist: set<Entry>)
    requires count <= 1 && o in {Appended, LineWritten}
    ensures var m := Mem(Reg(count), NoEntries(), 0, false, false, false);
            var e := Entry("x", LANE, 0, count + 1);
            var w := At(File([], {[]}), count, Up(m), hist);
            var ev := Serve(X, 0, ALL_WRITTEN.(append := o));
            && Enabled(w, ev)
            && Next(w, ev) == if o == LineWritten
                              then At(File([e], {[], [e]}), count, Up(m.(appendUncertain := true)), hist)
                              else At(File([e], {[e]}), count + 1, Up(Mem(Reg(count + 1), One(e), 1, false, false, false)), hist + {e})
  {
    if o == LineWritten { ServeLost(count, hist); } else { ServeDone(count, hist); }
    hide Next, Enabled;
  }

  lemma Arithmetic(count: nat)
    requires count <= 1
    ensures NewEntry(Reg(count), NoEntries(), X) == Entry("x", LANE, 0, count + 1)
    ensures Reg(count)[LANE := count + 1] == Reg(count + 1) && Pruned(NoEntries(), 0) == NoEntries()
    ensures var e := Entry("x", LANE, 0, count + 1);
            && NoEntries()["x" := e] == One(e) && Records(NoEntries()) == {} && Records(One(e)) == {e}
    ensures ValidRegistry(Reg(count)) && ValidRegistry(Reg(count + 1))
  {
    MaxOfNone(LANE);
    RegSize(count);
    RegSize(count + 1);
    var e := Entry("x", LANE, 0, count + 1);
    assert Records(One(e)) == {e} by { assert One(e)["x"] == e; }
  }

  lemma ServeLost(count: nat, hist: set<Entry>)
    requires count <= 1
    ensures var m := Mem(Reg(count), NoEntries(), 0, false, false, false);
            var e := Entry("x", LANE, 0, count + 1);
            var w := At(File([], {[]}), count, Up(m), hist);
            var ev := Serve(X, 0, ALL_WRITTEN.(append := LineWritten));
            Enabled(w, ev) && Next(w, ev) == At(File([e], {[], [e]}), count, Up(m.(appendUncertain := true)), hist)
  {
    var e := Entry("x", LANE, 0, count + 1);
    Arithmetic(count);
    assert [] + [e] == [e] && {[]} + {[e]} == {[], [e]} && hist + {} == hist;
    hide Records, NewEntry, Pruned, ValidRegistry;
  }

  lemma ServeDone(count: nat, hist: set<Entry>)
    requires count <= 1
    ensures var m := Mem(Reg(count), NoEntries(), 0, false, false, false);
            var e := Entry("x", LANE, 0, count + 1);
            var w := At(File([], {[]}), count, Up(m), hist);
            var ev := Serve(X, 0, ALL_WRITTEN.(append := Appended));
            && Enabled(w, ev)
            && Next(w, ev) == At(File([e], {[e]}), count + 1, Up(Mem(Reg(count + 1), One(e), 1, false, false, false)), hist + {e})
  {
    var e := Entry("x", LANE, 0, count + 1);
    Arithmetic(count);
    assert [] + [e] == [e] && Records(One(e)) - Records(NoEntries()) == {e};
    hide Records, NewEntry, Pruned, ValidRegistry;
  }

  lemma Chain(w0: World, w1: World, w2: World, w3: World, w4: World, w5: World,
              e0: Event, e1: Event, e2: Event, e3: Event, e4: Event)
    returns (ws: seq<World>, evs: seq<Event>)
    requires Initial(w0)
    requires Enabled(w0, e0) && Next(w0, e0) == w1
    requires Enabled(w1, e1) && Next(w1, e1) == w2
    requires Enabled(w2, e2) && Next(w2, e2) == w3
    requires Enabled(w3, e3) && Next(w3, e3) == w4
    requires Enabled(w4, e4) && Next(w4, e4) == w5
    ensures ws == [w0, w1, w2, w3, w4, w5] && evs == [e0, e1, e2, e3, e4] && Run(ws, evs)
  {
    hide Next;
    hide Enabled;
    hide Initial;
    ws, evs := [w0, w1, w2, w3, w4, w5], [e0, e1, e2, e3, e4];
  }

  function Fresh(count: nat): Mem {
    Mem(Reg(count), NoEntries(), 0, false, false, false)
  }

  function Holding(e: Entry): Mem {
    Mem(Reg(e.count), One(e), 1, false, false, false)
  }

  function Off(): World { At(File([], {[]}), 0, Down, {}) }
  function Idle(): World { At(File([], {[]}), 0, Up(Fresh(0)), {}) }
  function Unsynced(): World { At(File([E], {[], [E]}), 0, Up(Fresh(0).(appendUncertain := true)), {}) }
  function FoundLine(): World { At(File([E], {[], [E]}), 1, Up(Holding(E)), {E}) }
  function LineLost(): World { At(File([], {[]}), 1, Up(Fresh(1)), {E}) }
  function Recounted(): World { At(File([F], {[F]}), 2, Up(Holding(F)), {E} + {F}) }

  const START: Event := Relaunch(0, Written, Written)
  const HALF: Event := Serve(X, 0, ALL_WRITTEN.(append := LineWritten))
  const RETRY: Event := Serve(X, 0, ALL_WRITTEN)

  function Lose(): Event { PowerLoss(NoEntries(), [], Reg(1), 0, Written, Written) }

  lemma StepStart()
    ensures Initial(Off()) && Enabled(Off(), START) && Next(Off(), START) == Idle()
  {
    RegSize(0);
    assert Tails(File([], {[]})) == {[]};
    StartEmpty(Off(), Off().disk, 0);
    hide Tails, Startup, Found;
  }

  lemma StepHalf()
    ensures Enabled(Idle(), HALF) && Next(Idle(), HALF) == Unsynced()
  {
    hide Record;
    ServeX(0, LineWritten, {});
  }

  lemma StepRelaunch()
    ensures Enabled(Unsynced(), START) && Next(Unsynced(), START) == FoundLine()
  {
    assert Tails(File([E], {[], [E]})) == {[], [E]} by { assert [E][..0] == []; }
    StartOne(Unsynced(), Unsynced().disk, {[], [E]});
    hide Tails;
    hide Startup;
    hide Found;
  }

  lemma StepLose()
    ensures Enabled(FoundLine(), Lose()) && Next(FoundLine(), Lose()) == LineLost()
  {
    StartEmpty(FoundLine(), SettledAt(NoEntries(), [], Reg(1)), 1);
    hide Startup;
    hide Found;
  }

  lemma StepRetry()
    ensures Enabled(LineLost(), RETRY) && Next(LineLost(), RETRY) == Recounted()
  {
    hide Record;
    ServeX(1, Appended, {E});
  }

  lemma TheRun()
    ensures Run([Off(), Idle(), Unsynced(), FoundLine(), LineLost(), Recounted()], [START, HALF, START, Lose(), RETRY])
  {
    hide Next;
    hide Enabled;
    hide Initial;
    hide Run;
    hide Off;
    hide Idle;
    hide Unsynced;
    hide FoundLine;
    hide LineLost;
    hide Recounted;
    hide Lose;
    StepStart();
    StepHalf();
    StepRelaunch();
    StepLose();
    StepRetry();
    var ws, evs := Chain(Off(), Idle(), Unsynced(), FoundLine(), LineLost(), Recounted(), START, HALF, START, Lose(), RETRY);
  }

  lemma LineCanBeLost()
    ensures Lacks(Unsynced().disk, 0, [], E) && CountAtStart(Unsynced().disk, 0, LANE) == 1
    ensures !NothingLacks(Unsynced().disk, 0) && Loose(Unsynced().disk, 0) && LooseLine(Unsynced().disk, 0, E)
  {
    FoldOne();
    ReconcileOne();
    var d := Unsynced().disk;
    assert [] in Tails(d.journal) && E in d.journal.visible;
    assert LooseLine(d, 0, E) by { assert Lacks(d, 0, [], E); }
    hide FoldJournal, Reconciled, Pruned, Tails;
  }

  /** An append whose line reached the file but was not synced is found by a plain
      relaunch, counted, and saved; a power loss then drops the line, and the
      client's retry of the same interaction is counted a second time. */
  lemma UnsettledRelaunchCountsTwice()
    ensures Run([Off(), Idle(), Unsynced(), FoundLine(), LineLost(), Recounted()], [START, HALF, START, Lose(), RETRY])
    ensures Loose(Unsynced().disk, 0) && !KeepsLines(Unsynced(), START)
    ensures Recounted().hist == {E, F} && E != F && E.id == F.id && E.createdAt == F.createdAt
    ensures Recounted().disk.registry.visible == map[LANE := 2]
  {
    TheRun();
    LineCanBeLost();
    hide Run, Loose, NothingLacks;
  }

  // ----------------------------------------------------- a count that expires

  const UNSAVED: Event := Serve(X, 0, ALL_WRITTEN.(save := Untouched))

  function Unsaved(): World {
    At(File([E], {[E]}), 0, Up(Mem(Reg(0), One(E), 1, false, false, false)), {E})
  }

  lemma StepUnsaved()
    ensures Enabled(Idle(), UNSAVED) && Next(Idle(), UNSAVED) == Unsaved()
  {
    Arithmetic(0);
    assert [] + [E] == [E] && {} + {E} == {E};
    hide Records, NewEntry, Pruned, ValidRegistry;
  }

  lemma ExpiredCount(now: nat)
    requires now > DEDUPE_WINDOW_MS
    ensures FoldJournal(NoEntries(), 0, [E]).Some? && Recovered(NoEntries(), [E], Reg(0), now, LANE) == 0
    ensures Total(Reg(0), {E}, LANE) == 1
  {
    FoldOne();
    MaxOfNone(LANE);
    assert Pruned(One(E), now) == NoEntries();
    assert OfLane({E}, LANE) == {E};
    hide FoldJournal, Pruned, MaxCount;
  }

  /** Appended, but the registry save failed, and the client never asks again: a start more
      than seven days later prunes the entry before it could raise the count, although
      the run was prompt and careful. */
  lemma UnsavedCountExpires(now: nat)
    requires now > DEDUPE_WINDOW_MS
    ensures var ws, evs := [Off(), Idle(), Unsaved()], [START, UNSAVED];
            && Run(ws, evs) && Careful(ws, evs) && forall k :: 0 <= k < |evs| ==> Prompt(ws[k], evs[k])
    ensures Unsaved().hist == {E} && [E] in Unsaved().disk.journal.durable
    ensures FoldJournal(NoEntries(), 0, [E]).Some? && Recovered(NoEntries(), [E], Reg(0), now, LANE) == 0
    ensures Total(Reg(0), {E}, LANE) == 1
  {
    hide *;
    StepStart();
    StepUnsaved();
    NothingToLose();
    TwoSteps(Off(), Idle(), Unsaved(), START, UNSAVED);
    ExpiredCount(now);
    UnsavedFiles();
  }

  lemma UnsavedFiles()
    ensures Unsaved().hist == {E} && [E] in Unsaved().disk.journal.durable
  {}

  lemma TwoSteps(w0: World, w1: World, w2: World, e0: Event, e1: Event)
    requires Initial(w0) && Enabled(w0, e0) && Next(w0, e0) == w1 && Enabled(w1, e1) && Next(w1, e1) == w2
    requires Timely(w0, e0) && Timely(w1, e1) && KeepsLines(w0, e0) && KeepsLines(w1, e1) && Prompt(w0, e0) && Prompt(w1, e1)
    ensures var ws, evs := [w0, w1, w2], [e0, e1];
            Run(ws, evs) && Careful(ws, evs) && forall k :: 0 <= k < |evs| ==> Prompt(ws[k], evs[k])
  {
    hide Next, Enabled, Initial, KeepsLines, Prompt, Timely;
  }

  lemma NothingToLose()
    ensures KeepsLines(Off(), START) && KeepsLines(Idle(), UNSAVED) && Timely(Off(), START) && Timely(Idle(), UNSAVED)
    ensures Enabled(Off(), START) ==> Prompt(Off(), START)
    ensures Enabled(Idle(), UNSAVED) ==> Prompt(Idle(), UNSAVED)
  {}
}
