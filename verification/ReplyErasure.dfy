/**
 When a handset can be told to erase its receipt too early: exactly when the bridge is
 relaunched over a file that shows no record of the receipt while a power loss could
 still bring the binding back.
 */
module ReplyErasure {
  import opened Durable
  import opened ReplyProtocol
  import opened ReplySafety

  /** Answering the frame `Retire(i)` in this world sends the confirmation. */
  predicate Confirms(w: World, i: Installation, o: Outcome) {
    Retired(i) in RetireStep(w.(frames := {}), i, o).frames
  }

  predicate NoRelaunch(run: seq<Event>) {
    forall k :: 0 <= k < |run| ==> !run[k].BridgeRelaunch?
  }

  /** Relaunched now, and not again during `run`, the bridge then confirms the removal
      to `i` while memory or some value of the file still holds a live binding. */
  predicate ErasesEarly(w: World, run: seq<Event>, i: Installation, o: Outcome) {
    var w1 := Next(w, BridgeRelaunch);
    && NoRelaunch(run) && Feasible(w1, run)
    && var x := After(w1, run);
       Enabled(x, OnRetire(i, o)) && Confirms(x, i, o) && !Gone(Next(x, OnRetire(i, o)).bridge)
  }

  /** A bridge without a record has none on disk either. */
  predicate Sealed(w: World) {
    w.asked && (w.bridge.mem == Absent ==> Gone(w.bridge))
  }

  lemma BridgeSeals(w: World, ev: Event)
    requires Sealed(w) && Enabled(w, ev) && !OfHandset(ev)
    requires !ev.BridgeRelaunch? && !ev.Hello? && !ev.OnReplyReceived? && !ev.FinishAck?
    ensures Sealed(BridgeStep(w, ev))
  {}

  lemma FinishSeals(w: World, task: Task, same: bool, o: Outcome, forget: bool)
    requires Sealed(w)
    ensures Sealed(FinishStep(w, task, same, o, forget))
  {}

  /** A socket that remembers a prepared binding belongs to a bridge that holds it. */
  lemma ReceivedSeals(w: World, i: Installation, o: Outcome)
    requires Sealed(w) && BridgeShape(w) && i in w.bridge.sockets
    ensures Sealed(ReceivedStep(w, i, o))
  {}

  lemma HelloSeals(w: World, i: Installation, abandoned: bool, expired: bool, o: Outcome)
    requires Sealed(w)
    ensures Sealed(ReplayStep(TransferStep(w, i, abandoned, expired, o), i))
  {}

  lemma NextSeals(w: World, ev: Event)
    requires Sealed(w) && Inv(w) && Enabled(w, ev) && !ev.BridgeRelaunch?
    ensures Sealed(Next(w, ev))
  {
    hide Agreed;
    if OfHandset(ev) {
      StepShape(w, ev);
    } else if ev.Hello? {
      HelloSeals(w, ev.i, ev.abandoned, ev.expired, ev.o);
    } else if ev.OnReplyReceived? {
      ReceivedSeals(w, ev.i, ev.o);
    } else if ev.FinishAck? {
      FinishSeals(w, ev.task, ev.same, ev.o, ev.forget);
    } else {
      BridgeSeals(w, ev);
    }
    hide HandsetStep, PrepareStep, TransferStep, ReplayStep, ReceivedStep, AckStep, ConsumeStep, FinishStep,
         RetireStep, SweepStep, SaveOtherStep, RelaunchStep;
  }

  lemma {:induction false} RunSeals(w: World, run: seq<Event>)
    requires Sealed(w) && Inv(w) && Feasible(w, run) && NoRelaunch(run)
    ensures Sealed(After(w, run))
    decreases |run|
  {
    hide Sealed, Inv, Next, Enabled;
    if run != [] {
      NextKeeps(w, run[0]);
      NextSeals(w, run[0]);
      RunSeals(Next(w, run[0]), run[1..]);
    }
  }

  /** From a sealed world the confirmation comes after the removal is durable. */
  lemma SealedConfirms(w: World, i: Installation, o: Outcome)
    requires Sealed(w) && Enabled(w, OnRetire(i, o)) && Confirms(w, i, o)
    ensures Gone(Next(w, OnRetire(i, o)).bridge)
  {
    hide HandsetStep, PrepareStep, TransferStep, ReplayStep, ReceivedStep, AckStep, ConsumeStep, FinishStep,
         SweepStep, SaveOtherStep, RelaunchStep;
  }

  lemma RelaunchSeals(w: World)
    requires Inv(w) && w.asked && !LooksGone(w.bridge.file)
    ensures Sealed(Next(w, BridgeRelaunch))
  {}

  /** The relaunched bridge has no record, so a hello changes nothing but the socket. */
  lemma HelloAfterRelaunch(w: World, i: Installation)
    requires w.bridge.file.visible == Absent
    ensures var w1, hello := Next(w, BridgeRelaunch), Hello(i, false, false, Written);
            var x := Next(w1, hello);
            && Enabled(w1, hello) && x.bridge.mem == Absent && x.bridge.file == w.bridge.file
            && i in x.bridge.sockets && w.frames <= x.frames
  {}

  lemma AbsentConfirms(x: World, i: Installation, o: Outcome)
    requires x.bridge.mem == Absent
    ensures Confirms(x, i, o) && Next(x, OnRetire(i, o)).bridge == x.bridge
  {}

  lemma LooksGoneErases(w: World, i: Installation)
    requires LooksGone(w.bridge.file) && Retire(i) in w.frames
    ensures ErasesEarly(w, [Hello(i, false, false, Written)], i, Written)
  {
    var w1, hello := Next(w, BridgeRelaunch), Hello(i, false, false, Written);
    HelloAfterRelaunch(w, i);
    hide Next, Confirms;
    AfterOne(w1, hello);
    AbsentConfirms(Next(w1, hello), i, Written);
    var c :| c in w.bridge.file.durable && c.Live?;
    assert c in Cells(Next(w1, hello).bridge);
  }

  lemma AfterOne(w: World, ev: Event)
    requires Enabled(w, ev)
    ensures Feasible(w, [ev]) && After(w, [ev]) == Next(w, ev)
  {
    hide Next, Enabled;
    assert [ev][1..] == [];
  }

  lemma EarlyLooksGone(w: World, run: seq<Event>, i: Installation, o: Outcome)
    requires Inv(w) && Retire(i) in w.frames && ErasesEarly(w, run, i, o)
    ensures LooksGone(w.bridge.file)
  {
    assert Agreed(w, i);
    hide Core, Feasible, After, Next, LooksGone, Confirms, Enabled;
    if !LooksGone(w.bridge.file) {
      RelaunchSeals(w);
      NextKeeps(w, BridgeRelaunch);
      RunSeals(Next(w, BridgeRelaunch), run);
      SealedConfirms(After(Next(w, BridgeRelaunch), run), i, o);
    }
  }

  /** After any run in which a handset may ask for removal: relaunching the bridge can
      make it confirm the removal too early, however that process goes on, exactly when
      the file shows no record while a value it may fall back to is a live binding. A
      visible tombstone is safe: its removal is saved before it is confirmed. */
  lemma ErasesEarlyExactly(past: seq<Event>, i: Installation)
    requires Feasible(InitialWorld(), past) && Retire(i) in After(InitialWorld(), past).frames
    ensures var w := After(InitialWorld(), past);
            (exists run, o :: ErasesEarly(w, run, i, o)) <==> LooksGone(w.bridge.file)
  {
    var w := After(InitialWorld(), past);
    InitialInv();
    RunKeeps(InitialWorld(), past);
    hide ErasesEarly, LooksGone, Inv, Feasible, After;
    if run, o :| ErasesEarly(w, run, i, o) {
      EarlyLooksGone(w, run, i, o);
    }
    if LooksGone(w.bridge.file) {
      LooksGoneErases(w, i);
    }
  }
}
