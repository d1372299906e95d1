/**
 One run in full in which a handset is told to erase its receipt while a power loss
 could still bring its binding back.
 */
module ReplyLimits {
  import opened Durable
  import opened ReplyProtocol
  import opened ReplySafety

  const A: Installation := "A"
  const RECEIVED := Live(A, Received)
  const CONSUMED := Live(A, Consumed)
  const PROMPT := Task(RECEIVED, false)
  const ANSWERED := Task(RECEIVED, true)

  function At(b: Bridge, hs: map<Installation, Handset>, consumed: bool, frames: set<Frame>,
              asked: bool, bound: bool, played: set<Installation>): World {
    World(b, hs, consumed, frames, {}, asked, bound, played, false)
  }

  function Calm(cell: Cell, tasks: set<Task>, remembered: Option<Cell>): Bridge {
    Bridge(cell, false, File(cell, {cell}), tasks, map[A := remembered])
  }

  function Kept(p: HandsetPhase): map<Installation, Handset> {
    map[A := Handset(Some(p), {Some(p)}, false)]
  }

  function S1(): World { At(Calm(Absent, {}, None), map[], false, {}, false, false, {}) }
  function S2(): World { At(Calm(Live(A, Prepared), {}, Some(Live(A, Prepared))), map[], false, {AgentEnd(A)}, true, true, {}) }
  function S3(): World { At(Calm(Live(A, Prepared), {}, Some(Live(A, Prepared))), Kept(ReceiptPending), false, {AgentEnd(A)}, true, true, {}) }
  function S4(): World { At(Calm(Live(A, Prepared), {}, Some(Live(A, Prepared))), Kept(ReceiptPending), false, {AgentEnd(A), ReplyReceived(A)}, true, true, {}) }
  function S5(): World { At(Calm(RECEIVED, {}, Some(RECEIVED)), Kept(ReceiptPending), false, {AgentEnd(A), ReplyReceived(A), ConfirmReceived(A)}, true, true, {}) }
  function S6(): World { At(Calm(RECEIVED, {}, Some(RECEIVED)), Kept(AwaitingPlayback), false, {AgentEnd(A), ReplyReceived(A), ConfirmReceived(A)}, true, true, {}) }
  function S7(): World { At(Calm(RECEIVED, {}, Some(RECEIVED)), Kept(ReadyToAcknowledge), false, {AgentEnd(A), ReplyReceived(A), ConfirmReceived(A), ReplyAck(A)}, true, true, {A}) }
  function S8(): World { At(Calm(RECEIVED, {PROMPT}, Some(RECEIVED)), Kept(ReadyToAcknowledge), false, {AgentEnd(A), ReplyReceived(A), ConfirmReceived(A), ReplyAck(A)}, true, true, {A}) }
  function S9(): World { At(Calm(RECEIVED, {ANSWERED}, Some(RECEIVED)), Kept(ReadyToAcknowledge), true, {AgentEnd(A), ReplyReceived(A), ConfirmReceived(A), ReplyAck(A)}, true, true, {A}) }
  function S10(): World { At(Calm(CONSUMED, {}, Some(RECEIVED)), Kept(ReadyToAcknowledge), true, {AgentEnd(A), ReplyReceived(A), ConfirmReceived(A), ReplyAck(A), Acknowledged(A)}, true, true, {A}) }
  function S11(): World { At(Calm(CONSUMED, {}, Some(RECEIVED)), Kept(RetirementPending), true, {AgentEnd(A), ReplyReceived(A), ConfirmReceived(A), ReplyAck(A), Acknowledged(A), Retire(A)}, true, true, {A}) }
  function S12(): World { At(Bridge(CONSUMED, true, File(Absent, {CONSUMED, Absent}), {}, map[A := Some(RECEIVED)]), Kept(RetirementPending), true, {AgentEnd(A), ReplyReceived(A), ConfirmReceived(A), ReplyAck(A), Acknowledged(A), Retire(A)}, true, true, {A}) }
  function S13(): World { At(Bridge(Absent, false, File(Absent, {CONSUMED, Absent}), {}, map[]), Kept(RetirementPending), true, {AgentEnd(A), ReplyReceived(A), ConfirmReceived(A), ReplyAck(A), Acknowledged(A), Retire(A)}, true, true, {A}).(misled := true) }
  function S14(): World { At(Bridge(Absent, false, File(Absent, {CONSUMED, Absent}), {}, map[A := None]), Kept(RetirementPending), true, {AgentEnd(A), ReplyReceived(A), ConfirmReceived(A), ReplyAck(A), Acknowledged(A), Retire(A)}, true, true, {A}).(misled := true) }
  function S15(): World { At(Bridge(Absent, false, File(Absent, {CONSUMED, Absent}), {}, map[A := None]), Kept(RetirementPending), true, {AgentEnd(A), ReplyReceived(A), ConfirmReceived(A), ReplyAck(A), Acknowledged(A), Retire(A), Retired(A)}, true, true, {A}).(misled := true) }

  lemma Step1()
    ensures Enabled(InitialWorld(), Hello(A, false, false, Written)) && Next(InitialWorld(), Hello(A, false, false, Written)) == S1()
  {
    var w := InitialWorld();
    assert Reconciled(w.bridge, A, false, false) == w.bridge.mem;
    assert ReplayStep(w, A).bridge.sockets == map[A := None];
    assert ReplayStep(w, A) == S1();
    assert Absent in w.bridge.file.durable && !Absent.Live?;
  }

  lemma Step2()
    ensures Enabled(S1(), Prepare(A, Written)) && Next(S1(), Prepare(A, Written)) == S2()
  {}

  lemma Step3()
    ensures Enabled(S2(), OnAgentEnd(A, false, true)) && Next(S2(), OnAgentEnd(A, false, true)) == S3()
  {}

  lemma Step4()
    ensures Enabled(S3(), Retry(A, true)) && Next(S3(), Retry(A, true)) == S4()
  {}

  lemma Step5()
    ensures Enabled(S4(), OnReplyReceived(A, Written)) && Next(S4(), OnReplyReceived(A, Written)) == S5()
  {}

  lemma Step6()
    ensures Enabled(S5(), OnConfirmReceived(A, false, true)) && Next(S5(), OnConfirmReceived(A, false, true)) == S6()
  {}

  lemma Step7()
    ensures Enabled(S6(), Heard(A, true)) && Next(S6(), Heard(A, true)) == S7()
  {}

  lemma Step8()
    ensures Enabled(S7(), OnReplyAck(A)) && Next(S7(), OnReplyAck(A)) == S8()
  {}

  lemma Step9()
    ensures Enabled(S8(), Consume(PROMPT, true)) && Next(S8(), Consume(PROMPT, true)) == S9()
  {}

  lemma Step10()
    ensures Enabled(S9(), FinishAck(ANSWERED, true, Written, false)) && Next(S9(), FinishAck(ANSWERED, true, Written, false)) == S10()
  {}

  lemma Step11()
    ensures Enabled(S10(), OnAcknowledged(A, true)) && Next(S10(), OnAcknowledged(A, true)) == S11()
  {}

  lemma Step12()
    ensures Enabled(S11(), OnRetire(A, Unsettled)) && Next(S11(), OnRetire(A, Unsettled)) == S12()
  {}

  lemma Step13()
    ensures Enabled(S12(), BridgeRelaunch) && Next(S12(), BridgeRelaunch) == S13()
  {
    assert CONSUMED in S12().bridge.file.durable && CONSUMED.Live?;
  }

  lemma Step14()
    ensures Enabled(S13(), Hello(A, false, false, Written)) && Next(S13(), Hello(A, false, false, Written)) == S14()
  {}

  lemma Step15()
    ensures Enabled(S14(), OnRetire(A, Written)) && Next(S14(), OnRetire(A, Written)) == S15()
  {}

  lemma Prefix(w: World, ev: Event, rest: seq<Event>)
    requires Enabled(w, ev) && Feasible(Next(w, ev), rest)
    ensures Feasible(w, [ev] + rest) && After(w, [ev] + rest) == After(Next(w, ev), rest)
  {}

  /** The bridge retires the receipt but its directory sync fails; a relaunch reads the
      removal and confirms it to the handset, while a power loss could still restore
      the binding. Nothing is lost: the reply was heard and its row consumed. */
  lemma UnsyncedRelaunchErasesEarly() returns (run: seq<Event>)
    ensures Feasible(InitialWorld(), run) && Enabled(After(InitialWorld(), run), OnRetired(A, true))
    ensures CONSUMED in Cells(After(InitialWorld(), run).bridge) && After(InitialWorld(), run).misled
  {
    hide Enabled, Next, InitialWorld, S1, S2, S3, S4, S5, S6, S7, S8, S9, S10, S11, S12, S13, S14, S15;
    FinalState();
    run := [];
    Step15();
    Prefix(S14(), OnRetire(A, Written), run);
    run := [OnRetire(A, Written)] + run;
    Step14();
    Prefix(S13(), Hello(A, false, false, Written), run);
    run := [Hello(A, false, false, Written)] + run;
    Step13();
    Prefix(S12(), BridgeRelaunch, run);
    run := [BridgeRelaunch] + run;
    Step12();
    Prefix(S11(), OnRetire(A, Unsettled), run);
    run := [OnRetire(A, Unsettled)] + run;
    Step11();
    Prefix(S10(), OnAcknowledged(A, true), run);
    run := [OnAcknowledged(A, true)] + run;
    Step10();
    Prefix(S9(), FinishAck(ANSWERED, true, Written, false), run);
    run := [FinishAck(ANSWERED, true, Written, false)] + run;
    Step9();
    Prefix(S8(), Consume(PROMPT, true), run);
    run := [Consume(PROMPT, true)] + run;
    Step8();
    Prefix(S7(), OnReplyAck(A), run);
    run := [OnReplyAck(A)] + run;
    Step7();
    Prefix(S6(), Heard(A, true), run);
    run := [Heard(A, true)] + run;
    Step6();
    Prefix(S5(), OnConfirmReceived(A, false, true), run);
    run := [OnConfirmReceived(A, false, true)] + run;
    Step5();
    Prefix(S4(), OnReplyReceived(A, Written), run);
    run := [OnReplyReceived(A, Written)] + run;
    Step4();
    Prefix(S3(), Retry(A, true), run);
    run := [Retry(A, true)] + run;
    Step3();
    Prefix(S2(), OnAgentEnd(A, false, true), run);
    run := [OnAgentEnd(A, false, true)] + run;
    Step2();
    Prefix(S1(), Prepare(A, Written), run);
    run := [Prepare(A, Written)] + run;
    Step1();
    Prefix(InitialWorld(), Hello(A, false, false, Written), run);
    run := [Hello(A, false, false, Written)] + run;
  }

  lemma FinalState()
    ensures Enabled(S15(), OnRetired(A, true)) && CONSUMED in Cells(S15().bridge) && S15().misled
  {}
}
