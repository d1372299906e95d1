/**
 Safety of the reply acknowledgement over every run: no reply is lost, and the
 bridge's and the handsets' durable states never contradict each other.
 */
module ReplySafety {
  import opened Durable
  import opened ReplyProtocol

  function InitialWorld(): World {
    World(Bridge(Absent, false, File(Absent, {Absent}), {}, map[]), map[], false, {}, {}, false, false, {}, false)
  }

  /** Every value of the receipt the bridge holds or may come back with. */
  function Cells(b: Bridge): set<Cell> {
    b.file.durable + {b.mem, b.file.visible}
  }

  predicate Terminal(c: Cell) {
    c.Tomb? || (c.Live? && c.phase == Consumed)
  }

  predicate Gone(b: Bridge) {
    forall c :: c in Cells(b) ==> !c.Live?
  }

  /** The envelope of the reply is in the installation's memory and in every value a crash may leave. */
  predicate Holds(w: World, i: Installation) {
    HandsetOf(w, i).entry.Some? && None !in HandsetOf(w, i).stored
  }

  predicate HeldOrHeard(w: World, i: Installation) {
    Holds(w, i) || (w.consumed && i in w.played)
  }

  // -------------------------------------------------------- the invariant

  predicate BridgeShape(w: World) {
    && w.bridge.file.visible in w.bridge.file.durable
    && (forall i :: i in w.bridge.sockets && w.bridge.sockets[i].Some? ==> Remembered(w.bridge, i, w.bridge.sockets[i].value))
    && (w.bridge.mem in w.bridge.file.durable || !AllLive(w.bridge.file.durable))
    && (!w.asked ==> Cells(w.bridge) == {Absent})
  }

  predicate AllLive(cells: set<Cell>) {
    forall c :: c in cells ==> c.Live?
  }

  predicate Remembered(b: Bridge, i: Installation, c: Cell) {
    c == Live(i, Received) || (c == Live(i, Prepared) && b.mem == c)
  }

  predicate HandsetShape(h: Handset) {
    h.entry in h.stored && (!h.unsaved ==> h.stored == {h.entry})
  }

  /** Whoever may authorise consumption has heard the text. */
  predicate Heard0(w: World, i: Installation) {
    && (ReplyAck(i) in w.frames ==> i in w.played)
    && (Some(ReadyToAcknowledge) in HandsetOf(w, i).stored ==> i in w.played)
    && (Some(RetirementPending) in HandsetOf(w, i).stored ==> i in w.played)
  }

  predicate ConsumeIsHeard(w: World) {
    && (forall t :: t in w.bridge.tasks ==> TaskShape(w, t))
    && (w.consumed ==> w.played != {})
    && (forall n :: n in w.narrations && n.Spoken? ==> n.i in w.played)
  }

  predicate TaskShape(w: World, t: Task) {
    t.binding.Live? && t.binding.phase == Received && t.binding.owner in w.played && (t.answered ==> w.consumed)
  }

  predicate TerminalIsConsumed(w: World) {
    forall c :: c in Cells(w.bridge) && Terminal(c) ==> w.consumed
  }

  predicate BindingKept(w: World) {
    w.bound && !w.consumed ==> forall c :: c in Cells(w.bridge) ==> Replayable(c)
  }

  predicate ClaimsReceipt(w: World, i: Installation) {
    || Live(i, Received) in Cells(w.bridge)
    || (i in w.bridge.sockets && w.bridge.sockets[i] == Some(Live(i, Received)))
    || ReplyReceived(i) in w.frames
  }

  predicate Acked0(w: World, i: Installation) {
    && (Some(RetirementPending) in HandsetOf(w, i).stored ==> Acknowledged(i) in w.frames)
    && (Retire(i) in w.frames ==> Acknowledged(i) in w.frames)
    && (Acknowledged(i) in w.frames ==> w.consumed && w.asked)
  }

  /** While no bridge process was misled, a bridge without a record has none on disk either. */
  predicate Sealed0(w: World, i: Installation) {
    && (Acknowledged(i) in w.frames && w.bridge.mem == Absent ==> Gone(w.bridge))
    && (Retired(i) in w.frames ==> w.asked && Gone(w.bridge))
  }

  /** What the invariant says of one installation. */
  predicate Agreed(w: World, i: Installation) {
    && HandsetShape(HandsetOf(w, i))
    && Heard0(w, i)
    && (ClaimsReceipt(w, i) ==> HeldOrHeard(w, i))
    && Acked0(w, i)
    && (!w.misled ==> Sealed0(w, i))
  }

  /** What the invariant says of the bridge and of telepathosd. */
  predicate Core(w: World) {
    && BridgeShape(w)
    && ConsumeIsHeard(w)
    && TerminalIsConsumed(w)
    && BindingKept(w)
  }

  ghost predicate Inv(w: World) {
    Core(w) && forall i :: Agreed(w, i)
  }

  lemma InitialInv()
    ensures Inv(InitialWorld())
  {}

  // ---------------------------------------------------- bridge steps

  lemma SaveEffect(b: Bridge, cell: Cell, o: Outcome)
    ensures Save(b, cell, o).sockets == b.sockets && Save(b, cell, o).tasks == b.tasks
    ensures Cells(Save(b, cell, o)) <= Cells(b) + {cell}
    ensures if Saved(b, o) then Save(b, cell, o).mem == cell && Cells(Save(b, cell, o)) == {cell}
            else Save(b, cell, o).mem == b.mem
  {}

  lemma PrepareStepCore(w: World, i: Installation, o: Outcome)
    requires Core(w) && Enabled(w, Prepare(i, o))
    ensures Core(PrepareStep(w, i, o))
  {}

  lemma PrepareStepAgrees(w: World, i: Installation, o: Outcome, j: Installation)
    requires Inv(w) && Enabled(w, Prepare(i, o))
    ensures Agreed(PrepareStep(w, i, o), j)
  {
    SaveEffect(w.bridge, Live(i, Prepared), o);
    hide Save, Replace;
    assert Agreed(w, j);
    assert HandsetOf(PrepareStep(w, i, o), j) == HandsetOf(w, j);
  }

  lemma TransferStepCore(w: World, i: Installation, abandoned: bool, expired: bool, o: Outcome)
    requires Core(w) && i !in w.bridge.sockets
    ensures Core(TransferStep(w, i, abandoned, expired, o))
  {}

  lemma TransferStepAgrees(w: World, i: Installation, abandoned: bool, expired: bool, o: Outcome, j: Installation)
    requires Inv(w) && i !in w.bridge.sockets
    ensures Agreed(TransferStep(w, i, abandoned, expired, o), j)
  {
    SaveEffect(w.bridge, Reconciled(w.bridge, i, abandoned, expired), o);
    hide Save, Replace;
    assert Agreed(w, j);
    assert HandsetOf(TransferStep(w, i, abandoned, expired, o), j) == HandsetOf(w, j);
  }

  lemma ReplayStepShape(w: World, i: Installation)
    requires Core(w) && i !in w.bridge.sockets
    ensures BridgeShape(ReplayStep(w, i))
  {
    hide ConsumeIsHeard, TerminalIsConsumed, BindingKept, Gone;
  }

  lemma ReplayStepCore(w: World, i: Installation)
    requires Core(w) && i !in w.bridge.sockets
    ensures Core(ReplayStep(w, i))
  {
    ReplayStepShape(w, i);
    hide Remembered;
  }

  lemma ReplayStepClaims(w: World, i: Installation, j: Installation)
    requires Core(w) && Agreed(w, i) && Agreed(w, j) && i !in w.bridge.sockets
    ensures ClaimsReceipt(ReplayStep(w, i), j) ==> HeldOrHeard(ReplayStep(w, i), j)
  {
    hide Heard0, Acked0, Sealed0, ConsumeIsHeard, BindingKept, Gone;
  }

  lemma ReplayStepSeals(w: World, i: Installation, j: Installation)
    requires Core(w) && Agreed(w, i) && Agreed(w, j) && i !in w.bridge.sockets
    ensures Acked0(ReplayStep(w, i), j) && (!ReplayStep(w, i).misled ==> Sealed0(ReplayStep(w, i), j))
  {
    hide Heard0, ClaimsReceipt, HeldOrHeard, ConsumeIsHeard, BindingKept;
  }

  lemma ReplayStepAgrees(w: World, i: Installation, j: Installation)
    requires Inv(w) && i !in w.bridge.sockets
    ensures Agreed(ReplayStep(w, i), j)
  {
    assert Agreed(w, i) && Agreed(w, j);
    ReplayStepClaims(w, i, j);
    ReplayStepSeals(w, i, j);
    assert HandsetOf(ReplayStep(w, i), j) == HandsetOf(w, j);
    hide HandsetOf, Save, Acked0, Sealed0, ClaimsReceipt, HeldOrHeard, Core, Cells;
  }

  lemma ReceivedStepShape(w: World, i: Installation, o: Outcome)
    requires Core(w) && Enabled(w, OnReplyReceived(i, o))
    ensures BridgeShape(ReceivedStep(w, i, o))
  {
    hide ConsumeIsHeard, TerminalIsConsumed, BindingKept, Gone;
  }

  lemma ReceivedStepCore(w: World, i: Installation, o: Outcome)
    requires Core(w) && Enabled(w, OnReplyReceived(i, o))
    ensures Core(ReceivedStep(w, i, o))
  {
    ReceivedStepShape(w, i, o);
    hide Remembered;
  }

  lemma ReceivedStepClaims(w: World, i: Installation, o: Outcome, j: Installation)
    requires Core(w) && Agreed(w, i) && Agreed(w, j) && Enabled(w, OnReplyReceived(i, o))
    ensures ClaimsReceipt(ReceivedStep(w, i, o), j) ==> HeldOrHeard(ReceivedStep(w, i, o), j)
  {
    hide Heard0, Acked0, Sealed0, ConsumeIsHeard, BindingKept, Gone;
  }

  lemma ReceivedStepSeals(w: World, i: Installation, o: Outcome, j: Installation)
    requires Core(w) && Agreed(w, i) && Agreed(w, j) && Enabled(w, OnReplyReceived(i, o))
    ensures Acked0(ReceivedStep(w, i, o), j) && (!ReceivedStep(w, i, o).misled ==> Sealed0(ReceivedStep(w, i, o), j))
  {
    hide Heard0, ClaimsReceipt, HeldOrHeard, ConsumeIsHeard, BindingKept;
  }

  lemma ReceivedStepAgrees(w: World, i: Installation, o: Outcome, j: Installation)
    requires Inv(w) && Enabled(w, OnReplyReceived(i, o))
    ensures Agreed(ReceivedStep(w, i, o), j)
  {
    assert Agreed(w, i) && Agreed(w, j);
    ReceivedStepClaims(w, i, o, j);
    ReceivedStepSeals(w, i, o, j);
    assert HandsetOf(ReceivedStep(w, i, o), j) == HandsetOf(w, j);
    hide HandsetOf, Save, Acked0, Sealed0, ClaimsReceipt, HeldOrHeard, Core, Cells;
  }

  lemma AckStepCore(w: World, i: Installation)
    requires Core(w) && Agreed(w, i) && Enabled(w, OnReplyAck(i))
    ensures Core(AckStep(w, i))
  {
    hide Acked0, Sealed0, ClaimsReceipt, HeldOrHeard;
  }

  lemma AckStepClaims(w: World, i: Installation, j: Installation)
    requires Core(w) && Agreed(w, i) && Agreed(w, j) && Enabled(w, OnReplyAck(i))
    ensures ClaimsReceipt(AckStep(w, i), j) ==> HeldOrHeard(AckStep(w, i), j)
  {
    hide Heard0, Acked0, Sealed0, ConsumeIsHeard, BindingKept, Gone;
  }

  lemma AckStepSeals(w: World, i: Installation, j: Installation)
    requires Core(w) && Agreed(w, i) && Agreed(w, j) && Enabled(w, OnReplyAck(i))
    ensures Acked0(AckStep(w, i), j) && (!AckStep(w, i).misled ==> Sealed0(AckStep(w, i), j))
  {
    assert w.bridge.mem in Cells(w.bridge);
    hide Heard0, ClaimsReceipt, HeldOrHeard, ConsumeIsHeard, BindingKept;
  }

  lemma AckStepAgrees(w: World, i: Installation, j: Installation)
    requires Inv(w) && Enabled(w, OnReplyAck(i))
    ensures Agreed(AckStep(w, i), j)
  {
    assert Agreed(w, i) && Agreed(w, j);
    AckStepClaims(w, i, j);
    AckStepSeals(w, i, j);
    assert HandsetOf(AckStep(w, i), j) == HandsetOf(w, j);
    hide HandsetOf, Save, Acked0, Sealed0, ClaimsReceipt, HeldOrHeard, Core, Cells;
  }

  lemma ConsumeStepCore(w: World, task: Task, answered: bool)
    requires Core(w) && Enabled(w, Consume(task, answered))
    ensures Core(ConsumeStep(w, task, answered))
  {}

  lemma ConsumeStepAgrees(w: World, task: Task, answered: bool, j: Installation)
    requires Inv(w) && Enabled(w, Consume(task, answered))
    ensures Agreed(ConsumeStep(w, task, answered), j)
  {
    assert Agreed(w, j);
    assert HandsetOf(ConsumeStep(w, task, answered), j) == HandsetOf(w, j);
  }

  lemma FinishStepCore(w: World, task: Task, same: bool, o: Outcome, forget: bool)
    requires Core(w) && Enabled(w, FinishAck(task, same, o, forget))
    ensures Core(FinishStep(w, task, same, o, forget))
  {}

  lemma FinishStepAgrees(w: World, task: Task, same: bool, o: Outcome, forget: bool, j: Installation)
    requires Inv(w) && Enabled(w, FinishAck(task, same, o, forget))
    ensures Agreed(FinishStep(w, task, same, o, forget), j)
  {
    assert Agreed(w, j);
    assert HandsetOf(FinishStep(w, task, same, o, forget), j) == HandsetOf(w, j);
  }

  lemma RetireStepShape(w: World, i: Installation, o: Outcome)
    requires Core(w) && Agreed(w, i) && Enabled(w, OnRetire(i, o))
    ensures BridgeShape(RetireStep(w, i, o))
  {
    hide ConsumeIsHeard, TerminalIsConsumed, BindingKept, Gone;
  }

  lemma RetireStepCore(w: World, i: Installation, o: Outcome)
    requires Core(w) && Agreed(w, i) && Enabled(w, OnRetire(i, o))
    ensures Core(RetireStep(w, i, o))
  {
    RetireStepShape(w, i, o);
    hide Remembered;
  }

  lemma RetireStepClaims(w: World, i: Installation, o: Outcome, j: Installation)
    requires Core(w) && Agreed(w, i) && Agreed(w, j) && Enabled(w, OnRetire(i, o))
    ensures ClaimsReceipt(RetireStep(w, i, o), j) ==> HeldOrHeard(RetireStep(w, i, o), j)
  {
    hide Heard0, Acked0, Sealed0, ConsumeIsHeard, BindingKept, Gone;
  }

  lemma RetireStepSeals(w: World, i: Installation, o: Outcome, j: Installation)
    requires Core(w) && Agreed(w, i) && Agreed(w, j) && Enabled(w, OnRetire(i, o))
    ensures Acked0(RetireStep(w, i, o), j) && (!RetireStep(w, i, o).misled ==> Sealed0(RetireStep(w, i, o), j))
  {
    hide Heard0, ClaimsReceipt, HeldOrHeard, ConsumeIsHeard, BindingKept;
  }

  lemma RetireStepAgrees(w: World, i: Installation, o: Outcome, j: Installation)
    requires Inv(w) && Enabled(w, OnRetire(i, o))
    ensures Agreed(RetireStep(w, i, o), j)
  {
    assert Agreed(w, i) && Agreed(w, j);
    RetireStepClaims(w, i, o, j);
    RetireStepSeals(w, i, o, j);
    assert HandsetOf(RetireStep(w, i, o), j) == HandsetOf(w, j);
    hide HandsetOf, Save, Acked0, Sealed0, ClaimsReceipt, HeldOrHeard, Core, Cells;
  }

  lemma SweepStepShape(w: World, expired: bool, o: Outcome)
    requires Core(w)
    ensures BridgeShape(SweepStep(w, expired, o))
  {
    hide ConsumeIsHeard, TerminalIsConsumed, BindingKept, Gone;
  }

  lemma SweepStepCore(w: World, expired: bool, o: Outcome)
    requires Core(w)
    ensures Core(SweepStep(w, expired, o))
  {
    SweepStepShape(w, expired, o);
    hide Remembered;
  }

  lemma SweepStepAgrees(w: World, expired: bool, o: Outcome, j: Installation)
    requires Inv(w)
    ensures Agreed(SweepStep(w, expired, o), j)
  {
    assert Agreed(w, j);
    assert HandsetOf(SweepStep(w, expired, o), j) == HandsetOf(w, j);
  }

  lemma SaveOtherStepCore(w: World, o: Outcome, drop: bool)
    requires Core(w)
    ensures Core(SaveOtherStep(w, o, drop))
  {}

  lemma SaveOtherStepAgrees(w: World, o: Outcome, drop: bool, j: Installation)
    requires Inv(w)
    ensures Agreed(SaveOtherStep(w, o, drop), j)
  {
    assert Agreed(w, j);
    assert HandsetOf(SaveOtherStep(w, o, drop), j) == HandsetOf(w, j);
  }

  lemma RelaunchStepCore(w: World)
    requires Core(w)
    ensures Core(RelaunchStep(w))
  {}

  lemma RelaunchStepAgrees(w: World, j: Installation)
    requires Inv(w)
    ensures Agreed(RelaunchStep(w), j)
  {
    assert Agreed(w, j);
    assert HandsetOf(RelaunchStep(w), j) == HandsetOf(w, j);
  }

  // --------------------------------------------------- handset steps

  lemma HandsetCore(w: World, ev: Event)
    requires Inv(w) && OfHandset(ev) && Enabled(w, ev)
    ensures Core(HandsetStep(w, ev))
  {
    assert HandsetStep(w, ev).bridge == w.bridge;
  }

  lemma ChangeShape(w: World, ev: Event)
    requires OfHandset(ev) && Enabled(w, ev) && HandsetShape(HandsetOf(w, ev.i))
    ensures HandsetShape(HandsetChange(HandsetOf(w, ev.i), ev))
  {}

  /** Only a terminal confirmation makes an installation forget the envelope. */
  lemma ChangeHolds(w: World, ev: Event)
    requires OfHandset(ev) && Enabled(w, ev) && Holds(w, ev.i) && HandsetShape(HandsetOf(w, ev.i))
    requires !(ev.OnRetired? && HandsetOf(w, ev.i).entry == Some(RetirementPending))
    ensures Holds(HandsetStep(w, ev), ev.i)
  {}

  /** The two phases that authorise something are entered only after hearing, or after an acknowledgement. */
  lemma ChangeAuthority(h: Handset, ev: Event)
    requires OfHandset(ev) && HandsetShape(h) && (ev.HandsetCrash? ==> ev.entry in h.stored)
    ensures Some(ReadyToAcknowledge) in HandsetChange(h, ev).stored ==>
              Some(ReadyToAcknowledge) in h.stored || ev.Heard?
    ensures Some(RetirementPending) in HandsetChange(h, ev).stored ==>
              Some(RetirementPending) in h.stored || (ev.OnAcknowledged? && Some(ReadyToAcknowledge) in h.stored)
  {}

  lemma SentFrames(h: Handset, ev: Event)
    requires OfHandset(ev) && HandsetShape(h)
    ensures forall f :: f in SentBy(h, ev) ==> f == ReplyReceived(ev.i) || f == ReplyAck(ev.i) || f == Retire(ev.i)
    ensures ReplyReceived(ev.i) in SentBy(h, ev) ==>
              h.entry.Some? && HandsetChange(h, ev).entry == h.entry && !HandsetChange(h, ev).unsaved
    ensures ReplyAck(ev.i) in SentBy(h, ev) ==> ev.Heard? || Some(ReadyToAcknowledge) in h.stored
    ensures Retire(ev.i) in SentBy(h, ev) ==> ev.OnAcknowledged? || Some(RetirementPending) in h.stored
  {}

  /** The world after a handset step, without saying how the entry changed. */
  lemma StepShape(w: World, ev: Event)
    requires OfHandset(ev)
    ensures HandsetOf(HandsetStep(w, ev), ev.i) == HandsetChange(HandsetOf(w, ev.i), ev)
    ensures forall j :: j != ev.i ==> HandsetOf(HandsetStep(w, ev), j) == HandsetOf(w, j)
    ensures HandsetStep(w, ev).bridge == w.bridge && HandsetStep(w, ev).misled == w.misled
    ensures HandsetStep(w, ev).asked == w.asked && HandsetStep(w, ev).bound == w.bound
    ensures HandsetStep(w, ev).frames == w.frames + SentBy(HandsetOf(w, ev.i), ev)
    ensures HandsetStep(w, ev).played == if ev.Heard? || ev.NarrationHeard? then w.played + {ev.i} else w.played
    ensures HandsetStep(w, ev).consumed == (w.consumed || ev.ConsumeNarrated?)
  {
    hide HandsetChange, SentBy;
  }

  /** What is agreed about one installation depends only on its own entry and frames. */
  lemma OtherFacts(w: World, w': World, j: Installation)
    requires Agreed(w, j) && HandsetOf(w', j) == HandsetOf(w, j)
    requires w'.bridge == w.bridge && w'.misled == w.misled && w'.asked == w.asked
    requires w.played <= w'.played && (w.consumed ==> w'.consumed)
    requires ReplyAck(j) in w'.frames <==> ReplyAck(j) in w.frames
    requires ReplyReceived(j) in w'.frames <==> ReplyReceived(j) in w.frames
    requires Retire(j) in w'.frames <==> Retire(j) in w.frames
    requires Retired(j) in w'.frames <==> Retired(j) in w.frames
    requires Acknowledged(j) in w'.frames <==> Acknowledged(j) in w.frames
    ensures Agreed(w', j)
  {}

  lemma OtherAgrees(w: World, ev: Event, j: Installation)
    requires OfHandset(ev) && Agreed(w, j) && HandsetShape(HandsetOf(w, ev.i)) && j != ev.i
    ensures Agreed(HandsetStep(w, ev), j)
  {
    hide *;
    StepShape(w, ev);
    OtherFrames(w, ev, j);
    OtherFacts(w, HandsetStep(w, ev), j);
  }

  lemma OtherFrames(w: World, ev: Event, j: Installation)
    requires OfHandset(ev) && HandsetShape(HandsetOf(w, ev.i)) && j != ev.i
    ensures var frames := HandsetStep(w, ev).frames;
            && (ReplyAck(j) in frames <==> ReplyAck(j) in w.frames)
            && (ReplyReceived(j) in frames <==> ReplyReceived(j) in w.frames)
            && (Retire(j) in frames <==> Retire(j) in w.frames)
            && (Retired(j) in frames <==> Retired(j) in w.frames)
            && (Acknowledged(j) in frames <==> Acknowledged(j) in w.frames)
  {}

  lemma SelfHeard(w: World, ev: Event)
    requires OfHandset(ev) && Enabled(w, ev) && Agreed(w, ev.i)
    ensures Heard0(HandsetStep(w, ev), ev.i) && HandsetShape(HandsetOf(HandsetStep(w, ev), ev.i))
  {
    StepShape(w, ev);
    ChangeShape(w, ev);
    ChangeAuthority(HandsetOf(w, ev.i), ev);
    SentFrames(HandsetOf(w, ev.i), ev);
    hide HandsetStep, HandsetChange, SentBy, Gone, Cells;
  }

  lemma SelfAcked(w: World, ev: Event)
    requires OfHandset(ev) && Enabled(w, ev) && Agreed(w, ev.i)
    ensures Acked0(HandsetStep(w, ev), ev.i) && (!w.misled ==> Sealed0(HandsetStep(w, ev), ev.i))
  {
    StepShape(w, ev);
    ChangeAuthority(HandsetOf(w, ev.i), ev);
    SentFrames(HandsetOf(w, ev.i), ev);
    hide HandsetStep, HandsetChange, SentBy, Gone, Cells;
  }

  /** What an installation claims it still holds, or the reply was heard and consumed. */
  lemma SelfClaims(w: World, ev: Event)
    requires OfHandset(ev) && Enabled(w, ev) && Agreed(w, ev.i)
    requires ClaimsReceipt(HandsetStep(w, ev), ev.i)
    ensures HeldOrHeard(HandsetStep(w, ev), ev.i)
  {
    var h := HandsetOf(w, ev.i);
    StepShape(w, ev);
    ChangeShape(w, ev);
    SentFrames(h, ev);
    if Holds(w, ev.i) && !(ev.OnRetired? && h.entry == Some(RetirementPending)) {
      ChangeHolds(w, ev);
    }
    hide HandsetStep, HandsetChange, SentBy, Gone, Cells;
  }

  lemma HandsetAgrees(w: World, ev: Event, j: Installation)
    requires Inv(w) && OfHandset(ev) && Enabled(w, ev)
    ensures Agreed(HandsetStep(w, ev), j)
  {
    assert Agreed(w, j) && Agreed(w, ev.i);
    if j != ev.i {
      OtherAgrees(w, ev, j);
    } else {
      SelfHeard(w, ev);
      SelfAcked(w, ev);
      if ClaimsReceipt(HandsetStep(w, ev), ev.i) { SelfClaims(w, ev); }
      StepShape(w, ev);
      hide HandsetStep;
    }
  }

  // ------------------------------------------------------------ all steps

  /** A bridge process that ends, by power loss or by relaunch, or a socket that closes. */
  lemma LossCore(w: World, ev: Event)
    requires Inv(w) && Enabled(w, ev) && (ev.Disconnect? || ev.BridgePowerLoss?)
    ensures Core(BridgeStep(w, ev))
  {}

  lemma LossAgrees(w: World, ev: Event, j: Installation)
    requires Inv(w) && Enabled(w, ev) && (ev.Disconnect? || ev.BridgePowerLoss?)
    ensures Agreed(BridgeStep(w, ev), j)
  {
    assert Agreed(w, j);
    assert HandsetOf(BridgeStep(w, ev), j) == HandsetOf(w, j);
  }

  lemma TransferKeeps(w: World, i: Installation, abandoned: bool, expired: bool, o: Outcome)
    requires Inv(w) && i !in w.bridge.sockets
    ensures Inv(TransferStep(w, i, abandoned, expired, o)) && i !in TransferStep(w, i, abandoned, expired, o).bridge.sockets
  {
    TransferStepCore(w, i, abandoned, expired, o);
    forall j ensures Agreed(TransferStep(w, i, abandoned, expired, o), j) {
      TransferStepAgrees(w, i, abandoned, expired, o, j);
    }
  }

  /** The step itself, before the history of durable bindings is updated. */
  function Stepped(w: World, ev: Event): World {
    if OfHandset(ev) then HandsetStep(w, ev) else BridgeStep(w, ev)
  }

  lemma AgreedOn(w: World, i: Installation)
    requires Inv(w)
    ensures Core(w) && Agreed(w, i)
  {}

  lemma SteppedCore(w: World, ev: Event)
    requires Inv(w) && Enabled(w, ev)
    ensures Core(Stepped(w, ev))
  {
    hide Inv, Core, Agreed, HandsetStep, PrepareStep, TransferStep, ReplayStep, ReceivedStep, AckStep, ConsumeStep,
         FinishStep, RetireStep, SweepStep, SaveOtherStep, RelaunchStep;
    AgreedOn(w, "");
    match ev
    case Prepare(i, o) => PrepareStepCore(w, i, o);
    case Hello(i, a, e, o) =>
      TransferKeeps(w, i, a, e, o);
      ReplayStepCore(TransferStep(w, i, a, e, o), i);
    case OnReplyReceived(i, o) => ReceivedStepCore(w, i, o);
    case OnReplyAck(i) =>
      AgreedOn(w, i);
      AckStepCore(w, i);
    case Consume(task, answered) => ConsumeStepCore(w, task, answered);
    case FinishAck(task, same, o, forget) => FinishStepCore(w, task, same, o, forget);
    case OnRetire(i, o) =>
      AgreedOn(w, i);
      RetireStepCore(w, i, o);
    case Sweep(expired, o) => SweepStepCore(w, expired, o);
    case SaveOther(o, drop) => SaveOtherStepCore(w, o, drop);
    case BridgeRelaunch => RelaunchStepCore(w);
    case Disconnect(_) => LossCore(w, ev);
    case BridgePowerLoss(_) => LossCore(w, ev);
    case _ => HandsetCore(w, ev);
  }

  lemma SteppedAgrees(w: World, ev: Event, j: Installation)
    requires Inv(w) && Enabled(w, ev)
    ensures Agreed(Stepped(w, ev), j)
  {
    hide Inv, Agreed, HandsetStep, PrepareStep, TransferStep, ReplayStep, ReceivedStep, AckStep, ConsumeStep,
         FinishStep, RetireStep, SweepStep, SaveOtherStep, RelaunchStep;
    match ev
    case Prepare(i, o) => PrepareStepAgrees(w, i, o, j);
    case Hello(i, a, e, o) =>
      TransferKeeps(w, i, a, e, o);
      ReplayStepAgrees(TransferStep(w, i, a, e, o), i, j);
    case OnReplyReceived(i, o) => ReceivedStepAgrees(w, i, o, j);
    case OnReplyAck(i) => AckStepAgrees(w, i, j);
    case Consume(task, answered) => ConsumeStepAgrees(w, task, answered, j);
    case FinishAck(task, same, o, forget) => FinishStepAgrees(w, task, same, o, forget, j);
    case OnRetire(i, o) => RetireStepAgrees(w, i, o, j);
    case Sweep(expired, o) => SweepStepAgrees(w, expired, o, j);
    case SaveOther(o, drop) => SaveOtherStepAgrees(w, o, drop, j);
    case BridgeRelaunch => RelaunchStepAgrees(w, j);
    case Disconnect(_) => LossAgrees(w, ev, j);
    case BridgePowerLoss(_) => LossAgrees(w, ev, j);
    case _ => HandsetAgrees(w, ev, j);
  }

  /** Marking the binding as bound keeps the invariant: nothing terminal is durable before consumption. */
  lemma BoundKeeps(w: World, bound: bool)
    requires Core(w) && (bound ==> w.bound || AllLive(w.bridge.file.durable))
    ensures Core(w.(bound := bound))
  {}

  lemma NextKeeps(w: World, ev: Event)
    requires Inv(w) && Enabled(w, ev)
    ensures Inv(Next(w, ev))
  {
    var w1, w' := Stepped(w, ev), Next(w, ev);
    SteppedCore(w, ev);
    forall j ensures Agreed(w', j) {
      SteppedAgrees(w, ev, j);
      AgreedOfBound(w1, w'.bound, j);
    }
    BoundKeeps(w1, w'.bound);
    hide BridgeStep, HandsetStep, Core, Agreed;
  }

  lemma AgreedOfBound(w: World, bound: bool, j: Installation)
    requires Agreed(w, j)
    ensures Agreed(w.(bound := bound), j)
  {}

  // ------------------------------------------------------------- theorems

  predicate Feasible(w: World, run: seq<Event>)
    decreases |run|
  {
    run == [] || (Enabled(w, run[0]) && Feasible(Next(w, run[0]), run[1..]))
  }

  function After(w: World, run: seq<Event>): World
    decreases |run|
  {
    if run == [] then w else After(Next(w, run[0]), run[1..])
  }

  lemma {:induction false} RunKeeps(w: World, run: seq<Event>)
    requires Inv(w) && Feasible(w, run)
    ensures Inv(After(w, run))
    decreases |run|
  {
    hide Inv, Next, Enabled;
    if run != [] {
      NextKeeps(w, run[0]);
      RunKeeps(Next(w, run[0]), run[1..]);
    }
  }

  /** No reply is lost: once its binding was durable, either telepathosd still owns the
      row and the bridge holds, in memory and after any crash, a binding it can replay
      in full, or some installation has heard the text. Consumed text was always heard. */
  lemma NoReplyLost(run: seq<Event>)
    requires Feasible(InitialWorld(), run)
    ensures var w := After(InitialWorld(), run);
            && (w.consumed ==> w.played != {})
            && (w.bound ==> w.played != {} || (!w.consumed && forall c :: c in Cells(w.bridge) ==> Replayable(c)))
  {
    InitialInv();
    RunKeeps(InitialWorld(), run);
  }

  /** The durable machines stay in step. A received binding means its owner holds the
      envelope, or heard it and it was consumed; a handset that is retiring was
      acknowledged after the row was consumed; a consumed binding or tombstone means the same. */
  lemma MachinesInStep(run: seq<Event>, i: Installation)
    requires Feasible(InitialWorld(), run)
    ensures var w := After(InitialWorld(), run);
            && (Live(i, Received) in Cells(w.bridge) ==> Holds(w, i) || (w.consumed && i in w.played))
            && (Some(RetirementPending) in HandsetOf(w, i).stored ==> w.consumed && i in w.played)
            && (Some(ReadyToAcknowledge) in HandsetOf(w, i).stored ==> i in w.played)
            && (Live(i, Consumed) in Cells(w.bridge) || Tomb(i) in Cells(w.bridge) ==> w.consumed)
  {
    InitialInv();
    RunKeeps(InitialWorld(), run);
    assert Agreed(After(InitialWorld(), run), i);
  }

  /** A handset is told to erase its receipt only once the bridge's binding is gone from
      memory and from every value a crash may leave, unless a bridge process once
      started from a file that only looked as if the receipt were gone. */
  lemma ErasedOnlyAfterRemoval(run: seq<Event>, i: Installation, ok: bool)
    requires Feasible(InitialWorld(), run) && Enabled(After(InitialWorld(), run), OnRetired(i, ok))
    requires !After(InitialWorld(), run).misled
    ensures forall c :: c in Cells(After(InitialWorld(), run).bridge) ==> !c.Live?
  {
    InitialInv();
    RunKeeps(InitialWorld(), run);
    assert Agreed(After(InitialWorld(), run), i);
  }
}
