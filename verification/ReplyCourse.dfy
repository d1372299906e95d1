/**
 A reply nobody disturbs: from its preparation to the last record of it, through every
 frame of bridge and handset, it is heard, its row consumed, and nothing of it is left.
 */
module ReplyCourse {
  import opened Durable
  import opened ReplyProtocol
  import opened ReplySafety
  import opened ReplyEffects

  /** Where a reply stands: the bridge's record and what the socket remembers of it, and the
      receipt, all saved. */
  predicate Stands(w: World, i: Installation, cell: Cell, remembered: Option<Cell>, entry: Option<HandsetPhase>) {
    && Stored(w.bridge, cell) && i in w.bridge.sockets && w.bridge.sockets[i] == remembered
    && Keeps(HandsetOf(w, i), entry)
  }

  /** Only the bridge, the receipt of `i` and frames changed. */
  predicate Onward(w: World, w': World) {
    && w.frames <= w'.frames && (w.consumed ==> w'.consumed) && w.played <= w'.played
  }

  lemma HandsetNext(w: World, ev: Event)
    requires OfHandset(ev) && !OfNarration(ev)
    ensures var w', h := Next(w, ev), HandsetOf(w, ev.i);
            && w'.bridge == w.bridge && HandsetOf(w', ev.i) == HandsetChange(h, ev)
            && w'.frames == w.frames + SentBy(h, ev) && w'.consumed == w.consumed
            && w'.played == w.played + if ev.Heard? then {ev.i} else {}
  {
    hide HandsetChange, SentBy, BridgeStep;
  }

  lemma SameHandset(w: World, w': World, i: Installation)
    requires w'.handsets == w.handsets
    ensures HandsetOf(w', i) == HandsetOf(w, i)
  {}

  lemma Prepared1(w: World, i: Installation) returns (w': World)
    requires Stands(w, i, Absent, None, None) && !w.asked
    ensures Enabled(w, Prepare(i, Written)) && w' == Next(w, Prepare(i, Written))
    ensures Stands(w', i, Live(i, Prepared), Some(Live(i, Prepared)), None) && AgentEnd(i) in w'.frames && Onward(w, w')
  {
    PrepareBinds(w, i);
    BridgeNext(w, Prepare(i, Written));
    w' := Next(w, Prepare(i, Written));
    SameHandset(w, w', i);
    hide Next, BridgeStep, HandsetOf;
    FramesStay(w, Prepare(i, Written));
  }

  lemma FramesStay(w: World, ev: Event)
    ensures Onward(w, Next(w, ev))
  {
    if OfHandset(ev) {
      HandsetFramesStay(w, ev);
    } else {
      BridgeNext(w, ev);
      BridgeFramesStay(w, ev);
    }
    hide Next, HandsetStep, BridgeStep;
  }

  lemma HandsetFramesStay(w: World, ev: Event)
    requires OfHandset(ev)
    ensures Onward(w, Next(w, ev))
  {
    hide HandsetChange, SentBy, BridgeStep;
  }

  lemma BridgeFramesStay(w: World, ev: Event)
    requires !OfHandset(ev)
    ensures Onward(w, BridgeStep(w, ev))
  {
    hide PrepareStep, TransferStep, ReplayStep, ReceivedStep, AckStep, ConsumeStep, FinishStep, RetireStep, SweepStep,
         SaveOtherStep, RelaunchStep;
    match ev
    case Prepare(i, o) => SavesOnward(w, i, o);
    case Hello(i, abandoned, expired, o) => HelloOnward(w, i, abandoned, expired, o);
    case OnReplyReceived(i, o) => ProofOnward(w, i, o);
    case OnReplyAck(i) => AckOnward(w, i);
    case Consume(task, answered) => TaskOnward(w, task, answered, Written, false);
    case FinishAck(task, same, o, forget) => TaskOnward(w, task, same, o, forget);
    case OnRetire(i, o) => SavesOnward(w, i, o);
    case Sweep(expired, o) => QuietOnward(w, expired, o);
    case SaveOther(o, dropTombstone) => QuietOnward(w, dropTombstone, o);
    case BridgeRelaunch => QuietOnward(w, false, Written);
    case _ =>
  }

  lemma SavesOnward(w: World, i: Installation, o: Outcome)
    ensures Onward(w, PrepareStep(w, i, o)) && Onward(w, RetireStep(w, i, o))
  {
    hide Save, Remember;
  }

  lemma ProofOnward(w: World, i: Installation, o: Outcome)
    ensures Onward(w, ReceivedStep(w, i, o))
  {
    hide Owned, Save, Remember;
  }

  lemma AckOnward(w: World, i: Installation)
    ensures Onward(w, AckStep(w, i))
  {
    hide Owned;
  }

  lemma HelloOnward(w: World, i: Installation, abandoned: bool, expired: bool, o: Outcome)
    ensures Onward(w, ReplayStep(TransferStep(w, i, abandoned, expired, o), i))
  {
    hide Save, Reconciled;
  }

  lemma TaskOnward(w: World, task: Task, flag: bool, o: Outcome, forget: bool)
    ensures Onward(w, ConsumeStep(w, task, flag)) && Onward(w, FinishStep(w, task, flag, o, forget))
  {
    hide Save, Remember;
  }

  lemma QuietOnward(w: World, flag: bool, o: Outcome)
    ensures Onward(w, SweepStep(w, flag, o)) && Onward(w, SaveOtherStep(w, o, flag)) && Onward(w, RelaunchStep(w))
  {
    hide Save, LooksGone;
  }

  /** An event of the handset with a saved change. */
  lemma HandsetMoves(w: World, i: Installation, ev: Event, cell: Cell, r: Option<Cell>, from: Option<HandsetPhase>,
                     to: Option<HandsetPhase>, sent: set<Frame>) returns (w': World)
    requires Stands(w, i, cell, r, from) && OfHandset(ev) && !OfNarration(ev) && ev.i == i
    requires Keeps(HandsetChange(HandsetOf(w, i), ev), to) && SentBy(HandsetOf(w, i), ev) == sent
    ensures w' == Next(w, ev) && Stands(w', i, cell, r, to) && Onward(w, w') && sent <= w'.frames
    ensures ev.Heard? ==> i in w'.played
  {
    HandsetNext(w, ev);
    w' := Next(w, ev);
    hide Next, HandsetChange, SentBy, HandsetOf;
    FramesStay(w, ev);
  }

  /** Arrival: the receipt is saved, and its proof repeated until it is confirmed. */
  lemma Arrives(w: World, i: Installation) returns (w1: World, w2: World)
    requires Stands(w, i, Live(i, Prepared), Some(Live(i, Prepared)), None) && AgentEnd(i) in w.frames
    ensures Enabled(w, OnAgentEnd(i, false, true)) && w1 == Next(w, OnAgentEnd(i, false, true))
    ensures Enabled(w1, Retry(i, true)) && w2 == Next(w1, Retry(i, true))
    ensures Stands(w2, i, Live(i, Prepared), Some(Live(i, Prepared)), Some(ReceiptPending))
    ensures ReplyReceived(i) in w2.frames && Onward(w, w2)
  {
    PhaseDiagram(HandsetOf(w, i), i);
    assert SentBy(HandsetOf(w, i), OnAgentEnd(i, false, true)) == {};
    w1 := HandsetMoves(w, i, OnAgentEnd(i, false, true), Live(i, Prepared), Some(Live(i, Prepared)), None, Some(ReceiptPending), {});
    RetrySends(HandsetOf(w1, i), i, true);
    w2 := HandsetMoves(w1, i, Retry(i, true), Live(i, Prepared), Some(Live(i, Prepared)), Some(ReceiptPending),
                       Some(ReceiptPending), {ReplyReceived(i)});
    hide Next, HandsetChange, SentBy, HandsetOf;
  }

  /** Proof: saved by the bridge, confirmed, and the reply may be heard. */
  lemma Proves(w: World, i: Installation) returns (w1: World, w2: World)
    requires Stands(w, i, Live(i, Prepared), Some(Live(i, Prepared)), Some(ReceiptPending)) && ReplyReceived(i) in w.frames
    ensures Enabled(w, OnReplyReceived(i, Written)) && w1 == Next(w, OnReplyReceived(i, Written))
    ensures Enabled(w1, OnConfirmReceived(i, false, true)) && w2 == Next(w1, OnConfirmReceived(i, false, true))
    ensures Stands(w2, i, Live(i, Received), Some(Live(i, Received)), Some(AwaitingPlayback)) && Onward(w, w2)
  {
    ReceiptIsConfirmed(w, i, Written);
    BridgeNext(w, OnReplyReceived(i, Written));
    w1 := Next(w, OnReplyReceived(i, Written));
    assert BridgeStep(w, OnReplyReceived(i, Written)).handsets == w.handsets;
    SameHandset(w, w1, i);
    FramesStay(w, OnReplyReceived(i, Written));
    hide Next, HandsetChange, SentBy, HandsetOf, BridgeStep;
    w2 := Confirms1(w1, i);
  }

  lemma Confirms1(w: World, i: Installation) returns (w': World)
    requires Stands(w, i, Live(i, Received), Some(Live(i, Received)), Some(ReceiptPending))
    ensures w' == Next(w, OnConfirmReceived(i, false, true))
    ensures Stands(w', i, Live(i, Received), Some(Live(i, Received)), Some(AwaitingPlayback)) && Onward(w, w')
  {
    PhaseDiagram(HandsetOf(w, i), i);
    assert SentBy(HandsetOf(w, i), OnConfirmReceived(i, false, true)) == {};
    hide Next, HandsetChange, SentBy, HandsetOf;
    w' := HandsetMoves(w, i, OnConfirmReceived(i, false, true), Live(i, Received), Some(Live(i, Received)),
                       Some(ReceiptPending), Some(AwaitingPlayback), {});
  }

  /** Playback: heard, and acknowledged. */
  lemma Plays(w: World, i: Installation) returns (w1: World, w2: World)
    requires Stands(w, i, Live(i, Received), Some(Live(i, Received)), Some(AwaitingPlayback))
    ensures Enabled(w, Heard(i, true)) && w1 == Next(w, Heard(i, true))
    ensures Enabled(w1, OnReplyAck(i)) && w2 == Next(w1, OnReplyAck(i))
    ensures Stands(w2, i, Live(i, Received), Some(Live(i, Received)), Some(ReadyToAcknowledge)) && Onward(w, w2)
    ensures i in w2.played && Task(Live(i, Received), false) in w2.bridge.tasks
  {
    PhaseDiagram(HandsetOf(w, i), i);
    w1 := HandsetMoves(w, i, Heard(i, true), Live(i, Received), Some(Live(i, Received)), Some(AwaitingPlayback),
                       Some(ReadyToAcknowledge), {ReplyAck(i)});
    hide HandsetChange, SentBy, HandsetOf;
    AckAsks(w1, i);
    BridgeNext(w1, OnReplyAck(i));
    w2 := Next(w1, OnReplyAck(i));
    assert BridgeStep(w1, OnReplyAck(i)).handsets == w1.handsets && BridgeStep(w1, OnReplyAck(i)).played == w1.played;
    SameHandset(w1, w2, i);
    FramesStay(w1, OnReplyAck(i));
    hide Next, BridgeStep;
  }

  /** Consumption: telepathosd answers, the bridge saves it and acknowledges. */
  lemma Consumes(w: World, i: Installation) returns (w1: World, w2: World)
    requires Stands(w, i, Live(i, Received), Some(Live(i, Received)), Some(ReadyToAcknowledge))
    requires Task(Live(i, Received), false) in w.bridge.tasks
    ensures var ev := Consume(Task(Live(i, Received), false), true); Enabled(w, ev) && w1 == Next(w, ev)
    ensures var ev := FinishAck(Task(Live(i, Received), true), true, Written, true); Enabled(w1, ev) && w2 == Next(w1, ev)
    ensures Stands(w2, i, Live(i, Consumed), None, Some(ReadyToAcknowledge)) && Onward(w, w2)
    ensures w2.consumed && Acknowledged(i) in w2.frames
  {
    var e1, e2 := Consume(Task(Live(i, Received), false), true), FinishAck(Task(Live(i, Received), true), true, Written, true);
    ConsumeAnswers(w, e1.task);
    BridgeNext(w, e1);
    w1 := Next(w, e1);
    assert BridgeStep(w, e1).handsets == w.handsets && BridgeStep(w, e1).bridge.sockets == w.bridge.sockets;
    SameHandset(w, w1, i);
    FramesStay(w, e1);
    hide Next, BridgeStep, HandsetOf;
    w2 := Finishes(w1, i);
  }

  lemma Finishes(w: World, i: Installation) returns (w': World)
    requires Stands(w, i, Live(i, Received), Some(Live(i, Received)), Some(ReadyToAcknowledge)) && w.consumed
    requires Task(Live(i, Received), true) in w.bridge.tasks
    ensures var ev := FinishAck(Task(Live(i, Received), true), true, Written, true); Enabled(w, ev) && w' == Next(w, ev)
    ensures Stands(w', i, Live(i, Consumed), None, Some(ReadyToAcknowledge)) && Onward(w, w')
    ensures w'.consumed && Acknowledged(i) in w'.frames
  {
    var ev := FinishAck(Task(Live(i, Received), true), true, Written, true);
    FinishAcknowledges(w, i, true);
    BridgeNext(w, ev);
    w' := Next(w, ev);
    assert BridgeStep(w, ev).handsets == w.handsets && BridgeStep(w, ev).bridge.sockets == w.bridge.sockets[i := None];
    SameHandset(w, w', i);
    FramesStay(w, ev);
    hide Next, BridgeStep, HandsetOf;
  }

  /** Retirement: requested, removed by the bridge, confirmed, and the receipt erased. */
  lemma Retires(w: World, i: Installation) returns (w1: World, w2: World, w3: World)
    requires Stands(w, i, Live(i, Consumed), None, Some(ReadyToAcknowledge)) && Acknowledged(i) in w.frames
    ensures Enabled(w, OnAcknowledged(i, true)) && w1 == Next(w, OnAcknowledged(i, true))
    ensures Enabled(w1, OnRetire(i, Written)) && w2 == Next(w1, OnRetire(i, Written))
    ensures Enabled(w2, OnRetired(i, true)) && w3 == Next(w2, OnRetired(i, true))
    ensures Stands(w3, i, Absent, None, None) && Onward(w, w3)
  {
    PhaseDiagram(HandsetOf(w, i), i);
    w1 := HandsetMoves(w, i, OnAcknowledged(i, true), Live(i, Consumed), None, Some(ReadyToAcknowledge),
                       Some(RetirementPending), {Retire(i)});
    hide HandsetChange, SentBy, HandsetOf;
    RetireRemoves(w1, i, Written);
    BridgeNext(w1, OnRetire(i, Written));
    w2 := Next(w1, OnRetire(i, Written));
    assert BridgeStep(w1, OnRetire(i, Written)).handsets == w1.handsets
           && BridgeStep(w1, OnRetire(i, Written)).bridge.sockets == w1.bridge.sockets[i := None];
    SameHandset(w1, w2, i);
    FramesStay(w1, OnRetire(i, Written));
    hide Next, BridgeStep;
    w3 := Erases(w2, i);
  }

  lemma Erases(w: World, i: Installation) returns (w': World)
    requires Stands(w, i, Absent, None, Some(RetirementPending)) && Retired(i) in w.frames
    ensures Enabled(w, OnRetired(i, true)) && w' == Next(w, OnRetired(i, true)) && Stands(w', i, Absent, None, None) && Onward(w, w')
  {
    PhaseDiagram(HandsetOf(w, i), i);
    assert SentBy(HandsetOf(w, i), OnRetired(i, true)) == {};
    hide Next, HandsetChange, SentBy, HandsetOf;
    w' := HandsetMoves(w, i, OnRetired(i, true), Absent, None, Some(RetirementPending), None, {});
  }

  // ------------------------------------------------------------- the whole way

  function Course(i: Installation): seq<Event> {
    [Prepare(i, Written), OnAgentEnd(i, false, true), Retry(i, true), OnReplyReceived(i, Written),
     OnConfirmReceived(i, false, true), Heard(i, true), OnReplyAck(i), Consume(Task(Live(i, Received), false), true),
     FinishAck(Task(Live(i, Received), true), true, Written, true), OnAcknowledged(i, true), OnRetire(i, Written),
     OnRetired(i, true)]
  }

  lemma {:induction false} Chain(ws: seq<World>, evs: seq<Event>)
    requires |ws| == |evs| + 1
    requires forall k :: 0 <= k < |evs| ==> Enabled(ws[k], evs[k]) && ws[k + 1] == Next(ws[k], evs[k])
    ensures Feasible(ws[0], evs) && After(ws[0], evs) == ws[|evs|]
    decreases |evs|
  {
    hide Enabled, Next;
    if evs != [] { Chain(ws[1..], evs[1..]); }
  }

  /** From every state in which the reply is not asked for yet, the installation is connected,
      and neither side has a record of it: when every save and frame gets through, the reply
      is heard, its row consumed, and no record is left in memory or storage of either side. */
  lemma ReplyCompletes(w: World, i: Installation)
    requires Stands(w, i, Absent, None, None) && !w.asked
    ensures Feasible(w, Course(i))
    ensures var w' := After(w, Course(i)); Stands(w', i, Absent, None, None) && i in w'.played && w'.consumed
  {
    hide *;
    var w1 := Prepared1(w, i);
    var w2, w3 := Arrives(w1, i);
    var w4, w5 := Proves(w3, i);
    var w6, w7 := Plays(w5, i);
    var w8, w9 := Consumes(w7, i);
    var w10, w11, w12 := Retires(w9, i);
    var first := [w, w1, w2, w3, w4, w5, w6];
    var ws := first + [w7, w8, w9, w10, w11, w12];
    CourseIs(i);
    Chain(ws, Course(i));
    StillHeard(w7, w9, i);
    StillHeard(w9, w12, i);
  }

  lemma StillHeard(w: World, w': World, i: Installation)
    requires Onward(w, w')
    ensures (i in w.played ==> i in w'.played) && (w.consumed ==> w'.consumed)
  {}

  lemma CourseIs(i: Installation)
    ensures Course(i) ==
      [Prepare(i, Written), OnAgentEnd(i, false, true), Retry(i, true), OnReplyReceived(i, Written),
       OnConfirmReceived(i, false, true), Heard(i, true), OnReplyAck(i), Consume(Task(Live(i, Received), false), true),
       FinishAck(Task(Live(i, Received), true), true, Written, true), OnAcknowledged(i, true), OnRetire(i, Written),
       OnRetired(i, true)]
  {}

  /** A row that no receipt owns: fetched, spoken, heard and consumed. */
  lemma NarrationCompletes(w: World, i: Installation)
    requires !w.consumed && HandsetOf(w, i).entry == None
    ensures var run := [FetchPending(i), Narrate(i), NarrationHeard(i), ConsumeNarrated(i)];
            && Feasible(w, run)
            && var w' := After(w, run);
               i in w'.played && w'.consumed && w'.bridge == w.bridge && HandsetOf(w', i) == HandsetOf(w, i)
  {
    hide *;
    var w1 := Next(w, FetchPending(i));
    NarrationEnabled(w, i);
    NarrationStep(w, FetchPending(i));
    var w2 := Next(w1, Narrate(i));
    NarrationStep(w1, Narrate(i));
    NarrationEnabled(w1, i);
    var w3 := Next(w2, NarrationHeard(i));
    NarrationStep(w2, NarrationHeard(i));
    NarrationEnabled(w2, i);
    NarrationStep(w3, ConsumeNarrated(i));
    NarrationEnabled(w3, i);
    Chain([w, w1, w2, w3, Next(w3, ConsumeNarrated(i))], [FetchPending(i), Narrate(i), NarrationHeard(i), ConsumeNarrated(i)]);
  }

  lemma NarrationEnabled(w: World, i: Installation)
    ensures OfNarration(FetchPending(i)) && OfNarration(Narrate(i)) && OfNarration(NarrationHeard(i)) && OfNarration(ConsumeNarrated(i))
    ensures !w.consumed ==> Enabled(w, FetchPending(i))
    ensures Fetched(i) in w.narrations && HandsetOf(w, i).entry == None ==> Enabled(w, Narrate(i))
    ensures Speaking(i) in w.narrations ==> Enabled(w, NarrationHeard(i))
    ensures Spoken(i) in w.narrations ==> Enabled(w, ConsumeNarrated(i))
  {}

  /** What each step of a narration brings. */
  lemma NarrationStep(w: World, ev: Event)
    requires OfNarration(ev)
    ensures var w' := Next(w, ev);
            && w'.bridge == w.bridge && HandsetOf(w', ev.i) == HandsetOf(w, ev.i)
            && w'.consumed == (w.consumed || ev.ConsumeNarrated?)
            && w'.played == w.played + (if ev.NarrationHeard? then {ev.i} else {})
            && (ev.FetchPending? ==> Fetched(ev.i) in w'.narrations) && (ev.Narrate? ==> Speaking(ev.i) in w'.narrations)
            && (ev.NarrationHeard? ==> Spoken(ev.i) in w'.narrations)
  {
    hide BridgeStep;
  }
}
