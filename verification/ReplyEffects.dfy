/**
 What each step of the acknowledgement brings about when it may: the phase diagram of a
 receipt on the handset, the bridge's records and the frames of both, and the whole way
 of a reply nobody disturbs, from its binding to the last record of it.
 */
module ReplyEffects {
  import opened Durable
  import opened ReplyProtocol
  import opened ReplySafety

  // ------------------------------------------------------------- the handset

  /** In memory and in storage, and nothing else in either. */
  predicate Keeps(h: Handset, entry: Option<HandsetPhase>) {
    h.entry == entry && h.stored == {entry} && !h.unsaved
  }

  /** A save that failed may have reached storage; memory is at `entry`. */
  predicate Failed(h: Handset, h': Handset, entry: Option<HandsetPhase>, tried: Option<HandsetPhase>) {
    h'.entry == entry && h'.stored == h.stored + {tried} && h'.unsaved
  }

  /** A receipt's phases: each event's phase afterwards, once saved, and its frame. */
  lemma PhaseDiagram(h: Handset, i: Installation)
    ensures h.entry == None ==>
              && Keeps(HandsetChange(h, OnAgentEnd(i, false, true)), Some(ReceiptPending))
              && Keeps(HandsetChange(h, OnAgentEnd(i, true, true)), Some(ReceiptPendingSuppressed))
    ensures h.entry == Some(ReceiptPending) ==>
              && Keeps(HandsetChange(h, OnConfirmReceived(i, false, true)), Some(AwaitingPlayback))
              && Keeps(HandsetChange(h, OnConfirmReceived(i, true, true)), Some(PlaybackSuppressed))
              && Keeps(HandsetChange(h, Suppress(i, true)), Some(ReceiptPendingSuppressed))
              && Keeps(HandsetChange(h, OnAgentEnd(i, true, true)), Some(ReceiptPendingSuppressed))
    ensures h.entry == Some(ReceiptPendingSuppressed) ==>
              && Keeps(HandsetChange(h, OnConfirmReceived(i, false, true)), Some(PlaybackSuppressed))
              && Keeps(HandsetChange(h, OnConfirmReceived(i, true, true)), Some(PlaybackSuppressed))
              && (!h.unsaved ==> Keeps(HandsetChange(h, Resume(i, true)), Some(ReceiptPending)))
    ensures h.entry == Some(AwaitingPlayback) ==>
              && Keeps(HandsetChange(h, Heard(i, true)), Some(ReadyToAcknowledge)) && SentBy(h, Heard(i, true)) == {ReplyAck(i)}
              && Keeps(HandsetChange(h, Suppress(i, true)), Some(PlaybackSuppressed))
              && Keeps(HandsetChange(h, OnAgentEnd(i, true, true)), Some(PlaybackSuppressed))
    ensures h.entry == Some(PlaybackSuppressed) && !h.unsaved ==> Keeps(HandsetChange(h, Resume(i, true)), Some(AwaitingPlayback))
    ensures h.entry == Some(ReadyToAcknowledge) ==>
              && Keeps(HandsetChange(h, OnAcknowledged(i, true)), Some(RetirementPending))
              && SentBy(h, OnAcknowledged(i, true)) == {Retire(i)} && SentBy(h, Resend(i)) == {ReplyAck(i)}
    ensures h.entry == Some(RetirementPending) ==>
              && Keeps(HandsetChange(h, OnRetired(i, true)), None)
              && SentBy(h, OnAcknowledged(i, true)) == {Retire(i)} && SentBy(h, Resend(i)) == {Retire(i)}
  {}

  /** What leaves a phase alone: a frame that is not the one it waits for. */
  lemma OtherFramesIgnored(h: Handset, i: Installation, suppressed: bool, ok: bool)
    ensures h.entry.Some? && h.entry.value !in {ReceiptPending, ReceiptPendingSuppressed} ==>
              HandsetChange(h, OnConfirmReceived(i, suppressed, ok)) == h
    ensures h.entry.Some? && (!suppressed || h.entry.value !in {ReceiptPending, AwaitingPlayback}) ==>
              HandsetChange(h, OnAgentEnd(i, suppressed, ok)) == h
    ensures h.entry !in {Some(ReadyToAcknowledge), Some(RetirementPending)} ==>
              HandsetChange(h, OnAcknowledged(i, ok)) == h && SentBy(h, OnAcknowledged(i, ok)) == {}
    ensures h.entry != Some(RetirementPending) ==> HandsetChange(h, OnRetired(i, ok)) == h
    ensures h.entry !in {Some(ReceiptPending), Some(AwaitingPlayback)} ==> HandsetChange(h, Suppress(i, ok)) == h
  {}

  /** A failed save keeps the phase in memory and sends nothing, but a suppression stays. */
  lemma FailedSaves(h: Handset, i: Installation, suppressed: bool)
    ensures h.entry == None ==>
              Failed(h, HandsetChange(h, OnAgentEnd(i, suppressed, false)), None,
                     Some(if suppressed then ReceiptPendingSuppressed else ReceiptPending))
    ensures h.entry == Some(ReceiptPending) ==>
              && Failed(h, HandsetChange(h, Suppress(i, false)), Some(ReceiptPendingSuppressed), Some(ReceiptPendingSuppressed))
              && Failed(h, HandsetChange(h, OnConfirmReceived(i, suppressed, false)), h.entry,
                        Some(if suppressed then PlaybackSuppressed else AwaitingPlayback))
    ensures h.entry == Some(AwaitingPlayback) ==>
              && Failed(h, HandsetChange(h, Heard(i, false)), h.entry, Some(ReadyToAcknowledge)) && SentBy(h, Heard(i, false)) == {}
              && Failed(h, HandsetChange(h, Suppress(i, false)), Some(PlaybackSuppressed), Some(PlaybackSuppressed))
    ensures h.entry == Some(ReadyToAcknowledge) ==>
              && Failed(h, HandsetChange(h, OnAcknowledged(i, false)), h.entry, Some(RetirementPending))
              && SentBy(h, OnAcknowledged(i, false)) == {}
    ensures h.entry == Some(RetirementPending) ==> Failed(h, HandsetChange(h, OnRetired(i, false)), h.entry, None)
  {}

  /** A retry first saves what a failed save left, and then repeats what the phase owes. */
  lemma RetrySends(h: Handset, i: Installation, ok: bool)
    ensures var h', sent := HandsetChange(h, Retry(i, ok)), SentBy(h, Retry(i, ok));
            && h'.entry == h.entry && (h'.unsaved <==> h.unsaved && !ok) && (h.unsaved && ok ==> h'.stored == {h.entry})
            && (h.unsaved && !ok ==> sent == {})
            && (!h.unsaved || ok ==> sent == match h.entry
                  case Some(ReceiptPending) => {ReplyReceived(i)}
                  case Some(ReceiptPendingSuppressed) => {ReplyReceived(i)}
                  case Some(ReadyToAcknowledge) => {ReplyAck(i)}
                  case Some(RetirementPending) => {Retire(i)}
                  case _ => {})
  {}

  /** A confirmed removal that is saved takes a retiring receipt out of memory and storage,
      and one that is not saved leaves it to be confirmed again. */
  lemma RetiredIsErased(w: World, i: Installation, ok: bool)
    requires Retired(i) in w.frames && HandsetOf(w, i).entry == Some(RetirementPending)
    ensures Enabled(w, OnRetired(i, ok))
    ensures var h' := HandsetOf(Next(w, OnRetired(i, ok)), i);
            if ok then h' == Handset(None, {None}, false)
            else h'.entry == Some(RetirementPending) && Enabled(Next(w, OnRetired(i, ok)), OnRetired(i, true))
  {}

  // -------------------------------------------------------------- the bridge

  /** Only this cell, in memory and in every value of the file. */
  predicate Stored(b: Bridge, cell: Cell) {
    b.mem == cell && b.file.visible == cell && b.file.durable == {cell} && !b.latched
  }

  /** A step of the bridge leaves the handsets and what was heard alone. */
  lemma BridgeNext(w: World, ev: Event)
    requires !OfHandset(ev)
    ensures var w', b := Next(w, ev), BridgeStep(w, ev);
            && w'.bridge == b.bridge && w'.frames == b.frames && w'.consumed == b.consumed
            && w'.handsets == b.handsets && w'.played == b.played
  {
    hide BridgeStep;
  }

  /** A new reply: its binding is saved, then the reply is sent. */
  lemma PrepareBinds(w: World, i: Installation)
    requires Enabled(w, Prepare(i, Written)) && w.bridge.mem == Absent && !w.bridge.latched
    ensures var w' := Next(w, Prepare(i, Written));
            && Stored(w'.bridge, Live(i, Prepared)) && AgentEnd(i) in w'.frames
            && w'.bridge.sockets == w.bridge.sockets[i := Some(Live(i, Prepared))]
            && w'.handsets == w.handsets && w'.consumed == w.consumed && w'.played == w.played && w'.bridge.tasks == w.bridge.tasks
  {
    BridgeNext(w, Prepare(i, Written));
    hide Next, HandsetStep, TransferStep, ReplayStep, ReceivedStep, AckStep, ConsumeStep, FinishStep,
         RetireStep, SweepStep, SaveOtherStep, RelaunchStep;
  }

  /** A binding that is not saved is not sent, and neither is a second one. */
  lemma PrepareRefuses(w: World, i: Installation, o: Outcome)
    requires Enabled(w, Prepare(i, o)) && (w.bridge.mem != Absent || w.bridge.latched || o != Written)
    ensures var w' := Next(w, Prepare(i, o));
            w'.frames == w.frames && w'.bridge.mem == w.bridge.mem && w'.bridge.sockets == w.bridge.sockets
  {
    BridgeNext(w, Prepare(i, o));
    hide Next, HandsetStep, TransferStep, ReplayStep, ReceivedStep, AckStep, ConsumeStep, FinishStep, RetireStep, SweepStep,
         SaveOtherStep, RelaunchStep;
  }

  /** A hello replays the reply to the installation its prepared binding belongs to, and
      leaves a binding alone whose owner is someone else and present, or not abandoned. */
  lemma HelloReplays(w: World, i: Installation, abandoned: bool, o: Outcome)
    requires Enabled(w, Hello(i, abandoned, false, o)) && w.bridge.mem.Live?
    requires w.bridge.mem.owner == i || w.bridge.mem.phase == Consumed || w.bridge.mem.owner in w.bridge.sockets || !abandoned
    ensures var w', mine := Next(w, Hello(i, abandoned, false, o)), w.bridge.mem == Live(i, Prepared);
            && w'.frames == w.frames + (if mine then {AgentEnd(i)} else {})
            && w'.bridge == w.bridge.(sockets := w.bridge.sockets[i := if mine then Some(w.bridge.mem) else None])
  {
    BridgeNext(w, Hello(i, abandoned, false, o));
    hide Next, HandsetStep, PrepareStep, ReceivedStep, AckStep, ConsumeStep, FinishStep, RetireStep, SweepStep, SaveOtherStep,
         RelaunchStep, Save;
  }

  /** A hello moves an unconsumed binding whose absent owner abandoned it, once that is saved,
      and replays the reply to its new owner. */
  lemma HelloMoves(w: World, i: Installation, o: Outcome)
    requires Enabled(w, Hello(i, true, false, o)) && !w.bridge.latched && w.bridge.mem.Live? && w.bridge.mem.phase != Consumed
    requires w.bridge.mem.owner != i && w.bridge.mem.owner !in w.bridge.sockets
    ensures var w' := Next(w, Hello(i, true, false, o));
            if o == Written then
              && Stored(w'.bridge, Live(i, Prepared)) && w'.frames == w.frames + {AgentEnd(i)}
              && w'.bridge.sockets == w.bridge.sockets[i := Some(Live(i, Prepared))]
            else w'.bridge.mem == w.bridge.mem && w'.frames == w.frames
  {
    BridgeNext(w, Hello(i, true, false, o));
    hide Next, HandsetStep, PrepareStep, ReceivedStep, AckStep, ConsumeStep, FinishStep, RetireStep, SweepStep, SaveOtherStep,
         RelaunchStep;
  }

  /** The socket of `i` remembers this binding, or remembers none and it is the shared one. */
  predicate Acts(b: Bridge, i: Installation, phase: Phase) {
    if i in b.sockets && b.sockets[i].Some? then b.sockets[i].value == Live(i, phase) else b.mem == Live(i, phase)
  }

  lemma ActsIsOwned(b: Bridge, i: Installation, phase: Phase)
    requires Acts(b, i, phase)
    ensures Owned(b, i) == Live(i, phase)
  {}

  /** The proof of a receipt is saved, and then confirmed. */
  lemma ReceiptIsConfirmed(w: World, i: Installation, o: Outcome)
    requires Enabled(w, OnReplyReceived(i, o)) && Acts(w.bridge, i, Prepared)
    ensures var w' := Next(w, OnReplyReceived(i, o));
            if !w.bridge.latched && o == Written then
              && Stored(w'.bridge, Live(i, Received)) && w'.frames == w.frames + {ConfirmReceived(i)}
              && w'.bridge.sockets == w.bridge.sockets[i := Some(Live(i, Received))] && w'.bridge.tasks == w.bridge.tasks
            else w'.bridge.mem == w.bridge.mem && w'.frames == w.frames
  {
    BridgeNext(w, OnReplyReceived(i, o));
    ActsIsOwned(w.bridge, i, Prepared);
    hide Next, HandsetStep, BridgeStep, Owned, Acts;
    assert BridgeStep(w, OnReplyReceived(i, o)) == ReceivedStep(w, i, o) by { ReceivedIs(w, i, o); }
  }

  lemma ReceivedIs(w: World, i: Installation, o: Outcome)
    ensures BridgeStep(w, OnReplyReceived(i, o)) == ReceivedStep(w, i, o)
  {}

  /** A receipt whose proof is known is confirmed again, and one without a binding ignored. */
  lemma ReceiptIsKnown(w: World, i: Installation, o: Outcome)
    requires Enabled(w, OnReplyReceived(i, o)) && !Acts(w.bridge, i, Prepared)
    ensures var w' := Next(w, OnReplyReceived(i, o));
            && w'.bridge == w.bridge
            && w'.frames == w.frames + if Acts(w.bridge, i, Received) || Acts(w.bridge, i, Consumed) then {ConfirmReceived(i)} else {}
  {
    BridgeNext(w, OnReplyReceived(i, o));
    ReceivedIs(w, i, o);
    hide Next, HandsetStep, BridgeStep;
  }

  lemma AckIs(w: World, i: Installation)
    ensures BridgeStep(w, OnReplyAck(i)) == AckStep(w, i)
  {}

  /** An acknowledgement asks telepathosd to consume, once the receipt is proved. */
  lemma AckAsks(w: World, i: Installation)
    requires Enabled(w, OnReplyAck(i)) && (Acts(w.bridge, i, Prepared) || Acts(w.bridge, i, Received))
    ensures var w' := Next(w, OnReplyAck(i));
            && w'.frames == w.frames
            && w'.bridge == if Acts(w.bridge, i, Received) && !w.bridge.latched
                            then w.bridge.(tasks := w.bridge.tasks + {Task(Live(i, Received), false)}) else w.bridge
  {
    BridgeNext(w, OnReplyAck(i));
    AckIs(w, i);
    ActsIsOwned(w.bridge, i, if Acts(w.bridge, i, Received) then Received else Prepared);
    hide Next, HandsetStep, BridgeStep, Owned;
  }

  /** A reply that is already consumed is acknowledged again, any other frame ignored. */
  lemma AckAgain(w: World, i: Installation)
    requires Enabled(w, OnReplyAck(i)) && !Acts(w.bridge, i, Prepared) && !Acts(w.bridge, i, Received)
    ensures var w' := Next(w, OnReplyAck(i));
            && w'.bridge == w.bridge
            && (Acts(w.bridge, i, Consumed) ==> w'.frames == w.frames + {Acknowledged(i)})
            && (w.bridge.mem == Tomb(i) && (i in w.bridge.sockets ==> w.bridge.sockets[i] == None) ==>
                  w'.frames == w.frames + {Acknowledged(i)})
            && w'.frames <= w.frames + {Acknowledged(i)}
  {
    BridgeNext(w, OnReplyAck(i));
    AckIs(w, i);
    hide Next, HandsetStep, BridgeStep;
  }

  lemma ConsumeAnswers(w: World, task: Task)
    requires Enabled(w, Consume(task, true))
    ensures var w' := Next(w, Consume(task, true));
            && w'.consumed && w'.bridge.tasks == w.bridge.tasks - {task} + {Task(task.binding, true)}
            && w'.bridge.mem == w.bridge.mem && w'.bridge.file == w.bridge.file && w'.frames == w.frames
            && w'.bridge.latched == w.bridge.latched
  {
    BridgeNext(w, Consume(task, true));
    hide Next, HandsetStep, PrepareStep, TransferStep, ReplayStep, ReceivedStep, AckStep, FinishStep,
         RetireStep, SweepStep, SaveOtherStep, RelaunchStep;
  }

  /** The answer to the binding it started from: consumption is saved, and then acknowledged. */
  lemma FinishAcknowledges(w: World, i: Installation, forget: bool)
    requires Enabled(w, FinishAck(Task(Live(i, Received), true), true, Written, forget))
    requires w.bridge.mem == Live(i, Received) && !w.bridge.latched
    ensures var w' := Next(w, FinishAck(Task(Live(i, Received), true), true, Written, forget));
            && Stored(w'.bridge, Live(i, Consumed)) && Acknowledged(i) in w'.frames
            && w'.bridge.tasks == w.bridge.tasks - {Task(Live(i, Received), true)}
  {
    BridgeNext(w, FinishAck(Task(Live(i, Received), true), true, Written, forget));
    hide Next, HandsetStep, PrepareStep, TransferStep, ReplayStep, ReceivedStep, AckStep, ConsumeStep,
         RetireStep, SweepStep, SaveOtherStep, RelaunchStep;
  }

  /** An answer whose binding was replaced meanwhile, or whose save did not succeed, is not
      acknowledged, and the request is over. */
  lemma FinishRefuses(w: World, task: Task, same: bool, o: Outcome, forget: bool)
    requires Enabled(w, FinishAck(task, same, o, forget))
    requires !same || w.bridge.mem != task.binding || w.bridge.latched || o != Written
    ensures var w' := Next(w, FinishAck(task, same, o, forget));
            && w'.frames == w.frames && w'.bridge.mem == w.bridge.mem && w'.bridge.tasks == w.bridge.tasks - {task}
            && (!same || w.bridge.mem != task.binding ==> w'.bridge.file == w.bridge.file)
  {
    BridgeNext(w, FinishAck(task, same, o, forget));
    hide Next, HandsetStep, PrepareStep, TransferStep, ReplayStep, ReceivedStep, AckStep, ConsumeStep, RetireStep, SweepStep,
         SaveOtherStep, RelaunchStep;
  }

  /** A requested removal of a consumed reply is saved, and then confirmed; a record that is
      gone is confirmed at once, another owner's or an unconsumed one never. */
  lemma RetireRemoves(w: World, i: Installation, o: Outcome)
    requires Enabled(w, OnRetire(i, o))
    ensures var w' := Next(w, OnRetire(i, o));
            && (w.bridge.mem in {Live(i, Consumed), Tomb(i)} && !w.bridge.latched && o == Written ==>
                  Stored(w'.bridge, Absent) && Retired(i) in w'.frames)
            && (w.bridge.mem == Absent ==> Retired(i) in w'.frames && w'.bridge == w.bridge)
            && (w.bridge.mem !in {Absent, Live(i, Consumed), Tomb(i)} ==> w'.bridge == w.bridge && w'.frames == w.frames)
            && (w.bridge.mem != Absent && (w.bridge.latched || o != Written) ==> w'.frames == w.frames && w'.bridge.mem == w.bridge.mem)
  {
    BridgeNext(w, OnRetire(i, o));
    hide Next, HandsetStep, PrepareStep, TransferStep, ReplayStep, ReceivedStep, AckStep, ConsumeStep,
         FinishStep, SweepStep, SaveOtherStep, RelaunchStep;
  }

  /** The sweep turns an expired consumed binding of an absent owner into a tombstone, and
      drops an expired tombstone; nothing else. */
  lemma SweepReclaims(w: World, expired: bool)
    requires !w.bridge.latched
    ensures var w', mem := Next(w, ReplyProtocol.Event.Sweep(expired, Written)), w.bridge.mem;
            && (expired && mem.Live? && mem.phase == Consumed && mem.owner !in w.bridge.sockets ==> Stored(w'.bridge, Tomb(mem.owner)))
            && (expired && mem.Tomb? ==> Stored(w'.bridge, Absent))
            && (!expired || mem == Absent || (mem.Live? && (mem.phase != Consumed || mem.owner in w.bridge.sockets)) ==>
                  w'.bridge == w.bridge)
            && w'.frames == w.frames
  {
    BridgeNext(w, ReplyProtocol.Event.Sweep(expired, Written));
    hide Next, HandsetStep, PrepareStep, TransferStep, ReplayStep, ReceivedStep, AckStep, ConsumeStep,
         FinishStep, RetireStep, SaveOtherStep, RelaunchStep;
  }
}
