/**
 The service's receipt store: one list in memory, one snapshot in shared
 preferences, and the fence of receipts a user superseded. A commit that reports
 failure may still have reached storage, so `stored` keeps every snapshot a
 restart may read.
 */
module ReceiptStore {
  import opened Durable
  import opened ReplyProtocol
  import opened HandsetReceipts

  /** The protocol's view of one receipt in the store. */
  ghost function View(pending: seq<Receipt>, stored: set<seq<Receipt>>, failed: bool, a: Ack): (h: Handset)
    ensures h.entry == PhaseIn(pending, a) && h.unsaved == failed
  {
    Handset(PhaseIn(pending, a), set l | l in stored :: PhaseIn(l, a), failed)
  }

  /** One commit of `snapshot`, with memory at `pending` afterwards, seen from one receipt. */
  lemma CommitView(was: seq<Receipt>, stored: set<seq<Receipt>>, failed: bool, snapshot: seq<Receipt>,
                   ok: bool, keep: bool, a: Ack)
    ensures View(if ok || keep then snapshot else was, if ok then {snapshot} else stored + {snapshot}, !ok, a)
         == Store(View(was, stored, failed, a), PhaseIn(snapshot, a), ok, keep)
  {}

  /** The receipt was not concerned: untouched, or saved again along with the others. */
  predicate SameOrSaved(was: Handset, now: Handset, ok: bool) {
    now == was || now == HandsetChange(was, HandsetSave("", ok))
  }

  /** A fenced receipt is left suppressed or was past playback; no other receipt changed. */
  predicate Superseded(was: Handset, now: Handset, active: bool, ok: bool) {
    if active then
      && (now == HandsetChange(was, Suppress("", ok)) || SameOrSaved(was, now, ok))
      && (now.entry.Some? ==> SuppressedPhase(now.entry.value) == now.entry.value)
    else SameOrSaved(was, now, ok)
  }

  function AfterFence(entry: Option<HandsetPhase>, active: bool): Option<HandsetPhase> {
    if active && entry.Some? then Some(SuppressedPhase(entry.value)) else entry
  }

  lemma FencedByStore(h: Handset, active: bool, ok: bool)
    ensures Superseded(h, Store(h, AfterFence(h.entry, active), ok, true), active, ok)
    ensures AfterFence(h.entry, active) == h.entry ==> Superseded(h, h, active, ok)
  {}

  lemma AfterFenceIs(entry: Option<HandsetPhase>)
    ensures AfterFence(entry, true) == match entry
              case Some(ReceiptPending) => Some(ReceiptPendingSuppressed)
              case Some(AwaitingPlayback) => Some(PlaybackSuppressed)
              case other => other
  {}

  lemma NothingFenced(entry: Option<HandsetPhase>)
    ensures AfterFence(entry, false) == entry
  {}

  lemma AfterSuppress(pending: seq<Receipt>, active: set<Ack>, a: Ack)
    ensures TextIn(SuppressPlayback(pending, active), a) == TextIn(pending, a)
    ensures PhaseIn(SuppressPlayback(pending, active), a) == AfterFence(PhaseIn(pending, a), a in active)
  {}

  class Receipts {
    var pending: seq<Receipt>
    var stored: set<seq<Receipt>>
    var failed: bool
    var fenced: set<Ack>

    ghost predicate Valid()
      reads this
    {
      pending in stored && (!failed ==> stored == {pending})
    }

    ghost function Of(a: Ack): Handset
      reads this
    {
      View(pending, stored, failed, a)
    }

    /** A started service has read the snapshot its process found. */
    constructor (snapshot: seq<Receipt>)
      ensures Valid() && fresh(this) && pending == snapshot && fenced == {}
      ensures forall a :: Of(a) == Handset(PhaseIn(snapshot, a), {PhaseIn(snapshot, a)}, false)
    {
      pending, stored, failed, fenced := snapshot, {snapshot}, false, {};
    }

    /** Commit the list in memory. */
    method Persist(ok: bool)
      modifies this`stored, this`failed
      ensures stored == (if ok then {pending} else old(stored) + {pending}) && failed == !ok
      ensures forall a :: Of(a) == Store(old(Of(a)), old(Of(a)).entry, ok, true)
      ensures Valid()
    {
      ghost var was, from, bad := pending, stored, failed;
      stored := if ok then {pending} else stored + {pending};
      failed := !ok;
      forall a ensures Of(a) == Store(View(was, from, bad, a), PhaseIn(was, a), ok, true) {
        CommitView(was, from, bad, was, ok, true, a);
      }
    }

    /** Install and commit a new list; unless `keep`, a failed commit restores the old one. */
    method Replace(updated: seq<Receipt>, ok: bool, keep: bool)
      requires Valid()
      modifies this`pending, this`stored, this`failed
      ensures Valid()
      ensures pending == if ok || keep then updated else old(pending)
      ensures forall a :: Of(a) == Store(old(Of(a)), PhaseIn(updated, a), ok, keep)
    {
      ghost var from, bad := stored, failed;
      var previous := pending;
      pending := updated;
      stored := if ok then {pending} else stored + {pending};
      failed := !ok;
      if !ok && !keep { pending := previous; }
      forall a ensures Of(a) == Store(View(previous, from, bad, a), PhaseIn(updated, a), ok, keep) {
        CommitView(previous, from, bad, updated, ok, keep, a);
      }
    }

    /** Reserve a receipt for an arriving reply; false means the reply must not be spoken. */
    method Reserve(ack: Ack, reply: string, superseded: bool, ok: bool) returns (accepted: bool)
      requires Valid()
      modifies this
      ensures Valid()
      ensures accepted ==> TextIn(pending, ack) == Some(reply)
      ensures old(TextIn(pending, ack)).Some? ==> (accepted <==> old(TextIn(pending, ack)) == Some(reply))
      ensures old(TextIn(pending, ack)) == None ==> (accepted <==> ok && |old(pending)| < MAX_STORED_REPLY_ACKS)
      ensures forall a :: a != ack ==> TextIn(pending, a) == old(TextIn(pending, a))
      ensures fenced == old(fenced) || fenced == old(fenced) + {ack}
      ensures old(TextIn(pending, ack)) == None && accepted ==>
                && PhaseIn(pending, ack) == Some(if superseded || ack in old(fenced) then ReceiptPendingSuppressed else ReceiptPending)
                && stored == {pending} && |pending| == old(|pending|) + 1
      // The receipt itself follows the protocol; every other one is only saved again, or untouched.
      ensures Of(ack) == old(Of(ack))
           || Of(ack) == HandsetChange(old(Of(ack)), OnAgentEnd("", superseded || ack in old(fenced), ok))
      ensures accepted ==> Of(ack) == HandsetChange(old(Of(ack)), OnAgentEnd("", superseded || ack in old(fenced), ok))
      ensures forall a :: a != ack ==> SameOrSaved(old(Of(a)), Of(a), ok)
    {
      hide View, PhaseIn, TextIn, WithPhase, Without, SuppressPlayback, ResumeSuppressedPlayback;
      TextWhenPresent(pending, ack);
      var suppressed := superseded || ack in fenced;
      var phase := PhaseIn(pending, ack);
      if phase.Some? {
        if TextIn(pending, ack) != Some(reply) { return false; }
        if suppressed && (phase.value == ReceiptPending || phase.value == AwaitingPlayback) {
          fenced := fenced + {ack};
          forall a ensures PhaseIn(SuppressPlayback(pending, {ack}), a)
                        == if a == ack then Some(SuppressedPhase(phase.value)) else PhaseIn(pending, a)
                   ensures TextIn(SuppressPlayback(pending, {ack}), a) == TextIn(pending, a) {
            PhaseAfterSuppress(pending, {ack}, a);
          }
          Replace(SuppressPlayback(pending, {ack}), ok, false);
        }
        return true;
      }
      if |pending| >= MAX_STORED_REPLY_ACKS { return false; }
      if suppressed { fenced := fenced + {ack}; }
      var e := Receipt(ack, reply, if suppressed then ReceiptPendingSuppressed else ReceiptPending);
      forall a ensures PhaseIn(pending + [e], a) == if a == ack then Some(e.phase) else PhaseIn(pending, a)
               ensures TextIn(pending + [e], a) == if a == ack then Some(reply) else TextIn(pending, a) {
        PhaseAfterAppend(pending, e, a);
      }
      Replace(pending + [e], ok, false);
      return ok;
    }

    /** The bridge proved it recorded the receipt; `play` says whether playback may start. */
    method BeginConfirmedPlayback(ack: Ack, cancelled: bool, ok: bool) returns (play: bool)
      requires Valid()
      modifies this`pending, this`stored, this`failed
      ensures Valid()
      ensures play <==> old(PhaseIn(pending, ack)) == Some(ReceiptPending) && ok && !cancelled && ack !in fenced
      ensures old(PhaseIn(pending, ack)) == Some(ReceiptPending) && ok ==>
                PhaseIn(pending, ack) == Some(if ack in fenced then PlaybackSuppressed else AwaitingPlayback) && stored == {pending}
      ensures old(PhaseIn(pending, ack)) == Some(ReceiptPendingSuppressed) && ok ==>
                PhaseIn(pending, ack) == Some(PlaybackSuppressed) && stored == {pending}
      ensures Of(ack) == HandsetChange(old(Of(ack)), OnConfirmReceived("", ack in fenced, ok))
      ensures forall a :: a != ack ==> SameOrSaved(old(Of(a)), Of(a), ok)
      ensures forall a :: TextIn(pending, a) == old(TextIn(pending, a))
    {
      hide View, PhaseIn, TextIn, WithPhase, Without, SuppressPlayback, ResumeSuppressedPlayback;
      var updated := ConfirmReceipt(pending, ack, ack in fenced);
      if updated == None { return false; }
      forall a ensures TextIn(updated.value, a) == TextIn(pending, a)
               ensures a != ack ==> PhaseIn(updated.value, a) == PhaseIn(pending, a)
               ensures a == ack ==> PhaseIn(updated.value, a) == ConfirmedPhase(PhaseIn(pending, ack).value, ack in fenced) {
        PhaseAfterWithPhase(pending, ack, ConfirmedPhase(PhaseIn(pending, ack).value, ack in fenced).value, a);
      }
      Replace(updated.value, ok, false);
      return ok && PhaseIn(updated.value, ack) == Some(AwaitingPlayback) && !cancelled;
    }

    /** The text was heard by the attempt that still owns playback: consumption becomes
        authorised once saved. */
    method CompletePlayback(ack: Ack, ok: bool) returns (sent: set<Frame>)
      requires Valid()
      modifies this`pending, this`stored, this`failed
      ensures Valid()
      ensures old(PhaseIn(pending, ack)) == Some(AwaitingPlayback) ==>
                Of(ack) == HandsetChange(old(Of(ack)), Heard("", ok)) && sent == SentBy(old(Of(ack)), Heard("", ok))
      ensures old(PhaseIn(pending, ack)) != Some(AwaitingPlayback) ==>
                Of(ack) == old(Of(ack)) && sent == SentBy(Of(ack), Resend(""))
      ensures old(PhaseIn(pending, ack)) == Some(AwaitingPlayback) && ok ==>
                PhaseIn(pending, ack) == Some(ReadyToAcknowledge) && stored == {pending}
      ensures sent == (match old(PhaseIn(pending, ack))
                       case Some(AwaitingPlayback) => if ok then {ReplyAck("")} else {}
                       case Some(ReadyToAcknowledge) => {ReplyAck("")}
                       case Some(RetirementPending) => {Retire("")}
                       case _ => {})
      ensures forall a :: a != ack ==> SameOrSaved(old(Of(a)), Of(a), ok)
      ensures forall a :: TextIn(pending, a) == old(TextIn(pending, a))
    {
      hide View, PhaseIn, TextIn, WithPhase, Without, SuppressPlayback, ResumeSuppressedPlayback;
      if PhaseIn(pending, ack) == Some(RetirementPending) { return {Retire("")}; }
      if PhaseIn(pending, ack) == Some(ReadyToAcknowledge) { return {ReplyAck("")}; }
      var updated := MarkPlaybackHeard(pending, ack);
      if updated == None { return {}; }
      forall a ensures TextIn(updated.value, a) == TextIn(pending, a)
               ensures PhaseIn(updated.value, a) == if a == ack then Some(ReadyToAcknowledge) else PhaseIn(pending, a) {
        PhaseAfterWithPhase(pending, ack, ReadyToAcknowledge, a);
      }
      Replace(updated.value, ok, false);
      return if ok then {ReplyAck("")} else {};
    }

    /** Stop, cancel or a new capture: fence what the replaced turn still owes, and what is playing. */
    method SuppressSuperseded(turnToken: Option<string>, leases: set<Ack>, ok: bool)
      requires Valid()
      modifies this
      ensures Valid()
      ensures fenced == old(fenced) + ActiveAcksForSupersession(old(pending), turnToken, leases)
      // What is fenced: active playback, and what the replaced turn has not played yet.
      ensures forall a :: a in fenced <==> a in old(fenced) || Superseding(old(pending), turnToken, leases, a)
      ensures forall a :: Superseding(old(pending), turnToken, leases, a) ==>
                PhaseIn(pending, a) == match old(PhaseIn(pending, a))
                  case Some(ReceiptPending) => Some(ReceiptPendingSuppressed)
                  case Some(AwaitingPlayback) => Some(PlaybackSuppressed)
                  case other => other
      ensures forall a :: Superseded(old(Of(a)), Of(a), a in ActiveAcksForSupersession(old(pending), turnToken, leases), ok)
      ensures forall a :: TextIn(pending, a) == old(TextIn(pending, a))
    {
      hide ActiveAcksForSupersession, HandsetChange, Superseded, AfterFence, Store, Superseding;
      hide View, PhaseIn, TextIn, SuppressPlayback;
      var active := ActiveAcksForSupersession(pending, turnToken, leases);
      forall a ensures TextIn(SuppressPlayback(pending, active), a) == TextIn(pending, a)
               ensures PhaseIn(SuppressPlayback(pending, active), a) == AfterFence(PhaseIn(pending, a), a in active) {
        AfterSuppress(pending, active, a);
      }
      SupersededAre(pending, turnToken, leases);
      forall a { AfterFenceIs(PhaseIn(pending, a)); }
      forall a ensures Superseded(Of(a), Store(Of(a), AfterFence(Of(a).entry, a in active), ok, true), a in active, ok)
               ensures AfterFence(Of(a).entry, a in active) == Of(a).entry ==> Superseded(Of(a), Of(a), a in active, ok) {
        FencedByStore(Of(a), a in active, ok);
      }
      if active == {} {
        forall a { NothingFenced(Of(a).entry); }
        return;
      }
      fenced := fenced + active;
      var updated := SuppressPlayback(pending, active);
      if updated == pending { return; }
      Replace(updated, ok, true);
    }

    /** A deliberate reconnect lets suppressed receipts play again, once that is saved. */
    method Rearm(ok: bool, okAgain: bool) returns (done: bool)
      requires Valid()
      modifies this
      ensures Valid()
      ensures if done then fenced == {} else fenced == old(fenced)
      ensures done ==> forall a :: Of(a).entry == old(PhaseIn(ResumeSuppressedPlayback(pending), a)) && !Of(a).unsaved
      ensures done <==> (!old(failed) || ok) && (old(ResumeSuppressedPlayback(pending)) == old(pending) || okAgain)
      ensures done ==> forall a :: PhaseIn(pending, a) == match old(PhaseIn(pending, a))
                case Some(ReceiptPendingSuppressed) => Some(ReceiptPending)
                case Some(PlaybackSuppressed) => Some(AwaitingPlayback)
                case other => other
      ensures !done ==> forall a :: Of(a).entry == old(Of(a)).entry && Of(a).unsaved
      ensures forall a :: TextIn(pending, a) == old(TextIn(pending, a))
    {
      hide View, PhaseIn, TextIn, WithPhase, Without, SuppressPlayback, ResumeSuppressedPlayback;
      if failed {
        Persist(ok);
        if failed { return false; }
      }
      var updated := ResumeSuppressedPlayback(pending);
      forall a ensures TextIn(updated, a) == TextIn(pending, a)
               ensures PhaseIn(updated, a) == if PhaseIn(pending, a).Some? then Some(ResumedPhase(PhaseIn(pending, a).value)) else None {
        PhaseAfterResume(pending, a);
      }
      if updated != pending {
        Replace(updated, okAgain, false);
        if !okAgain { return false; }
      }
      fenced := {};
      return true;
    }

    /** The bridge acknowledged: retirement is durable before it is requested. */
    method BeginRetirementOf(ack: Ack, ok: bool) returns (sent: set<Frame>)
      requires Valid()
      modifies this`pending, this`stored, this`failed
      ensures Valid()
      ensures Of(ack) == HandsetChange(old(Of(ack)), OnAcknowledged("", ok))
      ensures sent == SentBy(old(Of(ack)), OnAcknowledged("", ok))
      ensures old(PhaseIn(pending, ack)) in {Some(ReadyToAcknowledge), Some(RetirementPending)} && ok ==>
                PhaseIn(pending, ack) == Some(RetirementPending) && stored == {pending} && sent == {Retire("")}
      ensures forall a :: a != ack ==> SameOrSaved(old(Of(a)), Of(a), ok)
      ensures forall a :: TextIn(pending, a) == old(TextIn(pending, a))
    {
      hide View, PhaseIn, TextIn, WithPhase, Without, SuppressPlayback, ResumeSuppressedPlayback;
      var updated := BeginRetirement(pending, ack);
      if updated == None { return {}; }
      forall a ensures TextIn(updated.value, a) == TextIn(pending, a)
               ensures PhaseIn(updated.value, a) == if a == ack then Some(RetirementPending) else PhaseIn(pending, a) {
        PhaseAfterWithPhase(pending, ack, RetirementPending, a);
      }
      Replace(updated.value, ok, false);
      return if ok then {Retire("")} else {};
    }

    /** Only the bridge's terminal confirmation erases a receipt, and only a retiring one. */
    method RemoveRetired(ack: Ack, ok: bool)
      requires Valid()
      modifies this`pending, this`stored, this`failed
      ensures Valid()
      ensures Of(ack) == HandsetChange(old(Of(ack)), OnRetired("", ok))
      ensures forall a :: a != ack ==> SameOrSaved(old(Of(a)), Of(a), ok)
      ensures forall a :: a != ack ==> TextIn(pending, a) == old(TextIn(pending, a))
      ensures old(PhaseIn(pending, ack)) != Some(RetirementPending) || !ok ==> pending == old(pending)
      // A retiring receipt whose removal is saved is gone, from memory and from storage.
      ensures old(PhaseIn(pending, ack)) == Some(RetirementPending) && ok ==>
                PhaseIn(pending, ack) == None && stored == {pending} && !failed && LeftOut(old(pending), ack, pending)
    {
      hide View, PhaseIn, TextIn, WithPhase, Without, SuppressPlayback, ResumeSuppressedPlayback;
      var updated := CompleteRetirement(pending, ack);
      if updated == None { return; }
      forall a ensures PhaseIn(updated.value, a) == if a == ack then None else PhaseIn(pending, a)
               ensures a != ack ==> TextIn(updated.value, a) == TextIn(pending, a) {
        PhaseAfterWithout(pending, ack, a);
      }
      WithoutLeavesOut(pending, ack);
      hide LeftOut;
      Replace(updated.value, ok, false);
    }

    /** A live connection repeats what each receipt's phase owes, from a saved list only. */
    method Retry(ok: bool) returns (sent: map<Ack, set<Frame>>)
      requires Valid()
      modifies this`stored, this`failed
      ensures Valid()
      ensures forall a :: Of(a) == HandsetChange(old(Of(a)), ReplyProtocol.Retry("", ok))
      ensures forall a :: (if a in sent then sent[a] else {}) == SentBy(old(Of(a)), ReplyProtocol.Retry("", ok))
      ensures failed <==> old(failed) && !ok
      ensures forall a :: (if a in sent then sent[a] else {}) ==
                if failed then {} else match PhaseIn(pending, a)
                  case Some(ReceiptPending) => {ReplyReceived("")}
                  case Some(ReceiptPendingSuppressed) => {ReplyReceived("")}
                  case Some(ReadyToAcknowledge) => {ReplyAck("")}
                  case Some(RetirementPending) => {ReplyProtocol.Retire("")}
                  case _ => {}
    {
      hide View, PhaseIn, TextIn, WithPhase, Without, SuppressPlayback, ResumeSuppressedPlayback;
      if failed {
        Persist(ok);
        if failed { return map[]; }
      }
      forall e | e in pending ensures PhaseIn(pending, e.ack).Some? { PresentInList(pending, e); }
      forall a | PhaseIn(pending, a).Some? ensures exists e :: e in pending && e.ack == a { ListedIfPresent(pending, a); }
      sent := map e | e in pending :: e.ack := RetryFrame("", PhaseIn(pending, e.ack).value);
    }
  }
}
