/**
 The handset's list of durable reply receipts: the pure functions that change it, and
 what each of them does to every single receipt in the list.
 */
module HandsetReceipts {
  import opened Durable
  import opened ReplyProtocol

  datatype Ack = Ack(laneId: string, replyTo: string, afterSeq: nat, throughSeq: nat,
                     turnToken: string, interactionId: string)

  datatype Receipt = Receipt(ack: Ack, text: string, phase: HandsetPhase)

  const MAX_STORED_REPLY_ACKS := 65

  // ------------------------------------------------- the pure list functions

  function PhaseIn(entries: seq<Receipt>, ack: Ack): Option<HandsetPhase> {
    if entries == [] then None
    else if entries[0].ack == ack then Some(entries[0].phase)
    else PhaseIn(entries[1..], ack)
  }

  function TextIn(entries: seq<Receipt>, ack: Ack): Option<string> {
    if entries == [] then None
    else if entries[0].ack == ack then Some(entries[0].text)
    else TextIn(entries[1..], ack)
  }

  function WithPhase(entries: seq<Receipt>, ack: Ack, phase: HandsetPhase): seq<Receipt> {
    if entries == [] then []
    else [if entries[0].ack == ack then entries[0].(phase := phase) else entries[0]]
         + WithPhase(entries[1..], ack, phase)
  }

  function Without(entries: seq<Receipt>, ack: Ack): seq<Receipt> {
    if entries == [] then []
    else (if entries[0].ack == ack then [] else [entries[0]]) + Without(entries[1..], ack)
  }

  function MarkPlaybackHeard(entries: seq<Receipt>, ack: Ack): Option<seq<Receipt>> {
    if PhaseIn(entries, ack) == Some(AwaitingPlayback) then Some(WithPhase(entries, ack, ReadyToAcknowledge))
    else None
  }

  function ConfirmReceipt(entries: seq<Receipt>, ack: Ack, suppressed: bool): Option<seq<Receipt>> {
    match PhaseIn(entries, ack)
    case None => None
    case Some(phase) =>
      match ConfirmedPhase(phase, suppressed)
      case None => None
      case Some(next) => Some(WithPhase(entries, ack, next))
  }

  function SuppressPlayback(entries: seq<Receipt>, active: set<Ack>): seq<Receipt> {
    if entries == [] then []
    else [if entries[0].ack in active then entries[0].(phase := SuppressedPhase(entries[0].phase)) else entries[0]]
         + SuppressPlayback(entries[1..], active)
  }

  function ResumeSuppressedPlayback(entries: seq<Receipt>): seq<Receipt> {
    if entries == [] then []
    else [entries[0].(phase := ResumedPhase(entries[0].phase))] + ResumeSuppressedPlayback(entries[1..])
  }

  function BeginRetirement(entries: seq<Receipt>, ack: Ack): Option<seq<Receipt>> {
    match PhaseIn(entries, ack)
    case Some(ReadyToAcknowledge) => Some(WithPhase(entries, ack, RetirementPending))
    case Some(RetirementPending) => Some(entries)
    case _ => None
  }

  function CompleteRetirement(entries: seq<Receipt>, ack: Ack): Option<seq<Receipt>> {
    if PhaseIn(entries, ack) == Some(RetirementPending) then Some(Without(entries, ack)) else None
  }

  function ActiveAcksForSupersession(entries: seq<Receipt>, turnToken: Option<string>, leases: set<Ack>): set<Ack> {
    leases + set e | e in entries && turnToken == Some(e.ack.turnToken)
                     && e.phase in {ReceiptPending, ReceiptPendingSuppressed, AwaitingPlayback} :: e.ack
  }

  /** Active playback, and what the replaced turn was sent and has not played. */
  predicate Superseding(entries: seq<Receipt>, turnToken: Option<string>, leases: set<Ack>, a: Ack) {
    || a in leases
    || (turnToken == Some(a.turnToken)
        && exists e :: e in entries && e.ack == a && e.phase in {ReceiptPending, ReceiptPendingSuppressed, AwaitingPlayback})
  }

  lemma SupersededAre(entries: seq<Receipt>, turnToken: Option<string>, leases: set<Ack>)
    ensures forall a :: a in ActiveAcksForSupersession(entries, turnToken, leases) <==> Superseding(entries, turnToken, leases, a)
  {}

  // -------------------------------------------------------- what they do

  lemma {:induction false} PhaseAfterWithPhase(entries: seq<Receipt>, ack: Ack, phase: HandsetPhase, a: Ack)
    ensures PhaseIn(WithPhase(entries, ack, phase), a)
         == if a == ack && PhaseIn(entries, a).Some? then Some(phase) else PhaseIn(entries, a)
    ensures TextIn(WithPhase(entries, ack, phase), a) == TextIn(entries, a)
  {
    if entries != [] {
      PhaseAfterWithPhase(entries[1..], ack, phase, a);
    }
  }

  lemma {:induction false} PhaseAfterWithout(entries: seq<Receipt>, ack: Ack, a: Ack)
    ensures PhaseIn(Without(entries, ack), a) == if a == ack then None else PhaseIn(entries, a)
    ensures TextIn(Without(entries, ack), a) == if a == ack then None else TextIn(entries, a)
  {
    if entries != [] {
      PhaseAfterWithout(entries[1..], ack, a);
      if entries[0].ack == ack {
        assert Without(entries, ack) == Without(entries[1..], ack);
      }
    }
  }

  /** `now` is the list without the receipt: every other one stays, and when it was there
      once, in its place among them. */
  ghost predicate LeftOut(was: seq<Receipt>, ack: Ack, now: seq<Receipt>) {
    && (forall e :: e in now <==> e in was && e.ack != ack)
    && (forall i :: 0 <= i < |was| && was[i].ack == ack && (forall k :: 0 <= k < |was| && k != i ==> was[k].ack != ack) ==>
          now == was[..i] + was[i + 1..])
  }

  lemma {:induction false} WithoutNone(entries: seq<Receipt>, ack: Ack)
    requires forall e :: e in entries ==> e.ack != ack
    ensures Without(entries, ack) == entries
  {
    if entries != [] { WithoutNone(entries[1..], ack); }
  }

  lemma {:induction false} WithoutSplits(a: seq<Receipt>, b: seq<Receipt>, ack: Ack)
    ensures Without(a + b, ack) == Without(a, ack) + Without(b, ack)
  {
    if a == [] {
      assert a + b == b;
    } else {
      assert (a + b)[1..] == a[1..] + b;
      WithoutSplits(a[1..], b, ack);
    }
  }

  lemma {:induction false} WithoutKeepsOthers(entries: seq<Receipt>, ack: Ack)
    ensures forall e :: e in Without(entries, ack) <==> e in entries && e.ack != ack
  {
    if entries != [] { WithoutKeepsOthers(entries[1..], ack); }
  }

  /** Removing a receipt leaves the others as they are. */
  lemma WithoutLeavesOut(entries: seq<Receipt>, ack: Ack)
    ensures LeftOut(entries, ack, Without(entries, ack))
  {
    WithoutKeepsOthers(entries, ack);
    forall i | 0 <= i < |entries| && entries[i].ack == ack && (forall k :: 0 <= k < |entries| && k != i ==> entries[k].ack != ack)
      ensures Without(entries, ack) == entries[..i] + entries[i + 1..] {
      WithoutOne(entries, ack, i);
    }
    hide Without;
  }

  lemma WithoutOne(entries: seq<Receipt>, ack: Ack, i: nat)
    requires i < |entries| && entries[i].ack == ack && forall k :: 0 <= k < |entries| && k != i ==> entries[k].ack != ack
    ensures Without(entries, ack) == entries[..i] + entries[i + 1..]
  {
    var e := [entries[i]];
    assert Without(e, ack) == [] by { assert e[1..] == []; }
    hide Without;
    assert entries == entries[..i] + e + entries[i + 1..];
    WithoutSplits(entries[..i] + e, entries[i + 1..], ack);
    WithoutSplits(entries[..i], e, ack);
    WithoutNone(entries[..i], ack);
    WithoutNone(entries[i + 1..], ack);
    assert entries[..i] + [] == entries[..i];
  }

  lemma {:induction false} PhaseAfterSuppress(entries: seq<Receipt>, active: set<Ack>, a: Ack)
    ensures PhaseIn(SuppressPlayback(entries, active), a)
         == if a in active && PhaseIn(entries, a).Some? then Some(SuppressedPhase(PhaseIn(entries, a).value))
            else PhaseIn(entries, a)
    ensures TextIn(SuppressPlayback(entries, active), a) == TextIn(entries, a)
  {
    if entries != [] {
      PhaseAfterSuppress(entries[1..], active, a);
    }
  }

  lemma {:induction false} PhaseAfterResume(entries: seq<Receipt>, a: Ack)
    ensures PhaseIn(ResumeSuppressedPlayback(entries), a)
         == if PhaseIn(entries, a).Some? then Some(ResumedPhase(PhaseIn(entries, a).value)) else None
    ensures TextIn(ResumeSuppressedPlayback(entries), a) == TextIn(entries, a)
  {
    if entries != [] {
      PhaseAfterResume(entries[1..], a);
    }
  }

  lemma {:induction false} PhaseAfterAppend(entries: seq<Receipt>, e: Receipt, a: Ack)
    ensures PhaseIn(entries + [e], a)
         == if PhaseIn(entries, a) == None && a == e.ack then Some(e.phase) else PhaseIn(entries, a)
    ensures TextIn(entries + [e], a)
         == if PhaseIn(entries, a) == None && a == e.ack then Some(e.text) else TextIn(entries, a)
  {
    if entries != [] {
      PhaseAfterAppend(entries[1..], e, a);
      assert (entries + [e])[1..] == entries[1..] + [e];
    }
  }

  lemma {:induction false} TextWhenPresent(entries: seq<Receipt>, a: Ack)
    ensures TextIn(entries, a).Some? <==> PhaseIn(entries, a).Some?
  {
    if entries != [] { TextWhenPresent(entries[1..], a); }
  }

  lemma {:induction false} PresentInList(entries: seq<Receipt>, e: Receipt)
    requires e in entries
    ensures PhaseIn(entries, e.ack).Some?
  {
    if entries[0].ack != e.ack { PresentInList(entries[1..], e); }
  }

  lemma {:induction false} ListedIfPresent(entries: seq<Receipt>, a: Ack)
    requires PhaseIn(entries, a).Some?
    ensures exists e :: e in entries && e.ack == a
  {
    if entries[0].ack == a {
      assert entries[0] in entries;
    } else {
      ListedIfPresent(entries[1..], a);
      var e :| e in entries[1..] && e.ack == a;
      assert e in entries;
    }
  }

  /** A user's suppression and the bridge's proof may arrive in either order, whether the
      proved receipt is one of the suppressed ones or not. */
  lemma SuppressionCommutesWithProof(entries: seq<Receipt>, ack: Ack, active: set<Ack>, suppressed: bool)
    ensures var first := ConfirmReceipt(SuppressPlayback(entries, active), ack, suppressed);
            var second := ConfirmReceipt(entries, ack, suppressed);
            && (first.Some? <==> second.Some?)
            && (second.Some? ==> first.value == SuppressPlayback(second.value, active))
  {
    PhaseAfterSuppress(entries, active, ack);
    var second := ConfirmReceipt(entries, ack, suppressed);
    if second.Some? {
      var q := ConfirmedPhase(PhaseIn(entries, ack).value, suppressed).value;
      SuppressWithPhase(entries, active, ack, if ack in active then PlaybackSuppressed else q, q);
    }
  }

  lemma {:induction false} SuppressWithPhase(entries: seq<Receipt>, active: set<Ack>, ack: Ack, p: HandsetPhase, q: HandsetPhase)
    requires p == if ack in active then SuppressedPhase(q) else q
    ensures WithPhase(SuppressPlayback(entries, active), ack, p) == SuppressPlayback(WithPhase(entries, ack, q), active)
  {
    if entries != [] {
      SuppressWithPhase(entries[1..], active, ack, p, q);
      var s, t := SuppressPlayback(entries, active), WithPhase(entries, ack, q);
      assert s[1..] == SuppressPlayback(entries[1..], active);
      assert t[1..] == WithPhase(entries[1..], ack, q);
    }
  }

  /** Re-arming after a reconnect undoes a suppression of receipts no user had suppressed before. */
  lemma {:induction false} ResumeUndoesSuppress(entries: seq<Receipt>, active: set<Ack>)
    requires forall e :: e in entries ==> ResumedPhase(e.phase) == e.phase
    ensures ResumeSuppressedPlayback(SuppressPlayback(entries, active)) == entries
  {
    if entries != [] {
      ResumeUndoesSuppress(entries[1..], active);
      assert SuppressPlayback(entries, active)[1..] == SuppressPlayback(entries[1..], active);
      assert entries[0] in entries;
    }
  }

  // ----------------------------------------------------- phases never go back

  function Rank(p: HandsetPhase): nat {
    match p
    case ReceiptPending => 0
    case ReceiptPendingSuppressed => 0
    case AwaitingPlayback => 1
    case PlaybackSuppressed => 1
    case ReadyToAcknowledge => 2
    case RetirementPending => 3
  }

  /** No value a crash may restore lies behind the phase in memory. */
  predicate RanksAbove(h: Handset) {
    h.entry.Some? ==> forall v :: v in h.stored && v.Some? ==> Rank(v.value) >= Rank(h.entry.value)
  }

  /** No event, not even a crash during a failed save, takes a receipt back to an earlier phase. */
  lemma PhaseNeverGoesBack(h: Handset, ev: Event)
    requires RanksAbove(h) && OfHandset(ev) && (ev.HandsetCrash? ==> ev.entry in h.stored)
    requires ev.Heard? ==> h.entry == Some(AwaitingPlayback)
    ensures RanksAbove(HandsetChange(h, ev))
    ensures h.entry.Some? && HandsetChange(h, ev).entry.Some? ==>
              Rank(HandsetChange(h, ev).entry.value) >= Rank(h.entry.value)
  {}
}
