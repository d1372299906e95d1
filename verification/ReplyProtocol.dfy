/**
 The five-phase acknowledgement of one reply: the bridge's durable binding, the
 handsets' durable receipts, and telepathosd's delivery row. One receipt is
 followed through every interleaving; saves that other receipts cause appear as
 `SaveOther` steps, because each file holds all receipts. Frames are only ever
 added to `frames` and may be delivered late, again, or never.
 */
module ReplyProtocol {
  import opened Durable

  type Installation = string

  datatype Phase = Prepared | Received | Consumed

  /** What the bridge stores under the receipt's key. */
  datatype Cell = Absent | Live(owner: Installation, phase: Phase) | Tomb(owner: Installation)

  /** A consume request in flight: the binding it started from, and whether
      telepathosd has answered it. */
  datatype Task = Task(binding: Cell, answered: bool)

  /** `sockets` maps each connected installation to the binding its socket remembers. */
  datatype Bridge = Bridge(mem: Cell, latched: bool, file: File<Cell>, tasks: set<Task>,
                           sockets: map<Installation, Option<Cell>>)

  datatype HandsetPhase = ReceiptPending | ReceiptPendingSuppressed | AwaitingPlayback
                        | PlaybackSuppressed | ReadyToAcknowledge | RetirementPending

  /** One installation's receipt entry: in memory, every value a crash may leave,
      and whether the last save failed. */
  datatype Handset = Handset(entry: Option<HandsetPhase>, stored: set<Option<HandsetPhase>>, unsaved: bool)

  datatype Frame =
    | AgentEnd(to: Installation) | ConfirmReceived(to: Installation)
    | Acknowledged(to: Installation) | Retired(to: Installation)
    | ReplyReceived(from: Installation) | ReplyAck(from: Installation) | Retire(from: Installation)

  /** How far an installation is with reading out the row as a pending one: it fetched the
      row, found no receipt that owns it and is speaking it, or spoke it and owes the
      request that consumes it. Frames may arrive in between. */
  datatype Narration = Fetched(i: Installation) | Speaking(i: Installation) | Spoken(i: Installation)

  /** `asked`, `bound`, `played` and `misled` are history: preparation was attempted,
      the binding was once durable, who heard the text, and whether a bridge process
      ever started from a file that only looked as if the receipt were gone. */
  datatype World = World(bridge: Bridge, handsets: map<Installation, Handset>, consumed: bool, frames: set<Frame>,
                         narrations: set<Narration>, asked: bool, bound: bool, played: set<Installation>, misled: bool)

  const NEW_HANDSET := Handset(None, {None}, false)

  function HandsetOf(w: World, i: Installation): Handset {
    if i in w.handsets then w.handsets[i] else NEW_HANDSET
  }

  // ------------------------------------------------------------- the bridge

  /** Save this receipt's cell; memory follows only a durable save. */
  function Save(b: Bridge, cell: Cell, o: Outcome): (b': Bridge) {
    if b.latched then b
    else
      var b' := b.(file := Replace(b.file, cell, o));
      match o
      case Written => b'.(mem := cell)
      case Unsettled => b'.(latched := true)
      case Untouched => b
  }

  function Saved(b: Bridge, o: Outcome): bool {
    !b.latched && o == Written
  }

  function Remember(b: Bridge, i: Installation, cell: Option<Cell>): Bridge {
    if i in b.sockets then b.(sockets := b.sockets[i := cell]) else b
  }

  /** The binding a frame from `i` may act on: what its socket remembers, else the shared one. */
  function Owned(b: Bridge, i: Installation): Cell {
    if i in b.sockets && b.sockets[i].Some? then
      (if b.sockets[i].value.Live? && b.sockets[i].value.owner == i then b.sockets[i].value else Absent)
    else if b.mem.Live? && b.mem.owner == i then b.mem
    else Absent
  }

  /** What `hello` of `i` makes of the cell: reclaim an expired consumed binding or
      tombstone, move an abandoned unconsumed binding to `i`, else leave it. */
  function Reconciled(b: Bridge, i: Installation, abandoned: bool, expired: bool): Cell {
    match b.mem
    case Absent => Absent
    case Tomb(_) => if expired then Absent else b.mem
    case Live(owner, phase) =>
      if phase == Consumed then (if expired then Tomb(owner) else b.mem)
      else if owner == i || owner in b.sockets || !abandoned then b.mem
      else Live(i, Prepared)
  }

  // ------------------------------------------------------------ the handset

  /** A save that fails may still have reached storage; memory keeps `entry` only
      when the save is reported, unless `stick` says the change must stay. */
  function Store(h: Handset, entry: Option<HandsetPhase>, ok: bool, stick: bool): Handset {
    if ok then Handset(entry, {entry}, false)
    else Handset(if stick then entry else h.entry, h.stored + {entry}, true)
  }

  function SuppressedPhase(p: HandsetPhase): HandsetPhase {
    match p
    case ReceiptPending => ReceiptPendingSuppressed
    case AwaitingPlayback => PlaybackSuppressed
    case _ => p
  }

  function ResumedPhase(p: HandsetPhase): HandsetPhase {
    match p
    case ReceiptPendingSuppressed => ReceiptPending
    case PlaybackSuppressed => AwaitingPlayback
    case _ => p
  }

  /** Bridge proof arrived: the phase it moves a waiting receipt to. */
  function ConfirmedPhase(p: HandsetPhase, suppressed: bool): Option<HandsetPhase> {
    match p
    case ReceiptPending => Some(if suppressed then PlaybackSuppressed else AwaitingPlayback)
    case ReceiptPendingSuppressed => Some(PlaybackSuppressed)
    case _ => None
  }

  function RetryFrame(i: Installation, p: HandsetPhase): set<Frame> {
    match p
    case ReceiptPending => {ReplyReceived(i)}
    case ReceiptPendingSuppressed => {ReplyReceived(i)}
    case ReadyToAcknowledge => {ReplyAck(i)}
    case RetirementPending => {Retire(i)}
    case _ => {}
  }

  // ------------------------------------------------------------------ steps

  datatype Event =
    | Prepare(i: Installation, o: Outcome)
    | Hello(i: Installation, abandoned: bool, expired: bool, o: Outcome)
    | Disconnect(i: Installation)
    | OnReplyReceived(i: Installation, o: Outcome)
    | OnReplyAck(i: Installation)
    | Consume(task: Task, answered: bool)
    | FinishAck(task: Task, same: bool, o: Outcome, forget: bool)
    | OnRetire(i: Installation, o: Outcome)
    | Sweep(expired: bool, o: Outcome)
    | SaveOther(o: Outcome, dropTombstone: bool)
    | BridgePowerLoss(cell: Cell)
    | BridgeRelaunch
    | OnAgentEnd(i: Installation, suppressed: bool, ok: bool)
    | Retry(i: Installation, ok: bool)
    | Resend(i: Installation)
    | OnConfirmReceived(i: Installation, suppressed: bool, ok: bool)
    | Heard(i: Installation, ok: bool)
    | Suppress(i: Installation, ok: bool)
    | Resume(i: Installation, ok: bool)
    | OnAcknowledged(i: Installation, ok: bool)
    | OnRetired(i: Installation, ok: bool)
    | HandsetSave(i: Installation, ok: bool)
    | HandsetCrash(i: Installation, entry: Option<HandsetPhase>)
    | FetchPending(i: Installation)
    | Narrate(i: Installation)
    | NarrationHeard(i: Installation)
    | ConsumeNarrated(i: Installation)

  predicate OfHandset(ev: Event) {
    ev.OnAgentEnd? || ev.Retry? || ev.Resend? || ev.OnConfirmReceived? || ev.Heard? || ev.Suppress? || ev.Resume?
    || ev.OnAcknowledged? || ev.OnRetired? || ev.HandsetSave? || ev.HandsetCrash? || OfNarration(ev)
  }

  predicate OfNarration(ev: Event) {
    ev.FetchPending? || ev.Narrate? || ev.NarrationHeard? || ev.ConsumeNarrated?
  }

  predicate Enabled(w: World, ev: Event) {
    match ev
    case Prepare(i, _) => !w.asked && i in w.bridge.sockets
    case Hello(i, _, _, _) => i !in w.bridge.sockets
    case OnReplyReceived(i, _) => ReplyReceived(i) in w.frames && i in w.bridge.sockets
    case OnReplyAck(i) => ReplyAck(i) in w.frames
    case Consume(task, _) => task in w.bridge.tasks && !task.answered
    case FinishAck(task, _, _, _) => task in w.bridge.tasks && task.answered
    case OnRetire(i, _) => Retire(i) in w.frames && i in w.bridge.sockets
    case BridgePowerLoss(cell) => cell in w.bridge.file.durable
    case OnAgentEnd(i, _, _) => AgentEnd(i) in w.frames
    case OnConfirmReceived(i, _, _) => ConfirmReceived(i) in w.frames
    case OnAcknowledged(i, _) => Acknowledged(i) in w.frames
    case OnRetired(i, _) => Retired(i) in w.frames
    case Heard(i, _) => HandsetOf(w, i).entry == Some(AwaitingPlayback)
    case HandsetCrash(i, entry) => entry in HandsetOf(w, i).stored
    case FetchPending(i) => !w.consumed
    case Narrate(i) => Fetched(i) in w.narrations && HandsetOf(w, i).entry == None
    case NarrationHeard(i) => Speaking(i) in w.narrations
    case ConsumeNarrated(i) => Spoken(i) in w.narrations
    case _ => true
  }

  function WithBridge(w: World, b: Bridge, sent: set<Frame>): World {
    w.(bridge := b, frames := w.frames + sent)
  }

  function WithHandset(w: World, i: Installation, h: Handset, sent: set<Frame>): World {
    w.(handsets := w.handsets[i := h], frames := w.frames + sent)
  }

  /** The complete envelope is durable before it is sent for the first time. */
  function PrepareStep(w: World, i: Installation, o: Outcome): World {
    var b := w.bridge;
    var b' := Save(b, Live(i, Prepared), o);
    if b.mem != Absent then w.(asked := true)
    else if Saved(b, o) then WithBridge(w, Remember(b', i, Some(b'.mem)), {AgentEnd(i)}).(asked := true)
    else w.(bridge := b', asked := true)
  }

  /** A hello first decides ownership and saves it ... */
  function TransferStep(w: World, i: Installation, abandoned: bool, expired: bool, o: Outcome): World {
    var cell := Reconciled(w.bridge, i, abandoned, expired);
    if cell == w.bridge.mem then w else w.(bridge := Save(w.bridge, cell, o))
  }

  /** ... and only then replays what the connecting installation owns. */
  function ReplayStep(w: World, i: Installation): World {
    var b := w.bridge;
    if b.mem == Live(i, Prepared)
    then WithBridge(w, b.(sockets := b.sockets[i := Some(b.mem)]), {AgentEnd(i)})
    else WithBridge(w, b.(sockets := b.sockets[i := None]), {})
  }

  function ReceivedStep(w: World, i: Installation, o: Outcome): World {
    var b := w.bridge;
    match Owned(b, i)
    case Live(_, Prepared) =>
      var b' := Save(b, Live(i, Received), o);
      if Saved(b, o) then WithBridge(w, Remember(b', i, Some(b'.mem)), {ConfirmReceived(i)}) else w.(bridge := b')
    case Live(_, _) => WithBridge(w, b, {ConfirmReceived(i)})
    case _ => w
  }

  /** Only a received binding starts a consume request; a terminal one is confirmed again. */
  function AckStep(w: World, i: Installation): World {
    var b := w.bridge;
    match Owned(b, i)
    case Live(_, Prepared) => w
    case Live(_, Received) => if b.latched then w else w.(bridge := b.(tasks := b.tasks + {Task(Owned(b, i), false)}))
    case Live(_, Consumed) => WithBridge(w, b, {Acknowledged(i)})
    case _ => if b.mem == Tomb(i) then WithBridge(w, b, {Acknowledged(i)}) else w
  }

  /** telepathosd consumes the row; a lost answer leaves the request to be retried. */
  function ConsumeStep(w: World, task: Task, answered: bool): World {
    var b := w.bridge;
    var tasks := if answered then b.tasks - {task} + {task.(answered := true)} else b.tasks;
    w.(consumed := true, bridge := b.(tasks := tasks))
  }

  /** `same` is the identity check on the map entry, which value equality does not imply. */
  function FinishStep(w: World, task: Task, same: bool, o: Outcome, forget: bool): World {
    var b := w.bridge.(tasks := w.bridge.tasks - {task});
    if !same || b.mem != task.binding || !task.binding.Live? then w.(bridge := b)
    else
      var i := task.binding.owner;
      var b' := Save(b, Live(i, Consumed), o);
      if !Saved(b, o) then w.(bridge := b')
      else WithBridge(w, if forget then Remember(b', i, None) else b', {Acknowledged(i)})
  }

  /** The removal is durable before its confirmation; a missing record is confirmed again. */
  function RetireStep(w: World, i: Installation, o: Outcome): World {
    var b := w.bridge;
    var b' := Save(b, Absent, o);
    if b.mem == Absent then WithBridge(w, b, {Retired(i)})
    else if b.mem != Tomb(i) && b.mem != Live(i, Consumed) then w
    else if !Saved(b, o) then w.(bridge := b')
    else WithBridge(w, if b.mem.Live? then Remember(b', i, None) else b', {Retired(i)})
  }

  function SweepStep(w: World, expired: bool, o: Outcome): World {
    var b := w.bridge;
    match b.mem
    case Tomb(_) => if expired then w.(bridge := Save(b, Absent, o)) else w
    case Live(owner, Consumed) =>
      if expired && owner !in b.sockets then w.(bridge := Save(b, Tomb(owner), o)) else w
    case _ => w
  }

  /** Another receipt's save. Called without its own tombstones it empties the map in memory. */
  function SaveOtherStep(w: World, o: Outcome, dropTombstone: bool): World {
    var b := w.bridge;
    var b' := Save(b, b.mem, o);
    w.(bridge := if Saved(b, o) && dropTombstone && b.mem.Tomb? then b'.(mem := Absent) else b')
  }

  /** The file shows no record of the receipt, but a power loss can bring its binding back. */
  predicate LooksGone(f: File<Cell>) {
    f.visible == Absent && exists c :: c in f.durable && c.Live?
  }

  function RelaunchStep(w: World): World {
    var f := w.bridge.file;
    w.(bridge := Bridge(f.visible, false, f, {}, map[]), misled := w.misled || LooksGone(f))
  }

  function BridgeStep(w: World, ev: Event): World {
    match ev
    case Prepare(i, o) => PrepareStep(w, i, o)
    case Hello(i, abandoned, expired, o) => ReplayStep(TransferStep(w, i, abandoned, expired, o), i)
    case Disconnect(i) => w.(bridge := w.bridge.(sockets := w.bridge.sockets - {i}))
    case OnReplyReceived(i, o) => ReceivedStep(w, i, o)
    case OnReplyAck(i) => AckStep(w, i)
    case Consume(task, answered) => ConsumeStep(w, task, answered)
    case FinishAck(task, same, o, forget) => FinishStep(w, task, same, o, forget)
    case OnRetire(i, o) => RetireStep(w, i, o)
    case Sweep(expired, o) => SweepStep(w, expired, o)
    case SaveOther(o, dropTombstone) => SaveOtherStep(w, o, dropTombstone)
    case BridgePowerLoss(cell) => w.(bridge := Bridge(cell, false, File(cell, {cell}), {}, map[]))
    case BridgeRelaunch => RelaunchStep(w)
    case _ => w
  }

  /** What an event does to the receipt entry of the handset it happens on. */
  function HandsetChange(h: Handset, ev: Event): Handset
    requires OfHandset(ev)
  {
    match ev
    case OnAgentEnd(_, suppressed, ok) =>
      if h.entry == None then
        Store(h, Some(if suppressed then ReceiptPendingSuppressed else ReceiptPending), ok, false)
      else if suppressed && SuppressedPhase(h.entry.value) != h.entry.value then
        Store(h, Some(SuppressedPhase(h.entry.value)), ok, false)
      else h
    case Retry(_, ok) => if h.unsaved then Store(h, h.entry, ok, true) else h
    case OnConfirmReceived(_, suppressed, ok) =>
      if h.entry == None || ConfirmedPhase(h.entry.value, suppressed) == None then h
      else Store(h, ConfirmedPhase(h.entry.value, suppressed), ok, false)
    case Heard(_, ok) => Store(h, Some(ReadyToAcknowledge), ok, false)
    case Suppress(_, ok) =>
      // A suppression that cannot be saved stays in memory for the next save.
      if h.entry == None || SuppressedPhase(h.entry.value) == h.entry.value then h
      else Store(h, Some(SuppressedPhase(h.entry.value)), ok, true)
    case Resume(_, ok) =>
      if h.entry == None || h.unsaved then h else Store(h, Some(ResumedPhase(h.entry.value)), ok, false)
    case OnAcknowledged(_, ok) =>
      if h.entry == Some(ReadyToAcknowledge) || h.entry == Some(RetirementPending)
      then Store(h, Some(RetirementPending), ok, false) else h
    case OnRetired(_, ok) => if h.entry == Some(RetirementPending) then Store(h, None, ok, false) else h
    case HandsetSave(_, ok) => Store(h, h.entry, ok, true)
    case HandsetCrash(_, entry) => Handset(entry, {entry}, false)
    case _ => h
  }

  /** The frames the event sends: nothing leaves in a phase that is not durable. */
  function SentBy(h: Handset, ev: Event): set<Frame>
    requires OfHandset(ev)
  {
    var h' := HandsetChange(h, ev);
    match ev
    case Retry(i, _) => if h'.unsaved || h.entry == None then {} else RetryFrame(i, h.entry.value)
    case Resend(i) =>
      if h.entry.Some? && h.entry.value in {ReadyToAcknowledge, RetirementPending}
      then RetryFrame(i, h.entry.value) else {}
    case Heard(i, ok) => if ok then {ReplyAck(i)} else {}
    case OnAcknowledged(i, ok) => if ok && h'.entry == Some(RetirementPending) then {Retire(i)} else {}
    case _ => {}
  }

  /** A crash stops a narration; a consume request that was sent may still arrive. */
  function NarrationsAfter(ns: set<Narration>, ev: Event): set<Narration> {
    match ev
    case FetchPending(i) => ns + {Fetched(i)}
    case Narrate(i) => ns + {Speaking(i)}
    case NarrationHeard(i) => ns + {Spoken(i)}
    case HandsetCrash(i, _) => ns - {Fetched(i), Speaking(i)}
    case _ => ns
  }

  function HandsetStep(w: World, ev: Event): World
    requires OfHandset(ev)
  {
    var h := HandsetOf(w, ev.i);
    var w' := WithHandset(w, ev.i, HandsetChange(h, ev), SentBy(h, ev));
    w'.(played := if ev.Heard? || ev.NarrationHeard? then w.played + {ev.i} else w.played,
        consumed := w.consumed || ev.ConsumeNarrated?, narrations := NarrationsAfter(w.narrations, ev))
  }

  /** A binding that can be replayed in full: it holds the text and authorises nothing yet. */
  predicate Replayable(c: Cell) {
    c.Live? && c.phase != Consumed
  }

  function Next(w: World, ev: Event): World {
    var w' := if OfHandset(ev) then HandsetStep(w, ev) else BridgeStep(w, ev);
    w'.(bound := w'.bound || forall c :: c in w'.bridge.file.durable ==> c.Live?)
  }
}
