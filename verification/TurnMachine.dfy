/**
 The capture turns of all sockets, between awaits. A lane frame arms a capture, the
 lane snapshot is validated asynchronously and reserves an outbox row, audio moves
 the phase, and each finished utterance runs a handler whose continuations interleave
 with stops, cancels, later turns and closing sockets. telepathosd is configured.
 */
module TurnMachine {
  import opened Durable
  import O = Outbox

  type Turn = O.Turn
  type SocketId = nat

  datatype Phase = Listening | Capturing | Processing

  datatype Preparation = Preparation(token: string, generation: nat, audioStarted: bool)

  /** `reservation` is the row an armed capture owns; `active`, `activeToken` and `abort` name the running turn. */
  datatype Socket = Socket(open: bool, phase: Phase, token: Option<string>, validated: bool, reservation: Option<Turn>,
                           generation: nat, preparation: Option<Preparation>, active: Option<Turn>,
                           activeToken: Option<string>, abort: Option<Turn>, cancelRequested: bool)

  /** Where a handler is suspended: at the transcription, at a reply request, or after streaming. */
  datatype Point = Transcribing | Replying | Streamed

  datatype Handler = Handler(socket: SocketId, token: string, point: Point, promoted: bool, aborted: bool)

  datatype Kind = Stt | Delta | End
  datatype Sent = Sent(socket: SocketId, turn: Turn, kind: Kind)

  datatype Validation = Validation(socket: SocketId, token: string, generation: nat)

  /** `used` remembers every interaction id ever allocated. */
  datatype World = World(sockets: map<SocketId, Socket>, running: map<Turn, Handler>, validations: set<Validation>,
                         box: O.Box, used: set<Turn>, sent: seq<Sent>)

  const FRESH := Socket(true, Listening, None, false, None, 0, None, None, None, None, false)

  // --------------------------------------------------- the lifecycle states

  datatype Lifecycle = SpeechStart | SpeechChunk | UtteranceEnd | ForceEnd | Cancel

  function Transition(p: Phase, e: Lifecycle): Phase {
    match p
    case Listening => (match e
      case SpeechStart => Capturing
      case SpeechChunk => Listening
      case UtteranceEnd => Listening
      case ForceEnd => Listening
      case Cancel => Listening)
    case Capturing => (match e
      case SpeechStart => Capturing
      case SpeechChunk => Capturing
      case UtteranceEnd => Processing
      case ForceEnd => Processing
      case Cancel => Listening)
    case Processing => (match e
      case SpeechStart => Processing
      case SpeechChunk => Processing
      case UtteranceEnd => Processing
      case ForceEnd => Processing
      case Cancel => Listening)
  }

  // ------------------------------------------------------------ the pieces

  predicate Owns(k: Socket, token: string, generation: nat) {
    && k.preparation.Some? && k.preparation.value.token == token && k.preparation.value.generation == generation
    && k.token == Some(token) && k.generation == generation
  }

  function Put(w: World, s: SocketId, k: Socket): World {
    w.(sockets := w.sockets[s := k])
  }

  /** Give a reservation back: its row is removed, or remembered for cleanup. */
  function Return(w: World, t: Turn, io: O.Disk): (r: World)
    ensures r == w.(box := r.box)
  {
    w.(box := O.CancelReservation(w.box, t, io).box)
  }

  /** Disarm the capture of a socket, returning its reservation. */
  function Disarm(w: World, s: SocketId, io: O.Disk): World
    requires s in w.sockets
  {
    var k := w.sockets[s];
    var w' := if k.reservation.Some? then Return(w, k.reservation.value, io) else w;
    Put(w', s, k.(token := None, validated := false, reservation := None, preparation := None))
  }

  function AbortRunning(w: World, x: Option<Turn>): (r: World)
    ensures r.(running := w.running) == w
  {
    if x.Some? && x.value in w.running
    then w.(running := w.running[x.value := w.running[x.value].(aborted := true)]) else w
  }

  /** Hand the captured utterance to a new handler. */
  function StartTurn(w: World, s: SocketId): World
    requires s in w.sockets
  {
    var k := w.sockets[s];
    if k.token == None then Put(w, s, k.(phase := Transition(k.phase, Cancel)))
    else
      var k1 := if Owns(k, k.token.value, k.generation) then k.(preparation := None) else k;
      if k.reservation == None then Put(w, s, k1.(phase := Transition(k.phase, Cancel)))
      else
        var x := k.reservation.value;
        var k' := k1.(active := Some(x), activeToken := k.token, abort := Some(x), token := None, reservation := None,
                      validated := false, cancelRequested := false);
        Put(w, s, k').(running := w.running[x := Handler(s, k.token.value, Transcribing, false, false)])
  }

  predicate IsCurrent(w: World, x: Turn) {
    && x in w.running && w.running[x].socket in w.sockets
    && var k := w.sockets[w.running[x].socket];
       k.active == Some(x) && k.activeToken == Some(w.running[x].token) && !w.running[x].aborted
  }

  /** The end of a handler: return an unpromoted reservation, and release the socket only if it still owns it. */
  function Finally(w: World, x: Turn, io: O.Disk): World
    requires x in w.running && w.running[x].socket in w.sockets
  {
    var s := w.running[x].socket;
    var w1 := if w.running[x].promoted then w else Return(w, x, io);
    var w2 := w1.(running := w1.running - {x});
    var k := w.sockets[s];
    if k.active == Some(x) then
      Put(w2, s, k.(active := None, activeToken := None, abort := if k.abort == Some(x) then None else k.abort,
                    phase := Transition(k.phase, Cancel)))
    else w2
  }

  function Send(w: World, x: Turn, kind: Kind): World
    requires x in w.running
  {
    w.(sent := w.sent + [Sent(w.running[x].socket, x, kind)])
  }

  function SendDeltas(w: World, x: Turn, n: nat): (r: World)
    requires x in w.running
    ensures r.(sent := w.sent) == w
  {
    if n == 0 then w else Send(SendDeltas(w, x, n - 1), x, Delta)
  }

  // ----------------------------------------------------------------- steps

  datatype Vad = Silent | Starts | Ends

  datatype Answer = More | Threw | Reply(deltas: nat, complete: bool)

  datatype Event =
    | Connect(s: SocketId)
    | Lane(s: SocketId, token: string, admitted: bool)
    | Validated(v: Validation, ok: bool, expired: bool, refused: bool, turn: Turn, expiredAfter: bool)
    | Deadline(s: SocketId, token: string, generation: nat)
    | Audio(s: SocketId, vad: Vad)
    | EndUtterance(s: SocketId, token: string)
    | Stop(s: SocketId, token: string)
    | CancelCapture(s: SocketId, token: string)
    | Close(s: SocketId)
    | Transcribed(x: Turn, ok: bool)
    | Answered(x: Turn, answer: Answer)
    | Ended(x: Turn, ready: bool)
    | Delivered(x: Turn)
    | RetryExpired(x: Turn)

  predicate FreshTurn(w: World, t: Turn) {
    forall u :: u in w.used ==> !O.SameKey(u, t)
  }

  predicate Open(w: World, s: SocketId) {
    s in w.sockets && w.sockets[s].open
  }

  predicate Enabled(w: World, ev: Event) {
    match ev
    case Connect(s) => s !in w.sockets
    case Lane(s, _, _) => Open(w, s)
    case Validated(v, _, _, _, turn, _) => v in w.validations && v.socket in w.sockets && FreshTurn(w, turn)
    case Deadline(s, _, _) => s in w.sockets
    case Audio(s, _) => Open(w, s)
    case EndUtterance(s, _) => Open(w, s)
    case Stop(s, _) => Open(w, s)
    case CancelCapture(s, _) => Open(w, s)
    case Close(s) => Open(w, s)
    case Transcribed(x, _) => x in w.running && w.running[x].socket in w.sockets && w.running[x].point == Transcribing
    case Answered(x, _) => x in w.running && w.running[x].socket in w.sockets && w.running[x].point == Replying
    case Ended(x, _) => x in w.running && w.running[x].socket in w.sockets && w.running[x].point == Streamed
    case _ => true
  }

  /** A lane frame arms a capture; it overwrites whatever reservation the socket held. */
  function LaneStep(w: World, s: SocketId, token: string, admitted: bool): World
    requires s in w.sockets
  {
    var k := w.sockets[s];
    if k.phase != Listening || k.token.Some? || k.active.Some? || !admitted then w
    else
      var g := k.generation + 1;
      Put(w, s, k.(token := Some(token), validated := false, reservation := None, generation := g,
                   preparation := Some(Preparation(token, g, false)), cancelRequested := false))
        .(validations := w.validations + {Validation(s, token, g)})
  }

  function ResetUnstarted(w: World, s: SocketId, io: O.Disk): World
    requires s in w.sockets
  {
    var k := w.sockets[s];
    if k.preparation.Some? && !k.preparation.value.audioStarted then Disarm(w, s, io) else w
  }

  function ValidatedStep(w: World, v: Validation, ok: bool, expired: bool, refused: bool, turn: Turn,
                         expiredAfter: bool, capacity: nat, io: O.Disk): World
    requires v.socket in w.sockets
  {
    var w0 := w.(validations := w.validations - {v});
    var k := w.sockets[v.socket];
    if !Owns(k, v.token, v.generation) then w0
    else if !ok then Disarm(w0, v.socket, io)
    else if expired then ResetUnstarted(w0, v.socket, io)
    else if refused then Disarm(w0, v.socket, io)
    else
      var r := O.Reserve(w.box, capacity, turn, io);
      var w1 := w0.(box := r.box, used := w.used + {turn});
      if r.verdict != O.Done then Disarm(w1, v.socket, io)
      else
        var w2 := Put(w1, v.socket, k.(reservation := Some(turn), validated := true));
        if expiredAfter then ResetUnstarted(w2, v.socket, io) else w2
  }

  function DeadlineStep(w: World, s: SocketId, token: string, generation: nat, io: O.Disk): World
    requires s in w.sockets
  {
    if Owns(w.sockets[s], token, generation) then ResetUnstarted(w, s, io) else w
  }

  function AudioStep(w: World, s: SocketId, vad: Vad): World
    requires s in w.sockets
  {
    var k := w.sockets[s];
    if k.phase == Processing || k.token == None then w
    else
      var k1 := if Owns(k, k.token.value, k.generation)
                then k.(preparation := Some(k.preparation.value.(audioStarted := true))) else k;
      if !k.validated then Put(w, s, k1)
      else if k.phase == Listening then
        Put(w, s, if vad == Starts then k1.(phase := Transition(k.phase, SpeechStart)) else k1)
      else if vad == Ends then StartTurn(Put(w, s, k1.(phase := Transition(k.phase, UtteranceEnd))), s)
      else Put(w, s, k1.(phase := Transition(k.phase, SpeechChunk)))
  }

  function EndUtteranceStep(w: World, s: SocketId, token: string): World
    requires s in w.sockets
  {
    var k := w.sockets[s];
    if k.phase == Capturing && k.token == Some(token)
    then StartTurn(Put(w, s, k.(phase := Transition(k.phase, UtteranceEnd))), s) else w
  }

  predicate MatchesTurn(k: Socket, token: string) {
    k.token == Some(token) || k.activeToken == Some(token)
  }

  /** Stop and cancel_capture differ only in the flag a captured, not yet ended utterance leaves. */
  function StopStep(w: World, s: SocketId, token: string, flag: bool, io: O.Disk): World
    requires s in w.sockets
  {
    if !MatchesTurn(w.sockets[s], token) then w
    else
      var w1 := Disarm(w, s, io);
      var k := w1.sockets[s];
      match k.phase
      case Listening => w1
      case Capturing =>
        Put(w1, s, if flag then k.(phase := Transition(k.phase, Cancel), cancelRequested := true, active := None,
                                   activeToken := None)
                   else k.(phase := Transition(k.phase, Cancel)))
      case Processing =>
        Put(AbortRunning(w1, k.abort), s,
            k.(phase := Transition(k.phase, Cancel), cancelRequested := true, active := None, activeToken := None, abort := None))
  }

  function CloseStep(w: World, s: SocketId, io: O.Disk): World
    requires s in w.sockets
  {
    var w1 := Disarm(w, s, io);
    var k := w1.sockets[s];
    Put(AbortRunning(w1, k.abort), s,
        k.(open := false, cancelRequested := true, active := None, activeToken := None, abort := None))
  }

  function TranscribedStep(w: World, x: Turn, ok: bool, io: O.Disk): World
    requires x in w.running && w.running[x].socket in w.sockets
  {
    if !ok || !IsCurrent(w, x) then Finally(w, x, io)
    else
      // The completed turn is durable before it can cause a remote side effect.
      var r := O.Promote(w.box, x, io);
      var w1 := w.(box := r.box);
      if r.verdict != O.Done then Finally(w1, x, io)
      else
        var w2 := Send(w1.(running := w.running[x := w.running[x].(promoted := true, point := Replying)]), x, Stt);
        if w.sockets[w.running[x].socket].cancelRequested then Finally(w2, x, io) else w2
  }

  function AnsweredStep(w: World, x: Turn, answer: Answer, io: O.Disk): World
    requires x in w.running && w.running[x].socket in w.sockets
  {
    if answer.Threw? || !IsCurrent(w, x) then Finally(w, x, io)
    else match answer
      case More => w
      case Reply(deltas, complete) =>
        if w.sockets[w.running[x].socket].cancelRequested then Finally(w, x, io)
        else
          var w1 := SendDeltas(w.(running := w.running[x := w.running[x].(point := Streamed)]), x, deltas);
          if complete then w1 else Finally(w1, x, io)
      case _ => w
  }

  function EndedStep(w: World, x: Turn, ready: bool, io: O.Disk): World
    requires x in w.running && w.running[x].socket in w.sockets
  {
    if IsCurrent(w, x) && ready && !w.sockets[w.running[x].socket].cancelRequested
    then Finally(Send(w, x, End), x, io) else Finally(w, x, io)
  }

  function Next(w: World, ev: Event, capacity: nat, io: O.Disk): World
    requires Enabled(w, ev)
  {
    match ev
    case Connect(s) => Put(w, s, FRESH)
    case Lane(s, token, admitted) => LaneStep(w, s, token, admitted)
    case Validated(v, ok, expired, refused, turn, expiredAfter) =>
      ValidatedStep(w, v, ok, expired, refused, turn, expiredAfter, capacity, io)
    case Deadline(s, token, generation) => DeadlineStep(w, s, token, generation, io)
    case Audio(s, vad) => AudioStep(w, s, vad)
    case EndUtterance(s, token) => EndUtteranceStep(w, s, token)
    case Stop(s, token) => StopStep(w, s, token, true, io)
    case CancelCapture(s, token) => StopStep(w, s, token, false, io)
    case Close(s) => CloseStep(w, s, io)
    case Transcribed(x, ok) => TranscribedStep(w, x, ok, io)
    case Answered(x, answer) => AnsweredStep(w, x, answer, io)
    case Ended(x, ready) => EndedStep(w, x, ready, io)
    case Delivered(x) => w.(box := O.RemoveDelivered(w.box, x, io).box)
    case RetryExpired(x) => w.(box := O.MarkExpired(w.box, x, io).box)
  }
}
