/**
 What a step of a capture turn brings about when it may: which frames a handler that is
 still current sends, what is left of it, and the whole way of a turn nobody interrupts.
 */
module TurnEffects {
  import opened Durable
  import O = Outbox
  import OE = OutboxEffects
  import opened Reservations
  import opened TurnMachine
  import opened TurnOwnership
  import opened TurnSafety
  import opened TurnFrames

  /** Nothing of the turn is left on its socket or among the handlers. */
  predicate Over(w: World, s: SocketId, x: Turn) {
    && s in w.sockets && x !in w.running && w.sockets[s].active == None && w.sockets[s].activeToken == None
    && w.sockets[s].abort == None && w.sockets[s].phase == Listening
  }

  predicate OnlySocket(w: World, w': World, s: SocketId) {
    w'.sockets.Keys == w.sockets.Keys && forall r :: r in w.sockets && r != s ==> w'.sockets[r] == w.sockets[r]
  }

  lemma FinallyEnds(w: World, x: Turn, io: O.Disk)
    requires Shapes(w) && x in w.running && w.running[x].socket in w.sockets && w.sockets[w.running[x].socket].active == Some(x)
    ensures var s, w' := w.running[x].socket, Finally(w, x, io);
            && Over(w', s, x) && OnlySocket(w, w', s) && w'.sent == w.sent && w'.running == w.running - {x}
            && (w.running[x].promoted ==> w'.box == w.box)
  {
    assert SocketShape(w, w.running[x].socket);
    hide O.CancelReservation;
  }

  /** The row of a handler that has not promoted it is reserved and waits for nothing. */
  lemma RowIsReserved(w: World, x: Turn, capacity: nat)
    requires Owned(w, capacity) && x in w.running && !w.running[x].promoted && !w.box.latched
    ensures OE.RowFor(w.box.records, x, O.Row(x, O.Reserved)) && !exists c :: c in w.box.cleanups && O.SameKey(c, x)
  {
    assert x in Handling(w) && x in Reserving(w.box);
    InReserving(w.box, x);
    forall c | c in w.box.cleanups ensures !O.SameKey(c, x) {
      assert c in Waiting(w.box) && c in Turns(w.box) && x in w.used;
    }
    hide Captures, Handling, Exclusive, O.Inv;
  }

  lemma Promotes(w: World, x: Turn, capacity: nat, io: O.Disk)
    requires Owned(w, capacity) && x in w.running && !w.running[x].promoted && !w.box.latched
    ensures var r := O.Promote(w.box, x, io);
            && (r.verdict == O.Done <==> io(w.box.writes) == Written)
            && (r.verdict == O.Done ==> O.Row(x, O.Pending) in r.box.records && Settled(r.box.file) && !r.box.latched)
  {
    RowIsReserved(w, x, capacity);
    OE.PromoteBrings(w.box, capacity, x, io);
    hide O.Promote, Captures, Handling;
    var next :| OE.Restated(w.box.records, O.Row(x, O.Reserved), O.Pending, next) && OE.WrotesOnly(w.box, O.Promote(w.box, x, io), next, io(w.box.writes));
    var i :| 0 <= i < |w.box.records| && next == w.box.records[i := O.Row(x, O.Pending)];
    assert next[i] in next;
  }

  /** A transcription reached a handler that is still current and whose promotion is written:
      exactly one transcript frame is sent, the turn is durable, and the handler goes on to
      ask for the reply. Any other transcription sends nothing and ends the handler. */
  lemma TranscribedSends(w: World, x: Turn, ok: bool, capacity: nat, io: O.Disk)
    requires Inv(w, capacity) && Enabled(w, Transcribed(x, ok)) && !w.box.latched
    ensures var s, w' := w.running[x].socket, Next(w, Transcribed(x, ok), capacity, io);
            if ok && IsCurrent(w, x) && io(w.box.writes) == Written then
              && w'.sent == w.sent + [Sent(s, x, Stt)]
              && O.Row(x, O.Pending) in w'.box.records && Settled(w'.box.file) && !w'.box.latched
              && (if w.sockets[s].cancelRequested then w'.running == w.running - {x}
                  else w'.sockets == w.sockets && w'.running == w.running[x := w.running[x].(promoted := true, point := Replying)])
            else w'.sent == w.sent && x !in w'.running && w'.running.Keys == w.running.Keys - {x}
  {
    assert HandlerShape(w, x);
    TranscribedIs(w, x, ok, capacity, io);
    Promotes(w, x, capacity, io);
    hide Inv, Finally, O.Promote, IsCurrent, Next, Enabled, HandlerShape, HandlersForward, Settled, Send;
    if ok && IsCurrent(w, x) && io(w.box.writes) == Written {
      TranscriptSent(w, x, io);
    } else {
      FinallyQuiet(w, x, io);
      FinallyQuiet(w.(box := O.Promote(w.box, x, io).box), x, io);
    }
  }

  lemma TranscriptSent(w: World, x: Turn, io: O.Disk)
    requires x in w.running && w.running[x].socket in w.sockets
    ensures var r := O.Promote(w.box, x, io);
            var w2 := Send(w.(box := r.box, running := w.running[x := w.running[x].(promoted := true, point := Replying)]), x, Stt);
            && w2.sent == w.sent + [Sent(w.running[x].socket, x, Stt)] && w2.box == r.box && w2.sockets == w.sockets
            && w2.running == w.running[x := w.running[x].(promoted := true, point := Replying)]
            && Finally(w2, x, io).sent == w2.sent && Finally(w2, x, io).box == r.box
            && Finally(w2, x, io).running == w.running - {x}
  {
    var r := O.Promote(w.box, x, io);
    var w2 := Send(w.(box := r.box, running := w.running[x := w.running[x].(promoted := true, point := Replying)]), x, Stt);
    FinallyQuiet(w2, x, io);
    FinallyBox(w2, x, io);
    assert w2.running - {x} == w.running - {x};
    hide O.Promote, Finally, HandlersForward;
  }

  lemma TranscribedIs(w: World, x: Turn, ok: bool, capacity: nat, io: O.Disk)
    requires Enabled(w, Transcribed(x, ok))
    ensures var r := O.Promote(w.box, x, io);
            var w1 := w.(box := r.box);
            var w2 := Send(w1.(running := w.running[x := w.running[x].(promoted := true, point := Replying)]), x, Stt);
            Next(w, Transcribed(x, ok), capacity, io) ==
              if !ok || !IsCurrent(w, x) then Finally(w, x, io)
              else if r.verdict != O.Done then Finally(w1, x, io)
              else if w.sockets[w.running[x].socket].cancelRequested then Finally(w2, x, io) else w2
  {
    hide Finally, IsCurrent, O.Promote;
  }

  /** A reply of n deltas for a handler that is still current: exactly n delta frames; a
      failed reply, one for a handler that lost its turn, or one after a cancel sends nothing
      and ends it. */
  lemma AnsweredSends(w: World, x: Turn, answer: Answer, capacity: nat, io: O.Disk)
    requires Inv(w, capacity) && Enabled(w, Answered(x, answer)) && !answer.More?
    ensures var s, w' := w.running[x].socket, Next(w, Answered(x, answer), capacity, io);
            if answer.Reply? && IsCurrent(w, x) && !w.sockets[s].cancelRequested then
              && w'.sent == w.sent + Frames(s, x, Deltas(answer.deltas))
              && (answer.complete ==> w'.sockets == w.sockets && w'.box == w.box
                                      && w'.running == w.running[x := w.running[x].(point := Streamed)])
              && (!answer.complete ==> w'.running == w.running - {x})
            else w'.sent == w.sent && w'.running == w.running - {x}
  {
    hide Inv, Finally, IsCurrent, SendDeltas;
    FinallyQuiet(w, x, io);
    if answer.Reply? {
      var w0 := w.(running := w.running[x := w.running[x].(point := Streamed)]);
      var w1 := SendDeltas(w0, x, answer.deltas);
      DeltasSent(w0, x, answer.deltas);
      assert w1.(sent := w0.sent) == w0;
      FinallyQuiet(w1, x, io);
      assert w0.running - {x} == w.running - {x};
    }
  }

  /** Lanes waiting for another reply keep the handler where it is. */
  lemma MoreWaits(w: World, x: Turn, capacity: nat, io: O.Disk)
    requires Enabled(w, Answered(x, More)) && IsCurrent(w, x)
    ensures Next(w, Answered(x, More), capacity, io) == w
  {}

  /** The end: one end frame when the reply is ready and the handler still current, and in
      any case the handler is gone and the socket it owned listens again. */
  lemma EndedSends(w: World, x: Turn, ready: bool, capacity: nat, io: O.Disk)
    requires Inv(w, capacity) && Enabled(w, Ended(x, ready))
    ensures var s, w' := w.running[x].socket, Next(w, Ended(x, ready), capacity, io);
            && w'.sent == (if ready && IsCurrent(w, x) && !w.sockets[s].cancelRequested then w.sent + [Sent(s, x, End)] else w.sent)
            && w'.running == w.running - {x} && (w.running[x].promoted ==> w'.box == w.box)
            && (IsCurrent(w, x) ==> Over(w', s, x) && OnlySocket(w, w', s))
  {
    var w1 := Send(w, x, End);
    EndedIs(w, x, ready, capacity, io);
    hide Inv, Finally, Over, OnlySocket, IsCurrent, HandlersForward, Next;
    FinallyQuiet(w, x, io);
    FinallyQuiet(w1, x, io);
    FinallyBox(w, x, io);
    FinallyBox(w1, x, io);
    if IsCurrent(w, x) { CurrentEnds(w, w1, x, capacity, io); }
  }

  lemma EndedIs(w: World, x: Turn, ready: bool, capacity: nat, io: O.Disk)
    requires Enabled(w, Ended(x, ready))
    ensures Next(w, Ended(x, ready), capacity, io) ==
            if IsCurrent(w, x) && ready && !w.sockets[w.running[x].socket].cancelRequested
            then Finally(Send(w, x, End), x, io) else Finally(w, x, io)
  {
    hide Finally, IsCurrent;
  }

  lemma CurrentEnds(w: World, w1: World, x: Turn, capacity: nat, io: O.Disk)
    requires Inv(w, capacity) && x in w.running && IsCurrent(w, x) && w1 == w.(sent := w1.sent)
    ensures forall w0 :: w0 == w || w0 == w1 ==>
              var w' := Finally(w0, x, io); Over(w', w.running[x].socket, x) && OnlySocket(w, w', w.running[x].socket)
  {
    ShapesRest(w, w1);
    FinallyEnds(w, x, io);
    FinallyEnds(w1, x, io);
    hide Inv, Finally, Shapes, Over;
  }

  lemma FinallyBox(w: World, x: Turn, io: O.Disk)
    requires x in w.running && w.running[x].socket in w.sockets
    ensures w.running[x].promoted ==> Finally(w, x, io).box == w.box
  {}

  // ------------------------------------------------------- a turn from start to end

  /** Ready for a capture: connected, listening, and neither armed nor running a turn. */
  predicate Idle(w: World, s: SocketId) {
    && Open(w, s) && w.sockets[s].phase == Listening && w.sockets[s].token == None && w.sockets[s].active == None
  }

  function Armed(k: Socket, token: string): Socket {
    k.(token := Some(token), validated := false, reservation := None, generation := k.generation + 1,
       preparation := Some(Preparation(token, k.generation + 1, false)), cancelRequested := false)
  }

  lemma LaneArms(w: World, s: SocketId, token: string, capacity: nat, io: O.Disk)
    requires Idle(w, s)
    ensures var w', v := Next(w, Lane(s, token, true), capacity, io), Validation(s, token, w.sockets[s].generation + 1);
            && w' == w.(sockets := w.sockets[s := Armed(w.sockets[s], token)], validations := w.validations + {v})
  {}

  /** Any other lane frame changes nothing. */
  lemma LaneRefused(w: World, s: SocketId, token: string, admitted: bool, capacity: nat, io: O.Disk)
    requires Open(w, s) && (!Idle(w, s) || !admitted)
    ensures Next(w, Lane(s, token, admitted), capacity, io) == w
  {}

  /** A validation whose capture is gone changes nothing; one that failed, was refused, found no
      row, or came too late for a silent capture leaves it disarmed and without a row. */
  lemma ValidationFails(w: World, v: Validation, ok: bool, expired: bool, refused: bool, turn: Turn, expiredAfter: bool,
                        capacity: nat, io: O.Disk)
    requires Enabled(w, Validated(v, ok, expired, refused, turn, expiredAfter))
    ensures var ev, k := Validated(v, ok, expired, refused, turn, expiredAfter), w.sockets[v.socket];
            var w' := Next(w, ev, capacity, io);
            && w'.running == w.running && w'.sent == w.sent
            && (!Owns(k, v.token, v.generation) ==> w' == w.(validations := w.validations - {v}))
            && (Owns(k, v.token, v.generation) && (!ok || (!expired && refused) || (expired && !k.preparation.value.audioStarted)) ==>
                  OnlySocket(w, w', v.socket) && w'.sockets[v.socket] == Off(k))
            && (Owns(k, v.token, v.generation) && ok && expired && k.preparation.value.audioStarted ==>
                  w' == w.(validations := w.validations - {v}))
            && (Owns(k, v.token, v.generation) && ok && !expired && !refused
                && (O.Reserve(w.box, capacity, turn, io).verdict != O.Done || (expiredAfter && !k.preparation.value.audioStarted)) ==>
                  OnlySocket(w, w', v.socket) && w'.sockets[v.socket] == Off(k))
  {
    hide O.CancelReservation, O.Reserve;
  }

  /** The end of an utterance that names the captured turn hands it over like its silence does. */
  lemma EndUtteranceHands(w: World, s: SocketId, token: string, turn: Turn, capacity: nat, io: O.Disk)
    requires Open(w, s)
    ensures var k, w' := w.sockets[s], Next(w, EndUtterance(s, token), capacity, io);
            && (k.phase != Capturing || k.token != Some(token) ==> w' == w)
            && (k.phase == Capturing && k.token == Some(token) && k.reservation == Some(turn) ==>
                  && OnlySocket(w, w', s) && w'.sent == w.sent && w'.box == w.box
                  && w'.running == w.running[turn := Handler(s, token, Transcribing, false, false)]
                  && w'.sockets[s].phase == Processing && w'.sockets[s].active == Some(turn)
                  && w'.sockets[s].activeToken == Some(token) && w'.sockets[s].reservation == None)
  {}

  /** A valid lane reserves its row, and arms the capture. */
  lemma ValidationReserves(w: World, v: Validation, turn: Turn, capacity: nat, io: O.Disk)
    requires Enabled(w, Validated(v, true, false, false, turn, false)) && Owns(w.sockets[v.socket], v.token, v.generation)
    requires O.Reserve(w.box, capacity, turn, io).verdict == O.Done
    ensures var w', k := Next(w, Validated(v, true, false, false, turn, false), capacity, io), w.sockets[v.socket];
            && w'.sockets == w.sockets[v.socket := k.(reservation := Some(turn), validated := true)]
            && w'.box == O.Reserve(w.box, capacity, turn, io).box
            && w'.running == w.running && w'.sent == w.sent && w'.used == w.used + {turn}
  {
    hide O.Reserve;
  }

  /** Speech starts the capture of an armed socket, and its end hands the row to a handler. */
  lemma SpeechIsCaptured(w: World, s: SocketId, turn: Turn, capacity: nat, io: O.Disk)
    requires Open(w, s) && w.sockets[s].token.Some? && w.sockets[s].validated && w.sockets[s].reservation == Some(turn)
    ensures var k := w.sockets[s];
            && (k.phase == Listening ==>
                  var w' := Next(w, Audio(s, Starts), capacity, io);
                  && OnlySocket(w, w', s) && w'.running == w.running && w'.sent == w.sent && w'.box == w.box
                  && w'.sockets[s].phase == Capturing && w'.sockets[s].token == k.token && w'.sockets[s].validated
                  && w'.sockets[s].reservation == k.reservation && w'.sockets[s].open)
            && (k.phase == Capturing ==>
                  var w' := Next(w, Audio(s, Ends), capacity, io);
                  && OnlySocket(w, w', s) && w'.sent == w.sent && w'.box == w.box
                  && w'.running == w.running[turn := Handler(s, k.token.value, Transcribing, false, false)]
                  && w'.sockets[s].phase == Processing && w'.sockets[s].active == Some(turn)
                  && w'.sockets[s].activeToken == k.token && w'.sockets[s].token == None
                  && w'.sockets[s].reservation == None && !w'.sockets[s].cancelRequested && w'.sockets[s].open)
  {}

  function Course(w: World, s: SocketId, token: string, turn: Turn, n: nat): seq<Event>
    requires s in w.sockets
  {
    var v := Validation(s, token, w.sockets[s].generation + 1);
    [Lane(s, token, true), Validated(v, true, false, false, turn, false), Audio(s, Starts), Audio(s, Ends),
     Transcribed(turn, true), Answered(turn, Reply(n, true)), Ended(turn, true)]
  }

  lemma {:induction false} Chain(ws: seq<World>, evs: seq<Event>, capacity: nat, io: O.Disk)
    requires |ws| == |evs| + 1
    requires forall k :: 0 <= k < |evs| ==> Enabled(ws[k], evs[k]) && ws[k + 1] == Next(ws[k], evs[k], capacity, io)
    ensures Feasible(ws[0], evs, capacity, io) && After(ws[0], evs, capacity, io) == ws[|evs|]
    decreases |evs|
  {
    hide Enabled, Next;
    if evs != [] {
      Chain(ws[1..], evs[1..], capacity, io);
    }
  }

  lemma ReservedUnlatched(b: O.Box, capacity: nat, t: Turn, io: O.Disk)
    requires O.Inv(b, capacity) && !b.latched && O.Reserve(b, capacity, t, io).verdict == O.Done
    ensures !O.Reserve(b, capacity, t, io).box.latched
  {
    OE.ReserveBrings(b, capacity, t, io);
    OE.SweepBrings(b, capacity, io);
    var s := O.Sweep(b, io).box;
    hide O.Reserve, O.Sweep, O.Inv;
    assert OE.HasKey(s.records, t) ==> exists row :: OE.RowFor(s.records, t, row);
  }

  /** A socket armed for the capture of a turn, when its row is reserved. */
  predicate IsArmed(w: World, s: SocketId, token: string, reservation: Option<Turn>, phase: Phase) {
    && Open(w, s) && w.sockets[s].phase == phase && w.sockets[s].token == Some(token)
    && w.sockets[s].reservation == reservation && w.sockets[s].validated == reservation.Some?
  }

  /** The turn's handler runs, and would be heard. */
  predicate IsHeard(w: World, s: SocketId, token: string, turn: Turn, point: Point) {
    && s in w.sockets && turn in w.running && w.running[turn] == Handler(s, token, point, point != Transcribing, false)
    && w.sockets[s].active == Some(turn) && w.sockets[s].activeToken == Some(token) && !w.sockets[s].cancelRequested
  }

  predicate SameRest(w: World, w': World) {
    w'.running == w.running && w'.sent == w.sent && w'.box == w.box
  }

  lemma LaneThenArmed(w: World, s: SocketId, token: string, capacity: nat, io: O.Disk)
    requires Inv(w, capacity) && Idle(w, s)
    ensures var w', v := Next(w, Lane(s, token, true), capacity, io), Validation(s, token, w.sockets[s].generation + 1);
            && Enabled(w, Lane(s, token, true)) && Inv(w', capacity) && SameRest(w, w') && w'.used == w.used
            && IsArmed(w', s, token, None, Listening) && v in w'.validations && Owns(w'.sockets[s], v.token, v.generation)
  {
    LaneArms(w, s, token, capacity, io);
    NextKeeps(w, Lane(s, token, true), capacity, io);
    hide Inv, Next;
  }

  lemma ValidatedThenReserved(w: World, v: Validation, turn: Turn, capacity: nat, io: O.Disk)
    requires Inv(w, capacity) && v in w.validations && IsArmed(w, v.socket, v.token, None, Listening)
    requires Owns(w.sockets[v.socket], v.token, v.generation) && FreshTurn(w, turn) && !w.box.latched
    requires O.Reserve(w.box, capacity, turn, io).verdict == O.Done
    ensures var ev := Validated(v, true, false, false, turn, false);
            var w' := Next(w, ev, capacity, io);
            && Enabled(w, ev) && Inv(w', capacity) && w'.running == w.running && w'.sent == w.sent && !w'.box.latched
            && IsArmed(w', v.socket, v.token, Some(turn), Listening)
  {
    ValidationReserves(w, v, turn, capacity, io);
    ReservedUnlatched(w.box, capacity, turn, io);
    NextKeeps(w, Validated(v, true, false, false, turn, false), capacity, io);
    hide Inv, Next, O.Reserve, Owns, FreshTurn;
  }

  lemma SpeechThenCaptured(w: World, s: SocketId, token: string, turn: Turn, capacity: nat, io: O.Disk)
    requires Inv(w, capacity) && IsArmed(w, s, token, Some(turn), Listening)
    ensures var w' := Next(w, Audio(s, Starts), capacity, io);
            && Enabled(w, Audio(s, Starts)) && Inv(w', capacity) && SameRest(w, w')
            && IsArmed(w', s, token, Some(turn), Capturing)
  {
    SpeechIsCaptured(w, s, turn, capacity, io);
    NextKeeps(w, Audio(s, Starts), capacity, io);
    hide Inv, Next;
  }

  lemma SilenceThenHandled(w: World, s: SocketId, token: string, turn: Turn, capacity: nat, io: O.Disk)
    requires Inv(w, capacity) && IsArmed(w, s, token, Some(turn), Capturing)
    ensures var w' := Next(w, Audio(s, Ends), capacity, io);
            && Enabled(w, Audio(s, Ends)) && Inv(w', capacity) && w'.sent == w.sent && w'.box == w.box
            && IsHeard(w', s, token, turn, Transcribing)
  {
    SpeechIsCaptured(w, s, turn, capacity, io);
    NextKeeps(w, Audio(s, Ends), capacity, io);
    hide Inv, Next;
  }

  lemma TranscriptThenAsked(w: World, s: SocketId, token: string, turn: Turn, capacity: nat, io: O.Disk)
    requires Inv(w, capacity) && IsHeard(w, s, token, turn, Transcribing) && !w.box.latched && io(w.box.writes) == Written
    ensures var w' := Next(w, Transcribed(turn, true), capacity, io);
            && Enabled(w, Transcribed(turn, true)) && Inv(w', capacity)
            && w'.sent == w.sent + [Sent(s, turn, Stt)] && IsHeard(w', s, token, turn, Replying)
            && O.Row(turn, O.Pending) in w'.box.records && Settled(w'.box.file)
  {
    TranscribedSends(w, turn, true, capacity, io);
    NextKeeps(w, Transcribed(turn, true), capacity, io);
    hide Inv, Next;
  }

  lemma ReplyThenStreamed(w: World, s: SocketId, token: string, turn: Turn, n: nat, capacity: nat, io: O.Disk)
    requires Inv(w, capacity) && IsHeard(w, s, token, turn, Replying)
    ensures var w' := Next(w, Answered(turn, Reply(n, true)), capacity, io);
            && Enabled(w, Answered(turn, Reply(n, true))) && Inv(w', capacity) && w'.box == w.box
            && w'.sent == w.sent + Frames(s, turn, Deltas(n)) && IsHeard(w', s, token, turn, Streamed)
  {
    AnsweredSends(w, turn, Reply(n, true), capacity, io);
    NextKeeps(w, Answered(turn, Reply(n, true)), capacity, io);
    hide Inv, Next, Frames;
  }

  lemma StreamedThenOver(w: World, s: SocketId, token: string, turn: Turn, capacity: nat, io: O.Disk)
    requires Inv(w, capacity) && IsHeard(w, s, token, turn, Streamed)
    ensures var w' := Next(w, Ended(turn, true), capacity, io);
            && Enabled(w, Ended(turn, true)) && w'.box == w.box && w'.sent == w.sent + [Sent(s, turn, End)] && Over(w', s, turn)
  {
    EndedSends(w, turn, true, capacity, io);
    hide Inv, Next;
  }

  /** From every reachable state with an idle socket: when the row can be reserved and its
      promotion is written, the whole course of a turn is possible, its frames are one
      transcript, the n deltas of its reply and one end, the completed turn is pending and
      durable in the outbox, and the socket listens again. */
  lemma TurnCompletes(w: World, s: SocketId, token: string, turn: Turn, n: nat, capacity: nat, io: O.Disk)
    requires Inv(w, capacity) && Idle(w, s) && FreshTurn(w, turn) && !w.box.latched
    requires O.Reserve(w.box, capacity, turn, io).verdict == O.Done && forall k: nat :: io(k) == Written
    ensures var run := Course(w, s, token, turn, n);
            && Feasible(w, run, capacity, io)
            && var w' := After(w, run, capacity, io);
               && w'.sent == w.sent + [Sent(s, turn, Stt)] + Frames(s, turn, Deltas(n)) + [Sent(s, turn, End)]
               && Over(w', s, turn) && O.Row(turn, O.Pending) in w'.box.records && Settled(w'.box.file)
  {
    hide *;
    var w1, w2, w3, w4 := CaptureSteps(w, s, token, turn, capacity, io);
    var w5, w6, w7 := ReplySteps(w4, s, token, turn, n, capacity, io);
    CourseIs(w, s, token, turn, n);
    SevenSteps(w, w1, w2, w3, w4, w5, w6, w7, Course(w, s, token, turn, n), capacity, io);
  }

  lemma CaptureSteps(w: World, s: SocketId, token: string, turn: Turn, capacity: nat, io: O.Disk)
    returns (w1: World, w2: World, w3: World, w4: World)
    requires Inv(w, capacity) && Idle(w, s) && FreshTurn(w, turn) && !w.box.latched
    requires O.Reserve(w.box, capacity, turn, io).verdict == O.Done
    ensures s in w.sockets
    ensures Enabled(w, Lane(s, token, true)) && Next(w, Lane(s, token, true), capacity, io) == w1
    ensures var ev := Validated(Validation(s, token, w.sockets[s].generation + 1), true, false, false, turn, false);
            Enabled(w1, ev) && Next(w1, ev, capacity, io) == w2
    ensures Enabled(w2, Audio(s, Starts)) && Next(w2, Audio(s, Starts), capacity, io) == w3
    ensures Enabled(w3, Audio(s, Ends)) && Next(w3, Audio(s, Ends), capacity, io) == w4
    ensures Inv(w4, capacity) && IsHeard(w4, s, token, turn, Transcribing) && !w4.box.latched && w4.sent == w.sent
  {
    assert s in w.sockets;
    hide *;
    var v := Validation(s, token, w.sockets[s].generation + 1);
    LaneThenArmed(w, s, token, capacity, io);
    w1 := Next(w, Lane(s, token, true), capacity, io);
    SameFresh(w, w1, turn);
    ValidatedThenReserved(w1, v, turn, capacity, io);
    w2 := Next(w1, Validated(v, true, false, false, turn, false), capacity, io);
    SpeechThenCaptured(w2, s, token, turn, capacity, io);
    w3 := Next(w2, Audio(s, Starts), capacity, io);
    SilenceThenHandled(w3, s, token, turn, capacity, io);
    w4 := Next(w3, Audio(s, Ends), capacity, io);
    SameSent(w, w1);
    SameSent(w2, w3);
  }

  lemma ReplySteps(w: World, s: SocketId, token: string, turn: Turn, n: nat, capacity: nat, io: O.Disk)
    returns (w1: World, w2: World, w3: World)
    requires Inv(w, capacity) && IsHeard(w, s, token, turn, Transcribing) && !w.box.latched && io(w.box.writes) == Written
    ensures Enabled(w, Transcribed(turn, true)) && Next(w, Transcribed(turn, true), capacity, io) == w1
    ensures Enabled(w1, Answered(turn, Reply(n, true))) && Next(w1, Answered(turn, Reply(n, true)), capacity, io) == w2
    ensures Enabled(w2, Ended(turn, true)) && Next(w2, Ended(turn, true), capacity, io) == w3
    ensures w3.sent == w.sent + [Sent(s, turn, Stt)] + Frames(s, turn, Deltas(n)) + [Sent(s, turn, End)]
    ensures Over(w3, s, turn) && O.Row(turn, O.Pending) in w3.box.records && Settled(w3.box.file)
  {
    hide *;
    TranscriptThenAsked(w, s, token, turn, capacity, io);
    w1 := Next(w, Transcribed(turn, true), capacity, io);
    ReplyThenStreamed(w1, s, token, turn, n, capacity, io);
    w2 := Next(w1, Answered(turn, Reply(n, true)), capacity, io);
    StreamedThenOver(w2, s, token, turn, capacity, io);
    w3 := Next(w2, Ended(turn, true), capacity, io);
  }

  lemma SevenSteps(w0: World, w1: World, w2: World, w3: World, w4: World, w5: World, w6: World, w7: World,
                   evs: seq<Event>, capacity: nat, io: O.Disk)
    requires |evs| == 7
    requires Enabled(w0, evs[0]) && Next(w0, evs[0], capacity, io) == w1
    requires Enabled(w1, evs[1]) && Next(w1, evs[1], capacity, io) == w2
    requires Enabled(w2, evs[2]) && Next(w2, evs[2], capacity, io) == w3
    requires Enabled(w3, evs[3]) && Next(w3, evs[3], capacity, io) == w4
    requires Enabled(w4, evs[4]) && Next(w4, evs[4], capacity, io) == w5
    requires Enabled(w5, evs[5]) && Next(w5, evs[5], capacity, io) == w6
    requires Enabled(w6, evs[6]) && Next(w6, evs[6], capacity, io) == w7
    ensures Feasible(w0, evs, capacity, io) && After(w0, evs, capacity, io) == w7
  {
    hide *;
    Chain([w0, w1, w2, w3, w4, w5, w6, w7], evs, capacity, io);
  }

  lemma CourseIs(w: World, s: SocketId, token: string, turn: Turn, n: nat)
    requires s in w.sockets
    ensures var v := Validation(s, token, w.sockets[s].generation + 1);
            Course(w, s, token, turn, n) ==
              [Lane(s, token, true), Validated(v, true, false, false, turn, false), Audio(s, Starts), Audio(s, Ends),
               Transcribed(turn, true), Answered(turn, Reply(n, true)), Ended(turn, true)]
  {}

  lemma SameFresh(w: World, w1: World, turn: Turn)
    requires SameRest(w, w1) && w1.used == w.used
    ensures w1.box == w.box && (FreshTurn(w, turn) ==> FreshTurn(w1, turn))
  {}

  lemma SameSent(w: World, w1: World)
    requires SameRest(w, w1)
    ensures w1.sent == w.sent && w1.box == w.box
  {}

  /** A delivered turn leaves the outbox, and an expired one is kept there as such. */
  lemma CompletedLeave(w: World, x: Turn, capacity: nat, io: O.Disk)
    requires Inv(w, capacity) && !w.box.latched && O.Row(x, O.Pending) in w.box.records && io(w.box.writes) == Written
    ensures OE.NoRowFor(Next(w, Delivered(x), capacity, io).box, x)
    ensures var w' := Next(w, RetryExpired(x), capacity, io);
            O.Row(x, O.Expired) in w'.box.records && Settled(w'.box.file)
  {
    hide *;
    BoxInv(w, capacity);
    OE.WrittenRemoval(w.box, capacity, x, io);
    OE.WrittenExpiry(w.box, capacity, x, io);
    CompletedIs(w, x, capacity, io);
  }

  lemma BoxInv(w: World, capacity: nat)
    requires Inv(w, capacity)
    ensures O.Inv(w.box, capacity)
  {}

  lemma CompletedIs(w: World, x: Turn, capacity: nat, io: O.Disk)
    ensures Enabled(w, Delivered(x)) && Next(w, Delivered(x), capacity, io).box == O.RemoveDelivered(w.box, x, io).box
    ensures Enabled(w, RetryExpired(x)) && Next(w, RetryExpired(x), capacity, io).box == O.MarkExpired(w.box, x, io).box
  {
    hide O.RemoveDelivered, O.MarkExpired;
  }

  // ------------------------------------------------------------------ endings

  /** A stop or cancel that names the socket's turn, and a closing socket, leave nothing armed:
      the socket listens or is closed, its running handler is aborted, others are not. */
  lemma StopEnds(w: World, s: SocketId, ev: Event, capacity: nat, io: O.Disk)
    requires Inv(w, capacity) && Open(w, s) && (ev.Stop? || ev.CancelCapture? || ev.Close?) && ev.s == s
    requires ev.Close? || MatchesTurn(w.sockets[s], ev.token)
    ensures var k, w' := w.sockets[s], Next(w, ev, capacity, io);
            && OnlySocket(w, w', s) && w'.sent == w.sent
            && w'.sockets[s].token == None && w'.sockets[s].reservation == None && w'.sockets[s].preparation == None
            && w'.sockets[s].active == None && !w'.sockets[s].validated
            && (if ev.Close? then !w'.sockets[s].open else w'.sockets[s].open && w'.sockets[s].phase == Listening)
            && w'.running == (if k.active.Some? then w.running[k.active.value := w.running[k.active.value].(aborted := true)]
                              else w.running)
            && (k.active.Some? ==> k.active.value in w.running)
  {
    SocketOf(w, s, capacity);
    assert SocketShape(w, s);
    hide Inv, O.CancelReservation;
    match ev
    case Stop(_, token) => StoppedIs(w, s, token, true, io);
    case CancelCapture(_, token) => StoppedIs(w, s, token, false, io);
    case Close(_) => ClosedIs(w, s, io);
  }

  /** What is left of a stopped socket. */
  predicate Stopped(k: Socket, w: World, w': World, s: SocketId) {
    && OnlySocket(w, w', s) && w'.sent == w.sent && s in w'.sockets
    && w'.sockets[s].token == None && w'.sockets[s].reservation == None && w'.sockets[s].preparation == None
    && w'.sockets[s].active == None && !w'.sockets[s].validated
    && w'.running == AbortRunning(w, k.active).running
  }

  lemma StoppedIs(w: World, s: SocketId, token: string, flag: bool, io: O.Disk)
    requires s in w.sockets && SocketShape(w, s) && w.sockets[s].open && MatchesTurn(w.sockets[s], token)
    ensures var w' := StopStep(w, s, token, flag, io);
            Stopped(w.sockets[s], w, w', s) && w'.sockets[s].open && w'.sockets[s].phase == Listening
  {
    StopForms(w, s, token, flag, io);
    hide StopStep, CloseStep, O.CancelReservation;
  }

  lemma ClosedIs(w: World, s: SocketId, io: O.Disk)
    requires s in w.sockets && SocketShape(w, s) && w.sockets[s].open
    ensures var w' := CloseStep(w, s, io); Stopped(w.sockets[s], w, w', s) && !w'.sockets[s].open
  {
    StopForms(w, s, "", false, io);
    hide StopStep, CloseStep, O.CancelReservation;
  }

  /** The deadline disarms a capture of its own generation without audio, and no other. */
  lemma DeadlineDisarms(w: World, s: SocketId, token: string, generation: nat, capacity: nat, io: O.Disk)
    requires s in w.sockets
    ensures var k, w' := w.sockets[s], Next(w, Deadline(s, token, generation), capacity, io);
            if Owns(k, token, generation) && !k.preparation.value.audioStarted
            then OnlySocket(w, w', s) && w'.sockets[s] == k.(token := None, validated := false, reservation := None, preparation := None)
            else w' == w
  {
    hide O.CancelReservation;
  }
}
