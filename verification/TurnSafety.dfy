/**
 Safety of the capture turns over every interleaving: reservations are conserved, a
 stopped turn falls silent, and a stale handler cannot touch a newer turn.
 */
module TurnSafety {
  import opened Durable
  import O = Outbox
  import opened Reservations
  import opened TurnMachine
  import opened TurnOwnership

  // -------------------------------------------------------- the shape of turns

  /** The running turn of a socket: its own unaborted handler, which an abort would reach. */
  predicate ActiveShape(w: World, s: SocketId, k: Socket) {
    k.active.Some? ==>
      (&& k.open && k.phase == Processing && k.token == None
       && k.active.value in w.running && w.running[k.active.value].socket == s && !w.running[k.active.value].aborted
       && k.activeToken == Some(w.running[k.active.value].token) && k.abort == k.active)
  }

  /** An armed capture: its preparation is the current one, and only validated speech is captured. */
  predicate CaptureShape(k: Socket) {
    && (k.reservation.Some? <==> k.validated)
    && (k.validated ==> k.token.Some?)
    && (k.preparation.Some? ==> k.token.Some? && Owns(k, k.token.value, k.generation))
    && (k.open && k.phase == Capturing ==> k.validated && (k.preparation.Some? ==> k.preparation.value.audioStarted))
  }

  predicate SocketShape(w: World, s: SocketId)
    requires s in w.sockets
  {
    var k := w.sockets[s];
    && ActiveShape(w, s, k)
    && CaptureShape(k)
    && (k.active == None ==> k.activeToken == None && k.abort == None)
    && (!k.open ==> k.token == None)
    && (k.open && k.phase == Processing ==> k.active.Some?)
  }

  /** A handler that lost its socket was aborted. */
  predicate HandlerShape(w: World, x: Turn)
    requires x in w.running
  {
    && w.running[x].socket in w.sockets
    && (w.running[x].point == Transcribing <==> !w.running[x].promoted)
    && (w.sockets[w.running[x].socket].active != Some(x) ==> w.running[x].aborted)
  }

  /** A validation still running for the current preparation has not validated it yet. */
  predicate ValidationShape(w: World, v: Validation) {
    && v.socket in w.sockets
    && v.generation <= w.sockets[v.socket].generation
    && (v.generation == w.sockets[v.socket].generation ==> !w.sockets[v.socket].validated)
  }

  predicate Shapes(w: World) {
    && (forall s :: s in w.sockets ==> SocketShape(w, s))
    && (forall x :: x in w.running ==> HandlerShape(w, x))
    && (forall v :: v in w.validations ==> ValidationShape(w, v))
  }

  /** Generations are never reused, so one validation belongs to each. */
  predicate UniqueValidation(w: World, v: Validation) {
    forall u :: u in w.validations && u.socket == v.socket && u.generation == v.generation ==> u == v
  }

  predicate UniqueValidations(w: World) {
    forall v :: v in w.validations ==> UniqueValidation(w, v)
  }

  predicate Inv(w: World, capacity: nat) {
    Owned(w, capacity) && Shapes(w) && UniqueValidations(w)
  }

  // ------------------------------------------------------------ ownership kept

  lemma ResetKeeps(w: World, s: SocketId, capacity: nat, io: O.Disk)
    requires Owned(w, capacity) && s in w.sockets
    ensures Owned(ResetUnstarted(w, s, io), capacity)
  {
    DisarmKeeps(w, s, capacity, io);
    hide Owned, Disarm;
  }

  lemma LaneKeeps(w: World, s: SocketId, token: string, admitted: bool, capacity: nat)
    requires Owned(w, capacity) && s in w.sockets && SocketShape(w, s)
    ensures Owned(LaneStep(w, s, token, admitted), capacity)
  {
    hide Owned;
    // A socket without a token owns no reservation, so the frame overwrites nothing.
    var w' := LaneStep(w, s, token, admitted);
    if w' != w {
      assert w.sockets[s].reservation == None;
      PutSame(w, s, w'.sockets[s], capacity);
      OwnedRest(Put(w, s, w'.sockets[s]), w', capacity);
    }
  }

  /** Pending validations and sent frames own nothing. */
  lemma OwnedRest(w: World, w': World, capacity: nat)
    requires Owned(w, capacity) && w'.sockets == w.sockets && w'.running == w.running && w'.box == w.box && w'.used == w.used
    ensures Owned(w', capacity)
  {}

  lemma ReservedKeeps(w: World, s: SocketId, k: Socket, turn: Turn, capacity: nat, io: O.Disk)
    requires Owned(w, capacity) && FreshTurn(w, turn) && s in w.sockets && w.sockets[s].reservation == None
    ensures var r := O.Reserve(w.box, capacity, turn, io);
            var w1 := w.(box := r.box, used := w.used + {turn});
            if r.verdict == O.Done then Owned(Put(w1, s, k.(reservation := Some(turn))), capacity) else Owned(w1, capacity)
  {
    var r := O.Reserve(w.box, capacity, turn, io);
    var w1 := w.(box := r.box, used := w.used + {turn});
    ReserveBalanced(w.box, w.used, Captures(w), Handling(w), w.running.Keys, capacity, turn, io);
    assert Captures(w1) == Captures(w) && Handling(w1) == Handling(w);
    ExclusiveSame(w, w1);
    if r.verdict == O.Done {
      assert turn !in w.used by { FreshDistinctUsed(w, turn, capacity); }
      assert turn !in Captures(w) by { CapturesUsed(w, capacity); }
      var w2 := Put(w1, s, k.(reservation := Some(turn)));
      PutWith(w1, s, k.(reservation := Some(turn)), turn);
      assert Handling(w2) == Handling(w);
      hide O.Reserve, Captures, Handling, Balanced, Exclusive;
    } else {
      hide O.Reserve, Captures, Handling, Balanced, Exclusive;
    }
  }

  lemma FreshDistinctUsed(w: World, turn: Turn, capacity: nat)
    requires Owned(w, capacity) && FreshTurn(w, turn)
    ensures turn !in w.used
  {}

  lemma CapturesUsed(w: World, capacity: nat)
    requires Owned(w, capacity)
    ensures Captures(w) <= w.used && w.running.Keys <= w.used
  {}

  lemma ValidatedKeeps(w: World, v: Validation, ok: bool, expired: bool, refused: bool, turn: Turn,
                       expiredAfter: bool, capacity: nat, io: O.Disk)
    requires Owned(w, capacity) && v.socket in w.sockets && FreshTurn(w, turn)
    requires SocketShape(w, v.socket) && ValidationShape(w, v)
    ensures Owned(ValidatedStep(w, v, ok, expired, refused, turn, expiredAfter, capacity, io), capacity)
  {
    hide Owned, Disarm, ResetUnstarted, O.Reserve;
    var w0 := w.(validations := w.validations - {v});
    OwnedRest(w, w0, capacity);
    var k := w.sockets[v.socket];
    if Owns(k, v.token, v.generation) {
      assert k.reservation == None;
      DisarmKeeps(w0, v.socket, capacity, io);
      ResetKeeps(w0, v.socket, capacity, io);
      ReservedKeeps(w0, v.socket, k.(validated := true), turn, capacity, io);
      var r := O.Reserve(w0.box, capacity, turn, io);
      var w1 := w0.(box := r.box, used := w0.used + {turn});
      if r.verdict != O.Done {
        DisarmKeeps(w1, v.socket, capacity, io);
      } else {
        ResetKeeps(Put(w1, v.socket, k.(reservation := Some(turn), validated := true)), v.socket, capacity, io);
      }
    }
  }

  lemma AudioKeeps(w: World, s: SocketId, vad: Vad, capacity: nat)
    requires Owned(w, capacity) && s in w.sockets
    ensures Owned(AudioStep(w, s, vad), capacity)
  {
    hide Owned, StartTurn;
    var k := w.sockets[s];
    if k.phase != Processing && k.token.Some? {
      var k1 := if Owns(k, k.token.value, k.generation)
                then k.(preparation := Some(k.preparation.value.(audioStarted := true))) else k;
      PutSame(w, s, k1, capacity);
      PutSame(w, s, k1.(phase := Transition(k.phase, SpeechStart)), capacity);
      PutSame(w, s, k1.(phase := Transition(k.phase, UtteranceEnd)), capacity);
      PutSame(w, s, k1.(phase := Transition(k.phase, SpeechChunk)), capacity);
      StartKeeps(Put(w, s, k1.(phase := Transition(k.phase, UtteranceEnd))), s, capacity);
    }
  }

  lemma EndUtteranceKeeps(w: World, s: SocketId, token: string, capacity: nat)
    requires Owned(w, capacity) && s in w.sockets
    ensures Owned(EndUtteranceStep(w, s, token), capacity)
  {
    hide Owned, StartTurn;
    var k := w.sockets[s];
    PutSame(w, s, k.(phase := Transition(k.phase, UtteranceEnd)), capacity);
    StartKeeps(Put(w, s, k.(phase := Transition(k.phase, UtteranceEnd))), s, capacity);
  }

  /** Aborting a handler moves no reservation. */
  lemma AbortKeeps(w: World, x: Option<Turn>, capacity: nat)
    requires Owned(w, capacity)
    ensures Owned(AbortRunning(w, x), capacity)
  {
    var w' := AbortRunning(w, x);
    assert Captures(w') == Captures(w) && Handling(w') == Handling(w) && w'.running.Keys == w.running.Keys;
    ExclusiveSame(w, w');
    hide Captures, Handling, Balanced, Exclusive;
  }

  lemma StopKeeps(w: World, s: SocketId, token: string, flag: bool, capacity: nat, io: O.Disk)
    requires Owned(w, capacity) && s in w.sockets
    ensures Owned(StopStep(w, s, token, flag, io), capacity)
    ensures Owned(CloseStep(w, s, io), capacity)
  {
    hide Owned, Return, AbortRunning;
    var w1 := Disarm(w, s, io);
    DisarmKeeps(w, s, capacity, io);
    AbortKeeps(w1, w1.sockets[s].abort, capacity);
    AbortSockets(w1, w1.sockets[s].abort);
    var w2 := AbortRunning(w1, w1.sockets[s].abort);
    PutSame(w2, s, CloseStep(w, s, io).sockets[s], capacity);
    var k' := StopStep(w, s, token, flag, io).sockets[s];
    if MatchesTurn(w.sockets[s], token) {
      PutSame(w1, s, k', capacity);
      PutSame(w2, s, k', capacity);
    }
  }

  lemma AbortSockets(w: World, x: Option<Turn>)
    ensures AbortRunning(w, x).sockets == w.sockets
  {}

  lemma PromotedKeeps(w: World, x: Turn, capacity: nat, io: O.Disk)
    requires Owned(w, capacity) && x in w.running && !w.running[x].promoted
    ensures var r := O.Promote(w.box, x, io);
            && (r.verdict == O.Done ==>
                  Owned(w.(box := r.box, running := w.running[x := w.running[x].(promoted := true, point := Replying)]), capacity))
            && (r.verdict != O.Done ==> Owned(w.(box := r.box), capacity))
  {
    var r := O.Promote(w.box, x, io);
    PromoteBalanced(w.box, w.used, Captures(w), Handling(w), w.running.Keys, capacity, x, io);
    var w1 := w.(box := r.box);
    var w2 := w1.(running := w.running[x := w.running[x].(promoted := true, point := Replying)]);
    assert Captures(w1) == Captures(w) && Handling(w1) == Handling(w);
    assert Captures(w2) == Captures(w) && Handling(w2) == Handling(w) - {x} && w2.running.Keys == w.running.Keys;
    ExclusiveSame(w, w1);
    ExclusiveSame(w, w2);
    hide O.Promote, Captures, Handling, Balanced, Exclusive;
  }

  lemma TranscribedKeeps(w: World, x: Turn, ok: bool, capacity: nat, io: O.Disk)
    requires Owned(w, capacity) && Enabled(w, Transcribed(x, ok)) && HandlerShape(w, x)
    ensures Owned(TranscribedStep(w, x, ok, io), capacity)
  {
    hide Owned, Finally, O.Promote, IsCurrent;
    FinallyKeeps(w, x, capacity, io);
    PromotedKeeps(w, x, capacity, io);
    var r := O.Promote(w.box, x, io);
    var w1 := w.(box := r.box);
    if r.verdict != O.Done {
      FinallyKeeps(w1, x, capacity, io);
    } else {
      var w2 := w1.(running := w.running[x := w.running[x].(promoted := true, point := Replying)]);
      OwnedRest(w2, Send(w2, x, Stt), capacity);
      FinallyKeeps(Send(w2, x, Stt), x, capacity, io);
    }
  }

  lemma StreamedOwned(w: World, x: Turn, deltas: nat, capacity: nat)
    requires Owned(w, capacity) && x in w.running
    ensures Owned(SendDeltas(w.(running := w.running[x := w.running[x].(point := Streamed)]), x, deltas), capacity)
  {
    var w1 := w.(running := w.running[x := w.running[x].(point := Streamed)]);
    var w2 := SendDeltas(w1, x, deltas);
    assert w2.(sent := w1.sent) == w1;
    assert Captures(w2) == Captures(w) && Handling(w2) == Handling(w) && w2.running.Keys == w.running.Keys;
    ExclusiveSame(w, w2);
    hide Captures, Handling, Balanced, Exclusive, SendDeltas;
  }

  lemma AnsweredKeeps(w: World, x: Turn, answer: Answer, capacity: nat, io: O.Disk)
    requires Owned(w, capacity) && Enabled(w, Answered(x, answer))
    ensures Owned(AnsweredStep(w, x, answer, io), capacity)
  {
    hide Owned, Finally, SendDeltas, IsCurrent;
    FinallyKeeps(w, x, capacity, io);
    if answer.Reply? {
      StreamedOwned(w, x, answer.deltas, capacity);
      var w1 := SendDeltas(w.(running := w.running[x := w.running[x].(point := Streamed)]), x, answer.deltas);
      FinallyKeeps(w1, x, capacity, io);
    }
  }

  lemma EndedKeeps(w: World, x: Turn, ready: bool, capacity: nat, io: O.Disk)
    requires Owned(w, capacity) && Enabled(w, Ended(x, ready))
    ensures Owned(EndedStep(w, x, ready, io), capacity)
  {
    hide Owned, Finally, IsCurrent;
    FinallyKeeps(w, x, capacity, io);
    OwnedRest(w, Send(w, x, End), capacity);
    FinallyKeeps(Send(w, x, End), x, capacity, io);
  }

  lemma CompletedKeeps(w: World, t: Turn, capacity: nat, io: O.Disk)
    requires Owned(w, capacity)
    ensures Owned(w.(box := O.RemoveDelivered(w.box, t, io).box), capacity)
    ensures Owned(w.(box := O.MarkExpired(w.box, t, io).box), capacity)
  {
    CompletedBalanced(w.box, w.used, Captures(w), Handling(w), w.running.Keys, capacity, t, io);
    var w1, w2 := w.(box := O.RemoveDelivered(w.box, t, io).box), w.(box := O.MarkExpired(w.box, t, io).box);
    assert Captures(w1) == Captures(w) == Captures(w2) && Handling(w1) == Handling(w) == Handling(w2);
    ExclusiveSame(w, w1);
    ExclusiveSame(w, w2);
    hide O.RemoveDelivered, O.MarkExpired, Captures, Handling, Balanced, Exclusive;
  }

  lemma OwnedKept(w: World, ev: Event, capacity: nat, io: O.Disk)
    requires Inv(w, capacity) && Enabled(w, ev)
    ensures Owned(Next(w, ev, capacity, io), capacity)
  {
    hide Owned, LaneStep, ValidatedStep, AudioStep, EndUtteranceStep, StopStep, CloseStep, TranscribedStep,
         AnsweredStep, EndedStep, ResetUnstarted, O.RemoveDelivered, O.MarkExpired;
    match ev
    case Connect(s) => PutSame(w, s, FRESH, capacity);
    case Lane(s, token, admitted) => LaneKeeps(w, s, token, admitted, capacity);
    case Validated(v, ok, expired, refused, turn, expiredAfter) =>
      ValidatedKeeps(w, v, ok, expired, refused, turn, expiredAfter, capacity, io);
    case Deadline(s, token, generation) => ResetKeeps(w, s, capacity, io);
    case Audio(s, vad) => AudioKeeps(w, s, vad, capacity);
    case EndUtterance(s, token) => EndUtteranceKeeps(w, s, token, capacity);
    case Stop(s, token) => StopKeeps(w, s, token, true, capacity, io);
    case CancelCapture(s, token) => StopKeeps(w, s, token, false, capacity, io);
    case Close(s) => StopKeeps(w, s, "", false, capacity, io);
    case Transcribed(x, ok) => TranscribedKeeps(w, x, ok, capacity, io);
    case Answered(x, answer) => AnsweredKeeps(w, x, answer, capacity, io);
    case Ended(x, ready) => EndedKeeps(w, x, ready, capacity, io);
    case Delivered(x) => CompletedKeeps(w, x, capacity, io);
    case RetryExpired(x) => CompletedKeeps(w, x, capacity, io);
  }

  // --------------------------------------------------------------- shapes kept

  /** Two worlds that agree on everything a shape speaks about. */
  predicate SameTurns(w: World, w': World) {
    w'.sockets == w.sockets && w'.running == w.running && w'.validations == w.validations
  }

  lemma ShapesRest(w: World, w': World)
    requires Shapes(w) && SameTurns(w, w')
    ensures Shapes(w')
  {}

  /** One socket changes; its running turn does not, or it had none and starts none. */
  lemma ShapesPut(w: World, s: SocketId, k: Socket)
    requires Shapes(w)
    requires SocketShape(Put(w, s, k), s)
    requires s in w.sockets ==> k.active == w.sockets[s].active
    requires s !in w.sockets ==> k.active == None && k.generation == 0
    requires s in w.sockets ==> k.generation == w.sockets[s].generation && (k.validated ==> w.sockets[s].validated)
    ensures Shapes(Put(w, s, k))
  {}

  lemma DisarmShapes(w: World, s: SocketId, io: O.Disk)
    requires Shapes(w) && s in w.sockets && (w.sockets[s].phase == Capturing ==> !w.sockets[s].open)
    ensures Shapes(Disarm(w, s, io))
  {
    var k := w.sockets[s];
    assert SocketShape(w, s);
    var k' := k.(token := None, validated := false, reservation := None, preparation := None);
    var w1 := if k.reservation.Some? then Return(w, k.reservation.value, io) else w;
    ShapesRest(w, w1);
    ShapesPut(w1, s, k');
    hide Return;
  }

  lemma ResetShapes(w: World, s: SocketId, io: O.Disk)
    requires Shapes(w) && s in w.sockets
    ensures Shapes(ResetUnstarted(w, s, io))
  {
    assert SocketShape(w, s);
    // Captured speech marks its preparation as started, so only a silent capture is reset.
    var k := w.sockets[s];
    if k.preparation.Some? && !k.preparation.value.audioStarted {
      DisarmShapes(w, s, io);
    }
    hide Disarm, Shapes;
  }

  lemma LaneShapes(w: World, s: SocketId, token: string, admitted: bool)
    requires Shapes(w) && Open(w, s)
    ensures Shapes(LaneStep(w, s, token, admitted))
  {
    var w' := LaneStep(w, s, token, admitted);
    assert SocketShape(w, s);
    if w' != w {
      forall r | r in w'.sockets ensures SocketShape(w', r) { assert SocketShape(w, r); }
      forall x | x in w'.running ensures HandlerShape(w', x) { assert HandlerShape(w, x); }
      forall v | v in w'.validations ensures ValidationShape(w', v) {
        if v in w.validations { assert ValidationShape(w, v); }
      }
    }
  }

  lemma ValidatedShapes(w: World, v: Validation, ok: bool, expired: bool, refused: bool, turn: Turn,
                        expiredAfter: bool, capacity: nat, io: O.Disk)
    requires Shapes(w) && v in w.validations && v.socket in w.sockets && UniqueValidation(w, v)
    ensures Shapes(ValidatedStep(w, v, ok, expired, refused, turn, expiredAfter, capacity, io))
  {
    hide Disarm, ResetUnstarted, O.Reserve;
    var w0 := w.(validations := w.validations - {v});
    FewerValidations(w, v);
    var k, s := w.sockets[v.socket], v.socket;
    assert SocketShape(w, s) && ValidationShape(w, v);
    if Owns(k, v.token, v.generation) {
      // An unvalidated capture has no captured speech.
      assert !k.validated && (k.phase == Capturing ==> !k.open);
      DisarmShapes(w0, s, io);
      ResetShapes(w0, s, io);
      var r := O.Reserve(w0.box, capacity, turn, io);
      var w1 := w0.(box := r.box, used := w0.used + {turn});
      ShapesRest(w0, w1);
      if r.verdict != O.Done {
        DisarmShapes(w1, s, io);
      } else {
        var k' := k.(reservation := Some(turn), validated := true);
        ShapesValidated(w1, s, k', v);
        ResetShapes(Put(w1, s, k'), s, io);
      }
    }
    hide Shapes, SocketShape, ValidationShape;
  }

  lemma FewerValidations(w: World, v: Validation)
    requires Shapes(w)
    ensures Shapes(w.(validations := w.validations - {v}))
  {}

  lemma ShapesValidated(w: World, s: SocketId, k': Socket, v: Validation)
    requires Shapes(w) && s in w.sockets && w.sockets[s].token.Some? && !w.sockets[s].validated
    requires exists t :: k' == w.sockets[s].(reservation := Some(t), validated := true)
    requires forall u :: u in w.validations && u.socket == s ==> u.generation != w.sockets[s].generation
    ensures Shapes(Put(w, s, k'))
  {}

  lemma StartShapes(w: World, s: SocketId)
    requires Shapes(w) && Open(w, s) && w.sockets[s].phase == Capturing
    requires w.sockets[s].reservation.Some? ==> w.sockets[s].reservation.value !in w.running
    ensures Shapes(StartTurn(Put(w, s, w.sockets[s].(phase := Processing)), s))
  {
    var w0 := Put(w, s, w.sockets[s].(phase := Processing));
    var w' := StartTurn(w0, s);
    assert SocketShape(w, s);
    forall r | r in w'.sockets ensures SocketShape(w', r) { assert SocketShape(w, r); }
    forall x | x in w'.running ensures HandlerShape(w', x) {
      if x in w.running { assert HandlerShape(w, x); }
    }
    forall v | v in w'.validations ensures ValidationShape(w', v) { assert ValidationShape(w, v); }
  }

  lemma AudioShapes(w: World, s: SocketId, vad: Vad)
    requires Shapes(w) && Open(w, s)
    requires w.sockets[s].reservation.Some? ==> w.sockets[s].reservation.value !in w.running
    ensures Shapes(AudioStep(w, s, vad))
  {
    var k := w.sockets[s];
    assert SocketShape(w, s);
    if k.phase != Processing && k.token.Some? {
      var k1 := if Owns(k, k.token.value, k.generation)
                then k.(preparation := Some(k.preparation.value.(audioStarted := true))) else k;
      HeardShapes(w, s, k1);
      AudioForms(w, s, vad, k1);
      hide Shapes, StartTurn, SocketShape, AudioStep, Put;
      if k.phase == Capturing {
        PutTwice(w, s, k1, k1.(phase := Processing));
        StartShapes(Put(w, s, k1), s);
      }
    }
  }

  lemma PutTwice(w: World, s: SocketId, k: Socket, k': Socket)
    ensures Put(Put(w, s, k), s, k') == Put(w, s, k') && Put(w, s, k).sockets[s] == k
    ensures Put(w, s, k).running == w.running && s in Put(w, s, k).sockets
  {}

  lemma AudioForms(w: World, s: SocketId, vad: Vad, k1: Socket)
    requires s in w.sockets && w.sockets[s].phase != Processing && w.sockets[s].token.Some?
    requires k1 == if Owns(w.sockets[s], w.sockets[s].token.value, w.sockets[s].generation)
                   then w.sockets[s].(preparation := Some(w.sockets[s].preparation.value.(audioStarted := true)))
                   else w.sockets[s]
    ensures var w', k := AudioStep(w, s, vad), w.sockets[s];
            || w' == Put(w, s, k1)
            || (w' == Put(w, s, k1.(phase := Capturing)) && k.phase == Listening && k.validated)
            || (w' == StartTurn(Put(w, s, k1.(phase := Processing)), s) && k.phase == Capturing)
  {}

  /** Audio marks the current preparation as started, and may begin captured speech. */
  lemma HeardShapes(w: World, s: SocketId, k1: Socket)
    requires Shapes(w) && Open(w, s) && w.sockets[s].phase != Processing && w.sockets[s].token.Some?
    requires k1 == if Owns(w.sockets[s], w.sockets[s].token.value, w.sockets[s].generation)
                   then w.sockets[s].(preparation := Some(w.sockets[s].preparation.value.(audioStarted := true)))
                   else w.sockets[s]
    ensures Shapes(Put(w, s, k1))
    ensures w.sockets[s].phase == Listening && w.sockets[s].validated ==> Shapes(Put(w, s, k1.(phase := Capturing)))
  {
    assert SocketShape(w, s);
    ShapesPut(w, s, k1);
    if w.sockets[s].phase == Listening && w.sockets[s].validated {
      ShapesPut(w, s, k1.(phase := Capturing));
    }
    hide Shapes;
  }

  lemma AbortShapes(w: World, s: SocketId, k: Socket)
    requires Shapes(w) && s in w.sockets && k.active == None && k.generation == w.sockets[s].generation
    requires k.validated ==> w.sockets[s].validated
    requires SocketShape(Put(w, s, k), s)
    ensures Shapes(Put(AbortRunning(w, w.sockets[s].abort), s, k))
  {
    var w' := Put(AbortRunning(w, w.sockets[s].abort), s, k);
    assert SocketShape(w, s);
    forall r | r in w'.sockets ensures SocketShape(w', r) { assert SocketShape(w, r); }
    forall x | x in w'.running ensures HandlerShape(w', x) { assert HandlerShape(w, x); }
    forall v | v in w'.validations ensures ValidationShape(w', v) { assert ValidationShape(w, v); }
  }

  function Off(k: Socket): Socket {
    k.(token := None, validated := false, reservation := None, preparation := None)
  }

  function Silenced(k: Socket): Socket {
    Off(k).(cancelRequested := true, active := None, activeToken := None, abort := None)
  }

  /** What a stop or close comes to, as one change of the socket. */
  lemma StopForms(w: World, s: SocketId, token: string, flag: bool, io: O.Disk)
    requires s in w.sockets && SocketShape(w, s)
    ensures var k := w.sockets[s];
            var w1 := if k.reservation.Some? then Return(w, k.reservation.value, io) else w;
            && CloseStep(w, s, io) == Put(AbortRunning(w1, k.abort), s, Silenced(k).(open := false))
            && (MatchesTurn(k, token) ==> StopStep(w, s, token, flag, io) == match k.phase
                  case Listening => Put(w1, s, Off(k))
                  case Capturing => Put(w1, s, Off(k).(phase := Listening, cancelRequested := flag || k.cancelRequested,
                                                       active := if flag then None else k.active,
                                                       activeToken := if flag then None else k.activeToken))
                  case Processing => Put(AbortRunning(w1, k.abort), s, Silenced(k).(phase := Listening)))
  {
    var k := w.sockets[s];
    var w1 := if k.reservation.Some? then Return(w, k.reservation.value, io) else w;
    var w2 := Disarm(w, s, io);
    assert w2 == Put(w1, s, Off(k));
    assert forall k' :: Put(w2, s, k') == Put(w1, s, k');
    assert AbortRunning(w2, k.abort).sockets == w2.sockets && AbortRunning(w2, k.abort).running == AbortRunning(w1, k.abort).running;
    assert forall k' :: Put(AbortRunning(w2, k.abort), s, k') == Put(AbortRunning(w1, k.abort), s, k');
    hide Return, AbortRunning;
  }

  lemma StopShapes(w: World, s: SocketId, token: string, flag: bool, io: O.Disk)
    requires Shapes(w) && Open(w, s)
    ensures Shapes(StopStep(w, s, token, flag, io)) && Shapes(CloseStep(w, s, io))
  {
    var k := w.sockets[s];
    assert SocketShape(w, s);
    var w1 := if k.reservation.Some? then Return(w, k.reservation.value, io) else w;
    ShapesRest(w, w1);
    StopForms(w, s, token, flag, io);
    AbortShapes(w1, s, Silenced(k).(open := false));
    if k.phase == Processing {
      AbortShapes(w1, s, Silenced(k).(phase := Listening));
    } else {
      ShapesPut(w1, s, Off(k).(phase := Listening, cancelRequested := flag || k.cancelRequested));
      ShapesPut(w1, s, Off(k).(phase := Listening));
    }
    hide Shapes, Return, AbortRunning, StopStep, CloseStep;
  }

  lemma FinallyShapes(w: World, x: Turn, io: O.Disk)
    requires Shapes(w) && x in w.running
    ensures Shapes(Finally(w, x, io))
  {
    var w' := Finally(w, x, io);
    assert HandlerShape(w, x) && SocketShape(w, w.running[x].socket);
    forall s | s in w'.sockets ensures SocketShape(w', s) { assert SocketShape(w, s); }
    forall y | y in w'.running ensures HandlerShape(w', y) { assert HandlerShape(w, y); }
    forall v | v in w'.validations ensures ValidationShape(w', v) { assert ValidationShape(w, v); }
    hide Return;
  }

  /** A handler that moves on while it still owns its socket. */
  lemma AdvanceShapes(w: World, x: Turn, point: Point, promoted: bool)
    requires Shapes(w) && x in w.running && (point == Transcribing <==> !promoted)
    ensures Shapes(w.(running := w.running[x := w.running[x].(point := point, promoted := promoted)]))
  {
    var w' := w.(running := w.running[x := w.running[x].(point := point, promoted := promoted)]);
    assert HandlerShape(w, x);
    forall s | s in w'.sockets ensures SocketShape(w', s) { assert SocketShape(w, s); }
    forall y | y in w'.running ensures HandlerShape(w', y) { assert HandlerShape(w, y); }
    forall v | v in w'.validations ensures ValidationShape(w', v) { assert ValidationShape(w, v); }
  }

  lemma TranscribedShapes(w: World, x: Turn, ok: bool, io: O.Disk)
    requires Shapes(w) && Enabled(w, Transcribed(x, ok))
    ensures Shapes(TranscribedStep(w, x, ok, io))
  {
    hide Shapes, Finally, O.Promote, IsCurrent;
    FinallyShapes(w, x, io);
    var r := O.Promote(w.box, x, io);
    var w1 := w.(box := r.box);
    ShapesRest(w, w1);
    FinallyShapes(w1, x, io);
    AdvanceShapes(w1, x, Replying, true);
    var w2 := w1.(running := w.running[x := w.running[x].(promoted := true, point := Replying)]);
    ShapesRest(w2, Send(w2, x, Stt));
    FinallyShapes(Send(w2, x, Stt), x, io);
  }

  lemma AnsweredShapes(w: World, x: Turn, answer: Answer, io: O.Disk)
    requires Shapes(w) && Enabled(w, Answered(x, answer))
    ensures Shapes(AnsweredStep(w, x, answer, io))
  {
    assert HandlerShape(w, x);
    hide Shapes, Finally, IsCurrent;
    FinallyShapes(w, x, io);
    if answer.Reply? {
      AdvanceShapes(w, x, Streamed, w.running[x].promoted);
      var w1 := w.(running := w.running[x := w.running[x].(point := Streamed)]);
      ShapesRest(w1, SendDeltas(w1, x, answer.deltas));
      FinallyShapes(SendDeltas(w1, x, answer.deltas), x, io);
    }
  }

  lemma EndedShapes(w: World, x: Turn, ready: bool, io: O.Disk)
    requires Shapes(w) && Enabled(w, Ended(x, ready))
    ensures Shapes(EndedStep(w, x, ready, io))
  {
    hide Shapes, Finally, IsCurrent;
    FinallyShapes(w, x, io);
    ShapesRest(w, Send(w, x, End));
    FinallyShapes(Send(w, x, End), x, io);
  }

  // ----------------------------------------------------------------- every step

  lemma ShapesKept(w: World, ev: Event, capacity: nat, io: O.Disk)
    requires Inv(w, capacity) && Enabled(w, ev)
    ensures Shapes(Next(w, ev, capacity, io))
  {
    hide Shapes, Owned, LaneStep, ValidatedStep, AudioStep, EndUtteranceStep, StopStep, CloseStep, TranscribedStep,
         AnsweredStep, EndedStep, ResetUnstarted, O.RemoveDelivered, O.MarkExpired;
    match ev
    case Connect(s) =>
      assert SocketShape(Put(w, s, FRESH), s);
      ShapesPut(w, s, FRESH);
    case Lane(s, token, admitted) => LaneShapes(w, s, token, admitted);
    case Validated(v, ok, expired, refused, turn, expiredAfter) =>
      ValidatedShapes(w, v, ok, expired, refused, turn, expiredAfter, capacity, io);
    case Deadline(s, token, generation) => ResetShapes(w, s, io);
    case Audio(s, vad) =>
      if w.sockets[s].reservation.Some? { NotRunningYet(w, s, capacity); }
      AudioShapes(w, s, vad);
    case EndUtterance(s, token) =>
      if w.sockets[s].reservation.Some? { NotRunningYet(w, s, capacity); }
      EndUtteranceShapes(w, s, token);
    case Stop(s, token) => StopShapes(w, s, token, true, io);
    case CancelCapture(s, token) => StopShapes(w, s, token, false, io);
    case Close(s) => StopShapes(w, s, "", false, io);
    case Transcribed(x, ok) => TranscribedShapes(w, x, ok, io);
    case Answered(x, answer) => AnsweredShapes(w, x, answer, io);
    case Ended(x, ready) => EndedShapes(w, x, ready, io);
    case Delivered(x) => ShapesRest(w, w.(box := O.RemoveDelivered(w.box, x, io).box));
    case RetryExpired(x) => ShapesRest(w, w.(box := O.MarkExpired(w.box, x, io).box));
  }

  lemma EndUtteranceShapes(w: World, s: SocketId, token: string)
    requires Shapes(w) && Open(w, s)
    requires w.sockets[s].reservation.Some? ==> w.sockets[s].reservation.value !in w.running
    ensures Shapes(EndUtteranceStep(w, s, token))
  {
    if w.sockets[s].phase == Capturing { StartShapes(w, s); }
    hide Shapes, StartTurn;
  }

  lemma NotRunningYet(w: World, s: SocketId, capacity: nat)
    requires Owned(w, capacity) && s in w.sockets && w.sockets[s].reservation.Some?
    ensures w.sockets[s].reservation.value !in w.running && w.sockets[s].reservation.value in w.used
  {}

  /** Only a lane frame adds a validation, and it takes the next generation. */
  lemma ValidationsStep(w: World, ev: Event, capacity: nat, io: O.Disk)
    requires Shapes(w) && Enabled(w, ev)
    ensures var w' := Next(w, ev, capacity, io);
            || w'.validations <= w.validations
            || (ev.Lane? && w'.validations == w.validations + {Validation(ev.s, ev.token, w.sockets[ev.s].generation + 1)})
  {
    hide Shapes, O.Reserve, O.Promote, O.CancelReservation, O.RemoveDelivered, O.MarkExpired;
    match ev
    case Validated(v, ok, expired, refused, turn, expiredAfter) =>
      ValidatedValidations(w, v, ok, expired, refused, turn, expiredAfter, capacity, io);
    case Stop(s, token) => StopValidations(w, s, token, true, io);
    case CancelCapture(s, token) => StopValidations(w, s, token, false, io);
    case Transcribed(x, ok) => HandlerValidations(w, x, ok, More, io);
    case Answered(x, answer) => HandlerValidations(w, x, true, answer, io);
    case _ =>
  }

  lemma ValidatedValidations(w: World, v: Validation, ok: bool, expired: bool, refused: bool, turn: Turn,
                             expiredAfter: bool, capacity: nat, io: O.Disk)
    requires v.socket in w.sockets
    ensures ValidatedStep(w, v, ok, expired, refused, turn, expiredAfter, capacity, io).validations <= w.validations
  {}

  lemma StopValidations(w: World, s: SocketId, token: string, flag: bool, io: O.Disk)
    requires s in w.sockets
    ensures StopStep(w, s, token, flag, io).validations == w.validations
  {}

  lemma HandlerValidations(w: World, x: Turn, ok: bool, answer: Answer, io: O.Disk)
    requires x in w.running && w.running[x].socket in w.sockets
    ensures TranscribedStep(w, x, ok, io).validations == w.validations
    ensures AnsweredStep(w, x, answer, io).validations == w.validations
  {
    hide O.Promote, IsCurrent;
  }

  lemma UniqueKept(w: World, ev: Event, capacity: nat, io: O.Disk)
    requires Inv(w, capacity) && Enabled(w, ev)
    ensures UniqueValidations(Next(w, ev, capacity, io))
  {
    ValidationsStep(w, ev, capacity, io);
    var w' := Next(w, ev, capacity, io);
    forall v | v in w'.validations ensures UniqueValidation(w', v) {
      assert v in w.validations ==> UniqueValidation(w, v) && ValidationShape(w, v);
      assert forall u :: u in w.validations ==> ValidationShape(w, u);
    }
    hide Next, Owned;
  }

  lemma NextKeeps(w: World, ev: Event, capacity: nat, io: O.Disk)
    requires Inv(w, capacity) && Enabled(w, ev)
    ensures Inv(Next(w, ev, capacity, io), capacity)
  {
    OwnedKept(w, ev, capacity, io);
    ShapesKept(w, ev, capacity, io);
    UniqueKept(w, ev, capacity, io);
    hide Next, Owned, Shapes, UniqueValidations;
  }

  // -------------------------------------------------------------------- runs

  predicate Feasible(w: World, run: seq<Event>, capacity: nat, io: O.Disk)
    decreases |run|
  {
    run == [] || (Enabled(w, run[0]) && Feasible(Next(w, run[0], capacity, io), run[1..], capacity, io))
  }

  function After(w: World, run: seq<Event>, capacity: nat, io: O.Disk): World
    requires Feasible(w, run, capacity, io)
    decreases |run|
  {
    if run == [] then w else After(Next(w, run[0], capacity, io), run[1..], capacity, io)
  }

  lemma {:induction false} RunKeeps(w: World, run: seq<Event>, capacity: nat, io: O.Disk)
    requires Inv(w, capacity) && Feasible(w, run, capacity, io)
    ensures Inv(After(w, run, capacity, io), capacity)
    decreases |run|
  {
    hide Inv, Next, Enabled;
    if run != [] {
      NextKeeps(w, run[0], capacity, io);
      RunKeeps(Next(w, run[0], capacity, io), run[1..], capacity, io);
    }
  }

  /** A started bridge: no socket, no handler, and an outbox whose reservations were reclaimed. */
  predicate Start(w: World, capacity: nat) {
    && w.sockets == map[] && w.running == map[] && w.validations == {} && w.sent == []
    && O.Inv(w.box, capacity) && !w.box.latched && w.box.cleanups == []
    && (forall r :: r in w.box.records ==> r.state != O.Reserved)
    && w.used == Turns(w.box) && DistinctKeys(w.used)
  }

  lemma StartInv(w: World, capacity: nat)
    requires Start(w, capacity)
    ensures Inv(w, capacity)
  {}

  // ---------------------------------------------------------------- theorems

  function Count(b: bool): nat { if b then 1 else 0 }

  /** Reservation conservation: while the outbox is not latched, a row is reserved exactly when
      one armed capture, one unfinished handler or the pending cleanups own it, and then only
      one of them does; no two sockets ever own the same one. */
  lemma ReservationsConserved(w: World, run: seq<Event>, capacity: nat, io: O.Disk, t: Turn)
    requires Start(w, capacity) && Feasible(w, run, capacity, io)
    ensures var w' := After(w, run, capacity, io);
            && (!w'.box.latched ==>
                  Count(t in Captures(w')) + Count(t in Handling(w')) + Count(t in Waiting(w'.box))
                  == Count(O.Row(t, O.Reserved) in w'.box.records))
            && (forall s, r :: s in w'.sockets && r in w'.sockets && s != r && w'.sockets[s].reservation == Some(t) ==>
                  w'.sockets[r].reservation != Some(t))
  {
    StartInv(w, capacity);
    RunKeeps(w, run, capacity, io);
    var w' := After(w, run, capacity, io);
    InReserving(w'.box, t);
    HandlingKnown(w', capacity);
    hide Captures, Handling, Reserving, Waiting, Turns;
  }

  /** A lane frame never drops a live reservation, and captured speech always has its turn token
      and its reservation. */
  lemma CapturesAreArmed(w: World, run: seq<Event>, capacity: nat, io: O.Disk, s: SocketId, token: string)
    requires Start(w, capacity) && Feasible(w, run, capacity, io) && Open(After(w, run, capacity, io), s)
    ensures var w' := After(w, run, capacity, io);
            && Captures(LaneStep(w', s, token, true)) == Captures(w')
            && (w'.sockets[s].phase == Capturing ==> w'.sockets[s].token.Some? && w'.sockets[s].reservation.Some?)
  {
    StartInv(w, capacity);
    RunKeeps(w, run, capacity, io);
    var w' := After(w, run, capacity, io);
    assert SocketShape(w', s);
    LaneCaptures(w', s, token, capacity);
  }

  lemma LaneCaptures(w: World, s: SocketId, token: string, capacity: nat)
    requires Owned(w, capacity) && s in w.sockets && SocketShape(w, s)
    ensures Captures(LaneStep(w, s, token, true)) == Captures(w)
  {
    var w' := LaneStep(w, s, token, true);
    if w' != w {
      PutSame(w, s, w'.sockets[s], capacity);
      assert Captures(w') == Captures(Put(w, s, w'.sockets[s]));
    }
    hide Owned;
  }

  // -------------------------------------------------------------- isolation

  /** A turn that is over for every socket: not running anywhere, and never to start again. */
  predicate Over(w: World, x: Turn) {
    x in w.used && x !in Captures(w) && forall s :: s in w.sockets ==> w.sockets[s].active != Some(x)
  }

  /** Where a socket's turns come from: what it had, or a fresh reservation. */
  predicate SocketForward(w: World, k': Socket, s: SocketId) {
    && (k'.active.Some? ==> s in w.sockets && (w.sockets[s].active == k'.active || w.sockets[s].reservation == k'.active))
    && (k'.reservation.Some? ==> (s in w.sockets && w.sockets[s].reservation == k'.reservation) || k'.reservation.value !in w.used)
  }

  /** New frames belong to turns that were current before the step. */
  predicate FramesForward(w: World, sent: seq<Sent>) {
    w.sent <= sent && forall k :: |w.sent| <= k < |sent| ==> IsCurrent(w, sent[k].turn)
  }

  predicate Forward(w: World, w': World) {
    && w.used <= w'.used
    && (forall s :: s in w'.sockets ==> SocketForward(w, w'.sockets[s], s))
    && FramesForward(w, w'.sent)
  }

  lemma Reflexive(w: World)
    ensures Forward(w, w)
  {}

  lemma PutForward(w: World, w1: World, s: SocketId, k: Socket)
    requires Forward(w, w1) && SocketForward(w, k, s)
    ensures Forward(w, Put(w1, s, k))
  {}

  lemma RestForward(w: World, w1: World, w2: World)
    requires Forward(w, w1) && w2.sockets == w1.sockets && w1.used <= w2.used && w2.sent == w1.sent
    ensures Forward(w, w2)
  {}

  lemma DisarmForward(w: World, w1: World, s: SocketId, io: O.Disk)
    requires Forward(w, w1) && s in w1.sockets
    ensures Forward(w, Disarm(w1, s, io)) && Forward(w, ResetUnstarted(w1, s, io))
  {}

  lemma StartForward(w: World, s: SocketId, k: Socket)
    requires s in w.sockets && k.reservation == w.sockets[s].reservation && k.active == w.sockets[s].active
    ensures Forward(w, StartTurn(Put(w, s, k), s))
  {}

  lemma SocketsForward(w: World, ev: Event, capacity: nat, io: O.Disk)
    requires Inv(w, capacity) && Enabled(w, ev)
    requires ev.Connect? || ev.Lane? || ev.Deadline? || ev.Audio? || ev.EndUtterance?
    ensures Forward(w, Next(w, ev, capacity, io))
  {
    hide Inv, Forward, StartTurn, ResetUnstarted, Owns;
    Reflexive(w);
    match ev
    case Connect(s) => PutForward(w, w, s, FRESH);
    case Lane(s, token, admitted) =>
      var w' := LaneStep(w, s, token, admitted);
      if w' != w {
        PutForward(w, w, s, w'.sockets[s]);
        RestForward(w, Put(w, s, w'.sockets[s]), w');
      }
    case Deadline(s, token, generation) => DisarmForward(w, w, s, io);
    case Audio(s, vad) =>
      var k := w.sockets[s];
      if k.phase != Processing && k.token.Some? {
        var k1 := if Owns(k, k.token.value, k.generation) && k.preparation.Some?
                  then k.(preparation := Some(k.preparation.value.(audioStarted := true))) else k;
        AudioForm(w, s, vad);
        StartForward(w, s, k1.(phase := Transition(k.phase, UtteranceEnd)));
        PutForward(w, w, s, k1);
        PutForward(w, w, s, k1.(phase := Transition(k.phase, SpeechStart)));
        PutForward(w, w, s, k1.(phase := Transition(k.phase, SpeechChunk)));
      }
    case EndUtterance(s, token) =>
      StartForward(w, s, w.sockets[s].(phase := Transition(w.sockets[s].phase, UtteranceEnd)));
  }

  lemma AudioForm(w: World, s: SocketId, vad: Vad)
    requires s in w.sockets && w.sockets[s].token.Some?
    ensures Owns(w.sockets[s], w.sockets[s].token.value, w.sockets[s].generation) ==> w.sockets[s].preparation.Some?
  {}

  lemma StopForward(w: World, s: SocketId, token: string, flag: bool, io: O.Disk)
    requires s in w.sockets && SocketShape(w, s)
    ensures Forward(w, StopStep(w, s, token, flag, io)) && Forward(w, CloseStep(w, s, io))
  {
    var k := w.sockets[s];
    var w1 := if k.reservation.Some? then Return(w, k.reservation.value, io) else w;
    StopForms(w, s, token, flag, io);
    Reflexive(w);
    RestForward(w, w, w1);
    AbortSockets(w1, k.abort);
    RestForward(w, w1, AbortRunning(w1, k.abort));
    PutForward(w, AbortRunning(w1, k.abort), s, Silenced(k).(open := false));
    PutForward(w, AbortRunning(w1, k.abort), s, Silenced(k).(phase := Listening));
    PutForward(w, w1, s, Off(k));
    var k' := Off(k).(phase := Listening, cancelRequested := flag || k.cancelRequested,
                      active := if flag then None else k.active, activeToken := if flag then None else k.activeToken);
    PutForward(w, w1, s, k');
    hide Forward, Return, StopStep, CloseStep, SocketShape, Put;
  }

  lemma ValidatedForward(w: World, v: Validation, ok: bool, expired: bool, refused: bool, turn: Turn,
                         expiredAfter: bool, capacity: nat, io: O.Disk)
    requires Owned(w, capacity) && v.socket in w.sockets && FreshTurn(w, turn)
    ensures Forward(w, ValidatedStep(w, v, ok, expired, refused, turn, expiredAfter, capacity, io))
  {
    FreshDistinctUsed(w, turn, capacity);
    hide O.CancelReservation, O.Reserve, Owns, Owned, Forward, Disarm, ResetUnstarted;
    var s, k := v.socket, w.sockets[v.socket];
    var w0 := w.(validations := w.validations - {v});
    var r := O.Reserve(w.box, capacity, turn, io);
    var w1 := w0.(box := r.box, used := w.used + {turn});
    Reflexive(w);
    RestForward(w, w, w0);
    RestForward(w, w, w1);
    DisarmForward(w, w0, s, io);
    DisarmForward(w, w1, s, io);
    PutForward(w, w1, s, k.(reservation := Some(turn), validated := true));
    DisarmForward(w, Put(w1, s, k.(reservation := Some(turn), validated := true)), s, io);
  }

  lemma FinallyForward(w: World, w1: World, x: Turn, io: O.Disk)
    requires Forward(w, w1) && x in w1.running && w1.running[x].socket in w1.sockets
    ensures Forward(w, Finally(w1, x, io))
  {}

  lemma DeltasForward(w: World, w1: World, x: Turn, n: nat)
    requires FramesForward(w, w1.sent) && x in w1.running && IsCurrent(w, x)
    ensures FramesForward(w, SendDeltas(w1, x, n).sent)
  {}

  lemma TranscribedForward(w: World, x: Turn, ok: bool, io: O.Disk)
    requires Enabled(w, Transcribed(x, ok))
    ensures Forward(w, TranscribedStep(w, x, ok, io))
  {
    hide Finally, O.Promote, IsCurrent;
    FinallyForward(w, w, x, io);
    var r := O.Promote(w.box, x, io);
    var w1 := w.(box := r.box);
    FinallyForward(w, w1, x, io);
    if IsCurrent(w, x) {
      var w2 := Send(w1.(running := w.running[x := w.running[x].(promoted := true, point := Replying)]), x, Stt);
      assert Forward(w, w2);
      FinallyForward(w, w2, x, io);
    }
  }

  lemma AnsweredForward(w: World, x: Turn, answer: Answer, io: O.Disk)
    requires Enabled(w, Answered(x, answer))
    ensures Forward(w, AnsweredStep(w, x, answer, io))
  {
    hide Finally, IsCurrent;
    FinallyForward(w, w, x, io);
    if answer.Reply? && IsCurrent(w, x) {
      var w1 := w.(running := w.running[x := w.running[x].(point := Streamed)]);
      DeltasForward(w, w1, x, answer.deltas);
      var w2 := SendDeltas(w1, x, answer.deltas);
      assert Forward(w, w2);
      FinallyForward(w, w2, x, io);
    }
  }

  lemma EndedForward(w: World, x: Turn, ready: bool, io: O.Disk)
    requires Enabled(w, Ended(x, ready))
    ensures Forward(w, EndedStep(w, x, ready, io))
  {}

  lemma StepForward(w: World, ev: Event, capacity: nat, io: O.Disk)
    requires Inv(w, capacity) && Enabled(w, ev)
    ensures Forward(w, Next(w, ev, capacity, io))
  {
    hide Owned, Shapes, LaneStep, ValidatedStep, AudioStep, EndUtteranceStep, StopStep, CloseStep, TranscribedStep,
         AnsweredStep, EndedStep, O.RemoveDelivered, O.MarkExpired;
    match ev
    case Validated(v, ok, expired, refused, turn, expiredAfter) =>
      ValidatedForward(w, v, ok, expired, refused, turn, expiredAfter, capacity, io);
    case Transcribed(x, ok) => TranscribedForward(w, x, ok, io);
    case Answered(x, answer) => AnsweredForward(w, x, answer, io);
    case Ended(x, ready) => EndedForward(w, x, ready, io);
    case Delivered(_) =>
    case RetryExpired(_) =>
    case Stop(s, token) => StopEvents(w, s, token, true, io);
    case CancelCapture(s, token) => StopEvents(w, s, token, false, io);
    case Close(s) => StopEvents(w, s, "", false, io);
    case _ =>
      SocketsForward(w, ev, capacity, io);
      hide Forward;
  }

  lemma StopEvents(w: World, s: SocketId, token: string, flag: bool, io: O.Disk)
    requires Shapes(w) && s in w.sockets
    ensures Forward(w, StopStep(w, s, token, flag, io)) && Forward(w, CloseStep(w, s, io))
  {
    StopForward(w, s, token, flag, io);
    hide Forward;
  }

  /** Frames of one turn after the first `n`. */
  predicate SilentSince(sent: seq<Sent>, n: nat, x: Turn) {
    forall k :: n <= k < |sent| ==> sent[k].turn != x
  }

  lemma OverStays(w: World, w': World, x: Turn)
    requires Over(w, x) && Forward(w, w')
    ensures Over(w', x) && w.sent <= w'.sent && SilentSince(w'.sent, |w.sent|, x)
  {}

  lemma {:induction false} SilentForever(w: World, run: seq<Event>, capacity: nat, io: O.Disk, x: Turn)
    requires Inv(w, capacity) && Feasible(w, run, capacity, io) && Over(w, x)
    ensures w.sent <= After(w, run, capacity, io).sent && SilentSince(After(w, run, capacity, io).sent, |w.sent|, x)
    decreases |run|
  {
    hide Inv, Next, Enabled, Over, Forward;
    if run != [] {
      var w' := Next(w, run[0], capacity, io);
      NextKeeps(w, run[0], capacity, io);
      StepForward(w, run[0], capacity, io);
      OverStays(w, w', x);
      SilentForever(w', run[1..], capacity, io, x);
      var after := After(w', run[1..], capacity, io).sent;
      forall k | |w.sent| <= k < |after| ensures after[k].turn != x {
        if k < |w'.sent| { assert after[k] == w'.sent[k]; }
      }
    }
  }

  /** Turn isolation: once a stop, a cancel or the closing of a socket is accepted, no frame of the
      turn it ran or had armed is ever sent again, whatever its old handler still does. */
  lemma StoppedTurnIsSilent(w: World, run: seq<Event>, capacity: nat, io: O.Disk, ev: Event, s: SocketId, x: Turn, rest: seq<Event>)
    requires Start(w, capacity) && Feasible(w, run, capacity, io) && Open(After(w, run, capacity, io), s)
    requires ev.Stop? || ev.CancelCapture? || ev.Close?
    requires ev.s == s && (ev.Close? || MatchesTurn(After(w, run, capacity, io).sockets[s], ev.token))
    requires After(w, run, capacity, io).sockets[s].active == Some(x) || After(w, run, capacity, io).sockets[s].reservation == Some(x)
    requires Feasible(Next(After(w, run, capacity, io), ev, capacity, io), rest, capacity, io)
    ensures var stopped := Next(After(w, run, capacity, io), ev, capacity, io);
            && stopped.sent <= After(stopped, rest, capacity, io).sent
            && SilentSince(After(stopped, rest, capacity, io).sent, |stopped.sent|, x)
  {
    StartInv(w, capacity);
    RunKeeps(w, run, capacity, io);
    var w1 := After(w, run, capacity, io);
    NextKeeps(w1, ev, capacity, io);
    StopEndsTurn(w1, ev, capacity, io, s, x);
    SilentForever(Next(w1, ev, capacity, io), rest, capacity, io, x);
    hide Inv, Next, Over, Start, Feasible, After;
  }

  lemma StopEndsTurn(w: World, ev: Event, capacity: nat, io: O.Disk, s: SocketId, x: Turn)
    requires Inv(w, capacity) && Open(w, s) && (ev.Stop? || ev.CancelCapture? || ev.Close?) && ev.s == s
    requires ev.Close? || MatchesTurn(w.sockets[s], ev.token)
    requires w.sockets[s].active == Some(x) || w.sockets[s].reservation == Some(x)
    ensures Over(Next(w, ev, capacity, io), x)
  {
    hide Inv, Over, Open, MatchesTurn, StopStep, CloseStep;
    match ev
    case Stop(_, token) => EndedTurn(w, s, token, true, capacity, io, x);
    case CancelCapture(_, token) => EndedTurn(w, s, token, false, capacity, io, x);
    case Close(_) => ClosedTurn(w, s, capacity, io, x);
  }

  lemma EndedTurn(w: World, s: SocketId, token: string, flag: bool, capacity: nat, io: O.Disk, x: Turn)
    requires Inv(w, capacity) && Open(w, s) && MatchesTurn(w.sockets[s], token)
    requires w.sockets[s].active == Some(x) || w.sockets[s].reservation == Some(x)
    ensures Over(StopStep(w, s, token, flag, io), x)
  {
    SocketOf(w, s, capacity);
    hide StopStep, CloseStep, Return, AbortRunning, Inv, SocketShape;
    StopForms(w, s, token, flag, io);
    NothingLeft(w, StopStep(w, s, token, flag, io), s, capacity, x);
  }

  lemma ClosedTurn(w: World, s: SocketId, capacity: nat, io: O.Disk, x: Turn)
    requires Inv(w, capacity) && Open(w, s)
    requires w.sockets[s].active == Some(x) || w.sockets[s].reservation == Some(x)
    ensures Over(CloseStep(w, s, io), x)
  {
    SocketOf(w, s, capacity);
    hide StopStep, CloseStep, Return, AbortRunning, Inv, SocketShape;
    StopForms(w, s, "", false, io);
    NothingLeft(w, CloseStep(w, s, io), s, capacity, x);
  }

  lemma SocketOf(w: World, s: SocketId, capacity: nat)
    requires Inv(w, capacity) && s in w.sockets
    ensures SocketShape(w, s) && (w.sockets[s].active.Some? ==> w.sockets[s].phase == Processing)
  {}

  lemma NothingLeft(w: World, w': World, s: SocketId, capacity: nat, x: Turn)
    requires Inv(w, capacity) && s in w.sockets && (w.sockets[s].active == Some(x) || w.sockets[s].reservation == Some(x))
    requires w'.used == w.used && w'.sockets.Keys == w.sockets.Keys
    requires w'.sockets[s].active == None && w'.sockets[s].reservation == None
    requires forall r :: r in w.sockets && r != s ==> w'.sockets[r] == w.sockets[r]
    ensures Over(w', x)
  {
    TurnKnown(w, s, x, capacity);
    forall r | r in w'.sockets
      ensures w'.sockets[r].reservation != Some(x) && w'.sockets[r].active != Some(x) {
      OtherTurn(w, s, r, x, capacity);
    }
    hide Inv;
  }

  lemma TurnKnown(w: World, s: SocketId, x: Turn, capacity: nat)
    requires Inv(w, capacity) && s in w.sockets && (w.sockets[s].active == Some(x) || w.sockets[s].reservation == Some(x))
    ensures x in w.used
  {}

  /** No other socket runs or has armed the turn. */
  lemma OtherTurn(w: World, s: SocketId, r: SocketId, x: Turn, capacity: nat)
    requires Inv(w, capacity) && s in w.sockets && r in w.sockets
    requires w.sockets[s].active == Some(x) || w.sockets[s].reservation == Some(x)
    ensures r != s ==> w.sockets[r].active != Some(x) && w.sockets[r].reservation != Some(x)
  {}

  /** A handler whose turn was stopped or superseded changes no socket, sends nothing, and leaves
      every other handler alone: its cleanup cannot touch a newer turn. */
  lemma StaleHandlerIsInert(w: World, ev: Event, capacity: nat, io: O.Disk, x: Turn)
    requires Inv(w, capacity) && Enabled(w, ev) && (ev.Transcribed? || ev.Answered? || ev.Ended?) && ev.x == x
    requires !IsCurrent(w, x)
    ensures var w' := Next(w, ev, capacity, io);
            && w'.sockets == w.sockets && w'.sent == w.sent && w'.running == w.running - {x}
            && w.running[x].aborted
  {
    assert HandlerShape(w, x) && SocketShape(w, w.running[x].socket);
    hide Owned, O.CancelReservation;
  }
}
