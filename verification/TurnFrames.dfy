/**
 What the sockets are sent: the frames of one turn are a transcript, then deltas of the
 reply, then one end, all on one socket; and a turn nobody interferes with gets them all.
 */
module TurnFrames {
  import opened Durable
  import O = Outbox
  import OE = OutboxEffects
  import opened Reservations
  import opened TurnMachine
  import opened TurnOwnership
  import opened TurnSafety

  // ------------------------------------------------------- the frames of a turn

  /** The kinds of the frames of one turn, in the order they were sent. */
  function KindsOf(sent: seq<Sent>, x: Turn): seq<Kind> {
    if sent == [] then []
    else
      var last := sent[|sent| - 1];
      KindsOf(sent[..|sent| - 1], x) + if last.turn == x then [last.kind] else []
  }

  function Frames(s: SocketId, x: Turn, kinds: seq<Kind>): (r: seq<Sent>)
    ensures |r| == |kinds| && forall k :: 0 <= k < |r| ==> r[k] == Sent(s, x, kinds[k])
  {
    seq(|kinds|, k requires 0 <= k < |kinds| => Sent(s, x, kinds[k]))
  }

  function Deltas(n: nat): (r: seq<Kind>)
    ensures |r| == n && forall k :: 0 <= k < n ==> r[k] == Delta
  {
    seq(n, k => Delta)
  }

  /** Nothing, or a transcript followed by deltas, with at most one end as the last frame. */
  predicate InOrder(kinds: seq<Kind>) {
    kinds == [] ||
      (&& kinds[0] == Stt
       && (forall k :: 0 < k < |kinds| - 1 ==> kinds[k] == Delta)
       && (|kinds| > 1 ==> kinds[|kinds| - 1] in {Delta, End}))
  }

  predicate OneSocket(sent: seq<Sent>, x: Turn) {
    forall j, k :: 0 <= j < |sent| && 0 <= k < |sent| && sent[j].turn == x && sent[k].turn == x ==>
      sent[j].socket == sent[k].socket
  }

  /** How far a suspended handler has got with its frames. */
  predicate AtPoint(point: Point, kinds: seq<Kind>) {
    match point
    case Transcribing => kinds == []
    case Replying => kinds == [Stt]
    case Streamed => kinds != [] && kinds[|kinds| - 1] != End
  }

  predicate OnSocket(sent: seq<Sent>, x: Turn, s: SocketId) {
    forall k :: 0 <= k < |sent| && sent[k].turn == x ==> sent[k].socket == s
  }

  predicate Framed(w: World, x: Turn) {
    && InOrder(KindsOf(w.sent, x)) && OneSocket(w.sent, x)
    && (x in w.running ==> AtPoint(w.running[x].point, KindsOf(w.sent, x)) && OnSocket(w.sent, x, w.running[x].socket))
    && (x !in w.used || x in Captures(w) ==> KindsOf(w.sent, x) == [])
  }

  ghost predicate AllFramed(w: World) {
    forall x :: Framed(w, x)
  }

  lemma {:induction false} KindsAdded(sent: seq<Sent>, s: SocketId, y: Turn, kinds: seq<Kind>, x: Turn)
    ensures KindsOf(sent + Frames(s, y, kinds), x) == KindsOf(sent, x) + if x == y then kinds else []
    decreases |kinds|
  {
    if kinds == [] {
      assert sent + Frames(s, y, kinds) == sent;
    } else {
      var n := |kinds| - 1;
      var all := sent + Frames(s, y, kinds);
      assert all[..|all| - 1] == sent + Frames(s, y, kinds[..n]);
      KindsAdded(sent, s, y, kinds[..n], x);
      assert kinds[..n] + [kinds[n]] == kinds;
    }
  }

  lemma {:induction false} NoKindsNoFrames(sent: seq<Sent>, x: Turn)
    requires KindsOf(sent, x) == []
    ensures forall k :: 0 <= k < |sent| ==> sent[k].turn != x
  {
    if sent != [] {
      NoKindsNoFrames(sent[..|sent| - 1], x);
      assert forall k :: 0 <= k < |sent| - 1 ==> sent[..|sent| - 1][k] == sent[k];
    }
  }

  // ----------------------------------------------------------------- each step

  /** Handlers are those of before, no further than before, or new ones for armed captures. */
  predicate HandlersForward(w: World, w': World) {
    forall x :: x in w'.running ==>
      || (x in w.running && w'.running[x].socket == w.running[x].socket && w'.running[x].point == w.running[x].point)
      || (x in Captures(w) && w'.running[x].point == Transcribing)
  }

  lemma CapturesForward(w: World, w': World)
    requires Forward(w, w')
    ensures forall t :: t in Captures(w') ==> t in Captures(w) || t !in w.used
  {
    forall t | t in Captures(w') ensures t in Captures(w) || t !in w.used {
      var s :| s in w'.sockets && w'.sockets[s].reservation == Some(t);
      assert SocketForward(w, w'.sockets[s], s);
      if t in w.used { CaptureListed(w, s); }
    }
  }

  lemma QuietFramed(w: World, w': World)
    requires AllFramed(w) && Forward(w, w') && w'.sent == w.sent && HandlersForward(w, w')
    ensures AllFramed(w')
  {
    CapturesForward(w, w');
    forall x ensures Framed(w', x) {
      assert Framed(w, x);
      if x in Captures(w) { NoKindsNoFrames(w.sent, x); }
    }
    hide Captures, Forward;
  }

  /** A current handler sends frames and moves on. */
  lemma SentFramed(w: World, w': World, x: Turn, kinds: seq<Kind>)
    requires AllFramed(w) && x in w.running && x in w.used && x !in Captures(w)
    requires w'.sent == w.sent + Frames(w.running[x].socket, x, kinds) && w'.sockets == w.sockets && w'.used == w.used
    requires w'.running.Keys == w.running.Keys && w'.running[x].socket == w.running[x].socket
    requires forall y :: y in w.running && y != x ==> w'.running[y] == w.running[y]
    requires InOrder(KindsOf(w.sent, x) + kinds) && AtPoint(w'.running[x].point, KindsOf(w.sent, x) + kinds)
    ensures AllFramed(w')
  {
    assert Captures(w') == Captures(w);
    assert Framed(w, x);
    hide Framed, Captures, KindsOf, InOrder, AtPoint;
    OwnFramed(w, w', x, kinds);
    forall y | y != x ensures Framed(w', y) {
      assert Framed(w, y);
      OtherFramed(w, w', x, kinds, y);
    }
  }

  lemma OwnFramed(w: World, w': World, x: Turn, kinds: seq<Kind>)
    requires Framed(w, x) && x in w.running && x in w.used && x !in Captures(w')
    requires w'.sent == w.sent + Frames(w.running[x].socket, x, kinds) && w'.used == w.used
    requires x in w'.running && w'.running[x].socket == w.running[x].socket
    requires InOrder(KindsOf(w.sent, x) + kinds) && AtPoint(w'.running[x].point, KindsOf(w.sent, x) + kinds)
    ensures Framed(w', x)
  {
    KindsAdded(w.sent, w.running[x].socket, x, kinds, x);
    OwnAdded(w.sent, w.running[x].socket, x, kinds);
    hide Captures, KindsOf, InOrder, AtPoint, OneSocket, OnSocket, Frames;
  }

  lemma OtherFramed(w: World, w': World, x: Turn, kinds: seq<Kind>, y: Turn)
    requires Framed(w, y) && x in w.running && y != x
    requires w'.sent == w.sent + Frames(w.running[x].socket, x, kinds) && w.used <= w'.used
    requires y in w'.running ==> y in w.running && w'.running[y] == w.running[y]
    requires y in Captures(w') ==> y in Captures(w)
    ensures Framed(w', y)
  {
    KindsAdded(w.sent, w.running[x].socket, x, kinds, y);
    OthersAdded(w.sent, w.running[x].socket, x, kinds, y);
    hide Captures, KindsOf, InOrder, AtPoint, OneSocket, OnSocket, Frames;
  }

  lemma OwnAdded(sent: seq<Sent>, s: SocketId, x: Turn, kinds: seq<Kind>)
    requires OnSocket(sent, x, s)
    ensures OnSocket(sent + Frames(s, x, kinds), x, s) && OneSocket(sent + Frames(s, x, kinds), x)
  {}

  lemma OthersAdded(sent: seq<Sent>, s: SocketId, x: Turn, kinds: seq<Kind>, y: Turn)
    requires y != x
    ensures OneSocket(sent, y) ==> OneSocket(sent + Frames(s, x, kinds), y)
    ensures forall r :: OnSocket(sent, y, r) ==> OnSocket(sent + Frames(s, x, kinds), y, r)
  {}

  lemma FinallyFramed(w: World, x: Turn, io: O.Disk)
    requires AllFramed(w) && x in w.running && w.running[x].socket in w.sockets
    ensures AllFramed(Finally(w, x, io))
  {
    Reflexive(w);
    FinallyForward(w, w, x, io);
    FinallyQuiet(w, x, io);
    QuietFramed(w, Finally(w, x, io));
    hide Forward, Finally, HandlersForward, Framed;
  }

  lemma FinallyQuiet(w: World, x: Turn, io: O.Disk)
    requires x in w.running && w.running[x].socket in w.sockets
    ensures var w' := Finally(w, x, io); w'.sent == w.sent && HandlersForward(w, w') && w'.running == w.running - {x}
  {
    hide O.CancelReservation;
  }

  lemma BoxFramed(w: World, b: O.Box)
    requires AllFramed(w)
    ensures AllFramed(w.(box := b))
  {
    assert Captures(w.(box := b)) == Captures(w);
    forall x ensures Framed(w.(box := b), x) { assert Framed(w, x); }
    hide Captures, KindsOf;
  }

  lemma DeltasSent(w: World, x: Turn, n: nat)
    requires x in w.running
    ensures SendDeltas(w, x, n).sent == w.sent + Frames(w.running[x].socket, x, Deltas(n))
  {
    if n > 0 {
      DeltasSent(w, x, n - 1);
      assert Deltas(n) == Deltas(n - 1) + [Delta];
    }
  }

  lemma OfRunning(w: World, x: Turn, capacity: nat)
    requires Owned(w, capacity) && x in w.running
    ensures x in w.used && x !in Captures(w)
  {}

  lemma TranscribedFramed(w: World, x: Turn, ok: bool, capacity: nat, io: O.Disk)
    requires Inv(w, capacity) && AllFramed(w) && Enabled(w, Transcribed(x, ok))
    ensures AllFramed(TranscribedStep(w, x, ok, io))
  {
    OfRunning(w, x, capacity);
    assert Framed(w, x) && KindsOf(w.sent, x) == [];
    hide Inv, Framed, Finally, O.Promote, IsCurrent, AllFramed, Captures, Frames;
    FinallyFramed(w, x, io);
    var r := O.Promote(w.box, x, io);
    var w1 := w.(box := r.box);
    BoxFramed(w, r.box);
    FinallyFramed(w1, x, io);
    var w2 := Send(w1.(running := w.running[x := w.running[x].(promoted := true, point := Replying)]), x, Stt);
    SttFramed(w, w2, x, r.box);
    FinallyFramed(w2, x, io);
  }

  lemma SttFramed(w: World, w2: World, x: Turn, b: O.Box)
    requires AllFramed(w) && x in w.running && x in w.used && x !in Captures(w) && KindsOf(w.sent, x) == []
    requires w2 == Send(w.(box := b, running := w.running[x := w.running[x].(promoted := true, point := Replying)]), x, Stt)
    ensures AllFramed(w2)
  {
    assert w2.sent == w.sent + Frames(w.running[x].socket, x, [Stt]);
    SentFramed(w, w2, x, [Stt]);
    hide AllFramed, Captures, KindsOf;
  }

  lemma AnsweredFramed(w: World, x: Turn, answer: Answer, capacity: nat, io: O.Disk)
    requires Inv(w, capacity) && AllFramed(w) && Enabled(w, Answered(x, answer))
    ensures AllFramed(AnsweredStep(w, x, answer, io))
  {
    OfRunning(w, x, capacity);
    assert Framed(w, x) && KindsOf(w.sent, x) == [Stt];
    hide Inv, Framed, Finally, IsCurrent, AllFramed, Captures, SendDeltas, KindsOf, Frames;
    FinallyFramed(w, x, io);
    if answer.Reply? {
      var w1 := SendDeltas(w.(running := w.running[x := w.running[x].(point := Streamed)]), x, answer.deltas);
      DeltasFramed(w, w1, x, answer.deltas);
      FinallyFramed(w1, x, io);
    }
  }

  lemma DeltasFramed(w: World, w1: World, x: Turn, n: nat)
    requires AllFramed(w) && x in w.running && x in w.used && x !in Captures(w) && KindsOf(w.sent, x) == [Stt]
    requires w1 == SendDeltas(w.(running := w.running[x := w.running[x].(point := Streamed)]), x, n)
    ensures AllFramed(w1) && w1.running == w.running[x := w.running[x].(point := Streamed)] && w1.sockets == w.sockets
  {
    var w0 := w.(running := w.running[x := w.running[x].(point := Streamed)]);
    DeltasSent(w0, x, n);
    assert w1.(sent := w0.sent) == w0;
    SentFramed(w, w1, x, Deltas(n));
    hide AllFramed, Captures, KindsOf, SendDeltas;
  }

  lemma EndedFramed(w: World, x: Turn, ready: bool, capacity: nat, io: O.Disk)
    requires Inv(w, capacity) && AllFramed(w) && Enabled(w, Ended(x, ready))
    ensures AllFramed(EndedStep(w, x, ready, io))
  {
    OfRunning(w, x, capacity);
    assert Framed(w, x);
    hide Inv, Finally, IsCurrent, AllFramed, Captures;
    FinallyFramed(w, x, io);
    EndFramed(w, x, io);
  }

  lemma EndedOwn(w: World, w2: World, x: Turn)
    requires Framed(w, x) && x in w.running && w.running[x].point == Streamed && x !in w2.running
    requires x in w2.used && x !in Captures(w2)
    requires w2.sent == w.sent + Frames(w.running[x].socket, x, [End])
    ensures Framed(w2, x)
  {
    KindsAdded(w.sent, w.running[x].socket, x, [End], x);
    OwnAdded(w.sent, w.running[x].socket, x, [End]);
    hide Captures, KindsOf, OneSocket, OnSocket, Frames;
  }

  /** The end is the last frame: the handler is gone with it. */
  lemma EndFramed(w: World, x: Turn, io: O.Disk)
    requires AllFramed(w) && x in w.running && w.running[x].socket in w.sockets && x in w.used && x !in Captures(w)
    requires w.running[x].point == Streamed
    ensures AllFramed(Finally(Send(w, x, End), x, io))
  {
    var w1 := Send(w, x, End);
    var w2 := Finally(w1, x, io);
    Reflexive(w1);
    FinallyForward(w1, w1, x, io);
    CapturesForward(w1, w2);
    FinallyQuiet(w1, x, io);
    assert Captures(w1) == Captures(w);
    assert w1.sent == w.sent + Frames(w.running[x].socket, x, [End]);
    var s := w.running[x].socket;
    assert Framed(w, x);
    assert w1.used <= w2.used && w1.used == w.used && w1.running == w.running;
    assert forall y :: y in w2.running ==> y != x && y in w.running && w2.running[y] == w.running[y];
    hide Captures, Finally, Forward, KindsOf, HandlersForward, OneSocket, OnSocket, Frames;
    forall y ensures Framed(w2, y) {
      assert Framed(w, y);
      if y == x { EndedOwn(w, w2, x); } else { hide Framed; OtherFramed(w, w2, x, [End], y); }
    }
  }

  lemma SocketStepsQuiet(w: World, ev: Event, capacity: nat, io: O.Disk)
    requires Enabled(w, ev) && !ev.Transcribed? && !ev.Answered? && !ev.Ended? && !ev.Validated?
    ensures var w' := Next(w, ev, capacity, io); w'.sent == w.sent && HandlersForward(w, w')
  {
    hide StartTurn, StopStep, CloseStep, Return, AudioStep, EndUtteranceStep, LaneStep, ResetUnstarted,
         O.RemoveDelivered, O.MarkExpired, HandlersForward;
    Unchanged(w);
    match ev
    case Audio(s, vad) => AudioQuiet(w, s, vad);
    case EndUtterance(s, token) => EndUtteranceQuiet(w, s, token);
    case Stop(s, token) => StopQuiet(w, s, token, true, io);
    case CancelCapture(s, token) => StopQuiet(w, s, token, false, io);
    case Close(s) => StopQuiet(w, s, "", false, io);
    case Lane(s, token, admitted) => LaneQuiet(w, s, token, admitted);
    case Deadline(s, token, generation) => ResetQuiet(w, s, io);
    case Connect(s) => SameHandlers(w, Put(w, s, FRESH));
    case Delivered(x) => SameHandlers(w, w.(box := O.RemoveDelivered(w.box, x, io).box));
    case RetryExpired(x) => SameHandlers(w, w.(box := O.MarkExpired(w.box, x, io).box));
    case _ =>
  }

  lemma Unchanged(w: World)
    ensures HandlersForward(w, w)
  {}

  lemma SameHandlers(w: World, w': World)
    requires w'.running == w.running
    ensures HandlersForward(w, w')
  {}

  lemma LaneQuiet(w: World, s: SocketId, token: string, admitted: bool)
    requires s in w.sockets
    ensures var w' := LaneStep(w, s, token, admitted); w'.sent == w.sent && HandlersForward(w, w')
  {}

  lemma ResetQuiet(w: World, s: SocketId, io: O.Disk)
    requires s in w.sockets
    ensures var w' := ResetUnstarted(w, s, io); w'.sent == w.sent && HandlersForward(w, w')
  {
    hide O.CancelReservation;
  }

  lemma StartQuiet(w: World, s: SocketId, k: Socket)
    requires s in w.sockets && k.reservation == w.sockets[s].reservation
    ensures var w' := StartTurn(Put(w, s, k), s); w'.sent == w.sent && HandlersForward(w, w')
  {
    if k.reservation.Some? { CaptureListed(w, s); }
    hide Captures, Transition, Owns;
  }

  lemma AudioQuiet(w: World, s: SocketId, vad: Vad)
    requires s in w.sockets
    ensures var w' := AudioStep(w, s, vad); w'.sent == w.sent && HandlersForward(w, w')
  {
    var k := w.sockets[s];
    Unchanged(w);
    if k.phase != Processing && k.token.Some? {
      var k1 := if Owns(k, k.token.value, k.generation)
                then k.(preparation := Some(k.preparation.value.(audioStarted := true))) else k;
      AudioForms(w, s, vad, k1);
      StartQuiet(w, s, k1.(phase := Processing));
      SameHandlers(w, Put(w, s, k1));
      SameHandlers(w, Put(w, s, k1.(phase := Capturing)));
    }
    hide StartTurn, HandlersForward;
  }

  lemma EndUtteranceQuiet(w: World, s: SocketId, token: string)
    requires s in w.sockets
    ensures var w' := EndUtteranceStep(w, s, token); w'.sent == w.sent && HandlersForward(w, w')
  {
    Unchanged(w);
    StartQuiet(w, s, w.sockets[s].(phase := Transition(w.sockets[s].phase, UtteranceEnd)));
    hide StartTurn, HandlersForward;
  }

  lemma StopQuiet(w: World, s: SocketId, token: string, flag: bool, io: O.Disk)
    requires s in w.sockets
    ensures var w' := StopStep(w, s, token, flag, io); w'.sent == w.sent && HandlersForward(w, w')
    ensures var w' := CloseStep(w, s, io); w'.sent == w.sent && HandlersForward(w, w')
  {
    hide O.CancelReservation, Captures, Transition;
  }

  lemma ValidatedQuiet(w: World, v: Validation, ok: bool, expired: bool, refused: bool, turn: Turn,
                       expiredAfter: bool, capacity: nat, io: O.Disk)
    requires v.socket in w.sockets
    ensures var w' := ValidatedStep(w, v, ok, expired, refused, turn, expiredAfter, capacity, io);
            w'.sent == w.sent && w'.running == w.running
  {
    hide O.CancelReservation, O.Reserve;
  }

  lemma StepFramed(w: World, ev: Event, capacity: nat, io: O.Disk)
    requires Inv(w, capacity) && AllFramed(w) && Enabled(w, ev)
    ensures AllFramed(Next(w, ev, capacity, io))
  {
    match ev
    case Transcribed(x, ok) => TranscribedFramed(w, x, ok, capacity, io);
    case Answered(x, answer) => AnsweredFramed(w, x, answer, capacity, io);
    case Ended(x, ready) => EndedFramed(w, x, ready, capacity, io);
    case Validated(v, ok, expired, refused, turn, expiredAfter) =>
      StepForward(w, ev, capacity, io);
      ValidatedQuiet(w, v, ok, expired, refused, turn, expiredAfter, capacity, io);
      QuietFramed(w, Next(w, ev, capacity, io));
    case _ =>
      StepForward(w, ev, capacity, io);
      SocketStepsQuiet(w, ev, capacity, io);
      QuietFramed(w, Next(w, ev, capacity, io));
    hide *;
  }

  lemma {:induction false} RunFramed(w: World, run: seq<Event>, capacity: nat, io: O.Disk)
    requires Inv(w, capacity) && AllFramed(w) && Feasible(w, run, capacity, io)
    ensures AllFramed(After(w, run, capacity, io))
    decreases |run|
  {
    hide Inv, AllFramed, Next, Enabled;
    if run != [] {
      NextKeeps(w, run[0], capacity, io);
      StepFramed(w, run[0], capacity, io);
      RunFramed(Next(w, run[0], capacity, io), run[1..], capacity, io);
    }
  }

  /** Over every run: the frames of one turn are its transcript, then deltas, then at most one
      end, all on one socket. */
  lemma FramesInOrder(w: World, run: seq<Event>, capacity: nat, io: O.Disk, x: Turn)
    requires Start(w, capacity) && Feasible(w, run, capacity, io)
    ensures var sent := After(w, run, capacity, io).sent; InOrder(KindsOf(sent, x)) && OneSocket(sent, x)
  {
    StartInv(w, capacity);
    assert forall y :: Framed(w, y);
    RunFramed(w, run, capacity, io);
    assert Framed(After(w, run, capacity, io), x);
  }
}
