/**
 The handset's callback dispatcher under every interleaving: callbacks are queued under
 a monitor and run outside it, by whichever thread finds nobody draining. A callback may
 itself enqueue and drain again.
 */
module CallbackDispatcher {
  import opened Durable

  type Thread = nat
  type Callback = nat

  /** One activation of the draining loop, and the callback it is running. */
  datatype Drainer = Drainer(thread: Thread, running: Option<Callback>)

  /** `owing` are the threads that queued something and have not reached their `drain` yet.
      `queued`, `ran` and `stranded` are history, the last one: a callback threw with
      others waiting and no thread on its way, and nobody has taken over since. */
  datatype State = State(pending: seq<Callback>, draining: bool, drainers: seq<Drainer>,
                         owing: set<Thread>, queued: seq<Callback>, ran: seq<Callback>, stranded: bool)

  datatype Event =
    | Enqueue(t: Thread, c: Callback)
    | DrainHoldingLock(t: Thread)
    | Drain(t: Thread)
    /** What the k-th activation does next. */
    | Take(k: nat)
    | Return(k: nat)
    | Throw(k: nat)

  function Idle(): State {
    State([], false, [], {}, [], [], false)
  }

  predicate Enabled(s: State, ev: Event) {
    match ev
    case Take(k) => k < |s.drainers| && s.drainers[k].running == None
    case Return(k) => k < |s.drainers| && s.drainers[k].running.Some?
    case Throw(k) => k < |s.drainers| && s.drainers[k].running.Some?
    case _ => true
  }

  /** The activation ends and gives up the draining flag, whoever else may still drain. */
  function Leave(s: State, k: nat): State
    requires k < |s.drainers|
  {
    s.(draining := false, drainers := s.drainers[..k] + s.drainers[k + 1..])
  }

  function Next(s: State, ev: Event): State
    requires Enabled(s, ev)
  {
    match ev
    case Enqueue(t, c) => s.(pending := s.pending + [c], owing := s.owing + {t}, queued := s.queued + [c])
    // A drain inside the monitor leaves it to the outer operation.
    case DrainHoldingLock(t) => s
    case Drain(t) =>
      if s.draining then s.(owing := s.owing - {t})
      else s.(owing := s.owing - {t}, draining := true, drainers := s.drainers + [Drainer(t, None)], stranded := false)
    case Take(k) =>
      if s.pending == [] then Leave(s, k)
      else
        var d := s.drainers[k].(running := Some(s.pending[0]));
        s.(pending := s.pending[1..], drainers := s.drainers[k := d], ran := s.ran + [s.pending[0]])
    case Return(k) => s.(drainers := s.drainers[k := s.drainers[k].(running := None)])
    case Throw(k) => Leave(s, k).(stranded := s.pending != [] && s.owing == {})
  }

  /** Callbacks wait and no thread is draining or on its way to drain. */
  predicate Waiting(s: State) {
    s.pending != [] && !s.draining && s.owing == {}
  }

  predicate Inv(s: State) {
    && s.ran + s.pending == s.queued
    && |s.drainers| == (if s.draining then 1 else 0)
    && (Waiting(s) ==> s.stranded)
  }

  lemma NextKeeps(s: State, ev: Event)
    requires Inv(s) && Enabled(s, ev)
    ensures Inv(Next(s, ev))
  {}

  predicate Feasible(s: State, run: seq<Event>)
    decreases |run|
  {
    run == [] || (Enabled(s, run[0]) && Feasible(Next(s, run[0]), run[1..]))
  }

  function After(s: State, run: seq<Event>): State
    requires Feasible(s, run)
    decreases |run|
  {
    if run == [] then s else After(Next(s, run[0]), run[1..])
  }

  lemma {:induction false} RunKeeps(s: State, run: seq<Event>)
    requires Inv(s) && Feasible(s, run)
    ensures Inv(After(s, run))
    decreases |run|
  {
    if run != [] {
      NextKeeps(s, run[0]);
      RunKeeps(Next(s, run[0]), run[1..]);
    }
  }

  /** At every moment the callbacks run so far are the queued ones in order, each once; at most
      one activation drains, nested ones included; and waiting callbacks have a thread coming
      for them, so a quiet dispatcher has run everything, unless a throw stranded them and
      nobody has drained since. */
  lemma FifoExactlyOnce(run: seq<Event>)
    requires Feasible(Idle(), run)
    ensures var s := After(Idle(), run);
            && s.queued == s.ran + s.pending
            && |s.drainers| <= 1
            && (s.pending != [] && !s.stranded ==> |s.drainers| == 1 || s.owing != {})
            && (!s.stranded && !s.draining && s.owing == {} ==> s.ran == s.queued)
  {
    RunKeeps(Idle(), run);
  }

  /** In every reachable state: a step leaves callbacks waiting with nobody coming, where
      somebody was, exactly when it is a callback that throws while others are queued and
      no thread is on its way. */
  lemma ThrowStrands(run: seq<Event>, ev: Event)
    requires Feasible(Idle(), run) && Enabled(After(Idle(), run), ev) && !Waiting(After(Idle(), run))
    ensures var s := After(Idle(), run);
            Waiting(Next(s, ev)) <==> ev.Throw? && s.pending != [] && s.owing == {}
  {
    RunKeeps(Idle(), run);
  }

  /** The shortest such run: the second callback waits, and nobody is coming. */
  lemma StrandedRun()
    ensures var run := [Enqueue(0, 7), Enqueue(0, 8), Drain(0), Take(0), Throw(0)];
            Feasible(Idle(), run) && After(Idle(), run).pending == [8] && Waiting(After(Idle(), run))
  {}

  /** One callback after another, by the only activation, and then the end of its loop. */
  function Rounds(n: nat): (run: seq<Event>)
    ensures forall k :: 0 <= k < |run| ==> !run[k].Throw?
  {
    if n == 0 then [Take(0)] else [Take(0), Return(0)] + Rounds(n - 1)
  }

  lemma {:induction false} RoundsEmpty(s: State)
    requires Inv(s) && s.draining && s.drainers[0].running == None
    ensures Feasible(s, Rounds(|s.pending|))
    ensures var s' := After(s, Rounds(|s.pending|)); s'.ran == s.queued && s'.pending == [] && !s'.draining
    decreases |s.pending|
  {
    var n := |s.pending|;
    if n > 0 {
      var s1 := Next(s, Take(0));
      NextKeeps(s, Take(0));
      var s2 := Next(s1, Return(0));
      NextKeeps(s1, Return(0));
      RoundsEmpty(s2);
      var run := Rounds(n);
      assert run == [Take(0)] + ([Return(0)] + Rounds(n - 1));
      assert run[1..] == [Return(0)] + Rounds(n - 1) && run[1..][1..] == Rounds(n - 1);
    }
  }

  /** In every reachable state without a drainer, also a stranded one: the next `drain`
      of any thread runs everything that waits, in order, when no callback throws. */
  lemma DrainRecovers(run: seq<Event>, t: Thread)
    requires Feasible(Idle(), run) && !After(Idle(), run).draining
    ensures var s := After(Idle(), run);
            var rest := [Drain(t)] + Rounds(|s.pending|);
            && Feasible(s, rest)
            && After(s, rest).ran == s.queued && After(s, rest).pending == [] && !After(s, rest).stranded
  {
    var s := After(Idle(), run);
    RunKeeps(Idle(), run);
    var s1 := Next(s, Drain(t));
    NextKeeps(s, Drain(t));
    RoundsEmpty(s1);
    NotStranded(s1, Rounds(|s.pending|));
    var rest := [Drain(t)] + Rounds(|s.pending|);
    assert rest[0] == Drain(t) && rest[1..] == Rounds(|s.pending|);
  }

  lemma {:induction false} NotStranded(s: State, run: seq<Event>)
    requires Feasible(s, run) && !s.stranded && forall k :: 0 <= k < |run| ==> !run[k].Throw?
    ensures !After(s, run).stranded
    decreases |run|
  {
    if run != [] { NotStranded(Next(s, run[0]), run[1..]); }
  }

  /** The two outcomes of a reply, of which the first to be claimed removes the other. */
  class ReplyCallbacks {
    var done: map<string, Callback>
    var failed: map<string, Callback>

    ghost predicate Valid()
      reads this
    {
      done.Keys == failed.Keys
    }

    constructor ()
      ensures Valid() && done == map[] && fresh(this)
    {
      done, failed := map[], map[];
    }

    method Register(id: string, onDone: Callback, onFailure: Callback)
      requires Valid()
      modifies this
      ensures Valid() && done == old(done)[id := onDone] && failed == old(failed)[id := onFailure]
    {
      done := done[id := onDone];
      failed := failed[id := onFailure];
    }

    /** Whoever completes an id first gets its outcome; nobody gets anything after that. */
    method Complete(id: string, succeeded: bool) returns (callback: Option<Callback>)
      requires Valid()
      modifies this
      ensures Valid() && id !in done && id !in failed
      ensures callback == if id !in old(done) then None else if succeeded then Some(old(done)[id]) else Some(old(failed)[id])
      ensures done == old(done) - {id} && failed == old(failed) - {id}
    {
      if succeeded {
        callback := if id in done then Some(done[id]) else None;
        done := done - {id};
        failed := failed - {id};
      } else {
        callback := if id in failed then Some(failed[id]) else None;
        failed := failed - {id};
        done := done - {id};
      }
    }

    method Clear()
      modifies this
      ensures Valid() && done == map[] && failed == map[]
    {
      done, failed := map[], map[];
    }
  }
}
