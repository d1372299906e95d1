/**
 The speech worker over whole runs: workers start and break, their output arrives in
 chunks cut anywhere, requests begin, are cancelled or time out. Whatever the order,
 each request ends exactly once and takes at most one late answer.
 */
module WhisperRuns {
  import opened Durable
  import opened LineReader
  import opened Whisper
  import ReplyText

  const MAX_WORKER_LINE_BYTES: nat := ReplyText.MAX_REPLY_TEXT_BYTES * 6 + 64 * 1024

  datatype Event =
    /** A request needs a worker: the current one broke or there is none, and `p` is started. */
    | Start(p: Proc)
    | Begin(id: Id, p: Proc)
    | Data(p: Proc, chunk: Bytes)
    /** The caller aborts the request, or its timer runs out. */
    | GiveUp(id: Id)
    /** A write to the worker failed, or the process reported an error. */
    | Broken(p: Proc)
    | Exit(p: Proc)

  /** Request ids are fresh: a counter and a random part. */
  predicate FreshIds(events: seq<Event>) {
    forall j, k :: 0 <= j < k < |events| && events[j].Begin? && events[k].Begin? ==> events[j].id != events[k].id
  }

  function Begun(events: seq<Event>): set<Id> {
    set k | 0 <= k < |events| && events[k].Begin? :: events[k].id
  }

  predicate Every(line: Bytes) { true }

  /** What the line reader makes of a stream; the handler's verdict on a line comes later. */
  function Split(stream: Bytes): Reading {
    Lines(stream, MAX_WORKER_LINE_BYTES, Every)
  }

  function StreamOf(streams: map<Proc, Bytes>, p: Proc): Bytes {
    if p in streams then streams[p] else []
  }

  /** Every answer is the transcript of a line in its own process's stream. */
  ghost predicate AnswersSpoken(settled: map<Id, Settlement>, streams: map<Proc, Bytes>, parse: Bytes -> Line) {
    forall id :: id in settled && settled[id].Answered? ==>
      exists line :: line in Split(StreamOf(streams, settled[id].proc)).lines
                     && parse(line) == Response(id, Transcript(settled[id].text))
  }

  /** Every response among these lines is to a request of this process, which is settled. */
  predicate Taken(owner: map<Id, Proc>, settled: map<Id, Settlement>, p: Proc, lines: seq<Bytes>, parse: Bytes -> Line) {
    forall line :: line in lines && parse(line).Response? ==>
      parse(line).id in owner && owner[parse(line).id] == p && parse(line).id in settled
  }

  class WorkerHost {
    const whisper: LocalWhisper
    /** The unfinished line of the current worker's reader. */
    var rest: Bytes
    /** What each process wrote while it was current. */
    ghost var streams: map<Proc, Bytes>

    ghost predicate Valid()
      reads this, whisper
    {
      && whisper.Valid()
      && (whisper.current.Some? ==>
            var r := Split(StreamOf(streams, whisper.current.value)); r.ok && r.rest == rest)
    }

    /** The current worker's complete lines were all taken. */
    ghost predicate AllTaken(parse: Bytes -> Line)
      reads this, whisper
    {
      whisper.current.Some? ==>
        Taken(whisper.owner, whisper.settled, whisper.current.value, Split(StreamOf(streams, whisper.current.value)).lines, parse)
    }

    constructor ()
      ensures Valid() && fresh(this) && fresh(whisper) && streams == map[]
      ensures whisper.current == None && whisper.owner == map[] && whisper.pending == map[] && whisper.settled == map[]
    {
      whisper := new LocalWhisper();
      rest, streams := [], map[];
    }

    method Start(p: Proc)
      requires Valid() && p !in streams
      modifies this, whisper
      ensures Valid() && streams == old(streams)
      ensures whisper.owner == old(whisper.owner) && Quietly(old(whisper.settled), whisper.settled)
      ensures whisper.current == Some(p)
      ensures forall parse :: AllTaken(parse)
    {
      hide LocalWhisper.Valid, Owned, Allowances, Logged, OwnedBy, Lines, EndedBy, Quietly;
      NothingRead();
      ghost var pending, settled := whisper.pending, whisper.settled;
      ghost var failed := if whisper.current.Some? then OwnedBy(pending, whisper.current.value) else {};
      whisper.Ensure(p);
      EndedQuietly(pending, settled, whisper.pending, whisper.settled, failed);
      rest := [];
    }

    method FailQuietly(p: Proc)
      requires whisper.Valid()
      modifies whisper
      ensures whisper.Valid() && whisper.owner == old(whisper.owner)
      ensures Quietly(old(whisper.settled), whisper.settled) && Kept(old(whisper.settled), whisper.settled)
      ensures whisper.current != Some(p) && (whisper.current == old(whisper.current) || whisper.current == None)
    {
      hide LocalWhisper.Valid, OwnedBy, EndedBy, Quietly, Kept;
      ghost var pending, settled := whisper.pending, whisper.settled;
      whisper.FailWorker(p);
      EndedQuietly(pending, settled, whisper.pending, whisper.settled, OwnedBy(pending, p));
    }

    /** One chunk of output. A worker that is no longer current is not listened to. */
    method OnData(p: Proc, chunk: Bytes, parse: Bytes -> Line)
      requires Valid() && AnswersSpoken(whisper.settled, streams, parse) && AllTaken(parse)
      modifies this, whisper
      ensures Valid() && AnswersSpoken(whisper.settled, streams, parse) && AllTaken(parse)
      ensures whisper.owner == old(whisper.owner) && Kept(old(whisper.settled), whisper.settled)
      ensures whisper.current == old(whisper.current) || whisper.current == None
      ensures streams == if old(whisper.current) == Some(p) then old(streams)[p := old(StreamOf(streams, p)) + chunk]
                         else old(streams)
    {
      if whisper.current != Some(p) { return; }
      ghost var before := StreamOf(streams, p);
      var r := Split(rest + chunk);
      MoreLines(before, chunk);
      LongerStream(whisper.settled, streams, p, chunk, parse);
      streams := streams[p := before + chunk];
      assert StreamOf(streams, p) == before + chunk;
      rest := r.rest;
      ghost var first := Split(before).lines;
      assert Taken(whisper.owner, whisper.settled, p, first, parse);
      hide LocalWhisper.Valid, Lines, AnswersSpoken, StreamOf, Split, Taken;
      var go := HandleLines(p, r.lines, parse);
      if !go || !r.ok {
        ghost var settled0, was := old(whisper.settled), whisper.settled;
        FailQuietly(p);
        NothingSpoken(was, whisper.settled, streams, parse);
        KeptOn(settled0, was, whisper.settled);
      } else {
        TakenOn(whisper.owner, old(whisper.settled), whisper.settled, p, first, r.lines, parse);
      }
    }

    /** The completed lines of a chunk, until one ends the reading. */
    method HandleLines(p: Proc, lines: seq<Bytes>, parse: Bytes -> Line) returns (go: bool)
      requires whisper.Valid() && whisper.current == Some(p) && AnswersSpoken(whisper.settled, streams, parse)
      requires forall line :: line in lines ==> line in Split(StreamOf(streams, p)).lines
      modifies whisper
      ensures whisper.Valid() && AnswersSpoken(whisper.settled, streams, parse)
      ensures whisper.owner == old(whisper.owner) && Kept(old(whisper.settled), whisper.settled)
      ensures whisper.current == if go then Some(p) else None
      ensures go ==> Taken(whisper.owner, whisper.settled, p, lines, parse)
    {
      ghost var settled0 := whisper.settled;
      go := true;
      var k := 0;
      while k < |lines| && go
        invariant 0 <= k <= |lines| && whisper.Valid()
        invariant whisper.owner == old(whisper.owner) && Kept(settled0, whisper.settled)
        invariant AnswersSpoken(whisper.settled, streams, parse)
        invariant whisper.current == if go then Some(p) else None
        invariant go ==> Taken(whisper.owner, whisper.settled, p, lines[..k], parse)
        decreases |lines| - k
      {
        hide Taken, LocalWhisper.Valid, Owned, Allowances, Logged, OwnedBy, Lines, AnswersSpoken, Kept, StreamOf, Split;
        ghost var was := whisper.settled;
        go := whisper.HandleLine(p, parse(lines[k]));
        assert Kept(was, whisper.settled) by { KeptIs(was, whisper.settled); }
        LineSpoken(was, whisper.settled, streams, p, lines[k], parse);
        KeptOn(settled0, was, whisper.settled);
        if go { TakeOne(whisper.owner, was, whisper.settled, p, lines, k, parse); }
        k := k + 1;
      }
      assert lines[..|lines|] == lines;
    }
  }

  /** One step of the world around the worker. */
  method Step(host: WorkerHost, ev: Event, parse: Bytes -> Line)
    requires host.Valid() && AnswersSpoken(host.whisper.settled, host.streams, parse) && host.AllTaken(parse)
    requires ev.Begin? ==> ev.id !in host.whisper.owner
    requires ev.Start? ==> ev.p !in host.streams
    modifies host, host.whisper
    ensures host.Valid() && AnswersSpoken(host.whisper.settled, host.streams, parse) && host.AllTaken(parse)
    ensures host.whisper.owner == if ev.Begin? then old(host.whisper.owner)[ev.id := ev.p] else old(host.whisper.owner)
    ensures Kept(old(host.whisper.settled), host.whisper.settled)
    ensures ev.GiveUp? && ev.id in old(host.whisper.owner) ==> ev.id in host.whisper.settled
    ensures if ev.Start? then host.whisper.current == Some(ev.p)
            else host.whisper.current == old(host.whisper.current) || host.whisper.current == None
    ensures host.streams.Keys <= old(host.streams.Keys) + (if old(host.whisper.current).Some? then {old(host.whisper.current).value} else {})
  {
    hide LocalWhisper.Valid, Owned, Allowances, Logged, OwnedBy, Lines, AnswersSpoken, StreamOf, EndedBy;
    ghost var was, owner := host.whisper.settled, host.whisper.owner;
    match ev {
      case Start(p) => host.Start(p);
      case Begin(id, p) => host.whisper.Begin(id, p);
      case Data(p, chunk) => host.OnData(p, chunk, parse);
      case GiveUp(id) =>
        OwnedEnds(host.whisper, id);
        host.whisper.Abandon(id);
      case Broken(p) => host.FailQuietly(p);
      case Exit(p) =>
        ghost var pending := host.whisper.pending;
        host.whisper.OnExit(p);
        EndedQuietly(pending, was, host.whisper.pending, host.whisper.settled, OwnedBy(pending, p));
    }
    if !ev.Data? { NothingSpoken(was, host.whisper.settled, host.streams, parse); }
    if !ev.Data? && !ev.Start? && host.whisper.current.Some? {
      TakenLater(owner, was, host.whisper.owner, host.whisper.settled, host.whisper.current.value,
                 Split(StreamOf(host.streams, host.whisper.current.value)).lines, parse);
    }
  }

  lemma OwnedEnds(w: LocalWhisper, id: Id)
    requires w.Valid()
    ensures id in w.owner ==> id in w.pending || id in w.settled
  {
    hide Allowances, Logged;
  }

  predicate FreshProcs(events: seq<Event>) {
    forall j, k :: 0 <= j < k < |events| && events[j].Start? && events[k].Start? ==> events[j].p != events[k].p
  }

  function Started(events: seq<Event>): set<Proc> {
    set k | 0 <= k < |events| && events[k].Start? :: events[k].p
  }

  /** Over any sequence of starts, chunks, cancellations, timeouts, failures and exits: each
      request that began is pending or was settled exactly once, settled for certain once it
      was given up; it took at most one late answer, and only when it was given up; an answer
      is the transcript of a line of its own process, however the stream was cut; and every
      complete response of the current worker has settled its request. */
  method Run(events: seq<Event>, parse: Bytes -> Line) returns (host: WorkerHost)
    requires FreshIds(events) && FreshProcs(events)
    ensures fresh(host) && host.Valid() && host.whisper.owner.Keys == Begun(events)
    ensures var w := host.whisper;
            && Owned(w.owner, w.pending, w.settled) && Logged(w.log, w.absorbed, w.settled)
            && AnswersSpoken(w.settled, host.streams, parse)
    ensures host.AllTaken(parse)
    ensures GivenUpEnd(events, |events|, host.whisper.settled)
  {
    host := new WorkerHost();
    var k := 0;
    while k < |events|
      invariant 0 <= k <= |events| && fresh(host) && fresh(host.whisper) && host.Valid()
      invariant AnswersSpoken(host.whisper.settled, host.streams, parse) && host.AllTaken(parse)
      invariant host.whisper.owner.Keys == Begun(events[..k])
      invariant host.streams.Keys <= Started(events[..k])
      invariant host.whisper.current.Some? ==> host.whisper.current.value in Started(events[..k])
      invariant GivenUpEnd(events, k, host.whisper.settled)
    {
      hide LocalWhisper.Valid, WorkerHost.Valid, WorkerHost.AllTaken, Lines, AnswersSpoken, GivenUpEnd, Begun, Started, FreshIds, FreshProcs, Kept;
      OneEvent(events, k);
      ghost var was := host.whisper.settled;
      Step(host, events[k], parse);
      GivenUpStep(events, k, was, host.whisper.settled);
      k := k + 1;
    }
    assert events[..k] == events;
  }

  /** A request that began and was given up later is settled. */
  predicate GivenUpEnd(events: seq<Event>, n: nat, settled: map<Id, Settlement>)
    requires n <= |events|
  {
    forall j, k :: 0 <= j < k < n && events[j].Begin? && events[k] == GiveUp(events[j].id) ==> events[j].id in settled
  }

  lemma GivenUpStep(events: seq<Event>, k: nat, was: map<Id, Settlement>, settled: map<Id, Settlement>)
    requires k < |events| && GivenUpEnd(events, k, was) && Kept(was, settled)
    requires events[k].GiveUp? && events[k].id in Begun(events[..k]) ==> events[k].id in settled
    ensures GivenUpEnd(events, k + 1, settled)
  {
    forall j, n | 0 <= j < n < k + 1 && events[j].Begin? && events[n] == GiveUp(events[j].id)
      ensures events[j].id in settled {
      if n == k { assert events[..k][j].Begin? && events[..k][j].id in Begun(events[..k]); }
    }
  }

  /** The next event begins or starts something new. */
  lemma OneEvent(events: seq<Event>, k: nat)
    requires k < |events| && FreshIds(events) && FreshProcs(events)
    ensures Begun(events[..k + 1]) == Begun(events[..k]) + (if events[k].Begin? then {events[k].id} else {})
    ensures Started(events[..k + 1]) == Started(events[..k]) + (if events[k].Start? then {events[k].p} else {})
    ensures events[k].Begin? ==> events[k].id !in Begun(events[..k])
    ensures events[k].Start? ==> events[k].p !in Started(events[..k])
    ensures forall i :: 0 <= i < k && events[i].Begin? ==> events[i].id in Begun(events[..k])
  {
    assert events[..k + 1] == events[..k] + [events[k]];
    assert forall i :: 0 <= i < k ==> events[..k][i] == events[i];
  }

  /** Settlements are never taken back or replaced. */
  predicate Kept(settled: map<Id, Settlement>, settled': map<Id, Settlement>) {
    forall id :: id in settled ==> id in settled' && settled'[id] == settled[id]
  }

  /** Requests may have ended, but none with an answer. */
  predicate Quietly(settled: map<Id, Settlement>, settled': map<Id, Settlement>) {
    Kept(settled, settled') && forall id :: id in settled' && settled'[id].Answered? ==> id in settled && settled[id] == settled'[id]
  }

  lemma TakenOn(owner: map<Id, Proc>, was: map<Id, Settlement>, settled: map<Id, Settlement>, p: Proc,
                first: seq<Bytes>, more: seq<Bytes>, parse: Bytes -> Line)
    requires Taken(owner, was, p, first, parse) && Kept(was, settled) && Taken(owner, settled, p, more, parse)
    ensures Taken(owner, settled, p, first + more, parse)
  {}

  lemma TakeOne(owner: map<Id, Proc>, was: map<Id, Settlement>, settled: map<Id, Settlement>, p: Proc,
                lines: seq<Bytes>, k: nat, parse: Bytes -> Line)
    requires k < |lines| && Taken(owner, was, p, lines[..k], parse) && Kept(was, settled)
    requires var l := parse(lines[k]); l.Response? ==> l.id in owner && owner[l.id] == p && l.id in settled
    ensures Taken(owner, settled, p, lines[..k + 1], parse)
  {
    assert lines[..k + 1] == lines[..k] + [lines[k]];
  }

  lemma TakenLater(owner: map<Id, Proc>, was: map<Id, Settlement>, owner': map<Id, Proc>, settled: map<Id, Settlement>,
                   p: Proc, lines: seq<Bytes>, parse: Bytes -> Line)
    requires Taken(owner, was, p, lines, parse) && Kept(was, settled)
    requires forall id :: id in owner ==> id in owner' && owner'[id] == owner[id]
    ensures Taken(owner', settled, p, lines, parse)
  {}

  lemma NoLines()
    ensures forall owner, settled, p, parse :: Taken(owner, settled, p, [], parse)
  {}

  lemma EndedQuietly(pending: map<Id, Proc>, settled: map<Id, Settlement>, pending': map<Id, Proc>,
                     settled': map<Id, Settlement>, ids: set<Id>)
    requires EndedBy(pending, settled, pending', settled', ids, Failed)
    ensures Quietly(settled, settled') && Kept(settled, settled')
  {}

  lemma KeptIs(a: map<Id, Settlement>, b: map<Id, Settlement>)
    ensures Kept(a, b) <==> forall id :: id in a ==> id in b && b[id] == a[id]
  {}

  /** What a chunk completes are lines of the whole stream. */
  lemma MoreLines(before: Bytes, chunk: Bytes)
    requires Split(before).ok
    ensures var r, all := Split(Split(before).rest + chunk), Split(before + chunk);
            && all.ok == r.ok && all.rest == r.rest && all.lines == Split(before).lines + r.lines
            && forall line :: line in r.lines ==> line in all.lines
  {
    ReadOn(before, chunk, MAX_WORKER_LINE_BYTES, Every);
    hide Lines;
  }

  lemma KeptOn(a: map<Id, Settlement>, b: map<Id, Settlement>, c: map<Id, Settlement>)
    requires Kept(a, b) && Kept(b, c)
    ensures Kept(a, c)
  {}

  lemma NothingRead()
    ensures Split([]) == Reading([], [], true)
  {
    NothingMore([], MAX_WORKER_LINE_BYTES, Every);
  }

  lemma NothingSpoken(was: map<Id, Settlement>, settled: map<Id, Settlement>, streams: map<Proc, Bytes>, parse: Bytes -> Line)
    requires AnswersSpoken(was, streams, parse)
    requires Quietly(was, settled)
    ensures AnswersSpoken(settled, streams, parse)
  {
    forall id | id in settled && settled[id].Answered?
      ensures exists line :: line in Split(StreamOf(streams, settled[id].proc)).lines
                             && parse(line) == Response(id, Transcript(settled[id].text)) {
      assert was[id].Answered?;
    }
  }

  lemma LineSpoken(was: map<Id, Settlement>, settled: map<Id, Settlement>, streams: map<Proc, Bytes>, p: Proc,
                   line: Bytes, parse: Bytes -> Line)
    requires AnswersSpoken(was, streams, parse) && line in Split(StreamOf(streams, p)).lines && Kept(was, settled)
    requires forall id :: id in settled && id !in was && settled[id].Answered? ==>
               settled[id].proc == p && parse(line) == Response(id, Transcript(settled[id].text))
    ensures AnswersSpoken(settled, streams, parse)
  {
    forall id | id in settled && settled[id].Answered?
      ensures exists line :: line in Split(StreamOf(streams, settled[id].proc)).lines
                             && parse(line) == Response(id, Transcript(settled[id].text)) {
      if id in was { assert was[id].Answered?; }
    }
  }

  /** More output of a process keeps the lines it already had. */
  lemma LongerStream(settled: map<Id, Settlement>, streams: map<Proc, Bytes>, p: Proc, chunk: Bytes, parse: Bytes -> Line)
    requires AnswersSpoken(settled, streams, parse)
    ensures AnswersSpoken(settled, streams[p := StreamOf(streams, p) + chunk], parse)
  {
    var longer := streams[p := StreamOf(streams, p) + chunk];
    ReadOn(StreamOf(streams, p), chunk, MAX_WORKER_LINE_BYTES, Every);
    hide Lines;
    forall id | id in settled && settled[id].Answered?
      ensures exists line :: line in Split(StreamOf(longer, settled[id].proc)).lines
                             && parse(line) == Response(id, Transcript(settled[id].text)) {
      var q := settled[id].proc;
      var line :| line in Split(StreamOf(streams, q)).lines && parse(line) == Response(id, Transcript(settled[id].text));
      assert line in Split(StreamOf(longer, q)).lines;
    }
  }
}
