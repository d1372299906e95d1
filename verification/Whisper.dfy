/**
 Requests to the shared local speech worker. A request is settled once, an answer only
 ever settles a request of the process that sent it, and a cancelled or expired request
 may still absorb one late answer.
 */
module Whisper {
  import opened Durable

  type Id = string
  type Proc = nat

  datatype Settlement = Answered(proc: Proc, text: string) | Failed | Abandoned

  /** A worker line: not a valid object, a ready event, or a response carrying an id. */
  datatype Line = Garbage | Ready(valid: bool) | Response(id: Id, body: Body)
  datatype Body = WorkerError(known: bool) | BadText | Transcript(text: string)

  const MAX_ABANDONED_RESPONSE_IDS := 128

  /** Requests that belong to a process. */
  function OwnedBy(pending: map<Id, Proc>, p: Proc): set<Id> {
    set id | id in pending && pending[id] == p
  }

  predicate NoneTwice(ids: seq<Id>) {
    forall j, k :: 0 <= j < k < |ids| ==> ids[j] != ids[k]
  }

  /** Every request is pending with its process or settled, and an answer came from its process. */
  predicate Owned(owner: map<Id, Proc>, pending: map<Id, Proc>, settled: map<Id, Settlement>) {
    && pending.Keys !! settled.Keys
    && owner.Keys == pending.Keys + settled.Keys
    && (forall id :: id in pending ==> pending[id] == owner[id])
    && (forall id :: id in settled && settled[id].Answered? ==> settled[id].proc == owner[id])
  }

  predicate Owes(p: Proc, ids: set<Id>, owner: map<Id, Proc>, settled: map<Id, Settlement>, absorbed: seq<Id>) {
    && |ids| <= MAX_ABANDONED_RESPONSE_IDS
    && forall id :: id in ids ==> id in settled && settled[id] == Abandoned && id in owner && owner[id] == p && id !in absorbed
  }

  /** A process owes late answers only to its own requests that were given up, each once. */
  predicate Allowances(abandoned: map<Proc, set<Id>>, owner: map<Id, Proc>, settled: map<Id, Settlement>, absorbed: seq<Id>) {
    forall p :: p in abandoned ==> Owes(p, abandoned[p], owner, settled, absorbed)
  }

  /** The logs: each request is settled once, and absorbs a late answer at most once, given up. */
  ghost predicate Logged(log: seq<Id>, absorbed: seq<Id>, settled: map<Id, Settlement>) {
    && NoneTwice(log) && (forall id :: id in log <==> id in settled)
    && NoneTwice(absorbed) && (forall id :: id in absorbed ==> id in settled && settled[id] == Abandoned)
  }

  /** Exactly the pending ones among `ids` left and are settled by `how`. */
  predicate EndedBy(pending: map<Id, Proc>, settled: map<Id, Settlement>, pending': map<Id, Proc>,
                    settled': map<Id, Settlement>, ids: set<Id>, how: Settlement) {
    && pending' == pending - ids
    && settled'.Keys == settled.Keys + (ids * pending.Keys)
    && (forall id :: id in settled ==> id in settled' && settled'[id] == settled[id])
    && (forall id :: id in ids && id in pending ==> settled'[id] == how)
  }

  lemma OneEnded(pending: map<Id, Proc>, settled: map<Id, Settlement>, id: Id, how: Settlement)
    requires id !in settled
    ensures id in pending ==> EndedBy(pending, settled, pending - {id}, settled[id := how], {id}, how)
    ensures id !in pending ==> EndedBy(pending, settled, pending, settled, {id}, how)
  {}

  lemma AllEnded(pending: map<Id, Proc>, settled: map<Id, Settlement>, ids: set<Id>)
    requires ids <= pending.Keys && pending.Keys !! settled.Keys
    ensures EndedBy(pending, settled, pending - ids, Marked(settled, ids), ids, Failed)
  {}

  /** The requests in `all` are rejected, but for those still to do. */
  predicate Rejecting(pending0: map<Id, Proc>, settled0: map<Id, Settlement>, pending: map<Id, Proc>,
                      settled: map<Id, Settlement>, all: set<Id>, todo: set<Id>) {
    && todo <= all && todo <= pending.Keys
    && pending == pending0 - (all - todo) && settled == Marked(settled0, all - todo)
  }

  lemma RejectingStarts(pending: map<Id, Proc>, settled: map<Id, Settlement>, p: Proc)
    ensures Rejecting(pending, settled, pending, settled, OwnedBy(pending, p), OwnedBy(pending, p))
  {
    MarkedNone(settled, pending);
  }

  lemma RejectingStep(pending0: map<Id, Proc>, settled0: map<Id, Settlement>, pending: map<Id, Proc>,
                      settled: map<Id, Settlement>, all: set<Id>, todo: set<Id>, id: Id)
    requires Rejecting(pending0, settled0, pending, settled, all, todo) && id in todo
    ensures id in pending
    ensures Rejecting(pending0, settled0, pending - {id}, settled[id := Failed], all, todo - {id})
  {
    assert all - (todo - {id}) == (all - todo) + {id};
    MarkedMore(settled0, all - todo, id, pending0);
    hide Marked;
  }

  lemma RejectingEnds(owner: map<Id, Proc>, pending0: map<Id, Proc>, settled0: map<Id, Settlement>,
                      pending: map<Id, Proc>, settled: map<Id, Settlement>, p: Proc)
    requires Owned(owner, pending0, settled0) && Rejecting(pending0, settled0, pending, settled, OwnedBy(pending0, p), {})
    ensures EndedBy(pending0, settled0, pending, settled, OwnedBy(pending0, p), Failed) && OwnedBy(pending, p) == {}
  {
    assert OwnedBy(pending0, p) - {} == OwnedBy(pending0, p);
    AllEnded(pending0, settled0, OwnedBy(pending0, p));
    hide Marked, EndedBy;
  }

  lemma NotEnded(pending: map<Id, Proc>, settled: map<Id, Settlement>, id: Id, how: Settlement)
    requires id !in pending
    ensures EndedBy(pending, settled, pending, settled, {id}, how)
  {}

  lemma SettleOwned(owner: map<Id, Proc>, pending: map<Id, Proc>, settled: map<Id, Settlement>, id: Id, how: Settlement)
    requires Owned(owner, pending, settled) && id in pending && (how.Answered? ==> how.proc == pending[id])
    ensures Owned(owner, pending - {id}, settled[id := how])
  {}

  lemma SettleAllowances(abandoned: map<Proc, set<Id>>, owner: map<Id, Proc>, settled: map<Id, Settlement>,
                         absorbed: seq<Id>, id: Id, how: Settlement)
    requires Allowances(abandoned, owner, settled, absorbed) && id !in settled
    ensures Allowances(abandoned, owner, settled[id := how], absorbed)
  {
    forall p | p in abandoned ensures Owes(p, abandoned[p], owner, settled[id := how], absorbed) {
      assert Owes(p, abandoned[p], owner, settled, absorbed);
    }
  }

  lemma SettleLogged(log: seq<Id>, absorbed: seq<Id>, settled: map<Id, Settlement>, id: Id, how: Settlement)
    requires Logged(log, absorbed, settled) && id !in settled
    ensures Logged(log + [id], absorbed, settled[id := how])
  {
    OneNew(log, id);
    hide NoneTwice;
  }

  lemma AbsorbKeeps(abandoned: map<Proc, set<Id>>, owner: map<Id, Proc>, settled: map<Id, Settlement>,
                    log: seq<Id>, absorbed: seq<Id>, p: Proc, id: Id)
    requires Allowances(abandoned, owner, settled, absorbed) && Logged(log, absorbed, settled)
    requires p in abandoned && id in abandoned[p]
    ensures Allowances(abandoned[p := abandoned[p] - {id}], owner, settled, absorbed + [id])
    ensures Logged(log, absorbed + [id], settled)
  {
    assert Owes(p, abandoned[p], owner, settled, absorbed);
    OneNew(absorbed, id);
    ShrinkSet(abandoned[p], id);
    hide NoneTwice;
    var less := abandoned[p := abandoned[p] - {id}];
    forall q | q in less ensures Owes(q, less[q], owner, settled, absorbed + [id]) {
      assert Owes(q, abandoned[q], owner, settled, absorbed);
    }
  }

  lemma OwedIsSettled(abandoned: map<Proc, set<Id>>, owner: map<Id, Proc>, settled: map<Id, Settlement>,
                      absorbed: seq<Id>, p: Proc, id: Id)
    requires Allowances(abandoned, owner, settled, absorbed)
    ensures p in abandoned && id in abandoned[p] ==> id in owner && owner[id] == p && id in settled
  {
    assert p in abandoned ==> Owes(p, abandoned[p], owner, settled, absorbed);
  }

  lemma AllowKeeps(abandoned: map<Proc, set<Id>>, owner: map<Id, Proc>, settled: map<Id, Settlement>,
                   absorbed: seq<Id>, p: Proc, ids: set<Id>, id: Id)
    requires Allowances(abandoned, owner, settled, absorbed) && ids == (if p in abandoned then abandoned[p] else {})
    requires |ids| < MAX_ABANDONED_RESPONSE_IDS
    requires id in settled && settled[id] == Abandoned && id in owner && owner[id] == p && id !in absorbed
    ensures Allowances(abandoned[p := ids + {id}], owner, settled, absorbed)
  {
    OneMore(ids, id);
    assert p in abandoned ==> Owes(p, abandoned[p], owner, settled, absorbed);
    var more := abandoned[p := ids + {id}];
    forall q | q in more ensures Owes(q, more[q], owner, settled, absorbed) {
      assert q != p ==> Owes(q, abandoned[q], owner, settled, absorbed);
    }
  }

  lemma BeginKeeps(owner: map<Id, Proc>, pending: map<Id, Proc>, settled: map<Id, Settlement>,
                   abandoned: map<Proc, set<Id>>, absorbed: seq<Id>, id: Id, p: Proc)
    requires Owned(owner, pending, settled) && Allowances(abandoned, owner, settled, absorbed) && id !in owner
    ensures Owned(owner[id := p], pending[id := p], settled)
    ensures Allowances(abandoned, owner[id := p], settled, absorbed)
  {
    forall q | q in abandoned ensures Owes(q, abandoned[q], owner[id := p], settled, absorbed) {
      assert Owes(q, abandoned[q], owner, settled, absorbed);
    }
  }

  lemma OneNew(ids: seq<Id>, id: Id)
    requires NoneTwice(ids) && id !in ids
    ensures NoneTwice(ids + [id]) && forall x :: x in ids + [id] <==> x in ids || x == id
  {}

  /** `owner`, `settled`, `log` and `absorbed` are the history: the process of every request
      and how it ended, the settlements in their order, and the late answers taken. */
  class LocalWhisper {
    var current: Option<Proc>
    var pending: map<Id, Proc>
    var abandoned: map<Proc, set<Id>>
    ghost var owner: map<Id, Proc>
    ghost var settled: map<Id, Settlement>
    ghost var log: seq<Id>
    ghost var absorbed: seq<Id>

    ghost predicate Valid()
      reads this
    {
      Owned(owner, pending, settled) && Allowances(abandoned, owner, settled, absorbed) && Logged(log, absorbed, settled)
    }

    /** Only these requests may have been settled, all of them by `how` unless already settled. */
    twostate predicate SettledOnly(ids: set<Id>, how: Settlement)
      reads this
    {
      owner == old(owner) && absorbed == old(absorbed) && EndedBy(old(pending), old(settled), pending, settled, ids, how)
    }

    /** The same, whatever late answers were absorbed. */
    twostate predicate SettledOnlyAs(ids: set<Id>, how: Settlement)
      reads this
    {
      EndedBy(old(pending), old(settled), pending, settled, ids, how)
    }

    constructor ()
      ensures Valid() && current == None && pending == map[] && owner == map[] && settled == map[] && fresh(this)
    {
      current, pending, abandoned, owner, settled, log, absorbed := None, map[], map[], map[], map[], [], [];
    }

    /** A worker for the next request: one that broke is failed before it is replaced by `p`. */
    method Ensure(p: Proc)
      requires Valid()
      modifies this`current, this`pending, this`abandoned, this`settled, this`log
      ensures Valid() && current == Some(p)
      ensures SettledOnly(if old(current).Some? then OwnedBy(old(pending), old(current).value) else {}, Failed)
    {
      if current.Some? {
        FailWorker(current.value);
      } else {
        NothingOwnedBy(pending);
      }
      current := Some(p);
    }

    /** A request whose WAV was written; `p` is the worker it was prepared for, maybe gone by now. */
    method Begin(id: Id, p: Proc)
      requires Valid() && id !in owner
      modifies this
      ensures Valid() && owner == old(owner)[id := p] && pending == old(pending)[id := p]
      ensures settled == old(settled) && abandoned == old(abandoned) && current == old(current) && absorbed == old(absorbed)
    {
      BeginKeeps(owner, pending, settled, abandoned, absorbed, id, p);
      hide Owned, Allowances, Logged;
      pending := pending[id := p];
      owner := owner[id := p];
    }

    method Settle(id: Id, how: Settlement) returns (done: bool)
      requires Valid() && (id in pending && how.Answered? ==> how.proc == pending[id])
      modifies this`pending, this`settled, this`log
      ensures Valid() && (done <==> id in old(pending))
      ensures done ==> pending == old(pending) - {id} && settled == old(settled)[id := how] && log == old(log) + [id]
      ensures SettledOnly({id}, how)
    {
      if id !in pending {
        NotEnded(pending, settled, id, how);
        return false;
      }
      SettleOwned(owner, pending, settled, id, how);
      assert id !in settled;
      hide Owned, Allowances, Logged, EndedBy;
      OneEnded(pending, settled, id, how);
      SettleAllowances(abandoned, owner, settled, absorbed, id, how);
      SettleLogged(log, absorbed, settled, id, how);
      settled := settled[id := how];
      log := log + [id];
      pending := pending - {id};
      return true;
    }

    method Terminate(p: Proc)
      requires Valid()
      modifies this`current, this`abandoned
      ensures Valid() && abandoned == old(abandoned) - {p}
      ensures current == if old(current) == Some(p) then None else old(current)
    {
      if current == Some(p) { current := None; }
      abandoned := abandoned - {p};
    }

    /** The whole ownership set of a process is rejected, and nothing else. */
    method RejectPendingFor(p: Proc)
      requires Valid()
      modifies this`pending, this`settled, this`log
      ensures Valid() && SettledOnly(OwnedBy(old(pending), p), Failed)
      ensures OwnedBy(pending, p) == {}
    {
      var todo := OwnedBy(pending, p);
      ghost var all := todo;
      assert Owned(owner, pending, settled);
      hide Valid, Owned, Allowances, Logged, OwnedBy, EndedBy, Rejecting;
      RejectingStarts(pending, settled, p);
      while todo != {}
        invariant Valid() && Rejecting(old(pending), old(settled), pending, settled, all, todo)
        decreases |todo|
      {
        var id :| id in todo;
        RejectingStep(old(pending), old(settled), pending, settled, all, todo, id);
        var done := Settle(id, Failed);
        todo := todo - {id};
      }
      RejectingEnds(owner, old(pending), old(settled), pending, settled, p);
    }

    /** A broken process fails everything it owns before it is replaced. */
    method FailWorker(p: Proc)
      requires Valid()
      modifies this`current, this`pending, this`abandoned, this`settled, this`log
      ensures Valid() && OwnedBy(pending, p) == {} && current != Some(p)
      ensures SettledOnly(OwnedBy(old(pending), p), Failed)
      ensures current == old(current) || current == None
    {
      if current != Some(p) && OwnedBy(pending, p) == {} {
        NothingOwned(pending, p);
        return;
      }
      RejectPendingFor(p);
      Terminate(p);
    }

    /** The process exited on its own. */
    method OnExit(p: Proc)
      requires Valid()
      modifies this`current, this`pending, this`abandoned, this`settled, this`log
      ensures Valid() && OwnedBy(pending, p) == {} && current != Some(p)
      ensures SettledOnly(OwnedBy(old(pending), p), Failed)
      ensures current == old(current) || current == None
    {
      Terminate(p);
      RejectPendingFor(p);
    }

    function Allowed(p: Proc): set<Id>
      reads this
    {
      if p in abandoned then abandoned[p] else {}
    }

    /** Expect at most one late answer to a request that was given up; a worker that owes too many is failed. */
    method ExpectLateAnswer(p: Proc, id: Id)
      requires Valid() && id in settled && settled[id] == Abandoned && owner[id] == p && id !in absorbed
      modifies this`current, this`pending, this`abandoned, this`settled, this`log
      ensures Valid()
      ensures |old(Allowed(p))| < MAX_ABANDONED_RESPONSE_IDS ==>
                pending == old(pending) && settled == old(settled) && owner == old(owner) && Allowed(p) == old(Allowed(p)) + {id}
      ensures |old(Allowed(p))| >= MAX_ABANDONED_RESPONSE_IDS ==>
                SettledOnly(OwnedBy(old(pending), p), Failed) && OwnedBy(pending, p) == {}
      ensures current == old(current) || current == None
    {
      assert id in owner;
      hide Owned, Allowances, Logged, EndedBy;
      var ids := Allowed(p);
      if |ids| >= MAX_ABANDONED_RESPONSE_IDS {
        FailWorker(p);
      } else {
        AllowKeeps(abandoned, owner, settled, absorbed, p, ids, id);
        abandoned := abandoned[p := ids + {id}];
      }
    }

    /** Cancellation or timeout of one request. The other requests of its worker go on, unless the
        worker already owes too many late answers, when all of them fail. */
    method Abandon(id: Id)
      requires Valid()
      modifies this`current, this`pending, this`abandoned, this`settled, this`log
      ensures Valid() && owner == old(owner)
      ensures id !in old(pending) ==> pending == old(pending) && settled == old(settled) && abandoned == old(abandoned)
      ensures id in old(pending) && |old(Allowed(owner[id]))| < MAX_ABANDONED_RESPONSE_IDS ==>
                pending == old(pending) - {id} && settled == old(settled)[id := Abandoned]
      ensures id in old(pending) ==> pending == old(pending) - {id} || OwnedBy(pending, owner[id]) == {}
      ensures id in old(pending) ==> id in settled && settled[id] == Abandoned
      ensures forall other :: other in old(settled) ==> other in settled && settled[other] == old(settled)[other]
      ensures current == old(current) || current == None
      ensures forall other :: other in settled && other !in old(settled) ==> !settled[other].Answered?
    {
      if id !in pending { return; }
      var p := pending[id];
      var done := Settle(id, Abandoned);
      assert settled == old(settled)[id := Abandoned];
      hide OwnedBy;
      if OwnedBy(pending, p) == {} {
        Terminate(p);
      } else {
        ExpectLateAnswer(p, id);
      }
    }

    /** Use up the allowance of a late answer, if there is one. */
    method AbsorbLate(p: Proc, id: Id) returns (taken: bool)
      requires Valid()
      modifies this`abandoned, this`absorbed
      ensures Valid() && (taken <==> p in old(abandoned) && id in old(abandoned)[p])
      ensures taken ==> abandoned == old(abandoned)[p := old(abandoned)[p] - {id}] && absorbed == old(absorbed) + [id]
      ensures !taken ==> abandoned == old(abandoned) && absorbed == old(absorbed)
    {
      hide Owned, Allowances, Logged;
      taken := p in abandoned && id in abandoned[p];
      if taken {
        AbsorbKeeps(abandoned, owner, settled, log, absorbed, p, id);
        abandoned := abandoned[p := abandoned[p] - {id}];
        absorbed := absorbed + [id];
      }
    }

    /** One line of a worker that is still the current one; false ends the reading. */
    method HandleLine(p: Proc, line: Line) returns (go: bool)
      requires Valid()
      modifies this`current, this`pending, this`abandoned, this`settled, this`log, this`absorbed
      ensures Valid() && owner == old(owner)
      // An answer settles only a pending request of this very process, and settles it with this answer.
      ensures forall id :: id in settled && id !in old(settled) && settled[id].Answered? ==>
                && id in old(pending) && old(pending)[id] == p
                && line == Response(id, Transcript(settled[id].text)) && settled[id].proc == p
      ensures forall id :: id in old(settled) ==> id in settled && settled[id] == old(settled)[id]
      // Requests of other processes are untouched.
      ensures forall id :: id in old(pending) && old(pending)[id] != p ==> id in pending
      ensures forall id :: id in pending ==> id in old(pending) && pending[id] == old(pending)[id]
      // Reading goes on for a good ready line, a response to a pending request, and a late answer owed.
      ensures go <==> match line
                case Garbage => false
                case Ready(valid) => valid
                case Response(id, body) =>
                  if id in old(pending) && old(pending)[id] == p then body.Transcript? || body == WorkerError(true)
                  else p in old(abandoned) && id in old(abandoned)[p]
      // A response settles its request, and a line that ends the reading fails all of its process.
      ensures go && line.Response? && line.id in old(pending) && old(pending)[line.id] == p ==>
                && pending == old(pending) - {line.id}
                && settled == old(settled)[line.id := match line.body case Transcript(text) => Answered(p, text) case _ => Failed]
      ensures go && line.Ready? ==> pending == old(pending) && settled == old(settled)
      ensures go && line.Response? ==> line.id in owner && owner[line.id] == p && line.id in settled
      ensures !go ==> SettledOnlyAs(OwnedBy(old(pending), p), Failed)
      // Going on means at most the named request was settled, or one late answer was absorbed.
      ensures go ==> pending == old(pending) || (line.Response? && pending == old(pending) - {line.id})
      ensures go ==> abandoned == old(abandoned) || Absorbed(line, p)
      ensures !go ==> OwnedBy(pending, p) == {} && current != Some(p)
      ensures absorbed == old(absorbed) || Absorbed(line, p)
      ensures if go then current == old(current) else current == old(current) || current == None
    {
      hide Allowances, Logged;
      if line.Garbage? { FailWorker(p); return false; }
      if line.Ready? {
        if !line.valid { FailWorker(p); return false; }
        return true;
      }
      var id := line.id;
      if id !in pending || pending[id] != p {
        OwedIsSettled(abandoned, owner, settled, absorbed, p, id);
        go := AbsorbLate(p, id);
        if !go { FailWorker(p); }
        return;
      }
      match line.body
      case WorkerError(known) =>
        if !known { FailWorker(p); return false; }
        var done := Settle(id, Failed);
        return true;
      case BadText =>
        FailWorker(p);
        return false;
      case Transcript(text) =>
        var done := Settle(id, Answered(p, text));
        return true;
    }

    /** A late answer was absorbed: its allowance existed for this process and is used up. */
    twostate predicate Absorbed(line: Line, p: Proc)
      reads this
    {
      && line.Response? && p in old(abandoned) && line.id in old(abandoned)[p]
      && abandoned == old(abandoned)[p := old(abandoned)[p] - {line.id}]
      && pending == old(pending) && settled == old(settled) && absorbed == old(absorbed) + [line.id]
    }
  }

  /** History with a set of requests failed. */
  function Marked(settled: map<Id, Settlement>, ids: set<Id>): map<Id, Settlement> {
    settled + map id | id in ids :: Failed
  }

  lemma MarkedNone(settled: map<Id, Settlement>, pending: map<Id, Proc>)
    ensures Marked(settled, {}) == settled && pending - {} == pending
  {}

  lemma MarkedMore(settled: map<Id, Settlement>, ids: set<Id>, id: Id, pending: map<Id, Proc>)
    ensures Marked(settled, ids)[id := Failed] == Marked(settled, ids + {id})
    ensures pending - ids - {id} == pending - (ids + {id})
  {}

  lemma NothingOwned(pending: map<Id, Proc>, p: Proc)
    requires OwnedBy(pending, p) == {}
    ensures pending - OwnedBy(pending, p) == pending
  {}

  lemma NothingOwnedBy(pending: map<Id, Proc>)
    ensures pending - {} == pending
  {}

  lemma OneMore(s: set<Id>, id: Id)
    ensures |s + {id}| <= |s| + 1
  {}

  lemma ShrinkSet(s: set<Id>, id: Id)
    requires id in s
    ensures |s - {id}| == |s| - 1
  {}
}
