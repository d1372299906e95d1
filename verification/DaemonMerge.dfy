/**
 The daemon's merge of a steering proposal: lane by lane, in place, with a capacity
 preflight. It keeps a valid registry valid, and agrees with the bridge on the selection.
 */
module DaemonMerge {
  import opened Durable
  import opened LaneMerge

  /** The first lane with an id, or the length. */
  function IndexOf(lanes: seq<Lane>, id: string): (k: nat)
    ensures k <= |lanes|
    ensures k < |lanes| ==> lanes[k].id == id
    ensures forall j :: 0 <= j < k ==> lanes[j].id != id
  {
    if lanes == [] then 0
    else if lanes[0].id == id then 0
    else
      var k := IndexOf(lanes[1..], id);
      assert forall j :: 0 < j < k + 1 ==> lanes[j] == lanes[1..][j - 1];
      k + 1
  }

  /** One proposed lane: pushed when nobody knows it, copied over a lane nobody else touched. */
  function MergeOne(base: seq<Lane>, current: seq<Lane>, lane: Lane): seq<Lane> {
    var b, c := IndexOf(base, lane.id), IndexOf(current, lane.id);
    if b == |base| then (if c == |current| then current + [lane] else current)
    else if c < |current| && current[c] == base[b] then current[c := lane]
    else current
  }

  function MergeAll(base: seq<Lane>, current: seq<Lane>, proposed: seq<Lane>): seq<Lane> {
    if proposed == [] then current
    else MergeOne(base, MergeAll(base, current, proposed[..|proposed| - 1]), proposed[|proposed| - 1])
  }

  /** What the daemon checks when it loads a registry; `laneOk` stands for the per-lane field checks. */
  ghost predicate Valid(r: Registry, laneOk: Lane -> bool) {
    && 0 < |r.lanes| <= MAX_LANE_COUNT
    && UniqueIds(r.lanes)
    && (forall k :: 0 <= k < |r.lanes| ==> laneOk(r.lanes[k]))
    && IndexOf(r.lanes, r.active) < |r.lanes|
    && IndexOf(r.lanes, r.previous) < |r.lanes|
  }

  /** How many lanes the preflight counts as new. */
  function CountNew(base: seq<Lane>, current: seq<Lane>, proposed: seq<Lane>): nat {
    if proposed == [] then 0
    else
      var last := proposed[|proposed| - 1];
      CountNew(base, current, proposed[..|proposed| - 1])
      + (if IndexOf(base, last.id) == |base| && IndexOf(current, last.id) == |current| then 1 else 0)
  }

  function MergedByDaemon(base: Registry, proposed: Registry, current: Registry,
                          baseRevision: nat, currentRevision: nat): Option<Registry> {
    if |current.lanes| + CountNew(base.lanes, current.lanes, proposed.lanes) > MAX_LANE_COUNT then None
    else
      var lanes := MergeAll(base.lanes, current.lanes, proposed.lanes);
      Some(if currentRevision == baseRevision then Registry(lanes, proposed.active, proposed.previous)
           else Registry(lanes, current.active, current.previous))
  }

  /** The live registry, changed in place. */
  class LiveRegistry {
    var lanes: seq<Lane>
    var active: string
    var previous: string

    function Held(): Registry
      reads this
    {
      Registry(lanes, active, previous)
    }

    constructor (r: Registry)
      ensures Held() == r && fresh(this)
    {
      lanes, active, previous := r.lanes, r.active, r.previous;
    }

    /** Nothing changes when the additions would not all fit. */
    method MergeModel(base: Registry, proposed: Registry, baseRevision: nat, currentRevision: nat) returns (ok: bool)
      modifies this
      ensures ok <==> MergedByDaemon(base, proposed, old(Held()), baseRevision, currentRevision).Some?
      ensures Held() == if ok then MergedByDaemon(base, proposed, old(Held()), baseRevision, currentRevision).value else old(Held())
    {
      hide MergeOne, IndexOf;
      var additions := 0;
      var k := 0;
      while k < |proposed.lanes|
        invariant 0 <= k <= |proposed.lanes| && Held() == old(Held())
        invariant additions == CountNew(base.lanes, lanes, proposed.lanes[..k])
      {
        assert proposed.lanes[..k + 1][..k] == proposed.lanes[..k];
        var id := proposed.lanes[k].id;
        if IndexOf(base.lanes, id) == |base.lanes| && IndexOf(lanes, id) == |lanes| { additions := additions + 1; }
        k := k + 1;
      }
      assert proposed.lanes[..k] == proposed.lanes;
      if |lanes| + additions > MAX_LANE_COUNT { return false; }
      k := 0;
      while k < |proposed.lanes|
        invariant 0 <= k <= |proposed.lanes| && active == old(active) && previous == old(previous)
        invariant lanes == MergeAll(base.lanes, old(lanes), proposed.lanes[..k])
      {
        assert proposed.lanes[..k + 1][..k] == proposed.lanes[..k];
        lanes := MergeOne(base.lanes, lanes, proposed.lanes[k]);
        k := k + 1;
      }
      assert proposed.lanes[..k] == proposed.lanes;
      if currentRevision == baseRevision {
        active, previous := proposed.active, proposed.previous;
      }
      return true;
    }
  }

  // ---------------------------------------------------------------- validity

  predicate SamePrefix(current: seq<Lane>, merged: seq<Lane>) {
    |current| <= |merged| && forall k :: 0 <= k < |current| ==> merged[k].id == current[k].id
  }

  lemma Found(lanes: seq<Lane>, k: nat)
    requires k < |lanes|
    ensures IndexOf(lanes, lanes[k].id) < |lanes|
  {}

  /** One step keeps the ids, adds at most the new one, and only takes lanes from either side. */
  lemma MergeOneKeeps(base: seq<Lane>, current: seq<Lane>, lane: Lane, laneOk: Lane -> bool)
    requires UniqueIds(current) && laneOk(lane) && forall k :: 0 <= k < |current| ==> laneOk(current[k])
    ensures var r := MergeOne(base, current, lane);
            && UniqueIds(r) && SamePrefix(current, r) && (forall k :: 0 <= k < |r| ==> laneOk(r[k]))
            && |r| == |current| + (if IndexOf(base, lane.id) == |base| && IndexOf(current, lane.id) == |current| then 1 else 0)
            && (IndexOf(base, lane.id) == |base| ==> IndexOf(r, lane.id) < |r|)
  {
    var r := MergeOne(base, current, lane);
    if r == current + [lane] && |r| > |current| {
      assert r[|current|] == lane;
    }
  }

  lemma PrefixFound(current: seq<Lane>, merged: seq<Lane>, id: string)
    requires SamePrefix(current, merged) && IndexOf(current, id) < |current|
    ensures IndexOf(merged, id) < |merged|
  {}

  ghost predicate AllOk(lanes: seq<Lane>, laneOk: Lane -> bool) {
    forall k :: 0 <= k < |lanes| ==> laneOk(lanes[k])
  }

  /** Every proposed lane the base lacks is present. */
  predicate NewFound(base: seq<Lane>, proposed: seq<Lane>, merged: seq<Lane>) {
    forall k :: 0 <= k < |proposed| && IndexOf(base, proposed[k].id) == |base| ==> IndexOf(merged, proposed[k].id) < |merged|
  }

  lemma NewFoundStep(base: seq<Lane>, proposed: seq<Lane>, before: seq<Lane>, merged: seq<Lane>)
    requires proposed != [] && NewFound(base, proposed[..|proposed| - 1], before) && SamePrefix(before, merged)
    requires IndexOf(base, proposed[|proposed| - 1].id) == |base| ==>
               IndexOf(merged, proposed[|proposed| - 1].id) < |merged|
    ensures NewFound(base, proposed, merged)
  {
    var n := |proposed| - 1;
    forall k | 0 <= k < |proposed| && IndexOf(base, proposed[k].id) == |base|
      ensures IndexOf(merged, proposed[k].id) < |merged| {
      if k < n {
        assert proposed[..n][k] == proposed[k];
        PrefixFound(before, merged, proposed[k].id);
      }
    }
  }

  lemma PrefixTrans(a: seq<Lane>, b: seq<Lane>, c: seq<Lane>)
    requires SamePrefix(a, b) && SamePrefix(b, c)
    ensures SamePrefix(a, c)
  {}

  lemma {:induction false} MergeAllKeeps(base: seq<Lane>, current: seq<Lane>, proposed: seq<Lane>, laneOk: Lane -> bool)
    requires UniqueIds(current) && UniqueIds(proposed) && AllOk(current, laneOk) && AllOk(proposed, laneOk)
    ensures var r := MergeAll(base, current, proposed);
            && UniqueIds(r) && SamePrefix(current, r) && AllOk(r, laneOk)
            && |r| <= |current| + CountNew(base, current, proposed)
            && NewFound(base, proposed, r)
  {
    if proposed != [] {
      var n := |proposed| - 1;
      assert UniqueIds(proposed[..n]) && AllOk(proposed[..n], laneOk) && laneOk(proposed[n]);
      hide MergeOne, UniqueIds, NewFound, SamePrefix, AllOk;
      var lane, before := proposed[n], MergeAll(base, current, proposed[..n]);
      MergeAllKeeps(base, current, proposed[..n], laneOk);
      MergeOneOk(base, before, lane, laneOk);
      var r := MergeOne(base, before, lane);
      if IndexOf(current, lane.id) < |current| { PrefixFound(current, before, lane.id); }
      NewFoundStep(base, proposed, before, r);
      PrefixTrans(current, before, r);
    }
  }

  lemma MergeOneOk(base: seq<Lane>, current: seq<Lane>, lane: Lane, laneOk: Lane -> bool)
    requires UniqueIds(current) && laneOk(lane) && AllOk(current, laneOk)
    ensures var r := MergeOne(base, current, lane);
            && UniqueIds(r) && SamePrefix(current, r) && AllOk(r, laneOk)
            && |r| == |current| + (if IndexOf(base, lane.id) == |base| && IndexOf(current, lane.id) == |current| then 1 else 0)
            && (IndexOf(base, lane.id) == |base| ==> IndexOf(r, lane.id) < |r|)
  {
    MergeOneKeeps(base, current, lane, laneOk);
  }

  /** What becomes of a current lane: the proposal's version when the base has it just as it
      is now and the proposal knows it, and otherwise itself. */
  predicate Follows(base: seq<Lane>, proposed: seq<Lane>, was: Lane, now: Lane) {
    var b, p := IndexOf(base, was.id), IndexOf(proposed, was.id);
    now == if b < |base| && p < |proposed| && base[b] == was then proposed[p] else was
  }

  predicate AllFollow(base: seq<Lane>, current: seq<Lane>, proposed: seq<Lane>, merged: seq<Lane>) {
    |current| <= |merged| && forall k :: 0 <= k < |current| ==> Follows(base, proposed, current[k], merged[k])
  }

  lemma IndexBefore(lanes: seq<Lane>, id: string)
    requires lanes != []
    ensures var n := |lanes| - 1;
            IndexOf(lanes, id) == if IndexOf(lanes[..n], id) < n then IndexOf(lanes[..n], id)
                                  else if lanes[n].id == id then n else n + 1
  {
    var n := |lanes| - 1;
    var i, j := IndexOf(lanes, id), IndexOf(lanes[..n], id);
    assert j < n ==> lanes[j].id == id;
    assert i < n ==> lanes[..n][i].id == id;
  }

  /** One more proposed lane changes only the current lane of its id, or is a new lane's. */
  lemma MergeOneFollows(base: seq<Lane>, current: seq<Lane>, proposed: seq<Lane>, before: seq<Lane>, k: nat)
    requires proposed != [] && UniqueIds(proposed) && UniqueIds(before) && SamePrefix(current, before) && k < |current|
    requires Follows(base, proposed[..|proposed| - 1], current[k], before[k])
    ensures k < |MergeOne(base, before, proposed[|proposed| - 1])|
    ensures Follows(base, proposed, current[k], MergeOne(base, before, proposed[|proposed| - 1])[k])
  {
    var n := |proposed| - 1;
    var lane := proposed[n];
    IndexBefore(proposed, current[k].id);
    var c := IndexOf(before, lane.id);
    if lane.id == current[k].id {
      assert IndexOf(proposed[..n], current[k].id) == n by { NotBefore(proposed, n); }
      assert before[k].id == current[k].id;
      SamePlace(before, k);
    }
    hide UniqueIds, SamePrefix;
  }

  lemma NotBefore(proposed: seq<Lane>, n: nat)
    requires UniqueIds(proposed) && n == |proposed| - 1
    ensures IndexOf(proposed[..n], proposed[n].id) == n
  {}

  lemma SamePlace(lanes: seq<Lane>, k: nat)
    requires UniqueIds(lanes) && k < |lanes|
    ensures IndexOf(lanes, lanes[k].id) == k
  {}

  /** Every current lane stands where it stood, as the rule says. */
  lemma {:induction false} CurrentLanesFollow(base: seq<Lane>, current: seq<Lane>, proposed: seq<Lane>)
    requires UniqueIds(current) && UniqueIds(proposed)
    ensures AllFollow(base, current, proposed, MergeAll(base, current, proposed))
    decreases |proposed|
  {
    if proposed != [] {
      var n := |proposed| - 1;
      assert UniqueIds(proposed[..n]);
      CurrentLanesFollow(base, current, proposed[..n]);
      MergeAllKeeps(base, current, proposed[..n], lane => true);
      var before := MergeAll(base, current, proposed[..n]);
      hide UniqueIds, Follows, MergeOne, SamePrefix;
      forall k | 0 <= k < |current|
        ensures k < |MergeOne(base, before, proposed[n])| && Follows(base, proposed, current[k], MergeOne(base, before, proposed[n])[k]) {
        MergeOneFollows(base, current, proposed, before, k);
      }
      LongEnough(base, before, proposed[n]);
    }
  }

  lemma LongEnough(base: seq<Lane>, before: seq<Lane>, lane: Lane)
    ensures |before| <= |MergeOne(base, before, lane)|
  {}

  /** New lanes follow the current ones: those of the proposal that neither the base nor the
      current registry knows, as the bridge's merge has them. */
  lemma {:induction false} NewLanesAppended(base: seq<Lane>, current: seq<Lane>, proposed: seq<Lane>)
    requires UniqueIds(current) && UniqueIds(proposed)
    ensures var r := MergeAll(base, current, proposed);
            |current| <= |r| && r[|current|..] == Additions(base, proposed, current)
    decreases |proposed|
  {
    var r := MergeAll(base, current, proposed);
    if proposed != [] {
      var n := |proposed| - 1;
      var lane, before := proposed[n], MergeAll(base, current, proposed[..n]);
      assert UniqueIds(proposed[..n]);
      NewLanesAppended(base, current, proposed[..n]);
      MergeAllKeeps(base, current, proposed[..n], x => true);
      KnownBefore(base, current, proposed, before);
      AppendedStep(base, current, before, lane);
      hide MergeOne, UniqueIds, SamePrefix, Has, IndexOf;
    }
  }

  lemma HasIndex(lanes: seq<Lane>, id: string)
    ensures Has(lanes, id) <==> IndexOf(lanes, id) < |lanes|
  {}

  /** A lane of the proposal that nobody knows is not among the earlier new ones either. */
  lemma KnownBefore(base: seq<Lane>, current: seq<Lane>, proposed: seq<Lane>, before: seq<Lane>)
    requires proposed != [] && UniqueIds(proposed) && SamePrefix(current, before)
    requires before[|current|..] == Additions(base, proposed[..|proposed| - 1], current)
    ensures var id := proposed[|proposed| - 1].id; IndexOf(before, id) < |before| <==> IndexOf(current, id) < |current|
  {
    var n := |proposed| - 1;
    var id := proposed[n].id;
    if IndexOf(current, id) < |current| { PrefixFound(current, before, id); }
    forall j | |current| <= j < |before| ensures before[j].id != id {
      var lane := before[|current|..][j - |current|];
      AdditionsExactly(base, proposed[..n], current, lane);
      EarlierLane(proposed, lane);
    }
    var i := IndexOf(before, id);
    if i < |current| { Found(current, i); }
  }

  lemma EarlierLane(proposed: seq<Lane>, lane: Lane)
    requires proposed != [] && UniqueIds(proposed) && lane in proposed[..|proposed| - 1]
    ensures lane.id != proposed[|proposed| - 1].id
  {}

  lemma AppendedStep(base: seq<Lane>, current: seq<Lane>, before: seq<Lane>, lane: Lane)
    requires |current| <= |before| && SamePrefix(current, before) && UniqueIds(before)
    requires IndexOf(before, lane.id) < |before| <==> IndexOf(current, lane.id) < |current|
    ensures MergeOne(base, before, lane)[|current|..] ==
            before[|current|..] + if Has(base, lane.id) || Has(current, lane.id) then [] else [lane]
    ensures |current| <= |MergeOne(base, before, lane)|
  {
    HasIndex(base, lane.id);
    HasIndex(current, lane.id);
  }

  /** The merged registry passes the daemon's own validation, as long as no lane of the base was removed meanwhile. */
  lemma MergeKeepsValid(base: Registry, proposed: Registry, current: Registry, baseRevision: nat, currentRevision: nat,
                        laneOk: Lane -> bool)
    requires Valid(base, laneOk) && Valid(proposed, laneOk) && Valid(current, laneOk)
    requires forall k :: 0 <= k < |base.lanes| ==> IndexOf(current.lanes, base.lanes[k].id) < |current.lanes|
    requires MergedByDaemon(base, proposed, current, baseRevision, currentRevision).Some?
    ensures Valid(MergedByDaemon(base, proposed, current, baseRevision, currentRevision).value, laneOk)
  {
    var lanes := MergeAll(base.lanes, current.lanes, proposed.lanes);
    MergeAllKeeps(base.lanes, current.lanes, proposed.lanes, laneOk);
    ProposedFound(base.lanes, current.lanes, proposed.lanes, proposed.active);
    ProposedFound(base.lanes, current.lanes, proposed.lanes, proposed.previous);
    PrefixFound(current.lanes, lanes, current.active);
    PrefixFound(current.lanes, lanes, current.previous);
    hide MergeAll, UniqueIds, CountNew;
    assert AllOk(lanes, laneOk);
  }

  /** Every lane the model could select is in the merged registry. */
  lemma ProposedFound(base: seq<Lane>, current: seq<Lane>, proposed: seq<Lane>, id: string)
    requires UniqueIds(current) && UniqueIds(proposed) && IndexOf(proposed, id) < |proposed|
    requires forall k :: 0 <= k < |base| ==> IndexOf(current, base[k].id) < |current|
    ensures var r := MergeAll(base, current, proposed); IndexOf(r, id) < |r|
  {
    var r := MergeAll(base, current, proposed);
    MergeAllKeeps(base, current, proposed, lane => true);
    if IndexOf(base, id) < |base| {
      assert base[IndexOf(base, id)].id == id;
      PrefixFound(current, r, id);
    }
  }

  /** Given that an unchanged revision means an unchanged selection, both merges select the same lanes. */
  lemma SameSelection(base: Registry, proposed: Registry, current: Registry, baseRevision: nat, currentRevision: nat)
    requires baseRevision == currentRevision ==> base.active == current.active && base.previous == current.previous
    requires MergedRegistry(base, proposed, current, baseRevision, currentRevision).Merged?
    requires MergedByDaemon(base, proposed, current, baseRevision, currentRevision).Some?
    ensures var bridge := MergedRegistry(base, proposed, current, baseRevision, currentRevision).registry;
            var daemon := MergedByDaemon(base, proposed, current, baseRevision, currentRevision).value;
            bridge.active == daemon.active && bridge.previous == daemon.previous
  {}
}
