/**
 Three-way merges of a steering model's private proposal into the live lane registry:
 the bridge merges field by field into a fresh registry, the daemon lane by lane in place.
 */
module LaneMerge {
  import opened Durable

  datatype Lane = Lane(id: string, name: string, createdAt: string, lastActive: string, interactions: Option<nat>)

  datatype Registry = Registry(lanes: seq<Lane>, active: string, previous: string)

  datatype Result = Merged(registry: Registry) | CapacityReached | SelectionGone

  const MAX_LANE_COUNT: nat := 256

  predicate Has(lanes: seq<Lane>, id: string) {
    exists k :: 0 <= k < |lanes| && lanes[k].id == id
  }

  /** A map built from the lanes keeps the last one of an id. */
  function Lookup(lanes: seq<Lane>, id: string): (r: Option<Lane>)
    ensures r.Some? <==> Has(lanes, id)
    ensures r.Some? ==> r.value.id == id && r.value in lanes
  {
    if lanes == [] then None
    else
      var last := lanes[|lanes| - 1];
      if last.id == id then Some(last)
      else
        assert forall k :: 0 <= k < |lanes| && lanes[k].id == id ==> lanes[..|lanes| - 1][k].id == id;
        Lookup(lanes[..|lanes| - 1], id)
  }

  predicate UniqueIds(lanes: seq<Lane>) {
    forall i, j :: 0 <= i < j < |lanes| ==> lanes[i].id != lanes[j].id
  }

  // ------------------------------------------------------- the bridge's merge

  /** A field follows the proposal only if the proposal alone changed it. */
  function MergeField<T(==)>(base: T, proposed: T, current: T): T {
    if proposed != base && current == base then proposed else current
  }

  function MergeLane(base: Lane, proposed: Lane, current: Lane): Lane {
    Lane(MergeField(base.id, proposed.id, current.id),
         MergeField(base.name, proposed.name, current.name),
         MergeField(base.createdAt, proposed.createdAt, current.createdAt),
         MergeField(base.lastActive, proposed.lastActive, current.lastActive),
         MergeField(base.interactions, proposed.interactions, current.interactions))
  }

  /** What becomes of one current lane. */
  function Retained(base: seq<Lane>, proposed: seq<Lane>, lane: Lane): Lane {
    var b, p := Lookup(base, lane.id), Lookup(proposed, lane.id);
    if b == None || p == None then lane else MergeLane(b.value, p.value, lane)
  }

  function AllRetained(base: seq<Lane>, proposed: seq<Lane>, current: seq<Lane>): (r: seq<Lane>)
    ensures |r| == |current|
    ensures forall k :: 0 <= k < |current| ==> r[k] == Retained(base, proposed, current[k])
  {
    if current == [] then []
    else AllRetained(base, proposed, current[..|current| - 1]) + [Retained(base, proposed, current[|current| - 1])]
  }

  /** Lanes the model created and nobody else claimed. */
  function Additions(base: seq<Lane>, proposed: seq<Lane>, current: seq<Lane>): seq<Lane> {
    if proposed == [] then []
    else
      var last := proposed[|proposed| - 1];
      Additions(base, proposed[..|proposed| - 1], current)
      + (if Has(base, last.id) || Has(current, last.id) then [] else [last])
  }

  function MergedLanes(base: seq<Lane>, proposed: seq<Lane>, current: seq<Lane>): seq<Lane> {
    AllRetained(base, proposed, current) + Additions(base, proposed, current)
  }

  predicate TakesSelection(base: Registry, proposed: Registry, baseRevision: nat, currentRevision: nat) {
    (base.active != proposed.active || base.previous != proposed.previous) && currentRevision == baseRevision
  }

  /** The bridge's merge as one function of the three registries. */
  function MergedRegistry(base: Registry, proposed: Registry, current: Registry,
                          baseRevision: nat, currentRevision: nat): Result {
    var added := Additions(base.lanes, proposed.lanes, current.lanes);
    if added != [] && |current.lanes| + |added| > MAX_LANE_COUNT then CapacityReached
    else
      var lanes := MergedLanes(base.lanes, proposed.lanes, current.lanes);
      var takes := TakesSelection(base, proposed, baseRevision, currentRevision);
      var active := if takes then proposed.active else current.active;
      var previous := if takes then proposed.previous else current.previous;
      if Has(lanes, active) && Has(lanes, previous) then Merged(Registry(lanes, active, previous)) else SelectionGone
  }

  method MergeMetaLaneProposal(base: Registry, proposed: Registry, current: Registry,
                               baseRevision: nat, currentRevision: nat) returns (result: Result)
    ensures result == MergedRegistry(base, proposed, current, baseRevision, currentRevision)
  {
    hide Additions, Retained, Has, AllRetained;
    var lanes: seq<Lane> := [];
    var k := 0;
    AllRetainedStart(base.lanes, proposed.lanes, current.lanes);
    while k < |current.lanes|
      invariant 0 <= k <= |current.lanes|
      invariant lanes == AllRetained(base.lanes, proposed.lanes, current.lanes[..k])
    {
      AllRetainedStep(base.lanes, proposed.lanes, current.lanes, k);
      lanes := lanes + [Retained(base.lanes, proposed.lanes, current.lanes[k])];
      k := k + 1;
    }
    assert current.lanes[..k] == current.lanes;
    ghost var kept := lanes;
    k := 0;
    while k < |proposed.lanes|
      invariant 0 <= k <= |proposed.lanes|
      invariant lanes == kept + Additions(base.lanes, proposed.lanes[..k], current.lanes)
      invariant Additions(base.lanes, proposed.lanes[..k], current.lanes) != [] ==> |lanes| <= MAX_LANE_COUNT
    {
      AdditionsStep(base.lanes, proposed.lanes, current.lanes, k);
      var lane := proposed.lanes[k];
      if !Has(base.lanes, lane.id) && !Has(current.lanes, lane.id) {
        if |lanes| >= MAX_LANE_COUNT {
          AdditionsGrow(base.lanes, proposed.lanes, current.lanes, k + 1);
          return CapacityReached;
        }
        lanes := lanes + [lane];
      }
      k := k + 1;
    }
    assert proposed.lanes[..k] == proposed.lanes;
    var changed := base.active != proposed.active || base.previous != proposed.previous;
    var concurrently := currentRevision != baseRevision;
    var active := if changed && !concurrently then proposed.active else current.active;
    var previous := if changed && !concurrently then proposed.previous else current.previous;
    if !Has(lanes, active) || !Has(lanes, previous) { return SelectionGone; }
    return Merged(Registry(lanes, active, previous));
  }

  lemma AllRetainedStart(base: seq<Lane>, proposed: seq<Lane>, current: seq<Lane>)
    ensures AllRetained(base, proposed, current[..0]) == [] && Additions(base, proposed[..0], current) == []
  {}

  lemma AllRetainedStep(base: seq<Lane>, proposed: seq<Lane>, current: seq<Lane>, k: nat)
    requires k < |current|
    ensures AllRetained(base, proposed, current[..k + 1])
         == AllRetained(base, proposed, current[..k]) + [Retained(base, proposed, current[k])]
  {}

  lemma AdditionsStep(base: seq<Lane>, proposed: seq<Lane>, current: seq<Lane>, k: nat)
    requires k < |proposed|
    ensures Additions(base, proposed[..k + 1], current) == Additions(base, proposed[..k], current)
         + (if Has(base, proposed[k].id) || Has(current, proposed[k].id) then [] else [proposed[k]])
  {
    assert proposed[..k + 1][..k] == proposed[..k];
  }

  lemma {:induction false} AdditionsGrow(base: seq<Lane>, proposed: seq<Lane>, current: seq<Lane>, k: nat)
    requires k <= |proposed|
    ensures Additions(base, proposed[..k], current) <= Additions(base, proposed, current)
    decreases |proposed| - k
  {
    if k < |proposed| {
      AdditionsStep(base, proposed, current, k);
      AdditionsGrow(base, proposed, current, k + 1);
    } else {
      assert proposed[..k] == proposed;
    }
  }

  // ------------------------------------------------------------------- laws

  lemma {:induction false} AdditionsExactly(base: seq<Lane>, proposed: seq<Lane>, current: seq<Lane>, lane: Lane)
    ensures lane in Additions(base, proposed, current) <==>
            lane in proposed && !Has(base, lane.id) && !Has(current, lane.id)
  {
    if proposed != [] {
      var n := |proposed| - 1;
      AdditionsExactly(base, proposed[..n], current, lane);
      assert proposed == proposed[..n] + [proposed[n]];
    }
  }

  lemma {:induction false} NoAdditions(base: seq<Lane>, proposed: seq<Lane>, current: seq<Lane>)
    requires forall k :: 0 <= k < |proposed| ==> Has(base, proposed[k].id) || Has(current, proposed[k].id)
    ensures Additions(base, proposed, current) == []
  {
    if proposed != [] { NoAdditions(base, proposed[..|proposed| - 1], current); }
  }

  lemma RetainedId(base: seq<Lane>, proposed: seq<Lane>, lane: Lane)
    ensures Retained(base, proposed, lane).id == lane.id
  {}

  lemma SelfHas(lanes: seq<Lane>, k: nat)
    requires k < |lanes|
    ensures Has(lanes, lanes[k].id)
  {}

  /** An unchanged proposal merges to the current registry, whatever others did meanwhile. */
  lemma UnchangedProposal(base: Registry, current: Registry, baseRevision: nat, currentRevision: nat)
    requires Has(current.lanes, current.active) && Has(current.lanes, current.previous)
    ensures MergedRegistry(base, base, current, baseRevision, currentRevision) == Merged(current)
  {
    forall k | 0 <= k < |base.lanes| ensures Has(base.lanes, base.lanes[k].id) { SelfHas(base.lanes, k); }
    NoAdditions(base.lanes, base.lanes, current.lanes);
    assert MergedLanes(base.lanes, base.lanes, current.lanes) == current.lanes;
  }

  /** The proposal extends the base: the model edits lanes and appends new ones, never removing any. */
  predicate Extends(base: seq<Lane>, proposed: seq<Lane>) {
    |base| <= |proposed| && forall k :: 0 <= k < |base| ==> base[k].id == proposed[k].id
  }

  lemma {:induction false} AdditionsBeyond(base: seq<Lane>, proposed: seq<Lane>, k: nat)
    requires UniqueIds(proposed) && Extends(base, proposed) && k <= |proposed|
    ensures Additions(base, proposed[..k], base) == if k <= |base| then [] else proposed[|base|..k]
  {
    if k > 0 {
      NewBeyond(base, proposed, k - 1);
      AdditionsStep(base, proposed, base, k - 1);
      AdditionsBeyond(base, proposed, k - 1);
      hide Additions, UniqueIds, Extends, Has;
      if k > |base| { assert proposed[|base|..k] == proposed[|base|..k - 1] + [proposed[k - 1]]; }
    }
  }

  /** A proposed lane is known to the base exactly when it stands within the base's length. */
  lemma NewBeyond(base: seq<Lane>, proposed: seq<Lane>, k: nat)
    requires UniqueIds(proposed) && Extends(base, proposed) && k < |proposed|
    ensures Has(base, proposed[k].id) <==> k < |base|
  {}

  /** An unchanged current registry takes the whole proposal. */
  lemma UnchangedCurrent(base: Registry, proposed: Registry, revision: nat)
    requires UniqueIds(base.lanes) && UniqueIds(proposed.lanes) && Extends(base.lanes, proposed.lanes)
    requires Has(proposed.lanes, proposed.active) && Has(proposed.lanes, proposed.previous)
    requires |proposed.lanes| <= MAX_LANE_COUNT
    ensures MergedRegistry(base, proposed, base, revision, revision) == Merged(proposed)
  {
    UnchangedLanes(base.lanes, proposed.lanes);
    hide MergedLanes, Additions, UniqueIds, Extends;
  }

  lemma UnchangedLanes(b: seq<Lane>, p: seq<Lane>)
    requires UniqueIds(b) && UniqueIds(p) && Extends(b, p)
    ensures MergedLanes(b, p, b) == p && |Additions(b, p, b)| == |p| - |b|
  {
    hide *;
    assert |b| <= |p| by { LongerProposal(b, p); }
    AdditionsBeyond(b, p, |p|);
    assert p[..|p|] == p;
    var kept := AllRetained(b, p, b);
    forall k | 0 <= k < |b| ensures kept[k] == p[k] {
      UnchangedLane(b, p, k);
    }
    assert kept + p[|b|..] == p;
    TwoParts(b, p, b);
  }

  lemma LongerProposal(b: seq<Lane>, p: seq<Lane>)
    requires Extends(b, p)
    ensures |b| <= |p|
  {}

  lemma TwoParts(base: seq<Lane>, proposed: seq<Lane>, current: seq<Lane>)
    ensures MergedLanes(base, proposed, current) == AllRetained(base, proposed, current) + Additions(base, proposed, current)
  {}

  lemma UnchangedLane(b: seq<Lane>, p: seq<Lane>, k: nat)
    requires UniqueIds(b) && UniqueIds(p) && Extends(b, p) && k < |b|
    ensures Retained(b, p, b[k]) == p[k]
  {}

  /** Current lanes are never dropped, reordered or renumbered; a field takes the proposal exactly when
      only the proposal changed it; lanes the proposal or the base lacks stay as they are. */
  lemma EachLaneMerged(base: Registry, proposed: Registry, current: Registry, baseRevision: nat, currentRevision: nat, k: nat)
    requires MergedRegistry(base, proposed, current, baseRevision, currentRevision).Merged? && k < |current.lanes|
    ensures var lanes := MergedRegistry(base, proposed, current, baseRevision, currentRevision).registry.lanes;
            var c, b, p := current.lanes[k], Lookup(base.lanes, current.lanes[k].id), Lookup(proposed.lanes, current.lanes[k].id);
            && k < |lanes| && lanes[k].id == c.id
            && (b == None || p == None ==> lanes[k] == c)
            && (b.Some? && p.Some? ==>
                  && (if p.value.name != b.value.name && c.name == b.value.name then lanes[k].name == p.value.name
                      else lanes[k].name == c.name)
                  && (if p.value.createdAt != b.value.createdAt && c.createdAt == b.value.createdAt
                      then lanes[k].createdAt == p.value.createdAt else lanes[k].createdAt == c.createdAt)
                  && (if p.value.lastActive != b.value.lastActive && c.lastActive == b.value.lastActive
                      then lanes[k].lastActive == p.value.lastActive else lanes[k].lastActive == c.lastActive)
                  && (if p.value.interactions != b.value.interactions && c.interactions == b.value.interactions
                      then lanes[k].interactions == p.value.interactions else lanes[k].interactions == c.interactions))
  {}

  /** The selection follows the proposal exactly when it changed it and the revision did not move. */
  lemma SelectionMerged(base: Registry, proposed: Registry, current: Registry, baseRevision: nat, currentRevision: nat)
    requires MergedRegistry(base, proposed, current, baseRevision, currentRevision).Merged?
    ensures var r := MergedRegistry(base, proposed, current, baseRevision, currentRevision).registry;
            if (base.active, base.previous) != (proposed.active, proposed.previous) && currentRevision == baseRevision
            then r.active == proposed.active && r.previous == proposed.previous
            else r.active == current.active && r.previous == current.previous
  {
    hide MergedLanes, Additions, Has;
  }

  /** New lanes follow the current ones: those of the proposal that neither the base nor the
      current registry knows, in the proposal's order. */
  lemma NewLanesFollow(base: Registry, proposed: Registry, current: Registry, baseRevision: nat, currentRevision: nat)
    requires MergedRegistry(base, proposed, current, baseRevision, currentRevision).Merged?
    ensures var lanes := MergedRegistry(base, proposed, current, baseRevision, currentRevision).registry.lanes;
            && |current.lanes| <= |lanes| && PickedFrom(proposed.lanes, lanes[|current.lanes|..])
            && forall lane :: lane in lanes[|current.lanes|..] <==>
                 lane in proposed.lanes && !Has(base.lanes, lane.id) && !Has(current.lanes, lane.id)
  {
    var added := Additions(base.lanes, proposed.lanes, current.lanes);
    var kept := AllRetained(base.lanes, proposed.lanes, current.lanes);
    assert (kept + added)[|current.lanes|..] == added;
    forall lane ensures lane in added <==> lane in proposed.lanes && !Has(base.lanes, lane.id) && !Has(current.lanes, lane.id) {
      AdditionsExactly(base.lanes, proposed.lanes, current.lanes, lane);
    }
    AdditionsPicked(base.lanes, proposed.lanes, current.lanes);
    hide Additions, Has, AllRetained;
  }

  /** `picked` are some of the lanes, in the same order. */
  predicate PickedFrom(lanes: seq<Lane>, picked: seq<Lane>)
    decreases |lanes|
  {
    if picked == [] then true
    else if lanes == [] then false
    else
      var n, m := |lanes| - 1, |picked| - 1;
      PickedFrom(lanes[..n], picked) || (lanes[n] == picked[m] && PickedFrom(lanes[..n], picked[..m]))
  }

  lemma {:induction false} AdditionsPicked(base: seq<Lane>, proposed: seq<Lane>, current: seq<Lane>)
    ensures PickedFrom(proposed, Additions(base, proposed, current))
    decreases |proposed|
  {
    if proposed != [] {
      var n := |proposed| - 1;
      AdditionsPicked(base, proposed[..n], current);
      var before := Additions(base, proposed[..n], current);
      assert (before + [proposed[n]])[..|before|] == before;
      assert before + [] == before;
    }
    hide Has;
  }

  /** The merge is refused exactly when there are new lanes and they do not all fit, or the
      lanes it would select are not there. */
  lemma RefusedWhen(base: Registry, proposed: Registry, current: Registry, baseRevision: nat, currentRevision: nat)
    ensures var r := MergedRegistry(base, proposed, current, baseRevision, currentRevision);
            var added := Additions(base.lanes, proposed.lanes, current.lanes);
            var all := MergedLanes(base.lanes, proposed.lanes, current.lanes);
            && (r.CapacityReached? <==> added != [] && |all| > 256)
            && (r.Merged? ==> Has(r.registry.lanes, r.registry.active) && Has(r.registry.lanes, r.registry.previous))
            && (r.SelectionGone? ==>
                  !(Has(all, current.active) && Has(all, current.previous))
                  || (currentRevision == baseRevision && !(Has(all, proposed.active) && Has(all, proposed.previous))))
  {
    hide Has, Additions;
  }

  /** Merging the same proposal again changes nothing more, whatever the revision is by then. */
  lemma MergeIdempotent(base: Registry, proposed: Registry, current: Registry, baseRevision: nat, currentRevision: nat, later: nat)
    requires MergedRegistry(base, proposed, current, baseRevision, currentRevision).Merged?
    requires later == baseRevision ==> currentRevision == baseRevision
    ensures var merged := MergedRegistry(base, proposed, current, baseRevision, currentRevision).registry;
            MergedRegistry(base, proposed, merged, baseRevision, later) == Merged(merged)
  {
    LanesTwice(base.lanes, proposed.lanes, current.lanes);
    hide MergedLanes, Additions, Has;
  }

  lemma LanesTwice(base: seq<Lane>, proposed: seq<Lane>, current: seq<Lane>)
    ensures var merged := MergedLanes(base, proposed, current);
            MergedLanes(base, proposed, merged) == merged && Additions(base, proposed, merged) == []
  {
    var merged := MergedLanes(base, proposed, current);
    var n := |current|;
    forall k | 0 <= k < |proposed| ensures Has(base, proposed[k].id) || Has(merged, proposed[k].id) {
      StillHas(base, proposed, current, k);
    }
    NoAdditions(base, proposed, merged);
    forall k | 0 <= k < |merged| ensures Retained(base, proposed, merged[k]) == merged[k] {
      if k < n {
        RetainedTwice(base, proposed, current[k]);
        assert merged[k] == AllRetained(base, proposed, current)[k];
      } else {
        var lane := Additions(base, proposed, current)[k - n];
        AdditionsExactly(base, proposed, current, lane);
      }
    }
    hide Retained, Has, Additions;
  }

  lemma StillHas(base: seq<Lane>, proposed: seq<Lane>, current: seq<Lane>, k: nat)
    requires k < |proposed|
    ensures Has(base, proposed[k].id) || Has(MergedLanes(base, proposed, current), proposed[k].id)
  {
    var id, merged := proposed[k].id, MergedLanes(base, proposed, current);
    if Has(current, id) {
      var j :| 0 <= j < |current| && current[j].id == id;
      RetainedId(base, proposed, current[j]);
      assert merged[j] == AllRetained(base, proposed, current)[j];
    } else if !Has(base, id) {
      AdditionsExactly(base, proposed, current, proposed[k]);
      var added := Additions(base, proposed, current);
      var j :| 0 <= j < |added| && added[j] == proposed[k];
      assert merged[|current| + j] == proposed[k];
    }
  }

  lemma RetainedTwice(base: seq<Lane>, proposed: seq<Lane>, lane: Lane)
    ensures Retained(base, proposed, Retained(base, proposed, lane)) == Retained(base, proposed, lane)
  {}

  /** The merge grows a registry only up to the limit. */
  lemma MergeWithinCapacity(base: Registry, proposed: Registry, current: Registry, baseRevision: nat, currentRevision: nat)
    requires MergedRegistry(base, proposed, current, baseRevision, currentRevision).Merged?
    requires |current.lanes| <= MAX_LANE_COUNT
    ensures |MergedRegistry(base, proposed, current, baseRevision, currentRevision).registry.lanes| <= MAX_LANE_COUNT
  {}
}
