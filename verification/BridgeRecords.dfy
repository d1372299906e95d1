/**
 The bridge's acknowledgement records: outstanding bindings, terminal tombstones, and
 the snapshot file both are saved to. What a save accepts is what a later start
 accepts, so every change has to keep the two maps within that validation.
 */
module BridgeRecords {
  import opened Durable
  import opened ReplyProtocol

  type Key = string

  const MAX_STORED_REPLY_ACKS := 64
  const MAX_STORED_REPLY_ACK_TOMBSTONES := 64
  const MAX_TIME := 0x1F_FFFF_FFFF_FFFF

  datatype Binding = Binding(owner: Installation, text: string, phase: Phase, preparedAt: int, ownerSeenAt: int,
                             receivedAt: Option<int>, consumedAt: Option<int>)

  datatype Tombstone = Tombstone(owner: Installation, consumedAt: int, tombstonedAt: int)

  datatype Snapshot = Snapshot(bindings: map<Key, Binding>, tombstones: map<Key, Tombstone>)

  /** Durations in milliseconds; a start refuses a tombstone retention that is not the longer one. */
  datatype Retention = Retention(abandonment: int, consumed: int, tombstone: int)

  predicate Proper(r: Retention) {
    0 < r.abandonment && 0 < r.consumed < r.tombstone
  }

  // ------------------------------------------------------------ validation

  predicate IsTime(t: int) { 0 <= t <= MAX_TIME }

  /** What the clock may say: any time value of section 21.4.1.1 of ECMA-262, also one
      before 1970, and one before the last. */
  type Millis = t: int | -8_640_000_000_000_000 <= t <= 8_640_000_000_000_000

  predicate BindingParses(b: Binding) {
    && IsTime(b.preparedAt) && IsTime(b.ownerSeenAt)
    && (if b.phase == Prepared then b.receivedAt == None && b.consumedAt == None
        else b.receivedAt.Some? && IsTime(b.receivedAt.value) &&
             (if b.phase == Received then b.consumedAt == None else b.consumedAt.Some? && IsTime(b.consumedAt.value)))
    && (b.receivedAt.Some? ==> b.receivedAt.value >= b.preparedAt)
    && (b.consumedAt.Some? && b.receivedAt.Some? ==> b.consumedAt.value >= b.receivedAt.value)
  }

  predicate TombstoneParses(t: Tombstone) {
    IsTime(t.consumedAt) && IsTime(t.tombstonedAt) && t.tombstonedAt >= t.consumedAt
  }

  predicate BindingsParse(bs: map<Key, Binding>) {
    forall k :: k in bs ==> BindingParses(bs[k])
  }

  predicate TombstonesParse(ts: map<Key, Tombstone>) {
    forall k :: k in ts ==> TombstoneParses(ts[k])
  }

  /** What `save` and `loadSnapshot` accept: both bounds, valid records, one record per key. */
  predicate Accepted(s: Snapshot) {
    && |s.bindings| <= MAX_STORED_REPLY_ACKS
    && |s.tombstones| <= MAX_STORED_REPLY_ACK_TOMBSTONES
    && s.bindings.Keys !! s.tombstones.Keys
    && BindingsParse(s.bindings)
    && TombstonesParse(s.tombstones)
  }

  predicate BindingNotAfter(b: Binding, now: int) {
    && b.preparedAt <= now && b.ownerSeenAt <= now
    && (b.receivedAt.Some? ==> b.receivedAt.value <= now)
    && (b.consumedAt.Some? ==> b.consumedAt.value <= now)
  }

  /** No record is from the future. */
  predicate NotAfter(s: Snapshot, now: int) {
    && (forall k :: k in s.bindings ==> BindingNotAfter(s.bindings[k], now))
    && (forall k :: k in s.tombstones ==> s.tombstones[k].tombstonedAt <= now)
  }

  /** What the maps always satisfy, and with `timed` also that no record is from the future:
      so it stays while the clock does not go back. */
  predicate Sound(s: Snapshot, now: int, timed: bool) {
    Accepted(s) && (timed ==> NotAfter(s, now))
  }

  // ----------------------------------------------------------------- expiry

  predicate TombstoneExpired(t: Tombstone, r: Retention, now: int) {
    now >= t.tombstonedAt && now - t.tombstonedAt >= r.tombstone
  }

  predicate ConsumedExpired(b: Binding, r: Retention, now: int) {
    b.phase == Consumed && b.consumedAt.Some? && now >= b.consumedAt.value && now - b.consumedAt.value >= r.consumed
  }

  /** The owner was last seen, as the binding, this process or its start have it, at least
      the grace period ago. */
  predicate Away(b: Binding, seenAt: Option<int>, startedAt: int, r: Retention, now: int) {
    && b.ownerSeenAt + r.abandonment <= now && startedAt + r.abandonment <= now
    && (seenAt.Some? ==> seenAt.value + r.abandonment <= now)
  }

  /** Consumed bindings past their retention that no request is working on, without those of
      the owners to spare. */
  function Due(bs: map<Key, Binding>, r: Retention, busy: set<Key>, spare: set<Installation>, now: int): set<Key> {
    set k | k in bs && bs[k].phase == Consumed && bs[k].consumedAt.Some? && bs[k].consumedAt.value + r.consumed <= now
            && k !in busy && bs[k].owner !in spare
  }

  /** Terminal proofs within their retention. */
  function Lasting(ts: map<Key, Tombstone>, r: Retention, now: int): set<Key> {
    set k | k in ts && now < ts[k].tombstonedAt + r.tombstone
  }

  lemma LastingAreUnexpired(ts: map<Key, Tombstone>, r: Retention, now: int)
    requires Proper(r)
    ensures Unexpired(ts, r, now).Keys == Lasting(ts, r, now) && |Unexpired(ts, r, now)| == |Lasting(ts, r, now)|
  {
    var live := Unexpired(ts, r, now);
    assert live.Keys == Lasting(ts, r, now);
    assert |live| == |live.Keys|;
  }

  /** Made only from consumed bindings, which carry their consumption time. */
  function TombstoneFor(b: Binding, now: int): Tombstone {
    Tombstone(b.owner, if b.consumedAt.Some? then b.consumedAt.value else 0, now)
  }

  function Unexpired(ts: map<Key, Tombstone>, r: Retention, now: int): map<Key, Tombstone> {
    map k | k in ts && !TombstoneExpired(ts[k], r, now) :: ts[k]
  }

  /** Keep one more terminal proof; None is the capacity error. */
  method RetainTombstone(ts: map<Key, Tombstone>, key: Key, t: Tombstone, r: Retention, now: int)
    returns (kept: Option<map<Key, Tombstone>>)
    ensures kept == None <==> key !in Unexpired(ts, r, now) && |Unexpired(ts, r, now)| >= MAX_STORED_REPLY_ACK_TOMBSTONES
    ensures kept.Some? ==> kept.value == Unexpired(ts, r, now)[key := t]
  {
    var next := Unexpired(ts, r, now);
    if key !in next && |next| >= MAX_STORED_REPLY_ACK_TOMBSTONES { return None; }
    return Some(next[key := t]);
  }

  /** Tombstones for a set of bindings, all made now. */
  function TombstonesFor(bs: map<Key, Binding>, keys: set<Key>, now: int): map<Key, Tombstone> {
    map k | k in keys && k in bs :: TombstoneFor(bs[k], now)
  }

  predicate Reclaimable(s: Snapshot, candidates: set<Key>) {
    forall k :: k in candidates ==> k in s.bindings && s.bindings[k].phase == Consumed && s.bindings[k].consumedAt.Some?
  }

  /** The candidates were consumed by now, as expired ones were. */
  predicate ConsumedBefore(s: Snapshot, candidates: set<Key>, now: int) {
    now <= MAX_TIME && forall k :: k in candidates && k in s.bindings && s.bindings[k].consumedAt.Some? ==>
      s.bindings[k].consumedAt.value <= now
  }

  /** Reclaim expired consumed bindings: all of them get a tombstone, or none is touched. */
  function Reclaimed(s: Snapshot, candidates: set<Key>, r: Retention, now: int): Snapshot {
    var live := Unexpired(s.tombstones, r, now);
    if |candidates| > MAX_STORED_REPLY_ACK_TOMBSTONES - |live| then Snapshot(s.bindings, live)
    else Snapshot(s.bindings - candidates, live + TombstonesFor(s.bindings, candidates, now))
  }

  /** The two maps after the bindings in `done` were reclaimed. */
  function BindingsLeft(s: Snapshot, done: set<Key>): map<Key, Binding> {
    s.bindings - done
  }

  function TombstonesNow(s: Snapshot, done: set<Key>, r: Retention, now: int): map<Key, Tombstone> {
    Unexpired(s.tombstones, r, now) + TombstonesFor(s.bindings, done, now)
  }

  lemma ReclaimStart(s: Snapshot, r: Retention, now: int)
    ensures TombstonesNow(s, {}, r, now) == Unexpired(s.tombstones, r, now) && BindingsLeft(s, {}) == s.bindings
  {}

  /** One step of the reclaiming loop: the key is new, nothing made now is expired. */
  lemma ReclaimStep(s: Snapshot, candidates: set<Key>, done: set<Key>, key: Key, r: Retention, now: int)
    requires Proper(r) && Accepted(s) && Reclaimable(s, candidates) && done <= candidates && key in candidates - done
    ensures key in s.bindings
    ensures var ts := TombstonesNow(s, done, r, now);
            && key !in ts && Unexpired(ts, r, now) == ts
            && ts[key := TombstoneFor(s.bindings[key], now)] == TombstonesNow(s, done + {key}, r, now)
    ensures BindingsLeft(s, done) - {key} == BindingsLeft(s, done + {key})
  {
    CandidateIsNew(s, candidates, done, key, r, now);
    hide *;
    StillUnexpired(s, done, r, now);
    OneMore(s, done, key, r, now);
    LeftOneLess(s, done, key);
  }

  lemma CandidateIsNew(s: Snapshot, candidates: set<Key>, done: set<Key>, key: Key, r: Retention, now: int)
    requires Accepted(s) && Reclaimable(s, candidates) && key in candidates - done
    ensures key in s.bindings && key !in TombstonesNow(s, done, r, now)
  {}

  lemma LeftOneLess(s: Snapshot, done: set<Key>, key: Key)
    ensures BindingsLeft(s, done) - {key} == BindingsLeft(s, done + {key})
  {}

  lemma StillUnexpired(s: Snapshot, done: set<Key>, r: Retention, now: int)
    requires Proper(r)
    ensures Unexpired(TombstonesNow(s, done, r, now), r, now) == TombstonesNow(s, done, r, now)
  {}

  lemma OneMore(s: Snapshot, done: set<Key>, key: Key, r: Retention, now: int)
    requires key in s.bindings
    ensures TombstonesNow(s, done, r, now)[key := TombstoneFor(s.bindings[key], now)] == TombstonesNow(s, done + {key}, r, now)
  {}

  /** The reclaiming loop. `thrown` would be the capacity error after the preflight: it cannot happen. */
  method Reclaim(s: Snapshot, candidates: set<Key>, r: Retention, now: int)
    returns (next: Snapshot, blocked: bool, thrown: bool)
    requires Proper(r) && Accepted(s) && Reclaimable(s, candidates)
    ensures !thrown && next == Reclaimed(s, candidates, r, now)
    ensures blocked <==> |candidates| > MAX_STORED_REPLY_ACK_TOMBSTONES - |Unexpired(s.tombstones, r, now)|
  {
    hide Unexpired, TombstonesNow, BindingsLeft, Accepted, TombstoneFor;
    thrown, blocked := false, false;
    var live := Unexpired(s.tombstones, r, now);
    if |candidates| > MAX_STORED_REPLY_ACK_TOMBSTONES - |live| { return Snapshot(s.bindings, live), true, false; }
    var todo, done := candidates, {};
    var bs, ts := s.bindings, live;
    ReclaimStart(s, r, now);
    while todo != {}
      invariant todo + done == candidates && todo !! done
      invariant bs == BindingsLeft(s, done) && ts == TombstonesNow(s, done, r, now)
      invariant |ts| == |live| + |done|
      decreases |todo|
    {
      var key :| key in todo;
      SubsetSize(done + {key}, candidates);
      ReclaimStep(s, candidates, done, key, r, now);
      var kept := RetainTombstone(ts, key, TombstoneFor(s.bindings[key], now), r, now);
      if kept == None { return Snapshot(bs, ts), false, true; }
      bs, ts := bs - {key}, kept.value;
      todo, done := todo - {key}, done + {key};
    }
    assert done == candidates;
    next := Snapshot(bs, ts);
    ReclaimEnd(s, candidates, r, now);
  }

  lemma ReclaimEnd(s: Snapshot, candidates: set<Key>, r: Retention, now: int)
    requires |candidates| <= MAX_STORED_REPLY_ACK_TOMBSTONES - |Unexpired(s.tombstones, r, now)|
    ensures Reclaimed(s, candidates, r, now) == Snapshot(BindingsLeft(s, candidates), TombstonesNow(s, candidates, r, now))
  {}

  lemma UnionSize(live: map<Key, Tombstone>, made: map<Key, Tombstone>)
    requires live.Keys !! made.Keys
    ensures |live + made| == |live| + |made|
  {}

  lemma ReclaimedSound(s: Snapshot, candidates: set<Key>, r: Retention, now: int, timed: bool)
    requires Sound(s, now, timed) && Reclaimable(s, candidates) && ConsumedBefore(s, candidates, now)
    ensures Sound(Reclaimed(s, candidates, r, now), now, timed)
    ensures Reclaimed(s, candidates, r, now).bindings.Keys <= s.bindings.Keys
  {
    hide BindingParses, BindingNotAfter, TombstoneParses, TombstoneExpired, Sound, TombstonesFor;
    var live := Unexpired(s.tombstones, r, now);
    assert Within(live, s.tombstones) && Within(s.bindings, s.bindings);
    FewerSound(s, s.bindings, live, now, timed);
    if |candidates| <= MAX_STORED_REPLY_ACK_TOMBSTONES - |live| {
      assert Within(s.bindings - candidates, s.bindings);
      FewerSound(s, s.bindings - candidates, live, now, timed);
      MadeSound(s, live, candidates, now, timed);
    }
  }

  /** No record is lost: a binding stays as it is or leaves its owner's tombstone, and an
      unexpired terminal proof is never evicted. */
  lemma ReclaimLosesNothing(s: Snapshot, candidates: set<Key>, r: Retention, now: int, k: Key)
    requires Reclaimable(s, candidates) && s.bindings.Keys !! s.tombstones.Keys
    ensures var next := Reclaimed(s, candidates, r, now);
            && (k in s.bindings ==> if k in next.bindings then next.bindings[k] == s.bindings[k]
                 else k in candidates && k in next.tombstones && next.tombstones[k] == TombstoneFor(s.bindings[k], now))
            && (k in s.tombstones && !TombstoneExpired(s.tombstones[k], r, now) ==>
                 k in next.tombstones && next.tombstones[k] == s.tombstones[k])
  {}

  /** The new tombstones are acceptable beside the old ones. */
  lemma MadeSound(s: Snapshot, live: map<Key, Tombstone>, candidates: set<Key>, now: int, timed: bool)
    requires Sound(s, now, timed) && Reclaimable(s, candidates) && ConsumedBefore(s, candidates, now) && live.Keys <= s.tombstones.Keys
    requires Sound(Snapshot(s.bindings - candidates, live), now, timed)
    requires |candidates| <= MAX_STORED_REPLY_ACK_TOMBSTONES - |live|
    ensures Sound(Snapshot(s.bindings - candidates, live + TombstonesFor(s.bindings, candidates, now)), now, timed)
  {
    hide BindingParses, BindingNotAfter, TombstoneParses, TombstoneFor;
    var made := TombstonesFor(s.bindings, candidates, now);
    assert made.Keys == candidates;
    UnionSize(live, made);
    forall k | k in made ensures TombstoneParses(made[k]) && (timed ==> made[k].tombstonedAt <= now) {
      SoundFacts(s, now, k, timed);
      MadeParses(s.bindings[k], now, timed);
    }
    JoinedSound(s.bindings - candidates, live, made, now, timed);
  }

  lemma JoinedSound(bs: map<Key, Binding>, live: map<Key, Tombstone>, made: map<Key, Tombstone>, now: int, timed: bool)
    requires Sound(Snapshot(bs, live), now, timed) && |live + made| <= MAX_STORED_REPLY_ACK_TOMBSTONES
    requires made.Keys !! bs.Keys
    requires forall k :: k in made ==> TombstoneParses(made[k]) && (timed ==> made[k].tombstonedAt <= now)
    ensures Sound(Snapshot(bs, live + made), now, timed)
  {
    JoinedParses(live, made);
    assert (live + made).Keys == live.Keys + made.Keys;
    forall k | timed && k in live + made ensures (live + made)[k].tombstonedAt <= now {
      if k !in made { assert k in Snapshot(bs, live).tombstones; }
    }
    hide BindingsParse, TombstonesParse, BindingNotAfter;
  }

  lemma JoinedParses(live: map<Key, Tombstone>, made: map<Key, Tombstone>)
    requires forall k :: k in made ==> TombstoneParses(made[k])
    ensures TombstonesParse(live) ==> TombstonesParse(live + made)
  {}

  lemma MadeParses(b: Binding, now: int, timed: bool)
    requires BindingParses(b) && b.phase == Consumed && b.consumedAt.value <= now <= MAX_TIME
    ensures TombstoneParses(TombstoneFor(b, now)) && (timed ==> TombstoneFor(b, now).tombstonedAt <= now)
  {}

  /** Replacing bindings one by one by sound ones. */
  lemma SameKeysSound(s: Snapshot, bs: map<Key, Binding>, now: int, timed: bool)
    requires Sound(s, now, timed) && bs.Keys == s.bindings.Keys
    requires forall k :: k in bs ==> BindingParses(bs[k]) && (timed ==> BindingNotAfter(bs[k], now))
    ensures Sound(Snapshot(bs, s.tombstones), now, timed)
  {}

  predicate Within<V(==)>(m: map<Key, V>, n: map<Key, V>) {
    m.Keys <= n.Keys && forall k :: k in m ==> m[k] == n[k]
  }

  /** Dropping records keeps a snapshot sound. */
  lemma ReclaimedWithin(s: Snapshot, candidates: set<Key>, r: Retention, now: int)
    ensures Within(Reclaimed(s, candidates, r, now).bindings, s.bindings)
  {}

  lemma FewerSound(s: Snapshot, bs: map<Key, Binding>, ts: map<Key, Tombstone>, now: int, timed: bool)
    requires Sound(s, now, timed) && Within(bs, s.bindings) && Within(ts, s.tombstones)
    ensures Sound(Snapshot(bs, ts), now, timed)
  {
    hide BindingParses, BindingNotAfter, TombstoneParses;
    SubmapSize(bs, s.bindings);
    SubmapSize(ts, s.tombstones);
    assert BindingsParse(bs) && TombstonesParse(ts);
  }

  lemma RemovalSound(s: Snapshot, key: Key, now: int, timed: bool)
    requires Sound(s, now, timed)
    ensures Sound(Snapshot(s.bindings - {key}, s.tombstones), now, timed)
    ensures Sound(Snapshot(s.bindings, s.tombstones - {key}), now, timed)
  {}

  lemma NextSound(s: Snapshot, key: Key, b: Binding, now: int, timed: bool)
    requires Sound(s, now, timed) && key in s.bindings && BindingParses(b) && (timed ==> BindingNotAfter(b, now))
    ensures Sound(Snapshot(s.bindings[key := b], s.tombstones), now, timed)
  {}

  lemma NewSound(s: Snapshot, key: Key, b: Binding, now: int, timed: bool)
    requires Sound(s, now, timed) && key !in s.bindings && key !in s.tombstones && |s.bindings| < MAX_STORED_REPLY_ACKS
    requires BindingParses(b) && (timed ==> BindingNotAfter(b, now))
    ensures Sound(Snapshot(s.bindings[key := b], s.tombstones), now, timed)
  {}

  lemma SoundFacts(s: Snapshot, now: int, k: Key, timed: bool)
    requires Sound(s, now, timed)
    ensures Accepted(s)
    ensures k in s.bindings ==> BindingParses(s.bindings[k]) && (timed ==> BindingNotAfter(s.bindings[k], now))
  {}

  /** A receipt proof is savable exactly when the clock has not gone back past the preparation,
      and a consumption when it has not gone back past the proof. */
  lemma ProofSavable(b: Binding, now: Millis)
    requires BindingParses(b) && b.phase == Prepared
    ensures BindingParses(b.(phase := Received, receivedAt := Some(now))) <==> now >= b.preparedAt
  {}

  lemma ConsumptionSavable(b: Binding, now: Millis)
    requires BindingParses(b) && b.phase == Received
    ensures BindingParses(b.(phase := Consumed, consumedAt := Some(now))) <==> now >= b.receivedAt.value
  {}

  lemma SoundIs(s: Snapshot, now: int, timed: bool)
    ensures Sound(s, now, timed) <==> Accepted(s) && (timed ==> NotAfter(s, now))
  {}

  /** A save the store refuses changes nothing, like one that failed before its rename. */
  function Refused(refused: bool, o: Outcome): Outcome {
    if refused then Untouched else o
  }

  // ------------------------------------------------- one receipt's records

  /** What a snapshot holds for one receipt, in the protocol's terms. */
  function CellOf(s: Snapshot, k: Key): Cell {
    if k in s.bindings then Live(s.bindings[k].owner, s.bindings[k].phase)
    else if k in s.tombstones then Tomb(s.tombstones[k].owner)
    else Absent
  }

  /** When an owner was last seen is not part of a cell. */
  lemma SameCells(a: map<Key, Binding>, b: map<Key, Binding>, ts: map<Key, Tombstone>)
    requires a.Keys == b.Keys && forall k :: k in a ==> SameButSeen(b[k], a[k])
    ensures forall k :: CellOf(Snapshot(b, ts), k) == CellOf(Snapshot(a, ts), k)
  {}

  /** The protocol's bridge of one receipt: memory, latch and file. */
  ghost function ViewOf(memory: Snapshot, latched: bool, file: File<Snapshot>, k: Key): (b: Bridge)
    ensures b.mem == CellOf(memory, k) && b.latched == latched
  {
    Bridge(CellOf(memory, k), latched, File(CellOf(file.visible, k), set s | s in file.durable :: CellOf(s, k)), {}, map[])
  }

  /** One save seen from one receipt; a save without its own tombstones forgets them in memory. */
  ghost predicate SavedAs(was: Bridge, now: Bridge, cell: Cell, o: Outcome, aliased: bool) {
    var b := ReplyProtocol.Save(was, cell, o);
    now == if Saved(was, o) && aliased && cell.Tomb? then b.(mem := Absent) else b
  }

  /** Saving a snapshot is saving every receipt's cell in it. */
  lemma SaveView(memory: Snapshot, latched: bool, file: File<Snapshot>, saved: Snapshot, o: Outcome, aliased: bool, k: Key)
    requires !latched
    ensures SavedAs(ViewOf(memory, latched, file, k),
                    ViewOf(if o != Written then memory else if aliased then Snapshot(saved.bindings, map[]) else saved,
                           o == Unsettled, Replace(file, saved, o), k),
                    CellOf(saved, k), o, aliased)
  {}

  // ------------------------------------------------------------ the records

  datatype SaveResult = Stored | Unavailable | Rejected | Failed

  /** A binding keeps its text, and its owner and phase unless it moves to `i`, which starts at prepared. */
  predicate Carried(was: Binding, now: Binding, i: Installation, moves: bool) {
    && now.text == was.text
    && (if moves then now.owner == i && now.phase == Prepared else now.owner == was.owner && now.phase == was.phase)
  }

  predicate Survives(was: Binding, key: Key, s: Snapshot, i: Installation, moves: bool) {
    if key in s.bindings then Carried(was, s.bindings[key], i, moves)
    else key in s.tombstones && was.phase == Consumed && s.tombstones[key].owner == was.owner
  }

  /** Every record of `was` survives in `s`, and moves to `i` exactly when `leaving` says so. */
  predicate Follows(was: map<Key, Binding>, s: Snapshot, i: Installation, leaving: map<Key, bool>) {
    was.Keys == leaving.Keys && forall k :: k in was ==> Survives(was[k], k, s, i, leaving[k])
  }

  predicate SameButSeen(a: Binding, b: Binding) {
    a.(ownerSeenAt := 0) == b.(ownerSeenAt := 0)
  }

  lemma AllSeen(bs: map<Key, Binding>)
    ensures forall k :: k in bs ==> SameButSeen(bs[k], bs[k])
  {}

  /** Another receipt's save: this receipt's cell was written again as it was, or nothing happened. */
  ghost predicate OnlyResaved(was: Bridge, now: Bridge, o: Outcome) {
    now == was || SavedAs(was, now, was.mem, o, true) || SavedAs(was, now, was.mem, o, false)
  }

  /** A change of many receipts at once, seen from one: the planned cell was saved, or the
      receipt keeps its cell, or the store no longer writes. */
  ghost predicate SavedOrSame(was: Bridge, now: Bridge, cell: Cell, o: Outcome) {
    if was.latched then now == was
    else SavedAs(was, now, cell, o, false) || (now == was && cell == was.mem)
  }

  /** The protocol's decision for a hello of `i`, with these installations connected. */
  function HelloCell(mem: Cell, active: set<Installation>, i: Installation, abandoned: bool, expired: bool): Cell {
    Reconciled(Bridge(mem, false, File(mem, {mem}), {}, map j | j in active :: None), i, abandoned, expired)
  }

  /** The protocol's decision for a sweep. */
  function SweptCell(mem: Cell, active: set<Installation>, expired: bool): Cell {
    match mem
    case Tomb(_) => if expired then Absent else mem
    case Live(owner, Consumed) => if expired && owner !in active then Tomb(owner) else mem
    case _ => mem
  }

  /** Both decisions are the ones the protocol's steps take, with the same save. */
  lemma TransferDecides(w: World, i: Installation, abandoned: bool, expired: bool, o: Outcome)
    ensures SavedOrSame(w.bridge, TransferStep(w, i, abandoned, expired, o).bridge,
                        HelloCell(w.bridge.mem, w.bridge.sockets.Keys, i, abandoned, expired), o)
  {}

  lemma SweepDecides(w: World, expired: bool, o: Outcome)
    ensures SavedOrSame(w.bridge, SweepStep(w, expired, o).bridge,
                        SweptCell(w.bridge.mem, w.bridge.sockets.Keys, expired), o)
  {}

  /** The retention period takes this receipt's record away: all reclaimable bindings
      with room for their tombstones, or none of them, and every expired tombstone. */
  predicate Goes(s: Snapshot, candidates: set<Key>, r: Retention, now: int, k: Key) {
    if k in s.bindings
    then k in candidates && |candidates| <= MAX_STORED_REPLY_ACK_TOMBSTONES - |Unexpired(s.tombstones, r, now)|
    else k in s.tombstones && TombstoneExpired(s.tombstones[k], r, now)
  }

  lemma Unchanged(was: Bridge, cell: Cell, o: Outcome)
    ensures cell == was.mem ==> SavedOrSame(was, was, cell, o)
  {}

  /** The due bindings, when all of them have room, have become tombstones of their owners
      made now, the tombstones that last stay, and everything else stays what it is. */
  ghost predicate Reclaims(was: Snapshot, now: Snapshot, due: set<Key>, r: Retention, at: int) {
    var room := |due| + |Lasting(was.tombstones, r, at)| <= 64;
    && (forall k :: k in now.bindings <==> k in was.bindings && !(k in due && room))
    && (forall k :: k in was.bindings && k in due && room ==>
          k in now.tombstones && was.bindings[k].consumedAt.Some?
          && now.tombstones[k] == Tombstone(was.bindings[k].owner, was.bindings[k].consumedAt.value, at))
    && (forall k :: k in now.tombstones && !(k in due && room) ==>
          k in Lasting(was.tombstones, r, at) && k in was.tombstones && now.tombstones[k] == was.tombstones[k])
    && (forall k :: k in Lasting(was.tombstones, r, at) ==> k in now.tombstones)
  }

  lemma ReclaimedReclaims(s: Snapshot, candidates: set<Key>, r: Retention, now: int)
    requires Proper(r) && Reclaimable(s, candidates)
    ensures Reclaims(s, Reclaimed(s, candidates, r, now), candidates, r, now)
  {
    LastingAreUnexpired(s.tombstones, r, now);
  }

  lemma KeysReclaim(was: Snapshot, next: Snapshot, plan: Snapshot, due: set<Key>, r: Retention, at: int)
    requires Reclaims(was, next, due, r, at) && plan.bindings.Keys == next.bindings.Keys && plan.tombstones == next.tombstones
    ensures Reclaims(was, plan, due, r, at)
  {
    hide Lasting;
    assert forall k :: k in plan.bindings <==> k in next.bindings;
  }

  lemma BindingsOf(s: Snapshot)
    requires Accepted(s)
    ensures BindingsParse(s.bindings)
  {}

  lemma ReclaimedCell(s: Snapshot, candidates: set<Key>, r: Retention, now: int, k: Key)
    requires Reclaimable(s, candidates) && s.bindings.Keys !! s.tombstones.Keys
    ensures var cell := CellOf(s, k);
            CellOf(Reclaimed(s, candidates, r, now), k) ==
              if !Goes(s, candidates, r, now, k) then cell else if cell.Live? then Tomb(cell.owner) else Absent
    ensures k in s.bindings ==> (k in Reclaimed(s, candidates, r, now).bindings <==> !Goes(s, candidates, r, now, k))
  {
    ReclaimLosesNothing(s, candidates, r, now, k);
    hide TombstoneExpired;
  }

  lemma ResavedBy(was: Bridge, now: Bridge, cell: Cell, o: Outcome)
    requires cell == was.mem && SavedAs(was, now, cell, o, true)
    ensures OnlyResaved(was, now, o)
  {}

  lemma KeptCell(s: Snapshot, bs: map<Key, Binding>, ts: map<Key, Tombstone>, k: Key)
    requires (k in bs <==> k in s.bindings) && (k in bs ==> bs[k] == s.bindings[k])
    requires (k in ts <==> k in s.tombstones) && (k in ts ==> ts[k] == s.tombstones[k])
    ensures CellOf(Snapshot(bs, ts), k) == CellOf(s, k)
  {}

  class ReplyAckRecords {
    var bindings: map<Key, Binding>
    var tombstones: map<Key, Tombstone>
    var latched: bool
    var file: File<Snapshot>
    /** When each installation was last seen by this process, which started at `startedAt`. */
    var seen: map<Installation, Millis>
    const startedAt: Millis
    const retention: Retention

    ghost function Memory(): Snapshot
      reads this
    {
      Snapshot(bindings, tombstones)
    }

    /** The protocol's bridge of one receipt. */
    ghost function View(k: Key): Bridge
      reads this
    {
      ViewOf(Memory(), latched, file, k)
    }

    /** Memory and every snapshot a crash may leave are acceptable, whatever the clock says. */
    ghost predicate Valid()
      reads this
    {
      && Proper(retention)
      && Accepted(Memory())
      && file.visible in file.durable
      && (forall s :: s in file.durable ==> Accepted(s))
    }

    /** No record and no sighting is from the future: so it is while the clock never goes back. */
    ghost predicate OnTime(now: int)
      reads this
    {
      && startedAt <= now <= MAX_TIME
      && NotAfter(Memory(), now)
      && (forall s :: s in file.durable ==> NotAfter(s, now))
      && (forall i :: i in seen ==> seen[i] <= now)
    }

    lemma LaterValid(now: Millis, later: Millis)
      requires OnTime(now) && now <= later
      ensures OnTime(later)
    {}

    constructor (snapshot: Snapshot, r: Retention, now: Millis)
      requires Proper(r) && Accepted(snapshot)
      ensures Valid() && Memory() == snapshot && !latched && file == File(snapshot, {snapshot}) && fresh(this)
      ensures NotAfter(snapshot, now) ==> OnTime(now)
    {
      bindings, tombstones := snapshot.bindings, snapshot.tombstones;
      latched, file, seen, startedAt, retention := false, File(snapshot, {snapshot}), map[], now, r;
    }

    function LastSeen(b: Binding): int
      reads this`seen
    {
      var known := if b.owner in seen then seen[b.owner] else 0;
      var seenAt := if b.ownerSeenAt < known then known else b.ownerSeenAt;
      if seenAt < startedAt then startedAt else seenAt
    }

    /** Every binding with its owner's high-water mark, as it is saved. */
    function Normalized(bs: map<Key, Binding>): (r: map<Key, Binding>)
      reads this`seen
      ensures r.Keys == bs.Keys
      ensures forall k :: k in bs ==> SameButSeen(r[k], bs[k])
    {
      map k | k in bs :: bs[k].(ownerSeenAt := LastSeen(bs[k]))
    }

    /** A sighting never lowers the mark, even when the clock went back. */
    function Mark(i: Installation, now: Millis): (r: Millis)
      reads this`seen
      ensures r >= now && r >= startedAt && r >= 0 && (i in seen ==> r >= seen[i])
      ensures r == now || r == startedAt || r == 0 || (i in seen && r == seen[i])
    {
      var known := if i in seen && seen[i] > 0 then seen[i] else 0;
      var mark := if known < now then now else known;
      if mark < startedAt then startedAt else mark
    }

    method NoteSeen(i: Installation, now: Millis)
      requires Valid()
      modifies this`seen
      ensures Valid() && seen == old(seen[i := Mark(i, now)])
      ensures old(OnTime(now)) && now >= 0 ==> OnTime(now)
    {
      seen := seen[i := Mark(i, now)];
    }

    /** The store's save: refused after an ambiguous write, and for a snapshot no start would accept. */
    method Save(s: Snapshot, o: Outcome) returns (result: SaveResult)
      modifies this`latched, this`file
      ensures result == (if old(latched) then Unavailable else if !Accepted(s) then Rejected
                         else if o == Written then SaveResult.Stored else Failed)
      ensures file == if old(latched) || !Accepted(s) then old(file) else Replace(old(file), s, o)
      ensures latched == (old(latched) || (Accepted(s) && o == Unsettled))
    {
      if latched { return Unavailable; }
      if !Accepted(s) { return Rejected; }
      file := Replace(file, s, o);
      if o == Unsettled { latched := true; }
      return if o == Written then SaveResult.Stored else Failed;
    }

    /** Save both maps, then follow in memory. When the caller passes no tombstones the
        map is emptied and refilled from itself, so memory forgets them. */
    method Persist(nextBindings: map<Key, Binding>, given: Option<map<Key, Tombstone>>, o: Outcome, ghost now: Millis)
      returns (result: SaveResult)
      requires Valid()
      modifies this`bindings, this`tombstones, this`latched, this`file
      ensures Valid()
      ensures var saved := old(Snapshot(Normalized(nextBindings), if given == None then tombstones else given.value));
              result == if old(latched) then Unavailable else if !Accepted(saved) then Rejected
                        else if o == Written then SaveResult.Stored else Failed
      // A clock that never went back never makes a sound snapshot unsavable.
      ensures old(OnTime(now)) && Sound(Snapshot(nextBindings, if given == None then old(tombstones) else given.value), now, true) ==>
                OnTime(now) && result != Rejected
      ensures result != SaveResult.Stored ==> Memory() == old(Memory())
      ensures result == SaveResult.Stored ==>
                && bindings == old(Normalized(nextBindings))
                && tombstones == (if given == None then map[] else given.value)
                && file.visible == Snapshot(bindings, if given == None then old(tombstones) else given.value) && Settled(file)
      // On every receipt at once this is the protocol's save; a refused one changes nothing.
      ensures forall k :: if old(latched) then View(k) == old(View(k)) else
                SavedAs(old(View(k)), View(k), CellOf(Snapshot(nextBindings, if given == None then old(tombstones) else given.value), k),
                        Refused(result == Rejected, o), given == None)
    {
      ghost var timed := OnTime(now) && Sound(Snapshot(nextBindings, if given == None then tombstones else given.value), now, true);
      hide SavedAs, ViewOf, Sound, Accepted, NotAfter, BindingParses, BindingNotAfter, LastSeen, Normalized, CellOf, Refused;
      var normalized := Normalized(nextBindings);
      var aliased := given == None;
      var saved := Snapshot(normalized, if aliased then tombstones else given.value);
      if timed { NormalizedSound(Snapshot(nextBindings, saved.tombstones), now, timed); }
      SoundIs(saved, now, timed);
      SameCells(nextBindings, normalized, saved.tombstones);
      EmptiedSound(saved, now);
      result := SaveAndFollow(saved, aliased, o);
    }

    lemma EmptiedSound(s: Snapshot, now: int)
      ensures Accepted(s) ==> Accepted(Snapshot(s.bindings, map[]))
      ensures NotAfter(s, now) ==> NotAfter(Snapshot(s.bindings, map[]), now)
    {
      hide BindingParses, TombstoneParses;
    }

    /** The store's save, and memory after it. */
    method SaveAndFollow(saved: Snapshot, aliased: bool, o: Outcome) returns (result: SaveResult)
      modifies this`bindings, this`tombstones, this`latched, this`file
      ensures result == (if old(latched) then Unavailable else if !Accepted(saved) then Rejected
                         else if o == Written then SaveResult.Stored else Failed)
      ensures file == if result == Unavailable || result == Rejected then old(file) else Replace(old(file), saved, o)
      ensures latched == (old(latched) || (result == Failed && o == Unsettled))
      ensures bindings == if result == SaveResult.Stored then saved.bindings else old(bindings)
      ensures tombstones == if result != SaveResult.Stored then old(tombstones) else if aliased then map[] else saved.tombstones
      ensures forall k :: if old(latched) then View(k) == old(View(k)) else
                SavedAs(old(View(k)), View(k), CellOf(saved, k), Refused(result == Rejected, o), aliased)
    {
      hide Accepted, SavedAs, ViewOf, CellOf;
      ghost var was, from := Memory(), file;
      result := Save(saved, o);
      if result == SaveResult.Stored {
        bindings := saved.bindings;
        tombstones := if aliased then map[] else saved.tombstones;
      }
      if !old(latched) {
        forall k { SaveView(was, false, from, saved, Refused(result == Rejected, o), aliased, k); }
      }
    }

    lemma LastSeenSound(b: Binding, now: int, timed: bool)
      requires BindingParses(b) && (timed ==> OnTime(now) && BindingNotAfter(b, now))
      ensures BindingParses(b.(ownerSeenAt := LastSeen(b)))
      ensures timed ==> BindingNotAfter(b.(ownerSeenAt := LastSeen(b)), now) && LastSeen(b) <= now
    {}

    /** Raising the sightings never makes a snapshot unsavable. */
    lemma NormalizedSound(s: Snapshot, now: int, timed: bool)
      requires Sound(s, now, timed) && (timed ==> OnTime(now))
      ensures Sound(Snapshot(Normalized(s.bindings), s.tombstones), now, timed)
    {
      hide BindingParses, BindingNotAfter, Sound, LastSeen, Accepted, NotAfter, OnTime;
      forall k | k in s.bindings
        ensures BindingParses(Normalized(s.bindings)[k]) && (timed ==> BindingNotAfter(Normalized(s.bindings)[k], now)) {
        SoundFacts(s, now, k, timed);
        LastSeenSound(s.bindings[k], now, timed);
      }
      SameKeysSound(s, Normalized(s.bindings), now, timed);
    }

    /** One record that cannot be saved makes the whole snapshot unsavable, however recently
        its owner was seen. */
    lemma OneRefuses(bs: map<Key, Binding>, ts: map<Key, Tombstone>, key: Key)
      requires key in bs && !BindingParses(bs[key]) && IsTime(bs[key].ownerSeenAt)
      ensures !Accepted(Snapshot(Normalized(bs), ts))
    {
      hide LastSeen;
    }

    // ------------------------------------------------------------ operations

    /** A new binding, saved before its envelope is sent; refused at capacity, and by the
        store when the clock is before 1970. */
    method Prepare(key: Key, owner: Installation, text: string, o: Outcome, now: Millis) returns (sent: bool)
      requires Valid()
      modifies this
      ensures Valid() && (old(OnTime(now)) && now >= 0 ==> OnTime(now))
      ensures sent <==> old(key !in bindings && key !in tombstones && !latched && |bindings| < MAX_STORED_REPLY_ACKS)
                        && now >= 0 && o == Written
      ensures sent ==> key in bindings && bindings[key].phase == Prepared && bindings[key].text == text
      ensures sent ==> bindings[key].owner == owner && key in file.visible.bindings && Settled(file)
      ensures !sent ==> Memory() == old(Memory())
      ensures forall k :: k in old(bindings) ==> k in bindings && SameButSeen(bindings[k], old(bindings[k]))
      ensures old(key !in bindings && key !in tombstones && !latched && |bindings| < MAX_STORED_REPLY_ACKS) ==>
                SavedAs(old(View(key)), View(key), Live(owner, Prepared), Refused(now < 0, o), true)
      ensures forall k :: k != key ==> OnlyResaved(old(View(k)), View(k), Refused(now < 0, o))
    {
      if latched || |bindings| >= MAX_STORED_REPLY_ACKS || key in bindings || key in tombstones { return false; }
      var b := Binding(owner, text, Prepared, now, now, None, None);
      ghost var timed, next := OnTime(now), bindings[key := b];
      PreparedSavable(next, key, owner, text, now, timed);
      hide Sound, Accepted, LastSeen, ViewOf, SavedAs, Normalized, OnTime;
      forall k | k != key { KeptCell(Memory(), next, tombstones, k); }
      var result := Persist(bindings[key := b], None, o, now);
      return result == SaveResult.Stored;
    }

    lemma PreparedSavable(next: map<Key, Binding>, key: Key, owner: Installation, text: string, now: Millis, timed: bool)
      requires Valid() && (timed ==> OnTime(now)) && key !in bindings && key !in tombstones && |bindings| < MAX_STORED_REPLY_ACKS
      requires next == bindings[key := Binding(owner, text, Prepared, now, now, None, None)]
      ensures Accepted(Snapshot(Normalized(next), tombstones)) <==> now >= 0
      ensures timed && now >= 0 ==> Sound(Snapshot(next, tombstones), now, true)
    {
      hide LastSeen;
      if now >= 0 {
        NewSound(Memory(), key, next[key], now, timed);
        hide BindingParses, BindingNotAfter, NotAfter;
        NormalizedSound(Snapshot(next, tombstones), now, timed);
      } else {
        assert !BindingParses(Normalized(next)[key]);
      }
    }

    /** Save one binding in its next phase, which the store may refuse. */
    method SetBinding(key: Key, next: Binding, o: Outcome, now: Millis) returns (stored: bool)
      requires Valid() && key in bindings && !latched
      requires next.text == bindings[key].text && IsTime(next.ownerSeenAt)
      modifies this
      ensures Valid() && (old(OnTime(now)) && BindingParses(next) && BindingNotAfter(next, now) ==> OnTime(now))
      ensures stored <==> o == Written && BindingParses(next)
      ensures SavedAs(old(View(key)), View(key), Live(next.owner, next.phase), Refused(!BindingParses(next), o), true)
      ensures forall k :: k != key ==> OnlyResaved(old(View(k)), View(k), Refused(!BindingParses(next), o))
      ensures bindings.Keys == old(bindings.Keys) && forall k :: k in bindings ==> bindings[k].text == old(bindings[k]).text
    {
      ghost var timed := OnTime(now) && BindingParses(next) && BindingNotAfter(next, now);
      ghost var was := Memory();
      NextSavable(key, next, now, timed);
      hide Sound, Accepted, LastSeen, ViewOf, SavedAs, Normalized, BindingParses, BindingNotAfter, OnlyResaved, OnTime;
      forall k | k != key { KeptCell(Memory(), bindings[key := next], tombstones, k); }
      var result := Persist(bindings[key := next], None, o, now);
      forall k | k != key ensures OnlyResaved(old(View(k)), View(k), Refused(!BindingParses(next), o)) {
        ResavedBy(old(View(k)), View(k), CellOf(was, k), Refused(!BindingParses(next), o));
      }
      return result == SaveResult.Stored;
    }

    lemma NextSavable(key: Key, next: Binding, now: int, timed: bool)
      requires Valid() && key in bindings && IsTime(next.ownerSeenAt)
      requires timed ==> OnTime(now) && BindingParses(next) && BindingNotAfter(next, now)
      ensures Accepted(Snapshot(Normalized(bindings[key := next]), tombstones)) <==> BindingParses(next)
      ensures timed ==> Sound(Snapshot(bindings[key := next], tombstones), now, true)
    {
      hide LastSeen, Normalized;
      if BindingParses(next) {
        NextSound(Memory(), key, next, now, timed);
        NormalizedSound(Snapshot(bindings[key := next], tombstones), now, timed);
      } else {
        OneRefuses(bindings[key := next], tombstones, key);
      }
    }

    /** The binding a frame of `owner` may act on: what its socket remembers, else the shared one. */
    function OwnedBy(key: Key, owner: Installation, remembered: Option<Binding>): Option<Binding>
      reads this`bindings
    {
      if remembered.Some? then (if remembered.value.owner == owner then remembered else None)
      else if key in bindings && bindings[key].owner == owner then Some(bindings[key])
      else None
    }

    /** What a socket remembers as prepared is still the shared binding, but for a later
        sighting of its owner: the invariant `Remembered` of the protocol. */
    predicate StillCurrent(key: Key, remembered: Option<Binding>)
      reads this`bindings
    {
      remembered.Some? && remembered.value.phase == Prepared ==>
        && key in bindings && SameButSeen(remembered.value, bindings[key])
        && 0 <= remembered.value.ownerSeenAt <= bindings[key].ownerSeenAt
    }

    /** The owner proved its durable copy: confirmed only once that is saved, and confirmed again
        after that. A clock set back before the preparation makes the store refuse the proof. */
    method Receive(key: Key, owner: Installation, remembered: Option<Binding>, o: Outcome, now: Millis) returns (confirm: bool)
      requires Valid() && StillCurrent(key, remembered)
      modifies this
      ensures Valid() && (old(OnTime(now)) ==> OnTime(now))
      ensures var b := old(OwnedBy(key, owner, remembered));
              var refused := b.Some? && now < b.value.preparedAt;
              && (confirm <==> b.Some? && (b.value.phase == Prepared ==> !old(latched) && !refused && o == Written))
              && (if b.Some? && b.value.phase == Prepared && !old(latched)
                  then SavedAs(old(View(key)), View(key), Live(owner, Received), Refused(refused, o), true)
                  else forall k :: View(k) == old(View(k)))
              && (forall k :: k != key ==> OnlyResaved(old(View(k)), View(k), Refused(refused, o)))
              && (old(OnTime(now)) && b.Some? && b.value.phase == Prepared ==> !refused)
      ensures forall k :: k in old(bindings) ==> k in bindings && bindings[k].text == old(bindings[k]).text
    {
      var binding := OwnedBy(key, owner, remembered);
      if binding == None { return false; }
      if binding.value.phase != Prepared { return true; }
      var received := binding.value.(phase := Received, receivedAt := Some(now));
      assert BindingParses(binding.value) && BindingParses(bindings[key]);
      assert OnTime(now) ==> BindingNotAfter(bindings[key], now);
      ProofSavable(binding.value, now);
      if latched { return false; }
      hide LastSeen, View, SavedAs, OnTime;
      confirm := SetBinding(key, received, o, now);
    }

    /** telepathosd consumed the row for `task`: acknowledged only once that is saved, and only if the
        binding the request started from is still the current one. A clock set back before the
        proof makes the store refuse the consumption. */
    method Consume(key: Key, task: Binding, o: Outcome, now: Millis) returns (acknowledge: bool)
      requires Valid() && task.phase == Received
      modifies this
      ensures Valid() && (old(OnTime(now)) ==> OnTime(now))
      ensures var current := key in old(bindings) && old(bindings[key]) == task;
              var refused := current && now < task.receivedAt.value;
              && (acknowledge <==> current && !old(latched) && !refused && o == Written)
              && (current && !old(latched) ==>
                    SavedAs(old(View(key)), View(key), Live(task.owner, Consumed), Refused(refused, o), true))
              && (forall k :: k != key ==> OnlyResaved(old(View(k)), View(k), Refused(refused, o)))
              && (old(OnTime(now)) ==> !refused)
      ensures forall k :: k in old(bindings) ==> k in bindings && bindings[k].text == old(bindings[k]).text
    {
      if key !in bindings || bindings[key] != task { return false; }
      var consumed := bindings[key].(phase := Consumed, consumedAt := Some(now));
      assert BindingParses(task);
      assert OnTime(now) ==> BindingNotAfter(task, now);
      ConsumptionSavable(task, now);
      if latched { return false; }
      hide LastSeen, View, SavedAs, OnTime;
      acknowledge := SetBinding(key, consumed, o, now);
    }

    /** Only the owner of a consumed binding removes it, durably, before the confirmation. */
    method RetireBinding(key: Key, owner: Installation, o: Outcome, now: Millis) returns (confirm: bool)
      requires Valid() && key in bindings
      modifies this
      ensures Valid() && (old(OnTime(now)) ==> OnTime(now))
      ensures confirm <==> old(bindings[key]).owner == owner && old(bindings[key]).phase == Consumed
                           && !old(latched) && o == Written
      ensures confirm ==> bindings.Keys == old(bindings.Keys) - {key} && key !in tombstones
      ensures confirm ==> key !in file.visible.bindings && Settled(file)
      ensures !confirm ==> Memory() == old(Memory())
      ensures old(bindings[key]).owner == owner && old(bindings[key]).phase == Consumed && !old(latched) ==>
                SavedAs(old(View(key)), View(key), Absent, o, true)
      ensures forall k :: k != key ==> OnlyResaved(old(View(k)), View(k), o)
    {
      assert key !in tombstones by { assert bindings.Keys !! tombstones.Keys; }
      hide Sound, LastSeen, ViewOf, SavedAs;
      forall k | k != key { KeptCell(Memory(), bindings - {key}, tombstones, k); }
      if bindings[key].owner != owner || bindings[key].phase != Consumed { return false; }
      RemovalSavable(bindings - {key}, tombstones, now, OnTime(now));
      hide Accepted, Normalized, OnTime;
      var result := Persist(bindings - {key}, None, o, now);
      return result == SaveResult.Stored;
    }

    lemma RemovalSavable(bs: map<Key, Binding>, ts: map<Key, Tombstone>, now: int, timed: bool)
      requires Valid() && (timed ==> OnTime(now)) && Within(bs, bindings) && Within(ts, tombstones)
      ensures Accepted(Snapshot(Normalized(bs), ts)) && (timed ==> Sound(Snapshot(bs, ts), now, true))
    {
      FewerSound(Memory(), bs, ts, now, timed);
      hide LastSeen, Normalized, OnTime, BindingParses;
      NormalizedSound(Snapshot(bs, ts), now, timed);
    }

    /** Without a binding, a tombstone of the owner is removed, and a missing record is confirmed again. */
    method RetireTerminal(key: Key, owner: Installation, o: Outcome, now: Millis) returns (confirm: bool)
      requires Valid() && key !in bindings
      modifies this
      ensures Valid() && (old(OnTime(now)) ==> OnTime(now))
      ensures confirm <==> (key in old(tombstones) ==> old(tombstones[key]).owner == owner && !old(latched) && o == Written)
      ensures confirm ==> key !in tombstones
      ensures bindings.Keys == old(bindings.Keys)
      ensures !confirm ==> Memory() == old(Memory())
      ensures key in old(tombstones) && old(tombstones[key]).owner == owner && !old(latched) ==>
                SavedAs(old(View(key)), View(key), Absent, o, false)
      ensures forall k :: k != key ==> OnlyResaved(old(View(k)), View(k), o)
    {
      hide Sound, LastSeen, ViewOf, SavedAs;
      forall k | k != key { KeptCell(Memory(), bindings, tombstones - {key}, k); }
      if key !in tombstones { return true; }
      if tombstones[key].owner != owner { return false; }
      RemovalSavable(bindings, tombstones - {key}, now, OnTime(now));
      hide Accepted, Normalized, OnTime;
      var result := Persist(bindings, Some(tombstones - {key}), o, now);
      return result == SaveResult.Stored;
    }

    predicate Abandoned(b: Binding, now: int)
      reads this`seen
    {
      now >= LastSeen(b) && now - LastSeen(b) >= retention.abandonment
    }

    predicate MayMove(b: Binding, i: Installation, active: set<Installation>, now: int)
      reads this`seen
    {
      b.owner != i && b.owner !in active && b.phase != Consumed && Abandoned(b, now)
    }

    /** The keys of all bindings, and whether a hello of `i` takes each over. */
    function Leaving(bs: map<Key, Binding>, i: Installation, active: set<Installation>, now: int): map<Key, bool>
      reads this`seen
    {
      map k | k in bs :: MayMove(bs[k], i, active, now)
    }

    /** What a hello of `i` makes of one binding that is not reclaimed. */
    function Moved(b: Binding, i: Installation, active: set<Installation>, now: int): Binding
      reads this
    {
      if b.owner == i then b.(ownerSeenAt := if LastSeen(b) < now then now else LastSeen(b))
      else if b.owner in active || b.phase == Consumed || !Abandoned(b, now) then b
      else b.(owner := i, phase := Prepared, preparedAt := now,
              ownerSeenAt := if LastSeen(b) < now then now else LastSeen(b), receivedAt := None, consumedAt := None)
    }

    function Candidates(busy: set<Key>, spare: set<Installation>, now: int): set<Key>
      reads this`bindings
    {
      set k | k in bindings && ConsumedExpired(bindings[k], retention, now) && k !in busy && bindings[k].owner !in spare
    }

    lemma CandidatesAreDue(busy: set<Key>, spare: set<Installation>, now: int)
      requires Proper(retention)
      ensures Candidates(busy, spare, now) == Due(bindings, retention, busy, spare, now)
    {}

    function SeenAt(i: Installation): Option<int>
      reads this`seen
    {
      if i in seen then Some(seen[i]) else None
    }

    lemma AbandonedIsAway(b: Binding, now: int)
      requires Proper(retention) && BindingParses(b)
      ensures Abandoned(b, now) <==> Away(b, SeenAt(b.owner), startedAt, retention, now)
    {}

    /** The owner of this receipt's binding, if it has one, was away long enough. */
    predicate AbandonedKey(bs: map<Key, Binding>, k: Key, now: int)
      reads this`seen
    {
      k in bs && Abandoned(bs[k], now)
    }

    /** Plan a hello of `i`: reclaim what expired, then move what was abandoned. */
    method PlanReconcile(i: Installation, active: set<Installation>, busy: set<Key>, now: Millis) returns (plan: Snapshot)
      requires Valid()
      ensures Accepted(plan) && (OnTime(now) ==> NotAfter(plan, now)) && plan.bindings.Keys <= bindings.Keys
      ensures Follows(bindings, Snapshot(Normalized(plan.bindings), plan.tombstones), i, Leaving(bindings, i, active, now))
      ensures forall k :: CellOf(plan, k) == HelloCell(CellOf(Memory(), k), active, i, AbandonedKey(bindings, k, now),
                                                       Goes(Memory(), Candidates(busy, {}, now), retention, now, k))
      ensures forall k :: k in plan.bindings ==> AsOf(bindings[k], plan.bindings[k], i, now)
      ensures var next := Reclaimed(Memory(), Candidates(busy, {}, now), retention, now);
              && plan.bindings.Keys == next.bindings.Keys && plan.tombstones == next.tombstones
              && Reclaims(Memory(), next, Candidates(busy, {}, now), retention, now)
    {
      ghost var timed := OnTime(now);
      hide Accepted, NotAfter, LastSeen, Moved, Reclaimed, Survives, Normalized, Candidates, Reclaimable, Goes, HelloCell,
           CellOf, AbandonedKey, OnTime, ConsumedBefore, Reclaims, AsOf;
      var s := Snapshot(bindings, tombstones);
      var candidates := Candidates(busy, {}, now);
      ReclaimableHere(candidates, busy, {}, now);
      ReclaimedReclaims(s, candidates, retention, now);
      var next, blocked, thrown := Reclaim(s, candidates, retention, now);
      ReclaimedSound(s, candidates, retention, now, timed);
      MovedSound(next, i, active, now, timed);
      forall k | k in s.bindings
        ensures Survives(s.bindings[k], k, Snapshot(Normalized(MovedAll(next.bindings, i, active, now)), next.tombstones), i,
                         MayMove(s.bindings[k], i, active, now)) {
        SurvivesMove(s, next, k, i, active, candidates, now);
      }
      forall k | k in next.bindings ensures AsOf(bindings[k], MovedAll(next.bindings, i, active, now)[k], i, now) {
        ReclaimLosesNothing(s, candidates, retention, now, k);
        MovedAsOf(bindings[k], i, active, now);
      }
      plan := Snapshot(MovedAll(next.bindings, i, active, now), next.tombstones);
      forall k ensures CellOf(plan, k) == HelloCell(CellOf(s, k), active, i, AbandonedKey(s.bindings, k, now),
                                                    Goes(s, candidates, retention, now, k)) {
        MovedCell(s, k, i, active, candidates, now);
      }
    }

    /** Hello, in one save: every record survives as itself, moved to the installation that said
        hello exactly when its owner abandoned it unconsumed, or as its owner's tombstone. On
        every receipt at once this is the protocol's transfer; without a durable save nothing
        changes in memory. */
    method Reconcile(i: Installation, active: set<Installation>, busy: set<Key>, o: Outcome, now: Millis)
      requires Valid()
      modifies this
      ensures Valid() && (old(OnTime(now)) && now >= 0 ==> OnTime(now))
      ensures seen == old(seen[i := Mark(i, now)])
      ensures old(latched) || o != Written ==> Memory() == old(Memory())
      ensures Memory() == old(Memory()) || Follows(old(bindings), Memory(), i, Leaving(old(bindings), i, active, now))
      ensures bindings.Keys <= old(bindings.Keys)
      ensures forall k :: SavedOrSame(old(View(k)), View(k),
                HelloCell(old(View(k)).mem, active, i, AbandonedKey(old(bindings), k, now),
                          Goes(old(Memory()), old(Candidates(busy, {}, now)), retention, now, k)), o)
      // Once saved: exactly the abandoned bindings moved, ...
      ensures !old(latched) && o == Written ==> Moves(old(bindings), bindings, i, active, now)
      // ... and exactly the due bindings and the tombstones that no longer last are gone.
      ensures !old(latched) && o == Written ==> Reclaims(old(Memory()), Memory(), old(Due(bindings, retention, busy, {}, now)), retention, now)
    {
      NoteSeen(i, now);
      hide Accepted, NotAfter, OnTime, LastSeen, Follows, MayMove, Leaving, SavedAs, HelloCell, Goes, AbandonedKey,
           Candidates, ViewOf, CellOf, Moves, Due, Reclaims;
      assert Candidates(busy, {}, now) == old(Candidates(busy, {}, now));
      assert forall k :: View(k) == old(View(k));
      Transfer(i, active, busy, o, now);
    }

    /** The same once the sighting is noted. */
    method Transfer(i: Installation, active: set<Installation>, busy: set<Key>, o: Outcome, now: Millis)
      requires Valid()
      modifies this`bindings, this`tombstones, this`latched, this`file
      ensures Valid() && (old(OnTime(now)) ==> OnTime(now))
      ensures old(latched) || o != Written ==> Memory() == old(Memory())
      ensures Memory() == old(Memory()) || Follows(old(bindings), Memory(), i, Leaving(old(bindings), i, active, now))
      ensures bindings.Keys <= old(bindings.Keys)
      ensures forall k :: SavedOrSame(old(View(k)), View(k),
                HelloCell(old(View(k)).mem, active, i, AbandonedKey(old(bindings), k, now),
                          Goes(old(Memory()), old(Candidates(busy, {}, now)), retention, now, k)), o)
      ensures !old(latched) && o == Written ==>
                && Moves(old(bindings), bindings, i, active, now)
                && Reclaims(old(Memory()), Memory(), old(Due(bindings, retention, busy, {}, now)), retention, now)
    {
      hide Accepted, NotAfter, OnTime, LastSeen, Follows, Normalized, MayMove, Leaving, SavedAs, HelloCell, Goes, AbandonedKey,
           Candidates, ViewOf, CellOf, Moves, Due, Reclaims, Reclaimed;
      var plan := PlanReconcile(i, active, busy, now);
      PlanKeepsRules(plan, i, active, busy, now);
      assert forall k :: View(k).mem == CellOf(Memory(), k);
      if plan == Snapshot(bindings, tombstones) {
        forall k { Unchanged(View(k), HelloCell(View(k).mem, active, i, AbandonedKey(bindings, k, now),
                                                Goes(Memory(), Candidates(busy, {}, now), retention, now, k)), o); }
      } else {
        InstallPlan(plan, o, now);
      }
    }

    /** What the plan makes of the records, in the terms of the rules alone. */
    lemma PlanKeepsRules(plan: Snapshot, i: Installation, active: set<Installation>, busy: set<Key>, now: int)
      requires Valid()
      requires Follows(bindings, Snapshot(Normalized(plan.bindings), plan.tombstones), i, Leaving(bindings, i, active, now))
      requires forall k :: k in plan.bindings ==> k in bindings && AsOf(bindings[k], plan.bindings[k], i, now)
      requires var next := Reclaimed(Memory(), Candidates(busy, {}, now), retention, now);
               && plan.bindings.Keys == next.bindings.Keys && plan.tombstones == next.tombstones
               && Reclaims(Memory(), next, Candidates(busy, {}, now), retention, now)
      ensures var saved := Snapshot(Normalized(plan.bindings), plan.tombstones);
              && Moves(bindings, saved.bindings, i, active, now) && Moves(bindings, plan.bindings, i, active, now)
              && Reclaims(Memory(), saved, Due(bindings, retention, busy, {}, now), retention, now)
              && Reclaims(Memory(), plan, Due(bindings, retention, busy, {}, now), retention, now)
    {
      CandidatesAreDue(busy, {}, now);
      BindingsOf(Memory());
      PlanMoves(bindings, plan, i, active, now);
      var next := Reclaimed(Memory(), Candidates(busy, {}, now), retention, now);
      KeysReclaim(Memory(), next, Snapshot(Normalized(plan.bindings), plan.tombstones), Candidates(busy, {}, now), retention, now);
      KeysReclaim(Memory(), next, plan, Candidates(busy, {}, now), retention, now);
      assert Snapshot(plan.bindings, plan.tombstones) == plan;
      hide Accepted, Follows, Moves, Reclaims, Reclaimed, Normalized, Candidates, Due;
    }

    /** Save a plan; memory follows it or stays. */
    method InstallPlan(plan: Snapshot, o: Outcome, now: Millis)
      requires Valid() && Accepted(plan)
      modifies this`bindings, this`tombstones, this`latched, this`file
      ensures Valid() && (old(OnTime(now)) && NotAfter(plan, now) ==> OnTime(now))
      ensures Memory() == if old(latched) || o != Written then old(Memory())
                          else old(Snapshot(Normalized(plan.bindings), plan.tombstones))
      ensures forall k :: if old(latched) then View(k) == old(View(k))
                          else SavedAs(old(View(k)), View(k), CellOf(plan, k), o, false)
    {
      assert plan == Snapshot(plan.bindings, plan.tombstones);
      NormalizedSound(plan, now, false);
      assert OnTime(now) && NotAfter(plan, now) ==> Sound(plan, now, true);
      hide Accepted, NotAfter, OnTime, Normalized, SavedAs, ViewOf, CellOf;
      var result := Persist(plan.bindings, Some(plan.tombstones), o, now);
    }

    /** The plan's cell of one receipt is the protocol's decision about it. */
    lemma MovedCell(s: Snapshot, k: Key, i: Installation, active: set<Installation>, candidates: set<Key>, now: int)
      requires Reclaimable(s, candidates) && s.bindings.Keys !! s.tombstones.Keys
      ensures var next := Reclaimed(s, candidates, retention, now);
              CellOf(Snapshot(MovedAll(next.bindings, i, active, now), next.tombstones), k) ==
              HelloCell(CellOf(s, k), active, i, AbandonedKey(s.bindings, k, now), Goes(s, candidates, retention, now, k))
    {
      ReclaimLosesNothing(s, candidates, retention, now, k);
      ReclaimedCell(s, candidates, retention, now, k);
      hide Reclaimed, LastSeen, Goes, TombstoneExpired;
    }

    /** A binding of the installation that said hello carries that sighting, and one that moved
        to it was prepared now. */
    predicate AsOf(was: Binding, now: Binding, i: Installation, at: int) {
      && (now.owner == i ==> now.ownerSeenAt >= at)
      && (now.owner != was.owner ==> now.preparedAt == at && now.receivedAt == None && now.consumedAt == None)
    }

    lemma MovedAsOf(b: Binding, i: Installation, active: set<Installation>, now: int)
      ensures AsOf(b, Moved(b, i, active, now), i, now)
    {
      hide LastSeen, Abandoned;
    }

    /** A binding changes owner exactly when it is unconsumed and its owner is someone else, not
        connected and away; it then starts anew with the installation that said hello, and
        otherwise keeps its owner and phase. */
    ghost predicate Moves(was: map<Key, Binding>, now: map<Key, Binding>, i: Installation, active: set<Installation>, at: int)
      reads this`seen
    {
      && (forall k :: k in was ==>
            ((k in now && now[k].owner != was[k].owner) <==>
              was[k].phase != Consumed && was[k].owner != i && was[k].owner !in active
              && Away(was[k], SeenAt(was[k].owner), startedAt, retention, at)))
      && (forall k :: k in now ==> k in was && now[k].text == was[k].text && AsOf(was[k], now[k], i, at))
      && (forall k :: k in now && k in was ==>
            if now[k].owner == was[k].owner then now[k].phase == was[k].phase
            else now[k].owner == i && now[k].phase == Prepared)
    }

    /** Who is taken over follows from the rule alone. */
    lemma PlanMoves(was: map<Key, Binding>, plan: Snapshot, i: Installation, active: set<Installation>, now: int)
      requires Follows(was, Snapshot(Normalized(plan.bindings), plan.tombstones), i, Leaving(was, i, active, now))
      requires Proper(retention) && BindingsParse(was)
      requires forall k :: k in plan.bindings ==> k in was && AsOf(was[k], plan.bindings[k], i, now)
      ensures Moves(was, Normalized(plan.bindings), i, active, now) && Moves(was, plan.bindings, i, active, now)
    {
      hide Away, Abandoned;
      var s := Snapshot(Normalized(plan.bindings), plan.tombstones);
      forall k | k in was
        ensures (k in s.bindings && s.bindings[k].owner != was[k].owner) <==> MayMove(was[k], i, active, now)
        ensures Abandoned(was[k], now) <==> Away(was[k], SeenAt(was[k].owner), startedAt, retention, now) {
        AbandonedIsAway(was[k], now);
        assert Survives(was[k], k, s, i, Leaving(was, i, active, now)[k]);
      }
      forall k | k in s.bindings ensures AsOf(was[k], s.bindings[k], i, now) {
        assert s.bindings[k] == plan.bindings[k].(ownerSeenAt := LastSeen(plan.bindings[k]));
      }
    }

    lemma ReclaimableHere(candidates: set<Key>, busy: set<Key>, spare: set<Installation>, now: int)
      requires candidates == Candidates(busy, spare, now) && Valid() && now <= MAX_TIME
      ensures Accepted(Memory()) && Reclaimable(Memory(), candidates) && ConsumedBefore(Memory(), candidates, now)
      ensures OnTime(now) ==> Sound(Memory(), now, true)
    {}

    function MovedAll(bs: map<Key, Binding>, i: Installation, active: set<Installation>, now: int): (r: map<Key, Binding>)
      reads this
      ensures r.Keys == bs.Keys
    {
      map k | k in bs :: Moved(bs[k], i, active, now)
    }

    lemma SurvivesMove(s: Snapshot, next: Snapshot, k: Key, i: Installation, active: set<Installation>,
                       candidates: set<Key>, now: Millis)
      requires Accepted(s) && Reclaimable(s, candidates) && k in s.bindings
      requires next == Reclaimed(s, candidates, retention, now) && Accepted(next)
      ensures Survives(s.bindings[k], k, Snapshot(Normalized(MovedAll(next.bindings, i, active, now)), next.tombstones), i,
                       MayMove(s.bindings[k], i, active, now))
    {
      ReclaimLosesNothing(s, candidates, retention, now, k);
      hide Reclaimed, LastSeen, Moved;
      if k in next.bindings {
        SoundFacts(next, now, k, false);
        MovedParses(next.bindings[k], i, active, now, false);
      }
    }

    lemma MovedSound(s: Snapshot, i: Installation, active: set<Installation>, now: Millis, timed: bool)
      requires Sound(s, now, timed) && (timed ==> OnTime(now))
      ensures Sound(Snapshot(MovedAll(s.bindings, i, active, now), s.tombstones), now, timed)
    {
      hide BindingParses, BindingNotAfter, Sound, LastSeen, Accepted, NotAfter, OnTime;
      var moved := MovedAll(s.bindings, i, active, now);
      forall k | k in s.bindings ensures BindingParses(moved[k]) && (timed ==> BindingNotAfter(moved[k], now)) {
        SoundFacts(s, now, k, timed);
        MovedParses(s.bindings[k], i, active, now, timed);
      }
      SameKeysSound(s, moved, now, timed);
    }

    lemma MovedParses(b: Binding, i: Installation, active: set<Installation>, now: Millis, timed: bool)
      requires BindingParses(b) && (timed ==> OnTime(now) && BindingNotAfter(b, now))
      ensures BindingParses(Moved(b, i, active, now)) && (timed ==> BindingNotAfter(Moved(b, i, active, now), now))
      ensures Carried(b, Moved(b, i, active, now), i, MayMove(b, i, active, now))
    {}

    /** The periodic sweep reclaims only for owners that are not connected. On every
        receipt at once this is the protocol's sweep. */
    method Sweep(active: set<Installation>, busy: set<Key>, o: Outcome, now: Millis)
      requires Valid()
      modifies this
      ensures Valid() && (old(OnTime(now)) ==> OnTime(now))
      ensures old(latched) || o != Written ==> Memory() == old(Memory())
      ensures forall k :: k in old(bindings) && k !in bindings ==>
                old(bindings[k]).phase == Consumed && old(bindings[k]).owner !in active && k in tombstones
      ensures forall k :: k in old(tombstones) && k !in tombstones ==> TombstoneExpired(old(tombstones[k]), retention, now)
      ensures forall k :: SavedOrSame(old(View(k)), View(k),
                SweptCell(old(View(k)).mem, active, Goes(old(Memory()), old(Candidates(busy, active, now)), retention, now, k)), o)
      // Once saved, exactly the due bindings of absent owners and the tombstones that no longer last are gone.
      ensures !old(latched) && o == Written ==> Reclaims(old(Memory()), Memory(), old(Due(bindings, retention, busy, active, now)), retention, now)
      ensures forall k :: k in bindings ==> SameButSeen(bindings[k], old(bindings[k]))
    {
      hide Accepted, NotAfter, OnTime, LastSeen, Candidates, Goes, SweptCell, SavedAs, ViewOf, CellOf, Normalized, Due, Reclaims,
           Reclaimed, SameButSeen;
      CandidatesAreDue(busy, active, now);
      ghost var was := Memory();
      var next := PlanSweep(active, busy, now);
      KeysReclaim(was, next, Snapshot(Normalized(next.bindings), next.tombstones), Candidates(busy, active, now), retention, now);
      AllSeen(was.bindings);
      if next != Snapshot(bindings, tombstones) { InstallPlan(next, o, now); }
    }

    method PlanSweep(active: set<Installation>, busy: set<Key>, now: Millis) returns (next: Snapshot)
      requires Valid()
      ensures Accepted(next) && (OnTime(now) ==> NotAfter(next, now))
      ensures forall k :: k in bindings && k !in next.bindings ==>
                bindings[k].phase == Consumed && bindings[k].owner !in active && k in next.tombstones
      ensures forall k :: k in tombstones && k !in next.tombstones ==> TombstoneExpired(tombstones[k], retention, now)
      ensures forall k :: CellOf(next, k) == SweptCell(CellOf(Memory(), k), active,
                                                       Goes(Memory(), Candidates(busy, active, now), retention, now, k))
      ensures next == Reclaimed(Memory(), Candidates(busy, active, now), retention, now) && Within(next.bindings, bindings)
      ensures Reclaims(Memory(), next, Candidates(busy, active, now), retention, now)
    {
      ghost var timed := OnTime(now);
      hide Accepted, NotAfter, OnTime, LastSeen, Candidates, Reclaimed, Reclaimable, Goes, TombstoneExpired, ConsumedBefore;
      var s := Snapshot(bindings, tombstones);
      var candidates := Candidates(busy, active, now);
      ReclaimableHere(candidates, busy, active, now);
      ReclaimedReclaims(s, candidates, retention, now);
      var blocked, thrown;
      next, blocked, thrown := Reclaim(s, candidates, retention, now);
      ReclaimedSound(s, candidates, retention, now, timed);
      ReclaimedWithin(s, candidates, retention, now);
      forall k ensures CellOf(next, k) == SweptCell(CellOf(s, k), active, Goes(s, candidates, retention, now, k)) {
        SpareActive(candidates, busy, active, now, k);
        SweptAs(s, k, candidates, active, now);
      }
      forall k | k in bindings && k !in next.bindings
        ensures bindings[k].phase == Consumed && bindings[k].owner !in active && k in next.tombstones {
        SpareActive(candidates, busy, active, now, k);
        ReclaimLosesNothing(s, candidates, retention, now, k);
      }
      forall k | k in tombstones && k !in next.tombstones ensures TombstoneExpired(tombstones[k], retention, now) {
        ReclaimLosesNothing(s, candidates, retention, now, k);
      }
    }

    lemma SweptAs(s: Snapshot, k: Key, candidates: set<Key>, active: set<Installation>, now: int)
      requires Reclaimable(s, candidates) && s.bindings.Keys !! s.tombstones.Keys
      requires k in candidates ==> k in s.bindings && s.bindings[k].owner !in active && s.bindings[k].phase == Consumed
      ensures CellOf(Reclaimed(s, candidates, retention, now), k) ==
              SweptCell(CellOf(s, k), active, Goes(s, candidates, retention, now, k))
    {
      ReclaimedCell(s, candidates, retention, now, k);
      hide Reclaimed, TombstoneExpired;
    }

    lemma SpareActive(candidates: set<Key>, busy: set<Key>, spare: set<Installation>, now: int, k: Key)
      requires candidates == Candidates(busy, spare, now)
      ensures k in candidates ==> k in bindings && bindings[k].owner !in spare && bindings[k].phase == Consumed
    {}

    /** Bindings of `i` with the last sighting written into them. */
    function Sighted(bs: map<Key, Binding>, i: Installation): (r: map<Key, Binding>)
      reads this
      ensures r.Keys == bs.Keys
      ensures forall k :: k in bs ==> SameButSeen(r[k], bs[k])
    {
      map k | k in bs :: if bs[k].owner == i then bs[k].(ownerSeenAt := LastSeen(bs[k])) else bs[k]
    }

    lemma SightedSound(s: Snapshot, i: Installation, now: int, timed: bool)
      requires Sound(s, now, timed) && (timed ==> OnTime(now))
      ensures Sound(Snapshot(Sighted(s.bindings, i), s.tombstones), now, timed)
    {
      hide BindingParses, BindingNotAfter, Sound, LastSeen, Accepted, NotAfter, OnTime;
      forall k | k in s.bindings
        ensures BindingParses(Sighted(s.bindings, i)[k]) && (timed ==> BindingNotAfter(Sighted(s.bindings, i)[k], now)) {
        SoundFacts(s, now, k, timed);
        LastSeenSound(s.bindings[k], now, timed);
      }
      SameKeysSound(s, Sighted(s.bindings, i), now, timed);
    }

    /** Every binding of the installation carries a sighting at this time or later. */
    predicate SeenBy(bs: map<Key, Binding>, i: Installation, at: int) {
      forall k :: k in bs && bs[k].owner == i ==> bs[k].ownerSeenAt >= at
    }

    lemma NextSeen(bs: map<Key, Binding>, i: Installation, at: int)
      requires i in seen && seen[i] >= at
      ensures SeenBy(Sighted(bs, i), i, at) && SeenBy(Normalized(Sighted(bs, i)), i, at)
    {}

    /** A closed socket records when its installation was last seen. No binding changes
        otherwise; the save passes no tombstones, so memory forgets them, and the file
        keeps them. */
    method Disconnected(i: Installation, o: Outcome, now: Millis)
      requires Valid()
      modifies this
      ensures Valid() && (old(OnTime(now)) && now >= 0 ==> OnTime(now))
      ensures seen == old(seen[i := Mark(i, now)])
      ensures bindings.Keys == old(bindings.Keys)
      ensures forall k :: k in bindings ==> SameButSeen(bindings[k], old(bindings[k]))
      ensures old(latched) || o != Written ==> Memory() == old(Memory())
      ensures tombstones == old(tombstones) || (tombstones == map[] && file.visible.tombstones == old(tombstones) && Settled(file))
      ensures forall k :: View(k) == old(View(k))
                          || (!old(latched) && SavedAs(old(View(k)), View(k), old(View(k)).mem, o, true))
      ensures !old(latched) && o == Written ==> SeenBy(bindings, i, now)
    {
      NoteSeen(i, now);
      hide Accepted, NotAfter, OnTime, SavedAs, ViewOf, CellOf, SeenBy;
      assert forall k :: View(k) == old(View(k));
      SaveSightings(i, o, now);
    }

    /** The same once the sighting is noted: it is written into the bindings of `i`. */
    method SaveSightings(i: Installation, o: Outcome, now: Millis)
      requires Valid() && i in seen && seen[i] >= now
      modifies this`bindings, this`tombstones, this`latched, this`file
      ensures Valid() && (old(OnTime(now)) ==> OnTime(now))
      ensures bindings.Keys == old(bindings.Keys)
      ensures forall k :: k in bindings ==> SameButSeen(bindings[k], old(bindings[k]))
      ensures old(latched) || o != Written ==> Memory() == old(Memory())
      ensures tombstones == old(tombstones) || (tombstones == map[] && file.visible.tombstones == old(tombstones) && Settled(file))
      ensures forall k :: View(k) == old(View(k))
                          || (!old(latched) && SavedAs(old(View(k)), View(k), old(View(k)).mem, o, true))
      ensures !old(latched) && o == Written ==> SeenBy(bindings, i, now)
    {
      NextSeen(bindings, i, now);
      var next := Sighted(bindings, i);
      ghost var timed := OnTime(now);
      SightedSound(Memory(), i, now, timed);
      NormalizedSound(Snapshot(next, tombstones), now, false);
      hide Accepted, NotAfter, OnTime, LastSeen, SavedAs, ViewOf, Normalized, Sighted, CellOf, SeenBy;
      SameCells(bindings, next, tombstones);
      if next != bindings {
        var result := Persist(next, None, o, now);
      }
    }
  }
}
