/**
 The bridge's interaction outbox: a bounded durable queue of voice turns. A capture
 reserves a row before it starts, a completed transcription promotes it, and a
 row leaves only when the daemon answered or an operator has to look at it.
 Every snapshot write ends as one `Outcome`; `io(n)` is how the n-th one ends.
 */
module Outbox {
  import opened Durable

  datatype Turn = Turn(lane: string, id: string, createdAt: nat)
  datatype RowState = Reserved | Pending | Expired
  datatype Row = Row(turn: Turn, state: RowState)

  predicate SameKey(a: Turn, b: Turn) {
    a.lane == b.lane && a.id == b.id
  }

  /** What the caller sees: success, or the error that was thrown. */
  datatype Verdict = Done | Full | Blocked | Retryable | TimestampReused | NotReserved | WrongState | Broken

  /** `cleanups` are canceled reservations whose deletion still has to reach the file. */
  datatype Box = Box(records: seq<Row>, cleanups: seq<Turn>, latched: bool, file: File<seq<Row>>, writes: nat)

  datatype Reply = Reply(box: Box, verdict: Verdict)

  type Disk = nat -> Outcome

  // ------------------------------------------------------------- operations

  /** Position of the row with this key, or the length when there is none. */
  function IndexOf(records: seq<Row>, t: Turn): (i: nat)
    ensures i <= |records|
    ensures i < |records| ==> SameKey(records[i].turn, t)
    ensures forall k :: 0 <= k < i ==> !SameKey(records[k].turn, t)
  {
    if records == [] then 0
    else if SameKey(records[0].turn, t) then 0
    else
      var i := IndexOf(records[1..], t);
      assert forall k :: 0 < k < i + 1 ==> records[k] == records[1..][k - 1];
      i + 1
  }

  function Without(records: seq<Row>, i: nat): seq<Row>
    requires i < |records|
  {
    records[..i] + records[i + 1..]
  }

  function Persist(b: Box, next: seq<Row>, io: Disk): Reply {
    var o := io(b.writes);
    var b' := b.(file := Replace(b.file, next, o), writes := b.writes + 1);
    match o
    case Written => Reply(b'.(records := next), Done)
    case Unsettled => Reply(b'.(records := next, latched := true), Blocked)
    case Untouched => Reply(b', Retryable)
  }

  /** Retry the deletions that failed before, oldest first, before admitting a row. */
  function Sweep(b: Box, io: Disk): Reply
    decreases |b.cleanups|
  {
    if b.cleanups == [] then Reply(b, Done)
    else
      var t := b.cleanups[0];
      var i := IndexOf(b.records, t);
      if i == |b.records| then Sweep(b.(cleanups := b.cleanups[1..]), io)
      else if b.records[i].turn.createdAt != t.createdAt then Reply(b, TimestampReused)
      else if b.records[i].state != Reserved then Reply(b, Broken)
      else
        var r := Persist(b, Without(b.records, i), io);
        if r.verdict != Done then r else Sweep(r.box.(cleanups := b.cleanups[1..]), io)
  }

  function Reserve(b: Box, capacity: nat, t: Turn, io: Disk): Reply {
    if b.latched then Reply(b, Blocked)
    else
      var s := Sweep(b, io);
      if s.verdict != Done then s
      else
        var i := IndexOf(s.box.records, t);
        if i < |s.box.records| then
          Reply(s.box, if s.box.records[i].turn.createdAt == t.createdAt then Done else TimestampReused)
        else if exists k :: 0 <= k < |s.box.records| && s.box.records[k].state == Expired then Reply(s.box, Blocked)
        else if |s.box.records| >= capacity then Reply(s.box, Full)
        else Persist(s.box, s.box.records + [Row(t, Reserved)], io)
  }

  /** Change the state of row `t`, or drop it, when it is in the one state allowed. */
  function Promote(b: Box, t: Turn, io: Disk): Reply {
    if b.latched then Reply(b, Blocked)
    else if exists k :: 0 <= k < |b.cleanups| && SameKey(b.cleanups[k], t) then Reply(b, Blocked)
    else
      var i := IndexOf(b.records, t);
      if i == |b.records| then Reply(b, NotReserved)
      else if b.records[i].turn.createdAt != t.createdAt then Reply(b, TimestampReused)
      else match b.records[i].state
        case Pending => Reply(b, Done)
        case Expired => Reply(b, Blocked)
        case Reserved => Persist(b, b.records[i := b.records[i].(state := Pending)], io)
  }

  /** Remember a canceled reservation once, in the place it already has. */
  function Remember(cleanups: seq<Turn>, t: Turn): seq<Turn> {
    if exists k :: 0 <= k < |cleanups| && SameKey(cleanups[k], t) then cleanups else cleanups + [t]
  }

  function Forget(cleanups: seq<Turn>, t: Turn): (r: seq<Turn>)
    ensures forall c :: c in r <==> c in cleanups && !SameKey(c, t)
    ensures |r| <= |cleanups|
  {
    if cleanups == [] then []
    else if SameKey(cleanups[0], t) then Forget(cleanups[1..], t)
    else [cleanups[0]] + Forget(cleanups[1..], t)
  }

  function CancelReservation(b: Box, t: Turn, io: Disk): Reply {
    if b.latched then Reply(b, Blocked)
    else
      var i := IndexOf(b.records, t);
      if i == |b.records| then Reply(b, Done)
      else if b.records[i].turn.createdAt != t.createdAt then Reply(b, TimestampReused)
      else if b.records[i].state != Reserved then Reply(b, Done)
      else
        var r := Persist(b, Without(b.records, i), io);
        match r.verdict
        case Done => Reply(r.box.(cleanups := Forget(b.cleanups, t)), Done)
        case Retryable => Reply(r.box.(cleanups := Remember(b.cleanups, t)), Retryable)
        case _ => r
  }

  function RemoveDelivered(b: Box, t: Turn, io: Disk): Reply {
    if b.latched then Reply(b, Blocked)
    else
      var i := IndexOf(b.records, t);
      if i == |b.records| then Reply(b, Done)
      else if b.records[i].turn.createdAt != t.createdAt then Reply(b, TimestampReused)
      else if b.records[i].state != Pending then Reply(b, WrongState)
      else Persist(b, Without(b.records, i), io)
  }

  function MarkExpired(b: Box, t: Turn, io: Disk): Reply {
    if b.latched then Reply(b, Blocked)
    else
      var i := IndexOf(b.records, t);
      if i == |b.records| then Reply(b, Done)
      else if b.records[i].turn.createdAt != t.createdAt then Reply(b, TimestampReused)
      else match b.records[i].state
        case Expired => Reply(b, Done)
        case Reserved => Reply(b, WrongState)
        case Pending => Persist(b, b.records[i := b.records[i].(state := Expired)], io)
  }

  function Unreserved(records: seq<Row>): (r: seq<Row>)
    ensures forall x :: x in r <==> x in records && x.state != Reserved
    ensures |r| <= |records|
    ensures |r| == |records| ==> r == records
  {
    if records == [] then []
    else if records[0].state == Reserved then Unreserved(records[1..])
    else [records[0]] + Unreserved(records[1..])
  }

  /** A new process: read the snapshot, reclaim reservations, which no remote side
      effect can depend on. The process does not start when that write fails. */
  function Reload(file: File<seq<Row>>, writes: nat, io: Disk): Reply {
    var kept := Unreserved(file.visible);
    var b := Box(kept, [], false, file, writes);
    if kept == file.visible then Reply(b, Done)
    else
      var o := io(writes);
      Reply(b.(file := Replace(file, kept, o), writes := writes + 1), if o == Written then Done else Retryable)
  }

  // -------------------------------------------------------------- invariant

  predicate UniqueKeys(records: seq<Row>) {
    forall i, k :: 0 <= i < k < |records| ==> !SameKey(records[i].turn, records[k].turn)
  }

  /** The rows a snapshot may hold, each admissible to a reload. */
  predicate GoodFile(file: File<seq<Row>>, capacity: nat) {
    && file.visible in file.durable
    && forall rs :: rs in file.durable ==> UniqueKeys(rs) && |rs| <= capacity
  }

  /** A canceled reservation still waiting is gone, or still the reserved row it was. */
  predicate GoodCleanup(records: seq<Row>, t: Turn) {
    forall r :: r in records && SameKey(r.turn, t) ==> r == Row(t, Reserved)
  }

  predicate Inv(b: Box, capacity: nat) {
    && GoodFile(b.file, capacity)
    && b.records == b.file.visible
    && (forall c :: c in b.cleanups ==> GoodCleanup(b.records, c))
  }

  lemma FoundAt(records: seq<Row>, r: Row)
    requires UniqueKeys(records) && r in records
    ensures var i := IndexOf(records, r.turn); i < |records| && records[i] == r
  {}

  lemma WithoutKeeps(records: seq<Row>, i: nat)
    requires UniqueKeys(records) && i < |records|
    ensures UniqueKeys(Without(records, i)) && |Without(records, i)| == |records| - 1
    ensures forall r :: r in Without(records, i) <==> r in records && r != records[i]
    ensures forall r :: r in Without(records, i) ==> !SameKey(r.turn, records[i].turn)
  {}

  lemma {:induction false} UnreservedKeeps(records: seq<Row>)
    requires UniqueKeys(records)
    ensures UniqueKeys(Unreserved(records))
  {
    if records != [] {
      assert UniqueKeys(records[1..]);
      UnreservedKeeps(records[1..]);
      var rest := Unreserved(records[1..]);
      forall r | r in rest ensures !SameKey(records[0].turn, r.turn) {
        assert r in records[1..];
        var k :| 0 <= k < |records[1..]| && records[1..][k] == r;
        assert records[k + 1] == r;
      }
    }
  }

  lemma PersistKeeps(b: Box, capacity: nat, next: seq<Row>, io: Disk)
    requires Inv(b, capacity) && UniqueKeys(next) && |next| <= capacity
    requires forall c :: c in b.cleanups ==> GoodCleanup(next, c)
    ensures Inv(Persist(b, next, io).box, capacity)
  {
  }

  // ---------------------------------------------------- what every call keeps

  /** A completed turn is still in these rows. */
  predicate Holds(records: seq<Row>, t: Turn) {
    Row(t, Pending) in records || Row(t, Expired) in records
  }

  /** A completed turn survives any crash: every snapshot there may be holds it. */
  predicate Kept(b: Box, t: Turn) {
    forall rs :: rs in b.file.durable ==> Holds(rs, t)
  }

  /** A call neither breaks the queue nor loses a completed turn, and a box that
      does not know what its file holds never writes it again. */
  ghost predicate SafeCall(b: Box, r: Reply, capacity: nat) {
    && Inv(r.box, capacity)
    && r.verdict != Broken
    && (b.latched ==> r.box == b)
    && (b.latched ==> r.box.latched)
  }

  ghost predicate KeepsAllBut(b: Box, r: Reply, gone: set<Turn>) {
    forall t :: Kept(b, t) && t !in gone ==> Kept(r.box, t)
  }

  lemma VisibleHolds(b: Box, capacity: nat, t: Turn)
    requires Inv(b, capacity) && Kept(b, t)
    ensures Holds(b.records, t)
  {
  }

  /** Dropping a reserved row drops no completed turn. */
  lemma DropReserved(b: Box, capacity: nat, i: nat, io: Disk)
    requires Inv(b, capacity) && i < |b.records| && b.records[i].state == Reserved
    ensures var r := Persist(b, Without(b.records, i), io);
            Inv(r.box, capacity) && KeepsAllBut(b, r, {})
    ensures forall c :: SameKey(c, b.records[i].turn) ==> GoodCleanup(Without(b.records, i), c)
  {
    WithoutKeeps(b.records, i);
    var w := Without(b.records, i);
    forall c | c in b.cleanups ensures GoodCleanup(w, c) {
      assert GoodCleanup(b.records, c);
    }
    PersistKeeps(b, capacity, w, io);
    forall t | Kept(b, t) ensures Holds(w, t) {
      VisibleHolds(b, capacity, t);
    }
  }

  lemma {:induction false} SweepKeeps(b: Box, capacity: nat, io: Disk)
    requires Inv(b, capacity) && !b.latched
    ensures var r := Sweep(b, io);
            && SafeCall(b, r, capacity) && KeepsAllBut(b, r, {})
            && (r.verdict == Done ==> r.box.cleanups == [] && !r.box.latched)
            && r.verdict in {Done, Blocked, Retryable}
    decreases |b.cleanups|
  {
    if b.cleanups != [] {
      var t := b.cleanups[0];
      var i := IndexOf(b.records, t);
      var rest := b.(cleanups := b.cleanups[1..]);
      if i == |b.records| {
        SweepKeeps(rest, capacity, io);
      } else {
        assert GoodCleanup(b.records, t) && b.records[i] in b.records;
        DropReserved(b, capacity, i, io);
        var r := Persist(b, Without(b.records, i), io);
        if r.verdict == Done {
          SweepKeeps(r.box.(cleanups := b.cleanups[1..]), capacity, io);
        }
      }
    }
  }

  lemma ReserveKeeps(b: Box, capacity: nat, t: Turn, io: Disk)
    requires Inv(b, capacity)
    ensures var r := Reserve(b, capacity, t, io); SafeCall(b, r, capacity) && KeepsAllBut(b, r, {})
  {
    if !b.latched {
      SweepKeeps(b, capacity, io);
      var s := Sweep(b, io).box;
      var next := s.records + [Row(t, Reserved)];
      if Sweep(b, io).verdict == Done && IndexOf(s.records, t) == |s.records| && |s.records| < capacity {
        forall k | 0 <= k < |s.records| ensures !SameKey(s.records[k].turn, t) {}
        assert UniqueKeys(next);
        PersistKeeps(s, capacity, next, io);
        forall x | Kept(s, x) ensures Holds(next, x) {
          VisibleHolds(s, capacity, x);
        }
      }
    }
  }

  /** Replacing row `i` by one with the same turn, neither being a reservation afterwards. */
  lemma ChangeState(b: Box, capacity: nat, i: nat, state: RowState, io: Disk)
    requires Inv(b, capacity) && i < |b.records| && state != Reserved
    requires b.records[i].state == Reserved ==> forall c :: c in b.cleanups ==> !SameKey(c, b.records[i].turn)
    ensures var r := Persist(b, b.records[i := b.records[i].(state := state)], io);
            && Inv(r.box, capacity) && KeepsAllBut(b, r, {})
            && (r.verdict == Done ==> Kept(r.box, b.records[i].turn))
  {
    var next := b.records[i := b.records[i].(state := state)];
    assert next[i] in next;
    forall k | 0 <= k < |next| ensures next[k].turn == b.records[k].turn {}
    forall c | c in b.cleanups ensures GoodCleanup(next, c) {
      assert GoodCleanup(b.records, c) && b.records[i] in b.records;
    }
    PersistKeeps(b, capacity, next, io);
    forall t | Kept(b, t) ensures Holds(next, t) {
      VisibleHolds(b, capacity, t);
      var row := if Row(t, Pending) in b.records then Row(t, Pending) else Row(t, Expired);
      var k :| 0 <= k < |b.records| && b.records[k] == row;
      assert next[k].turn == t && next[k].state != Reserved;
      assert next[k] in next;
    }
  }

  lemma PromoteKeeps(b: Box, capacity: nat, t: Turn, io: Disk)
    requires Inv(b, capacity)
    ensures var r := Promote(b, t, io);
            && SafeCall(b, r, capacity) && KeepsAllBut(b, r, {})
            && (r.verdict == Done ==> (Kept(r.box, t) <==> r.box != b || Kept(b, t)))
            && (r.verdict == Done && Settled(b.file) ==> Kept(r.box, t))
  {
    var i := IndexOf(b.records, t);
    if i < |b.records| && b.records[i].turn.createdAt == t.createdAt {
      assert b.records[i].turn == t && b.records[i] in b.records;
      if b.records[i].state == Reserved && forall c :: c in b.cleanups ==> !SameKey(c, t) {
        ChangeState(b, capacity, i, Pending, io);
      }
    }
  }

  lemma CancelKeeps(b: Box, capacity: nat, t: Turn, io: Disk)
    requires Inv(b, capacity)
    ensures var r := CancelReservation(b, t, io); SafeCall(b, r, capacity) && KeepsAllBut(b, r, {})
  {
    var i := IndexOf(b.records, t);
    if i < |b.records| && b.records[i].state == Reserved && b.records[i].turn.createdAt == t.createdAt {
      assert b.records[i] == Row(t, Reserved);
      DropReserved(b, capacity, i, io);
      forall r | r in b.records && SameKey(r.turn, t) ensures r == Row(t, Reserved) {
        FoundAt(b.records, r);
        var k :| 0 <= k < |b.records| && b.records[k] == r;
        assert k == i;
      }
    }
  }

  lemma RemoveKeeps(b: Box, capacity: nat, t: Turn, io: Disk)
    requires Inv(b, capacity)
    ensures var r := RemoveDelivered(b, t, io); SafeCall(b, r, capacity) && KeepsAllBut(b, r, {t})
  {
    var i := IndexOf(b.records, t);
    if i < |b.records| && b.records[i].state == Pending && b.records[i].turn.createdAt == t.createdAt {
      var w := Without(b.records, i);
      WithoutKeeps(b.records, i);
      forall c | c in b.cleanups ensures GoodCleanup(w, c) { assert GoodCleanup(b.records, c); }
      PersistKeeps(b, capacity, w, io);
      forall x | Kept(b, x) && x != t ensures Holds(w, x) { VisibleHolds(b, capacity, x); }
    }
  }

  lemma ExpireKeeps(b: Box, capacity: nat, t: Turn, io: Disk)
    requires Inv(b, capacity)
    ensures var r := MarkExpired(b, t, io); SafeCall(b, r, capacity) && KeepsAllBut(b, r, {})
  {
    var i := IndexOf(b.records, t);
    if i < |b.records| && b.records[i].state == Pending && b.records[i].turn.createdAt == t.createdAt {
      ChangeState(b, capacity, i, Expired, io);
    }
  }

  /** A reload reclaims reservations only. */
  lemma ReloadKeeps(file: File<seq<Row>>, writes: nat, capacity: nat, io: Disk)
    requires GoodFile(file, capacity)
    ensures var r := Reload(file, writes, io);
            && GoodFile(r.box.file, capacity)
            && (r.verdict == Done ==> Inv(r.box, capacity) && forall x :: x in r.box.records ==> x.state != Reserved)
            && (forall t :: (forall rs :: rs in file.durable ==> Holds(rs, t)) ==> Kept(r.box, t))
  {
    UnreservedKeeps(file.visible);
  }
}
