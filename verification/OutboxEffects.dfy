/**
 What each call of the outbox brings about: its verdict, the rows, the file and the latch
 afterwards, for every state of the row and every way the write may end.
 */
module OutboxEffects {
  import opened Durable
  import opened Outbox

  predicate HasKey(records: seq<Row>, t: Turn) {
    exists row :: row in records && SameKey(row.turn, t)
  }

  /** The row with this key, there being one. */
  predicate RowFor(records: seq<Row>, t: Turn, row: Row) {
    row in records && SameKey(row.turn, t)
  }

  /** One write of `next`: made and durable, definitely not made, or made and not durable,
      when the box is latched; only memory and file of the box change. */
  predicate WroteRows(b: Box, r: Reply, next: seq<Row>, o: Outcome) {
    && r.verdict == (match o case Written => Done case Untouched => Retryable case Unsettled => Blocked)
    && r.box.records == (if o == Untouched then b.records else next)
    && r.box.latched == (o == Unsettled)
    && r.box.file.visible == (if o == Untouched then b.file.visible else next)
    && r.box.file.durable == (match o case Written => {next} case Untouched => b.file.durable
                                      case Unsettled => b.file.durable + {next})
    && r.box.writes == b.writes + 1
  }

  predicate WrotesOnly(b: Box, r: Reply, next: seq<Row>, o: Outcome) {
    WroteRows(b, r, next, o) && r.box.cleanups == b.cleanups
  }

  /** `next` is `records` without the row, the others in their order. */
  predicate Dropped(records: seq<Row>, row: Row, next: seq<Row>) {
    && (exists i :: 0 <= i < |records| && records[i] == row && next == records[..i] + records[i + 1..])
    && !HasKey(next, row.turn)
  }

  /** `next` is `records` with the row in another state, in its place. */
  predicate Restated(records: seq<Row>, row: Row, state: RowState, next: seq<Row>) {
    exists i :: 0 <= i < |records| && records[i] == row && next == records[i := Row(row.turn, state)]
  }

  lemma Found(records: seq<Row>, t: Turn)
    requires UniqueKeys(records)
    ensures var i := IndexOf(records, t);
            && (i < |records| <==> HasKey(records, t))
            && (i < |records| ==> forall row :: RowFor(records, t, row) <==> row == records[i])
  {
    var i := IndexOf(records, t);
    if i < |records| {
      assert records[i] in records;
      forall row | RowFor(records, t, row) ensures row == records[i] {
        var k :| 0 <= k < |records| && records[k] == row;
        assert k == i;
      }
    }
  }

  lemma DroppedAt(records: seq<Row>, i: nat)
    requires UniqueKeys(records) && i < |records|
    ensures Dropped(records, records[i], Without(records, i))
  {
    WithoutKeeps(records, i);
  }

  lemma PersistWrites(b: Box, next: seq<Row>, io: Disk)
    requires !b.latched
    ensures WrotesOnly(b, Persist(b, next, io), next, io(b.writes))
  {}

  /** A delivered turn: the pending row is dropped and the others stay; without the row
      there is nothing to do; another time or another state is refused. */
  lemma RemoveBrings(b: Box, capacity: nat, t: Turn, io: Disk)
    requires Inv(b, capacity)
    ensures var r := RemoveDelivered(b, t, io);
            && (b.latched ==> r == Reply(b, Blocked))
            && (!b.latched && !HasKey(b.records, t) ==> r == Reply(b, Done))
            && (forall row :: !b.latched && RowFor(b.records, t, row) ==>
                  if row.turn.createdAt != t.createdAt then r == Reply(b, TimestampReused)
                  else if row.state != Pending then r == Reply(b, WrongState)
                  else exists next :: Dropped(b.records, row, next) && WrotesOnly(b, r, next, io(b.writes)))
  {
    var i := IndexOf(b.records, t);
    Found(b.records, t);
    if i < |b.records| {
      DroppedAt(b.records, i);
      if !b.latched { PersistWrites(b, Without(b.records, i), io); }
    }
    hide Inv, WrotesOnly, Dropped, Persist, HasKey, RowFor, Without;
  }

  /** A turn the daemon will no longer count: its pending row is marked and stays in place. */
  lemma ExpireBrings(b: Box, capacity: nat, t: Turn, io: Disk)
    requires Inv(b, capacity)
    ensures var r := MarkExpired(b, t, io);
            && (b.latched ==> r == Reply(b, Blocked))
            && (!b.latched && !HasKey(b.records, t) ==> r == Reply(b, Done))
            && (forall row :: !b.latched && RowFor(b.records, t, row) ==>
                  if row.turn.createdAt != t.createdAt then r == Reply(b, TimestampReused)
                  else if row.state == Expired then r == Reply(b, Done)
                  else if row.state == Reserved then r == Reply(b, WrongState)
                  else exists next :: Restated(b.records, row, Expired, next) && WrotesOnly(b, r, next, io(b.writes)))
  {
    var i := IndexOf(b.records, t);
    Found(b.records, t);
    if i < |b.records| {
      var next := b.records[i := b.records[i].(state := Expired)];
      assert Restated(b.records, b.records[i], Expired, next);
      if !b.latched { PersistWrites(b, next, io); }
    }
    hide Inv, WrotesOnly, Restated, Persist, HasKey, RowFor;
  }

  /** A completed transcription: the reserved row becomes pending in its place. */
  lemma PromoteBrings(b: Box, capacity: nat, t: Turn, io: Disk)
    requires Inv(b, capacity)
    ensures var r := Promote(b, t, io);
            var waiting := exists c :: c in b.cleanups && SameKey(c, t);
            && (b.latched || waiting ==> r == Reply(b, Blocked))
            && (!b.latched && !waiting && !HasKey(b.records, t) ==> r == Reply(b, NotReserved))
            && (forall row :: !b.latched && !waiting && RowFor(b.records, t, row) ==>
                  if row.turn.createdAt != t.createdAt then r == Reply(b, TimestampReused)
                  else if row.state == Pending then r == Reply(b, Done)
                  else if row.state == Expired then r == Reply(b, Blocked)
                  else exists next :: Restated(b.records, row, Pending, next) && WrotesOnly(b, r, next, io(b.writes)))
  {
    var i := IndexOf(b.records, t);
    Found(b.records, t);
    assert (exists k :: 0 <= k < |b.cleanups| && SameKey(b.cleanups[k], t)) <==> exists c :: c in b.cleanups && SameKey(c, t);
    if i < |b.records| {
      var next := b.records[i := b.records[i].(state := Pending)];
      assert Restated(b.records, b.records[i], Pending, next);
      if !b.latched { PersistWrites(b, next, io); }
    }
    hide Inv, WrotesOnly, Restated, Persist, HasKey, RowFor;
  }

  /** An abandoned capture: its reserved row is dropped; when that write definitely fails
      the turn is remembered for the next sweep, once. */
  lemma CancelBrings(b: Box, capacity: nat, t: Turn, io: Disk)
    requires Inv(b, capacity)
    ensures var r := CancelReservation(b, t, io);
            && (b.latched ==> r == Reply(b, Blocked))
            && (!b.latched && !HasKey(b.records, t) ==> r == Reply(b, Done))
            && (forall row :: !b.latched && RowFor(b.records, t, row) ==>
                  if row.turn.createdAt != t.createdAt then r == Reply(b, TimestampReused)
                  else if row.state != Reserved then r == Reply(b, Done)
                  else exists next :: Dropped(b.records, row, next) && WroteRows(b, r, next, io(b.writes))
                                      && CleanupsAfter(b.cleanups, r.box.cleanups, t, io(b.writes)))
  {
    var i := IndexOf(b.records, t);
    Found(b.records, t);
    if i < |b.records| {
      DroppedAt(b.records, i);
      if !b.latched { CanceledRow(b, t, io); }
    }
    CancelsNothing(b, t, io);
    hide Inv, Dropped, HasKey, RowFor, Without, CleanupsAfter, CancelReservation, WroteRows, Persist;
  }

  lemma CancelsNothing(b: Box, t: Turn, io: Disk)
    ensures b.latched ==> CancelReservation(b, t, io) == Reply(b, Blocked)
    ensures !b.latched && IndexOf(b.records, t) == |b.records| ==> CancelReservation(b, t, io) == Reply(b, Done)
  {}

  lemma CanceledRow(b: Box, t: Turn, io: Disk)
    requires !b.latched && IndexOf(b.records, t) < |b.records|
    ensures var i, r := IndexOf(b.records, t), CancelReservation(b, t, io);
            if b.records[i].turn.createdAt != t.createdAt then r == Reply(b, TimestampReused)
            else if b.records[i].state != Reserved then r == Reply(b, Done)
            else WroteRows(b, r, Without(b.records, i), io(b.writes))
                 && CleanupsAfter(b.cleanups, r.box.cleanups, t, io(b.writes))
  {
    hide IndexOf, Without, SameKey;
  }

  /** A written deletion is forgotten, a failed one remembered, and others are left alone. */
  ghost predicate CleanupsAfter(was: seq<Turn>, now: seq<Turn>, t: Turn, o: Outcome) {
    match o
    case Written => forall c :: c in now <==> c in was && !SameKey(c, t)
    case Untouched => now == if exists c :: c in was && SameKey(c, t) then was else was + [t]
    case Unsettled => now == was
  }

  // ------------------------------------------------------------- reservations

  /** A sweep that gets through has deleted every remembered row and no other. */
  lemma {:induction false} SweepBrings(b: Box, capacity: nat, io: Disk)
    requires Inv(b, capacity) && !b.latched
    ensures var r := Sweep(b, io);
            && ((forall n :: n >= b.writes ==> io(n) == Written) ==> r.verdict == Done)
            && (r.verdict == Done ==>
                  && r.box.cleanups == [] && !r.box.latched
                  && forall row :: row in r.box.records <==>
                       row in b.records && !exists c :: c in b.cleanups && SameKey(c, row.turn))
    decreases |b.cleanups|
  {
    if b.cleanups != [] {
      var t := b.cleanups[0];
      var i := IndexOf(b.records, t);
      var rest := b.cleanups[1..];
      assert b.cleanups == [t] + rest;
      Found(b.records, t);
      if i == |b.records| {
        SweepBrings(b.(cleanups := rest), capacity, io);
      } else {
        assert GoodCleanup(b.records, t) && b.records[i] in b.records;
        DropReserved(b, capacity, i, io);
        WithoutKeeps(b.records, i);
        var r := Persist(b, Without(b.records, i), io);
        if r.verdict == Done {
          SweepBrings(r.box.(cleanups := rest), capacity, io);
        }
      }
    }
  }

  /** A reservation, once nothing waits for deletion: refused while a turn has expired or
      the box is full, repeated without effect, and otherwise one more reserved row. */
  lemma ReserveBrings(b: Box, capacity: nat, t: Turn, io: Disk)
    requires Inv(b, capacity)
    ensures b.latched ==> Reserve(b, capacity, t, io) == Reply(b, Blocked)
    ensures var s, r := Sweep(b, io), Reserve(b, capacity, t, io);
            !b.latched ==>
              && (s.verdict != Done ==> r == s)
              && (s.verdict == Done && !HasKey(s.box.records, t) ==>
                    if exists row :: row in s.box.records && row.state == Expired then r == Reply(s.box, Blocked)
                    else if |s.box.records| >= capacity then r == Reply(s.box, Full)
                    else WrotesOnly(s.box, r, s.box.records + [Row(t, Reserved)], io(s.box.writes)))
              && (forall row :: s.verdict == Done && RowFor(s.box.records, t, row) ==>
                    r == Reply(s.box, if row.turn.createdAt == t.createdAt then Done else TimestampReused))
  {
    if !b.latched {
      SweepKeeps(b, capacity, io);
      var s := Sweep(b, io);
      if s.verdict == Done {
        Found(s.box.records, t);
        PersistWrites(s.box, s.box.records + [Row(t, Reserved)], io);
        assert (exists k :: 0 <= k < |s.box.records| && s.box.records[k].state == Expired)
          <==> exists row :: row in s.box.records && row.state == Expired;
      }
      hide Sweep, Persist, WrotesOnly, HasKey, RowFor, Inv;
    }
  }

  /** A new process keeps the completed turns of the snapshot it reads, in their order, and
      comes up once a snapshot without the reservations is in the file. */
  lemma ReloadBrings(file: File<seq<Row>>, writes: nat, capacity: nat, io: Disk)
    requires GoodFile(file, capacity)
    ensures var r := Reload(file, writes, io);
            var nothing := forall row :: row in file.visible ==> row.state != Reserved;
            && (r.verdict == Done <==> nothing || io(writes) == Written)
            && r.box.cleanups == [] && !r.box.latched
            && (forall row :: row in r.box.records <==> row in file.visible && row.state != Reserved)
            && InSameOrder(r.box.records, file.visible)
            && (if nothing then r.box.file == file && r.box.records == file.visible
                else io(writes) == Written ==> r.box.file == File(r.box.records, {r.box.records}))
  {
    UnreservedInOrder(file.visible);
    if forall row :: row in file.visible ==> row.state != Reserved { AllUnreserved(file.visible); }
    assert Unreserved(file.visible) == file.visible ==> forall row :: row in file.visible ==> row.state != Reserved;
  }

  lemma {:induction false} AllUnreserved(records: seq<Row>)
    requires forall row :: row in records ==> row.state != Reserved
    ensures Unreserved(records) == records
  {
    if records != [] {
      assert records[0] in records;
      AllUnreserved(records[1..]);
    }
  }

  /** `some` are rows of `all`, in the same order. */
  predicate InSameOrder(some: seq<Row>, all: seq<Row>)
    decreases |all|
  {
    if some == [] then true
    else if all == [] then false
    else InSameOrder(some, all[1..]) || (some[0] == all[0] && InSameOrder(some[1..], all[1..]))
  }

  lemma {:induction false} UnreservedInOrder(records: seq<Row>)
    ensures InSameOrder(Unreserved(records), records)
  {
    if records != [] {
      UnreservedInOrder(records[1..]);
      var rest := Unreserved(records[1..]);
      assert ([records[0]] + rest)[1..] == rest;
    }
  }

  // --------------------------------------------------------- no key comes back

  predicate KeysWithin(records: seq<Row>, from: seq<Row>) {
    forall row :: row in records ==> HasKey(from, row.turn)
  }

  /** Memory and every snapshot a crash may leave have only keys that were there before. */
  predicate AddsNoKey(b: Box, b': Box) {
    && KeysWithin(b'.records, b.records)
    && forall rs :: rs in b'.file.durable ==> rs in b.file.durable || KeysWithin(rs, b.records)
  }

  lemma WriteAddsNoKey(b: Box, next: seq<Row>, io: Disk)
    requires KeysWithin(next, b.records)
    ensures AddsNoKey(b, Persist(b, next, io).box)
  {
    SelfWithin(b.records);
  }

  lemma SelfWithin(records: seq<Row>)
    ensures KeysWithin(records, records)
  {}

  lemma RestatedWithin(records: seq<Row>, i: nat, state: RowState)
    requires i < |records|
    ensures KeysWithin(records[i := records[i].(state := state)], records)
    ensures KeysWithin(Without(records, i), records)
  {
    forall k | 0 <= k < |records| ensures HasKey(records, records[k].turn) { assert records[k] in records; }
  }

  lemma RemoveAddsNoKey(b: Box, t: Turn, io: Disk)
    ensures AddsNoKey(b, RemoveDelivered(b, t, io).box)
  {
    DropAddsNoKey(b, t, io);
    hide AddsNoKey, Persist, Without;
  }

  lemma CancelAddsNoKey(b: Box, t: Turn, io: Disk)
    ensures AddsNoKey(b, CancelReservation(b, t, io).box)
  {
    SelfWithin(b.records);
    CancelsNothing(b, t, io);
    var i := IndexOf(b.records, t);
    if i < |b.records| && !b.latched {
      CanceledRow(b, t, io);
      RestatedWithin(b.records, i, Pending);
    }
    hide KeysWithin, Without, CancelReservation, CleanupsAfter;
  }

  lemma ExpireAddsNoKey(b: Box, t: Turn, io: Disk)
    ensures AddsNoKey(b, MarkExpired(b, t, io).box)
  {
    RestateAddsNoKey(b, t, Expired, io);
    hide AddsNoKey, Persist;
  }

  lemma PromoteAddsNoKey(b: Box, t: Turn, io: Disk)
    ensures AddsNoKey(b, Promote(b, t, io).box)
  {
    RestateAddsNoKey(b, t, Pending, io);
    hide AddsNoKey, Persist;
  }

  lemma DropAddsNoKey(b: Box, t: Turn, io: Disk)
    ensures AddsNoKey(b, b)
    ensures var i := IndexOf(b.records, t);
            i < |b.records| ==> AddsNoKey(b, Persist(b, Without(b.records, i), io).box)
  {
    var i := IndexOf(b.records, t);
    SelfWithin(b.records);
    if i < |b.records| {
      RestatedWithin(b.records, i, Pending);
      WriteAddsNoKey(b, Without(b.records, i), io);
    }
    hide KeysWithin, Persist, Without;
  }

  lemma RestateAddsNoKey(b: Box, t: Turn, state: RowState, io: Disk)
    ensures AddsNoKey(b, b)
    ensures var i := IndexOf(b.records, t);
            i < |b.records| ==> AddsNoKey(b, Persist(b, b.records[i := b.records[i].(state := state)], io).box)
  {
    var i := IndexOf(b.records, t);
    SelfWithin(b.records);
    if i < |b.records| {
      RestatedWithin(b.records, i, state);
      WriteAddsNoKey(b, b.records[i := b.records[i].(state := state)], io);
    }
    hide KeysWithin, Persist;
  }

  lemma {:induction false} SweepAddsNoKey(b: Box, io: Disk)
    ensures AddsNoKey(b, Sweep(b, io).box)
    decreases |b.cleanups|
  {
    SelfWithin(b.records);
    if b.cleanups != [] {
      var i := IndexOf(b.records, b.cleanups[0]);
      var rest := b.cleanups[1..];
      if i == |b.records| {
        SweepAddsNoKey(b.(cleanups := rest), io);
      } else {
        DropAddsNoKey(b, b.cleanups[0], io);
        var b1 := Persist(b, Without(b.records, i), io).box;
        SweepAddsNoKey(b1.(cleanups := rest), io);
        StillWithin(b, b1, Sweep(b1.(cleanups := rest), io).box);
      }
    }
    hide KeysWithin, Persist, Without;
  }

  lemma StillWithin(b: Box, b1: Box, b2: Box)
    requires AddsNoKey(b, b1) && AddsNoKey(b1, b2)
    ensures AddsNoKey(b, b2)
  {
    forall rs | KeysWithin(rs, b1.records) ensures KeysWithin(rs, b.records) {
      forall row: Row | row in rs ensures HasKey(b.records, row.turn) {
        var x :| x in b1.records && SameKey(x.turn, row.turn);
        var y :| y in b.records && SameKey(y.turn, x.turn);
      }
    }
  }

  // ---------------------------------------------------------- gone for good

  /** Neither memory nor anything a crash may leave has a row for the turn. */
  predicate NoRowFor(b: Box, t: Turn) {
    !HasKey(b.records, t) && forall rs :: rs in b.file.durable ==> !HasKey(rs, t)
  }

  lemma StaysGone(b: Box, b': Box, t: Turn)
    requires NoRowFor(b, t) && AddsNoKey(b, b')
    ensures NoRowFor(b', t)
  {
    forall rs | KeysWithin(rs, b.records) ensures !HasKey(rs, t) {
      forall row: Row | row in rs ensures !SameKey(row.turn, t) { SameKeyHas(b.records, row.turn, t); }
    }
  }

  lemma SameKeyHas(records: seq<Row>, u: Turn, t: Turn)
    ensures HasKey(records, u) && SameKey(u, t) ==> HasKey(records, t)
  {}

  lemma OthersReserved(b: Box, capacity: nat, u: Turn, t: Turn, io: Disk)
    requires NoRowFor(b, t) && !SameKey(u, t)
    ensures NoRowFor(Reserve(b, capacity, u, io).box, t)
  {
    SweepAddsNoKey(b, io);
    var s := Sweep(b, io).box;
    StaysGone(b, s, t);
    assert !HasKey(s.records + [Row(u, Reserved)], t);
    hide Sweep, AddsNoKey, HasKey;
  }

  lemma ReloadedGone(file: File<seq<Row>>, writes: nat, t: Turn, io: Disk)
    requires !HasKey(file.visible, t) && forall rs :: rs in file.durable ==> !HasKey(rs, t)
    ensures NoRowFor(Reload(file, writes, io).box, t)
  {
    assert !HasKey(Unreserved(file.visible), t);
  }

  /** A delivery that was written leaves no row for the turn, anywhere. */
  lemma WrittenRemoval(b: Box, capacity: nat, t: Turn, io: Disk)
    requires Inv(b, capacity) && !b.latched && Row(t, Pending) in b.records && io(b.writes) == Written
    ensures var r := RemoveDelivered(b, t, io); r.verdict == Done && NoRowFor(r.box, t) && !r.box.latched
    ensures var r := RemoveDelivered(b, t, io);
            forall row :: row in r.box.records <==> row in b.records && row.turn != t
  {
    RemoveBrings(b, capacity, t, io);
    assert RowFor(b.records, t, Row(t, Pending));
    var next :| Dropped(b.records, Row(t, Pending), next) && WrotesOnly(b, RemoveDelivered(b, t, io), next, io(b.writes));
    hide RemoveDelivered, Inv;
    OthersLeft(b.records, t, next);
  }

  /** An expiry that was written keeps the turn as an expired row. */
  lemma WrittenExpiry(b: Box, capacity: nat, t: Turn, io: Disk)
    requires Inv(b, capacity) && !b.latched && Row(t, Pending) in b.records && io(b.writes) == Written
    ensures var r := MarkExpired(b, t, io);
            && r.verdict == Done && Row(t, Expired) in r.box.records && |r.box.records| == |b.records|
            && Settled(r.box.file) && !r.box.latched && r.box.cleanups == b.cleanups && Inv(r.box, capacity)
  {
    ExpireBrings(b, capacity, t, io);
    ExpireKeeps(b, capacity, t, io);
    assert RowFor(b.records, t, Row(t, Pending));
    var next :| Restated(b.records, Row(t, Pending), Expired, next) && WrotesOnly(b, MarkExpired(b, t, io), next, io(b.writes));
    var i :| 0 <= i < |b.records| && next == b.records[i := Row(t, Expired)];
    assert next[i] in next;
    hide MarkExpired, Inv;
  }

  lemma OthersLeft(records: seq<Row>, t: Turn, next: seq<Row>)
    requires Dropped(records, Row(t, Pending), next)
    ensures forall row :: row in next <==> row in records && row.turn != t
  {
    var i :| 0 <= i < |records| && records[i] == Row(t, Pending) && next == records[..i] + records[i + 1..];
    forall row ensures row in next <==> row in records && row.turn != t {
      if row in next { SameKeyHas(next, row.turn, t); }
    }
  }
}
