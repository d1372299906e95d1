/**
 The outbox object itself: its fields are updated in place, memory is rolled back
 when a write left the old snapshot in force. Each method is proved equal to the
 operation `Outbox` reasons about, and keeps the object valid.
 */
module OutboxStore {
  import opened Durable
  import opened Outbox

  /** `findIndex` over the rows. */
  method FindRow(records: seq<Row>, t: Turn) returns (i: nat)
    ensures i == IndexOf(records, t)
  {
    i := 0;
    while i < |records|
      invariant i <= |records|
      invariant forall k :: 0 <= k < i ==> !SameKey(records[k].turn, t)
    {
      if SameKey(records[i].turn, t) { return; }
      i := i + 1;
    }
  }

  class InteractionOutbox {
    const capacity: nat
    const io: Disk
    var records: seq<Row>
    var cleanups: seq<Turn>
    var latched: bool
    var file: File<seq<Row>>
    var writes: nat

    ghost function Box(): Outbox.Box
      reads this
    {
      Outbox.Box(records, cleanups, latched, file, writes)
    }

    ghost predicate Valid()
      reads this
    {
      Inv(Box(), capacity)
    }

    constructor (snapshot: File<seq<Row>>, capacity: nat, io: Disk, written: nat)
      requires GoodFile(snapshot, capacity)
      ensures this.capacity == capacity && this.io == io
      ensures Box() == Reload(snapshot, written, io).box
      ensures Reload(snapshot, written, io).verdict == Done ==> Valid()
    {
      this.capacity, this.io := capacity, io;
      records, cleanups, latched, file, writes := Unreserved(snapshot.visible), [], false, snapshot, written;
      new;
      ReloadKeeps(snapshot, written, capacity, io);
      if records != snapshot.visible {
        file := Replace(file, records, io(writes));
        writes := writes + 1;
      }
    }

    method Persist(next: seq<Row>) returns (v: Verdict)
      modifies this
      ensures Reply(Box(), v) == Outbox.Persist(old(Box()), next, io)
    {
      var previous := records;
      records := next;
      var o := io(writes);
      file, writes := Replace(file, records, o), writes + 1;
      if o == Unsettled {
        latched := true;
        return Blocked;
      }
      if o == Untouched {
        records := previous;
        return Retryable;
      }
      return Done;
    }

    /** Retry every pending deletion in the order the cancellations failed. */
    method SweepPendingCleanups() returns (v: Verdict)
      requires Valid() && !latched
      modifies this
      ensures Reply(Box(), v) == Sweep(old(Box()), io)
      ensures Valid() && v != Broken && (v == Done ==> cleanups == [] && !latched)
    {
      SweepKeeps(Box(), capacity, io);
      while cleanups != []
        invariant Sweep(Box(), io) == Sweep(old(Box()), io)
        decreases |cleanups|
      {
        var t := cleanups[0];
        var i := FindRow(records, t);
        if i < |records| {
          if records[i].turn.createdAt != t.createdAt { return TimestampReused; }
          if records[i].state != Reserved { return Broken; }
          v := Persist(Without(records, i));
          if v != Done { return; }
        }
        cleanups := cleanups[1..];
      }
      v := Done;
    }

    method Reserve(t: Turn) returns (v: Verdict)
      requires Valid()
      modifies this
      ensures Reply(Box(), v) == Outbox.Reserve(old(Box()), capacity, t, io)
      ensures Valid() && v != Broken
    {
      ReserveKeeps(Box(), capacity, t, io);
      if latched { return Blocked; }
      v := SweepPendingCleanups();
      if v != Done { return; }
      var i := FindRow(records, t);
      if i < |records| {
        return if records[i].turn.createdAt == t.createdAt then Done else TimestampReused;
      }
      var k := 0;
      while k < |records|
        invariant k <= |records|
        invariant forall n :: 0 <= n < k ==> records[n].state != Expired
      {
        if records[k].state == Expired { return Blocked; }
        k := k + 1;
      }
      if |records| >= capacity { return Full; }
      v := Persist(records + [Row(t, Reserved)]);
    }

    method Promote(t: Turn) returns (v: Verdict)
      requires Valid()
      modifies this
      ensures Reply(Box(), v) == Outbox.Promote(old(Box()), t, io)
      ensures Valid()
      ensures v == Done && Box() != old(Box()) ==> Kept(Box(), t)
    {
      PromoteKeeps(Box(), capacity, t, io);
      if latched { return Blocked; }
      if exists k :: 0 <= k < |cleanups| && SameKey(cleanups[k], t) { return Blocked; }
      var i := FindRow(records, t);
      if i == |records| { return NotReserved; }
      if records[i].turn.createdAt != t.createdAt { return TimestampReused; }
      match records[i].state {
        case Pending => return Done;
        case Expired => return Blocked;
        case Reserved => v := Persist(records[i := records[i].(state := Pending)]);
      }
    }

    /** A deletion that definitely failed is remembered and retried before the next reservation. */
    method CancelReservation(t: Turn) returns (v: Verdict)
      requires Valid()
      modifies this
      ensures Reply(Box(), v) == Outbox.CancelReservation(old(Box()), t, io)
      ensures Valid()
    {
      CancelKeeps(Box(), capacity, t, io);
      if latched { return Blocked; }
      var i := FindRow(records, t);
      if i == |records| { return Done; }
      if records[i].turn.createdAt != t.createdAt { return TimestampReused; }
      if records[i].state != Reserved { return Done; }
      v := Persist(Without(records, i));
      if v == Done {
        cleanups := Forget(cleanups, t);
      } else if v == Retryable {
        cleanups := Remember(cleanups, t);
      }
    }

    method RemoveDelivered(t: Turn) returns (v: Verdict)
      requires Valid()
      modifies this
      ensures Reply(Box(), v) == Outbox.RemoveDelivered(old(Box()), t, io)
      ensures Valid()
      ensures forall x :: x != t && Kept(old(Box()), x) ==> Kept(Box(), x)
    {
      RemoveKeeps(Box(), capacity, t, io);
      if latched { return Blocked; }
      var i := FindRow(records, t);
      if i == |records| { return Done; }
      if records[i].turn.createdAt != t.createdAt { return TimestampReused; }
      if records[i].state != Pending { return WrongState; }
      v := Persist(Without(records, i));
    }

    method MarkExpired(t: Turn) returns (v: Verdict)
      requires Valid()
      modifies this
      ensures Reply(Box(), v) == Outbox.MarkExpired(old(Box()), t, io)
      ensures Valid()
      ensures forall x :: Kept(old(Box()), x) ==> Kept(Box(), x)
    {
      ExpireKeeps(Box(), capacity, t, io);
      if latched { return Blocked; }
      var i := FindRow(records, t);
      if i == |records| { return Done; }
      if records[i].turn.createdAt != t.createdAt { return TimestampReused; }
      match records[i].state {
        case Expired => return Done;
        case Reserved => return WrongState;
        case Pending => v := Persist(records[i := records[i].(state := Expired)]);
      }
    }
  }
}
