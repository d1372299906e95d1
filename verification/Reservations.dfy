/**
 What each outbox call does to the set of reserved rows and to the set of canceled
 reservations still waiting for their deletion, as long as the box is not latched.
 */
module Reservations {
  import opened Durable
  import opened Outbox

  function Reserving(b: Box): set<Turn> {
    set r | r in b.records && r.state == Reserved :: r.turn
  }

  function Waiting(b: Box): set<Turn> {
    set t | t in b.cleanups
  }

  function Turns(b: Box): set<Turn> {
    (set r | r in b.records :: r.turn) + Waiting(b)
  }

  /** No two turns ever allocated share a key. */
  predicate DistinctKeys(used: set<Turn>) {
    forall u, v :: u in used && v in used && SameKey(u, v) ==> u == v
  }

  lemma InReserving(b: Box, t: Turn)
    ensures t in Reserving(b) <==> Row(t, Reserved) in b.records
  {}

  lemma DroppedReserving(b: Box, capacity: nat, t: Turn, io: Disk)
    requires Inv(b, capacity) && IndexOf(b.records, t) < |b.records|
    requires b.records[IndexOf(b.records, t)] == Row(t, Reserved)
    ensures var r := Persist(b, Without(b.records, IndexOf(b.records, t)), io);
            && r.box.cleanups == b.cleanups
            && (r.verdict == Done ==> Reserving(r.box) == Reserving(b) - {t} && Turns(r.box) <= Turns(b))
            && (r.verdict == Retryable ==> r.box.records == b.records)
            && (r.verdict == Blocked ==> r.box.latched) && r.verdict in {Done, Retryable, Blocked}
            && (r.verdict == Done ==> !r.box.latched || b.latched)
  {
    var i := IndexOf(b.records, t);
    WithoutKeeps(b.records, i);
    var r := Persist(b, Without(b.records, i), io);
    if r.verdict == Done {
      forall u ensures u in Reserving(r.box) <==> u in Reserving(b) - {t} {
        InReserving(b, u);
        InReserving(r.box, u);
      }
    }
  }

  lemma FoundReserved(b: Box, capacity: nat, t: Turn)
    requires Inv(b, capacity) && t in Reserving(b)
    ensures IndexOf(b.records, t) < |b.records| && b.records[IndexOf(b.records, t)] == Row(t, Reserved)
  {
    InReserving(b, t);
    FoundAt(b.records, Row(t, Reserved));
  }

  /** A canceled reservation leaves the reserved rows, or stays one of them and waits. */
  lemma CancelEffect(b: Box, capacity: nat, t: Turn, used: set<Turn>, io: Disk)
    requires Inv(b, capacity) && !b.latched && t in Reserving(b) && t !in Waiting(b)
    requires DistinctKeys(used) && Turns(b) <= used
    ensures var b' := CancelReservation(b, t, io).box;
            && Turns(b') <= Turns(b)
            && (!b'.latched ==> || (Reserving(b') == Reserving(b) - {t} && Waiting(b') == Waiting(b))
                                || (Reserving(b') == Reserving(b) && Waiting(b') == Waiting(b) + {t}))
  {
    FoundReserved(b, capacity, t);
    DroppedReserving(b, capacity, t, io);
    assert t in used;
    forall c | c in b.cleanups ensures !SameKey(c, t) { assert c in Waiting(b) && c in used; }
    assert Row(t, Reserved) in b.records;
    var b' := CancelReservation(b, t, io).box;
    if Persist(b, Without(b.records, IndexOf(b.records, t)), io).verdict == Done {
      assert Waiting(b') == Waiting(b);
    }
  }

  /** A sweep deletes some waiting reservations, row and memory alike. */
  lemma {:induction false} SweepEffect(b: Box, capacity: nat, io: Disk) returns (swept: set<Turn>)
    requires Inv(b, capacity) && !b.latched
    requires NoDuplicates(b.cleanups) && Waiting(b) <= Reserving(b)
    ensures swept <= Waiting(b)
    ensures var b' := Sweep(b, io).box;
            && Turns(b') <= Turns(b) && Waiting(b') <= Waiting(b) && NoDuplicates(b'.cleanups)
            && (!b'.latched ==> Reserving(b') == Reserving(b) - swept && Waiting(b') == Waiting(b) - swept)
    decreases |b.cleanups|
  {
    swept := {};
    if b.cleanups != [] {
      var t := b.cleanups[0];
      assert t in Waiting(b);
      FoundReserved(b, capacity, t);
      DroppedReserving(b, capacity, t, io);
      var r := Persist(b, Without(b.records, IndexOf(b.records, t)), io);
      if r.verdict == Done {
        var b1 := r.box.(cleanups := b.cleanups[1..]);
        DropReserved(b, capacity, IndexOf(b.records, t), io);
        assert Inv(b1, capacity);
        HeadRemoved(b.cleanups);
        assert Waiting(b1) == Waiting(b) - {t};
        assert Reserving(b1) == Reserving(r.box);
        var rest := SweepEffect(b1, capacity, io);
        swept := rest + {t};
        assert Sweep(b, io) == Sweep(b1, io);
      }
    }
  }

  predicate NoDuplicates(cleanups: seq<Turn>) {
    forall i, k :: 0 <= i < k < |cleanups| ==> cleanups[i] != cleanups[k]
  }

  lemma HeadRemoved(cleanups: seq<Turn>)
    requires cleanups != [] && NoDuplicates(cleanups)
    ensures NoDuplicates(cleanups[1..])
    ensures (set t | t in cleanups[1..]) == (set t | t in cleanups) - {cleanups[0]}
  {}

  lemma Absent(b: Box, t: Turn, used: set<Turn>)
    requires Turns(b) <= used && forall u :: u in used ==> !SameKey(u, t)
    ensures IndexOf(b.records, t) == |b.records| && t !in Waiting(b) && t !in Reserving(b)
  {}

  /** Reserving a fresh turn first deletes some waiting rows, then adds the new one or nothing. */
  lemma ReserveEffect(b: Box, capacity: nat, t: Turn, used: set<Turn>, io: Disk) returns (swept: set<Turn>)
    requires Inv(b, capacity) && !b.latched
    requires NoDuplicates(b.cleanups) && Waiting(b) <= Reserving(b) && Turns(b) <= used
    requires forall u :: u in used ==> !SameKey(u, t)
    ensures swept <= Waiting(b)
    ensures var r := Reserve(b, capacity, t, io);
            && Turns(r.box) <= Turns(b) + {t} && Waiting(r.box) <= Waiting(b) && NoDuplicates(r.box.cleanups)
            && (!r.box.latched ==>
                  && Waiting(r.box) == Waiting(b) - swept
                  && Reserving(r.box) == Reserving(b) - swept + (if r.verdict == Done then {t} else {}))
  {
    hide Sweep, Reserving, Waiting, Turns, Persist, Inv, NoDuplicates, SafeCall, KeepsAllBut;
    swept := SweepEffect(b, capacity, io);
    SweepKeeps(b, capacity, io);
    var s := Sweep(b, io);
    Absent(s.box, t, used);
    Appended(s.box, t, io);
  }

  lemma Appended(b: Box, t: Turn, io: Disk)
    ensures var p := Persist(b, b.records + [Row(t, Reserved)], io);
            && p.box.cleanups == b.cleanups && Waiting(p.box) == Waiting(b) && Turns(p.box) <= Turns(b) + {t}
            && (!p.box.latched && !b.latched ==>
                  Reserving(p.box) == Reserving(b) + (if p.verdict == Done then {t} else {}))
  {}

  /** Changing one row's state away from Reserved, or dropping a row that is not Reserved. */
  lemma PromoteEffect(b: Box, capacity: nat, t: Turn, used: set<Turn>, io: Disk)
    requires Inv(b, capacity) && !b.latched && t in Reserving(b) && t !in Waiting(b)
    requires DistinctKeys(used) && Turns(b) <= used
    ensures var r := Promote(b, t, io);
            && Turns(r.box) <= Turns(b) && r.box.cleanups == b.cleanups
            && (!r.box.latched ==> Reserving(r.box) == if r.verdict == Done then Reserving(b) - {t} else Reserving(b))
  {
    FoundReserved(b, capacity, t);
    var i := IndexOf(b.records, t);
    assert t in used;
    forall c | c in b.cleanups ensures !SameKey(c, t) { assert c in Waiting(b) && c in used; }
    Rewritten(b, i, Pending);
    hide IndexOf;
  }

  lemma Rewritten(b: Box, i: nat, state: RowState)
    requires i < |b.records| && UniqueKeys(b.records) && state != Reserved
    ensures var next := b.records[i := b.records[i].(state := state)];
            && (set r | r in next :: r.turn) == (set r | r in b.records :: r.turn)
            && (set r | r in next && r.state == Reserved :: r.turn) == Reserving(b) - {b.records[i].turn}
  {
    SameTurns(b.records, b.records[i := b.records[i].(state := state)]);
    OneLess(b, i, state);
  }

  lemma SameTurns(was: seq<Row>, next: seq<Row>)
    requires |was| == |next| && forall k :: 0 <= k < |was| ==> was[k].turn == next[k].turn
    ensures (set r | r in next :: r.turn) == (set r | r in was :: r.turn)
  {}

  lemma OneLess(b: Box, i: nat, state: RowState)
    requires i < |b.records| && UniqueKeys(b.records) && state != Reserved
    ensures (set r | r in b.records[i := b.records[i].(state := state)] && r.state == Reserved :: r.turn)
         == Reserving(b) - {b.records[i].turn}
  {
    var next := b.records[i := b.records[i].(state := state)];
    var left := set r | r in next && r.state == Reserved :: r.turn;
    forall k | 0 <= k < |next| && k != i
      ensures next[k].turn != b.records[i].turn
      ensures next[k].state == Reserved <==> next[k].turn in left && b.records[k].state == Reserved {
      assert !SameKey(b.records[if k < i then k else i].turn, b.records[if k < i then i else k].turn);
      assert next[k] in next;
    }
    forall u ensures u in left ==> u in Reserving(b) - {b.records[i].turn} {
      if u in left {
        var k :| 0 <= k < |next| && next[k].state == Reserved && next[k].turn == u;
        assert b.records[k] in b.records;
      }
    }
    forall u ensures u in Reserving(b) - {b.records[i].turn} ==> u in left {
      if u in Reserving(b) && u != b.records[i].turn {
        var k :| 0 <= k < |b.records| && b.records[k].state == Reserved && b.records[k].turn == u;
        assert next[k] in next;
      }
    }
  }

  /** Delivery and expiry only ever concern completed turns. */
  lemma CompletedEffect(b: Box, capacity: nat, t: Turn, io: Disk)
    requires Inv(b, capacity) && !b.latched
    ensures forall b' :: b' == RemoveDelivered(b, t, io).box || b' == MarkExpired(b, t, io).box ==>
              Turns(b') <= Turns(b) && b'.cleanups == b.cleanups && (!b'.latched ==> Reserving(b') == Reserving(b))
  {
    var i := IndexOf(b.records, t);
    if i < |b.records| && b.records[i].turn.createdAt == t.createdAt && b.records[i].state == Pending {
      Rewritten(b, i, Expired);
      WithoutKeeps(b.records, i);
      var w := Without(b.records, i);
      var left := set r | r in w && r.state == Reserved :: r.turn;
      assert b.records[i] in b.records;
      assert left == Reserving(b);
      NotReserved(b, i);
    }
  }

  lemma NotReserved(b: Box, i: nat)
    requires i < |b.records| && UniqueKeys(b.records) && b.records[i].state != Reserved
    ensures b.records[i].turn !in Reserving(b)
  {}
}
