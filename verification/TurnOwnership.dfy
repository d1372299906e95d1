/**
 Reservation conservation: while the outbox is not latched, every reserved row is owned
 by exactly one of an armed capture, one unfinished handler, or the pending cleanups.
 */
module TurnOwnership {
  import opened Durable
  import O = Outbox
  import opened Reservations
  import opened TurnMachine

  // ------------------------------------------------------------ the owners

  /** Reservations owned by armed captures. */
  function Captures(w: World): set<Turn> {
    set s | s in w.sockets && w.sockets[s].reservation.Some? :: w.sockets[s].reservation.value
  }

  /** Reservations owned by handlers that have not promoted them. */
  function Handling(w: World): set<Turn> {
    set x | x in w.running && !w.running[x].promoted
  }

  /** No two captures own one reservation. */
  predicate Exclusive(w: World) {
    forall s, r :: s in w.sockets && r in w.sockets && s != r && w.sockets[s].reservation.Some? ==>
      w.sockets[s].reservation != w.sockets[r].reservation
  }

  /** The owners of an outbox: armed captures, unpromoted handlers, and the rows awaiting
      deletion are disjoint, and while the box is not latched they own exactly its reserved rows. */
  predicate Balanced(b: O.Box, used: set<Turn>, captures: set<Turn>, handling: set<Turn>, keys: set<Turn>, capacity: nat) {
    && O.Inv(b, capacity) && NoDuplicates(b.cleanups)
    && DistinctKeys(used) && Turns(b) <= used && captures <= used && keys <= used
    && handling <= keys && captures !! keys
    && captures !! Waiting(b) && handling !! Waiting(b)
    && (!b.latched ==> Reserving(b) == captures + handling + Waiting(b))
  }

  predicate Owned(w: World, capacity: nat) {
    Exclusive(w) && Balanced(w.box, w.used, Captures(w), Handling(w), w.running.Keys, capacity)
  }

  /** Giving a reservation back keeps the balance: its row is gone, or waits for deletion. */
  lemma ReturnBalanced(b: O.Box, used: set<Turn>, captures: set<Turn>, handling: set<Turn>, keys: set<Turn>,
                       capacity: nat, t: Turn, io: O.Disk)
    requires Balanced(b, used, captures, handling, keys, capacity) && t in captures + handling
    ensures var b' := O.CancelReservation(b, t, io).box;
            Balanced(b', used, captures - {t}, handling - {t}, if t in captures then keys else keys - {t}, capacity)
  {
    O.CancelKeeps(b, capacity, t, io);
    NoNewDuplicate(b, t, io);
    if b.latched {
      assert O.CancelReservation(b, t, io).box == b;
    } else {
      CancelEffect(b, capacity, t, used, io);
    }
    hide O.CancelReservation, Reserving, Waiting, Turns, NoDuplicates, O.Inv, DistinctKeys;
  }

  /** A new reservation keeps the balance when its owner is added with it. */
  lemma ReserveBalanced(b: O.Box, used: set<Turn>, captures: set<Turn>, handling: set<Turn>, keys: set<Turn>,
                        capacity: nat, t: Turn, io: O.Disk)
    requires Balanced(b, used, captures, handling, keys, capacity)
    requires forall u :: u in used ==> !O.SameKey(u, t)
    ensures var r := O.Reserve(b, capacity, t, io);
            Balanced(r.box, used + {t}, if r.verdict == O.Done then captures + {t} else captures, handling, keys, capacity)
  {
    O.ReserveKeeps(b, capacity, t, io);
    FreshDistinct(used, t);
    if b.latched {
      assert O.Reserve(b, capacity, t, io) == O.Reply(b, O.Blocked);
    } else {
      var swept := ReserveEffect(b, capacity, t, used, io);
      hide O.Reserve, Reserving, Waiting, Turns, NoDuplicates, O.Inv, DistinctKeys;
    }
  }

  lemma FreshDistinct(used: set<Turn>, t: Turn)
    requires DistinctKeys(used) && forall u :: u in used ==> !O.SameKey(u, t)
    ensures DistinctKeys(used + {t}) && t !in used
  {}

  /** Promotion takes the row out of the reserved ones and its handler out of the owners. */
  lemma PromoteBalanced(b: O.Box, used: set<Turn>, captures: set<Turn>, handling: set<Turn>, keys: set<Turn>,
                        capacity: nat, t: Turn, io: O.Disk)
    requires Balanced(b, used, captures, handling, keys, capacity) && t in handling
    ensures var r := O.Promote(b, t, io);
            Balanced(r.box, used, captures, if r.verdict == O.Done then handling - {t} else handling, keys, capacity)
  {
    O.PromoteKeeps(b, capacity, t, io);
    if b.latched {
      assert O.Promote(b, t, io) == O.Reply(b, O.Blocked);
    } else {
      PromoteEffect(b, capacity, t, used, io);
      assert Waiting(O.Promote(b, t, io).box) == Waiting(b);
      hide O.Promote, Reserving, Waiting, Turns, NoDuplicates, O.Inv, DistinctKeys;
    }
  }

  lemma CompletedBalanced(b: O.Box, used: set<Turn>, captures: set<Turn>, handling: set<Turn>, keys: set<Turn>,
                          capacity: nat, t: Turn, io: O.Disk)
    requires Balanced(b, used, captures, handling, keys, capacity)
    ensures Balanced(O.RemoveDelivered(b, t, io).box, used, captures, handling, keys, capacity)
    ensures Balanced(O.MarkExpired(b, t, io).box, used, captures, handling, keys, capacity)
  {
    O.RemoveKeeps(b, capacity, t, io);
    O.ExpireKeeps(b, capacity, t, io);
    var b1, b2 := O.RemoveDelivered(b, t, io).box, O.MarkExpired(b, t, io).box;
    if b.latched {
      assert b1 == b && b2 == b;
    } else {
      CompletedEffect(b, capacity, t, io);
      assert Waiting(b1) == Waiting(b) && Waiting(b2) == Waiting(b);
      hide O.RemoveDelivered, O.MarkExpired, Reserving, Waiting, Turns, NoDuplicates, O.Inv, DistinctKeys;
    }
  }

  // ------------------------------------------------------- the set algebra

  /** Only the owners matter. */
  lemma SameOwners(w: World, w': World, capacity: nat)
    requires Owned(w, capacity) && w'.box == w.box && w'.used == w.used
    requires Exclusive(w') && Captures(w') == Captures(w)
    requires Handling(w') == Handling(w) && w'.running.Keys == w.running.Keys
    ensures Owned(w', capacity)
  {}

  lemma CaptureListed(w: World, s: SocketId)
    requires s in w.sockets && w.sockets[s].reservation.Some?
    ensures w.sockets[s].reservation.value in Captures(w)
  {}

  /** A socket that keeps its reservation, or a new one without any, changes no owner. */
  lemma PutSame(w: World, s: SocketId, k: Socket, capacity: nat)
    requires Owned(w, capacity)
    requires k.reservation == if s in w.sockets then w.sockets[s].reservation else None
    ensures Owned(Put(w, s, k), capacity) && Captures(Put(w, s, k)) == Captures(w)
  {
    var w' := Put(w, s, k);
    forall t ensures t in Captures(w') <==> t in Captures(w) {
      if t in Captures(w) {
        var r :| r in w.sockets && w.sockets[r].reservation == Some(t);
        assert w'.sockets[r].reservation == Some(t);
      }
      if t in Captures(w') {
        var r :| r in w'.sockets && w'.sockets[r].reservation == Some(t);
        assert w.sockets[r].reservation == Some(t);
      }
    }
    SameOwners(w, w', capacity);
  }

  /** A socket that lets its reservation go. */
  lemma PutWithout(w: World, s: SocketId, k: Socket)
    requires Exclusive(w) && s in w.sockets && w.sockets[s].reservation.Some? && k.reservation == None
    ensures Captures(Put(w, s, k)) == Captures(w) - {w.sockets[s].reservation.value}
    ensures Exclusive(Put(w, s, k))
  {
    var w', x := Put(w, s, k), w.sockets[s].reservation.value;
    forall t ensures t in Captures(w') <==> t in Captures(w) - {x} {
      if t in Captures(w) && t != x {
        var r :| r in w.sockets && w.sockets[r].reservation == Some(t);
        assert w'.sockets[r].reservation == Some(t);
      }
      if t in Captures(w') {
        var r :| r in w'.sockets && w'.sockets[r].reservation == Some(t);
        assert r != s && w.sockets[r].reservation == Some(t);
      }
    }
  }

  /** A socket that takes a reservation nobody has. */
  lemma PutWith(w: World, s: SocketId, k: Socket, x: Turn)
    requires Exclusive(w) && s in w.sockets && w.sockets[s].reservation == None && k.reservation == Some(x)
    requires x !in Captures(w)
    ensures Captures(Put(w, s, k)) == Captures(w) + {x} && Exclusive(Put(w, s, k))
  {
    var w' := Put(w, s, k);
    assert w'.sockets[s].reservation == Some(x);
    forall t ensures t in Captures(w') <==> t in Captures(w) + {x} {
      if t in Captures(w) {
        var r :| r in w.sockets && w.sockets[r].reservation == Some(t);
        assert w'.sockets[r].reservation == Some(t);
      }
      if t in Captures(w') && t != x {
        var r :| r in w'.sockets && w'.sockets[r].reservation == Some(t);
        assert r != s && w.sockets[r].reservation == Some(t);
      }
    }
    forall r | r in w.sockets && r != s ensures w.sockets[r].reservation != Some(x) {
      if w.sockets[r].reservation.Some? { CaptureListed(w, r); }
    }
  }

  lemma NoNewDuplicate(b: O.Box, t: Turn, io: O.Disk)
    requires NoDuplicates(b.cleanups)
    ensures NoDuplicates(O.CancelReservation(b, t, io).box.cleanups)
    ensures Waiting(O.CancelReservation(b, t, io).box) <= Waiting(b) + {t}
  {
    ForgetNoDuplicates(b.cleanups, t);
    if !(exists k :: 0 <= k < |b.cleanups| && O.SameKey(b.cleanups[k], t)) {
      var r := b.cleanups + [t];
      forall k | 0 <= k < |b.cleanups| ensures b.cleanups[k] != t {}
      assert NoDuplicates(r);
    }
  }

  lemma {:induction false} ForgetNoDuplicates(cleanups: seq<Turn>, t: Turn)
    requires NoDuplicates(cleanups)
    ensures NoDuplicates(O.Forget(cleanups, t))
  {
    if cleanups != [] {
      HeadRemoved(cleanups);
      ForgetNoDuplicates(cleanups[1..], t);
      var rest := O.Forget(cleanups[1..], t);
      forall k | 0 <= k < |rest| ensures rest[k] != cleanups[0] {
        assert rest[k] in rest && rest[k] in cleanups[1..];
        var j :| 0 <= j < |cleanups[1..]| && cleanups[1..][j] == rest[k];
        assert cleanups[j + 1] == rest[k];
      }
    }
  }

  // ---------------------------------------------------------- the primitives

  lemma DisarmKeeps(w: World, s: SocketId, capacity: nat, io: O.Disk)
    requires Owned(w, capacity) && s in w.sockets
    ensures Owned(Disarm(w, s, io), capacity)
  {
    var k := w.sockets[s];
    var k' := k.(token := None, validated := false, reservation := None, preparation := None);
    if k.reservation == None {
      PutSame(w, s, k', capacity);
    } else {
      var t := k.reservation.value;
      CaptureListed(w, s);
      PutWithout(w, s, k');
      var w' := Put(Return(w, t, io), s, k');
      assert Captures(w') == Captures(w) - {t} && Handling(w') == Handling(w);
      ExclusiveSame(Put(w, s, k'), w');
      HandlingKnown(w, capacity);
      ReturnBalanced(w.box, w.used, Captures(w), Handling(w), w.running.Keys, capacity, t, io);
      assert Handling(w) - {t} == Handling(w);
      hide Balanced, Captures, Handling, Exclusive, O.CancelReservation;
    }
  }

  lemma HandlingKnown(w: World, capacity: nat)
    requires Owned(w, capacity)
    ensures Handling(w) <= w.running.Keys && Captures(w) !! Handling(w)
  {}

  lemma ExclusiveSame(w: World, w': World)
    requires Exclusive(w) && w.sockets == w'.sockets
    ensures Exclusive(w')
  {}

  lemma StartKeeps(w: World, s: SocketId, capacity: nat)
    requires Owned(w, capacity) && s in w.sockets
    ensures Owned(StartTurn(w, s), capacity)
  {
    var k := w.sockets[s];
    if k.token == None || k.reservation == None {
      PutSame(w, s, StartTurn(w, s).sockets[s], capacity);
    } else {
      var x := k.reservation.value;
      CaptureListed(w, s);
      var w' := StartTurn(w, s);
      PutWithout(w, s, w'.sockets[s]);
      assert Captures(w') == Captures(w) - {x};
      assert Handling(w') == Handling(w) + {x};
      assert w'.running.Keys == w.running.Keys + {x};
      ExclusiveSame(Put(w, s, w'.sockets[s]), w');
      assert Balanced(w'.box, w'.used, Captures(w'), Handling(w'), w'.running.Keys, capacity) by {
        MoveOwner(w.box, w.used, Captures(w), Handling(w), w.running.Keys, capacity, x);
      }
      hide StartTurn, Captures, Handling, Exclusive, Balanced;
    }
  }

  /** A capture hands its reservation to a handler. */
  lemma MoveOwner(b: O.Box, used: set<Turn>, captures: set<Turn>, handling: set<Turn>, keys: set<Turn>, capacity: nat, x: Turn)
    requires Balanced(b, used, captures, handling, keys, capacity) && x in captures
    ensures Balanced(b, used, captures - {x}, handling + {x}, keys + {x}, capacity)
  {}

  /** A promoted turn owns no row any more, so its handler may go. */
  lemma DropKey(b: O.Box, used: set<Turn>, captures: set<Turn>, handling: set<Turn>, keys: set<Turn>, capacity: nat, x: Turn)
    requires Balanced(b, used, captures, handling, keys, capacity) && x !in handling
    ensures Balanced(b, used, captures, handling, keys - {x}, capacity)
  {}

  lemma FinallyKeeps(w: World, x: Turn, capacity: nat, io: O.Disk)
    requires Owned(w, capacity) && x in w.running && w.running[x].socket in w.sockets
    ensures Owned(Finally(w, x, io), capacity)
  {
    hide Owned, Return, Transition, Captures;
    var w1 := if w.running[x].promoted then w else Return(w, x, io);
    var w2 := w1.(running := w1.running - {x});
    GoneOwned(w, x, capacity, io);
    var s := w.running[x].socket;
    PutSame(w2, s, Finally(w, x, io).sockets[s], capacity);
    assert Put(w2, s, w2.sockets[s]) == w2;
  }

  lemma GoneOwned(w: World, x: Turn, capacity: nat, io: O.Disk)
    requires Owned(w, capacity) && x in w.running
    ensures var w1 := if w.running[x].promoted then w else Return(w, x, io);
            Owned(w1.(running := w1.running - {x}), capacity)
  {
    var w1 := if w.running[x].promoted then w else Return(w, x, io);
    var w2 := w1.(running := w1.running - {x});
    assert Captures(w2) == Captures(w) && Handling(w2) == Handling(w) - {x};
    assert w2.running.Keys == w.running.Keys - {x};
    ExclusiveSame(w, w2);
    HandlingKnown(w, capacity);
    if w.running[x].promoted {
      DropKey(w.box, w.used, Captures(w), Handling(w), w.running.Keys, capacity, x);
      assert Handling(w) - {x} == Handling(w);
    } else {
      ReturnBalanced(w.box, w.used, Captures(w), Handling(w), w.running.Keys, capacity, x, io);
      assert Captures(w) - {x} == Captures(w);
    }
    hide Balanced, Captures, Handling, Exclusive, O.CancelReservation;
  }
}
