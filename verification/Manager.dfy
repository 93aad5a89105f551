/** The room manager as it runs, one thread at a time: every method is proved to do to the ledger and the
    session pool what the corresponding steps of the lifetime protocol do when nobody interferes. */
module Manager {
  import opened Sessions
  import opened Inputs
  import opened Rooms
  import opened Lifetime

  // ---- Join -------------------------------------------------------------------------------

  datatype Place = Place(room: nat, seat: nat)
  datatype Option<T> = None | Some(value: T)

  /** The whole of the seat search: full and dead candidates are dropped from the open list, the last
      remaining one gives its lowest vacant seat, and with none left a room is opened. */
  function SeatFound(b: Book): (r: (Book, Option<Place>))
    requires forall n :: 0 <= n < |b.open| ==> b.open[n] < |b.rooms|
    requires forall n :: 0 <= n < |b.rooms| ==> |b.rooms[n].seatUsed| == SEATS
    requires forall n :: 0 <= n < |b.free| ==> b.free[n] < |b.rooms|
    requires 0 < |b.load| == |b.mail|
    ensures r.1.Some? ==> r.1.value.room < |r.0.rooms|
    ensures |r.0.rooms| == |b.rooms|
    decreases |b.open|
  {
    if b.open != [] then
      var r := b.open[|b.open| - 1];
      if Joinable(b.rooms[r]) then
        var i := FirstVacant(b.rooms[r].seatUsed);
        var room := TakeSeat(b.rooms[r], i);
        (b.(rooms := b.rooms[r := room],
            open := if room.reserved == SEATS then b.open[..|b.open| - 1] else b.open), Some(Place(r, i)))
      else SeatFound(b.(open := b.open[..|b.open| - 1]))
    else if b.free == [] then (b, None)
    else
      var r := b.free[|b.free| - 1];
      var w := LeastBusy(b.load, |b.load|);
      var c := Mailed(OpenSlot(b, w), w, r);
      var room := c.rooms[r];
      (c.(rooms := c.rooms[r := room.(seatUsed := room.seatUsed[0 := true], everReserved := true, reserved := 1)],
          open := c.open + [r]), Some(Place(r, 0)))
  }

  /** The book with a seat of the last open room taken. */
  function SeatReserved(b: Book): Book
    requires b.open != [] && Top(b.open) < |b.rooms| && |b.rooms[Top(b.open)].seatUsed| == SEATS
    requires Joinable(b.rooms[Top(b.open)])
  {
    var room := TakeSeat(b.rooms[Top(b.open)], FirstVacant(b.rooms[Top(b.open)].seatUsed));
    b.(rooms := b.rooms[Top(b.open) := room],
       open := if room.reserved == SEATS then b.open[..|b.open| - 1] else b.open)
  }

  lemma SeatCases(b: Book)
    requires Indexed(b) && b.open != []
    ensures var r := Top(b.open);
      if Joinable(b.rooms[r]) then SeatFound(b) == (SeatReserved(b), Some(Place(r, FirstVacant(b.rooms[r].seatUsed))))
      else Indexed(b.(open := b.open[..|b.open| - 1])) && SeatFound(b) == SeatFound(b.(open := b.open[..|b.open| - 1]))
  { }

  /** A session enters at a place: one more reference, a queued join entry, and its own room fields. */
  function EnteredAt(p: Pool, b: Book, s: nat, at: Place): (Pool, Book)
    requires Bounded(p) && s < |p.slots| && at.room < |b.rooms|
  {
    var q := AddRef(p, s);
    var room := b.rooms[at.room];
    (q.(slots := q.slots[s := q.slots[s].(inRoom := true, roomIdx := at.room, actor := at.seat)]),
     b.(rooms := b.rooms[at.room := room.(pendJ := room.pendJ + [JoinEntry(s, p.slots[s].gen, at.seat)])]))
  }

  /** Join by one thread, step by step, from the manager lock taken to the manager lock given back. */
  function JoinAlone(st: State, s: nat): State
    requires Shape(st) && IsScanning(st, s) && |st.workers| > 0
    decreases |st.book.open|
  {
    if st.book.open != [] then
      if Joinable(st.book.rooms[Candidate(st)]) then JoinDone(JoinPush(JoinRef(JoinReserve(st, s), s), s), s)
      else JoinAlone(JoinPrune(st, s), s)
    else if st.book.free == [] then JoinFail(st, s)
    else JoinDone(JoinPush(JoinRef(JoinFresh(JoinAlloc(st, s), s), s), s), s)
  }

  lemma {:induction false} JoinAloneIs(st: State, s: nat)
    requires Shape(st) && IsScanning(st, s) && |st.workers| > 0
    ensures var t := JoinAlone(st, s);
      var (b, at) := SeatFound(st.book);
      && t.lock.Unlocked?
      && (t.pool, t.book) == if at.Some? then EnteredAt(st.pool, b, s, at.value) else (st.pool, b)
    decreases |st.book.open|
  {
    if st.book.open != [] && !Joinable(st.book.rooms[Candidate(st)]) {
      JoinAloneIs(JoinPrune(st, s), s);
    }
  }

  // ---- Working off a room's queues --------------------------------------------------------

  predicate Entries(es: seq<JoinEntry>, sessions: nat) {
    forall k :: 0 <= k < |es| ==> es[k].sess < sessions && es[k].seat < SEATS
  }

  predicate Departures(es: seq<LeaveEntry>, sessions: nat) {
    forall k :: 0 <= k < |es| ==> es[k].sess < sessions
  }

  predicate FourSeats(room: Room) { |room.seatUsed| == SEATS == |room.members| }

  function JoinTaken(p: Pool, room: Room, e: JoinEntry): (r: (Pool, Room))
    requires Bounded(p) && e.sess < |p.slots| && e.seat < SEATS && FourSeats(room)
    ensures Bounded(r.0) && |r.0.slots| == |p.slots| && FourSeats(r.1)
  {
    if p.slots[e.sess].gen != e.gen || p.slots[e.sess].dead then (Release(p, e.sess), GiveSeat(room, e.seat))
    else (p, room.(members := room.members[e.seat := Seated(e.sess, e.gen)], memberCount := room.memberCount + 1))
  }

  function JoinsTaken(p: Pool, room: Room, es: seq<JoinEntry>): (r: (Pool, Room))
    requires Bounded(p) && Entries(es, |p.slots|) && FourSeats(room)
    ensures Bounded(r.0) && |r.0.slots| == |p.slots| && FourSeats(r.1)
    decreases |es|
  {
    if es == [] then (p, room)
    else
      var (q, next) := JoinTaken(p, room, es[0]);
      JoinsTaken(q, next, es[1..])
  }

  function LeaveTaken(p: Pool, room: Room, e: LeaveEntry): (r: (Pool, Room))
    requires Bounded(p) && e.sess < |p.slots| && FourSeats(room)
    ensures Bounded(r.0) && |r.0.slots| == |p.slots| && FourSeats(r.1)
  {
    var i := FindMember(room.members, e);
    if i < SEATS then (Release(p, e.sess), Vacate(room, i)) else (p, room)
  }

  function LeavesTaken(p: Pool, room: Room, es: seq<LeaveEntry>): (r: (Pool, Room))
    requires Bounded(p) && Departures(es, |p.slots|) && FourSeats(room)
    ensures Bounded(r.0) && |r.0.slots| == |p.slots| && FourSeats(r.1)
    decreases |es|
  {
    if es == [] then (p, room)
    else
      var (q, next) := LeaveTaken(p, room, es[0]);
      LeavesTaken(q, next, es[1..])
  }

  /** Joins first, then leaves. */
  function QueuesTaken(p: Pool, room: Room): (r: (Pool, Room))
    requires Bounded(p) && FourSeats(room) && Entries(room.pendJ, |p.slots|) && Departures(room.pendL, |p.slots|)
    ensures Bounded(r.0) && |r.0.slots| == |p.slots| && FourSeats(r.1)
  {
    var (q, joined) := JoinsTaken(p, room.(pendJ := [], pendL := []), room.pendJ);
    LeavesTaken(q, joined, room.pendL)
  }

  function Processed(p: Pool, b: Book, r: nat): (Pool, Book, bool)
    requires Bounded(p) && r < |b.rooms| && b.rooms[r].worker < |b.load| && FourSeats(b.rooms[r])
    requires Entries(b.rooms[r].pendJ, |p.slots|) && Departures(b.rooms[r].pendL, |p.slots|)
  {
    var (q, room) := QueuesTaken(p, b.rooms[r]);
    QueuesKeepWorker(p, b.rooms[r]);
    if Empty(room) then (q, FreeSlot(WithRoom(b, r, room.(dead := true)), r), true)
    else (q, WithRoom(b, r, room), false)
  }

  lemma {:induction false} JoinsKeepWorker(p: Pool, room: Room, es: seq<JoinEntry>)
    requires Bounded(p) && Entries(es, |p.slots|) && FourSeats(room)
    ensures JoinsTaken(p, room, es).1.worker == room.worker
    decreases |es|
  {
    if es != [] {
      var (q, next) := JoinTaken(p, room, es[0]);
      JoinsKeepWorker(q, next, es[1..]);
    }
  }

  lemma {:induction false} LeavesKeepWorker(p: Pool, room: Room, es: seq<LeaveEntry>)
    requires Bounded(p) && Departures(es, |p.slots|) && FourSeats(room)
    ensures LeavesTaken(p, room, es).1.worker == room.worker
    decreases |es|
  {
    if es != [] {
      var (q, next) := LeaveTaken(p, room, es[0]);
      LeavesKeepWorker(q, next, es[1..]);
    }
  }

  lemma QueuesKeepWorker(p: Pool, room: Room)
    requires Bounded(p) && FourSeats(room) && Entries(room.pendJ, |p.slots|) && Departures(room.pendL, |p.slots|)
    ensures QueuesTaken(p, room).1.worker == room.worker
  {
    var (q, joined) := JoinsTaken(p, room.(pendJ := [], pendL := []), room.pendJ);
    JoinsKeepWorker(p, room.(pendJ := [], pendL := []), room.pendJ);
    LeavesKeepWorker(q, joined, room.pendL);
  }

  // ---- What the methods need of a well-formed ledger --------------------------------------

  predicate Indexed(b: Book) {
    && 0 < |b.load| == |b.mail|
    && (forall n :: 0 <= n < |b.free| ==> b.free[n] < |b.rooms|)
    && (forall n :: 0 <= n < |b.open| ==> b.open[n] < |b.rooms|)
    && (forall n :: 0 <= n < |b.rooms| ==> FourSeats(b.rooms[n]) && b.rooms[n].worker < |b.load|)
  }

  lemma ShapeIsIndexed(b: Book, sessions: nat)
    requires BookShape(b, sessions) && |b.load| > 0
    ensures Indexed(b)
    ensures forall n :: 0 <= n < |b.rooms| ==>
      Entries(b.rooms[n].pendJ, sessions) && Departures(b.rooms[n].pendL, sessions)
  { }

  lemma OpenKeepsShape(b: Book, w: nat, sessions: nat)
    requires BookShape(b, sessions) && b.free != [] && w < |b.load|
    ensures b.free[|b.free| - 1] < |b.rooms| && BookShape(OpenSlot(b, w), sessions)
  { }

  lemma {:induction false} SeatKeepsShape(b: Book, sessions: nat)
    requires BookShape(b, sessions) && |b.load| > 0
    ensures Indexed(b) && BookShape(SeatFound(b).0, sessions)
    decreases |b.open|
  {
    ShapeIsIndexed(b, sessions);
    if b.open != [] && !Joinable(b.rooms[b.open[|b.open| - 1]]) {
      SeatKeepsShape(b.(open := b.open[..|b.open| - 1]), sessions);
    } else if b.open == [] && b.free != [] {
      OpenKeepsShape(b, LeastBusy(b.load, |b.load|), sessions);
    }
  }

  // ---- The manager ------------------------------------------------------------------------

  class RoomManager {
    const rooms: array<Room>
    var freeRooms: seq<nat>
    var openRooms: seq<nat>
    const load: array<int>
    const mail: array<seq<nat>>

    ghost function View(): Book
      reads this, rooms, load, mail
    {
      Book(rooms[..], freeRooms, openRooms, load[..], mail[..])
    }

    ghost predicate Valid()
      reads this, rooms, load, mail
    {
      Indexed(View())
    }

    method LeastLoaded() returns (best: nat)
      requires load.Length > 0
      ensures best < load.Length && best == LeastBusy(load[..], load.Length)
    {
      best := 0;
      for w := 1 to load.Length
        invariant best == LeastBusy(load[..], w)
      {
        if load[w] < load[best] {
          best := w;
        }
      }
    }

    /** Takes a room slot off the free list and resets it, for a given worker or for the least busy one, who
        is told by mail. */
    method AllocRoomSlot(worker: nat, useMailbox: bool) returns (r: Option<nat>)
      requires Valid() && worker < load.Length
      modifies this`freeRooms, rooms, load, mail
      ensures r.None? <==> old(freeRooms) == []
      ensures r.None? ==> View() == old(View())
      ensures r.Some? ==> r.value == old(freeRooms)[|old(freeRooms)| - 1] && r.value < rooms.Length
      ensures r.Some? ==> View() == Allocated(old(View()), worker, useMailbox)
    {
      if freeRooms == [] {
        return None;
      }
      var idx := freeRooms[|freeRooms| - 1];
      var best := worker;
      if useMailbox {
        best := LeastLoaded();
      }
      ghost var b := View();
      hide Indexed, LeastBusy;
      freeRooms := freeRooms[..|freeRooms| - 1];
      rooms[idx] := FreshRoom(rooms[idx], best);
      load[best] := load[best] + 1;
      assert View() == OpenSlot(b, best);
      if useMailbox {
        mail[best] := mail[best] + [idx];
        assert View() == Mailed(OpenSlot(b, best), best, idx);
      }
      return Some(idx);
    }

    method VacantSeat(room: Room) returns (seat: nat)
      requires FourSeats(room)
      ensures seat == FirstVacant(room.seatUsed)
    {
      seat := 0;
      while seat < SEATS && room.seatUsed[seat]
        invariant seat <= SEATS && forall j :: 0 <= j < seat ==> room.seatUsed[j]
      {
        seat := seat + 1;
      }
    }

    /** Takes the seat, and the room off the open list if that was the last one. */
    method ReserveLast(cand: nat, seat: nat)
      requires Valid() && openRooms != [] && cand == Top(openRooms) && Joinable(rooms[cand])
      requires seat == FirstVacant(rooms[cand].seatUsed)
      modifies this`openRooms, rooms
      ensures Valid() && View() == SeatReserved(old(View()))
    {
      rooms[cand] := TakeSeat(rooms[cand], seat);
      if rooms[cand].reserved == SEATS {
        openRooms := openRooms[..|openRooms| - 1];
      }
    }

    /** Drops dead and full rooms off the end of the open list until a room has a vacant seat. */
    method PruneOpen() returns (at: Option<Place>)
      requires Valid()
      modifies this`openRooms, rooms
      ensures Valid()
      ensures at.Some? ==> (View(), at) == SeatFound(old(View()))
      ensures at.None? ==> openRooms == [] && SeatFound(View()) == SeatFound(old(View()))
    {
      while openRooms != []
        invariant Valid()
        invariant SeatFound(View()) == SeatFound(old(View()))
        decreases |openRooms|
      {
        hide SeatFound, FirstVacant, SeatReserved;
        ghost var b := View();
        SeatCases(b);
        var cand := openRooms[|openRooms| - 1];
        var room := rooms[cand];
        var seat := VacantSeat(room);
        if !room.dead && seat < SEATS {
          ReserveLast(cand, seat);
          return Some(Place(cand, seat));
        }
        openRooms := openRooms[..|openRooms| - 1];
        assert View() == b.(open := b.open[..|b.open| - 1]);
      }
      return None;
    }

    /** Finding a seat under the manager lock. */
    method FindSeat() returns (at: Option<Place>)
      requires Valid()
      modifies this`freeRooms, this`openRooms, rooms, load, mail
      ensures (View(), at) == SeatFound(old(View()))
    {
      at := PruneOpen();
      if at.Some? {
        return;
      }
      ghost var b := View();
      var r := AllocRoomSlot(0, true);
      if r.None? {
        return;
      }
      var room := rooms[r.value];
      rooms[r.value] := room.(seatUsed := room.seatUsed[0 := true], everReserved := true, reserved := 1);
      openRooms := openRooms + [r.value];
      at := Some(Place(r.value, 0));
    }

    /** A session joins a room, or finds no place. */
    method Join(pool: SessionPool, s: nat) returns (at: Option<Place>)
      requires Valid() && pool.Valid() && s < pool.slots.Length
      modifies this`freeRooms, this`openRooms, rooms, load, mail, pool.slots
      ensures at == SeatFound(old(View())).1
      ensures (pool.View(), View()) == Joined(old(pool.View()), old(View()), s)
    {
      ghost var p := pool.View();
      at := FindSeat();
      if at.None? {
        return;
      }
      ghost var b := View();
      var r := at.value.room;
      var room := rooms[r];
      rooms[r] := room.(pendJ := room.pendJ + [JoinEntry(s, pool.slots[s].gen, at.value.seat)]);
      pool.AddReference(s);
      pool.slots[s] := pool.slots[s].(inRoom := true, roomIdx := r, actor := at.value.seat);
      assert pool.View() == EnteredAt(p, b, s, at.value).0;
      assert View() == EnteredAt(p, b, s, at.value).1;
    }

    /** A disconnecting session leaves its entry in the room it believes it is in. */
    method OnSessionLeave(pool: SessionPool, s: nat)
      requires Valid() && s < pool.slots.Length
      modifies rooms, pool.slots
      ensures (pool.View(), View()) == LeftBy(old(pool.View()), old(View()), s)
    {
      ghost var p, b := pool.View(), View();
      var r := pool.slots[s].roomIdx;
      if !pool.slots[s].inRoom || r >= rooms.Length {
        return;
      }
      pool.slots[s] := pool.slots[s].(inRoom := false);
      rooms[r] := rooms[r].(pendL := rooms[r].pendL + [LeaveEntry(s, pool.slots[s].gen)]);
      assert pool.View() == LeftBy(p, b, s).0 && View() == LeftBy(p, b, s).1;
    }

    method TakeJoin(pool: SessionPool, room: Room, e: JoinEntry) returns (next: Room)
      requires pool.Valid() && FourSeats(room) && e.sess < pool.slots.Length && e.seat < SEATS
      modifies pool`free, pool.slots
      ensures pool.Valid() && (pool.View(), next) == JoinTaken(old(pool.View()), room, e)
    {
      next := room;
      if pool.slots[e.sess].gen != e.gen || pool.slots[e.sess].dead {
        next := next.(seatUsed := next.seatUsed[e.seat := false], reserved := next.reserved - 1);
        pool.ReleaseReference(e.sess);
      } else {
        next := next.(members := next.members[e.seat := Seated(e.sess, e.gen)], memberCount := next.memberCount + 1);
      }
    }

    method TakeJoins(pool: SessionPool, r: nat, joins: seq<JoinEntry>)
      requires pool.Valid() && r < rooms.Length && FourSeats(rooms[r]) && Entries(joins, pool.slots.Length)
      modifies rooms, pool`free, pool.slots
      ensures pool.Valid() && rooms[..] == old(rooms[..])[r := rooms[r]]
      ensures (pool.View(), rooms[r]) == JoinsTaken(old(pool.View()), old(rooms[r]), joins)
    {
      hide JoinTaken;
      for k := 0 to |joins|
        invariant pool.Valid() && FourSeats(rooms[r])
        invariant rooms[..] == old(rooms[..])[r := rooms[r]]
        invariant JoinsTaken(pool.View(), rooms[r], joins[k..]) == JoinsTaken(old(pool.View()), old(rooms[r]), joins)
      {
        assert joins[k..][0] == joins[k] && joins[k..][1..] == joins[k + 1..];
        var next := TakeJoin(pool, rooms[r], joins[k]);
        rooms[r] := next;
      }
      assert joins[|joins|..] == [];
    }

    method TakeLeave(pool: SessionPool, room: Room, e: LeaveEntry) returns (next: Room)
      requires pool.Valid() && FourSeats(room) && e.sess < pool.slots.Length
      modifies pool`free, pool.slots
      ensures pool.Valid() && (pool.View(), next) == LeaveTaken(old(pool.View()), room, e)
    {
      next := room;
      var i := 0;
      while i < SEATS && !(room.members[i].used && room.members[i].sess == e.sess && room.members[i].gen == e.gen)
        invariant i <= SEATS
        invariant forall j :: 0 <= j < i ==>
          !(room.members[j].used && room.members[j].sess == e.sess && room.members[j].gen == e.gen)
      {
        i := i + 1;
      }
      assert i == FindMember(room.members, e);
      if i < SEATS {
        var m := next.members[i].(used := false);
        next := next.(members := next.members[i := m], memberCount := next.memberCount - 1);
        next := next.(seatUsed := next.seatUsed[i := false], reserved := next.reserved - 1);
        pool.ReleaseReference(e.sess);
      }
    }

    method TakeLeaves(pool: SessionPool, r: nat, leaves: seq<LeaveEntry>)
      requires pool.Valid() && r < rooms.Length && FourSeats(rooms[r]) && Departures(leaves, pool.slots.Length)
      modifies rooms, pool`free, pool.slots
      ensures pool.Valid() && rooms[..] == old(rooms[..])[r := rooms[r]]
      ensures (pool.View(), rooms[r]) == LeavesTaken(old(pool.View()), old(rooms[r]), leaves)
    {
      hide LeaveTaken;
      for k := 0 to |leaves|
        invariant pool.Valid() && FourSeats(rooms[r])
        invariant rooms[..] == old(rooms[..])[r := rooms[r]]
        invariant LeavesTaken(pool.View(), rooms[r], leaves[k..])
               == LeavesTaken(old(pool.View()), old(rooms[r]), leaves)
      {
        assert leaves[k..][0] == leaves[k] && leaves[k..][1..] == leaves[k + 1..];
        var next := TakeLeave(pool, rooms[r], leaves[k]);
        rooms[r] := next;
      }
      assert leaves[|leaves|..] == [];
    }

    /** Removal from the open list: the last entry takes the place of the one removed. */
    method CloseRoom(r: nat)
      modifies this`openRooms
      ensures openRooms == SwapRemove(old(openRooms), r)
    {
      for i := 0 to |openRooms|
        invariant openRooms == old(openRooms)
        invariant SwapRemove(openRooms, r) == SwapRemove(openRooms, r, i)
      {
        if openRooms[i] == r {
          openRooms := openRooms[i := openRooms[|openRooms| - 1]];
          openRooms := openRooms[..|openRooms| - 1];
          return;
        }
      }
    }

    /** Both queues of a room, joins first. */
    method TakeQueues(pool: SessionPool, r: nat)
      requires pool.Valid() && r < rooms.Length && FourSeats(rooms[r])
      requires Entries(rooms[r].pendJ, pool.slots.Length) && Departures(rooms[r].pendL, pool.slots.Length)
      modifies rooms, pool`free, pool.slots
      ensures pool.Valid() && rooms[..] == old(rooms[..])[r := rooms[r]]
      ensures (pool.View(), rooms[r]) == QueuesTaken(old(pool.View()), old(rooms[r]))
    {
      hide JoinsTaken, LeavesTaken;
      var joins, leaves := rooms[r].pendJ, rooms[r].pendL;
      rooms[r] := rooms[r].(pendJ := [], pendL := []);
      TakeJoins(pool, r, joins);
      TakeLeaves(pool, r, leaves);
    }

    /** Back on the free list, under the manager lock. */
    method FreeRoom(r: nat)
      requires r < rooms.Length && rooms[r].worker < load.Length
      modifies this`freeRooms, this`openRooms, rooms, load
      ensures View() == FreeSlot(old(View()), r)
    {
      ghost var b := View();
      var w := rooms[r].worker;
      load[w] := load[w] - 1;
      CloseRoom(r);
      rooms[r] := rooms[r].(gen := rooms[r].gen + 1);
      freeRooms := freeRooms + [r];
      assert View().rooms == FreeSlot(b, r).rooms && View().load == FreeSlot(b, r).load;
    }

    /** One worker works off a room's queues; the room is freed if nobody is left. */
    method ProcessRoomQueues(pool: SessionPool, r: nat) returns (died: bool)
      requires Valid() && pool.Valid() && r < rooms.Length
      requires Entries(rooms[r].pendJ, pool.slots.Length) && Departures(rooms[r].pendL, pool.slots.Length)
      modifies this`freeRooms, this`openRooms, rooms, load, pool`free, pool.slots
      ensures (pool.View(), View(), died) == Processed(old(pool.View()), old(View()), r)
    {
      hide QueuesTaken, FreeSlot, Indexed;
      ghost var b, p := View(), pool.View();
      assert FourSeats(rooms[r]) && rooms[r].worker < load.Length by { OneIndexed(b, r); }
      TakeQueues(pool, r);
      QueuesKeepWorker(p, b.rooms[r]);
      assert View() == WithRoom(b, r, rooms[r]);
      var room := rooms[r];
      died := !room.dead && room.everReserved && room.reserved == 0 && room.pendJ == [];
      if died {
        rooms[r] := room.(dead := true);
        assert View() == WithRoom(b, r, room.(dead := true));
        FreeRoom(r);
      }
    }

    /** A moved session learns its new room number, if it is still the one named. */
    method Rehome(pool: SessionPool, s: nat, g: nat, r: nat)
      modifies pool.slots
      ensures pool.slots[..] == Lifetime.Rehome(old(pool.slots[..]), [(s, g)], r)
    {
      if s < pool.slots.Length && pool.slots[s].gen == g {
        pool.slots[s] := pool.slots[s].(roomIdx := r);
      }
    }

    /** Members move to the same seats with their rings and held inputs. */
    method MoveMembers(pool: SessionPool, ms: seq<Member>, to: nat)
      returns (left: seq<Member>, arrived: seq<Member>, moved: nat)
      requires |ms| == SEATS
      modifies pool.slots
      ensures left == Emptied(ms) && arrived == MovedMembers(ms) && moved == MembersUsed(ms)
      ensures pool.slots[..] == Lifetime.Rehome(old(pool.slots[..]), MemberTags(ms), to)
    {
      hide Lifetime.Rehome;
      left, arrived, moved := ms, NO_MEMBERS, 0;
      assert ms[0..] == ms;
      for i := 0 to SEATS
        invariant HalfMoved(ms, left, arrived, i) && moved == UsedBelow(ms, i)
        invariant Lifetime.Rehome(pool.slots[..], MemberTags(ms[i..]), to)
               == Lifetime.Rehome(old(pool.slots[..]), MemberTags(ms), to)
      {
        var m := left[i];
        assert ms[i..][0] == m && ms[i..][1..] == ms[i + 1..];
        if m.used {
          arrived := arrived[i := m];
          left := left[i := m.(used := false)];
          moved := moved + 1;
          RehomeFirst(pool.slots[..], (m.sess, m.gen), MemberTags(ms[i + 1..]), to);
          Rehome(pool, m.sess, m.gen, to);
        } else {
          assert [] + MemberTags(ms[i + 1..]) == MemberTags(ms[i + 1..]);
        }
      }
      assert ms[SEATS..] == [];
      RehomeNone(pool.slots[..], to);
      AllMoved(ms, left, arrived);
    }

    /** Seats of the members that moved. */
    method SeatMembers(room0: Room) returns (room: Room)
      requires FourSeats(room0) && room0.seatUsed == NO_SEATS && room0.reserved == 0
      ensures var seats := MemberSeats(room0.members);
        room == room0.(everReserved := true, seatUsed := seats, reserved := SeatsTaken(seats))
    {
      room := room0.(everReserved := true);
      for i := 0 to SEATS
        invariant room == room0.(everReserved := true, seatUsed := room.seatUsed, reserved := room.reserved)
        invariant |room.seatUsed| == SEATS && room.reserved == SeatsTaken(room.seatUsed)
        invariant forall k :: 0 <= k < SEATS ==> room.seatUsed[k] == (k < i && room.members[k].used)
      {
        if room.members[i].used {
          SeatFlips(room.seatUsed, i);
          room := room.(seatUsed := room.seatUsed[i := true], reserved := room.reserved + 1);
        }
      }
      assert room.seatUsed == MemberSeats(room.members);
    }

    /** Carried join entries bring their seats along and are queued again. */
    method CarryJoins(pool: SessionPool, room0: Room, joins: seq<JoinEntry>, to: nat) returns (room: Room)
      requires FourSeats(room0) && Entries(joins, pool.slots.Length)
      requires room0.reserved == SeatsTaken(room0.seatUsed) && room0.pendJ == []
      modifies pool.slots
      ensures var seats := CarrySeats(room0.seatUsed, joins);
        room == room0.(seatUsed := seats, reserved := SeatsTaken(seats), pendJ := joins)
      ensures pool.slots[..] == Lifetime.Rehome(old(pool.slots[..]), JoinTags(joins), to)
    {
      hide Lifetime.Rehome;
      room := room0;
      assert joins[0..] == joins && joins[..0] == [];
      for k := 0 to |joins|
        invariant room == room0.(seatUsed := room.seatUsed, reserved := room.reserved, pendJ := joins[..k])
        invariant |room.seatUsed| == SEATS && room.reserved == SeatsTaken(room.seatUsed)
        invariant CarrySeats(room.seatUsed, joins[k..]) == CarrySeats(room0.seatUsed, joins)
        invariant Lifetime.Rehome(pool.slots[..], JoinTags(joins[k..]), to)
               == Lifetime.Rehome(old(pool.slots[..]), JoinTags(joins), to)
      {
        var e := joins[k];
        assert joins[k..][0] == e && joins[k..][1..] == joins[k + 1..] && joins[..k + 1] == joins[..k] + [e];
        if !room.seatUsed[e.seat] {
          SeatFlips(room.seatUsed, e.seat);
          room := room.(seatUsed := room.seatUsed[e.seat := true], reserved := room.reserved + 1);
        } else {
          assert room.seatUsed[e.seat := true] == room.seatUsed;
        }
        room := room.(pendJ := room.pendJ + [e]);
        RehomeFirst(pool.slots[..], (e.sess, e.gen), JoinTags(joins[k + 1..]), to);
        Rehome(pool, e.sess, e.gen, to);
      }
      assert joins[|joins|..] == [] && joins[..|joins|] == joins;
      RehomeNone(pool.slots[..], to);
    }

    /** The new room opens if it has a vacant seat, and the old slot goes back to the free list. */
    method CloseTransfer(r: nat, nr: nat, worker: nat)
      requires r < rooms.Length && nr < rooms.Length && worker < load.Length
      modifies this`freeRooms, this`openRooms, rooms, load
      ensures View() == Book(old(rooms[..])[r := old(rooms[r]).(gen := old(rooms[r]).gen + 1)],
        old(freeRooms) + [r],
        SwapRemove(old(openRooms), r) + (if old(rooms[nr]).reserved < SEATS then [nr] else []),
        old(load[..])[worker := old(load[worker]) - 1], old(mail[..]))
    {
      ghost var open := openRooms;
      CloseRoom(r);
      if rooms[nr].reserved < SEATS {
        openRooms := openRooms + [nr];
      } else {
        assert SwapRemove(open, r) + [] == SwapRemove(open, r);
      }
      load[worker] := load[worker] - 1;
      rooms[r] := rooms[r].(gen := rooms[r].gen + 1);
      freeRooms := freeRooms + [r];
    }

    /** Everything in a room moves to a freshly reset one. */
    method Rebuild(pool: SessionPool, r: nat, nr: nat)
      requires r < rooms.Length && nr < rooms.Length && r != nr && pool.Valid()
      requires FourSeats(rooms[r]) && Entries(rooms[r].pendJ, pool.slots.Length)
      requires IsReset(rooms[nr])
      modifies rooms, pool.slots
      ensures rooms[..] == old(rooms[..])[r := MovedAway(old(rooms[r]))][nr := MovedIn(old(rooms[nr]), old(rooms[r]))]
      ensures pool.View() == RehomedPool(old(pool.View()), old(rooms[r]), nr)
    {
      hide Lifetime.Rehome, MovedMembers, Emptied, CarrySeats, MemberTags, JoinTags;
      var was, fresh0 := rooms[r], rooms[nr];
      ghost var slots := pool.slots[..];
      var left, arrived, moved := MoveMembers(pool, was.members, nr);
      UsedSame(was.members);
      rooms[r] := was.(dead := true, pendJ := [], pendL := [], seatUsed := NO_SEATS, reserved := 0,
                       members := left, memberCount := 0);
      var room := SeatMembers(fresh0.(members := arrived));
      room := CarryJoins(pool, room, was.pendJ, nr);
      RehomeBoth(slots, MemberTags(was.members), JoinTags(was.pendJ), nr);
      rooms[nr] := room.(pendL := was.pendL, memberCount := moved);
      assert rooms[nr] == MovedIn(fresh0, was);
    }

    /** Takes a room slot and moves everything there; the ledger is not settled yet. */
    method AllocAndRebuild(pool: SessionPool, r: nat) returns (to: Option<nat>)
      requires Valid() && pool.Valid() && r < rooms.Length && r !in freeRooms
      requires Entries(rooms[r].pendJ, pool.slots.Length)
      modifies this`freeRooms, rooms, load, mail, pool.slots
      ensures to.None? <==> old(freeRooms) == []
      ensures to.None? ==> View() == old(View()) && pool.View() == old(pool.View())
      ensures to.Some? ==> to.value == old(freeRooms)[|old(freeRooms)| - 1] && to.value < rooms.Length && to.value != r
      ensures to.Some? ==> FourSeats(old(rooms[r])) && View() == Unsettled(old(View()), r)
      ensures to.Some? ==> pool.View() == RehomedPool(old(pool.View()), old(rooms[r]), to.value)
    {
      ghost var b := View();
      var worker := rooms[r].worker;
      OneIndexed(b, r);
      to := AllocRoomSlot(worker, false);
      if to.None? {
        return;
      }
      assert to.value in b.free;
      hide MovedIn, MovedAway, RehomedPool, Indexed, FreshRoom;
      ResetIs(b.rooms[to.value], worker);
      Rebuild(pool, r, to.value);
    }

    /** The room's members, queues and seats move to a room slot off the free list; the old slot is freed. */
    method TransferRoom(pool: SessionPool, r: nat) returns (to: Option<nat>)
      requires Valid() && pool.Valid() && r < rooms.Length && r !in freeRooms
      requires Entries(rooms[r].pendJ, pool.slots.Length)
      modifies this`freeRooms, this`openRooms, rooms, load, mail, pool.slots
      ensures to.None? <==> old(freeRooms) == []
      ensures to.None? ==> View() == old(View()) && pool.View() == old(pool.View())
      ensures to.Some? ==> to.value == old(freeRooms)[|old(freeRooms)| - 1]
      ensures to.Some? ==> View() == MoveBook(old(View()), r)
      ensures to.Some? ==> pool.View() == RehomedPool(old(pool.View()), old(rooms[r]), to.value)
    {
      hide MovedIn, MovedAway, MovedOut, RehomedPool, MoveBook, FreshRoom, SwapRemove;
      ghost var b := View();
      var worker := rooms[r].worker;
      OneIndexed(b, r);
      to := AllocAndRebuild(pool, r);
      if to.None? {
        return;
      }
      hide Indexed;
      CloseTransfer(r, to.value, worker);
      Settled(b, r, View());
    }
  }

  predicate IsReset(room: Room) {
    && room.members == NO_MEMBERS && room.seatUsed == NO_SEATS && room.reserved == 0
    && room.pendJ == [] && room.pendL == []
  }

  lemma ResetIs(room: Room, worker: nat)
    ensures IsReset(FreshRoom(room, worker))
  { }

  /** The old room before its slot ages. */
  function MovedAway(was: Room): Room
    requires |was.members| == SEATS
  {
    was.(dead := true, pendJ := [], pendL := [], seatUsed := NO_SEATS, reserved := 0,
         members := Emptied(was.members), memberCount := 0)
  }

  predicate CanMoveOut(b: Book, r: nat) {
    && r < |b.rooms| && |b.rooms[r].members| == SEATS && b.rooms[r].worker < |b.load|
    && b.free != [] && Top(b.free) < |b.rooms| && Top(b.free) != r
  }

  /** The ledger in the middle of a transfer: everything has moved, nothing is booked yet. */
  function Unsettled(b: Book, r: nat): Book
    requires CanMoveOut(b, r)
  {
    var was, nr := b.rooms[r], Top(b.free);
    var reset := FreshRoom(b.rooms[nr], was.worker);
    b.(rooms := b.rooms[nr := reset][r := MovedAway(was)][nr := MovedIn(reset, was)],
       free := b.free[..|b.free| - 1],
       load := b.load[was.worker := b.load[was.worker] + 1])
  }

  lemma Settled(b: Book, r: nat, d: Book)
    requires CanMoveOut(b, r)
    requires var w, nr, c := b.rooms[r].worker, Top(b.free), Unsettled(b, r);
      d == Book(c.rooms[r := c.rooms[r].(gen := c.rooms[r].gen + 1)], c.free + [r],
                SwapRemove(c.open, r) + (if c.rooms[nr].reserved < SEATS then [nr] else []),
                c.load[w := c.load[w] - 1], c.mail)
    ensures d == MoveBook(b, r)
  {
    hide MovedIn, FreshRoom, MoveBook;
    MoveBookIs(b, r);
    MovedOutIs(b.rooms[r]);
    assert SwapRemove(b.open, r) + [] == SwapRemove(b.open, r);
  }

  function RehomedPool(p: Pool, room: Room, to: nat): Pool {
    p.(slots := Lifetime.Rehome(p.slots, MemberTags(room.members) + JoinTags(room.pendJ), to))
  }

  lemma MovedOutIs(was: Room)
    requires |was.members| == SEATS
    ensures MovedAway(was).(gen := was.gen + 1) == MovedOut(was)
  { }

  lemma AllMoved(ms: seq<Member>, left: seq<Member>, arrived: seq<Member>)
    requires HalfMoved(ms, left, arrived, SEATS)
    ensures left == Emptied(ms) && arrived == MovedMembers(ms) && UsedBelow(ms, SEATS) == MembersUsed(ms)
  {
    assert UsedBelow(ms, 4) == UsedBelow(ms, 3) + Bit(ms[3].used);
    assert UsedBelow(ms, 2) == UsedBelow(ms, 1) + Bit(ms[1].used) && UsedBelow(ms, 0) == 0;
  }

  /** The old room's members after everybody has moved out. */
  function Emptied(ms: seq<Member>): (r: seq<Member>)
    requires |ms| == SEATS
    ensures |r| == SEATS
  {
    seq(SEATS, i requires 0 <= i < SEATS => ms[i].(used := false))
  }

  predicate HalfMoved(ms: seq<Member>, left: seq<Member>, arrived: seq<Member>, i: nat) {
    && |ms| == SEATS == |left| == |arrived|
    && (forall k :: 0 <= k < SEATS ==> left[k] == if k < i then ms[k].(used := false) else ms[k])
    && (forall k :: 0 <= k < SEATS ==> arrived[k] == if k < i && ms[k].used then ms[k] else VACANT)
  }

  function UsedBelow(ms: seq<Member>, i: nat): nat
    requires |ms| == SEATS && i <= SEATS
  {
    if i == 0 then 0 else UsedBelow(ms, i - 1) + Bit(ms[i - 1].used)
  }

  lemma SeatFlips(seats: seq<bool>, i: nat)
    requires |seats| == SEATS && i < SEATS && !seats[i]
    ensures SeatsTaken(seats[i := true]) == SeatsTaken(seats) + 1
  { }

  lemma RehomeFirst(slots: seq<Slot>, tag: (nat, nat), rest: seq<(nat, nat)>, r: nat)
    ensures Lifetime.Rehome(slots, [tag] + rest, r) == Lifetime.Rehome(Lifetime.Rehome(slots, [tag], r), rest, r)
  {
    assert ([tag] + rest)[1..] == rest && [tag][1..] == [];
  }

  lemma RehomeNone(slots: seq<Slot>, r: nat)
    ensures Lifetime.Rehome(slots, [], r) == slots
  { }

  lemma {:induction false} RehomeBoth(slots: seq<Slot>, a: seq<(nat, nat)>, b: seq<(nat, nat)>, r: nat)
    ensures Lifetime.Rehome(slots, a + b, r) == Lifetime.Rehome(Lifetime.Rehome(slots, a, r), b, r)
    decreases |a|
  {
    if a == [] {
      assert a + b == b;
    } else {
      assert (a + b)[1..] == a[1..] + b && (a + b)[0] == a[0];
      var (s, g) := a[0];
      var next := if s < |slots| && slots[s].gen == g then slots[s := slots[s].(roomIdx := r)] else slots;
      RehomeBoth(next, a[1..], b, r);
    }
  }

  /** Moving keeps who is used. */
  lemma UsedSame(ms: seq<Member>)
    requires |ms| == SEATS
    ensures MemberSeats(MovedMembers(ms)) == MemberSeats(ms)
  { }

  lemma MoveBookIs(b: Book, r: nat)
    requires r < |b.rooms| && |b.rooms[r].members| == SEATS && b.rooms[r].worker < |b.load|
    requires b.free != [] && b.free[|b.free| - 1] < |b.rooms| && b.free[|b.free| - 1] != r
    ensures var t, nr, was := MoveBook(b, r), b.free[|b.free| - 1], b.rooms[r];
      var moved := MovedIn(FreshRoom(b.rooms[nr], was.worker), was);
      && t.rooms == b.rooms[nr := moved][r := MovedOut(was)] && t.mail == b.mail
      && t.free == b.free[..|b.free| - 1] + [r]
      && t.open == (if moved.reserved < SEATS then SwapRemove(b.open, r) + [nr] else SwapRemove(b.open, r))
      && t.load == b.load[was.worker := b.load[was.worker] + 1][was.worker := b.load[was.worker] + 1 - 1]
      && MovedOut(was).members == Emptied(was.members)
  { }

  lemma OneIndexed(b: Book, r: nat)
    requires Indexed(b) && r < |b.rooms|
    ensures FourSeats(b.rooms[r]) && b.rooms[r].worker < |b.load|
  { }

  function Allocated(b: Book, worker: nat, useMailbox: bool): Book
    requires Indexed(b) && b.free != [] && worker < |b.load|
  {
    if useMailbox then
      var w := LeastBusy(b.load, |b.load|);
      Mailed(OpenSlot(b, w), w, b.free[|b.free| - 1])
    else OpenSlot(b, worker)
  }

  function Joined(p: Pool, b: Book, s: nat): (Pool, Book)
    requires Indexed(b) && Bounded(p) && s < |p.slots|
  {
    var (c, at) := SeatFound(b);
    if at.Some? then EnteredAt(p, c, s, at.value) else (p, c)
  }

  function LeftBy(p: Pool, b: Book, s: nat): (Pool, Book)
    requires s < |p.slots|
  {
    var slot := p.slots[s];
    var r := slot.roomIdx;
    if !slot.inRoom || r >= |b.rooms| then (p, b)
    else
      (p.(slots := p.slots[s := slot.(inRoom := false)]),
       WithRoom(b, r, b.rooms[r].(pendL := b.rooms[r].pendL + [LeaveEntry(s, slot.gen)])))
  }
}
