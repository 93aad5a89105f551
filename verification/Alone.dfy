/** One thread of the lifetime protocol running undisturbed does exactly what the manager's methods do:
    the steps are a faithful cut of those methods into their lock-protected sections. */
module Alone {
  import opened Sessions
  import opened Inputs
  import opened Rooms
  import opened Lifetime
  import opened LifetimeSteps
  import opened Manager

  // ---- Leaving ----------------------------------------------------------------------------

  /** Leaving without a transfer in between. */
  function LeaveAlone(st: State, s: nat): State
    requires Shape(st) && CanLeaveLoad(st, s)
  {
    var t := LeaveLoad(st, s);
    if t.conns[s].Leaving? then LeavePush(t, s) else t
  }

  lemma LeaveAloneIs(st: State, s: nat)
    requires Shape(st) && CanLeaveLoad(st, s)
    ensures var t := LeaveAlone(st, s);
      (t.pool, t.book) == LeftBy(st.pool, st.book, s) && t.conns == st.conns[s := Left]
  { }

  // ---- Working off the queues -------------------------------------------------------------

  /** One entry, with the reference given back at once. */
  function EntryAlone(st: State, w: nat): (t: State)
    requires Shape(st) && (CanJoinOne(st, w) || CanLeaveOne(st, w))
    ensures Shape(t)
  {
    var t := if CanJoinOne(st, w) then JoinOne(st, w) else LeaveOne(st, w);
    if t.workers[w].pc.Returning? then Return(t, w) else t
  }

  /** What is left of a room when its first entry is gone. */
  function Popped(room: Room): Room {
    if room.takenJ != [] then room.(takenJ := room.takenJ[1..])
    else if room.takenL != [] then room.(takenL := room.takenL[1..]) else room
  }

  function EntryTaken(p: Pool, room: Room): (Pool, Room)
    requires Bounded(p) && FourSeats(room) && Entries(room.takenJ, |p.slots|) && Departures(room.takenL, |p.slots|)
  {
    if room.takenJ != [] then JoinTaken(p, Popped(room), room.takenJ[0])
    else if room.takenL != [] then LeaveTaken(p, Popped(room), room.takenL[0])
    else (p, room)
  }

  lemma RoomIsFine(st: State, w: nat)
    requires Shape(st) && InBatch(st, w)
    ensures var room := st.book.rooms[RoomAt(st, w)];
      FourSeats(room) && Entries(room.takenJ, |st.pool.slots|) && Departures(room.takenL, |st.pool.slots|)
      && Entries(room.pendJ, |st.pool.slots|) && Departures(room.pendL, |st.pool.slots|) && room.worker < |st.book.load|
  {
    hide ConnShape;
    assert RoomShape(st.book.rooms[RoomAt(st, w)], |st.pool.slots|, |st.book.load|);
  }

  predicate Advanced(st: State, t: State, w: nat, p: Pool, room: Room)
    requires Shape(st) && InBatch(st, w) && Shape(t)
  {
    && InBatch(t, w) && t.workers == st.workers && t.lock == st.lock
    && t.pool == p && t.book == WithRoom(st.book, RoomAt(st, w), room)
  }

  lemma JoinEntryIs(st: State, w: nat)
    requires Shape(st) && CanJoinOne(st, w)
    ensures var room := st.book.rooms[RoomAt(st, w)];
      FourSeats(room) && Entries(room.takenJ, |st.pool.slots|) && Departures(room.takenL, |st.pool.slots|) &&
      Advanced(st, EntryAlone(st, w), w, EntryTaken(st.pool, room).0, EntryTaken(st.pool, room).1)
  {
    hide BookShape, ConnShape;
    RoomIsFine(st, w);
    Sized(st);
    assert st.workers[w := st.workers[w]] == st.workers;
    var t := JoinOne(st, w);
    assert t.pool == st.pool;
    assert EntryAlone(st, w).workers == st.workers;
  }

  lemma LeaveEntryIs(st: State, w: nat)
    requires Shape(st) && CanLeaveOne(st, w)
    ensures var room := st.book.rooms[RoomAt(st, w)];
      FourSeats(room) && Entries(room.takenJ, |st.pool.slots|) && Departures(room.takenL, |st.pool.slots|) &&
      Advanced(st, EntryAlone(st, w), w, EntryTaken(st.pool, room).0, EntryTaken(st.pool, room).1)
  {
    hide BookShape, ConnShape, FindMember;
    RoomIsFine(st, w);
    Sized(st);
    assert st.workers[w := st.workers[w]] == st.workers;
    var t := LeaveOne(st, w);
    assert t.pool == st.pool;
    assert EntryAlone(st, w).workers == st.workers;
  }

  /** All entries taken out of the queues, joins first. */
  function BatchTaken(p: Pool, room: Room): (r: (Pool, Room))
    requires Bounded(p) && FourSeats(room) && Entries(room.takenJ, |p.slots|) && Departures(room.takenL, |p.slots|)
    ensures Bounded(r.0) && |r.0.slots| == |p.slots| && FourSeats(r.1)
  {
    var (q, joined) := JoinsTaken(p, room.(takenJ := [], takenL := []), room.takenJ);
    LeavesTaken(q, joined, room.takenL)
  }

  /** Taking an entry does not look at the entries still to come. */
  lemma JoinTakenFrame(p: Pool, room: Room, e: JoinEntry, js: seq<JoinEntry>, ls: seq<LeaveEntry>)
    requires Bounded(p) && e.sess < |p.slots| && e.seat < SEATS && FourSeats(room)
    ensures JoinTaken(p, room.(takenJ := js, takenL := ls), e) ==
      (JoinTaken(p, room, e).0, JoinTaken(p, room, e).1.(takenJ := js, takenL := ls))
  { }

  lemma LeaveTakenFrame(p: Pool, room: Room, e: LeaveEntry, js: seq<JoinEntry>, ls: seq<LeaveEntry>)
    requires Bounded(p) && e.sess < |p.slots| && FourSeats(room)
    ensures LeaveTaken(p, room.(takenJ := js, takenL := ls), e) ==
      (LeaveTaken(p, room, e).0, LeaveTaken(p, room, e).1.(takenJ := js, takenL := ls))
  { }

  lemma BatchFirst(p: Pool, room: Room)
    requires Bounded(p) && FourSeats(room) && Entries(room.takenJ, |p.slots|) && Departures(room.takenL, |p.slots|)
    ensures var (q, next) := EntryTaken(p, room);
      && Bounded(q) && |q.slots| == |p.slots| && FourSeats(next)
      && next.takenJ == Popped(room).takenJ && next.takenL == Popped(room).takenL
      && Entries(next.takenJ, |q.slots|) && Departures(next.takenL, |q.slots|)
      && BatchTaken(p, room) == BatchTaken(q, next)
  {
    var bare := room.(takenJ := [], takenL := []);
    if room.takenJ != [] {
      JoinTakenFrame(p, bare, room.takenJ[0], room.takenJ[1..], room.takenL);
      assert bare.(takenJ := room.takenJ[1..], takenL := room.takenL) == Popped(room);
    } else if room.takenL != [] {
      LeaveTakenFrame(p, bare, room.takenL[0], [], room.takenL[1..]);
      assert bare.(takenJ := [], takenL := room.takenL[1..]) == Popped(room);
    }
  }

  function BatchAlone(st: State, w: nat): (t: State)
    requires Shape(st) && InBatch(st, w)
    ensures Shape(t)
    decreases |st.book.rooms[RoomAt(st, w)].takenJ| + |st.book.rooms[RoomAt(st, w)].takenL|
  {
    if CanJoinOne(st, w) then
      JoinEntryIs(st, w);
      RoomIsFine(st, w);
      BatchFirst(st.pool, st.book.rooms[RoomAt(st, w)]);
      BatchAlone(EntryAlone(st, w), w)
    else if CanLeaveOne(st, w) then
      LeaveEntryIs(st, w);
      RoomIsFine(st, w);
      BatchFirst(st.pool, st.book.rooms[RoomAt(st, w)]);
      BatchAlone(EntryAlone(st, w), w)
    else st
  }

  lemma {:induction false} BatchAloneIs(st: State, w: nat)
    requires Shape(st) && InBatch(st, w)
    ensures var room := st.book.rooms[RoomAt(st, w)];
      FourSeats(room) && Entries(room.takenJ, |st.pool.slots|) && Departures(room.takenL, |st.pool.slots|) &&
      Advanced(st, BatchAlone(st, w), w, BatchTaken(st.pool, room).0, BatchTaken(st.pool, room).1)
    decreases |st.book.rooms[RoomAt(st, w)].takenJ| + |st.book.rooms[RoomAt(st, w)].takenL|
  {
    hide BookShape, ConnShape, EntryAlone, EntryTaken, BatchTaken;
    RoomIsFine(st, w);
    var r := RoomAt(st, w);
    var room := st.book.rooms[r];
    BatchFirst(st.pool, room);
    if CanJoinOne(st, w) || CanLeaveOne(st, w) {
      if CanJoinOne(st, w) { JoinEntryIs(st, w); } else { LeaveEntryIs(st, w); }
      var t := EntryAlone(st, w);
      BatchAloneIs(t, w);
      assert st.book.rooms[r := t.book.rooms[r]][r := BatchTaken(st.pool, room).1]
          == st.book.rooms[r := BatchTaken(st.pool, room).1];
    } else {
      NothingTaken(st.pool, room);
      assert st.book.rooms[r := room] == st.book.rooms;
    }
  }

  lemma NothingTaken(p: Pool, room: Room)
    requires Bounded(p) && FourSeats(room) && room.takenJ == [] && room.takenL == []
    ensures BatchTaken(p, room) == (p, room)
  { }

  /** The worker has worked off both queues of its room. */
  predicate Emptied(st: State, t: State, w: nat, r: nat, p: Pool, room: Room) {
    && r < |st.book.rooms| && InBatch(t, w) && w < |st.workers| && t.lock == st.lock
    && t.workers == st.workers[w := st.workers[w].(pc := Batch(t.workers[w].pc.pos))]
    && t.workers[w].pc.pos < |t.workers[w].rooms| && t.workers[w].rooms[t.workers[w].pc.pos] == r
    && t.pool == p && t.book == WithRoom(st.book, r, room) && room.takenJ == [] && room.takenL == []
  }

  lemma QueuesWorkedOff(st: State, w: nat)
    requires Shape(st) && CanTake(st, w)
    requires st.book.rooms[RoomAt(st, w)].takenJ == [] && st.book.rooms[RoomAt(st, w)].takenL == []
    ensures var room := st.book.rooms[RoomAt(st, w)];
      && FourSeats(room) && room.worker < |st.book.load|
      && Entries(room.pendJ, |st.pool.slots|) && Departures(room.pendL, |st.pool.slots|)
      && InBatch(Take(st, w), w)
      && Emptied(st, BatchAlone(Take(st, w), w), w, RoomAt(st, w),
                 QueuesTaken(st.pool, room).0, QueuesTaken(st.pool, room).1)
  {
    hide BookShape, ConnShape, JoinsTaken, LeavesTaken, BatchTaken, BatchAlone;
    var u := Take(st, w);
    RoomIsFine(u, w);
    BatchAloneIs(u, w);
    var r := RoomAt(st, w);
    TakenBoth(st.pool, st.book.rooms[r]);
    NothingLeft(st.pool, u.book.rooms[r]);
    assert st.book.rooms[r := u.book.rooms[r]][r := QueuesTaken(st.pool, st.book.rooms[r]).1]
        == st.book.rooms[r := QueuesTaken(st.pool, st.book.rooms[r]).1];
  }

  /** A worker's whole visit to a room up to the tick, undisturbed. */
  lemma VisitIs(st: State, w: nat)
    requires Shape(st) && CanTake(st, w) && st.lock.Unlocked?
    requires st.book.rooms[RoomAt(st, w)].takenJ == [] && st.book.rooms[RoomAt(st, w)].takenL == []
    ensures var room := st.book.rooms[RoomAt(st, w)];
      && FourSeats(room) && room.worker < |st.book.load|
      && Entries(room.pendJ, |st.pool.slots|) && Departures(room.pendL, |st.pool.slots|)
    ensures InBatch(Take(st, w), w) && CanCheck(BatchAlone(Take(st, w), w), w)
    ensures var (p, b, died) := Processed(st.pool, st.book, RoomAt(st, w));
      var t := Check(BatchAlone(Take(st, w), w), w);
      if died then CanFree(t, w) && (Free(t, w).pool, Free(t, w).book) == (p, b)
      else t.workers[w].pc.Ticking? && (t.pool, t.book) == (p, b)
  {
    hide BookShape, ConnShape, FreeSlot, QueuesTaken, BatchAlone, Take;
    QueuesWorkedOff(st, w);
    CheckIs(st, BatchAlone(Take(st, w), w), w, RoomAt(st, w), QueuesTaken(st.pool, st.book.rooms[RoomAt(st, w)]).0,
            QueuesTaken(st.pool, st.book.rooms[RoomAt(st, w)]).1);
    QueuesKeepWorker(st.pool, st.book.rooms[RoomAt(st, w)]);
  }

  lemma CheckIs(st: State, t: State, w: nat, r: nat, p: Pool, room: Room)
    requires Shape(t) && Emptied(st, t, w, r, p, room) && st.lock.Unlocked?
    ensures CanCheck(t, w) && room.worker < |st.book.load|
    ensures var u := Check(t, w);
      if Empty(room) then
        CanFree(u, w) && Free(u, w).pool == p &&
        Free(u, w).book == FreeSlot(WithRoom(st.book, r, room.(dead := true)), r)
      else u.workers[w].pc.Ticking? && u.pool == p && u.book == WithRoom(st.book, r, room)
  {
    hide ConnShape, FreeSlot;
    assert st.book.rooms[r := room][r := room.(dead := true)] == st.book.rooms[r := room.(dead := true)];
    assert RoomShape(t.book.rooms[r], |t.pool.slots|, |t.book.load|);
  }

  lemma TakenBoth(p: Pool, room: Room)
    requires Bounded(p) && FourSeats(room) && Entries(room.pendJ, |p.slots|) && Departures(room.pendL, |p.slots|)
    requires room.takenJ == [] && room.takenL == []
    ensures BatchTaken(p, room.(takenJ := room.pendJ, takenL := room.pendL, pendJ := [], pendL := []))
      == QueuesTaken(p, room)
  { }

  lemma {:induction false} NothingLeft(p: Pool, room: Room)
    requires Bounded(p) && FourSeats(room) && Entries(room.takenJ, |p.slots|) && Departures(room.takenL, |p.slots|)
    ensures BatchTaken(p, room).1.takenJ == [] && BatchTaken(p, room).1.takenL == []
    decreases |room.takenJ| + |room.takenL|
  {
    BatchFirst(p, room);
    if room.takenJ == [] && room.takenL == [] {
      NothingTaken(p, room);
    } else {
      var (q, next) := EntryTaken(p, room);
      NothingLeft(q, next);
    }
  }
}
