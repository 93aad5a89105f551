/** The invariant of the lifetime protocol. */
module LifetimeInv {
  import opened Sessions
  import opened Inputs
  import opened Rooms
  import opened Lifetime

  // ---- Seat ledger ------------------------------------------------------------------------

  ghost predicate SeatShape(rooms: seq<Room>, seatBy: seq<seq<int>>, loc: seq<Loc>) {
    && |seatBy| == |rooms|
    && (forall r :: 0 <= r < |rooms| ==> |seatBy[r]| == SEATS && |rooms[r].seatUsed| == SEATS)
    && (forall s :: 0 <= s < |loc| && loc[s].Held? ==> loc[s].room < |rooms| && loc[s].seat < SEATS)
  }

  /** Used seats and the sessions on them are in one-to-one correspondence, and the counter is the
      number of used seats. */
  ghost predicate SeatInv(rooms: seq<Room>, seatBy: seq<seq<int>>, loc: seq<Loc>) {
    && SeatShape(rooms, seatBy, loc)
    && (forall r, i :: 0 <= r < |rooms| && 0 <= i < SEATS ==>
          (rooms[r].seatUsed[i] <==> seatBy[r][i] >= 0))
    && (forall r, i :: 0 <= r < |rooms| && 0 <= i < SEATS && seatBy[r][i] >= 0 ==>
          seatBy[r][i] < |loc| && loc[seatBy[r][i]].Held? &&
          loc[seatBy[r][i]].room == r && loc[seatBy[r][i]].seat == i)
    && (forall s :: 0 <= s < |loc| && loc[s].Held? ==> seatBy[loc[s].room][loc[s].seat] == s)
    && (forall r :: 0 <= r < |rooms| ==> rooms[r].reserved == SeatsTaken(rooms[r].seatUsed))
    && (forall r :: 0 <= r < |rooms| && rooms[r].dead ==> rooms[r].reserved == 0)
  }

  // ---- Join entries and members name the session that holds the seat -----------------------

  /** Every join entry of a room that is not yet worked off, oldest first. */
  function Joins(r: Room): seq<JoinEntry> { r.takenJ + r.pendJ }

  predicate IsPending(l: Loc) { l.Held? && l.stage.SPending? }
  predicate IsSeated(l: Loc) { l.Held? && l.stage.SSeated? }
  predicate Placed(l: Loc) { IsPending(l) || IsSeated(l) }

  ghost predicate JoinInv(rooms: seq<Room>, loc: seq<Loc>, slots: seq<Slot>) {
    && |loc| == |slots|
    && (forall r, k :: 0 <= r < |rooms| && 0 <= k < |Joins(rooms[r])| ==>
          var e := Joins(rooms[r])[k];
          e.sess < |loc| && loc[e.sess] == Held(r, e.seat, SPending) && e.gen == slots[e.sess].gen)
    && (forall s :: 0 <= s < |loc| && IsPending(loc[s]) ==>
          loc[s].room < |rooms| &&
          JoinEntry(s, slots[s].gen, loc[s].seat) in Joins(rooms[loc[s].room]))
    && (forall r, j, k :: 0 <= r < |rooms| && 0 <= j < k < |Joins(rooms[r])| ==>
          Joins(rooms[r])[j].sess != Joins(rooms[r])[k].sess)
  }

  ghost predicate MemberInv(rooms: seq<Room>, loc: seq<Loc>, slots: seq<Slot>) {
    && |loc| == |slots|
    && (forall r :: 0 <= r < |rooms| ==> |rooms[r].members| == SEATS)
    && (forall r, i :: 0 <= r < |rooms| && 0 <= i < SEATS && rooms[r].members[i].used ==>
          var m := rooms[r].members[i];
          m.sess < |loc| && loc[m.sess] == Held(r, i, SSeated) && m.gen == slots[m.sess].gen)
    && (forall s :: 0 <= s < |loc| && IsSeated(loc[s]) ==>
          loc[s].room < |rooms| && loc[s].seat < SEATS &&
          rooms[loc[s].room].members[loc[s].seat].used &&
          rooms[loc[s].room].members[loc[s].seat].sess == s)
    && (forall r :: 0 <= r < |rooms| ==> rooms[r].memberCount == MembersUsed(rooms[r].members))
  }

  // ---- References -------------------------------------------------------------------------

  function NetRefs(c: Conn): nat { if c.Closed? then 0 else 1 }

  function RoomRefs(l: Loc): nat {
    match l
    case Away => 0
    case Held(_, _, stage) => if stage.SReserved? then 0 else 1
    case Parting(_) => 1
  }

  ghost predicate RefInv(p: Pool, conns: seq<Conn>, loc: seq<Loc>) {
    && |conns| == |loc| == |p.slots|
    && (forall s :: 0 <= s < |loc| ==> p.slots[s].refs == NetRefs(conns[s]) + RoomRefs(loc[s]))
    && NoDup(p.free)
    && Bounded(p)
    && (forall s :: 0 <= s < |loc| ==> (s in p.free <==> p.slots[s].refs == 0))
  }

  // ---- What a network thread knows about its session ---------------------------------------

  predicate Working(c: Conn) {
    c.Scanning? || c.Fresh? || c.Reserved? || c.Counted? || c.Pushed?
  }

  predicate Hanging(c: Conn) { c.Dying? || c.Leaving? || c.Left? }

  predicate ConnOk(c: Conn, slot: Slot, l: Loc) {
    && (c.Closed? ==> l.Away? || (slot.dead && (Placed(l) || l.Parting?)))
    && (Hanging(c) ==> slot.dead && (l.Away? || Placed(l) || l.Parting?))
    && (c.Open? || c.Inputting? || Working(c) ==> !slot.dead)
    && (c.Leaving? || c.Left? || Working(c) ==> !slot.inRoom)
    && (c.Open? || c.Inputting? ==>
          if slot.inRoom then Placed(l) && l.seat == slot.actor else l.Away?)
    && (!c.Closed? && slot.inRoom && l.Held? ==> l.room == slot.roomIdx)
    && (c.Dying? && !slot.inRoom ==> l.Away?)
    && (c.Scanning? || c.Fresh? ==> l.Away?)
    && (c.Reserved? ==> l == Held(c.room, c.seat, SReserved))
    && (c.Counted? ==> l == Held(c.room, c.seat, SCounted))
    && (c.Pushed? ==> Placed(l) && l.room == c.room && l.seat == c.seat)
  }

  ghost predicate ConnInv(conns: seq<Conn>, slots: seq<Slot>, loc: seq<Loc>, lock: Lock, rooms: nat) {
    && |conns| == |loc| == |slots|
    && (forall s :: 0 <= s < |conns| ==> ConnOk(conns[s], slots[s], loc[s]))
    && (forall s :: 0 <= s < |conns| && slots[s].inRoom ==> slots[s].roomIdx < rooms)
    && (forall s :: 0 <= s < |conns| && Working(conns[s]) ==> lock == LockedBy(s))
    && (lock.LockedBy? ==> lock.sess < |conns| && Working(conns[lock.sess]))
  }

  ghost predicate PartingInv(loc: seq<Loc>, workers: seq<Worker>) {
    && (forall s :: 0 <= s < |loc| && loc[s].Parting? ==>
          loc[s].worker < |workers| && workers[loc[s].worker].pc.Returning? &&
          workers[loc[s].worker].pc.sess == s)
    && (forall w :: 0 <= w < |workers| && workers[w].pc.Returning? ==>
          workers[w].pc.sess < |loc| && loc[workers[w].pc.sess] == Parting(w))
  }

  // ---- Room ownership ---------------------------------------------------------------------

  predicate InRange(s: seq<nat>, n: nat) {
    forall k :: 0 <= k < |s| ==> s[k] < n
  }

  ghost predicate FreeInv(free: seq<nat>, home: seq<Home>) {
    && NoDup(free) && InRange(free, |home|)
    && (forall r :: 0 <= r < |home| ==> (r in free <==> home[r].InFree?))
  }

  ghost predicate ListInv(mail: seq<seq<nat>>, workers: seq<Worker>, home: seq<Home>) {
    && |mail| == |workers|
    && (forall w :: 0 <= w < |workers| ==> NoDup(mail[w]) && InRange(mail[w], |home|))
    && (forall w :: 0 <= w < |workers| ==> NoDup(workers[w].rooms) && InRange(workers[w].rooms, |home|))
    && (forall w, r :: 0 <= w < |workers| && 0 <= r < |home| ==>
          (r in mail[w] <==> home[r] == InMail(w)))
    && (forall w, r :: 0 <= w < |workers| && 0 <= r < |home| ==>
          (r in workers[w].rooms <==> home[r] == InList(w)))
  }

  ghost function RoomsOf(rooms: seq<Room>, home: seq<Home>, w: nat): set<nat>
    requires |home| == |rooms|
  {
    set r | 0 <= r < |rooms| && !home[r].InFree? && rooms[r].worker == w
  }

  ghost predicate LoadInv(rooms: seq<Room>, home: seq<Home>, load: seq<int>) {
    && |home| == |rooms|
    && (forall r :: 0 <= r < |home| && !home[r].InFree? ==>
          home[r].worker == rooms[r].worker && rooms[r].worker < |load|)
    && (forall w :: 0 <= w < |load| ==> load[w] == |RoomsOf(rooms, home, w)|)
  }

  ghost predicate OpenInv(open: seq<nat>, home: seq<Home>, rooms: seq<Room>) {
    && |home| == |rooms|
    && NoDup(open) && InRange(open, |home|)
    && (forall r :: 0 <= r < |home| && r in open ==> !home[r].InFree? && rooms[r].everReserved)
  }

  predicate AtRoom(k: Worker, r: nat) {
    !k.pc.Idle? && k.pc.pos < |k.rooms| && k.rooms[k.pc.pos] == r
  }

  /** Only a room its worker is about to free is dead; only a room being handed its first seat was
      never reserved; entries are swapped out only while the worker is at the room. */
  predicate LifeOk(r: nat, room: Room, h: Home, workers: seq<Worker>, conns: seq<Conn>, lock: Lock) {
    && (h.InFree? ==> room.reserved == 0)
    && (!h.InFree? && room.dead ==>
          h.InList? && h.worker < |workers| && workers[h.worker].pc.Dooming? && AtRoom(workers[h.worker], r))
    && (!h.InFree? && !room.everReserved ==>
          lock.LockedBy? && lock.sess < |conns| && conns[lock.sess] == Fresh(r))
    && (room.takenJ != [] || room.takenL != [] ==>
          h.InList? && h.worker < |workers| && AtRoom(workers[h.worker], r) &&
          (workers[h.worker].pc.Batch? || workers[h.worker].pc.Returning?))
  }

  ghost predicate LifeInv(rooms: seq<Room>, home: seq<Home>, workers: seq<Worker>,
                          conns: seq<Conn>, lock: Lock) {
    && |home| == |rooms|
    && (forall r :: 0 <= r < |rooms| ==> LifeOk(r, rooms[r], home[r], workers, conns, lock))
    && (forall w, r :: 0 <= w < |workers| && 0 <= r < |rooms| && workers[w].pc.Dooming? && AtRoom(workers[w], r)
          ==> rooms[r].dead)
    && (forall s :: 0 <= s < |conns| && conns[s].Fresh? ==>
          conns[s].room < |rooms| &&
          !home[conns[s].room].InFree? && !rooms[conns[s].room].everReserved &&
          rooms[conns[s].room].reserved == 0 && !rooms[conns[s].room].dead)
  }

  // ---- Leave entries ----------------------------------------------------------------------

  function Leaves(r: Room): seq<LeaveEntry> { r.takenL + r.pendL }

  predicate HungUp(slot: Slot, c: Conn) {
    slot.dead && slot.refs > 0 && (c.Left? || c.Closed?)
  }

  /** A leave entry of the current generation names a session that has hung up. */
  predicate LeaveOk(e: LeaveEntry, slots: seq<Slot>, conns: seq<Conn>) {
    && e.sess < |slots| && e.sess < |conns|
    && e.gen <= slots[e.sess].gen
    && (e.gen == slots[e.sess].gen ==> HungUp(slots[e.sess], conns[e.sess]))
  }

  ghost predicate LeaveInv(rooms: seq<Room>, slots: seq<Slot>, conns: seq<Conn>) {
    forall r, k :: 0 <= r < |rooms| && 0 <= k < |Leaves(rooms[r])| ==>
      LeaveOk(Leaves(rooms[r])[k], slots, conns)
  }

  ghost predicate Inv(st: State) {
    && Shape(st)
    && SeatInv(st.book.rooms, st.seatBy, st.loc)
    && JoinInv(st.book.rooms, st.loc, st.pool.slots)
    && MemberInv(st.book.rooms, st.loc, st.pool.slots)
    && RefInv(st.pool, st.conns, st.loc)
    && ConnInv(st.conns, st.pool.slots, st.loc, st.lock, |st.book.rooms|)
    && PartingInv(st.loc, st.workers)
    && FreeInv(st.book.free, st.home)
    && ListInv(st.book.mail, st.workers, st.home)
    && LoadInv(st.book.rooms, st.home, st.book.load)
    && OpenInv(st.book.open, st.home, st.book.rooms)
    && LifeInv(st.book.rooms, st.home, st.workers, st.conns, st.lock)
    && LeaveInv(st.book.rooms, st.pool.slots, st.conns)
  }
}
