/** What the invariant means in the program's own fields: exact reference counts, exact generations,
    exact seats, and one owner per room. */
module LifetimeFacts {
  import opened Sessions
  import opened Inputs
  import opened Rooms
  import opened Lifetime
  import opened LifetimeInv
  import opened LifetimeDeltas
  import opened LifetimeSteps
  import opened LifetimeMove
  import opened LifetimeRuns

  // ---- References -------------------------------------------------------------------------

  /** The places that own one reference to a session slot. */
  datatype Holder =
    | Network                          // the owning network worker
    | Joiner                           // Join, after the reference is added and before it is queued
    | Entry(room: nat, pos: nat)       // a join entry, queued, carried over or in a local batch
    | Occupant(room: nat, seat: nat)   // a used member
    | Returner(worker: nat)            // a worker about to release

  ghost function EntryHolders(rooms: seq<Room>, s: nat): set<Holder> {
    set r, k | 0 <= r < |rooms| && 0 <= k < |Joins(rooms[r])| && Joins(rooms[r])[k].sess == s :: Entry(r, k)
  }

  ghost function OccupantHolders(rooms: seq<Room>, s: nat): set<Holder> {
    set r, i | 0 <= r < |rooms| && 0 <= i < |rooms[r].members| && rooms[r].members[i].used &&
               rooms[r].members[i].sess == s :: Occupant(r, i)
  }

  ghost function ReturnHolders(workers: seq<Worker>, s: nat): set<Holder> {
    set w | 0 <= w < |workers| && workers[w].pc.Returning? && workers[w].pc.sess == s :: Returner(w)
  }

  ghost function Holders(st: State, s: nat): set<Holder>
    requires s < |st.conns|
  {
    (if st.conns[s].Closed? then {} else {Network})
    + (if st.conns[s].Counted? then {Joiner} else {})
    + EntryHolders(st.book.rooms, s)
    + OccupantHolders(st.book.rooms, s)
    + ReturnHolders(st.workers, s)
  }

  lemma EntriesOf(rooms: seq<Room>, loc: seq<Loc>, slots: seq<Slot>, s: nat)
    requires JoinInv(rooms, loc, slots) && s < |loc|
    ensures !IsPending(loc[s]) ==> EntryHolders(rooms, s) == {}
    ensures IsPending(loc[s]) ==> exists h :: EntryHolders(rooms, s) == {h} && h.Entry?
  {
    if IsPending(loc[s]) {
      var r := loc[s].room;
      var k :| 0 <= k < |Joins(rooms[r])| && Joins(rooms[r])[k] == JoinEntry(s, slots[s].gen, loc[s].seat);
      assert EntryHolders(rooms, s) == {Entry(r, k)};
    }
  }

  lemma OccupantsOf(rooms: seq<Room>, loc: seq<Loc>, slots: seq<Slot>, s: nat)
    requires MemberInv(rooms, loc, slots) && s < |loc|
    ensures OccupantHolders(rooms, s) == if IsSeated(loc[s]) then {Occupant(loc[s].room, loc[s].seat)} else {}
  { }

  lemma ReturnersOf(loc: seq<Loc>, workers: seq<Worker>, s: nat)
    requires PartingInv(loc, workers) && s < |loc|
    ensures ReturnHolders(workers, s) == if loc[s].Parting? then {Returner(loc[s].worker)} else {}
  { }

  ghost function RoomHolders(st: State, s: nat): set<Holder>
    requires s < |st.conns|
  {
    (if st.conns[s].Counted? then {Joiner} else {})
    + EntryHolders(st.book.rooms, s)
    + OccupantHolders(st.book.rooms, s)
    + ReturnHolders(st.workers, s)
  }

  lemma RoomHoldersCount(st: State, s: nat)
    requires Inv(st) && s < |st.conns|
    ensures |RoomHolders(st, s)| == RoomRefs(st.loc[s])
    ensures Network !in RoomHolders(st, s)
  {
    hide BookShape, JoinInv, MemberInv, SeatInv, RefInv, PartingInv, FreeInv, ListInv, LoadInv, OpenInv, LifeInv;
    hide LeaveInv;
    EntriesOf(st.book.rooms, st.loc, st.pool.slots, s);
    OccupantsOf(st.book.rooms, st.loc, st.pool.slots, s);
    ReturnersOf(st.loc, st.workers, s);
    assert ConnOk(st.conns[s], st.pool.slots[s], st.loc[s]);
  }

  /** The count is exactly the number of holders, it never exceeds two, and a slot is on the free
      list exactly when nobody holds it. */
  lemma RefsAreHolders(st: State, s: nat)
    requires Inv(st) && s < |st.conns|
    ensures st.pool.slots[s].refs == |Holders(st, s)| <= 2
    ensures s in st.pool.free <==> Holders(st, s) == {}
  {
    hide BookShape, JoinInv, MemberInv, SeatInv, ConnInv, PartingInv, FreeInv, ListInv, LoadInv, OpenInv, LifeInv;
    hide LeaveInv;
    hide EntryHolders, OccupantHolders, ReturnHolders, Shape;
    RoomHoldersCount(st, s);
    HoldersSplit(st, s);
    OneMore(Network, RoomHolders(st, s));
    hide RoomHolders, Holders;
  }

  lemma HoldersSplit(st: State, s: nat)
    requires s < |st.conns|
    ensures Holders(st, s) == (if st.conns[s].Closed? then {} else {Network}) + RoomHolders(st, s)
  {
    hide EntryHolders, OccupantHolders, ReturnHolders;
  }

  lemma OneMore(h: Holder, rest: set<Holder>)
    requires h !in rest
    ensures |{h} + rest| == 1 + |rest| && {h} + rest != {}
    ensures {} + rest == rest && (|rest| == 0 <==> rest == {})
  {
    assert h in {h} + rest;
  }

  /** Whoever holds a reference also holds the slot's current generation. */
  lemma TagsAreCurrent(st: State, r: nat)
    requires Inv(st) && r < |st.book.rooms|
    ensures forall k :: 0 <= k < |Joins(st.book.rooms[r])| ==>
      Joins(st.book.rooms[r])[k].sess < |st.pool.slots| &&
      Joins(st.book.rooms[r])[k].gen == st.pool.slots[Joins(st.book.rooms[r])[k].sess].gen
    ensures forall i :: 0 <= i < SEATS && st.book.rooms[r].members[i].used ==>
      st.book.rooms[r].members[i].sess < |st.pool.slots| &&
      st.book.rooms[r].members[i].gen == st.pool.slots[st.book.rooms[r].members[i].sess].gen
  { }

  // ---- Generations ------------------------------------------------------------------------

  predicate SlotAges(x: Slot, y: Slot) {
    && y.gen >= x.gen
    && (y.gen == x.gen && x.refs > 0 ==> y.refs > 0)
    && (y.gen == x.gen && x.refs > 0 && x.dead ==> y.dead)
  }

  /** One action never lowers a generation, and while the generation stays, a held slot stays held
      and a dead session stays dead. */
  lemma GenStep(st: State, a: Action, s: nat)
    requires Inv(st) && Enabled(st, a) && s < |st.pool.slots|
    ensures |Apply(st, a).pool.slots| == |st.pool.slots|
    ensures SlotAges(st.pool.slots[s], Apply(st, a).pool.slots[s])
  {
    hide Inv, Shape;
    if NetAction(a) { GenNet(st, a, s); } else { GenWorker(st, a, s); }
  }

  lemma GenNet(st: State, a: Action, s: nat)
    requires Inv(st) && NetAction(a) && NetEnabled(st, a) && s < |st.pool.slots|
    ensures |NetApply(st, a).pool.slots| == |st.pool.slots|
    ensures SlotAges(st.pool.slots[s], NetApply(st, a).pool.slots[s])
  {
    hide JoinInv, MemberInv, SeatInv, PartingInv, FreeInv, ListInv, LoadInv, OpenInv, LifeInv, LeaveInv;
    hide OpenSlot, ConnShape, BookShape;
    if a.AAccept? || a.AAcceptFail? { assert st.pool.free[|st.pool.free| - 1] in st.pool.free; }
  }

  lemma GenWorker(st: State, a: Action, s: nat)
    requires Inv(st) && !NetAction(a) && WorkerEnabled(st, a) && s < |st.pool.slots|
    ensures |WorkerApply(st, a).pool.slots| == |st.pool.slots|
    ensures SlotAges(st.pool.slots[s], WorkerApply(st, a).pool.slots[s])
  {
    hide JoinInv, MemberInv, SeatInv, PartingInv, FreeInv, ListInv, LoadInv, OpenInv, LifeInv, LeaveInv;
    hide MoveBook, FreeSlot, MovedLoc, ConnShape, BookShape;
    if a.AMove? {
      var r := RoomAt(st, a.w);
      RehomeAt(st.pool.slots, MemberTags(st.book.rooms[r].members) + JoinTags(st.book.rooms[r].pendJ),
               st.book.free[|st.book.free| - 1], s);
    }
  }

  /** A `{slot, generation}` tag taken while the slot is held either still names the same, never
      released slot, or its generation no longer matches; and a session seen dead under a tag is
      dead whenever the tag still matches. */
  lemma {:induction false} StaleTagFails(states: seq<State>, actions: seq<Action>, s: nat, j: nat, k: nat)
    requires IsRun(states, actions) && Inv(states[0]) && j <= k < |states|
    requires s < |states[j].pool.slots| && states[j].pool.slots[s].refs > 0
    ensures s < |states[k].pool.slots|
    ensures states[k].pool.slots[s].gen >= states[j].pool.slots[s].gen
    ensures states[k].pool.slots[s].gen == states[j].pool.slots[s].gen ==>
      && states[k].pool.slots[s].refs > 0
      && (states[j].pool.slots[s].dead ==> states[k].pool.slots[s].dead)
      && (forall i :: j <= i <= k ==> s < |states[i].pool.slots| && s !in states[i].pool.free)
    decreases k - j
  {
    hide Inv, Shape, Enabled, Apply;
    RunHolds(states, actions, k);
    if j == k {
      HeldIsNotFree(states[k], s);
    } else {
      StaleTagFails(states, actions, s, j, k - 1);
      RunHolds(states, actions, k - 1);
      GenStep(states[k - 1], actions[k - 1], s);
      if states[k].pool.slots[s].gen == states[j].pool.slots[s].gen { HeldIsNotFree(states[k], s); }
    }
  }

  lemma HeldIsNotFree(st: State, s: nat)
    requires Inv(st) && s < |st.pool.slots| && st.pool.slots[s].refs > 0
    ensures s !in st.pool.free
  {
    hide JoinInv, MemberInv, SeatInv, PartingInv, FreeInv, ListInv, LoadInv, OpenInv, LifeInv, LeaveInv;
  }

  // ---- Seats ------------------------------------------------------------------------------

  /** What can stand behind a used seat. */
  datatype Backer = Reserving(sess: nat) | Queued(pos: nat) | Sitting

  ghost function Backers(st: State, r: nat, i: nat): set<Backer>
    requires r < |st.book.rooms| && i < |st.book.rooms[r].members|
  {
    (set s | 0 <= s < |st.conns| && (st.conns[s] == Reserved(r, i) || st.conns[s] == Counted(r, i)) :: Reserving(s))
    + (set k | 0 <= k < |Joins(st.book.rooms[r])| && Joins(st.book.rooms[r])[k].seat == i :: Queued(k))
    + (if st.book.rooms[r].members[i].used then {Sitting} else {})
  }

  lemma ReserversOf(conns: seq<Conn>, slots: seq<Slot>, loc: seq<Loc>, lock: Lock, n: nat, s: nat)
    requires ConnInv(conns, slots, loc, lock, n) && s < |conns|
    ensures forall r, i :: conns[s] == Reserved(r, i) || conns[s] == Counted(r, i) ==>
      loc[s].Held? && loc[s].room == r && loc[s].seat == i && !Placed(loc[s])
    ensures loc[s].Held? && !Placed(loc[s]) ==>
      conns[s] == Reserved(loc[s].room, loc[s].seat) || conns[s] == Counted(loc[s].room, loc[s].seat)
  {
    assert ConnOk(conns[s], slots[s], loc[s]);
  }

  ghost function Reservers(conns: seq<Conn>, r: nat, i: nat): set<Backer> {
    set s | 0 <= s < |conns| && (conns[s] == Reserved(r, i) || conns[s] == Counted(r, i)) :: Reserving(s)
  }

  lemma ReserverSet(st: State, r: nat, i: nat)
    requires Inv(st) && r < |st.book.rooms| && i < SEATS
    ensures var s := st.seatBy[r][i];
      Reservers(st.conns, r, i) ==
        if s >= 0 && s < |st.loc| && !Placed(st.loc[s]) then {Reserving(s)} else {}
  {
    hide JoinInv, MemberInv, RefInv, PartingInv, ConnInv, FreeInv, ListInv, LoadInv, OpenInv, LifeInv, LeaveInv;
    forall s | 0 <= s < |st.conns|
      ensures (st.conns[s] == Reserved(r, i) || st.conns[s] == Counted(r, i)) <==>
        st.seatBy[r][i] == s && !Placed(st.loc[s])
    {
      ReserversOf(st.conns, st.pool.slots, st.loc, st.lock, |st.book.rooms|, s);
    }
  }

  ghost function Queuers(room: Room, i: nat): set<Backer> {
    set k | 0 <= k < |Joins(room)| && Joins(room)[k].seat == i :: Queued(k)
  }

  lemma QueuerSet(rooms: seq<Room>, seatBy: seq<seq<int>>, loc: seq<Loc>, slots: seq<Slot>, r: nat, i: nat)
    requires SeatInv(rooms, seatBy, loc) && JoinInv(rooms, loc, slots) && r < |rooms| && i < SEATS
    ensures var s := seatBy[r][i];
      if s >= 0 && s < |loc| && IsPending(loc[s]) then exists h :: Queuers(rooms[r], i) == {h} && h.Queued?
      else Queuers(rooms[r], i) == {}
  {
    var s := seatBy[r][i];
    if s >= 0 && IsPending(loc[s]) {
      var k :| 0 <= k < |Joins(rooms[r])| && Joins(rooms[r])[k] == JoinEntry(s, slots[s].gen, i);
      assert Queuers(rooms[r], i) == {Queued(k)};
    } else {
      forall k | 0 <= k < |Joins(rooms[r])| ensures Joins(rooms[r])[k].seat != i {
        assert loc[Joins(rooms[r])[k].sess].Held?;
      }
    }
  }

  lemma SitterIs(rooms: seq<Room>, seatBy: seq<seq<int>>, loc: seq<Loc>, slots: seq<Slot>, r: nat, i: nat)
    requires SeatInv(rooms, seatBy, loc) && MemberInv(rooms, loc, slots) && r < |rooms| && i < SEATS
    ensures rooms[r].members[i].used <==> seatBy[r][i] >= 0 && IsSeated(loc[seatBy[r][i]])
  { }

  /** A used seat is backed by exactly one of a reservation in progress, a join entry and a used
      member, a free seat by none; both counters are exact; a dead room has no used seat. */
  lemma SeatsAreBacked(st: State, r: nat, i: nat)
    requires Inv(st) && r < |st.book.rooms| && i < SEATS
    ensures var room := st.book.rooms[r];
      && |Backers(st, r, i)| == Bit(room.seatUsed[i])
      && room.reserved == SeatsTaken(room.seatUsed)
      && room.memberCount == MembersUsed(room.members)
      && (room.dead ==> !room.seatUsed[i])
  {
    hide JoinInv, MemberInv, RefInv, PartingInv, ConnInv, FreeInv, ListInv, LoadInv, OpenInv, LifeInv, LeaveInv;
    ReserverSet(st, r, i);
    QueuerSet(st.book.rooms, st.seatBy, st.loc, st.pool.slots, r, i);
    SitterIs(st.book.rooms, st.seatBy, st.loc, st.pool.slots, r, i);
    CountHolds(st.book.rooms, st.seatBy, st.loc, st.pool.slots, r);
    assert Backers(st, r, i) == Reservers(st.conns, r, i) + Queuers(st.book.rooms[r], i)
      + (if st.book.rooms[r].members[i].used then {Sitting} else {});
  }

  /** Seating a join never displaces a member. */
  lemma JoinTakesVacantSeat(st: State, w: nat)
    requires Inv(st) && CanJoinOne(st, w)
    ensures var room := st.book.rooms[RoomAt(st, w)];
      !room.members[room.takenJ[0].seat].used
  {
    hide SeatInv, JoinInv, MemberInv, RefInv, PartingInv, ConnInv, FreeInv;
    hide ListInv, LoadInv, OpenInv, LifeInv, LeaveInv;
    JoinHead(st.book.rooms, st.seatBy, st.loc, st.pool.slots, RoomAt(st, w));
  }

  // ---- Rooms ------------------------------------------------------------------------------

  datatype Spot = OnFreeList | InMailbox(worker: nat) | OnList(worker: nat)

  ghost function Spots(st: State, r: nat): set<Spot>
    requires |st.workers| == |st.book.mail|
  {
    (if r in st.book.free then {OnFreeList} else {})
    + (set w | 0 <= w < |st.workers| && r in st.book.mail[w] :: InMailbox(w))
    + (set w | 0 <= w < |st.workers| && r in st.workers[w].rooms :: OnList(w))
  }

  /** Every room slot is in exactly one of the free list, a mailbox and a worker's list; the worker
      that has it is the one it is assigned to; no free room is on the open list. */
  lemma RoomsHaveOneOwner(st: State, r: nat)
    requires Inv(st) && r < |st.book.rooms|
    ensures |Spots(st, r)| == 1
    ensures forall w :: InMailbox(w) in Spots(st, r) || OnList(w) in Spots(st, r) ==> st.book.rooms[r].worker == w
    ensures r in st.book.open ==> OnFreeList !in Spots(st, r)
  {
    hide BookShape, SeatInv, JoinInv, MemberInv, RefInv, PartingInv, ConnInv, FreeInv, ListInv, LifeInv, LeaveInv;
    Sized(st);
    SpotIs(st.book.free, st.book.mail, st.workers, st.home, r);
    match st.home[r]
    case InFree => assert Spots(st, r) == {OnFreeList};
    case InMail(v) =>
      assert Spots(st, r) == {InMailbox(v)};
    case InList(v) =>
      assert Spots(st, r) == {OnList(v)};
  }

  /** No list names a room twice, and a worker's load is its number of rooms that are not free. */
  lemma LoadIsExact(st: State, w: nat)
    requires Inv(st) && w < |st.workers|
    ensures NoDup(st.book.free) && NoDup(st.book.mail[w]) && NoDup(st.workers[w].rooms) && NoDup(st.book.open)
    ensures st.book.load[w] == |set q | 0 <= q < |st.book.rooms| && q !in st.book.free && st.book.rooms[q].worker == w|
  {
    hide BookShape, SeatInv, JoinInv, MemberInv, RefInv, PartingInv, ConnInv, LifeInv, LeaveInv;
    assert (set q | 0 <= q < |st.book.rooms| && q !in st.book.free && st.book.rooms[q].worker == w)
      == RoomsOf(st.book.rooms, st.home, w);
  }

  lemma SpotIs(free: seq<nat>, mail: seq<seq<nat>>, workers: seq<Worker>, home: seq<Home>, r: nat)
    requires FreeInv(free, home) && ListInv(mail, workers, home) && r < |home|
    ensures r in free <==> home[r].InFree?
    ensures forall w :: 0 <= w < |workers| ==> (r in mail[w] <==> home[r] == InMail(w))
    ensures forall w :: 0 <= w < |workers| ==> (r in workers[w].rooms <==> home[r] == InList(w))
  { }

  /** The room number and seat a live session in a room reads are those of the one room that holds
      its queued entry or its member. */
  lemma RoomNumberIsRight(st: State, s: nat)
    requires Inv(st) && s < |st.conns| && (st.conns[s].Open? || st.conns[s].Inputting?)
    requires st.pool.slots[s].inRoom
    ensures var slot := st.pool.slots[s];
      && slot.roomIdx < |st.book.rooms|
      && ((exists k :: 0 <= k < |Joins(st.book.rooms[slot.roomIdx])| &&
             Joins(st.book.rooms[slot.roomIdx])[k] == JoinEntry(s, slot.gen, slot.actor))
          || (slot.actor < SEATS && st.book.rooms[slot.roomIdx].members[slot.actor].used &&
              st.book.rooms[slot.roomIdx].members[slot.actor].sess == s &&
              st.book.rooms[slot.roomIdx].members[slot.actor].gen == slot.gen))
      && (forall r, k :: 0 <= r < |st.book.rooms| && 0 <= k < |Joins(st.book.rooms[r])| &&
            Joins(st.book.rooms[r])[k].sess == s
            ==> r == slot.roomIdx)
      && (forall r, i :: 0 <= r < |st.book.rooms| && 0 <= i < SEATS && st.book.rooms[r].members[i].used &&
            st.book.rooms[r].members[i].sess == s
            ==> r == slot.roomIdx)
  {
    hide RefInv, PartingInv, FreeInv, ListInv, LoadInv, OpenInv, LifeInv, LeaveInv;
    assert ConnOk(st.conns[s], st.pool.slots[s], st.loc[s]);
  }

  // ---- Slots given back -------------------------------------------------------------------

  /** Whatever comes back to a free list is the next to be given out. */
  lemma LastFreedFirst(p: Pool, s: nat, b: Book, r: nat)
    requires Bounded(p) && s < |p.slots| && r < |b.rooms| && b.rooms[r].worker < |b.load|
    ensures p.slots[s].refs == 1 ==>
      && Release(p, s).free != [] && Top(Release(p, s).free) == s && AllocSlot(Release(p, s)).free == p.free
      && AllocSlot(Release(p, s)).slots[s].gen == p.slots[s].gen + 1
    ensures Top(FreeSlot(b, r).free) == r && FreeSlot(b, r).free[..|b.free|] == b.free
  { }

  /** The room's slot comes free in this step. */
  predicate ComesFree(st: State, t: State, r: nat) {
    r < |st.home| && r < |t.home| && !st.home[r].InFree? && t.home[r].InFree?
  }

  /** A room slot's generation rises by one when it comes free, by death or by transfer, and at no other
      time. */
  lemma RoomGenStep(st: State, a: Action, r: nat)
    requires Inv(st) && Enabled(st, a) && r < |st.book.rooms|
    ensures r < |Apply(st, a).book.rooms|
    ensures Apply(st, a).book.rooms[r].gen ==
      st.book.rooms[r].gen + if ComesFree(st, Apply(st, a), r) then 1 else 0
  {
    hide Inv, Shape, ComesFree, Move, CanMove;
    if NetAction(a) {
      NetRoomGen(st, a, r);
    } else if a.AMove? {
      MoveRoomGen(st, a.w, r);
    } else {
      WorkerRoomGen(st, a, r);
    }
  }

  lemma NetRoomGen(st: State, a: Action, r: nat)
    requires Inv(st) && NetAction(a) && Enabled(st, a) && r < |st.book.rooms|
    ensures r < |Apply(st, a).book.rooms|
    ensures Apply(st, a).book.rooms[r].gen == st.book.rooms[r].gen && !ComesFree(st, Apply(st, a), r)
  {
    hide BookShape, ConnShape, WorkerShape, SeatInv, JoinInv, MemberInv, RefInv, ConnInv, PartingInv, FreeInv;
    hide ListInv, LoadInv, OpenInv, LifeInv, LeaveInv, LeastBusy, FirstVacant;
  }

  lemma WorkerRoomGen(st: State, a: Action, r: nat)
    requires Inv(st) && !NetAction(a) && !a.AMove? && Enabled(st, a) && r < |st.book.rooms|
    ensures r < |Apply(st, a).book.rooms|
    ensures Apply(st, a).book.rooms[r].gen ==
      st.book.rooms[r].gen + if ComesFree(st, Apply(st, a), r) then 1 else 0
  {
    hide BookShape, ConnShape, SeatInv, JoinInv, MemberInv, RefInv, ConnInv, PartingInv, FreeInv;
    hide LoadInv, OpenInv, LeaveInv, SwapRemove, TickMembers, FindMember, LifeInv;
    Sized(st);
    if a.AFree? {
      assert RoomAt(st, a.w) in st.workers[a.w].rooms;
    }
  }

  lemma MoveRoomGen(st: State, w: nat, r: nat)
    requires Inv(st) && CanMove(st, w) && r < |st.book.rooms|
    ensures r < |Move(st, w).book.rooms|
    ensures Move(st, w).book.rooms[r].gen ==
      st.book.rooms[r].gen + if ComesFree(st, Move(st, w), r) then 1 else 0
  {
    hide BookShape, ConnShape, SeatInv, JoinInv, MemberInv, RefInv, ConnInv, PartingInv, FreeInv, ListInv;
    hide LoadInv, OpenInv, LifeInv, LeaveInv, MemberTags, JoinTags, Rehome, CarrySeats, MovedMembers;
    MoveSetting(st, w);
    Sized(st);
    MoveFields(st.book, RoomAt(st, w));
  }
}
