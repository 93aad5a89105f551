/** A room transfer keeps the invariant: seats, members, queues and references all arrive. */
module LifetimeMove {
  import opened Sessions
  import opened Inputs
  import opened Rooms
  import opened Lifetime
  import opened LifetimeInv
  import opened LifetimeDeltas
  import opened LifetimeSteps

  /** Some queued entry brings this seat. */
  predicate Brings(joins: seq<JoinEntry>, i: nat) {
    exists k :: 0 <= k < |joins| && joins[k].seat == i
  }

  lemma {:induction false} CarrySeatsAt(seats: seq<bool>, joins: seq<JoinEntry>, i: nat)
    requires |seats| == SEATS && i < SEATS
    ensures CarrySeats(seats, joins)[i] <==> seats[i] || Brings(joins, i)
    decreases |joins|
  {
    if joins != [] {
      var next := if joins[0].seat < SEATS then seats[joins[0].seat := true] else seats;
      CarrySeatsAt(next, joins[1..], i);
      if k :| 0 <= k < |joins| && joins[k].seat == i {
        if k > 0 { assert joins[1..][k - 1].seat == i; }
      }
    }
  }

  lemma {:induction false} RehomeAt(slots: seq<Slot>, tags: seq<(nat, nat)>, r: nat, s: nat)
    requires s < |slots|
    ensures Rehome(slots, tags, r)[s] ==
      if (s, slots[s].gen) in tags then slots[s].(roomIdx := r) else slots[s]
    decreases |tags|
  {
    if tags != [] {
      var (t, g) := tags[0];
      var next := if t < |slots| && slots[t].gen == g then slots[t := slots[t].(roomIdx := r)] else slots;
      RehomeAt(next, tags[1..], r, s);
      assert (s, slots[s].gen) in tags <==> (t, g) == (s, slots[s].gen) || (s, slots[s].gen) in tags[1..];
    }
  }

  lemma {:induction false} MemberTagsAt(ms: seq<Member>, x: (nat, nat))
    ensures x in MemberTags(ms) <==> exists i :: 0 <= i < |ms| && ms[i].used && (ms[i].sess, ms[i].gen) == x
  {
    if ms != [] {
      MemberTagsAt(ms[1..], x);
      if i :| 0 <= i < |ms| && ms[i].used && (ms[i].sess, ms[i].gen) == x {
        if i > 0 { assert ms[1..][i - 1].used; }
      }
      if i :| 0 <= i < |ms[1..]| && ms[1..][i].used && (ms[1..][i].sess, ms[1..][i].gen) == x {
        assert ms[i + 1].used;
      }
    }
  }

  lemma {:induction false} JoinTagsAt(js: seq<JoinEntry>, x: (nat, nat))
    ensures x in JoinTags(js) <==> exists k :: 0 <= k < |js| && (js[k].sess, js[k].gen) == x
  {
    if js != [] {
      JoinTagsAt(js[1..], x);
      if k :| 0 <= k < |js| && (js[k].sess, js[k].gen) == x {
        if k > 0 { assert (js[1..][k - 1].sess, js[1..][k - 1].gen) == x; }
      }
      if k :| 0 <= k < |js[1..]| && (js[1..][k].sess, js[1..][k].gen) == x {
        assert (js[k + 1].sess, js[k + 1].gen) == x;
      }
    }
  }

  lemma MemberTagIff(rooms: seq<Room>, loc: seq<Loc>, slots: seq<Slot>, r: nat, s: nat)
    requires MemberInv(rooms, loc, slots) && r < |rooms| && s < |loc|
    ensures (s, slots[s].gen) in MemberTags(rooms[r].members) <==> IsSeated(loc[s]) && loc[s].room == r
  {
    MemberTagsAt(rooms[r].members, (s, slots[s].gen));
    if IsSeated(loc[s]) && loc[s].room == r {
      assert rooms[r].members[loc[s].seat].used;
    }
  }

  lemma JoinTagIff(rooms: seq<Room>, loc: seq<Loc>, slots: seq<Slot>, r: nat, s: nat)
    requires JoinInv(rooms, loc, slots) && r < |rooms| && s < |loc|
    ensures (s, slots[s].gen) in JoinTags(Joins(rooms[r])) <==> IsPending(loc[s]) && loc[s].room == r
  {
    var x := (s, slots[s].gen);
    var js := Joins(rooms[r]);
    JoinTagsAt(js, x);
    if IsPending(loc[s]) && loc[s].room == r {
      var k :| 0 <= k < |js| && js[k] == JoinEntry(s, slots[s].gen, loc[s].seat);
      assert (js[k].sess, js[k].gen) == x;
    }
  }

  /** The slots a transfer rewrites are exactly those whose session holds a seat in the room. */
  lemma TagsAreHolders(rooms: seq<Room>, loc: seq<Loc>, slots: seq<Slot>, r: nat, s: nat)
    requires JoinInv(rooms, loc, slots) && MemberInv(rooms, loc, slots)
    requires r < |rooms| && s < |loc| && rooms[r].takenJ == []
    requires loc[s].Held? ==> Placed(loc[s])
    ensures (s, slots[s].gen) in MemberTags(rooms[r].members) + JoinTags(rooms[r].pendJ) <==>
      loc[s].Held? && loc[s].room == r
  {
    hide JoinInv, MemberInv;
    MemberTagIff(rooms, loc, slots, r, s);
    JoinTagIff(rooms, loc, slots, r, s);
    assert Joins(rooms[r]) == rooms[r].pendJ;
  }

  /** While no thread is inside Join, the used seats are those of members and of queued entries. */
  lemma CarriedSeats(rooms: seq<Room>, seatBy: seq<seq<int>>, loc: seq<Loc>, slots: seq<Slot>, r: nat)
    requires SeatInv(rooms, seatBy, loc) && JoinInv(rooms, loc, slots) && MemberInv(rooms, loc, slots)
    requires r < |rooms| && rooms[r].takenJ == []
    requires forall s :: 0 <= s < |loc| && loc[s].Held? ==> Placed(loc[s])
    ensures CarrySeats(MemberSeats(rooms[r].members), rooms[r].pendJ) == rooms[r].seatUsed
  {
    var room := rooms[r];
    assert |room.seatUsed| == SEATS && |room.members| == SEATS;
    hide SeatInv, JoinInv, MemberInv, CarrySeats, Brings;
    var seats := CarrySeats(MemberSeats(room.members), room.pendJ);
    assert Joins(room) == room.pendJ;
    forall i | 0 <= i < SEATS ensures seats[i] == room.seatUsed[i] {
      CarrySeatsAt(MemberSeats(room.members), room.pendJ, i);
      SeatHolder(rooms, seatBy, loc, slots, r, i);
    }
  }

  lemma SeatHolder(rooms: seq<Room>, seatBy: seq<seq<int>>, loc: seq<Loc>, slots: seq<Slot>, r: nat, i: nat)
    requires SeatInv(rooms, seatBy, loc) && JoinInv(rooms, loc, slots) && MemberInv(rooms, loc, slots)
    requires r < |rooms| && i < SEATS
    requires forall s :: 0 <= s < |loc| && loc[s].Held? ==> Placed(loc[s])
    ensures rooms[r].seatUsed[i] <==> rooms[r].members[i].used || Brings(Joins(rooms[r]), i)
  {
    var room := rooms[r];
    if room.seatUsed[i] {
      var s := seatBy[r][i];
      if IsPending(loc[s]) {
        assert JoinEntry(s, slots[s].gen, i) in Joins(room);
      }
    }
    if k :| 0 <= k < |Joins(room)| && Joins(room)[k].seat == i {
      assert loc[Joins(room)[k].sess] == Held(r, i, SPending);
    }
  }

  const EMPTY_ROW: seq<int> := [-1, -1, -1, -1]

  lemma SeatMoved(rooms: seq<Room>, seatBy: seq<seq<int>>, loc: seq<Loc>, r: nat, nr: nat, moved: Room, out: Room)
    requires SeatInv(rooms, seatBy, loc)
    requires r < |rooms| && nr < |rooms| && r != nr && rooms[nr].reserved == 0
    requires moved.seatUsed == rooms[r].seatUsed && moved.reserved == rooms[r].reserved && !moved.dead
    requires out.seatUsed == NO_SEATS && out.reserved == 0
    ensures SeatInv(rooms[nr := moved][r := out], seatBy[nr := seatBy[r]][r := EMPTY_ROW], MovedLoc(loc, r, nr))
  {
    VacantSeats(rooms, seatBy, loc, nr);
  }

  lemma JoinMoved(rooms: seq<Room>, loc: seq<Loc>, slots: seq<Slot>, slots2: seq<Slot>, r: nat, nr: nat,
                  moved: Room, out: Room)
    requires JoinInv(rooms, loc, slots)
    requires r < |rooms| && nr < |rooms| && r != nr && Joins(rooms[nr]) == []
    requires Joins(moved) == Joins(rooms[r]) && Joins(out) == []
    requires |slots2| == |slots| && forall s :: 0 <= s < |slots| ==> slots2[s].gen == slots[s].gen
    ensures JoinInv(rooms[nr := moved][r := out], MovedLoc(loc, r, nr), slots2)
  {
    var rooms2, loc2 := rooms[nr := moved][r := out], MovedLoc(loc, r, nr);
    forall s | 0 <= s < |loc2| && IsPending(loc2[s])
      ensures JoinEntry(s, slots2[s].gen, loc2[s].seat) in Joins(rooms2[loc2[s].room])
    {
      assert JoinEntry(s, slots[s].gen, loc[s].seat) in Joins(rooms[loc[s].room]);
    }
  }

  lemma MemberMoved(rooms: seq<Room>, loc: seq<Loc>, slots: seq<Slot>, slots2: seq<Slot>, r: nat, nr: nat,
                    moved: Room, out: Room)
    requires MemberInv(rooms, loc, slots)
    requires r < |rooms| && nr < |rooms| && r != nr
    requires forall s :: 0 <= s < |loc| && loc[s].Held? ==> loc[s].room != nr
    requires |moved.members| == SEATS == |out.members|
    requires forall i :: 0 <= i < SEATS ==> SameSeat(rooms[r].members[i], moved.members[i])
    requires forall i :: 0 <= i < SEATS ==> !out.members[i].used
    requires moved.memberCount == rooms[r].memberCount && out.memberCount == 0
    requires |slots2| == |slots| && forall s :: 0 <= s < |slots| ==> slots2[s].gen == slots[s].gen
    ensures MemberInv(rooms[nr := moved][r := out], MovedLoc(loc, r, nr), slots2)
  {
    assert SameSeat(rooms[r].members[0], moved.members[0]) && SameSeat(rooms[r].members[1], moved.members[1]);
    assert SameSeat(rooms[r].members[2], moved.members[2]) && SameSeat(rooms[r].members[3], moved.members[3]);
  }

  lemma LeaveMoved(rooms: seq<Room>, slots: seq<Slot>, slots2: seq<Slot>, conns: seq<Conn>, r: nat, nr: nat,
                   moved: Room, out: Room)
    requires LeaveInv(rooms, slots, conns)
    requires r < |rooms| && nr < |rooms|
    requires Leaves(moved) == Leaves(rooms[r]) && Leaves(out) == []
    requires |slots2| == |slots|
    requires forall s :: 0 <= s < |slots| ==> slots2[s] == slots[s].(roomIdx := slots2[s].roomIdx)
    ensures LeaveInv(rooms[nr := moved][r := out], slots2, conns)
  {
    var rooms2 := rooms[nr := moved][r := out];
    forall q, k | 0 <= q < |rooms2| && 0 <= k < |Leaves(rooms2[q])|
      ensures LeaveOk(Leaves(rooms2[q])[k], slots2, conns)
    {
      assert LeaveOk(Leaves(rooms[if q == nr then r else q])[k], slots, conns);
    }
  }

  lemma LifeMoved(rooms: seq<Room>, home: seq<Home>, mail: seq<seq<nat>>, workers: seq<Worker>, conns: seq<Conn>,
                  lock: Lock, w: nat, r: nat, nr: nat, moved: Room, out: Room, k2: Worker)
    requires LifeInv(rooms, home, workers, conns, lock) && ListInv(mail, workers, home)
    requires w < |workers| && r < |rooms| && nr < |rooms| && home[r] == InList(w) && home[nr].InFree?
    requires !Busy(workers[w].pc) && !Busy(k2.pc) && lock.Unlocked?
    requires !moved.dead && moved.everReserved && moved.takenJ == [] && moved.takenL == []
    requires out.reserved == 0 && out.takenJ == [] && out.takenL == []
    ensures LifeInv(rooms[nr := moved][r := out], home[nr := InList(w)][r := InFree], workers[w := k2], conns, lock)
  {
    var rooms2, home2 := rooms[nr := moved][r := out], home[nr := InList(w)][r := InFree];
    var workers2 := workers[w := k2];
    forall q | 0 <= q < |rooms| ensures LifeOk(q, rooms2[q], home2[q], workers2, conns, lock) {
      assert LifeOk(q, rooms[q], home[q], workers, conns, lock);
    }
    forall v, q | 0 <= v < |workers| && 0 <= q < |rooms| && workers2[v].pc.Dooming? && AtRoom(workers2[v], q)
      ensures rooms2[q].dead
    {
      assert rooms[q].dead && q in workers[v].rooms;
    }
    FreshIsLocked(rooms, home, workers, conns, lock);
  }

  lemma FreshIsLocked(rooms: seq<Room>, home: seq<Home>, workers: seq<Worker>, conns: seq<Conn>, lock: Lock)
    requires LifeInv(rooms, home, workers, conns, lock)
    ensures forall s :: 0 <= s < |conns| && conns[s].Fresh? ==> lock.LockedBy?
  {
    forall s | 0 <= s < |conns| && conns[s].Fresh? ensures lock.LockedBy? {
      var r := conns[s].room;
      assert LifeOk(r, rooms[r], home[r], workers, conns, lock);
    }
  }

  /** Outside Join every seat holder has its entry queued or is a member. */
  lemma NobodyJoining(conns: seq<Conn>, slots: seq<Slot>, loc: seq<Loc>, rooms: nat)
    requires ConnInv(conns, slots, loc, Unlocked, rooms)
    ensures forall s :: 0 <= s < |loc| ==> !Working(conns[s]) && (loc[s].Held? ==> Placed(loc[s]))
  {
    forall s | 0 <= s < |loc| ensures !Working(conns[s]) && (loc[s].Held? ==> Placed(loc[s])) {
      assert ConnOk(conns[s], slots[s], loc[s]);
    }
  }

  lemma ConnMoved(conns: seq<Conn>, slots: seq<Slot>, slots2: seq<Slot>, loc: seq<Loc>, r: nat, nr: nat, rooms: nat)
    requires ConnInv(conns, slots, loc, Unlocked, rooms) && nr < rooms && |slots2| == |slots|
    requires forall s :: 0 <= s < |slots| ==>
      slots2[s] == if loc[s].Held? && loc[s].room == r then slots[s].(roomIdx := nr) else slots[s]
    ensures ConnInv(conns, slots2, MovedLoc(loc, r, nr), Unlocked, rooms)
  {
    NobodyJoining(conns, slots, loc, rooms);
    forall s | 0 <= s < |conns| ensures ConnOk(conns[s], slots2[s], MovedLoc(loc, r, nr)[s]) {
      assert ConnOk(conns[s], slots[s], loc[s]);
    }
  }

  /** Everything the transfer reads and writes, before it happens. */
  lemma MoveSetting(st: State, w: nat)
    requires Inv(st) && CanMove(st, w)
    ensures var r, nr := RoomAt(st, w), st.book.free[|st.book.free| - 1];
      && nr < |st.book.rooms| && r != nr && st.home[nr].InFree? && st.home[r] == InList(w)
      && st.book.rooms[nr].reserved == 0 && st.book.rooms[r].worker == w
      && st.book.rooms[r].takenJ == [] && st.book.rooms[r].takenL == []
      && nr !in st.book.open
  {
    hide SeatInv, JoinInv, MemberInv, RefInv, ConnInv, PartingInv, LeaveInv;
    WorkerRoom(st, w);
    var r, nr := RoomAt(st, w), st.book.free[|st.book.free| - 1];
    assert nr in st.book.free;
    assert LifeOk(nr, st.book.rooms[nr], st.home[nr], st.workers, st.conns, st.lock);
  }

  lemma MoveSlots(st: State, w: nat)
    requires Inv(st) && CanMove(st, w)
    ensures var r, nr := RoomAt(st, w), st.book.free[|st.book.free| - 1];
      forall s :: 0 <= s < |st.loc| ==>
        Move(st, w).pool.slots[s] ==
          if st.loc[s].Held? && st.loc[s].room == r then st.pool.slots[s].(roomIdx := nr) else st.pool.slots[s]
  {
    hide BookShape, ConnShape, SeatInv, JoinInv, MemberInv, RefInv, ConnInv;
    hide PartingInv, FreeInv, ListInv, LoadInv, OpenInv, LifeInv, LeaveInv;
    MoveSetting(st, w);
    var r, nr := RoomAt(st, w), st.book.free[|st.book.free| - 1];
    NobodyJoining(st.conns, st.pool.slots, st.loc, |st.book.rooms|);
    forall s | 0 <= s < |st.loc|
      ensures Move(st, w).pool.slots[s] ==
        if st.loc[s].Held? && st.loc[s].room == r then st.pool.slots[s].(roomIdx := nr) else st.pool.slots[s]
    {
      var tags := MemberTags(st.book.rooms[r].members) + JoinTags(st.book.rooms[r].pendJ);
      RehomeAt(st.pool.slots, tags, nr, s);
      TagsAreHolders(st.book.rooms, st.loc, st.pool.slots, r, s);
    }
  }

  lemma MoveSeats(st: State, w: nat)
    requires Inv(st) && CanMove(st, w)
    ensures SeatInv(Move(st, w).book.rooms, Move(st, w).seatBy, Move(st, w).loc)
  {
    hide BookShape, ConnShape, SeatInv, JoinInv, MemberInv, RefInv, ConnInv;
    hide PartingInv, FreeInv, ListInv, LoadInv, OpenInv, LifeInv, LeaveInv;
    hide MemberTags, JoinTags, Rehome, CarrySeats, MovedLoc;
    var t := Move(st, w);
    MoveSetting(st, w);
    Sized(st);
    var r, nr := RoomAt(st, w), st.book.free[|st.book.free| - 1];
    NobodyJoining(st.conns, st.pool.slots, st.loc, |st.book.rooms|);
    CarriedSeats(st.book.rooms, st.seatBy, st.loc, st.pool.slots, r);
    MoveFields(st.book, r);
    CountHolds(st.book.rooms, st.seatBy, st.loc, st.pool.slots, r);
    SeatMoved(st.book.rooms, st.seatBy, st.loc, r, nr, t.book.rooms[nr], t.book.rooms[r]);
  }

  /** The two rooms a transfer writes, and what of them the invariant talks about. */
  predicate MovedPair(was: Room, moved: Room, out: Room) {
    && Joins(moved) == Joins(was) && Joins(out) == [] && Leaves(moved) == Leaves(was) && Leaves(out) == []
    && moved.takenJ == [] && moved.takenL == [] && out.takenJ == [] && out.takenL == []
    && !moved.dead && moved.everReserved && out.reserved == 0
    && |moved.members| == SEATS == |out.members| == |was.members| && out.memberCount == 0
    && moved.memberCount == MembersUsed(was.members)
    && (forall i :: 0 <= i < SEATS ==> SameSeat(was.members[i], moved.members[i]))
    && (forall i :: 0 <= i < SEATS ==> !out.members[i].used)
  }

  lemma PairMoves(nr: Room, worker: nat, was: Room)
    requires |was.members| == SEATS && was.takenJ == [] && was.takenL == []
    ensures MovedPair(was, MovedIn(FreshRoom(nr, worker), was), MovedOut(was))
  {
    hide CarrySeats;
  }

  predicate Moved(st: State, t: State, w: nat, r: nat, nr: nat) {
    && nr < |st.book.rooms| == |t.book.rooms| && r < |st.book.rooms| && r < |st.home| && nr < |st.home| && nr != r
    && w < |st.workers| == |t.workers|
    && t.book.rooms == st.book.rooms[nr := t.book.rooms[nr]][r := t.book.rooms[r]]
    && t.loc == MovedLoc(st.loc, r, nr) && t.conns == st.conns && t.lock == st.lock
    && t.home == st.home[nr := InList(w)][r := InFree] && t.workers == st.workers[w := t.workers[w]]
    && t.workers[w].pc.At?
    && MovedPair(st.book.rooms[r], t.book.rooms[nr], t.book.rooms[r])
  }

  lemma MoveIs(st: State, w: nat)
    requires Shape(st) && CanMove(st, w) && RoomAt(st, w) != Top(st.book.free)
    requires st.book.rooms[RoomAt(st, w)].takenJ == [] && st.book.rooms[RoomAt(st, w)].takenL == []
    ensures Moved(st, Move(st, w), w, RoomAt(st, w), Top(st.book.free))
  {
    hide ConnShape, MemberTags, JoinTags, Rehome, MovedLoc, MovedIn, MovedOut, MovedPair;
    Sized(st);
    var r := RoomAt(st, w);
    MoveFields(st.book, r);
    PairMoves(st.book.rooms[Top(st.book.free)], st.book.rooms[r].worker, st.book.rooms[r]);
  }

  lemma MoveJoins(st: State, w: nat)
    requires Inv(st) && CanMove(st, w)
    ensures var t := Move(st, w);
      && JoinInv(t.book.rooms, t.loc, t.pool.slots)
      && MemberInv(t.book.rooms, t.loc, t.pool.slots)
  {
    hide BookShape, ConnShape, SeatInv, JoinInv, MemberInv, RefInv, ConnInv;
    hide PartingInv, FreeInv, ListInv, LoadInv, OpenInv, LifeInv, LeaveInv;
    hide Move, MovedLoc, Joins;
    var t := Move(st, w);
    MoveSetting(st, w);
    MoveIs(st, w);
    MoveSlots(st, w);
    var r, nr := RoomAt(st, w), Top(st.book.free);
    CountHolds(st.book.rooms, st.seatBy, st.loc, st.pool.slots, r);
    VacantSeats(st.book.rooms, st.seatBy, st.loc, nr);
    NoJoins(st.book.rooms, st.loc, st.pool.slots, nr);
    JoinMoved(st.book.rooms, st.loc, st.pool.slots, t.pool.slots, r, nr, t.book.rooms[nr], t.book.rooms[r]);
    MemberMoved(st.book.rooms, st.loc, st.pool.slots, t.pool.slots, r, nr, t.book.rooms[nr], t.book.rooms[r]);
  }

  lemma NoJoins(rooms: seq<Room>, loc: seq<Loc>, slots: seq<Slot>, r: nat)
    requires JoinInv(rooms, loc, slots) && r < |rooms|
    requires forall s :: 0 <= s < |loc| && loc[s].Held? ==> loc[s].room != r
    ensures Joins(rooms[r]) == []
  {
    if Joins(rooms[r]) != [] { QueueHead(rooms, loc, slots, r); }
  }

  lemma MoveLeaves(st: State, w: nat)
    requires Inv(st) && CanMove(st, w)
    ensures LeaveInv(Move(st, w).book.rooms, Move(st, w).pool.slots, Move(st, w).conns)
  {
    hide BookShape, ConnShape, SeatInv, JoinInv, MemberInv, RefInv, ConnInv;
    hide PartingInv, FreeInv, ListInv, LoadInv, OpenInv, LifeInv, LeaveInv;
    hide Move, MovedLoc, Leaves;
    var t := Move(st, w);
    MoveSetting(st, w);
    MoveIs(st, w);
    MoveSlots(st, w);
    var r, nr := RoomAt(st, w), Top(st.book.free);
    LeaveMoved(st.book.rooms, st.pool.slots, t.pool.slots, st.conns, r, nr, t.book.rooms[nr], t.book.rooms[r]);
  }

  lemma CountHolds(rooms: seq<Room>, seatBy: seq<seq<int>>, loc: seq<Loc>, slots: seq<Slot>, r: nat)
    requires SeatInv(rooms, seatBy, loc) && MemberInv(rooms, loc, slots) && r < |rooms|
    ensures rooms[r].reserved == SeatsTaken(rooms[r].seatUsed)
    ensures rooms[r].memberCount == MembersUsed(rooms[r].members)
  { }

  /** The two rooms a transfer writes. */
  lemma MoveFields(b: Book, r: nat)
    requires r < |b.rooms| && |b.rooms[r].members| == SEATS && b.rooms[r].worker < |b.load|
    requires b.free != [] && b.free[|b.free| - 1] < |b.rooms| && b.free[|b.free| - 1] != r
    ensures var t, nr, was := MoveBook(b, r), b.free[|b.free| - 1], b.rooms[r];
      && t.rooms == b.rooms[nr := t.rooms[nr]][r := t.rooms[r]]
      && t.rooms[nr] == MovedIn(FreshRoom(b.rooms[nr], was.worker), was)
      && t.rooms[r] == MovedOut(was)
      && (forall i :: 0 <= i < SEATS ==> SameSeat(was.members[i], t.rooms[nr].members[i]))
      && (forall i :: 0 <= i < SEATS ==> !t.rooms[r].members[i].used)
  { }

  lemma MoveLists(st: State, w: nat)
    requires Inv(st) && CanMove(st, w)
    ensures FreeInv(Move(st, w).book.free, Move(st, w).home)
    ensures ListInv(Move(st, w).book.mail, Move(st, w).workers, Move(st, w).home)
  {
    hide BookShape, ConnShape, SeatInv, JoinInv, MemberInv, RefInv, ConnInv;
    hide PartingInv, FreeInv, ListInv, LoadInv, OpenInv, LifeInv, LeaveInv;
    hide MemberTags, JoinTags, Rehome, MovedIn, MovedOut, MovedLoc;
    MoveSetting(st, w);
    Sized(st);
    var r, nr := RoomAt(st, w), Top(st.book.free);
    var p := st.workers[w].pc.pos;
    FreePopped(st.book.free, st.home, InList(w));
    FreeAdded(st.book.free[..|st.book.free| - 1], st.home[nr := InList(w)], r);
    ListReplaced(st.book.mail, st.workers, st.home, w, p, nr, At(p + 1));
  }

  lemma MoveLoads(st: State, w: nat)
    requires Inv(st) && CanMove(st, w)
    ensures LoadInv(Move(st, w).book.rooms, Move(st, w).home, Move(st, w).book.load)
    ensures OpenInv(Move(st, w).book.open, Move(st, w).home, Move(st, w).book.rooms)
  {
    hide BookShape, ConnShape, SeatInv, JoinInv, MemberInv, RefInv, ConnInv;
    hide PartingInv, FreeInv, ListInv, LoadInv, OpenInv, LifeInv, LeaveInv;
    hide MemberTags, JoinTags, Rehome, MovedLoc, CarrySeats;
    MoveSetting(st, w);
    Sized(st);
    var r, nr := RoomAt(st, w), Top(st.book.free);
    MoveFields(st.book, r);
    var t := MoveBook(st.book, r);
    var was, moved, out := st.book.rooms[r], t.rooms[nr], t.rooms[r];
    LoadAdded(st.book.rooms, st.home, st.book.load, nr, moved, InList(w));
    LoadRemoved(st.book.rooms[nr := moved], st.home[nr := InList(w)], st.book.load[w := st.book.load[w] + 1], r, out);
    MoveOpen(st.book.open, st.home, st.book.rooms, r, nr, w, moved, out);
  }

  lemma MoveLife(st: State, w: nat)
    requires Inv(st) && CanMove(st, w)
    ensures var t := Move(st, w);
      LifeInv(t.book.rooms, t.home, t.workers, t.conns, t.lock)
  {
    hide BookShape, ConnShape, SeatInv, JoinInv, MemberInv, RefInv, ConnInv;
    hide PartingInv, FreeInv, ListInv, LoadInv, OpenInv, LifeInv, LeaveInv, Move, MovedLoc;
    var t := Move(st, w);
    MoveSetting(st, w);
    MoveIs(st, w);
    var r, nr := RoomAt(st, w), Top(st.book.free);
    LifeMoved(st.book.rooms, st.home, st.book.mail, st.workers, st.conns, st.lock,
              w, r, nr, t.book.rooms[nr], t.book.rooms[r], t.workers[w]);
  }

  lemma MoveOpen(open: seq<nat>, home: seq<Home>, rooms: seq<Room>, r: nat, nr: nat, w: nat, moved: Room, out: Room)
    requires OpenInv(open, home, rooms) && r < |rooms| && nr < |rooms| && r != nr && nr !in open
    requires moved.everReserved && home[nr].InFree?
    ensures var home2, rooms2 := home[nr := InList(w)][r := InFree], rooms[nr := moved][r := out];
      && OpenInv(SwapRemove(open, r), home2, rooms2)
      && OpenInv(SwapRemove(open, r) + [nr], home2, rooms2)
  {
    OpenFrame(open, home, home[nr := InList(w)], rooms, rooms[nr := moved]);
    OpenRemoved(open, home[nr := InList(w)], rooms[nr := moved], r, out);
    SwapRemoveKeeps(open, r, 0);
    OpenAdded(SwapRemove(open, r), home[nr := InList(w)][r := InFree], rooms[nr := moved][r := out], nr);
  }

  lemma MoveKeeps(st: State, w: nat)
    requires Inv(st) && CanMove(st, w)
    ensures Inv(Move(st, w))
  {
    hide BookShape, ConnShape, SeatInv, JoinInv, MemberInv, RefInv, ConnInv;
    hide PartingInv, FreeInv, ListInv, LoadInv, OpenInv, LifeInv, LeaveInv;
    hide MemberTags, JoinTags, Rehome, MoveBook;
    var t := Move(st, w);
    MoveSetting(st, w);
    MoveSlots(st, w);
    MoveSeats(st, w);
    MoveJoins(st, w);
    MoveLeaves(st, w);
    MoveLists(st, w);
    MoveLoads(st, w);
    MoveLife(st, w);
    var r, nr := RoomAt(st, w), st.book.free[|st.book.free| - 1];
    RefFrame(st.pool, t.pool, st.conns, t.conns, st.loc, t.loc);
    ConnMoved(st.conns, st.pool.slots, t.pool.slots, st.loc, r, nr, |st.book.rooms|);
    PartingFrame(st.loc, t.loc, st.workers, t.workers);
  }
}
