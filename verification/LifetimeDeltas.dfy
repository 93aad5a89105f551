/** How each part of the invariant survives each kind of local change. */
module LifetimeDeltas {
  import opened Sessions
  import opened Inputs
  import opened Rooms
  import opened Lifetime
  import opened LifetimeInv

  // ---- Seats ------------------------------------------------------------------------------

  predicate SamePlace(a: Loc, b: Loc) {
    if a.Held? then b.Held? && a.room == b.room && a.seat == b.seat else !b.Held?
  }

  lemma SeatFrame(rooms: seq<Room>, rooms2: seq<Room>, seatBy: seq<seq<int>>, loc: seq<Loc>, loc2: seq<Loc>)
    requires SeatInv(rooms, seatBy, loc)
    requires |rooms2| == |rooms| && |loc2| == |loc|
    requires forall r :: 0 <= r < |rooms| ==>
      rooms2[r].seatUsed == rooms[r].seatUsed && rooms2[r].reserved == rooms[r].reserved &&
      (rooms2[r].dead ==> rooms[r].dead || rooms2[r].reserved == 0)
    requires forall s :: 0 <= s < |loc| ==> SamePlace(loc[s], loc2[s])
    ensures SeatInv(rooms2, seatBy, loc2)
  { }

  lemma SeatCount(seats: seq<bool>, i: nat, b: bool)
    requires |seats| == SEATS && i < SEATS && seats[i] != b
    ensures SeatsTaken(seats[i := b]) == SeatsTaken(seats) + (if b then 1 else -1)
  { }

  lemma MemberCount(ms: seq<Member>, i: nat, m: Member)
    requires |ms| == SEATS && i < SEATS && ms[i].used != m.used
    ensures MembersUsed(ms[i := m]) == MembersUsed(ms) + (if m.used then 1 else -1)
  { }

  lemma SeatTaken(rooms: seq<Room>, seatBy: seq<seq<int>>, loc: seq<Loc>, r: nat, i: nat, s: nat,
                  room2: Room, stage: Stage)
    requires SeatInv(rooms, seatBy, loc)
    requires r < |rooms| && i < SEATS && s < |loc| && !loc[s].Held? && !rooms[r].seatUsed[i]
    requires room2.seatUsed == rooms[r].seatUsed[i := true] && room2.reserved == rooms[r].reserved + 1
    requires !room2.dead
    ensures SeatInv(rooms[r := room2], seatBy[r := seatBy[r][i := s]], loc[s := Held(r, i, stage)])
  {
    SeatCount(rooms[r].seatUsed, i, true);
  }

  lemma SeatGiven(rooms: seq<Room>, seatBy: seq<seq<int>>, loc: seq<Loc>, s: nat, room2: Room, l2: Loc)
    requires SeatInv(rooms, seatBy, loc)
    requires s < |loc| && loc[s].Held? && !l2.Held?
    requires var r, i := loc[s].room, loc[s].seat;
      room2.seatUsed == rooms[r].seatUsed[i := false] && room2.reserved == rooms[r].reserved - 1 &&
      room2.dead == rooms[r].dead
    ensures var r, i := loc[s].room, loc[s].seat;
      SeatInv(rooms[r := room2], seatBy[r := seatBy[r][i := -1]], loc[s := l2])
  {
    SeatCount(rooms[loc[s].room].seatUsed, loc[s].seat, false);
  }

  // ---- Join entries -----------------------------------------------------------------------

  lemma JoinFrame(rooms: seq<Room>, rooms2: seq<Room>, loc: seq<Loc>, loc2: seq<Loc>,
                  slots: seq<Slot>, slots2: seq<Slot>)
    requires JoinInv(rooms, loc, slots)
    requires |rooms2| == |rooms| && |loc2| == |loc| && |slots2| == |slots|
    requires forall r :: 0 <= r < |rooms| ==> Joins(rooms2[r]) == Joins(rooms[r])
    requires forall s :: 0 <= s < |loc| && (IsPending(loc[s]) || IsPending(loc2[s])) ==>
      loc2[s] == loc[s] && slots2[s].gen == slots[s].gen
    ensures JoinInv(rooms2, loc2, slots2)
  { }

  lemma JoinAdded(rooms: seq<Room>, loc: seq<Loc>, slots: seq<Slot>, r: nat, i: nat, s: nat, room2: Room)
    requires JoinInv(rooms, loc, slots)
    requires r < |rooms| && s < |loc| && !IsPending(loc[s])
    requires Joins(room2) == Joins(rooms[r]) + [JoinEntry(s, slots[s].gen, i)]
    ensures JoinInv(rooms[r := room2], loc[s := Held(r, i, SPending)], slots)
  {
    var loc2 := loc[s := Held(r, i, SPending)];
    var rooms2 := rooms[r := room2];
    assert Joins(room2)[|Joins(rooms[r])|] == JoinEntry(s, slots[s].gen, i);
    forall t | 0 <= t < |loc2| && IsPending(loc2[t])
      ensures JoinEntry(t, slots[t].gen, loc2[t].seat) in Joins(rooms2[loc2[t].room])
    {
      if t != s { assert JoinEntry(t, slots[t].gen, loc[t].seat) in Joins(rooms[loc[t].room]); }
    }
  }

  lemma JoinRemoved(rooms: seq<Room>, loc: seq<Loc>, slots: seq<Slot>, r: nat, room2: Room, l2: Loc)
    requires JoinInv(rooms, loc, slots)
    requires r < |rooms| && Joins(rooms[r]) != [] && Joins(room2) == Joins(rooms[r])[1..] && !IsPending(l2)
    ensures Joins(rooms[r])[0].sess < |loc|
    ensures JoinInv(rooms[r := room2], loc[Joins(rooms[r])[0].sess := l2], slots)
  {
    var s := Joins(rooms[r])[0].sess;
    var loc2 := loc[s := l2];
    var rooms2 := rooms[r := room2];
    forall t | 0 <= t < |loc2| && IsPending(loc2[t])
      ensures JoinEntry(t, slots[t].gen, loc2[t].seat) in Joins(rooms2[loc2[t].room])
    {
      var e := JoinEntry(t, slots[t].gen, loc[t].seat);
      assert e in Joins(rooms[loc[t].room]);
      if loc[t].room == r {
        var k :| 0 <= k < |Joins(rooms[r])| && Joins(rooms[r])[k] == e;
        assert Joins(room2)[k - 1] == e;
      }
    }
  }

  // ---- Members ----------------------------------------------------------------------------

  predicate SameSeat(a: Member, b: Member) {
    a.used == b.used && (a.used ==> a.sess == b.sess && a.gen == b.gen)
  }

  lemma MemberFrame(rooms: seq<Room>, rooms2: seq<Room>, loc: seq<Loc>, loc2: seq<Loc>,
                    slots: seq<Slot>, slots2: seq<Slot>)
    requires MemberInv(rooms, loc, slots)
    requires |rooms2| == |rooms| && |loc2| == |loc| && |slots2| == |slots|
    requires forall r :: 0 <= r < |rooms| ==>
      |rooms2[r].members| == |rooms[r].members| && rooms2[r].memberCount == rooms[r].memberCount
    requires forall r, i :: 0 <= r < |rooms| && 0 <= i < |rooms[r].members| ==>
      SameSeat(rooms[r].members[i], rooms2[r].members[i])
    requires forall s :: 0 <= s < |loc| && (IsSeated(loc[s]) || IsSeated(loc2[s])) ==>
      loc2[s] == loc[s] && slots2[s].gen == slots[s].gen
    ensures MemberInv(rooms2, loc2, slots2)
  {
    forall r | 0 <= r < |rooms| ensures rooms2[r].memberCount == MembersUsed(rooms2[r].members) {
      assert forall i :: 0 <= i < SEATS ==> SameSeat(rooms[r].members[i], rooms2[r].members[i]);
    }
    forall r, i | 0 <= r < |rooms| && 0 <= i < SEATS && rooms2[r].members[i].used
      ensures rooms2[r].members[i].sess < |loc2|
      ensures loc2[rooms2[r].members[i].sess] == Held(r, i, SSeated)
      ensures rooms2[r].members[i].gen == slots2[rooms2[r].members[i].sess].gen
    {
      assert SameSeat(rooms[r].members[i], rooms2[r].members[i]);
    }
  }

  lemma MemberAdded(rooms: seq<Room>, loc: seq<Loc>, slots: seq<Slot>, r: nat, i: nat, s: nat, room2: Room)
    requires MemberInv(rooms, loc, slots)
    requires r < |rooms| && i < SEATS && s < |loc| && !IsSeated(loc[s]) && !rooms[r].members[i].used
    requires room2.members == rooms[r].members[i := Seated(s, slots[s].gen)]
    requires room2.memberCount == rooms[r].memberCount + 1
    ensures MemberInv(rooms[r := room2], loc[s := Held(r, i, SSeated)], slots)
  {
    MemberCount(rooms[r].members, i, room2.members[i]);
  }

  lemma MemberRemoved(rooms: seq<Room>, loc: seq<Loc>, slots: seq<Slot>, r: nat, i: nat, room2: Room, l2: Loc)
    requires MemberInv(rooms, loc, slots)
    requires r < |rooms| && i < SEATS && rooms[r].members[i].used && !IsSeated(l2)
    requires room2.members == rooms[r].members[i := rooms[r].members[i].(used := false)]
    requires room2.memberCount == rooms[r].memberCount - 1
    ensures rooms[r].members[i].sess < |loc|
    ensures MemberInv(rooms[r := room2], loc[rooms[r].members[i].sess := l2], slots)
  {
    MemberCount(rooms[r].members, i, room2.members[i]);
  }

  /** A room without a reserved seat holds nobody. */
  lemma VacantSeats(rooms: seq<Room>, seatBy: seq<seq<int>>, loc: seq<Loc>, r: nat)
    requires SeatInv(rooms, seatBy, loc)
    requires r < |rooms| && rooms[r].reserved == 0
    ensures rooms[r].seatUsed == NO_SEATS
    ensures forall s :: 0 <= s < |loc| && loc[s].Held? ==> loc[s].room != r
  {
    forall s | 0 <= s < |loc| && loc[s].Held? ensures loc[s].room != r {
      assert seatBy[loc[s].room][loc[s].seat] == s;
    }
  }

  lemma QueueHead(rooms: seq<Room>, loc: seq<Loc>, slots: seq<Slot>, r: nat)
    requires JoinInv(rooms, loc, slots) && r < |rooms| && Joins(rooms[r]) != []
    ensures exists s :: 0 <= s < |loc| && loc[s].Held? && loc[s].room == r
  {
    assert loc[Joins(rooms[r])[0].sess].Held?;
  }

  lemma MemberPlace(rooms: seq<Room>, loc: seq<Loc>, slots: seq<Slot>, r: nat, i: nat)
    requires MemberInv(rooms, loc, slots) && r < |rooms| && i < SEATS && rooms[r].members[i].used
    ensures exists s :: 0 <= s < |loc| && loc[s].Held? && loc[s].room == r
  {
    assert loc[rooms[r].members[i].sess].Held?;
  }

  /** Resetting a room in which nobody holds a seat. */
  lemma FreshLedger(rooms: seq<Room>, seatBy: seq<seq<int>>, loc: seq<Loc>, slots: seq<Slot>, r: nat, w: nat)
    requires SeatInv(rooms, seatBy, loc) && JoinInv(rooms, loc, slots) && MemberInv(rooms, loc, slots)
    requires r < |rooms| && rooms[r].reserved == 0
    ensures SeatInv(rooms[r := FreshRoom(rooms[r], w)], seatBy, loc)
    ensures JoinInv(rooms[r := FreshRoom(rooms[r], w)], loc, slots)
    ensures MemberInv(rooms[r := FreshRoom(rooms[r], w)], loc, slots)
  {
    hide SeatInv, JoinInv, MemberInv;
    var room2 := FreshRoom(rooms[r], w);
    VacantSeats(rooms, seatBy, loc, r);
    assert Joins(rooms[r]) == [] by {
      if Joins(rooms[r]) != [] { QueueHead(rooms, loc, slots, r); }
    }
    assert Joins(room2) == [];
    VacantMembers(rooms, loc, slots, r);
    SeatFrame(rooms, rooms[r := room2], seatBy, loc, loc);
    JoinFrame(rooms, rooms[r := room2], loc, loc, slots, slots);
    MemberFrame(rooms, rooms[r := room2], loc, loc, slots, slots);
  }

  lemma VacantMembers(rooms: seq<Room>, loc: seq<Loc>, slots: seq<Slot>, r: nat)
    requires MemberInv(rooms, loc, slots)
    requires r < |rooms| && forall s :: 0 <= s < |loc| && loc[s].Held? ==> loc[s].room != r
    ensures |rooms[r].members| == SEATS
    ensures rooms[r].memberCount == 0 && forall i :: 0 <= i < SEATS ==> !rooms[r].members[i].used
  {
    forall i | 0 <= i < SEATS ensures !rooms[r].members[i].used {
      if rooms[r].members[i].used { MemberPlace(rooms, loc, slots, r, i); }
    }
  }

  // ---- References -------------------------------------------------------------------------

  lemma RefFrame(p: Pool, p2: Pool, conns: seq<Conn>, conns2: seq<Conn>, loc: seq<Loc>, loc2: seq<Loc>)
    requires RefInv(p, conns, loc)
    requires |conns2| == |conns| && |loc2| == |loc| && |p2.slots| == |p.slots| && p2.free == p.free
    requires forall s :: 0 <= s < |loc| ==>
      p2.slots[s].refs == p.slots[s].refs && NetRefs(conns2[s]) == NetRefs(conns[s]) &&
      RoomRefs(loc2[s]) == RoomRefs(loc[s])
    ensures RefInv(p2, conns2, loc2)
  { }

  lemma RefReleased(p: Pool, conns: seq<Conn>, loc: seq<Loc>, s: nat, c2: Conn, l2: Loc)
    requires RefInv(p, conns, loc) && s < |loc|
    requires NetRefs(c2) + RoomRefs(l2) + 1 == NetRefs(conns[s]) + RoomRefs(loc[s])
    ensures RefInv(Release(p, s), conns[s := c2], loc[s := l2])
  {
    var p2 := Release(p, s);
    if p.slots[s].refs == 1 {
      assert p2.free[|p.free|] == s;
      assert forall t :: t in p2.free <==> t in p.free || t == s;
    }
  }

  lemma RefAdded(p: Pool, conns: seq<Conn>, loc: seq<Loc>, s: nat, c2: Conn, l2: Loc)
    requires RefInv(p, conns, loc) && s < |loc|
    requires NetRefs(conns[s]) == NetRefs(c2) == 1
    requires RoomRefs(l2) == RoomRefs(loc[s]) + 1
    ensures RefInv(AddRef(p, s), conns[s := c2], loc[s := l2])
  { }

  lemma RefAlloc(p: Pool, conns: seq<Conn>, loc: seq<Loc>, c2: Conn)
    requires RefInv(p, conns, loc) && p.free != [] && NetRefs(c2) == 1
    ensures RefInv(AllocSlot(p), conns[p.free[|p.free| - 1] := c2], loc)
  {
    var s := p.free[|p.free| - 1];
    assert p.free == p.free[..|p.free| - 1] + [s];
    assert s in p.free;
  }

  // ---- Partings ---------------------------------------------------------------------------

  lemma PartingFrame(loc: seq<Loc>, loc2: seq<Loc>, workers: seq<Worker>, workers2: seq<Worker>)
    requires PartingInv(loc, workers) && |loc2| == |loc| && |workers2| == |workers|
    requires forall s :: 0 <= s < |loc| && (loc[s].Parting? || loc2[s].Parting?) ==> loc2[s] == loc[s]
    requires forall w :: 0 <= w < |workers| && (workers[w].pc.Returning? || workers2[w].pc.Returning?) ==>
      workers2[w].pc.Returning? && workers[w].pc.Returning? && workers2[w].pc.sess == workers[w].pc.sess
    ensures PartingInv(loc2, workers2)
  { }

  /** A worker has given a seat back and holds the reference until its next action. */
  lemma PartingStarted(loc: seq<Loc>, workers: seq<Worker>, w: nat, s: nat, k2: Worker)
    requires PartingInv(loc, workers)
    requires w < |workers| && s < |loc| && !loc[s].Parting? && !workers[w].pc.Returning?
    requires k2.pc.Returning? && k2.pc.sess == s
    ensures PartingInv(loc[s := Parting(w)], workers[w := k2])
  { }

  lemma PartingEnded(loc: seq<Loc>, workers: seq<Worker>, w: nat, k2: Worker)
    requires PartingInv(loc, workers) && w < |workers| && workers[w].pc.Returning? && !k2.pc.Returning?
    ensures var s := workers[w].pc.sess;
      && s < |loc| && loc[s] == Parting(w)
      && PartingInv(loc[s := Away], workers[w := k2])
  { }

  // ---- Ownership --------------------------------------------------------------------------

  lemma LoadFrame(rooms: seq<Room>, rooms2: seq<Room>, home: seq<Home>, load: seq<int>)
    requires LoadInv(rooms, home, load)
    requires |rooms2| == |rooms|
    requires forall r :: 0 <= r < |rooms| ==> rooms2[r].worker == rooms[r].worker
    ensures LoadInv(rooms2, home, load)
  {
    forall w | 0 <= w < |load| ensures load[w] == |RoomsOf(rooms2, home, w)| {
      assert RoomsOf(rooms2, home, w) == RoomsOf(rooms, home, w);
    }
  }

  lemma LoadAdded(rooms: seq<Room>, home: seq<Home>, load: seq<int>, r: nat, room2: Room, h2: Home)
    requires LoadInv(rooms, home, load)
    requires r < |rooms| && home[r].InFree? && !h2.InFree? && h2.worker == room2.worker < |load|
    ensures LoadInv(rooms[r := room2], home[r := h2], load[room2.worker := load[room2.worker] + 1])
  {
    var rooms2, home2 := rooms[r := room2], home[r := h2];
    forall w | 0 <= w < |load|
      ensures |RoomsOf(rooms2, home2, w)| == load[w] + (if w == room2.worker then 1 else 0)
    {
      assert RoomsOf(rooms2, home2, w) == RoomsOf(rooms, home, w) + (if w == room2.worker then {r} else {});
    }
  }

  lemma LoadRemoved(rooms: seq<Room>, home: seq<Home>, load: seq<int>, r: nat, room2: Room)
    requires LoadInv(rooms, home, load)
    requires r < |rooms| && !home[r].InFree?
    ensures LoadInv(rooms[r := room2], home[r := InFree], load[rooms[r].worker := load[rooms[r].worker] - 1])
  {
    var rooms2, home2 := rooms[r := room2], home[r := InFree];
    var v := rooms[r].worker;
    assert r in RoomsOf(rooms, home, v);
    forall w | 0 <= w < |load|
      ensures |RoomsOf(rooms2, home2, w)| == load[w] - (if w == v then 1 else 0)
    {
      assert RoomsOf(rooms2, home2, w) == RoomsOf(rooms, home, w) - (if w == v then {r} else {});
    }
  }

  lemma OpenPopped(open: seq<nat>, home: seq<Home>, rooms: seq<Room>)
    requires OpenInv(open, home, rooms) && open != []
    ensures OpenInv(open[..|open| - 1], home, rooms)
  { }

  lemma OpenAdded(open: seq<nat>, home: seq<Home>, rooms: seq<Room>, r: nat)
    requires OpenInv(open, home, rooms) && r < |home| && r !in open
    requires !home[r].InFree? && rooms[r].everReserved
    ensures OpenInv(open + [r], home, rooms)
  { }

  lemma OpenFrame(open: seq<nat>, home: seq<Home>, home2: seq<Home>, rooms: seq<Room>, rooms2: seq<Room>)
    requires OpenInv(open, home, rooms) && |home2| == |home| == |rooms2|
    requires forall r :: 0 <= r < |home| && !home[r].InFree? ==>
      !home2[r].InFree? && (rooms[r].everReserved ==> rooms2[r].everReserved)
    ensures OpenInv(open, home2, rooms2)
  { }

  lemma OpenRemoved(open: seq<nat>, home: seq<Home>, rooms: seq<Room>, r: nat, room2: Room)
    requires OpenInv(open, home, rooms) && r < |home|
    ensures OpenInv(SwapRemove(open, r), home[r := InFree], rooms[r := room2])
  {
    SwapRemoveKeeps(open, r, 0);
    var t := SwapRemove(open, r);
    forall k | 0 <= k < |t| ensures t[k] < |home| {
      assert t[k] in t;
    }
  }

  lemma FreePopped(free: seq<nat>, home: seq<Home>, h2: Home)
    requires FreeInv(free, home) && free != [] && !h2.InFree?
    ensures FreeInv(free[..|free| - 1], home[free[|free| - 1] := h2])
  {
    assert free == free[..|free| - 1] + [free[|free| - 1]];
  }

  lemma FreeAdded(free: seq<nat>, home: seq<Home>, r: nat)
    requires FreeInv(free, home) && r < |home| && !home[r].InFree?
    ensures FreeInv(free + [r], home[r := InFree])
  { }

  lemma ListMailed(mail: seq<seq<nat>>, workers: seq<Worker>, home: seq<Home>, r: nat, w: nat)
    requires ListInv(mail, workers, home) && r < |home| && w < |mail| && home[r].InFree?
    ensures ListInv(mail[w := mail[w] + [r]], workers, home[r := InMail(w)])
  {
    assert r !in mail[w];
  }

  lemma ListDrained(mail: seq<seq<nat>>, workers: seq<Worker>, home: seq<Home>, w: nat, home2: seq<Home>, pc: Pc)
    requires ListInv(mail, workers, home) && w < |mail| && |home2| == |home|
    requires forall r :: 0 <= r < |home| ==> home2[r] == if home[r] == InMail(w) then InList(w) else home[r]
    ensures ListInv(mail[w := []], workers[w := Worker(workers[w].rooms + mail[w], pc)], home2)
  {
    var joined := workers[w].rooms + mail[w];
    forall i, j | 0 <= i < j < |joined| ensures joined[i] != joined[j] {
      assert NoDup(workers[w].rooms) && NoDup(mail[w]);
      var n := |workers[w].rooms|;
      if i < n <= j {
        assert joined[i] == workers[w].rooms[i] && joined[j] == mail[w][j - n];
        assert joined[i] in workers[w].rooms && joined[j] in mail[w];
        assert home[joined[i]] == InList(w) && home[joined[j]] == InMail(w);
      } else if n <= i {
        assert joined[i] == mail[w][i - n] && joined[j] == mail[w][j - n];
      } else {
        assert joined[i] == workers[w].rooms[i] && joined[j] == workers[w].rooms[j];
        assert workers[w].rooms[i] != workers[w].rooms[j];
      }
    }
  }

  /** Dropping position `p` of a list by moving its last element there. */
  lemma DropAt(s: seq<nat>, p: nat)
    requires NoDup(s) && p < |s|
    ensures NoDup(s[p := s[|s| - 1]][..|s| - 1])
    ensures forall y :: y in s[p := s[|s| - 1]][..|s| - 1] <==> y in s && y != s[p]
  {
    var t := s[p := s[|s| - 1]][..|s| - 1];
    forall y | y in s && y != s[p] ensures y in t {
      var k :| 0 <= k < |s| && s[k] == y;
      if k == |s| - 1 { assert t[p] == y; } else { assert t[k] == y; }
    }
    forall y | y in t ensures y in s && y != s[p] {
      var k :| 0 <= k < |t| && t[k] == y;
      assert y == if k == p then s[|s| - 1] else s[k];
    }
  }

  lemma ListDropped(mail: seq<seq<nat>>, workers: seq<Worker>, home: seq<Home>, w: nat, p: nat, pc: Pc)
    requires ListInv(mail, workers, home) && w < |workers| && p < |workers[w].rooms|
    ensures workers[w].rooms[p] < |home|
    ensures var s := workers[w].rooms;
      ListInv(mail, workers[w := Worker(s[p := s[|s| - 1]][..|s| - 1], pc)], home[s[p] := InFree])
  {
    var s := workers[w].rooms;
    DropAt(s, p);
    assert s[p] in s && home[s[p]] == InList(w);
    var t := s[p := s[|s| - 1]][..|s| - 1];
    var home2, workers2 := home[s[p] := InFree], workers[w := Worker(t, pc)];
    forall k | 0 <= k < |t| ensures t[k] < |home| {
      assert t[k] in t;
    }
    forall v, r | 0 <= v < |workers| && 0 <= r < |home|
      ensures r in workers2[v].rooms <==> home2[r] == InList(v)
    {
      assert r in workers[v].rooms <==> home[r] == InList(v);
    }
  }

  lemma ListReplaced(mail: seq<seq<nat>>, workers: seq<Worker>, home: seq<Home>, w: nat, p: nat, nr: nat, pc: Pc)
    requires ListInv(mail, workers, home) && w < |workers| && p < |workers[w].rooms|
    requires nr < |home| && home[nr].InFree?
    ensures workers[w].rooms[p] < |home|
    ensures var s := workers[w].rooms;
      ListInv(mail, workers[w := Worker(s[p := nr], pc)], home[nr := InList(w)][s[p] := InFree])
  {
    var s := workers[w].rooms;
    assert s[p] in s && nr !in s;
    forall y ensures y in s[p := nr] <==> (y in s && y != s[p]) || y == nr {
      if y in s && y != s[p] {
        var k :| 0 <= k < |s| && s[k] == y;
        assert s[p := nr][k] == y;
      }
      assert s[p := nr][p] == nr;
    }
    assert home[s[p]] == InList(w);
    var home2, workers2 := home[nr := InList(w)][s[p] := InFree], workers[w := Worker(s[p := nr], pc)];
    forall v, r | 0 <= v < |workers| && 0 <= r < |home|
      ensures r in workers2[v].rooms <==> home2[r] == InList(v)
    {
      assert r in workers[v].rooms <==> home[r] == InList(v);
    }
  }

  lemma ListFrame(mail: seq<seq<nat>>, workers: seq<Worker>, workers2: seq<Worker>, home: seq<Home>)
    requires ListInv(mail, workers, home) && |workers2| == |workers|
    requires forall w :: 0 <= w < |workers| ==> workers2[w].rooms == workers[w].rooms
    ensures ListInv(mail, workers2, home)
  { }

  // ---- Life -------------------------------------------------------------------------------

  predicate LifeSame(a: Room, b: Room, h: Home) {
    && b.dead == a.dead && b.everReserved == a.everReserved
    && b.takenJ == a.takenJ && b.takenL == a.takenL
    && (b.reserved == a.reserved || (a.everReserved && !h.InFree?))
  }

  /** A network thread changes its own state and at most seats and queues of rooms. */
  lemma LifeConn(rooms: seq<Room>, rooms2: seq<Room>, home: seq<Home>, workers: seq<Worker>,
                 conns: seq<Conn>, s: nat, c2: Conn, lock: Lock, lock2: Lock)
    requires LifeInv(rooms, home, workers, conns, lock)
    requires s < |conns| && !conns[s].Fresh? && !c2.Fresh?
    requires |rooms2| == |rooms| && forall r :: 0 <= r < |rooms| ==> LifeSame(rooms[r], rooms2[r], home[r])
    requires lock2 == lock || lock.Unlocked? || lock == LockedBy(s)
    ensures LifeInv(rooms2, home, workers, conns[s := c2], lock2)
  {
    forall r | 0 <= r < |rooms|
      ensures LifeOk(r, rooms2[r], home[r], workers, conns[s := c2], lock2)
    {
      assert LifeOk(r, rooms[r], home[r], workers, conns, lock);
      assert LifeSame(rooms[r], rooms2[r], home[r]);
    }
    forall t | 0 <= t < |conns| && conns[s := c2][t].Fresh?
      ensures !rooms2[conns[t].room].everReserved && rooms2[conns[t].room].reserved == 0
    {
      assert LifeSame(rooms[conns[t].room], rooms2[conns[t].room], home[conns[t].room]);
    }
  }

  predicate Busy(pc: Pc) { pc.Batch? || pc.Returning? || pc.Dooming? }

  /** A worker acts on the room it is at. */
  lemma LifeWork(rooms: seq<Room>, home: seq<Home>, mail: seq<seq<nat>>, workers: seq<Worker>,
                 conns: seq<Conn>, lock: Lock, w: nat, r: nat, room2: Room, pc2: Pc)
    requires LifeInv(rooms, home, workers, conns, lock) && ListInv(mail, workers, home)
    requires w < |workers| && r < |rooms| && AtRoom(workers[w], r)
    requires !pc2.Idle? && pc2.pos == workers[w].pc.pos
    requires (room2.dead <==> pc2.Dooming?) && (pc2.Dooming? ==> rooms[r].everReserved)
    requires room2.everReserved == rooms[r].everReserved
    requires room2.reserved == rooms[r].reserved || rooms[r].reserved != 0
    requires room2.takenJ != [] || room2.takenL != [] ==> pc2.Batch? || pc2.Returning?
    ensures LifeInv(rooms[r := room2], home, workers[w := workers[w].(pc := pc2)], conns, lock)
  {
    var rooms2, workers2 := rooms[r := room2], workers[w := workers[w].(pc := pc2)];
    assert r in workers[w].rooms && home[r] == InList(w);
    forall q | 0 <= q < |rooms| ensures LifeOk(q, rooms2[q], home[q], workers2, conns, lock) {
      assert LifeOk(q, rooms[q], home[q], workers, conns, lock);
    }
    forall t | 0 <= t < |conns| && conns[t].Fresh?
      ensures !rooms2[conns[t].room].everReserved && rooms2[conns[t].room].reserved == 0
      ensures !rooms2[conns[t].room].dead
    {
    }
  }

  /** A worker between rooms moves on, possibly taking over mailed rooms. */
  lemma LifeQuiet(rooms: seq<Room>, home: seq<Home>, home2: seq<Home>, workers: seq<Worker>,
                  conns: seq<Conn>, lock: Lock, w: nat, k2: Worker)
    requires LifeInv(rooms, home, workers, conns, lock)
    requires w < |workers| && !Busy(workers[w].pc) && !Busy(k2.pc) && |home2| == |home|
    requires forall r :: 0 <= r < |home| ==> home2[r] == home[r] || (home[r].InMail? && home2[r].InList?)
    ensures LifeInv(rooms, home2, workers[w := k2], conns, lock)
  {
    forall r | 0 <= r < |rooms| ensures LifeOk(r, rooms[r], home2[r], workers[w := k2], conns, lock) {
      assert LifeOk(r, rooms[r], home[r], workers, conns, lock);
    }
  }

  lemma DeadRoom(rooms: seq<Room>, seatBy: seq<seq<int>>, loc: seq<Loc>, r: nat)
    requires SeatInv(rooms, seatBy, loc) && r < |rooms| && rooms[r].dead
    ensures rooms[r].reserved == 0
  { }

  /** The thread that holds the manager lock opens a room and mails it. */
  lemma LifeOpened(rooms: seq<Room>, home: seq<Home>, mail: seq<seq<nat>>, workers: seq<Worker>,
                   conns: seq<Conn>, s: nat, r: nat, w: nat, v: nat)
    requires LifeInv(rooms, home, workers, conns, LockedBy(s)) && ListInv(mail, workers, home)
    requires s < |conns| && conns[s].Scanning? && r < |rooms| && home[r].InFree?
    ensures LifeInv(rooms[r := FreshRoom(rooms[r], v)], home[r := InMail(w)], workers, conns[s := Fresh(r)],
                    LockedBy(s))
  {
    var rooms2, home2 := rooms[r := FreshRoom(rooms[r], v)], home[r := InMail(w)];
    forall q | 0 <= q < |rooms|
      ensures LifeOk(q, rooms2[q], home2[q], workers, conns[s := Fresh(r)], LockedBy(s))
    {
      assert LifeOk(q, rooms[q], home[q], workers, conns, LockedBy(s));
    }
    forall k, q | 0 <= k < |workers| && 0 <= q < |rooms| && workers[k].pc.Dooming? && AtRoom(workers[k], q)
      ensures rooms2[q].dead
    {
      assert rooms[q].dead && q in workers[k].rooms;
    }
  }

  /** A dead room goes back to the free list. */
  lemma LifeFreed(rooms: seq<Room>, home: seq<Home>, workers: seq<Worker>, conns: seq<Conn>, lock: Lock,
                  w: nat, r: nat, room2: Room, k2: Worker)
    requires LifeInv(rooms, home, workers, conns, lock)
    requires w < |workers| && r < |rooms| && home[r] == InList(w) && rooms[r].everReserved
    requires workers[w].pc.Dooming? && AtRoom(workers[w], r) && !Busy(k2.pc)
    requires room2 == rooms[r].(gen := room2.gen) && rooms[r].reserved == 0
    ensures LifeInv(rooms[r := room2], home[r := InFree], workers[w := k2], conns, lock)
  {
    var rooms2, home2 := rooms[r := room2], home[r := InFree];
    forall q | 0 <= q < |rooms| ensures LifeOk(q, rooms2[q], home2[q], workers[w := k2], conns, lock) {
      assert LifeOk(q, rooms[q], home[q], workers, conns, lock);
    }
  }

  // ---- Leaves -----------------------------------------------------------------------------

  predicate Shrunk<T(==)>(a: seq<T>, b: seq<T>) {
    a == b || a == [] || (b != [] && a == b[1..])
  }

  lemma LeaveFrame(rooms: seq<Room>, rooms2: seq<Room>, slots: seq<Slot>, slots2: seq<Slot>,
                   conns: seq<Conn>, conns2: seq<Conn>)
    requires LeaveInv(rooms, slots, conns)
    requires |slots2| == |slots| && |conns2| == |conns| && |rooms2| == |rooms|
    requires forall r :: 0 <= r < |rooms| ==> Shrunk(Leaves(rooms2[r]), Leaves(rooms[r]))
    requires forall s :: 0 <= s < |slots| && s < |conns| ==> slots2[s].gen >= slots[s].gen
    requires forall s :: 0 <= s < |slots| && s < |conns| ==>
      (slots2[s].gen == slots[s].gen && HungUp(slots[s], conns[s]) ==> HungUp(slots2[s], conns2[s]))
    ensures LeaveInv(rooms2, slots2, conns2)
  {
    forall r, k | 0 <= r < |rooms| && 0 <= k < |Leaves(rooms2[r])|
      ensures LeaveOk(Leaves(rooms2[r])[k], slots2, conns2)
    {
      assert Shrunk(Leaves(rooms2[r]), Leaves(rooms[r]));
      if Leaves(rooms2[r]) == Leaves(rooms[r]) {
        assert LeaveOk(Leaves(rooms[r])[k], slots, conns);
      } else if Leaves(rooms2[r]) != [] {
        assert LeaveOk(Leaves(rooms[r])[k + 1], slots, conns);
      }
    }
  }

  lemma LeaveAdded(rooms: seq<Room>, slots: seq<Slot>, conns: seq<Conn>, r: nat, room2: Room, e: LeaveEntry)
    requires LeaveInv(rooms, slots, conns) && r < |rooms|
    requires Leaves(room2) == Leaves(rooms[r]) + [e] && LeaveOk(e, slots, conns)
    ensures LeaveInv(rooms[r := room2], slots, conns)
  {
    forall k | 0 <= k < |Leaves(room2)| ensures LeaveOk(Leaves(room2)[k], slots, conns) {
      if k < |Leaves(rooms[r])| { assert LeaveOk(Leaves(rooms[r])[k], slots, conns); }
    }
  }
}
