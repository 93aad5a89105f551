/** Which rooms a join may use: the open list.  A listed room stays listed as long as it lives and has a
    vacant seat, and a join opens a room only when no listed one has any. */
module Openings {
  import opened Sessions
  import opened Inputs
  import opened Rooms
  import opened Lifetime
  import opened LifetimeInv
  import opened LifetimeDeltas
  import opened LifetimeSteps
  import opened LifetimeMove
  import opened LifetimeRuns
  import opened Leak
  import opened Manager

  // ---- The seat search --------------------------------------------------------------------

  /** What every reachable ledger guarantees to the search. */
  predicate LedgerOk(b: Book) {
    && Indexed(b) && NoDup(b.open)
    && (forall k :: 0 <= k < |b.open| ==> b.open[k] !in b.free)
    && (forall r :: 0 <= r < |b.rooms| ==> b.rooms[r].reserved == SeatsTaken(b.rooms[r].seatUsed))
  }

  lemma InvLedger(st: State)
    requires Inv(st) && |st.workers| > 0
    ensures LedgerOk(st.book)
  {
    hide ConnShape, WorkerShape, JoinInv, MemberInv, RefInv, ConnInv, PartingInv, ListInv, LoadInv, LifeInv, LeaveInv;
    ShapeIsIndexed(st.book, |st.pool.slots|);
    forall k | 0 <= k < |st.book.open| ensures st.book.open[k] !in st.book.free {
      assert st.book.open[k] in st.book.open;
    }
  }

  /** A seat nobody has, below which every seat is taken. */
  predicate LowestVacant(room: Room, i: nat) {
    && |room.seatUsed| == SEATS && i < SEATS && !room.seatUsed[i]
    && forall j :: 0 <= j < i ==> room.seatUsed[j]
  }

  /** The room lives and some seat of it is vacant. */
  predicate HasRoom(room: Room) {
    |room.seatUsed| == SEATS && !room.dead && exists i :: 0 <= i < SEATS && !room.seatUsed[i]
  }

  lemma HasRoomIs(room: Room)
    requires |room.seatUsed| == SEATS
    ensures HasRoom(room) <==> Joinable(room)
  {
    if Joinable(room) { assert !room.seatUsed[FirstVacant(room.seatUsed)]; }
  }

  /** Seat `i` of a room is given away and nothing else about it changes. */
  predicate Given(was: Room, now: Room, i: nat) {
    && i < |was.seatUsed| && now == was.(seatUsed := was.seatUsed[i := true], everReserved := true,
                                         reserved := was.reserved + 1)
  }

  predicate SomeListed(b: Book)
    requires Indexed(b)
  {
    exists k :: 0 <= k < |b.open| && HasRoom(b.rooms[b.open[k]])
  }

  /** The place found is the lowest vacant seat of the last listed room that has one. */
  predicate TakesListed(b: Book, c: Book, at: Place)
    requires Indexed(b)
  {
    exists k :: 0 <= k < |b.open| && TakesAt(b, c, at, k)
  }

  predicate TakesAt(b: Book, c: Book, at: Place, k: nat)
    requires Indexed(b) && k < |b.open|
  {
    && at.room == b.open[k] && !b.rooms[at.room].dead && LowestVacant(b.rooms[at.room], at.seat)
    && (forall j :: k < j < |b.open| ==> !HasRoom(b.rooms[b.open[j]]))
    && |c.rooms| == |b.rooms| && Given(b.rooms[at.room], c.rooms[at.room], at.seat)
    && (forall r :: 0 <= r < |b.rooms| && r != at.room ==> c.rooms[r] == b.rooms[r])
    && c.free == b.free && c.load == b.load && c.mail == b.mail
  }

  lemma TakesLast(b: Book)
    requires Indexed(b) && b.open != [] && Joinable(b.rooms[Top(b.open)])
    ensures var at := Place(Top(b.open), FirstVacant(b.rooms[Top(b.open)].seatUsed));
      TakesAt(b, SeatReserved(b), at, |b.open| - 1)
  {
  }

  lemma TakesEarlier(b: Book, b2: Book, c: Book, at: Place, k: nat)
    requires Indexed(b) && Indexed(b2) && b.open != [] && b2 == b.(open := b.open[..|b.open| - 1])
    requires !HasRoom(b.rooms[Top(b.open)]) && k < |b2.open| && TakesAt(b2, c, at, k)
    ensures TakesAt(b, c, at, k)
  {
    hide HasRoom, Given, LowestVacant;
    forall j | k < j < |b.open| ensures !HasRoom(b.rooms[b.open[j]]) {
      if j < |b.open| - 1 { assert b2.open[j] == b.open[j]; }
    }
  }

  lemma {:induction false} SearchTakesListed(b: Book)
    requires Indexed(b) && SomeListed(b)
    ensures SeatFound(b).1.Some? && TakesListed(b, SeatFound(b).0, SeatFound(b).1.value)
    decreases |b.open|
  {
    hide SeatFound, Joinable, HasRoom, TakesAt, SeatReserved;
    var last := Top(b.open);
    SeatCases(b);
    HasRoomIs(b.rooms[last]);
    if Joinable(b.rooms[last]) {
      TakesLast(b);
      assert TakesAt(b, SeatFound(b).0, SeatFound(b).1.value, |b.open| - 1);
    } else {
      var b2 := b.(open := b.open[..|b.open| - 1]);
      var k :| 0 <= k < |b.open| && HasRoom(b.rooms[b.open[k]]);
      assert b2.open[k] == b.open[k];
      SearchTakesListed(b2);
      var at := SeatFound(b2).1.value;
      var k2 :| 0 <= k2 < |b2.open| && TakesAt(b2, SeatFound(b2).0, at, k2);
      TakesEarlier(b, b2, SeatFound(b2).0, at, k2);
    }
  }

  lemma {:induction false} SearchOpensRoom(b: Book)
    requires Indexed(b) && !SomeListed(b)
    ensures SeatFound(b) == SeatFound(b.(open := []))
    decreases |b.open|
  {
    if b.open == [] {
      assert b.(open := []) == b;
    } else {
      HasRoomIs(b.rooms[Top(b.open)]);
      assert b.rooms[b.open[|b.open| - 1]] == b.rooms[Top(b.open)];
      SeatCases(b);
      hide SeatFound, Joinable;
      var b2 := b.(open := b.open[..|b.open| - 1]);
      assert forall k :: 0 <= k < |b2.open| ==> b2.open[k] == b.open[k];
      SearchOpensRoom(b2);
      assert b2.(open := []) == b.(open := []);
    }
  }

  /** A room slot off the free list, reset, with its first seat given away, for the worker with the fewest
      rooms, who is told by mail; it is the only listed one. */
  predicate OpensRoom(b: Book, c: Book, at: Place)
    requires Indexed(b)
  {
    && b.free != [] && at == Place(Top(b.free), 0)
    && |c.rooms| == |b.rooms| && |c.load| == |b.load| && |c.mail| == |b.mail|
    && c.free == b.free[..|b.free| - 1] && c.open == [at.room]
    && (forall r :: 0 <= r < |b.rooms| && r != at.room ==> c.rooms[r] == b.rooms[r])
    && var now := c.rooms[at.room];
       && now.seatUsed == [true, false, false, false] && now.reserved == 1 && !now.dead && now.everReserved
       && now.members == NO_MEMBERS && now.memberCount == 0 && now.pendJ == [] && now.pendL == [] && now.inQ == []
       && now.worker < |b.load| && (forall w :: 0 <= w < |b.load| ==> b.load[now.worker] <= b.load[w])
       && c.load == b.load[now.worker := b.load[now.worker] + 1]
       && c.mail == b.mail[now.worker := b.mail[now.worker] + [at.room]]
  }

  lemma NewRoomIs(b: Book)
    requires Indexed(b) && b.open == []
    ensures if b.free == [] then SeatFound(b) == (b, None)
            else SeatFound(b).1.Some? && OpensRoom(b, SeatFound(b).0, SeatFound(b).1.value)
  { }

  /** The whole search: the lowest vacant seat of the last listed room that has one; only when no listed
      room has one is a room opened, and only when none is free either is the join refused. */
  lemma SearchMeans(b: Book)
    requires Indexed(b)
    ensures var (c, at) := SeatFound(b);
      && (at.None? <==> b.free == [] && !SomeListed(b))
      && (at.None? ==> c == b.(open := []))
      && (at.Some? && SomeListed(b) ==> TakesListed(b, c, at.value))
      && (at.Some? && !SomeListed(b) ==> OpensRoom(b, c, at.value))
  {
    hide SeatFound, SomeListed, TakesListed, OpensRoom;
    if SomeListed(b) {
      SearchTakesListed(b);
    } else {
      SearchOpensRoom(b);
      NewRoomIs(b.(open := []));
      if b.free != [] { OpensAlike(b, SeatFound(b).0, SeatFound(b).1.value); }
    }
  }

  lemma OpensAlike(b: Book, c: Book, at: Place)
    requires Indexed(b) && Indexed(b.(open := [])) && OpensRoom(b.(open := []), c, at)
    ensures OpensRoom(b, c, at)
  { }

  // ---- What the search leaves listed ------------------------------------------------------

  /** Every listed room that lives and has a vacant seat afterwards is still listed. */
  ghost predicate StaysListed(b: Book, c: Book) {
    forall r :: r in b.open && r < |c.rooms| && HasRoom(c.rooms[r]) ==> r in c.open
  }

  lemma ReservedStays(b: Book)
    requires LedgerOk(b) && b.open != [] && Joinable(b.rooms[Top(b.open)])
    ensures StaysListed(b, SeatReserved(b))
    ensures GiverListed(SeatReserved(b), Some(Place(Top(b.open), FirstVacant(b.rooms[Top(b.open)].seatUsed))))
  {
    hide FirstVacant;
    var c, top := SeatReserved(b), Top(b.open);
    var i := FirstVacant(b.rooms[top].seatUsed);
    SeatFlips(b.rooms[top].seatUsed, i);
    FullIff(c.rooms[top]);
    forall r | r in b.open && r < |c.rooms| && HasRoom(c.rooms[r]) ensures r in c.open {
      var k :| 0 <= k < |b.open| && b.open[k] == r;
      if k < |b.open| - 1 { assert b.open[..|b.open| - 1][k] == r; }
    }
  }

  lemma FullIff(room: Room)
    requires |room.seatUsed| == SEATS && !room.dead && room.reserved == SeatsTaken(room.seatUsed)
    ensures room.reserved == SEATS <==> !HasRoom(room)
  {
    if room.reserved != SEATS {
      assert !(room.seatUsed[0] && room.seatUsed[1] && room.seatUsed[2] && room.seatUsed[3]);
    }
  }

  /** The room dropped off the end of the list is not the one that gives the seat. */
  lemma LastUntouched(b: Book, b2: Book, last: nat)
    requires LedgerOk(b) && b.open != [] && last == Top(b.open) && b2 == b.(open := b.open[..|b.open| - 1])
    ensures last < |SeatFound(b2).0.rooms| && SeatFound(b2).0.rooms[last] == b.rooms[last]
  {
    hide SeatFound;
    SearchMeans(b2);
    var (c, at) := SeatFound(b2);
    if at.Some? {
      if SomeListed(b2) {
        var k :| 0 <= k < |b2.open| && TakesAt(b2, c, at.value, k);
        assert at.value.room == b.open[k] != last;
      } else {
        assert at.value.room == Top(b.free) && Top(b.free) in b.free;
      }
    }
  }

  /** The room that gives the seat is listed afterwards exactly if it has another vacant one. */
  ghost predicate GiverListed(c: Book, at: Option<Place>) {
    at.Some? && at.value.room < |c.rooms| ==>
      (at.value.room in c.open <==> HasRoom(c.rooms[at.value.room]))
  }

  lemma NewRoomListed(b: Book)
    requires Indexed(b) && b.open == []
    ensures StaysListed(b, SeatFound(b).0) && GiverListed(SeatFound(b).0, SeatFound(b).1)
  {
    NewRoomIs(b);
    if b.free != [] { assert !SeatFound(b).0.rooms[Top(b.free)].seatUsed[1]; }
  }

  lemma PrunedStays(b: Book, b2: Book, c: Book)
    requires Indexed(b) && b.open != [] && b2 == b.(open := b.open[..|b.open| - 1]) && StaysListed(b2, c)
    requires Top(b.open) < |c.rooms| && !HasRoom(c.rooms[Top(b.open)])
    ensures StaysListed(b, c)
  {
    hide HasRoom, Indexed;
    forall r | r in b.open && r < |c.rooms| && HasRoom(c.rooms[r]) ensures r in c.open {
      var k :| 0 <= k < |b.open| && b.open[k] == r;
      if k < |b.open| - 1 { assert b2.open[k] == r; }
    }
  }

  lemma PrunedLedger(b: Book)
    requires LedgerOk(b) && b.open != []
    ensures LedgerOk(b.(open := b.open[..|b.open| - 1]))
  { }

  /** A join takes a room off the list only when that room is full or dead. */
  lemma {:induction false} SearchKeepsListed(b: Book)
    requires LedgerOk(b)
    ensures StaysListed(b, SeatFound(b).0) && GiverListed(SeatFound(b).0, SeatFound(b).1)
    decreases |b.open|
  {
    hide SeatFound, Joinable, HasRoom, StaysListed, GiverListed, SeatReserved;
    if b.open == [] {
      NewRoomListed(b);
    } else {
      var last := Top(b.open);
      SeatCases(b);
      LastIndexed(b);
      HasRoomIs(b.rooms[last]);
      if Joinable(b.rooms[last]) {
        ReservedStays(b);
      } else {
        var b2 := b.(open := b.open[..|b.open| - 1]);
        PrunedLedger(b);
        SearchKeepsListed(b2);
        LastUntouched(b, b2, last);
        PrunedStays(b, b2, SeatFound(b).0);
      }
    }
  }

  lemma LastIndexed(b: Book)
    requires Indexed(b) && b.open != []
    ensures Top(b.open) < |b.rooms| && |b.rooms[Top(b.open)].seatUsed| == SEATS
  { }

  /** The same of the whole of Join: a listed room that lives and has a vacant seat after it is listed. */
  lemma JoinKeepsListed(p: Pool, b: Book, s: nat)
    requires LedgerOk(b) && Bounded(p) && s < |p.slots|
    ensures StaysListed(b, Joined(p, b, s).1)
  {
    hide SeatFound;
    SearchKeepsListed(b);
    var (c, at) := SeatFound(b);
    var d := Joined(p, b, s).1;
    forall r | r in b.open && r < |d.rooms| && HasRoom(d.rooms[r]) ensures r in d.open {
      assert d.rooms[r].seatUsed == c.rooms[r].seatUsed && d.rooms[r].dead == c.rooms[r].dead;
      var i :| 0 <= i < SEATS && !d.rooms[r].seatUsed[i];
      assert !c.rooms[r].seatUsed[i];
    }
  }

  // ---- The same under every interleaving --------------------------------------------------

  /** A reservation takes its room off the list exactly when it is full then, and no other room. */
  lemma ReserveListing(st: State, s: nat)
    requires Inv(st) && CanJoinReserve(st, s)
    ensures StaysListed(st.book, JoinReserve(st, s).book)
    ensures var t := JoinReserve(st, s);
      forall r: nat :: r in t.book.open <==> r in st.book.open && (r == Candidate(st) ==> HasRoom(t.book.rooms[r]))
  {
    hide ConnShape, WorkerShape, JoinInv, MemberInv, RefInv, ConnInv, PartingInv, FreeInv, ListInv;
    hide LoadInv, LifeInv, LeaveInv;
    var open, top := st.book.open, Candidate(st);
    var t := JoinReserve(st, s);
    var i := FirstVacant(st.book.rooms[top].seatUsed);
    SeatFlips(st.book.rooms[top].seatUsed, i);
    FullIff(t.book.rooms[top]);
    forall r: nat ensures r in open <==> r == top || r in open[..|open| - 1] {
      if r in open && r != top {
        var k :| 0 <= k < |open| && open[k] == r;
        assert open[..|open| - 1][k] == r;
      }
    }
  }

  lemma PruneListing(st: State, s: nat)
    requires Inv(st) && CanJoinPrune(st, s)
    ensures StaysListed(st.book, JoinPrune(st, s).book)
  {
    hide ConnShape, WorkerShape, SeatInv, JoinInv, MemberInv, RefInv, ConnInv, PartingInv, FreeInv, ListInv;
    hide LoadInv, OpenInv, LifeInv, LeaveInv;
    var open, top := st.book.open, Candidate(st);
    HasRoomIs(st.book.rooms[top]);
    forall r | r in open && r != top ensures r in open[..|open| - 1] {
      var k :| 0 <= k < |open| && open[k] == r;
      assert open[..|open| - 1][k] == r;
    }
  }

  /** A new room is listed with its first seat given away. */
  lemma FreshListing(st: State, s: nat)
    requires Inv(st) && CanJoinFresh(st, s)
    ensures StaysListed(st.book, JoinFresh(st, s).book)
    ensures var r, t := st.conns[s].room, JoinFresh(st, s);
      HasRoom(t.book.rooms[r]) && forall q: nat :: q in t.book.open <==> q in st.book.open || q == r
  {
    hide BookShape, WorkerShape, JoinInv, MemberInv, RefInv, PartingInv, FreeInv, ListInv;
    hide LoadInv, OpenInv, LeaveInv;
    assert ConnShape(st.conns[s], |st.book.rooms|);
    var r, t := st.conns[s].room, JoinFresh(st, s);
    VacantSeats(st.book.rooms, st.seatBy, st.loc, r);
    assert !t.book.rooms[r].seatUsed[1];
  }

  /** A transferred room is listed exactly if it has a vacant seat. */
  lemma MoveListing(st: State, w: nat)
    requires Inv(st) && CanMove(st, w)
    ensures StaysListed(st.book, Move(st, w).book)
    ensures var r, nr, t := RoomAt(st, w), Top(st.book.free), Move(st, w);
      && nr < |t.book.rooms| && (nr in t.book.open <==> HasRoom(t.book.rooms[nr])) && r !in t.book.open
      && forall q: nat :: q != r && q != nr ==> (q in t.book.open <==> q in st.book.open)
  {
    hide ConnShape, JoinInv, MemberInv, RefInv, ConnInv, PartingInv, ListInv;
    hide LoadInv, LifeInv, LeaveInv, Rehome, MemberTags, JoinTags, CarrySeats, SwapRemove, MovedMembers;
    MoveSetting(st, w);
    Sized(st);
    var r := RoomAt(st, w);
    SwapRemoveKeeps(st.book.open, r, 0);
    FullIff(MovedIn(FreshRoom(st.book.rooms[Top(st.book.free)], st.book.rooms[r].worker), st.book.rooms[r]));
  }

  lemma FreeListing(st: State, w: nat)
    requires Inv(st) && CanFree(st, w)
    ensures StaysListed(st.book, Free(st, w).book)
    ensures forall q: nat :: q in Free(st, w).book.open <==> q in st.book.open && q != RoomAt(st, w)
  {
    hide BookShape, ConnShape, SeatInv, JoinInv, MemberInv, RefInv, ConnInv, PartingInv, FreeInv, ListInv;
    hide LoadInv, LeaveInv, SwapRemove;
    Sized(st);
    var r := RoomAt(st, w);
    SwapRemoveKeeps(st.book.open, r, 0);
    assert st.book.rooms[r].dead;
  }

  lemma AllocListing(st: State, s: nat)
    requires Inv(st) && CanJoinAlloc(st, s)
    ensures JoinAlloc(st, s).book.open == st.book.open == []
    ensures var b, c, r := st.book, JoinAlloc(st, s).book, Top(st.book.free);
      && r < |c.rooms| && c.rooms[r].worker < |b.load|
      && (forall w :: 0 <= w < |b.load| ==> b.load[c.rooms[r].worker] <= b.load[w])
      && c.mail == b.mail[c.rooms[r].worker := b.mail[c.rooms[r].worker] + [r]]
  {
    hide ConnShape, WorkerShape, SeatInv, JoinInv, MemberInv, RefInv, ConnInv, PartingInv, FreeInv, ListInv;
    hide LoadInv, OpenInv, LifeInv, LeaveInv;
  }

  lemma OtherListing(st: State, a: Action)
    requires Inv(st) && Enabled(st, a)
    requires !a.AJoinReserve? && !a.AJoinPrune? && !a.AJoinFresh? && !a.AMove? && !a.AFree? && !a.AJoinAlloc?
    ensures Apply(st, a).book.open == st.book.open
  {
    hide BookShape, ConnShape, WorkerShape, SeatInv, JoinInv, MemberInv, RefInv, ConnInv, PartingInv, FreeInv, ListInv;
    hide LoadInv, OpenInv, LifeInv, LeaveInv, TickMembers, FindMember;
  }

  /** Whatever any thread does, a listed room that lives and has a vacant seat afterwards stays listed, and
      only a room given out for the first time or a transferred one comes onto the list. */
  lemma StepListing(st: State, a: Action)
    requires Inv(st) && Enabled(st, a)
    ensures StaysListed(st.book, Apply(st, a).book)
    ensures forall q: nat :: q in Apply(st, a).book.open && q !in st.book.open ==> a.AJoinFresh? || a.AMove?
  {
    hide Inv, Shape, StaysListed, HasRoom;
    InvShape(st);
    match a
    case AJoinReserve(s) => ReserveListing(st, s);
    case AJoinPrune(s) => PruneListing(st, s); PrunedOnly(st, s);
    case AJoinFresh(s) => FreshListing(st, s);
    case AJoinAlloc(s) => AllocListing(st, s); NoneListed(st, Apply(st, a));
    case AMove(w) => MoveListing(st, w);
    case AFree(w) => FreeListing(st, w);
    case _ => OtherListing(st, a); NoneListed(st, Apply(st, a));
  }

  lemma NoneListed(st: State, t: State)
    requires st.book.open == t.book.open
    ensures StaysListed(st.book, t.book)
  { }

  lemma PrunedOnly(st: State, s: nat)
    requires Shape(st) && CanJoinPrune(st, s)
    ensures forall q: nat :: q in JoinPrune(st, s).book.open ==> q in st.book.open
  { }

  /** In every run: a listed room is found listed at every later state up to which it lived and had a
      vacant seat. */
  lemma {:induction false} RunListing(states: seq<State>, actions: seq<Action>, j: nat, k: nat, r: nat)
    requires IsRun(states, actions) && Inv(states[0]) && j <= k < |states| && r in states[j].book.open
    requires forall n :: j < n <= k ==> r < |states[n].book.rooms| && HasRoom(states[n].book.rooms[r])
    ensures r in states[k].book.open
    decreases k - j
  {
    hide Inv, Shape, Enabled, Apply, HasRoom;
    if j < k {
      RunListing(states, actions, j, k - 1, r);
      RunHolds(states, actions, k - 1);
      StepListing(states[k - 1], actions[k - 1]);
    }
  }
}
