/** Every action keeps the invariant. */
module LifetimeSteps {
  import opened Sessions
  import opened Inputs
  import opened Rooms
  import opened Lifetime
  import opened LifetimeInv
  import opened LifetimeDeltas

  lemma Sized(st: State)
    requires Shape(st)
    ensures |st.book.mail| == |st.workers|
    ensures forall r :: 0 <= r < |st.book.rooms| ==>
      |st.book.rooms[r].seatUsed| == SEATS && |st.book.rooms[r].members| == SEATS
  { }

  // ---- Network threads --------------------------------------------------------------------

  lemma AcceptKeeps(st: State)
    requires Inv(st) && CanAccept(st)
    ensures Inv(Accept(st))
  {
    hide BookShape, ConnShape, WorkerShape, SeatInv, JoinInv, MemberInv;
    hide PartingInv, FreeInv, ListInv, LoadInv, OpenInv, LifeInv, LeaveInv;
    var t := Accept(st);
    var s := st.pool.free[|st.pool.free| - 1];
    assert s in st.pool.free;
    RefAlloc(st.pool, st.conns, st.loc, Open);
    JoinFrame(st.book.rooms, t.book.rooms, st.loc, t.loc, st.pool.slots, t.pool.slots);
    MemberFrame(st.book.rooms, t.book.rooms, st.loc, t.loc, st.pool.slots, t.pool.slots);
    LeaveFrame(st.book.rooms, t.book.rooms, st.pool.slots, t.pool.slots, st.conns, t.conns);
    LifeConn(st.book.rooms, t.book.rooms, st.home, st.workers, st.conns, s, t.conns[s], st.lock, t.lock);
  }

  lemma AcceptFailKeeps(st: State)
    requires Inv(st) && CanAccept(st)
    ensures Inv(AcceptFail(st))
  {
    hide BookShape, ConnShape, WorkerShape, SeatInv, JoinInv, MemberInv;
    hide PartingInv, FreeInv, ListInv, LoadInv, OpenInv, LifeInv, LeaveInv;
    var t := AcceptFail(st);
    var s := st.pool.free[|st.pool.free| - 1];
    assert s in st.pool.free;
    RefAlloc(st.pool, st.conns, st.loc, Open);
    RefReleased(SetDead(AllocSlot(st.pool), s), st.conns[s := Open], st.loc, s, Closed, Away);
    assert st.conns[s := Open][s := Closed] == st.conns && st.loc[s := Away] == st.loc;
    JoinFrame(st.book.rooms, t.book.rooms, st.loc, t.loc, st.pool.slots, t.pool.slots);
    MemberFrame(st.book.rooms, t.book.rooms, st.loc, t.loc, st.pool.slots, t.pool.slots);
    LeaveFrame(st.book.rooms, t.book.rooms, st.pool.slots, t.pool.slots, st.conns, t.conns);
  }

  lemma JoinLockKeeps(st: State, s: nat)
    requires Inv(st) && CanJoinLock(st, s)
    ensures Inv(JoinLock(st, s))
  {
    hide BookShape, ConnShape, WorkerShape, SeatInv, JoinInv, MemberInv, RefInv;
    hide PartingInv, FreeInv, ListInv, LoadInv, OpenInv, LifeInv, LeaveInv;
    var t := JoinLock(st, s);
    RefFrame(st.pool, t.pool, st.conns, t.conns, st.loc, t.loc);
    LeaveFrame(st.book.rooms, t.book.rooms, st.pool.slots, t.pool.slots, st.conns, t.conns);
    LifeConn(st.book.rooms, t.book.rooms, st.home, st.workers, st.conns, s, t.conns[s], st.lock, t.lock);
  }

  lemma JoinPruneKeeps(st: State, s: nat)
    requires Inv(st) && CanJoinPrune(st, s)
    ensures Inv(JoinPrune(st, s))
  {
    hide BookShape, ConnShape, WorkerShape, SeatInv, JoinInv, MemberInv, RefInv;
    hide ConnInv, PartingInv, FreeInv, ListInv, LoadInv, OpenInv, LifeInv, LeaveInv;
    var t := JoinPrune(st, s);
    OpenPopped(st.book.open, st.home, st.book.rooms);
  }

  /** The candidate of the open list is a room in use that has had a seat reserved. */
  lemma CandidateInUse(open: seq<nat>, home: seq<Home>, rooms: seq<Room>)
    requires OpenInv(open, home, rooms) && open != []
    ensures var r := open[|open| - 1]; r < |home| && !home[r].InFree? && rooms[r].everReserved
  {
    assert open[|open| - 1] in open;
  }

  lemma JoinReserveKeeps(st: State, s: nat)
    requires Inv(st) && CanJoinReserve(st, s)
    ensures Inv(JoinReserve(st, s))
  {
    hide BookShape, ConnShape, WorkerShape, SeatInv, JoinInv, MemberInv;
    hide RefInv, PartingInv, FreeInv, ListInv, LoadInv, OpenInv, LifeInv, LeaveInv;
    var t := JoinReserve(st, s);
    var r, i := t.conns[s].room, t.conns[s].seat;
    CandidateInUse(st.book.open, st.home, st.book.rooms);
    OpenPopped(st.book.open, st.home, st.book.rooms);
    OpenFrame(t.book.open, st.home, t.home, st.book.rooms, t.book.rooms);
    SeatTaken(st.book.rooms, st.seatBy, st.loc, r, i, s, t.book.rooms[r], SReserved);
    JoinFrame(st.book.rooms, t.book.rooms, st.loc, t.loc, st.pool.slots, t.pool.slots);
    MemberFrame(st.book.rooms, t.book.rooms, st.loc, t.loc, st.pool.slots, t.pool.slots);
    RefFrame(st.pool, t.pool, st.conns, t.conns, st.loc, t.loc);
    PartingFrame(st.loc, t.loc, st.workers, t.workers);
    LoadFrame(st.book.rooms, t.book.rooms, st.home, st.book.load);
    LeaveFrame(st.book.rooms, t.book.rooms, st.pool.slots, t.pool.slots, st.conns, t.conns);
    LifeConn(st.book.rooms, t.book.rooms, st.home, st.workers, st.conns, s, t.conns[s], st.lock, t.lock);
  }

  lemma JoinFailKeeps(st: State, s: nat)
    requires Inv(st) && CanJoinFail(st, s)
    ensures Inv(JoinFail(st, s))
  {
    hide BookShape, ConnShape, WorkerShape, SeatInv, JoinInv, MemberInv, RefInv;
    hide PartingInv, FreeInv, ListInv, LoadInv, OpenInv, LifeInv, LeaveInv;
    var t := JoinFail(st, s);
    RefFrame(st.pool, t.pool, st.conns, t.conns, st.loc, t.loc);
    LeaveFrame(st.book.rooms, t.book.rooms, st.pool.slots, t.pool.slots, st.conns, t.conns);
    LifeConn(st.book.rooms, t.book.rooms, st.home, st.workers, st.conns, s, t.conns[s], st.lock, t.lock);
  }

  lemma JoinAllocKeeps(st: State, s: nat)
    requires Inv(st) && CanJoinAlloc(st, s)
    ensures Inv(JoinAlloc(st, s))
  {
    hide BookShape, ConnShape, WorkerShape, SeatInv, JoinInv, MemberInv;
    hide RefInv, PartingInv, ListInv, LoadInv, OpenInv, LeaveInv;
    var t := JoinAlloc(st, s);
    var r := st.book.free[|st.book.free| - 1];
    var w := LeastBusy(st.book.load, |st.workers|);
    assert r in st.book.free && st.home[r].InFree?;
    Sized(st);
    assert LifeOk(r, st.book.rooms[r], st.home[r], st.workers, st.conns, st.lock);
    FreePopped(st.book.free, st.home, InMail(w));
    ListMailed(st.book.mail, st.workers, st.home, r, w);
    LoadAdded(st.book.rooms, st.home, st.book.load, r, t.book.rooms[r], InMail(w));
    FreshLedger(st.book.rooms, st.seatBy, st.loc, st.pool.slots, r, w);
    assert Leaves(t.book.rooms[r]) == [];
    LifeOpened(st.book.rooms, st.home, st.book.mail, st.workers, st.conns, s, r, w, w);
    OpenFrame(st.book.open, st.home, t.home, st.book.rooms, t.book.rooms);
    RefFrame(st.pool, t.pool, st.conns, t.conns, st.loc, t.loc);
    LeaveFrame(st.book.rooms, t.book.rooms, st.pool.slots, t.pool.slots, st.conns, t.conns);
  }

  lemma JoinFreshKeeps(st: State, s: nat)
    requires Inv(st) && CanJoinFresh(st, s)
    ensures Inv(JoinFresh(st, s))
  {
    hide BookShape, ConnShape, WorkerShape, SeatInv, JoinInv, MemberInv;
    hide RefInv, PartingInv, FreeInv, ListInv, LoadInv, LeaveInv;
    var t := JoinFresh(st, s);
    var r := st.conns[s].room;
    VacantSeats(st.book.rooms, st.seatBy, st.loc, r);
    SeatTaken(st.book.rooms, st.seatBy, st.loc, r, 0, s, t.book.rooms[r], SReserved);
    OpenFrame(st.book.open, st.home, t.home, st.book.rooms, t.book.rooms);
    OpenAdded(st.book.open, st.home, t.book.rooms, r);
    JoinFrame(st.book.rooms, t.book.rooms, st.loc, t.loc, st.pool.slots, t.pool.slots);
    MemberFrame(st.book.rooms, t.book.rooms, st.loc, t.loc, st.pool.slots, t.pool.slots);
    RefFrame(st.pool, t.pool, st.conns, t.conns, st.loc, t.loc);
    PartingFrame(st.loc, t.loc, st.workers, t.workers);
    LoadFrame(st.book.rooms, t.book.rooms, st.home, st.book.load);
    LeaveFrame(st.book.rooms, t.book.rooms, st.pool.slots, t.pool.slots, st.conns, t.conns);
  }

  lemma JoinRefKeeps(st: State, s: nat)
    requires Inv(st) && CanJoinRef(st, s)
    ensures Inv(JoinRef(st, s))
  {
    hide BookShape, ConnShape, WorkerShape, SeatInv, JoinInv, MemberInv, RefInv;
    hide PartingInv, FreeInv, ListInv, LoadInv, OpenInv, LifeInv, LeaveInv;
    var t := JoinRef(st, s);
    var r, i := st.conns[s].room, st.conns[s].seat;
    SeatFrame(st.book.rooms, t.book.rooms, st.seatBy, st.loc, t.loc);
    JoinFrame(st.book.rooms, t.book.rooms, st.loc, t.loc, st.pool.slots, t.pool.slots);
    MemberFrame(st.book.rooms, t.book.rooms, st.loc, t.loc, st.pool.slots, t.pool.slots);
    RefAdded(st.pool, st.conns, st.loc, s, Counted(r, i), Held(r, i, SCounted));
    PartingFrame(st.loc, t.loc, st.workers, t.workers);
    LeaveFrame(st.book.rooms, t.book.rooms, st.pool.slots, t.pool.slots, st.conns, t.conns);
    LifeConn(st.book.rooms, t.book.rooms, st.home, st.workers, st.conns, s, t.conns[s], st.lock, t.lock);
  }

  lemma JoinPushKeeps(st: State, s: nat)
    requires Inv(st) && CanJoinPush(st, s)
    ensures Inv(JoinPush(st, s))
  {
    hide BookShape, WorkerShape, SeatInv, JoinInv, MemberInv, RefInv;
    hide PartingInv, FreeInv, ListInv, LoadInv, OpenInv, LifeInv, LeaveInv;
    var t := JoinPush(st, s);
    var r, i := st.conns[s].room, st.conns[s].seat;
    SeatFrame(st.book.rooms, t.book.rooms, st.seatBy, st.loc, t.loc);
    JoinAdded(st.book.rooms, st.loc, st.pool.slots, r, i, s, t.book.rooms[r]);
    MemberFrame(st.book.rooms, t.book.rooms, st.loc, t.loc, st.pool.slots, t.pool.slots);
    RefFrame(st.pool, t.pool, st.conns, t.conns, st.loc, t.loc);
    PartingFrame(st.loc, t.loc, st.workers, t.workers);
    LoadFrame(st.book.rooms, t.book.rooms, st.home, st.book.load);
    LeaveFrame(st.book.rooms, t.book.rooms, st.pool.slots, t.pool.slots, st.conns, t.conns);
    OpenFrame(st.book.open, st.home, t.home, st.book.rooms, t.book.rooms);
    LifeConn(st.book.rooms, t.book.rooms, st.home, st.workers, st.conns, s, t.conns[s], st.lock, t.lock);
  }

  lemma JoinDoneKeeps(st: State, s: nat)
    requires Inv(st) && CanJoinDone(st, s)
    ensures Inv(JoinDone(st, s))
  {
    hide BookShape, WorkerShape, SeatInv, JoinInv, MemberInv, RefInv;
    hide PartingInv, FreeInv, ListInv, LoadInv, OpenInv, LifeInv, LeaveInv;
    var t := JoinDone(st, s);
    JoinFrame(st.book.rooms, t.book.rooms, st.loc, t.loc, st.pool.slots, t.pool.slots);
    MemberFrame(st.book.rooms, t.book.rooms, st.loc, t.loc, st.pool.slots, t.pool.slots);
    RefFrame(st.pool, t.pool, st.conns, t.conns, st.loc, t.loc);
    LeaveFrame(st.book.rooms, t.book.rooms, st.pool.slots, t.pool.slots, st.conns, t.conns);
    LifeConn(st.book.rooms, t.book.rooms, st.home, st.workers, st.conns, s, t.conns[s], st.lock, t.lock);
  }

  lemma DieKeeps(st: State, s: nat)
    requires Inv(st) && CanDie(st, s)
    ensures Inv(Die(st, s))
  {
    hide BookShape, ConnShape, WorkerShape, SeatInv, JoinInv, MemberInv, RefInv;
    hide PartingInv, FreeInv, ListInv, LoadInv, OpenInv, LifeInv, LeaveInv;
    var t := Die(st, s);
    JoinFrame(st.book.rooms, t.book.rooms, st.loc, t.loc, st.pool.slots, t.pool.slots);
    MemberFrame(st.book.rooms, t.book.rooms, st.loc, t.loc, st.pool.slots, t.pool.slots);
    RefFrame(st.pool, t.pool, st.conns, t.conns, st.loc, t.loc);
    LeaveFrame(st.book.rooms, t.book.rooms, st.pool.slots, t.pool.slots, st.conns, t.conns);
    LifeConn(st.book.rooms, t.book.rooms, st.home, st.workers, st.conns, s, t.conns[s], st.lock, t.lock);
  }

  lemma LeaveLoadKeeps(st: State, s: nat)
    requires Inv(st) && CanLeaveLoad(st, s)
    ensures Inv(LeaveLoad(st, s))
  {
    hide BookShape, ConnShape, WorkerShape, SeatInv, JoinInv, MemberInv, RefInv;
    hide PartingInv, FreeInv, ListInv, LoadInv, OpenInv, LifeInv, LeaveInv;
    var t := LeaveLoad(st, s);
    JoinFrame(st.book.rooms, t.book.rooms, st.loc, t.loc, st.pool.slots, t.pool.slots);
    MemberFrame(st.book.rooms, t.book.rooms, st.loc, t.loc, st.pool.slots, t.pool.slots);
    RefFrame(st.pool, t.pool, st.conns, t.conns, st.loc, t.loc);
    LeaveFrame(st.book.rooms, t.book.rooms, st.pool.slots, t.pool.slots, st.conns, t.conns);
    LifeConn(st.book.rooms, t.book.rooms, st.home, st.workers, st.conns, s, t.conns[s], st.lock, t.lock);
  }

  lemma LeavePushKeeps(st: State, s: nat)
    requires Inv(st) && CanLeavePush(st, s)
    ensures Inv(LeavePush(st, s))
  {
    hide BookShape, WorkerShape, SeatInv, JoinInv, MemberInv, PartingInv;
    hide FreeInv, ListInv, LoadInv, OpenInv, LifeInv, LeaveInv;
    var t := LeavePush(st, s);
    var r := st.conns[s].room;
    var e := LeaveEntry(s, st.pool.slots[s].gen);
    assert Leaves(t.book.rooms[r]) == Leaves(st.book.rooms[r]) + [e];
    SeatFrame(st.book.rooms, t.book.rooms, st.seatBy, st.loc, t.loc);
    JoinFrame(st.book.rooms, t.book.rooms, st.loc, t.loc, st.pool.slots, t.pool.slots);
    MemberFrame(st.book.rooms, t.book.rooms, st.loc, t.loc, st.pool.slots, t.pool.slots);
    RefFrame(st.pool, t.pool, st.conns, t.conns, st.loc, t.loc);
    LoadFrame(st.book.rooms, t.book.rooms, st.home, st.book.load);
    OpenFrame(st.book.open, st.home, t.home, st.book.rooms, t.book.rooms);
    LeaveFrame(st.book.rooms, st.book.rooms, st.pool.slots, t.pool.slots, st.conns, t.conns);
    LeaveAdded(st.book.rooms, t.pool.slots, t.conns, r, t.book.rooms[r], e);
    LifeConn(st.book.rooms, t.book.rooms, st.home, st.workers, st.conns, s, t.conns[s], st.lock, t.lock);
  }

  lemma HangUpKeeps(st: State, s: nat)
    requires Inv(st) && CanHangUp(st, s)
    ensures Inv(HangUp(st, s))
  {
    hide BookShape, ConnShape, WorkerShape, SeatInv, JoinInv, MemberInv;
    hide PartingInv, FreeInv, ListInv, LoadInv, OpenInv, LifeInv, LeaveInv;
    var t := HangUp(st, s);
    RefReleased(st.pool, st.conns, st.loc, s, Closed, st.loc[s]);
    assert st.loc[s := st.loc[s]] == st.loc;
    JoinFrame(st.book.rooms, t.book.rooms, st.loc, t.loc, st.pool.slots, t.pool.slots);
    MemberFrame(st.book.rooms, t.book.rooms, st.loc, t.loc, st.pool.slots, t.pool.slots);
    LeaveFrame(st.book.rooms, t.book.rooms, st.pool.slots, t.pool.slots, st.conns, t.conns);
    LifeConn(st.book.rooms, t.book.rooms, st.home, st.workers, st.conns, s, t.conns[s], st.lock, t.lock);
  }

  lemma InputLoadKeeps(st: State, s: nat, c: Cmd)
    requires Inv(st) && CanInputLoad(st, s)
    ensures Inv(InputLoad(st, s, c))
  {
    hide BookShape, ConnShape, WorkerShape, SeatInv, JoinInv, MemberInv, RefInv;
    hide PartingInv, FreeInv, ListInv, LoadInv, OpenInv, LifeInv, LeaveInv;
    var t := InputLoad(st, s, c);
    RefFrame(st.pool, t.pool, st.conns, t.conns, st.loc, t.loc);
    LeaveFrame(st.book.rooms, t.book.rooms, st.pool.slots, t.pool.slots, st.conns, t.conns);
    LifeConn(st.book.rooms, t.book.rooms, st.home, st.workers, st.conns, s, t.conns[s], st.lock, t.lock);
  }

  lemma InputPushKeeps(st: State, s: nat)
    requires Inv(st) && CanInputPush(st, s)
    ensures Inv(InputPush(st, s))
  {
    hide BookShape, ConnShape, WorkerShape, SeatInv, JoinInv, MemberInv, RefInv;
    hide PartingInv, FreeInv, ListInv, LoadInv, OpenInv, LifeInv, LeaveInv;
    var t := InputPush(st, s);
    SeatFrame(st.book.rooms, t.book.rooms, st.seatBy, st.loc, t.loc);
    JoinFrame(st.book.rooms, t.book.rooms, st.loc, t.loc, st.pool.slots, t.pool.slots);
    MemberFrame(st.book.rooms, t.book.rooms, st.loc, t.loc, st.pool.slots, t.pool.slots);
    RefFrame(st.pool, t.pool, st.conns, t.conns, st.loc, t.loc);
    LoadFrame(st.book.rooms, t.book.rooms, st.home, st.book.load);
    LeaveFrame(st.book.rooms, t.book.rooms, st.pool.slots, t.pool.slots, st.conns, t.conns);
    OpenFrame(st.book.open, st.home, t.home, st.book.rooms, t.book.rooms);
    LifeConn(st.book.rooms, t.book.rooms, st.home, st.workers, st.conns, s, t.conns[s], st.lock, t.lock);
  }

  // ---- Game workers -----------------------------------------------------------------------

  /** The room a worker is at is in its list, and its entries are swapped out only in a batch. */
  lemma WorkerRoom(st: State, w: nat)
    requires Inv(st) && w < |st.workers| && !st.workers[w].pc.Idle?
    requires st.workers[w].pc.pos < |st.workers[w].rooms|
    ensures var r := RoomAt(st, w);
      && AtRoom(st.workers[w], r) && st.home[r] == InList(w)
      && LifeOk(r, st.book.rooms[r], st.home[r], st.workers, st.conns, st.lock)
      && (st.book.rooms[r].dead <==> st.workers[w].pc.Dooming?)
  {
    hide BookShape, ConnShape, SeatInv, JoinInv, MemberInv, RefInv, ConnInv;
    hide PartingInv, FreeInv, LoadInv, OpenInv, LeaveInv;
    var r := RoomAt(st, w);
    assert r in st.workers[w].rooms;
    assert LifeOk(r, st.book.rooms[r], st.home[r], st.workers, st.conns, st.lock);
  }

  lemma BeginKeeps(st: State, w: nat)
    requires Inv(st) && CanBegin(st, w)
    ensures Inv(Begin(st, w))
  {
    hide BookShape, ConnShape, WorkerShape, SeatInv, JoinInv, MemberInv;
    hide RefInv, ConnInv, PartingInv, OpenInv, LifeInv, LeaveInv;
    var t := Begin(st, w);
    ListDrained(st.book.mail, st.workers, st.home, w, t.home, At(0));
    forall v | 0 <= v < |st.book.load| ensures st.book.load[v] == |RoomsOf(t.book.rooms, t.home, v)| {
      assert RoomsOf(t.book.rooms, t.home, v) == RoomsOf(st.book.rooms, st.home, v);
    }
    OpenFrame(st.book.open, st.home, t.home, st.book.rooms, t.book.rooms);
    PartingFrame(st.loc, t.loc, st.workers, t.workers);
    LifeQuiet(st.book.rooms, st.home, t.home, st.workers, st.conns, st.lock, w, t.workers[w]);
  }

  lemma EndKeeps(st: State, w: nat)
    requires Inv(st) && CanEnd(st, w)
    ensures Inv(End(st, w))
  {
    hide BookShape, ConnShape, WorkerShape, SeatInv, JoinInv, MemberInv, RefInv;
    hide ConnInv, PartingInv, FreeInv, ListInv, LoadInv, OpenInv, LifeInv, LeaveInv;
    var t := End(st, w);
    PartingFrame(st.loc, t.loc, st.workers, t.workers);
    ListFrame(st.book.mail, st.workers, t.workers, st.home);
    LifeQuiet(st.book.rooms, st.home, t.home, st.workers, st.conns, st.lock, w, t.workers[w]);
  }

  lemma TakeKeeps(st: State, w: nat)
    requires Inv(st) && CanTake(st, w)
    ensures Inv(Take(st, w))
  {
    hide BookShape, ConnShape, WorkerShape, SeatInv, JoinInv, MemberInv, RefInv;
    hide ConnInv, PartingInv, FreeInv, ListInv, LoadInv, OpenInv, LifeInv, LeaveInv;
    var t := Take(st, w);
    var r := RoomAt(st, w);
    WorkerRoom(st, w);
    assert Joins(t.book.rooms[r]) == Joins(st.book.rooms[r]);
    assert Leaves(t.book.rooms[r]) == Leaves(st.book.rooms[r]);
    SeatFrame(st.book.rooms, t.book.rooms, st.seatBy, st.loc, t.loc);
    JoinFrame(st.book.rooms, t.book.rooms, st.loc, t.loc, st.pool.slots, t.pool.slots);
    MemberFrame(st.book.rooms, t.book.rooms, st.loc, t.loc, st.pool.slots, t.pool.slots);
    PartingFrame(st.loc, t.loc, st.workers, t.workers);
    LoadFrame(st.book.rooms, t.book.rooms, st.home, st.book.load);
    LeaveFrame(st.book.rooms, t.book.rooms, st.pool.slots, t.pool.slots, st.conns, t.conns);
    ListFrame(st.book.mail, st.workers, t.workers, st.home);
    OpenFrame(st.book.open, st.home, t.home, st.book.rooms, t.book.rooms);
    assert t.book.rooms == st.book.rooms[r := t.book.rooms[r]];
    assert t.workers == st.workers[w := st.workers[w].(pc := t.workers[w].pc)];
    LifeWork(st.book.rooms, st.home, st.book.mail, st.workers, st.conns, st.lock,
             w, r, t.book.rooms[r], t.workers[w].pc);
  }

  /** The oldest join entry of a room names a session that holds its seat and is not yet seated. */
  lemma JoinHead(rooms: seq<Room>, seatBy: seq<seq<int>>, loc: seq<Loc>, slots: seq<Slot>, r: nat)
    requires SeatInv(rooms, seatBy, loc) && JoinInv(rooms, loc, slots) && MemberInv(rooms, loc, slots)
    requires r < |rooms| && rooms[r].takenJ != []
    ensures var e := rooms[r].takenJ[0];
      && Joins(rooms[r])[0] == e
      && e.sess < |loc| && e.seat < SEATS && loc[e.sess] == Held(r, e.seat, SPending)
      && e.gen == slots[e.sess].gen && !rooms[r].members[e.seat].used && rooms[r].reserved > 0
  {
    var e := Joins(rooms[r])[0];
    assert e == rooms[r].takenJ[0];
    assert loc[e.sess] == Held(r, e.seat, SPending);
  }

  lemma JoinRefusedKeeps(st: State, w: nat)
    requires Inv(st) && CanJoinOne(st, w)
    requires Refused(st, st.book.rooms[RoomAt(st, w)].takenJ[0])
    ensures Inv(JoinOne(st, w))
  {
    hide BookShape, ConnShape, SeatInv, JoinInv, MemberInv, RefInv;
    hide PartingInv, FreeInv, ListInv, LoadInv, OpenInv, LifeInv, LeaveInv;
    var t := JoinOne(st, w);
    var r := RoomAt(st, w);
    WorkerRoom(st, w);
    var room := st.book.rooms[r];
    var e := room.takenJ[0];
    JoinHead(st.book.rooms, st.seatBy, st.loc, st.pool.slots, r);
    assert Joins(t.book.rooms[r]) == Joins(room)[1..];
    SeatGiven(st.book.rooms, st.seatBy, st.loc, e.sess, t.book.rooms[r], Parting(w));
    JoinRemoved(st.book.rooms, st.loc, st.pool.slots, r, t.book.rooms[r], Parting(w));
    PartingStarted(st.loc, st.workers, w, e.sess, t.workers[w]);
    MemberFrame(st.book.rooms, t.book.rooms, st.loc, t.loc, st.pool.slots, t.pool.slots);
    RefFrame(st.pool, t.pool, st.conns, t.conns, st.loc, t.loc);
    LoadFrame(st.book.rooms, t.book.rooms, st.home, st.book.load);
    LeaveFrame(st.book.rooms, t.book.rooms, st.pool.slots, t.pool.slots, st.conns, t.conns);
    ListFrame(st.book.mail, st.workers, t.workers, st.home);
    OpenFrame(st.book.open, st.home, t.home, st.book.rooms, t.book.rooms);
    assert t.book.rooms == st.book.rooms[r := t.book.rooms[r]];
    assert t.workers == st.workers[w := st.workers[w].(pc := t.workers[w].pc)];
    LifeWork(st.book.rooms, st.home, st.book.mail, st.workers, st.conns, st.lock,
             w, r, t.book.rooms[r], t.workers[w].pc);
  }

  lemma JoinSeatedKeeps(st: State, w: nat)
    requires Inv(st) && CanJoinOne(st, w)
    requires !Refused(st, st.book.rooms[RoomAt(st, w)].takenJ[0])
    ensures Inv(JoinOne(st, w))
  {
    hide BookShape, ConnShape, SeatInv, JoinInv, MemberInv, RefInv;
    hide PartingInv, FreeInv, ListInv, LoadInv, OpenInv, LifeInv, LeaveInv;
    var t := JoinOne(st, w);
    var r := RoomAt(st, w);
    WorkerRoom(st, w);
    var room := st.book.rooms[r];
    var e := room.takenJ[0];
    JoinHead(st.book.rooms, st.seatBy, st.loc, st.pool.slots, r);
    assert Joins(t.book.rooms[r]) == Joins(room)[1..];
    SeatFrame(st.book.rooms, t.book.rooms, st.seatBy, st.loc, t.loc);
    JoinRemoved(st.book.rooms, st.loc, st.pool.slots, r, t.book.rooms[r], Held(r, e.seat, SSeated));
    MemberAdded(st.book.rooms, st.loc, st.pool.slots, r, e.seat, e.sess, t.book.rooms[r]);
    RefFrame(st.pool, t.pool, st.conns, t.conns, st.loc, t.loc);
    PartingFrame(st.loc, t.loc, st.workers, t.workers);
    LoadFrame(st.book.rooms, t.book.rooms, st.home, st.book.load);
    LeaveFrame(st.book.rooms, t.book.rooms, st.pool.slots, t.pool.slots, st.conns, t.conns);
    ListFrame(st.book.mail, st.workers, t.workers, st.home);
    OpenFrame(st.book.open, st.home, t.home, st.book.rooms, t.book.rooms);
    assert t.book.rooms == st.book.rooms[r := t.book.rooms[r]];
    assert t.workers == st.workers[w := st.workers[w].(pc := t.workers[w].pc)];
    LifeWork(st.book.rooms, st.home, st.book.mail, st.workers, st.conns, st.lock,
             w, r, t.book.rooms[r], t.workers[w].pc);
  }

  lemma JoinOneKeeps(st: State, w: nat)
    requires Inv(st) && CanJoinOne(st, w)
    ensures Inv(JoinOne(st, w))
  {
    if Refused(st, st.book.rooms[RoomAt(st, w)].takenJ[0]) {
      JoinRefusedKeeps(st, w);
    } else {
      JoinSeatedKeeps(st, w);
    }
  }

  /** A member named by a leave entry belongs to a session that has hung up. */
  lemma LeaveHead(rooms: seq<Room>, seatBy: seq<seq<int>>, loc: seq<Loc>, slots: seq<Slot>,
                  conns: seq<Conn>, r: nat, i: nat)
    requires SeatInv(rooms, seatBy, loc) && MemberInv(rooms, loc, slots) && LeaveInv(rooms, slots, conns)
    requires r < |rooms| && i < SEATS && rooms[r].takenL != []
    requires rooms[r].members[i].used && rooms[r].members[i].sess == rooms[r].takenL[0].sess
    requires rooms[r].members[i].gen == rooms[r].takenL[0].gen
    ensures var e := rooms[r].takenL[0];
      && e.sess < |loc| && loc[e.sess] == Held(r, i, SSeated)
      && e.sess < |conns| && HungUp(slots[e.sess], conns[e.sess]) && rooms[r].reserved > 0
  {
    assert LeaveOk(Leaves(rooms[r])[0], slots, conns);
  }

  predicate NamesMember(st: State, w: nat)
    requires Shape(st) && CanLeaveOne(st, w)
  {
    var room := st.book.rooms[RoomAt(st, w)];
    FindMember(room.members, room.takenL[0]) < SEATS
  }

  lemma LeaveFoundKeeps(st: State, w: nat)
    requires Inv(st) && CanLeaveOne(st, w)
    requires NamesMember(st, w)
    ensures Inv(LeaveOne(st, w))
  {
    hide BookShape, ConnShape, SeatInv, JoinInv, MemberInv, RefInv;
    hide PartingInv, FreeInv, ListInv, LoadInv, OpenInv, LifeInv, LeaveInv;
    var t := LeaveOne(st, w);
    var r := RoomAt(st, w);
    WorkerRoom(st, w);
    var room := st.book.rooms[r];
    var e := room.takenL[0];
    Sized(st);
    assert Leaves(t.book.rooms[r]) == Leaves(room)[1..];
    var i := FindMember(room.members, e);
    LeaveHead(st.book.rooms, st.seatBy, st.loc, st.pool.slots, st.conns, r, i);
    SeatGiven(st.book.rooms, st.seatBy, st.loc, e.sess, t.book.rooms[r], Parting(w));
    MemberRemoved(st.book.rooms, st.loc, st.pool.slots, r, i, t.book.rooms[r], Parting(w));
    PartingStarted(st.loc, st.workers, w, e.sess, t.workers[w]);
    JoinFrame(st.book.rooms, t.book.rooms, st.loc, t.loc, st.pool.slots, t.pool.slots);
    RefFrame(st.pool, t.pool, st.conns, t.conns, st.loc, t.loc);
    LoadFrame(st.book.rooms, t.book.rooms, st.home, st.book.load);
    LeaveFrame(st.book.rooms, t.book.rooms, st.pool.slots, t.pool.slots, st.conns, t.conns);
    ListFrame(st.book.mail, st.workers, t.workers, st.home);
    OpenFrame(st.book.open, st.home, t.home, st.book.rooms, t.book.rooms);
    assert t.book.rooms == st.book.rooms[r := t.book.rooms[r]];
    assert t.workers == st.workers[w := st.workers[w].(pc := t.workers[w].pc)];
    LifeWork(st.book.rooms, st.home, st.book.mail, st.workers, st.conns, st.lock,
             w, r, t.book.rooms[r], t.workers[w].pc);
  }

  lemma LeaveMissedKeeps(st: State, w: nat)
    requires Inv(st) && CanLeaveOne(st, w)
    requires !NamesMember(st, w)
    ensures Inv(LeaveOne(st, w))
  {
    hide BookShape, ConnShape, SeatInv, JoinInv, MemberInv, RefInv, ConnInv;
    hide PartingInv, FreeInv, ListInv, LoadInv, OpenInv, LifeInv, LeaveInv;
    var t := LeaveOne(st, w);
    var r := RoomAt(st, w);
    WorkerRoom(st, w);
    var room := st.book.rooms[r];
    var e := room.takenL[0];
    Sized(st);
    assert Leaves(t.book.rooms[r]) == Leaves(room)[1..];
    SeatFrame(st.book.rooms, t.book.rooms, st.seatBy, st.loc, t.loc);
    JoinFrame(st.book.rooms, t.book.rooms, st.loc, t.loc, st.pool.slots, t.pool.slots);
    MemberFrame(st.book.rooms, t.book.rooms, st.loc, t.loc, st.pool.slots, t.pool.slots);
    LoadFrame(st.book.rooms, t.book.rooms, st.home, st.book.load);
    LeaveFrame(st.book.rooms, t.book.rooms, st.pool.slots, t.pool.slots, st.conns, t.conns);
    OpenFrame(st.book.open, st.home, t.home, st.book.rooms, t.book.rooms);
    assert t.book.rooms == st.book.rooms[r := t.book.rooms[r]];
    assert t.workers == st.workers[w := st.workers[w].(pc := t.workers[w].pc)];
    LifeWork(st.book.rooms, st.home, st.book.mail, st.workers, st.conns, st.lock,
             w, r, t.book.rooms[r], t.workers[w].pc);
  }

  lemma LeaveOneKeeps(st: State, w: nat)
    requires Inv(st) && CanLeaveOne(st, w)
    ensures Inv(LeaveOne(st, w))
  {
    if NamesMember(st, w) {
      LeaveFoundKeeps(st, w);
    } else {
      LeaveMissedKeeps(st, w);
    }
  }

  lemma ReturnKeeps(st: State, w: nat)
    requires Inv(st) && CanReturn(st, w)
    ensures Inv(Return(st, w))
  {
    hide BookShape, ConnShape, SeatInv, JoinInv, MemberInv, RefInv;
    hide PartingInv, FreeInv, ListInv, LoadInv, OpenInv, LifeInv, LeaveInv;
    var t := Return(st, w);
    var r := RoomAt(st, w);
    WorkerRoom(st, w);
    var s := st.workers[w].pc.sess;
    PartingEnded(st.loc, st.workers, w, t.workers[w]);
    assert ConnOk(st.conns[s], st.pool.slots[s], st.loc[s]);
    RefReleased(st.pool, st.conns, st.loc, s, st.conns[s], Away);
    assert st.conns[s := st.conns[s]] == st.conns && st.book.rooms[r := st.book.rooms[r]] == st.book.rooms;
    SeatFrame(st.book.rooms, t.book.rooms, st.seatBy, st.loc, t.loc);
    JoinFrame(st.book.rooms, t.book.rooms, st.loc, t.loc, st.pool.slots, t.pool.slots);
    MemberFrame(st.book.rooms, t.book.rooms, st.loc, t.loc, st.pool.slots, t.pool.slots);
    LeaveFrame(st.book.rooms, t.book.rooms, st.pool.slots, t.pool.slots, st.conns, t.conns);
    ListFrame(st.book.mail, st.workers, t.workers, st.home);
    assert t.book.rooms == st.book.rooms[r := t.book.rooms[r]];
    assert t.workers == st.workers[w := st.workers[w].(pc := t.workers[w].pc)];
    LifeWork(st.book.rooms, st.home, st.book.mail, st.workers, st.conns, st.lock,
             w, r, t.book.rooms[r], t.workers[w].pc);
  }

  lemma CheckKeeps(st: State, w: nat)
    requires Inv(st) && CanCheck(st, w)
    ensures Inv(Check(st, w))
  {
    hide BookShape, ConnShape, SeatInv, JoinInv, MemberInv, RefInv, ConnInv;
    hide PartingInv, FreeInv, ListInv, LoadInv, OpenInv, LifeInv, LeaveInv;
    var t := Check(st, w);
    var r := RoomAt(st, w);
    WorkerRoom(st, w);
    SeatFrame(st.book.rooms, t.book.rooms, st.seatBy, st.loc, t.loc);
    JoinFrame(st.book.rooms, t.book.rooms, st.loc, t.loc, st.pool.slots, t.pool.slots);
    MemberFrame(st.book.rooms, t.book.rooms, st.loc, t.loc, st.pool.slots, t.pool.slots);
    PartingFrame(st.loc, t.loc, st.workers, t.workers);
    LoadFrame(st.book.rooms, t.book.rooms, st.home, st.book.load);
    LeaveFrame(st.book.rooms, t.book.rooms, st.pool.slots, t.pool.slots, st.conns, t.conns);
    ListFrame(st.book.mail, st.workers, t.workers, st.home);
    OpenFrame(st.book.open, st.home, t.home, st.book.rooms, t.book.rooms);
    assert t.book.rooms == st.book.rooms[r := t.book.rooms[r]];
    assert t.workers == st.workers[w := st.workers[w].(pc := t.workers[w].pc)];
    LifeWork(st.book.rooms, st.home, st.book.mail, st.workers, st.conns, st.lock,
             w, r, t.book.rooms[r], t.workers[w].pc);
  }

  lemma FreeKeeps(st: State, w: nat)
    requires Inv(st) && CanFree(st, w)
    ensures Inv(Free(st, w))
  {
    hide BookShape, ConnShape, SeatInv, JoinInv, MemberInv, RefInv, ConnInv;
    hide PartingInv, FreeInv, ListInv, LoadInv, OpenInv, LifeInv, LeaveInv;
    var t := Free(st, w);
    var r := RoomAt(st, w);
    WorkerRoom(st, w);
    var p := st.workers[w].pc.pos;
    DeadRoom(st.book.rooms, st.seatBy, st.loc, r);
    FreeAdded(st.book.free, st.home, r);
    OpenRemoved(st.book.open, st.home, st.book.rooms, r, t.book.rooms[r]);
    ListDropped(st.book.mail, st.workers, st.home, w, p, At(p));
    LoadRemoved(st.book.rooms, st.home, st.book.load, r, t.book.rooms[r]);
    LifeFreed(st.book.rooms, st.home, st.workers, st.conns, st.lock, w, r, t.book.rooms[r], t.workers[w]);
    SeatFrame(st.book.rooms, t.book.rooms, st.seatBy, st.loc, t.loc);
    JoinFrame(st.book.rooms, t.book.rooms, st.loc, t.loc, st.pool.slots, t.pool.slots);
    MemberFrame(st.book.rooms, t.book.rooms, st.loc, t.loc, st.pool.slots, t.pool.slots);
    PartingFrame(st.loc, t.loc, st.workers, t.workers);
    LeaveFrame(st.book.rooms, t.book.rooms, st.pool.slots, t.pool.slots, st.conns, t.conns);
  }

  lemma TickKeeps(st: State, w: nat)
    requires Inv(st) && CanTick(st, w)
    ensures Inv(Tick(st, w))
  {
    hide BookShape, ConnShape, SeatInv, JoinInv, MemberInv, RefInv, ConnInv;
    hide PartingInv, FreeInv, ListInv, LoadInv, OpenInv, LifeInv, LeaveInv;
    var t := Tick(st, w);
    var r := RoomAt(st, w);
    WorkerRoom(st, w);
    SeatFrame(st.book.rooms, t.book.rooms, st.seatBy, st.loc, t.loc);
    JoinFrame(st.book.rooms, t.book.rooms, st.loc, t.loc, st.pool.slots, t.pool.slots);
    MemberFrame(st.book.rooms, t.book.rooms, st.loc, t.loc, st.pool.slots, t.pool.slots);
    PartingFrame(st.loc, t.loc, st.workers, t.workers);
    LoadFrame(st.book.rooms, t.book.rooms, st.home, st.book.load);
    LeaveFrame(st.book.rooms, t.book.rooms, st.pool.slots, t.pool.slots, st.conns, t.conns);
    ListFrame(st.book.mail, st.workers, t.workers, st.home);
    OpenFrame(st.book.open, st.home, t.home, st.book.rooms, t.book.rooms);
    assert t.book.rooms == st.book.rooms[r := t.book.rooms[r]];
    assert t.workers == st.workers[w := st.workers[w].(pc := t.workers[w].pc)];
    LifeWork(st.book.rooms, st.home, st.book.mail, st.workers, st.conns, st.lock,
             w, r, t.book.rooms[r], t.workers[w].pc);
  }

  lemma StayKeeps(st: State, w: nat)
    requires Inv(st) && IsExiting(st, w)
    ensures Inv(Stay(st, w))
  {
    hide BookShape, ConnShape, WorkerShape, SeatInv, JoinInv, MemberInv, RefInv;
    hide ConnInv, PartingInv, FreeInv, ListInv, LoadInv, OpenInv, LifeInv, LeaveInv;
    var t := Stay(st, w);
    PartingFrame(st.loc, t.loc, st.workers, t.workers);
    ListFrame(st.book.mail, st.workers, t.workers, st.home);
    LifeQuiet(st.book.rooms, st.home, t.home, st.workers, st.conns, st.lock, w, t.workers[w]);
  }
}
