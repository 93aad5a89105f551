/** A game worker's tick as steps of the protocol, from Begin to End with nobody interfering, is the tick
    that `WorkerPass` runs. */
module LonePass {
  import opened Sessions
  import opened Inputs
  import opened Rooms
  import opened Lifetime
  import opened LifetimeInv
  import opened LifetimeSteps
  import opened LifetimeMove
  import opened LifetimeRuns
  import opened Leak
  import opened Manager
  import opened Alone
  import opened TickList
  import opened WorkerPass

  function DeskOf(st: State, w: nat): Desk
    requires w < |st.workers|
  {
    Desk(st.pool, st.book, st.workers[w].rooms)
  }

  /** In every reachable state a worker's desk is in order. */
  lemma DeskIsOk(st: State, w: nat)
    requires Inv(st) && w < |st.workers|
    ensures DeskOk(DeskOf(st, w))
  {
    hide ConnShape, WorkerShape, SeatInv, JoinInv, MemberInv, RefInv, ConnInv, PartingInv, LoadInv, OpenInv;
    hide LifeInv, LeaveInv;
    Sized(st);
    ShapeIsIndexed(st.book, |st.pool.slots|);
    forall k | 0 <= k < |st.workers[w].rooms|
      ensures st.workers[w].rooms[k] < |st.book.rooms| && st.workers[w].rooms[k] !in st.book.free
    {
      assert st.workers[w].rooms[k] in st.workers[w].rooms;
    }
  }

  /** Between two rooms nothing is swapped out. */
  lemma NothingSwapped(st: State, w: nat)
    requires Inv(st) && CanTake(st, w)
    ensures st.book.rooms[RoomAt(st, w)].takenJ == [] && st.book.rooms[RoomAt(st, w)].takenL == []
  {
    hide BookShape, ConnShape, SeatInv, JoinInv, MemberInv, RefInv, ConnInv, PartingInv, FreeInv, LoadInv, OpenInv;
    hide LeaveInv;
    var r := RoomAt(st, w);
    assert r in st.workers[w].rooms;
    assert LifeOk(r, st.book.rooms[r], st.home[r], st.workers, st.conns, st.lock);
  }

  lemma EntryKeeps(st: State, w: nat)
    requires Inv(st) && (CanJoinOne(st, w) || CanLeaveOne(st, w))
    ensures Inv(EntryAlone(st, w)) && EntryAlone(st, w).conns == st.conns
  {
    hide Inv, Shape, BookShape, ConnShape, WorkerShape;
    InvShape(st);
    if CanJoinOne(st, w) { JoinOneKeeps(st, w); } else { LeaveOneKeeps(st, w); }
    var t := if CanJoinOne(st, w) then JoinOne(st, w) else LeaveOne(st, w);
    if t.workers[w].pc.Returning? { ReturnKeeps(t, w); }
  }

  lemma {:induction false} BatchKeeps(st: State, w: nat)
    requires Inv(st) && InBatch(st, w)
    ensures Inv(BatchAlone(st, w)) && BatchAlone(st, w).conns == st.conns
    decreases |st.book.rooms[RoomAt(st, w)].takenJ| + |st.book.rooms[RoomAt(st, w)].takenL|
  {
    hide Inv, BookShape, ConnShape, EntryAlone, EntryTaken;
    InvShape(st);
    RoomIsFine(st, w);
    BatchFirst(st.pool, st.book.rooms[RoomAt(st, w)]);
    if CanJoinOne(st, w) {
      EntryKeeps(st, w);
      JoinEntryIs(st, w);
      BatchKeeps(EntryAlone(st, w), w);
    } else if CanLeaveOne(st, w) {
      EntryKeeps(st, w);
      LeaveEntryIs(st, w);
      BatchKeeps(EntryAlone(st, w), w);
    }
  }

  /** The queues of the room in hand worked off, step by step, up to the verdict. */
  ghost function VisitAlone(st: State, w: nat): (t: State)
    requires Inv(st) && CanTake(st, w) && st.lock.Unlocked?
    ensures Shape(t)
  {
    NothingSwapped(st, w);
    VisitIs(st, w);
    Check(BatchAlone(Take(st, w), w), w)
  }

  /** The room in hand died, or it lives. */
  function Verdict(st: State, w: nat): Pc
    requires Shape(st) && CanTake(st, w)
  {
    RoomHere(st, w);
    if Processed(st.pool, st.book, RoomAt(st, w)).2 then Dooming(st.workers[w].pc.pos)
    else Ticking(st.workers[w].pc.pos)
  }

  lemma RoomHere(st: State, w: nat)
    requires Shape(st) && CanTake(st, w)
    ensures var room := st.book.rooms[RoomAt(st, w)];
      FourSeats(room) && Entries(room.pendJ, |st.pool.slots|) && Departures(room.pendL, |st.pool.slots|)
      && room.worker < |st.book.load|
  {
    hide ConnShape;
    assert RoomShape(st.book.rooms[RoomAt(st, w)], |st.pool.slots|, |st.book.load|);
  }

  lemma VisitAloneKeeps(st: State, w: nat)
    requires Inv(st) && CanTake(st, w) && st.lock.Unlocked?
    ensures Inv(VisitAlone(st, w)) && VisitAlone(st, w).conns == st.conns
  {
    hide Inv, Shape, BatchAlone, CanCheck, CanTake;
    InvShape(st);
    NothingSwapped(st, w);
    VisitIs(st, w);
    var u := Take(st, w);
    TakeKeeps(st, w);
    assert u.conns == st.conns;
    BatchKeeps(u, w);
    CheckKeeps(BatchAlone(u, w), w);
  }

  lemma VisitAloneIs(st: State, w: nat)
    requires Inv(st) && CanTake(st, w) && st.lock.Unlocked?
    ensures var t := VisitAlone(st, w);
      t.lock == st.lock && t.workers == st.workers[w := st.workers[w].(pc := Verdict(st, w))]
  {
    hide BookShape, ConnShape, WorkerShape, BatchAlone, Processed, BatchTaken;
    hide SeatInv, JoinInv, MemberInv, RefInv, ConnInv, PartingInv, FreeInv, ListInv, LoadInv, OpenInv;
    hide LifeInv, LeaveInv;
    NothingSwapped(st, w);
    VisitIs(st, w);
    BatchAloneIs(Take(st, w), w);
  }

  /** One room's turn, step by step. */
  ghost function TurnAlone(st: State, w: nat, atExit: bool): (t: State)
    requires Inv(st) && CanTake(st, w) && st.lock.Unlocked?
    ensures Shape(t)
  {
    VisitAloneIs(st, w);
    var v := VisitAlone(st, w);
    if v.workers[w].pc.Dooming? then Free(v, w)
    else
      var x := Tick(v, w);
      if atExit && CanMove(x, w) then Move(x, w) else Stay(x, w)
  }

  lemma TurnAloneKeeps(st: State, w: nat, atExit: bool)
    requires Inv(st) && CanTake(st, w) && st.lock.Unlocked?
    ensures Inv(TurnAlone(st, w, atExit))
  {
    hide Inv, Shape, VisitAlone, CanMove, Free, Move, Stay, TickMembers;
    InvShape(st);
    VisitAloneIs(st, w);
    VisitAloneKeeps(st, w);
    var v := VisitAlone(st, w);
    if v.workers[w].pc.Dooming? {
      FreeKeeps(v, w);
    } else {
      TickKeeps(v, w);
      var x := Tick(v, w);
      if atExit && CanMove(x, w) { MoveKeeps(x, w); } else { StayKeeps(x, w); }
    }
  }

  predicate Stands(t: State, w: nat, d: Desk, i: nat) {
    w < |t.workers| && DeskOf(t, w) == d && t.workers[w].pc == At(i) && t.lock.Unlocked?
  }

  /** Pool, ledger and list after a room's turn in the protocol are those of the code. */
  lemma TurnAloneIs(st: State, w: nat, atExit: nat -> bool)
    requires Inv(st) && CanTake(st, w) && st.lock.Unlocked?
    ensures DeskOk(DeskOf(st, w))
    ensures var i := st.workers[w].pc.pos;
      var (e, f) := Turn(DeskOf(st, w), i, atExit);
      Stands(TurnAlone(st, w, atExit(RoomAt(st, w))), w, e, if f.Dies? then i else i + 1)
  {
    hide BookShape, ConnShape, BatchAlone, Processed, MoveBook, Rehome, FreeSlot, TickMembers;
    hide SeatInv, JoinInv, MemberInv, RefInv, ConnInv, PartingInv, FreeInv, ListInv, LoadInv, OpenInv;
    hide LifeInv, LeaveInv;
    DeskIsOk(st, w);
    NothingSwapped(st, w);
    VisitIs(st, w);
    VisitAloneIs(st, w);
  }

  /** The rest of the pass, step by step, to its end. */
  ghost function PassAlone(st: State, w: nat, atExit: nat -> bool): (t: State)
    requires Inv(st) && w < |st.workers| && st.workers[w].pc.At? && st.lock.Unlocked?
    ensures Shape(t)
    decreases |st.workers[w].rooms| - st.workers[w].pc.pos
  {
    if st.workers[w].pc.pos >= |st.workers[w].rooms| then End(st, w)
    else
      var t := TurnAlone(st, w, atExit(RoomAt(st, w)));
      TurnAloneKeeps(st, w, atExit(RoomAt(st, w)));
      TurnAloneIs(st, w, atExit);
      PassFirst(DeskOf(st, w), st.workers[w].pc.pos, atExit);
      PassAlone(t, w, atExit)
  }

  lemma {:induction false} PassAloneIs(st: State, w: nat, atExit: nat -> bool)
    requires Inv(st) && w < |st.workers| && st.workers[w].pc.At? && st.lock.Unlocked?
    ensures DeskOk(DeskOf(st, w)) && st.workers[w].pc.pos <= |st.workers[w].rooms|
    ensures var t := PassAlone(st, w, atExit);
      && w < |t.workers| && t.workers[w].pc.Idle?
      && DeskOf(t, w) == Pass(DeskOf(st, w), st.workers[w].pc.pos, atExit).0
    decreases |st.workers[w].rooms| - st.workers[w].pc.pos
  {
    hide Inv, TurnAlone, BookShape, ConnShape, DeskOk, Turn;
    DeskIsOk(st, w);
    InvShape(st);
    if st.workers[w].pc.pos < |st.workers[w].rooms| {
      var r := RoomAt(st, w);
      TurnAloneKeeps(st, w, atExit(r));
      TurnAloneIs(st, w, atExit);
      PassFirst(DeskOf(st, w), st.workers[w].pc.pos, atExit);
      PassAloneIs(TurnAlone(st, w, atExit(r)), w, atExit);
    }
  }

  /** From Begin to End the protocol does what one tick of the code does. */
  lemma TickAloneIs(st: State, w: nat, atExit: nat -> bool)
    requires Inv(st) && CanBegin(st, w) && st.lock.Unlocked?
    ensures Inv(Begin(st, w)) && w < |st.book.mail| && DeskOk(Drained(DeskOf(st, w), w))
    ensures var t := PassAlone(Begin(st, w), w, atExit);
      && w < |t.workers| && t.workers[w].pc.Idle?
      && DeskOf(t, w) == Pass(Drained(DeskOf(st, w), w), 0, atExit).0
  {
    hide Inv, PassAlone, Pass, DeskOk, BookShape, ConnShape;
    InvShape(st);
    Sized(st);
    BeginKeeps(st, w);
    PassAloneIs(Begin(st, w), w, atExit);
  }
}
