/** One tick of a game worker as it runs: new rooms are taken in, and every room on the list is worked off,
    ticked and, at the exit, moved, with the list edited on the way.  The same tick in the protocol, from
    Begin to End without interference, comes to the same result. */
module WorkerPass {
  import opened Sessions
  import opened Inputs
  import opened Rooms
  import opened Lifetime
  import opened LifetimeInv
  import opened LifetimeRuns
  import opened Manager
  import opened Alone
  import opened TickList

  /** What a worker works on. */
  datatype Desk = Desk(pool: Pool, book: Book, rooms: seq<nat>)

  predicate QueuesOk(b: Book, sessions: nat) {
    forall n :: 0 <= n < |b.rooms| ==> Entries(b.rooms[n].pendJ, sessions) && Departures(b.rooms[n].pendL, sessions)
  }

  /** Rooms on the list exist, none is named twice and none is free. */
  predicate DeskOk(d: Desk) {
    && Bounded(d.pool) && Indexed(d.book) && QueuesOk(d.book, |d.pool.slots|)
    && NoDup(d.rooms) && NoDup(d.book.free)
    && forall k :: 0 <= k < |d.rooms| ==> d.rooms[k] < |d.book.rooms| && d.rooms[k] !in d.book.free
  }

  function Ticked(room: Room): Room
    requires |room.members| == SEATS
  {
    room.(members := TickMembers(room.members, room.inQ), inQ := [])
  }

  // ---- One room ---------------------------------------------------------------------------

  lemma {:induction false} JoinsKeepQueues(p: Pool, room: Room, es: seq<JoinEntry>)
    requires Bounded(p) && Entries(es, |p.slots|) && FourSeats(room)
    ensures var next := JoinsTaken(p, room, es).1; next.pendJ == room.pendJ && next.pendL == room.pendL
    decreases |es|
  {
    if es != [] {
      var (q, next) := JoinTaken(p, room, es[0]);
      JoinsKeepQueues(q, next, es[1..]);
    }
  }

  lemma {:induction false} LeavesKeepQueues(p: Pool, room: Room, es: seq<LeaveEntry>)
    requires Bounded(p) && Departures(es, |p.slots|) && FourSeats(room)
    ensures var next := LeavesTaken(p, room, es).1; next.pendJ == room.pendJ && next.pendL == room.pendL
    decreases |es|
  {
    if es != [] {
      var (q, next) := LeaveTaken(p, room, es[0]);
      LeavesKeepQueues(q, next, es[1..]);
    }
  }

  lemma QueuesGone(p: Pool, room: Room)
    requires Bounded(p) && FourSeats(room) && Entries(room.pendJ, |p.slots|) && Departures(room.pendL, |p.slots|)
    ensures var next := QueuesTaken(p, room).1; next.pendJ == [] && next.pendL == [] && next.worker == room.worker
  {
    var bare := room.(pendJ := [], pendL := []);
    var (q, joined) := JoinsTaken(p, bare, room.pendJ);
    JoinsKeepQueues(p, bare, room.pendJ);
    LeavesKeepQueues(q, joined, room.pendL);
    QueuesKeepWorker(p, room);
  }

  predicate RoomOk(room: Room, sessions: nat, workers: nat) {
    && FourSeats(room) && room.worker < workers
    && Entries(room.pendJ, sessions) && Departures(room.pendL, sessions)
  }

  lemma PutRoom(b: Book, r: nat, room: Room, sessions: nat)
    requires Indexed(b) && QueuesOk(b, sessions) && r < |b.rooms| && RoomOk(room, sessions, |b.load|)
    ensures Indexed(WithRoom(b, r, room)) && QueuesOk(WithRoom(b, r, room), sessions)
  { }

  lemma FreedBook(b: Book, r: nat, sessions: nat)
    requires Indexed(b) && QueuesOk(b, sessions) && r < |b.rooms| && b.rooms[r].worker < |b.load|
    ensures Indexed(FreeSlot(b, r)) && QueuesOk(FreeSlot(b, r), sessions)
    ensures FreeSlot(b, r).free == b.free + [r] && |FreeSlot(b, r).rooms| == |b.rooms|
  {
    forall k | 0 <= k < |SwapRemove(b.open, r)| ensures SwapRemove(b.open, r)[k] < |b.rooms| {
      assert SwapRemove(b.open, r)[k] in b.open;
    }
  }

  lemma MovedBook(b: Book, r: nat, sessions: nat)
    requires Indexed(b) && QueuesOk(b, sessions) && r < |b.rooms| && b.free != [] && Top(b.free) != r
    ensures CanMoveOut(b, r) && Indexed(MoveBook(b, r)) && QueuesOk(MoveBook(b, r), sessions)
    ensures MoveBook(b, r).free == b.free[..|b.free| - 1] + [r] && |MoveBook(b, r).rooms| == |b.rooms|
  {
    hide CarrySeats, MemberSeats, MovedMembers, SwapRemove;
    MoveBookIs(b, r);
    forall k | 0 <= k < |SwapRemove(b.open, r)| ensures SwapRemove(b.open, r)[k] < |b.rooms| {
      assert SwapRemove(b.open, r)[k] in b.open;
    }
  }

  lemma RehomedBounded(p: Pool, room: Room, to: nat)
    requires Bounded(p)
    ensures Bounded(RehomedPool(p, room, to)) && |RehomedPool(p, room, to).slots| == |p.slots|
  { }

  /** The room's queues are worked off and, unless it died, its inputs are applied. */
  function Visited(d: Desk, r: nat): (x: (Pool, Book, bool))
    requires DeskOk(d) && r < |d.book.rooms|
  {
    OneIndexed(d.book, r);
    var (p, b, died) := Processed(d.pool, d.book, r);
    if died then (p, b, true) else (p, WithRoom(b, r, Ticked(b.rooms[r])), false)
  }

  lemma VisitedOk(d: Desk, r: nat)
    requires DeskOk(d) && r < |d.book.rooms|
    ensures var (p, b, died) := Visited(d, r);
      && Bounded(p) && |p.slots| == |d.pool.slots| && Indexed(b) && QueuesOk(b, |p.slots|)
      && |b.rooms| == |d.book.rooms| && b.free == if died then d.book.free + [r] else d.book.free
  {
    hide QueuesTaken, FreeSlot, TickMembers, Indexed, QueuesOk;
    OneIndexed(d.book, r);
    assert QueuesOk(d.book, |d.pool.slots|);
    OneQueued(d.book, r, |d.pool.slots|);
    var (q, room) := QueuesTaken(d.pool, d.book.rooms[r]);
    QueuesGone(d.pool, d.book.rooms[r]);
    PutRoom(d.book, r, room, |q.slots|);
    PutRoom(d.book, r, room.(dead := true), |q.slots|);
    FreedBook(WithRoom(d.book, r, room.(dead := true)), r, |q.slots|);
    PutRoom(WithRoom(d.book, r, room), r, Ticked(room), |q.slots|);
  }

  lemma OneQueued(b: Book, r: nat, sessions: nat)
    requires QueuesOk(b, sessions) && r < |b.rooms|
    ensures Entries(b.rooms[r].pendJ, sessions) && Departures(b.rooms[r].pendL, sessions)
  { }

  /** What becomes of the room at position `i` and of everything else in its turn; `atExit` says in which
      rooms everybody stands at the exit. */
  function Turn(d: Desk, i: nat, atExit: nat -> bool): (x: (Desk, Fate))
    requires DeskOk(d) && i < |d.rooms|
  {
    var r := d.rooms[i];
    VisitedOk(d, r);
    var (p, b, died) := Visited(d, r);
    if died then (Desk(p, b, Without(d.rooms, i)), Dies)
    else if MovesOut(b, r, atExit(r)) then
      var to := Top(b.free);
      assert to in b.free;
      MovedBook(b, r, |p.slots|);
      (Desk(RehomedPool(p, b.rooms[r], to), MoveBook(b, r), d.rooms[i := to]), MovesTo(to))
    else (Desk(p, b, d.rooms), Stays)
  }

  lemma TurnOk(d: Desk, i: nat, atExit: nat -> bool)
    requires DeskOk(d) && i < |d.rooms|
    ensures var (e, f) := Turn(d, i, atExit);
      DeskOk(e) && e.rooms == After(d.rooms, i, f)
  {
    hide Visited, Indexed, QueuesOk, MoveBook, RehomedPool, Bounded;
    var r := d.rooms[i];
    VisitedOk(d, r);
    var (p, b, died) := Visited(d, r);
    var (e, f) := Turn(d, i, atExit);
    match f
    case Dies =>
    case MovesTo(to) =>
      assert to in b.free;
      MovedBook(b, r, |p.slots|);
      RehomedBounded(p, b.rooms[r], to);
    case Stays =>
  }

  /** A room dies when, its queues worked off, it was reserved once and nobody is left; it moves when it lives,
      has members, all of them at the exit, and a room slot is free; otherwise it stays.  A living room's
      inputs are applied first. */
  lemma TurnFate(d: Desk, i: nat, atExit: nat -> bool)
    requires DeskOk(d) && i < |d.rooms|
    ensures var r := d.rooms[i];
      RoomOk(d.book.rooms[r], |d.pool.slots|, |d.book.load|)
    ensures var r := d.rooms[i];
      var room := QueuesTaken(d.pool, d.book.rooms[r]).1;
      var (e, f) := Turn(d, i, atExit);
      var gone := !room.dead && room.everReserved && room.reserved == 0;
      && (f.Dies? <==> gone)
      && (f.MovesTo? <==> !gone && atExit(r) && room.memberCount != 0 && d.book.free != [])
      && (f.Dies? ==> |e.book.free| > 0 && Top(e.book.free) == r)
      && (f.Stays? ==> r < |e.book.rooms| && e.book.rooms[r].inQ == [] &&
                       e.book.rooms[r].members == TickMembers(room.members, room.inQ))
  {
    hide QueuesTaken, TickMembers, MoveBook, SwapRemove, RehomedPool, Indexed, QueuesOk;
    var r := d.rooms[i];
    OneIndexed(d.book, r);
    OneQueued(d.book, r, |d.pool.slots|);
    VisitedOk(d, r);
    QueuesGone(d.pool, d.book.rooms[r]);
  }

  /** A room that moves takes its members along as the tick left them. */
  lemma TurnMoves(d: Desk, i: nat, atExit: nat -> bool)
    requires DeskOk(d) && i < |d.rooms| && Turn(d, i, atExit).1.MovesTo?
    ensures RoomOk(d.book.rooms[d.rooms[i]], |d.pool.slots|, |d.book.load|)
    ensures var (e, f) := Turn(d, i, atExit);
      var room := QueuesTaken(d.pool, d.book.rooms[d.rooms[i]]).1;
      && f.room == Top(d.book.free) && f.room < |e.book.rooms|
      && e.book.rooms[f.room].members == MovedMembers(TickMembers(room.members, room.inQ))
  {
    hide QueuesTaken, TickMembers, CarrySeats, SwapRemove, MovedMembers, RehomedPool, Indexed, QueuesOk;
    var r := d.rooms[i];
    OneIndexed(d.book, r);
    OneQueued(d.book, r, |d.pool.slots|);
    VisitedOk(d, r);
    var (p, b, died) := Visited(d, r);
    assert Top(b.free) in b.free;
    MovedBook(b, r, |p.slots|);
    MoveBookIs(b, r);
  }

  /** The list after the turn at position `i`. */
  function After(s: seq<nat>, i: nat, f: Fate): seq<nat>
    requires i < |s|
  {
    match f
    case Dies => Without(s, i)
    case Stays => s
    case MovesTo(r) => s[i := r]
  }

  // ---- The whole list ---------------------------------------------------------------------

  /** The rest of the pass, and the rooms in the order in which they are visited. */
  function Pass(d: Desk, i: nat, atExit: nat -> bool): (x: (Desk, seq<nat>))
    requires DeskOk(d) && i <= |d.rooms|
    decreases |d.rooms| - i
  {
    if i == |d.rooms| then (d, [])
    else
      TurnOk(d, i, atExit);
      var (e, f) := Turn(d, i, atExit);
      var (last, seen) := Pass(e, if f.Dies? then i else i + 1, atExit);
      (last, [d.rooms[i]] + seen)
  }

  lemma AheadOf(s: seq<nat>, i: nat, f: Fate)
    requires NoDup(s) && i < |s|
    ensures var i2 := if f.Dies? then i else i + 1;
      i2 <= |After(s, i, f)| && forall k :: i2 <= k < |After(s, i, f)| ==> After(s, i, f)[k] != s[i]
  { }

  /** The list surgery of a pass is that of `TickList`, each room's fate being what its turn came to. */
  lemma {:induction false} PassSweeps(d: Desk, i: nat, atExit: nat -> bool) returns (fate: nat -> Fate)
    requires DeskOk(d) && i <= |d.rooms|
    ensures Pass(d, i, atExit).0.rooms == Swept(d.rooms, i, fate)
    ensures Pass(d, i, atExit).1 == Visits(d.rooms, i, fate)
    ensures i < |d.rooms| ==> fate(d.rooms[i]) == Turn(d, i, atExit).1
    decreases |d.rooms| - i
  {
    if i == |d.rooms| {
      fate := (x: nat) => Stays;
    } else {
      hide Turn, DeskOk, Indexed, QueuesOk;
      TurnOk(d, i, atExit);
      var (e, f) := Turn(d, i, atExit);
      var s, r := d.rooms, d.rooms[i];
      var i2 := if f.Dies? then i else i + 1;
      ListNoDup(d);
      AheadOf(s, i, f);
      var rest := PassSweeps(e, i2, atExit);
      fate := (x: nat) => if x == r then f else rest(x);
      SweptSame(e.rooms, i2, fate, rest);
      VisitsSame(e.rooms, i2, fate, rest);
      if f.MovesTo? { VisitsAfter(s, e.rooms, i2, fate); }
      VisitsFirst(s, i, fate);
    }
  }

  lemma ListNoDup(d: Desk)
    requires DeskOk(d)
    ensures NoDup(d.rooms)
  { }

  /** Rooms on the list and free rooms together. */
  function Owned(d: Desk): multiset<nat> { multiset(d.rooms) + multiset(d.book.free) }

  lemma DropOne(s: seq<nat>, i: nat)
    requires i < |s|
    ensures multiset(Without(s, i)) + multiset{s[i]} == multiset(s)
  {
    hide Without;
    Dropped(s, i);
    assert s == s[..i] + s[i..] && Without(s, i) == Without(s, i)[..i] + Without(s, i)[i..];
  }

  lemma ReplaceOne(s: seq<nat>, i: nat, r: nat)
    requires i < |s|
    ensures multiset(s[i := r]) + multiset{s[i]} == multiset(s) + multiset{r}
  { }

  lemma TurnConserves(d: Desk, i: nat, atExit: nat -> bool)
    requires DeskOk(d) && i < |d.rooms|
    ensures Owned(Turn(d, i, atExit).0) == Owned(d)
  {
    hide Visited, Indexed, QueuesOk, MoveBook, RehomedPool, Bounded, Without;
    var r := d.rooms[i];
    VisitedOk(d, r);
    var (p, b, died) := Visited(d, r);
    var (e, f) := Turn(d, i, atExit);
    if f.Dies? {
      DropOne(d.rooms, i);
    } else if f.MovesTo? {
      assert f.room in b.free;
      MovedBook(b, r, |p.slots|);
      ReplaceOne(d.rooms, i, f.room);
      assert b.free == b.free[..|b.free| - 1] + [f.room];
    }
  }

  /** No room is lost or doubled by a pass: a room leaves the list only for the free list and comes to it
      only from there, and the list stays in order. */
  lemma {:induction false} PassConserves(d: Desk, i: nat, atExit: nat -> bool)
    requires DeskOk(d) && i <= |d.rooms|
    ensures Owned(Pass(d, i, atExit).0) == Owned(d) && DeskOk(Pass(d, i, atExit).0)
    decreases |d.rooms| - i
  {
    hide Turn, DeskOk, Owned;
    if i < |d.rooms| {
      PassFirst(d, i, atExit);
      TurnConserves(d, i, atExit);
      var (e, f) := Turn(d, i, atExit);
      PassConserves(e, if f.Dies? then i else i + 1, atExit);
    }
  }

  /** Although rooms are taken out on the way, every room on the list has exactly one turn. */
  lemma EveryRoomTurns(d: Desk, atExit: nat -> bool)
    requires DeskOk(d)
    ensures multiset(Pass(d, 0, atExit).1) == multiset(d.rooms)
  {
    var fate := PassSweeps(d, 0, atExit);
    EveryRoomOnce(d.rooms, 0, fate);
    assert d.rooms[0..] == d.rooms;
  }

  // ---- As it runs -------------------------------------------------------------------------

  class GameWorker {
    const id: nat
    var myRooms: seq<nat>

    constructor (w: nat)
      ensures id == w && myRooms == []
    {
      id := w;
      myRooms := [];
    }

    /** New rooms are taken out of the mailbox. */
    method DrainRoomAddQ(rm: RoomManager)
      requires id < rm.mail.Length
      modifies this, rm.mail
      ensures myRooms == old(myRooms) + old(rm.mail[id])
      ensures rm.View() == old(rm.View()).(mail := old(rm.mail[..])[id := []])
    {
      myRooms := myRooms + rm.mail[id];
      rm.mail[id] := [];
    }

    /** The room's inputs are applied. */
    method ApplyInputs(rm: RoomManager, r: nat)
      requires r < rm.rooms.Length && |rm.rooms[r].members| == SEATS
      modifies rm.rooms
      ensures rm.View() == WithRoom(old(rm.View()), r, Ticked(old(rm.rooms[r])))
    {
      rm.rooms[r] := rm.rooms[r].(members := TickMembers(rm.rooms[r].members, rm.rooms[r].inQ), inQ := []);
    }

    /** The room in hand is worked off; a living one applies its inputs. */
    method Visit(rm: RoomManager, pool: SessionPool, r: nat) returns (died: bool)
      requires DeskOk(Desk(pool.View(), rm.View(), myRooms)) && r < rm.rooms.Length
      modifies rm`freeRooms, rm`openRooms, rm.rooms, rm.load, pool`free, pool.slots
      ensures (pool.View(), rm.View(), died) == Visited(Desk(old(pool.View()), old(rm.View()), myRooms), r)
    {
      hide Processed, Indexed, Ticked;
      ghost var d := Desk(pool.View(), rm.View(), myRooms);
      OneIndexed(d.book, r);
      OneQueued(d.book, r, |d.pool.slots|);
      ProcessedSeats(d.pool, d.book, r);
      died := rm.ProcessRoomQueues(pool, r);
      if !died {
        ApplyInputs(rm, r);
      }
    }

    /** A room with everybody at the exit moves, if a room slot is free. */
    method ExitCheckAndMaybeTransfer(rm: RoomManager, pool: SessionPool, r: nat, atExit: bool)
      returns (moved: Option<nat>)
      requires rm.Valid() && pool.Valid() && r < rm.rooms.Length && r !in rm.freeRooms
      requires Entries(rm.rooms[r].pendJ, pool.slots.Length)
      modifies rm`freeRooms, rm`openRooms, rm.rooms, rm.load, rm.mail, pool.slots
      ensures moved.Some? <==> atExit && old(rm.rooms[r]).memberCount != 0 && old(rm.freeRooms) != []
      ensures moved.None? ==> rm.View() == old(rm.View()) && pool.View() == old(pool.View())
      ensures moved.Some? ==> rm.View() == MoveBook(old(rm.View()), r) && moved.value == Top(old(rm.freeRooms))
      ensures moved.Some? ==> pool.View() == RehomedPool(old(pool.View()), old(rm.rooms[r]), moved.value)
    {
      if rm.rooms[r].memberCount == 0 || !atExit {
        return None;
      }
      moved := rm.TransferRoom(pool, r);
    }

    /** The turn of the room at position `i`; the next turn is that of the position returned. */
    method TakeTurn(rm: RoomManager, pool: SessionPool, i: nat, atExit: nat -> bool) returns (next: nat)
      requires DeskOk(Desk(pool.View(), rm.View(), myRooms)) && i < |myRooms|
      modifies this, rm`freeRooms, rm`openRooms, rm.rooms, rm.load, rm.mail, pool`free, pool.slots
      ensures var (e, f) := Turn(Desk(old(pool.View()), old(rm.View()), old(myRooms)), i, atExit);
        Desk(pool.View(), rm.View(), myRooms) == e && next == if f.Dies? then i else i + 1
    {
      hide Visited, Indexed, QueuesOk, MoveBook, RehomedPool, Bounded;
      ghost var d := Desk(pool.View(), rm.View(), myRooms);
      var r := myRooms[i];
      VisitedOk(d, r);
      var died := Visit(rm, pool, r);
      if died {
        myRooms := myRooms[i := myRooms[|myRooms| - 1]];
        myRooms := myRooms[..|myRooms| - 1];
        next := i;
      } else {
        OneQueued(rm.View(), r, pool.slots.Length);
        var moved := ExitCheckAndMaybeTransfer(rm, pool, r, atExit(r));
        if moved.Some? {
          myRooms := myRooms[i := moved.value];
        }
        next := i + 1;
      }
    }

    /** One tick: take in new rooms, then go over the list. */
    method TickOnce(rm: RoomManager, pool: SessionPool, atExit: nat -> bool) returns (ghost visited: seq<nat>)
      requires id < rm.mail.Length && DeskOk(Drained(Desk(pool.View(), rm.View(), myRooms), id))
      modifies this, rm`freeRooms, rm`openRooms, rm.rooms, rm.load, rm.mail, pool`free, pool.slots
      ensures (Desk(pool.View(), rm.View(), myRooms), visited)
           == Pass(Drained(Desk(old(pool.View()), old(rm.View()), old(myRooms)), id), 0, atExit)
    {
      hide Turn, DeskOk, Resumes;
      DrainRoomAddQ(rm);
      ghost var d := Desk(pool.View(), rm.View(), myRooms);
      visited := [];
      var i: nat := 0;
      Resumed(d, atExit);
      while i < |myRooms|
        invariant i <= |myRooms| && DeskOk(Desk(pool.View(), rm.View(), myRooms))
        invariant Resumes(d, visited, Desk(pool.View(), rm.View(), myRooms), i, atExit)
        decreases |myRooms| - i
      {
        NextResumes(d, visited, Desk(pool.View(), rm.View(), myRooms), i, atExit);
        visited := visited + [myRooms[i]];
        i := TakeTurn(rm, pool, i, atExit);
      }
      PassDone(d, visited, Desk(pool.View(), rm.View(), myRooms), atExit);
    }
  }

  /** After the rooms visited so far, what is left of the pass is the pass from here. */
  ghost predicate Resumes(d: Desk, visited: seq<nat>, now: Desk, i: nat, atExit: nat -> bool)
    requires DeskOk(d)
  {
    && DeskOk(now) && i <= |now.rooms|
    && Pass(d, 0, atExit) == (Pass(now, i, atExit).0, visited + Pass(now, i, atExit).1)
  }

  lemma Resumed(d: Desk, atExit: nat -> bool)
    requires DeskOk(d)
    ensures Resumes(d, [], d, 0, atExit)
  {
    hide DeskOk;
    assert [] + Pass(d, 0, atExit).1 == Pass(d, 0, atExit).1;
  }

  lemma NextResumes(d: Desk, visited: seq<nat>, now: Desk, i: nat, atExit: nat -> bool)
    requires DeskOk(d) && Resumes(d, visited, now, i, atExit) && i < |now.rooms|
    ensures DeskOk(now)
    ensures var (e, f) := Turn(now, i, atExit);
      var i2 := if f.Dies? then i else i + 1;
      && DeskOk(e) && i2 <= |e.rooms| && |e.rooms| - i2 < |now.rooms| - i
      && Resumes(d, visited + [now.rooms[i]], e, i2, atExit)
  {
    hide Turn, DeskOk, Pass;
    PassFirst(now, i, atExit);
    var (e, f) := Turn(now, i, atExit);
    var rest := Pass(e, if f.Dies? then i else i + 1, atExit).1;
    assert visited + ([now.rooms[i]] + rest) == (visited + [now.rooms[i]]) + rest;
  }

  lemma PassDone(d: Desk, visited: seq<nat>, now: Desk, atExit: nat -> bool)
    requires DeskOk(d) && Resumes(d, visited, now, |now.rooms|, atExit)
    ensures (now, visited) == Pass(d, 0, atExit)
  {
    hide DeskOk;
    assert visited + [] == visited;
  }

  predicate MovesOut(b: Book, r: nat, atExit: bool) {
    atExit && r < |b.rooms| && b.rooms[r].memberCount != 0 && b.free != []
  }

  /** The desk with the worker's new rooms taken in. */
  function Drained(d: Desk, w: nat): Desk
    requires w < |d.book.mail|
  {
    d.(book := d.book.(mail := d.book.mail[w := []]), rooms := d.rooms + d.book.mail[w])
  }

  lemma PassFirst(d: Desk, i: nat, atExit: nat -> bool)
    requires DeskOk(d) && i < |d.rooms|
    ensures var (e, f) := Turn(d, i, atExit);
      var i2 := if f.Dies? then i else i + 1;
      && DeskOk(e) && i2 <= |e.rooms| && |e.rooms| - i2 < |d.rooms| - i
      && Pass(d, i, atExit) == (Pass(e, i2, atExit).0, [d.rooms[i]] + Pass(e, i2, atExit).1)
  {
    hide Turn, DeskOk;
    TurnOk(d, i, atExit);
  }

  lemma ProcessedSeats(p: Pool, b: Book, r: nat)
    requires Bounded(p) && r < |b.rooms| && RoomOk(b.rooms[r], |p.slots|, |b.load|)
    ensures var c := Processed(p, b, r).1; r < |c.rooms| && FourSeats(c.rooms[r])
  {
    hide QueuesTaken;
  }
}
