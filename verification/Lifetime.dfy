/** The session and room lifetime protocol as a transition system.  One action is one
    lock-protected section or one atomic operation of one thread; whatever a thread does to its own
    local data alone is part of the action before it. */
module Lifetime {
  import opened Sessions
  import opened Inputs
  import opened Rooms

  /** Where the owning network thread is with one session. */
  datatype Conn =
    | Closed                                 // not connected, network reference returned
    | Open                                   // connected, between events
    | Scanning                               // in Join, manager lock held
    | Fresh(room: nat)                       // in Join, room allocated and mailed, no seat yet
    | Reserved(room: nat, seat: nat)         // in Join, seat reserved
    | Counted(room: nat, seat: nat)          // in Join, room reference added
    | Pushed(room: nat, seat: nat)           // in Join, join entry queued
    | Inputting(room: nat, input: Cmd)       // in PushInput, room number loaded
    | Dying                                  // in Disconnect, dead flag raised
    | Leaving(room: nat)                     // in OnSessionLeave, room number loaded
    | Left                                   // in Disconnect, network reference still held

  datatype Lock = Unlocked | LockedBy(sess: nat)

  /** Where a game worker is in TickOnce; `pos` indexes its room list. */
  datatype Pc =
    | Idle
    | At(pos: nat)
    | Batch(pos: nat)                        // working off the swapped-out queues
    | Returning(pos: nat, sess: nat)         // seat given back, reference not yet released
    | Dooming(pos: nat)                      // room marked dead, manager lock not yet taken
    | Ticking(pos: nat)
    | Exiting(pos: nat)                      // exit check

  datatype Worker = Worker(rooms: seq<nat>, pc: Pc)

  /** Bookkeeping for the proofs: which seat a session is on and how far it got. */
  datatype Stage = SReserved | SCounted | SPending | SSeated
  datatype Loc = Away | Held(room: nat, seat: nat, stage: Stage) | Parting(worker: nat)
  datatype Home = InFree | InMail(worker: nat) | InList(worker: nat)

  datatype State = State(
    pool: Pool, book: Book, conns: seq<Conn>, lock: Lock, workers: seq<Worker>,
    loc: seq<Loc>, seatBy: seq<seq<int>>, home: seq<Home>, hist: seq<seq<Cmd>>)

  predicate ConnShape(c: Conn, rooms: nat) {
    match c
    case Fresh(r) => r < rooms
    case Reserved(r, i) => r < rooms && i < SEATS
    case Counted(r, i) => r < rooms && i < SEATS
    case Pushed(r, i) => r < rooms && i < SEATS
    case Inputting(r, _) => r < rooms
    case Leaving(r) => r < rooms
    case _ => true
  }

  predicate WorkerShape(k: Worker, rooms: nat, sessions: nat) {
    && (forall i :: 0 <= i < |k.rooms| ==> k.rooms[i] < rooms)
    && match k.pc
       case Idle => true
       case At(p) => p <= |k.rooms|
       case Returning(p, s) => p < |k.rooms| && s < sessions
       case _ => k.pc.pos < |k.rooms|
  }

  /** Sizes and index ranges. */
  predicate Shape(st: State) {
    var n := |st.pool.slots|;
    var m := |st.book.rooms|;
    && |st.conns| == |st.loc| == |st.hist| == n
    && |st.seatBy| == |st.home| == m
    && |st.workers| == |st.book.load|
    && Bounded(st.pool)
    && BookShape(st.book, n)
    && (forall r :: 0 <= r < m ==> |st.seatBy[r]| == SEATS)
    && (forall s :: 0 <= s < n && st.loc[s].Held? ==> st.loc[s].room < m && st.loc[s].seat < SEATS)
    && (forall s :: 0 <= s < n ==> ConnShape(st.conns[s], m))
    && (forall w :: 0 <= w < |st.workers| ==> WorkerShape(st.workers[w], m, n))
    && (st.lock.LockedBy? ==> st.lock.sess < n)
  }

  function WithRoom(b: Book, r: nat, room: Room): Book
    requires r < |b.rooms|
  {
    b.(rooms := b.rooms[r := room])
  }

  function WithPc(st: State, w: nat, pc: Pc): State
    requires w < |st.workers|
  {
    st.(workers := st.workers[w := st.workers[w].(pc := pc)])
  }

  // ---- Network threads --------------------------------------------------------------------

  predicate CanAccept(st: State) { st.pool.free != [] }

  function Accept(st: State): (t: State)
    requires Shape(st) && CanAccept(st)
    ensures Shape(t)
  {
    var s := st.pool.free[|st.pool.free| - 1];
    st.(pool := AllocSlot(st.pool), conns := st.conns[s := Open], hist := st.hist[s := []])
  }

  /** Accept when the socket cannot be registered: the slot is released again at once. */
  function AcceptFail(st: State): (t: State)
    requires Shape(st) && CanAccept(st)
    ensures Shape(t)
  {
    var s := st.pool.free[|st.pool.free| - 1];
    st.(pool := Release(SetDead(AllocSlot(st.pool), s), s))
  }

  predicate CanJoinLock(st: State, s: nat) {
    && s < |st.conns| && st.conns[s].Open? && s < |st.pool.slots| && !st.pool.slots[s].inRoom
    && st.lock.Unlocked? && |st.workers| > 0
  }

  function JoinLock(st: State, s: nat): (t: State)
    requires Shape(st) && CanJoinLock(st, s)
    ensures Shape(t)
  {
    st.(conns := st.conns[s := Scanning], lock := LockedBy(s))
  }

  predicate IsScanning(st: State, s: nat) { s < |st.conns| && st.conns[s].Scanning? }

  function Candidate(st: State): nat
    requires st.book.open != []
  {
    st.book.open[|st.book.open| - 1]
  }

  predicate Joinable(r: Room)
    requires |r.seatUsed| == SEATS
  {
    !r.dead && FirstVacant(r.seatUsed) < SEATS
  }

  predicate CanJoinPrune(st: State, s: nat)
    requires Shape(st)
  {
    IsScanning(st, s) && st.book.open != [] && !Joinable(st.book.rooms[Candidate(st)])
  }

  function JoinPrune(st: State, s: nat): (t: State)
    requires Shape(st) && CanJoinPrune(st, s)
    ensures Shape(t)
  {
    st.(book := st.book.(open := st.book.open[..|st.book.open| - 1]))
  }

  predicate CanJoinReserve(st: State, s: nat)
    requires Shape(st)
  {
    IsScanning(st, s) && st.book.open != [] && Joinable(st.book.rooms[Candidate(st)])
  }

  function JoinReserve(st: State, s: nat): (t: State)
    requires Shape(st) && CanJoinReserve(st, s)
    ensures Shape(t)
  {
    var r := Candidate(st);
    var i := FirstVacant(st.book.rooms[r].seatUsed);
    var room := TakeSeat(st.book.rooms[r], i);
    var open := if room.reserved == SEATS then st.book.open[..|st.book.open| - 1] else st.book.open;
    st.(book := WithRoom(st.book, r, room).(open := open),
        conns := st.conns[s := Reserved(r, i)],
        loc := st.loc[s := Held(r, i, SReserved)],
        seatBy := st.seatBy[r := st.seatBy[r][i := s]])
  }

  predicate CanJoinFail(st: State, s: nat) {
    IsScanning(st, s) && st.book.open == [] && st.book.free == []
  }

  function JoinFail(st: State, s: nat): (t: State)
    requires Shape(st) && CanJoinFail(st, s)
    ensures Shape(t)
  {
    st.(conns := st.conns[s := Open], lock := Unlocked)
  }

  predicate CanJoinAlloc(st: State, s: nat) {
    IsScanning(st, s) && st.book.open == [] && st.book.free != [] && |st.workers| > 0
  }

  function JoinAlloc(st: State, s: nat): (t: State)
    requires Shape(st) && CanJoinAlloc(st, s)
    ensures Shape(t)
  {
    var r := st.book.free[|st.book.free| - 1];
    var w := LeastBusy(st.book.load, |st.workers|);
    st.(book := Mailed(OpenSlot(st.book, w), w, r),
        conns := st.conns[s := Fresh(r)],
        home := st.home[r := InMail(w)])
  }

  predicate CanJoinFresh(st: State, s: nat) { s < |st.conns| && st.conns[s].Fresh? }

  function JoinFresh(st: State, s: nat): (t: State)
    requires Shape(st) && CanJoinFresh(st, s)
    ensures Shape(t)
  {
    var r := st.conns[s].room;
    var room := st.book.rooms[r];
    st.(book := WithRoom(st.book, r,
                  room.(seatUsed := room.seatUsed[0 := true], everReserved := true, reserved := 1))
                .(open := st.book.open + [r]),
        conns := st.conns[s := Reserved(r, 0)],
        loc := st.loc[s := Held(r, 0, SReserved)],
        seatBy := st.seatBy[r := st.seatBy[r][0 := s]])
  }

  predicate CanJoinRef(st: State, s: nat) { s < |st.conns| && st.conns[s].Reserved? }

  function JoinRef(st: State, s: nat): (t: State)
    requires Shape(st) && CanJoinRef(st, s)
    ensures Shape(t)
  {
    var Reserved(r, i) := st.conns[s];
    st.(pool := AddRef(st.pool, s), conns := st.conns[s := Counted(r, i)],
        loc := st.loc[s := Held(r, i, SCounted)])
  }

  predicate CanJoinPush(st: State, s: nat) { s < |st.conns| && st.conns[s].Counted? }

  function JoinPush(st: State, s: nat): (t: State)
    requires Shape(st) && CanJoinPush(st, s)
    ensures Shape(t)
  {
    var Counted(r, i) := st.conns[s];
    var room := st.book.rooms[r];
    st.(book := WithRoom(st.book, r,
                  room.(pendJ := room.pendJ + [JoinEntry(s, st.pool.slots[s].gen, i)])),
        conns := st.conns[s := Pushed(r, i)],
        loc := st.loc[s := Held(r, i, SPending)])
  }

  predicate CanJoinDone(st: State, s: nat) { s < |st.conns| && st.conns[s].Pushed? }

  function JoinDone(st: State, s: nat): (t: State)
    requires Shape(st) && CanJoinDone(st, s)
    ensures Shape(t)
  {
    var Pushed(r, i) := st.conns[s];
    st.(pool := st.pool.(slots :=
                  st.pool.slots[s := st.pool.slots[s].(inRoom := true, roomIdx := r, actor := i)]),
        conns := st.conns[s := Open], lock := Unlocked)
  }

  predicate CanDie(st: State, s: nat) { s < |st.conns| && st.conns[s].Open? }

  function Die(st: State, s: nat): (t: State)
    requires Shape(st) && CanDie(st, s)
    ensures Shape(t)
  {
    st.(pool := SetDead(st.pool, s), conns := st.conns[s := Dying])
  }

  predicate InSomeRoom(st: State, s: nat)
    requires s < |st.pool.slots|
  {
    st.pool.slots[s].inRoom && st.pool.slots[s].roomIdx < |st.book.rooms|
  }

  predicate CanLeaveLoad(st: State, s: nat) { s < |st.conns| && st.conns[s].Dying? }

  function LeaveLoad(st: State, s: nat): (t: State)
    requires Shape(st) && CanLeaveLoad(st, s)
    ensures Shape(t)
  {
    var slot := st.pool.slots[s];
    if InSomeRoom(st, s) then
      st.(pool := st.pool.(slots := st.pool.slots[s := slot.(inRoom := false)]),
          conns := st.conns[s := Leaving(slot.roomIdx)])
    else
      st.(conns := st.conns[s := Left])
  }

  predicate CanLeavePush(st: State, s: nat) { s < |st.conns| && st.conns[s].Leaving? }

  function LeavePush(st: State, s: nat): (t: State)
    requires Shape(st) && CanLeavePush(st, s)
    ensures Shape(t)
  {
    var r := st.conns[s].room;
    var room := st.book.rooms[r];
    st.(book := WithRoom(st.book, r,
                  room.(pendL := room.pendL + [LeaveEntry(s, st.pool.slots[s].gen)])),
        conns := st.conns[s := Left])
  }

  predicate CanHangUp(st: State, s: nat) { s < |st.conns| && st.conns[s].Left? }

  function HangUp(st: State, s: nat): (t: State)
    requires Shape(st) && CanHangUp(st, s)
    ensures Shape(t)
  {
    st.(pool := Release(st.pool, s), conns := st.conns[s := Closed])
  }

  predicate CanInputLoad(st: State, s: nat) {
    s < |st.conns| && st.conns[s].Open? && s < |st.pool.slots| && InSomeRoom(st, s)
  }

  function InputLoad(st: State, s: nat, c: Cmd): (t: State)
    requires Shape(st) && CanInputLoad(st, s)
    ensures Shape(t)
  {
    st.(conns := st.conns[s := Inputting(st.pool.slots[s].roomIdx, c)])
  }

  predicate CanInputPush(st: State, s: nat) { s < |st.conns| && st.conns[s].Inputting? }

  function InputPush(st: State, s: nat): (t: State)
    requires Shape(st) && CanInputPush(st, s)
    ensures Shape(t)
  {
    var Inputting(r, c) := st.conns[s];
    var slot := st.pool.slots[s];
    var cmd := c.(sess := s, gen := slot.gen, seat := slot.actor, ord := |st.hist[s]|);
    var room := st.book.rooms[r];
    st.(book := WithRoom(st.book, r, room.(inQ := room.inQ + [cmd])),
        conns := st.conns[s := Open],
        hist := st.hist[s := st.hist[s] + [cmd]])
  }

  // ---- Game workers -----------------------------------------------------------------------

  function RoomAt(st: State, w: nat): (r: nat)
    requires Shape(st) && w < |st.workers|
    requires !st.workers[w].pc.Idle? && st.workers[w].pc.pos < |st.workers[w].rooms|
    ensures r < |st.book.rooms|
  {
    st.workers[w].rooms[st.workers[w].pc.pos]
  }

  predicate CanBegin(st: State, w: nat) { w < |st.workers| && st.workers[w].pc.Idle? }

  function Begin(st: State, w: nat): (t: State)
    requires Shape(st) && CanBegin(st, w)
    ensures Shape(t)
  {
    st.(book := st.book.(mail := st.book.mail[w := []]),
        workers := st.workers[w := Worker(st.workers[w].rooms + st.book.mail[w], At(0))],
        home := seq(|st.home|, r requires 0 <= r < |st.home| =>
                  if st.home[r] == InMail(w) then InList(w) else st.home[r]))
  }

  predicate CanEnd(st: State, w: nat) {
    w < |st.workers| && st.workers[w].pc.At? && st.workers[w].pc.pos >= |st.workers[w].rooms|
  }

  function End(st: State, w: nat): (t: State)
    requires Shape(st) && CanEnd(st, w)
    ensures Shape(t)
  {
    WithPc(st, w, Idle)
  }

  predicate CanTake(st: State, w: nat) {
    w < |st.workers| && st.workers[w].pc.At? && st.workers[w].pc.pos < |st.workers[w].rooms|
  }

  function Take(st: State, w: nat): (t: State)
    requires Shape(st) && CanTake(st, w)
    ensures Shape(t)
  {
    var r := RoomAt(st, w);
    var room := st.book.rooms[r];
    WithPc(st, w, Batch(st.workers[w].pc.pos))
      .(book := WithRoom(st.book, r, room.(takenJ := room.pendJ, takenL := room.pendL,
                                           pendJ := [], pendL := [])))
  }

  predicate InBatch(st: State, w: nat) { w < |st.workers| && st.workers[w].pc.Batch? }

  predicate CanJoinOne(st: State, w: nat)
    requires Shape(st)
  {
    InBatch(st, w) && st.book.rooms[RoomAt(st, w)].takenJ != []
  }

  predicate Refused(st: State, e: JoinEntry)
    requires e.sess < |st.pool.slots|
  {
    st.pool.slots[e.sess].gen != e.gen || st.pool.slots[e.sess].dead
  }

  function JoinOne(st: State, w: nat): (t: State)
    requires Shape(st) && CanJoinOne(st, w)
    ensures Shape(t)
  {
    var r := RoomAt(st, w);
    var room := st.book.rooms[r];
    var e := room.takenJ[0];
    var rest := room.(takenJ := room.takenJ[1..]);
    if Refused(st, e) then
      WithPc(st, w, Returning(st.workers[w].pc.pos, e.sess))
        .(book := WithRoom(st.book, r, GiveSeat(rest, e.seat)),
          loc := st.loc[e.sess := Parting(w)],
          seatBy := st.seatBy[r := st.seatBy[r][e.seat := -1]])
    else
      st.(book := WithRoom(st.book, r,
                    rest.(members := room.members[e.seat := Seated(e.sess, e.gen)],
                          memberCount := room.memberCount + 1)),
          loc := st.loc[e.sess := Held(r, e.seat, SSeated)])
  }

  predicate CanLeaveOne(st: State, w: nat)
    requires Shape(st)
  {
    && InBatch(st, w) && st.book.rooms[RoomAt(st, w)].takenJ == []
    && st.book.rooms[RoomAt(st, w)].takenL != []
  }

  function Vacate(room: Room, i: nat): Room
    requires i < |room.members| && i < |room.seatUsed|
  {
    GiveSeat(room.(members := room.members[i := room.members[i].(used := false)],
                   memberCount := room.memberCount - 1), i)
  }

  function LeaveOne(st: State, w: nat): (t: State)
    requires Shape(st) && CanLeaveOne(st, w)
    ensures Shape(t)
  {
    var r := RoomAt(st, w);
    var room := st.book.rooms[r];
    var e := room.takenL[0];
    var rest := room.(takenL := room.takenL[1..]);
    var i := FindMember(room.members, e);
    if i < SEATS then
      WithPc(st, w, Returning(st.workers[w].pc.pos, e.sess))
        .(book := WithRoom(st.book, r, Vacate(rest, i)),
          loc := st.loc[e.sess := Parting(w)],
          seatBy := st.seatBy[r := st.seatBy[r][i := -1]])
    else
      st.(book := WithRoom(st.book, r, rest))
  }

  predicate CanReturn(st: State, w: nat) { w < |st.workers| && st.workers[w].pc.Returning? }

  function Return(st: State, w: nat): (t: State)
    requires Shape(st) && CanReturn(st, w)
    ensures Shape(t)
  {
    var Returning(p, s) := st.workers[w].pc;
    WithPc(st, w, Batch(p)).(pool := Release(st.pool, s), loc := st.loc[s := Away])
  }

  predicate CanCheck(st: State, w: nat)
    requires Shape(st)
  {
    && InBatch(st, w) && st.book.rooms[RoomAt(st, w)].takenJ == []
    && st.book.rooms[RoomAt(st, w)].takenL == []
  }

  predicate Empty(r: Room) { !r.dead && r.everReserved && r.reserved == 0 && r.pendJ == [] }

  function Check(st: State, w: nat): (t: State)
    requires Shape(st) && CanCheck(st, w)
    ensures Shape(t)
  {
    var r := RoomAt(st, w);
    var p := st.workers[w].pc.pos;
    if Empty(st.book.rooms[r]) then
      WithPc(st, w, Dooming(p)).(book := WithRoom(st.book, r, st.book.rooms[r].(dead := true)))
    else
      WithPc(st, w, Ticking(p))
  }

  predicate CanFree(st: State, w: nat) {
    w < |st.workers| && st.workers[w].pc.Dooming? && st.lock.Unlocked?
  }

  function Free(st: State, w: nat): (t: State)
    requires Shape(st) && CanFree(st, w)
    ensures Shape(t)
  {
    var r := RoomAt(st, w);
    var k := st.workers[w];
    var p := k.pc.pos;
    st.(book := FreeSlot(st.book, r),
        workers := st.workers[w := Worker(k.rooms[p := k.rooms[|k.rooms| - 1]][..|k.rooms| - 1], At(p))],
        home := st.home[r := InFree])
  }

  predicate CanTick(st: State, w: nat) { w < |st.workers| && st.workers[w].pc.Ticking? }

  function Tick(st: State, w: nat): (t: State)
    requires Shape(st) && CanTick(st, w)
    ensures Shape(t)
  {
    var r := RoomAt(st, w);
    var room := st.book.rooms[r];
    WithPc(st, w, Exiting(st.workers[w].pc.pos))
      .(book := WithRoom(st.book, r, room.(members := TickMembers(room.members, room.inQ), inQ := [])))
  }

  predicate IsExiting(st: State, w: nat) { w < |st.workers| && st.workers[w].pc.Exiting? }

  function Stay(st: State, w: nat): (t: State)
    requires Shape(st) && IsExiting(st, w)
    ensures Shape(t)
  {
    WithPc(st, w, At(st.workers[w].pc.pos + 1))
  }

  predicate CanMove(st: State, w: nat)
    requires Shape(st)
  {
    && IsExiting(st, w) && st.lock.Unlocked? && st.book.free != []
    && st.book.rooms[RoomAt(st, w)].memberCount != 0
  }

  /** Slot and generation pairs whose room number is rewritten by a transfer. */
  function MemberTags(ms: seq<Member>): seq<(nat, nat)> {
    if ms == [] then []
    else (if ms[0].used then [(ms[0].sess, ms[0].gen)] else []) + MemberTags(ms[1..])
  }

  function JoinTags(js: seq<JoinEntry>): seq<(nat, nat)> {
    if js == [] then [] else [(js[0].sess, js[0].gen)] + JoinTags(js[1..])
  }

  function Rehome(slots: seq<Slot>, tags: seq<(nat, nat)>, r: nat): (out: seq<Slot>)
    ensures |out| == |slots|
    decreases |tags|
  {
    if tags == [] then slots
    else
      var (s, g) := tags[0];
      Rehome(if s < |slots| && slots[s].gen == g then slots[s := slots[s].(roomIdx := r)] else slots,
             tags[1..], r)
  }

  function MovedLoc(loc: seq<Loc>, r: nat, nr: nat): (out: seq<Loc>)
    ensures |out| == |loc|
    ensures forall s :: 0 <= s < |loc| ==>
      out[s] == if loc[s].Held? && loc[s].room == r then loc[s].(room := nr) else loc[s]
  {
    seq(|loc|, s requires 0 <= s < |loc| =>
      if loc[s].Held? && loc[s].room == r then loc[s].(room := nr) else loc[s])
  }

  function Move(st: State, w: nat): (t: State)
    requires Shape(st) && CanMove(st, w)
    ensures Shape(t)
  {
    var r := RoomAt(st, w);
    var k := st.workers[w];
    var p := k.pc.pos;
    var was := st.book.rooms[r];
    var nr := st.book.free[|st.book.free| - 1];
    st.(pool := st.pool.(slots :=
                  Rehome(st.pool.slots, MemberTags(was.members) + JoinTags(was.pendJ), nr)),
        book := MoveBook(st.book, r),
        workers := st.workers[w := Worker(k.rooms[p := nr], At(p + 1))],
        loc := MovedLoc(st.loc, r, nr),
        seatBy := st.seatBy[nr := st.seatBy[r]][r := [-1, -1, -1, -1]],
        home := st.home[nr := InList(w)][r := InFree])
  }
}
