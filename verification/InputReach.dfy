/** An input reaches its own actor: from the client's event over the room's queue and the tick to the input
    in force, and through a room transfer. */
module InputReach {
  import opened Sessions
  import opened Inputs
  import opened InputRing
  import opened Rooms
  import opened Lifetime
  import opened LifetimeInv
  import opened LifetimeDeltas
  import opened LifetimeSteps
  import opened LifetimeMove
  import opened LifetimeRuns
  import opened InputFlow
  import opened InputRuns

  /** The same keys, under the same number. */
  predicate SameKeys(c: Cmd, input: Cmd) {
    c.seqNo == input.seqNo && c.mx == input.mx && c.my == input.my && c.attack == input.attack && c.skill == input.skill
  }

  // ---- From the client to the room's queue ------------------------------------------------

  /** A member's input event reads the number of the room it is a member of. */
  lemma LoadFindsRoom(st: State, s: nat, input: Cmd, r: nat, i: nat)
    requires Inv(st) && CanInputLoad(st, s) && Sits(st, r, i, s)
    ensures InputLoad(st, s, input).conns[s] == Inputting(r, input)
  {
    hide BookShape, WorkerShape, ConnShape, SeatInv, JoinInv, RefInv, PartingInv, FreeInv, ListInv;
    hide LoadInv, OpenInv, LifeInv, LeaveInv;
    SitterIsSeated(st, r, i, s);
    assert ConnOk(st.conns[s], st.pool.slots[s], st.loc[s]);
  }

  /** Pushed into the member's room, the client's own keys stand last in that room's queue, for the seat the
      member has and under a tag it accepts; nothing else changes there. */
  lemma PushArrives(st: State, s: nat, r: nat, i: nat)
    requires Inv(st) && CanInputPush(st, s) && Sits(st, r, i, s) && st.conns[s].room == r
    ensures var was, now := st.book.rooms[r], InputPush(st, s).book.rooms[r];
      && |now.inQ| == |was.inQ| + 1 && now == was.(inQ := now.inQ) && now.inQ[..|was.inQ|] == was.inQ
      && var c := now.inQ[|was.inQ|];
         c.seat == i && Accepts(was.members[i], c) && SameKeys(c, st.conns[s].input)
  {
    hide BookShape, WorkerShape, SeatInv, JoinInv, RefInv, PartingInv, FreeInv, ListInv;
    hide LoadInv, OpenInv, LifeInv, LeaveInv;
    SitterIsSeated(st, r, i, s);
    assert ConnOk(st.conns[s], st.pool.slots[s], st.loc[s]);
  }

  // ---- From the room's queue to the actor -------------------------------------------------

  lemma {:induction false} AcceptedSplit(m: Member, seat: nat, a: seq<Cmd>, b: seq<Cmd>)
    ensures AcceptedBy(m, seat, a + b) == AcceptedBy(m, seat, a) + AcceptedBy(m, seat, b)
  {
    if a == [] {
      assert a + b == b;
    } else {
      assert (a + b)[1..] == a[1..] + b;
      AcceptedSplit(m, seat, a[1..], b);
    }
  }

  /** What a tick makes of a member: nothing is applied out of turn, and what was queued and what was
      accepted from the room's queue is applied or still queued, the newest eight of it. */
  lemma TickTakes(st: State, w: nat, i: nat)
    requires Inv(st) && FlowInv(st) && CanTick(st, w)
    requires i < |st.book.rooms[RoomAt(st, w)].members| && st.book.rooms[RoomAt(st, w)].members[i].used
    ensures var was, now := st.book.rooms[RoomAt(st, w)], Tick(st, w).book.rooms[RoomAt(st, w)];
      var m, m2 := was.members[i], now.members[i];
      var line := Newest(m.queue + AcceptedBy(m, i, was.inQ));
      && now.inQ == [] && m2.used && m2.sess == m.sess && m2.gen == m.gen
      && (line == [] ==> m2.applied == m.applied && m2.queue == [] && m2.streak == m.streak + 1 &&
                         m2.lastSeq == m.lastSeq && (m.streak < 10 ==> m2.held == m.held))
      && (line != [] ==> m2.applied == m.applied + [line[0]] && m2.queue == line[1..] && m2.streak == 0 &&
                         m2.lastSeq == line[0].seqNo && m2.held == line[0])
  {
    hide BookShape, ConnShape, SeatInv, JoinInv, MemberInv, RefInv, ConnInv, PartingInv, FreeInv, ListInv;
    hide LoadInv, OpenInv, LifeInv, LeaveInv, TickMembers, Newest;
    var room := st.book.rooms[RoomAt(st, w)];
    assert RoomInputs(room, st.pool.slots, st.hist);
    assert Line(room.members[i], st.hist);
    TickIsPerSeat(room.members, room.inQ, i);
  }

  /** Fewer than eight commands come after this one. */
  lemma NewestHas(q: seq<Cmd>, c: Cmd, later: seq<Cmd>)
    requires |later| < RING_DEPTH
    ensures c in Newest(q + [c] + later)
  {
    var all := q + [c] + later;
    assert all[|q|] == c;
    if |all| > RING_DEPTH {
      var from := |all| - RING_DEPTH;
      assert all[from..][|q| - from] == c;
    }
  }

  lemma OneAccepted(m: Member, i: nat, c: Cmd)
    requires c.seat == i && Accepts(m, c)
    ensures AcceptedBy(m, i, [c]) == [c]
  {
    assert [c][1..] == [] && [c] + [] == [c];
  }

  lemma InLine(m: Member, i: nat, q: seq<Cmd>, k: nat)
    requires k < |q| && q[k].seat == i && Accepts(m, q[k]) && |AcceptedBy(m, i, q[k + 1..])| < RING_DEPTH
    ensures q[k] in Newest(m.queue + AcceptedBy(m, i, q))
  {
    hide Newest, Accepts;
    var c := q[k];
    var a, b := AcceptedBy(m, i, q[..k]), AcceptedBy(m, i, q[k + 1..]);
    assert q == q[..k] + ([c] + q[k + 1..]);
    AcceptedSplit(m, i, q[..k], [c] + q[k + 1..]);
    AcceptedSplit(m, i, [c], q[k + 1..]);
    OneAccepted(m, i, c);
    assert m.queue + (a + ([c] + b)) == (m.queue + a) + [c] + b;
    NewestHas(m.queue + a, c, b);
  }

  lemma FirstAndRest(applied: seq<Cmd>, line: seq<Cmd>, c: Cmd)
    requires c in line
    ensures c in (applied + [line[0]]) + line[1..]
  {
    assert (applied + [line[0]]) + line[1..] == applied + line;
    var k :| 0 <= k < |line| && line[k] == c;
    assert (applied + line)[|applied| + k] == c;
  }

  /** The command stands in the room's queue for a member on its seat, with fewer than eight others for the
      same member behind it. */
  predicate Due(room: Room, i: nat, k: nat) {
    && i < |room.members| && k < |room.inQ| && room.inQ[k].seat == i && Accepts(room.members[i], room.inQ[k])
    && |AcceptedBy(room.members[i], i, room.inQ[k + 1..])| < RING_DEPTH
  }

  /** Such a command is applied to that member, or in its ring, after the room's next tick. */
  lemma DueIsTaken(st: State, w: nat, i: nat, k: nat)
    requires Inv(st) && FlowInv(st) && CanTick(st, w) && Due(st.book.rooms[RoomAt(st, w)], i, k)
    ensures RoomAt(st, w) < |Tick(st, w).book.rooms| && i < |Tick(st, w).book.rooms[RoomAt(st, w)].members|
    ensures var m := Tick(st, w).book.rooms[RoomAt(st, w)].members[i];
      st.book.rooms[RoomAt(st, w)].inQ[k] in m.applied + m.queue
  {
    hide BookShape, ConnShape, SeatInv, JoinInv, MemberInv, RefInv, ConnInv, PartingInv, FreeInv, ListInv;
    hide LoadInv, OpenInv, LifeInv, LeaveInv, TickMembers, Newest, FlowInv;
    TickTakes(st, w, i);
    var room := st.book.rooms[RoomAt(st, w)];
    var m, c := room.members[i], room.inQ[k];
    InLine(m, i, room.inQ, k);
    FirstAndRest(m.applied, Newest(m.queue + AcceptedBy(m, i, room.inQ)), c);
  }

  predicate Holds(m: Member, input: Cmd) {
    exists c :: c in m.applied + m.queue && SameKeys(c, input)
  }

  /** What the room's queue held is still in front of it. */
  predicate QueueKept(st: State, t: State, r: nat) {
    r < |st.book.rooms| && r < |t.book.rooms| && st.book.rooms[r].inQ <= t.book.rooms[r].inQ
  }

  /** From the key to the actor: what a member pushes into its room is, after the room's next tick, applied to
      its own actor or waiting in its ring, unless eight newer ones came in between. */
  lemma PushedIsTaken(st: State, s: nat, r: nat, i: nat, u: State, w: nat)
    requires Inv(st) && CanInputPush(st, s) && Sits(st, r, i, s) && st.conns[s].room == r
    requires Inv(u) && FlowInv(u) && CanTick(u, w) && RoomAt(u, w) == r && Sits(u, r, i, s)
    requires u.book.rooms[r].members[i].gen == st.book.rooms[r].members[i].gen
    requires QueueKept(InputPush(st, s), u, r)
    requires |st.book.rooms[r].inQ| < |u.book.rooms[r].inQ| ==>
      |AcceptedBy(u.book.rooms[r].members[i], i, u.book.rooms[r].inQ[|st.book.rooms[r].inQ| + 1..])| < RING_DEPTH
    ensures r < |Tick(u, w).book.rooms| && i < |Tick(u, w).book.rooms[r].members|
    ensures Holds(Tick(u, w).book.rooms[r].members[i], st.conns[s].input)
  {
    hide BookShape, ConnShape, SeatInv, JoinInv, MemberInv, RefInv, ConnInv, PartingInv, FreeInv, ListInv;
    hide LoadInv, OpenInv, LifeInv, LeaveInv, TickMembers, FlowInv, SameKeys;
    var k := |st.book.rooms[r].inQ|;
    PushArrives(st, s, r, i);
    var c := InputPush(st, s).book.rooms[r].inQ[k];
    assert u.book.rooms[r].inQ[k] == c;
    DueIsTaken(u, w, i, k);
  }

  // ---- Over whole runs --------------------------------------------------------------------

  /** The action is a tick of room `r`. */
  predicate TicksRoom(st: State, a: Action, r: nat)
    requires Shape(st) && Enabled(st, a)
  {
    a.ATick? && RoomAt(st, a.w) == r
  }

  lemma NetQueue(st: State, a: Action, r: nat)
    requires Inv(st) && NetAction(a) && Enabled(st, a) && r < |st.book.rooms| && r !in st.book.free
    ensures QueueKept(st, Apply(st, a), r)
  {
    hide BookShape, ConnShape, WorkerShape, SeatInv, JoinInv, MemberInv, RefInv, ConnInv, PartingInv, FreeInv;
    hide ListInv, LoadInv, OpenInv, LifeInv, LeaveInv, LeastBusy, FirstVacant;
    if a.AJoinAlloc? { assert Top(st.book.free) in st.book.free; }
  }

  lemma WorkerQueue(st: State, a: Action, r: nat)
    requires Inv(st) && !NetAction(a) && !a.AMove? && Enabled(st, a) && !TicksRoom(st, a, r)
    requires r < |st.book.rooms|
    ensures QueueKept(st, Apply(st, a), r)
  {
    hide BookShape, ConnShape, SeatInv, JoinInv, MemberInv, RefInv, ConnInv, PartingInv, FreeInv, ListInv;
    hide LoadInv, OpenInv, LifeInv, LeaveInv, SwapRemove, TickMembers, FindMember;
  }

  lemma MoveQueue(st: State, w: nat, r: nat)
    requires Inv(st) && CanMove(st, w) && r < |st.book.rooms| && r !in st.book.free && r != RoomAt(st, w)
    ensures QueueKept(st, Move(st, w), r)
  {
    hide BookShape, ConnShape, SeatInv, JoinInv, MemberInv, RefInv, ConnInv, PartingInv, FreeInv, ListInv;
    hide LoadInv, OpenInv, LifeInv, LeaveInv, MemberTags, JoinTags, Rehome, CarrySeats, MovedMembers;
    MoveSetting(st, w);
    Sized(st);
    MoveFields(st.book, RoomAt(st, w));
    assert Top(st.book.free) in st.book.free;
  }

  /** A room with a member is not free, and after a transfer nobody sits in the old one. */
  lemma SitterRoom(st: State, r: nat, i: nat, s: nat)
    requires Inv(st) && Sits(st, r, i, s)
    ensures r < |st.book.rooms| && r !in st.book.free
  {
    hide BookShape, ConnShape, WorkerShape, JoinInv, RefInv, ConnInv, PartingInv, ListInv;
    hide LoadInv, OpenInv, LeaveInv;
    SitterIsSeated(st, r, i, s);
    assert LifeOk(r, st.book.rooms[r], st.home[r], st.workers, st.conns, st.lock);
    if st.home[r].InFree? { VacantSeats(st.book.rooms, st.seatBy, st.loc, r); }
  }

  lemma MoveGrowsQueue(st: State, w: nat, r: nat, i: nat, s: nat)
    requires Inv(st) && CanMove(st, w) && Sits(st, r, i, s) && Sits(Move(st, w), r, i, s)
    ensures QueueKept(st, Move(st, w), r)
  {
    hide BookShape, ConnShape, SeatInv, JoinInv, MemberInv, RefInv, ConnInv, PartingInv, FreeInv, ListInv;
    hide LoadInv, OpenInv, LifeInv, LeaveInv, MemberTags, JoinTags, Rehome, CarrySeats, QueueKept;
    SitterRoom(st, r, i, s);
    if RoomAt(st, w) == r {
      MoveSetting(st, w);
      Sized(st);
      MoveFields(st.book, r);
    } else {
      MoveQueue(st, w, r);
    }
  }

  /** While somebody sits in a room, only its tick takes anything out of its queue. */
  lemma QueueGrows(st: State, a: Action, r: nat, i: nat, s: nat)
    requires Inv(st) && Enabled(st, a) && Sits(st, r, i, s) && Sits(Apply(st, a), r, i, s) && !TicksRoom(st, a, r)
    ensures QueueKept(st, Apply(st, a), r)
  {
    hide Inv, Shape, Sits, QueueKept, Move, CanMove;
    SitterRoom(st, r, i, s);
    if NetAction(a) {
      NetQueue(st, a, r);
    } else if a.AMove? {
      MoveGrowsQueue(st, a.w, r, i, s);
    } else {
      WorkerQueue(st, a, r);
    }
  }

  /** From step `j` on the session keeps sitting at (r, i) in its generation, and the room is not ticked. */
  ghost predicate Undisturbed(states: seq<State>, actions: seq<Action>, r: nat, i: nat, s: nat, g: nat, j: nat, k: nat)
    requires IsRun(states, actions) && j <= k < |states|
  {
    && (forall n :: j <= n <= k ==> Sits(states[n], r, i, s) && states[n].book.rooms[r].members[i].gen == g)
    && (forall n :: j <= n < k ==> !TicksRoom(states[n], actions[n], r))
  }

  lemma {:induction false} QueueRun(states: seq<State>, actions: seq<Action>, r: nat, i: nat, s: nat, g: nat,
                                    j: nat, k: nat)
    requires IsRun(states, actions) && Inv(states[0]) && j <= k < |states|
    requires Undisturbed(states, actions, r, i, s, g, j, k)
    ensures QueueKept(states[j], states[k], r)
    decreases k - j
  {
    hide Inv, Shape, Enabled, Apply, TicksRoom, Sits;
    RunHolds(states, actions, k);
    assert Sits(states[k], r, i, s);
    SitterRoom(states[k], r, i, s);
    if j < k {
      assert Sits(states[k - 1], r, i, s) && !TicksRoom(states[k - 1], actions[k - 1], r);
      QueueRun(states, actions, r, i, s, g, j, k - 1);
      RunHolds(states, actions, k - 1);
      QueueGrows(states[k - 1], actions[k - 1], r, i, s);
    }
  }

  /** In every run: what a member pushes into its room at step `j` is, once the room is ticked at step `k` with
      the session still on its seat, applied to its own actor or in its ring, unless eight newer ones for it
      came in between. */
  lemma PushedIsTakenRun(states: seq<State>, actions: seq<Action>, r: nat, i: nat, s: nat, g: nat, j: nat, k: nat)
    requires IsRun(states, actions) && Inv(states[0]) && FlowInv(states[0]) && j < k < |actions|
    requires actions[j] == AInputPush(s) && CanInputPush(states[j], s) && states[j].conns[s].room == r
    requires Undisturbed(states, actions, r, i, s, g, j, k) && TicksRoom(states[k], actions[k], r)
    requires var room := states[k].book.rooms[r];
      |states[j].book.rooms[r].inQ| < |room.inQ| ==>
        |AcceptedBy(room.members[i], i, room.inQ[|states[j].book.rooms[r].inQ| + 1..])| < RING_DEPTH
    ensures r < |states[k + 1].book.rooms| && i < |states[k + 1].book.rooms[r].members|
    ensures Holds(states[k + 1].book.rooms[r].members[i], states[j].conns[s].input)
  {
    hide Inv, Shape, FlowInv, Holds, QueueKept;
    RunFlows(states, actions, j);
    RunFlows(states, actions, k);
    StillUndisturbed(states, actions, r, i, s, g, j, k);
    QueueRun(states, actions, r, i, s, g, j + 1, k);
    PushedIsTaken(states[j], s, r, i, states[k], actions[k].w);
  }

  lemma StillUndisturbed(states: seq<State>, actions: seq<Action>, r: nat, i: nat, s: nat, g: nat, j: nat, k: nat)
    requires IsRun(states, actions) && j < k < |states| && Undisturbed(states, actions, r, i, s, g, j, k)
    ensures Undisturbed(states, actions, r, i, s, g, j + 1, k)
  {
    hide Inv, Shape, Enabled, Apply, TicksRoom;
  }

  // ---- Through a transfer -----------------------------------------------------------------

  /** A transfer takes every member along whole: seat, ring, input in force, number shown, streak. */
  lemma MoveCarries(st: State, w: nat, i: nat, s: nat)
    requires Inv(st) && CanMove(st, w) && Sits(st, RoomAt(st, w), i, s)
    ensures Sits(Move(st, w), Top(st.book.free), i, s)
    ensures Move(st, w).book.rooms[Top(st.book.free)].members[i] == st.book.rooms[RoomAt(st, w)].members[i]
    ensures Move(st, w).book.rooms[Top(st.book.free)].inQ == []
  {
    hide BookShape, ConnShape, SeatInv, JoinInv, MemberInv, RefInv, ConnInv, PartingInv, FreeInv, ListInv;
    hide LoadInv, OpenInv, LifeInv, LeaveInv, MemberTags, JoinTags, Rehome, CarrySeats;
    MoveSetting(st, w);
    Sized(st);
    MoveFields(st.book, RoomAt(st, w));
  }

  /** Only a room with somebody in it is ever transferred. */
  lemma OnlyOccupiedMove(st: State, w: nat)
    requires Inv(st) && CanMove(st, w)
    ensures exists i, s :: Sits(st, RoomAt(st, w), i, s)
  {
    hide BookShape, ConnShape, SeatInv, JoinInv, RefInv, ConnInv, PartingInv, FreeInv, ListInv;
    hide LoadInv, OpenInv, LifeInv, LeaveInv;
    Sized(st);
    var r := RoomAt(st, w);
    var ms := st.book.rooms[r].members;
    var i: nat := if ms[0].used then 0 else if ms[1].used then 1 else if ms[2].used then 2 else 3;
    assert Sits(st, r, i, ms[i].sess);
  }
}
