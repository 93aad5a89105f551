/** The input property over whole runs of the lifetime protocol. */
module InputRuns {
  import opened Sessions
  import opened Inputs
  import opened Rooms
  import opened Lifetime
  import opened LifetimeInv
  import opened LifetimeDeltas
  import opened LifetimeSteps
  import opened LifetimeMove
  import opened LifetimeRuns
  import opened LifetimeFacts
  import opened InputFlow

  ghost predicate FlowInv(st: State) {
    InputInv(st.book.rooms, st.pool.slots, st.hist)
  }

  lemma MembersHeld(st: State)
    requires Inv(st)
    ensures forall r, i :: 0 <= r < |st.book.rooms| && 0 <= i < |st.book.rooms[r].members| ==>
      MemberHeld(st.book.rooms[r].members[i], st.pool.slots)
  {
    hide BookShape, ConnShape, WorkerShape, SeatInv, JoinInv, ConnInv, PartingInv, FreeInv, ListInv, LoadInv;
    hide OpenInv, LifeInv, LeaveInv;
    Sized(st);
  }

  lemma NetRooms(st: State, a: Action, r: nat)
    requires Shape(st) && Enabled(st, a) && NetAction(a) && !a.AInputPush? && r < |st.book.rooms|
    ensures r < |Apply(st, a).book.rooms|
    ensures RoomKeeps(st.book.rooms[r], Apply(st, a).book.rooms[r])
  {
    hide BookShape, ConnShape, WorkerShape, LeastBusy, FirstVacant;
    Sized(st);
  }

  lemma PassRooms(st: State, a: Action, r: nat)
    requires Shape(st) && Enabled(st, a) && r < |st.book.rooms|
    requires a.ABegin? || a.AEnd? || a.ATake? || a.AReturn? || a.ACheck? || a.AFree? || a.AStay?
    ensures r < |Apply(st, a).book.rooms|
    ensures RoomKeeps(st.book.rooms[r], Apply(st, a).book.rooms[r])
  {
    hide ConnShape, SwapRemove;
    assert RoomShape(st.book.rooms[r], |st.pool.slots|, |st.book.load|);
  }

  lemma JoinRooms(st: State, w: nat, r: nat)
    requires Shape(st) && r < |st.book.rooms| && CanJoinOne(st, w)
    ensures RoomKeeps(st.book.rooms[r], JoinOne(st, w).book.rooms[r])
  {
    hide ConnShape;
    assert RoomShape(st.book.rooms[RoomAt(st, w)], |st.pool.slots|, |st.book.load|);
    assert RoomShape(st.book.rooms[r], |st.pool.slots|, |st.book.load|);
    hide BookShape;
  }

  lemma LeaveRooms(st: State, w: nat, r: nat)
    requires Shape(st) && r < |st.book.rooms| && CanLeaveOne(st, w)
    ensures RoomKeeps(st.book.rooms[r], LeaveOne(st, w).book.rooms[r])
  {
    hide BookShape, ConnShape;
    Sized(st);
  }

  lemma RoomsChange(st: State, a: Action, r: nat)
    requires Shape(st) && Enabled(st, a) && !a.AInputPush? && !a.ATick? && !a.AMove? && r < |st.book.rooms|
    ensures r < |Apply(st, a).book.rooms|
    ensures RoomKeeps(st.book.rooms[r], Apply(st, a).book.rooms[r])
  {
    hide Shape, RoomKeeps;
    SlotCount(st, a);
    if NetAction(a) {
      NetRooms(st, a, r);
    } else if a.AJoinOne? {
      JoinRooms(st, a.w, r);
    } else if a.ALeaveOne? {
      LeaveRooms(st, a.w, r);
    } else {
      PassRooms(st, a, r);
    }
  }

  lemma HistKept(st: State, a: Action, s: nat)
    requires Inv(st) && Enabled(st, a) && !a.AInputPush? && s < |st.hist|
    ensures |Apply(st, a).hist| == |st.hist|
    ensures Apply(st, a).hist[s] == st.hist[s] || st.pool.slots[s].refs == 0
  {
    hide BookShape, ConnShape, WorkerShape, SeatInv, JoinInv, MemberInv, ConnInv, PartingInv, FreeInv, ListInv;
    hide LoadInv, OpenInv, LifeInv, LeaveInv, Rehome, MoveBook, OpenSlot, TickMembers, SwapRemove;
    if a.AAccept? { assert st.pool.free[|st.pool.free| - 1] in st.pool.free; }
  }

  lemma SlotsKept(st: State, a: Action)
    requires Inv(st) && Enabled(st, a) && !a.AInputPush?
    ensures SlotsKeep(st.pool.slots, Apply(st, a).pool.slots, st.hist, Apply(st, a).hist)
  {
    hide Inv, Shape, Enabled, Apply;
    StepKeeps(st, a);
    Sizes(st);
    Sizes(Apply(st, a));
    forall s | 0 <= s < |st.pool.slots|
      ensures |Apply(st, a).pool.slots| == |st.pool.slots|
      ensures SlotKeeps(st.pool.slots[s], Apply(st, a).pool.slots[s], st.hist[s], Apply(st, a).hist[s])
    {
      GenStep(st, a, s);
      HistKept(st, a, s);
    }
    SlotCount(st, a);
  }

  lemma SlotCount(st: State, a: Action)
    requires Shape(st) && Enabled(st, a)
    ensures |Apply(st, a).pool.slots| == |st.pool.slots| && |Apply(st, a).book.rooms| == |st.book.rooms|
  {
    hide BookShape, ConnShape, WorkerShape, SwapRemove, LeastBusy, FirstVacant, TickMembers;
  }

  lemma Sizes(st: State)
    requires Inv(st)
    ensures Shape(st) && |st.hist| == |st.pool.slots|
  {
    hide BookShape, ConnShape, WorkerShape, SeatInv, JoinInv, MemberInv, ConnInv, PartingInv, FreeInv, ListInv;
    hide RefInv, LoadInv, OpenInv, LifeInv, LeaveInv;
  }

  lemma QuietFlow(st: State, a: Action)
    requires Inv(st) && FlowInv(st) && Enabled(st, a) && !a.AInputPush? && !a.ATick? && !a.AMove?
    ensures FlowInv(Apply(st, a))
  {
    hide Inv, Shape, Enabled, Apply, RoomInputs, RoomKeeps, SlotsKeep, MemberHeld;
    Sizes(st);
    StepKeeps(st, a);
    var t := Apply(st, a);
    Sizes(t);
    SlotsKept(st, a);
    SlotCount(st, a);
    MembersHeld(st);
    MembersHeld(t);
    forall r | 0 <= r < |t.book.rooms| ensures RoomInputs(t.book.rooms[r], t.pool.slots, t.hist) {
      RoomsChange(st, a, r);
      KeepsLength(st.book.rooms[r], t.book.rooms[r]);
      RoomFrame(st.book.rooms[r], t.book.rooms[r], st.pool.slots, t.pool.slots, st.hist, t.hist);
    }
  }

  lemma KeepsLength(a: Room, b: Room)
    requires RoomKeeps(a, b)
    ensures |a.members| == |b.members|
  { }

  lemma PushFlow(st: State, s: nat)
    requires Inv(st) && FlowInv(st) && CanInputPush(st, s)
    ensures FlowInv(InputPush(st, s))
  {
    hide BookShape, WorkerShape, SeatInv, JoinInv, MemberInv, ConnInv, PartingInv, FreeInv, ListInv;
    hide LoadInv, OpenInv, LifeInv, LeaveInv, RoomInputs;
    var t := InputPush(st, s);
    var r := st.conns[s].room;
    assert ConnShape(st.conns[s], |st.book.rooms|);
    var c := t.hist[s][|st.hist[s]|];
    forall q | 0 <= q < |t.book.rooms| ensures RoomInputs(t.book.rooms[q], t.pool.slots, t.hist) {
      PushInRoom(st.book.rooms[q], c, st.pool.slots, st.hist);
    }
  }

  lemma TickFlow(st: State, w: nat)
    requires Inv(st) && FlowInv(st) && CanTick(st, w)
    ensures FlowInv(Tick(st, w))
  {
    hide BookShape, ConnShape, SeatInv, JoinInv, MemberInv, ConnInv, PartingInv, FreeInv, ListInv;
    hide RefInv, LoadInv, OpenInv, LifeInv, LeaveInv, RoomInputs, MemberHeld;
    MembersHeld(st);
    TickRoom(st.book.rooms[RoomAt(st, w)], st.pool.slots, st.hist);
  }

  lemma MovedInputs(was: Room, nr: Room, worker: nat, slots: seq<Slot>, slots2: seq<Slot>, hist: seq<seq<Cmd>>)
    requires RoomInputs(was, slots, hist) && |slots2| == |slots| == |hist| && |was.members| == SEATS
    requires forall s :: 0 <= s < |slots| ==> slots2[s].gen == slots[s].gen && slots2[s].refs == slots[s].refs
    ensures RoomInputs(MovedIn(FreshRoom(nr, worker), was), slots2, hist) && RoomInputs(MovedOut(was), slots2, hist)
  {
    hide CarrySeats;
  }

  lemma SameGens(room: Room, slots: seq<Slot>, slots2: seq<Slot>, hist: seq<seq<Cmd>>)
    requires RoomInputs(room, slots, hist) && |slots2| == |slots|
    requires forall s :: 0 <= s < |slots| ==> slots2[s].gen == slots[s].gen && slots2[s].refs == slots[s].refs
    ensures RoomInputs(room, slots2, hist)
  { }

  lemma MoveFlow(st: State, w: nat)
    requires Inv(st) && FlowInv(st) && CanMove(st, w)
    ensures FlowInv(Move(st, w))
  {
    hide BookShape, ConnShape, SeatInv, JoinInv, MemberInv, ConnInv, PartingInv, FreeInv, ListInv;
    hide RefInv, LoadInv, OpenInv, LifeInv, LeaveInv, RoomInputs, MemberTags, JoinTags, Rehome, MovedIn, MovedOut;
    var t := Move(st, w);
    MoveSetting(st, w);
    MoveSlots(st, w);
    Sized(st);
    var r, nr := RoomAt(st, w), st.book.free[|st.book.free| - 1];
    MoveFields(st.book, r);
    MovedInputs(st.book.rooms[r], st.book.rooms[nr], st.book.rooms[r].worker, st.pool.slots, t.pool.slots, st.hist);
    forall q | 0 <= q < |t.book.rooms| ensures RoomInputs(t.book.rooms[q], t.pool.slots, t.hist) {
      if q != r && q != nr { SameGens(st.book.rooms[q], st.pool.slots, t.pool.slots, st.hist); }
    }
  }

  lemma FlowStep(st: State, a: Action)
    requires Inv(st) && FlowInv(st) && Enabled(st, a)
    ensures FlowInv(Apply(st, a))
  {
    hide Inv, FlowInv, Shape;
    match a
    case AInputPush(s) => PushFlow(st, s);
    case ATick(w) => TickFlow(st, w);
    case AMove(w) => MoveFlow(st, w);
    case _ => QuietFlow(st, a);
  }

  lemma {:induction false} RunFlows(states: seq<State>, actions: seq<Action>, k: nat)
    requires IsRun(states, actions) && k < |states| && Inv(states[0]) && FlowInv(states[0])
    ensures Inv(states[k]) && FlowInv(states[k])
  {
    hide Inv, FlowInv, Shape, Enabled, Apply;
    if k > 0 {
      RunFlows(states, actions, k - 1);
      StepKeeps(states[k - 1], actions[k - 1]);
      FlowStep(states[k - 1], actions[k - 1]);
    }
  }

  lemma StartFlows(sessions: nat, rooms: nat, workers: nat)
    requires workers > 0
    ensures Inv(Start(sessions, rooms, workers)) && FlowInv(Start(sessions, rooms, workers))
  {
    hide Inv;
    StartHolds(sessions, rooms, workers);
  }

  // ---- What it means ----------------------------------------------------------------------

  predicate Sits(st: State, r: nat, i: nat, s: nat) {
    && r < |st.book.rooms| && i < |st.book.rooms[r].members|
    && st.book.rooms[r].members[i].used && st.book.rooms[r].members[i].sess == s
  }

  /** The inputs applied to a member are an in-order selection of what exactly this session pushed;
      the input in force is the last of them or neutral; the sequence number shown is its. */
  lemma AppliedIsOwn(st: State, r: nat, i: nat, s: nat)
    requires Inv(st) && FlowInv(st) && Sits(st, r, i, s)
    ensures var m := st.book.rooms[r].members[i];
      && s < |st.hist| && m.gen == st.pool.slots[s].gen
      && (forall k :: 0 <= k < |m.applied| ==>
            m.applied[k].ord < |st.hist[s]| && st.hist[s][m.applied[k].ord] == m.applied[k])
      && (forall j, k :: 0 <= j < k < |m.applied| ==> m.applied[j].ord < m.applied[k].ord)
      && m.held == (if m.applied == [] then NEUTRAL
                    else if m.streak <= HOLD_TICKS then m.applied[|m.applied| - 1]
                    else Neutralised(m.applied[|m.applied| - 1]))
      && m.lastSeq == if m.applied == [] then 0 else m.applied[|m.applied| - 1].seqNo
  {
    hide BookShape, ConnShape, WorkerShape, SeatInv, JoinInv, MemberInv, ConnInv, PartingInv, FreeInv, ListInv;
    hide RefInv, LoadInv, OpenInv, LifeInv, LeaveInv;
    MembersHeld(st);
    var m := st.book.rooms[r].members[i];
    assert RoomInputs(st.book.rooms[r], st.pool.slots, st.hist);
    assert MemberHeld(m, st.pool.slots);
    assert forall k :: 0 <= k < |m.applied| ==> (m.applied + m.queue)[k] == m.applied[k];
  }

  // ---- Applied inputs only grow -----------------------------------------------------------

  predicate Grown(a: seq<Cmd>, b: seq<Cmd>) { |a| <= |b| && b[..|a|] == a }

  lemma OneSeat(st: State, r: nat, i: nat, r2: nat, i2: nat, s: nat)
    requires Inv(st) && Sits(st, r, i, s) && Sits(st, r2, i2, s)
    ensures r == r2 && i == i2
  {
    hide BookShape, ConnShape, WorkerShape, SeatInv, JoinInv, ConnInv, PartingInv, FreeInv, ListInv;
    hide RefInv, LoadInv, OpenInv, LifeInv, LeaveInv;
    Sized(st);
  }

  lemma GrownRoute(ms: seq<Member>, batch: seq<Cmd>)
    ensures forall i :: 0 <= i < |ms| ==> RouteAll(ms, batch)[i].applied == ms[i].applied
    decreases |batch|
  {
    if batch != [] { GrownRoute(RouteOne(ms, batch[0]), batch[1..]); }
  }

  lemma GrownTick(room: Room, i: nat)
    requires i < |room.members|
    ensures Grown(room.members[i].applied, TickMembers(room.members, room.inQ)[i].applied)
  {
    GrownRoute(room.members, room.inQ);
  }

  /** A member that was not there before comes from a join entry. */
  lemma NewcomerIsPending(st: State, w: nat, r: nat, i: nat, s: nat)
    requires Inv(st) && CanJoinOne(st, w) && Sits(JoinOne(st, w), r, i, s)
    ensures Sits(st, r, i, s) || (s < |st.loc| && IsPending(st.loc[s]))
  {
    hide BookShape, ConnShape, SeatInv, JoinInv, MemberInv, ConnInv, PartingInv, FreeInv, ListInv;
    hide RefInv, LoadInv, OpenInv, LifeInv, LeaveInv;
    Sized(st);
    JoinHead(st.book.rooms, st.seatBy, st.loc, st.pool.slots, RoomAt(st, w));
  }

  lemma SitterIsSeated(st: State, r: nat, i: nat, s: nat)
    requires Inv(st) && Sits(st, r, i, s)
    ensures s < |st.loc| && st.loc[s] == Held(r, i, SSeated)
  {
    hide BookShape, ConnShape, SeatInv, JoinInv, ConnInv, PartingInv, FreeInv, ListInv;
    hide RefInv, LoadInv, OpenInv, LifeInv, LeaveInv;
    Sized(st);
  }

  /** While a session stays a member, whatever room it is moved to, its applied inputs only grow. */
  lemma AppliedStep(st: State, a: Action, s: nat, r: nat, i: nat, r2: nat, i2: nat)
    requires Inv(st) && Enabled(st, a) && Shape(Apply(st, a)) && Sits(st, r, i, s) && Sits(Apply(st, a), r2, i2, s)
    ensures Grown(st.book.rooms[r].members[i].applied, Apply(st, a).book.rooms[r2].members[i2].applied)
  {
    hide Inv, Shape, Sits, Grown;
    match a
    case ATick(w) => TickGrows(st, w, s, r, i, r2, i2);
    case AMove(w) => MoveGrows(st, w, s, r, i, r2, i2);
    case AJoinOne(w) => JoinGrows(st, w, s, r, i, r2, i2);
    case _ => QuietGrows(st, a, s, r, i, r2, i2);
  }

  lemma JoinGrows(st: State, w: nat, s: nat, r: nat, i: nat, r2: nat, i2: nat)
    requires Inv(st) && CanJoinOne(st, w) && Sits(st, r, i, s) && Sits(JoinOne(st, w), r2, i2, s)
    ensures Grown(st.book.rooms[r].members[i].applied, JoinOne(st, w).book.rooms[r2].members[i2].applied)
  {
    hide BookShape, ConnShape, SeatInv, JoinInv, MemberInv, ConnInv, PartingInv, FreeInv, ListInv;
    hide RefInv, LoadInv, OpenInv, LifeInv, LeaveInv;
    NewcomerIsPending(st, w, r2, i2, s);
    SitterIsSeated(st, r, i, s);
    OneSeat(st, r, i, r2, i2, s);
    Sized(st);
    JoinHead(st.book.rooms, st.seatBy, st.loc, st.pool.slots, RoomAt(st, w));
  }

  lemma TickGrows(st: State, w: nat, s: nat, r: nat, i: nat, r2: nat, i2: nat)
    requires Inv(st) && CanTick(st, w) && Sits(st, r, i, s) && Sits(Tick(st, w), r2, i2, s)
    ensures Grown(st.book.rooms[r].members[i].applied, Tick(st, w).book.rooms[r2].members[i2].applied)
  {
    hide BookShape, ConnShape, SeatInv, JoinInv, MemberInv, ConnInv, PartingInv, FreeInv, ListInv;
    hide RefInv, LoadInv, OpenInv, LifeInv, LeaveInv;
    var room := st.book.rooms[RoomAt(st, w)];
    assert forall k :: 0 <= k < |room.members| ==>
      SameTag(room.members[k], TickMembers(room.members, room.inQ)[k]);
    OneSeat(st, r, i, r2, i2, s);
    if r == RoomAt(st, w) { GrownTick(room, i); }
  }

  lemma MoveGrows(st: State, w: nat, s: nat, r: nat, i: nat, r2: nat, i2: nat)
    requires Inv(st) && CanMove(st, w) && Sits(st, r, i, s) && Sits(Move(st, w), r2, i2, s)
    ensures Grown(st.book.rooms[r].members[i].applied, Move(st, w).book.rooms[r2].members[i2].applied)
  {
    hide BookShape, ConnShape, SeatInv, JoinInv, MemberInv, ConnInv, PartingInv, FreeInv, ListInv;
    hide RefInv, LoadInv, OpenInv, LifeInv, LeaveInv, MemberTags, JoinTags, Rehome, CarrySeats;
    MoveSetting(st, w);
    Sized(st);
    var from, nr := RoomAt(st, w), st.book.free[|st.book.free| - 1];
    MoveFields(st.book, from);
    OneSeat(st, r, i, if r2 == nr then from else r2, i2, s);
  }

  lemma QuietGrows(st: State, a: Action, s: nat, r: nat, i: nat, r2: nat, i2: nat)
    requires Inv(st) && Enabled(st, a) && Shape(Apply(st, a)) && Sits(st, r, i, s) && Sits(Apply(st, a), r2, i2, s)
    requires !a.ATick? && !a.AMove? && !a.AJoinOne?
    ensures Grown(st.book.rooms[r].members[i].applied, Apply(st, a).book.rooms[r2].members[i2].applied)
  {
    hide Inv, Shape, Enabled, Apply;
    QuietSitter(st, a, s, r2, i2);
    OneSeat(st, r, i, r2, i2, s);
  }

  lemma QuietSitter(st: State, a: Action, s: nat, r: nat, i: nat)
    requires Inv(st) && Enabled(st, a) && Shape(Apply(st, a)) && Sits(Apply(st, a), r, i, s)
    requires !a.ATick? && !a.AMove? && !a.AJoinOne?
    ensures Sits(st, r, i, s) && st.book.rooms[r].members[i] == Apply(st, a).book.rooms[r].members[i]
  {
    hide Inv, Shape;
    Sizes(st);
    if NetAction(a) { NetSitter(st, a, s, r, i); } else { WorkerSitter(st, a, s, r, i); }
  }

  lemma NetSitter(st: State, a: Action, s: nat, r: nat, i: nat)
    requires Shape(st) && NetAction(a) && NetEnabled(st, a) && Sits(NetApply(st, a), r, i, s)
    ensures Sits(st, r, i, s) && st.book.rooms[r].members[i] == NetApply(st, a).book.rooms[r].members[i]
  {
    hide ConnShape, WorkerShape, LeastBusy, FirstVacant;
    Sized(st);
  }

  lemma WorkerSitter(st: State, a: Action, s: nat, r: nat, i: nat)
    requires Shape(st) && !NetAction(a) && WorkerEnabled(st, a) && Sits(WorkerApply(st, a), r, i, s)
    requires !a.ATick? && !a.AMove? && !a.AJoinOne?
    ensures Sits(st, r, i, s) && st.book.rooms[r].members[i] == WorkerApply(st, a).book.rooms[r].members[i]
  {
    hide BookShape, ConnShape, SwapRemove, FindMember;
    Sized(st);
  }

  ghost predicate SitsIn(st: State, s: nat, gen: nat) {
    exists r: nat, i: nat :: Sits(st, r, i, s) && st.book.rooms[r].members[i].gen == gen
  }

  /** As long as a session stays a member, its applied inputs at an earlier state are a prefix of those
      at a later one. */
  lemma {:induction false} AppliedRun(states: seq<State>, actions: seq<Action>, s: nat, gen: nat, j: nat, k: nat,
                                      r: nat, i: nat, r2: nat, i2: nat)
    requires IsRun(states, actions) && Inv(states[0]) && j <= k < |states|
    requires forall n :: j <= n <= k ==> SitsIn(states[n], s, gen)
    requires Sits(states[j], r, i, s) && Sits(states[k], r2, i2, s)
    ensures Grown(states[j].book.rooms[r].members[i].applied, states[k].book.rooms[r2].members[i2].applied)
    decreases k - j
  {
    hide Inv, Shape, Enabled, Apply, Grown;
    RunHolds(states, actions, k);
    if j == k {
      OneSeat(states[k], r, i, r2, i2, s);
      SelfGrown(states, k, s, r, i);
    } else {
      RunHolds(states, actions, k - 1);
      assert SitsIn(states[k - 1], s, gen);
      var r1: nat, i1: nat :| Sits(states[k - 1], r1, i1, s) && states[k - 1].book.rooms[r1].members[i1].gen == gen;
      AppliedRun(states, actions, s, gen, j, k - 1, r, i, r1, i1);
      AppliedStep(states[k - 1], actions[k - 1], s, r1, i1, r2, i2);
      SitBounds(states[j], r, i, s);
      SitBounds(states[k], r2, i2, s);
      GrownTrans(states[j].book.rooms[r].members[i].applied, states[k - 1].book.rooms[r1].members[i1].applied,
                 states[k].book.rooms[r2].members[i2].applied);
    }
  }

  lemma SelfGrown(states: seq<State>, k: nat, s: nat, r: nat, i: nat)
    requires k < |states| && Sits(states[k], r, i, s)
    ensures Grown(states[k].book.rooms[r].members[i].applied, states[k].book.rooms[r].members[i].applied)
  { }

  lemma SitBounds(st: State, r: nat, i: nat, s: nat)
    requires Sits(st, r, i, s)
    ensures r < |st.book.rooms| && i < |st.book.rooms[r].members|
  { }

  lemma GrownTrans(a: seq<Cmd>, b: seq<Cmd>, c: seq<Cmd>)
    requires Grown(a, b) && Grown(b, c)
    ensures Grown(a, c)
  {
    assert c[..|a|] == c[..|b|][..|a|];
  }

  /** With sequence numbers that never fall, the number a member shows never falls, through every
      transfer and every recycled room slot. */
  lemma LastSeqRises(states: seq<State>, actions: seq<Action>, s: nat, gen: nat, j: nat, k: nat,
                     r: nat, i: nat, r2: nat, i2: nat)
    requires IsRun(states, actions) && Inv(states[0]) && FlowInv(states[0]) && j <= k < |states|
    requires forall n :: j <= n <= k ==> SitsIn(states[n], s, gen)
    requires Sits(states[j], r, i, s) && Sits(states[k], r2, i2, s)
    requires s < |states[k].hist|
    requires forall x, y :: 0 <= x < y < |states[k].hist[s]| ==>
      states[k].hist[s][x].seqNo <= states[k].hist[s][y].seqNo
    ensures states[j].book.rooms[r].members[i].lastSeq <= states[k].book.rooms[r2].members[i2].lastSeq
  {
    hide Inv, Shape, Enabled, Apply, FlowInv;
    RunFlows(states, actions, j);
    RunFlows(states, actions, k);
    AppliedRun(states, actions, s, gen, j, k, r, i, r2, i2);
    AppliedIsOwn(states[j], r, i, s);
    AppliedIsOwn(states[k], r2, i2, s);
    var a, b := states[j].book.rooms[r].members[i].applied, states[k].book.rooms[r2].members[i2].applied;
    if a != [] {
      assert a[|a| - 1] == b[|a| - 1];
    }
  }
}
