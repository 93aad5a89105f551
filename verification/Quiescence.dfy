/** When every session has disconnected, no departed member was lost, and every game worker has gone
    through its rooms once more, all session slots and all rooms are free again. */
module Quiescence {
  import opened Sessions
  import opened Inputs
  import opened Rooms
  import opened Lifetime
  import opened LifetimeInv
  import opened LifetimeDeltas
  import opened LifetimeSteps
  import opened LifetimeMove
  import opened LifetimeRuns
  import opened Tracking
  import opened Leak

  lemma StartTracked(sessions: nat, rooms: nat, workers: nat)
    requires workers > 0
    ensures Inv(Start(sessions, rooms, workers)) && Tracked(Start(sessions, rooms, workers))
    ensures forall s :: !StalePush(Start(sessions, rooms, workers), ALeavePush(s))
  {
    hide Inv;
    StartHolds(sessions, rooms, workers);
  }

  // ---- Everybody has left -----------------------------------------------------------------

  /** Every session is closed for good. */
  ghost predicate Deserted(st: State) {
    Inv(st) && forall s :: 0 <= s < |st.conns| ==> st.conns[s].Closed?
  }

  ghost predicate Calm(st: State) {
    Deserted(st) && Tracked(st)
  }

  /** An action of a game worker. */
  predicate WorkerAction(a: Action) {
    a.ABegin? || a.AEnd? || a.ATake? || a.AJoinOne? || a.ALeaveOne? || a.AReturn? || a.ACheck? ||
    a.AFree? || a.ATick? || a.AStay? || a.AMove?
  }

  lemma DesertedStep(st: State, a: Action)
    requires Deserted(st) && Enabled(st, a) && WorkerAction(a)
    ensures Deserted(Apply(st, a))
  {
    hide Inv, Shape;
    StepKeeps(st, a);
  }

  lemma CalmStep(st: State, a: Action)
    requires Calm(st) && Enabled(st, a) && WorkerAction(a)
    ensures Calm(Apply(st, a))
  {
    hide Deserted, Tracked, Shape, Inv;
    DesertedInv(st);
    DesertedStep(st, a);
    StepTracks(st, a);
  }

  lemma DesertedInv(st: State)
    requires Deserted(st)
    ensures Inv(st) && Shape(st)
  {
    hide Shape;
  }

  /** Worker `w` is in a pass over its rooms that began after everybody had left, or is through
      with it. */
  predicate Sweeping(st: State, w: nat)
    requires Shape(st)
  {
    && w < |st.workers| && st.book.mail[w] == []
    && match st.workers[w].pc
       case Idle => st.workers[w].rooms == []
       case At(p) => p == 0
       case Ticking(_) => false
       case Exiting(_) => false
       case _ => st.workers[w].pc.pos == 0 &&
                 st.book.rooms[RoomAt(st, w)].pendJ == [] && st.book.rooms[RoomAt(st, w)].pendL == []
  }

  lemma NoEntriesNoSeats(st: State, r: nat)
    requires Calm(st) && r < |st.book.rooms|
    requires Joins(st.book.rooms[r]) == [] && Leaves(st.book.rooms[r]) == []
    ensures st.book.rooms[r].reserved == 0
  {
    hide BookShape, ConnShape, WorkerShape, RefInv, PartingInv, FreeInv, ListInv, LoadInv, OpenInv, LifeInv, LeaveInv;
    forall s | 0 <= s < |st.conns| ensures !(st.loc[s].Held? && st.loc[s].room == r) {
      assert ConnOk(st.conns[s], st.pool.slots[s], st.loc[s]);
      assert Awaited(st.book.rooms, st.loc[s], s, st.pool.slots[s]);
    }
  }

  lemma CheckFindsEmpty(st: State, w: nat)
    requires Calm(st) && Sweeping(st, w) && CanCheck(st, w)
    ensures Empty(st.book.rooms[RoomAt(st, w)])
  {
    hide BookShape, ConnShape, SeatInv, JoinInv, MemberInv, RefInv, PartingInv, FreeInv, LoadInv, OpenInv, LeaveInv;
    var r := RoomAt(st, w);
    NoEntriesNoSeats(st, r);
    Sized(st);
    assert r in st.workers[w].rooms;
    assert st.home[r] == InList(w);
    assert LifeOk(r, st.book.rooms[r], st.home[r], st.workers, st.conns, st.lock);
  }

  /** A room is on at most one worker's list. */
  lemma OtherRoom(st: State, v: nat, w: nat)
    requires Inv(st) && v < |st.workers| && w < |st.workers| && v != w
    requires st.workers[v].pc != Idle && st.workers[v].pc.pos < |st.workers[v].rooms|
    requires st.workers[w].pc != Idle && st.workers[w].pc.pos < |st.workers[w].rooms|
    ensures RoomAt(st, v) != RoomAt(st, w)
  {
    hide BookShape, ConnShape, SeatInv, JoinInv, MemberInv, RefInv, ConnInv, PartingInv;
    hide FreeInv, LoadInv, OpenInv, LifeInv, LeaveInv;
    Sized(st);
    assert RoomAt(st, v) in st.workers[v].rooms && RoomAt(st, w) in st.workers[w].rooms;
    assert st.home[RoomAt(st, v)] == InList(v) && st.home[RoomAt(st, w)] == InList(w);
  }

  lemma BeginSweeps(st: State, w: nat)
    requires Inv(st) && CanBegin(st, w)
    ensures Shape(Apply(st, ABegin(w))) && Sweeping(Apply(st, ABegin(w)), w)
  {
    hide BookShape, ConnShape, SeatInv, JoinInv, MemberInv, RefInv, ConnInv, PartingInv;
    hide FreeInv, LoadInv, OpenInv, LifeInv, LeaveInv;
    Sized(st);
  }

  function Actor(a: Action): nat
    requires WorkerAction(a)
  {
    a.w
  }

  lemma SweepStep(st: State, a: Action, w: nat)
    requires Calm(st) && Sweeping(st, w) && Enabled(st, a) && WorkerAction(a)
    ensures Calm(Apply(st, a)) && Sweeping(Apply(st, a), w)
  {
    CalmStep(st, a);
    if Actor(a) == w { OwnStep(st, a, w); } else { OtherStep(st, a, w); }
  }

  lemma CalmShape(st: State)
    requires Calm(st)
    ensures Shape(st) && Inv(st)
  {
    hide Shape;
  }

  lemma OwnStep(st: State, a: Action, w: nat)
    requires Calm(st) && Sweeping(st, w) && Enabled(st, a) && WorkerAction(a) && Actor(a) == w
    ensures Shape(Apply(st, a)) && Sweeping(Apply(st, a), w)
  {
    hide Inv, Tracked, Shape, Sweeping;
    CalmShape(st);
    CalmStep(st, a);
    CalmShape(Apply(st, a));
    match a
    case ABegin(_) => BeginSweeps(st, w);
    case ACheck(_) => OwnCheck(st, w);
    case AFree(_) => OwnFree(st, w);
    case _ => OwnQueue(st, a, w);
  }

  lemma OwnCheck(st: State, w: nat)
    requires Calm(st) && Sweeping(st, w) && CanCheck(st, w)
    ensures Sweeping(Check(st, w), w)
    ensures Check(st, w).workers == st.workers[w := st.workers[w].(pc := Dooming(0))]
  {
    hide BookShape, ConnShape, SeatInv, JoinInv, MemberInv, RefInv, ConnInv, PartingInv;
    hide FreeInv, ListInv, LoadInv, OpenInv, LifeInv, LeaveInv, Tracked;
    Sized(st);
    CheckFindsEmpty(st, w);
  }

  lemma OwnFree(st: State, w: nat)
    requires Calm(st) && Sweeping(st, w) && CanFree(st, w)
    ensures Sweeping(Free(st, w), w)
  {
    hide BookShape, ConnShape, SeatInv, JoinInv, MemberInv, RefInv, ConnInv, PartingInv;
    hide FreeInv, ListInv, LoadInv, OpenInv, LifeInv, LeaveInv, Tracked, SwapRemove;
    Sized(st);
  }

  lemma OwnQueue(st: State, a: Action, w: nat)
    requires Calm(st) && Sweeping(st, w) && Enabled(st, a)
    requires a == AEnd(w) || a == ATake(w) || a == AJoinOne(w) || a == ALeaveOne(w) || a == AReturn(w) ||
             a == ATick(w) || a == AStay(w) || a == AMove(w)
    ensures Sweeping(Apply(st, a), w)
  {
    hide BookShape, ConnShape, SeatInv, JoinInv, MemberInv, RefInv, ConnInv, PartingInv;
    hide FreeInv, ListInv, LoadInv, OpenInv, LifeInv, LeaveInv, Tracked, SwapRemove, MoveBook, Rehome, TickMembers;
    Sized(st);
  }

  predicate InRoom(st: State, w: nat) {
    w < |st.workers| && !st.workers[w].pc.Idle? && st.workers[w].pc.pos < |st.workers[w].rooms|
  }

  lemma ListsKept(st: State, a: Action, w: nat)
    requires Shape(st) && Enabled(st, a) && WorkerAction(a) && Actor(a) != w && w < |st.workers|
    ensures var t := Apply(st, a);
      |t.workers| == |st.workers| && t.workers[w] == st.workers[w] &&
      |t.book.mail| == |st.book.mail| && (w < |st.book.mail| ==> t.book.mail[w] == st.book.mail[w])
  {
    hide BookShape, ConnShape, WorkerShape, SwapRemove, TickMembers, Rehome;
    Sized(st);
  }

  /** A worker touches only the room it is at, and a transfer also the free room it moves to. */
  lemma RoomsKept(st: State, a: Action, r: nat)
    requires Shape(st) && Enabled(st, a) && WorkerAction(a) && r < |st.book.rooms|
    requires InRoom(st, Actor(a)) ==> r != RoomAt(st, Actor(a))
    requires r !in st.book.free
    ensures r < |Apply(st, a).book.rooms| && Apply(st, a).book.rooms[r] == st.book.rooms[r]
  {
    hide BookShape, ConnShape, SwapRemove, TickMembers, Rehome, CarrySeats, MovedMembers;
    if a.AMove? {
      assert InRoom(st, a.w);
      MoveKeepsOthers(st, a.w, r);
    }
  }

  lemma MoveKeepsOthers(st: State, w: nat, r: nat)
    requires Shape(st) && CanMove(st, w) && r < |st.book.rooms| && r != RoomAt(st, w) && r !in st.book.free
    ensures Move(st, w).book.rooms[r] == st.book.rooms[r]
  {
    hide ConnShape, SwapRemove, Rehome, CarrySeats, MovedMembers, MovedIn, MovedOut;
    assert st.book.free[|st.book.free| - 1] in st.book.free;
  }

  predicate SameWorker(st: State, t: State, w: nat)
    requires Shape(st) && Shape(t)
  {
    && w < |st.workers| == |t.workers| && t.workers[w] == st.workers[w]
    && w < |st.book.mail| == |t.book.mail| && t.book.mail[w] == st.book.mail[w]
    && (InRoom(st, w) ==>
          RoomAt(st, w) < |t.book.rooms| && st.book.rooms[RoomAt(st, w)] == t.book.rooms[RoomAt(st, w)])
  }

  /** What one worker does leaves another worker's list, mailbox and current room alone. */
  lemma OthersKeep(st: State, a: Action, w: nat)
    requires Inv(st) && Enabled(st, a) && WorkerAction(a) && Actor(a) != w && w < |st.workers|
    ensures Inv(Apply(st, a))
    ensures SameWorker(st, Apply(st, a), w)
  {
    hide BookShape, ConnShape, SeatInv, JoinInv, MemberInv, RefInv, ConnInv, PartingInv;
    hide FreeInv, ListInv, LoadInv, OpenInv, LifeInv, LeaveInv, Apply, Enabled;
    StepKeeps(st, a);
    Sized(st);
    ListsKept(st, a, w);
    if InRoom(st, w) {
      if InRoom(st, Actor(a)) { OtherRoom(st, Actor(a), w); }
      ListedIsNotFree(st, w);
      RoomsKept(st, a, RoomAt(st, w));
    }
  }

  lemma OtherStep(st: State, a: Action, w: nat)
    requires Calm(st) && Sweeping(st, w) && Enabled(st, a) && WorkerAction(a) && Actor(a) != w
    ensures Shape(Apply(st, a)) && Sweeping(Apply(st, a), w)
  {
    hide BookShape, ConnShape, SeatInv, JoinInv, MemberInv, RefInv, ConnInv, PartingInv;
    hide FreeInv, ListInv, LoadInv, OpenInv, LifeInv, LeaveInv, Tracked, Apply, Enabled;
    Sized(st);
    OthersKeep(st, a, w);
  }

  lemma ListedIsNotFree(st: State, w: nat)
    requires Inv(st) && w < |st.workers| && st.workers[w].pc != Idle && st.workers[w].pc.pos < |st.workers[w].rooms|
    ensures RoomAt(st, w) !in st.book.free
  {
    hide BookShape, ConnShape, SeatInv, JoinInv, MemberInv, RefInv, ConnInv, PartingInv, LoadInv, OpenInv, LifeInv;
    hide LeaveInv;
    assert RoomAt(st, w) in st.workers[w].rooms;
  }

  // ---- The end of the pass ----------------------------------------------------------------

  ghost predicate AllFree(st: State) {
    && (forall s :: 0 <= s < |st.pool.slots| ==> st.pool.slots[s].refs == 0 && s in st.pool.free)
    && (forall r :: 0 <= r < |st.book.rooms| ==>
          r in st.book.free && st.book.rooms[r].reserved == 0 &&
          (forall i :: 0 <= i < |st.book.rooms[r].members| ==> !st.book.rooms[r].members[i].used))
    && st.book.open == []
    && (forall w :: 0 <= w < |st.book.load| ==> st.book.load[w] == 0)
  }

  lemma NoHomes(st: State)
    requires Calm(st)
    requires forall w :: 0 <= w < |st.workers| ==> Sweeping(st, w) && st.workers[w].rooms == []
    ensures forall r :: 0 <= r < |st.home| ==> st.home[r].InFree?
  {
    hide BookShape, ConnShape, SeatInv, JoinInv, MemberInv, RefInv, ConnInv, PartingInv, FreeInv, OpenInv, LifeInv;
    hide LeaveInv, Tracked, Shape, ListInv, LoadInv;
    CalmShape(st);
    OwnersHave(st);
    forall r | 0 <= r < |st.home| ensures !st.home[r].InFree? ==> Sweeping(st, st.home[r].worker) {
      assert !st.home[r].InFree? ==> st.home[r].worker < |st.workers|;
    }
  }

  lemma OwnersHave(st: State)
    requires Inv(st)
    ensures forall r :: 0 <= r < |st.home| && !st.home[r].InFree? ==>
      st.home[r].worker < |st.workers| && st.home[r].worker < |st.book.mail| &&
      (r in st.book.mail[st.home[r].worker] || r in st.workers[st.home[r].worker].rooms)
  {
    hide BookShape, ConnShape, SeatInv, JoinInv, MemberInv, RefInv, ConnInv, PartingInv, FreeInv, OpenInv, LifeInv;
    hide LeaveInv;
    Sized(st);
  }

  lemma OpenInUse(st: State)
    requires Inv(st)
    ensures st.book.open != [] ==> st.book.open[0] < |st.home| && !st.home[st.book.open[0]].InFree?
  {
    hide BookShape, ConnShape, SeatInv, JoinInv, MemberInv, RefInv, ConnInv, PartingInv, FreeInv, ListInv, LoadInv;
    hide LifeInv, LeaveInv;
    if st.book.open != [] { assert st.book.open[0] in st.book.open; }
  }

  lemma PartingAtRoom(st: State, s: nat)
    requires Inv(st) && s < |st.loc| && st.loc[s].Parting?
    ensures st.loc[s].worker < |st.workers| && st.workers[st.loc[s].worker].rooms != []
  {
    hide BookShape, ConnShape, SeatInv, JoinInv, MemberInv, RefInv, ConnInv, FreeInv, ListInv, LoadInv, OpenInv;
    hide LifeInv, LeaveInv;
    assert WorkerShape(st.workers[st.loc[s].worker], |st.book.rooms|, |st.pool.slots|);
  }

  lemma NobodyHolds(st: State)
    requires Calm(st)
    requires forall w :: 0 <= w < |st.workers| ==> st.workers[w].rooms == []
    requires forall r :: 0 <= r < |st.home| ==> st.home[r].InFree?
    ensures forall s :: 0 <= s < |st.loc| ==> st.loc[s].Away?
    ensures forall r :: 0 <= r < |st.book.rooms| ==> st.book.rooms[r].reserved == 0
  {
    hide BookShape, ConnShape, JoinInv, MemberInv, RefInv, FreeInv, ListInv, LoadInv, OpenInv, LeaveInv, Tracked;
    forall r | 0 <= r < |st.book.rooms| ensures st.book.rooms[r].reserved == 0 {
      assert LifeOk(r, st.book.rooms[r], st.home[r], st.workers, st.conns, st.lock);
    }
    forall s | 0 <= s < |st.loc| ensures st.loc[s].Away? {
      if st.loc[s].Held? {
        VacantSeats(st.book.rooms, st.seatBy, st.loc, st.loc[s].room);
      } else if st.loc[s].Parting? {
        PartingAtRoom(st, s);
      }
    }
  }

  lemma SweptIsFree(st: State)
    requires Calm(st)
    requires forall w :: 0 <= w < |st.workers| ==> Sweeping(st, w) && st.workers[w].rooms == []
    ensures AllFree(st)
  {
    hide BookShape, ConnShape, SeatInv, JoinInv, ConnInv, PartingInv, ListInv, LifeInv, LeaveInv, Tracked;
    NoHomes(st);
    NobodyHolds(st);
    Sized(st);
    forall w | 0 <= w < |st.book.load| ensures st.book.load[w] == 0 {
      assert RoomsOf(st.book.rooms, st.home, w) == {};
    }
    OpenInUse(st);
  }

  /** Worker `w` made a complete pass within the run: it began one and later came to the end of one. */
  ghost predicate MadePass(actions: seq<Action>, w: nat) {
    exists b, e :: 0 <= b < e < |actions| && actions[b] == ABegin(w) && actions[e] == AEnd(w)
  }

  lemma {:induction false} CalmRun(states: seq<State>, actions: seq<Action>, k: nat)
    requires IsRun(states, actions) && Calm(states[0]) && k < |states|
    requires forall i :: 0 <= i < |actions| ==> WorkerAction(actions[i])
    ensures Calm(states[k])
  {
    hide Calm, Shape, Enabled, Apply;
    if k > 0 {
      CalmRun(states, actions, k - 1);
      CalmStep(states[k - 1], actions[k - 1]);
    }
  }

  lemma {:induction false} SweepRun(states: seq<State>, actions: seq<Action>, w: nat, b: nat, k: nat)
    requires IsRun(states, actions) && Calm(states[0]) && b < k < |states| && actions[b] == ABegin(w)
    requires forall i :: 0 <= i < |actions| ==> WorkerAction(actions[i])
    ensures Calm(states[k]) && Sweeping(states[k], w)
    decreases k
  {
    hide Inv, Tracked, Shape, Apply, Sweeping, WorkerAction;
    CalmRun(states, actions, k);
    CalmRun(states, actions, k - 1);
    if k == b + 1 {
      BeginSweeps(states[b], w);
    } else {
      SweepRun(states, actions, w, b, k - 1);
      SweepStep(states[k - 1], actions[k - 1], w);
    }
  }

  lemma EmptyStays(st: State, a: Action, w: nat)
    requires Calm(st) && Sweeping(st, w) && Enabled(st, a) && WorkerAction(a) && st.workers[w].rooms == []
    ensures w < |Apply(st, a).workers| && Apply(st, a).workers[w].rooms == []
  {
    hide Inv, Tracked, Apply, Enabled, Shape;
    CalmShape(st);
    SweepStep(st, a, w);
    if Actor(a) == w { EmptyOwn(st, a, w); } else { ListsKept(st, a, w); }
  }

  lemma EmptyOwn(st: State, a: Action, w: nat)
    requires Shape(st) && Sweeping(st, w) && Enabled(st, a) && WorkerAction(a) && Actor(a) == w
    requires st.workers[w].rooms == []
    ensures w < |Apply(st, a).workers| && Apply(st, a).workers[w].rooms == []
  {
    hide BookShape, ConnShape, SwapRemove, MoveBook, Rehome, TickMembers;
  }

  lemma EndIsEmpty(st: State, w: nat)
    requires Shape(st) && Sweeping(st, w) && CanEnd(st, w)
    ensures w < |Apply(st, AEnd(w)).workers| && Apply(st, AEnd(w)).workers[w].rooms == []
  { }

  lemma {:induction false} SweptRun(states: seq<State>, actions: seq<Action>, w: nat, b: nat, e: nat, k: nat)
    requires IsRun(states, actions) && Calm(states[0]) && b < e < k < |states|
    requires actions[b] == ABegin(w) && actions[e] == AEnd(w)
    requires forall i :: 0 <= i < |actions| ==> WorkerAction(actions[i])
    ensures Calm(states[k]) && Sweeping(states[k], w) && states[k].workers[w].rooms == []
    decreases k
  {
    hide Calm, Shape, Sweeping, WorkerAction, Apply;
    SweepRun(states, actions, w, b, k);
    if k == e + 1 {
      SweepRun(states, actions, w, b, e);
      EndIsEmpty(states[e], w);
    } else {
      SweepRun(states, actions, w, b, k - 1);
      SweptRun(states, actions, w, b, e, k - 1);
      EmptyStays(states[k - 1], actions[k - 1], w);
    }
  }

  /** After every worker has made one complete pass, in whatever interleaving, everything is free. */
  lemma DrainedRun(states: seq<State>, actions: seq<Action>)
    requires IsRun(states, actions) && Calm(states[0])
    requires forall i :: 0 <= i < |actions| ==> WorkerAction(actions[i])
    requires forall w :: 0 <= w < |states[|actions|].workers| ==> MadePass(actions, w)
    ensures AllFree(states[|actions|])
  {
    hide Inv, Tracked, Shape, Apply, Sweeping, AllFree, Calm;
    CalmRun(states, actions, |actions|);
    var st := states[|actions|];
    forall w | 0 <= w < |st.workers| ensures Sweeping(st, w) && st.workers[w].rooms == [] {
      assert MadePass(actions, w);
      var b, e :| 0 <= b < e < |actions| && actions[b] == ABegin(w) && actions[e] == AEnd(w);
      SweptRun(states, actions, w, b, e, |actions|);
    }
    SweptIsFree(st);
  }

  // ---- Every pass comes to its end --------------------------------------------------------

  /** What worker `w` does next in its pass. */
  function NextAction(st: State, w: nat): Action
    requires Shape(st) && w < |st.workers|
  {
    match st.workers[w].pc
    case Idle => ABegin(w)
    case At(p) => if p < |st.workers[w].rooms| then ATake(w) else AEnd(w)
    case Batch(_) =>
      var room := st.book.rooms[RoomAt(st, w)];
      if room.takenJ != [] then AJoinOne(w) else if room.takenL != [] then ALeaveOne(w) else ACheck(w)
    case Returning(_, _) => AReturn(w)
    case Dooming(_) => AFree(w)
    case Ticking(_) => ATick(w)
    case Exiting(_) => AStay(w)
  }

  lemma NeverStuck(st: State, w: nat)
    requires Deserted(st) && w < |st.workers|
    ensures Enabled(st, NextAction(st, w)) && WorkerAction(NextAction(st, w)) && Actor(NextAction(st, w)) == w
  {
    hide BookShape, ConnShape, SeatInv, JoinInv, MemberInv, RefInv, PartingInv;
    hide FreeInv, ListInv, LoadInv, OpenInv, LifeInv, LeaveInv;
    assert st.lock.Unlocked?;
  }

  /** How far worker `w` is from the end of the pass: rooms still ahead, then work at the room it is at. */
  function Remaining(st: State, w: nat): (n: (nat, nat))
    requires Shape(st) && w < |st.workers|
  {
    var k := st.workers[w];
    match k.pc
    case Idle => (0, 0)
    case At(p) =>
      if p < |k.rooms| then
        var room := st.book.rooms[RoomAt(st, w)];
        (|k.rooms| - p, 8 + 2 * (|room.pendJ| + |room.pendL|))
      else (0, 1)
    case Batch(p) =>
      var room := st.book.rooms[RoomAt(st, w)];
      (|k.rooms| - p, 6 + 2 * (|room.takenJ| + |room.takenL|))
    case Returning(p, _) =>
      var room := st.book.rooms[RoomAt(st, w)];
      (|k.rooms| - p, 7 + 2 * (|room.takenJ| + |room.takenL|))
    case Exiting(p) => (|k.rooms| - p, 4)
    case _ => (|k.rooms| - k.pc.pos, 5)
  }

  predicate Less(a: (nat, nat), b: (nat, nat)) { a.0 < b.0 || (a.0 == b.0 && a.1 < b.1) }

  /** Every action of the worker brings the end of its pass nearer, whenever that pass began, and no action
      of another worker moves it away. */
  lemma PassEnds(st: State, a: Action, w: nat)
    requires Deserted(st) && w < |st.workers| && Enabled(st, a) && WorkerAction(a)
    requires a != ABegin(w)
    ensures Shape(Apply(st, a)) && w < |Apply(st, a).workers|
    ensures if Actor(a) == w then Less(Remaining(Apply(st, a), w), Remaining(st, w))
            else Remaining(Apply(st, a), w) == Remaining(st, w)
  {
    hide BookShape, ConnShape, SeatInv, JoinInv, MemberInv, RefInv, ConnInv, PartingInv;
    hide FreeInv, ListInv, LoadInv, OpenInv, LifeInv, LeaveInv, Apply, Enabled;
    if Actor(a) == w { OwnEnds(st, a, w); } else { Sized(st); OthersKeep(st, a, w); }
  }

  lemma OwnEnds(st: State, a: Action, w: nat)
    requires Shape(st) && Enabled(st, a) && WorkerAction(a) && Actor(a) == w && !a.ABegin?
    ensures Shape(Apply(st, a)) && w < |st.workers| == |Apply(st, a).workers|
    ensures Less(Remaining(Apply(st, a), w), Remaining(st, w))
  {
    hide Shape, Enabled, Apply, Remaining, Less;
    if a.AFree? || a.AMove? || a.AEnd? || a.AStay? {
      OwnLeaves(st, a, w);
    } else if a.AJoinOne? || a.ALeaveOne? {
      OwnEntry(st, a, w);
    } else {
      OwnWorks(st, a, w);
    }
  }

  lemma OwnLeaves(st: State, a: Action, w: nat)
    requires Shape(st) && Enabled(st, a) && (a == AFree(w) || a == AMove(w) || a == AEnd(w) || a == AStay(w))
    ensures Shape(Apply(st, a)) && w < |st.workers| == |Apply(st, a).workers|
    ensures Less(Remaining(Apply(st, a), w), Remaining(st, w))
  {
    hide BookShape, ConnShape, Rehome, MoveBook, SwapRemove;
  }

  lemma OwnEntry(st: State, a: Action, w: nat)
    requires Shape(st) && Enabled(st, a) && (a == AJoinOne(w) || a == ALeaveOne(w))
    ensures Shape(Apply(st, a)) && w < |st.workers| == |Apply(st, a).workers|
    ensures Less(Remaining(Apply(st, a), w), Remaining(st, w))
  {
    hide BookShape, ConnShape;
  }

  lemma OwnWorks(st: State, a: Action, w: nat)
    requires Shape(st) && Enabled(st, a)
    requires a == ATake(w) || a == AReturn(w) || a == ACheck(w) || a == ATick(w)
    ensures Shape(Apply(st, a)) && w < |st.workers| == |Apply(st, a).workers|
    ensures Less(Remaining(Apply(st, a), w), Remaining(st, w))
  {
    hide BookShape, ConnShape, TickMembers;
  }
}
