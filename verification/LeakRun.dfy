/** A complete run from start-up, with one client, two rooms and one game worker, that ends in a
    lost member: the transfer comes between reading the room number and queueing the leave. */
module LeakRun {
  import opened Sessions
  import opened Inputs
  import opened Rooms
  import opened Lifetime
  import opened LifetimeInv
  import opened LifetimeMove
  import opened LifetimeRuns
  import opened Tracking
  import opened Leak

  ghost predicate Reachable(st: State) {
    exists states, actions :: IsRun(states, actions) && states[0] == Start(1, 2, 1) && states[|actions|] == st
  }

  lemma ReachHolds(st: State)
    requires Reachable(st)
    ensures Inv(st)
  {
    hide Inv, Shape, Start;
    StartHolds(1, 2, 1);
    var states, actions :|
      IsRun(states, actions) && states[0] == Start(1, 2, 1) && states[|actions|] == st;
    RunHolds(states, actions, |actions|);
  }

  lemma ReachStep(st: State, a: Action, t: State)
    requires Reachable(st) && Shape(st) && Leads(st, a, t)
    ensures Reachable(t) && Shape(t)
  {
    hide Inv, Shape, Enabled, Apply, Start;
    ReachHolds(st);
    StepKeeps(st, a);
    var states, actions :|
      IsRun(states, actions) && states[0] == Start(1, 2, 1) && states[|actions|] == st;
    var states2, actions2 := states + [t], actions + [a];
    forall k | 0 <= k < |actions2|
      ensures Enabled(states2[k], actions2[k]) && states2[k + 1] == Apply(states2[k], actions2[k])
    {
      if k < |actions| { assert states2[k] == states[k] && states2[k + 1] == states[k + 1]; }
    }
    InvShape(t);
    assert IsRun(states2, actions2);
    assert states2[0] == Start(1, 2, 1) && states2[|actions2|] == t;
  }

  predicate Leads(st: State, a: Action, t: State)
    requires Shape(st)
  {
    Enabled(st, a) && Apply(st, a) == t
  }

  function World(slot: Slot, conn: Conn, lock: Lock, k: Worker, room: Room, free: seq<nat>, open: seq<nat>,
                 load: int, mail: seq<nat>, loc: Loc, row: seq<int>, home: Home): State
  {
    State(Pool([slot], []), Book([room, IDLE_ROOM], free, open, [load], [mail]), [conn], lock, [k],
          [loc], [row, EMPTY_ROW], [home, InFree], [[]])
  }

  const CONNECTED := Slot(1, 0, false, false, 0, 0)
  const JOINED := Slot(2, 0, false, true, 0, 0)
  const ROW: seq<int> := [0, -1, -1, -1]
  const NO_ROOMS: seq<nat> := []
  const NO_ENTRIES: seq<JoinEntry> := []
  const SEATED_ROOM := IDLE_ROOM.(seatUsed := [true, false, false, false], everReserved := true, reserved := 1)
  const PLAYED_ROOM :=
    SEATED_ROOM.(members := [Seated(0, 0).(streak := 1), VACANT, VACANT, VACANT], memberCount := 1)

  function Scanned(): State {
    World(CONNECTED, Scanning, LockedBy(0), Worker([], Idle), IDLE_ROOM, [1, 0], [], 0, [], Away, EMPTY_ROW, InFree)
  }

  function Booked(): State {
    World(CONNECTED, Reserved(0, 0), LockedBy(0), Worker([], Idle), SEATED_ROOM, [1], [0], 1, [0],
          Held(0, 0, SReserved), ROW, InMail(0))
  }

  function Queued(): State {
    World(JOINED, Open, Unlocked, Worker([], Idle), SEATED_ROOM.(pendJ := [JoinEntry(0, 0, 0)]), [1], [0], 1, [0],
          Held(0, 0, SPending), ROW, InMail(0))
  }

  function Playing(): State {
    World(JOINED, Open, Unlocked, Worker([0], Exiting(0)), PLAYED_ROOM, [1], [0], 1, [],
          Held(0, 0, SSeated), ROW, InList(0))
  }

  function Hanging(): State {
    Playing().(conns := [Leaving(0)], pool := Pool([JOINED.(dead := true, inRoom := false)], []))
  }

  function Connected(): State {
    World(CONNECTED, Open, Unlocked, Worker([], Idle), IDLE_ROOM, [1, 0], [], 0, [], Away, EMPTY_ROW, InFree)
  }

  function Opened(): State {
    World(CONNECTED, Fresh(0), LockedBy(0), Worker([], Idle), IDLE_ROOM, [1], [], 1, [0], Away, EMPTY_ROW, InMail(0))
  }

  function Referenced(): State {
    World(CONNECTED.(refs := 2), Counted(0, 0), LockedBy(0), Worker([], Idle), SEATED_ROOM, [1], [0], 1, [0],
          Held(0, 0, SCounted), ROW, InMail(0))
  }

  function Entered(): State {
    World(CONNECTED.(refs := 2), Pushed(0, 0), LockedBy(0), Worker([], Idle),
          SEATED_ROOM.(pendJ := [JoinEntry(0, 0, 0)]), [1], [0], 1, [0], Held(0, 0, SPending), ROW, InMail(0))
  }

  function AtRoom0(pc: Pc, room: Room, stage: Stage): State {
    World(JOINED, Open, Unlocked, Worker([0], pc), room, [1], [0], 1, [], Held(0, 0, stage), ROW, InList(0))
  }

  const QUEUED_ROOM := SEATED_ROOM.(pendJ := [JoinEntry(0, 0, 0)])
  const BATCH_ROOM := SEATED_ROOM.(takenJ := [JoinEntry(0, 0, 0)])
  const TAKEN_ROOM := SEATED_ROOM.(members := [Seated(0, 0), VACANT, VACANT, VACANT], memberCount := 1)

  function Parted(): State {
    Playing().(conns := [Dying], pool := Pool([JOINED.(dead := true)], []))
  }

  lemma Step1()
    requires Shape(Start(1, 2, 1))
    ensures Leads(Start(1, 2, 1), AAccept, Connected())
  {
    assert Down(1) == [0] && Down(2) == [1, 0];
    assert Apply(Start(1, 2, 1), AAccept) == Connected();
  }

  lemma Step2()
    requires Shape(Connected())
    ensures Leads(Connected(), AJoinLock(0), Scanned())
  {
    assert Apply(Connected(), AJoinLock(0)) == Scanned();
  }

  lemma Step3()
    requires Shape(Scanned())
    ensures Leads(Scanned(), AJoinAlloc(0), Opened())
  {
    assert NO_ROOMS + [0] == [0];
    var t := JoinAlloc(Scanned(), 0);
    assert t.book.rooms == Opened().book.rooms;
    assert t.book.free == Opened().book.free;
    assert t.book.load == Opened().book.load;
    assert t.book.mail == Opened().book.mail;
    assert t.book == Opened().book;
    assert t.home == Opened().home;
    assert t.conns == Opened().conns;
    assert t == Opened();
  }

  lemma Step4()
    requires Shape(Opened())
    ensures Leads(Opened(), AJoinFresh(0), Booked())
  {
    assert NO_SEATS[0 := true] == SEATED_ROOM.seatUsed;
    assert EMPTY_ROW[0 := 0] == ROW;
    var t := JoinFresh(Opened(), 0);
    assert t.book.rooms == Booked().book.rooms;
    assert t.book.open == Booked().book.open;
    assert t.book == Booked().book;
    assert t.seatBy == Booked().seatBy;
    assert t.loc == Booked().loc;
    assert t.conns == Booked().conns;
    assert t == Booked();
  }

  lemma Step5()
    requires Shape(Booked())
    ensures Leads(Booked(), AJoinRef(0), Referenced())
  {
    assert Apply(Booked(), AJoinRef(0)) == Referenced();
  }

  lemma Step6()
    requires Shape(Referenced())
    ensures Leads(Referenced(), AJoinPush(0), Entered())
  {
    assert NO_ENTRIES + [JoinEntry(0, 0, 0)] == QUEUED_ROOM.pendJ;
    var t := JoinPush(Referenced(), 0);
    assert t.book.rooms == Entered().book.rooms;
    assert t.book == Entered().book;
    assert t.loc == Entered().loc;
    assert t.conns == Entered().conns;
    assert t == Entered();
  }

  lemma Step7()
    requires Shape(Entered())
    ensures Leads(Entered(), AJoinDone(0), Queued())
  {
    assert Apply(Entered(), AJoinDone(0)) == Queued();
  }

  lemma Step8()
    requires Shape(Queued())
    ensures Leads(Queued(), ABegin(0), AtRoom0(At(0), QUEUED_ROOM, SPending))
  {
    assert NO_ROOMS + [0] == [0];
    var t := Begin(Queued(), 0);
    assert t.book.mail == AtRoom0(At(0), QUEUED_ROOM, SPending).book.mail;
    assert t.book == AtRoom0(At(0), QUEUED_ROOM, SPending).book;
    assert t.workers == AtRoom0(At(0), QUEUED_ROOM, SPending).workers;
    assert t.home == AtRoom0(At(0), QUEUED_ROOM, SPending).home;
    assert t == AtRoom0(At(0), QUEUED_ROOM, SPending);
  }

  lemma Step9()
    requires Shape(AtRoom0(At(0), QUEUED_ROOM, SPending))
    ensures Leads(AtRoom0(At(0), QUEUED_ROOM, SPending), ATake(0), AtRoom0(Batch(0), BATCH_ROOM, SPending))
  {
    var t := Take(AtRoom0(At(0), QUEUED_ROOM, SPending), 0);
    assert t.book.rooms == AtRoom0(Batch(0), BATCH_ROOM, SPending).book.rooms;
    assert t.book == AtRoom0(Batch(0), BATCH_ROOM, SPending).book;
    assert t.workers == AtRoom0(Batch(0), BATCH_ROOM, SPending).workers;
    assert t == AtRoom0(Batch(0), BATCH_ROOM, SPending);
  }

  lemma Step10()
    requires Shape(AtRoom0(Batch(0), BATCH_ROOM, SPending))
    ensures Leads(AtRoom0(Batch(0), BATCH_ROOM, SPending), AJoinOne(0), AtRoom0(Batch(0), TAKEN_ROOM, SSeated))
  {
    assert BATCH_ROOM.takenJ[1..] == [];
    assert !Refused(AtRoom0(Batch(0), BATCH_ROOM, SPending), JoinEntry(0, 0, 0));
    assert NO_MEMBERS[0 := Seated(0, 0)] == TAKEN_ROOM.members;
    var t := JoinOne(AtRoom0(Batch(0), BATCH_ROOM, SPending), 0);
    assert t.book.rooms == AtRoom0(Batch(0), TAKEN_ROOM, SSeated).book.rooms;
    assert t.book == AtRoom0(Batch(0), TAKEN_ROOM, SSeated).book;
    assert t.workers == AtRoom0(Batch(0), TAKEN_ROOM, SSeated).workers;
    assert t.loc == AtRoom0(Batch(0), TAKEN_ROOM, SSeated).loc;
    assert t == AtRoom0(Batch(0), TAKEN_ROOM, SSeated);
  }

  lemma Step11()
    requires Shape(AtRoom0(Batch(0), TAKEN_ROOM, SSeated))
    ensures Leads(AtRoom0(Batch(0), TAKEN_ROOM, SSeated), ACheck(0), AtRoom0(Ticking(0), TAKEN_ROOM, SSeated))
  {
    assert Apply(AtRoom0(Batch(0), TAKEN_ROOM, SSeated), ACheck(0)) == AtRoom0(Ticking(0), TAKEN_ROOM, SSeated);
  }

  lemma Step12()
    requires Shape(AtRoom0(Ticking(0), TAKEN_ROOM, SSeated))
    ensures Leads(AtRoom0(Ticking(0), TAKEN_ROOM, SSeated), ATick(0), Playing())
  {
    assert TickMembers(TAKEN_ROOM.members, []) == PLAYED_ROOM.members;
    assert Apply(AtRoom0(Ticking(0), TAKEN_ROOM, SSeated), ATick(0)) == Playing();
  }

  lemma Step13()
    requires Shape(Playing())
    ensures Leads(Playing(), ADie(0), Parted())
  {
    assert Apply(Playing(), ADie(0)) == Parted();
  }

  lemma Step14()
    requires Shape(Parted())
    ensures Leads(Parted(), ALeaveLoad(0), Hanging())
  {
    assert Apply(Parted(), ALeaveLoad(0)) == Hanging();
  }

  lemma ToHanging()
    ensures Reachable(Hanging()) && Shape(Hanging())
  {
    hide Leads, Reachable, World, Shape;
    StartReached();
    Step1();
    ReachStep(Start(1, 2, 1), AAccept, Connected());
    Step2();
    ReachStep(Connected(), AJoinLock(0), Scanned());
    Step3();
    ReachStep(Scanned(), AJoinAlloc(0), Opened());
    Step4();
    ReachStep(Opened(), AJoinFresh(0), Booked());
    Step5();
    ReachStep(Booked(), AJoinRef(0), Referenced());
    Step6();
    ReachStep(Referenced(), AJoinPush(0), Entered());
    Step7();
    ReachStep(Entered(), AJoinDone(0), Queued());
    Step8();
    ReachStep(Queued(), ABegin(0), AtRoom0(At(0), QUEUED_ROOM, SPending));
    Step9();
    ReachStep(AtRoom0(At(0), QUEUED_ROOM, SPending), ATake(0), AtRoom0(Batch(0), BATCH_ROOM, SPending));
    Step10();
    ReachStep(AtRoom0(Batch(0), BATCH_ROOM, SPending), AJoinOne(0), AtRoom0(Batch(0), TAKEN_ROOM, SSeated));
    Step11();
    ReachStep(AtRoom0(Batch(0), TAKEN_ROOM, SSeated), ACheck(0), AtRoom0(Ticking(0), TAKEN_ROOM, SSeated));
    Step12();
    ReachStep(AtRoom0(Ticking(0), TAKEN_ROOM, SSeated), ATick(0), Playing());
    Step13();
    ReachStep(Playing(), ADie(0), Parted());
    Step14();
    ReachStep(Parted(), ALeaveLoad(0), Hanging());
  }

  lemma StartReached()
    ensures Reachable(Start(1, 2, 1)) && Shape(Start(1, 2, 1))
  {
    hide Inv, Start;
    StartHolds(1, 2, 1);
    InvShape(Start(1, 2, 1));
    assert IsRun([Start(1, 2, 1)], []);
  }

  /** The transfer takes the member to another room than the leave is bound for. */
  lemma WindowOpen()
    ensures var st := Hanging();
      Shape(st) && CanMove(st, 0) && StalePush(Move(st, 0), ALeavePush(0))
  {
    hide MoveBook, Rehome, MemberTags, JoinTags;
  }

  /** A state in which a member can never be removed is reachable. */
  lemma LeakHappens()
    ensures exists st :: Reachable(st) && Inv(st) && Leaked(st, 0)
  {
    hide Inv, Reachable, Shape, Leaked, Move, LeavePush, CanMove;
    ToHanging();
    WindowOpen();
    var t := Move(Hanging(), 0);
    ReachStep(Hanging(), AMove(0), t);
    var u := LeavePush(t, 0);
    ReachStep(t, ALeavePush(0), u);
    ReachHolds(t);
    ReachHolds(u);
    LeavePushLeaks(t, 0, 0);
  }
}
