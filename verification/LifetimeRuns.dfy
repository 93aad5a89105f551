/** Whole runs of the lifetime protocol, and what every reachable state guarantees in terms of the
    program's own fields. */
module LifetimeRuns {
  import opened Sessions
  import opened Inputs
  import opened Rooms
  import opened Lifetime
  import opened LifetimeInv
  import opened LifetimeDeltas
  import opened LifetimeSteps
  import opened LifetimeMove

  datatype Action =
    | AAccept | AAcceptFail
    | AJoinLock(s: nat) | AJoinPrune(s: nat) | AJoinReserve(s: nat) | AJoinFail(s: nat)
    | AJoinAlloc(s: nat) | AJoinFresh(s: nat) | AJoinRef(s: nat) | AJoinPush(s: nat) | AJoinDone(s: nat)
    | ADie(s: nat) | ALeaveLoad(s: nat) | ALeavePush(s: nat) | AHangUp(s: nat)
    | AInputLoad(s: nat, input: Cmd) | AInputPush(s: nat)
    | ABegin(w: nat) | AEnd(w: nat) | ATake(w: nat) | AJoinOne(w: nat) | ALeaveOne(w: nat)
    | AReturn(w: nat) | ACheck(w: nat) | AFree(w: nat) | ATick(w: nat) | AStay(w: nat) | AMove(w: nat)

  predicate NetAction(a: Action) {
    match a
    case AAccept => true
    case AAcceptFail => true
    case AJoinLock(_) => true
    case AJoinPrune(_) => true
    case AJoinReserve(_) => true
    case AJoinFail(_) => true
    case AJoinAlloc(_) => true
    case AJoinFresh(_) => true
    case AJoinRef(_) => true
    case AJoinPush(_) => true
    case AJoinDone(_) => true
    case ADie(_) => true
    case ALeaveLoad(_) => true
    case ALeavePush(_) => true
    case AHangUp(_) => true
    case AInputLoad(_, _) => true
    case AInputPush(_) => true
    case _ => false
  }

  predicate NetEnabled(st: State, a: Action)
    requires Shape(st) && NetAction(a)
  {
    match a
    case AAccept => CanAccept(st)
    case AAcceptFail => CanAccept(st)
    case AJoinLock(s) => CanJoinLock(st, s)
    case AJoinPrune(s) => CanJoinPrune(st, s)
    case AJoinReserve(s) => CanJoinReserve(st, s)
    case AJoinFail(s) => CanJoinFail(st, s)
    case AJoinAlloc(s) => CanJoinAlloc(st, s)
    case AJoinFresh(s) => CanJoinFresh(st, s)
    case AJoinRef(s) => CanJoinRef(st, s)
    case AJoinPush(s) => CanJoinPush(st, s)
    case AJoinDone(s) => CanJoinDone(st, s)
    case ADie(s) => CanDie(st, s)
    case ALeaveLoad(s) => CanLeaveLoad(st, s)
    case ALeavePush(s) => CanLeavePush(st, s)
    case AHangUp(s) => CanHangUp(st, s)
    case AInputLoad(s, _) => CanInputLoad(st, s)
    case AInputPush(s) => CanInputPush(st, s)
  }

  predicate WorkerEnabled(st: State, a: Action)
    requires Shape(st) && !NetAction(a)
  {
    match a
    case ABegin(w) => CanBegin(st, w)
    case AEnd(w) => CanEnd(st, w)
    case ATake(w) => CanTake(st, w)
    case AJoinOne(w) => CanJoinOne(st, w)
    case ALeaveOne(w) => CanLeaveOne(st, w)
    case AReturn(w) => CanReturn(st, w)
    case ACheck(w) => CanCheck(st, w)
    case AFree(w) => CanFree(st, w)
    case ATick(w) => CanTick(st, w)
    case AStay(w) => IsExiting(st, w)
    case AMove(w) => CanMove(st, w)
  }

  predicate Enabled(st: State, a: Action)
    requires Shape(st)
  {
    if NetAction(a) then NetEnabled(st, a) else WorkerEnabled(st, a)
  }

  function NetApply(st: State, a: Action): (t: State)
    requires Shape(st) && NetAction(a) && NetEnabled(st, a)
    ensures Shape(t)
  {
    match a
    case AAccept => Accept(st)
    case AAcceptFail => AcceptFail(st)
    case AJoinLock(s) => JoinLock(st, s)
    case AJoinPrune(s) => JoinPrune(st, s)
    case AJoinReserve(s) => JoinReserve(st, s)
    case AJoinFail(s) => JoinFail(st, s)
    case AJoinAlloc(s) => JoinAlloc(st, s)
    case AJoinFresh(s) => JoinFresh(st, s)
    case AJoinRef(s) => JoinRef(st, s)
    case AJoinPush(s) => JoinPush(st, s)
    case AJoinDone(s) => JoinDone(st, s)
    case ADie(s) => Die(st, s)
    case ALeaveLoad(s) => LeaveLoad(st, s)
    case ALeavePush(s) => LeavePush(st, s)
    case AHangUp(s) => HangUp(st, s)
    case AInputLoad(s, c) => InputLoad(st, s, c)
    case AInputPush(s) => InputPush(st, s)
  }

  function WorkerApply(st: State, a: Action): (t: State)
    requires Shape(st) && !NetAction(a) && WorkerEnabled(st, a)
    ensures Shape(t)
  {
    match a
    case ABegin(w) => Begin(st, w)
    case AEnd(w) => End(st, w)
    case ATake(w) => Take(st, w)
    case AJoinOne(w) => JoinOne(st, w)
    case ALeaveOne(w) => LeaveOne(st, w)
    case AReturn(w) => Return(st, w)
    case ACheck(w) => Check(st, w)
    case AFree(w) => Free(st, w)
    case ATick(w) => Tick(st, w)
    case AStay(w) => Stay(st, w)
    case AMove(w) => Move(st, w)
  }

  function Apply(st: State, a: Action): (t: State)
    requires Shape(st) && Enabled(st, a)
    ensures Shape(t)
  {
    if NetAction(a) then NetApply(st, a) else WorkerApply(st, a)
  }

  /** The server right after start-up: every slot and room free, lowest number on top. */
  function Down(n: nat): (s: seq<nat>)
    ensures |s| == n && forall k :: 0 <= k < n ==> s[k] == n - 1 - k
  {
    seq(n, k requires 0 <= k < n => n - 1 - k)
  }

  const IDLE_ROOM := Room(false, false, NO_SEATS, 0, [], [], [], [], NO_MEMBERS, 0, 0, 0, [])

  function Start(sessions: nat, rooms: nat, workers: nat): State
    requires workers > 0
  {
    State(
      Pool(seq(sessions, _ => Slot(0, 0, false, false, 0, 0)), Down(sessions)),
      Book(seq(rooms, _ => IDLE_ROOM), Down(rooms), [], seq(workers, _ => 0), seq(workers, _ => [])),
      seq(sessions, _ => Closed), Unlocked, seq(workers, _ => Worker([], Idle)),
      seq(sessions, _ => Away), seq(rooms, _ => EMPTY_ROW), seq(rooms, _ => InFree), seq(sessions, _ => []))
  }

  ghost predicate IsRun(states: seq<State>, actions: seq<Action>) {
    && |states| == |actions| + 1
    && (forall k :: 0 <= k < |states| ==> Shape(states[k]))
    && (forall k :: 0 <= k < |actions| ==>
          Enabled(states[k], actions[k]) && states[k + 1] == Apply(states[k], actions[k]))
  }

  lemma StepKeeps(st: State, a: Action)
    requires Inv(st) && Enabled(st, a)
    ensures Inv(Apply(st, a))
  {
    hide Inv;
    match a
    case AAccept => AcceptKeeps(st);
    case AAcceptFail => AcceptFailKeeps(st);
    case AJoinLock(s) => JoinLockKeeps(st, s);
    case AJoinPrune(s) => JoinPruneKeeps(st, s);
    case AJoinReserve(s) => JoinReserveKeeps(st, s);
    case AJoinFail(s) => JoinFailKeeps(st, s);
    case AJoinAlloc(s) => JoinAllocKeeps(st, s);
    case AJoinFresh(s) => JoinFreshKeeps(st, s);
    case AJoinRef(s) => JoinRefKeeps(st, s);
    case AJoinPush(s) => JoinPushKeeps(st, s);
    case AJoinDone(s) => JoinDoneKeeps(st, s);
    case ADie(s) => DieKeeps(st, s);
    case ALeaveLoad(s) => LeaveLoadKeeps(st, s);
    case ALeavePush(s) => LeavePushKeeps(st, s);
    case AHangUp(s) => HangUpKeeps(st, s);
    case AInputLoad(s, c) => InputLoadKeeps(st, s, c);
    case AInputPush(s) => InputPushKeeps(st, s);
    case ABegin(w) => BeginKeeps(st, w);
    case AEnd(w) => EndKeeps(st, w);
    case ATake(w) => TakeKeeps(st, w);
    case AJoinOne(w) => JoinOneKeeps(st, w);
    case ALeaveOne(w) => LeaveOneKeeps(st, w);
    case AReturn(w) => ReturnKeeps(st, w);
    case ACheck(w) => CheckKeeps(st, w);
    case AFree(w) => FreeKeeps(st, w);
    case ATick(w) => TickKeeps(st, w);
    case AStay(w) => StayKeeps(st, w);
    case AMove(w) => MoveKeeps(st, w);
  }

  lemma DownContains(n: nat, x: nat)
    requires x < n
    ensures x in Down(n)
  {
    assert Down(n)[n - 1 - x] == x;
  }

  lemma StartLedger(sessions: nat, rooms: nat, workers: nat)
    requires workers > 0
    ensures var st := Start(sessions, rooms, workers);
      && SeatInv(st.book.rooms, st.seatBy, st.loc)
      && JoinInv(st.book.rooms, st.loc, st.pool.slots)
      && MemberInv(st.book.rooms, st.loc, st.pool.slots)
      && LeaveInv(st.book.rooms, st.pool.slots, st.conns)
  { }

  lemma StartOwners(sessions: nat, rooms: nat, workers: nat)
    requires workers > 0
    ensures var st := Start(sessions, rooms, workers);
      && FreeInv(st.book.free, st.home)
      && ListInv(st.book.mail, st.workers, st.home)
      && LoadInv(st.book.rooms, st.home, st.book.load)
      && OpenInv(st.book.open, st.home, st.book.rooms)
      && LifeInv(st.book.rooms, st.home, st.workers, st.conns, st.lock)
  {
    var st := Start(sessions, rooms, workers);
    forall r | 0 <= r < rooms ensures r in st.book.free { DownContains(rooms, r); }
    forall w | 0 <= w < workers ensures RoomsOf(st.book.rooms, st.home, w) == {} { }
  }

  lemma StartHolds(sessions: nat, rooms: nat, workers: nat)
    requires workers > 0
    ensures Inv(Start(sessions, rooms, workers))
  {
    hide SeatInv, JoinInv, MemberInv, FreeInv, ListInv, LoadInv, OpenInv, LifeInv, LeaveInv;
    var st := Start(sessions, rooms, workers);
    forall s | 0 <= s < sessions ensures s in st.pool.free { DownContains(sessions, s); }
    StartLedger(sessions, rooms, workers);
    StartOwners(sessions, rooms, workers);
  }

  /** Every reachable state satisfies the invariant, under every interleaving. */
  lemma {:induction false} RunHolds(states: seq<State>, actions: seq<Action>, k: nat)
    requires IsRun(states, actions) && Inv(states[0]) && k < |states|
    ensures Inv(states[k])
  {
    if k > 0 {
      RunHolds(states, actions, k - 1);
      StepKeeps(states[k - 1], actions[k - 1]);
    }
  }
}
