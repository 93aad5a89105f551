/** When a departed member is certain to be found again: its leave entry waits in its own room.  Every
    action keeps this, room transfers included, except queueing the leave of a member in another
    room than the one it sits in. */
module Tracking {
  import opened Sessions
  import opened Inputs
  import opened Rooms
  import opened Lifetime
  import opened LifetimeInv
  import opened LifetimeDeltas
  import opened LifetimeSteps
  import opened LifetimeMove
  import opened LifetimeRuns

  predicate Gone(c: Conn) { c.Left? || c.Closed? }

  predicate Awaited(rooms: seq<Room>, l: Loc, s: nat, slot: Slot)
    requires l.Held? ==> l.room < |rooms|
  {
    IsSeated(l) ==> LeaveEntry(s, slot.gen) in Leaves(rooms[l.room])
  }

  /** A departed session still sits as a member, and its room holds no leave entry for it. */
  ghost predicate Leaked(st: State, s: nat)
    requires Shape(st)
  {
    && s < |st.conns| && Gone(st.conns[s]) && IsSeated(st.loc[s])
    && !Awaited(st.book.rooms, st.loc[s], s, st.pool.slots[s])
  }

  /** Every departed member's leave entry is in its room. */
  ghost predicate Tracked(st: State)
    requires Shape(st)
  {
    forall s :: 0 <= s < |st.conns| && Gone(st.conns[s]) ==>
      Awaited(st.book.rooms, st.loc[s], s, st.pool.slots[s])
  }

  /** A leave about to be queued in another room than the one its session sits in as a member. */
  predicate StalePush(st: State, a: Action)
    requires Shape(st)
  {
    && a.ALeavePush? && CanLeavePush(st, a.s)
    && IsSeated(st.loc[a.s]) && st.conns[a.s].room != st.loc[a.s].room
  }

  /** Room `r` has the session, in its current generation, as a member. */
  predicate HasMember(st: State, r: nat, s: nat)
    requires s < |st.pool.slots|
  {
    r < |st.book.rooms| &&
    exists i :: 0 <= i < |st.book.rooms[r].members| && st.book.rooms[r].members[i].used &&
      st.book.rooms[r].members[i].sess == s && st.book.rooms[r].members[i].gen == st.pool.slots[s].gen
  }

  /** In the server's own fields: the session is a member of some room other than the one loaded. */
  lemma StaleMeans(st: State, s: nat)
    requires Inv(st) && CanLeavePush(st, s)
    ensures StalePush(st, ALeavePush(s)) <==> exists r :: HasMember(st, r, s) && r != st.conns[s].room
  {
    hide BookShape, WorkerShape, SeatInv, JoinInv, RefInv, ConnInv, PartingInv, FreeInv, ListInv;
    hide LoadInv, OpenInv, LifeInv, LeaveInv;
    Sized(st);
    if StalePush(st, ALeavePush(s)) {
      var r, i := st.loc[s].room, st.loc[s].seat;
      assert st.book.rooms[r].members[i].used && st.book.rooms[r].members[i].sess == s;
      assert HasMember(st, r, s);
    }
  }

  // ---- What each action does to a departed member -----------------------------------------

  predicate SitsGone(st: State, s: nat)
    requires Shape(st)
  {
    s < |st.conns| && IsSeated(st.loc[s]) && Gone(st.conns[s])
  }

  predicate SameEntry(a: seq<LeaveEntry>, b: seq<LeaveEntry>, e: LeaveEntry) {
    e in a <==> e in b
  }

  /** An action that leaves a session's seat, departure and leave entry alone. */
  lemma SameLeak(st: State, t: State, s: nat)
    requires Shape(st) && Shape(t)
    requires |t.conns| == |st.conns| && |t.book.rooms| == |st.book.rooms|
    requires SitsGone(st, s) <==> SitsGone(t, s)
    requires SitsGone(t, s) ==> t.loc[s] == st.loc[s] && t.pool.slots[s].gen == st.pool.slots[s].gen
    requires SitsGone(t, s) ==>
      SameEntry(Leaves(st.book.rooms[st.loc[s].room]), Leaves(t.book.rooms[st.loc[s].room]),
                LeaveEntry(s, st.pool.slots[s].gen))
    ensures Leaked(t, s) <==> Leaked(st, s)
  { }

  lemma AcceptLeaks(st: State, s: nat)
    requires Inv(st) && CanAccept(st)
    ensures Leaked(Accept(st), s) <==> Leaked(st, s)
    ensures Leaked(AcceptFail(st), s) <==> Leaked(st, s)
  {
    hide BookShape, WorkerShape, ConnShape, SeatInv, JoinInv, MemberInv, ConnInv, PartingInv, FreeInv, ListInv;
    hide LoadInv, OpenInv, LifeInv, LeaveInv;
    assert st.pool.free[|st.pool.free| - 1] in st.pool.free;
    SameLeak(st, Accept(st), s);
    SameLeak(st, AcceptFail(st), s);
  }

  lemma LeaveLoadLeaks(st: State, s: nat, q: nat)
    requires Inv(st) && CanLeaveLoad(st, q)
    ensures Leaked(LeaveLoad(st, q), s) <==> Leaked(st, s)
  {
    hide BookShape, WorkerShape, SeatInv, JoinInv, MemberInv, RefInv, PartingInv, FreeInv, ListInv;
    hide LoadInv, OpenInv, LifeInv, LeaveInv;
    assert ConnOk(st.conns[q], st.pool.slots[q], st.loc[q]);
    SameLeak(st, LeaveLoad(st, q), s);
  }

  /** Nobody has queued a leave of this generation before its session does. */
  lemma NoEntryYet(st: State, s: nat)
    requires Inv(st) && s < |st.conns| && st.conns[s].Leaving?
    ensures forall r :: 0 <= r < |st.book.rooms| ==>
      LeaveEntry(s, st.pool.slots[s].gen) !in Leaves(st.book.rooms[r])
  {
    hide BookShape, WorkerShape, SeatInv, JoinInv, MemberInv, RefInv, ConnInv, PartingInv, FreeInv, ListInv;
    hide LoadInv, OpenInv, LifeInv;
    forall r | 0 <= r < |st.book.rooms|
      ensures LeaveEntry(s, st.pool.slots[s].gen) !in Leaves(st.book.rooms[r])
    {
      forall k | 0 <= k < |Leaves(st.book.rooms[r])|
        ensures Leaves(st.book.rooms[r])[k] != LeaveEntry(s, st.pool.slots[s].gen)
      {
        assert LeaveOk(Leaves(st.book.rooms[r])[k], st.pool.slots, st.conns);
      }
    }
  }

  /** Queueing a leave loses its own member exactly when the push is stale, and never another one. */
  lemma LeavePushLeaks(st: State, s: nat, q: nat)
    requires Inv(st) && CanLeavePush(st, q)
    ensures Leaked(LeavePush(st, q), s) <==> Leaked(st, s) || (s == q && StalePush(st, ALeavePush(q)))
  {
    hide BookShape, WorkerShape, SeatInv, JoinInv, MemberInv, RefInv, ConnInv, PartingInv, FreeInv, ListInv;
    hide LoadInv, OpenInv, LifeInv, LeaveInv;
    NoEntryYet(st, q);
    var t := LeavePush(st, q);
    var r := st.conns[q].room;
    assert Leaves(t.book.rooms[r]) == Leaves(st.book.rooms[r]) + [LeaveEntry(q, st.pool.slots[q].gen)];
    if s != q { SameLeak(st, t, s); }
  }

  lemma HangUpLeaks(st: State, s: nat, q: nat)
    requires Inv(st) && CanHangUp(st, q)
    ensures Leaked(HangUp(st, q), s) <==> Leaked(st, s)
  {
    hide BookShape, WorkerShape, ConnShape, SeatInv, JoinInv, MemberInv, ConnInv, PartingInv, FreeInv, ListInv;
    hide LoadInv, OpenInv, LifeInv, LeaveInv;
    SameLeak(st, HangUp(st, q), s);
  }

  lemma AllocLeaks(st: State, s: nat, q: nat)
    requires Inv(st) && CanJoinAlloc(st, q)
    ensures Leaked(JoinAlloc(st, q), s) <==> Leaked(st, s)
  {
    hide BookShape, WorkerShape, JoinInv, MemberInv, RefInv, ConnInv, PartingInv, SeatInv;
    hide ListInv, LoadInv, OpenInv, LeaveInv, LeastBusy;
    var t := JoinAlloc(st, q);
    var r := st.book.free[|st.book.free| - 1];
    assert r in st.book.free && st.home[r].InFree?;
    assert LifeOk(r, st.book.rooms[r], st.home[r], st.workers, st.conns, st.lock);
    VacantSeats(st.book.rooms, st.seatBy, st.loc, r);
    SameLeak(st, t, s);
  }

  lemma TakeLeaks(st: State, s: nat, w: nat)
    requires Inv(st) && CanTake(st, w)
    ensures Leaked(Take(st, w), s) <==> Leaked(st, s)
  {
    hide BookShape, ConnShape, SeatInv, JoinInv, MemberInv, RefInv, ConnInv, PartingInv, FreeInv, ListInv;
    hide LoadInv, OpenInv, LifeInv, LeaveInv;
    WorkerRoom(st, w);
    var r := RoomAt(st, w);
    assert Leaves(Take(st, w).book.rooms[r]) == Leaves(st.book.rooms[r]);
    SameLeak(st, Take(st, w), s);
  }

  /** A departed session is turned away, never seated. */
  lemma JoinOneLeaks(st: State, s: nat, w: nat)
    requires Inv(st) && CanJoinOne(st, w)
    ensures Leaked(JoinOne(st, w), s) <==> Leaked(st, s)
  {
    hide BookShape, ConnShape, SeatInv, JoinInv, MemberInv, RefInv, PartingInv, FreeInv, ListInv;
    hide LoadInv, OpenInv, LifeInv, LeaveInv;
    var e := st.book.rooms[RoomAt(st, w)].takenJ[0];
    JoinHead(st.book.rooms, st.seatBy, st.loc, st.pool.slots, RoomAt(st, w));
    assert ConnOk(st.conns[e.sess], st.pool.slots[e.sess], st.loc[e.sess]);
    SameLeak(st, JoinOne(st, w), s);
  }

  /** The entry that is worked off removes its member if that sits here; any other member's entry stays. */
  lemma LeaveOneLeaks(st: State, s: nat, w: nat)
    requires Inv(st) && CanLeaveOne(st, w)
    ensures Leaked(LeaveOne(st, w), s) <==> Leaked(st, s)
  {
    hide BookShape, ConnShape, SeatInv, JoinInv, RefInv, ConnInv, PartingInv, FreeInv, ListInv;
    hide LoadInv, OpenInv, LifeInv, LeaveInv;
    var t := LeaveOne(st, w);
    Sized(st);
    var r := RoomAt(st, w);
    var room := st.book.rooms[r];
    var e := room.takenL[0];
    assert Leaves(room) == [e] + Leaves(t.book.rooms[r]);
    var i := FindMember(room.members, e);
    if i < SEATS && e.sess == s {
      assert room.members[i].used && e.gen == st.pool.slots[s].gen;
      assert e in Leaves(room);
    } else {
      if SitsGone(st, s) && st.loc[s].room == r {
        var m := room.members[st.loc[s].seat];
        assert m.used && m.sess == s && m.gen == st.pool.slots[s].gen;
      }
      SameLeak(st, t, s);
    }
  }

  lemma ReturnLeaks(st: State, s: nat, w: nat)
    requires Inv(st) && CanReturn(st, w)
    ensures Leaked(Return(st, w), s) <==> Leaked(st, s)
  {
    hide BookShape, ConnShape, SeatInv, JoinInv, MemberInv, RefInv, ConnInv, FreeInv, ListInv;
    hide LoadInv, OpenInv, LifeInv, LeaveInv;
    SameLeak(st, Return(st, w), s);
  }

  /** A transfer takes the leave entries along with the members. */
  lemma MoveLeaks(st: State, s: nat, w: nat)
    requires Inv(st) && CanMove(st, w)
    ensures Leaked(Move(st, w), s) <==> Leaked(st, s)
  {
    hide BookShape, ConnShape, SeatInv, JoinInv, MemberInv, RefInv, ConnInv, PartingInv, FreeInv, ListInv;
    hide LoadInv, OpenInv, LifeInv, LeaveInv, MemberTags, JoinTags, Rehome;
    hide Move, Leaves, MovedLoc;
    var t := Move(st, w);
    MoveSetting(st, w);
    MoveIs(st, w);
    MoveSlots(st, w);
    var r, nr := RoomAt(st, w), Top(st.book.free);
    VacantSeats(st.book.rooms, st.seatBy, st.loc, nr);
    assert Leaves(t.book.rooms[nr]) == Leaves(st.book.rooms[r]);
  }

  predicate QuietAction(a: Action) {
    !a.ALeaveLoad? && !a.ALeavePush? && !a.AHangUp? && !a.AJoinAlloc? && !a.ATake? && !a.AJoinOne? &&
    !a.ALeaveOne? && !a.AReturn? && !a.AMove? && !a.AAccept? && !a.AAcceptFail?
  }

  lemma QuietLeaks(st: State, s: nat, a: Action)
    requires Inv(st) && Enabled(st, a) && QuietAction(a)
    ensures Shape(Apply(st, a)) && (Leaked(Apply(st, a), s) <==> Leaked(st, s))
  {
    hide BookShape, ConnShape, WorkerShape, SeatInv, JoinInv, MemberInv, RefInv, ConnInv, PartingInv;
    hide FreeInv, ListInv, LoadInv, OpenInv, LifeInv, LeaveInv, SwapRemove, TickMembers, FirstVacant;
    SameLeak(st, Apply(st, a), s);
  }

  /** A departed member is lost by a stale push of its own leave and by nothing else, and nothing finds it
      again. */
  lemma StepLeaks(st: State, a: Action, s: nat)
    requires Inv(st) && Enabled(st, a)
    ensures Inv(Apply(st, a))
    ensures Leaked(Apply(st, a), s) <==> Leaked(st, s) || (StalePush(st, a) && a.s == s)
  {
    hide Inv, Leaked, Shape, Enabled, Apply, StalePush;
    StepKeeps(st, a);
    if NetAction(a) { NetLeaks(st, a, s); } else { WorkerLeaks(st, a, s); }
  }

  lemma NetLeaks(st: State, a: Action, s: nat)
    requires Inv(st) && Enabled(st, a) && NetAction(a)
    ensures Leaked(Apply(st, a), s) <==> Leaked(st, s) || (StalePush(st, a) && a.s == s)
  {
    hide Inv, Leaked, Shape;
    match a
    case AAccept => AcceptLeaks(st, s);
    case AAcceptFail => AcceptLeaks(st, s);
    case ALeaveLoad(q) => LeaveLoadLeaks(st, s, q);
    case ALeavePush(q) => LeavePushLeaks(st, s, q);
    case AHangUp(q) => HangUpLeaks(st, s, q);
    case AJoinAlloc(q) => AllocLeaks(st, s, q);
    case _ => QuietLeaks(st, s, a);
  }

  lemma WorkerLeaks(st: State, a: Action, s: nat)
    requires Inv(st) && Enabled(st, a) && !NetAction(a)
    ensures Leaked(Apply(st, a), s) <==> Leaked(st, s)
    ensures !StalePush(st, a)
  {
    hide Inv, Leaked, Shape;
    match a
    case ATake(w) => TakeLeaks(st, s, w);
    case AJoinOne(w) => JoinOneLeaks(st, s, w);
    case ALeaveOne(w) => LeaveOneLeaks(st, s, w);
    case AReturn(w) => ReturnLeaks(st, s, w);
    case AMove(w) => MoveLeaks(st, s, w);
    case _ => QuietLeaks(st, s, a);
  }
}
