/** Who becomes a member and who stops being one when a worker goes over a room's queues. */
module Seating {
  import opened Sessions
  import opened Inputs
  import opened Rooms
  import opened Lifetime
  import opened LifetimeInv
  import opened LifetimeDeltas
  import opened LifetimeSteps
  import opened LifetimeRuns
  import opened InputRuns

  /** A join entry is turned away exactly when its session has hung up; otherwise the session sits on the
      seat it reserved, with no input yet, and nobody else's membership changes. */
  lemma JoinVerdict(st: State, w: nat)
    requires Inv(st) && CanJoinOne(st, w)
    ensures var r := RoomAt(st, w);
      var e, t := st.book.rooms[r].takenJ[0], JoinOne(st, w);
      && e.sess < |st.conns| && e.seat < SEATS
      && (Refused(st, e) <==> Hanging(st.conns[e.sess]) || st.conns[e.sess].Closed?)
      && (Refused(st, e) ==> t.book.rooms[r].members == st.book.rooms[r].members && !t.book.rooms[r].seatUsed[e.seat])
      && (!Refused(st, e) ==>
            && t.book.rooms[r].members == st.book.rooms[r].members[e.seat := t.book.rooms[r].members[e.seat]]
            && Sits(t, r, e.seat, e.sess) && !Sits(st, r, e.seat, e.sess)
            && var m := t.book.rooms[r].members[e.seat];
               && m.gen == st.pool.slots[e.sess].gen && m.queue == [] && m.applied == []
               && m.held == NEUTRAL && m.lastSeq == 0 && m.streak == 0)
  {
    hide BookShape, ConnShape, RefInv, PartingInv, FreeInv, ListInv, LoadInv, OpenInv, LifeInv, LeaveInv;
    var r := RoomAt(st, w);
    var e := st.book.rooms[r].takenJ[0];
    JoinHead(st.book.rooms, st.seatBy, st.loc, st.pool.slots, r);
    assert ConnOk(st.conns[e.sess], st.pool.slots[e.sess], st.loc[e.sess]);
    Sized(st);
  }

  /** A leave entry removes the member it names, session and generation, if the room has it, and no other. */
  lemma LeaveVerdict(st: State, w: nat)
    requires Inv(st) && CanLeaveOne(st, w)
    ensures var r := RoomAt(st, w);
      var e, was, now := st.book.rooms[r].takenL[0], st.book.rooms[r], LeaveOne(st, w).book.rooms[r];
      && |now.members| == |was.members| == SEATS
      && (forall i :: 0 <= i < SEATS ==>
            (now.members[i].used <==>
              was.members[i].used && !(was.members[i].sess == e.sess && was.members[i].gen == e.gen)))
      && (forall i :: 0 <= i < SEATS && now.members[i].used ==> now.members[i] == was.members[i])
      && (forall i :: 0 <= i < SEATS && now.members[i].used != was.members[i].used ==> !now.seatUsed[i])
  {
    hide BookShape, ConnShape, JoinInv, RefInv, ConnInv, PartingInv, FreeInv, ListInv, LoadInv, OpenInv, LifeInv;
    hide LeaveInv;
    Sized(st);
  }
}
