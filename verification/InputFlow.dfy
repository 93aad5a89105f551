/** Inputs across queues, ticks, recycled rooms and room transfers: what drives an actor is an
    in-order selection of what that very session pushed. */
module InputFlow {
  import opened Sessions
  import opened Inputs
  import opened Rooms
  import opened Lifetime
  import opened LifetimeInv
  import opened LifetimeDeltas
  import opened LifetimeSteps
  import opened LifetimeMove
  import opened LifetimeRuns

  predicate FromHist(c: Cmd, hist: seq<seq<Cmd>>) {
    c.sess < |hist| && c.ord < |hist[c.sess]| && hist[c.sess][c.ord] == c
  }

  predicate Rising(q: seq<Cmd>) {
    forall j, k :: 0 <= j < k < |q| ==> q[j].ord < q[k].ord
  }

  /** Everything the member has applied and still queues: in push order, and its own; at most a ring full
      is queued. */
  predicate Line(m: Member, hist: seq<seq<Cmd>>) {
    && |m.queue| <= RING_DEPTH
    && Rising(m.applied + m.queue)
    && forall k :: 0 <= k < |m.applied + m.queue| ==>
         var c := (m.applied + m.queue)[k];
         c.sess == m.sess && c.gen == m.gen && FromHist(c, hist)
  }

  /** The input in force is the last one applied, and neutral after more than ten ticks without one. */
  predicate HeldOk(m: Member) {
    if m.applied == [] then m.held == NEUTRAL && m.lastSeq == 0
    else
      var last := m.applied[|m.applied| - 1];
      && m.held == (if m.streak <= HOLD_TICKS then last else Neutralised(last))
      && m.lastSeq == last.seqNo
  }

  predicate Names(c: Cmd, m: Member) { m.used && c.sess == m.sess && c.gen == m.gen }

  predicate Before(q: seq<Cmd>, c: Cmd) {
    forall k :: 0 <= k < |q| ==> q[k].ord < c.ord
  }

  predicate QueuedOk(c: Cmd, slots: seq<Slot>, hist: seq<seq<Cmd>>) {
    && c.sess < |slots| && c.gen <= slots[c.sess].gen
    && (c.gen == slots[c.sess].gen ==> slots[c.sess].refs > 0 && FromHist(c, hist))
  }

  predicate SameTagRises(q: seq<Cmd>, slots: seq<Slot>) {
    forall j, k :: 0 <= j < k < |q| && q[j].sess == q[k].sess && q[j].gen == q[k].gen &&
                   q[k].sess < |slots| && q[k].gen == slots[q[k].sess].gen
      ==> q[j].ord < q[k].ord
  }

  predicate RoomInputs(room: Room, slots: seq<Slot>, hist: seq<seq<Cmd>>) {
    && (forall k :: 0 <= k < |room.inQ| ==> QueuedOk(room.inQ[k], slots, hist))
    && SameTagRises(room.inQ, slots)
    && (forall i :: 0 <= i < |room.members| && room.members[i].used ==>
          Line(room.members[i], hist) && HeldOk(room.members[i]))
    && (forall i, k :: 0 <= i < |room.members| && 0 <= k < |room.inQ| && Names(room.inQ[k], room.members[i]) ==>
          Before(room.members[i].applied + room.members[i].queue, room.inQ[k]))
  }

  ghost predicate InputInv(rooms: seq<Room>, slots: seq<Slot>, hist: seq<seq<Cmd>>) {
    |hist| == |slots| && forall r :: 0 <= r < |rooms| ==> RoomInputs(rooms[r], slots, hist)
  }

  // ---- Actions that queue, apply and move nothing ------------------------------------------

  predicate Bare(m: Member) { m.applied == [] && m.queue == [] && m.held == NEUTRAL && m.lastSeq == 0 }

  /** A session that is held on to keeps its history as long as its generation stays. */
  predicate SlotKeeps(x: Slot, y: Slot, hx: seq<Cmd>, hy: seq<Cmd>) {
    y.gen >= x.gen && (y.gen == x.gen && x.refs > 0 ==> y.refs > 0 && hx == hy)
  }

  predicate SlotsKeep(slots: seq<Slot>, slots2: seq<Slot>, hist: seq<seq<Cmd>>, hist2: seq<seq<Cmd>>) {
    && |slots2| == |slots| == |hist| == |hist2|
    && forall s :: 0 <= s < |slots| ==> SlotKeeps(slots[s], slots2[s], hist[s], hist2[s])
  }

  predicate MemberHeld(m: Member, slots: seq<Slot>) {
    m.used ==> m.sess < |slots| && m.gen == slots[m.sess].gen && slots[m.sess].refs > 0
  }

  predicate RoomKeeps(a: Room, b: Room) {
    && |a.members| == |b.members|
    && (b.inQ == a.inQ || b.inQ == [])
    && forall i :: 0 <= i < |a.members| && b.members[i].used ==> b.members[i] == a.members[i] || Bare(b.members[i])
  }

  lemma LineFrame(m: Member, slots: seq<Slot>, slots2: seq<Slot>, hist: seq<seq<Cmd>>, hist2: seq<seq<Cmd>>)
    requires m.used && MemberHeld(m, slots) && MemberHeld(m, slots2) && SlotsKeep(slots, slots2, hist, hist2)
    requires Line(m, hist)
    ensures Line(m, hist2)
  {
    assert SlotKeeps(slots[m.sess], slots2[m.sess], hist[m.sess], hist2[m.sess]);
  }

  lemma RoomFrame(a: Room, b: Room, slots: seq<Slot>, slots2: seq<Slot>,
                  hist: seq<seq<Cmd>>, hist2: seq<seq<Cmd>>)
    requires RoomInputs(a, slots, hist) && RoomKeeps(a, b) && SlotsKeep(slots, slots2, hist, hist2)
    requires forall i :: 0 <= i < |a.members| ==> MemberHeld(a.members[i], slots) && MemberHeld(b.members[i], slots2)
    ensures RoomInputs(b, slots2, hist2)
  {
    forall k | 0 <= k < |b.inQ| ensures QueuedOk(b.inQ[k], slots2, hist2) {
      var c := b.inQ[k];
      assert QueuedOk(a.inQ[k], slots, hist);
      assert SlotKeeps(slots[c.sess], slots2[c.sess], hist[c.sess], hist2[c.sess]);
    }
    forall i | 0 <= i < |b.members| && b.members[i].used ensures Line(b.members[i], hist2) && HeldOk(b.members[i]) {
      if !Bare(b.members[i]) { LineFrame(a.members[i], slots, slots2, hist, hist2); }
    }
    assert SameTagRises(b.inQ, slots2) by {
      hide QueuedOk, Line, HeldOk, Before;
      forall j, k | 0 <= j < k < |b.inQ| && b.inQ[j].sess == b.inQ[k].sess && b.inQ[j].gen == b.inQ[k].gen &&
                    b.inQ[k].sess < |slots2| && b.inQ[k].gen == slots2[b.inQ[k].sess].gen
        ensures b.inQ[j].ord < b.inQ[k].ord
      {
        var c := b.inQ[k];
        SlotOf(a, slots, hist, k);
        assert SlotKeeps(slots[c.sess], slots2[c.sess], hist[c.sess], hist2[c.sess]);
      }
    }
  }

  lemma SlotOf(a: Room, slots: seq<Slot>, hist: seq<seq<Cmd>>, k: nat)
    requires RoomInputs(a, slots, hist) && k < |a.inQ|
    ensures a.inQ[k].sess < |slots| && a.inQ[k].gen <= slots[a.inQ[k].sess].gen
  { }

  // ---- Pushing ----------------------------------------------------------------------------

  lemma PushInRoom(room: Room, c: Cmd, slots: seq<Slot>, hist: seq<seq<Cmd>>)
    requires |hist| == |slots| && c.sess < |slots| && slots[c.sess].refs > 0
    requires c.gen == slots[c.sess].gen && c.ord == |hist[c.sess]|
    requires RoomInputs(room, slots, hist)
    ensures var h := hist[c.sess := hist[c.sess] + [c]];
      RoomInputs(room, slots, h) && RoomInputs(room.(inQ := room.inQ + [c]), slots, h)
  {
    var h := hist[c.sess := hist[c.sess] + [c]];
    assert forall x :: FromHist(x, hist) ==> FromHist(x, h);
    forall k | 0 <= k < |room.inQ| ensures QueuedOk(room.inQ[k], slots, h) { }
    forall i | 0 <= i < |room.members| && room.members[i].used ensures Line(room.members[i], h) {
      assert Line(room.members[i], hist);
    }
    assert RoomInputs(room, slots, h);
    var q := room.inQ + [c];
    forall k | 0 <= k < |q| ensures QueuedOk(q[k], slots, h) { }
    forall j, k | 0 <= j < k < |q| && q[j].sess == q[k].sess && q[j].gen == q[k].gen &&
                  q[k].sess < |slots| && q[k].gen == slots[q[k].sess].gen
      ensures q[j].ord < q[k].ord
    {
      assert QueuedOk(q[j], slots, hist);
    }
    forall i, k | 0 <= i < |room.members| && 0 <= k < |q| && Names(q[k], room.members[i])
      ensures Before(room.members[i].applied + room.members[i].queue, q[k])
    {
      assert Line(room.members[i], hist);
    }
  }

  // ---- Ticking ----------------------------------------------------------------------------

  /** What routing needs of members and the rest of the batch. */
  predicate Routable(ms: seq<Member>, batch: seq<Cmd>, slots: seq<Slot>, hist: seq<seq<Cmd>>) {
    && (forall i :: 0 <= i < |ms| ==> MemberHeld(ms[i], slots))
    && (forall k :: 0 <= k < |batch| ==> QueuedOk(batch[k], slots, hist))
    && SameTagRises(batch, slots)
    && (forall i :: 0 <= i < |ms| && ms[i].used ==> Line(ms[i], hist) && HeldOk(ms[i]))
    && (forall i, k :: 0 <= i < |ms| && 0 <= k < |batch| && Names(batch[k], ms[i]) ==>
          Before(ms[i].applied + ms[i].queue, batch[k]))
  }

  lemma QueueOne(m: Member, c: Cmd, hist: seq<seq<Cmd>>)
    requires m.used && Line(m, hist) && Names(c, m) && FromHist(c, hist) && Before(m.applied + m.queue, c)
    ensures Line(m.(queue := DropOldest(m.queue, c)), hist)
  {
    hide FromHist;
    var q := m.applied + m.queue;
    var p := m.applied + DropOldest(m.queue, c);
    var n := |m.applied|;
    if |m.queue| == RING_DEPTH {
      var kept := q[..n] + q[n + 1..];
      assert forall k :: 0 <= k < |kept| ==> kept[k] == q[if k < n then k else k + 1];
      assert p == kept + [c];
    } else {
      assert p == q + [c];
    }
  }

  lemma QueuedBefore(m: Member, c: Cmd, d: Cmd)
    requires c.ord < d.ord && Before(m.applied + m.queue, d)
    ensures Before(m.applied + DropOldest(m.queue, c), d)
  {
    var q, p := m.applied + m.queue, m.applied + DropOldest(m.queue, c);
    forall k | 0 <= k < |p| ensures p[k].ord < d.ord {
      if k < |p| - 1 { assert p[k] == q[k] || (k + 1 < |q| && p[k] == q[k + 1]); }
    }
  }

  lemma RouteOneKeeps(ms: seq<Member>, batch: seq<Cmd>, slots: seq<Slot>, hist: seq<seq<Cmd>>)
    requires batch != [] && Routable(ms, batch, slots, hist)
    ensures Routable(RouteOne(ms, batch[0]), batch[1..], slots, hist)
  {
    var c, rest := batch[0], batch[1..];
    var t := RouteOne(ms, c);
    hide QueuedOk, Line, HeldOk, Before;
    assert forall k :: 0 <= k < |rest| ==> rest[k] == batch[k + 1];
    assert SameTagRises(rest, slots);
    if c.seat < |ms| && Accepts(ms[c.seat], c) {
      var m := ms[c.seat];
      OwnCmd(c, m, slots, hist);
      QueueOne(m, c, hist);
      HeldKept(m, DropOldest(m.queue, c));
      forall i, k | 0 <= i < |t| && 0 <= k < |rest| && Names(rest[k], t[i])
        ensures Before(t[i].applied + t[i].queue, rest[k])
      {
        assert Names(batch[k + 1], ms[i]);
        assert Before(ms[i].applied + ms[i].queue, batch[k + 1]);
        if i == c.seat { QueuedBefore(m, c, rest[k]); }
      }
    }
  }

  lemma HeldKept(m: Member, q: seq<Cmd>)
    requires HeldOk(m)
    ensures HeldOk(m.(queue := q))
  { }

  lemma OwnCmd(c: Cmd, m: Member, slots: seq<Slot>, hist: seq<seq<Cmd>>)
    requires QueuedOk(c, slots, hist) && MemberHeld(m, slots) && Accepts(m, c)
    ensures FromHist(c, hist)
  { }

  lemma {:induction false} RouteAllKeeps(ms: seq<Member>, batch: seq<Cmd>, slots: seq<Slot>, hist: seq<seq<Cmd>>)
    requires Routable(ms, batch, slots, hist)
    ensures Routable(RouteAll(ms, batch), [], slots, hist)
    decreases |batch|
  {
    hide Routable;
    if batch != [] {
      RouteOneKeeps(ms, batch, slots, hist);
      RouteAllKeeps(RouteOne(ms, batch[0]), batch[1..], slots, hist);
    } else {
      assert batch == [];
    }
  }

  lemma ConsumeKeeps(m: Member, hist: seq<seq<Cmd>>)
    requires m.used && Line(m, hist) && HeldOk(m)
    ensures Line(Consume(m), hist) && HeldOk(Consume(m))
  {
    if m.queue != [] {
      assert m.applied + [m.queue[0]] + m.queue[1..] == m.applied + m.queue;
    }
  }

  lemma TickRoom(room: Room, slots: seq<Slot>, hist: seq<seq<Cmd>>)
    requires RoomInputs(room, slots, hist)
    requires forall i :: 0 <= i < |room.members| ==> MemberHeld(room.members[i], slots)
    ensures RoomInputs(room.(members := TickMembers(room.members, room.inQ), inQ := []), slots, hist)
  {
    hide QueuedOk, Line, HeldOk, Before;
    assert Routable(room.members, room.inQ, slots, hist);
    RouteAllKeeps(room.members, room.inQ, slots, hist);
    var routed := RouteAll(room.members, room.inQ);
    forall i | 0 <= i < |routed| && routed[i].used
      ensures Line(Consume(routed[i]), hist) && HeldOk(Consume(routed[i]))
    {
      ConsumeKeeps(routed[i], hist);
    }
  }
}
