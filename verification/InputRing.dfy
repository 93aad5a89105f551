/** The per-player input ring as the server keeps it, eight slots with a head and a count, and the
    queue it stands for. */
module InputRing {
  import opened Inputs

  // ---- The queue over whole batches and runs ------------------------------------------------

  /** The newest eight of a queue. */
  function Newest(q: seq<Cmd>): seq<Cmd> {
    if |q| <= RING_DEPTH then q else q[|q| - RING_DEPTH..]
  }

  /** The commands of a batch that belong to the member on a seat. */
  function AcceptedBy(m: Member, seat: nat, batch: seq<Cmd>): seq<Cmd> {
    if batch == [] then []
    else
      (if batch[0].seat == seat && Accepts(m, batch[0]) then [batch[0]] else [])
      + AcceptedBy(m, seat, batch[1..])
  }

  lemma {:induction false} SameAccepted(a: Member, b: Member, seat: nat, batch: seq<Cmd>)
    requires SameTag(a, b)
    ensures AcceptedBy(a, seat, batch) == AcceptedBy(b, seat, batch)
  {
    if batch != [] { SameAccepted(a, b, seat, batch[1..]); }
  }

  lemma NewestAgain(q: seq<Cmd>, c: Cmd, rest: seq<Cmd>)
    requires |q| <= RING_DEPTH
    ensures Newest(DropOldest(q, c) + rest) == Newest(q + ([c] + rest))
  {
    assert q + ([c] + rest) == (q + [c]) + rest;
    if |q| == RING_DEPTH {
      var long := q + [c] + rest;
      assert DropOldest(q, c) + rest == long[1..];
      assert |long| > RING_DEPTH && Newest(long) == long[|long| - RING_DEPTH..];
      assert long[1..][|long| - 1 - RING_DEPTH..] == long[|long| - RING_DEPTH..];
    }
  }

  /** After a whole batch the ring holds the newest eight of what was queued and what was accepted,
      oldest first; nothing else about the member changes. */
  lemma {:induction false} RoutedQueue(ms: seq<Member>, batch: seq<Cmd>, i: nat)
    requires i < |ms| && |ms[i].queue| <= RING_DEPTH
    ensures RouteAll(ms, batch)[i] == ms[i].(queue := Newest(ms[i].queue + AcceptedBy(ms[i], i, batch)))
    decreases |batch|
  {
    if batch == [] {
      assert ms[i].queue + [] == ms[i].queue;
    } else {
      var next := RouteOne(ms, batch[0]);
      RoutedQueue(next, batch[1..], i);
      SameAccepted(ms[i], next[i], i, batch[1..]);
      var rest := AcceptedBy(ms[i], i, batch[1..]);
      if batch[0].seat == i && Accepts(ms[i], batch[0]) {
        NewestAgain(ms[i].queue, batch[0], rest);
      } else {
        assert next[i] == ms[i] && [] + rest == rest;
      }
    }
  }

  /** One tick of one seat: what was accepted is queued, then one command is consumed. */
  function TickSeat(m: Member, accepted: seq<Cmd>): Member {
    Consume(m.(queue := Newest(m.queue + accepted)))
  }

  /** A tick of the room is a tick of each seat with the commands meant for it. */
  lemma TickIsPerSeat(ms: seq<Member>, batch: seq<Cmd>, i: nat)
    requires i < |ms| && |ms[i].queue| <= RING_DEPTH
    ensures TickMembers(ms, batch)[i] == TickSeat(ms[i], AcceptedBy(ms[i], i, batch))
  {
    RoutedQueue(ms, batch, i);
  }

  function SeatRun(m: Member, batches: seq<seq<Cmd>>): Member
    decreases |batches|
  {
    if batches == [] then m else SeatRun(TickSeat(m, batches[0]), batches[1..])
  }

  function Routed(batches: seq<seq<Cmd>>): nat {
    if batches == [] then 0 else |batches[0]| + Routed(batches[1..])
  }

  /** Commands pushed out of a full ring during the run. */
  function Dropped(m: Member, batches: seq<seq<Cmd>>): nat
    decreases |batches|
  {
    if batches == [] then 0
    else
      (var n := |m.queue| + |batches[0]|; if n > RING_DEPTH then n - RING_DEPTH else 0)
      + Dropped(TickSeat(m, batches[0]), batches[1..])
  }

  /** Ticks at which the ring was not empty after routing. */
  function BusyTicks(m: Member, batches: seq<seq<Cmd>>): nat
    decreases |batches|
  {
    if batches == [] then 0
    else
      (if |m.queue| + |batches[0]| > 0 then 1 else 0) + BusyTicks(TickSeat(m, batches[0]), batches[1..])
  }

  /** Over any run every routed command is consumed, dropped or still queued, and exactly one is
      consumed at each tick with something in the ring. */
  lemma {:induction false} InputsConserved(m: Member, batches: seq<seq<Cmd>>)
    requires m.used && |m.queue| <= RING_DEPTH
    ensures var t := SeatRun(m, batches);
      && t.used && |t.queue| <= RING_DEPTH && |t.applied| >= |m.applied|
      && |m.queue| + Routed(batches) == (|t.applied| - |m.applied|) + Dropped(m, batches) + |t.queue|
      && |t.applied| - |m.applied| == BusyTicks(m, batches)
    decreases |batches|
  {
    if batches != [] { InputsConserved(TickSeat(m, batches[0]), batches[1..]); }
  }

  function Silence(n: nat): seq<seq<Cmd>> {
    if n == 0 then [] else [[]] + Silence(n - 1)
  }

  /** With nothing arriving, the last command is held as long as the streak is at most ten ticks and
      is neutral from the eleventh on; the sequence number shown does not move. */
  lemma {:induction false} HeldThenNeutral(m: Member, n: nat)
    requires m.used && m.queue == []
    ensures var t := SeatRun(m, Silence(n));
      && t.streak == m.streak + n && t.lastSeq == m.lastSeq && t.queue == [] && t.applied == m.applied
      && (if n == 0 || m.streak + n <= 10 then t.held == m.held
          else t.held.mx == 0 && t.held.my == 0 && t.held.attack == 0 && t.held.skill == 0
               && t.held == Neutralised(m.held) && t.held.seqNo == m.held.seqNo)
    decreases n
  {
    if n > 0 {
      assert m.queue + [] == [];
      assert Silence(n)[1..] == Silence(n - 1);
      HeldThenNeutral(TickSeat(m, []), n - 1);
    }
  }

  // ---- The ring ---------------------------------------------------------------------------

  /** Ring slot of the k-th queued command. */
  function Slot(head: nat, k: nat): (i: nat)
    requires head < RING_DEPTH && k <= RING_DEPTH
    ensures i == (head + k) % RING_DEPTH
  {
    if head + k < RING_DEPTH then head + k else head + k - RING_DEPTH
  }

  function NextSlot(head: nat): (i: nat)
    requires head < RING_DEPTH
    ensures i == (head + 1) % RING_DEPTH
  {
    if head + 1 < RING_DEPTH then head + 1 else 0
  }

  class PlayerInputs {
    const ring: array<Cmd>
    var used: bool
    var sess: nat
    var gen: nat
    var head: nat
    var count: nat
    var held: Cmd
    var lastSeq: nat
    var streak: nat
    ghost var applied: seq<Cmd>

    ghost predicate Valid()
      reads this, ring
    {
      ring.Length == RING_DEPTH && head < RING_DEPTH && count <= RING_DEPTH
    }

    ghost function Queue(): seq<Cmd>
      requires Valid()
      reads this, ring
    {
      seq(count, k requires 0 <= k < count && Valid() reads this, ring => ring[Slot(head, k)])
    }

    ghost function View(): Member
      requires Valid()
      reads this, ring
    {
      Member(used, sess, gen, Queue(), held, lastSeq, streak, applied)
    }

    constructor ()
      ensures Valid() && fresh(ring) && View() == VACANT
    {
      ring := new Cmd[RING_DEPTH](_ => NEUTRAL);
      used, sess, gen, head, count := false, 0, 0, 0, 0;
      held, lastSeq, streak, applied := NEUTRAL, 0, 0, [];
      new;
      assert Queue() == [];
    }

    /** Puts a session on the seat; the ring starts empty. */
    method Seat(s: nat, g: nat)
      requires Valid()
      modifies this
      ensures Valid() && View() == Seated(s, g)
    {
      used, sess, gen, head, count := true, s, g, 0, 0;
      held, lastSeq, streak, applied := NEUTRAL, 0, 0, [];
      assert Queue() == [];
    }

    method Push(c: Cmd)
      requires Valid()
      modifies this, ring
      ensures Valid() && View() == old(View()).(queue := DropOldest(old(Queue()), c))
    {
      ghost var q := Queue();
      if count == RING_DEPTH {
        head := NextSlot(head);
        count := count - 1;
        assert Queue() == q[1..];
      }
      ghost var kept := Queue();
      ring[Slot(head, count)] := c;
      count := count + 1;
      assert Queue() == kept + [c];
    }

    /** A command off the room's queue: kept if it names this seat's session, thrown away otherwise. */
    method Route(c: Cmd)
      requires Valid()
      modifies this, ring
      ensures Valid()
      ensures View() == if Accepts(old(View()), c) then old(View()).(queue := DropOldest(old(Queue()), c))
                        else old(View())
    {
      if used && sess == c.sess && gen == c.gen {
        Push(c);
      }
    }

    /** The input half of one tick. */
    method ConsumeOne()
      requires Valid()
      modifies this
      ensures Valid() && View() == Consume(old(View()))
    {
      if !used { return; }
      ghost var q := Queue();
      if count > 0 {
        held := ring[head];
        applied := applied + [held];
        head := NextSlot(head);
        count := count - 1;
        lastSeq := held.seqNo;
        streak := 0;
        assert Queue() == q[1..];
      } else {
        streak := streak + 1;
        if streak > HOLD_TICKS {
          held := held.(mx := 0, my := 0, attack := 0, skill := 0);
        }
        assert Queue() == q;
      }
    }
  }

  // ---- The four seats of a room -----------------------------------------------------------

  ghost predicate Apart(seats: seq<PlayerInputs>)
    reads seats, set s | s in seats :: s.ring
  {
    && (forall i :: 0 <= i < |seats| ==> seats[i].Valid())
    && (forall i, j :: 0 <= i < j < |seats| ==> seats[i] != seats[j] && seats[i].ring != seats[j].ring)
  }

  ghost function Views(seats: seq<PlayerInputs>): (v: seq<Member>)
    requires Apart(seats)
    reads seats, set s | s in seats :: s.ring
    ensures |v| == |seats|
  {
    seq(|seats|, i requires 0 <= i < |seats| && Apart(seats) reads seats, set s | s in seats :: s.ring =>
      seats[i].View())
  }

  method RouteInto(seats: seq<PlayerInputs>, c: Cmd)
    requires Apart(seats)
    modifies seats, set s | s in seats :: s.ring
    ensures Apart(seats) && Views(seats) == RouteOne(old(Views(seats)), c)
  {
    if c.seat < |seats| {
      seats[c.seat].Route(c);
    }
  }

  method ConsumeAt(seats: seq<PlayerInputs>, i: nat)
    requires Apart(seats) && i < |seats|
    modifies seats
    ensures Apart(seats) && Views(seats) == old(Views(seats))[i := Consume(old(Views(seats))[i])]
  {
    seats[i].ConsumeOne();
  }

  /** Routing the swapped-out room queue and consuming one command per seat. */
  method TickInputs(seats: seq<PlayerInputs>, batch: seq<Cmd>)
    requires Apart(seats)
    modifies seats, set s | s in seats :: s.ring
    ensures Apart(seats) && Views(seats) == TickMembers(old(Views(seats)), batch)
  {
    ghost var start := Views(seats);
    for n := 0 to |batch|
      invariant Apart(seats)
      invariant RouteAll(Views(seats), batch[n..]) == RouteAll(start, batch)
    {
      assert batch[n..][0] == batch[n] && batch[n..][1..] == batch[n + 1..];
      RouteInto(seats, batch[n]);
    }
    ghost var routed := Views(seats);
    assert batch[|batch|..] == [];
    for i := 0 to |seats|
      invariant Apart(seats)
      invariant forall k :: 0 <= k < |seats| ==> Views(seats)[k] == if k < i then Consume(routed[k]) else routed[k]
    {
      ConsumeAt(seats, i);
    }
  }
}
