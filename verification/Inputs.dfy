/** Per-player input queue: at most eight commands, oldest dropped first, one consumed per tick. */
module Inputs {

  /** An input command.  `ord` is its position in the history of what the session pushed; it is
      carried along for the proofs and never looked at by the server. */
  datatype Cmd = Cmd(sess: nat, gen: nat, seat: nat, seqNo: nat,
                     mx: int, my: int, attack: int, skill: int, ord: nat)

  const RING_DEPTH: nat := 8
  const HOLD_TICKS: nat := 10

  const NEUTRAL := Cmd(0, 0, 0, 0, 0, 0, 0, 0, 0)

  /** A seat's occupant.  `applied` records every command consumed so far, for the proofs only. */
  datatype Member = Member(used: bool, sess: nat, gen: nat, queue: seq<Cmd>, held: Cmd,
                           lastSeq: nat, streak: nat, applied: seq<Cmd>)

  const VACANT := Member(false, 0, 0, [], NEUTRAL, 0, 0, [])

  function Seated(sess: nat, gen: nat): Member {
    Member(true, sess, gen, [], NEUTRAL, 0, 0, [])
  }

  function DropOldest(q: seq<Cmd>, c: Cmd): seq<Cmd> {
    if |q| == RING_DEPTH then q[1..] + [c] else q + [c]
  }

  predicate Accepts(m: Member, c: Cmd) {
    m.used && m.sess == c.sess && m.gen == c.gen
  }

  predicate SameTag(a: Member, b: Member) {
    a.used == b.used && a.sess == b.sess && a.gen == b.gen
  }

  function RouteOne(ms: seq<Member>, c: Cmd): (r: seq<Member>)
    ensures |r| == |ms|
    ensures forall i :: 0 <= i < |ms| ==> SameTag(ms[i], r[i])
  {
    if c.seat < |ms| && Accepts(ms[c.seat], c) then
      ms[c.seat := ms[c.seat].(queue := DropOldest(ms[c.seat].queue, c))]
    else ms
  }

  function RouteAll(ms: seq<Member>, batch: seq<Cmd>): (r: seq<Member>)
    ensures |r| == |ms|
    ensures forall i :: 0 <= i < |ms| ==> SameTag(ms[i], r[i])
    decreases |batch|
  {
    if batch == [] then ms
    else
      var next := RouteOne(ms, batch[0]);
      assert forall i :: 0 <= i < |ms| ==> SameTag(ms[i], next[i]);
      RouteAll(next, batch[1..])
  }

  function Neutralised(c: Cmd): Cmd {
    c.(mx := 0, my := 0, attack := 0, skill := 0)
  }

  function Consume(m: Member): Member {
    if !m.used then m
    else if m.queue != [] then
      m.(held := m.queue[0], queue := m.queue[1..], lastSeq := m.queue[0].seqNo, streak := 0,
         applied := m.applied + [m.queue[0]])
    else if m.streak + 1 > HOLD_TICKS then
      m.(streak := m.streak + 1, held := Neutralised(m.held))
    else
      m.(streak := m.streak + 1)
  }

  function TickMembers(ms: seq<Member>, batch: seq<Cmd>): (r: seq<Member>)
    ensures |r| == |ms|
    ensures forall i :: 0 <= i < |ms| ==> SameTag(ms[i], r[i])
  {
    var routed := RouteAll(ms, batch);
    seq(|routed|, i requires 0 <= i < |routed| => Consume(routed[i]))
  }
}
