/** Positions and snapshots on the wire. */
module Wire {
  import opened Bytes
  import opened Framing
  import Bodies
  import Sim

  const SCALE: real := 32.0

  /** Rounded to the nearest 1/32; negative positions count as zero. */
  function QuantPos(v: real): int {
    ((if v < 0.0 then 0.0 else v) * SCALE + 0.5).Floor
  }

  function Dequant(q: int): real { q as real / SCALE }

  /** Rounding to the grid is exact on the grid, off by at most half a step anywhere else, monotone, and
      fits sixteen bits on the whole stage. */
  lemma QuantIsNearest(v: real, u: real, q: nat)
    ensures v >= 0.0 ==> Bodies.Abs(Dequant(QuantPos(v)) - v) <= 1.0 / 64.0
    ensures v < 0.0 ==> QuantPos(v) == 0
    ensures QuantPos(Dequant(q)) == q
    ensures u <= v ==> QuantPos(u) <= QuantPos(v)
    ensures 0.0 <= v <= Bodies.RIGHT ==> 0 <= QuantPos(v) < 65536
  { }

  // ---- Snapshots --------------------------------------------------------------------------

  const S2C_SNAPSHOT: nat := 102
  const SNAP_SIZE: nat := 165
  const EMPTY_SLOT: nat := 255

  datatype SnapActor = SnapActor(id: nat, kind: nat, state: nat, face: int, qx: nat, qy: nat, hp: int)

  datatype Snapshot = Snapshot(tick: nat, count: nat, lastSeq: seq<nat>, actors: seq<SnapActor>)

  predicate ActorFits(a: SnapActor) {
    && a.id < 256 && a.kind < 256 && a.state < 256 && -128 <= a.face < 128
    && a.qx < 65536 && a.qy < 65536 && -32768 <= a.hp < 32768
  }

  predicate Fits(s: Snapshot) {
    && s.tick < 0x1_0000_0000 && s.count < 256
    && |s.lastSeq| == Sim.PLAYERS && (forall i :: 0 <= i < |s.lastSeq| ==> s.lastSeq[i] < 0x1_0000_0000)
    && |s.actors| == Sim.SLOTS && (forall i :: 0 <= i < |s.actors| ==> ActorFits(s.actors[i]))
  }

  /** Two's complement in `m` values. */
  function Wrapped(v: int, m: nat): (n: nat)
    requires m > 0 && -(m as int) <= 2 * v < m
    ensures n < m
  {
    if v < 0 then v + m else v
  }

  function Unwrapped(n: nat, m: nat): int
    requires n < m
  {
    if 2 * n < m then n else n - m
  }

  function PutActor(a: SnapActor): (b: seq<Byte>)
    requires ActorFits(a)
    ensures |b| == 10
  {
    [a.id as Byte, a.kind as Byte, a.state as Byte, Wrapped(a.face, 256) as Byte]
    + Le(a.qx, 2) + Le(a.qy, 2) + Le(Wrapped(a.hp, 65536), 2)
  }

  function GetActor(b: seq<Byte>): SnapActor
    requires |b| == 10
  {
    FromLeBound(b[4..6]);
    FromLeBound(b[6..8]);
    Small(b[8..10]);
    SnapActor(b[0] as nat, b[1] as nat, b[2] as nat, Unwrapped(b[3] as nat, 256),
              FromLe(b[4..6]), FromLe(b[6..8]), Unwrapped(FromLe(b[8..10]), 65536))
  }

  lemma Small(b: seq<Byte>)
    requires |b| == 2
    ensures FromLe(b) < 65536
  {
    FromLeBound(b);
    assert Pow256(2) == 65536;
  }

  lemma ActorRoundTrip(a: SnapActor)
    requires ActorFits(a)
    ensures GetActor(PutActor(a)) == a
  {
    assert Pow256(2) == 65536;
    FromLeOfLe(a.qx, 2);
    FromLeOfLe(a.qy, 2);
    FromLeOfLe(Wrapped(a.hp, 65536), 2);
    var b := PutActor(a);
    assert b[4..6] == Le(a.qx, 2) && b[6..8] == Le(a.qy, 2) && b[8..10] == Le(Wrapped(a.hp, 65536), 2);
  }

  function PutActors(actors: seq<SnapActor>): (b: seq<Byte>)
    requires forall i :: 0 <= i < |actors| ==> ActorFits(actors[i])
    ensures |b| == 10 * |actors|
  {
    if actors == [] then [] else PutActor(actors[0]) + PutActors(actors[1..])
  }

  function GetActors(b: seq<Byte>, n: nat): (actors: seq<SnapActor>)
    requires |b| == 10 * n
    ensures |actors| == n
    decreases n
  {
    if n == 0 then [] else [GetActor(b[..10])] + GetActors(b[10..], n - 1)
  }

  lemma {:induction false} ActorsRoundTrip(actors: seq<SnapActor>)
    requires forall i :: 0 <= i < |actors| ==> ActorFits(actors[i])
    ensures GetActors(PutActors(actors), |actors|) == actors
  {
    if actors != [] {
      hide PutActor, GetActor, ActorFits;
      ActorRoundTrip(actors[0]);
      ActorsRoundTrip(actors[1..]);
      var b := PutActors(actors);
      assert b[..10] == PutActor(actors[0]) && b[10..] == PutActors(actors[1..]);
    }
  }

  function PutSeqs(s: seq<nat>): (b: seq<Byte>)
    ensures |b| == 4 * |s|
  {
    if s == [] then [] else Le(s[0], 4) + PutSeqs(s[1..])
  }

  function GetSeqs(b: seq<Byte>, n: nat): (s: seq<nat>)
    requires |b| == 4 * n
    ensures |s| == n
    decreases n
  {
    if n == 0 then [] else [FromLe(b[..4])] + GetSeqs(b[4..], n - 1)
  }

  lemma {:induction false} SeqsRoundTrip(s: seq<nat>)
    requires forall i :: 0 <= i < |s| ==> s[i] < Pow256(4)
    ensures GetSeqs(PutSeqs(s), |s|) == s
  {
    if s != [] {
      hide Pow256;
      FromLeOfLe(s[0], 4);
      SeqsRoundTrip(s[1..]);
      var b := PutSeqs(s);
      assert b[..4] == Le(s[0], 4) && b[4..] == PutSeqs(s[1..]);
    }
  }

  /** The message the server serialises once per room. */
  function Encode(s: Snapshot): (b: seq<Byte>)
    requires Fits(s)
    ensures |b| == SNAP_SIZE
  {
    Put16(SNAP_SIZE) + Put16(S2C_SNAPSHOT) + Le(s.tick, 4) + [s.count as Byte]
    + PutSeqs(s.lastSeq) + PutActors(s.actors)
  }

  /** What the page reads back. */
  function Decode(b: seq<Byte>): Snapshot
    requires |b| == SNAP_SIZE
  {
    Snapshot(FromLe(b[4..8]), b[8] as nat, GetSeqs(b[9..25], Sim.PLAYERS), GetActors(b[25..], Sim.SLOTS))
  }

  lemma SnapshotRoundTrip(s: Snapshot)
    requires Fits(s)
    ensures var b := Encode(s);
      Decode(b) == s && Framed(SERVER_MAX, b) && TypeAt(b) == S2C_SNAPSHOT && DummyOk(b)
  {
    hide GetActors, PutActors, GetSeqs, PutSeqs, ActorFits;
    FourBytes();
    FromLeOfLe(s.tick, 4);
    SeqsRoundTrip(s.lastSeq);
    ActorsRoundTrip(s.actors);
    var b := Encode(s);
    assert b[4..8] == Le(s.tick, 4) && b[9..25] == PutSeqs(s.lastSeq) && b[25..] == PutActors(s.actors);
  }

  lemma FourBytes()
    ensures Pow256(4) == 0x1_0000_0000
  {
    assert Pow256(4) == 256 * (256 * Pow256(2));
  }

  lemma ActorBack(b: seq<Byte>)
    requires |b| == 10
    ensures ActorFits(GetActor(b)) && PutActor(GetActor(b)) == b
  {
    Small(b[4..6]);
    Small(b[6..8]);
    Small(b[8..10]);
    LeOfFromLe(b[4..6]);
    LeOfFromLe(b[6..8]);
    LeOfFromLe(b[8..10]);
    hide FromLe, Le;
    var a := GetActor(b);
    assert Wrapped(a.hp, 65536) == FromLe(b[8..10]) && Wrapped(a.face, 256) == b[3] as nat;
    assert b == [b[0], b[1], b[2], b[3]] + b[4..6] + b[6..8] + b[8..10];
  }

  lemma {:induction false} ActorsBack(b: seq<Byte>, n: nat)
    requires |b| == 10 * n
    ensures forall i :: 0 <= i < n ==> ActorFits(GetActors(b, n)[i])
    ensures PutActors(GetActors(b, n)) == b
    decreases n
  {
    if n > 0 {
      hide PutActor, GetActor, ActorFits;
      ActorBack(b[..10]);
      ActorsBack(b[10..], n - 1);
      var actors, rest := GetActors(b, n), GetActors(b[10..], n - 1);
      assert forall i :: 0 < i < n ==> actors[i] == rest[i - 1];
      assert actors[1..] == rest && b[..10] + b[10..] == b;
    }
  }

  lemma {:induction false} SeqsBack(b: seq<Byte>, n: nat)
    requires |b| == 4 * n
    ensures forall i :: 0 <= i < n ==> GetSeqs(b, n)[i] < Pow256(4)
    ensures PutSeqs(GetSeqs(b, n)) == b
    decreases n
  {
    if n > 0 {
      hide Pow256;
      LeOfFromLe(b[..4]);
      FromLeBound(b[..4]);
      SeqsBack(b[4..], n - 1);
      var s, rest := GetSeqs(b, n), GetSeqs(b[4..], n - 1);
      assert forall i :: 0 < i < n ==> s[i] == rest[i - 1];
      assert s[1..] == rest && b[..4] + b[4..] == b;
    }
  }

  /** Every message with a snapshot's header is the encoding of what it decodes to: nothing on the wire is
      ignored and no two messages mean the same. */
  lemma DecodeLosesNothing(b: seq<Byte>)
    requires |b| == SNAP_SIZE && b[..4] == Put16(SNAP_SIZE) + Put16(S2C_SNAPSHOT)
    ensures Fits(Decode(b)) && Encode(Decode(b)) == b
  {
    hide GetActors, PutActors, GetSeqs, PutSeqs, ActorFits, FromLe, Le, Pow256;
    FourBytes();
    LeOfFromLe(b[4..8]);
    FromLeBound(b[4..8]);
    SeqsBack(b[9..25], Sim.PLAYERS);
    ActorsBack(b[25..], Sim.SLOTS);
    assert b == b[..4] + b[4..8] + [b[8]] + b[9..25] + b[25..];
  }

  lemma {:induction false} ActorsAt(actors: seq<SnapActor>, i: nat)
    requires (forall k :: 0 <= k < |actors| ==> ActorFits(actors[k])) && i < |actors|
    ensures PutActors(actors)[10 * i..10 * i + 10] == PutActor(actors[i])
  {
    hide PutActor, ActorFits;
    var b := PutActors(actors);
    assert b == PutActor(actors[0]) + PutActors(actors[1..]);
    if i > 0 {
      ActorsAt(actors[1..], i - 1);
      assert b[10 * i..10 * i + 10] == PutActors(actors[1..])[10 * (i - 1)..10 * (i - 1) + 10];
    }
  }

  lemma {:induction false} SeqsAt(s: seq<nat>, j: nat)
    requires j < |s|
    ensures PutSeqs(s)[4 * j..4 * j + 4] == Le(s[j], 4)
  {
    var b := PutSeqs(s);
    assert b == Le(s[0], 4) + PutSeqs(s[1..]);
    if j > 0 {
      SeqsAt(s[1..], j - 1);
      assert b[4 * j..4 * j + 4] == PutSeqs(s[1..])[4 * (j - 1)..4 * (j - 1) + 4];
    }
  }

  function Two(b: seq<Byte>, k: nat): int
    requires k + 2 <= |b|
  {
    b[k] as int + 256 * b[k + 1] as int
  }

  function Four(b: seq<Byte>, k: nat): int
    requires k + 4 <= |b|
  {
    Two(b, k) + 65536 * Two(b, k + 2)
  }

  lemma TwoIs(n: nat, b: seq<Byte>, k: nat)
    requires n < 65536 && k + 2 <= |b| && b[k..k + 2] == Le(n, 2)
    ensures Two(b, k) == n
  {
    assert Le(n, 2) == [(n % 256) as Byte] + ([(n / 256 % 256) as Byte] + Le(n / 256 / 256, 0));
    assert b[k] == b[k..k + 2][0] && b[k + 1] == b[k..k + 2][1];
  }

  lemma FourIs(n: nat, b: seq<Byte>, k: nat)
    requires n < 0x1_0000_0000 && k + 4 <= |b| && b[k..k + 4] == Le(n, 4)
    ensures Four(b, k) == n
  {
    var hi := n / 256 / 256;
    assert Le(n, 4) == [(n % 256) as Byte] + ([(n / 256 % 256) as Byte] + Le(hi, 2));
    assert b[k] == b[k..k + 4][0] && b[k + 1] == b[k..k + 4][1];
    assert b[k + 2..k + 4] == b[k..k + 4][2..] == Le(hi, 2);
    TwoIs(hi, b, k + 2);
  }

  /** Where everything lies, counted from the start of the message: what the page reads at fixed offsets. */
  lemma SnapshotLayout(s: Snapshot, i: nat, j: nat)
    requires Fits(s) && i < Sim.SLOTS && j < Sim.PLAYERS
    ensures var b, a, o := Encode(s), s.actors[i], 25 + 10 * i;
      && |b| == 165 && Two(b, 0) == 165 && Two(b, 2) == 102 && Four(b, 4) == s.tick && b[8] as int == s.count
      && Four(b, 9 + 4 * j) == s.lastSeq[j]
      && b[o] as int == a.id && b[o + 1] as int == a.kind && b[o + 2] as int == a.state
      && b[o + 3] as int == (if a.face < 0 then a.face + 256 else a.face)
      && Two(b, o + 4) == a.qx && Two(b, o + 6) == a.qy
      && Two(b, o + 8) == if a.hp < 0 then a.hp + 65536 else a.hp
  {
    hide PutActors, PutSeqs, Le;
    var b, a, o := Encode(s), s.actors[i], 25 + 10 * i;
    FourIs(s.tick, b, 4);
    SeqsAt(s.lastSeq, j);
    assert b[9..25] == PutSeqs(s.lastSeq);
    assert b[9 + 4 * j..9 + 4 * j + 4] == b[9..25][4 * j..4 * j + 4];
    FourIs(s.lastSeq[j], b, 9 + 4 * j);
    ActorsAt(s.actors, i);
    assert b[25..] == PutActors(s.actors);
    assert b[o..o + 10] == b[25..][10 * i..10 * i + 10];
    ActorLayout(a, b, o);
  }

  lemma ActorLayout(a: SnapActor, b: seq<Byte>, o: nat)
    requires ActorFits(a) && o + 10 <= |b| && b[o..o + 10] == PutActor(a)
    ensures b[o] as int == a.id && b[o + 1] as int == a.kind && b[o + 2] as int == a.state
    ensures b[o + 3] as int == (if a.face < 0 then a.face + 256 else a.face)
    ensures Two(b, o + 4) == a.qx && Two(b, o + 6) == a.qy
    ensures Two(b, o + 8) == if a.hp < 0 then a.hp + 65536 else a.hp
  {
    hide Le;
    var p := b[o..o + 10];
    assert forall k :: 0 <= k < 10 ==> p[k] == b[o + k];
    assert b[o + 4..o + 6] == p[4..6] && b[o + 6..o + 8] == p[6..8] && b[o + 8..o + 10] == p[8..10];
    TwoIs(a.qx, b, o + 4);
    TwoIs(a.qy, b, o + 6);
    TwoIs(Wrapped(a.hp, 65536), b, o + 8);
  }

  // ---- From the world to the page ---------------------------------------------------------

  /** An empty slot is shown as such, with nothing else filled in. */
  function Shown(a: Sim.Actor, id: nat): SnapActor {
    if !a.present then SnapActor(id, a.kind, EMPTY_SLOT, 0, 0, 0, 0)
    else
      var qx, qy := QuantPos(a.x), QuantPos(a.y);
      SnapActor(id, a.kind, a.state, a.face, if qx < 0 then 0 else qx, if qy < 0 then 0 else qy, a.hp)
  }

  function Snap(tick: nat, lastSeq: seq<nat>, w: seq<Sim.Actor>): Snapshot {
    Snapshot(tick, Sim.SLOTS, lastSeq, seq(|w|, i requires 0 <= i < |w| => Shown(w[i], i)))
  }

  /** Kinds, states, faces and hit points in the ranges the simulation uses. */
  predicate Plain(a: Sim.Actor) {
    a.kind < 2 && a.state < 6 && (a.face == 1 || a.face == -1) && -32768 <= a.hp < 32768
  }

  /** End to end: from any state with everybody on the stage, what the page decodes shows every actor's
      kind, exactly who is present, their state, facing and hit points, and each position to within 1/64. */
  lemma PageSeesWorld(tick: nat, lastSeq: seq<nat>, w: seq<Sim.Actor>, i: nat)
    requires tick < 0x1_0000_0000 && |w| == Sim.SLOTS && i < |w|
    requires |lastSeq| == Sim.PLAYERS && forall k :: 0 <= k < |lastSeq| ==> lastSeq[k] < 0x1_0000_0000
    requires forall k :: 0 <= k < |w| ==> Plain(w[k]) && (w[k].present ==> Bodies.OnStage(Sim.BodyOf(w[k])))
    ensures Fits(Snap(tick, lastSeq, w))
    ensures var s := Decode(Encode(Snap(tick, lastSeq, w)));
      && s.tick == tick && s.lastSeq == lastSeq && |s.actors| == Sim.SLOTS && s.actors[i].id == i
      && s.actors[i].kind == w[i].kind
      && (w[i].present <==> s.actors[i].state != EMPTY_SLOT)
      && (!w[i].present ==> s.actors[i] == SnapActor(i, w[i].kind, EMPTY_SLOT, 0, 0, 0, 0))
      && (w[i].present ==>
            && s.actors[i].state == w[i].state && s.actors[i].face == w[i].face && s.actors[i].hp == w[i].hp
            && Bodies.Abs(Dequant(s.actors[i].qx) - w[i].x) <= 1.0 / 64.0
            && Bodies.Abs(Dequant(s.actors[i].qy) - w[i].y) <= 1.0 / 64.0)
  {
    hide Encode, Decode;
    forall k | 0 <= k < |w| ensures ActorFits(Shown(w[k], k)) {
      QuantIsNearest(w[k].x, 0.0, 0);
      QuantIsNearest(w[k].y, 0.0, 0);
    }
    SnapshotRoundTrip(Snap(tick, lastSeq, w));
    QuantIsNearest(w[i].x, 0.0, 0);
    QuantIsNearest(w[i].y, 0.0, 0);
  }
}
