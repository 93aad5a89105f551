/** The dash cannot skip an enemy: at every tick of the dash a live enemy that started ahead and keeps
    within the sweep's depth has been hit or is beyond the tip of the blade. */
module Dash {
  import opened Bodies
  import opened Combat
  import opened CombatRuns

  /** How far an orc that is not hit can move from one sweep to the next, in a world of `n` actors. */
  function Drift(n: nat): real
    requires n > 0
  {
    E_SPEED_X * TICK_DT + HALF_D * (n - 1) as real
  }

  // ---- One tick of one orc ----------------------------------------------------------------

  lemma OrcStepShort(e: Actor, p: Actor)
    requires e.kind == Orc
    ensures Abs(OrcActs(e, p).x - e.x) <= E_SPEED_X * TICK_DT
  { }

  lemma {:induction false} SweepHitsOne(c: Actor, ts: seq<Actor>, fromX: real, j: nat)
    requires j < |ts| && DistinctIds(ts)
    requires ts[j].id !in c.hitIds && ts[j].id !in Sweep(c, ts, fromX).0.hitIds
    ensures !IsSlashed(c, ts[j], fromX) && Sweep(c, ts, fromX).1[j] == ts[j]
    decreases |ts|
  {
    hide Damaged;
    SweepGrows(c, ts, fromX);
    var c1 := if IsSlashed(c, ts[0], fromX) then c.(hitIds := c.hitIds + [ts[0].id]) else c;
    SweepGrows(c1, ts[1..], fromX);
    if j > 0 {
      assert ts[1..][j - 1] == ts[j] && ts[0].id != ts[j].id;
      assert DistinctIds(ts[1..]);
      SweepHitsOne(c1, ts[1..], fromX, j - 1);
    }
  }

  /** Sweeping only adds ids. */
  lemma {:induction false} SweepGrows(c: Actor, ts: seq<Actor>, fromX: real)
    ensures forall id :: id in c.hitIds ==> id in Sweep(c, ts, fromX).0.hitIds
    ensures Sweep(c, ts, fromX).0 == c.(hitIds := Sweep(c, ts, fromX).0.hitIds)
    decreases |ts|
  {
    if ts != [] {
      SweepGrows(if IsSlashed(c, ts[0], fromX) then c.(hitIds := c.hitIds + [ts[0].id]) else c, ts[1..], fromX);
    }
  }

  /** Orcs' turns leave other orcs, and the place and path of a player who stays in the dash, alone. */
  lemma {:induction false} OrcsLeave(ws: seq<Actor>, i: nat, orcs: set<nat>, j: nat)
    requires MidOk(ws, orcs) && 0 < i <= |ws| && 0 < j < |ws|
    ensures Progress(ws, i)[j].x == ws[j].x && Progress(ws, i)[j].y == ws[j].y
    ensures Progress(ws, i)[j].state == Dead ==> ws[j].state == Dead
    ensures Progress(ws, i)[0].state == Skill ==> Progress(ws, i)[0] == ws[0]
    decreases |ws| - i
  {
    hide MidOk;
    if i < |ws| {
      OrcLeaves(ws, i, orcs, j);
      AdvanceOk(ws, i, orcs);
      hide Advance;
      OrcsLeave(Advance(ws, i), i + 1, orcs, j);
    }
  }

  lemma OrcLeaves(ws: seq<Actor>, i: nat, orcs: set<nat>, j: nat)
    requires MidOk(ws, orcs) && 0 < i < |ws| && 0 < j < |ws|
    ensures Advance(ws, i)[j].x == ws[j].x && Advance(ws, i)[j].y == ws[j].y
    ensures Advance(ws, i)[j].state == Dead ==> ws[j].state == Dead
    ensures Advance(ws, i)[0].state == Skill ==> Advance(ws, i)[0] == ws[0]
  {
    assert ActorOk(ws[i], orcs) && ActorOk(ws[0], orcs);
  }

  // ---- One step of the dash ---------------------------------------------------------------

  /** The world at the moment of the sweep: everybody has moved, the caster has been carried along. */
  function AtSweep(ws: seq<Actor>, input: Input): (d: seq<Actor>)
    requires ws != []
    ensures |d| == |ws|
  {
    var d := Decided(ws, input);
    d[0 := Dashed(d[0].(stateTick := d[0].stateTick + 1))]
  }

  /** During a step the player's dash makes its sweep number `n`. */
  predicate DashTick(ws: seq<Actor>, input: Input, n: nat)
    requires ws != []
  {
    var p := Decided(ws, input)[0];
    p.state == Skill && p.stateTick + 1 == n <= BLINK_TICKS
  }

  /** The orc is within the sweep's depth at the moment of the sweep. */
  predicate InLane(ws: seq<Actor>, input: Input, j: nat)
    requires ws != [] && j < |ws|
  {
    Abs(AtSweep(ws, input)[j].y - AtSweep(ws, input)[0].y) <= SWEEP_DEPTH
  }

  /** By how much the orc is beyond the tip at the moment of the sweep. */
  function Beyond(ws: seq<Actor>, input: Input, j: nat): real
    requires ws != [] && j < |ws|
  {
    Ahead(AtSweep(ws, input)[0], AtSweep(ws, input)[j]) - SWEEP_RANGE
  }

  predicate SamePath(a: Actor, b: Actor) { a.dashFrom == b.dashFrom && a.dashTo == b.dashTo && a.face == b.face }

  /** The caster's own turn in the dash. */
  lemma SweepTurn(d: seq<Actor>, orcs: set<nat>, n: nat, j: nat)
    requires MidOk(d, orcs) && DistinctIds(d) && 0 < j < |d|
    requires d[0].state == Skill && d[0].stateTick + 1 == n <= BLINK_TICKS
    ensures var c, e := Dashed(d[0].(stateTick := n)), Advance(d, 0);
      && e[0].state == Skill && e[0].x == c.x && e[0].y == c.y && e[0].stateTick == n && SamePath(e[0], d[0])
      && (forall id :: id in d[0].hitIds ==> id in e[0].hitIds)
      && (d[j].id !in e[0].hitIds && d[j].state != Dead ==>
            e[j] == d[j] && !IsSlashed(c, d[j], d[0].x) && d[j].id !in c.hitIds)
  {
    assert ActorOk(d[0], orcs);
    var c := Dashed(d[0].(stateTick := n));
    SweepGrows(c, d, d[0].x);
    if d[j].id !in Sweep(c, d, d[0].x).0.hitIds { SweepHitsOne(c, d, d[0].x, j); }
  }

  /** Not slashed, alive, in depth and not behind the start of the sweep: beyond the tip. */
  lemma NotSlashedIsBeyond(c: Actor, t: Actor, fromX: real)
    requires !IsSlashed(c, t, fromX) && t.state != Dead && t.kind != c.kind && t.id !in c.hitIds
    requires Abs(t.y - c.y) <= SWEEP_DEPTH && (c.face == 1 || c.face == -1)
    requires (t.x - fromX) * c.face as real >= 0.0
    ensures Ahead(c, t) > SWEEP_RANGE
  { }

  lemma DashedX(a: Actor, v: real, r: real)
    requires v == a.dashTo - a.dashFrom && r == a.stateTick as real / BLINK_TICKS as real
    ensures Dashed(a).x == a.dashFrom + v * r
  { }

  lemma DashedOnStage(a: Actor)
    requires LEFT <= a.dashFrom <= RIGHT && LEFT <= a.dashTo <= RIGHT && a.stateTick <= BLINK_TICKS
    ensures LEFT <= Dashed(a).x <= RIGHT
  {
    var r := a.stateTick as real / BLINK_TICKS as real;
    assert 0.0 <= r <= 1.0;
    hide Dashed;
    var v := a.dashTo - a.dashFrom;
    DashedX(a, v, r);
    Between(a.dashFrom, v, r);
  }

  lemma Between(a: real, v: real, r: real)
    requires LEFT <= a <= RIGHT && LEFT <= a + v <= RIGHT && 0.0 <= r <= 1.0
    ensures LEFT <= a + v * r <= RIGHT
  {
    var m := Shrinks(v, r);
    Within(a, v, m);
  }

  lemma Within(a: real, v: real, m: real)
    requires LEFT <= a <= RIGHT && LEFT <= a + v <= RIGHT
    requires 0.0 <= m <= v || v <= m <= 0.0
    ensures LEFT <= a + m <= RIGHT
  { }

  lemma Shrinks(v: real, r: real) returns (m: real)
    requires 0.0 <= r <= 1.0
    ensures m == v * r && (0.0 <= m <= v || v <= m <= 0.0)
  {
    m := v * r;
    var s := 1.0 - r;
    Rest(v, r, s);
    if v >= 0.0 {
      Positive(v, r);
      Positive(v, s);
    } else {
      var u := 0.0 - v;
      Positive(u, r);
      Positive(u, s);
      Negated(v, r, u);
      Negated(v, s, u);
    }
  }

  lemma Positive(a: real, b: real)
    requires a >= 0.0 && b >= 0.0
    ensures a * b >= 0.0
  { }

  lemma Negated(v: real, r: real, u: real)
    requires u == 0.0 - v
    ensures u * r == 0.0 - v * r
  { }

  lemma Rest(v: real, r: real, s: real)
    requires s == 1.0 - r
    ensures v * s == v - v * r
  { }

  lemma ApartReach(f: seq<Actor>, j: nat)
    requires 0 < j < |f| && f[0].state == Skill && LEFT <= f[0].x <= RIGHT
    ensures var r := Apart(f);
      && r[0].x == f[0].x && r[0].state == f[0].state && r[0].face == f[0].face
      && r[0].stateTick == f[0].stateTick && r[0].hitIds == f[0].hitIds && SamePath(r[0], f[0])
      && r[j].state == f[j].state && r[j].id == f[j].id
      && (LEFT - HALF_D <= f[j].x <= RIGHT + HALF_D ==> Abs(r[j].x - f[j].x) <= HALF_D * (|f| - 1) as real)
  {
    var bs := BodiesOf(ACTOR, f);
    SeparateIgnoresHoles(bs);
    SeparateMoves(bs, j);
    assert HALF_D * (|f| - 1) as real >= HALF_D;
  }

  /** What one step of the dash does to the caster and to an orc that is not hit in it. */
  lemma DashStep(ws: seq<Actor>, input: Input, n: nat, j: nat)
    requires WorldOk(ws) && DashTick(ws, input, n) && 0 < j < |ws|
    requires StepActors(ws, input)[0].state == Skill
    ensures var d, r, c := Decided(ws, input), StepActors(ws, input), AtSweep(ws, input)[0];
      && r[0].x == c.x && r[0].stateTick == n && SamePath(r[0], d[0])
      && (forall id :: id in d[0].hitIds ==> id in r[0].hitIds)
      && (ws[j].id !in r[0].hitIds && r[j].state != Dead ==>
            && Abs(r[j].x - d[j].x) <= HALF_D * (|ws| - 1) as real
            && !IsSlashed(c, d[j], d[0].x) && d[j].state != Dead && d[j].id !in c.hitIds)
  {
    hide ActorOk, Dashed, IsSlashed, StepActors, Decided, Advance, Progress, Apart, OrcIds;
    var orcs := OrcIds(ws);
    var d := Decided(ws, input);
    DecidedOk(ws, input);
    NearStage(ws, input, j);
    PathOnStage(d[0], orcs, n);
    SweepTurn(d, orcs, n, j);
    AdvanceOk(d, 0, orcs);
    var e := Advance(d, 0);
    OrcsLeave(e, 1, orcs, j);
    ProgressOk(d, 0, orcs);
    StepSplits(ws, input);
    var f := Progress(e, 1);
    KeepsState(f);
    ApartReach(f, j);
  }

  /** A step is the choices, the player's own turn, the orcs' turns and the separation. */
  lemma StepSplits(ws: seq<Actor>, input: Input)
    requires ws != []
    ensures StepActors(ws, input) == Apart(Progress(Advance(Decided(ws, input), 0), 1))
    ensures Progress(Decided(ws, input), 0) == Progress(Advance(Decided(ws, input), 0), 1)
  {
    hide Advance, Decided, Apart;
  }

  lemma KeepsState(f: seq<Actor>)
    ensures forall k :: 0 <= k < |f| ==> Apart(f)[k].state == f[k].state && Apart(f)[k].id == f[k].id
  { }

  lemma NearStage(ws: seq<Actor>, input: Input, j: nat)
    requires WorldOk(ws) && 0 < j < |ws|
    ensures LEFT - HALF_D <= Decided(ws, input)[j].x <= RIGHT + HALF_D
  {
    OrcStepShort(ws[j], PlayerActs(ws[0], ws, input));
  }

  lemma PathOnStage(p: Actor, orcs: set<nat>, n: nat)
    requires ActorOk(p, orcs) && p.state == Skill && n <= BLINK_TICKS
    ensures LEFT <= Dashed(p.(stateTick := n)).x <= RIGHT
  {
    DashedOnStage(p.(stateTick := n));
  }

  /** A live orc ahead of where the caster starts the tick, within depth and not yet hit, is hit by the
      sweep or lies beyond the tip. */
  lemma SweepLeavesNothing(ws: seq<Actor>, input: Input, n: nat, j: nat)
    requires WorldOk(ws) && DashTick(ws, input, n) && 0 < j < |ws|
    requires StepActors(ws, input)[0].state == Skill && StepActors(ws, input)[j].state != Dead
    requires ws[j].id !in StepActors(ws, input)[0].hitIds
    requires Ahead(Decided(ws, input)[0], Decided(ws, input)[j]) >= 0.0 && InLane(ws, input, j)
    ensures Beyond(ws, input, j) > 0.0
  {
    hide StepActors, ActorOk, IsSlashed, Decided, OrcIds, Ahead, Dashed;
    DashStep(ws, input, n, j);
    DecidedOk(ws, input);
    var d := Decided(ws, input);
    AheadIs(d[0], d[j]);
    SameFace(d[0], n);
    FaceOk(d[0], OrcIds(ws));
    NotSlashedIsBeyond(AtSweep(ws, input)[0], d[j], d[0].x);
  }

  lemma AheadIs(c: Actor, t: Actor)
    ensures Ahead(c, t) == (t.x - c.x) * c.face as real
  { }

  lemma SameFace(p: Actor, n: nat)
    ensures var c := Dashed(p.(stateTick := n)); c == p.(stateTick := n, x := c.x)
  { }

  /** Between two sweeps an orc that is not hit moves by less than the reach of the blade. */
  lemma StillAhead(ws: seq<Actor>, input: Input, next: Input, n: nat, j: nat)
    requires WorldOk(ws) && |ws| <= 6 && DashTick(ws, input, n) && 0 < j < |ws|
    requires StepActors(ws, input)[0].state == Skill && StepActors(ws, input)[j].state != Dead
    requires ws[j].id !in StepActors(ws, input)[0].hitIds
    requires Beyond(ws, input, j) > 0.0
    ensures var d2 := Decided(StepActors(ws, input), next);
      Abs(d2[j].x - Decided(ws, input)[j].x) <= Drift(|ws|) < SWEEP_RANGE && Ahead(d2[0], d2[j]) > 3.0
  {
    hide ActorOk, IsSlashed, Dashed, StepActors, Decided, OrcIds, Ahead, Abs;
    DashStep(ws, input, n, j);
    StepOk(ws, input);
    var d, r := Decided(ws, input), StepActors(ws, input);
    var d2 := Decided(r, next);
    OrcChoice(r, next, j);
    DashingStands(r, next);
    FaceOk(r[0], OrcIds(r));
    SameFace(d[0], n);
    AbsSum(d[j].x, r[j].x, d2[j].x);
    assert HALF_D * (|ws| - 1) as real <= 45.0;
    AheadMoves(AtSweep(ws, input)[0], d[j], d2[0], d2[j]);
  }

  lemma OrcChoice(r: seq<Actor>, next: Input, j: nat)
    requires WorldOk(r) && 0 < j < |r|
    ensures Abs(Decided(r, next)[j].x - r[j].x) <= E_SPEED_X * TICK_DT
  {
    OrcStepShort(r[j], PlayerActs(r[0], r, next));
  }

  lemma DashingStands(r: seq<Actor>, next: Input)
    requires WorldOk(r) && r[0].state == Skill
    ensures var p := Decided(r, next)[0];
      p.x == r[0].x && p.face == r[0].face && p.hitIds == r[0].hitIds && p.state == Skill &&
      p.stateTick == r[0].stateTick
  { }

  lemma AheadMoves(c: Actor, t: Actor, c2: Actor, t2: Actor)
    requires c2.x == c.x && c2.face == c.face && (c.face == 1 || c.face == -1)
    ensures Ahead(c2, t2) >= Ahead(c, t) - Abs(t2.x - t.x)
  { }

  // ---- The whole dash ---------------------------------------------------------------------

  /** From sweep number `n` on the player stays in the dash and the orc within depth. */
  predicate KeepsDashing(ws: seq<Actor>, inputs: seq<Input>, n: nat, j: nat)
    requires ws != [] && j < |ws|
    decreases |inputs|
  {
    inputs == [] ||
    (DashTick(ws, inputs[0], n) && InLane(ws, inputs[0], j) && StepActors(ws, inputs[0])[0].state == Skill &&
     KeepsDashing(StepActors(ws, inputs[0]), inputs[1..], n + 1, j))
  }

  predicate Hit(ws: seq<Actor>, j: nat)
    requires ws != [] && j < |ws|
  {
    ws[j].state == Dead || ws[j].id in ws[0].hitIds
  }

  /** At every tick the orc has been hit or is beyond the tip. */
  predicate NeverSkipped(ws: seq<Actor>, inputs: seq<Input>, j: nat)
    requires ws != [] && j < |ws|
    decreases |inputs|
  {
    inputs == [] ||
    ((Hit(StepActors(ws, inputs[0]), j) || Beyond(ws, inputs[0], j) > 0.0) &&
     NeverSkipped(StepActors(ws, inputs[0]), inputs[1..], j))
  }

  lemma {:induction false} OnceHit(ws: seq<Actor>, inputs: seq<Input>, n: nat, j: nat)
    requires WorldOk(ws) && 0 < j < |ws| && KeepsDashing(ws, inputs, n, j)
    requires ws[0].state == Skill && Hit(ws, j)
    ensures NeverSkipped(ws, inputs, j)
    decreases |inputs|
  {
    hide WorldOk, StepActors, DashTick, InLane, Beyond;
    NotEmpty(ws);
    if inputs != [] {
      DashingStands(ws, inputs[0]);
      DashStep(ws, inputs[0], n, j);
      StepOk(ws, inputs[0]);
      OnceHit(StepActors(ws, inputs[0]), inputs[1..], n + 1, j);
    }
  }

  /** With the player and at most five orcs: an orc that is ahead when the dash starts, and within depth at
      every sweep, is at every tick of the dash hit already or beyond the tip. */
  lemma {:induction false} CannotTunnel(ws: seq<Actor>, inputs: seq<Input>, n: nat, j: nat)
    requires WorldOk(ws) && |ws| <= 6 && 0 < j < |ws| && KeepsDashing(ws, inputs, n, j)
    requires inputs != [] ==> Ahead(Decided(ws, inputs[0])[0], Decided(ws, inputs[0])[j]) >= 0.0
    ensures NeverSkipped(ws, inputs, j)
    decreases |inputs|
  {
    hide WorldOk, StepActors, DashTick, InLane, Beyond, Decided, Ahead;
    NotEmpty(ws);
    if inputs != [] {
      var r := StepActors(ws, inputs[0]);
      StepOk(ws, inputs[0]);
      if Hit(r, j) {
        OnceHit(r, inputs[1..], n + 1, j);
      } else {
        SweepLeavesNothing(ws, inputs[0], n, j);
        if |inputs| > 1 { StillAhead(ws, inputs[0], inputs[1], n, j); }
        CannotTunnel(r, inputs[1..], n + 1, j);
      }
    }
  }

  /** The tenth tick of the dash ends where the dash was aimed, whatever happened on the way. */
  lemma DashArrives(ws: seq<Actor>, input: Input, j: nat)
    requires WorldOk(ws) && DashTick(ws, input, BLINK_TICKS) && 0 < j < |ws|
    requires StepActors(ws, input)[0].state == Skill
    ensures StepActors(ws, input)[0].x == StepActors(ws, input)[0].dashTo
  {
    hide ActorOk, StepActors, Decided, IsSlashed;
    DashStep(ws, input, BLINK_TICKS, j);
  }
}
