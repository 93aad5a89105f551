/** Where a blow lands and what it does, whom a dash slashes, where a walk goes, and when somebody acts. */
module Blows {
  import opened Bodies
  import opened Combat
  import opened CombatRuns
  import Sim

  // ---- Attacks ----------------------------------------------------------------------------

  function Reach(k: Kind): real { if k == Player then 64.0 else 52.0 }
  function ReachDepth(k: Kind): real { if k == Player then 26.0 else 22.0 }

  /** An enemy who can be hurt, from eight behind the hitter to his reach in front of him, close in depth. */
  predicate InFront(h: Actor, t: Actor) {
    && t.kind != h.kind && t.state != Dead && t.state != Hurt
    && -8.0 <= Ahead(h, t) <= Reach(h.kind)
    && -ReachDepth(h.kind) <= t.y - h.y <= ReachDepth(h.kind)
  }

  predicate Facing(a: Actor) { a.face == 1 || a.face == -1 }

  /** A blow changes exactly those in front of the hitter. */
  lemma HitLands(h: Actor, ws: seq<Actor>, k: nat)
    requires k < |ws| && Facing(h)
    ensures ResolveHit(h, ws)[k] != ws[k] <==> InFront(h, ws[k])
    ensures InFront(h, ws[k]) ==> Suffers(h, ws[k], ResolveHit(h, ws)[k], 1, 12.0)
  { }

  /** He loses `dmg` hit points: none left and he dies where he stands, or he staggers, turned to the hitter
      and pushed away from him unless the stage ends. */
  predicate Suffers(h: Actor, t: Actor, q: Actor, dmg: int, push: real) {
    && q.id == t.id && q.kind == t.kind && q.maxHp == t.maxHp && q.y == t.y
    && (t.hp <= dmg ==> q.hp == 0 && q.state == Dead && q.x == t.x && q.face == t.face)
    && (t.hp > dmg ==>
          && q.hp == t.hp - dmg && q.state == Hurt && q.face == -h.face
          && (t.state != Hurt ==> q.stateTick == 0)
          && (q.x - t.x == push * h.face as real ||
              (h.face > 0 && q.x == RIGHT) || (h.face < 0 && q.x == LEFT) || !(LEFT <= t.x <= RIGHT)))
  }

  /** In a tick of an attack the others change exactly in its seventh, and then exactly those in front. */
  lemma AttackLands(ws: seq<Actor>, i: nat, orcs: set<nat>, k: nat)
    requires MidOk(ws, orcs) && i < |ws| && ws[i].state == Attack && k < |ws| && k != i
    ensures Advance(ws, i)[k] != ws[k] <==> ws[i].stateTick == 6 && InFront(ws[i], ws[k])
    ensures Advance(ws, i)[k] != ws[k] ==> Suffers(ws[i], ws[k], Advance(ws, i)[k], 1, 12.0)
  {
    assert ActorOk(ws[i], orcs);
    var a := ws[i].(stateTick := ws[i].stateTick + 1, hitDone := true);
    HitLands(a, ws, k);
    assert InFront(a, ws[k]) == InFront(ws[i], ws[k]);
  }

  // ---- The sweep of a dash ----------------------------------------------------------------

  /** An enemy not slashed before, between where the caster came from and fifty ahead of where he is. */
  predicate InSweep(c: Actor, t: Actor, fromX: real) {
    && t.kind != c.kind && t.state != Dead && t.id !in c.hitIds
    && -30.0 <= t.y - c.y <= 30.0
    && Ahead(c, t) <= 50.0 && (t.x - fromX) * c.face as real >= 0.0
  }

  lemma SlashedIs(c: Actor, t: Actor, fromX: real)
    requires Facing(c) && (c.x - fromX) * c.face as real >= -50.0
    ensures IsSlashed(c, t, fromX) <==> InSweep(c, t, fromX)
  {
    if c.face == 1 {
      assert Ahead(c, t) == t.x - c.x;
    } else {
      assert Ahead(c, t) == c.x - t.x;
    }
  }

  /** A sweep changes exactly those in its stretch, and adds exactly their ids. */
  lemma {:induction false} SweepLands(c: Actor, ts: seq<Actor>, fromX: real, k: nat)
    requires k < |ts| && DistinctIds(ts) && Facing(c) && (c.x - fromX) * c.face as real >= -50.0
    ensures var (d, rest) := Sweep(c, ts, fromX);
      && (rest[k] != ts[k] <==> InSweep(c, ts[k], fromX))
      && (InSweep(c, ts[k], fromX) ==> Suffers(c, ts[k], rest[k], 2, 20.0))
      && (ts[k].id in d.hitIds <==> ts[k].id in c.hitIds || InSweep(c, ts[k], fromX))
    decreases |ts|
  {
    hide IsSlashed;
    SlashedIs(c, ts[0], fromX);
    var c1 := if IsSlashed(c, ts[0], fromX) then c.(hitIds := c.hitIds + [ts[0].id]) else c;
    assert DistinctIds(ts[1..]);
    if k == 0 {
      NotAgain(c1, ts[1..], fromX, ts[0].id);
    } else {
      assert ts[1..][k - 1] == ts[k] && ts[0].id != ts[k].id;
      SweepLands(c1, ts[1..], fromX, k - 1);
    }
  }

  /** A sweep adds no id of somebody who is not there. */
  lemma {:induction false} NotAgain(c: Actor, ts: seq<Actor>, fromX: real, id: nat)
    requires forall k :: 0 <= k < |ts| ==> ts[k].id != id
    ensures id in Sweep(c, ts, fromX).0.hitIds <==> id in c.hitIds
    decreases |ts|
  {
    hide IsSlashed, Damaged;
    if ts != [] {
      NotAgain(if IsSlashed(c, ts[0], fromX) then c.(hitIds := c.hitIds + [ts[0].id]) else c, ts[1..], fromX, id);
    }
  }

  /** The dash covers a tenth of its path in each tick. */
  lemma DashEvenly(a: Actor, n: nat)
    requires n < BLINK_TICKS
    ensures Dashed(a.(stateTick := n + 1)).x - Dashed(a.(stateTick := n)).x == (a.dashTo - a.dashFrom) / 10.0
    ensures Dashed(a.(stateTick := 0)).x == a.dashFrom && Dashed(a.(stateTick := 10)).x == a.dashTo
  { }

  // ---- Walking ----------------------------------------------------------------------------

  /** One axis of a walk: against the key pressed on it and whether the other is pressed too. */
  predicate Pushed(was: real, now: real, key: int, other: int, straight: real) {
    && (key == 0 ==> now == was)
    && (key != 0 && other == 0 ==> now - was == key as real * straight)
    && (key != 0 && other != 0 ==> now - was == key as real * straight * 0.7071067811865476)
  }

  /** A free player who neither strikes nor dashes goes the way the keys say, at 215 and 132 a second, slowed
      on the diagonal, looking the way he goes. */
  lemma WalkGoes(p: Actor, input: Input)
    ensures var q := PlayerMoves(p, input);
      && Pushed(p.x, q.x, input.mx, input.my, 215.0 / 60.0) && Pushed(p.y, q.y, input.my, input.mx, 132.0 / 60.0)
      && q.face == (if input.mx > 0 then 1 else if input.mx < 0 then -1 else p.face)
      && q.state == (if input.mx == 0 && input.my == 0 then Idle else Walk)
      && q.hp == p.hp && q.cool == p.cool && q.skillCool == p.skillCool
  { }

  function Standing(n: nat): State { if n == Sim.IDLE then Idle else Walk }

  /** The server moves a player as the browser logic does: same place, same facing, standing or walking. */
  lemma WalkMirrorsServer(a: Sim.Actor, p: Actor, input: Sim.Input, keys: Input)
    requires a.present && p.x == a.x && p.y == a.y && p.face == a.face
    requires keys.mx == input.mx && keys.my == input.my
    ensures var b, q := Sim.MovePlayer(a, input), PlayerMoves(p, keys);
      q.x == b.x && q.y == b.y && q.face == b.face && q.state == Standing(b.state)
  { }

  /** Two keys at once are as fast as one: the two parts, each in its own scale, have length one. */
  lemma DiagonalIsNotFaster()
    ensures Abs(DIAGONAL * DIAGONAL + DIAGONAL * DIAGONAL - 1.0) <= 0.000000000000001
  { }

  /** When the player does what: a dash before an attack before walking, each only when free to act, and the
      two first only once their waiting time has run down. */
  lemma PlayerChooses(p: Actor, ts: seq<Actor>, input: Input)
    ensures var q := PlayerActs(p, ts, input);
      var free := p.state == Idle || p.state == Walk;
      var dash := free && input.skill && p.skillCool <= 1;
      var strike := free && !dash && input.attack && p.cool <= 1;
      && (p.state == Dead ==> q == p)
      && (free ==> (q.state == Skill <==> dash) && (q.state == Attack <==> strike))
      && (dash ==> q.stateTick == 0 && q.hitIds == [] && q.lastSkillHit == 0 && q.x == p.x && q.y == p.y &&
                   q.face == p.face && q.dashFrom == p.x && q.cool == 24)
      && (strike ==> q.stateTick == 0 && !q.hitDone && q.x == p.x && q.y == p.y && q.face == p.face && q.cool == 22)
      && (free && !dash && !strike ==>
            q == PlayerMoves(p.(cool := q.cool, skillCool := q.skillCool), input))
      && (!free ==> q.state == p.state && q.stateTick == p.stateTick && q.x == p.x && q.y == p.y && q.face == p.face)
      && (p.state != Dead && !dash && !strike ==> q.cool == Less1(p.cool) && q.skillCool == Less1(p.skillCool))
  { }

  /** An orc within reach turns to the player and strikes as soon as its waiting times have run down; out of
      reach it walks at him, on the axes it is not near on yet, at 98 and 62 a second, slowed on the diagonal
      and looking the way it goes: it comes nearer and never passes him. */
  lemma OrcChooses(e: Actor, p: Actor)
    requires e.kind == Orc && (e.state == Idle || e.state == Walk) && p.state != Dead
    ensures var q := OrcActs(e, p);
      var near := Abs(p.x - e.x) <= 52.0 && Abs(p.y - e.y) <= 22.0;
      && (q.state == Attack <==> near && e.cool <= 1 && e.think <= 1)
      && (near ==> q.x == e.x && q.y == e.y && q.face == (if p.x >= e.x then 1 else -1))
      && (!near ==>
            && Abs(p.x - q.x) <= Abs(p.x - e.x) && Abs(p.y - q.y) <= Abs(p.y - e.y)
            && (Abs(p.x - q.x) < Abs(p.x - e.x) || Abs(p.y - q.y) < Abs(p.y - e.y))
            && var mx := if Abs(p.x - e.x) <= 40.0 then 0 else if p.x > e.x then 1 else -1;
               var my := if Abs(p.y - e.y) <= 6.0 then 0 else if p.y > e.y then 1 else -1;
               && Pushed(e.x, q.x, mx, my, 98.0 / 60.0) && Pushed(e.y, q.y, my, mx, 62.0 / 60.0)
               && q.face == (if mx == 0 then e.face else mx) && q.state == Walk)
      && (q.state == Attack ==> q.stateTick == 0 && !q.hitDone && q.cool == 22 && q.think == 70)
      && (q.state != Attack ==> q.cool == Less1(e.cool) && q.think == Less1(e.think))
  { }

  /** An orc that staggers, strikes or is dead goes nowhere, and with the player dead every orc stands. */
  lemma OrcRests(e: Actor, p: Actor)
    requires e.kind == Orc && (!CanAct(e) || p.state == Dead)
    ensures var q := OrcActs(e, p);
      && q.x == e.x && q.y == e.y && q.face == e.face && q.hp == e.hp
      && (if CanAct(e) then q.state == Idle else q.state == e.state && q.stateTick == e.stateTick)
      && (e.state != Dead ==> q.cool == Less1(e.cool) && q.think == Less1(e.think))
  { }

  // ---- Keeping apart ----------------------------------------------------------------------

  predicate TakesPart(a: Actor) { a.state != Dead && a.state != Skill }

  /** The dead and the dashing stand where they are, within the stage; the others end where the pass over the
      list of them alone puts them; nothing but places changes. */
  lemma ApartMeans(ws: seq<Actor>, k: nat)
    requires k < |ws|
    ensures Apart(ws)[k] == ws[k].(x := Apart(ws)[k].x, y := Apart(ws)[k].y)
    ensures !TakesPart(ws[k]) ==>
      Apart(ws)[k].x == Clamp(ws[k].x, LEFT, RIGHT) && Apart(ws)[k].y == Clamp(ws[k].y, DEPTH_MIN, DEPTH_MAX)
    ensures TakesPart(ws[k]) <==> BodiesOf(ACTOR, ws)[k].solid
    ensures Compact(Separate(BodiesOf(ACTOR, ws))) == Separate(Compact(BodiesOf(ACTOR, ws)))
  {
    SeparateIgnoresHoles(BodiesOf(ACTOR, ws));
  }

  /** Two who take part, alone on the stage, are apart before the stage bounds are looked at. */
  lemma TwoActorsComeApart(a: Actor, b: Actor)
    requires TakesPart(a) && TakesPart(b)
    ensures var r := Separate(BodiesOf(ACTOR, [a, b]));
      Abs(r[1].x - r[0].x) >= 34.0 || Abs(r[1].y - r[0].y) >= 18.0
  {
    assert BodiesOf(ACTOR, [a, b]) == [BodyOf(a), BodyOf(b)];
    TwoComeApart(BodyOf(a), BodyOf(b));
    SeparateIgnoresHoles([BodyOf(a), BodyOf(b)]);
  }
}
