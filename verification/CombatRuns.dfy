/** What every run of the combat rules keeps, whatever the inputs. */
module CombatRuns {
  import opened Bodies
  import opened Combat

  // ---- One actor --------------------------------------------------------------------------

  predicate NoDup(s: seq<nat>) { forall i, j :: 0 <= i < j < |s| ==> s[i] != s[j] }

  predicate HealthOk(a: Actor) {
    0 <= a.hp <= a.maxHp && (a.hp == 0 <==> a.state == Dead)
  }

  /** Between steps: how far a timed state can have got, and an attack has resolved exactly when it is
      past its hit tick. */
  predicate TimersOk(a: Actor) {
    && (a.state == Attack ==> a.stateTick < ATK_TICKS && (a.hitDone <==> a.stateTick >= ATK_HIT_TICK))
    && (a.state == Hurt ==> a.stateTick < HURT_TICKS)
    && (a.state == Skill ==> a.kind == Player && a.stateTick < SKILL_TICKS)
    && (a.state != Attack ==> !a.hitDone)
  }

  /** What has been slashed in the present dash. */
  predicate SlashesOk(a: Actor, orcs: set<nat>) {
    && NoDup(a.hitIds) && (forall k :: 0 <= k < |a.hitIds| ==> a.hitIds[k] in orcs)
    && (a.state == Skill ==> a.lastSkillHit == |a.hitIds|)
    && (a.state != Skill ==> a.hitIds == [])
  }

  /** While dashing, the path lies on the stage. */
  predicate PathOk(a: Actor) {
    && (a.face == 1 || a.face == -1)
    && (a.state == Skill ==> LEFT <= a.dashFrom <= RIGHT && LEFT <= a.dashTo <= RIGHT)
  }

  predicate ActorOk(a: Actor, orcs: set<nat>) {
    HealthOk(a) && TimersOk(a) && SlashesOk(a, orcs) && PathOk(a)
  }

  /** The ids of the orcs, which never change. */
  ghost function OrcIds(ws: seq<Actor>): set<nat> {
    set k | 0 <= k < |ws| && ws[k].kind == Orc :: ws[k].id
  }

  predicate SamePeople(a: seq<Actor>, b: seq<Actor>) {
    |a| == |b| && forall k :: 0 <= k < |a| ==> a[k].id == b[k].id && a[k].kind == b[k].kind && a[k].maxHp == b[k].maxHp
  }

  predicate DistinctIds(ws: seq<Actor>) { forall i, j :: 0 <= i < j < |ws| ==> ws[i].id != ws[j].id }

  ghost predicate WorldOk(ws: seq<Actor>) {
    && ws != [] && ws[0].kind == Player && (forall k :: 0 < k < |ws| ==> ws[k].kind == Orc)
    && DistinctIds(ws)
    && forall k :: 0 <= k < |ws| ==> ActorOk(ws[k], OrcIds(ws)) && OnStage(Body(ws[k].x, ws[k].y, true))
  }

  lemma SamePeopleIds(a: seq<Actor>, b: seq<Actor>)
    requires SamePeople(a, b)
    ensures OrcIds(a) == OrcIds(b)
  {
    assert forall k :: 0 <= k < |a| ==> a[k].id == b[k].id && a[k].kind == b[k].kind;
  }

  predicate SamePerson(a: Actor, b: Actor) { a.id == b.id && a.kind == b.kind && a.maxHp == b.maxHp }

  // ---- Turns ------------------------------------------------------------------------------

  lemma PlayerActsOk(p: Actor, ts: seq<Actor>, input: Input, orcs: set<nat>)
    requires p.kind == Player && ActorOk(p, orcs) && LEFT <= p.x <= RIGHT
    ensures var q := PlayerActs(p, ts, input);
      ActorOk(q, orcs) && SamePerson(p, q) && (p.state == Dead ==> q == p) && q.hp == p.hp
  { }

  lemma OrcActsOk(e: Actor, p: Actor, orcs: set<nat>)
    requires ActorOk(e, orcs)
    ensures var q := OrcActs(e, p);
      ActorOk(q, orcs) && SamePerson(e, q) && (e.state == Dead ==> q == e) && q.hp == e.hp
  { }

  // ---- Hits -------------------------------------------------------------------------------

  lemma DamagedOk(hitter: Actor, t: Actor, dmg: int, knock: real, orcs: set<nat>)
    requires ActorOk(t, orcs) && t.state != Dead && dmg > 0 && (hitter.face == 1 || hitter.face == -1)
    ensures var q := Damaged(hitter, t, dmg, knock);
      ActorOk(q, orcs) && SamePerson(t, q) && q.hp < t.hp
  { }

  /** An actor in the middle of a step: as between steps, but its attack may have resolved just now and
      it may stand anywhere. */
  lemma {:induction false} SweepOk(c: Actor, ts: seq<Actor>, fromX: real, orcs: set<nat>)
    requires NoDup(c.hitIds) && forall k :: 0 <= k < |c.hitIds| ==> c.hitIds[k] in orcs
    requires c.kind == Player && (c.face == 1 || c.face == -1)
    requires forall k :: 0 <= k < |ts| ==> ActorOk(ts[k], orcs) && (ts[k].kind == Orc ==> ts[k].id in orcs)
    ensures var (d, rest) := Sweep(c, ts, fromX);
      && d == c.(hitIds := d.hitIds) && |d.hitIds| >= |c.hitIds|
      && NoDup(d.hitIds) && (forall k :: 0 <= k < |d.hitIds| ==> d.hitIds[k] in orcs)
      && SamePeople(ts, rest)
      && (forall k :: 0 <= k < |ts| ==> ActorOk(rest[k], orcs) && (ts[k].state == Dead ==> rest[k] == ts[k]))
      && (forall k :: 0 <= k < |ts| && ts[k].kind == Player ==> rest[k] == ts[k])
    decreases |ts|
  {
    if ts != [] {
      hide ActorOk;
      var slash := IsSlashed(c, ts[0], fromX);
      var c1 := if slash then c.(hitIds := c.hitIds + [ts[0].id]) else c;
      if slash { AliveIsOk(ts[0], orcs); DamagedOk(c, ts[0], SWEEP_DMG, SWEEP_KNOCK, orcs); }
      hide Damaged, IsSlashed;
      SweepOk(c1, ts[1..], fromX, orcs);
      var rest, tail := Sweep(c, ts, fromX).1, Sweep(c1, ts[1..], fromX).1;
      assert forall k :: 0 < k < |ts| ==> rest[k] == tail[k - 1] && ts[k] == ts[1..][k - 1];
    }
  }

  lemma AliveIsOk(t: Actor, orcs: set<nat>)
    requires ActorOk(t, orcs)
    ensures HealthOk(t)
  { }

  // ---- Progress ---------------------------------------------------------------------------

  /** In the middle of a step. */
  ghost predicate MidOk(ws: seq<Actor>, orcs: set<nat>) {
    && ws != [] && ws[0].kind == Player && (forall k :: 0 < k < |ws| ==> ws[k].kind == Orc && ws[k].id in orcs)
    && forall k :: 0 <= k < |ws| ==> ActorOk(ws[k], orcs)
  }

  predicate DeadStay(a: seq<Actor>, b: seq<Actor>) {
    |a| == |b| && forall k :: 0 <= k < |a| && a[k].state == Dead ==> b[k].state == Dead
  }

  lemma HitOk(b: Actor, ws: seq<Actor>, orcs: set<nat>)
    requires MidOk(ws, orcs) && (b.face == 1 || b.face == -1)
    ensures var r := ResolveHit(b, ws);
      MidOk(r, orcs) && SamePeople(ws, r) && DeadStay(ws, r)
  {
    hide ActorOk, Damaged;
    var r := ResolveHit(b, ws);
    forall k | 0 <= k < |ws|
      ensures ActorOk(r[k], orcs) && SamePerson(ws[k], r[k]) && (ws[k].state == Dead ==> r[k].state == Dead)
    {
      if ws[k].state != Dead { DamagedOk(b, ws[k], 1, KNOCK_X, orcs); }
    }
  }

  lemma PutOk(ws: seq<Actor>, r: seq<Actor>, i: nat, a: Actor, orcs: set<nat>)
    requires MidOk(ws, orcs) && MidOk(r, orcs) && SamePeople(ws, r) && DeadStay(ws, r) && i < |ws|
    requires ActorOk(a, orcs) && SamePerson(ws[i], a) && (ws[i].state == Dead ==> a.state == Dead)
    ensures MidOk(r[i := a], orcs) && SamePeople(ws, r[i := a]) && DeadStay(ws, r[i := a])
  { }

  lemma AttackOk(a: Actor, orcs: set<nat>)
    requires ActorOk(a, orcs) && a.state == Attack
    ensures var b := a.(stateTick := a.stateTick + 1);
      var c := if !b.hitDone && b.stateTick >= ATK_HIT_TICK then b.(hitDone := true) else b;
      ActorOk(Ends(c, ATK_TICKS), orcs) && SamePerson(a, Ends(c, ATK_TICKS))
  { }

  lemma RestOk(a: Actor, orcs: set<nat>)
    requires ActorOk(a, orcs) && a.state != Attack
    ensures var b := a.(stateTick := a.stateTick + 1);
      && (a.state == Hurt ==> ActorOk(Ends(b, HURT_TICKS), orcs) && SamePerson(a, Ends(b, HURT_TICKS)))
      && (a.state == Skill ==> ActorOk(Ends(b, SKILL_TICKS), orcs) && SamePerson(a, Ends(b, SKILL_TICKS)))
      && (a.state != Hurt && a.state != Skill ==> ActorOk(b, orcs) && SamePerson(a, b))
  { }

  lemma SkillOk(a: Actor, ids: seq<nat>, orcs: set<nat>)
    requires ActorOk(a, orcs) && a.state == Skill && NoDup(ids) && |ids| >= |a.hitIds|
    requires forall k :: 0 <= k < |ids| ==> ids[k] in orcs
    ensures var b := Dashed(a.(stateTick := a.stateTick + 1));
      var c := b.(hitIds := ids, lastSkillHit := b.lastSkillHit + (|ids| - |a.hitIds|));
      ActorOk(Ends(c, SKILL_TICKS), orcs) && SamePerson(a, Ends(c, SKILL_TICKS))
  { }

  /** What `ProgressOk` needs of one actor's turn. */
  ghost predicate TurnOk(ws: seq<Actor>, r: seq<Actor>, orcs: set<nat>) {
    MidOk(r, orcs) && SamePeople(ws, r) && DeadStay(ws, r)
  }

  lemma AdvanceAttack(ws: seq<Actor>, i: nat, orcs: set<nat>)
    requires MidOk(ws, orcs) && i < |ws| && ws[i].state == Attack
    ensures TurnOk(ws, Advance(ws, i), orcs)
  {
    hide ActorOk, Ends;
    SelfSame(ws);
    FaceOk(ws[i], orcs);
    AttackOk(ws[i], orcs);
    hide ResolveHit;
    var a := ws[i].(stateTick := ws[i].stateTick + 1);
    if !a.hitDone && a.stateTick >= ATK_HIT_TICK {
      var b := a.(hitDone := true);
      HitOk(b, ws, orcs);
      PutOk(ws, ResolveHit(b, ws), i, Ends(b, ATK_TICKS), orcs);
    } else {
      PutOk(ws, ws, i, Ends(a, ATK_TICKS), orcs);
    }
  }

  lemma AdvanceSkill(ws: seq<Actor>, i: nat, orcs: set<nat>)
    requires MidOk(ws, orcs) && i < |ws| && ws[i].state == Skill && ws[i].stateTick < BLINK_TICKS
    ensures TurnOk(ws, Advance(ws, i), orcs)
  {
    hide ActorOk, Ends, Sweep;
    FaceOk(ws[i], orcs);
    var a := ws[i].(stateTick := ws[i].stateTick + 1);
    var b := Dashed(a);
    SweepOk(b, ws, ws[i].x, orcs);
    var (c, rest) := Sweep(b, ws, ws[i].x);
    SkillOk(ws[i], c.hitIds, orcs);
    hide Dashed;
    PutOk(ws, rest, i, Ends(c.(lastSkillHit := c.lastSkillHit + (|c.hitIds| - |a.hitIds|)), SKILL_TICKS), orcs);
  }

  lemma AdvanceRest(ws: seq<Actor>, i: nat, orcs: set<nat>)
    requires MidOk(ws, orcs) && i < |ws| && ws[i].state != Attack
    requires ws[i].state == Skill ==> ws[i].stateTick >= BLINK_TICKS
    ensures TurnOk(ws, Advance(ws, i), orcs)
  {
    hide ActorOk, Ends;
    SelfSame(ws);
    RestOk(ws[i], orcs);
    PutOk(ws, ws, i, Advance(ws, i)[i], orcs);
  }

  lemma AdvanceOk(ws: seq<Actor>, i: nat, orcs: set<nat>)
    requires MidOk(ws, orcs) && i < |ws|
    ensures TurnOk(ws, Advance(ws, i), orcs)
  {
    hide Advance, TurnOk, MidOk;
    if ws[i].state == Attack {
      AdvanceAttack(ws, i, orcs);
    } else if ws[i].state == Skill && ws[i].stateTick < BLINK_TICKS {
      AdvanceSkill(ws, i, orcs);
    } else {
      AdvanceRest(ws, i, orcs);
    }
  }

  lemma SelfSame(ws: seq<Actor>)
    ensures SamePeople(ws, ws) && DeadStay(ws, ws)
  { }

  lemma FaceOk(a: Actor, orcs: set<nat>)
    requires ActorOk(a, orcs)
    ensures a.face == 1 || a.face == -1
    ensures NoDup(a.hitIds) && forall k :: 0 <= k < |a.hitIds| ==> a.hitIds[k] in orcs
    ensures a.state == Skill ==> a.kind == Player
  { }

  lemma {:induction false} ProgressOk(ws: seq<Actor>, i: nat, orcs: set<nat>)
    requires MidOk(ws, orcs) && i <= |ws|
    ensures MidOk(Progress(ws, i), orcs) && SamePeople(ws, Progress(ws, i)) && DeadStay(ws, Progress(ws, i))
    decreases |ws| - i
  {
    hide MidOk, Advance;
    SelfSame(ws);
    if i < |ws| {
      AdvanceOk(ws, i, orcs);
      ProgressOk(Advance(ws, i), i + 1, orcs);
    }
  }

  // ---- Whole steps ------------------------------------------------------------------------

  lemma DecidedOk(ws: seq<Actor>, input: Input)
    requires WorldOk(ws)
    ensures MidOk(Decided(ws, input), OrcIds(ws))
    ensures SamePeople(ws, Decided(ws, input)) && DeadStay(ws, Decided(ws, input))
  {
    hide PlayerActs, OrcActs, ActorOk;
    var orcs := OrcIds(ws);
    var p := PlayerActs(ws[0], ws, input);
    PlayerActsOk(ws[0], ws, input, orcs);
    var r := Decided(ws, input);
    forall k | 0 <= k < |ws|
      ensures ActorOk(r[k], orcs) && SamePerson(ws[k], r[k]) && (ws[k].state == Dead ==> r[k].state == Dead)
    {
      OrcActsOk(if k == 0 then p else ws[k], p, orcs);
    }
    assert forall k :: 0 < k < |ws| ==> ws[k].id in orcs;
  }

  lemma ApartOk(ws: seq<Actor>, orcs: set<nat>)
    requires MidOk(ws, orcs)
    ensures MidOk(Apart(ws), orcs) && SamePeople(ws, Apart(ws)) && DeadStay(ws, Apart(ws))
    ensures forall k :: 0 <= k < |ws| ==> OnStage(Body(Apart(ws)[k].x, Apart(ws)[k].y, true))
  { }

  /** One step keeps the world in order; nobody changes identity and the dead stay dead. */
  lemma StepOk(ws: seq<Actor>, input: Input)
    requires WorldOk(ws)
    ensures WorldOk(StepActors(ws, input))
    ensures SamePeople(ws, StepActors(ws, input)) && DeadStay(ws, StepActors(ws, input))
  {
    hide ActorOk, Decided, Progress, Apart;
    var orcs := OrcIds(ws);
    var d := Decided(ws, input);
    DecidedOk(ws, input);
    ProgressOk(d, 0, orcs);
    ApartOk(Progress(d, 0), orcs);
    var r := StepActors(ws, input);
    SamePeopleIds(ws, r);
  }

  function Run(w: World, inputs: seq<Input>): (r: World)
    requires w.actors != []
    ensures |r.actors| == |w.actors|
    decreases |inputs|
  {
    if inputs == [] then w else Run(Step(w, inputs[0]), inputs[1..])
  }

  /** Over every run: hit points stay within bounds and are zero exactly for the dead, every attack
      resolves exactly at its hit tick, a dash slashes each orc at most once and counts them, and
      everybody is on the stage. */
  lemma {:induction false} RunOk(w: World, inputs: seq<Input>)
    requires WorldOk(w.actors)
    ensures WorldOk(Run(w, inputs).actors) && SamePeople(w.actors, Run(w, inputs).actors)
    ensures DeadStay(w.actors, Run(w, inputs).actors)
    decreases |inputs|
  {
    hide WorldOk, StepActors;
    SelfSame(w.actors);
    NotEmpty(w.actors);
    if inputs != [] {
      StepOk(w.actors, inputs[0]);
      RunOk(Step(w, inputs[0]), inputs[1..]);
    }
  }

  lemma NotEmpty(ws: seq<Actor>)
    requires WorldOk(ws)
    ensures ws != []
  { }

  /** Everybody but the player is dead. */
  predicate OnlyPlayerLeft(ws: seq<Actor>) { forall k :: 0 < k < |ws| ==> ws[k].state == Dead }

  /** Once cleared, always cleared; cleared means that every orc is dead; every step counts one tick. */
  lemma ClearedStays(w: World, inputs: seq<Input>)
    requires WorldOk(w.actors) && (w.cleared <==> OnlyPlayerLeft(w.actors))
    ensures var r := Run(w, inputs);
      && (w.cleared ==> r.cleared) && (r.cleared <==> OnlyPlayerLeft(r.actors)) && r.tick == w.tick + |inputs|
    decreases |inputs|
  {
    hide StepActors;
    if inputs != [] {
      StepOk(w.actors, inputs[0]);
      ClearedStays(Step(w, inputs[0]), inputs[1..]);
    }
  }

  /** An attack touches others only on its hit tick: entering it, waiting and recovering hit nobody. */
  lemma AttackHitsOnce(ws: seq<Actor>, i: nat, orcs: set<nat>, k: nat)
    requires MidOk(ws, orcs) && i < |ws| && ws[i].state == Attack && k < |ws| && k != i
    requires Advance(ws, i)[k] != ws[k]
    ensures ws[i].stateTick + 1 == ATK_HIT_TICK && !ws[i].hitDone && Advance(ws, i)[i].hitDone
  { }

  // ---- The game's own world ---------------------------------------------------------------

  function Spawn(id: nat, kind: Kind, x: real, y: real, hp: int): Actor {
    Actor(id, kind, x, y, hp, hp, 1, Idle, 0, false, [], 0, 0, 0, 0.0, 0.0, 0)
  }

  const FIVE_ORCS: World := World(0, [
    Spawn(1, Player, 180.0, 100.0, 10),
    Spawn(2, Orc, 520.0, 40.0, 3), Spawn(3, Orc, 700.0, 120.0, 3), Spawn(4, Orc, 980.0, 70.0, 3),
    Spawn(5, Orc, 1180.0, 140.0, 3), Spawn(6, Orc, 1330.0, 55.0, 3)], false)

  lemma FiveOrcsOk()
    ensures WorldOk(FIVE_ORCS.actors) && FIVE_ORCS.cleared == AllOrcsDead(FIVE_ORCS.actors)
  {
    assert FIVE_ORCS.actors[1].kind == Orc;
  }
}
