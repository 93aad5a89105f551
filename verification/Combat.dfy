/** The combat rules: one step of a world with one player and any number of orcs. */
module Combat {
  import opened Bodies

  const TICK_DT: real := 1.0 / 60.0
  const P_SPEED_X: real := 215.0
  const P_SPEED_Y: real := 132.0
  const E_SPEED_X: real := 98.0
  const E_SPEED_Y: real := 62.0
  const DIAGONAL: real := 0.7071067811865476

  const ATK_TICKS: nat := 18
  const ATK_HIT_TICK: nat := 7
  const ATK_RANGE: real := 64.0
  const ATK_BACK: real := 8.0
  const ATK_DEPTH: real := 26.0
  const ATK_COOLDOWN: nat := 4

  const SKILL_TICKS: nat := 24
  const BLINK_TICKS: nat := 10
  const SEARCH_RANGE: real := 720.0
  const SEARCH_DEPTH: real := 40.0
  const PASS_BY: real := 90.0
  const MIN_DIST: real := 340.0
  const DEFAULT_DIST: real := 340.0
  const SWEEP_RANGE: real := 50.0
  const SWEEP_DEPTH: real := 30.0
  const SWEEP_DMG: int := 2
  const SKILL_COOLDOWN: nat := 0
  const SWEEP_KNOCK: real := 20.0

  const HURT_TICKS: nat := 12
  const KNOCK_X: real := 12.0

  const E_ATK_RANGE: real := 52.0
  const E_ATK_DEPTH: real := 22.0
  const E_THINK_GAP: nat := 70

  datatype Kind = Player | Orc
  datatype State = Idle | Walk | Attack | Hurt | Dead | Skill

  datatype Actor = Actor(id: nat, kind: Kind, x: real, y: real, hp: int, maxHp: int, face: int,
                         state: State, stateTick: nat, hitDone: bool, hitIds: seq<nat>,
                         cool: nat, skillCool: nat, lastSkillHit: int,
                         dashFrom: real, dashTo: real, think: nat)

  datatype Input = Input(mx: int, my: int, attack: bool, skill: bool)

  /** The player is the first actor. */
  datatype World = World(tick: nat, actors: seq<Actor>, cleared: bool)

  function SetState(a: Actor, s: State): Actor {
    if a.state == s then a else a.(state := s, stateTick := 0, hitDone := false, hitIds := [])
  }

  predicate CanAct(a: Actor) { a.state == Idle || a.state == Walk }

  function Less1(n: nat): nat { if n > 0 then n - 1 else 0 }

  // ---- The player's turn ------------------------------------------------------------------

  function Ahead(caster: Actor, t: Actor): real { (t.x - caster.x) * caster.face as real }

  predicate IsCandidate(caster: Actor, t: Actor) {
    && t.state != Dead && t.kind != caster.kind
    && 0.0 < Ahead(caster, t) <= SEARCH_RANGE
    && Abs(t.y - caster.y) <= SEARCH_DEPTH
  }

  /** Farther away, or as far and with the smaller id. */
  predicate Better(caster: Actor, t: Actor, best: Actor) {
    Ahead(caster, t) > Ahead(caster, best) || (Ahead(caster, t) == Ahead(caster, best) && t.id < best.id)
  }

  datatype Option<T> = None | Some(value: T)

  /** The scan for the target of the dash, from the best found so far. */
  function FindTarget(caster: Actor, ts: seq<Actor>, best: Option<Actor>): Option<Actor>
    decreases |ts|
  {
    if ts == [] then best
    else
      var t := ts[0];
      FindTarget(caster, ts[1..],
                 if IsCandidate(caster, t) && (best.None? || Better(caster, t, best.value)) then Some(t) else best)
  }

  function DashEnd(caster: Actor, target: Option<Actor>): real {
    var want := if target.Some? then Ahead(caster, target.value) + PASS_BY else DEFAULT_DIST;
    var dist := if want > MIN_DIST then want else MIN_DIST;
    Clamp(caster.x + caster.face as real * dist, LEFT, RIGHT)
  }

  function PlayerMoves(p: Actor, input: Input): Actor {
    var mx, my := input.mx, input.my;
    if mx == 0 && my == 0 then SetState(p, Idle)
    else
      var k := if mx != 0 && my != 0 then DIAGONAL else 1.0;
      SetState(p.(x := p.x + mx as real * P_SPEED_X * TICK_DT * k,
                  y := p.y + my as real * P_SPEED_Y * TICK_DT * k,
                  face := if mx > 0 then 1 else if mx < 0 then -1 else p.face), Walk)
  }

  function PlayerActs(p0: Actor, ts: seq<Actor>, input: Input): Actor {
    if p0.state == Dead then p0
    else
      var p := p0.(cool := Less1(p0.cool), skillCool := Less1(p0.skillCool));
      if CanAct(p) && input.skill && p.skillCool == 0 then
        SetState(p, Skill).(skillCool := SKILL_COOLDOWN, cool := SKILL_TICKS, lastSkillHit := 0,
                            dashFrom := p.x, dashTo := DashEnd(p, FindTarget(p, ts, None)))
      else if CanAct(p) && input.attack && p.cool == 0 then
        SetState(p, Attack).(cool := ATK_TICKS + ATK_COOLDOWN)
      else if CanAct(p) then PlayerMoves(p, input)
      else p
  }

  // ---- The orcs' turn ---------------------------------------------------------------------

  function OrcWalks(e: Actor, dx: real, dy: real): Actor {
    var my := if Abs(dy) > 6.0 then (if dy > 0.0 then 1 else -1) else 0;
    var mx := if Abs(dx) > E_ATK_RANGE - 12.0 then (if dx > 0.0 then 1 else -1) else 0;
    var k := if mx != 0 && my != 0 then DIAGONAL else 1.0;
    SetState(e.(x := e.x + mx as real * E_SPEED_X * TICK_DT * k,
                y := e.y + my as real * E_SPEED_Y * TICK_DT * k,
                face := if mx > 0 then 1 else if mx < 0 then -1 else e.face),
             if mx != 0 || my != 0 then Walk else Idle)
  }

  function OrcActs(e0: Actor, p: Actor): Actor {
    if e0.kind != Orc || e0.state == Dead then e0
    else
      var e := e0.(cool := Less1(e0.cool), think := Less1(e0.think));
      if !CanAct(e) then e
      else if p.state == Dead then SetState(e, Idle)
      else
        var dx, dy := p.x - e.x, p.y - e.y;
        if Abs(dx) <= E_ATK_RANGE && Abs(dy) <= E_ATK_DEPTH then
          var f := e.(face := if dx >= 0.0 then 1 else -1);
          if e.cool == 0 && e.think == 0 then
            SetState(f, Attack).(cool := ATK_TICKS + ATK_COOLDOWN, think := E_THINK_GAP)
          else SetState(f, Idle)
        else OrcWalks(e, dx, dy)
  }

  /** The world after everybody has chosen what to do. */
  function Decided(ws: seq<Actor>, input: Input): (r: seq<Actor>)
    requires ws != []
    ensures |r| == |ws|
  {
    var p := PlayerActs(ws[0], ws, input);
    seq(|ws|, k requires 0 <= k < |ws| => OrcActs(if k == 0 then p else ws[k], p))
  }

  // ---- Hits -------------------------------------------------------------------------------

  function Damaged(hitter: Actor, t: Actor, dmg: int, knock: real): Actor {
    if t.hp - dmg <= 0 then SetState(t.(hp := 0), Dead)
    else
      SetState(t.(hp := t.hp - dmg), Hurt)
        .(x := Clamp(t.x + hitter.face as real * knock, LEFT, RIGHT), face := -hitter.face)
  }

  predicate InReach(hitter: Actor, t: Actor, range: real, depth: real) {
    var x0 := if hitter.face > 0 then hitter.x - ATK_BACK else hitter.x - range;
    var x1 := if hitter.face > 0 then hitter.x + range else hitter.x + ATK_BACK;
    x0 <= t.x <= x1 && Abs(t.y - hitter.y) <= depth
  }

  predicate IsStruck(hitter: Actor, t: Actor, range: real, depth: real) {
    t.state != Dead && t.kind != hitter.kind && t.state != Hurt && InReach(hitter, t, range, depth)
  }

  function Struck(hitter: Actor, t: Actor, range: real, depth: real): Actor {
    if IsStruck(hitter, t, range, depth) then Damaged(hitter, t, 1, KNOCK_X) else t
  }

  function ResolveHit(hitter: Actor, ws: seq<Actor>): (r: seq<Actor>)
    ensures |r| == |ws|
  {
    var range, depth := if hitter.kind == Player then ATK_RANGE else E_ATK_RANGE,
                        if hitter.kind == Player then ATK_DEPTH else E_ATK_DEPTH;
    seq(|ws|, k requires 0 <= k < |ws| => Struck(hitter, ws[k], range, depth))
  }

  /** The stretch swept in one tick: from where the caster was to the tip of the blade. */
  predicate Swept(caster: Actor, fromX: real, x: real) {
    var tip := caster.x + caster.face as real * SWEEP_RANGE;
    (if fromX < tip then fromX else tip) <= x <= (if fromX > tip then fromX else tip)
  }

  predicate IsSlashed(caster: Actor, t: Actor, fromX: real) {
    && t.state != Dead && t.kind != caster.kind && t.id !in caster.hitIds
    && Swept(caster, fromX, t.x) && Abs(t.y - caster.y) <= SWEEP_DEPTH
  }

  /** The caster with the ids slashed, and the others after it. */
  function Sweep(caster: Actor, ts: seq<Actor>, fromX: real): (r: (Actor, seq<Actor>))
    ensures |r.1| == |ts|
    decreases |ts|
  {
    if ts == [] then (caster, [])
    else if IsSlashed(caster, ts[0], fromX) then
      var (c, rest) := Sweep(caster.(hitIds := caster.hitIds + [ts[0].id]), ts[1..], fromX);
      (c, [Damaged(caster, ts[0], SWEEP_DMG, SWEEP_KNOCK)] + rest)
    else
      var (c, rest) := Sweep(caster, ts[1..], fromX);
      (c, [ts[0]] + rest)
  }

  // ---- Progress of states -----------------------------------------------------------------

  function Ends(a: Actor, ticks: nat): Actor { if a.stateTick >= ticks then SetState(a, Idle) else a }

  function Dashed(a: Actor): Actor {
    a.(x := a.dashFrom + (a.dashTo - a.dashFrom) * (a.stateTick as real / BLINK_TICKS as real))
  }

  /** Actor `i` gets one tick on in its state; this may hit others. */
  function Advance(ws: seq<Actor>, i: nat): (r: seq<Actor>)
    requires i < |ws|
    ensures |r| == |ws|
  {
    var a := ws[i].(stateTick := ws[i].stateTick + 1);
    match a.state
    case Attack =>
      if !a.hitDone && a.stateTick >= ATK_HIT_TICK then
        var b := a.(hitDone := true);
        ResolveHit(b, ws)[i := Ends(b, ATK_TICKS)]
      else ws[i := Ends(a, ATK_TICKS)]
    case Skill =>
      if a.stateTick <= BLINK_TICKS then
        var (c, rest) := Sweep(Dashed(a), ws, ws[i].x);
        rest[i := Ends(c.(lastSkillHit := c.lastSkillHit + (|c.hitIds| - |a.hitIds|)), SKILL_TICKS)]
      else ws[i := Ends(a, SKILL_TICKS)]
    case Hurt => ws[i := Ends(a, HURT_TICKS)]
    case _ => ws[i := a]
  }

  function Progress(ws: seq<Actor>, i: nat): (r: seq<Actor>)
    requires i <= |ws|
    ensures |r| == |ws|
    decreases |ws| - i
  {
    if i == |ws| then ws else Progress(Advance(ws, i), i + 1)
  }

  // ---- The step ---------------------------------------------------------------------------

  function BodyOf(a: Actor): Body { Body(a.x, a.y, a.state != Dead && a.state != Skill) }
  function WithBody(a: Actor, b: Body): Actor { a.(x := b.x, y := b.y) }

  const ACTOR: Lens<Actor> := Lens(BodyOf, WithBody)

  lemma ActorLawful()
    ensures Lawful(ACTOR)
  { }

  function Apart(ws: seq<Actor>): (r: seq<Actor>)
    ensures |r| == |ws|
  {
    Placed(ACTOR, ws, AllBounded(Separate(BodiesOf(ACTOR, ws))))
  }

  predicate AllOrcsDead(ws: seq<Actor>) {
    forall k :: 0 <= k < |ws| ==> ws[k].kind != Orc || ws[k].state == Dead
  }

  function StepActors(ws: seq<Actor>, input: Input): (r: seq<Actor>)
    requires ws != []
    ensures |r| == |ws|
  {
    Apart(Progress(Decided(ws, input), 0))
  }

  function Step(w: World, input: Input): World
    requires w.actors != []
  {
    var ws := StepActors(w.actors, input);
    World(w.tick + 1, ws, AllOrcsDead(ws))
  }
}
