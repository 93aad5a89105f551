/** Being hit gives the player time to breathe: hits on the player are at least twelve ticks apart, so
    damage over any stretch of time is bounded, however many orcs there are. */
module Stun {
  import opened Bodies
  import opened Combat
  import opened CombatRuns

  /** For how many more steps the player cannot be hit. */
  function Safe(p: Actor): nat {
    if p.state == Hurt && p.stateTick < HURT_TICKS then HURT_TICKS - 1 - p.stateTick else 0
  }

  /** What orcs may do to the player in one tick: nothing, or one hit that staggers or kills. */
  predicate OneHit(p: Actor, q: Actor) {
    && p.state != Hurt && p.state != Dead && q.hp == p.hp - 1
    && ((q.state == Hurt && q.stateTick == 0) || q.state == Dead)
  }

  predicate Unhurt(p: Actor, q: Actor) { q.hp == p.hp && q.state == p.state && q.stateTick == p.stateTick }

  /** An orc's turn leaves the player alone or hits once. */
  lemma OrcTurn(ws: seq<Actor>, i: nat, orcs: set<nat>)
    requires MidOk(ws, orcs) && 0 < i < |ws|
    ensures Unhurt(ws[0], Advance(ws, i)[0]) || OneHit(ws[0], Advance(ws, i)[0])
  {
    assert ActorOk(ws[0], orcs) && ActorOk(ws[i], orcs);
  }

  /** All orcs' turns together hit the player at most once. */
  lemma {:induction false} OrcTurns(ws: seq<Actor>, i: nat, orcs: set<nat>)
    requires MidOk(ws, orcs) && 0 < i <= |ws|
    ensures Unhurt(ws[0], Progress(ws, i)[0]) || OneHit(ws[0], Progress(ws, i)[0])
    decreases |ws| - i
  {
    hide MidOk, Advance;
    if i < |ws| {
      OrcTurn(ws, i, orcs);
      AdvanceOk(ws, i, orcs);
      OrcTurns(Advance(ws, i), i + 1, orcs);
    }
  }

  /** The player's own turn never costs hit points, and counts the stagger down by one. */
  lemma OwnTurn(ws: seq<Actor>, orcs: set<nat>)
    requires MidOk(ws, orcs)
    ensures var p, q := ws[0], Advance(ws, 0)[0];
      && q.hp == p.hp && (p.state == Dead ==> q.state == Dead)
      && (p.state == Hurt && p.stateTick < HURT_TICKS - 1 ==> q.state == Hurt && q.stateTick == p.stateTick + 1)
      && (q.state == Hurt ==> p.state == Hurt && q.stateTick == p.stateTick + 1)
  {
    if ws[0].state == Skill && ws[0].stateTick < BLINK_TICKS {
      var b := Dashed(ws[0].(stateTick := ws[0].stateTick + 1));
      FaceOk(ws[0], orcs);
      SweepOk(b, ws, ws[0].x, orcs);
    }
  }

  lemma ChoiceKeepsStagger(ws: seq<Actor>, input: Input)
    requires WorldOk(ws)
    ensures var p, q := ws[0], Decided(ws, input)[0];
      && q.hp == p.hp && (p.state == Hurt <==> q.state == Hurt) && (p.state == Dead <==> q.state == Dead)
      && (p.state == Hurt ==> q.stateTick == p.stateTick)
  { }

  /** One step costs the player at most one hit point, and only when not safe; after a hit that does not
      kill, eleven steps are safe. */
  lemma StepCost(ws: seq<Actor>, input: Input)
    requires WorldOk(ws)
    ensures var p, q := ws[0], StepActors(ws, input)[0];
      && (q.hp == p.hp || (q.hp == p.hp - 1 && Safe(p) == 0 && (Safe(q) == HURT_TICKS - 1 || q.state == Dead)))
      && (q.hp == p.hp ==> Safe(q) + 1 >= Safe(p))
      && (p.state == Dead ==> q.hp == p.hp && q.state == Dead)
  {
    hide Decided, Advance, ActorOk;
    var orcs := OrcIds(ws);
    var d := Decided(ws, input);
    DecidedOk(ws, input);
    ChoiceKeepsStagger(ws, input);
    OwnTurn(d, orcs);
    AdvanceOk(d, 0, orcs);
    var e := Advance(d, 0);
    OrcTurns(e, 1, orcs);
    assert Progress(d, 0) == Progress(e, 1);
  }

  /** Over any n steps, whatever the inputs, the player loses at most (n + 11) / 12 hit points. */
  lemma {:induction false} DamageBound(w: World, inputs: seq<Input>)
    requires WorldOk(w.actors)
    ensures var lost := w.actors[0].hp - Run(w, inputs).actors[0].hp;
      0 <= lost <= (|inputs| + HURT_TICKS - 1) / HURT_TICKS
  {
    hide StepActors, WorldOk;
    LostWithSafe(w, inputs);
  }

  lemma {:induction false} LostWithSafe(w: World, inputs: seq<Input>)
    requires WorldOk(w.actors)
    ensures w.actors != []
    ensures var lost := w.actors[0].hp - Run(w, inputs).actors[0].hp;
      && 0 <= lost && HURT_TICKS * lost <= |inputs| + HURT_TICKS - 1 - Safe(w.actors[0])
      && (w.actors[0].state == Dead ==> lost == 0)
    decreases |inputs|
  {
    hide StepActors, WorldOk;
    NotEmpty(w.actors);
    if inputs != [] {
      StepCost(w.actors, inputs[0]);
      StepOk(w.actors, inputs[0]);
      LostWithSafe(Step(w, inputs[0]), inputs[1..]);
    }
  }
}
