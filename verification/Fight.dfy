/** The combat step as it runs: loops over the actors, each updated in place. */
module Fight {
  import opened Bodies
  import opened Combat
  import Blows

  class Arena {
    var tick: nat
    const actors: array<Actor>
    var cleared: bool

    ghost function View(): World
      reads this, actors
    {
      World(tick, actors[..], cleared)
    }

    constructor (ws: seq<Actor>)
      ensures View() == World(0, ws, false) && fresh(actors)
    {
      tick, cleared := 0, false;
      actors := new Actor[|ws|](k requires 0 <= k < |ws| => ws[k]);
      new;
      assert actors[..] == ws;
    }

    method FindAssaultTarget(caster: Actor) returns (best: Option<Actor>)
      ensures best == FindTarget(caster, actors[..], None)
    {
      best := None;
      for k := 0 to actors.Length
        invariant FindTarget(caster, actors[..], None) == FindTarget(caster, actors[k..], best)
      {
        var t := actors[k];
        assert actors[k..][0] == t && actors[k..][1..] == actors[k + 1..];
        if IsCandidate(caster, t) && (best.None? || Better(caster, t, best.value)) {
          best := Some(t);
        }
      }
    }

    /** The player's choice of what to do. */
    method PlayerTurn(input: Input)
      requires actors.Length > 0
      modifies actors
      ensures actors[..] == old(actors[..])[0 := PlayerActs(old(actors[0]), old(actors[..]), input)]
    {
      var p := actors[0];
      ghost var ws := actors[..];
      if p.state == Dead {
        assert ws[0 := p] == ws;
        return;
      }
      p := p.(cool := Less1(p.cool), skillCool := Less1(p.skillCool));
      if CanAct(p) && input.skill && p.skillCool == 0 {
        var target := FindAssaultTarget(p);
        ghost var caster := p;
        p := SetState(p, Skill);
        p := p.(skillCool := SKILL_COOLDOWN, cool := SKILL_TICKS, lastSkillHit := 0, dashFrom := p.x);
        assert target.Some? ==> Ahead(p, target.value) == Ahead(caster, target.value);
        var want := if target.Some? then Ahead(p, target.value) + PASS_BY else DEFAULT_DIST;
        var dist := if want > MIN_DIST then want else MIN_DIST;
        p := p.(dashTo := Clamp(p.x + p.face as real * dist, LEFT, RIGHT));
        assert p.dashTo == DashEnd(caster, target);
        assert p == PlayerActs(ws[0], ws, input);
      } else if CanAct(p) && input.attack && p.cool == 0 {
        p := SetState(p, Attack).(cool := ATK_TICKS + ATK_COOLDOWN);
      } else if CanAct(p) {
        p := PlayerMoves(p, input);
      }
      actors[0] := p;
      assert actors[..] == ws[0 := p];
    }

    method OrcsTurn()
      requires actors.Length > 0 && actors[0].kind == Player
      modifies actors
      ensures forall k :: 0 <= k < actors.Length ==> actors[k] == OrcActs(old(actors[k]), old(actors[0]))
    {
      for k := 0 to actors.Length
        invariant forall m :: 0 <= m < actors.Length ==>
          actors[m] == if m < k then OrcActs(old(actors[m]), old(actors[0])) else old(actors[m])
      {
        if actors[k].kind == Orc && actors[k].state != Dead {
          actors[k] := OrcActs(actors[k], actors[0]);
        }
      }
    }

    method ResolveHit(hitter: Actor)
      modifies actors
      ensures actors[..] == Combat.ResolveHit(hitter, old(actors[..]))
      ensures Blows.Facing(hitter) ==> forall k :: 0 <= k < actors.Length ==>
        (actors[k] != old(actors[k]) <==> Blows.InFront(hitter, old(actors[k])))
    {
      var range, depth := if hitter.kind == Player then ATK_RANGE else E_ATK_RANGE,
                          if hitter.kind == Player then ATK_DEPTH else E_ATK_DEPTH;
      for k := 0 to actors.Length
        invariant forall m :: 0 <= m < actors.Length ==>
          actors[m] == if m < k then Struck(hitter, old(actors[m]), range, depth) else old(actors[m])
      {
        if IsStruck(hitter, actors[k], range, depth) {
          actors[k] := Damaged(hitter, actors[k], 1, KNOCK_X);
        }
      }
      if Blows.Facing(hitter) {
        forall k | 0 <= k < actors.Length
          ensures actors[k] != old(actors[k]) <==> Blows.InFront(hitter, old(actors[k]))
        {
          Blows.HitLands(hitter, old(actors[..]), k);
        }
      }
    }

    /** The sweep of one dash tick; the caster collects ids while the others are hit. */
    method ResolveDash(i: nat, fromX: real)
      requires i < actors.Length
      modifies actors
      ensures var (c, rest) := Sweep(old(actors[i]), old(actors[..]), fromX);
        actors[..] == rest[i := c]
    {
      hide Damaged;
      ghost var ts := actors[..];
      ghost var (last, rest) := Sweep(actors[i], ts, fromX);
      for k := 0 to actors.Length
        invariant actors[i].kind == ts[i].kind
        invariant Sweep(actors[i], ts[k..], fromX) == (last, rest[k..])
        invariant forall m :: 0 <= m < actors.Length && m != i ==> actors[m] == if m < k then rest[m] else ts[m]
      {
        var caster := actors[i];
        ghost var left := ts[k..];
        assert left[0] == ts[k] && left[1..] == ts[k + 1..];
        assert rest[k..][0] == rest[k] && rest[k..][1..] == rest[k + 1..];
        if k != i && IsSlashed(caster, actors[k], fromX) {
          var id := actors[k].id;
          actors[k] := Damaged(caster, actors[k], SWEEP_DMG, SWEEP_KNOCK);
          actors[i] := caster.(hitIds := caster.hitIds + [id]);
        }
      }
      assert ts[actors.Length..] == [];
      assert actors[..] == rest[i := last];
    }

    method AdvanceAttack(i: nat)
      requires i < actors.Length && actors[i].state == Attack
      modifies actors
      ensures actors[..] == Advance(old(actors[..]), i)
    {
      hide Damaged, InReach, Ends;
      var a := actors[i].(stateTick := actors[i].stateTick + 1);
      if !a.hitDone && a.stateTick >= ATK_HIT_TICK {
        a := a.(hitDone := true);
        ResolveHit(a);
      }
      actors[i] := Ends(a, ATK_TICKS);
    }

    method AdvanceSkill(i: nat)
      requires i < actors.Length && actors[i].state == Skill
      modifies actors
      ensures actors[..] == Advance(old(actors[..]), i)
    {
      hide Damaged, Swept, Ends, Sweep;
      ghost var ws := actors[..];
      var a := actors[i].(stateTick := actors[i].stateTick + 1);
      if a.stateTick <= BLINK_TICKS {
        var fromX := a.x;
        var before := |a.hitIds|;
        a := Dashed(a);
        SweepSkipsSelf(a, ws, i, a, fromX);
        actors[i] := a;
        assert actors[..] == ws[i := a];
        ghost var (c, rest) := Sweep(a, ws, fromX);
        ResolveDash(i, fromX);
        assert actors[..] == rest[i := c];
        a := actors[i];
        a := a.(lastSkillHit := a.lastSkillHit + (|a.hitIds| - before));
      }
      actors[i] := Ends(a, SKILL_TICKS);
    }

    /** One actor's turn to get on in its state. */
    method AdvanceOne(i: nat)
      requires i < actors.Length
      modifies actors
      ensures actors[..] == Advance(old(actors[..]), i)
    {
      if actors[i].state == Attack {
        AdvanceAttack(i);
      } else if actors[i].state == Skill {
        AdvanceSkill(i);
      } else {
        var a := actors[i].(stateTick := actors[i].stateTick + 1);
        if a.state == Hurt {
          a := Ends(a, HURT_TICKS);
        }
        actors[i] := a;
      }
    }

    method CheckCleared() returns (all: bool)
      ensures all == AllOrcsDead(actors[..])
    {
      all := true;
      for k := 0 to actors.Length
        invariant all == forall m :: 0 <= m < k ==> actors[m].kind != Orc || actors[m].state == Dead
      {
        if actors[k].kind == Orc && actors[k].state != Dead {
          all := false;
        }
      }
    }

    method Decide(input: Input)
      requires actors.Length > 0 && actors[0].kind == Player
      modifies actors
      ensures actors[..] == Decided(old(actors[..]), input)
    {
      hide PlayerActs, OrcActs;
      ghost var ws := actors[..];
      PlayerTurn(input);
      PlayerStaysPlayer(ws, input);
      OrcsTurn();
    }

    /** One step of the game. */
    method Step(input: Input)
      requires actors.Length > 0 && actors[0].kind == Player
      modifies this`tick, this`cleared, actors
      ensures View() == Combat.Step(old(View()), input)
    {
      hide Decided, Progress, Separate, AllBounded, AllOrcsDead;
      tick := tick + 1;
      Decide(input);
      Advances();
      ActorLawful();
      SeparateInPlace(ACTOR, actors);
      cleared := CheckCleared();
    }

    method Advances()
      modifies actors
      ensures actors[..] == Progress(old(actors[..]), 0)
    {
      for i := 0 to actors.Length
        invariant Progress(old(actors[..]), 0) == Progress(actors[..], i)
      {
        hide Advance;
        AdvanceOne(i);
      }
    }
  }

  lemma PlayerStaysPlayer(ws: seq<Actor>, input: Input)
    requires ws != [] && ws[0].kind == Player
    ensures PlayerActs(ws[0], ws, input).kind == Player
  { }

  /** The caster's own entry in the list does not matter to the sweep. */
  lemma {:induction false} SweepSkipsSelf(c: Actor, ts: seq<Actor>, i: nat, x: Actor, fromX: real)
    requires i < |ts| && ts[i].kind == c.kind == x.kind
    ensures var (d, rest) := Sweep(c, ts, fromX);
      Sweep(c, ts[i := x], fromX) == (d, rest[i := x])
    decreases |ts|
  {
    hide Damaged;
    var us := ts[i := x];
    if i == 0 {
      assert us[1..] == ts[1..];
      var r := Sweep(c, ts[1..], fromX).1;
      assert ([ts[0]] + r)[0 := x] == [x] + r;
    } else {
      var c1 := if IsSlashed(c, ts[0], fromX) then c.(hitIds := c.hitIds + [ts[0].id]) else c;
      SweepSkipsSelf(c1, ts[1..], i - 1, x, fromX);
      assert us[1..] == ts[1..][i - 1 := x];
      var h, r := Sweep(c, ts, fromX).1[0], Sweep(c1, ts[1..], fromX).1;
      assert ([h] + r)[i := x] == [h] + r[i - 1 := x];
    }
  }
}
