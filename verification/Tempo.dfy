/** How often anybody can strike: waiting times run over whole fights, whatever else happens to the
    striker. */
module Tempo {
  import opened Bodies
  import opened Combat
  import opened CombatRuns

  predicate SameWaits(a: Actor, b: Actor) { a.cool == b.cool && a.think == b.think }

  lemma {:induction false} SweepKeepsWaits(c: Actor, ts: seq<Actor>, fromX: real, k: nat)
    requires k < |ts|
    ensures SameWaits(Sweep(c, ts, fromX).1[k], ts[k]) && SameWaits(Sweep(c, ts, fromX).0, c)
    decreases |ts|
  {
    hide IsSlashed;
    var c1 := if IsSlashed(c, ts[0], fromX) then c.(hitIds := c.hitIds + [ts[0].id]) else c;
    if k > 0 {
      SweepKeepsWaits(c1, ts[1..], fromX, k - 1);
    } else if |ts| > 1 {
      SweepKeepsWaits(c1, ts[1..], fromX, 0);
    }
  }

  lemma AdvanceKeepsWaits(ws: seq<Actor>, i: nat, k: nat)
    requires i < |ws| && k < |ws|
    ensures SameWaits(Advance(ws, i)[k], ws[k])
  {
    hide Sweep;
    if ws[i].state == Skill && ws[i].stateTick + 1 <= BLINK_TICKS {
      var a := Dashed(ws[i].(stateTick := ws[i].stateTick + 1));
      SweepKeepsWaits(a, ws, ws[i].x, k);
    }
  }

  lemma {:induction false} ProgressKeepsWaits(ws: seq<Actor>, i: nat, k: nat)
    requires i <= |ws| && k < |ws|
    ensures SameWaits(Progress(ws, i)[k], ws[k])
    decreases |ws| - i
  {
    hide Advance;
    if i < |ws| {
      AdvanceKeepsWaits(ws, i, k);
      ProgressKeepsWaits(Advance(ws, i), i + 1, k);
    }
  }

  /** Only the choice what to do touches anybody's waiting times. */
  lemma StepWaits(ws: seq<Actor>, input: Input, k: nat)
    requires ws != [] && k < |ws|
    ensures SameWaits(StepActors(ws, input)[k], Decided(ws, input)[k])
  {
    hide Decided, Progress;
    ProgressKeepsWaits(Decided(ws, input), 0, k);
  }

  // ---- Counting strikes -------------------------------------------------------------------

  /** Actor `k` begins an attack in this step. */
  predicate Strikes(ws: seq<Actor>, input: Input, k: nat)
    requires ws != [] && k < |ws|
  {
    ws[k].state != Attack && Decided(ws, input)[k].state == Attack
  }

  function Struck(ws: seq<Actor>, inputs: seq<Input>, k: nat): nat
    requires ws != [] && k < |ws|
    decreases |inputs|
  {
    if inputs == [] then 0
    else
      (if Strikes(ws, inputs[0], k) then 1 else 0) + Struck(StepActors(ws, inputs[0]), inputs[1..], k)
  }

  lemma OrcWaits(ws: seq<Actor>, input: Input, k: nat)
    requires WorldOk(ws) && 0 < k < |ws|
    ensures var e, q := ws[k], Decided(ws, input)[k];
      && (Strikes(ws, input, k) ==> e.think <= 1 && q.think == 70)
      && q.think + 1 >= e.think
  { }

  lemma PlayerWaits(ws: seq<Actor>, input: Input)
    requires WorldOk(ws)
    ensures var p, q := ws[0], Decided(ws, input)[0];
      && (Strikes(ws, input, 0) ==> p.cool <= 1 && q.cool == 22)
      && (q.cool + 1 >= p.cool || q.cool >= 22)
  { }

  /** For how many more steps somebody with this waiting time can not strike, up to `most`. */
  function Pause(wait: nat, most: nat): nat { if Less1(wait) < most then Less1(wait) else most }

  lemma {:induction false} OrcStruck(ws: seq<Actor>, inputs: seq<Input>, k: nat)
    requires WorldOk(ws) && 0 < k < |ws|
    ensures ws != [] && 70 * Struck(ws, inputs, k) + Pause(ws[k].think, 69) <= |inputs| + 69
    decreases |inputs|
  {
    hide StepActors, WorldOk, Decided;
    NotEmpty(ws);
    if inputs != [] {
      OrcWaits(ws, inputs[0], k);
      StepWaits(ws, inputs[0], k);
      StepOk(ws, inputs[0]);
      OrcStruck(StepActors(ws, inputs[0]), inputs[1..], k);
    }
  }

  lemma {:induction false} PlayerStruck(ws: seq<Actor>, inputs: seq<Input>)
    requires WorldOk(ws)
    ensures ws != [] && 22 * Struck(ws, inputs, 0) + Pause(ws[0].cool, 21) <= |inputs| + 21
    decreases |inputs|
  {
    hide StepActors, WorldOk, Decided;
    NotEmpty(ws);
    if inputs != [] {
      PlayerWaits(ws, inputs[0]);
      StepWaits(ws, inputs[0], 0);
      StepOk(ws, inputs[0]);
      PlayerStruck(StepActors(ws, inputs[0]), inputs[1..]);
    }
  }

  /** In any n steps of any fight, whatever the inputs, an orc strikes at most (n + 69) / 70 times and the
      player at most (n + 21) / 22 times. */
  lemma StrikesSeldom(ws: seq<Actor>, inputs: seq<Input>, k: nat)
    requires WorldOk(ws) && k < |ws|
    ensures k > 0 ==> Struck(ws, inputs, k) <= (|inputs| + 69) / 70
    ensures k == 0 ==> Struck(ws, inputs, k) <= (|inputs| + 21) / 22
  {
    hide StepActors, WorldOk, Decided;
    if k > 0 { OrcStruck(ws, inputs, k); } else { PlayerStruck(ws, inputs); }
  }
}
