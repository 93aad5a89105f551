/** The server's simulation step over fourteen actor slots, four of them players' seats. */
module Sim {
  import opened Bodies

  const SLOTS: nat := 14
  const PLAYERS: nat := 4
  const TICK_DT: real := 1.0 / 60.0
  const P_SPEED_X: real := 215.0
  const P_SPEED_Y: real := 132.0
  const DIAGONAL: real := 0.7071067811865476
  const IDLE: nat := 0
  const WALK: nat := 1

  datatype Actor = Actor(present: bool, kind: nat, state: nat, face: int, x: real, y: real, hp: int)

  datatype Input = Input(mx: int, my: int)

  function BodyOf(a: Actor): Body { Body(a.x, a.y, a.present) }
  function WithBody(a: Actor, b: Body): Actor { a.(x := b.x, y := b.y) }

  const SLOT: Lens<Actor> := Lens(BodyOf, WithBody)

  lemma SlotLawful()
    ensures Lawful(SLOT)
  { }

  /** A player's move.  Two axes at once are slowed down so that the diagonal is not faster. */
  function MovePlayer(p: Actor, input: Input): Actor {
    if !p.present then p
    else if input.mx == 0 && input.my == 0 then p.(state := IDLE)
    else
      var k := if input.mx != 0 && input.my != 0 then DIAGONAL else 1.0;
      p.(x := p.x + input.mx as real * P_SPEED_X * TICK_DT * k,
         y := p.y + input.my as real * P_SPEED_Y * TICK_DT * k,
         face := if input.mx > 0 then 1 else if input.mx < 0 then -1 else p.face,
         state := WALK)
  }

  function Moved(w: seq<Actor>, inputs: seq<Input>): (r: seq<Actor>)
    requires |inputs| == PLAYERS <= |w|
    ensures |r| == |w|
  {
    seq(|w|, i requires 0 <= i < |w| => if i < PLAYERS then MovePlayer(w[i], inputs[i]) else w[i])
  }

  /** One step: players move, bodies are kept apart, everybody stays on the stage. */
  function Stepped(w: seq<Actor>, inputs: seq<Input>): (r: seq<Actor>)
    requires |inputs| == PLAYERS <= |w|
    ensures |r| == |w|
  {
    var m := Moved(w, inputs);
    Placed(SLOT, m, AllBounded(Separate(BodiesOf(SLOT, m))))
  }

  method SimStep(w: array<Actor>, inputs: seq<Input>)
    requires w.Length == SLOTS && |inputs| == PLAYERS
    modifies w
    ensures w[..] == Stepped(old(w[..]), inputs)
  {
    for i := 0 to PLAYERS
      invariant forall n :: 0 <= n < SLOTS ==>
        w[n] == if n < i then MovePlayer(old(w[n]), inputs[n]) else old(w[n])
    {
      var p := w[i];
      if !p.present {
        continue;
      }
      var mx, my := inputs[i].mx, inputs[i].my;
      if mx != 0 || my != 0 {
        var k := if mx != 0 && my != 0 then DIAGONAL else 1.0;
        w[i] := p.(x := p.x + mx as real * P_SPEED_X * TICK_DT * k, y := p.y + my as real * P_SPEED_Y * TICK_DT * k);
        if mx != 0 {
          w[i] := w[i].(face := if mx > 0 then 1 else -1);
        }
        w[i] := w[i].(state := WALK);
      } else {
        w[i] := p.(state := IDLE);
      }
    }
    assert w[..] == Moved(old(w[..]), inputs);
    SlotLawful();
    SeparateInPlace(SLOT, w);
  }

  // ---- What a step does -------------------------------------------------------------------

  /** One axis of a move: against the key pressed on it and whether the other is pressed too. */
  predicate Pushed(was: real, now: real, key: int, other: int, straight: real) {
    && (key == 0 ==> now == was)
    && (key != 0 && other == 0 ==> now - was == key as real * straight)
    && (key != 0 && other != 0 ==> now - was == key as real * straight * 0.7071067811865476)
  }

  /** Before anybody is pushed apart: a present player goes the way the keys say, 215 and 132 a second, slowed
      on the diagonal, and looks the way he goes; everybody else stays as he is. */
  lemma MoveGoes(w: seq<Actor>, inputs: seq<Input>, k: nat)
    requires |inputs| == PLAYERS <= |w| && k < |w|
    ensures var a, b := w[k], Moved(w, inputs)[k];
      && (k < PLAYERS && a.present ==>
            var mx, my := inputs[k].mx, inputs[k].my;
            && Pushed(a.x, b.x, mx, my, 215.0 / 60.0) && Pushed(a.y, b.y, my, mx, 132.0 / 60.0)
            && b == a.(x := b.x, y := b.y, face := if mx > 0 then 1 else if mx < 0 then -1 else a.face,
                       state := if mx == 0 && my == 0 then IDLE else WALK))
      && (k >= PLAYERS || !a.present ==> b == a)
  { }

  /** The actors present, in slot order: the list the browser logic would hold. */
  function Present(w: seq<Actor>): seq<Body> { Compact(BodiesOf(SLOT, w)) }

  /** After the moves, those present are pushed apart as the browser logic does it on its list of
      actors, holes or not, and empty slots are only clamped. */
  lemma StepMirrorsLogic(w: seq<Actor>, inputs: seq<Input>)
    requires |inputs| == PLAYERS <= |w|
    ensures var m, r := Moved(w, inputs), Stepped(w, inputs);
      && Present(r) == AllBounded(Separate(Present(m)))
      && (forall k :: 0 <= k < |w| && !w[k].present ==> BodyOf(r[k]) == Bounded(BodyOf(w[k])))
  {
    var m := Moved(w, inputs);
    var bs := BodiesOf(SLOT, m);
    SeparateIgnoresHoles(bs);
    CompactBounded(Separate(bs));
    assert BodiesOf(SLOT, Stepped(w, inputs)) == AllBounded(Separate(bs));
  }

  lemma {:induction false} CompactBounded(bs: seq<Body>)
    ensures Compact(AllBounded(bs)) == AllBounded(Compact(bs))
  {
    if bs != [] {
      CompactBounded(bs[1..]);
      assert AllBounded(bs)[1..] == AllBounded(bs[1..]);
      if bs[0].solid {
        assert AllBounded([bs[0]] + Compact(bs[1..])) == [Bounded(bs[0])] + AllBounded(Compact(bs[1..]));
      } else {
        assert [] + Compact(bs[1..]) == Compact(bs[1..]);
        assert [] + Compact(AllBounded(bs[1..])) == Compact(AllBounded(bs[1..]));
      }
    }
  }

  /** Before the stage bounds the centre of gravity is that of the moved actors. */
  lemma StepKeepsSums(w: seq<Actor>, inputs: seq<Input>)
    requires |inputs| == PLAYERS <= |w|
    ensures var bs := BodiesOf(SLOT, Moved(w, inputs));
      && SumX(Separate(bs)) == SumX(bs) && SumY(Separate(bs)) == SumY(bs)
      && BodiesOf(SLOT, Stepped(w, inputs)) == AllBounded(Separate(bs))
  {
    var m := Moved(w, inputs);
    SeparateKeepsSum(BodiesOf(SLOT, m));
    SeparateIgnoresHoles(BodiesOf(SLOT, m));
    assert BodiesOf(SLOT, Stepped(w, inputs)) == AllBounded(Separate(BodiesOf(SLOT, m)));
  }

  function Run(w: seq<Actor>, ticks: seq<seq<Input>>): (r: seq<Actor>)
    requires PLAYERS <= |w| && forall k :: 0 <= k < |ticks| ==> |ticks[k]| == PLAYERS
    ensures |r| == |w|
    decreases |ticks|
  {
    if ticks == [] then w else Run(Stepped(w, ticks[0]), ticks[1..])
  }

  predicate Ordinary(a: Actor) { a.face == 1 || a.face == -1 }

  /** What a step never changes, and where it leaves an actor. */
  lemma StepOne(w: seq<Actor>, inputs: seq<Input>, k: nat)
    requires |inputs| == PLAYERS <= |w| && k < |w|
    ensures var a, b := w[k], Stepped(w, inputs)[k];
      && OnStage(BodyOf(b)) && b.present == a.present && b.kind == a.kind && b.hp == a.hp
      && (Ordinary(a) ==> Ordinary(b))
      && (k >= PLAYERS || !a.present ==> b.state == a.state && b.face == a.face)
      && (k < PLAYERS && a.present ==>
            b.state == (if inputs[k].mx == 0 && inputs[k].my == 0 then IDLE else WALK))
  {
    var m := Moved(w, inputs);
    assert Stepped(w, inputs)[k] == WithBody(m[k], Bounded(Separate(BodiesOf(SLOT, m))[k]));
  }

  /** Over whole runs, whatever the inputs, after the first tick every actor is on the stage; who is
      present, their kind and their hit points stay, and players walk or stand. */
  lemma {:induction false} RunStaysOnStage(w: seq<Actor>, ticks: seq<seq<Input>>, k: nat)
    requires PLAYERS <= |w| && k < |w| && forall i :: 0 <= i < |ticks| ==> |ticks[i]| == PLAYERS
    ensures var a, b := w[k], Run(w, ticks)[k];
      && (ticks != [] || OnStage(BodyOf(a)) ==> OnStage(BodyOf(b)))
      && b.present == a.present && b.kind == a.kind && b.hp == a.hp
      && (Ordinary(a) ==> Ordinary(b))
      && (k < PLAYERS && a.present && ticks != [] ==> b.state == IDLE || b.state == WALK)
    decreases |ticks|
  {
    if ticks != [] {
      StepOne(w, ticks[0], k);
      RunStaysOnStage(Stepped(w, ticks[0]), ticks[1..], k);
    }
  }
}
