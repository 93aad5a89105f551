/** The session slot pool: reference counts, slot generations and the free list.
    `Pool` is the abstract value; `SessionPool` is the object the server updates in place. */
module Sessions {

  /** One slot.  `inRoom`, `roomIdx` and `actor` are the room membership fields of a session. */
  datatype Slot = Slot(refs: int, gen: nat, dead: bool, inRoom: bool, roomIdx: nat, actor: nat)

  datatype Pool = Pool(slots: seq<Slot>, free: seq<nat>)

  predicate Bounded(p: Pool) {
    forall i :: 0 <= i < |p.free| ==> p.free[i] < |p.slots|
  }

  /** The slot as it is handed out: one network reference, alive, in no room.  The generation stays. */
  function HandedOut(s: Slot): Slot {
    s.(refs := 1, dead := false, inRoom := false, roomIdx := 0, actor := 0)
  }

  function AllocSlot(p: Pool): (q: Pool)
    requires Bounded(p) && p.free != []
    ensures Bounded(q) && |q.slots| == |p.slots|
  {
    var i := p.free[|p.free| - 1];
    Pool(p.slots[i := HandedOut(p.slots[i])], p.free[..|p.free| - 1])
  }

  function AddRef(p: Pool, i: nat): (q: Pool)
    requires Bounded(p) && i < |p.slots|
    ensures Bounded(q) && |q.slots| == |p.slots|
  {
    p.(slots := p.slots[i := p.slots[i].(refs := p.slots[i].refs + 1)])
  }

  function Release(p: Pool, i: nat): (q: Pool)
    requires Bounded(p) && i < |p.slots|
    ensures Bounded(q) && |q.slots| == |p.slots|
  {
    var s := p.slots[i];
    if s.refs == 1 then
      Pool(p.slots[i := s.(refs := 0, gen := s.gen + 1)], p.free + [i])
    else
      p.(slots := p.slots[i := s.(refs := s.refs - 1)])
  }

  function SetDead(p: Pool, i: nat): (q: Pool)
    requires Bounded(p) && i < |p.slots|
    ensures Bounded(q) && |q.slots| == |p.slots|
  {
    p.(slots := p.slots[i := p.slots[i].(dead := true)])
  }

  /** The pool as the server keeps it: slots updated in place under the pool lock. */
  class SessionPool {
    const slots: array<Slot>
    var free: seq<nat>

    ghost function View(): Pool
      reads this, slots
    {
      Pool(slots[..], free)
    }

    ghost predicate Valid()
      reads this, slots
    {
      Bounded(View())
    }

    /** All slots free, the lowest number on top of the list. */
    constructor (capacity: nat)
      ensures Valid() && fresh(slots) && slots.Length == capacity
      ensures |free| == capacity && forall k :: 0 <= k < capacity ==> free[k] == capacity - 1 - k
      ensures forall i :: 0 <= i < capacity ==> slots[i] == Slot(0, 0, false, false, 0, 0)
    {
      slots := new Slot[capacity](_ => Slot(0, 0, false, false, 0, 0));
      free := [];
      new;
      var i := capacity;
      while i > 0
        invariant i <= capacity && |free| == capacity - i
        invariant forall k :: 0 <= k < |free| ==> free[k] == capacity - 1 - k
        invariant forall j :: 0 <= j < capacity ==> slots[j] == Slot(0, 0, false, false, 0, 0)
      {
        free := free + [i - 1];
        i := i - 1;
      }
    }

    /** Hands out a slot; nothing changes when there is none, or no memory for its first rings. */
    method Alloc(memory: bool) returns (ok: bool, i: nat)
      requires Valid()
      modifies this`free, slots
      ensures Valid() && ok == (old(free) != [] && memory)
      ensures ok ==> i == old(free)[|old(free)| - 1] && View() == AllocSlot(old(View()))
      ensures ok ==> i < slots.Length && slots[i] == Slot(1, old(slots[..])[i].gen, false, false, 0, 0)
      ensures !ok ==> View() == old(View())
    {
      ok, i := false, 0;
      if free == [] || !memory {
        return;
      }
      ok, i := true, free[|free| - 1];
      free := free[..|free| - 1];
      slots[i] := slots[i].(inRoom := false, roomIdx := 0, actor := 0, dead := false, refs := 1);
    }

    method AddReference(i: nat)
      requires Valid() && i < slots.Length
      modifies slots
      ensures Valid() && View() == AddRef(old(View()), i)
    {
      slots[i] := slots[i].(refs := slots[i].refs + 1);
    }

    /** Gives one reference back; with the last one the slot returns to the list a generation older. */
    method ReleaseReference(i: nat)
      requires Valid() && i < slots.Length
      modifies this`free, slots
      ensures Valid() && View() == Release(old(View()), i)
    {
      var before := slots[i].refs;
      slots[i] := slots[i].(refs := before - 1);
      if before == 1 {
        slots[i] := slots[i].(gen := slots[i].gen + 1);
        free := free + [i];
      }
    }
  }
}
