/** The room manager's ledger: rooms with their seats, queues and members, the free and open
    lists, the per-worker load and the mailboxes that hand new rooms to the game workers. */
module Rooms {
  import opened Inputs

  const SEATS: nat := 4

  datatype JoinEntry = JoinEntry(sess: nat, gen: nat, seat: nat)
  datatype LeaveEntry = LeaveEntry(sess: nat, gen: nat)

  /** `takenJ` and `takenL` are the entries that the owning worker has swapped out of the two
      queues and not yet processed (the local vectors of ProcessRoomQueues). */
  datatype Room = Room(dead: bool, everReserved: bool, seatUsed: seq<bool>, reserved: int,
                       pendJ: seq<JoinEntry>, pendL: seq<LeaveEntry>,
                       takenJ: seq<JoinEntry>, takenL: seq<LeaveEntry>,
                       members: seq<Member>, memberCount: int,
                       worker: nat, gen: nat, inQ: seq<Cmd>)

  datatype Book = Book(rooms: seq<Room>, free: seq<nat>, open: seq<nat>,
                       load: seq<int>, mail: seq<seq<nat>>)

  const NO_SEATS: seq<bool> := [false, false, false, false]
  const NO_MEMBERS: seq<Member> := [VACANT, VACANT, VACANT, VACANT]

  predicate RoomShape(r: Room, sessions: nat, workers: nat) {
    && |r.seatUsed| == SEATS && |r.members| == SEATS
    && r.worker < workers
    && (forall k :: 0 <= k < |r.pendJ| ==> r.pendJ[k].sess < sessions && r.pendJ[k].seat < SEATS)
    && (forall k :: 0 <= k < |r.takenJ| ==> r.takenJ[k].sess < sessions && r.takenJ[k].seat < SEATS)
    && (forall k :: 0 <= k < |r.pendL| ==> r.pendL[k].sess < sessions)
    && (forall k :: 0 <= k < |r.takenL| ==> r.takenL[k].sess < sessions)
    && (forall i :: 0 <= i < SEATS && r.members[i].used ==> r.members[i].sess < sessions)
  }

  predicate BookShape(b: Book, sessions: nat) {
    && |b.mail| == |b.load|
    && (forall r :: 0 <= r < |b.rooms| ==> RoomShape(b.rooms[r], sessions, |b.load|))
    && (forall k :: 0 <= k < |b.free| ==> b.free[k] < |b.rooms|)
    && (forall k :: 0 <= k < |b.open| ==> b.open[k] < |b.rooms|)
    && (forall w, k :: 0 <= w < |b.mail| && 0 <= k < |b.mail[w]| ==> b.mail[w][k] < |b.rooms|)
  }

  function FreshRoom(r: Room, worker: nat): Room {
    Room(false, false, NO_SEATS, 0, [], [], [], [], NO_MEMBERS, 0, worker, r.gen, [])
  }

  function Bit(b: bool): nat { if b then 1 else 0 }

  function SeatsTaken(seats: seq<bool>): nat
    requires |seats| == SEATS
  {
    Bit(seats[0]) + Bit(seats[1]) + Bit(seats[2]) + Bit(seats[3])
  }

  function MembersUsed(ms: seq<Member>): nat
    requires |ms| == SEATS
  {
    Bit(ms[0].used) + Bit(ms[1].used) + Bit(ms[2].used) + Bit(ms[3].used)
  }

  /** Lowest vacant seat, or SEATS when the room is full. */
  function FirstVacant(seats: seq<bool>): (i: nat)
    requires |seats| == SEATS
    ensures i <= SEATS && (i < SEATS ==> !seats[i])
    ensures forall j :: 0 <= j < i ==> seats[j]
  {
    if !seats[0] then 0 else if !seats[1] then 1
    else if !seats[2] then 2 else if !seats[3] then 3 else 4
  }

  function TakeSeat(r: Room, i: nat): Room
    requires i < |r.seatUsed|
  {
    r.(seatUsed := r.seatUsed[i := true], everReserved := true, reserved := r.reserved + 1)
  }

  function GiveSeat(r: Room, i: nat): Room
    requires i < |r.seatUsed|
  {
    r.(seatUsed := r.seatUsed[i := false], reserved := r.reserved - 1)
  }

  /** First index of the smallest load, as the scan from worker 0 finds it. */
  function LeastBusy(load: seq<int>, n: nat): (w: nat)
    requires 1 <= n <= |load|
    ensures w < n
    ensures forall k :: 0 <= k < n ==> load[w] <= load[k]
    ensures forall k :: 0 <= k < w ==> load[w] < load[k]
  {
    if n == 1 then 0
    else
      var b := LeastBusy(load, n - 1);
      if load[n - 1] < load[b] then n - 1 else b
  }

  /** Pops a room off the free list and resets it for `worker`. */
  function OpenSlot(b: Book, worker: nat): Book
    requires b.free != [] && b.free[|b.free| - 1] < |b.rooms| && worker < |b.load|
  {
    var r := b.free[|b.free| - 1];
    b.(rooms := b.rooms[r := FreshRoom(b.rooms[r], worker)],
       free := b.free[..|b.free| - 1],
       load := b.load[worker := b.load[worker] + 1])
  }

  function Mailed(b: Book, worker: nat, r: nat): Book
    requires worker < |b.mail|
  {
    b.(mail := b.mail[worker := b.mail[worker] + [r]])
  }

  /** Removes the first occurrence of `x` by moving the last element into its place. */
  function SwapRemove(s: seq<nat>, x: nat, from: nat := 0): (t: seq<nat>)
    requires from <= |s|
    ensures |t| <= |s| && forall k :: 0 <= k < |t| ==> t[k] in s
    decreases |s| - from
  {
    if from == |s| then s
    else if s[from] == x then s[from := s[|s| - 1]][..|s| - 1]
    else SwapRemove(s, x, from + 1)
  }

  /** The entry a stack gives out next. */
  function Top(free: seq<nat>): nat
    requires free != []
  {
    free[|free| - 1]
  }

  predicate NoDup(s: seq<nat>) {
    forall i, j :: 0 <= i < j < |s| ==> s[i] != s[j]
  }

  lemma {:induction false} SwapRemoveKeeps(s: seq<nat>, x: nat, from: nat)
    requires NoDup(s) && from <= |s|
    requires forall k :: 0 <= k < from ==> s[k] != x
    ensures NoDup(SwapRemove(s, x, from))
    ensures forall y :: y in SwapRemove(s, x, from) <==> y in s && y != x
    ensures |SwapRemove(s, x, from)| == if x in s then |s| - 1 else |s|
    decreases |s| - from
  {
    if from == |s| {
    } else if s[from] == x {
      var t := s[from := s[|s| - 1]][..|s| - 1];
      forall y | y in s && y != x ensures y in t {
        var k :| 0 <= k < |s| && s[k] == y;
        if k == |s| - 1 { assert t[from] == y; } else { assert t[k] == y; }
      }
      forall y | y in t ensures y in s && y != x {
        var k :| 0 <= k < |t| && t[k] == y;
        assert y == if k == from then s[|s| - 1] else s[k];
      }
    } else {
      SwapRemoveKeeps(s, x, from + 1);
    }
  }

  /** Puts a room slot back on the free list under the manager lock. */
  function FreeSlot(b: Book, r: nat): (t: Book)
    requires r < |b.rooms| && b.rooms[r].worker < |b.load|
    ensures forall n :: BookShape(b, n) ==> BookShape(t, n)
  {
    var w := b.rooms[r].worker;
    b.(load := b.load[w := b.load[w] - 1],
       open := SwapRemove(b.open, r),
       rooms := b.rooms[r := b.rooms[r].(gen := b.rooms[r].gen + 1)],
       free := b.free + [r])
  }

  /** First seat whose member is the one a leave entry names, or SEATS. */
  function FindMember(ms: seq<Member>, e: LeaveEntry): (i: nat)
    requires |ms| == SEATS
    ensures i <= SEATS
    ensures i < SEATS ==> ms[i].used && ms[i].sess == e.sess && ms[i].gen == e.gen
    ensures forall j :: 0 <= j < i ==> !(ms[j].used && ms[j].sess == e.sess && ms[j].gen == e.gen)
  {
    if ms[0].used && ms[0].sess == e.sess && ms[0].gen == e.gen then 0
    else if ms[1].used && ms[1].sess == e.sess && ms[1].gen == e.gen then 1
    else if ms[2].used && ms[2].sess == e.sess && ms[2].gen == e.gen then 2
    else if ms[3].used && ms[3].sess == e.sess && ms[3].gen == e.gen then 3
    else 4
  }

  // ---- Room transfer ----------------------------------------------------------------------

  /** Seats of the new room: those of the moved members and of the carried join entries. */
  function CarrySeats(seats: seq<bool>, joins: seq<JoinEntry>): (r: seq<bool>)
    requires |seats| == SEATS
    ensures |r| == SEATS
    decreases |joins|
  {
    if joins == [] then seats
    else CarrySeats(if joins[0].seat < SEATS then seats[joins[0].seat := true] else seats, joins[1..])
  }

  function MemberSeats(ms: seq<Member>): (r: seq<bool>)
    requires |ms| == SEATS
    ensures |r| == SEATS
  {
    [ms[0].used, ms[1].used, ms[2].used, ms[3].used]
  }

  function MovedMembers(ms: seq<Member>): (r: seq<Member>)
    requires |ms| == SEATS
    ensures |r| == SEATS
  {
    seq(SEATS, i requires 0 <= i < SEATS => if ms[i].used then ms[i] else VACANT)
  }

  /** What the new room becomes: members, rings, queues and seats of the old one. */
  function MovedIn(nr: Room, was: Room): Room
    requires |was.members| == SEATS
  {
    var seats := CarrySeats(MemberSeats(was.members), was.pendJ);
    nr.(everReserved := true, members := MovedMembers(was.members),
        memberCount := MembersUsed(was.members), seatUsed := seats, reserved := SeatsTaken(seats),
        pendJ := was.pendJ, pendL := was.pendL)
  }

  /** What the old room is left as, before it goes back to the free list. */
  function MovedOut(was: Room): Room
    requires |was.members| == SEATS
  {
    was.(dead := true, pendJ := [], pendL := [], seatUsed := NO_SEATS, reserved := 0, memberCount := 0,
         gen := was.gen + 1,
         members := seq(SEATS, i requires 0 <= i < SEATS => was.members[i].(used := false)))
  }

  /** The ledger after everything in room `r` has moved to a room slot taken off the free list. */
  function MoveBook(b: Book, r: nat): (t: Book)
    requires r < |b.rooms| && |b.rooms[r].members| == SEATS && b.rooms[r].worker < |b.load|
    requires b.free != [] && b.free[|b.free| - 1] < |b.rooms|
    ensures |t.rooms| == |b.rooms| && |t.load| == |b.load| && t.mail == b.mail
    ensures forall n :: BookShape(b, n) ==> BookShape(t, n)
  {
    var was := b.rooms[r];
    var nr := b.free[|b.free| - 1];
    var moved := MovedIn(FreshRoom(b.rooms[nr], was.worker), was);
    var open := SwapRemove(b.open, r);
    var up := b.load[was.worker := b.load[was.worker] + 1];
    b.(rooms := b.rooms[nr := moved][r := MovedOut(was)],
       free := b.free[..|b.free| - 1] + [r],
       open := if moved.reserved < SEATS then open + [nr] else open,
       load := up[was.worker := up[was.worker] - 1])
  }
}
