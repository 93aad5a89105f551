# Belt: a model of the server, its wire and its combat rules

Belt is a small online belt-scrolling game: a C++ server (network threads on epoll, game workers that own
rooms), a load client, and a browser page.  This project models the parts of it that carry real state and
proves what they promise, for every input, every interleaving and every run.

`dafny verify dfyconfig.toml` checks the whole project.

## How it is laid out

**Session and room lifetime.**  `Sessions`, `Inputs` and `Rooms` hold the data model: session slots with
reference counts and generations, per-player input queues, and the room manager's ledger (seats, queues,
members, free list, open list, load per worker, mailboxes).  `Lifetime` is a transition system over it: any
number of network threads, sessions, rooms and game workers; one action is one lock-protected section or one
atomic operation, and what a thread does to its own local data alone belongs to the action before it.
`LifetimeInv` is the invariant; `LifetimeDeltas`, `LifetimeSteps` and `LifetimeMove` show that each of the 28
actions keeps it; `LifetimeRuns` draws the conclusion for runs and `LifetimeFacts` says what it means in the
server's own fields.  `Seating` says who becomes a member and who stops being one, `Openings` which rooms a join
may use.  `Tracking`, `Leak` and `LeakRun` say exactly when a departed member is lost, `Quiescence` and `Drain`
what happens after everybody has left; `InputFlow`, `InputRuns` and `InputReach` follow inputs from the client's
key through queues, ticks, recycled rooms and room transfers to the actor.  `Manager` holds the same operations
as an object with arrays and loops, and `Alone` shows that a thread of the transition system that runs
undisturbed does what those methods do.  `TickList` is a list of rooms that is edited while it is gone over, `WorkerPass` the whole tick of a game
worker built on `Manager`, and `LonePass` the same tick as steps of the transition system.

The transition system carries some bookkeeping that no action looks at: where each session sits (`loc`,
`seatBy`), where each room is (`home`), what each session has pushed (`hist`, and `ord` in a command), and what
each member has applied (`applied`).  `takenJ` and `takenL` are the local vectors of a worker that works off a
room's queues.

**Byte path.**  `Bytes` and `Framing` say what a byte stream means; `Receivers` has the server's, the load
client's and the page's parser as they run.  `Wakeup` is the hand-over between producers and the owning network
thread (dirty bitmap, send queue, write interest), with any number of producers; `DirtyBits` is the bitmap with
its bit tricks, `Outbound` the flush loop, `Stream` the end-to-end result.  `Wire` is position rounding and the
snapshot, `Requests` what the page sends.  `Echo` and `Backlog` are the load client's echo traffic and send side.

**Simulation and combat.**  `Bodies` is the separation pass that the server and the browser share; `Sim` is the
server's step; `Combat` the browser's step, `Fight` the same as loops over mutable actors; `Blows` says
who is struck, who acts and where a walk goes, `CombatRuns`, `Stun`, `Tempo`, `Target` and `Dash` what follows
over whole fights.  `InputRing` is the eight-slot ring behind a player's input queue,
`Pacer` the tick pacer.

## Where the code and the documents differ, and where a promise fails

* The design document (Docs/SERVER_DESIGN.md:164) says the input turns neutral after ten empty ticks in a row.
  The code (server/src/RoomManager.cpp:377) does it on the eleventh; `InputRing.HeldThenNeutral` states the code.
* A leave reads the session's room number and queues its entry in two steps.  If the room is transferred in
  between, the entry can land in another room than the member's own, and the member is never removed.  A departed
  member is lost if and only if its leave was queued in a room other than the one it is a member of
  (`Tracking.StepLeaks` for each action, `Leak.RunLeaks` for every run); that can be tested before the push
  (`Tracking.StaleMeans`).  It is then lost for ever (`Leak.LeakIsForever`), and a drained server becomes all
  free if and only if no leave went astray like that (`Drain.EventuallyFree`).  `LeakRun.LeakHappens` gives a run
  from start-up, `Leak.AtomicLeavesTrack` what would rule it out.  Everything in `LifetimeFacts` holds regardless.
* If registering write interest fails, a live session can be left with something to send and nobody to be woken.
  `Wakeup.RunStrands` says exactly which sessions are so left at any step of any run, and
  `Wakeup.StrandedWhenArmFails` gives a run.
* The page's reassembler drops what it holds on a bad header and goes on with the next chunk, so its result can
  depend on how the bytes were cut: `Framing.PageChunkIndependentIff` says exactly when it does not.

## Model

| member | source | states |
|---|---|---|
| Sessions.SessionPool.constructor | server/src/Session.h:94-110 | a new pool has every slot free, unreferenced, with the lowest number handed out first |
| Sessions.SessionPool.Alloc | server/src/Session.h:112-142 | hands out the top free slot with one reference, alive, in no room, its generation kept; changes nothing when there is none or no memory |
| Sessions.SessionPool.AddReference | server/src/Session.h:144 | one more reference on that slot and no other change |
| Sessions.SessionPool.ReleaseReference | server/src/Session.h:148-156 | the slot returns to the free list, a generation older, exactly with its last reference |
| LifetimeRuns.StartHolds | server/src/RoomManager.cpp:39-56 | the freshly started server satisfies the invariant, for any number of sessions, rooms and workers |
| LifetimeSteps.AcceptKeeps | server/src/EpollWorker.cpp:151-176 | accepting a connection keeps the whole invariant |
| LifetimeSteps.AcceptFailKeeps | server/src/EpollWorker.cpp:165-174 | a connection that cannot be registered gives its slot back at once and keeps the invariant |
| LifetimeSteps.JoinLockKeeps | server/src/RoomManager.cpp:118-121 | entering Join under the manager lock keeps the invariant |
| LifetimeSteps.JoinPruneKeeps | server/src/RoomManager.cpp:126-146 | dropping a dead or full candidate keeps the invariant |
| LifetimeSteps.JoinReserveKeeps | server/src/RoomManager.cpp:130-143 | reserving the lowest vacant seat keeps the ledger, and the seat is never in a dead room |
| LifetimeSteps.JoinFailKeeps | server/src/RoomManager.cpp:148-152 | a refused join keeps the invariant and returns the lock |
| LifetimeSteps.JoinAllocKeeps | server/src/RoomManager.cpp:63-114 | opening a room for the least busy worker keeps ownership, load and ledger, whatever stale entries the slot held |
| LifetimeSteps.JoinFreshKeeps | server/src/RoomManager.cpp:153-158 | the first seat of a fresh room keeps the invariant |
| LifetimeSteps.JoinRefKeeps | server/src/RoomManager.cpp:161-162 | the join entry's reference keeps counts exact |
| LifetimeSteps.JoinPushKeeps | server/src/RoomManager.cpp:163-166 | queueing the join entry keeps the invariant, also while a worker is working off that room |
| LifetimeSteps.JoinDoneKeeps | server/src/RoomManager.cpp:168-175 | recording the room number and releasing the lock keeps the invariant |
| LifetimeSteps.DieKeeps | server/src/EpollWorker.cpp:443-451 | raising the dead flag keeps the invariant |
| LifetimeSteps.LeaveLoadKeeps | server/src/RoomManager.cpp:180-183 | reading the room number and clearing the room flag keeps the invariant |
| LifetimeSteps.LeavePushKeeps | server/src/RoomManager.cpp:185-188 | queueing a leave keeps the invariant, even in a dead, freed or reused room slot |
| LifetimeSteps.HangUpKeeps | server/src/EpollWorker.cpp:455-466 | returning the network reference keeps counts, generations and free list exact |
| LifetimeSteps.InputLoadKeeps | server/src/RoomManager.cpp:307-309 | reading the room number for an input keeps the invariant |
| LifetimeSteps.InputPushKeeps | server/src/RoomManager.cpp:310-314 | queueing an input keeps the invariant, even in an old room |
| LifetimeSteps.BeginKeeps | server/src/RoomManager.cpp:191-198 | taking in new rooms from the mailbox keeps every room with exactly one owner |
| LifetimeSteps.EndKeeps | server/src/GameWorker.cpp:119-134 | ending the pass keeps the invariant |
| LifetimeSteps.TakeKeeps | server/src/RoomManager.cpp:200-209 | swapping out the two queues keeps every entry accounted for |
| LifetimeSteps.JoinOneKeeps | server/src/RoomManager.cpp:212-244 | seating a join, or turning it away and giving its seat back, keeps the invariant |
| LifetimeSteps.LeaveOneKeeps | server/src/RoomManager.cpp:247-269 | removing the named member, or ignoring a stale leave, keeps the invariant |
| LifetimeSteps.ReturnKeeps | server/src/RoomManager.cpp:225-263 | returning the room's reference keeps counts exact |
| LifetimeSteps.CheckKeeps | server/src/RoomManager.cpp:272-281 | only a room without seats is marked dead, and no seat is reserved in it afterwards |
| LifetimeSteps.FreeKeeps | server/src/RoomManager.cpp:282-302 | freeing a dead room keeps ownership, load and open list |
| LifetimeSteps.TickKeeps | server/src/RoomManager.cpp:334-385 | a tick keeps the invariant |
| LifetimeSteps.StayKeeps | server/src/RoomManager.cpp:454-468 | a room that does not transfer keeps the invariant |
| LifetimeMove.TagsAreHolders | server/src/RoomManager.cpp:515-548 | a transfer rewrites the room number of exactly the sessions that hold a seat in the room |
| LifetimeMove.CarriedSeats | server/src/RoomManager.cpp:526-548 | the seats the new room works out from members and carried joins are exactly the seats of the old room |
| LifetimeMove.MoveKeeps | server/src/RoomManager.cpp:470-563 | a room transfer keeps the whole invariant |
| LifetimeRuns.StepKeeps | server/src/RoomManager.cpp:63-563 | every enabled action of every thread keeps the invariant |
| LifetimeRuns.RunHolds | server/src/RoomManager.cpp:63-563 | every state of every interleaving satisfies the invariant |
| LifetimeFacts.RefsAreHolders | server/src/Session.h:112-156 | in every reachable state the count is the number of holders (network thread, join in progress, join entries anywhere, used members, a worker about to release), at most two, and a slot is free exactly when nobody holds it |
| LifetimeFacts.TagsAreCurrent | server/src/RoomManager.cpp:216-253 | join entries and members carry the current generation of the slot they name |
| LifetimeFacts.GenStep | server/src/Session.h:148-156 | generations never fall; while one stays, a held slot stays held and a dead session stays dead |
| LifetimeFacts.StaleTagFails | server/src/EpollWorker.cpp:181-187 | over any stretch of a run a slot-and-generation tag still matches only if the slot was never released in between |
| LifetimeFacts.SeatsAreBacked | server/src/RoomManager.cpp:126-278 | a used seat has exactly one of reservation in progress, join entry, used member behind it, a free one none; both counters are exact; dead rooms have no used seat |
| LifetimeFacts.JoinTakesVacantSeat | server/src/RoomManager.cpp:229-235 | seating a join never overwrites a used member |
| LifetimeFacts.RoomsHaveOneOwner | server/src/GameWorker.cpp:117-134 | every room slot is in exactly one of the free list, its worker's mailbox and its worker's list; no open room is free |
| LifetimeFacts.LoadIsExact | server/src/RoomManager.cpp:94-104 | no list names a room twice and a worker's load is its number of rooms in use |
| LifetimeFacts.RoomNumberIsRight | server/src/RoomManager.cpp:168-186 | the room number and seat of a live session are those of the one room that holds its entry or its member |
| LifetimeFacts.LastFreedFirst | server/src/Session.h:148-156 | a session slot freed by its last reference, and a freed room slot, is the next to be given out, the session slot a generation older |
| LifetimeFacts.RoomGenStep | server/src/RoomManager.cpp:282-302 | a room slot's generation rises by one exactly when the slot comes free, by death or by transfer |
| Seating.JoinVerdict | server/src/RoomManager.cpp:212-244 | a join entry is turned away exactly when its session has hung up; otherwise the session sits on its reserved seat with no input yet, and nobody else's membership changes |
| Seating.LeaveVerdict | server/src/RoomManager.cpp:247-269 | a leave entry removes the member it names, by session and generation, and no other |
| Tracking.StaleMeans | server/src/RoomManager.cpp:178-188 | the push is into the wrong room exactly when the session is, in its current generation, a member of a room other than the one loaded |
| Tracking.LeavePushLeaks | server/src/RoomManager.cpp:185-188 | queueing a leave loses its own member exactly when the push is into the wrong room, and never another member |
| Tracking.MoveLeaks | server/src/RoomManager.cpp:484-552 | a transfer neither loses a departed member nor finds a lost one, raced or not |
| Tracking.StepLeaks | server/src/RoomManager.cpp:178-302 | a departed member is lost by a push of its own leave into the wrong room, by no other action of any thread, and nothing finds it again |
| Quiescence.StartTracked | server/src/RoomManager.cpp:39-56 | at start-up no departed session is seated anywhere and no leave is on its way |
| Quiescence.SweptIsFree | server/src/RoomManager.cpp:271-302 | when everybody has left and every worker's list is empty, every slot and room is free, every seat count, member and load zero, the open list empty |
| Quiescence.DrainedRun | server/src/GameWorker.cpp:110-135 | after everybody has left, one complete pass of every worker, in any interleaving, frees everything |
| Quiescence.NeverStuck | server/src/GameWorker.cpp:119-134 | after everybody has left a worker always has a next action, members lost or not |
| Quiescence.PassEnds | server/src/GameWorker.cpp:119-134 | after everybody has left each of its actions brings the end of its pass nearer, also of a pass begun earlier, and no other worker's action moves it away |
| Drain.PassFinishes | server/src/GameWorker.cpp:119-134 | so in every endless run in which each worker keeps getting turns, every pass ends |
| Drain.EventuallyFree | server/src/GameWorker.cpp:110-135 | from start-up through any traffic to the last disconnection and beyond, each worker getting turns: a time comes from which every slot, room, seat, load and list is free for good, if and only if no leave was ever pushed into the wrong room |
| Drain.FairRunExists | server/src/GameWorker.cpp:110-135 | from every state with everybody gone there is such a run |
| Leak.RunLeaks | server/src/RoomManager.cpp:178-302 | in every run, under every interleaving, a departed member is lost at a step if and only if its own leave was pushed into the wrong room before |
| Leak.RunTracked | server/src/RoomManager.cpp:178-302 | in every run all departed members have their leave queued in their own room if and only if no leave was pushed into the wrong room |
| Leak.LeakIsForever | server/src/RoomManager.cpp:247-269 | in every continuation after a loss the slot is never freed and some room in use keeps the member |
| Leak.AtomicLeavesTrack | server/src/RoomManager.cpp:178-188 | were no room transferred between the two halves of a leave of one of its members, no departed member would be lost |
| LeakRun.LeakHappens | server/src/RoomManager.cpp:178-188 | a loss is reached from start-up with one client, two rooms and one worker |
| InputFlow.RouteAllKeeps | server/src/RoomManager.cpp:343-359 | routing a batch keeps every member's line of applied and queued inputs its own and in push order |
| InputFlow.ConsumeKeeps | server/src/RoomManager.cpp:362-385 | consuming keeps it, and the input in force stays the last applied one or neutral |
| InputRuns.StartFlows | server/src/RoomManager.cpp:39-56 | the input invariant holds at start-up |
| InputRuns.RunFlows | server/src/RoomManager.cpp:304-385 | in every run all inputs queued anywhere under a current tag come, in order, from that session's history |
| InputRuns.AppliedIsOwn | server/src/RoomManager.cpp:336-385 | what a member applied is an in-order selection of what exactly its session pushed; the input in force and the shown sequence number follow from it |
| InputRuns.AppliedRun | server/src/RoomManager.cpp:497-503 | while a session stays a member, through every transfer, its applied inputs only grow |
| InputRuns.LastSeqRises | server/src/RoomManager.cpp:366-372 | with sequence numbers that never fall at the client, the number a member shows never falls, also through transfers and recycled room slots |
| InputReach.LoadFindsRoom | server/src/RoomManager.cpp:307-309 | a member's input reads the number of the room it is a member of |
| InputReach.PushArrives | server/src/RoomManager.cpp:310-314 | pushed into the member's room, the client's own keys and number stand last in its queue, for the member's seat and under a tag it accepts |
| InputReach.TickTakes | server/src/RoomManager.cpp:336-385 | a tick applies the oldest of what a member had queued and was sent, and keeps the rest, the newest eight in all |
| InputReach.DueIsTaken | server/src/RoomManager.cpp:336-385 | a command for a member in its room's queue is applied or in its ring after the next tick, unless eight newer ones for it came in behind |
| InputReach.QueueRun | server/src/RoomManager.cpp:304-340 | while a session sits in a room, only the room's tick takes anything out of its queue |
| InputReach.PushedIsTakenRun | server/src/RoomManager.cpp:304-385 | from the key to the actor, in every run: what a member pushes into its room is, once the room is ticked with the member still on its seat, applied to its own actor or in its ring, unless eight newer ones for it came in between |
| InputReach.MoveCarries | server/src/RoomManager.cpp:497-503 | a transfer takes each member along whole: seat, ring, input in force, number shown, streak |
| InputReach.OnlyOccupiedMove | server/src/RoomManager.cpp:454-468 | only a room with somebody in it is transferred |
| Manager.RoomManager.LeastLoaded | server/src/RoomManager.cpp:95-103 | the first worker of smallest load |
| Manager.RoomManager.AllocRoomSlot | server/src/RoomManager.cpp:63-114 | takes the top free room, reset, for the given or the least busy worker, with load and mailbox kept in step; changes nothing when none is free |
| Manager.RoomManager.PruneOpen | server/src/RoomManager.cpp:124-146 | the loop over the open list finds what the recursive search finds |
| Openings.SearchMeans | server/src/RoomManager.cpp:123-159 | the place is the lowest vacant seat of the last listed room that lives and has one; only when no listed room has one is a room opened, reset, for the worker with the fewest rooms; only when none is free either is the join refused |
| Openings.SearchKeepsListed | server/src/RoomManager.cpp:124-146 | every listed room that lives and has a vacant seat after the search is still listed, and the room that gave the seat is listed exactly if it has another |
| Openings.JoinKeepsListed | server/src/RoomManager.cpp:116-176 | the same of the whole of Join |
| Openings.ReserveListing | server/src/RoomManager.cpp:126-146 | under every interleaving a reservation takes its room off the list exactly when it is full then, and no other |
| Openings.MoveListing | server/src/RoomManager.cpp:550-561 | a transferred room is listed exactly if it has a vacant seat, and the old slot is not |
| Openings.StepListing | server/src/RoomManager.cpp:63-563 | whatever any thread does, a listed room that lives and has a vacant seat stays listed, and only a room given out for the first time or transferred comes onto the list |
| Openings.RunListing | server/src/RoomManager.cpp:63-563 | so in every run a room once listed is found listed as long as it lives and has a vacant seat |
| Manager.RoomManager.FindSeat | server/src/RoomManager.cpp:123-159 | the seat and ledger of the recursive search, with a new room when no open one has a vacancy |
| Manager.RoomManager.Join | server/src/RoomManager.cpp:116-176 | ledger and pool after a join: seat, reference, queued entry and the session's room fields, or nothing but pruning |
| Manager.JoinAloneIs | server/src/RoomManager.cpp:116-176 | the protocol's join steps without interference give that same ledger and pool |
| Manager.RoomManager.OnSessionLeave | server/src/RoomManager.cpp:178-189 | one leave entry in the session's room and the room flag cleared, or no change at all |
| Alone.LeaveAloneIs | server/src/RoomManager.cpp:178-189 | the protocol's leave steps without interference do that |
| Manager.RoomManager.TakeJoins | server/src/RoomManager.cpp:212-244 | the loop over joins seats or refuses each entry in order, reference and seat together |
| Manager.RoomManager.TakeLeaves | server/src/RoomManager.cpp:247-269 | the loop over leaves removes the first matching member of each entry, if any |
| Manager.RoomManager.CloseRoom | server/src/RoomManager.cpp:285-291 | removal by moving the last open room into the gap |
| Rooms.SwapRemoveKeeps | server/src/RoomManager.cpp:285-291 | such a removal takes out exactly the room named and keeps the list free of duplicates |
| Manager.RoomManager.FreeRoom | server/src/RoomManager.cpp:282-302 | load, open list, generation and free list after freeing |
| Manager.RoomManager.ProcessRoomQueues | server/src/RoomManager.cpp:200-294 | joins before leaves, then the room freed if and only if it was reserved once and is now empty |
| Alone.VisitIs | server/src/RoomManager.cpp:200-302 | a worker's visit to a room as protocol steps, undisturbed, gives that same result |
| Manager.RoomManager.MoveMembers | server/src/RoomManager.cpp:497-522 | members move to the same seats, their sessions learn the room number, the old seats are left unused |
| Manager.RoomManager.CarryJoins | server/src/RoomManager.cpp:537-548 | carried joins bring their seats, keep their order, and their sessions learn the room number |
| Manager.RoomManager.TransferRoom | server/src/RoomManager.cpp:470-563 | the whole transfer: both rooms, both lists, load and pool, or no change when no slot is free |
| TickList.EveryRoomOnce | server/src/GameWorker.cpp:119-134 | whatever becomes of the rooms, taking them out during the pass leaves every room visited exactly once |
| TickList.TickKeepsList | server/src/GameWorker.cpp:110-135 | afterwards the list holds exactly what the rooms became, new ones included |
| WorkerPass.GameWorker.ExitCheckAndMaybeTransfer | server/src/RoomManager.cpp:454-563 | a room moves if and only if it has members, all of them at the exit, and a room slot is free; ledger and pool after the move, or no change |
| WorkerPass.GameWorker.TakeTurn | server/src/GameWorker.cpp:119-134 | one room's turn with the manager's own methods: queues, then freed and off the list, or inputs and exit check, with its entry replaced if it moved |
| WorkerPass.GameWorker.TickOnce | server/src/GameWorker.cpp:110-135 | mailbox and loop with removal in place come to the pass over the whole list, in pool, ledger, list and order of visits |
| WorkerPass.TurnFate | server/src/GameWorker.cpp:119-134 | a room dies in its turn exactly when, its queues worked off, nobody is left of those it once had, moves exactly when it lives with members who are all at the exit and a slot is free, and stays with its inputs applied otherwise |
| WorkerPass.PassSweeps | server/src/GameWorker.cpp:119-134 | the list surgery of that pass is that of `TickList`, with what each turn came to |
| WorkerPass.EveryRoomTurns | server/src/GameWorker.cpp:119-134 | every room on the list has exactly one turn |
| WorkerPass.PassConserves | server/src/GameWorker.cpp:110-135 | list and free list together name the same rooms before and after, none twice and no listed room free |
| LonePass.DeskIsOk | server/src/GameWorker.cpp:110-135 | every reachable state gives a worker what its tick requires |
| LonePass.TurnAloneIs | server/src/RoomManager.cpp:200-563 | a room's turn as protocol steps, from taking the queues to freeing, staying or moving, leaves the same pool, ledger, list and position as the code |
| LonePass.TickAloneIs | server/src/GameWorker.cpp:110-135 | the protocol from Begin to End, undisturbed, comes to what the code's tick comes to |
| InputRing.RoutedQueue | server/src/RoomManager.cpp:343-359 | after any batch a seat holds the newest eight of what it had and what was accepted for it, and nothing else changed |
| InputRing.TickIsPerSeat | server/src/RoomManager.cpp:336-385 | a tick of the room is a tick of each seat with the commands meant for it |
| InputRing.InputsConserved | server/src/RoomManager.cpp:343-385 | over any run routed = consumed + dropped + still queued, one consumed at each tick with something in the ring |
| InputRing.HeldThenNeutral | server/src/RoomManager.cpp:374-384 | with nothing arriving the last command is held through ten ticks and neutral from the eleventh, the shown number fixed |
| InputRing.PlayerInputs.Push | server/src/RoomManager.cpp:351-358 | the ring with head and count is the queue, oldest dropped when eight are held |
| InputRing.PlayerInputs.Route | server/src/RoomManager.cpp:345-359 | a command of another session or generation changes nothing |
| InputRing.PlayerInputs.ConsumeOne | server/src/RoomManager.cpp:364-385 | one command off the front, or the hold-and-neutral rule |
| InputRing.TickInputs | server/src/RoomManager.cpp:343-385 | routing and consuming over the four seats in place is the tick of the protocol |
| DirtyBits.DirtyMap.Mark | server/src/Session.h:64-68 | sets exactly that session's bit |
| DirtyBits.DropLowest | server/src/Session.h:80-82 | `v & (v - 1)` clears the lowest set bit and no other |
| DirtyBits.DirtyMap.Drain | server/src/Session.h:70-85 | visits exactly the marked sessions, once each in ascending order, and leaves none marked |
| Wakeup.StepCovers | server/src/EpollWorker.cpp:369-437 | every step of producers and owner keeps a live session with something to send flagged, armed or in a flush, given that registering write interest succeeds |
| Wakeup.RunCovers | server/src/EpollWorker.cpp:107-115 | so it is in every interleaving with any number of producers |
| Wakeup.StepStrands | server/src/EpollWorker.cpp:369-437 | a session is stranded by a registration that fails with the session unflagged and by nothing else; until somebody produces for it, replies to it or disconnects it, it stays so and no byte of it moves |
| Wakeup.RunStrands | server/src/EpollWorker.cpp:369-437 | so at any step of any run the stranded sessions are exactly those whose last such failure nobody has made up for |
| Wakeup.StrandedWhenArmFails | server/src/EpollWorker.cpp:423-437 | a four-step run that strands a session when the registration fails |
| Wakeup.QuietMeansSent | server/src/EpollWorker.cpp:107-115 | when nothing is marked, flagged or armed, every live session's queue has been written out |
| Wakeup.WakesAreMarked | server/src/EpollWorker.cpp:107-115 | in every run the owner comes back to no more bits than producers have marked |
| Wakeup.StepLives | server/src/EpollWorker.cpp:416-421 | a session ends by a disconnection or a broken write, by nothing else, and never comes back |
| Wakeup.StepFits | server/src/EpollWorker.cpp:369-380 | a queue never holds more than the ring's 16383 usable bytes, and what fits is taken |
| Wakeup.StepOnlyAppends | server/src/EpollWorker.cpp:382-421 | a step only ever appends to the messages accepted and to the bytes written |
| Wakeup.RunStreams | server/src/EpollWorker.cpp:369-421 | in every run bytes written followed by bytes queued are the accepted messages, whole and in order |
| Outbound.Session.Enqueue | server/src/SelfTest.cpp:32-44 | all or nothing against the ring's usable size |
| Outbound.Session.UpdateWriteInterest | server/src/EpollWorker.cpp:423-437 | the flag follows the registration that the kernel accepted |
| Outbound.Session.FlushSend | server/src/EpollWorker.cpp:382-421 | the flush loop under any kernel answers: partial, would block, interrupted, broken |
| Outbound.FlushIsSteps | server/src/EpollWorker.cpp:382-421 | the flush loop is the owner's run of protocol steps |
| Outbound.FlushEnds | server/src/EpollWorker.cpp:382-421 | given more answers than interruptions and queued bytes a flush ends empty, armed or disconnected |
| Outbound.FlushMeans | server/src/EpollWorker.cpp:382-421 | how a flush ends: queue empty, short write, full kernel, broken connection or answers used up; the session is lost exactly on a broken one, write interest is left exactly for what is still to be sent, bytes move in order |
| Outbound.ShortWriteWaits | server/src/EpollWorker.cpp:399-410 | after a write that took less than offered nothing more is written and the session waits for the kernel |
| Stream.PageGetsPrefix | web/belt-proto.js:84-100 | under every interleaving, partial write and chunking the page delivers a prefix of the accepted messages, and all of them once everything is written and read |
| Stream.DummyGetsPrefix | dummy/dummy_main.cpp:456-598 | the same for the load client |
| Stream.EchoIsFramed | server/src/EpollWorker.cpp:278-282 | an echoed frame is again a whole message within bounds |
| Framing.ParseOn | server/src/EpollWorker.cpp:241-273 | parsing, then parsing the leftover with later bytes, is parsing the whole |
| Framing.ParseMeans | server/src/EpollWorker.cpp:241-273 | frames and leftover are exactly the bytes, every frame whole, in bounds and accepted, the leftover less than a frame |
| Framing.ChunkIndependence | server/src/EpollWorker.cpp:204-273 | frames and the decision to give up depend only on the bytes |
| Framing.BuffersNeverFill | server/src/EpollWorker.cpp:208-216 | the leftover between reads is below one maximal frame, so ring and buffer always have room |
| Framing.GoodIff | server/src/EpollWorker.cpp:275-366 | a stream is accepted exactly when its headers are good and every frame is acceptable |
| Framing.ReceiversAgree | dummy/dummy_main.cpp:483-598 | on a stream the server accepts the other two parsers deliver the same frames |
| Framing.PrefixParses | web/belt-proto.js:84-100 | any prefix of whole messages parses to a prefix of them, all of it to all of them |
| Framing.PageChunkIndependentIff | web/belt-proto.js:84-100 | the page's result is independent of chunking if and only if the stream is good or goes bad with its last byte |
| Receivers.ServerReceiver.ParseFrames | server/src/EpollWorker.cpp:241-273 | the dequeue loop delivers what the bytes mean |
| Receivers.EndsIff | server/src/EpollWorker.cpp:218-238 | the connection counts as ended exactly when the first answer other than data and interruptions is the peer's end or an error |
| Receivers.DeliveredIs | server/src/EpollWorker.cpp:204-239 | delivered are exactly the data before the first other answer, in order, interruptions skipped |
| Receivers.ServerReceiver.ReadSession | server/src/EpollWorker.cpp:204-239 | the read loop over any answers takes the frames of what is delivered, and gives the session up exactly on a bad stream or when the connection ends so; its full-ring branch is unreachable |
| Receivers.DummyReceiver.ParseFrames | dummy/dummy_main.cpp:483-598 | the offset loop and the move to the front deliver what the bytes mean and leave room |
| Receivers.Reassembler.Push | web/belt-proto.js:84-100 | one chunk as the page takes it |
| Wire.QuantIsNearest | server/src/Protocol.h:25-33 | rounding is exact on the grid, within 1/64 elsewhere, monotone, zero below zero, and fits sixteen bits on the stage |
| Wire.SnapshotRoundTrip | web/belt-proto.js:60-77 | what the page decodes from a snapshot is what was encoded, and the message is a valid frame |
| Wire.DecodeLosesNothing | web/belt-proto.js:60-77 | every message with a snapshot's header is the encoding of what the page reads from it |
| Wire.SnapshotLayout | web/belt-proto.js:60-77 | every field of a snapshot lies at the fixed offset where the page reads it, lowest byte first |
| Requests.RequestRoundTrip | web/belt-proto.js:20-46 | each request the page encodes is a whole message that the server accepts and takes for what it was, with length, type and number at their fixed offsets |
| Requests.PageIsHeard | server/src/EpollWorker.cpp:241-366 | however the page's requests are cut into chunks, the server takes exactly them, in order |
| Requests.WhoAcceptsWhat | server/src/EpollWorker.cpp:275-366 | the server accepts echoes and the page's three requests in their one size each and nothing else, so nothing it sends itself; the load client gives up only on an echo without number and time and on a refused join |
| Wire.PageSeesWorld | server/src/RoomManager.cpp:407-435 | from the world to the page: kinds, who is present, state, facing, hit points, positions within 1/64 |
| Echo.EchoSizeFor | dummy/dummy_main.cpp:101-108 | sizes stay in the configured range |
| Echo.SizesAreSpread | dummy/dummy_main.cpp:101-108 | a packet has a given size of the range, both ends included, exactly when the generator's value for its number falls into that size's class |
| Echo.FillPad | dummy/dummy_main.cpp:110-120 | the loop fills exactly the padding of the generator and touches nothing else |
| Echo.PadAt | dummy/dummy_main.cpp:110-120 | byte k of the padding is byte k modulo eight of the generator's value number k / 8, whatever the length |
| Echo.BuildEcho | dummy/dummy_main.cpp:657-672 | the send buffer holds the packet for that number and time |
| Echo.PacketIsGenuine | dummy/dummy_main.cpp:657-672 | a sent packet is a valid frame, carries its number, and passes size and padding checks |
| Echo.VerifierExact | dummy/dummy_main.cpp:524-577 | padding flags exactly the packets not as generated, order errors exactly a gap, and every packet counts as late or not |
| Echo.NoFlagMeansInOrder | dummy/dummy_main.cpp:524-577 | no flag on a connection if and only if all packets are genuine and those not late are 1, 2, 3 and so on without a gap |
| Echo.EchoNeverFlags | dummy/dummy_main.cpp:483-598 | through server parser, echo and client parser, in any chunks, no flag is ever raised, and nothing is missing once all has come back |
| Backlog.Sender.SendBytes | dummy/dummy_main.cpp:600-617 | bytes taken plus backlog are the accepted messages in order: with a backlog all of the message joins it, without one the kernel's part is gone and the rest waits; gives up exactly on overflow or a broken connection |
| Backlog.Sender.FlushPend | dummy/dummy_main.cpp:619-629 | exactly the bytes the answers offered go out, in order; the kernel is asked until the backlog is empty, it would block, it breaks or the answers are used up; the client gives up exactly on a broken connection |
| Bodies.ResolveTouches | logic.js:150-163 | a resolved pair exactly touches along one axis, is unchanged along the other, keeps its centre and moves by at most nine |
| Bodies.SeparateKeepsSum | logic.js:136-164 | the pass keeps the sum of x and the sum of y |
| Bodies.SeparateIgnoresHoles | server/src/Sim.cpp:44-75 | the pass over slots with holes is the pass over those present, and holes stay put |
| Bodies.SeparateMoves | logic.js:136-164 | a pass moves a body by at most nine per other body |
| Bodies.TwoComeApart | logic.js:136-164 | two bodies never overlap after a pass |
| Bodies.SeparateInPlace | logic.js:136-164 | the nested loops over mutable actors and the clamp compute that pass and change only positions |
| Sim.MoveGoes | server/src/Sim.cpp:24-42 | before anybody is pushed apart a present player goes the way the keys say, 215 and 132 a second, slowed on the diagonal, looking the way he goes, and everybody else stays as he is |
| Sim.SimStep | server/src/Sim.cpp:21-83 | the step in place is that move, then separation, then the clamp over all slots |
| Sim.StepMirrorsLogic | server/src/Sim.cpp:41-82 | the actors present end where the browser's pass over the list of those present puts them; empty slots are only clamped |
| Sim.StepKeepsSums | server/src/Sim.cpp:44-75 | before the clamp the sums of x and y are those of the moved actors |
| Sim.RunStaysOnStage | server/src/Sim.cpp:21-83 | over whole runs everybody is on the stage; presence, kind and hit points stay; players walk or stand |
| Target.TargetIsFarthest | logic.js:198-208 | the target is the farthest live enemy ahead within 720 and 40 in depth, the smaller id on a tie, and there is none exactly when nobody qualifies |
| Target.OrderDoesNotMatter | logic.js:193-208 | every order of the actors gives the same target and the same dash |
| Target.DashGoesPast | logic.js:259-266 | a dash aims exactly 90 past its target, at least 340 ahead and just that without one, and ends earlier only at the end of the stage |
| CombatRuns.StepOk | logic.js:244-348 | a step keeps hit points in range and zero exactly for the dead, timers in range, attacks resolved exactly past their hit tick, slashed ids distinct orcs and counted; nobody changes identity, the dead stay dead |
| CombatRuns.RunOk | logic.js:244-348 | so it is over every run |
| CombatRuns.ClearedStays | logic.js:244-346 | once cleared, always cleared, cleared means exactly that every orc is dead, and each step counts one tick |
| CombatRuns.AttackHitsOnce | logic.js:321-328 | an attack touches others only in the tick that resolves it |
| Blows.HitLands | logic.js:167-192 | a blow changes exactly the enemies neither dead nor staggered from 8 behind the hitter to 64 (an orc: 52) in front and within 26 (22) in depth, and what it does to them |
| Blows.AttackLands | logic.js:321-328 | an attack strikes in its seventh tick and in no other, and then exactly those |
| Blows.SweepLands | logic.js:216-241 | a sweep of the dash changes exactly the enemies not slashed before between where it started and 50 ahead, within 30 in depth, and adds exactly their ids |
| Blows.DashEvenly | logic.js:328-336 | the dash covers a tenth of its path in each tick |
| Blows.WalkGoes | logic.js:269-279 | a walking player goes the way the keys say, slowed on the diagonal, looking the way he goes |
| Blows.WalkMirrorsServer | logic.js:269-279 | the server moves and turns a player as the browser logic does |
| Blows.PlayerChooses | logic.js:247-281 | dash before attack before walking, each only when free to act, the first two only once their waiting time has run down |
| Blows.OrcChooses | logic.js:283-317 | an orc within reach turns to the player and strikes exactly when its waiting times have run down; out of reach it comes nearer and never passes him |
| Blows.ApartMeans | logic.js:136-164 | the dead and the dashing take no part in the separation, the others end where the pass over them alone puts them, and only places change |
| Tempo.StrikesSeldom | logic.js:266-302 | over any n steps of any fight an orc strikes at most (n + 69) / 70 times and the player at most (n + 21) / 22 times |
| CombatRuns.FiveOrcsOk | logic.js:109-122 | the game's own world is a start for all of this |
| Stun.OrcTurns | logic.js:167-192 | all orcs together hit the player at most once in a tick, and only one who is neither staggered nor dead |
| Stun.StepCost | logic.js:318-340 | after a hit that does not kill the next eleven steps are safe |
| Stun.DamageBound | logic.js:167-192 | over any n steps, any inputs and any number of orcs, at most (n + 11) / 12 hit points are lost |
| Dash.SweepLeavesNothing | logic.js:216-241 | at a dash tick a live orc ahead and within depth is hit or beyond the tip |
| Dash.StillAhead | logic.js:304-336 | between two sweeps an orc that is not hit moves by less than the blade's reach, with at most five orcs |
| Dash.CannotTunnel | logic.js:328-336 | over the whole dash no live orc ahead and within depth is ever skipped |
| Dash.DashArrives | logic.js:328-336 | the tenth tick ends where the dash was aimed |
| Fight.Arena.FindAssaultTarget | logic.js:198-208 | the scan over the actors finds that target |
| Fight.Arena.ResolveHit | logic.js:167-192 | the loop over targets damages exactly those in front of the hitter |
| Fight.Arena.ResolveDash | logic.js:216-241 | the sweep in place, the caster collecting ids as it goes |
| Fight.Arena.AdvanceOne | logic.js:318-342 | one actor's timers, resolution and end of state |
| Fight.Arena.Step | logic.js:244-348 | the whole step in place is the step all the results are about |
| Pacer.Worker.Turn | server/src/GameWorker.cpp:79-107 | one turn of the loop: catch-up of one to three ticks, then a rebase if still late |
| Pacer.WakeMoves | server/src/GameWorker.cpp:85-107 | one to three ticks, the next one in the future, a rebase with skipped ticks exactly when three periods late |
| Pacer.TimeConserved | server/src/GameWorker.cpp:79-107 | over any wake times, period x (ticks + skipped) is at most the schedule's advance and at most one period per rebase below it |
| Pacer.SkipsIffLate | server/src/GameWorker.cpp:95-107 | ticks are skipped if and only if some wake is three periods late; otherwise the schedule is exact |

## Left out

- Room transfer is one step of the protocol: it runs under the manager lock and in the room's own worker; the
  steps it could interleave with (a leave's or an input's read of the room number) are separate steps.
- Memory order: atomics are sequentially consistent steps.
- Generations, ticks and sequence numbers are unbounded; their wrap-around is not modelled.
- Positions are exact reals: rounding of doubles, and bit-for-bit equality of the two simulations, are not modelled.
- The ring buffer's insides: a send or receive ring is a byte queue of its usable size that takes all or nothing.
- Accepting a connection, from slot allocation to registration, is one step; the owner's own session list and the
  closing of descriptors are not modelled.
- The kernel, clocks and the network are parameters: any result of read, write and epoll_ctl, any wake time.
- A server without game workers, which refuses every join at once.
- The rooms' worlds inside the lifetime protocol: positions, spawn places and the exit zone; whether a room
  transfers is left open at each exit check.
- Snapshot and room-event sending inside RoomTick and TransferRoom: they are producers of the byte path.  The
  simulation step of a room's turn is in `Sim`; `WorkerPass` has queues, inputs, exit check and transfer.
- Join replies, pings and the other request handlers' answers, beyond which frames are accepted.
- Dash.CannotTunnel: does not cover more than five orcs, because with more of them the separation pass can push an
  orc farther than the blade reaches.
- That bodies never overlap after a pass over more than two of them, which the code does not promise.
- The load client's option parsing, statistics, timeouts and reconnects; packet sizes are within its checked range.
- Metrics, the page's drawing and interpolation, the relay, and the planned rewind of the design document.
