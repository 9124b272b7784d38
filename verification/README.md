# Verified models of the NodeAkt runtime

NodeAkt is an actor runtime: actors with mailboxes and lifecycles, a remoting layer,
and a cluster that owns actor names. This project models the parts of it whose
correctness is spread over several functions or over every interleaving, and proves
what they promise. `dafny verify dfyconfig.toml` checks the whole project.

| module | what it models |
|---|---|
| `Ownership` | who owns an actor name in the cluster, as a step system over any number of nodes and one store |
| `OwnershipPaths`, `OwnershipRuns`, `CarefulOwnership` | how its operations end when nothing interferes, runs of it that lose a name, and habits of the callers that rule them out |
| `Relocation`, `Relocator` | the balanced fill that places a departed node's actors, and the sweep over several departures |
| `HashRing` | the consistent hash ring behind consistent-hash routing |
| `Scheduler`, `LoopTurns`, `PausedOrder`, `GracefulStop` | the ready queue, its pump and the receive loops; when a loop halts, resumes and gives way; the order of messages across requests that pause an actor; and what a graceful stop owes accepted messages |
| `AskTimeouts`, `AskGenerations`, `AskWheel`, `AskLinks` | the ask timeout wheel: what it promises over time, its linked lists, the wheel with its context pool, and the lists as the wheel's own |
| `Coalescer`, `BatchCodec`, `TellDelivery` | the tell coalescer, the batch it puts on the wire, and the two together |
| `SenderCache`, `WatchLedger` | the capped cache of foreign sender handles, and the ledger that gates death notifications |
| `PidTree` | the actor tree and its death-watch relations |
| `Heap`, `PriorityMailbox`, `Passivation` | binary heaps, and the two users of them: the priority mailboxes and the passivation scheduler |
| `FairMailbox` | the round-robin mailbox |
| `Decimal`, `Paths` | the canonical path printer and parser |
| `Common` | what several modules share |

Code that changes objects step by step is a class or a method with loops, proved against
a specification value; protocols with concurrent or interleaved steps are step systems,
and their results hold for every run from the initial state.

## Assumptions

- `Ownership`: the store applies each operation atomically, and a write it refuses had no
  effect; a node departs after it stopped and its tasks ended. `CarefulOwnership` assumes
  more, and says what that buys.
- `Relocator`: the store has one record per name, members have distinct names, and a node
  is in the list of departures once.
- `Scheduler`: request continuations are total; mailboxes may yield any queued message.
- `PausedOrder`: the mailbox is first in, first out, and the behavior stashes nothing itself.
- `AskTimeouts`: timers never fire early and at most `late` after they are due.
- `AskWheel`: settlement callbacks do not re-enter the wheel.
- `Coalescer`: one path object always leads to one node, because the memo does not compare
  host and port; dead-letter delivery does not re-enter the flush; the carrier is a FIFO
  sequence of envelopes.
- `SenderCache`: a local actor's path is not used by a second incarnation.
- `PidTree`: an actor joins at most once and is in no watch set before it joins.
- `Passivation`: beginning an actor's stop may change the state of any actor, but registers
  and unregisters none.
- `HashRing`: the hash is an arbitrary function from strings to numbers.

## Where the code and its promises differ

- A name can have two owners, or an owner without a record. The stop of an actor is often
  heard by two listeners that both release its name (`src/worker.pool.ts:323-326` and
  `src/actor.system.ts:1376-1379`; `src/system.placement.ts:84-90`), each release deletes
  the record unconditionally, and the second delete can land after another node claimed the
  name (`EchoBreaksOwnership`). A claim is also let through for any caller while the node is
  placing the name (`src/clustering.placement.ts:197-201`), so a second actor is built whose
  stop frees the first one's name (`SquatBreaksOwnership`). `AtMostOneOwner` gives the exact
  condition over every run, and `CarefulRunsKeepOwnership` habits that meet it.
- A failed recreate is documented to hand its record back, so that a later sweep retries it
  (`src/clustering.placement.ts:257-262`). A delete of the name that is still under way from an
  earlier owner can land after the recreate has moved the record; when the build then fails
  there is nothing to hand back, and neither a record nor a node knows the actor any more
  (`FailedRecreateCanVanish`). `FailedRecreateKeepsRecord` gives the exact condition.
- A comment on `#restoreOrphan` says that a name whose hand-back was refused is overwritten
  by the next successful recreate. Every recreate compares against the departed owner, while
  the record names the live node, so the name stays where it is until that node departs or a
  delete still under way lands (`RefusedRestoreStrands`, `StrandedUntilDeparture`,
  `DepartureReleasesName`, `StrandedIsReachable`).
- A receive loop that reaches its quota is documented to yield with `setImmediate`
  (`src/pid.ts:102-114`). When its last message sent to an idle actor, that send has armed a
  microtask pump, which dispatches the loop again before the event loop gets its turn
  (`YieldCanStayInTurn`). `YieldsAtQuota` gives the exact condition; the flag that should carry
  the deferral to the next pump is read only where a pump is armed already
  (`DeferralNeverDecides`).
- The request mode `stashNonReentrant` is documented to preserve strict ordering
  (`docs/actor/reentrancy.md:25`). When the last request ends, what was put aside joins the end
  of the mailbox, so a message that is already queued behind the reply is handed over first
  (`PausedCanBeOvertaken`). `StrictUnlessOvertaken` gives the exact condition.
- A graceful stop can drop a message it had accepted: a message stashed during the drain and
  unstashed while the actor is stopping is refused and dead-lettered
  (`StopCanDropStashed`). `StopOwesNothing` gives the exact condition.
- A watch frame for a suspended actor is answered as if the actor were dead, and releases the
  pin of a registration that stays (`SuspensionCanUnpin`). `PinnedUnlessMisfired` gives the
  exact condition.
- Adding an actor under a taken name leaves the children and watches of the replaced actor
  behind (`ReplacedParent`), and a watcher that has left the tree is still accepted
  (`LateWatcher`). `PidTree.AddNode` and `PidTree.AddWatcher` state exactly when the tree stays
  well-formed.
- A context that is recycled twice is pooled twice (`RecycledTwice`). `AskWheel.Recycle`
  states exactly when the pool stays sound.
- Parsing undoes printing only for paths whose host has no slash (`ParseOfPrint`).

## Model

| member | source | states |
|---|---|---|
| `Ownership.StepKeepsBase` | src/clustering.placement.ts:196-303 | every step of every task keeps tasks on live nodes, recreates working for departed ones, names marked as being placed only while they are built, and names held only while a recreate holds them |
| `Ownership.AtMostOneOwner` | src/clustering.placement.ts:440-503 | through every run, at most one task in the cluster builds or hosts a name and the record names its node, if and only if no step spawns a name its node is placing and no delete or hand-back lands while another task builds or hosts the name |
| `Ownership.NewOwner` | src/clustering.registry.ts:102-139 | a task becomes an owner only by a write the store applied where nobody owned the name |
| `Ownership.SquatBreaksOwned` | src/clustering.placement.ts:196-201 | every spawn of a name its node is placing makes a second owner |
| `Ownership.BlindWriteBreaksOwned` | src/clustering.registry.ts:152-155 | every delete or hand-back that lands on an owner costs it the record |
| `Ownership.GivenUpIsFreed` | src/clustering.placement.ts:213-216 | a failed placement, a refused pool claim or a stopped actor issues the delete that, once applied, leaves its name without a record |
| `Ownership.WithheldDelete` | src/clustering.placement.ts:451-454 | a node that stopped, or that holds the name for a recreate, issues no delete and leaves the records as they are |
| `Ownership.FailedRecreateKeepsRecord` | src/clustering.placement.ts:264-289 | over every run from a won compare-and-set on, each step keeps the record present, naming the recreating node until it has built, and at the end the dead owner again or still the node when the hand-back is refused, if and only if no other task's delete of the name lands meanwhile, nor another hand-back from the same node |
| `Ownership.RefusedRestoreStrands` | src/clustering.placement.ts:291-303 | a refused hand-back strands the name on the live node if and only if the record still names the node and no other task builds, hosts or hands back the name there |
| `Ownership.StrandedUntilDeparture` | src/clustering.registry.ts:102-139 | over every run a stranded name stays stranded throughout if and only if its node does not depart and no delete of it lands |
| `Ownership.DepartureReleasesName` | src/clustering.registry.ts:131-139 | once the node departs, another node's recreate takes the stranded name over |
| `OwnershipPaths.PlacementCompletes` | src/clustering.placement.ts:223-231 | from every state a free name can be placed: its record names the node, the node hosts it, and nothing else changes |
| `OwnershipPaths.PlacementLoses` | src/clustering.placement.ts:223-231 | placing a taken name changes nothing |
| `OwnershipPaths.ClaimCompletes` | src/clustering.placement.ts:196-220 | so for the claim of an instance spawn, whether or not the pool has booted |
| `OwnershipPaths.RecreateCompletes` | src/clustering.placement.ts:264-289 | from every state a departed node's name can be recreated: its record names the new node, which hosts it and no longer holds it |
| `OwnershipPaths.FreeCompletes` | src/clustering.registry.ts:173-190 | freeing a departed node's name removes its record and changes nothing else |
| `OwnershipPaths.StaleChangesNothing` | src/clustering.registry.ts:102-139 | a recreate or a free of a name that no longer names the departed node changes nothing |
| `OwnershipPaths.StopUndoesPlacing` | src/clustering.placement.ts:440-503 | placing, stopping and the landed delete leave every record and every task as they were |
| `OwnershipRuns.EchoBreaksOwnership` | src/worker.pool.ts:256-260 | a run from the start in which the second delete of one stop leaves the next owner without a record |
| `OwnershipRuns.SquatBreaksOwnership` | src/actor.system.ts:1352-1380 | a run from the start in which a spawn of a name its node is placing ends with two nodes owning the name |
| `OwnershipRuns.StrandedIsReachable` | src/clustering.placement.ts:264-303 | a run from the start that ends with a stranded name and no task left |
| `OwnershipRuns.FailedRecreateCanVanish` | src/clustering.placement.ts:264-303 | a run from the start in which an earlier owner's late delete lands during a recreate that then fails, leaving no record and no task |
| `CarefulOwnership.StepKeepsInv` | src/clustering.placement.ts:196-303 | every careful step keeps one holder per name, the record naming it, one recreate per node and name, and frees apart from compare-and-sets |
| `CarefulOwnership.CarefulRunsKeepOwnership` | src/clustering.placement.ts:440-503 | runs with single announcements, no spawn of a name being placed, one recreate per node and name, and one free at a time keep one recorded owner per name throughout |
| `CarefulOwnership.CarefulRunsLeaveNothing` | src/clustering.placement.ts:440-503 | through such a run every record of a live node that has not stopped has a task behind it that builds, hosts or gives back the name, if and only if no delete or hand-back is refused, the pool reports every failed build, and no other claim of a name held for a recreate ends meanwhile |
| `CarefulOwnership.CarefulRunsKeepRecreates` | src/clustering.placement.ts:264-289 | after such a run every recreate in progress has its record, and the next step keeps it |
| `CarefulOwnership.CarefulRefusalStrands` | src/clustering.placement.ts:291-303 | after such a run a refused hand-back always strands the name, and only the node's departure can free it |
| `Relocation.SortNamesSorts` | src/clustering.relocation.ts:71-73 | the sorted names are in order and a permutation of the given ones |
| `Relocation.SortedIsUnique` | src/clustering.relocation.ts:71-73 | there is one such list, so the fill order does not depend on the input order |
| `Relocation.FindEmptiest` | src/clustering.relocation.ts:84-100 | the scan finds the slot with the lowest load, ties going to the lower id |
| `Relocation.PlanFill` | src/clustering.relocation.ts:56-80 | the in-place loop computes the specified plan |
| `Relocation.EveryOrphanPlaced` | src/clustering.relocation.ts:56-80 | every orphan gets exactly one owner, a survivor, whenever there is one |
| `Relocation.FillLevels` | src/clustering.relocation.ts:73-77 | every slot that received an actor ends at most one above every slot |
| `Relocation.PlaceHits` | src/clustering.relocation.ts:73-77 | a survivor's load grows by exactly the names assigned to it |
| `Relocation.PlanIsBalanced` | src/clustering.relocation.ts:56-80 | a survivor that the plan assigns an orphan to ends at most one above any survivor |
| `Relocation.PlanIsOptimal` | src/clustering.relocation.ts:56-80 | no assignment of as many orphans to the survivors has a lower highest load than the plan |
| `Relocation.PlanIgnoresOrder` | src/clustering.relocation.ts:56-80 | the plan is the same for every order of orphans and of survivors with distinct ids |
| `Relocator.Classify` | src/clustering.relocator.ts:250-264 | the ordinary names and the singletons are exactly those of the orphans of that kind, each as often, in scan order |
| `Relocator.RecreateAll` | src/clustering.relocator.ts:344-391 | the moves are exactly the reassignments whose recreate took the name, each counted for its owner |
| `Relocator.RelocateOne` | src/clustering.relocator.ts:243-286 | one departure's pass recreates by the plan and reports the moves that landed |
| `Relocator.PlanOne` | src/clustering.relocator.ts:291-339 | ordinary orphans go where the fill says, singletons to the coordinator |
| `Relocator.TallyPlacements` | src/clustering.relocator.ts:222-229 | every node that has not departed is counted with exactly the records that name it, and a departed one with none |
| `Relocator.CollectOrphans` | src/clustering.relocator.ts:231-234 | a departure's orphans are exactly the records that name it, each as often as it was scanned |
| `Relocator.Relocate` | src/clustering.relocator.ts:222-239 | the loop over departures carries the loads from one pass to the next and plans each with the members in view at its turn |
| `Relocator.LookupMovesPlan` | src/clustering.relocator.ts:291-339 | looking owners up by name sends each node exactly as many actors as the fill planned |
| `Relocator.FillKeepsLevel` | src/clustering.relocator.ts:243-286 | a pass keeps every receiver so far at most one above every member |
| `Relocator.CountsMatchRecords` | src/clustering.relocator.ts:222-239 | whatever the recreates answer, a sweep's final counts are, for every node that did not depart, the records that name it after the moves |
| `Relocator.SweepRewrites` | src/clustering.relocator.ts:243-286 | a sweep moves records of departed nodes only, and each at most once |
| `Relocator.SweepMovesExactly` | src/clustering.relocator.ts:291-391 | a sweep moves a departed node's record if and only if its recreate takes it and it is a singleton, or ordinary with a member in view that can take it; the singleton goes to the coordinator, the ordinary one to such a member |
| `Relocator.SweepIsBalanced` | src/clustering.relocator.ts:344-391 | a sweep over any number of departures without failures or singletons, under an unchanging membership, leaves every receiver with at most one record more than any member |
| `HashRing.HashRing.constructor` | src/hash.ring.ts:78-96 | the two arrays are the sorted ring of every member's virtual points |
| `HashRing.HashRing.Search` | src/hash.ring.ts:112-125 | the binary search finds the first point at or after the hash |
| `HashRing.HashRing.Walk` | src/hash.ring.ts:127-136 | the walk returns the first running owner once around the ring |
| `HashRing.HashRing.Lookup` | src/hash.ring.ts:103-136 | a lookup finds nobody if and only if no member runs, and otherwise the running member that has the nearest virtual point at or after the key, around the ring, the first pushed winning a tie |
| `HashRing.SortSorts` | src/hash.ring.ts:89-92 | the sort orders the points and permutes the entries |
| `HashRing.SortKeepsPushOrder` | src/hash.ring.ts:89-92 | entries whose points collide keep their order |
| `HashRing.StableSortIsUnique` | src/hash.ring.ts:89-92 | a sorted list that keeps colliding entries in order is the sort's result |
| `HashRing.SkippingIsRebuilding` | src/hash.ring.ts:103-136 | walking past stopped members gives the owner of a ring rebuilt from the running ones, collisions included |
| `HashRing.OwnerIsNearest` | src/hash.ring.ts:103-136 | the owner of a key on the sorted ring is, for every ring and hash, the running member with that nearest point |
| `HashRing.ResizeMovesOnlyOwnKeys` | src/hash.ring.ts:78-136 | adding a member moves keys only to it, removing one moves only its own |
| `Scheduler.CompactDrops` | src/pid.ts:150-157 | copying down in place and cutting the length drops exactly the dispatched prefix |
| `Scheduler.CallKeepsFlow` | src/pid.ts:1392-1406 | a send, unstash, suspension, reinstatement or lifecycle call keeps an unsuspended actor with mail scheduled |
| `Scheduler.LoopKeepsInv` | src/pid.ts:1526-1688 | every turn of the executing loop keeps the invariant |
| `Scheduler.PumpKeepsInv` | src/pid.ts:140-162 | starting, advancing and ending a pump keep the invariant |
| `Scheduler.SettleKeepsInv` | src/pid.ts:1625-1656 | resuming a parked behavior keeps the invariant |
| `Scheduler.StepKeepsInv` | src/pid.ts:119-162 | every step of the system keeps the invariant |
| `Scheduler.ProcessedExactlyOnce` | src/pid.ts:1499-1517 | after every run an actor is processing exactly when precisely one ready entry, executing loop or parked behavior is its own; an unsuspended actor with mail is being processed; undispatched entries have a pump armed or under way |
| `Scheduler.QuiescentMeansDrained` | src/pid.ts:1526-1543 | when the thread is idle with no pump armed, every unsuspended actor has drained its mailbox or is parked |
| `LoopTurns.SuspendedLoopHalts` | src/pid.ts:1675-1682 | a loop whose behavior returns to find its actor suspended halts, with the mailbox and the log as they were |
| `LoopTurns.FaultHalts` | src/pid.ts:1675-1682 | so a behavior that faults and settles halts its loop at once |
| `LoopTurns.SuspensionHolds` | src/pid.ts:1658-1690 | through every run without a reinstatement a halted actor is handed nothing and accepts nothing, and keeps its mail unless it is torn down |
| `LoopTurns.ReinstatementResumes` | src/pid.ts:1392-1406 | a reinstatement schedules the mail of a suspended actor exactly once, with a pump to run it |
| `LoopTurns.StopTearsDown` | src/pid.ts:619-637 | a stop whose loop has gone idle can run `postStop` and the teardown, which leave no mail, no stash and no suspension |
| `LoopTurns.TeardownIsFinal` | src/pid.ts:619-637 | through every run a torn-down actor stays so, is handed nothing and accepts nothing |
| `LoopTurns.StashedComeBack` | src/pid.ts:1340-1390 | messages put aside one by one and then unstashed stand in the mailbox behind what was queued, oldest first, none lost, with the loop scheduled |
| `LoopTurns.PausedComesBack` | src/pid.ts:1564-1580 | so does a message put aside while a request pauses the actor, as the last |
| `LoopTurns.NeverOverQuota` | src/pid.ts:1526-1616 | from its dispatch on, a loop that goes on executing has completed fewer messages than its quota |
| `LoopTurns.YieldsAtQuota` | src/pid.ts:1576-1616 | the message that uses up the quota makes the loop give way behind everyone queued, still processing, and it waits for the event loop if and only if no pump was armed or the armed one waits too; any other message lets it go on |
| `LoopTurns.DeferralNeverDecides` | src/pid.ts:140-162 | after every run a pump that ends with entries left finds its successor armed, so the deferral it carries changes nothing |
| `LoopTurns.YieldCanStayInTurn` | src/pid.ts:119-162 | a run from the start in which a loop that used up its quota waits for a microtask pump, not for the event loop |
| `PausedOrder.RedeliversInOrder` | src/pid.ts:1368-1390 | re-delivery moves the stash to the end of the mailbox in order, up to the first message that is refused, which is lost |
| `PausedOrder.StepKeepsOrder` | src/pid.ts:1526-1580 | a step from an ordered state keeps handed, put-aside and queued messages in the order of acceptance if and only if it does not end the last request with messages put aside while others are queued or one is refused |
| `PausedOrder.StrictUnlessOvertaken` | src/pid.ts:1091-1113 | through every run the actor is handed its messages in the order it accepted them, and holds the rest in that order, if and only if no step of the run is of that kind |
| `PausedOrder.PausedCanBeOvertaken` | src/pid.ts:1091-1113 | a run from a new actor in which the second of two messages is handed over first |
| `GracefulStop.CallAccounts` | src/pid.ts:1359-1390 | a call keeps every accepted message accounted for, and drops exactly what a refused unstash or a cleared stash lets go unseen |
| `GracefulStop.TurnAccounts` | src/pid.ts:1526-1616 | a turn of the loop keeps every accepted message accounted for and drops none |
| `GracefulStop.StopOwesNothing` | src/pid.ts:539-583 | a stop without fault or restart reaches `postStop` with an empty mailbox and nothing running, and every accepted message was handed over, consumed or is stashed if and only if no step of the run let go of one unseen |
| `GracefulStop.StopCanDropStashed` | src/pid.ts:1545-1575 | a run in which the loop takes a pill, stashes an accepted message while it drains, completes the request, and drops what it unstashes |
| `AskTimeouts.StepKeepsOnce` | src/receive.context.ts:602-619 | every step keeps each ask in exactly one place: waiting once in its own list, or settled once |
| `AskTimeouts.StepKeepsInv` | src/receive.context.ts:602-626 | every step keeps the lists' timers armed within bounds of what waits in them |
| `AskTimeouts.SettledAtMostOnce` | src/receive.context.ts:684-706 | over every run an ask's callbacks run at most once, and it is pending exactly while they have not |
| `AskTimeouts.SettledByTheFirst` | src/receive.context.ts:684-706 | over every run a pending ask is settled by the first answer, rejection, cancel or second sweep that befalls it, with that outcome at that time, and is pending until then |
| `AskTimeouts.FateStays` | src/receive.context.ts:684-706 | over every run a settled ask keeps its outcome and time |
| `AskTimeouts.ExpiresWithinTwoPeriods` | src/receive.context.ts:566-580 | an ask that times out does so between one and two periods after it was sent, give or take the lateness of two timers |
| `AskTimeouts.PendingIsTimed` | src/receive.context.ts:622-626 | a pending ask's list has its timer armed, due within two periods of the ask, and no ask is pending longer than that by more than the lateness of two timers |
| `AskTimeouts.SentIsPending` | src/receive.context.ts:828-845 | an ask is pending as soon as it is sent |
| `AskTimeouts.Unanswered` | src/receive.context.ts:602-619 | for every duration there is a run in which an unanswered ask times out two periods after it was sent |
| `AskTimeouts.LeftAlone` | src/receive.context.ts:602-619 | an ask nobody settles is young before the first sweep of its list, old before the second, and timed out after it |
| `AskGenerations.AskGeneration.Append` | src/receive.context.ts:828-840 | a context joins the tail and the links stay well-formed in both directions |
| `AskGenerations.AskGeneration.Remove` | src/receive.context.ts:709-733 | a context leaves from anywhere and the links of the others stay well-formed in both directions |
| `AskGenerations.AskContext.Unlink` | src/receive.context.ts:709-733 | a context in no generation has nothing to leave, any other leaves the one it points at |
| `AskGenerations.BridgedSpells` | src/receive.context.ts:715-728 | pointing the neighbours, or the ends, past a context spells out the list without it |
| `AskLinks.Join` | src/receive.context.ts:828-840 | appending to one generation leaves every other one well-formed and as it was |
| `AskLinks.Leave` | src/receive.context.ts:709-733 | so does removing from one |
| `AskLinks.Linked.Mint` | src/receive.context.ts:797-799 | a new context joins unlinked, and every linked list still spells out the wheel's store |
| `AskLinks.Linked.Enlist` | src/receive.context.ts:809-845 | linking a context keeps every linked list spelling out the wheel's store, with the context enlisted |
| `AskLinks.Linked.Settle` | src/receive.context.ts:684-733 | unlinking a context keeps every linked list spelling out the wheel's store, with the context detached |
| `AskLinks.Linked.Open` | src/receive.context.ts:813-824 | a new duration adds two empty lists |
| `AskLinks.Linked.Sweep` | src/receive.context.ts:602-615 | the loop over the old list's head terminates and leaves the lists spelling out the swept store |
| `AskLinks.LinkedWheel.CreateRequest` | src/receive.context.ts:788-845 | wheel and linked objects together refine the specification's enlisting, and the objects go on spelling out the wheel |
| `AskLinks.LinkedWheel.SettleAsk` | src/receive.context.ts:684-733 | together they refine the specification's settling, and record the given outcome at the given time |
| `AskLinks.LinkedWheel.SweepAsks` | src/receive.context.ts:602-619 | together they refine the specification's sweep |
| `AskWheel.AskWheel.CreateRequest` | src/receive.context.ts:788-805 | a pooled or new context is armed and enlisted as the specification enlists its ask |
| `AskWheel.AskWheel.FindList` | src/receive.context.ts:809-826 | the one-entry cache and the map find the same list, made on first use |
| `AskWheel.AskWheel.EnlistContext` | src/receive.context.ts:809-845 | enlisting refines the specification's enlisting |
| `AskWheel.AskWheel.SettleAsk` | src/receive.context.ts:684-697 | a response, rejection or cancel settles exactly a live ask, as the specification does, and runs one callback, of that ask, with that outcome at that time |
| `AskWheel.AskWheel.SweepAsks` | src/receive.context.ts:602-619 | the sweep's loop and swap refine the specification's sweep, and the callbacks that ran are those of the settled asks in order, each told what its ask came to |
| `AskWheel.AskWheel.Recycle` | src/receive.context.ts:678-682 | only a settled, unlinked context is pooled, up to the pool's limit, and the wheel stays sound if and only if the context was not pooled already |
| `AskWheel.ExpireKeepsFaith` | src/receive.context.ts:605-609 | expiring the head of the old generation brings the wheel one ask further through its sweep |
| `AskWheel.RecycledTwice` | src/receive.context.ts:678-682 | an ask, its answer and two recycles lead to a wheel that is no longer sound |
| `Coalescer.EmitTotal` | src/remoting.ts:1094-1133 | emitting a batch changes no pair's sequence of sent and buffered tells |
| `Coalescer.AddTotal` | src/remoting.ts:1006-1015 | buffering a tell extends its pair's sequence by it and no other's |
| `Coalescer.SameKeySamePair` | src/remoting.ts:1028-1046 | two tells share a batch key if and only if node, receiver and sender agree |
| `Coalescer.Coalescer.MemoIsPending` | src/remoting.ts:994-1004 | a memoized batch that has not left is the one the pair map holds |
| `Coalescer.Coalescer.FindBatch` | src/remoting.ts:994-1050 | memo and pair map find the batch the tell must join |
| `Coalescer.Coalescer.BufferTell` | src/remoting.ts:976-1024 | the tell is accepted at the end of its pair's sequence, sent followed by buffered stays exactly what was accepted, buffered batches stay below both caps, buffered work has a flush scheduled, and what was accepted from each pair stays what was told from its sender to its receiver |
| `Coalescer.Coalescer.SendAlone` | src/remoting.ts:977-991 | an oversize tell leaves after whatever its pair had buffered |
| `Coalescer.Coalescer.FlushTells` | src/remoting.ts:1074-1087 | a flush leaves nothing buffered, or nothing for the one node, and loses nothing |
| `Coalescer.Coalescer.RunFlush` | src/remoting.ts:1053-1063 | after the scheduled flush every pair has sent exactly what was accepted |
| `Coalescer.Coalescer.SendAsk` | src/remoting.ts:1165-1169 | an ask leaves when nothing is buffered for its node, after every tell accepted for that node |
| `BatchCodec.ReadOfUvarint` | src/net/values.ts:224-408 | reading undoes writing for every safe integer, whatever follows |
| `BatchCodec.AddHolds` | src/remoting.ts:1006-1016 | adding a tell makes the batch hold exactly one tell more, with its type in the table |
| `BatchCodec.FillHolds` | src/remoting.ts:1006-1016 | a batch filled with any tells holds exactly them, in order |
| `BatchCodec.SendBatch` | src/remoting.ts:1094-1133 | a lone entry leaves as the plain tell it stands for, more as a batch the receiver recovers whole |
| `BatchCodec.ReceivedOfEncode` | src/remoting.ts:1365-1436 | for every batch within the caps the receiver accepts the counts and indices and recovers exactly the entries, in order |
| `BatchCodec.HandleBatch` | src/remoting.ts:1365-1436 | the receiving loops deliver what decodes in order, dead-letter alone what does not, give up the whole payload on a bad head, and only the remainder on a broken stream |
| `BatchCodec.ReadAllAccounts` | src/remoting.ts:1402-1428 | the entries reached are as many as declared, or fewer and the remainder is the rest of the stream from the first entry that does not parse |
| `BatchCodec.ReceivedAccounts` | src/remoting.ts:1365-1436 | a payload with a bad head is given up whole, and one with a good head yields its declared entries, or fewer and exactly the rest of its stream |
| `BatchCodec.ReadTableLoop` | src/remoting.ts:1379-1389 | the table loop reads the declared number of names |
| `BatchCodec.DeliverLoop` | src/remoting.ts:1402-1428 | the entry loop goes on in order until an entry does not parse, delivering the entries that decode |
| `BatchCodec.SiftSplits` | src/remoting.ts:1410-1416 | every entry reached is either delivered or dead-lettered |
| `TellDelivery.UnwrapOfWrap` | src/remoting.ts:1094-1133 | the receiver recovers every envelope the coalescer may emit |
| `TellDelivery.AcceptedIsDelivered` | src/remoting.ts:976-1133 | whatever a coalescer went through, the receiver recovers for every pair a prefix of the tells accepted from it, in order and each once, and all of them once nothing is buffered |
| `TellDelivery.ToldIsDelivered` | src/remoting.ts:976-1133 | what the receiver recovers for a pair are tells made from its sender to its receiver on its node, in the order they were made, and all of them once nothing is buffered |
| `SenderCache.EvictSpares` | src/remoting.ts:2148-2173 | eviction keeps pinned entries and the one just inserted as they are |
| `SenderCache.EvictHoldsCap` | src/remoting.ts:2148-2173 | eviction ends within the cap unless every other entry walked is pinned |
| `SenderCache.EvictsOldestFirst` | src/remoting.ts:2148-2162 | when an entry is evicted, so is every unpinned one less recently heard from |
| `SenderCache.EvictSenders` | src/remoting.ts:2148-2173 | the loop over the map computes that eviction |
| `SenderCache.InsertHoldsCap` | src/remoting.ts:2094-2099 | after an insert the cache is within its cap, or every other entry is pinned |
| `SenderCache.StepKeeps` | src/remoting.ts:1478-1628 | every step keeps pins backed by registrations and handles under their own keys, and keeps live registrations pinned unless it is a watch frame of a registered pair for a suspended target |
| `SenderCache.PinnedResolves` | src/remoting.ts:2060-2136 | resolving a pinned watcher's sender again yields the registered handle, and no resolution unpins it |
| `SenderCache.RegisteredExactly` | src/remoting.ts:1478-1628 | a watch of a running actor registers its sender's handle, an unwatch removes exactly that, a lost session exactly what it delivered, a stopped actor its own, and no other step changes a registration |
| `SenderCache.DeliveriesAreTracked` | src/remoting.ts:1478-1628 | a watch of a running actor is recorded under the session that delivered it, until that session is lost |
| `SenderCache.StoppedForGood` | src/remoting.ts:1478-1511 | through every run nobody is registered again on an actor that has stopped |
| `SenderCache.HeardIsMostRecent` | src/remoting.ts:2130-2136 | a sender heard from while the cache is at its cap becomes the last that eviction reaches, and the cache holds the same handles |
| `SenderCache.NewIsCached` | src/remoting.ts:2092-2100 | a sender new to the cache is cached, unpinned, under a handle of its own |
| `SenderCache.ForgottenKeepsOrder` | src/remoting.ts:2130-2136 | the other senders keep their order |
| `SenderCache.PinnedUnlessMisfired` | src/remoting.ts:1478-1511 | over every run, registrations on live actors stay pinned throughout if and only if no watch frame of a registered pair meets its target suspended |
| `SenderCache.SuspensionCanUnpin` | src/remoting.ts:1484-1488 | a run in which a second watch frame during a suspension releases the pin |
| `WatchLedger.Ledger.Watch` | src/remoting.ts:786-798 | a watch arms its pair, unless the layer is closed |
| `WatchLedger.Ledger.Unwatch` | src/remoting.ts:802-809 | an unwatch disarms its pair |
| `WatchLedger.Ledger.OnNotice` | src/remoting.ts:1282-1290 | an arrived notification of a watched pair consumes the pair's entry and passes, or lapses when its watcher is gone, and one of an unwatched pair changes nothing |
| `WatchLedger.Ledger.OnBatch` | src/remoting.ts:1418-1422 | of each watched pair exactly the first notification of a batch passes, in order |
| `WatchLedger.Ledger.SettleNode` | src/remoting.ts:870-883 | a lost carrier notifies exactly the watchers on its node, unless the system is stopping |
| `WatchLedger.Ledger.OnUndeliverable` | src/remoting.ts:2351-2361 | a watch frame that cannot travel consumes its pair's entry |
| `WatchLedger.AtMostOncePerWatch` | src/remoting.ts:1274-1290 | in every history the ledger allows, a pair is notified at most once per watch call |
| `WatchLedger.LedgerNotifiesOnce` | src/remoting.ts:1274-1290 | so does every ledger, and an armed pair has a watch to spare |
| `WatchLedger.NoneUntilWatched` | src/remoting.ts:802-809 | between an unwatch, or a notification, and the next notification of a pair lies a new watch |
| `PidTree.PidTree.AddNode` | src/pid.tree.ts:63-87 | a new actor joins under its registered parent or as a root and replaces the actor in its place, and the tree stays well-formed if and only if no children and no watches hang on the replaced one |
| `PidTree.JoinOrBreak` | src/pid.tree.ts:373-382 | the tree and the watch indexes survive a replacement exactly under that condition |
| `PidTree.ReplacedParent` | src/pid.tree.ts:63-87 | replacing an actor that has a child leads from an empty tree to one that is no longer well-formed |
| `PidTree.LateWatcher` | src/pid.tree.ts:257-269 | so does a watcher registering after it left |
| `PidTree.PidTree.DeleteNode` | src/pid.tree.ts:93-113 | exactly the actor and its descendants leave, the count follows, and no watch set mentions them |
| `PidTree.CollectSubtree` | src/pid.tree.ts:98-108 | the stack walk lists the actor and its descendants each once, parents first |
| `PidTree.PidTree.Unlink` | src/pid.tree.ts:385-404 | an actor without children leaves with its watches in both directions |
| `PidTree.LeaveKeepsMirror` | src/pid.tree.ts:385-394 | the two cleanup loops keep the indexes mirror images and drop every mention of the leaver |
| `PidTree.PidTree.Nodes` | src/pid.tree.ts:180-208 | every registered actor is listed once, and the list is as long as the count |
| `PidTree.ListNodes` | src/pid.tree.ts:180-208 | the scan from the roots finds every registered actor exactly once |
| `PidTree.PidTree.AddWatcher` | src/pid.tree.ts:257-269 | exactly the one registration is added, reported when new, mirrored for a registered watcher, and the indexes stay well-formed if and only if the watcher has not left |
| `PidTree.PidTree.RemoveWatcher` | src/pid.tree.ts:274-278 | exactly the one registration is removed from both indexes, and reported |
| `Heap.SiftUpStep` | src/passivation.manager.ts:223-234 | one swap of a sift-up moves the only disorder one level up |
| `Heap.SiftDownStep` | src/passivation.manager.ts:236-259 | one swap with the upper child moves the only disorder one level down, and closes it above |
| `Heap.RootIsFirst` | src/passivation.manager.ts:189-193 | nothing in an ordered heap outranks its root |
| `PriorityMailbox.OrderIsWeak` | src/priority.mailbox.ts:113-131 | breaking ties by arrival keeps a strict weak order one |
| `PriorityMailbox.FileKeepsSorted` | src/priority.mailbox.ts:60-73 | putting the latest arrival behind all it does not outrank keeps a list sorted by priority and arrival |
| `PriorityMailbox.HeadIsTop` | src/priority.mailbox.ts:75-94 | the head of the sorted list is the heap's root |
| `PriorityMailbox.PriorityMailbox.Less` | src/priority.mailbox.ts:113-131 | the comparison of two slots is the ranking of their entries |
| `PriorityMailbox.PriorityMailbox.SiftUp` | src/priority.mailbox.ts:147-157 | sifting up orders the heap and permutes both arrays alike |
| `PriorityMailbox.PriorityMailbox.SiftDown` | src/priority.mailbox.ts:159-180 | sifting down orders the heap and permutes both arrays alike |
| `PriorityMailbox.PriorityMailbox.Enqueue` | src/priority.mailbox.ts:60-73 | a refused message changes nothing; an accepted one is added, and in the stable mailboxes inserted into the sorted list |
| `PriorityMailbox.PriorityMailbox.Dequeue` | src/priority.mailbox.ts:75-94 | the message taken is one no queued message outranks, the rest is kept, and in the stable mailboxes it is the head of the list sorted by priority and arrival |
| `PriorityMailbox.PriorityMailbox.Dispose` | src/priority.mailbox.ts:104-110 | disposing empties the mailbox |
| `Passivation.PassivationManager.constructor` | src/passivation.manager.ts:65-73 | the scheduler starts with nothing scheduled and no timer |
| `Passivation.PassivationManager.Up` | src/passivation.manager.ts:223-234 | sifting up orders the deadlines with every slot still its actor's index |
| `Passivation.PassivationManager.Down` | src/passivation.manager.ts:236-259 | sifting down leaves disorder at most above the slot it started from |
| `Passivation.PassivationManager.Push` | src/passivation.manager.ts:180-186 | the schedule gains exactly the one deadline |
| `Passivation.PassivationManager.RemoveAt` | src/passivation.manager.ts:205-221 | removal from anywhere, by sift-down then sift-up of the moved slot, loses exactly that actor and keeps order and slots |
| `Passivation.PassivationManager.Arm` | src/passivation.manager.ts:155-178 | a non-empty heap has its timer armed no later than its earliest deadline |
| `Passivation.PassivationManager.Register` | src/passivation.manager.ts:81-91 | registering replaces the actor's schedule, or removes it for other strategies, and the timer covers the heap |
| `Passivation.PassivationManager.Unregister` | src/passivation.manager.ts:94-97 | unregistering removes exactly the actor, and the timer covers the heap |
| `Passivation.PassivationManager.Stop` | src/passivation.manager.ts:100-113 | stopping clears the schedule, the slots and the timer |
| `Passivation.RulingMeans` | src/passivation.manager.ts:121-149 | a due actor is passivated if and only if it is found running and idle with its window over, dropped if and only if it neither runs nor is suspended, and otherwise looked at again when its window ends, or a full one from now if it has or the actor is suspended |
| `Passivation.PassivationManager.SettleEarliest` | src/passivation.manager.ts:121-149 | one turn of the timer pass passivates, drops or reschedules the earliest actor exactly as the state it is found in calls for |
| `Passivation.TreatOne` | src/passivation.manager.ts:121-149 | each turn leaves one due actor fewer, because every re-push is later than now |
| `Passivation.PassivationManager.TakeTurn` | src/passivation.manager.ts:121-149 | one turn judges the earliest actor by its state at that turn, whatever the passivations before it changed |
| `Passivation.PassivationManager.OnTimer` | src/passivation.manager.ts:116-152 | the pass terminates, settles every due actor exactly once by the state it is found in, passivates exactly those found running, idle and past their window, finds actors as they were until the first passivation, and leaves a timer for what remains |
| `FairMailbox.UnboundedFairMailbox.Enqueue` | src/fair.mailbox.ts:85-106 | the message joins its sender's queue, and a sender with nothing pending joins the ring last |
| `FairMailbox.UnboundedFairMailbox.Dequeue` | src/fair.mailbox.ts:108-126 | the first sender in the ring gives its oldest message and goes to the back, or leaves |
| `FairMailbox.UnboundedFairMailbox.PushActive` | src/fair.mailbox.ts:144-153 | the links spell out the ring with the box at its end |
| `FairMailbox.UnboundedFairMailbox.PopActive` | src/fair.mailbox.ts:155-168 | the links spell out the ring without its first box |
| `FairMailbox.UnboundedFairMailbox.Dispose` | src/fair.mailbox.ts:136-142 | disposing empties the mailbox |
| `FairMailbox.PutKeepsWellFormed` | src/fair.mailbox.ts:85-106 | an enqueue keeps each sender with pending messages in the ring once and no other |
| `FairMailbox.TakeKeepsWellFormed` | src/fair.mailbox.ts:108-126 | so does a dequeue |
| `FairMailbox.RoundRobin` | src/fair.mailbox.ts:108-126 | in every run the head message at ring position r is the (r+1)-th delivered, whatever is enqueued meanwhile |
| `FairMailbox.FifoPerSender` | src/fair.mailbox.ts:85-126 | in every run a sender's messages come out in its own order, however often its box is dropped and recreated |
| `Decimal.ValueOfPrint` | src/path.ts:402-412 | reading a printed number gives it back |
| `Decimal.PrintOfValue` | src/path.ts:402-412 | printing undoes reading on canonical digit strings |
| `Paths.MintingIsExact` | src/path.ts:303-336 | the factory yields exactly the valid paths, on the node it is given, a parent's system name being matched up to case |
| `Paths.SameUpToCase` | src/path.ts:315-320 | system names match if and only if they agree letter by letter in either case |
| `Paths.ParsePath` | src/path.ts:376-431 | the loop that rebuilds the ancestors computes the specified parse |
| `Paths.PrintOfParse` | src/path.ts:376-431 | every accepted string is reproduced exactly by printing what it parses to |
| `Paths.ParseOfPrint` | src/path.ts:208-217 | parsing a printed path gives an equal path if and only if its host has no slash |
| `Paths.EqualsIffSameString` | src/path.ts:219-240 | two such paths are equal exactly when their strings match, at any depth |
| `Paths.UidIsItsNumber` | src/path.ts:347-361 | a given uid is accepted as a number if and only if it is that number's decimal form, the empty uid standing for none |
| `Paths.ParsedUid` | src/path.ts:376-431 | a parsed path carries exactly the uid it was parsed with, and its ancestors none |
| `Paths.SplitOfJoin` | src/path.ts:414-417 | splitting undoes joining slash-free segments |
| `Paths.JoinOfSplit` | src/path.ts:414-417 | joining undoes splitting |

## Left out

- Sockets, TLS, peers, lanes, the membership protocol and the key-value engine: I/O, or code behind the store operations that `Ownership` takes as atomic.
- Live nodes declared departed, companion records and their cleanup: no part of `Ownership`.
- Restart racing with shutdown, supervision directives and backoff timing: a suspension or a reinstatement may come at any moment in `Scheduler`, which covers their effect on the flags, but not who decides them.
- Relocation events, the list of failed names and the freeing of non-relocatable names in `Relocator`: they change neither the counts nor the moves.
- Routed targets of inbound watches: their registrations live on another isolate and pin nothing.
- Message-count passivation: one comparison in the receive loop, a shutdown like any other in `Scheduler`.
- FNV-1a arithmetic: no property of the ring depends on it.
- UTF-8: a type name is its encoded bytes in `BatchCodec`.
- The reserved type name of a batch: `BatchCodec` tells a batch from a single tell by its constructor.
- Pair keys and sender keys as strings: they are tuples or opaque keys here, so the unambiguity of their string templates is not modelled.
- Box identity in the fair mailbox: a box is named by its sender's key, and links are keys; at most one box per key exists.
- Context and generation identity in `AskWheel`: both are numbers, and a generation stands for its list of contexts; `AskLinks` runs the wheel on the linked objects the numbers stand for.
- Batch identity in `Coalescer`: batches are numbered records, and a batch stands for the tells it holds.
- Paths.UidIsItsNumber: a uid is an unbounded number, where the source keeps a double, exact up to 2^53; the counter that mints uids starts at one, and a larger given uid would print as its rounding.
- Paths.ParsedUid: the same.
- Floating point in the passivation deadlines: they are reals, where `now + timeout` is always later than `now`; in doubles a timeout below half a unit in the last place of the clock would not be.
- Bounded mailboxes, behavior stacks, routers, event streams, metrics and options: correct but easy members.
