# Airport baggage: a model of the simulation and of its distributed layer

The repository simulates the handling of baggage in an airport: bags move over four kinds of
conveyor belt from check-in through scanners and dispatching robots into containers. The belts
live in shared memory that a hand-built layer spreads over several machines: a token per group of
clients travels with the group's memory, semaphores are tokens too, and the brokers elect a leader
on a ring. This project models that code and proves what it is for.

| Part | Files |
|---|---|
| Ring buffers, wake-up loops | `RingBuffer`, `Wakeups`, `Sums`, `Bags`, `Bytes` |
| Check-in belt and loading belt, a whole flight | `CheckinBelt`, `BeltProtocol`, `FlightLoading` |
| Main belt and its dispatchers | `MainBelt`, `MainBeltProtocol`, `Dispatcher` |
| Scanner belts | `ScannerBelts`, `ScannerProtocol` |
| Leader election | `RingNodes`, `Election`, `ElectionOutcome`, `ElectionCost`, `LinkBreaks` |
| Groups, tokens, regions | `ClientTable`, `GroupTokens`, `RoundRobin`, `GroupRegions` |
| Memory on a stream | `Blocks`, `Reception`, `BlockTransfer` |
| Distributed memory and semaphore | `Coherence`, `DistributedSemaphore`, `SemaphoreBound` |
| All of them on one register per site | `SharedRegister`, `WaitingChains`, `JointLocks`, `JointProgress`, `JointDeadlock`, `SiteRequests`, `SiteWaits` |
| Ini dictionary, containers | `Dictionary`, `Packing` |

How it is built:

- Code that works on memory in place is a class whose methods are proved against functions on
  values (`CintaPrincipal.Put` against `PutLocked`). The protocols are state machines: `Enabled`
  says when a step may be taken, `Apply` what it does, and a run is any sequence of enabled steps,
  so every theorem about runs covers every interleaving. The machines use the same functions the
  methods are proved against. Steps are cut at semaphore and lock operations.
- Semaphores are counters and a lock is a mutex. All sizes are parameters: capacities, numbers of
  producers, readers, scanners, slots, groups, ring size, block size, memory size. Only the limits of
  a container (3000, 30) and the least size of a dictionary (128) are the constants of the source.
- Some states carry variables that only follow what happens: the history of bags put and taken, the
  place of the token, the bytes of the last unlock. No step reads them.

Where the code does something its comments or its callers do not expect, the model follows the code:

- `Grupo::join` raises the mutex twice for a duplicate name, once in the check and once in `join`
  (`GrupoClientes.Join`). An empty name is a duplicate as long as a slot is free, and leaving with an
  empty name lowers the count without freeing anything (`LeaveKeepsValid` gives the exact condition).
- The memory check admits as many groups as the table of names holds, but the end of the last region
  is then written behind the table of offsets, where the first region starts
  (`OffsetsOverflowExactlyOnFullList`). The model keeps that word apart from the region.
- `dictionary_set` with a NULL value does not delete the key, as its comment suggests: the key stays,
  counts in `n`, and `dictionary_get` returns NULL instead of the default (`Dictionary.Get`).
- A bag heavier than a container is logged and dropped, yet counted as loaded
  (`NothingLostExactlyWhenAllFit`, `FlightEnds`).
- `recv_token` looks for LEAVE in the buffer before a message is complete, over what was there before:
  an earlier message, or, in the first turn, memory that nobody has set
  (`CompletesExactlyWhenNeverMisread`).
- The register of a site holds one request, written once by `lock` or `wait_on`. When another resource
  of the site writes or clears it, the token is sent back every time it comes: a client of the memory
  is forgotten for ever (`ForgottenForEver`), a wait on a semaphore until another wait at the same site
  (`ForgottenUntilAskedAgain`). With one calling process per site this never happens
  (`NobodyForgotten`, `RequestsStand`).
- Nothing keeps processes from taking two memories in opposite order, and then they wait for each other
  for ever (`OppositeOrdersDeadlock`). That a circle of holders wait for each other is the only way a
  `lock` gets stuck (`EntersExactlyUnlessDeadlocked`); the scanner belts, which take a belt before the
  control and never the other way round, cannot (`AscendingLocksEnter`).
- The communicator of a semaphore goes on comparing while the application it has woken has yet to clear
  the register, so more tokens than waits can be given to a site and be missing at another; and where
  two applications of a site wait, the first to end its wait clears the request of the second
  (`LostExactly`, `EndOfWaitForgetsAnother`).
- A `signalize` clears whatever request stands in the register of its site, so a process that signals
  takes away the wait of another process of that site (`OwnCallForgets`, `SignalForgetsOwnWait`).
- A LinkBroken stops the leader wherever it is, but only nodes whose own link broke propose themselves
  again: unless the greatest node is one of them the ring is left without a leader
  (`LeaderReturnsExactlyIfGreatestBroke`).
- The robot does not count a bag whose identifier is 0; a flight that has one never lets the robot out
  of its loop (`FlightEnds`).

Check the whole project with `dafny verify dfyconfig.toml`.

## Model

| member | source | states |
|---|---|---|
| `RingBuffers.AroundIsModulo` | api/cinta.h:155-155 | stepping a position round the vector by comparison is the `%` of the code, for every capacity |
| `RingBuffers.PushAppends` | api/cinta.h:154-156 | storing at the free position appends to the queue the buffer stands for, keeps the positions consistent and the capacity |
| `RingBuffers.PopRemovesHead` | api/cinta.h:191-193 | advancing the occupied position removes exactly the oldest element |
| `RingBuffers.RingMemory.Store` | api/cinta.h:154-156 | the array version: after the call the queue is the old one with the bag behind it |
| `RingBuffers.RingMemory.Head` | api/cinta.h:191-191 | the element read is the oldest one |
| `RingBuffers.RingMemory.Drop` | api/cinta.h:192-193 | after the call the queue is the old one without its head |
| `Wakeups.ClearFlags` | api/cinta.h:117-122 | the wake-up loop clears every flag and signals the owner of each flag that was set, in order |
| `Wakeups.RaisedOnce` | api/cinta.h:113-139 | each sleeper is signalled exactly once and nobody else is |
| `CheckinBelt.PutKeepsCounters` | api/cinta.h:152-169 | a put keeps the ring consistent and both waiting counters equal to the number of set flags |
| `CheckinBelt.TakeKeepsCounters` | api/cintacarga.h:238-272 | so does a take, whether it removes a bag, finds the belt empty or returns the dummy |
| `CheckinBelt.Cinta.Put` | api/cinta.h:150-172 | the locked section of a put: appends the bag exactly if there is room, and raises and sleeps as specified |
| `CheckinBelt.Cinta.Take` | api/cinta.h:186-208 | the locked section of a take: removes the head exactly if there is one, and raises and sleeps as specified |
| `CheckinBelt.Cinta.WakeConsumersLocked` | api/cinta.h:114-125 | signals and clears exactly the sleeping consumers, and the counter |
| `CheckinBelt.Cinta.WakeProducersLocked` | api/cinta.h:128-139 | signals and clears exactly the sleeping producers, and the counter |
| `CheckinBelt.PutIgnoresClosing` | api/cintacarga.h:166-198 | a put of the loading belt is a put of the plain belt: the closing words neither matter nor change |
| `CheckinBelt.TakeIgnoresClosing` | api/cintacarga.h:238-263 | an ordinary take likewise |
| `CheckinBelt.CintaCarga.Put` | api/cintacarga.h:151-200 | put of the loading belt |
| `CheckinBelt.CintaCarga.Take` | api/cintacarga.h:220-281 | the first take that meets a closed belt returns the dummy and changes nothing on the belt; every other is an ordinary take |
| `CheckinBelt.CintaCarga.NotifyClosed` | api/cintacarga.h:304-317 | stores the number, closes, and wakes exactly the sleeping consumers |
| `CheckinBelt.CintaCarga.TotalBags` | api/cintacarga.h:288-300 | the robot is told the number the desk gave when it closed the belt, once it has noticed the closing, and -1 before |
| `CheckinBelt.CintaCarga.StartNewLoad` | api/cintacarga.h:209-217 | forgets the number and the closing, on the belt and in the consumer |
| `BeltProtocol.PutConserves` | api/cinta.h:152-169 | a put spends the permit of its own producer once, on its flag or its semaphore, and gives or takes no other |
| `BeltProtocol.TakeConserves` | api/cintacarga.h:238-272 | the same for a take |
| `BeltProtocol.PutFlags` | api/cinta.h:159-167 | after a put a sleeping producer still means a full belt and a sleeping consumer an empty one |
| `BeltProtocol.TakeFlags` | api/cinta.h:195-205 | the same for a take |
| `BeltProtocol.StepKeeps` | api/cintacarga.h:151-317 | every step of every process keeps: one permit per producer and consumer over semaphore, hand, flag and signal under way; the meaning of the flags; who is inside the lock; the queue |
| `BeltProtocol.RunKeeps` | api/cinta.h:142-211 | the same over every interleaved run, any capacity and number of producers |
| `BeltProtocol.QueueOverRuns` | api/cinta.h:142-211 | over every run the bags taken are the oldest bags put, the buffer holds exactly the others, and never more than its capacity |
| `BeltProtocol.NoLostWakeUp` | api/cinta.h:113-139 | while there is room every producer at its semaphore has its permission or a signal on the way; the consumer while there are bags |
| `BeltProtocol.StuckExactlyWhenAsleep` | api/cinta.h:142-211 | no step is possible if and only if every process has finished or sleeps, a producer on a full belt, the consumer on an empty one |
| `BeltProtocol.DeadlockFree` | api/cinta.h:142-211 | with a put and a take in progress some step is always possible, for every capacity of at least one |
| `BeltProtocol.FirstTakeAfterClosing` | api/cintacarga.h:264-272 | the first take after the closing returns the dummy and leaves belt and queue alone |
| `BeltProtocol.OneDummyPerLoad` | api/cintacarga.h:208-281 | from the closing to the reset every run returns the dummy exactly once if any take enters, else never |
| `BeltProtocol.AnnouncedTotalIsRead` | api/cintacarga.h:289-317 | the number announced is what the consumer is told in that load from its first take after the closing on, and -1 before, over every run |
| `BeltProtocol.EmptyBeltForgets` | api/cintacarga.h:209-217 | with an empty belt the invariant holds for a new load |
| `FlightLoading.MoveKeeps` | processes/robot_carga.cpp:83-117 | every move of producers, desk, belt and robot keeps: each bag of the flight is owed, on the belt or taken; what the robot counted is what it took; it knows the number only if it is right |
| `FlightLoading.LeavesWithEveryBag` | processes/robot_carga.cpp:83-117 | when the robot leaves its loop it has loaded all bags of the flight, once each, in the order put, and the belt is empty |
| `FlightLoading.FlightEnds` | processes/robot_carga.cpp:83-117 | a flight that cannot go on has put and taken every bag; and the robot has left its loop if and only if no bag has identifier 0 |
| `FlightLoading.MoveShrinks` | processes/robot_carga.cpp:83-117 | a well-founded measure falls with every move of a flight, refused puts and wake-ups included: no run is infinite |
| `FlightLoading.CanFinish` | processes/robot_carga.cpp:83-117 | from every state of a flight its end can be reached |
| `FlightLoading.PlayKeeps` | processes/robot_carga.cpp:83-117 | the invariant over whole flights |
| `FlightLoading.FlightLoadsExactlyItsBags` | processes/robot_carga.cpp:83-117 | over every interleaving from the start to the end, the robot has loaded exactly the bags of the flight |
| `FlightLoading.NextFlightStarts` | processes/robot_carga.cpp:119-136 | after the loop and the reset of the belt the next flight may start |
| `MainBelt.CintaPrincipal.Put` | api/cintaprincipal.h:140-181 | the locked section of a put: appends exactly if there is room, wakes the first reader exactly if the right slept on an empty belt |
| `MainBelt.CintaPrincipal.Read` | api/cintaprincipal.h:266-289 | reads the head without removing it, or puts the right to sleep on an empty belt |
| `MainBelt.CintaPrincipal.Extract` | api/cintaprincipal.h:204-248 | removes the head, wakes the producers of a full belt, and gives the right to the first reader or to sleep |
| `MainBelt.EveryReaderInTurn` | api/cintaprincipal.h:186-198 | a bag that everybody lets go by is offered to each reader exactly once before it comes back to the first |
| `MainBeltProtocol.PutFacts` | api/cintaprincipal.h:145-174 | a put leaves its own permit once and signals reader 0 exactly when the sleeping right must wake |
| `MainBeltProtocol.ExtractFacts` | api/cintaprincipal.h:213-232 | an extraction leaves no producer asleep and signals exactly those that slept |
| `MainBeltProtocol.ExtractRight` | api/cintaprincipal.h:234-241 | and passes the right on exactly once |
| `MainBeltProtocol.StepKeeps` | api/cintaprincipal.h:126-291 | every step keeps the single right, that it is away from the first reader only on a non-empty belt, the producers' permits, the locks and the queue |
| `MainBeltProtocol.RunKeeps` | api/cintaprincipal.h:126-291 | the same over every run |
| `MainBeltProtocol.OneRightCounted` | api/cintaprincipal.h:155-163 | semaphores of the readers + readers that owe an advance or extraction + the sleeping flag + signals under way = 1, always |
| `MainBeltProtocol.HeldBagIsHead` | api/cintaprincipal.h:271-278 | between a read and what follows it the bag read stays at the head, and no other reader has the right |
| `MainBeltProtocol.ExtractsWhatWasRead` | api/api_control_equipajes.cpp:29-35 | the extraction, in a later locked section, removes exactly the bag this reader read |
| `MainBeltProtocol.QueueOverRuns` | api/cintaprincipal.h:126-291 | for any number of producers and readers the belt is a bounded first-in first-out queue over every run |
| `MainBeltProtocol.EveryBagIsPlaced` | api/cintaprincipal.h:125-182 | over every run the bags asked for are those placed and those still in the hands of their producers: a put ends only when its bag is on the belt |
| `MainBeltProtocol.EveryReadIsAnswered` | api/cintaprincipal.h:254-291 | over every run each read begun ends with a bag, which its reader lets go by or extracts, except one still in progress |
| `MainBeltProtocol.EveryBagGoesDownTheChain` | api/cintaprincipal.h:186-242 | over every run each bag goes down the chain from its first reader, and round again if all let it by: the reader that has read it is at the place given by the number of readers that let it by before |
| `MainBeltProtocol.StuckExactlyWhenAsleep` | api/cintaprincipal.h:126-291 | no step is possible if and only if every process rests or sleeps |
| `MainBeltProtocol.StopsOnlyWhenDrained` | api/cintaprincipal.h:155-163 | waking only reader 0 is enough: with all readers at work the belt stops only when it is empty and every bag that any producer was asked to put has been extracted, over every run |
| `Dispatcher.ApiDespachante.ReadNext` | api/api_despachante.cpp:37-51 | advances the belt first exactly if that is owed, then reads its head, or puts the right to sleep on an empty belt; owes a call exactly after a read |
| `Dispatcher.ApiDespachante.ExtractBag` | api/api_despachante.cpp:53-59 | the bag returned, the one read last, is the one the belt removes, and nothing more is owed |
| `Dispatcher.ApiDespachante.AdvanceBelt` | api/api_despachante.cpp:61-68 | passes the right to the next reader exactly if that is owed |
| `Dispatcher.OneMoreCall` | api/api_despachante.cpp:37-68 | the calls on the belt alternate between a read and exactly one advance or extraction |
| `Dispatcher.ProtocolAlternates` | api/api_despachante.cpp:37-68 | over every run of the belt the calls of each reader alternate, and it owes one exactly while it holds the right after a read: the flag does what the protocol expects |
| `ScannerBelts.FullTurn` | api/cintascanner.h:245-254 | the search for a belt, from any start, finds one if and only if some belt is marked as having space |
| `ScannerBelts.StopsAtFirst` | api/cintascanner.h:245-254 | no belt that the search passes has space |
| `ScannerBelts.CintaScanner.Choose` | api/cintascanner.h:241-258 | the producer under the control lock: stops at the first belt with space, going round from where it was, no belt before it having any; or sleeps, when no belt has |
| `ScannerBelts.CintaScanner.Place` | api/cintascanner.h:267-290 | the producer under the lock of the belt: appends the bag, and tells whether to wake the scanner and whether the belt is full |
| `ScannerBelts.CintaScanner.MarkFull` | api/cintascanner.h:296-299 | marks the belt full |
| `ScannerBelts.CintaScanner.Take` | api/cintascanner.h:339-350 | a scanner under the lock of its belt: takes the head if there is one |
| `ScannerBelts.CintaScanner.MarkOpen` | api/cintascanner.h:355-374 | a belt marked full is marked open again, and a sleeping producer is to be woken |
| `ScannerBelts.CintaScanner.Settle` | api/cintascanner.h:378-386 | the scanner sleeps exactly on an empty belt |
| `ScannerBelts.CintaScanner.Activate` | api/cintascanner.h:143-168 | switching a scanner on opens an unused belt and wakes a sleeping producer |
| `ScannerBelts.CintaScanner.constructor` | api/cintascanner.h:205-221 | all belts empty and unused, nobody asleep |
| `ScannerProtocol.StepKeeps` | api/cintascanner.h:143-395 | every step of the producer and of any scanner, cut at both kinds of lock, keeps: who holds which lock, the producer's one permission, one turn per scanner, what the marks mean, the queues |
| `ScannerProtocol.RunKeeps` | api/cintascanner.h:143-395 | the same over every run |
| `ScannerProtocol.QueuesOverRuns` | api/cintascanner.h:223-395 | room is looked for under one lock and used under another, yet a bag is only placed where there is room, and each belt is a bounded first-in first-out queue |
| `ScannerProtocol.OpenBeltGetsItsShare` | api/cintascanner.h:241-302 | the producer goes round: as long as a belt stays open, of every n bags placed on n belts at least one goes to it |
| `ScannerProtocol.MarksTellTheTruth` | api/cintascanner.h:290-303 | whenever the lock of a belt in use is free it is marked full if and only if it is full; a sleeping producer means no belt is marked open |
| `ScannerProtocol.StuckExactlyWhenAsleep` | api/cintascanner.h:223-395 | the two levels of locks never deadlock: no step is possible if and only if all processes rest or sleep |
| `ScannerProtocol.StopsOnlyWhenDrained` | api/cintascanner.h:223-395 | with a scanner in use and all those in use at work, the belts stop only when drained and with nothing left to put |
| `ScannerProtocol.EveryBagIsPlaced` | api/cintascanner.h:229-313 | over every run the bags asked for are those placed on the belts and the one in the hand of the producer: a put ends only when its bag is placed |
| `ScannerProtocol.EveryTakeTakesOne` | api/cintascanner.h:326-395 | over every run a scanner has taken one bag for each take begun, less one while it looks, and gives back the bag it removed |
| `ScannerProtocol.AllAskedForIsTaken` | api/cintascanner.h:223-395 | there every bag the producer was asked to put has been taken, over every run |
| `RingNodes.InboundDriver.HandleLoopMessage` | group/inbound.py:44-96 | what the inbound driver keeps, forwards and starts for each kind of message and order of names: it forwards a greater name and the break of another, stops its process when it forwards, starts it only for its own name, and tells its user once |
| `RingNodes.OutboundDriver.HandleLoopMessage` | group/outbound.py:26-48 | what the outbound filter keeps and lets pass |
| `Election.PassedOn` | group/passage.py:101-104 | a message that passes a node carries its distance in its time to live, and a proposal has beaten every node it crossed |
| `Election.HomeMeansTop` | group/inbound.py:55-71 | a proposal that comes home has beaten all, the ring is no larger than the time to live, and TTL - ttl + 1 is its size |
| `Election.OutboundNeverDrops` | group/outbound.py:33-38 | in every safe state the outbound filter drops nothing: the inbound driver already did |
| `Election.ChannelsMove` | group/passage.py:75-104 | each step changes the first-in first-out channels by removing one head and appending at most one message |
| `Election.StepKeepsSafe` | group/inbound.py:44-96 | every step keeps the journey of every message and that only the greatest name is ever elected |
| `Election.RunKeepsSafe` | group/inbound.py:44-96 | the same over every run |
| `Election.OnlyTheGreatestIsElected` | group/inbound.py:55-71 | in every reachable state a node that elected itself or runs a leader process has the greatest name, so there are never two, and the ring is no larger than the time to live |
| `ElectionOutcome.ForeignProposalIsHeading` | group/inbound.py:74-81 | the proposal of another node never gets past the greatest |
| `ElectionOutcome.HeadingComesFromBehind` | group/inbound.py:155-171 | a forwarding node appends a message still on its way to the greatest only if one arrived |
| `ElectionOutcome.WinnerMoves` | group/inbound.py:78-81 | when the proposal of the greatest arrives, all behind it is quiet and names the greatest |
| `ElectionOutcome.StepKeepsProposed` | group/inbound.py:155-171 | the proposal of the greatest is not lost before it comes home, on rings within the time to live |
| `ElectionOutcome.StepKeepsAgreeing` | group/inbound.py:44-96 | every step keeps the whole picture: behind the proposal of the greatest all is clear and named, and after its election the whole ring is |
| `ElectionOutcome.StepKeepsTold` | group/outbound.py:33-38 | whoever has sent on the proposal of the greatest names it at the outbound end, and keeps doing so |
| `ElectionOutcome.SettledRingAgrees` | group/inbound.py:44-96 | once nothing is in flight every node names the greatest, at its inbound and its outbound end, and its leader process is the only one, if and only if the ring is no larger than the time to live; on larger rings no leader process ever runs |
| `ElectionOutcome.NoBreakAfterElection` | group/inbound.py:83-91 | after its election no LinkBroken of another node is on its way to the winner or arrives, and its process runs |
| `LinkBreaks.StepCarriesBreak` | group/passage.py:94-104 | a break on its way is heard by the next node and goes on from there |
| `LinkBreaks.BreaksGoRound` | group/inbound.py:83-91 | over every run from the start the LinkBroken of a node that has announced itself is on its way to each other node within the time to live until that has been given it; a settled ring has given it to exactly those |
| `LinkBreaks.StepKeepsMayRun` | group/inbound.py:83-91 | a leader process still runs only where no break has been heard yet, or where the greatest announced itself and was elected |
| `LinkBreaks.LeaderReturnsExactlyIfGreatestBroke` | group/inbound.py:155-171 | links break at any nodes of a quiet ring within the time to live, whatever leaders its nodes name and run: settled again without a re-election, the ring has a leader if and only if the greatest node is among them, and then all agree on it; otherwise no leader process is left anywhere |
| `ElectionCost.StepWorks` | group/passage.py:93-104 | the work left falls with every step except a re-election, which adds one message |
| `ElectionCost.RunsEnd` | group/passage.py:93-104 | every message dies: the length of every run is bounded by the work at its start |
| `ElectionCost.SettledExactlyWhenOnlyReelection` | group/inbound.py:155-171 | only re-elections are possible if and only if all nodes forward and nothing is in flight |
| `ElectionCost.ElectionEnds` | group/inbound.py:155-171 | from the start at most 2n(2 TTL + 3) steps, plus 2 TTL + 3 per re-election, and a run that cannot go on otherwise has elected the greatest everywhere |
| `ElectionCost.CrossingCosts` | group/inbound.py:74-81 | a proposal that crosses a link has one link less to go, and the greatest lets none pass |
| `ElectionCost.CrossingsBounded` | group/inbound.py:31-33 | one round of proposals makes at most n(n+1)/2 link crossings, each re-election at most n more |
| `ClientTables.JoinKeepsValid` | local_broker/grupo.cpp:163-188 | a join succeeds if and only if there is a free slot, the name is not empty and not there; it takes the first free slot, changes no other and keeps the count right |
| `ClientTables.LeaveKeepsValid` | local_broker/grupo.cpp:205-220 | a leave undoes a join; it keeps the count right if and only if the name is not empty or the table is full |
| `ClientTables.GrupoClientes.Join` | local_broker/grupo.cpp:163-188 | the method does that, and gives the mutex back once, except for a duplicate name, when it is raised twice |
| `ClientTables.GrupoClientes.IsClient` | local_broker/grupo.cpp:222-230 | finds the name if and only if it is there, and then raises the mutex |
| `ClientTables.GrupoClientes.Leave` | local_broker/grupo.cpp:205-220 | frees the first slot with the name, if any |
| `ClientTables.GrupoClientes.NextOccupied` | local_broker/grupo.cpp:274-281 | the scan ends at the first occupied slot after the current one, going round, the current one last |
| `ClientTables.GrupoClientes.PassToken` | local_broker/grupo.cpp:265-308 | the token goes to that slot, or to slot 0 of an empty table; the marks for broker clients follow |
| `ClientTables.NextIsUnique` | local_broker/grupo.cpp:274-281 | that slot is determined by the table |
| `GroupTokens.StepKeeps` | local_broker/grupo.cpp:163-336 | joins, passes, pulls, releases and leaves of the holder keep exactly one token and never strand it |
| `GroupTokens.RunKeeps` | local_broker/grupo.cpp:163-336 | the same over every run |
| `GroupTokens.ExactlyOneToken` | local_broker/token_manager.cpp:193-246 | after every run the release queue, the slot queues, the holders and those leaving have one token between them; a token queued for nobody is in slot 0, and whoever joins next takes slot 0 |
| `GroupTokens.StuckOnlyWithoutClients` | local_broker/grupo.cpp:265-308 | the token waits if and only if there is no client |
| `RoundRobin.PassesBounded` | local_broker/grupo.cpp:265-308 | while a joined client is not chosen, every pass brings its turn strictly nearer, whatever others join or leave |
| `RoundRobin.ChosenWithinSlots` | local_broker/grupo.cpp:265-308 | a client that stays joined is chosen within as many passes as there are slots |
| `RoundRobin.ChosenWithinClients` | local_broker/grupo.cpp:265-308 | with fixed membership within as many passes as there are clients |
| `GroupRegions.RequestKeepsInv` | local_broker/token_manager.cpp:221-224 | creating a group keeps: end of the last region + what the groups not yet created need = end of the segment |
| `GroupRegions.RegionsDisjointAndInside` | local_broker/grupo.cpp:85-94 | for every list of distinct groups and every order of requests each group is placed once, the regions are disjoint, have the sizes needed and lie inside the segment, and as many tokens are given out as there are created groups that start with one |
| `GroupRegions.NeededIsMissing` | local_broker/token_manager.cpp:95-103 | the checked total is the sum of what all groups need |
| `GroupRegions.OffsetsOverflowExactlyOnFullList` | local_broker/grupo.cpp:90-92 | an accepted list makes the offsets be written behind their table if and only if it has as many groups as the table has places |
| `GroupRegions.ChannelsDistinct` | local_broker/grupo.cpp:97-97 | group and slot are determined by the message type, and type 0 is never used |
| `GroupRegions.CheckMemory` | local_broker/token_manager.cpp:74-109 | the total of all groups and client tables, or the error when it exceeds the limit or the number of groups does |
| `GroupRegions.TokenManager.Exists` | local_broker/grupo.cpp:190-203 | finds exactly the created groups |
| `GroupRegions.TokenManager.Place` | local_broker/grupo.cpp:70-83 | the name goes to the first free place |
| `GroupRegions.TokenManager.Create` | local_broker/token_manager.cpp:111-191 | creates the group if the list knows it, with its token if it has one, and tells whether the end of its region was written behind the table |
| `GroupRegions.TokenManager.Serve` | local_broker/token_manager.cpp:221-224 | a request for an existing or unknown group changes nothing |
| `Blocks.CountIsBlocks` | local_broker/client_handler.cpp:89-93 | the block count of the code is the number of blocks that cutting the memory gives |
| `Blocks.BlocksCover` | local_broker/client_handler.cpp:194-204 | the count is max(1, ceil(size / data)), and `size - i * data` is never negative |
| `Blocks.PayloadOfWire` | clientes/local_broker_comm.cpp:316-350 | putting the blocks of a memory together gives back the memory, whatever follows on the stream |
| `Blocks.WireIsOrderly` | clientes/local_broker_comm.cpp:322-331 | all messages of a memory arrive whole and with the request of the sender |
| `BlockTransfer.TransferArrives` | clientes/local_broker_comm.cpp:280-350 | for every memory size the sender's stream is complete for the receiver, carries its memory and leaves the rest of the stream alone |
| `BlockTransfer.Message.Load` | clientes/local_broker_comm.cpp:324-327 | copies one block into a message; bytes beyond a short last block stay |
| `BlockTransfer.Message.Store` | clientes/local_broker_comm.cpp:298-300 | copies the data of a message into the memory, as far as it reaches |
| `Reception.CompletesExactlyWhenNeverMisread` | local_broker/client_handler.cpp:214-240 | whole messages are received, however the stream is cut into pieces, if and only if their request is not LEAVE and no first bytes of it over the request left in the buffer spell LEAVE |
| `Reception.OrderlyTurnsComplete` | local_broker/client_handler.cpp:390-428 | from any buffer content in which the first request cannot be misread, turn after turn is completed, for any cutting of the stream |
| `BlockTransfer.Message.Fill` | local_broker/client_handler.cpp:214-240 | reading a message has exactly the outcome that the pieces, the old bytes and LEAVE determine, for every stream and pacing |
| `BlockTransfer.Message.FillUp` | clientes/local_broker_comm.cpp:286-296 | the client's reading loop fails if and only if the stream ends first |
| `BlockTransfer.ClientHandler.SendToken` | local_broker/client_handler.cpp:194-204 | appends exactly the messages for the group's memory to the stream |
| `BlockTransfer.ClientHandler.RecvToken` | local_broker/client_handler.cpp:206-251 | a reception cut anywhere leaves the group's memory as it was; a complete one replaces it by what arrived and takes no byte too many; which of the two happens, and the request left in the buffer, are exactly determined by stream and pacing |
| `BlockTransfer.ClientHandler.ServeToken` | local_broker/client_handler.cpp:390-428 | one turn: the memory is entirely old or entirely new, the token is released exactly once, and the client leaves exactly if the reception is not completed |
| `BlockTransfer.ClientHandler.LoopMemoria` | local_broker/client_handler.cpp:390-434 | the whole conversation: exactly the turns that complete, the token released once in each, the memory of the last complete one, the client off the table once; and each turn has sent the memory that the turn before it brought, block by block and nothing else |
| `BlockTransfer.LocalBrokerComm.WaitToken` | clientes/local_broker_comm.cpp:280-314 | the client has the token if and only if all blocks have arrived, and then its memory is what they carried |
| `BlockTransfer.LocalBrokerComm.SendToken` | clientes/local_broker_comm.cpp:316-350 | appends exactly the messages for the local memory, with the request that frees the token |
| `Coherence.StepKeeps` | clientes/local_broker_comm.cpp:517-546 | every step of manager, handlers, communicators and applications keeps: one token, and the authoritative copy is where the token is, block by block on the sockets |
| `Coherence.MutualExclusion` | clientes/memoria_distribuida.cpp:104-113 | two clients are never inside at once |
| `Coherence.StepRefines` | clientes/memoria_distribuida.cpp:104-121 | each step is a lock, write or unlock of one shared array under a mutex, or invisible |
| `Coherence.RefinesSharedArray` | clientes/local_broker_comm.cpp:517-546 | every run of the distributed memory is a run of one shared array under a mutex, and whoever is inside sees its bytes |
| `Coherence.LockSeesLastUnlock` | clientes/memoria_distribuida.cpp:104-113 | a client returning from `lock` sees exactly the bytes the last `unlock` of any client left |
| `Coherence.TokenNeverStuck` | local_broker/client_handler.cpp:390-428 | in every reachable state the token can be moved on, whatever happens to the registers; only a client inside can keep it |
| `Coherence.TurnEnds` | clientes/local_broker_comm.cpp:517-546 | a turn of the token ends: each step that moves it brings its holder nearer to the release, no other step lengthens the way |
| `Coherence.WaitingClientIsServed` | clientes/control_tokens.cpp:42-61 | when the token comes to a client whose request stands in the register, it is not sent back before `lock` returns, and that takes at most 4c + 14 moves for c blocks |
| `Coherence.LockReturns` | clientes/memoria_distribuida.cpp:104-108 | once a client has asked, and while its request is not overwritten, every run lets it in within n + 1 turns of the token of at most 4c + 15 moves each |
| `Coherence.ForgottenForEver` | clientes/memoria_distribuida.cpp:104-108 | a client whose request was overwritten, with nothing being handed to it, never enters, whatever anybody does |
| `Coherence.EntersExactlyWhenStanding` | clientes/control_tokens.cpp:42-61 | a client inside `lock` can still enter if and only if its request stands in the register or the token is being handed to it |
| `Coherence.RequestsGetForgotten` | clientes/control_tokens.cpp:42-46 | such a state is reachable: the client asks, then another resource of its site does |
| `SharedRegister.StepKeeps` | clientes/control_tokens.cpp:42-61 | over several memories of a site, one call at a time: a process is in at most one call and a request not yet granted stands in the shared register |
| `SharedRegister.ShareIsRun` | clientes/memoria_distribuida.cpp:104-121 | what each memory sees of a run of all is a run of that memory, the others acting on its register |
| `SharedRegister.NobodyForgotten` | clientes/control_tokens.cpp:42-61 | with one calling process per site no client inside `lock` is forgotten, in every reachable state of all memories together: each can still enter as far as its own memory goes (whether a process inside another memory lets it is `EntersExactlyUnlessDeadlocked`) |
| `SharedRegister.EveryLockReturns` | clientes/memoria_distribuida.cpp:104-108 | in every run of all memories together a client that has asked enters before its memory's token has made more than n + 1 turns of at most 4c + 15 moves each; that the token goes on moving is `AscendingLocksReturn` |
| `WaitingChains.EndsExactlyUnlessCircular` | clientes/memoria_distribuida.cpp:104-121 | where every memory is held by a process that waits for at most one other, following the holders from one to the next ends if and only if it runs into no circle |
| `JointLocks.DeadlockIsForEver` | clientes/memoria_distribuida.cpp:104-121 | once the process inside a memory is in, or waits for, a circle of holders, nobody ever enters that memory, in any run of all memories together |
| `JointProgress.JointWorkFalls` | clientes/memoria_distribuida.cpp:104-121 | without a new `lock` no step of any process or token lengthens the work left in all memories together, and one that moves a token somebody waits for, or ends a call, shortens it |
| `JointProgress.JointWorkBounded` | clientes/memoria_distribuida.cpp:104-121 | that work is at most m n (4c + 17 + n (4c + 15)) for m memories of at most c blocks on n sites |
| `JointProgress.EntersExactlyUnlessDeadlocked` | clientes/memoria_distribuida.cpp:104-113 | in every reachable state of all memories together a client inside `lock` can still enter if and only if whoever is inside its memory is not in, and does not wait for, a circle of holders waiting for each other |
| `JointProgress.AscendingLocksEnter` | api/cintascanner.h:339-374 | when every process asks only for memories numbered above those it is inside, as the scanner belts do with a belt and then the control, every client inside `lock` can enter, in every reachable state |
| `JointProgress.AscendingLocksReturn` | api/cintascanner.h:267-299 | and as long as somebody waits some step is possible that uses up work, and any run without a new `lock` has at most as many of them as the joint bound |
| `JointDeadlock.OppositeOrdersDeadlock` | clientes/memoria_distribuida.cpp:104-113 | two processes that take two memories in opposite order come to wait for each other for ever: reached from every initial state with two memories and two sites |
| `DistributedSemaphore.StepConserves` | clientes/semaphore_set_distribuido.cpp:98-121 | each step moves one token or is a completed wait or signal |
| `DistributedSemaphore.TokensAreTheValue` | clientes/semaphore_set_distribuido.cpp:98-121 | over every run the tokens in manager, slots, handlers, sockets, communicators and local semaphores are the initial value + completed signals - completed waits |
| `DistributedSemaphore.BalanceFalls` | clientes/local_broker_comm.cpp:437-451 | no internal step leaves more free tokens than there are standing requests that take them before site k |
| `DistributedSemaphore.NearerStep` | local_broker/client_handler.cpp:253-274 | as long as site k can be served some step keeps that so and brings it nearer |
| `DistributedSemaphore.RunKeepsHonest` | clientes/semaphore_set_distribuido.cpp:98-109 | in every reachable state the register names the semaphore only while an application of the site is inside `wait_on` |
| `DistributedSemaphore.ServedExactlyWhen` | clientes/local_broker_comm.cpp:437-489 | in every reachable state a wait in progress can be served without another call if and only if a token was given or matched for it, or its request stands and a token is before the comparison there or there are more free tokens than standing requests of sites on the manager's way to it |
| `DistributedSemaphore.TokenLeftIsNotEnough` | clientes/local_broker_comm.cpp:440-450 | a token left in the system does not suffice: from a value of one and two idle sites a state is reached in which both wait, the token is about to be compared at the second, and the first cannot be served |
| `SemaphoreBound.LostExactly` | clientes/local_broker_comm.cpp:437-451 | the internal steps by which a wait ceases to be servable are exactly two: the last token left for it is compared at another site whose request still stands though its application has its token, or another wait of its own site ends and clears the register while no token is matched or given there |
| `SemaphoreBound.EndOfWaitForgetsAnother` | clientes/semaphore_set_distribuido.cpp:98-109 | the second is reached: from a value of two, two applications of one site wait, the first is served and ends its wait, and the second can no longer be served though a unit is left |
| `SemaphoreBound.WaitServedWithinBound` | clientes/local_broker_comm.cpp:437-489 | from every reachable state in which the request stands and can be served, every run without further calls in which no other application of the site ends its wait and no token is wasted is bounded, and where nothing else is left to do the wait is let through |
| `SemaphoreBound.SingleWaitServedWithinBound` | clientes/local_broker_comm.cpp:437-489 | with a single application of the site inside `wait_on` the bound needs only that no token is wasted at other sites |
| `SiteRequests.StepKeeps` | clientes/control_tokens.cpp:42-61 | over all memories and semaphores of the sites together: a process is in at most one call, of whatever kind, and the request of a `lock` or `wait_on` stands in the shared register until it is let through |
| `SiteRequests.RequestsStand` | clientes/semaphore_set_distribuido.cpp:98-109 | so with one calling process per site no `lock` and no `wait_on` in progress is ever forgotten, in every reachable state |
| `SiteRequests.RegisterIsOneWord` | clientes/control_tokens.cpp:42-61 | the views all memories and semaphores of a site have of its register are those of one word: over every run it holds what the last call of the site left, the name written by `lock` or `wait_on`, or nothing once they are let through or `unlock` or `signalize` begins |
| `SiteWaits.WaitServedExactlyWhen` | clientes/local_broker_comm.cpp:437-489 | there a `wait_on` in progress can be let through without another call on its semaphore if and only if a token is given, matched or before the comparison there, or more tokens are free than the standing requests before it take; no call on a memory or on another semaphore changes that |
| `DistributedSemaphore.ForgottenUntilAskedAgain` | clientes/semaphore_set_distribuido.cpp:98-109 | a wait whose request was overwritten is not served, whatever is signalled, until another wait at its site writes the request again |
| `DistributedSemaphore.OwnCallForgets` | clientes/semaphore_set_distribuido.cpp:106-109 | in every reachable state a signal from the site of a wait clears its request: without another call the wait can then be served if and only if a token was given or matched for it; so with a call on another resource of the site |
| `DistributedSemaphore.SignalElsewhereServes` | clientes/semaphore_set_distribuido.cpp:106-109 | in every reachable state a signal from another site takes its service from no wait, and brings it where no standing request comes first |
| `DistributedSemaphore.SignalForgetsOwnWait` | clientes/semaphore_set_distribuido.cpp:106-109 | the failing case of that, reached from a value of one in two calls: a wait, then a signal at the same site; the wait is not let through until somebody asks again |
| `Dictionaries.ComputeHash` | external/iniparser/dictionary.c:88-104 | the loop computes the 32-bit hash with sign-extended characters |
| `Dictionaries.HashValues` | external/iniparser/dictionary.c:88-104 | known values of the hash: the empty key, the key "a", and a character whose sign is set |
| `Dictionaries.SizeIsUsed` | external/iniparser/dictionary.c:221-275 | unique keys: the map has as many keys as slots are occupied |
| `Dictionaries.GrownRepresents` | external/iniparser/dictionary.c:38-49 | growth keeps the contents and the number of occupied slots |
| `Dictionaries.InsertRepresents` | external/iniparser/dictionary.c:269-273 | a new key in a free slot adds one entry to the map |
| `Dictionaries.RemoveRepresents` | external/iniparser/dictionary.c:314-321 | freeing a slot removes one entry |
| `Dictionaries.Dictionary.constructor` | external/iniparser/dictionary.c:117-132 | an empty map, with at least the minimal size |
| `Dictionaries.Dictionary.Search` | external/iniparser/dictionary.c:297-309 | comparing hashes first, the search finds the slot of a key if and only if the map has it |
| `Dictionaries.Dictionary.Get` | external/iniparser/dictionary.c:175-193 | the value of the map, possibly none, or the default for a missing key |
| `Dictionaries.MemDouble` | external/iniparser/dictionary.c:38-49 | twice the array: the old contents, then cleared places |
| `Dictionaries.Dictionary.Double` | external/iniparser/dictionary.c:249-261 | doubling the arrays leaves the map and its invariants alone |
| `Dictionaries.Dictionary.FreeSlot` | external/iniparser/dictionary.c:266-268 | the wrap-around search from n ends, because n < size, at the first free slot it meets |
| `Dictionaries.Dictionary.Set` | external/iniparser/dictionary.c:221-275 | updates the map at the key; refuses exactly a missing key; grows exactly when a new key meets a full table |
| `Dictionaries.Dictionary.Unset` | external/iniparser/dictionary.c:288-323 | removes the key from the map, or changes nothing |
| `Packing.AddKeepsProper` | api/contenedor.cpp:23-38 | a bag that fits is added without either exception, and both limits and the single stop are kept |
| `Packing.RobotCarga.MakeRoom` | processes/robot_carga.cpp:35-46 | an open container with room for the stop of the bag; the full one is closed |
| `Packing.RobotCarga.AddBag` | processes/robot_carga.cpp:25-53 | every bag of any weight: into the last place of the open container for its stop, or dropped if heavier than a container; nothing else changes and nothing is lost |
| `Packing.PlacedInTime` | processes/robot_carga.cpp:35-47 | placing a bag closes the open container for its stop exactly if the bag does not fit, and the next starts with that bag |
| `Packing.RobotCarga.CloseAll` | processes/robot_carga.cpp:123-130 | all open containers are sent, the map is empty |
| `Packing.LoadFlight` | processes/robot_carga.cpp:83-130 | the containers sent hold exactly the bags that some container can hold, all within both limits and for one stop each; none is empty, and each was closed only because the first bag of the next for its stop did not fit |
| `Packing.NothingLostExactlyWhenAllFit` | processes/robot_carga.cpp:32-52 | no bag is lost if and only if none is heavier than a container |

## Left out

- Signals, interrupted calls, `fork`, `kill` and the exit handshakes of handlers and communicators: behaviour of the operating system; runs are without interruption.
- The network, queues and semaphores themselves: sockets are byte streams or first-in first-out queues, semaphores counters; failures appear only as the end of a stream in `BlockTransfer`.
- Replication between brokers (`group_sender.cpp`, `group_receiver.cpp`, `lider.cpp`, `replicar_brokers`): its launch is compiled out.
- Building the ring, beacons, timeouts, forced link breaks: the election runs on a stable connected ring with distinct names.
- BlockTransfer.ClientHandler.SendToken: the socket takes each message whole; the source does not look at a short count there either. The name of the group, copied into the header, is part of the given header.
- BlockTransfer.LocalBrokerComm.WaitToken: says nothing of the local memory when the stream ends early, since the client does not hold the token then; both ends have one socket and no signal sets `salir`.
- Coherence and DistributedSemaphore: blocking calls (`lock`, `wait_on`, `unlock`) are steps of a state machine on values instead of methods on objects; all clients have joined and the manager takes them in slot order (`RoundRobin` has the choice under changing membership); the wire format is that of `Blocks`.
- Coherence: one application per communicator, as the class is used; DistributedSemaphore has any number.
- SharedRegister: a semaphore of the site is there only by what its calls do to the register; `SiteRequests` has memories and semaphores as they are, and says which requests stand and which waits can be served, but bounds nothing across the two: a process may keep a memory while it waits for a semaphore.
- GroupTokens: a client leaves while it holds the token, as in `loop_memoria`; leaving in the exit handshake of semaphores is not modelled.
- GroupRegions.TokenManager.Create: the wait of clients for a group to appear, the contents of `.init` files and the parsing of the group list; the list is given, with distinct non-empty names.
- Dispatcher.ApiDespachante.ReadNext: is one pass of the waiting loop of `leer_elemento`; waiting on the semaphore between passes is in `MainBeltProtocol`.
- MainBelt.CintaPrincipal.Extract: is only called by the holder of the right on a non-empty belt; the source does not look. `MainBeltProtocol` proves that it never is called otherwise.
- ScannerBelts: the destructor of a scanner and switching one on again, which write without a lock and forget whether the belt is full.
- FlightLoading: freeing the zone, un-assigning the flight and the delivery of containers to tractors (`enviar_contenedores_a_avion`); the number announced is the number of bags of the flight.
- Packing.RobotCarga.CloseAll: the order in which the open containers are sent; the array of a container is a sequence.
- Dictionaries.Dictionary.Set: failure to allocate, the overflow of `int` sizes, and a NULL dictionary.
- Election: the text of the messages and names; a name is its place in the order of names.
- Databases, RPC, message broker, launchers, logging: plumbing.
