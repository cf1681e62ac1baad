# A verified model of the SAT-propagation accelerator

The simulator moves request tokens through queues: a watcher turns one
assignment into reads of its list, reads of values, writes of the list and
tasks for clause units; a clause unit turns one task into reads, a write and
perhaps a new assignment that goes back to the trail. The memory below answers
in any order. Everything the simulator reports rests on no token being lost or
doubled on the way. This project models that machinery and proves what the
counters, asserts and `empty()` tests rely on.

How to read it:

- **Propagation pipeline.** `Forest` is what an assignment holds, `Tokens` what
  each queue entry leaves behind when its stage takes it, `Queues` and `Bags`
  the bookkeeping. `Watcher`, `Clause` and `ClauseWriter` specify the stages;
  `WatcherUnit`, `ClauseUnit`, `ClauseWriter.Unit` and `Acc` are the objects of
  the source, changed in place and proved against them. `System` is the
  transition system: any stage of any unit, any transfer, any order of answers.
  `Cycles` shows that a `do_cycle` is one of its runs, `OneStage` that no request
  passes two stages in it, `Transfers` what a transfer does to each queue, and
  `Dispatch` which watcher an assignment goes to. `Conservation` is the
  main invariant; `Schedules`, `Counters`, `Asserts`, `Bill` and `Traffic` draw
  its consequences; `WriteBacks` follows the finished clauses; `Overflow` is a
  run of `do_cycle` in which the exception to conservation happens.
- **Sequential reference.** `Seq` is `seq_pipeline`, `SeqTraffic` its costs in
  closed form; `Agreement` compares it with the pipeline.
- **Write-merging buffer.** `ListWriter` and `ListWriterUnit` are the unit,
  `Merging` its proofs over whole runs, `MergedWrites` which request a merged
  write is, `ListNames` which list it goes to, `FlushAllLoop` the loop of
  `flush_all`, `WriteDemand` the test for tokens that will still write a list.
- **L3 front end.** `Memory` is the DRAM wrapper, `Cache` the actions of
  `cache_interface`, `CacheCycle` and `CacheUnit` its cycle and its object,
  `MissTable`, `CacheRuns`, `CacheOrder`, `CacheProgress` and `Timing` the
  proofs, over single actions and over whole cycles, `AddressMap` the address
  maps.
- **Routing.** `Routing` follows requests through the memory hooks of `acc`,
  `RoundRobin` the dispatch of tasks to clause units, `SideNetworks` tasks and
  list writes through the other two networks;
  `IcntIdeal` is the ideal network, `IcntMesh` the bookkeeping of the mesh.
  `Arithmetic` is about quotients.
- **The whole.** `Whole` puts the pipeline, the routing and the cache together,
  step by step, and `Quiescence` proves what links them: the reads a unit has
  outstanding are its requests on their way, and those at a partition of the
  cache are what it has accepted and not yet given back.

What the source promises and does not keep, with the exact condition:

- A clause-data response that meets a full value queue falls into the branch
  for value responses (src/clause.cc:106-129). `Clause.PutsAreSucc` says that a
  stage does what it should exactly when that does not happen,
  `Schedules.DrainedLog` that a drained run has done its work exactly when it
  never happened, and `Overflow.CycleDrops` gives a run of `do_cycle` that
  drops a clause.
- `seq_pipeline` asks `is_genereated` before `get_generated`, the pipeline does
  not. They do the same work exactly when the flag is set wherever an
  assignment is generated (`Agreement.ParallelAgrees`).
- The write buffer evicts the oldest entry exactly when every other live list
  comes in the aging queue after the last place of the victim
  (`Merging.OldestIff`); `Merging.StaleVictim` is a run where it does not.
- A writer counts as flushed exactly when it took nothing since its flush
  (`Merging.FlushedIff`), so the closing assert of `flush_all` can fail
  (`FlushAllLoop.FlushAllFails`). It holds exactly if, at the call, no request
  is before a writer or in the network to it, and no token in the pipeline leads
  to a list write (`FlushAllLoop.FlushAllIff`); `WriteDemand.LeadsToWrite` is a test on the token.
- Pushed writes of one list meet at one list writer (`ListNames.PushedMeet`), but
  a write that is not pushed is made where the list's own assignment was dealt
  to. The two meet exactly if halving the list does not change the watcher
  (`ListNames.LocalMeetsPushedIff`), so the assert that is commented out in
  src/watcher_list_write_unit.cc:33 would fail; `ListNames.TwoWriters` is a case.
- The assert that a task comes out at a watcher of its clause (src/acc.cc:647)
  holds exactly if tasks are addressed by clause, or the clause was one of the
  sender's (`SideNetworks.TaskAssertIff`).
- `get_cache_addr` is the identity, so the two address maps are inverse exactly
  with one partition, or for block 0 of partition 0 (`AddressMap.RoundTripIff`).
- The index a task is dispatched to is not the number written into it, unless
  the watcher is the first or there is one clause unit a watcher
  (`Routing.ComponentIff`); answers still reach the unit that asked.
- Every clause unit is in the share of a watcher exactly if the clause units are a
  multiple of the watchers (`Routing.AllServedIff`); the units that are not never
  get a task.
- A finished clause stands at its last literal exactly when it is not empty
  (`Asserts.AssertsHold`, for src/clause.cc:169 and src/clause_writer.cc:16).

## Model

| member | source | states |
|---|---|---|
| Watcher.PutsAreSucc | src/watcher.cc:42-218 | each of the six stages leaves, for the request it takes, exactly the tokens due for it |
| Watcher.StageFires | src/watcher.cc:42-218 | a stage changes the tokens of the watcher by taking one and adding those due for it, whatever the queues hold |
| WatcherUnit.Unit.FromWatcherMetaToMemory | src/watcher.cc:158-170 | the object ends in the state the stage specifies, and is busy exactly if the queue was not empty |
| WatcherUnit.Unit.FromValueToOutMem | src/watcher.cc:42-61 | one value read, the cursor moved in place, the list popped after its last watcher, the counter raised |
| WatcherUnit.Unit.FromProcessToOut | src/watcher.cc:66-96 | one list write, a task exactly if the clause must be read, the list finished after its last watcher |
| WatcherUnit.Unit.FromReadWatcherToMem | src/watcher.cc:97-129 | one chunk of 16; a list of size zero is finished without the stage reporting busy |
| WatcherUnit.Unit.FromInToRead | src/watcher.cc:131-157 | a task becomes a metadata request and is counted in flight |
| WatcherUnit.Unit.FromRespToInsider | src/watcher.cc:171-219 | the three kinds of response, the last chunk or value moving the list on, any other kind throwing |
| WatcherUnit.Unit.DoCycle | src/watcher.cc:12-40 | the stages in their order; a cycle in which none was busy had no task waiting, which the source asserts |
| OneStage.WatcherStageOnce | src/watcher.cc:12-40 | a cycle runs each of the six stages once |
| OneStage.WatcherStageAlone | src/watcher.cc:12-40 | and each finds in its queue what was there when the cycle began: nothing passes two stages in one cycle |
| Clause.PutsAreSucc | src/clause.cc:33-183 | a stage leaves exactly the tokens due if and only if no last data chunk met a full value queue |
| Clause.WaitsIff | src/clause.cc:33-132 | what holds a stage back: 64 clauses waiting for their data; or 64 in processing, for a response that cannot go to the values |
| Clause.FallenPuts | src/clause.cc:106-129 | what falls through is dropped, or goes to processing without its value reads, and which of the two |
| Clause.StageFires | src/clause.cc:33-183 | a stage changes the tokens of the clause unit by taking one and adding what it puts |
| Clause.TwoLiteralsDropped | src/clause.cc:117-129 | a clause of two literals that finds 64 clauses waiting is in no queue afterwards |
| Clause.OneLiteralSkips | src/clause.cc:117-129 | a clause of one literal then goes to processing unread |
| Overflow.CycleDrops | src/clause.cc:9-31 | with one task of 16 literals a cycle, and a memory that takes the front read of the unit each cycle and answers it by the next, cycle 146 drops a clause |
| ClauseUnit.Unit.TaskToDataWaiting | src/clause.cc:33-47 | a task enters when the data queue has room, and is counted |
| ClauseUnit.Unit.DataWaitingToMemOut | src/clause.cc:48-73 | one chunk read, the cursor moved in place, popped after the last chunk |
| ClauseUnit.Unit.ValueWaitingToMemOut | src/clause.cc:74-95 | one value read, popped after the last literal |
| ClauseUnit.Unit.MemInToComp | src/clause.cc:96-132 | the data branch, the value branch and the stall, as the conditions of the source choose them |
| ClauseUnit.Unit.ProcessWaitingToOut | src/clause.cc:134-183 | one literal; after the last the write, the generated assignment if there is one, and the count lowered |
| ClauseUnit.Unit.DoCycle | src/clause.cc:9-31 | the five stages in their order |
| OneStage.ClauseStageOnce | src/clause.cc:9-31 | a cycle runs each of the five stages once |
| OneStage.ClauseStageAlone | src/clause.cc:9-31 | and each finds in its queue what was there when the cycle began |
| ClauseUnit.Unit.PopFromOutMemoryRead | include/clause.h:122-125 | a read leaves and is counted as outstanding |
| ClauseUnit.Unit.PushToInMemoryResp | include/clause.h:106-112 | a response lowers that count, and throws exactly if it was zero |
| ClauseWriter.StepFires | src/clause_writer.cc:3-34 | a finished clause leaves one write-back up to 16 literals, else two |
| ClauseWriter.Unit.DoCycle | src/clause_writer.cc:3-34 | the object follows the specification, and its totals count the writes it put out; that they are writes is the next row |
| WriteBacks.OutputsAreWrites | src/clause_writer.cc:10-29 | in every run from a trail, every request in the output of every clause writer is of kind WriteClause |
| Acc.Accelerator.FromTrailToWatcher | src/acc.cc:377-407 | the front of the trail goes to the watcher that its value is dealt to exactly if fewer than 64 wait there, and nothing else changes |
| Queues.FirstInFirstOut | src/acc.cc:397-402 | the queues of the units are first in, first out; only an entry put back is at the front again |
| Dispatch.DealtInTurn | src/acc.cc:390-394 | both literals of a variable go to one watcher, variable 0 to watcher 0, each next variable to the next watcher in the circle, and two variables to the same one if and only if they are equal modulo the watchers |
| Dispatch.Negative | src/acc.cc:393-393 | a negative value is halved towards zero and then counts down from 2^32; -1 goes to watcher 0 |
| Dispatch.SingleTakesAll | src/acc.cc:390-391 | with a single watcher everything goes to watcher 0 |
| Acc.Accelerator.FromClauseToTrail | src/acc.cc:409-425 | a generated assignment goes back to the end of the trail |
| Acc.Accelerator.FromWatcherToWriteUnit | src/acc.cc:427-463 | one list write leaves the watcher |
| Acc.Accelerator.FromWatcherToNetwork | src/acc.cc:53-76 | one task leaves the watcher when the network has room |
| Acc.Accelerator.FromNetworkToClause | src/acc.cc:636-655 | a task goes to the clause unit whose index is the watcher plus the round robin, and that unit exists |
| RoundRobin.InTurn | src/acc.cc:643-649 | over any run, dispatch j goes (1 + j) modulo ratio places behind its watcher, whichever watchers the others were at |
| RoundRobin.EachOffsetOnce | src/acc.cc:643-649 | any ratio dispatches in a row take each offset exactly once |
| RoundRobin.DealtEvenly | src/acc.cc:643-649 | n times ratio tasks at one watcher: each of its ratio units gets n, and no other unit any |
| Acc.Accelerator.FromWatcherToMemory | src/acc.cc:79-161 | the front read of the watcher enters the memory system when there is room |
| Acc.Accelerator.FromMemoryToWatcher | src/acc.cc:549-585 | an answered read leaves the memory and reaches its watcher once, in one step |
| Acc.Accelerator.FromClauseToMemory | src/acc.cc:186-253 | the front read of the clause unit enters the memory system when there is room, counted as outstanding |
| Acc.Accelerator.FromMemoryToClause | src/acc.cc:586-613 | an answered read leaves the memory, reaches its clause unit once, in one step, and is no longer counted |
| Acc.Accelerator.FromClauseToWriteUnit | src/acc.cc:465-484 | a finished clause goes to the writer that has its unit in its share of ratio units in a row |
| Acc.Accelerator.FromClauseWriteUnitToCache | src/acc.cc:486-512 | one write-back leaves the clause writer |
| Acc.Accelerator.CycleWatcher | src/acc.cc:943-946 | the cycle of a watcher is the run of its six stage actions on the whole system |
| Acc.Accelerator.CycleClause | src/acc.cc:943-946 | the cycle of a clause unit is the run of its five stage actions on the whole system |
| Acc.Accelerator.CycleWriter | src/acc.cc:943-946 | the cycle of a clause writer is its action on the whole system |
| Cycles.WatcherCycleRuns | src/watcher.cc:12-40 | a cycle of a watcher is six actions of the system |
| Cycles.ClauseCycleRuns | src/clause.cc:9-31 | a cycle of a clause unit is five actions of the system |
| Tokens.SuccFalls | src/watcher.cc:42-218 | every token left behind is below the one taken, by height of the forest, stage and cursor |
| Conservation.ActionFires | src/acc.cc:39-655 | every action of the system takes one token and adds what it makes |
| Conservation.MadeIsSucc | src/clause.cc:96-132 | an action makes what is due if and only if it is not a fall-through |
| Conservation.FallsCost | src/clause.cc:96-132 | a fall-through always gives up some of the work due, and nothing else ever does |
| Conservation.Conserved | src/acc.cc:936-948 | over every run and order of answers: work done, work still due and work given up add up to the work the start asked for |
| Schedules.DrainedLog | src/acc.cc:936-948 | a drained run has done exactly the expansion of its start if and only if nothing fell through |
| Schedules.ScheduleIndependence | src/acc.cc:377-425 | any two drained runs without fall-through, with any numbers of units, did the same work in as many moves |
| Schedules.RunsAreBounded | src/acc.cc:936-948 | the work due bounds the moves of every run, trail re-injection included |
| Schedules.Progress | src/acc.cc:936-948 | while anything is in flight some action can move it, given networks and a memory that accept: the full queues of watchers and clause units never lock |
| Schedules.Drains | src/acc.cc:936-948 | every well-formed state of a system with units can be drained, given networks and a memory that accept |
| Schedules.EveryRunCanFinish | src/acc.cc:936-948 | so whatever a run from a trail has done so far, it can be finished |
| Counters.StageCounts | src/watcher.cc:42-218 | a stage keeps num_inflight_request and both outgoing counters equal to the tokens they stand for |
| Counters.ClauseStageCounts | src/clause.cc:33-183 | a stage keeps current_inflight_request equal to the clauses in the unit and those it lost |
| Counters.RunCounts | src/watcher.cc:42-218 | so in every state of every run, with on_going_requests the reads in memory |
| Counters.EmptyIsDrained | include/acc.h:137-142 | no entry in any queue, reads in memory included, is the same as no token |
| Counters.EmptyMeansZero | include/clause.h:60-67 | then all counters are zero, but for the clauses a unit lost |
| Asserts.AssertsHold | src/clause.cc:150-181 | for every entry of every queue in every run: the asserts on list sizes, response kinds and finished clauses, and no counter negative |
| Bill.CostIsBill | src/watcher.cc:42-128 | for every way to weigh tokens, what a trail entry causes weighs what a recursion over lists, chunks, watchers and clauses adds up |
| Traffic.DrainedTraffic | src/watcher.cc:42-128 | what a drained run did in closed form, read off the entries: one, ceil(n/16), n and n reads and writes a list; one task, ceil(m/16), m and m reads and steps and one or two writes a clause; and the assignments |
| Seq.SeqPipeline.ReadClause | src/seq.cc:54-123 | the branch that reads a clause: one or two reads, the assignment exactly if both tests hold, one list write |
| Seq.SeqPipeline.OneWatcher | src/seq.cc:38-132 | what is recorded where the loop visits, reads, writes and generates adds up to the work of one watcher |
| Seq.SeqPipeline.OneList | src/seq.cc:16-133 | the loop over one list |
| Seq.SeqPipeline.Get | src/seq.cc:4-137 | the worklist ends, having done the recursively defined work of its start: visits, reads, list writes, and cycles beside the waits of its reads |
| SeqTraffic.QueuePart | src/seq.cc:4-137 | reads, list writes and cycles beside waits of that work in closed form, read off the entries |
| SeqTraffic.WaitsBetween | src/seq.cc:26-32 | reads that each wait between lo and hi cycles add between lo and hi times their number to the total |
| Agreement.ParallelAgrees | src/seq.cc:75-92 | pipeline and sequential run visit the same watchers, clauses and generated assignments, each as often, if and only if every flag is set |
| ListWriterUnit.Unit.DoCycle | src/watcher_list_write_unit.cc:13-80 | merge, full write, eviction and insertion leave the specified state; which list a request is for is ListNames.ToItsList |
| ListWriterUnit.Unit.EvictOldest | src/watcher_list_write_unit.cc:54-69 | the loop skips stale ids, ends before the queue does, and evicts the first live one |
| ListWriterUnit.Unit.FlushAll | include/watcher_list_write_unit.h:71-82 | the live entries go out in the order of their lists, and everything is cleared |
| ListWriterUnit.Unit.Flushed | include/watcher_list_write_unit.h:83-86 | is_flushed is the predicate the proofs use |
| Merging.AcceptKeeps | src/watcher_list_write_unit.cc:36-76 | taking one request keeps partition, counts, totals and aging queue, and never fails |
| Merging.RunKeeps | src/watcher_list_write_unit.cc:13-80 | over every run: each request taken waits in the live entry of its list or is covered by one write to that list sent after it; a live count is its number of waiting requests, between 1 and max_merge; at most max_entry entries; requests taken in order of arrival |
| Merging.FlushWritesThrough | include/watcher_list_write_unit.h:71-82 | after a flush every request taken is covered, and no write is without one: the buffer refines writing through |
| ListNames.ToItsList | src/watcher_list_write_unit.cc:30-76 | over every run, from the fields of the entry: a request waits in the entry of the list its watcher is pushed to, or else of its assignment, or is covered by a later write to that list; all that is sent is of kind WriteWatcherList |
| ListNames.FlushedToItsList | include/watcher_list_write_unit.h:71-82 | after a flush every request taken is covered by a later write to that list |
| ListNames.ListsApart | src/watcher_list_write_unit.cc:32-76 | requests for different lists never share a write |
| ListNames.ArrivesAtWriter | src/acc.cc:437-455 | a pushed write arrives at the writer whose number is its list modulo the watchers, any other at that of its watcher |
| ListNames.PushedMeet | src/acc.cc:446-455 | pushed writes of one list arrive at one writer |
| ListNames.LocalMeetsPushedIff | src/acc.cc:437-455 | writes of a list that are not pushed meet them if and only if halving the list does not change the watcher |
| ListNames.TwoWriters | src/watcher_list_write_unit.cc:33-33 | a list whose writes are merged at two writers |
| MergedWrites.WritesAreRequests | src/watcher_list_write_unit.cc:36-76 | over every run: a live entry holds the first request that waits for it; a write is the first of the requests it stands for, or, when it stands for max_merge + 1, the last, sent as that one came |
| MergedWrites.SendsIff | src/watcher_list_write_unit.cc:36-76 | taking a request sends one write if and only if its entry is full, or there is none and the table is full; else none |
| MergedWrites.FlushAscends | include/watcher_list_write_unit.h:71-82 | a flush adds one write for each live entry, in ascending order of the lists |
| Merging.MergeBound | src/watcher_list_write_unit.cc:45-69 | taken = live counts + total_origin_package + full writes + flushed, and the bound by total_merged_package, max_merge and max_entry |
| Merging.NoFlushNoDrain | src/watcher_list_write_unit.cc:13-80 | without a flush the flushed part is nothing |
| Merging.VictimComesFirst | src/watcher_list_write_unit.cc:54-69 | the victim exists, is live and has the earliest place of all live lists |
| Merging.OldestIff | src/watcher_list_write_unit.cc:54-69 | an entry was inserted first if and only if every other live list comes after its last place in the queue |
| Merging.StaleVictim | src/watcher_list_write_unit.cc:41-50 | a run after which the victim is not the entry inserted first |
| Merging.FlushedIff | include/watcher_list_write_unit.h:83-86 | is_flushed holds if and only if nothing was taken since the last flush |
| FlushAllLoop.StaysEmpty | include/acc.h:137-142 | an empty accelerator stays as it is and hands no list write over |
| FlushAllLoop.FlushedAtEndIff | include/watcher_list_write_unit.h:83-86 | a writer that is flushed and then runs on is flushed in the end if and only if it took nothing in between |
| WriteDemand.DemandIff | src/watcher.cc:42-218 | the test on a token says whether anything it will ever cause is a list write |
| FlushAllLoop.NoneHandedIff | src/acc.cc:427-463 | a drained run without fall-through hands over no list write if and only if none of the tokens it started with leads to one |
| FlushAllLoop.FlushAllIff | include/acc.h:103-112 | the closing assert, for all writers: it holds if and only if at the call no request is before a writer or in the network to it and no token leads to a list write |
| FlushAllLoop.FlushAllFails | include/acc.h:103-112 | a call whose closing assert fails |
| FlushAllLoop.FlushAllFlushes | include/acc.h:103-112 | started with no list write to come and nothing before the writer, flush_all ends with it flushed and everything written, whatever its cycles do |
| Memory.CycleReads | src/ramulator_wrapper.cc:60-91 | a cycle keeps every read, outgoing_reqs counts the requests inside, its assert holds, and empty() means no read is left |
| Memory.CycleAnswers | src/ramulator_wrapper.cc:60-88 | in a cycle the front request goes in if accepted, and what is called back leaves: reads answered in that order, writes silently |
| Memory.Wrapper.DoCycle | src/ramulator_wrapper.cc:73-88 | the object follows the specification for any answers of the memory |
| Memory.Wrapper.IsEmpty | src/ramulator_wrapper.cc:89-91 | empty() is the predicate the proofs use |
| CacheCycle.CycleIsRun | src/cache_interface.cc:348-374 | a cycle is a run of single actions, for all answers of cache and memory |
| CacheUnit.CacheInterface.FromInToCache | src/cache_interface.cc:31-173 | every partition tries its requests, one a port, until the miss queue is full |
| CacheUnit.CacheInterface.TryFront | src/cache_interface.cc:57-169 | one request: hit, reserved hit, miss with or without a dirty victim, reservation failure, write |
| Cache.BlockSpan | src/cache_interface.cc:67-73 | a block starts a line of 64 bytes, the one that the lower 32 bits of the address lie in |
| Cache.PartStripes | src/cache_interface.cc:22-28 | the lines are dealt out to the partitions in turn |
| MissTable.VictimsWritten | src/cache_interface.cc:89-163 | the dirty blocks that the answers named are exactly the writes in the miss queue, in the DRAM and called back, and all written when empty |
| CacheRuns.RoundsWriteBack | src/cache_interface.cc:348-374 | so after every do_cycle of every legal run |
| MissTable.WaitsForItsLine | src/cache_interface.cc:129-160 | a request in the table waits for the line its address lies in, which is fetched once |
| MissTable.OneFetchALine | src/cache_interface.cc:129-160 | no two fetches under way lie in one line |
| CacheRuns.RoundsFetchLines | src/cache_interface.cc:348-374 | so after every do_cycle of every legal run |
| CacheRuns.MissThenReserved | src/cache_interface.cc:124-160 | two reads of one line, a miss with a dirty victim and a reserved hit: the two fetches in order, one list, no assert failed |
| CacheUnit.CacheInterface.FromMissQToDram | src/cache_interface.cc:175-199 | the front fetch goes to the DRAM and is counted |
| CacheUnit.CacheInterface.FromDramRespToResp | src/cache_interface.cc:201-228 | all requests that wait for the block go to the delay queue of its partition, in order |
| CacheUnit.CacheInterface.FromDelayRespToOut | src/cache_interface.cc:230-245 | each partition sends out at most its front response, if it is due |
| CacheUnit.CacheInterface.DoCycle | src/cache_interface.cc:348-374 | the stages in their order |
| CacheProgress.CycleMoves | src/cache_interface.cc:348-374 | what a cycle gets done: all the DRAM returned is taken over, the front block is handed out if there is room, the front fetch sent, and each partition serves a request for each port while it has one, the cache has room and the miss queue is not full |
| CacheOrder.WaitInOrder | src/cache_interface.cc:129-134 | over every run the requests that wait for a block are in the order in which they came |
| CacheOrder.ReleasedInOrder | src/cache_interface.cc:201-228 | and enter the delay queue in that order |
| CacheUnit.CacheInterface.IsEmpty | src/cache_interface.cc:310-318 | empty() is the predicate the proofs use |
| CacheUnit.CacheInterface.Receive | src/acc.cc:614-631 | the network hands a request over exactly when the partition holds fewer than 64, and then nothing else changes |
| CacheRuns.InputsBounded | src/cache_interface.cc:320-322 | whoever asks first keeps every input queue at 64 or fewer, in every run |
| CacheRuns.RoundsKeep | src/cache_interface.cc:348-374 | after every do_cycle of every run with legal answers: table, reservations and fetches agree, reads are conserved at each partition, miss queue and parallel count are right, no assert has failed |
| CacheRuns.IdleRound | src/cache_interface.cc:348-374 | the idle do_cycle is one of these |
| CacheRuns.RoundsAnswerReads | src/cache_interface.cc:348-374 | and no write has been answered |
| MissTable.ProbeTable | src/cache_interface.cc:124-163 | trying a request keeps table, reservations and fetches in agreement, and neither assert of the read path fails |
| MissTable.RespTable | src/cache_interface.cc:201-228 | so does a block that returns, and the assert on its waiters holds |
| MissTable.RunKeeps | src/cache_interface.cc:31-374 | the same over every list of single actions, those that are not possible included |
| MissTable.OneFetchEach | src/cache_interface.cc:134-163 | a block is in the table iff its cache holds it reserved iff it is fetched, and then once |
| MissTable.EmptyMeansAnswered | src/cache_interface.cc:310-318 | empty() means all accepted reads were taken, nothing is reserved, and the parallel count is the write-backs |
| MissTable.WaitingIsSafe | src/seq.cc:26-32 | while a read is unanswered the cache is not empty, which the sequential run asserts |
| MissTable.WritesUnanswered | src/cache_interface.cc:89-118 | a write is never answered |
| Timing.CycleDelays | src/cache_interface.cc:230-245 | in a cycle at most the front response leaves a delay queue, and the rest only enter, now |
| Timing.LeavesOnTime | src/cache_interface.cc:122-127 | over every run response k leaves in cycle max(t_k + cache_delay + 1, d_(k-1) + 1), and not before |
| Timing.LatencyBound | src/cache_interface.cc:230-245 | place j of the queue leaves within j + cache_delay + 1 cycles |
| AddressMap.CacheAddrIsIdentity | src/cache_interface.cc:15-20 | get_cache_addr returns its argument |
| AddressMap.RoundTripIff | src/cache_interface.cc:15-28 | the round trip holds if and only if there is one partition, or block and partition are 0 |
| AddressMap.ShiftedRoundTrip | src/cache_interface.cc:15-28 | with the shift kept, the way back is right for every 64-bit address |
| AddressMap.ShiftedThereAndBack | src/cache_interface.cc:15-28 | and so is the way there, for every address of every partition |
| AddressMap.OwnPartition | src/cache_interface.cc:67-72 | masking to 32 bits keeps an address in its partition |
| Routing.DispatchInRange | src/acc.cc:643-649 | the dispatched clause unit and its group exist for any numbers of units |
| Routing.ComponentIff | src/acc.cc:646-649 | the number written names that unit iff the watcher is 0 or the ratio is 1 |
| Routing.ComponentInShare | src/acc.cc:646-646 | but is in the share of its watcher, at the offset of the round robin |
| Routing.RatioIs | src/acc.cc:197-197 | the ratio is the number of units a watcher gets |
| Routing.GroupIs | src/acc.cc:475-475 | the group of a unit is w if and only if the unit is one of the ratio units from w times ratio on |
| Routing.EachWatcherServes | src/acc.cc:475-475 | each watcher has exactly ratio units |
| Routing.AllServedIff | src/acc.cc:475-475 | every unit has a watcher if and only if the clause units are a multiple of the watchers |
| Routing.HopOnRoute | src/acc.cc:255-631 | each hop keeps a request on its route, and the asserts on it hold: its partition, its private cache, its component, its share, its kind |
| Routing.RoutedHome | src/acc.cc:255-631 | over every run: all indices of the memory network in range, source and destination of its packets differ, requests of a clause unit pass the node and the private cache of the watcher that has it in its share, and a returned answer is a read at the unit that issued it |
| Routing.ReturnedCarriesUnit | src/acc.cc:436-436 | what has come back to a unit carries its number, so a list write copied from it meets the assert |
| Routing.EachOnce | src/acc.cc:39-655 | every request issued is at exactly one place |
| Routing.HopsFall | src/acc.cc:39-655 | and reaches its end in at most seven hops |
| SideNetworks.EachArrives | src/acc.cc:427-463 | tasks and list writes: a packet in a network goes to another node that exists, and arrives where it is addressed |
| SideNetworks.HopsFall | src/acc.cc:427-463 | in at most three hops |
| SideNetworks.TaskAssertIff | src/acc.cc:636-655 | a task comes out at a watcher of its clause if and only if tasks are addressed by clause or the clause was one of the sender's |
| Quiescence.RunSound | src/acc.cc:936-948 | in every run of pipeline, routing and cache together: per unit, outstanding reads are its requests on their way; per partition, requests inside are accepted minus taken; and each part keeps its own invariant |
| Quiescence.EmptyMeansDone | include/acc.h:137-142 | when trail, networks, units, private caches and L3 with DRAM are empty, no read is outstanding, all counters are zero but for lost clauses, and every answer is at the unit that asked |
| Quiescence.HomePossible | src/acc.cc:335-375 | an answer always finds its unit waiting for it |
| Quiescence.AnswerPossible | src/acc.cc:255-333 | what the cache gives back always has a request to carry |
| Quiescence.NothingIsStuck | src/acc.cc:255-631 | every request on its way can move on, or is inside the cache among what it has accepted |
| Quiescence.ReadsCanLeave | src/acc.cc:79-253 | and every read a unit has to send can leave it |
| Quiescence.WriteBackPossible | src/acc.cc:486-512 | what is in a clause writer can always leave, for a unit of its share that was sent a task |
| Quiescence.WriteBackNotAnswered | src/acc.cc:486-512 | over every run a write is on its way to the cache or absorbed: it passes no private cache, waits nowhere and never comes back |
| IcntIdeal.Network.DoCycle | src/new_intersim_wrapper.cc:299-316 | every node gets what was addressed to it, in the order of the queues, and nothing is lost or doubled |
| IcntIdeal.BoundIsAddressed | src/new_intersim_wrapper.cc:299-316 | what a node gets of a queue is what is addressed to it |
| IcntIdeal.BoundKeepsOrder | src/new_intersim_wrapper.cc:299-316 | in the order of the queue |
| IcntIdeal.DeliveryConserves | src/new_intersim_wrapper.cc:299-316 | node by node delivery conserves the packets |
| IcntIdeal.Network.Inject | src/new_intersim_wrapper.cc:265-270 | a sender that asks has_buffer never holds more than 16 packets in its queue, is refused only at 16, and nothing is lost |
| IcntIdeal.Network.HasPackage | src/new_intersim_wrapper.cc:261-264 | has_pkg_in_icnt holds exactly when the network holds none |
| IcntMesh.Network.DoCycle | src/new_intersim_wrapper.cc:198-245 | for any mesh: heads enter where there is room, packets come out at their node, the set in flight stays what the mesh holds, nothing is lost or doubled |
| IcntMesh.Network.Leave | src/new_intersim_wrapper.cc:231-241 | a packet that comes out is in the set in flight, as asserted, and leaves it |
| IcntMesh.Network.IsEmpty | include/new_intersim_wrapper.h:134-139 | empty() holds if and only if no packet is in a queue or in the mesh |

## Left out

- The list writers, the task network's queues and the routes of tasks are not part of `Whole`; `FlushAllLoop` and `SideNetworks` have them.
- Queue capacities of networks and caches: `Whole` and `System` let them accept whatever comes, so they run through every order that limits allow and more.
- Schedules.Progress: the tests for room in networks and caches (has_buffer, recieve_rdy, recieve_mem_rdy) are not among the guards; a real run waits where they refuse.
- Schedules.Drains: as for Schedules.Progress.
- Schedules.EveryRunCanFinish: as for Schedules.Progress.
- The order of the clock passes and components in a cycle of `acc`: the runs of `System` take their actions in any order, which includes that one.
- The ideal L3 and ideal DRAM modes of the cache (src/cache_interface.cc:43-55, 181-186), and the sequential mode of the trail (src/acc.cc:381-385).
- Inside the cache arrays (replacement, MSHR limits), the DRAM and the mesh and ring networks: not part of this model; their answers are inputs, restricted by `Cache.Legal`.
- The private caches (src/private_cache.cc): their lookup always hits, so they are first-in first-out queues on the way to the memory; `Routing` and `Whole` have the hop, `System` no queue of its own for them.
- How an address follows from a request: the pipeline has cursors, `Routing` and the cache have an arbitrary address for each request. req_addr.h, which also has get_partition_id_by_addr, is not part of this model; the partition is the number of the line modulo the partitions, which is where src/cache_interface.cc:22-28 puts it.
- Statistics: busy and idle counts, histograms, traces, running averages, and the busy flag of `icnt_ideal`.
- Counter widths: the counters are integers; those proved never negative do not wrap at zero, and no run is long enough to matter at the top.
- Configuration, construction and destruction, pointer ownership: requests are values.
- Assignments that generate each other in a cycle: the forest is an inductive datatype.
- Agreement.ParallelAgrees: compares watchers, clauses and assignments, not cycles or memory traffic, which differ by design.
- Seq.SeqPipeline.Get: the cache is a finite wait for each read; a list write is counted where it is pushed, and its way through the cache is left out.
- Acc.Accelerator.FromWatcherToMemory: one pass for the three destinations of a read (two kinds go to the network, one to the private cache); `Routing.RoutedHome` tells them apart.
- Acc.Accelerator.FromClauseToMemory: one pass for the two destinations of a read.
- Acc.Accelerator.FromMemoryToWatcher: the way of an answer through L3, network and private cache is one step here; `Whole` takes it hop by hop.
- Acc.Accelerator.FromMemoryToClause: as for Acc.Accelerator.FromMemoryToWatcher.
- Acc.Accelerator.FromNetworkToClause: has no clause ids, so not the assert on them; `SideNetworks.TaskAssertIff` has it.
- Acc.Accelerator.FromWatcherToWriteUnit: the write is handed over at once; `SideNetworks` has the network to the list writers.
- CacheUnit.CacheInterface.FromInToCache: the type of a write-back and its statistics are not modelled.
