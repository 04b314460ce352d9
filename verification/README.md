# NetSum verification

NetSum sums the gradient chunks of many workers in one slot per (job, round,
chunk) and emits one packet when a slot is full. The same algorithm is written
three times: in an XDP program that runs on every CPU at once, in a userspace
aggregator with hand-made hash tables, and in the parameter server that receives
the result. This project models all three and the arithmetic around them, and
proves what each keeps over whole runs and how they relate. `dafny verify
dfyconfig.toml` checks everything.

**The concurrent kernel program** (`XdpMachine`). Every CPU has a program counter
and locals; lookup, admission, `BPF_NOEXIST` create, re-lookup, each part of the
counter increment and decrement, lock, check, every lane of the two loops, unlock
and delete are separate steps; a run is any sequence of arrivals and CPU steps.
`XdpSafety` (the invariant, step by step) and `XdpGuarantees` (what it gives for
whole runs) hold for any packets, duplicates included. `XdpOverrun` and `XdpQuota`
are about the quota counters: a stream has an *overrun* when some packet of valid
fan-in n is accompanied by n other arrivals of its key and length from different
workers, for instance by a retransmission of the only packet of a one-worker key.
Without overruns the counters are right; `XdpExact` proves that this is the exact
condition. `XdpOnce` and `XdpDelivery` follow one key whose workers send once,
whatever the rest of the stream does. `XdpProgress` shows that nothing deadlocks,
`XdpUnconfigured` what an empty `config_map` changes: nothing is sent, and there is
no quota.
`XdpSolo` shows that the machine given one packet at a time is the sequential
program of `XdpProgram`, on which `TenantIsolation` and the comparison with
userspace (`Parity`) are stated. `XdpWitnesses` holds three runs: the overshoot
bound of the quota is reached on a harmless stream; one retransmission that
overtakes a slot's creator leaves a job charged for a slot that is gone; and
retransmissions can also take the charges of other slots away, so that with any
quota from 2 on a job ends up with any number of live slots and a counter of 0.

**The userspace aggregator** (`Aggregator`). `Daemon` keeps the two arrays and
updates them in place; each method is proved equal to a function on the table
contents. `QuotaAccounting`, `JobStats`, `Conservation`, `Starvation`, `Fairness` and
`Reaper` are about those functions over all runs. `Reaper` measures ages by the clock
readings of the turns in which packets were accepted, not by the stored timestamp.
`free_slot` leaves no tombstone, so the slot table is not a map: `Tombstones` says
exactly when a packet or a sweep hides a live key, and gives a four-packet run in
which one key gets two cells and a sweep then evicts one of them, however recently the
other took a packet.

**The parameter server** (`ParamServer`). An insert-only table, proved to be a
map. `Rounds` tells its whole log from its input: which packets of a key count, when
its round completes, and with which sums. `EndToEnd` composes the server with the
userspace aggregator and `XdpEndToEnd` with the concurrent kernel program: the sums
agree, an aggregated packet is a round of its own, and the rounds do complete.

**Arithmetic**: `FixedPoint` (Q16.16), `JainsIndex`, `IpChecksum`, `WireFormat`
(the two parsers, the header layout, the worker's packing loop), `SeenBitmap`.
`GradProto` holds the shared types and the wrapping lane sums, `Probing` the
theory of linear probing that all three userspace tables use.

Two places where the code and its description differ. The comparison of the two
admission parsers holds for packets that open a slot; on an existing slot the
kernel program no longer looks at `num_workers` and userspace does
(`Parity.InvalidFanInAgreesIff` gives the exact condition,
`Parity.InvalidFanInDiverges` a two-packet run). The comment at
`xdp_agg/xdp_agg.c:457-461` has `concurrent_slots` follow real slot creations
exactly; that holds exactly for streams without overruns
(`XdpExact.CountersExactIff`). On others the counter can end too high, because a
teardown ran before the creator's increment and found nothing to decrement
(`XdpWitnesses.RetransmissionLeaksQuota`), or too low, because a teardown took
another slot's charge and the creator then missed its slot at the re-lookup
(`XdpWitnesses.QuotaBypassed`).

Conventions: `int32_t` accumulation is `Wrap`, two's-complement truncation after
each addition; `uint16_t` and `uint32_t` counters are reduced explicitly; doubles
are reals; the clock does not run backwards; `0 <= quota < 2^32`. Fields named
`contribs`, `creator`, `closer`, `removed`, `accepted`, `emitted`, `reaped`,
`freed`, `arrived`, `completed` and `log` are history that the programs cannot
read.

## Model

| member | source | states |
|---|---|---|
| XdpMachine.Exec | xdp_agg/xdp_agg.c:390-600 | one step of one CPU keeps every pointer valid, leaves the other CPUs' locals alone, changes slot_map only by a create under a missing key or a delete, and brings the CPU closer to its verdict unless it spins |
| XdpMachine.Run | xdp_agg/xdp_agg.c:360-601 | any interleaving of any number of CPUs stays memory safe |
| XdpSafety.CreationKeeps | xdp_agg/xdp_agg.c:444-453 | a creation outside the lock keeps the safety invariant |
| XdpSafety.LockKeeps | xdp_agg/xdp_agg.c:481-481 | taking or spinning on the lock keeps it: one holder, inside the locked region, on that slot |
| XdpSafety.Accepts | xdp_agg/xdp_agg.c:503-507 | accepting a contribution keeps the seen bits equal to the set of contributors |
| XdpSafety.AddsLane | xdp_agg/xdp_agg.c:508-534 | lane by lane, the accumulator stays the wrapped sum of exactly the absorbed packets |
| XdpSafety.Counts | xdp_agg/xdp_agg.c:535-538 | the 16-bit counter equals the number of distinct contributors, and the one that reaches num_workers_expected is the only one to complete |
| XdpSafety.WritesLane | xdp_agg/xdp_agg.c:539-545 | the write-back copies the sums of exactly the expected contributions |
| XdpSafety.ExecKeepsSafe | xdp_agg/xdp_agg.c:390-600 | every step of every CPU keeps the whole safety invariant |
| XdpGuarantees.RunSafe | xdp_agg/xdp_agg.c:360-601 | the safety invariant holds in every state of every interleaving, on any packets |
| XdpGuarantees.CompletesAtMostOnce | xdp_agg/xdp_agg.c:481-551 | an instance completes at most once and is forwarded at most once |
| XdpGuarantees.ForwardsExactSums | xdp_agg/xdp_agg.c:503-545 | a forwarded payload is the lane sums over exactly num_workers_expected arrived packets of its key from distinct workers |
| XdpSafety.Unlocked | xdp_agg/xdp_agg.c:551-553 | releasing the lock keeps it, on the way to a drop and on the way to the teardown |
| XdpSafety.DeleteKeeps | xdp_agg/xdp_agg.c:567-579 | so does the delete outside the lock, while other CPUs may still hold pointers to the instance |
| XdpSafety.SendsOnce | xdp_agg/xdp_agg.c:580-600 | the CPU that forwards is the only one that ever does for this instance |
| XdpSafety.DeletesItsOwn | xdp_agg/xdp_agg.c:567-579 | at the delete, the map holds for the key the instance this CPU completed |
| XdpGuarantees.DeleteNeverHitsNewer | xdp_agg/xdp_agg.c:567-579 | so in every run the delete by key never removes a newer instance |
| XdpOnce.PendingMeansOpen | xdp_agg/xdp_agg.c:396-481 | when a key's workers send once, a CPU on its way to the key's slot never finds it completed, whatever other keys do |
| XdpOnce.PendingKeyStays | xdp_agg/xdp_agg.c:447-455 | the key is not deleted under it |
| XdpOnce.StillOneInstance | xdp_agg/xdp_agg.c:447-453 | such a key never gets a second instance |
| XdpOnce.RunSettled | xdp_agg/xdp_agg.c:396-463 | all of this in every state of every interleaving |
| XdpOnce.OnceMeansNoOverrun | xdp_agg/xdp_agg.c:456-463 | a stream whose workers all send once has no overruns |
| XdpOverrun.OverrunFrom | xdp_agg/xdp_agg.c:504-538 | a packet and as many others of its chunk as it expects, all found in the stream, are an overrun |
| XdpOverrun.UncountedIsOpen | xdp_agg/xdp_agg.c:447-463 | without overruns a slot does not complete before its creator has counted it |
| XdpOverrun.WinnerStays | xdp_agg/xdp_agg.c:454-463 | so the CPU that won the creation finds its own instance at the re-lookup |
| XdpOverrun.RunOrderly | xdp_agg/xdp_agg.c:396-463 | in every state of every interleaving |
| XdpQuota.CounterRange | xdp_agg/xdp_agg.c:334-339 | without overruns a CPU about to decrement finds a positive counter, one about to increment a counter below 2^32 - 1 |
| XdpQuota.IncCreateMoves | xdp_agg/xdp_agg.c:319-326 | losing the entry-creation race never loses an increment |
| XdpQuota.StepMoves | xdp_agg/xdp_agg.c:313-339 | each step moves live slots, counter and pending increments and decrements in balance |
| XdpQuota.NeverUnderflows | xdp_agg/xdp_agg.c:334-339 | on a stream without overruns concurrent_slots never underflows, and the guard never skips a decrement |
| XdpQuota.QuiescentCountersExact | xdp_agg/xdp_agg.c:456-463 | on a stream without overruns, whenever no CPU is mid-packet, a job's counter is the number of its slot_map entries |
| XdpQuota.AdmitKeepsWithinQuota | xdp_agg/xdp_agg.c:435-443 | admission keeps counted, uncounted and admitted slots within quota + CPUs - 1 |
| XdpQuota.QuotaOvershootBound | xdp_agg/xdp_agg.c:435-463 | with C CPUs, quota q >= 1, a stream without overruns and no more jobs than entries, counter and live slots never exceed q + C - 1 |
| XdpExact.OverrunBreaksCounters | xdp_agg/xdp_agg.c:456-463 | any overrun, in any stream the maps have room for, can be scheduled so that the run ends with a wrong counter |
| XdpExact.CountersExactIff | xdp_agg/xdp_agg.c:456-463 | the counters of every finished schedule of a stream on any number of CPUs are exact if and only if the stream has no overrun |
| XdpExact.DecrementsPositiveIff | xdp_agg/xdp_agg.c:334-339 | no decrement of any schedule of a stream meets a zero counter if and only if the stream has no overrun |
| XdpDelivery.CheckCarries | xdp_agg/xdp_agg.c:499-507 | when a key's workers send once none of its contributions is rejected |
| XdpDelivery.ExecCarries | xdp_agg/xdp_agg.c:396-600 | each step on such a key's packet keeps it in flight or answers for it, once, unless it is refused admission |
| XdpDelivery.RunDelivers | xdp_agg/xdp_agg.c:396-600 | every arrival of the key is waiting, absorbed, in flight or answered, each exactly once, in every interleaving in which the key is never refused admission |
| XdpDelivery.DeliveredUnlessRefused | xdp_agg/xdp_agg.c:396-600 | when all n workers of a key sent once, its packets were never refused admission and all CPUs are done: one XDP_TX with the sums over all n packets, n - 1 XDP_DROPs, no slot_map entry |
| XdpDelivery.OneForwardRestDropped | xdp_agg/xdp_agg.c:396-600 | in particular with the config present, quota 0 and a slot_map that is never full during the run |
| XdpProgress.StepReducesTotal | xdp_agg/xdp_agg.c:360-600 | a step that does not spin brings the whole machine closer to being idle |
| XdpProgress.SomeoneReady | xdp_agg/xdp_agg.c:481-551 | no deadlock: some CPU with work is not waiting for a lock |
| XdpProgress.EveryRunCanFinish | xdp_agg/xdp_agg.c:360-601 | any run extends to one in which every packet in flight has its verdict |
| XdpUnconfigured.RunMuted | xdp_agg/xdp_agg.c:427-436 | any interleaving without a config is the one with a config and no quota, each XDP_TX turned into a drop |
| XdpUnconfigured.NothingSentWithoutConfig | xdp_agg/xdp_agg.c:566-579 | without a config no run sends anything |
| XdpUnconfigured.TornDownWithoutConfig | xdp_agg/xdp_agg.c:566-579 | a full round is torn down all the same: n drops and no slot_map entry |
| XdpSolo.Absorb | xdp_agg/xdp_agg.c:503-535 | the lane-by-lane loop of one CPU alone is the sequential accumulation |
| XdpSolo.SoloOpen | xdp_agg/xdp_agg.c:396-464 | the lookups, checks and creation of one CPU alone are the sequential Open |
| XdpSolo.SoloContribute | xdp_agg/xdp_agg.c:481-600 | the locked region and teardown of one CPU alone are the sequential Contribute |
| XdpSolo.SoloPacket | xdp_agg/xdp_agg.c:381-600 | one packet alone, malformed ones included, has the effect and verdict of the sequential Step |
| XdpSolo.SoloRun | xdp_agg/xdp_agg.c:360-601 | any packets can be given one at a time to CPUs of any choice, with the maps and verdicts of the sequential run |
| XdpSolo.EverySoloRun | xdp_agg/xdp_agg.c:360-601 | every schedule that gives packets one at a time has the maps and verdicts of the sequential run |
| XdpWitnesses.OvershootReached | xdp_agg/xdp_agg.c:435-463 | two CPUs hold a job with quota 1 at two slots: the overshoot bound is tight |
| XdpWitnesses.RetransmissionLeaksQuota | xdp_agg/xdp_agg.c:456-463 | one retransmission can leave the counter at 1 with slot_map empty and every CPU idle |
| XdpWitnesses.QuotaBypassed | xdp_agg/xdp_agg.c:454-463 | with any quota but 1, for every n that fits the map, two CPUs can end idle with n live slots of a job and a counter of 0 |
| XdpProgram.Program.constructor | xdp_agg/xdp_agg.c:236-280 | both maps start empty |
| XdpProgram.DecrementUndoesIncrement | xdp_agg/xdp_agg.c:313-339 | a decrement takes back exactly what an increment charged unless the 32-bit counter wrapped, and no other job's counter changes |
| XdpProgram.IncrementUndoesDecrement | xdp_agg/xdp_agg.c:313-339 | an increment restores a decremented counter exactly when the guard let the decrement through |
| XdpProgram.Program.OpenSlot | xdp_agg/xdp_agg.c:396-464 | creates the slot or refuses, as specified |
| XdpProgram.Program.WriteBack | xdp_agg/xdp_agg.c:539-545 | the write-back loop copies the first chunk_len lanes |
| XdpProgram.Program.ContributeTo | xdp_agg/xdp_agg.c:481-580 | the locked region and the teardown, in place |
| XdpProgram.Program.Handle | xdp_agg/xdp_agg.c:381-600 | one packet, sequentially: verdict and both maps |
| XdpProgram.OthersDoNotTouch | xdp_agg/xdp_agg.c:390-464 | another job's packet leaves a job's slots and counter alone |
| XdpProgram.OwnPacketSame | xdp_agg/xdp_agg.c:499-580 | a job's packet gets the verdict it would get alone |
| XdpProgram.TenantIsolation | xdp_agg/xdp_agg.c:390-580 | over whole runs, while neither map fills, a job's verdicts and packets are those of its own packets run alone |
| SeenBitmap.MarkAddsOne | xdp_agg/xdp_agg.c:504-507 | marking adds one worker to the bitmap's set and touches no other |
| Parity.LookupAgrees | userspace_agg/agg.c:196-224 | both sides find, create or refuse the same slot |
| Parity.ContributeAgrees | userspace_agg/agg.c:469-550 | the locked region and the userspace loop give the same verdict and slot (`==` against `<`, bitmap against bytes) |
| Parity.StepAgrees | userspace_agg/agg.c:429-550 | one packet, malformed ones included: same verdict, and the simulation goes on |
| Parity.RunsAgree | userspace_agg/agg.c:401-551 | over whole runs both hold the same slots and counters and emitted the same key, length and values |
| Parity.InvalidFanInAgreesIff | xdp_agg/xdp_agg.c:397-414 | on a bad num_workers the two agree exactly when the slot is missing or would not take the packet |
| Parity.InvalidFanInDiverges | userspace_agg/agg.c:452-452 | a two-packet run after which the kernel program forwards the round and userspace refuses its last packet |
| Aggregator.Daemon.constructor | userspace_agg/agg.c:129-162 | both tables start with every cell free |
| Aggregator.Daemon.FindJob | userspace_agg/agg.c:170-183 | the probe loop finds or claims the entry the specification names |
| Aggregator.Daemon.Admit | userspace_agg/agg.c:202-216 | the quota decision and the counters |
| Aggregator.Daemon.FindSlot | userspace_agg/agg.c:196-224 | the probe loop returns the live cell of the key, a claimed cell, or refuses |
| Aggregator.Daemon.Free | userspace_agg/agg.c:232-236 | frees the cell and lowers the job's counter when positive |
| Aggregator.Daemon.ContributeTo | userspace_agg/agg.c:469-550 | latch, length and duplicate checks, accumulation, emission and free, in place |
| Aggregator.Daemon.Receive | userspace_agg/agg.c:429-551 | one packet: outcome and both tables |
| Aggregator.Daemon.ReapExpired | userspace_agg/agg.c:302-316 | one sweep over the table |
| QuotaAccounting.FindOrCreateJobOnMap | userspace_agg/agg.c:170-183 | the job table is a bounded map: an entry per job, or none when full |
| QuotaAccounting.AdmittedKeepsJobsOk | userspace_agg/agg.c:202-217 | an admission keeps counter = in-use cells <= quota for every tracked job |
| QuotaAccounting.RefusedKeepsJobsOk | userspace_agg/agg.c:207-210 | a refusal means the job is at its quota, and keeps the invariant |
| QuotaAccounting.ReleaseKeepsJobsOk | userspace_agg/agg.c:232-236 | the guard never blocks a decrement, and admitted minus concurrent stays the number of frees modulo 2^32 |
| JobStats.RejectionsCounted | userspace_agg/agg.c:207-210 | rejected_count is, modulo 2^32, the number of the job's packets that got no slot although one was free |
| Conservation.ContributeAnswers | userspace_agg/agg.c:469-550 | what a packet gets, from the packets its slot took before: refused for its length or its worker with nothing changed, or taken and stamped with the present, and answered with the round's sums exactly when it is the last one |
| Conservation.ProcessKeepsInv | userspace_agg/agg.c:429-551 | a packet keeps every slot, log, count and counter invariant |
| Conservation.ReapKeepsInv | userspace_agg/agg.c:302-316 | so does a sweep |
| Conservation.RunKeepsInv | userspace_agg/agg.c:401-551 | in every reachable state each emission is the sums over exactly num_workers_expected distinct workers, each accepted packet is in one live, emitted or reaped slot, and each tracked counter is its job's in-use cells |
| Conservation.AcceptedRearranged | userspace_agg/agg.c:493-550 | accepted packets are a rearrangement of live, emitted and reaped ones |
| Conservation.NothingLostNothingInvented | userspace_agg/agg.c:469-550 | accepted = emitted + live + reaped, in number and per lane modulo 2^32 |
| Starvation.FullTableTracksAll | userspace_agg/agg.c:170-183 | a full job table with at least as many entries as there are jobs tracks every job |
| Starvation.JobAtMostQuota | userspace_agg/agg.c:206-216 | no job occupies more cells than its quota |
| Starvation.StarvationFree | userspace_agg/agg.c:196-224 | in every reachable state a job below its quota is handed a slot |
| Starvation.StarvationFreeAsShipped | userspace_agg/agg.c:94-95 | the same for 65536 slots and 256 jobs |
| Fairness.OpenSlot | userspace_agg/agg.c:201-217 | a new key gets a slot exactly below the quota |
| Fairness.Refused | userspace_agg/agg.c:207-210 | at the quota a new key changes no cell, whether the table is full or not |
| Fairness.DemandSettles | scripts/fairness_sweep.py:34-37 | every interleaving of never-completing demands whose settled shares fit the table settles at min(demand, quota), or demand when the quota is 0 |
| Fairness.GreedyDemandSettles | scripts/fairness_sweep.py:34-37 | for a quota of at least 1 that fits the table for every job, whatever the demands |
| Fairness.CountersSettle | scripts/fairness_sweep.py:34-37 | the printed concurrent_slots is that share |
| JainsIndex.SquareOfSum | scripts/fairness_sweep.py:84-95 | n times the sum of squares is the square of the sum plus the pairwise spread, which is 0 only for equal shares |
| JainsIndex.JainBounds | scripts/fairness_sweep.py:84-95 | the index lies in [1/n, 1] and is 1 exactly for equal shares; it is 0 for no shares |
| JainsIndex.LeastIffOneOwner | scripts/fairness_sweep.py:85-87 | it is 1/n exactly when one job holds everything |
| JainsIndex.EqualShareOfSome | scripts/fairness_sweep.py:84-95 | it is k/n when k of n jobs share equally and the rest hold nothing |
| JainsIndex.QuotaStep | scripts/fairness_sweep.py:34-37 | how one more unit of quota moves the sums |
| JainsIndex.TighterQuotaIsFairer | scripts/fairness_sweep.py:84-95 | the index of the settled shares is non-increasing in the quota |
| JainsIndex.AnyQuotaBeatsUnlimited | scripts/fairness_sweep.py:84-95 | quota 0 is the least fair setting |
| Reaper.SweepExact | userspace_agg/agg.c:302-316 | a sweep evicts exactly the slots of age >= ttl and changes no other |
| Reaper.SweepLowersCounters | userspace_agg/agg.c:302-316 | it lowers each tracked counter by that job's evictions |
| Reaper.RunTurn | userspace_agg/agg.c:401-551 | one iteration of the receive loop, reap check included, on the real tables |
| Reaper.ProcessStamps | userspace_agg/agg.c:494-499 | an accepted packet stamps the slot that takes it with the present, and no other |
| Reaper.StampIsLastTook | userspace_agg/agg.c:494-499 | over a whole run a slot's timestamp is the clock reading of the last turn in which it took a packet |
| Reaper.AgeBound | userspace_agg/agg.c:371-408 | after any iteration, with a packet or without, every slot took one less than ttl + max(1 ms, ttl / 4) before the iteration's clock reading |
| Reaper.EvictedIff | userspace_agg/agg.c:302-316 | a due sweep evicts a slot exactly when it took nothing for a ttl |
| Reaper.SweepsAreSpaced | userspace_agg/agg.c:401-408 | at most one iteration in max(1 ms, ttl / 4) evicts anything, and with ttl 0 none does |
| Reaper.TouchedSlotsSurvive | userspace_agg/agg.c:494-499 | over a whole run, every slot ever evicted had taken nothing for a ttl by then |
| Reaper.KeptAliveNeverReaped | userspace_agg/agg.c:494-499 | over a whole run, a key whose slots take packets at gaps below the ttl is never evicted |
| Reaper.FedNeverReaped | userspace_agg/agg.c:494-499 | so is a key that stays findable and of which packets are accepted at gaps below the ttl |
| Probing.VisitsOnce | paramserver/paramserver.c:76-77 | a full probe sequence visits each cell once |
| Probing.GivesUpIffFullAndAbsent | paramserver/paramserver.c:74-92 | the probe ends in NULL exactly when the table is full and the key absent |
| Probing.InsertKeepsMapLike | paramserver/paramserver.c:79-86 | claiming the first free cell keeps every live key findable |
| Probing.FreesKeepMapLikeIff | userspace_agg/agg.c:232-236 | freeing any set of cells keeps every remaining key findable exactly when none of them is on a remaining key's probe path |
| Probing.LookupOrInsertRefinesMap | paramserver/paramserver.c:74-92 | probing an insert-only table is lookup-or-insert on a finite map |
| Tombstones.FreeSlotKeepsFindableIff | userspace_agg/agg.c:232-236 | free_slot keeps every live key findable exactly when the cell is on no other live key's probe path |
| Tombstones.PacketKeepsFindableIff | userspace_agg/agg.c:454-550 | a packet hides a key exactly when its slot lacks only its contribution and lies on another live key's path, both told before it is processed |
| Tombstones.SweepKeepsFindableIff | userspace_agg/agg.c:302-316 | a sweep keeps every surviving key findable exactly when no expired cell lies on a surviving key's path |
| Tombstones.OneKeyTwoCells | userspace_agg/agg.c:196-236 | a four-packet run in which one key holds two cells |
| Tombstones.HiddenHalfEvicted | userspace_agg/agg.c:302-316 | where the key is not findable its half-round is evicted less than a ttl after its last accepted packet |
| ParamServer.Server.constructor | paramserver/paramserver.c:125-131 | the table starts empty |
| ParamServer.Server.FindOrCreateSlot | paramserver/paramserver.c:74-92 | the probe loop finds or claims the cell the specification names |
| ParamServer.Server.DeliverTo | paramserver/paramserver.c:153-180 | latch, duplicate check, accumulation and completion, in place |
| ParamServer.Server.Receive | paramserver/paramserver.c:147-180 | one packet: the table and the completions |
| ParamServer.DeliverKeepsCell | paramserver/paramserver.c:153-180 | the accumulator stays the sum of distinct workers, and a slot completes exactly when full |
| Rounds.DeliverHears | paramserver/paramserver.c:159-170 | a slot takes a packet exactly when its worker is new to it, and is otherwise left as it was |
| ParamServer.RunKeepsInv | paramserver/paramserver.c:131-181 | whatever arrives, the table stays a map of exact sums and no key completes twice |
| ParamServer.StepRefinesMap | paramserver/paramserver.c:147-180 | one packet on the table is one packet on a finite map |
| ParamServer.TableRefinesMap | paramserver/paramserver.c:131-181 | so is a whole run |
| Rounds.RunFollows | paramserver/paramserver.c:131-181 | over any input, every slot has taken exactly the first packet of each worker of its key, and every log entry is made of the first ones as its first packet says |
| Rounds.CompletesIff | paramserver/paramserver.c:172-180 | a key is in the log if and only if it has a slot and as many workers were heard as its first packet says; then once, with those packets and their sums |
| Rounds.EveryKeyServed | paramserver/paramserver.c:71-92 | while the keys fit the table each has a slot |
| Rounds.FullRoundCompletes | paramserver/paramserver.c:159-180 | a noagg server that gets packets from all n workers of a key with a slot, in any order, completes it once with n different workers' sums |
| Rounds.FirstPacketCompletes | paramserver/paramserver.c:153-180 | an agg-mode server completes a key with a slot once, with its first packet |
| Rounds.RetransmissionIgnored | paramserver/paramserver.c:159-164 | a packet of a worker heard before changes neither table nor log |
| Rounds.StandaloneCloses | paramserver/paramserver.c:172-180 | a packet of worker 0 of 1 completes its key alone, in either mode, with its own values |
| EndToEnd.EmissionIsFullRound | userspace_agg/agg.c:487-550 | an emission is a full round of packets that arrived |
| EndToEnd.SameRoundSameSum | userspace_agg/agg.c:501-503 | two full rounds of a key have the same sums |
| EndToEnd.AggCompletionIsFullRound | paramserver/paramserver.c:153-180 | an agg-mode completion holds the sum of a full round of raw packets |
| EndToEnd.RawCompletionIsFullRound | paramserver/paramserver.c:153-180 | so does a noagg completion |
| EndToEnd.AggregationPreservesMeaning | paramserver/paramserver.c:150-180 | under loss, reordering, duplication and reaping a key completed in both modes has the same sum, and completes once in agg mode |
| EndToEnd.EmissionClosesItsSlot | userspace_agg/agg.c:530-543 | on the wire an emission parses as worker 0 of 1 with its sums, and it completes its key alone at a server in either mode |
| EndToEnd.BothComplete | paramserver/paramserver.c:150-180 | when an emission of a round and raw packets of all its workers arrive and the key has slots, both servers complete it once, with the same sum |
| XdpEndToEnd.ForwardIsFullRound | xdp_agg/xdp_agg.c:536-545 | on well-formed traffic every XDP_TX carries the sum of a full round of packets that arrived, in every interleaving |
| XdpEndToEnd.KernelAggregationPreservesMeaning | paramserver/paramserver.c:150-180 | the same sums through the kernel program: any interleaving, any number and order of its XDP_TX packets |
| XdpEndToEnd.ForwardClosesItsSlot | xdp_agg/xdp_agg.c:582-589 | whatever arrived, on the wire an XDP_TX packet parses as worker 0 of 1 with its sums, and it completes its key alone at a server in either mode |
| XdpEndToEnd.ForwardAgainIgnored | xdp_agg/xdp_agg.c:582-583 | a second forward of a key, whichever worker closed it, changes nothing at a server in either mode |
| XdpEndToEnd.BothCompleteThroughKernel | paramserver/paramserver.c:150-180 | both servers complete a round once, with the same sum, when one XDP_TX of it and all raw packets arrive |
| XdpEndToEnd.OneTrafficBothWays | xdp_agg/xdp_agg.c:396-600 | the same traffic through the kernel program or straight to a noagg server completes a round once at each, with the same sum, under any interleaving without refusals |
| GradProto.AccumulateLanes | userspace_agg/agg.c:501-503 | the accumulate loop adds every carried lane with 32-bit wrap-around |
| GradProto.AccumulateHolds | userspace_agg/agg.c:501-504 | an accumulator of exact wrapped sums stays one |
| GradProto.LaneSumPermutation | userspace_agg/agg.c:501-503 | sums do not depend on arrival order |
| GradProto.WorkersBelow | userspace_agg/agg.c:487-506 | n distinct workers below n are all of them |
| FixedPoint.QuantisedWithin | protocol/grad_proto.h:52-54 | a quantised value stays within the bound of the real one |
| FixedPoint.AccumulationExact | protocol/grad_proto.h:66-69 | when the fit check holds, every partial sum in any order stays in int32 and wrapping addition is exact |
| FixedPoint.FitsIffWorstCaseFits | protocol/grad_proto.h:66-69 | for a representable magnitude the check accepts if and only if n workers at that magnitude sum to less than INT32_MAX |
| FixedPoint.QuantisationError | protocol/grad_proto.h:52-58 | n quantised values decode to within n/65536 of the real total |
| FixedPoint.DecodedTotal | tests/test_correctness.py:28-38 | so does the wrapped accumulator, under the fit check |
| FixedPoint.SlotDecodes | userspace_agg/agg.c:501-504 | and every lane of a slot |
| IpChecksum.SumWords | xdp_agg/xdp_agg.c:348-354 | the loop sums words 0 to 4 and 6 to 9 |
| IpChecksum.NineWordsFit | xdp_agg/xdp_agg.c:349-356 | two folds bring that sum into 16 bits |
| IpChecksum.Checksum | xdp_agg/xdp_agg.c:341-358 | computes the complement of the folded sum |
| IpChecksum.SwappedSum | xdp_agg/xdp_agg.c:348-356 | reading words in the other byte order gives a congruent sum |
| IpChecksum.ReceiverAccepts | xdp_agg/xdp_agg.c:597-598 | with the complement stored, the ones'-complement sum over ten words is 0xFFFF in either byte order |
| IpChecksum.Rewrite | xdp_agg/xdp_agg.c:597-598 | of the 20 header bytes only 10 and 11 change, and a receiver accepts the result |
| WireFormat.SwapReads16 | xdp_agg/bpf_compat.h:94-96 | the shift-and-or swap of a host load is the big-endian field |
| WireFormat.SwapReads32 | xdp_agg/bpf_compat.h:97-100 | the same for 32 bits |
| WireFormat.ParsersAgree | fuzz/parse_shared.h:87-211 | on every byte sequence the two parsers return the same verdict and fields |
| WireFormat.RoundTrip | protocol/grad_proto.h:33-44 | an encoded packet parses back to the same header and signed values exactly when it is admissible; its flags are 0 |
| WireFormat.TruncatedRefused | fuzz/parse_shared.h:88-96 | a packet cut anywhere is refused |
| WireFormat.PackHeader | worker/worker.c:100-106 | the header fields, big-endian in the buffer |
| WireFormat.Pack | worker/worker.c:99-111 | the packing loop writes the encoding of the packet |

## Left out

- Sockets, argument parsing, signals, logging, statistics dumps and timers: packets and clock readings are inputs, emissions and verdicts are results.
- `first_seen_micros` and latency output; the parameter server's `completed_micros` is a boolean.
- Parameter-server input that is truncated or longer than it claims: the code has no check there, so a packet carries its payload.
- The incoming `flags` field and trailing bytes of over-long packets: the kernel program forwards them, userspace does not.
- Ethernet, IPv4 and UDP parsing and the retargeting of addresses in the kernel program; XDP_PASS traffic.
- The kernel's recycling of deleted map elements: a deleted instance is orphaned and never reused.
- A `config_map` that changes while packets are in flight; it is populated or absent for a whole run. `drop_stats` counters.
- In `XdpMachine` a map lookup and the read of the entry it returns are one step; `job_quota_map` entries are never deleted, so a stale pointer there cannot be told from a fresh one.
- The BPF verifier, stack limits, loop unrolling and the per-lane bounds re-check, which cannot fail once the parser has accepted the packet.
- Hash functions: `slot_key` and `job_hash` are arbitrary functions; `& (capacity - 1)` is the remainder, which for the power-of-two capacities is the same.
- WireFormat.RoundTrip: the `|` of disjoint shifted bytes is written as addition.
- FixedPoint.QuantisationError: doubles are reals, so rounding of the product by 65536 is not modelled.
- Parity.RunsAgree: needs a populated config, equal quotas and capacities, the reaper off, valid fan-in on every parsed packet, and a slot table in which no free hides a live key; `Parity.InvalidFanInAgreesIff` and `Tombstones.PacketKeepsFindableIff` say exactly when the last two fail.
- XdpExact.CountersExactIff: schedules use so few CPUs that slots plus CPUs stay below 2^32, so counters do not wrap.
- Cells, slots and instances are values in arrays and maps; the C code's pointers into the tables become indices.
- Benchmark statistics, CI scripts, the dashboard, the fuzz driver and its corpus, the xorshift generator.
