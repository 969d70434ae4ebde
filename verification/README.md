# StarfishOS: verified models of its distributed core

StarfishOS is a distributed microkernel: machines share CXL memory, count references to shared objects across crashes, move pages between CXL and local DRAM, checkpoint the whole system and interrupt each other's CPUs. This project models those parts in Dafny and proves what they promise.

- **Reference counting** (`RefProtocol`, `RefInvariant`, `RefSharedSteps`, `RefTheorems`, `RefProgress`, `RefRejoin`, `RefReboot`, `RefMeta`, `RefUnlink`). N machines link and unlink shared objects step by step: load `ref_info`, record the seen era, write a redo entry, CAS, write the reference cell, bump the own era. Any machine can die between any two steps; survivors scan its redo ring, `ref_info` and the era matrix one entry at a time, while the others keep running, and a crashed machine can boot again, recovered or not. `RefMeta` is the in-place code over the shared arrays, `RefUnlink` the recursive unlink on objects with embedded references.
- **Page demotion** (`Demotion`, `DemotionProof`, `DemotionTheorems`, `DemotionFinish`, `DemotionFree`, `DemotionPrepare`). One CXL page with any number of mappings on any number of machines, page tables, TLBs, program writes, page faults in three steps, the demoter's phases, failures at any point, free requests and reuse of the returned frame.
- **Reclaim control messages** (`ControlRpc`, `ControlRpcProof`), **origin frames** (`OriginRelease`), **accounting** (`Tally`, `Accounting`), the **CLOCK hand** (`Sampling`) and one whole **reclaim round** (`ReclaimRound`).
  In `Accounting` every critical section is a method that keeps `Valid()`: the FIFO is exactly the tracked pages, `free_pending_pages` and both histograms count the pages they name, `resident_pages` is the FIFO length plus the pages between the two sections of their removal, allocated + reserved is within the total, reservations add up over the threads, and whenever resident + reserved exceeds the limit reclaim demand is pending. So it holds after any interleaving of calls, and every `BUG_ON` is an assertion that verifies, save for the overflowing reservation and the double free listed below.
- **Checkpoint and restore** (`Graphs`, `Checkpoint`, `CheckpointProgress`, `CheckpointVersions`, `CheckpointFlags`, `CheckpointPool`, `CheckpointRestore`) and **page migration** between DRAM and NVM (`PageMigration`).
- **IPI transactions** (`Ipi`) and the **interval algebra** of the growth analysis (`Intervals`).
- `Options`, `Lifecycle` and `Lists` hold what several models share.

Protocols are transition systems: `Enabled` and `Do` say what one atomic step is, an inductive invariant is shown to survive every step, and the theorems speak about every state reached by any sequence of steps from any initial state. A critical section is one step. Code that updates objects in place is a class whose methods are proved against a specification; where the outcome of a call is not the worker's to decide it is an input, so the contracts say what is done for every outcome.

Safety is not all that is proved: from every state of the invariant an operation that is left alone comes to its end with its stated effect (links, recoveries, demotions, control calls, releases, checkpoints, restores), so a step that does nothing contradicts a theorem too.

## Assumptions

- Reference counting: at most one operation in flight per machine; eras do not wrap; writing a redo entry is one step; a reference cell is written by its one owner; freed objects are not reused; the objects of the crash model embed no references (recovery finishes only the newest redo entry); a machine does not boot again while another is recovering it. The 16-bit count is modelled modulo 2^16, and the exact statement is for fewer than 2^16 cells.
- Memory is sequentially consistent, and a TLB caches only translations that were in the page table.
- In `Accounting`, `OriginRelease` and `ReclaimRound` the read of `cxl_free_requested` in `finish_candidate` and the state change that follows are one step; `Demotion` separates them, and `DemotionFree` says what a free in between does.
- A page that is being freed is no longer faulted on.
- A control call returns only after its handler is done or can no longer start, which is what `ControlRpcProof` proves; `OriginRelease` relies on it.
- Checkpoints: object memory is not reused, and an object that has become unreachable stays unreachable. `CheckpointFlags` adds the step that links it again and says what follows.
- `handle_ipi` is atomic and terminates.

## Where the code does not meet the property

- **Joining again.** `dsm_ref_machine_join` resets the machine's own era to 1. If any `ref_info`, any other machine's era row or any `ref_info` another machine has just loaded still remembers an era of its earlier life, recovery can later take an operation for committed whose CAS never landed. `RefRejoin.JoinExactIffFresh` gives the exact condition, `RefRejoin.RejoinMisjudges` a run from boot that fails.
- **Booting again before recovery.** `dsm_ref_machine_join` clears the redo ring of an earlier boot. If that boot ended in a crash between a CAS and its cell write and nobody has recovered the machine, the count stays wrong for good. `RefReboot.RebootKeepsCountsIff` gives the exact condition, `RefReboot.RebootLosesReference` a run from boot that fails.
- **Stale fault.** The fault path reads the PMO entry before it takes the page-table lock, and `dsm_cxl_mapping_in_transition` lets an allocated frame in state NONE pass. A fault that read the CXL frame before a demotion and tests it between `finish_candidate`'s state change and the return of the frame installs a frame nobody tracks. `DemotionTheorems.FaultSafeIffGuarded` gives the exact condition, `DemotionTheorems.StaleFaultMapsReturnedFrame` a run that fails; all other demotion theorems are for every run in which no fault does this.
- **Late free request.** `finish_candidate` reads `cxl_free_requested` once, before it rewrites the PTEs, and clears it when tracking ends (`dsm_cxl_reclaim.c`, lines 2723 and 2758). A free that arrives in between is forgotten: the page stays in DRAM, named by the PMO. `DemotionFree.RequestHonouredIff` gives the exact condition, `DemotionFree.LateRequestIsForgotten` a run that fails.
- **Free of a page on its way out.** A page that has left the FIFO keeps `PG_allocated` until `buddy_free_pages` (`dsm_cxl_reclaim.c`, lines 2370 and 2777), so `dsm_cxl_free_page` takes it for an untracked block and gives it back a first time (line 2490). `Accounting.Reclaim.FreePage` keeps the invariant if and only if the page is not in that window; `Accounting.FreedTwice` is a sequence of calls that fails.
- **Reservation overflow.** `dsm_cxl_reserve_pages` adds in 64 bits and compares the sum with the allocated pages only. The admission is right if and only if `reserved + pages` does not wrap (`Accounting.AdmissionExactIff`, `Accounting.AdmissionCanOverflow`).
- **Versions after a failed checkpoint.** `get_ckpt_ws_data` adds two to the second record's version also for a checkpoint that then fails. Commits 1 and 2, a failed 3, commit 5: the next checkpoint is 4. `CheckpointVersions.VersionRisesIff` gives the exact condition in terms of the failures, `CheckpointVersions.VersionFallsBack` the run; `PageMigration.CachedPage.CaptureDram` says what a falling version does to a page pair. With only one record a failed version is used again.
- **One-bit visited flag.** An object that was unreachable during one checkpoint and is linked again carries the flag of two checkpoints ago and is skipped, with everything reachable only through it. `CheckpointFlags.CheckpointRightIff` gives the exact condition for the checkpoint to be right nevertheless, `CheckpointFlags.RevivedObjectIsStale` a run that commits a wrong one.

## Model

| member | source | states |
|---|---|---|
| `RefTheorems.CommitDetectionExact` | kernel/dsm/dsm_ref.c:317-356 | in every state of every run with fresh joins, for every machine at every step: Case A or Case B holds for its newest redo entry exactly when that operation's CAS landed, also when later machines, dead or alive, have overwritten the stamp |
| `RefTheorems.InterleavedVerdictExact` | kernel/dsm/dsm_ref.c:317-356 | the verdict of a scan that reads `ref_info` and the era rows one by one, with other machines running in between, is the exact one |
| `RefTheorems.CountConserved` | kernel/dsm/dsm_ref.c:191-287 | in every reachable state an object's count is the cells naming it, plus committed links whose cell is unwritten, minus committed unlinks whose cell is not yet zeroed (modulo 2^16; exactly, for fewer than 2^16 cells) |
| `RefTheorems.UnlinkNeverUnderflows` | kernel/dsm/dsm_ref.c:243-276 | an unlink whose CAS is about to land finds a count of at least one |
| `RefTheorems.RecoveryRemovesCorrection` | kernel/dsm/dsm_ref.c:358-405 | finishing the recovery of a dead machine, however interleaved, equals an uninterrupted one and removes exactly its outstanding cell write from the balance |
| `RefTheorems.SecondRecoveryIsNoop` | kernel/dsm/dsm_ref.c:317-412 | recovering a recovered machine again changes no cell |
| `RefProgress.FinishesAlone` | kernel/dsm/dsm_ref.c:191-276 | from every state with a link or unlink in flight on a live machine, at any step and with any stale word loaded, at most nine steps of that machine alone end it: the cell holds its value, the count has moved by one, the era has grown by one, nothing else has changed |
| `RefProgress.CasLandsIffUndisturbed` | kernel/dsm/dsm_ref.c:201-226 | in every run a CAS lands if and only if no other CAS landed on the object since this attempt loaded it (no word ever comes back), and one that fails loads again |
| `RefProgress.SavedCountIsReplaced` | kernel/dsm/dsm_ref.c:220-226 | when a CAS lands the newest redo entry holds the count it replaced, and that of an unlink is 1 exactly when it took the last reference |
| `RefProgress.RecoversAlone` | kernel/dsm/dsm_ref.c:317-412 | from any point, the recovery of a dead machine ends after at most one step per machine and two more, with the effect of an uninterrupted one |
| `RefProgress.NewObjectLinks` | kernel/dsm/dsm_ref.c:191-236 | a new object can be linked at once and then has exactly one reference |
| `RefProgress.RecoveredCanJoin` | kernel/dsm/dsm_ref.c:150-167 | a recovered machine can boot and join again |
| `RefSharedSteps.OverwriteLeavesTrace` | kernel/dsm/dsm_ref.c:201-226 | a machine that replaces another's stamp has recorded that era in its row first, so a landed operation stays detectable |
| `RefSharedSteps.CasLandsInv` | kernel/dsm/dsm_ref.c:218-226 | a landing CAS keeps the whole invariant: every other machine's detection verdict and every count |
| `RefSharedSteps.VerdictIsExact` | kernel/dsm/dsm_ref.c:331-356 | a finished scan has found evidence exactly when the operation landed |
| `RefSharedSteps.RecoverApplyInv` | kernel/dsm/dsm_ref.c:358-405 | finishing the dead machine's operation keeps the invariant |
| `RefInvariant.LatestIsMaximal` | kernel/dsm/dsm_ref.c:124-137 | the selected redo entry has the highest era of the ring, and none is selected only from an empty ring |
| `RefInvariant.LatestIsSlot` | kernel/dsm/dsm_ref.c:103-137 | an entry at its era's slot with the highest era of the ring is what the scan returns, although slots are reused |
| `RefInvariant.JoinInv` | kernel/dsm/dsm_ref.c:150-167 | a join that nothing remembers keeps the invariant |
| `RefInvariant.FirstJoinIsFresh` | kernel/dsm/dsm_ref.c:143-167 | after global initialisation a first join is always such a join |
| `RefRejoin.JoinExactIffFresh` | kernel/dsm/dsm_ref.c:150-167 | detection stays exact in every continuation after a join if and only if no era row, no stamp and no live reader remembers an earlier life of the machine; only that the machine can start an operation and that the objects it stamped are still in use is presupposed |
| `RefRejoin.StaleRowBreaks` | kernel/dsm/dsm_ref.c:340-354 | a leftover era row alone is enough for a wrong verdict |
| `RefRejoin.StaleStampBreaks` | kernel/dsm/dsm_ref.c:201-209 | a leftover stamp alone is enough for a wrong verdict |
| `RefRejoin.StaleReaderBreaks` | kernel/dsm/dsm_ref.c:201-209 | a machine that has loaded a leftover stamp and not yet recorded it is enough for a wrong verdict |
| `RefRejoin.OwnStampBreaks` | kernel/dsm/dsm_ref.c:341-345 | the machine alone, coming back to its own leftover stamp in the same era, is enough for a wrong verdict |
| `RefRejoin.RejoinMisjudges` | kernel/dsm/dsm_ref.c:150-181 | from boot, a link, a leave and a second join reach a state from which recovery takes an operation for committed that never landed |
| `RefReboot.RebootKeepsCountsIff` | kernel/dsm/dsm_ref.c:150-167 | after a crash the counts survive a new boot if and only if the machine was recovered first or no operation it committed was still without its cell write |
| `RefReboot.RebootLosesReference` | kernel/dsm/dsm_ref.c:150-167 | from boot, a link whose CAS landed, a crash and a new boot leave an object with count one that no cell names |
| `RefInvariant.RebootInv` | kernel/dsm/dsm_ref.c:150-167 | a boot of a machine with nothing outstanding keeps the whole invariant |
| `RefMeta.PackRoundTrip` | kernel/include/dsm/dsm_ref.h:92-98 | machine, count and era are the top 16, next 16 and low 32 bits of the word, and unpacking gives them back, so the CAS on the word compares all three |
| `RefMeta.Metadata.WriteRedo` | kernel/dsm/dsm_ref.c:103-117 | only the slot of the era in the machine's own ring changes |
| `RefMeta.Metadata.FindLatestRedo` | kernel/dsm/dsm_ref.c:124-137 | the loop returns the entry of highest era, or nothing exactly for an empty ring |
| `RefMeta.Metadata.RecoverMachine` | kernel/dsm/dsm_ref.c:317-412 | the in-place recovery loop writes exactly the cells that the protocol's uninterrupted recovery writes |
| `RefUnlink.Graph.Unlink` | kernel/dsm/dsm_ref.c:243-287 | on any graph, cyclic ones included: counts equal in-degrees before and after, a cell is zeroed exactly when it is the given one or embedded in an object that dropped to zero, the dropped objects are the least set closed under losing all references, no count underflows, and the recursion ends |
| `DemotionTheorems.DemotionLosesNoWrite` | kernel/dsm/dsm_cxl_reclaim.c:1538-1631 | in every guarded run every cached translation leads to the last value written, and a completed demotion leaves the PMO naming a DRAM frame with that value |
| `DemotionTheorems.ReturnedFrameIsUnnamed` | kernel/dsm/dsm_cxl_reclaim.c:2714-2777 | once a demotion has given the CXL frame back, no page table, TLB or PMO names it and no fault is about to install it |
| `DemotionTheorems.PreparedMeansUnmapped` | kernel/dsm/dsm_cxl_reclaim.c:1553-1630 | from PREPARED until finish or restore every mapping is a migration entry with its old value saved, and a TLB may hold it only on a machine not yet flushed |
| `DemotionTheorems.FailedDemotionChangesNothing` | kernel/dsm/dsm_cxl_reclaim.c:2588-2609 | after a failure in prepare, flush or copy every touched PTE has its old value, the PMO entry is unchanged and the page is RESIDENT and IDLE, or FREE_PENDING if a free arrived |
| `DemotionTheorems.TestPassesStaleIff` | kernel/dsm/dsm_cxl_reclaim.c:461-507 | the transition test lets a frame pass that the PMO no longer names exactly when it is the CXL frame, still allocated and no longer tracked |
| `DemotionTheorems.FaultSafeIffGuarded` | kernel/mm/pgfault_handler.c:1003-1024 | letting a fault install its frame ends in a safe state if and only if that frame is not the CXL frame of a page whose tracking has ended |
| `DemotionTheorems.ReadUnderLockIsGuarded` | kernel/mm/pgfault_handler.c:1003-1024 | reading the PMO under the page-table lock closes that window |
| `DemotionTheorems.StaleFaultMapsReturnedFrame` | kernel/mm/pgfault_handler.c:1003-1024 | a run in which a page table ends up naming a frame the allocator has taken back |
| `DemotionFinish.FinishedMappings` | kernel/dsm/dsm_cxl_reclaim.c:2725-2737 | when a demotion is done with the page tables: without a free request every mapping of the owner names DRAM with its old bits (save where a fault has set new ones since), every other mapping is gone, and with one all are gone |
| `DemotionFinish.DramOnOwnerOnly` | kernel/dsm/dsm_cxl_reclaim.c:2729-2735 | in every guarded run only page tables and TLBs of the owner name the DRAM frame |
| `DemotionFinish.DemotesAlone` | kernel/dsm/dsm_cxl_reclaim.c:2714-2777 | left alone, a demotion succeeds whatever mappings there are: last value in DRAM, the owner's mappings kept with their bits, all others gone, CXL frame returned |
| `DemotionFinish.WriteIsSeen` | kernel/dsm/dsm_cxl_reclaim.c:1538-1631 | a value written through any translation is what every translation and the PMO lead to until the next write, whatever demotions, failures and faults come in between |
| `DemotionFinish.TestBlocksNamedIff` | kernel/dsm/dsm_cxl_reclaim.c:461-507 | a frame that the PMO names is held back exactly when it is the CXL frame of a page that is no longer resident |
| `DemotionFinish.OrdinaryFault` | kernel/mm/pgfault_handler.c:1003-1024 | a fault on a resident or demoted page that finds the lock free installs the frame the PMO names |
| `DemotionFinish.FaultThenRead` | kernel/mm/pgfault_handler.c:1003-1024 | and its program then reads the last value |
| `DemotionFinish.FaultAgain` | kernel/mm/pgfault_handler.c:1003-1007 | a fault that was held back can be taken again, and so can one on a mapping made meanwhile |
| `DemotionFree.RequestHonouredIff` | kernel/dsm/dsm_cxl_reclaim.c:2714-2770 | a free that arrives during a demotion is honoured in every continuation if and only if it arrives before the demoter reads the request flag |
| `DemotionFree.RequestAtTheEnd` | kernel/dsm/dsm_cxl_reclaim.c:2743-2770 | a request seen by the read sends the page to the free path and out of the PMO; a later one is cleared and the PMO names the DRAM frame |
| `DemotionFree.LateRequestIsForgotten` | kernel/dsm/dsm_cxl_reclaim.c:2714-2770 | a run in which a free request is forgotten |
| `DemotionProof.ConvertInv` | kernel/dsm/dsm_cxl_reclaim.c:1553-1619 | turning any part of an alias's PTEs into migration entries, completely or up to a failure, keeps the demotion invariant |
| `DemotionProof.FinishPteInv` | kernel/dsm/dsm_cxl_reclaim.c:2725-2737 | replacing saved entries one by one, as `DemotionFinish.FinishedMappings` says, keeps the invariant while faults run on other mappings |
| `DemotionPrepare.Candidate.Prepare` | kernel/dsm/dsm_cxl_reclaim.c:1538-1631 | either every present PTE of every mapped alias is a saved migration entry and nothing else moved, or the call fails and no PTE has changed; entries that are not present, migration entries included, are passed over |
| `DemotionPrepare.Candidate.PrepareAlias` | kernel/dsm/dsm_cxl_reclaim.c:1580-1617 | the same for one alias on all machines, with everything undone at the first obstacle |
| `DemotionPrepare.Candidate.RestorePtes` | kernel/dsm/dsm_cxl_reclaim.c:1300-1311 | the page tables are as they were before the preparation |
| `ControlRpcProof.FailedCallNeverRuns` | kernel/dsm/dsm_cxl_reclaim.c:1899-2015 | a call reported as timed out or refused is never executed, before or after the report |
| `ControlRpcProof.ReturnedResultIsOwn` | kernel/dsm/dsm_cxl_reclaim.c:1917-2015 | a call that returns was executed exactly once, by its own target on its own arguments, and returns that execution's result |
| `ControlRpcProof.AtMostOnce` | kernel/drivers/pci/ivshmem.c:1048-1106 | no call is executed twice, whatever the interleaving of senders, timeouts and workers |
| `ControlRpcProof.DrainingCallIsClaimed` | kernel/dsm/dsm_cxl_reclaim.c:1980-2015 | a sender that could not cancel waits for a call that a worker has claimed or already answered |
| `ControlRpcProof.AnswerIsToTheQuestion` | kernel/dsm/dsm_cxl_reclaim.c:1917-2015 | a call begun with some target and arguments returns the result of the one execution of these arguments by that target, or has failed and was not executed |
| `ControlRpcProof.CallGoesThrough` | kernel/dsm/dsm_cxl_reclaim.c:1917-1990 | with the RPC lock free and a worker of the target polling, a call is executed, returns its result, and frees the lock |
| `ControlRpcProof.TimeoutCancelsIffUnclaimed` | kernel/dsm/dsm_cxl_reclaim.c:1993-1996 | a timeout takes the request back exactly when no worker has claimed it; otherwise the caller drains |
| `ControlRpcProof.DrainEnds` | kernel/dsm/dsm_cxl_reclaim.c:2005-2014 | draining ends: the worker and the caller bring the call to its return by themselves |
| `ControlRpcProof.GiveUpRefuses` | kernel/dsm/dsm_cxl_reclaim.c:1934-1939 | a caller that gives up has failed, without execution, and may call again |
| `ControlRpcProof.ClaimInv` | kernel/drivers/pci/ivshmem.c:1141-1168 | claiming a pending message keeps the protocol invariant |
| `ControlRpcProof.TimeoutInv` | kernel/dsm/dsm_cxl_reclaim.c:1899-1915 | a timeout that cancels or starts draining keeps the protocol invariant |
| `OriginRelease.FrameEndsOnce` | kernel/dsm/dsm_cxl_reclaim.c:2334-2440 | for every life of a tracked page its origin frame is handed back or freed at most once in total, and exactly once when the CXL frame has gone back |
| `OriginRelease.FreeIsOfKeptFrame` | kernel/dsm/dsm_cxl_reclaim.c:1869-1888 | the owner never frees a frame that was handed back, freed before, or is by now in other use |
| `OriginRelease.HandBackIsOfKeptFrame` | kernel/dsm/dsm_cxl_reclaim.c:2714-2770 | a completed demotion hands back a frame that this life still keeps |
| `OriginRelease.ReturnedAfterRelease` | kernel/dsm/dsm_cxl_reclaim.c:2399-2439 | a release call ends the life exactly when the origin is RELEASED, which has then been freed once; otherwise the page is parked again, not released |
| `OriginRelease.OneCallPerPage` | kernel/dsm/dsm_cxl_reclaim.c:2498-2578 | at most one release call holds a page, so no handler finds RELEASING and no page is left FREEING without a call |
| `OriginRelease.KeptFrameIsTracked` | kernel/dsm/dsm_cxl_reclaim.c:856-900 | no origin frame is lost: a kept frame belongs to a page still tracked for that life |
| `OriginRelease.ReleaseGoesThrough` | kernel/dsm/dsm_cxl_reclaim.c:2399-2439 | a pending page whose owner answers ends untracked with its origin freed once |
| `OriginRelease.FreeGoesThrough` | kernel/dsm/dsm_cxl_reclaim.c:2441-2487 | so does a resident page that is freed |
| `OriginRelease.HandBackGoesThrough` | kernel/dsm/dsm_cxl_reclaim.c:2714-2770 | a demotion that nobody interrupts hands the origin back once |
| `OriginRelease.RestoreUndoesDemote` | kernel/dsm/dsm_cxl_reclaim.c:2588-2609 | a demotion that is given up leaves everything as it was, a free that came meanwhile noted |
| `OriginRelease.KfreeInv` | kernel/dsm/dsm_cxl_reclaim.c:1869-1888 | freeing the origin between the CAS and the RELEASED store keeps the invariant |
| `OriginRelease.ConcludeInv` | kernel/dsm/dsm_cxl_reclaim.c:2334-2397 | finalising or deferring keeps the invariant |
| `Accounting.AdmissionExactIff` | kernel/dsm/dsm_cxl_reclaim.c:629-649 | the 64-bit admission test decides correctly if and only if reserved + pages does not wrap |
| `Accounting.AdmissionCanOverflow` | kernel/dsm/dsm_cxl_reclaim.c:629-649 | a request that is admitted although it exceeds the total |
| `Accounting.Reclaim.ReservePages` | kernel/dsm/dsm_cxl_reclaim.c:629-649 | admits as the test says; below 2^64 it admits exactly what fits and allocated + reserved stays within the total |
| `Accounting.Reclaim.CommitReserved` | kernel/dsm/dsm_cxl_reclaim.c:675-687 | reserved pages become allocated, no counter underflows |
| `Accounting.Reclaim.CancelReserved` | kernel/dsm/dsm_cxl_reclaim.c:689-700 | a cancelled reservation is given back |
| `Accounting.Reclaim.ReserveResident` | kernel/dsm/dsm_cxl_reclaim.c:702-747 | residency is reserved even over the limit, and then reclaim demand is published; the error cases change nothing |
| `Accounting.Reclaim.CancelResident` | kernel/dsm/dsm_cxl_reclaim.c:749-760 | cancelling residency keeps the invariant |
| `Accounting.Reclaim.CheckDemand` | kernel/dsm/dsm_cxl_reclaim.c:3145-3160 | the worker sees demand exactly when usage is over the limit, and retires the hint only when it is not, so demand is never lost |
| `Accounting.Reclaim.SetPolicy` | kernel/dsm/dsm_cxl_reclaim.c:381-406 | both histograms follow the page's new eligibility and permission |
| `Accounting.Reclaim.Unaccount` | kernel/dsm/dsm_cxl_reclaim.c:407-420 | an eligible page leaves both histograms, neither of which can be empty at its place |
| `Accounting.Reclaim.TrackPages` | kernel/dsm/dsm_cxl_reclaim.c:818-925 | each operation gets the verdict that the ones before it in the batch leave it with; exactly the successful pages are appended to the FIFO in order, and as many reservations turn into resident pages |
| `Accounting.Reclaim.TrackOne` | kernel/dsm/dsm_cxl_reclaim.c:856-900 | -EINVAL for anything but an allocated single page, -EEXIST for a tracked one, otherwise published at the tail |
| `Accounting.Reclaim.FreePage` | kernel/dsm/dsm_cxl_reclaim.c:2441-2495 | what a free does in each lifecycle state, every counter and histogram following; the invariant survives if and only if the page is not between leaving the FIFO and the return of its frame |
| `Accounting.FreedTwice` | kernel/dsm/dsm_cxl_reclaim.c:2490-2494 | allocate, promote, free, leave the FIFO, free again: the page still counts as resident and no page as allocated |
| `Accounting.Reclaim.FinalizeFirst` | kernel/dsm/dsm_cxl_reclaim.c:2334-2366 | the page leaves the FIFO only when pending or being freed with its origin released |
| `Accounting.Reclaim.ReturnFrame` | kernel/dsm/dsm_cxl_reclaim.c:2369-2370 | returning the frame ends the window in which the page can be freed twice |
| `Accounting.Reclaim.RemovalSecond` | kernel/dsm/dsm_cxl_reclaim.c:2368-2378 | the counters of a removed page follow in the second critical section without underflow |
| `Accounting.Reclaim.ReleaseStart` | kernel/dsm/dsm_cxl_reclaim.c:2399-2422 | a pending page becomes FREEING and is no longer counted as pending |
| `Accounting.Reclaim.DeferRelease` | kernel/dsm/dsm_cxl_reclaim.c:2380-2397 | a FREEING page is parked at the head as pending again, any other is left alone |
| `Accounting.Reclaim.ClaimPending` | kernel/dsm/dsm_cxl_reclaim.c:2521-2543 | the scan claims the first min(limit, number pending) pending pages in FIFO order, and no other page changes |
| `Accounting.Reclaim.StartScan` | kernel/dsm/dsm_cxl_reclaim.c:1101-1135 | a resident page that is not being scanned is marked, any other is left alone |
| `Accounting.Reclaim.EndScan` | kernel/dsm/dsm_cxl_reclaim.c:2611-2626 | the mark is removed, and a free that arrived meanwhile is reported |
| `Accounting.Reclaim.ClaimScanned` | kernel/dsm/dsm_cxl_reclaim.c:2628-2645 | a scanned resident page that the PMO still names becomes DEMOTING |
| `Accounting.Reclaim.PutBack` | kernel/dsm/dsm_cxl_reclaim.c:2804-2823 | a claimed page is resident again, at the tail when deferred |
| `Accounting.Reclaim.Finish` | kernel/dsm/dsm_cxl_reclaim.c:2743-2770 | a finished page goes to the free path or leaves the FIFO, and the histograms follow |
| `Accounting.MovedOk` | kernel/dsm/dsm_cxl_reclaim.c:445-448 | a lifecycle move of a tracked page keeps FIFO, pending counter and histograms in step |
| `Accounting.RemovedOk` | kernel/dsm/dsm_cxl_reclaim.c:2342-2366 | removing a page does too, and takes exactly one entry off the FIFO |
| `Accounting.WithoutAt` | kernel/dsm/dsm_cxl_reclaim.c:2350-2352 | taking an entry out of the FIFO keeps the order of the others |
| `Accounting.UncountedOk` | kernel/dsm/dsm_cxl_reclaim.c:407-420 | so does taking a page out of the histograms |
| `Accounting.PublishedOk` | kernel/dsm/dsm_cxl_reclaim.c:868-900 | so does publishing a promoted page |
| `Sampling.FairFromWindow` | kernel/dsm/dsm_cxl_reclaim.c:1034-1047 | from the start of a window every entry of an n-entry FIFO is inspected at least CXL_SAMPLE_PASSES times within ceil(n / CXL_SAMPLE_SET_PAGES) rotations |
| `Sampling.FairFromAnywhere` | kernel/dsm/dsm_cxl_reclaim.c:1034-1047 | from any state of the hand one more rotation is enough |
| `Sampling.InspectedAt` | kernel/dsm/dsm_cxl_reclaim.c:986-1047 | which entry is under the hand at each step of each pass of each window |
| `Sampling.Windows` | kernel/dsm/dsm_cxl_reclaim.c:1034-1047 | r rotations move the window on by r times its size |
| `Sampling.Sampler.Inspect` | kernel/dsm/dsm_cxl_reclaim.c:986-993 | one inspection moves the pointers as the position model says |
| `Sampling.Sampler.Scan` | kernel/dsm/dsm_cxl_reclaim.c:1071-1096 | a selection visits the entries under the hand in order, starting over at the head when a pointer is null, and the pointers stay live |
| `Sampling.Sampler.ResetWindow` | kernel/dsm/dsm_cxl_reclaim.c:995-1003 | a fresh window at the head, or null pointers on an empty list |
| `Sampling.Sampler.Unlink` | kernel/dsm/dsm_cxl_reclaim.c:1010-1026 | both pointers move off the entry to its successor before it goes, the others stay, so no pointer ever dangles |
| `Sampling.Sampler.Move` | kernel/dsm/dsm_cxl_reclaim.c:2386-2394 | parking puts the entry at the head and deferring at the tail, the others in order, with both pointers live and off it |
| `ReclaimRound.Worker.Round` | kernel/dsm/dsm_cxl_reclaim.c:2825-3119 | given what the hand meets, how each page fares and how the flushes and the copy come out: the round demotes all claimed pages that can be prepared or none, returns their number or the error, every other page is where it was unless freed, every free is acted on, no page is left scanning, DEMOTING or FREEING, and every PMO reference, vmspace reference and vmspace read lock taken is given back exactly once |
| `ReclaimRound.Worker.RoundFifo` | kernel/dsm/dsm_cxl_reclaim.c:3014-3036 | the same for the build without CLOCK, which does not age and fills holes from the end of the array |
| `ReclaimRound.Worker.Select` | kernel/dsm/dsm_cxl_reclaim.c:1049-1149 | of the entries under the hand those that can be chosen are, up to the limit; exactly they are scanning, and each holds its PMO |
| `ReclaimRound.Worker.Age` | kernel/dsm/dsm_cxl_reclaim.c:2857-2899 | the first compaction keeps exactly the candidates that are mature and can be aged |
| `ReclaimRound.Worker.Observe` | kernel/dsm/dsm_cxl_reclaim.c:2935-2986 | exactly the cold candidates are claimed, or as many of them as the rate limit allows; the claimed are exactly the DEMOTING pages, all others are released |
| `ReclaimRound.Worker.ClaimFifo` | kernel/dsm/dsm_cxl_reclaim.c:3026-3035 | exactly the cold candidates are claimed; swapping the last one into a hole loses and doubles none |
| `ReclaimRound.Worker.PrepareAll` | kernel/dsm/dsm_cxl_reclaim.c:3047-3072 | exactly the candidates that can be prepared are kept with what they hold, the others are deferred with nothing held |
| `ReclaimRound.Worker.EndAll` | kernel/dsm/dsm_cxl_reclaim.c:2588-2609 | after a success all candidates are finished, after a failure all are restored, and the worker is idle |
| `ReclaimRound.Worker.Demote` | kernel/dsm/dsm_cxl_reclaim.c:3047-3112 | a failed flush or copy restores every prepared candidate and returns its error; otherwise all are finished and counted |
| `ReclaimRound.NoFreeLost` | kernel/dsm/dsm_cxl_reclaim.c:2588-2626 | after a round a resident page that another thread freed is untracked or pending; one that nobody freed is untracked exactly if the round finished it |
| `ReclaimRound.Worker.ReleaseScanning` | kernel/dsm/dsm_cxl_reclaim.c:2611-2626 | the page is no longer scanning and the candidate holds nothing |
| `ReclaimRound.Worker.Finish` | kernel/dsm/dsm_cxl_reclaim.c:2714-2802 | the page is untracked, or pending if a free was requested whose release did not succeed, and the candidate holds nothing |
| `ReclaimRound.Worker.PutBack` | kernel/dsm/dsm_cxl_reclaim.c:2804-2823 | the page is resident or pending free again and the candidate holds nothing |
| `ReclaimRound.Worker.Snapshot` | kernel/dsm/dsm_cxl_reclaim.c:1185-1233 | all vmspaces of the page are pinned, or none |
| `ReclaimRound.Worker.ReleaseAliases` | kernel/dsm/dsm_cxl_reclaim.c:1151-1167 | each vmspace reference and read lock of the candidate is given back |
| `Checkpoint.RestoreYieldsLastCommit` | kernel/ckpt/restore.c:53-100 | after any commit and any further mutations, failed or torn checkpoints, crashes and restores, a completed restore gives exactly the reachable object graph of that commit: payloads, sharing and cycles |
| `Checkpoint.VersionsAlternate` | kernel/ckpt/ckpt_object_pool.c:28-55 | a checkpoint in progress or to come never uses the slot parity of the current one, failed commits included |
| `CheckpointVersions.VersionExact` | kernel/ckpt/ckpt_object_pool.c:28-55 | in every run the next version is the last committed one plus one plus twice the debt of failed checkpoints, a number that every failure raises and every commit negates |
| `CheckpointVersions.VersionRisesIff` | kernel/ckpt/ckpt_object_pool.c:28-55 | the next version is above the last committed one if and only if the debt is not negative, and above all versions begun if and only if moreover two records exist or nothing failed since the last commit |
| `CheckpointVersions.VersionsFollow` | kernel/ckpt/ckpt_object_pool.c:33-46 | while no checkpoint fails each version is one more than the last committed one, across crashes and restores |
| `CheckpointVersions.VersionFallsBack` | kernel/ckpt/ckpt_object_pool.c:33-37 | a run in which version 4 follows a committed version 5 |
| `Checkpoint.VisitedHasSnapshot` | kernel/ckpt/ckpt_object_pool.c:135-150 | an object found marked as visited has its snapshot of this version, so the assertion never fires |
| `Checkpoint.RestoreNeverStuck` | kernel/ckpt/ckpt_object_pool.c:278-300 | every object a restore still has to rebuild has its snapshot |
| `Checkpoint.TraversalComplete` | kernel/ckpt/ckpt.c:153-170 | a finished traversal has visited exactly the reachable objects |
| `Checkpoint.RestoreComplete` | kernel/ckpt/restore.c:76-100 | a finished rebuild has made the live graph equal to the committed one |
| `CheckpointProgress.CheckpointFinishes` | kernel/ckpt/ckpt.c:153-170 | from any point of a checkpoint visits alone bring it to where it can commit, with the whole graph captured |
| `CheckpointProgress.RestoreFinishes` | kernel/ckpt/restore.c:76-100 | from any point of a restore rebuilding alone brings it to its end with the committed graph |
| `CheckpointProgress.CheckpointCaptures` | kernel/ckpt/ckpt.c:153-185 | whatever heap the programs have made, a whole checkpoint of it can be taken and holds exactly that graph |
| `CheckpointProgress.RestoreRevives` | kernel/ckpt/restore.c:53-100 | after a crash a whole restore can be made: committed graph, flag reset, one record |
| `Checkpoint.CommitInv` | kernel/ckpt/ckpt_ws.c:165-214 | the list insertion makes the new checkpoint whole and current; a failed commit leaves the old one |
| `CheckpointFlags.CheckpointRightIff` | kernel/ckpt/ckpt_object_pool.c:135-150 | a restore of a finished checkpoint gives the live graph if and only if every reachable object can be reached through unflagged objects or its slot held its contents already |
| `CheckpointFlags.VisitsThroughUnmarked` | kernel/ckpt/ckpt_object_pool.c:135-150 | the traversal visits exactly the objects reachable through unflagged ones |
| `CheckpointFlags.VisitsAllIffUnmarked` | kernel/ckpt/ckpt_object_pool.c:135-150 | the traversal visits every reachable object if and only if none carries the flag when it begins, and then the checkpoint is right |
| `CheckpointFlags.MarkedKeepsOldSnapshot` | kernel/ckpt/ckpt_object_pool.c:143-150 | an object that carried the flag keeps the snapshot it had |
| `CheckpointFlags.RevivedObjectIsStale` | kernel/ckpt/ckpt_object_pool.c:143-150 | a run from a system without checkpoints through three of them commits a graph that differs from the live one |
| `CheckpointPool.Pool.CkptObj` | kernel/ckpt/ckpt_object_pool.c:135-275 | the recursive traversal fills the slot of every object it newly marks, follows all its references, and changes nothing else, on any graph |
| `CheckpointPool.Pool.CkptKid` | kernel/ckpt/ckpt_objects/cap_group.c:55-86 | storing one capability keeps the open object's snapshot a prefix of its references |
| `CheckpointPool.Pool.WholeCkpt` | kernel/ckpt/ckpt.c:153-185 | the version is the last committed one plus one plus twice the debt; afterwards the slots of that version hold the whole reachable graph, the slots of the current checkpoint and everything unreachable are unchanged, and the records are rotated only on success |
| `CheckpointRestore.Restorer.RestoreObj` | kernel/ckpt/ckpt_object_pool.c:278-316 | the recursive restore rebuilds every object it newly takes up, follows all its references and leaves the others alone |
| `CheckpointRestore.Restorer.WholeRestore` | kernel/ckpt/restore.c:53-100 | the live graph becomes the graph in the slots of the given version, every object of it marked for the next checkpoint |
| `CheckpointRestore.SlotsHoldGraph` | kernel/ckpt/ckpt_object_pool.c:318-343 | slots filled by a checkpoint of a heap hold exactly its graph: the round trip |
| `CheckpointRestore.RestoresGraphIff` | kernel/ckpt/ckpt_object_pool.c:318-343 | a restore from given slots gives a heap's graph if and only if every reachable object has its contents in its slot |
| `PageMigration.CachedPage.MigrateToNvm` | kernel/ckpt/hybird_mem.c:154-264 | after every single store the latest page of the pair holds the checkpointed content; in the end it is page 0, page 1 holds the runtime content, and every reverse-mapped PTE names page 1 read-only |
| `PageMigration.CachedPage.MoveFromBackup` | kernel/ckpt/hybird_mem.c:113-152 | the order of the copy and the two version stores keeps the checkpointed content latest throughout |
| `PageMigration.CachedPage.CaptureDram` | kernel/ckpt/ckpt_page.c:119-152 | the older page of the pair gets the cached content, and a restore will find it there if and only if this version is above the other page's |
| `PageMigration.CachedPage.CopyPage` | kernel/ckpt/hybird_mem.c:139-141 | a word-by-word copy into the other frame never disturbs what a restore would find |
| `PageMigration.CachedPage.Remap` | kernel/ckpt/hybird_mem.c:226-257 | all live mappings, mapped before or not, and no others |
| `Ipi.NoDeadlock` | kernel/irq/ipi.c:51-169 | in every reachable state with some CPU in prepare or wait, single-target or broadcasting, a step other than a new send can be taken |
| `Ipi.AllSendsComplete` | kernel/irq/ipi.c:51-169 | without new sends every schedule ends within a bound computed from the state, with every CPU idle |
| `Ipi.SendReachesTargets` | kernel/arch/x86_64/mm/tlb.c:205-232 | when a send returns, exactly its targets have each got one transaction of it, in order, and each has handled the message that was sent, once |
| `Ipi.HandledOnceBeforeUnlock` | kernel/irq/ipi.c:111-150 | when a sender unlocks a mailbox its transaction there has been handled exactly once, with its own vector and arguments |
| `Ipi.NeverHandledTwice` | kernel/irq/ipi.c:153-169 | every transaction is handled once with what was sent, or still sits unchanged in the locked mailbox |
| `Ipi.NextStep` | kernel/arch/x86_64/mm/tlb.c:205-232 | a chain of senders waiting for each other's mailboxes climbs in target number, so it ends at one that can move |
| `Ipi.Nearer` | kernel/irq/ipi.c:51-169 | every step other than a new send brings completion nearer |
| `Ipi.Mailboxes.Sweep` | kernel/irq/ipi.c:314-346 | a sweep unlocks and strikes out exactly the finished CPUs of the mask, and the count stays the number left |
| `Intervals.MergeIntervals` | dsm-scripts/analysis/analyze_cxl_growth.py:81-93 | the same addresses in ranges that end strictly before the next begins, for all lists of ranges |
| `Intervals.SubtractIntervals` | dsm-scripts/analysis/analyze_cxl_growth.py:95-115 | exactly the addresses of the first list that the second does not cover, strictly separated, for all lists of ranges |
| `Intervals.CutAll` | dsm-scripts/analysis/analyze_cxl_growth.py:103-112 | every piece loses exactly the addresses of the subtracted range |
| `Intervals.LengthsCountAddresses` | dsm-scripts/analysis/analyze_cxl_growth.py:81-115 | in such a list of proper ranges the sum of lengths is the number of addresses |
| `Intervals.SameCoverageSameLength` | dsm-scripts/analysis/analyze_cxl_growth.py:81-115 | the total length depends only on what is covered |
| `Intervals.SortSorts` | dsm-scripts/analysis/analyze_cxl_growth.py:85 | sorting by start and end is a sorted permutation |

## Left out

- RefMeta.Metadata.RecoverMachine: an uninterrupted recovery of objects without embedded references, so the unlinks it issues after a last reference are not in it; the interleaved recovery is in the transition system.
- RefUnlink.Graph.Unlink: no crash and no concurrent machine; recovery does not repair a crash inside the loop over embedded references.
- Accounting.Reclaim.FreePage: the allocator itself is not modelled, only which pages are handed to it and what the counters then say.
- Accounting.Reclaim.TrackPages: the page's policy snapshot is an input of the batch.
- Sampling.Sampler.Scan: any number of inspections; which of them become candidates is in `ReclaimRound`.
- ReclaimRound.Worker.Select: the entries under the hand are an input, their order is in `Sampling`.
- Ipi.Mailboxes.Sweep: one sweep of the polling loop; that polling ends is `Ipi.AllSendsComplete`.
- PageMigration.CachedPage.MigrateToNvm: the DRAM-to-NVM direction only.
- The guards for reclaim being disabled or not yet initialised.
- The aging classifier and the eligibility rule, whose outcome for each page is an input here.
- The promotion path that puts a page into CXL, and faults on a page that is being freed.
- Weak memory, Accessed and Dirty bits set by hardware, clock skew.
- Named checkpoints and time travel, type-specific object contents, `kernel/ckpt-ssi` and `cfork`.
- Migration to DRAM and the parallel active-list loop.
- `dsm_tiering.c` and `dsm_migrate.c`.
- The stop-the-world IPI waits, which spin without handling their own mailbox.
- HostFS, watchdog, runners, plotting, log parsing, statistics and printing.
