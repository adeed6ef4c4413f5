# Verified models of the xdplus device components

Models, in Dafny, of the parts of this tree whose correctness rests on concurrent state: the Vulkan
shim (`vulkan/vkshim.c`), the sensor multi-HAL (`sensors/`), the HDMI daemon (`hdmi/xdplus_hdmid.c`),
the audio HAL (`audio/audio_hw.c`) and the denial recorder (`avcd/xdplus_avcd.c`).

Code that runs under a lock, or by single atomic operations, is a state machine: one step per critical
section or atomic operation, a run is any interleaving of enabled steps, and the theorems hold at every
point of every run. What the callers owe (the API's rules, allocations that succeed) is written as the
enabling condition of a step or as a named predicate over the run: `Calm`, `Polite`, `CreatesSucceed`,
`Fits`, `Proper`, `MemorySucceeds`, `AllServed`, `NoOverlap`. Code that works in place is a class with the source's
arrays, counters and loops; its methods are proved to take exactly the steps of the state machine, or to
meet their specification outright. Driver outcomes, clocks, property gates and file contents are
parameters. Atomics are sequentially consistent. Integers are unbounded except where the source's width
matters (the 32-bit extents of a staged copy).

| files | component |
|---|---|
| `PipelineCache`, `ScratchConservation`, `MasterExclusion`, `Retention`, `AppCaches`, `CacheContents`, `AppCacheRun`, `RecycledDevice`, `PipelineCacheShim` | pipeline-cache protocol |
| `Suppression`, `SuppressionTheorems`, `SuppressionTable`, `SuppressionOverflow` | lock-free table of suppressed render passes |
| `MipBlit`, `MipBlitProofs`, `MipBlitExact` | mip-level blits over a driver that only blits at level 0 |
| `ScratchTable`, `ScratchTableProofs` | scratch images owned by command buffers |
| `Extensions` | extension list and device-creation filter |
| `SensorQueue`, `SensorPoll` | ring buffer, handle maps, round-robin poll |
| `Hdmi`, `HdmiTimer` | event loop, sleep timer |
| `AudioRouting`, `AudioAmplifiers`, `AudioPosition` | routes, amplifiers, presentation position |
| `DenialLog` | line splitter and denial filter |
| `Common` | shared definitions |

Where a property is false of the code, or the code and its comments disagree, the model follows the code
and a lemma gives the exact condition:

- The comment at `vulkan/vkshim.c:850-852` says a harvest never meets a compile. It does exactly when the
  16-entry table refused another batch on the harvested cache: `HarvestMeetsCompileIff`, and the run
  `HarvestMeetsCompile`.
- A batch that finishes after its device handle was recycled clears the flag of the batch that holds the
  new row (`vulkan/vkshim.c:833-840`): `ClearsAnothersIff`, and the run `TwoOwners`.
- With 16 slots taken, a seventeenth null-framebuffer pass is not suppressed: its Begin is dropped all the
  same, and its draws and its End reach the driver. `OverflowIff` and `SetAloneIff` say exactly when,
  `OverflowRun` is a run. A buffer reset inside a suppressed pass keeps its slot and loses commands of
  later real passes: `ResetStaleIff`, `StaleIff`.
- A scratch image whose memory cannot be allocated is destroyed twice (`vulkan/vkshim.c:1042` and `:1139`):
  `DoubleDestroyIff`, `DoubleDestroyRun`. The test `type < 0` at `:1035` is on an unsigned value and never
  true, so a missing memory type surfaces as a failed allocation.
- The blit emulation is wrong for mirrored or flat staged destinations, mirrored staged sources, several
  layers, and a staged destination of another format: `EmulationExact`, `MirroredHalf`.
- `out_open_pcm_locked` and `in_open_pcm_locked` ignore a failed route (`audio/audio_hw.c:358-361`,
  `:637-640`): `CountsRightIff`, `OutCountIff`, and the run `StolenRoute`. Overlapping routing calls can
  leave the wrong amplifier on: `AmpMatchesIff`, `OverlapMismatch`.
- A handle assigned twice keeps two global handles, only one of which maps back: `FullThenGlobalIff`.
- One unfinished line of 8191 bytes makes the recorder's read size zero for good: `RoomIff`, `OverlongLine`.

## Model

| member | source | states |
|---|---|---|
| `ScratchConservation.ExactlyOnePlace` | vulkan/vkshim.c:776-879 | at every point of every run, teardowns and recycled handles included, each scratch cache ever created is counted exactly once among its batch, one queue position, its destroy calls and the abandoned rows |
| `ScratchConservation.StepKeeps` | vulkan/vkshim.c:790-879 | every step, in any order, keeps each scratch cache in the one place its history names |
| `ScratchConservation.DrainKeeps` | vulkan/vkshim.c:776-785 | draining destroys each queued cache once and moves nothing else |
| `ScratchConservation.AbandonKeeps` | vulkan/vkshim.c:1974-1981 | wiping the row of a recycled device handle abandons its queue and destroys nothing |
| `MasterExclusion.MasterIsExclusive` | vulkan/vkshim.c:790-879 | if no device goes away under a compiling batch, no two batches compile with one master, and no step merges, serialises or destroys a master or scratch cache that a batch is compiling with |
| `MasterExclusion.StepExcl` | vulkan/vkshim.c:790-971 | each step keeps: busy flag set exactly while one in-flight batch owns that row's master, and what the step touched is idle |
| `MasterExclusion.TakeMaster` | vulkan/vkshim.c:802-807 | the batch that finds the flag clear becomes the only owner |
| `MasterExclusion.PrimeExcl` | vulkan/vkshim.c:923-940 | priming an app cache reads the master only while no batch holds it |
| `MasterExclusion.DropExcl` | vulkan/vkshim.c:1865-1877 | tearing a device down under no batch leaves ownership intact |
| `Retention.PipelinesAreKept` | vulkan/vkshim.c:302-320 | with creates succeeding, the pipelines of a finished batch that passed no cache are in the master or a queued cache at every later moment, unless the device had no row or the batch found the master busy and 8 queued |
| `Retention.QueueOnlyWhileBusy` | vulkan/vkshim.c:838-877 | a scratch cache waits in a queue only while some batch holds that device's master |
| `Retention.StepRetain` | vulkan/vkshim.c:790-879 | each step keeps every earned pipeline reachable from its row |
| `AppCaches.HarvestReadsQuietCaches` | vulkan/vkshim.c:338-373 | with every app batch tracked: entries distinct, each count is the number of in-flight batches on its cache, and no step touches a cache a batch is using |
| `AppCaches.RefCounts` | vulkan/vkshim.c:345-359 | a reference taken for a batch keeps all counts exact |
| `AppCaches.UnrefCounts` | vulkan/vkshim.c:363-373 | dropping it keeps them exact, and reports last use exactly when no other tracked batch is on the cache |
| `AppCaches.RefusedIff` | vulkan/vkshim.c:345-359 | a cache is refused exactly when it has no entry and none is free |
| `AppCaches.HarvestMeetsCompileIff` | vulkan/vkshim.c:842-861 | at every step of every run: a cache in use is touched if and only if the step is a harvest by the last tracked user and the table refused another batch on that cache |
| `AppCacheRun.HarvestMeetsCompile` | vulkan/vkshim.c:345-359 | a run from the empty tables, with seventeen caches in use, whose last step harvests a cache that a refused batch is compiling into |
| `CacheContents.CreatedHolds` | vulkan/vkshim.c:923-940 | in every run an app's new cache holds, beside the app's initial data, all the device's idle master holds, or what the disk held if the master had yet to be made, and nothing more in all other cases; every existing cache, the master included, is unchanged |
| `CacheContents.BeginTakes` | vulkan/vkshim.c:797-808 | in every run a batch without a cache gets the master exactly when that is idle or can be made, a new master holds what the disk held, and a batch with a cache is counted exactly when the table has an entry for it or a free one |
| `CacheContents.FinishHolds` | vulkan/vkshim.c:833-874 | what every cache holds after a batch finishes: on a fold the master has its own, the batch's cache and the queue, exactly, and the queued caches are gone; nothing flows from the master to an app cache; without a fold only the cache compiled into grew |
| `CacheContents.NoEntryNoHarvest` | vulkan/vkshim.c:363-373 | in every run a batch whose cache the app destroyed meanwhile reads no cache and changes no row |
| `CacheContents.TablesInBounds` | vulkan/vkshim.c:302-359 | in every run: 4 rows, one per device; at most 8 queued each; 16 entries, one per cache |
| `CacheContents.AppMergeHolds` | vulkan/vkshim.c:942-948 | an app merge adds to the destination exactly what the sources held, and changes no other cache |
| `CacheContents.EntryDropped` | vulkan/vkshim.c:958-971 | in every run a destroyed cache has no entry left, whoever was using it, and the other caches are unchanged |
| `CacheContents.DestroyFrees` | vulkan/vkshim.c:1865-1890 | in every run a destroyed device has no row left, its master is gone, its queued caches were destroyed once each, and the other caches are unchanged |
| `CacheContents.RecycleTouchesNothing` | vulkan/vkshim.c:1974-1981 | a device created under a recycled handle has no row, and no cache was freed, read or changed for it |
| `CacheContents.TouchedIsComplete` | vulkan/vkshim.c:776-971 | in every run a cache that a step does not list as touched is still there with what it held, the cache a finishing batch compiled into having gained its pipelines: so the exclusion theorems leave no access out |
| `RecycledDevice.ClearsAnothersIff` | vulkan/vkshim.c:833-840 | in every run, an owner that finishes clears another batch's flag exactly when that batch holds the row its device now has |
| `RecycledDevice.TwoOwners` | vulkan/vkshim.c:1974-1981 | a run with a recycled device handle after which two batches compile with one master |
| `PipelineCacheShim.Shim.CacheLookup` | vulkan/vkshim.c:295-300 | the scan returns the device's row |
| `PipelineCacheShim.Shim.CacheClaim` | vulkan/vkshim.c:302-320 | finds or takes a row, in place |
| `PipelineCacheShim.Shim.AppCacheRef` | vulkan/vkshim.c:345-359 | the table after a reference, and whether it was refused |
| `PipelineCacheShim.Shim.AppCacheUnref` | vulkan/vkshim.c:363-373 | the table after a release, and whether it was the last |
| `PipelineCacheShim.Shim.DrainPending` | vulkan/vkshim.c:776-785 | one merge of the queue, one destroy each: the drain step |
| `PipelineCacheShim.Shim.EnsureDiskCache` | vulkan/vkshim.c:505-556 | claims a row and creates the master once |
| `PipelineCacheShim.Shim.BatchBegin` | vulkan/vkshim.c:797-808 | the first locked section is the BatchBegin step |
| `PipelineCacheShim.Shim.BatchScratch` | vulkan/vkshim.c:810-821 | a batch with no cache creates its own |
| `PipelineCacheShim.Shim.BatchFinish` | vulkan/vkshim.c:827-875 | the second locked section is the BatchFinish step |
| `PipelineCacheShim.Shim.FinishAsOwner` | vulkan/vkshim.c:835-841 | clears the flag, drains, saves |
| `PipelineCacheShim.Shim.FinishWithApp` | vulkan/vkshim.c:842-861 | releases the app cache and harvests it on last use |
| `PipelineCacheShim.Shim.FinishWithScratch` | vulkan/vkshim.c:862-874 | merges, queues or gives up the scratch cache |
| `PipelineCacheShim.Shim.BatchLeave` | vulkan/vkshim.c:877-878 | a scratch cache nobody took over is destroyed |
| `PipelineCacheShim.Shim.CreatePipelineCache` | vulkan/vkshim.c:923-940 | the AppCreate step; what the new cache then holds is `CacheContents.CreatedHolds` |
| `PipelineCacheShim.Shim.DestroyPipelineCache` | vulkan/vkshim.c:958-971 | the AppDestroy step: the entry goes before the handle |
| `PipelineCacheShim.Shim.DestroyDevice` | vulkan/vkshim.c:1883-1890 | the DeviceDestroy step |
| `PipelineCacheShim.Shim.DropDiskCache` | vulkan/vkshim.c:1865-1877 | drain, save, free the master, wipe the row |
| `PipelineCacheShim.Shim.CreateDevice` | vulkan/vkshim.c:1974-1981 | the DeviceCreate step |
| `SuppressionTheorems.ExactStream` | vulkan/vkshim.c:1679-1781 | in every run, with any overflows and resets: between calls the driver has all Begins but null-framebuffer ones and every other command recorded while no slot was held, and the slots held are those claimed and not given back |
| `SuppressionTheorems.ScanAlwaysClaims` | vulkan/vkshim.c:1679-1691 | with at most 16 suppressions being opened or held, a scan never runs off the table, and at most 16-j claims are at or past slot j, in every interleaving of the atomic operations |
| `SuppressionTheorems.LoadIsBuffers` | vulkan/vkshim.c:1674-1677 | those claims are the buffers opening or holding, where each holds one slot at most |
| `SuppressionTheorems.DriverSeesStreamMinusPasses` | vulkan/vkshim.c:1679-1781 | with at most 16 at once, passes that do not nest and no reset inside a suppressed one, the driver has exactly the buffer's commands minus each null-framebuffer pass, Begin through End |
| `SuppressionProofs.QueryRight` | vulkan/vkshim.c:1693-1702 | the counter and hint fast paths answer as the full scan would: no false hit, no miss |
| `SuppressionProofs.ClearRight` | vulkan/vkshim.c:1704-1718 | releasing a slot, retiring the hint and decrementing keep slot, hint and count consistent for every other buffer |
| `SuppressionTheorems.DroppedIffInNullPass` | vulkan/vkshim.c:1720-1781 | the expected stream drops a command exactly when a null-framebuffer Begin precedes it with no End between |
| `SuppressionOverflow.OverflowIff` | vulkan/vkshim.c:1689-1690 | in every run the driver has the stream minus its null-framebuffer passes exactly as long as no Begin that found the table full was followed by another command |
| `SuppressionOverflow.SetAloneIff` | vulkan/vkshim.c:1679-1691 | supp_set left to run alone takes a slot exactly when one is free |
| `SuppressionOverflow.Unsuppressed` | vulkan/vkshim.c:1738-1781 | a buffer that holds no slot passes draws and Ends on |
| `SuppressionOverflow.OverflowRun` | vulkan/vkshim.c:1679-1781 | a run with 17 buffers in which the driver receives a draw and an End whose Begin was dropped |
| `SuppressionOverflow.ResetStaleIff` | vulkan/vkshim.c:1738-1741 | a reset leaves a stale slot exactly when it falls inside a suppressed pass |
| `SuppressionOverflow.StaleIff` | vulkan/vkshim.c:1693-1702 | a buffer with stale slots gets the right stream exactly until it records a draw or End of a real pass |
| `SuppressionTable.Table.SuppSet` | vulkan/vkshim.c:1679-1691 | the loop performs exactly the machine's atomic operations, in order |
| `SuppressionTable.Table.SuppActive` | vulkan/vkshim.c:1693-1702 | true exactly when the count is not zero and the hint or a slot names the buffer; same operations as the machine |
| `SuppressionTable.Table.SuppClear` | vulkan/vkshim.c:1704-1718 | the loop performs exactly the machine's atomic operations |
| `SuppressionTable.Table.Hook` | vulkan/vkshim.c:1720-1781 | one API call is its issue step followed by the machine's operations until idle |
| `MipBlit.Recorder.EmitEmulatedBlit` | vulkan/vkshim.c:1428-1549 | the scratch sizes requested and the commands recorded for one region |
| `MipBlit.Recorder.CmdBlitImage` | vulkan/vkshim.c:1551-1603 | what reaches the driver for one call: the call itself, nothing, or one emulation per region with scratch; which, is `DroppedCallIff` and `ColourCallIsIdeal` |
| `MipBlitProofs.ChainIsIdeal` | vulkan/vkshim.c:1428-1603 | for every driver that blits right only at level 0 and copies right everywhere, any chain of calls leaves every app image as the ideal chain of the served regions leaves it |
| `MipBlitProofs.EmulatedIsIdeal` | vulkan/vkshim.c:1428-1549 | stage in, blit at level 0, stage out equals the ideal blit at any levels |
| `MipBlitProofs.StagingLegalIff` | vulkan/vkshim.c:1462-1546 | a staging copy is in bounds exactly for one layer and axes in order, or flat with room |
| `MipBlitProofs.MidFits` | vulkan/vkshim.c:1500-1523 | the middle blit addresses level 0 and in-range layers of both its images |
| `MipBlitExact.UntouchedStays` | vulkan/vkshim.c:1551-1603 | a texel in no destination box keeps its value over any chain |
| `MipBlitExact.BaseLevelStays` | vulkan/vkshim.c:1276-1310 | level 0 survives any chain that writes only other levels |
| `MipBlitExact.ColourCallIsIdeal` | vulkan/vkshim.c:1551-1603 | a call with the gate on, device, functions, both images' metadata and all scratch pairs there, and a source format outside 124, 126-130: the recorded commands leave every app image as the ideal blit of all the call's regions does |
| `MipBlitExact.ColourChainIsIdeal` | vulkan/vkshim.c:1551-1603 | the same for any chain of such calls |
| `MipBlitExact.PartialCallIsIdeal` | vulkan/vkshim.c:1551-1603 | if some pairs could not be had, exactly the regions with a pair are blitted, ideally and in order |
| `MipBlitExact.DroppedCallIff` | vulkan/vkshim.c:1568-1602 | a call that names another level than 0 reaches the driver with nothing if and only if the gate is off, device, functions, metadata or every pair is missing, or the source format is one of 124, 126-130 |
| `MipBlitExact.LevelZeroPasses` | vulkan/vkshim.c:1555-1566 | a call that names level 0 alone goes to the driver as it came |
| `MipBlitExact.EmulationExact` | vulkan/vkshim.c:1462-1546 | a legal region comes out right for every driver and content if and only if it is Emulable: staged source one layer and in order or flat, staged destination one layer, strictly in order, same format |
| `MipBlitExact.MirroredHalf` | vulkan/vkshim.c:1538-1546 | a concrete 4x4 image: halving it is right, halving it mirrored is legal and is not |
| `ScratchTableProofs.OneEnd` | vulkan/vkshim.c:1174-1221 | an image lives while its buffer is not re-begun, reset, freed, nor its pool or device reset or destroyed, and afterwards has been destroyed by exactly one call |
| `ScratchTableProofs.OnePlace` | vulkan/vkshim.c:1097-1173 | at every moment each image ever created is one entry of one slot or was destroyed once |
| `ScratchTableProofs.MappingKept` | vulkan/vkshim.c:1246-1265 | a tracked buffer maps to its device until it ceases to exist, over any begins and resets |
| `ScratchTableProofs.TrackedIffRoom` | vulkan/vkshim.c:1246-1265 | an allocated buffer is tracked exactly when a slot is free |
| `ScratchTableProofs.BlitOwnsIff` | vulkan/vkshim.c:1097-1146 | a blit leaves its buffer owning both new images exactly when the buffer is tracked, its list has room or grows, and both could be created |
| `ScratchTableProofs.ReleaseEmpties` | vulkan/vkshim.c:1151-1162 | a buffer that survives a release has neither pairs nor list left |
| `ScratchTableProofs.DeviceTakesAll` | vulkan/vkshim.c:1883-1908 | when the device is destroyed every slot is free, and every image ever created was destroyed exactly once |
| `ScratchTableProofs.FailureLeaksNothing` | vulkan/vkshim.c:1130-1142 | a pair that fails leaves no image alive |
| `ScratchTableProofs.DoubleDestroyIff` | vulkan/vkshim.c:1029-1044 | some image is destroyed twice exactly when memory for a created image is refused |
| `ScratchTableProofs.DoubleDestroyRun` | vulkan/vkshim.c:1130-1142 | a concrete run of three calls that destroys one image twice |
| `ScratchTableProofs.StepKeeps` | vulkan/vkshim.c:1819-1908 | every hook keeps buffers distinct, slots on the live device and pool, list within capacity, and images balanced |
| `ScratchTableShim.CbTable.FreeImages` | vulkan/vkshim.c:1151-1162 | destroys the slot's images through the given device or the slot's own |
| `ScratchTableShim.CbTable.ReleaseCb` | vulkan/vkshim.c:1174-1196 | recycle_cb and clear_cb: one slot, found by scan |
| `ScratchTableShim.CbTable.ReleaseAll` | vulkan/vkshim.c:1201-1221 | recycle_pool, clear_pool and the device walk |
| `ScratchTableShim.CbTable.FindSlot` | vulkan/vkshim.c:1246-1252 | the buffer's slot, else the first free one |
| `ScratchTableShim.CbTable.RememberPool` | vulkan/vkshim.c:1246-1265 | creates or updates the slot |
| `ScratchTableShim.CbTable.CbToDevice` | vulkan/vkshim.c:1375-1396 | the recorded device or none |
| `ScratchTableShim.CbTable.AllocPair` | vulkan/vkshim.c:1119-1145 | list growth, two images, commit only when both exist |
| `ScratchTableShim.CbTable.DestroyFailed` | vulkan/vkshim.c:1042-1141 | which destroy calls a failed pair makes |
| `ScratchTableShim.CbTable.ScratchForBlit` | vulkan/vkshim.c:1097-1146 | the Blit step of the table |
| `Extensions.EnumerateCount` | vulkan/vkshim.c:2185-2190 | counts the blob's list and the shim's, or passes the blob's failure on |
| `Extensions.EnumerateFill` | vulkan/vkshim.c:2191-2205 | result, count and buffer contents are those of one driver owning blob list then shim list |
| `Extensions.TwoCalls` | vulkan/vkshim.c:2179-2205 | asking for the count and fetching that many yields the whole list |
| `Extensions.AppendAdded` | vulkan/vkshim.c:2197-2202 | appends as many shim entries as fit and leaves the rest of the buffer alone |
| `Extensions.AddedCount` | vulkan/vkshim.c:2127-2132 | the length of the gated shim list |
| `Extensions.AddedAt` | vulkan/vkshim.c:2134-2142 | indexes the two tables as one list |
| `Extensions.GatesAdmit` | vulkan/vkshim.c:2127-2142 | each gate admits its own table, and the identity extensions come first |
| `Extensions.OwnsExt` | vulkan/vkshim.c:2149-2156 | true exactly for names on the gated list |
| `Extensions.FilterNames` | vulkan/vkshim.c:1940-1965 | the names passed on, with and without memory for the copy |
| `Extensions.KeptExactly` | vulkan/vkshim.c:1944-1952 | every name the shim does not own survives, at its rank among them, and nothing else |
| `Extensions.OnlyBlobNames` | vulkan/vkshim.c:1940-1965 | names drawn from the advertised list reach the blob only if the blob reported them |
| `Extensions.UnfilteredIff` | vulkan/vkshim.c:1960-1964 | without the copy, the blob sees only its own names exactly if none of the shim's was asked for |
| `SensorQueue.QueueIsFifo` | sensors/SensorEventQueue.cpp:39-82 | over every interleaving, everything marked written is what was dequeued followed by what is readable, and a region being filled is in bounds and touches no readable cell |
| `SensorQueue.FillAppendsItsBatch` | sensors/multihal.cpp:143-180 | a fill beside any number of dequeues appends exactly the first k events it put |
| `SensorQueue.BlockedOnlyWhenFull` | sensors/SensorEventQueue.cpp:74-91 | a waiting writer always faces a full queue: no wake-up is missed |
| `SensorQueue.RegionIsLargest` | sensors/SensorEventQueue.cpp:39-59 | no longer region within the request would do: it runs past the array or into a readable event |
| `SensorQueue.StepKeeps` | sensors/SensorEventQueue.cpp:39-91 | every step keeps region, contents and history consistent |
| `SensorQueue.SensorEventQueue.GetWritableRegion` | sensors/SensorEventQueue.cpp:39-59 | the least of request, cells to the array's end and free cells; zero only if full or nothing asked; disjoint from the readable cells |
| `SensorQueue.SensorEventQueue.MarkAsWritten` | sensors/SensorEventQueue.cpp:61-63 | appends the batch to the readable events |
| `SensorQueue.SensorEventQueue.Receive` | sensors/multihal.cpp:152-171 | one event through region, write and mark is appended |
| `SensorQueue.SensorEventQueue.Peek` | sensors/SensorEventQueue.cpp:69-72 | the oldest event, if any |
| `SensorQueue.SensorEventQueue.Dequeue` | sensors/SensorEventQueue.cpp:74-81 | drops the oldest event; signals exactly when the queue was full |
| `SensorPoll.HandleTable.AssignGlobalHandle` | sensors/multihal.cpp:92-100 | extends both maps |
| `SensorPoll.HandleTable.GetLocalHandle` | sensors/multihal.cpp:103-109 | local handle or -1 |
| `SensorPoll.HandleTable.GetModuleIndex` | sensors/multihal.cpp:113-122 | module index or -1 |
| `SensorPoll.HandleTable.GetGlobalHandle` | sensors/multihal.cpp:125-134 | the last global handle assigned, or -1 |
| `SensorPoll.GlobalThenFull` | sensors/multihal.cpp:92-134 | a known sensor's global handle leads back to it; unknown exactly when never assigned |
| `SensorPoll.FullThenGlobalIff` | sensors/multihal.cpp:92-134 | a global handle leads back to itself exactly when its sensor was not assigned again |
| `SensorPoll.DroppedIff` | sensors/multihal.cpp:316-336 | an event is dropped exactly when it is a plain event of an unknown sensor, or meta-data marked -1 |
| `SensorPoll.RemapTranslates` | sensors/multihal.cpp:316-336 | a plain event gets the latest global handle of its own sensor, a meta-data event has it in its inner field, or -1 exactly if the sensor is unknown; no other field changes |
| `SensorPoll.DeliveredRight` | sensors/multihal.cpp:316-336 | the events delivered are, in order, the translations of the deliverable ones read |
| `SensorPoll.PollContext.CopyRemapped` | sensors/multihal.cpp:316-336 | the copy is the event translated as `RemapTranslates` says, everything else as it was |
| `SensorPoll.PollContext.ReadFrom` | sensors/multihal.cpp:347-360 | one visit of a ring buffer: its oldest event, remapped and dequeued |
| `SensorPoll.PollContext.Scan` | sensors/multihal.cpp:346-364 | per ring buffer: old events are those read, in order, then those left; delivered events are the reads remapped minus the dropped; short only if all are empty; one read per visit |
| `SensorPoll.PollContext.Arrive` | sensors/multihal.cpp:143-180 | what the writers append while poll waits goes behind what each ring holds |
| `SensorPoll.NoQueueStarves` | sensors/multihal.cpp:346-364 | between waits a queue that still has events was read at most once less than any other |
| `SensorPoll.PollContext.Poll` | sensors/multihal.cpp:338-378 | over ring buffers, any number of waits and arrivals: order, conservation and drops as in one scan, each delivered event with its own sensor's latest handle, every scan fair, at least one event returned, and blocked only with all queues empty |
| `HdmiLoop.SettledRight` | hdmi/xdplus_hdmid.c:291-357 | idle with all changes announced and no switch event waiting: attribute 1 means hdmi_up began after the last received plug-out, attribute 0 means the last helper was not hdmi_up, for every bounce pattern |
| `HdmiLoop.RebuiltMeans` | hdmi/xdplus_hdmid.c:314-357 | the state's flag means an hdmi_up began at some step with no plug-out received after it |
| `HdmiLoop.MeansRebuilt` | hdmi/xdplus_hdmid.c:314-357 | and the flag is set whenever that is so |
| `HdmiLoop.HelperHasCause` | hdmi/xdplus_hdmid.c:291-357 | hdmi_up begins only with the attribute at 1 and none begun since the last plug-out received, hdmi_down only with the attribute at 0 and an hdmi_up before it |
| `HdmiLoop.EveryEventOnce` | hdmi/xdplus_hdmid.c:303-330 | every event is received once, in the order sent, and switch events carry the attribute of their moment |
| `HdmiLoop.StepKeeps` | hdmi/xdplus_hdmid.c:291-357 | a pending difference between attribute and last state is always announced, queued or being drained |
| `HdmiLoop.FindRecord` | hdmi/xdplus_hdmid.c:213-252 | true exactly when the message has that record |
| `HdmiLoop.Daemon.HandleBurst` | hdmi/xdplus_hdmid.c:309-356 | drains the burst and decides: action and last state |
| `HdmiTimer.AwakeMeansBackOn` | hdmi/xdplus_hdmid.c:123-178 | when the timer blocks with the screen awake, nothing it switched off is still off, however property writes interleave |
| `HdmiTimer.BlocksOnCurrent` | hdmi/xdplus_hdmid.c:143-176 | when the timer blocks, the value it acted on is current |
| `HdmiTimer.HelpersExclude` | hdmi/xdplus_hdmid.c:180-211 | helper runs of timer and main loop never overlap |
| `HdmiTimer.OffOnlyAfterTimeout` | hdmi/xdplus_hdmid.c:143-161 | whenever the output is switched off, the lock is held, the screen is asleep, and since the last read of the power property it was found asleep, the minutes were found positive and the timed wait ran out, in that order |
| `HdmiTimer.TimeoutSwitchesOff` | hdmi/xdplus_hdmid.c:143-161 | asleep, with a timeout that runs out undisturbed and the output active, the timer switches it off and releases the lock |
| `HdmiTimer.NoTimeoutLeavesOn` | hdmi/xdplus_hdmid.c:145-146 | without a positive timeout it leaves the output alone and waits for the next change |
| `HdmiTimer.WakeSwitchesOn` | hdmi/xdplus_hdmid.c:149-176 | in every run, a screen that wakes while the timer waits has what the timer switched off back on before the timer blocks again |
| `HdmiTimer.FirstLook` | hdmi/xdplus_hdmid.c:132-143 | once the property exists the timer finds and reads it |
| `AudioRouting.AmpDrivesRequested` | audio/audio_hw.c:183-195 | the amplifier drives exactly the transducers asked for, and the speaker when none it knows was |
| `AudioRouting.OutRequestUndone` | audio/audio_hw.c:198-267 | a release undoes one request: a nested one restores the device, the outermost one leaves the path off, and one without a request changes nothing |
| `AudioRouting.InRequestUndone` | audio/audio_hw.c:269-311 | the same for the capture path |
| `AudioRouting.AudioDevice.RouteOutEnable` | audio/audio_hw.c:198-225 | count, amplifier and result |
| `AudioRouting.AudioDevice.RouteOutRetarget` | audio/audio_hw.c:228-245 | off before on: at most one amplifier on after every single write |
| `AudioRouting.AudioDevice.RouteOutDisable` | audio/audio_hw.c:247-267 | the last release switches the live amplifier off |
| `AudioRouting.AudioDevice.RouteInEnable` | audio/audio_hw.c:269-291 | count, capture path and result |
| `AudioRouting.AudioDevice.RouteInDisable` | audio/audio_hw.c:293-311 | the last release closes the capture path |
| `AudioStreams.CountsAreRoutes` | audio/audio_hw.c:335-384 | with every route request served, counts equal routed streams, the only amplifier on is the live path's, capture is on exactly while some input is routed |
| `AudioStreams.OutputPlays` | audio/audio_hw.c:351-384 | a successful open ends with the PCM open, out of standby, exactly one amplifier on and the count at one |
| `AudioStreams.OutputRests` | audio/audio_hw.c:335-349 | a failed open, a standby, a failed write and a close end with the PCM closed, in standby, no amplifier on and the count at zero |
| `AudioStreams.InputRests` | audio/audio_hw.c:614-658 | a failed open, a standby and a close leave the input unrouted and in standby, and the other inputs routed as they were |
| `AudioAmplifiers.AmpMatchesIff` | audio/audio_hw.c:228-245 | however routing calls overlap, the amplifier on is that of the devices last handed to the routing functions, so it matches the stream's devices exactly when those call for the same one |
| `AudioAmplifiers.AmpFollowsDevices` | audio/audio_hw.c:448-470 | if routing calls do not overlap, a live output's amplifier is that of its last requested devices |
| `AudioAmplifiers.OverlapMismatch` | audio/audio_hw.c:455-467 | two overlapping calls leave the first call's amplifier with the second call's devices |
| `AudioStreams.CountsRightIff` | audio/audio_hw.c:358-361 | in every run the counts have been right at every moment exactly when every route request found the mixer open or opened it |
| `AudioStreams.OutCountIff` | audio/audio_hw.c:351-384 | in every run, locked or not, the output count is right exactly if no output is routed or its request was served |
| `AudioStreams.StolenRoute` | audio/audio_hw.c:614-658 | a run of six calls that ends with no stream lock held, one input live and routed, and its route gone |
| `AudioStreams.StepKeeps` | audio/audio_hw.c:809-903 | every call of every stream keeps counts, amplifier and stream flags consistent |
| `AudioPosition.CountersExact` | audio/audio_hw.c:519-552 | over any run, frames written are the frames of all accepted writes, and given and consumed are those of the present open |
| `AudioPosition.AnswerExact` | audio/audio_hw.c:567-594 | the answer is the frames accepted in the whole run less those given and not yet consumed in the present open |
| `AudioPosition.PositionNeverGoesBack` | audio/audio_hw.c:567-594 | over any run of writes, failures, standbys and reopens, no answer exceeds the frames of the accepted writes nor goes back |
| `AudioPosition.ReportIsPresented` | audio/audio_hw.c:578-592 | the clamped arithmetic yields frames written minus those in the kernel's buffer |
| `AudioPosition.StepKeeps` | audio/audio_hw.c:519-552 | no step moves the presented count back |
| `AudioPosition.OutStream.Write` | audio/audio_hw.c:519-552 | reopen, write, add bytes over 4 to the count if accepted, or close on failure |
| `AudioPosition.OutStream.StandBy` | audio/audio_hw.c:426-435 | closes an open PCM |
| `AudioPosition.OutStream.GetPresentationPosition` | audio/audio_hw.c:567-594 | the answer, or none |
| `DenialLog.AnyChunking` | avcd/xdplus_avcd.c:163-198 | every chunking examines exactly the stream's complete lines, in order, and keeps the rest |
| `DenialLog.CutAnywhere` | avcd/xdplus_avcd.c:180-197 | splitting does not depend on where the stream is cut |
| `DenialLog.SplitThenJoin` | avcd/xdplus_avcd.c:180-197 | lines and rest, joined by newlines, are the stream again |
| `DenialLog.RoomIff` | avcd/xdplus_avcd.c:167-178 | the read size is positive at every point exactly when every line with its newline fits in 8191 bytes |
| `DenialLog.OverlongLine` | avcd/xdplus_avcd.c:167 | 8191 bytes without a newline leave a read size of zero |
| `DenialLog.BodyMeans` | avcd/xdplus_avcd.c:96-106 | stripping removes nothing, or a prefix up to the first ';' of the C string and one blank |
| `DenialLog.DenialMeans` | avcd/xdplus_avcd.c:96-112 | a line is a denial exactly when both words stand in its body before any NUL |
| `DenialLog.Recorder.Read` | avcd/xdplus_avcd.c:167-197 | after any reads: lines examined are the stream's complete lines, buffer holds the rest, log holds exactly the stripped denials |
| `DenialLog.Recorder.Split` | avcd/xdplus_avcd.c:180-197 | examines every complete line in place and moves the rest to the front |
| `DenialLog.Recorder.ReadSize` | avcd/xdplus_avcd.c:167 | zero only when one unfinished line fills the buffer |

## Left out

- Weak memory orders: the suppression table's atomics are sequentially consistent steps.
- Barriers, layouts and multi-region overlap in the blit emulation; regions of one call act in order.
- The resampler itself: any function of the source region's texels, the two boxes and the two formats.
- Entry-point resolution, driver identity, samplers, and the image-metadata table of `vkshim.c`; a blit is given its images' metadata.
- Disk format, size limits and save intervals of the persistent pipeline cache; whether a save happens is a parameter.
- Layer queries of the extension enumeration, which pass straight to the blob.
- Driver merge calls that fail: `Retention` takes every merge as done.
- HdmiLoop.SettledRight: assumes a readable attribute, no socket overrun, helpers that can be forked, and a kernel that announces each change of the attribute before it makes the next.
- HdmiTimer.AwakeMeansBackOn: property serials do not wrap.
- SensorPoll.PollContext.Poll: what arrives during a wait is a parameter, put through the writer's calls one event at a time.
- AudioStreams.StepKeeps: streams are values of a state machine; only the device is modelled in place.
- Individual mixer writes that fail, volume mapping, sleeps and real PCM input and output of the audio HAL.
- Log rotation, timestamps and file errors of the denial recorder.
- `wifi/`, `wpa_supplicant/`: netlink messages and ioctls over libnl, and handler tables.
- `hwcshim/`: its correctness rests on a composer blob known only from comments.
- `keymaster/`, `health/`, `configstore/`, `dumpstate/`, `omx/`: service registration over libraries that are not part of this tree.
- `shims/`, `sensors-iio/`, `parts/`: symbol trampolines, unit scaling, user interface.
