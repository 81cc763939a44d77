# gem5 cache-hierarchy scripts, modelled in Dafny

Three gem5 configuration scripts under `sieni/report_2/code/` build a simulated x86 system around a
transformer workload, run it, and report cache hit rates:

- `fast_transformer_config.py` has a configuration record, whose sizes and ways it prints, and `create_system`. That function
  builds a split L1 (instruction and data caches), an L2 crossbar, a shared L2, a memory crossbar and
  a DDR3 memory controller. Its `run_simulation` checks for the workload binary, builds, instantiates
  and simulates the system, then prints a hit rate per level and an overall rate over all three levels.
- `hierarchical_cache_config.py` builds the same hierarchy at module level. It then checks for the
  binary, prints a fixed description, simulates, and reports the L1 hit rate (both L1 caches pooled)
  next to the L2's local hit rate.
- `working_fast_config.py` builds one 64KiB `SimpleCache` whose CPU side both CPU ports share. It
  simulates and reports only the exit tick and cause.

The model has these parts:

- `HitRate` (`hit_rate.dfy`): the hit-rate arithmetic, as exact `real`s.
- `StatsReport` (`stats_report.dfy`): the two statistics blocks, including the `AttributeError` path.
- `Topology` (`topology.dfy`): ports, bindings and the checks a cache hierarchy is held to:
  - a single port has at most one peer;
  - both sides of every cache are bound;
  - every CPU port reaches the memory controller;
  - no data path has a cycle;
  - size and latency do not decrease away from the CPU.
- `SystemBuild` (`builder.dfy`): the gem5 `system` object as the scripts fill it in, as a class whose
  methods set attributes and bind ports.
- `ScriptBlocks` (`script_blocks.dfy`): the groups of statements the scripts share.
- `Lifecycle` (`lifecycle.dfy`): the order of the simulator calls, as a state machine with a class
  that records every call.
- `FastTransformer`, `HierarchicalCache` and `WorkingFast`: one module per script, each with its
  build method, the proofs that the hierarchy it builds is valid, and the whole run.

A port binding is an edge from the requesting port to the responding port. gem5 orients it the same
way whichever side of `=` each port is written on. Crossbar port sets and the `SimpleCache`'s CPU side
are vector ports: each assignment adds a peer. Every other port takes one peer.

The interrupt controller's ports and the system port hang off the memory bus for control traffic.
They are excluded from data paths.

Sizes are in bytes. gem5 reads "16kB" and "512MB" as binary multiples, so they are 16·1024 and
512·1024·1024. Latencies are cycles of the 1GHz clock, whose period is 1000 ticks. A hit rate is
100·hits/(hits+misses) when the level was accessed, and exactly 0 when it was not.

## Model

| member | source | states |
|---|---|---|
| HitRate.Rate | sieni/report_2/code/fast_transformer_config.py:135-138 | the rate is a percentage in [0, 100]; it is 0 when there were no accesses; otherwise rate × accesses = 100 × hits |
| HitRate.RateUnique | sieni/report_2/code/fast_transformer_config.py:138 | for an accessed level, any r with r × accesses = 100 × hits is the rate, so the rate is fully determined |
| HitRate.RateExtremes | sieni/report_2/code/fast_transformer_config.py:138 | the rate is 100 exactly when there are hits and no misses, and 0 exactly when there are no hits |
| HitRate.RateMonotoneInHits | sieni/report_2/code/fast_transformer_config.py:138 | with misses fixed, more hits never lower the rate |
| HitRate.RateAntitoneInMisses | sieni/report_2/code/fast_transformer_config.py:138 | with hits fixed, more misses never raise the rate |
| HitRate.TotalAppend | sieni/report_2/code/fast_transformer_config.py:154-155 | summing a group's counts can be split at any point: the total of two groups is the sum of their totals |
| HitRate.PlusIdle | sieni/report_2/code/fast_transformer_config.py:154-155 | a level with no accesses adds nothing to a group's counts, on either side |
| HitRate.AggregateRate | sieni/report_2/code/fast_transformer_config.py:154-157 | the rate of a group, counted after summing its levels, is a percentage in [0, 100] |
| HitRate.PooledBetween | sieni/report_2/code/fast_transformer_config.py:154-157 | pooling two accessed levels gives a rate between any bounds that hold for both levels' rates |
| HitRate.AggregateWithinLevelRates | sieni/report_2/code/fast_transformer_config.py:154-157 | a group's rate lies within any bounds that hold for every accessed level's rate; it is 0 when no level was accessed |
| HitRate.PooledIsNotMeanOfRates | sieni/report_2/code/fast_transformer_config.py:154-157 | with levels at (1000, 0) and (1, 9), the mean of the two rates is 55 but the pooled rate is 100·1001/1010, above 99 |
| StatsReport.FastStatsBlock | sieni/report_2/code/fast_transformer_config.py:134-163 | rates are reported exactly when all six counters can be read; otherwise only the error, never a 0% rate. Each level's line has its own counts and rate. The overall line sums hits and misses over L1D, L1I and L2 and rates the sums |
| StatsReport.FastOverallWithinLevels | sieni/report_2/code/fast_transformer_config.py:154-157 | when anything was accessed, the overall rate lies within any bounds that hold for every accessed level's rate |
| StatsReport.ThreeLevelsWithin | sieni/report_2/code/fast_transformer_config.py:154-157 | pooling three levels in the script's order gives, when anything was accessed, a rate within any bounds that hold for every accessed level's rate |
| StatsReport.FastOverallExample | sieni/report_2/code/fast_transformer_config.py:154-157 | with L1D at (1000, 0), L1I at (1, 9) and an idle L2, the overall rate is 100·1001/1010 while the mean of the L1 rates is 55 |
| StatsReport.HierStatsBlock | sieni/report_2/code/hierarchical_cache_config.py:143-179 | rates are reported exactly when all six counters can be read; otherwise only the note. Each level's line has its own counts and rate. The L1 line sums L1I and L1D counts and rates the sums. The L2 local rate is the L2 line's rate |
| StatsReport.L1AggregateIgnoresL2 | sieni/report_2/code/hierarchical_cache_config.py:168-171 | two runs with the same L1 counters report the same L1 line, whatever their L2 counters |
| StatsReport.HierExample | sieni/report_2/code/hierarchical_cache_config.py:168-175 | with L1 caches at (900, 100) and (700, 300) the L1 rate is 80%; an L2 at (250, 150) has a 62.5% local rate |
| Topology.Connect | sieni/report_2/code/fast_transformer_config.py:53-54 | a binding is made exactly when the two ports have opposite roles; it runs from the requestor to the responder and joins the two given ports |
| Topology.ConnectSymmetric | sieni/report_2/code/hierarchical_cache_config.py:48-49 | writing the two ports of a binding in either order gives the same binding, or the same refusal |
| Topology.HasPeerIffUsed | sieni/report_2/code/fast_transformer_config.py:53-88 | a port has a peer exactly when it is an end of one of the bindings made |
| Topology.CountedIffPeered | sieni/report_2/code/fast_transformer_config.py:53-88 | a port is counted by some binding exactly when it has a peer |
| Topology.CheckBind | sieni/report_2/code/hierarchical_cache_config.py:55-56 | gem5 accepts `a = b` exactly when the roles differ and neither port is a single port that already has a peer; an accepted binding is `Connect(a, b)`; a refusal between opposite roles is "already connected" |
| Topology.SinglesCountedOnce | sieni/report_2/code/fast_transformer_config.py:53-88 | under the binding discipline no single port is used by more than one binding |
| Topology.PassThrough | sieni/report_2/code/fast_transformer_config.py:63-73 | a request crosses a cache or crossbar from its responding CPU side to its requesting memory side of the same component |
| Topology.MemoryReachesMemory | sieni/report_2/code/fast_transformer_config.py:85 | the memory controller's port reaches memory |
| Topology.StepExtendsReach | sieni/report_2/code/fast_transformer_config.py:53-85 | a port one hop before a port that reaches memory reaches memory too |
| Topology.RankedEdge | sieni/report_2/code/fast_transformer_config.py:53-88 | in ranked wiring every data binding leads to a higher rank |
| Topology.StepRaisesRank | sieni/report_2/code/fast_transformer_config.py:53-88 | in ranked wiring every hop, across a binding or through a component, raises the rank |
| Topology.RankIncreasesAlongPath | sieni/report_2/code/fast_transformer_config.py:53-88 | in ranked wiring ranks strictly increase along every request path |
| Topology.RankedIsAcyclic | sieni/report_2/code/fast_transformer_config.py:53-88 | ranked wiring has no request path that returns to its start |
| Topology.DepthOrderedGrowsAway | sieni/report_2/code/fast_transformer_config.py:49-57 | in ranked wiring, cache parameters that grow with depth grow along every request path: each later cache is no smaller, no less associative and no faster |
| Topology.CacheSidesBoundOnce | sieni/report_2/code/hierarchical_cache_config.py:48-76 | in a valid hierarchy a cache's memory side is used by exactly one binding; its CPU side by at least one, and by exactly one when it is a single port |
| SystemBuild.SystemBuilder.constructor | sieni/report_2/code/fast_transformer_config.py:36 | a new system has no clock, no memory ranges, no caches and no bindings |
| SystemBuild.SystemBuilder.SetClock | sieni/report_2/code/fast_transformer_config.py:38 | sets the clock period; nothing else changes |
| SystemBuild.SystemBuilder.SetMemRanges | sieni/report_2/code/fast_transformer_config.py:43 | sets the memory ranges; nothing else changes |
| SystemBuild.SystemBuilder.SetDramRange | sieni/report_2/code/fast_transformer_config.py:84 | sets the DRAM's range; nothing else changes |
| SystemBuild.SystemBuilder.AddCache | sieni/report_2/code/fast_transformer_config.py:49-50 | puts the cache at its place in the tree; nothing else changes |
| SystemBuild.SystemBuilder.Bind | sieni/report_2/code/fast_transformer_config.py:53 | the result is what gem5 decides for the ports that already have a peer. An accepted binding is appended and both ports gain a peer; a refused one changes nothing. The binding discipline is kept |
| ScriptBlocks.CyclesAt1GHz | sieni/report_2/code/hierarchical_cache_config.py:15 | at the 1GHz clock, n nanoseconds are exactly n cycles |
| ScriptBlocks.ConnectL1ToL2Bus | sieni/report_2/code/fast_transformer_config.py:63-64 | appends both L1 memory sides to the L2 bus's CPU-side ports and keeps the discipline; nothing else changes |
| ScriptBlocks.ConnectL2Cache | sieni/report_2/code/fast_transformer_config.py:67-73 | appends the L2 between the L2 bus and the memory bus and keeps the discipline; nothing else changes |
| ScriptBlocks.ConnectInterruptPorts | sieni/report_2/code/fast_transformer_config.py:76-79 | appends the interrupt controller's three bindings to the memory bus and keeps the discipline |
| ScriptBlocks.ConnectMemory | sieni/report_2/code/fast_transformer_config.py:82-88 | sets the DRAM range to the system's first memory range, then appends the memory controller and the system port to the memory bus |
| ScriptBlocks.L1ToL2BusKeepsDiscipline | sieni/report_2/code/fast_transformer_config.py:63-64 | the L1-to-L2-bus bindings keep the discipline when both L1 memory sides are free |
| ScriptBlocks.L2CacheKeepsDiscipline | sieni/report_2/code/fast_transformer_config.py:67-73 | the L2 bindings keep the discipline when both L2 sides are free |
| ScriptBlocks.InterruptsKeepDiscipline | sieni/report_2/code/fast_transformer_config.py:76-79 | the interrupt bindings keep the discipline when the controller's three ports are free |
| ScriptBlocks.MemoryKeepsDiscipline | sieni/report_2/code/fast_transformer_config.py:85-88 | the memory and system-port bindings keep the discipline when those ports are free |
| ScriptBlocks.InterruptAndMemoryRanked | sieni/report_2/code/fast_transformer_config.py:76-88 | the interrupt and memory groups keep every data binding leading away from the CPU; their control bindings do not count |
| ScriptBlocks.SharedGroupsBindNoCpuPort | sieni/report_2/code/fast_transformer_config.py:76-88 | a binding from a CPU port was made before the interrupt and memory groups |
| ScriptBlocks.L2GroupsBindNoCpuPort | sieni/report_2/code/fast_transformer_config.py:63-73 | a binding from a CPU port was made before the L1-to-L2-bus and L2 groups |
| ScriptBlocks.MemBusReachesMemory | sieni/report_2/code/fast_transformer_config.py:85 | after the memory group, the memory bus's CPU side reaches the memory controller |
| Lifecycle.After | sieni/report_2/code/fast_transformer_config.py:96-134 | nothing follows an exit; the run completes only through an exit event; counters can be read exactly when the run is complete; instantiation is allowed exactly after building |
| Lifecycle.ReplaySnoc | sieni/report_2/code/fast_transformer_config.py:96-134 | replaying one more call continues from the phase already reached |
| Lifecycle.ReplaySplit | sieni/report_2/code/fast_transformer_config.py:96-134 | replaying a run is replaying a prefix and then the rest |
| Lifecycle.ReadsFollowExit | sieni/report_2/code/fast_transformer_config.py:124-134 | in an allowed run, every counter read comes after an exit event from the simulator |
| Lifecycle.InstantiateFollowsBuild | sieni/report_2/code/fast_transformer_config.py:103-113 | in an allowed run from the start, instantiation comes after building |
| Lifecycle.ExitIsFinal | sieni/report_2/code/fast_transformer_config.py:97-100 | a failed binary check is the last call of an allowed run |
| Lifecycle.Simulation.constructor | sieni/report_2/code/fast_transformer_config.py:92 | a script starts with nothing built and no calls made |
| Lifecycle.Simulation.Record | sieni/report_2/code/fast_transformer_config.py:96-134 | an allowed call is appended to the log and the phase follows it; the phase stays the one the log leads to |
| Lifecycle.Simulation.MarkBuilt | sieni/report_2/code/fast_transformer_config.py:103 | building moves an unbuilt system to built |
| Lifecycle.Simulation.CheckBinary | sieni/report_2/code/fast_transformer_config.py:97-100 | a found binary changes nothing; a missing one ends the script |
| Lifecycle.Simulation.Instantiate | sieni/report_2/code/fast_transformer_config.py:113 | instantiation moves a built system to instantiated |
| Lifecycle.Simulation.Simulate | sieni/report_2/code/fast_transformer_config.py:124 | simulation runs to the simulator's exit event, returns it, and completes the run |
| Lifecycle.Simulation.ReadCounters | sieni/report_2/code/fast_transformer_config.py:134-148 | counters are read only from a completed run |
| FastTransformer.ConfigMatchesBuilt | sieni/report_2/code/fast_transformer_config.py:18-30 | the configured sizes and ways are those of the caches built; the configured 2ns and 20ns latencies are, at 1GHz, each of the L1's and the L2's tag, data and response latencies (2 and 20 cycles); the configured memory range is the system's |
| FastTransformer.ConnectCachesToCpu | sieni/report_2/code/fast_transformer_config.py:53-54 | binds each CPU port to its L1's CPU side, cache side written first, and keeps the discipline |
| FastTransformer.CpuSideKeepsDiscipline | sieni/report_2/code/fast_transformer_config.py:53-54 | the CPU-side bindings keep the discipline when the four ports are free |
| FastTransformer.FreeBeforeL1ToL2Bus | sieni/report_2/code/fast_transformer_config.py:63-64 | the L1 memory sides are still free when the script binds them |
| FastTransformer.FreeBeforeL2Cache | sieni/report_2/code/fast_transformer_config.py:67-73 | the L2's sides are still free when the script binds them |
| FastTransformer.FreeBeforeInterrupts | sieni/report_2/code/fast_transformer_config.py:76-79 | the interrupt controller's ports are still free when the script binds them |
| FastTransformer.FreeBeforeMemory | sieni/report_2/code/fast_transformer_config.py:85-88 | the memory controller's port and the system port are still free when the script binds them |
| FastTransformer.CreateSystem | sieni/report_2/code/fast_transformer_config.py:32-90 | builds exactly the three-level hierarchy, which passes every check: 1GHz clock, one 512MiB range, DRAM over that range |
| FastTransformer.ThreeLevelIsValid | sieni/report_2/code/fast_transformer_config.py:49-88 | the three-level hierarchy passes every check of a valid hierarchy |
| FastTransformer.WiringKeepsDiscipline | sieni/report_2/code/fast_transformer_config.py:53-88 | no single port of the wiring has two peers |
| FastTransformer.ThreeLevelSidesPeered | sieni/report_2/code/fast_transformer_config.py:53-73 | both sides of each of the three caches are bound |
| FastTransformer.L1SidesPeered | sieni/report_2/code/fast_transformer_config.py:53-64 | both sides of each L1 cache are bound |
| FastTransformer.L2SidesPeered | sieni/report_2/code/fast_transformer_config.py:67-73 | both sides of the L2 are bound |
| FastTransformer.ThreeLevelReachesMemory | sieni/report_2/code/fast_transformer_config.py:53-85 | both CPU ports reach the memory controller |
| FastTransformer.L2CacheReachesMemory | sieni/report_2/code/fast_transformer_config.py:67-85 | the L2's CPU side reaches the memory controller |
| FastTransformer.L2BusReachesMemory | sieni/report_2/code/fast_transformer_config.py:63-85 | the L2 bus's CPU side reaches the memory controller |
| FastTransformer.ICacheReachesMemory | sieni/report_2/code/fast_transformer_config.py:63-85 | the instruction cache's CPU side reaches the memory controller |
| FastTransformer.DCacheReachesMemory | sieni/report_2/code/fast_transformer_config.py:64-85 | the data cache's CPU side reaches the memory controller |
| FastTransformer.FetchPathReachesMemory | sieni/report_2/code/fast_transformer_config.py:53-85 | the fetch port's first hop is the instruction cache's cpu_side, which reaches the memory controller, and so the fetch port reaches the memory controller |
| FastTransformer.LoadStorePathReachesMemory | sieni/report_2/code/fast_transformer_config.py:53-85 | the load/store port's first hop is the data cache's cpu_side, which reaches the memory controller, and so the load/store port reaches the memory controller |
| FastTransformer.CpuPortsEnterTheirL1 | sieni/report_2/code/fast_transformer_config.py:53-54 | on every request path a fetch enters the instruction cache first, and a load or store the data cache |
| FastTransformer.CpuSideEdges | sieni/report_2/code/fast_transformer_config.py:53-54 | the only bindings the CPU-side group adds join each CPU port to its own L1 |
| FastTransformer.ThreeLevelOrdered | sieni/report_2/code/fast_transformer_config.py:49-88 | the data paths have no cycle, and caches grow no smaller, no less associative and no faster along every path |
| FastTransformer.CachesDepthOrdered | sieni/report_2/code/fast_transformer_config.py:49-57 | the L2 is no smaller (64kB against 16kB), no less associative (4 ways against 2) and no faster (20 cycles against 2) than either L1 |
| FastTransformer.WiringRanked | sieni/report_2/code/fast_transformer_config.py:53-88 | every data binding leads away from the CPU |
| FastTransformer.RunSimulation | sieni/report_2/code/fast_transformer_config.py:92-167 | a missing binary ends the run before anything is built. Otherwise the run builds the three-level system, instantiates it, simulates to the given exit event and reports the statistics of the given counters; the call log records this order |
| FastTransformer.RunBuiltSystem | sieni/report_2/code/fast_transformer_config.py:105-163 | after building: instantiate, simulate to the exit event, read the counters and report the fast statistics block |
| HierarchicalCache.ConnectCpuPorts | sieni/report_2/code/hierarchical_cache_config.py:48-49 | with the CPU port written first, it makes the same bindings as the fast script's CPU-side group and keeps the discipline |
| HierarchicalCache.BuildSystem | sieni/report_2/code/hierarchical_cache_config.py:11-91 | although the L2 is created after the L1-to-L2-bus bindings, this builds exactly the fast script's hierarchy, which passes every check: 1GHz clock, one 512MiB range, DRAM over that range |
| HierarchicalCache.DescriptionMatchesBuilt | sieni/report_2/code/hierarchical_cache_config.py:126-129 | each printed line has the built cache's size and ways; its nanoseconds are each of the cache's latencies at 1GHz; the printed memory size is the system's |
| HierarchicalCache.RunScript | sieni/report_2/code/hierarchical_cache_config.py:11-179 | the system is built before the binary check; a missing binary then ends the script. Otherwise the script instantiates, simulates to the exit event and reports the statistics of the given counters; the call log records this order |
| HierarchicalCache.RunCheckedSystem | sieni/report_2/code/hierarchical_cache_config.py:117-179 | after the binary check: instantiate, simulate to the exit event, read the counters and report the hierarchical statistics block |
| WorkingFast.ConnectCache | sieni/report_2/code/working_fast_config.py:32-36 | binds both CPU ports to the cache's CPU side, then the cache's memory side to the memory bus, and keeps the discipline |
| WorkingFast.CacheKeepsDiscipline | sieni/report_2/code/working_fast_config.py:32-36 | the cache group keeps the discipline when the CPU ports and the cache's memory side are free |
| WorkingFast.SharedCpuSideNeedsVector | sieni/report_2/code/working_fast_config.py:32-33 | once the fetch port is bound to a cache's CPU side, gem5 accepts the load/store port there exactly when that side is a vector port, and otherwise refuses it as already connected |
| WorkingFast.FreeBeforeInterrupts | sieni/report_2/code/working_fast_config.py:39-42 | the interrupt controller's ports are still free when the script binds them |
| WorkingFast.FreeBeforeMemory | sieni/report_2/code/working_fast_config.py:48-51 | the memory controller's port and the system port are still free when the script binds them |
| WorkingFast.BuildSystem | sieni/report_2/code/working_fast_config.py:11-51 | builds exactly the one-cache hierarchy, which passes every check: 1GHz clock, one 512MiB range, DRAM over the system's first range |
| WorkingFast.OneLevelIsValid | sieni/report_2/code/working_fast_config.py:29-51 | the one-cache hierarchy passes every check of a valid hierarchy |
| WorkingFast.WiringKeepsDiscipline | sieni/report_2/code/working_fast_config.py:32-51 | no single port of the wiring has two peers, although two bindings share the cache's CPU side |
| WorkingFast.CacheSidesBound | sieni/report_2/code/working_fast_config.py:32-36 | both sides of the cache are bound |
| WorkingFast.OneLevelReachesMemory | sieni/report_2/code/working_fast_config.py:32-48 | both CPU ports reach the memory controller |
| WorkingFast.CacheReachesMemory | sieni/report_2/code/working_fast_config.py:36-48 | the cache's CPU side reaches the memory controller |
| WorkingFast.FetchPathReachesMemory | sieni/report_2/code/working_fast_config.py:32-48 | the fetch port's first hop is the cache's cpu_side, which reaches the memory controller, and so the fetch port reaches the memory controller |
| WorkingFast.LoadStorePathReachesMemory | sieni/report_2/code/working_fast_config.py:33-48 | the load/store port's first hop is the cache's cpu_side, which reaches the memory controller, and so the load/store port reaches the memory controller |
| WorkingFast.CpuPortsEnterTheCache | sieni/report_2/code/working_fast_config.py:32-33 | on every request path out of a CPU port the first hop is the shared cache |
| WorkingFast.CacheEdgesFromCpu | sieni/report_2/code/working_fast_config.py:32-36 | every binding from a CPU port that the cache group adds ends at the cache's CPU side |
| WorkingFast.OneLevelOrdered | sieni/report_2/code/working_fast_config.py:32-51 | the data paths have no cycle, and caches grow no smaller, no less associative and no faster along every path |
| WorkingFast.RunScript | sieni/report_2/code/working_fast_config.py:11-91 | the system is built before the binary check; a missing binary then ends the script. Otherwise the script instantiates and simulates to the exit event, and reads no counters; the call log records this order |

## Left out

- The simulator is an outside collaborator. `m5.instantiate`, `m5.simulate`, `getCause` and `curTick` are not modelled; the exit event and the counters a run exposes are parameters.
- The binary-path lookup (`os.path.exists`, `os.path.join`, `realpath`) is a boolean parameter, and `sys.exit(1)` is the `Exited` phase.
- These gem5 objects are not modelled beyond the ports they bind:
  - the CPU model (`TimingSimpleCPU` vs `X86TimingSimpleCPU`);
  - `mem_mode`, the clock and voltage domain objects, and `DDR3_1600_8x8`;
  - `createInterruptController`;
  - `Process`, `createThreads`, `SEWorkload.init_compatible` and `Root`.
- gem5 parses size strings ("16kB", "64KiB", "512MB"); the model holds byte counts.
- Printed text is not modelled: banners, the `:.2f` and `:,` formatting, and the file-location hints. The model holds exact rates.
- `FastTransformerCacheConfig.binary_path` (an absolute path string) is not modelled.
- `sieni/report_2/code/mini_transformer.cpp` (the workload), `sieni/visionalization.py` and `sieni/replace.py` are not part of this model.
- Lifecycle.After: a binary check is allowed in any phase before exit. The fast script checks before building; the other two check after building; both orders are allowed.
- Lifecycle.Simulation.ReadCounters: returns the counters it is given. It does not tie them to the caches the run built.
- Lifecycle.Simulation.Simulate: the exit event is a parameter. Which events gem5 can produce is not constrained.
- StatsReport.FastStatsBlock: a missing counter makes the whole block unavailable, as one failed read abandons the `try` block before anything is printed. Which read failed is not recorded.
- StatsReport.FastStatsBlock: the overall line adds L1 and L2 counts as the script does, although L1 misses reappear as L2 accesses.
- SystemBuild.SystemBuilder.Bind: gem5 raises an error for a refused binding; the model returns the refusal and changes nothing. None of the three scripts makes a refused binding.
