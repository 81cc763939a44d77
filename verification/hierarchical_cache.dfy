/** The hierarchical-cache script: it builds the same three-level system as
    the fast-transformer script, at module level and before it looks for
    the binary, describes it in a fixed printed text, and reports the L1
    hit rate over both L1 caches next to the L2's local hit rate. */
module HierarchicalCache {
  import opened Wrappers
  import opened Topology
  import opened SystemBuild
  import opened ScriptBlocks
  import FastTransformer
  import Lifecycle
  import StatsReport

  /** "Connect the I and D cache ports of the CPU to the respective caches":
      this script writes the CPU's port first, which gem5 binds the same way. */
  method ConnectCpuPorts(system: SystemBuilder)
    requires system.Valid()
    requires !HasPeer(system.bindings, PortRef(ICache, CpuSide)) && !HasPeer(system.bindings, PortRef(Cpu, IcachePort))
    requires !HasPeer(system.bindings, PortRef(DCache, CpuSide)) && !HasPeer(system.bindings, PortRef(Cpu, DcachePort))
    modifies system
    ensures system.Valid()
    ensures system.bindings == FastTransformer.CpuSideWiring(old(system.bindings))
    ensures system.clockPeriod == old(system.clockPeriod) && system.memRanges == old(system.memRanges)
    ensures system.dramRange == old(system.dramRange) && system.caches == old(system.caches)
  {
    var r := system.Bind(PortRef(Cpu, IcachePort), PortRef(ICache, CpuSide));
    r := system.Bind(PortRef(Cpu, DcachePort), PortRef(DCache, CpuSide));
  }

  /** The module-level statements that build `system`. The L2 cache is
      created only after the L1 caches are bound to the L2 bus, yet the
      result is the fast-transformer script's hierarchy. */
  method BuildSystem() returns (system: SystemBuilder)
    ensures fresh(system) && system.Valid()
    ensures system.Snapshot() == FastTransformer.ThreeLevel() && ValidHierarchy(system.Snapshot())
    ensures system.clockPeriod == Some(CLOCK_1GHZ)
    ensures system.memRanges == [MEM_SIZE] && system.dramRange == Some(MEM_SIZE)
  {
    system := new SystemBuilder();
    system.SetClock(CLOCK_1GHZ);
    system.SetMemRanges([MEM_SIZE]);
    system.AddCache(ICache, L1Params());
    system.AddCache(DCache, L1Params());
    ConnectCpuPorts(system);
    FastTransformer.FreeBeforeL1ToL2Bus();
    ConnectL1ToL2Bus(system);
    system.AddCache(L2Cache, L2Params());
    FastTransformer.FreeBeforeL2Cache();
    ConnectL2Cache(system);
    FastTransformer.FreeBeforeInterrupts();
    ConnectInterruptPorts(system);
    FastTransformer.FreeBeforeMemory();
    ConnectMemory(system);
    FastTransformer.ThreeLevelIsValid();
  }

  /** One line of the printed "Cache Hierarchy Configuration": size in
      bytes, ways, and latency in nanoseconds. */
  datatype LevelDescription = LevelDescription(size: nat, ways: nat, latencyNs: nat)

  function PrintedL1I(): LevelDescription { LevelDescription(16 * KIB, 2, 2) }
  function PrintedL1D(): LevelDescription { LevelDescription(16 * KIB, 2, 2) }
  function PrintedL2(): LevelDescription { LevelDescription(64 * KIB, 4, 20) }

  /** The memory line: "DDR3-1600, 512MiB". */
  const PRINTED_MEMORY: nat := 512 * MIB

  /** A printed line describes a cache when size and ways agree and the
      printed latency, at the system clock, is each of its latencies. */
  predicate DescribesCache(d: LevelDescription, p: CacheParams, period: nat)
    requires period > 0
  {
    && p.Classic?
    && d.size == p.size && d.ways == p.assoc
    && NsToCycles(d.latencyNs, period) == p.tagLatency
    && NsToCycles(d.latencyNs, period) == p.dataLatency
    && NsToCycles(d.latencyNs, period) == p.responseLatency
  }

  /** The printed text is true of the system the script builds. */
  lemma DescriptionMatchesBuilt()
    ensures var caches := FastTransformer.ThreeLevel().caches;
      && DescribesCache(PrintedL1I(), caches[ICache], CLOCK_1GHZ)
      && DescribesCache(PrintedL1D(), caches[DCache], CLOCK_1GHZ)
      && DescribesCache(PrintedL2(), caches[L2Cache], CLOCK_1GHZ)
    ensures PRINTED_MEMORY == MEM_SIZE
  {
    CyclesAt1GHz(2);
    CyclesAt1GHz(20);
  }

  /** How the script ends: `exit(1)` when the binary is missing, or the
      simulated system, the exit event (whose tick and cause are printed)
      and the statistics block. */
  datatype RunReport =
    | BinaryMissing
    | Finished(system: Hierarchy, event: Lifecycle.ExitEvent, stats: StatsReport.HierStats)

  /** The whole script: the system is built first, then the binary is
      looked for; the run itself follows only when it is there. */
  method RunScript(sim: Lifecycle.Simulation, binaryFound: bool, outcome: Lifecycle.ExitEvent,
                   counters: StatsReport.StatTable)
    returns (r: RunReport)
    requires sim.Valid() && sim.phase == Lifecycle.Unbuilt
    modifies sim
    ensures sim.Valid()
    ensures !binaryFound ==>
      && r == BinaryMissing && sim.phase == Lifecycle.Exited
      && sim.log == old(sim.log) + [Lifecycle.Build] + [Lifecycle.CheckBinary(false)]
    ensures binaryFound ==>
      && r == Finished(FastTransformer.ThreeLevel(), outcome, StatsReport.HierStatsBlock(counters))
      && sim.phase == Lifecycle.Completed
      && sim.log == old(sim.log) + [Lifecycle.Build] + [Lifecycle.CheckBinary(true)]
                    + [Lifecycle.Instantiate, Lifecycle.Simulate, Lifecycle.Exit(outcome), Lifecycle.ReadCounters]
  {
    var system := BuildSystem();
    sim.MarkBuilt();
    sim.CheckBinary(binaryFound);
    if !binaryFound {
      return BinaryMissing;
    }
    var event, stats := RunCheckedSystem(sim, outcome, counters);
    r := Finished(system.Snapshot(), event, stats);
  }

  /** The statements after the binary check: instantiate, simulate, and
      print the statistics. */
  method RunCheckedSystem(sim: Lifecycle.Simulation, outcome: Lifecycle.ExitEvent, counters: StatsReport.StatTable)
    returns (event: Lifecycle.ExitEvent, stats: StatsReport.HierStats)
    requires sim.Valid() && sim.phase == Lifecycle.Built
    modifies sim
    ensures sim.Valid() && sim.phase == Lifecycle.Completed
    ensures sim.log == old(sim.log) + [Lifecycle.Instantiate, Lifecycle.Simulate, Lifecycle.Exit(outcome),
                                       Lifecycle.ReadCounters]
    ensures event == outcome && stats == StatsReport.HierStatsBlock(counters)
  {
    sim.Instantiate();
    event := sim.Simulate(outcome);
    var read := sim.ReadCounters(counters);
    stats := StatsReport.HierStatsBlock(read);
  }
}
