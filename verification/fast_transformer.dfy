/** The fast-transformer configuration script: its configuration record,
    `create_system` (a three-level hierarchy: split L1, an L2 bus, a shared
    L2, the memory bus and a DDR3 controller) and the wiring it produces. */
module FastTransformer {
  import opened Wrappers
  import opened Topology
  import opened SystemBuild
  import opened ScriptBlocks
  import Lifecycle
  import StatsReport

  /** `FastTransformerCacheConfig`: `run_simulation` prints its sizes and
      associativities; the latencies and the memory range are configured
      but never read. Sizes are in bytes (gem5 reads "16kB" as 16 * 1024
      bytes and "512MB" as 512 * 1024 * 1024 bytes); latencies are in
      nanoseconds. */
  datatype CacheConfig = CacheConfig(
    l1iSize: nat, l1iAssoc: nat,
    l1dSize: nat, l1dAssoc: nat,
    l2Size: nat, l2Assoc: nat,
    l1LatencyNs: nat, l2LatencyNs: nat,
    memRange: nat)

  function Config(): CacheConfig {
    CacheConfig(16 * KIB, 2, 16 * KIB, 2, 64 * KIB, 4, 2, 20, 512 * MIB)
  }

  /** The configuration record describes the caches the script builds:
      the same sizes and associativities, latencies that at the 1GHz clock
      are each of the caches' tag, data and response cycle counts, and the
      system's memory range. */
  lemma ConfigMatchesBuilt()
    ensures Config().l1iSize == L1Params().size && Config().l1iAssoc == L1Params().assoc
    ensures Config().l1dSize == L1Params().size && Config().l1dAssoc == L1Params().assoc
    ensures Config().l2Size == L2Params().size && Config().l2Assoc == L2Params().assoc
    ensures var l1 := NsToCycles(Config().l1LatencyNs, CLOCK_1GHZ);
      l1 == L1Params().tagLatency && l1 == L1Params().dataLatency && l1 == L1Params().responseLatency
    ensures var l2 := NsToCycles(Config().l2LatencyNs, CLOCK_1GHZ);
      l2 == L2Params().tagLatency && l2 == L2Params().dataLatency && l2 == L2Params().responseLatency
    ensures Config().memRange == MEM_SIZE
  {
    CyclesAt1GHz(2);
    CyclesAt1GHz(20);
  }

  /** "Connect caches to CPU": the script writes the cache's side first. */
  function CpuSideWiring(bs: Bindings): Bindings {
    Then(Then(bs,
      Edge(PortRef(Cpu, IcachePort), PortRef(ICache, CpuSide))),
      Edge(PortRef(Cpu, DcachePort), PortRef(DCache, CpuSide)))
  }

  method ConnectCachesToCpu(system: SystemBuilder)
    requires system.Valid()
    requires !HasPeer(system.bindings, PortRef(ICache, CpuSide)) && !HasPeer(system.bindings, PortRef(Cpu, IcachePort))
    requires !HasPeer(system.bindings, PortRef(DCache, CpuSide)) && !HasPeer(system.bindings, PortRef(Cpu, DcachePort))
    modifies system
    ensures system.Valid()
    ensures system.bindings == CpuSideWiring(old(system.bindings))
    ensures system.clockPeriod == old(system.clockPeriod) && system.memRanges == old(system.memRanges)
    ensures system.dramRange == old(system.dramRange) && system.caches == old(system.caches)
  {
    var r := system.Bind(PortRef(ICache, CpuSide), PortRef(Cpu, IcachePort));
    r := system.Bind(PortRef(DCache, CpuSide), PortRef(Cpu, DcachePort));
  }

  lemma CpuSideKeepsDiscipline(bs: Bindings)
    requires SinglesPeerOnce(bs)
    requires !HasPeer(bs, PortRef(Cpu, IcachePort)) && !HasPeer(bs, PortRef(ICache, CpuSide))
    requires !HasPeer(bs, PortRef(Cpu, DcachePort)) && !HasPeer(bs, PortRef(DCache, CpuSide))
    ensures SinglesPeerOnce(CpuSideWiring(bs))
  {
  }

  /** The bindings `create_system` makes, group after group. */
  function Wiring(): Bindings {
    MemoryWiring(InterruptWiring(L2CacheWiring(L1ToL2BusWiring(CpuSideWiring(NoBindings)))))
  }

  function ThreeLevel(): Hierarchy {
    Hierarchy(map[ICache := L1Params(), DCache := L1Params(), L2Cache := L2Params()], Wiring())
  }

  // Before each group, the single ports it binds are still free.

  lemma FreeBeforeL1ToL2Bus()
    ensures !HasPeer(CpuSideWiring(NoBindings), PortRef(ICache, MemSide))
    ensures !HasPeer(CpuSideWiring(NoBindings), PortRef(DCache, MemSide))
  {
  }

  lemma FreeBeforeL2Cache()
    ensures !HasPeer(L1ToL2BusWiring(CpuSideWiring(NoBindings)), PortRef(L2Cache, CpuSide))
    ensures !HasPeer(L1ToL2BusWiring(CpuSideWiring(NoBindings)), PortRef(L2Cache, MemSide))
  {
  }

  lemma FreeBeforeInterrupts()
    ensures !HasPeer(L2CacheWiring(L1ToL2BusWiring(CpuSideWiring(NoBindings))), PortRef(Interrupts, Pio))
    ensures !HasPeer(L2CacheWiring(L1ToL2BusWiring(CpuSideWiring(NoBindings))), PortRef(Interrupts, IntRequestor))
    ensures !HasPeer(L2CacheWiring(L1ToL2BusWiring(CpuSideWiring(NoBindings))), PortRef(Interrupts, IntResponder))
  {
  }

  lemma FreeBeforeMemory()
    ensures !HasPeer(InterruptWiring(L2CacheWiring(L1ToL2BusWiring(CpuSideWiring(NoBindings)))), PortRef(MemCtrl, Port))
    ensures !HasPeer(InterruptWiring(L2CacheWiring(L1ToL2BusWiring(CpuSideWiring(NoBindings)))), PortRef(System, SystemPort))
  {
  }

  /** `create_system`: every attribute assignment and port binding in the
      order the script makes them, one commented group of the script per
      helper method. */
  method CreateSystem() returns (system: SystemBuilder)
    ensures fresh(system) && system.Valid()
    ensures system.Snapshot() == ThreeLevel() && ValidHierarchy(system.Snapshot())
    ensures system.clockPeriod == Some(CLOCK_1GHZ)
    ensures system.memRanges == [MEM_SIZE] && system.dramRange == Some(MEM_SIZE)
  {
    system := new SystemBuilder();
    system.SetClock(CLOCK_1GHZ);
    system.SetMemRanges([MEM_SIZE]);
    system.AddCache(ICache, L1Params());
    system.AddCache(DCache, L1Params());
    ConnectCachesToCpu(system);
    system.AddCache(L2Cache, L2Params());
    FreeBeforeL1ToL2Bus();
    ConnectL1ToL2Bus(system);
    FreeBeforeL2Cache();
    ConnectL2Cache(system);
    FreeBeforeInterrupts();
    ConnectInterruptPorts(system);
    FreeBeforeMemory();
    ConnectMemory(system);
    ThreeLevelIsValid();
  }

  /** The three-level hierarchy passes every check: each single port has one
      peer at most, both sides of every cache are bound, both CPU ports reach
      the memory controller, there is no cycle, and size and latency grow
      from L1 to L2. */
  lemma ThreeLevelIsValid()
    ensures ValidHierarchy(ThreeLevel())
  {
    assert CachesWellFormed(ThreeLevel());
    WiringKeepsDiscipline();
    ThreeLevelSidesPeered();
    ThreeLevelReachesMemory();
    ThreeLevelOrdered();
  }

  lemma WiringKeepsDiscipline()
    ensures SinglesPeerOnce(Wiring())
  {
    var b1 := CpuSideWiring(NoBindings);
    CpuSideKeepsDiscipline(NoBindings);
    FreeBeforeL1ToL2Bus();
    L1ToL2BusKeepsDiscipline(b1);
    var b2 := L1ToL2BusWiring(b1);
    FreeBeforeL2Cache();
    L2CacheKeepsDiscipline(b2);
    var b3 := L2CacheWiring(b2);
    FreeBeforeInterrupts();
    InterruptsKeepDiscipline(b3);
    FreeBeforeMemory();
    MemoryKeepsDiscipline(InterruptWiring(b3));
  }

  lemma ThreeLevelSidesPeered()
    ensures CacheSidesPeered(ThreeLevel())
  {
    L1SidesPeered();
    L2SidesPeered();
  }

  lemma L1SidesPeered()
    ensures HasPeer(Wiring(), PortRef(ICache, CpuSide)) && HasPeer(Wiring(), PortRef(ICache, MemSide))
    ensures HasPeer(Wiring(), PortRef(DCache, CpuSide)) && HasPeer(Wiring(), PortRef(DCache, MemSide))
  {
  }

  lemma L2SidesPeered()
    ensures HasPeer(Wiring(), PortRef(L2Cache, CpuSide)) && HasPeer(Wiring(), PortRef(L2Cache, MemSide))
  {
  }

  lemma ThreeLevelReachesMemory()
    ensures CpuReachesMemory(ThreeLevel())
  {
    FetchPathReachesMemory();
    LoadStorePathReachesMemory();
  }

  lemma L2CacheReachesMemory()
    ensures ReachesMemory(Wiring(), PortRef(L2Cache, CpuSide))
  {
    var w := Wiring();
    MemBusReachesMemory(InterruptWiring(L2CacheWiring(L1ToL2BusWiring(CpuSideWiring(NoBindings)))));
    StepExtendsReach(w, PortRef(L2Cache, MemSide), PortRef(MemBus, CpuSidePorts));
    StepExtendsReach(w, PortRef(L2Cache, CpuSide), PortRef(L2Cache, MemSide));
  }

  /** From the L2 bus on, both paths share the way to memory. */
  lemma L2BusReachesMemory()
    ensures ReachesMemory(Wiring(), PortRef(L2Bus, CpuSidePorts))
  {
    var w := Wiring();
    L2CacheReachesMemory();
    StepExtendsReach(w, PortRef(L2Bus, MemSidePorts), PortRef(L2Cache, CpuSide));
    StepExtendsReach(w, PortRef(L2Bus, CpuSidePorts), PortRef(L2Bus, MemSidePorts));
  }

  lemma ICacheReachesMemory()
    ensures ReachesMemory(Wiring(), PortRef(ICache, CpuSide))
  {
    var w := Wiring();
    L2BusReachesMemory();
    StepExtendsReach(w, PortRef(ICache, MemSide), PortRef(L2Bus, CpuSidePorts));
    StepExtendsReach(w, PortRef(ICache, CpuSide), PortRef(ICache, MemSide));
  }

  lemma DCacheReachesMemory()
    ensures ReachesMemory(Wiring(), PortRef(DCache, CpuSide))
  {
    var w := Wiring();
    L2BusReachesMemory();
    StepExtendsReach(w, PortRef(DCache, MemSide), PortRef(L2Bus, CpuSidePorts));
    StepExtendsReach(w, PortRef(DCache, CpuSide), PortRef(DCache, MemSide));
  }

  /** A fetch reaches memory by entering the instruction cache, which
      itself reaches memory. */
  lemma FetchPathReachesMemory()
    ensures Step(Wiring(), PortRef(Cpu, IcachePort), PortRef(ICache, CpuSide))
    ensures ReachesMemory(Wiring(), PortRef(ICache, CpuSide))
    ensures ReachesMemory(Wiring(), PortRef(Cpu, IcachePort))
  {
    ICacheReachesMemory();
    StepExtendsReach(Wiring(), PortRef(Cpu, IcachePort), PortRef(ICache, CpuSide));
  }

  /** A load or store reaches memory by entering the data cache, which
      itself reaches memory. */
  lemma LoadStorePathReachesMemory()
    ensures Step(Wiring(), PortRef(Cpu, DcachePort), PortRef(DCache, CpuSide))
    ensures ReachesMemory(Wiring(), PortRef(DCache, CpuSide))
    ensures ReachesMemory(Wiring(), PortRef(Cpu, DcachePort))
  {
    DCacheReachesMemory();
    StepExtendsReach(Wiring(), PortRef(Cpu, DcachePort), PortRef(DCache, CpuSide));
  }

  /** A fetch enters the instruction cache first, a load or store the data
      cache. */
  lemma CpuPortsEnterTheirL1(path: seq<PortRef>)
    requires IsPath(Wiring(), path) && |path| > 1
    ensures path[0] == PortRef(Cpu, IcachePort) ==> path[1] == PortRef(ICache, CpuSide)
    ensures path[0] == PortRef(Cpu, DcachePort) ==> path[1] == PortRef(DCache, CpuSide)
  {
    if path[0] in CPU_PORTS {
      var e := Edge(path[0], path[1]);
      assert PassThrough(path[0]) == None && Step(Wiring(), path[0], path[1]);
      var cpuSide := CpuSideWiring(NoBindings);
      SharedGroupsBindNoCpuPort(L2CacheWiring(L1ToL2BusWiring(cpuSide)), e);
      L2GroupsBindNoCpuPort(cpuSide, e);
      CpuSideEdges(NoBindings, e);
    }
  }

  /** The bindings "Connect caches to CPU" adds. */
  lemma CpuSideEdges(bs: Bindings, e: Edge)
    requires Uses(CpuSideWiring(bs), e) && !Uses(bs, e)
    ensures e == Edge(PortRef(Cpu, IcachePort), PortRef(ICache, CpuSide))
         || e == Edge(PortRef(Cpu, DcachePort), PortRef(DCache, CpuSide))
  {
  }

  lemma ThreeLevelOrdered()
    ensures Acyclic(Wiring()) && GrowsAwayFromCpu(ThreeLevel())
  {
    WiringRanked();
    RankedIsAcyclic(Wiring());
    CachesDepthOrdered();
    DepthOrderedGrowsAway(ThreeLevel());
  }

  /** L2 is no smaller and no faster than either L1 cache. */
  lemma CachesDepthOrdered()
    ensures DepthOrdered(ThreeLevel().caches)
  {
  }

  lemma WiringRanked()
    ensures Ranked(Wiring())
  {
    var b := L2CacheWiring(L1ToL2BusWiring(CpuSideWiring(NoBindings)));
    assert Ranked(b);
    InterruptAndMemoryRanked(b);
  }

  /** How `run_simulation` ends: `sys.exit(1)` before anything is built when
      the binary is missing, or the simulated system, the exit event and
      the statistics block after a complete run. */
  datatype RunReport =
    | BinaryMissing
    | Finished(system: Hierarchy, event: Lifecycle.ExitEvent, stats: StatsReport.FastStats)

  /** `run_simulation`: the binary check comes first; then the system is
      built, instantiated and simulated until `outcome`, and the counters
      the simulator exposes (`counters`) are read and reported. */
  method RunSimulation(sim: Lifecycle.Simulation, binaryFound: bool, outcome: Lifecycle.ExitEvent,
                       counters: StatsReport.StatTable)
    returns (r: RunReport)
    requires sim.Valid() && sim.phase == Lifecycle.Unbuilt
    modifies sim
    ensures sim.Valid()
    ensures !binaryFound ==>
      && r == BinaryMissing && sim.phase == Lifecycle.Exited
      && sim.log == old(sim.log) + [Lifecycle.CheckBinary(false)]
    ensures binaryFound ==>
      && r == Finished(ThreeLevel(), outcome, StatsReport.FastStatsBlock(counters))
      && sim.phase == Lifecycle.Completed
      && sim.log == old(sim.log) + [Lifecycle.CheckBinary(true)] + [Lifecycle.Build, Lifecycle.Instantiate,
                                    Lifecycle.Simulate, Lifecycle.Exit(outcome), Lifecycle.ReadCounters]
  {
    sim.CheckBinary(binaryFound);
    if !binaryFound {
      return BinaryMissing;
    }
    var system := CreateSystem();
    var event, stats := RunBuiltSystem(sim, outcome, counters);
    r := Finished(system.Snapshot(), event, stats);
  }

  /** The rest of `run_simulation` once `create_system` has returned: the
      workload is attached, the system instantiated and simulated, and the
      statistics block is printed. */
  method RunBuiltSystem(sim: Lifecycle.Simulation, outcome: Lifecycle.ExitEvent, counters: StatsReport.StatTable)
    returns (event: Lifecycle.ExitEvent, stats: StatsReport.FastStats)
    requires sim.Valid() && sim.phase == Lifecycle.Unbuilt
    modifies sim
    ensures sim.Valid() && sim.phase == Lifecycle.Completed
    ensures sim.log == old(sim.log) + [Lifecycle.Build, Lifecycle.Instantiate, Lifecycle.Simulate,
                                       Lifecycle.Exit(outcome), Lifecycle.ReadCounters]
    ensures event == outcome && stats == StatsReport.FastStatsBlock(counters)
  {
    sim.MarkBuilt();
    sim.Instantiate();
    event := sim.Simulate(outcome);
    var read := sim.ReadCounters(counters);
    stats := StatsReport.FastStatsBlock(read);
  }
}
