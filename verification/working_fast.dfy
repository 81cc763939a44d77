/** The working fast-transformer script: one 64KiB SimpleCache shared by
    the CPU's fetch and load/store ports, in front of the memory bus. It
    reads no counters; it reports the exit tick and cause only. */
module WorkingFast {
  import opened Wrappers
  import opened Topology
  import opened SystemBuild
  import opened ScriptBlocks
  import Lifecycle

  /** `SimpleCache(size="64KiB")`. */
  function CacheParamsBuilt(): CacheParams {
    Simple(64 * KIB)
  }

  /** Both CPU ports go to the cache's CPU side, which is a vector port, and
      the cache's memory side goes to the memory bus. */
  function CacheWiring(bs: Bindings): Bindings {
    Then(Then(Then(bs,
      Edge(PortRef(Cpu, IcachePort), PortRef(SimpleCache, CpuSide))),
      Edge(PortRef(Cpu, DcachePort), PortRef(SimpleCache, CpuSide))),
      Edge(PortRef(SimpleCache, MemSide), PortRef(MemBus, CpuSidePorts)))
  }

  /** "Connect the I and D cache ports of the CPU to the cache" and "Hook
      the cache up to the memory bus". */
  method ConnectCache(system: SystemBuilder)
    requires system.Valid()
    requires !HasPeer(system.bindings, PortRef(Cpu, IcachePort)) && !HasPeer(system.bindings, PortRef(Cpu, DcachePort))
    requires !HasPeer(system.bindings, PortRef(SimpleCache, MemSide))
    modifies system
    ensures system.Valid()
    ensures system.bindings == CacheWiring(old(system.bindings))
    ensures system.clockPeriod == old(system.clockPeriod) && system.memRanges == old(system.memRanges)
    ensures system.dramRange == old(system.dramRange) && system.caches == old(system.caches)
  {
    var r := system.Bind(PortRef(Cpu, IcachePort), PortRef(SimpleCache, CpuSide));
    r := system.Bind(PortRef(Cpu, DcachePort), PortRef(SimpleCache, CpuSide));
    r := system.Bind(PortRef(SimpleCache, MemSide), PortRef(MemBus, CpuSidePorts));
  }

  lemma CacheKeepsDiscipline(bs: Bindings)
    requires SinglesPeerOnce(bs)
    requires !HasPeer(bs, PortRef(Cpu, IcachePort)) && !HasPeer(bs, PortRef(Cpu, DcachePort))
    requires !HasPeer(bs, PortRef(SimpleCache, MemSide))
    ensures SinglesPeerOnce(CacheWiring(bs))
  {
  }

  /** Sharing one CPU side between both CPU ports is what needs the vector
      port: with the fetch port bound to a cache's CPU side, the load/store
      port can be bound to it too exactly when that side is a vector port,
      and otherwise gem5 refuses because the port is already connected. */
  lemma SharedCpuSideNeedsVector(c: Component)
    requires IsCache(c)
    ensures var peered := {PortRef(Cpu, IcachePort), PortRef(c, CpuSide)};
      var r := CheckBind(peered, PortRef(Cpu, DcachePort), PortRef(c, CpuSide));
      && (r.Bound? <==> ArityOf(PortRef(c, CpuSide)) == Vector)
      && (r.Refused? ==> r.error == AlreadyConnected(PortRef(c, CpuSide)))
  {
  }

  /** The bindings the script makes. */
  function Wiring(): Bindings {
    MemoryWiring(InterruptWiring(CacheWiring(NoBindings)))
  }

  function OneLevel(): Hierarchy {
    Hierarchy(map[SimpleCache := CacheParamsBuilt()], Wiring())
  }

  lemma FreeBeforeInterrupts()
    ensures !HasPeer(CacheWiring(NoBindings), PortRef(Interrupts, Pio))
    ensures !HasPeer(CacheWiring(NoBindings), PortRef(Interrupts, IntRequestor))
    ensures !HasPeer(CacheWiring(NoBindings), PortRef(Interrupts, IntResponder))
  {
  }

  lemma FreeBeforeMemory()
    ensures !HasPeer(InterruptWiring(CacheWiring(NoBindings)), PortRef(MemCtrl, Port))
    ensures !HasPeer(InterruptWiring(CacheWiring(NoBindings)), PortRef(System, SystemPort))
  {
  }

  /** The module-level statements that build `system`. */
  method BuildSystem() returns (system: SystemBuilder)
    ensures fresh(system) && system.Valid()
    ensures system.Snapshot() == OneLevel() && ValidHierarchy(system.Snapshot())
    ensures system.clockPeriod == Some(CLOCK_1GHZ)
    ensures system.memRanges == [MEM_SIZE] && system.dramRange == Some(MEM_SIZE)
  {
    system := new SystemBuilder();
    system.SetClock(CLOCK_1GHZ);
    system.SetMemRanges([MEM_SIZE]);
    system.AddCache(SimpleCache, CacheParamsBuilt());
    ConnectCache(system);
    FreeBeforeInterrupts();
    ConnectInterruptPorts(system);
    FreeBeforeMemory();
    ConnectMemory(system);
    OneLevelIsValid();
  }

  /** The single-cache system passes every check of a cache hierarchy. */
  lemma OneLevelIsValid()
    ensures ValidHierarchy(OneLevel())
  {
    assert CachesWellFormed(OneLevel());
    WiringKeepsDiscipline();
    CacheSidesBound();
    OneLevelReachesMemory();
    OneLevelOrdered();
  }

  lemma WiringKeepsDiscipline()
    ensures SinglesPeerOnce(Wiring())
  {
    CacheKeepsDiscipline(NoBindings);
    FreeBeforeInterrupts();
    InterruptsKeepDiscipline(CacheWiring(NoBindings));
    FreeBeforeMemory();
    MemoryKeepsDiscipline(InterruptWiring(CacheWiring(NoBindings)));
  }

  lemma CacheSidesBound()
    ensures CacheSidesPeered(OneLevel())
  {
    assert HasPeer(Wiring(), PortRef(SimpleCache, CpuSide)) && HasPeer(Wiring(), PortRef(SimpleCache, MemSide));
  }

  /** Both CPU ports reach memory through the one cache. */
  lemma OneLevelReachesMemory()
    ensures CpuReachesMemory(OneLevel())
  {
    FetchPathReachesMemory();
    LoadStorePathReachesMemory();
  }

  lemma CacheReachesMemory()
    ensures ReachesMemory(Wiring(), PortRef(SimpleCache, CpuSide))
  {
    var w := Wiring();
    MemBusReachesMemory(InterruptWiring(CacheWiring(NoBindings)));
    StepExtendsReach(w, PortRef(SimpleCache, MemSide), PortRef(MemBus, CpuSidePorts));
    StepExtendsReach(w, PortRef(SimpleCache, CpuSide), PortRef(SimpleCache, MemSide));
  }

  /** A fetch reaches memory by entering the shared cache. */
  lemma FetchPathReachesMemory()
    ensures Step(Wiring(), PortRef(Cpu, IcachePort), PortRef(SimpleCache, CpuSide))
    ensures ReachesMemory(Wiring(), PortRef(SimpleCache, CpuSide))
    ensures ReachesMemory(Wiring(), PortRef(Cpu, IcachePort))
  {
    CacheReachesMemory();
    StepExtendsReach(Wiring(), PortRef(Cpu, IcachePort), PortRef(SimpleCache, CpuSide));
  }

  /** A load or store reaches memory by entering the shared cache. */
  lemma LoadStorePathReachesMemory()
    ensures Step(Wiring(), PortRef(Cpu, DcachePort), PortRef(SimpleCache, CpuSide))
    ensures ReachesMemory(Wiring(), PortRef(SimpleCache, CpuSide))
    ensures ReachesMemory(Wiring(), PortRef(Cpu, DcachePort))
  {
    CacheReachesMemory();
    StepExtendsReach(Wiring(), PortRef(Cpu, DcachePort), PortRef(SimpleCache, CpuSide));
  }

  /** Every request path out of a CPU port enters the shared cache first;
      the cache is the only one on the way to memory. */
  lemma CpuPortsEnterTheCache(path: seq<PortRef>)
    requires IsPath(Wiring(), path) && |path| > 1 && path[0] in CPU_PORTS
    ensures path[1] == PortRef(SimpleCache, CpuSide)
  {
    var e := Edge(path[0], path[1]);
    assert PassThrough(path[0]) == None && Step(Wiring(), path[0], path[1]);
    SharedGroupsBindNoCpuPort(CacheWiring(NoBindings), e);
    CacheEdgesFromCpu(NoBindings, e);
  }

  /** The bindings from CPU ports that the cache group adds. */
  lemma CacheEdgesFromCpu(bs: Bindings, e: Edge)
    requires Uses(CacheWiring(bs), e) && !Uses(bs, e) && e.requestor.owner == Cpu
    ensures e.responder == PortRef(SimpleCache, CpuSide)
  {
    var fetch := Then(bs, Edge(PortRef(Cpu, IcachePort), PortRef(SimpleCache, CpuSide)));
    var load := Edge(PortRef(Cpu, DcachePort), PortRef(SimpleCache, CpuSide));
    assert Uses(Then(fetch, load), e);
    assert e == load || Uses(fetch, e);
  }

  lemma OneLevelOrdered()
    ensures Acyclic(Wiring()) && GrowsAwayFromCpu(OneLevel())
  {
    assert Ranked(CacheWiring(NoBindings));
    InterruptAndMemoryRanked(CacheWiring(NoBindings));
    RankedIsAcyclic(Wiring());
    DepthOrderedGrowsAway(OneLevel());
  }

  /** How the script ends: `exit(1)` when the binary is missing, or the exit
      event whose tick and cause it prints. */
  datatype RunReport =
    | BinaryMissing
    | Finished(system: Hierarchy, event: Lifecycle.ExitEvent)

  /** The whole script: build, look for the binary, instantiate, simulate. */
  method RunScript(sim: Lifecycle.Simulation, binaryFound: bool, outcome: Lifecycle.ExitEvent)
    returns (r: RunReport)
    requires sim.Valid() && sim.phase == Lifecycle.Unbuilt
    modifies sim
    ensures sim.Valid()
    ensures !binaryFound ==>
      && r == BinaryMissing && sim.phase == Lifecycle.Exited
      && sim.log == old(sim.log) + [Lifecycle.Build] + [Lifecycle.CheckBinary(false)]
    ensures binaryFound ==>
      && r == Finished(OneLevel(), outcome) && sim.phase == Lifecycle.Completed
      && sim.log == old(sim.log) + [Lifecycle.Build] + [Lifecycle.CheckBinary(true)] + [Lifecycle.Instantiate]
                    + [Lifecycle.Simulate, Lifecycle.Exit(outcome)]
  {
    var system := BuildSystem();
    sim.MarkBuilt();
    sim.CheckBinary(binaryFound);
    if !binaryFound {
      return BinaryMissing;
    }
    sim.Instantiate();
    var event := sim.Simulate(outcome);
    r := Finished(system.Snapshot(), event);
  }
}
