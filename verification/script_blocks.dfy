/** Statement groups that the configuration scripts share word for word: the
    L2 level of the two three-level scripts, and the interrupt controller,
    the memory controller and the system port of all three. Each group is a
    method on the system under construction, paired with the function that
    gives the bindings it adds after the bindings made before it. A group
    asks only that the single ports it binds are still free, which is what
    gem5 needs of it; and each group keeps the binding discipline under the
    same condition. */
module ScriptBlocks {
  import opened Wrappers
  import opened Topology
  import opened SystemBuild

  const KIB: nat := 1024
  const MIB: nat := 1024 * 1024

  /** gem5 ticks are picoseconds, so a 1GHz clock has a 1000-tick period. */
  const CLOCK_1GHZ: nat := 1000

  /** The 512MB (512MiB) memory range: `AddrRange('512MB')` is binary. */
  const MEM_SIZE: nat := 512 * MIB

  /** Whole cycles of a clock with period `period` ticks in `ns`
      nanoseconds. */
  function NsToCycles(ns: nat, period: nat): nat
    requires period > 0
  {
    ns * 1000 / period
  }

  /** At 1GHz a latency of n nanoseconds is exactly n cycles. */
  lemma CyclesAt1GHz(ns: nat)
    ensures NsToCycles(ns, CLOCK_1GHZ) == ns
  {
  }

  /** The L1 caches (icache and dcache) the two three-level scripts build. */
  function L1Params(): CacheParams {
    Classic(size := 16 * KIB, assoc := 2, tagLatency := 2, dataLatency := 2, responseLatency := 2,
            mshrs := 4, tgtsPerMshr := 20)
  }

  /** Their L2 cache. */
  function L2Params(): CacheParams {
    Classic(size := 64 * KIB, assoc := 4, tagLatency := 20, dataLatency := 20, responseLatency := 20,
            mshrs := 20, tgtsPerMshr := 12)
  }

  /** Both L1 caches' memory sides go to the L2 bus. */
  function L1ToL2BusWiring(bs: Bindings): Bindings {
    Then(Then(bs,
      Edge(PortRef(ICache, MemSide), PortRef(L2Bus, CpuSidePorts))),
      Edge(PortRef(DCache, MemSide), PortRef(L2Bus, CpuSidePorts)))
  }

  /** The L2 cache sits between the L2 bus and the memory bus. */
  function L2CacheWiring(bs: Bindings): Bindings {
    Then(Then(bs,
      Edge(PortRef(L2Bus, MemSidePorts), PortRef(L2Cache, CpuSide))),
      Edge(PortRef(L2Cache, MemSide), PortRef(MemBus, CpuSidePorts)))
  }

  /** The x86 interrupt controller's PIO, requestor and responder ports go
      to the memory bus. */
  function InterruptWiring(bs: Bindings): Bindings {
    Then(Then(Then(bs,
      Edge(PortRef(MemBus, MemSidePorts), PortRef(Interrupts, Pio))),
      Edge(PortRef(Interrupts, IntRequestor), PortRef(MemBus, CpuSidePorts))),
      Edge(PortRef(MemBus, MemSidePorts), PortRef(Interrupts, IntResponder)))
  }

  /** The memory controller and then the system port go to the memory bus. */
  function MemoryWiring(bs: Bindings): Bindings {
    Then(Then(bs,
      Edge(PortRef(MemBus, MemSidePorts), PortRef(MemCtrl, Port))),
      Edge(PortRef(System, SystemPort), PortRef(MemBus, CpuSidePorts)))
  }

  /** "Connect L1 caches to L2 bus". */
  method ConnectL1ToL2Bus(system: SystemBuilder)
    requires system.Valid()
    requires !HasPeer(system.bindings, PortRef(ICache, MemSide)) && !HasPeer(system.bindings, PortRef(DCache, MemSide))
    modifies system
    ensures system.Valid()
    ensures system.bindings == L1ToL2BusWiring(old(system.bindings))
    ensures system.clockPeriod == old(system.clockPeriod) && system.memRanges == old(system.memRanges)
    ensures system.dramRange == old(system.dramRange) && system.caches == old(system.caches)
  {
    var r := system.Bind(PortRef(ICache, MemSide), PortRef(L2Bus, CpuSidePorts));
    r := system.Bind(PortRef(DCache, MemSide), PortRef(L2Bus, CpuSidePorts));
  }

  /** "Connect L2 cache" (to the L2 bus) and "Connect L2 to memory bus". */
  method ConnectL2Cache(system: SystemBuilder)
    requires system.Valid()
    requires !HasPeer(system.bindings, PortRef(L2Cache, CpuSide)) && !HasPeer(system.bindings, PortRef(L2Cache, MemSide))
    modifies system
    ensures system.Valid()
    ensures system.bindings == L2CacheWiring(old(system.bindings))
    ensures system.clockPeriod == old(system.clockPeriod) && system.memRanges == old(system.memRanges)
    ensures system.dramRange == old(system.dramRange) && system.caches == old(system.caches)
  {
    var r := system.Bind(PortRef(L2Cache, CpuSide), PortRef(L2Bus, MemSidePorts));
    r := system.Bind(PortRef(L2Cache, MemSide), PortRef(MemBus, CpuSidePorts));
  }

  /** "Connect CPU interrupt ports". */
  method ConnectInterruptPorts(system: SystemBuilder)
    requires system.Valid()
    requires !HasPeer(system.bindings, PortRef(Interrupts, Pio))
    requires !HasPeer(system.bindings, PortRef(Interrupts, IntRequestor))
    requires !HasPeer(system.bindings, PortRef(Interrupts, IntResponder))
    modifies system
    ensures system.Valid()
    ensures system.bindings == InterruptWiring(old(system.bindings))
    ensures system.clockPeriod == old(system.clockPeriod) && system.memRanges == old(system.memRanges)
    ensures system.dramRange == old(system.dramRange) && system.caches == old(system.caches)
  {
    var r := system.Bind(PortRef(Interrupts, Pio), PortRef(MemBus, MemSidePorts));
    r := system.Bind(PortRef(Interrupts, IntRequestor), PortRef(MemBus, CpuSidePorts));
    r := system.Bind(PortRef(Interrupts, IntResponder), PortRef(MemBus, MemSidePorts));
  }

  /** "Create memory controller": its DRAM covers the system's first memory
      range and its port goes to the memory bus; then "Connect system port". */
  method ConnectMemory(system: SystemBuilder)
    requires system.Valid() && |system.memRanges| > 0
    requires !HasPeer(system.bindings, PortRef(MemCtrl, Port)) && !HasPeer(system.bindings, PortRef(System, SystemPort))
    modifies system
    ensures system.Valid()
    ensures system.dramRange == Some(old(system.memRanges)[0])
    ensures system.bindings == MemoryWiring(old(system.bindings))
    ensures system.clockPeriod == old(system.clockPeriod) && system.memRanges == old(system.memRanges)
    ensures system.caches == old(system.caches)
  {
    system.SetDramRange(system.memRanges[0]);
    var r := system.Bind(PortRef(MemCtrl, Port), PortRef(MemBus, MemSidePorts));
    r := system.Bind(PortRef(System, SystemPort), PortRef(MemBus, CpuSidePorts));
  }

  // Each group keeps the binding discipline when its single ports are free.

  lemma L1ToL2BusKeepsDiscipline(bs: Bindings)
    requires SinglesPeerOnce(bs)
    requires !HasPeer(bs, PortRef(ICache, MemSide)) && !HasPeer(bs, PortRef(DCache, MemSide))
    ensures SinglesPeerOnce(L1ToL2BusWiring(bs))
  {
  }

  lemma L2CacheKeepsDiscipline(bs: Bindings)
    requires SinglesPeerOnce(bs)
    requires !HasPeer(bs, PortRef(L2Cache, CpuSide)) && !HasPeer(bs, PortRef(L2Cache, MemSide))
    ensures SinglesPeerOnce(L2CacheWiring(bs))
  {
  }

  lemma InterruptsKeepDiscipline(bs: Bindings)
    requires SinglesPeerOnce(bs)
    requires !HasPeer(bs, PortRef(Interrupts, Pio)) && !HasPeer(bs, PortRef(Interrupts, IntRequestor))
    requires !HasPeer(bs, PortRef(Interrupts, IntResponder))
    ensures SinglesPeerOnce(InterruptWiring(bs))
  {
  }

  lemma MemoryKeepsDiscipline(bs: Bindings)
    requires SinglesPeerOnce(bs)
    requires !HasPeer(bs, PortRef(MemCtrl, Port)) && !HasPeer(bs, PortRef(System, SystemPort))
    ensures SinglesPeerOnce(MemoryWiring(bs))
  {
  }

  // The interrupt and memory groups bind the same ports in every script.

  /** Ranks rise along every data binding of the interrupt and memory groups
      (the interrupt bindings are control bindings and do not count). */
  lemma InterruptAndMemoryRanked(bs: Bindings)
    requires Ranked(bs)
    ensures Ranked(MemoryWiring(InterruptWiring(bs)))
  {
    var pio := Then(bs, Edge(PortRef(MemBus, MemSidePorts), PortRef(Interrupts, Pio)));
    assert Ranked(pio);
    var requestor := Then(pio, Edge(PortRef(Interrupts, IntRequestor), PortRef(MemBus, CpuSidePorts)));
    assert Ranked(requestor);
    var interrupts := InterruptWiring(bs);
    assert Ranked(interrupts);
    assert Ranked(Then(interrupts, Edge(PortRef(MemBus, MemSidePorts), MEMORY)));
  }

  /** The interrupt and memory groups bind no port of the CPU itself, so a
      binding from a CPU port was made before them. */
  lemma SharedGroupsBindNoCpuPort(bs: Bindings, e: Edge)
    requires Uses(MemoryWiring(InterruptWiring(bs)), e) && e.requestor.owner == Cpu
    ensures Uses(bs, e)
  {
    var pio := Then(bs, Edge(PortRef(MemBus, MemSidePorts), PortRef(Interrupts, Pio)));
    var requestor := Then(pio, Edge(PortRef(Interrupts, IntRequestor), PortRef(MemBus, CpuSidePorts)));
    assert Uses(InterruptWiring(bs), e);
    assert Uses(requestor, e);
    assert Uses(pio, e);
  }

  /** Neither do the L1-to-L2-bus and L2 groups. */
  lemma L2GroupsBindNoCpuPort(bs: Bindings, e: Edge)
    requires Uses(L2CacheWiring(L1ToL2BusWiring(bs)), e) && e.requestor.owner == Cpu
    ensures Uses(bs, e)
  {
    var l2 := L1ToL2BusWiring(bs);
    assert Uses(Then(l2, Edge(PortRef(L2Bus, MemSidePorts), PortRef(L2Cache, CpuSide))), e);
    assert Uses(l2, e);
    assert Uses(Then(bs, Edge(PortRef(ICache, MemSide), PortRef(L2Bus, CpuSidePorts))), e);
  }

  /** From the memory bus's CPU side a request reaches the memory controller. */
  lemma MemBusReachesMemory(bs: Bindings)
    ensures ReachesMemory(MemoryWiring(bs), PortRef(MemBus, CpuSidePorts))
  {
    var w := MemoryWiring(bs);
    MemoryReachesMemory(w);
    assert Uses(w, Edge(PortRef(MemBus, MemSidePorts), MEMORY));
    StepExtendsReach(w, PortRef(MemBus, MemSidePorts), MEMORY);
    StepExtendsReach(w, PortRef(MemBus, CpuSidePorts), PortRef(MemBus, MemSidePorts));
  }
}
