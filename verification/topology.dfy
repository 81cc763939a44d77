/** The memory-hierarchy graph that the gem5 configuration scripts wire up:
    the SimObjects (CPU, caches, crossbars, memory controller, interrupt
    controller, the system itself), their named ports, the bindings between
    ports, and the checks a well-formed cache hierarchy passes. */
module Topology {
  import opened Wrappers

  /** The SimObjects the three scripts create, named by their place in the
      system tree. */
  datatype Component =
    | Cpu          // system.cpu
    | ICache       // system.cpu.icache, a classic Cache
    | DCache       // system.cpu.dcache, a classic Cache
    | L2Bus        // system.l2bus, an L2XBar
    | L2Cache      // system.l2cache, a classic Cache
    | MemBus       // system.membus, a SystemXBar
    | MemCtrl      // system.mem_ctrl
    | SimpleCache  // system.cache, a SimpleCache
    | Interrupts   // system.cpu.interrupts[0]
    | System       // the system object itself

  datatype PortName =
    | IcachePort | DcachePort              // the CPU's fetch and load/store ports
    | CpuSide | MemSide                    // a cache's two sides
    | CpuSidePorts | MemSidePorts          // a crossbar's two sides
    | Pio | IntRequestor | IntResponder    // the interrupt controller's ports
    | Port                                 // the memory controller's port
    | SystemPort                           // the system's functional port

  datatype PortRef = PortRef(owner: Component, name: PortName)

  /** gem5 joins a port that issues requests to a port that answers them. */
  datatype Role = Requestor | Responder

  function RoleOf(name: PortName): Role {
    match name
    case IcachePort | DcachePort | MemSide | MemSidePorts | IntRequestor | SystemPort => Requestor
    case CpuSide | CpuSidePorts | Pio | IntResponder | Port => Responder
  }

  /** A single port takes one peer; a vector port grows by one entry on every
      binding, so assigning to it repeatedly appends. */
  datatype Arity = Single | Vector

  function ArityOf(p: PortRef): Arity {
    if p.name == CpuSidePorts || p.name == MemSidePorts || p == PortRef(SimpleCache, CpuSide) then Vector
    else Single
  }

  predicate IsCache(c: Component) {
    c == ICache || c == DCache || c == L2Cache || c == SimpleCache
  }

  /** One binding, oriented from requestor to responder whichever side of
      the assignment each port was written on. */
  datatype Edge = Edge(requestor: PortRef, responder: PortRef)

  predicate Touches(e: Edge, p: PortRef) {
    e.requestor == p || e.responder == p
  }

  datatype BindError = SameRole(left: PortRef, right: PortRef) | AlreadyConnected(port: PortRef)

  datatype BindResult = Bound(edge: Edge) | Refused(error: BindError)

  /** The edge that `a = b` denotes, if the two ports can be joined at all. */
  function Connect(a: PortRef, b: PortRef): (r: BindResult)
    ensures r.Bound? <==> RoleOf(a.name) != RoleOf(b.name)
    ensures r.Bound? ==> RoleOf(r.edge.requestor.name) == Requestor && RoleOf(r.edge.responder.name) == Responder
    ensures r.Bound? ==> r.edge == Edge(a, b) || r.edge == Edge(b, a)
  {
    if RoleOf(a.name) == RoleOf(b.name) then Refused(SameRole(a, b))
    else if RoleOf(a.name) == Requestor then Bound(Edge(a, b))
    else Bound(Edge(b, a))
  }

  /** `a = b` and `b = a` denote the same binding. */
  lemma ConnectSymmetric(a: PortRef, b: PortRef)
    ensures Connect(a, b).Bound? == Connect(b, a).Bound?
    ensures Connect(a, b).Bound? ==> Connect(a, b) == Connect(b, a)
  {
  }

  /** The bindings made so far, the most recent last. */
  datatype Bindings = NoBindings | Then(earlier: Bindings, last: Edge)

  /** `e` is one of the bindings. */
  predicate Uses(bs: Bindings, e: Edge) {
    match bs
    case NoBindings => false
    case Then(earlier, last) => last == e || Uses(earlier, e)
  }

  /** Port `p` has a peer: some binding made so far uses it. */
  predicate HasPeer(bs: Bindings, p: PortRef) {
    match bs
    case NoBindings => false
    case Then(earlier, last) => Touches(last, p) || HasPeer(earlier, p)
  }

  /** Having a peer means being an end of one of the bindings. */
  lemma {:induction false} HasPeerIffUsed(bs: Bindings, p: PortRef)
    ensures HasPeer(bs, p) <==> exists e :: Uses(bs, e) && Touches(e, p)
  {
    match bs
    case NoBindings =>
    case Then(earlier, last) =>
      HasPeerIffUsed(earlier, p);
      if Touches(last, p) {
        assert Uses(bs, last);
      } else if HasPeer(earlier, p) {
        var e :| Uses(earlier, e) && Touches(e, p);
        assert Uses(bs, e);
      }
      if exists e :: Uses(bs, e) && Touches(e, p) {
        var e :| Uses(bs, e) && Touches(e, p);
        if e != last {
          assert Uses(earlier, e);
        }
      }
  }

  /** The number of bindings that use port `p`. */
  function BindCount(bs: Bindings, p: PortRef): nat {
    match bs
    case NoBindings => 0
    case Then(earlier, last) => BindCount(earlier, p) + (if Touches(last, p) then 1 else 0)
  }

  /** A port is counted by some binding exactly when it has a peer. */
  lemma {:induction false} CountedIffPeered(bs: Bindings, p: PortRef)
    ensures BindCount(bs, p) > 0 <==> HasPeer(bs, p)
  {
    match bs
    case NoBindings =>
    case Then(earlier, _) => CountedIffPeered(earlier, p);
  }

  /** A binding `e` is admissible when neither of its single ports already
      has a peer. */
  predicate Admits(bs: Bindings, e: Edge) {
    && (ArityOf(e.requestor) == Single ==> !HasPeer(bs, e.requestor))
    && (ArityOf(e.responder) == Single ==> !HasPeer(bs, e.responder))
  }

  /** The binding `a = b` as gem5 accepts it, given the ports that already
      have a peer: the two ports must have opposite roles, and a single port
      that already has a peer takes no other. */
  function CheckBind(peered: set<PortRef>, a: PortRef, b: PortRef): (r: BindResult)
    ensures r.Bound? <==>
      && RoleOf(a.name) != RoleOf(b.name)
      && (ArityOf(a) == Single ==> a !in peered)
      && (ArityOf(b) == Single ==> b !in peered)
    ensures r.Bound? ==> r == Connect(a, b)
    ensures r.Refused? && RoleOf(a.name) != RoleOf(b.name) ==> r.error.AlreadyConnected?
  {
    match Connect(a, b)
    case Refused(err) => Refused(err)
    case Bound(e) =>
      if ArityOf(a) == Single && a in peered then Refused(AlreadyConnected(a))
      else if ArityOf(b) == Single && b in peered then Refused(AlreadyConnected(b))
      else Bound(e)
  }

  /** gem5's binding discipline, binding by binding: each binding was
      admissible when it was made. */
  predicate SinglesPeerOnce(bs: Bindings) {
    match bs
    case NoBindings => true
    case Then(earlier, last) => SinglesPeerOnce(earlier) && Admits(earlier, last)
  }

  /** Under that discipline no single port is used by more than one binding. */
  lemma {:induction false} SinglesCountedOnce(bs: Bindings, p: PortRef)
    requires SinglesPeerOnce(bs)
    requires ArityOf(p) == Single
    ensures BindCount(bs, p) <= 1
  {
    match bs
    case NoBindings =>
    case Then(earlier, last) =>
      SinglesCountedOnce(earlier, p);
      if Touches(last, p) {
        CountedIffPeered(earlier, p);
      }
  }

  // ---- data paths ----

  /** The interrupt controller's ports and the system port hang off the
      memory bus for control traffic; they are not on the way a fetch or a
      load takes to memory. */
  predicate IsControl(p: PortRef) {
    p.owner == Interrupts || p.owner == System
  }

  predicate IsDataEdge(e: Edge) {
    !IsControl(e.requestor) && !IsControl(e.responder)
  }

  /** Inside a cache or a crossbar, a request that arrives on the CPU side
      leaves on the memory side. */
  function PassThrough(p: PortRef): (r: Option<PortRef>)
    ensures r.Some? ==> r.value.owner == p.owner && RoleOf(p.name) == Responder && RoleOf(r.value.name) == Requestor
  {
    if IsCache(p.owner) && p.name == CpuSide then Some(PortRef(p.owner, MemSide))
    else if (p.owner == L2Bus || p.owner == MemBus) && p.name == CpuSidePorts then Some(PortRef(p.owner, MemSidePorts))
    else None
  }

  /** One hop of a request: across a data binding, or through a component. */
  predicate Step(bs: Bindings, p: PortRef, q: PortRef) {
    (Uses(bs, Edge(p, q)) && IsDataEdge(Edge(p, q))) || PassThrough(p) == Some(q)
  }

  /** A request path: consecutive ports joined by steps. */
  predicate IsPath(bs: Bindings, path: seq<PortRef>)
    decreases |path|
  {
    |path| > 0 && (|path| > 1 ==> Step(bs, path[0], path[1]) && IsPath(bs, path[1..]))
  }

  const MEMORY: PortRef := PortRef(MemCtrl, Port)

  const CPU_PORTS: set<PortRef> := {PortRef(Cpu, IcachePort), PortRef(Cpu, DcachePort)}

  ghost predicate ReachesMemory(bs: Bindings, p: PortRef) {
    exists path :: IsPath(bs, path) && path[0] == p && path[|path| - 1] == MEMORY
  }

  /** The memory controller reaches itself by the one-port path. */
  lemma MemoryReachesMemory(bs: Bindings)
    ensures ReachesMemory(bs, MEMORY)
  {
    assert IsPath(bs, [MEMORY]);
  }

  /** A port one step before a port that reaches memory reaches it too. */
  lemma StepExtendsReach(bs: Bindings, p: PortRef, q: PortRef)
    requires Step(bs, p, q) && ReachesMemory(bs, q)
    ensures ReachesMemory(bs, p)
  {
    var path :| IsPath(bs, path) && path[0] == q && path[|path| - 1] == MEMORY;
    assert ([p] + path)[1..] == path;
    assert IsPath(bs, [p] + path);
  }

  ghost predicate Acyclic(bs: Bindings) {
    forall path :: IsPath(bs, path) && |path| > 1 ==> path[0] != path[|path| - 1]
  }

  /** Distance from the CPU in the layering the scripts follow: CPU, L1
      caches, L2 bus, L2 cache, memory bus, memory controller. */
  function Depth(c: Component): nat {
    match c
    case Cpu | Interrupts | System => 0
    case ICache | DCache | SimpleCache => 1
    case L2Bus => 2
    case L2Cache => 3
    case MemBus => 4
    case MemCtrl => 5
  }

  /** A port's rank: the memory side of a component sits just past its CPU side. */
  function Rank(p: PortRef): nat {
    2 * Depth(p.owner) + (if p.name == MemSide || p.name == MemSidePorts then 1 else 0)
  }

  /** Every data binding leads strictly away from the CPU. */
  predicate Ranked(bs: Bindings) {
    match bs
    case NoBindings => true
    case Then(earlier, last) =>
      Ranked(earlier) && (IsDataEdge(last) ==> Rank(last.requestor) < Rank(last.responder))
  }

  lemma {:induction false} RankedEdge(bs: Bindings, e: Edge)
    requires Ranked(bs) && Uses(bs, e) && IsDataEdge(e)
    ensures Rank(e.requestor) < Rank(e.responder)
  {
    match bs
    case NoBindings =>
    case Then(earlier, last) =>
      if e != last {
        RankedEdge(earlier, e);
      }
  }

  lemma StepRaisesRank(bs: Bindings, p: PortRef, q: PortRef)
    requires Ranked(bs) && Step(bs, p, q)
    ensures Rank(p) < Rank(q)
  {
    if PassThrough(p) != Some(q) {
      RankedEdge(bs, Edge(p, q));
    }
  }

  lemma {:induction false} RankIncreasesAlongPath(bs: Bindings, path: seq<PortRef>, i: nat, j: nat)
    requires Ranked(bs) && IsPath(bs, path)
    requires i < j < |path|
    ensures Rank(path[i]) < Rank(path[j])
    decreases |path|
  {
    var rest := path[1..];
    if i == 0 {
      StepRaisesRank(bs, path[0], path[1]);
      if j > 1 {
        RankIncreasesAlongPath(bs, rest, 0, j - 1);
      }
    } else {
      RankIncreasesAlongPath(bs, rest, i - 1, j - 1);
    }
  }

  /** A ranked wiring has no cycle: no request path returns to where it began. */
  lemma RankedIsAcyclic(bs: Bindings)
    requires Ranked(bs)
    ensures Acyclic(bs)
  {
    forall path | IsPath(bs, path) && |path| > 1
      ensures path[0] != path[|path| - 1]
    {
      RankIncreasesAlongPath(bs, path, 0, |path| - 1);
    }
  }

  // ---- cache levels ----

  /** A cache's configuration: size in bytes, latencies in cycles. A
      SimpleCache is configured by its size alone. */
  datatype CacheParams =
    | Classic(size: nat, assoc: nat, tagLatency: nat, dataLatency: nat, responseLatency: nat,
              mshrs: nat, tgtsPerMshr: nat)
    | Simple(size: nat)

  predicate WellFormed(p: CacheParams) {
    p.size > 0 && (p.Classic? ==> p.assoc > 0 && p.mshrs > 0 && p.tgtsPerMshr > 0)
  }

  /** `far` is at least as large, at least as associative and at least as
      slow as `near`. */
  predicate NoSmallerNoFaster(near: CacheParams, far: CacheParams) {
    && near.size <= far.size
    && (near.Classic? && far.Classic? ==>
          && near.assoc <= far.assoc
          && near.tagLatency <= far.tagLatency
          && near.dataLatency <= far.dataLatency
          && near.responseLatency <= far.responseLatency)
  }

  datatype Hierarchy = Hierarchy(caches: map<Component, CacheParams>, bindings: Bindings)

  predicate IsCacheEntry(h: Hierarchy, p: PortRef) {
    p.name == CpuSide && p.owner in h.caches
  }

  /** Along every request path, each cache met later is no smaller and no
      faster than each cache met earlier. */
  ghost predicate GrowsAwayFromCpu(h: Hierarchy) {
    forall path: seq<PortRef>, i, j ::
      IsPath(h.bindings, path) && 0 <= i < j < |path| && IsCacheEntry(h, path[i]) && IsCacheEntry(h, path[j])
      ==> NoSmallerNoFaster(h.caches[path[i].owner], h.caches[path[j].owner])
  }

  /** Cache parameters that grow with depth. */
  ghost predicate DepthOrdered(caches: map<Component, CacheParams>) {
    forall c1, c2 :: c1 in caches && c2 in caches && Depth(c1) < Depth(c2) ==> NoSmallerNoFaster(caches[c1], caches[c2])
  }

  lemma DepthOrderedGrowsAway(h: Hierarchy)
    requires Ranked(h.bindings) && DepthOrdered(h.caches)
    ensures GrowsAwayFromCpu(h)
  {
    forall path: seq<PortRef>, i, j | IsPath(h.bindings, path) && 0 <= i < j < |path| && IsCacheEntry(h, path[i]) && IsCacheEntry(h, path[j])
      ensures NoSmallerNoFaster(h.caches[path[i].owner], h.caches[path[j].owner])
    {
      RankIncreasesAlongPath(h.bindings, path, i, j);
    }
  }

  ghost predicate CachesWellFormed(h: Hierarchy) {
    forall c :: c in h.caches ==> IsCache(c) && WellFormed(h.caches[c])
  }

  /** Both sides of every cache have a peer. */
  ghost predicate CacheSidesPeered(h: Hierarchy) {
    forall c :: c in h.caches ==> HasPeer(h.bindings, PortRef(c, MemSide)) && HasPeer(h.bindings, PortRef(c, CpuSide))
  }

  ghost predicate CpuReachesMemory(h: Hierarchy) {
    forall p :: p in CPU_PORTS ==> ReachesMemory(h.bindings, p)
  }

  /** A well-formed cache hierarchy: the checks the scripts' wiring is held to. */
  ghost predicate ValidHierarchy(h: Hierarchy) {
    && CachesWellFormed(h)
    && SinglesPeerOnce(h.bindings)
    && CacheSidesPeered(h)
    && CpuReachesMemory(h)
    && Acyclic(h.bindings)
    && GrowsAwayFromCpu(h)
  }

  /** In a valid hierarchy each cache's memory side is used by exactly one
      binding, and its CPU side by at least one (exactly one when it is a
      single port). */
  lemma CacheSidesBoundOnce(h: Hierarchy, c: Component)
    requires ValidHierarchy(h) && c in h.caches
    ensures BindCount(h.bindings, PortRef(c, MemSide)) == 1
    ensures BindCount(h.bindings, PortRef(c, CpuSide)) >= 1
    ensures ArityOf(PortRef(c, CpuSide)) == Single ==> BindCount(h.bindings, PortRef(c, CpuSide)) == 1
  {
    var mem, cpu := PortRef(c, MemSide), PortRef(c, CpuSide);
    CountedIffPeered(h.bindings, mem);
    CountedIffPeered(h.bindings, cpu);
    SinglesCountedOnce(h.bindings, mem);
    if ArityOf(cpu) == Single {
      SinglesCountedOnce(h.bindings, cpu);
    }
  }
}
