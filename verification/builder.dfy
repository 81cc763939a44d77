/** The gem5 `system` object as the configuration scripts populate it, one
    attribute assignment at a time: its clock, its memory ranges, the caches
    hung off it and the port bindings between its children. */
module SystemBuild {
  import opened Wrappers
  import opened Topology

  class SystemBuilder {
    /** `system.clk_domain.clock`, as a period in ticks of one picosecond. */
    var clockPeriod: Option<nat>
    /** The sizes, in bytes, of the ranges in `system.mem_ranges`. */
    var memRanges: seq<nat>
    /** `system.mem_ctrl.dram.range`, as the size in bytes it covers. */
    var dramRange: Option<nat>
    /** The caches created so far, by their place in the system tree. */
    var caches: map<Component, CacheParams>
    /** Every port binding made so far, in the order it was made. */
    var bindings: Bindings
    /** The ports that have a peer (gem5 records the peer on the port object
        itself). */
    var peered: set<PortRef>

    /** gem5's binding discipline: a single port never has two peers. */
    ghost predicate Valid()
      reads this
    {
      && SinglesPeerOnce(bindings)
      && forall p {:trigger HasPeer(bindings, p)} :: p in peered <==> HasPeer(bindings, p)
    }

    /** The hierarchy wired so far, as a value. */
    function Snapshot(): Hierarchy
      reads this
    {
      Hierarchy(caches, bindings)
    }

    /** `system = System()`: nothing configured, nothing bound. */
    constructor ()
      ensures Valid()
      ensures clockPeriod == None && memRanges == [] && dramRange == None
      ensures caches == map[] && bindings == NoBindings && peered == {}
    {
      clockPeriod, memRanges, dramRange := None, [], None;
      caches, bindings, peered := map[], NoBindings, {};
    }

    /** `system.clk_domain.clock = ...` */
    method SetClock(period: nat)
      modifies this
      ensures clockPeriod == Some(period)
      ensures memRanges == old(memRanges) && dramRange == old(dramRange)
      ensures caches == old(caches) && bindings == old(bindings) && peered == old(peered)
    {
      clockPeriod := Some(period);
    }

    /** `system.mem_ranges = [...]` */
    method SetMemRanges(ranges: seq<nat>)
      modifies this
      ensures memRanges == ranges
      ensures clockPeriod == old(clockPeriod) && dramRange == old(dramRange)
      ensures caches == old(caches) && bindings == old(bindings) && peered == old(peered)
    {
      memRanges := ranges;
    }

    /** `system.mem_ctrl.dram.range = ...` */
    method SetDramRange(range: nat)
      modifies this
      ensures dramRange == Some(range)
      ensures clockPeriod == old(clockPeriod) && memRanges == old(memRanges)
      ensures caches == old(caches) && bindings == old(bindings) && peered == old(peered)
    {
      dramRange := Some(range);
    }

    /** `system.<path> = Cache(...)`: creates (or replaces) the cache at `c`. */
    method AddCache(c: Component, params: CacheParams)
      modifies this
      ensures caches == old(caches)[c := params]
      ensures clockPeriod == old(clockPeriod) && memRanges == old(memRanges) && dramRange == old(dramRange)
      ensures bindings == old(bindings) && peered == old(peered)
    {
      caches := caches[c := params];
    }

    /** `a = b` between two ports: records the binding when gem5 accepts it,
        and reports why it does not otherwise. */
    method Bind(a: PortRef, b: PortRef) returns (r: BindResult)
      requires Valid()
      modifies this
      ensures Valid()
      ensures r == CheckBind(old(peered), a, b)
      ensures bindings == if r.Bound? then Then(old(bindings), r.edge) else old(bindings)
      ensures forall p :: p in peered <==> p in old(peered) || (r.Bound? && (p == a || p == b))
      ensures clockPeriod == old(clockPeriod) && memRanges == old(memRanges) && dramRange == old(dramRange)
      ensures caches == old(caches)
    {
      r := CheckBind(peered, a, b);
      if r.Bound? {
        bindings, peered := Then(bindings, r.edge), peered + {a, b};
      }
    }
  }
}
