/** The run lifecycle the scripts drive: build the system, check for the
    workload binary (exiting with status 1 when it is missing), instantiate,
    simulate until an exit event, and only then read counters. The simulator
    is an opaque collaborator: what `m5.simulate()` returns and what the
    statistics hold are handed in from outside. */
module Lifecycle {
  import opened Wrappers

  datatype Phase = Unbuilt | Built | Instantiated | Running | Completed | Exited

  /** What `m5.simulate()` returns: why the run stopped, and `m5.curTick()`
      at that point. */
  datatype ExitEvent = ExitEvent(cause: string, tick: nat)

  /** The calls a script makes, in the order it makes them. */
  datatype Call =
    | Build                    // the system tree is assembled
    | CheckBinary(found: bool) // `os.path.exists(binary)`, then `exit(1)` when false
    | Instantiate              // `m5.instantiate()`
    | Simulate                 // `m5.simulate()` starts
    | Exit(event: ExitEvent)   // ... and returns its exit event
    | ReadCounters             // statistics are read from the cache objects

  /** The phase after call `c` in phase `p`, or None when the call is not
      allowed there. A failed binary check ends the script. */
  function After(p: Phase, c: Call): (r: Option<Phase>)
    ensures p == Exited ==> r == None
    ensures r == Some(Completed) ==> p == Completed || c.Exit?
    ensures c == ReadCounters ==> (r.Some? <==> p == Completed)
    ensures c == Instantiate ==> (r.Some? <==> p == Built)
  {
    match c
    case CheckBinary(found) =>
      if p == Exited then None else if found then Some(p) else Some(Exited)
    case Build => if p == Unbuilt then Some(Built) else None
    case Instantiate => if p == Built then Some(Instantiated) else None
    case Simulate => if p == Instantiated then Some(Running) else None
    case Exit(_) => if p == Running then Some(Completed) else None
    case ReadCounters => if p == Completed then Some(Completed) else None
  }

  /** The phase reached by making `calls` from phase `p`, or None when one
      of them is not allowed. */
  function Replay(p: Phase, calls: seq<Call>): Option<Phase>
    decreases |calls|
  {
    if calls == [] then Some(p)
    else match After(p, calls[0])
      case None => None
      case Some(q) => Replay(q, calls[1..])
  }

  /** Replaying one more call continues from the phase already reached. */
  lemma {:induction false} ReplaySnoc(p: Phase, calls: seq<Call>, c: Call)
    ensures Replay(p, calls + [c]) ==
      match Replay(p, calls) case None => None case Some(q) => After(q, c)
    decreases |calls|
  {
    if calls == [] {
      assert calls + [c] == [c];
      assert [c][1..] == [];
    } else {
      assert (calls + [c])[1..] == calls[1..] + [c];
      match After(p, calls[0])
      case None =>
      case Some(q) => ReplaySnoc(q, calls[1..], c);
    }
  }

  /** In an allowed run, counters are read only after an exit event has come
      back from the simulator. */
  lemma {:induction false} ReadsFollowExit(p: Phase, calls: seq<Call>, i: nat)
    requires Replay(p, calls).Some? && p != Completed
    requires i < |calls| && calls[i] == ReadCounters
    ensures exists j :: 0 <= j < i && calls[j].Exit?
    decreases |calls|
  {
    var q := After(p, calls[0]).value;
    if !calls[0].Exit? {
      assert i > 0 && q != Completed;
      ReadsFollowExit(q, calls[1..], i - 1);
      var j :| 0 <= j < i - 1 && calls[1..][j].Exit?;
      assert calls[j + 1].Exit?;
    }
  }

  /** In an allowed run from the start, the system is instantiated only
      after it was built. */
  lemma {:induction false} InstantiateFollowsBuild(calls: seq<Call>, i: nat)
    requires Replay(Unbuilt, calls).Some?
    requires i < |calls| && calls[i] == Instantiate
    ensures exists j :: 0 <= j < i && calls[j] == Build
    decreases |calls|
  {
    if calls[0] != Build {
      assert calls[0].CheckBinary? && After(Unbuilt, calls[0]) == Some(Unbuilt);
      InstantiateFollowsBuild(calls[1..], i - 1);
      var j :| 0 <= j < i - 1 && calls[1..][j] == Build;
      assert calls[j + 1] == Build;
    }
  }

  /** A failed binary check is the last call of an allowed run. */
  lemma ExitIsFinal(p: Phase, calls: seq<Call>, i: nat)
    requires Replay(p, calls).Some?
    requires i < |calls| && calls[i] == CheckBinary(false)
    ensures i == |calls| - 1
  {
    if i < |calls| - 1 {
      assert calls[..i] + [calls[i]] == calls[..i + 1];
      ReplaySnoc(p, calls[..i], calls[i]);
      ReplaySplit(p, calls, i + 1);
    }
  }

  /** Replaying a run is replaying a prefix and then the rest. */
  lemma {:induction false} ReplaySplit(p: Phase, calls: seq<Call>, n: nat)
    requires n <= |calls|
    ensures Replay(p, calls) ==
      match Replay(p, calls[..n]) case None => None case Some(q) => Replay(q, calls[n..])
    decreases |calls|
  {
    if n > 0 {
      assert calls[..n][1..] == calls[1..][..n - 1];
      assert calls[n..] == calls[1..][n - 1..];
      match After(p, calls[0])
      case None =>
      case Some(q) => ReplaySplit(q, calls[1..], n - 1);
    }
  }

  /** gem5's global simulation state, as far as the scripts drive it. */
  class Simulation {
    var phase: Phase
    /** Every call made so far. */
    var log: seq<Call>

    /** The phase is the one the log leads to. */
    ghost predicate Valid()
      reads this
    {
      Replay(Unbuilt, log) == Some(phase)
    }

    constructor ()
      ensures Valid() && phase == Unbuilt && log == []
    {
      phase, log := Unbuilt, [];
    }

    /** Makes call `c`, which must be allowed in the current phase. */
    method Record(c: Call)
      requires Valid() && After(phase, c).Some?
      modifies this
      ensures Valid()
      ensures phase == After(old(phase), c).value && log == old(log) + [c]
    {
      ReplaySnoc(Unbuilt, log, c);
      phase, log := After(phase, c).value, log + [c];
    }

    /** The system tree is complete. */
    method MarkBuilt()
      requires Valid() && phase == Unbuilt
      modifies this
      ensures Valid() && phase == Built && log == old(log) + [Call.Build]
    {
      Record(Call.Build);
    }

    /** The binary check: `found` is whether the binary exists. */
    method CheckBinary(found: bool)
      requires Valid() && phase != Exited
      modifies this
      ensures Valid() && log == old(log) + [Call.CheckBinary(found)]
      ensures phase == if found then old(phase) else Exited
    {
      Record(Call.CheckBinary(found));
    }

    /** `m5.instantiate()`. */
    method Instantiate()
      requires Valid() && phase == Built
      modifies this
      ensures Valid() && phase == Instantiated && log == old(log) + [Call.Instantiate]
    {
      Record(Call.Instantiate);
    }

    /** `m5.simulate()`: runs until the simulator hands back `outcome`. */
    method Simulate(outcome: ExitEvent) returns (e: ExitEvent)
      requires Valid() && phase == Instantiated
      modifies this
      ensures Valid() && phase == Completed && log == old(log) + [Call.Simulate, Call.Exit(outcome)]
      ensures e == outcome
    {
      Record(Call.Simulate);
      Record(Call.Exit(outcome));
      assert log == old(log) + [Call.Simulate, Call.Exit(outcome)];
      e := outcome;
    }

    /** Reads the cache objects' counters, which `available` holds. */
    method ReadCounters<T>(available: T) returns (t: T)
      requires Valid() && phase == Completed
      modifies this
      ensures Valid() && phase == Completed && log == old(log) + [Call.ReadCounters]
      ensures t == available
    {
      Record(Call.ReadCounters);
      t := available;
    }
  }
}
