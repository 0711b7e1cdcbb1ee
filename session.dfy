/** A reservation of GPU RAM (`Session`) and the fresh-identifier oracle
    that stands in for `Guid.NewGuid`. */
module Sessions {

  import opened Int32

  /** Stands in for `System.Guid.NewGuid().ToString()`. The only property the
      registry relies on is that every string handed out differs from all the
      ones handed out before; `issued` records those. */
  class GuidSource {
    ghost var issued: set<string>
    var count: nat

    ghost predicate Valid()
      reads this
    {
      forall g | g in issued :: |g| < count
    }

    constructor ()
      ensures Valid() && issued == {}
    {
      issued := {};
      count := 0;
    }

    method NewGuid() returns (g: string)
      requires Valid()
      modifies this
      ensures Valid()
      ensures g !in old(issued)
      ensures issued == old(issued) + {g}
    {
      g := seq(count, _ => 'f');
      count := count + 1;
      issued := issued + {g};
    }
  }

  /** One reservation. `id` is a `const`: it is assigned once, in the
      constructor, and nothing can change it afterwards (the private setter).
      `requestedGpuRamLoad` is a plain field with a public setter. */
  class Session {
    const id: string
    var requestedGpuRamLoad: int32

    /** Stores the load as given, without any check of sign or size, and
        takes the id from a fresh GUID. */
    constructor (gpuRamLoad: int32, guids: GuidSource)
      requires guids.Valid()
      modifies guids
      ensures requestedGpuRamLoad == gpuRamLoad
      ensures guids.Valid()
      ensures id !in old(guids.issued) && guids.issued == old(guids.issued) + {id}
    {
      requestedGpuRamLoad := gpuRamLoad;
      var guid := guids.NewGuid();
      id := guid;
    }

    /** The public setter of `Requested_gpu_ram_load`: only the load changes. */
    method SetRequestedGpuRamLoad(gpuRamLoad: int32)
      modifies this
      ensures requestedGpuRamLoad == gpuRamLoad
    {
      requestedGpuRamLoad := gpuRamLoad;
    }
  }

  /** Constructing one session per load, one after another: every session
      keeps its load, and no two of them share an id. */
  method NewSessions(loads: seq<int32>, guids: GuidSource) returns (sessions: seq<Session>)
    requires guids.Valid()
    modifies guids
    ensures guids.Valid()
    ensures |sessions| == |loads|
    ensures forall i :: 0 <= i < |sessions| ==>
      fresh(sessions[i]) && sessions[i].requestedGpuRamLoad == loads[i]
    ensures forall i :: 0 <= i < |sessions| ==> sessions[i].id in guids.issued - old(guids.issued)
    ensures forall i, j :: 0 <= i < j < |sessions| ==> sessions[i].id != sessions[j].id
  {
    sessions := [];
    for k := 0 to |loads|
      invariant guids.Valid() && old(guids.issued) <= guids.issued
      invariant |sessions| == k
      invariant forall i :: 0 <= i < k ==>
        fresh(sessions[i]) && sessions[i].requestedGpuRamLoad == loads[i]
      invariant forall i :: 0 <= i < k ==> sessions[i].id in guids.issued - old(guids.issued)
      invariant forall i, j :: 0 <= i < j < k ==> sessions[i].id != sessions[j].id
    {
      var s := new Session(loads[k], guids);
      sessions := sessions + [s];
    }
  }
}
