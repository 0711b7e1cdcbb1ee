/** The requested-load accounting: the sum of `Requested_gpu_ram_load` over the
    registry, as `HealthController.GetRequestedGPU` computes it (and as the
    metrics tick computes it again). */
module RequestedLoad {

  import opened Int32
  import opened Sessions
  import opened SessionRegistry

  /** The mathematical sum of the requested loads, without clamping or wrap. */
  function TotalLoad(s: seq<Session>): int
    reads s
  {
    if s == [] then 0 else s[0].requestedGpuRamLoad + TotalLoad(s[1..])
  }

  /** The total of a concatenation is the sum of the totals. */
  lemma {:induction false} TotalLoadAppend(a: seq<Session>, b: seq<Session>)
    ensures TotalLoad(a + b) == TotalLoad(a) + TotalLoad(b)
  {
    if a == [] {
      assert a + b == b;
    } else {
      assert (a + b)[1..] == a[1..] + b;
      TotalLoadAppend(a[1..], b);
    }
  }

  /** Deletion takes away exactly the loads of the matching sessions. */
  lemma {:induction false} TotalLoadPartition(s: seq<Session>, id: string)
    ensures TotalLoad(s) == TotalLoad(Without(s, id)) + TotalLoad(Matching(s, id))
  {
    if s != [] {
      TotalLoadPartition(s[1..], id);
      var head := if s[0].id == id then [] else [s[0]];
      var gone := if s[0].id == id then [s[0]] else [];
      TotalLoadAppend(head, Without(s[1..], id));
      TotalLoadAppend(gone, Matching(s[1..], id));
    }
  }

  /** The `foreach` of `GetRequestedGPU`: adds up the loads in list order into a
      C# `int`, which wraps on overflow. */
  method RequestedLoadSum(sessions: seq<Session>) returns (total: int32)
    ensures total == Wrap(TotalLoad(sessions))
    ensures -TWO_TO_THE_31 <= TotalLoad(sessions) < TWO_TO_THE_31 ==> total == TotalLoad(sessions)
  {
    total := 0;
    for i := 0 to |sessions|
      invariant total == Wrap(TotalLoad(sessions[..i]))
    {
      assert sessions[..i + 1] == sessions[..i] + [sessions[i]];
      TotalLoadAppend(sessions[..i], [sessions[i]]);
      WrapAddLeft(TotalLoad(sessions[..i]), sessions[i].requestedGpuRamLoad);
      total := Wrap(total + sessions[i].requestedGpuRamLoad);
    }
    assert sessions[..|sessions|] == sessions;
  }

  /** After `AddSession` of a session with load L the reported total is the old
      report plus L (in C# `int` arithmetic); a negative L lowers it. */
  lemma RequestedAfterAdd(s: seq<Session>, session: Session)
    ensures TotalLoad(s + [session]) == TotalLoad(s) + session.requestedGpuRamLoad
    ensures Wrap(TotalLoad(s + [session])) == Wrap(Wrap(TotalLoad(s)) + session.requestedGpuRamLoad)
  {
    TotalLoadAppend(s, [session]);
    WrapAddLeft(TotalLoad(s), session.requestedGpuRamLoad);
  }

  /** After `DeleteSession(id)` the reported total falls by exactly the loads of
      the removed sessions (in C# `int` arithmetic). */
  lemma RequestedAfterDelete(s: seq<Session>, id: string)
    ensures TotalLoad(Without(s, id)) == TotalLoad(s) - TotalLoad(Matching(s, id))
    ensures Wrap(TotalLoad(Without(s, id))) == Wrap(Wrap(TotalLoad(s)) - TotalLoad(Matching(s, id)))
  {
    TotalLoadPartition(s, id);
    WrapAddLeft(TotalLoad(s), -TotalLoad(Matching(s, id)));
  }

  /** The health endpoint; it only reads the registry. */
  class HealthController {
    const db: SessionDB

    constructor (db: SessionDB)
      ensures this.db == db
    {
      this.db := db;
    }

    /** The requested GPU RAM load of all sessions; 0 on an empty registry. */
    method GetRequestedGPU() returns (total: int32)
      ensures total == Wrap(TotalLoad(db.sessions))
      ensures db.sessions == [] ==> total == 0
    {
      var sessions := db.GetSessions();
      total := RequestedLoadSum(sessions);
    }
  }
}
