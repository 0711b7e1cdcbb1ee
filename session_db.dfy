/** The in-memory session registry (`SessionDB`): an ordered list of sessions
    with append, listing and delete-by-id. */
module SessionRegistry {

  import opened Sessions

  /** The ids of the sessions, in list order. */
  function Ids(s: seq<Session>): seq<string> {
    seq(|s|, i requires 0 <= i < |s| => s[i].id)
  }

  /** What `RemoveAll(x => x.Id == id)` leaves: the sessions whose id differs,
      in their original order. */
  function Without(s: seq<Session>, id: string): seq<Session> {
    if s == [] then []
    else (if s[0].id == id then [] else [s[0]]) + Without(s[1..], id)
  }

  /** The sessions that `RemoveAll(x => x.Id == id)` removes, in order. */
  function Matching(s: seq<Session>, id: string): seq<Session> {
    if s == [] then []
    else (if s[0].id == id then [s[0]] else []) + Matching(s[1..], id)
  }

  /** Every session left comes from the list and has a different id, and every
      session of the list with a different id is left. */
  lemma {:induction false} WithoutSpec(s: seq<Session>, id: string)
    ensures forall i :: 0 <= i < |Without(s, id)| ==> Without(s, id)[i] in s && Without(s, id)[i].id != id
    ensures forall i :: 0 <= i < |s| && s[i].id != id ==> s[i] in Without(s, id)
  {
    if s != [] {
      WithoutSpec(s[1..], id);
      var kept := if s[0].id == id then [] else [s[0]];
      assert Without(s, id) == kept + Without(s[1..], id);
      forall i | 0 <= i < |s| && s[i].id != id ensures s[i] in Without(s, id) {
        if i > 0 { assert s[i] == s[1..][i - 1]; }
      }
    }
  }

  /** Every session removed comes from the list and has the id, and every
      session of the list with the id is removed. */
  lemma {:induction false} MatchingSpec(s: seq<Session>, id: string)
    ensures forall i :: 0 <= i < |Matching(s, id)| ==> Matching(s, id)[i] in s && Matching(s, id)[i].id == id
    ensures forall i :: 0 <= i < |s| && s[i].id == id ==> s[i] in Matching(s, id)
  {
    if s != [] {
      MatchingSpec(s[1..], id);
      var removed := if s[0].id == id then [s[0]] else [];
      assert Matching(s, id) == removed + Matching(s[1..], id);
      forall i | 0 <= i < |s| && s[i].id == id ensures s[i] in Matching(s, id) {
        if i > 0 { assert s[i] == s[1..][i - 1]; }
      }
    }
  }

  /** Removal works element by element: it keeps the relative order of the
      sessions it keeps. */
  lemma {:induction false} WithoutAppend(a: seq<Session>, b: seq<Session>, id: string)
    ensures Without(a + b, id) == Without(a, id) + Without(b, id)
  {
    if a == [] {
      assert a + b == b;
    } else {
      assert (a + b)[1..] == a[1..] + b;
      WithoutAppend(a[1..], b, id);
    }
  }

  /** Deletion splits the list: what stays and what goes are, together, exactly
      the old entries (as a multiset). */
  lemma {:induction false} WithoutMatchingPartition(s: seq<Session>, id: string)
    ensures multiset(Without(s, id)) + multiset(Matching(s, id)) == multiset(s)
  {
    if s != [] {
      WithoutMatchingPartition(s[1..], id);
      assert s == [s[0]] + s[1..];
    }
  }

  /** The new length is the old length minus the number of entries whose id
      matches. */
  lemma {:induction false} WithoutLength(s: seq<Session>, id: string)
    ensures |Without(s, id)| == |s| - multiset(Ids(s))[id]
  {
    if s != [] {
      WithoutLength(s[1..], id);
      assert Ids(s) == [s[0].id] + Ids(s[1..]);
    }
  }

  /** Deleting an id that no session has leaves the list unchanged. */
  lemma {:induction false} WithoutAbsent(s: seq<Session>, id: string)
    requires id !in Ids(s)
    ensures Without(s, id) == s
  {
    if s != [] {
      assert Ids(s) == [s[0].id] + Ids(s[1..]);
      WithoutAbsent(s[1..], id);
      assert s == [s[0]] + s[1..];
    }
  }

  /** Deleting the same id twice is the same as deleting it once. */
  lemma WithoutIdempotent(s: seq<Session>, id: string)
    ensures Without(Without(s, id), id) == Without(s, id)
  {
    var r := Without(s, id);
    WithoutSpec(s, id);
    WithoutAbsent(r, id);
  }

  /** The registry. The C# `List<Session>` is the field `sessions`, which the
      methods reassign. */
  class SessionDB {
    var sessions: seq<Session>

    /** A new registry is empty. */
    constructor ()
      ensures sessions == []
    {
      sessions := [];
    }

    /** Appends at the end; no check for a duplicate id or a repeated session. */
    method AddSession(session: Session)
      modifies this
      ensures sessions == old(sessions) + [session]
    {
      sessions := sessions + [session];
    }

    /** The current list; nothing changes. */
    method GetSessions() returns (r: seq<Session>)
      ensures r == sessions
    {
      r := sessions;
    }

    /** Removes every session whose id equals `id` and returns the list left. */
    method DeleteSession(id: string) returns (r: seq<Session>)
      modifies this
      ensures sessions == Without(old(sessions), id)
      ensures forall i :: 0 <= i < |sessions| ==> sessions[i].id != id
      ensures r == sessions
    {
      WithoutSpec(sessions, id);
      sessions := Without(sessions, id);
      r := sessions;
    }
  }
}
