/** The process-keyed gauge cache (`ProcessGpuMemoryLoad`) as a value: which
    gauge each key owns, the last value set on each gauge, and the next fresh
    gauge handle. The metrics service's fields follow this specification. */
module GaugeCache {

  /** An opaque Prometheus gauge; handles below `next` have been created. */
  type GaugeHandle = nat

  /** One `process_gauge.Set(value)` for the process called `key`. */
  datatype Reading = Reading(key: string, value: int)

  datatype Cache = Cache(gauges: map<string, GaugeHandle>, values: map<GaugeHandle, int>, next: GaugeHandle)

  /** Every key owns a created gauge, no two keys share one, and `next` is fresh. */
  ghost predicate Valid(c: Cache) {
    && (forall k | k in c.gauges :: c.gauges[k] in c.values)
    && (forall g | g in c.values :: g < c.next)
    && (forall k1, k2 | k1 in c.gauges && k2 in c.gauges && k1 != k2 :: c.gauges[k1] != c.gauges[k2])
  }

  /** The empty dictionary of a freshly started process. */
  const Empty: Cache := Cache(map[], map[], 0)

  /** The check-then-create step: an absent key gets a newly created gauge
      (Prometheus starts it at 0); a present key keeps the gauge it has. */
  function GetOrCreate(c: Cache, key: string): (Cache, GaugeHandle) {
    if key in c.gauges then (c, c.gauges[key])
    else (Cache(c.gauges[key := c.next], c.values[c.next := 0], c.next + 1), c.next)
  }

  /** Get-or-create: afterwards the key has a gauge; existing keys keep theirs;
      a gauge is created exactly when the key was absent, and it is fresh;
      created gauges keep their values. */
  lemma GetOrCreateSpec(c: Cache, key: string)
    ensures GetOrCreate(c, key).0.gauges.Keys == c.gauges.Keys + {key}
    ensures GetOrCreate(c, key).0.gauges[key] == GetOrCreate(c, key).1
    ensures forall k | k in c.gauges :: GetOrCreate(c, key).0.gauges[k] == c.gauges[k]
    ensures key in c.gauges <==> GetOrCreate(c, key).0.next == c.next
    ensures c.next <= GetOrCreate(c, key).0.next
    ensures Valid(c) ==> Valid(GetOrCreate(c, key).0)
    ensures Valid(c) && key !in c.gauges ==> GetOrCreate(c, key).1 !in c.values
    ensures Valid(c) ==> forall g | g in c.values ::
      g in GetOrCreate(c, key).0.values && GetOrCreate(c, key).0.values[g] == c.values[g]
  {
  }

  /** Get-or-create the key's gauge, then set it to the reading's value. */
  function Observe(c: Cache, r: Reading): Cache {
    var created := GetOrCreate(c, r.key);
    created.0.(values := created.0.values[created.1 := r.value])
  }

  /** After `Set`, the key's gauge holds the value; the keys grow by that key;
      no existing key changes gauge, and (in a well-formed cache) no other
      key's value changes. */
  lemma ObserveSpec(c: Cache, r: Reading)
    ensures Observe(c, r).gauges.Keys == c.gauges.Keys + {r.key}
    ensures forall k | k in c.gauges :: Observe(c, r).gauges[k] == c.gauges[k]
    ensures r.key in c.gauges ==> Observe(c, r).next == c.next
    ensures c.next <= Observe(c, r).next
    ensures Observe(c, r).gauges[r.key] in Observe(c, r).values
    ensures Observe(c, r).values[Observe(c, r).gauges[r.key]] == r.value
    ensures Valid(c) ==> Valid(Observe(c, r))
    ensures Valid(c) ==> forall k | k in c.gauges && k != r.key ::
      Observe(c, r).values[Observe(c, r).gauges[k]] == c.values[c.gauges[k]]
  {
    GetOrCreateSpec(c, r.key);
  }

  /** The `foreach` over one tick's readings, in order. */
  function Record(c: Cache, rs: seq<Reading>): Cache
    decreases |rs|
  {
    if rs == [] then c else Observe(Record(c, rs[..|rs| - 1]), rs[|rs| - 1])
  }

  /** One more reading at the end of a tick is one more `Observe`. */
  lemma RecordSnoc(c: Cache, rs: seq<Reading>, r: Reading)
    ensures Record(c, rs + [r]) == Observe(Record(c, rs), r)
  {
    assert (rs + [r])[..|rs|] == rs;
  }

  /** The keys of a tick's readings. */
  function KeysOf(rs: seq<Reading>): (keys: set<string>)
    ensures forall i :: 0 <= i < |rs| ==> rs[i].key in keys
    decreases |rs|
  {
    if rs == [] then {} else KeysOf(rs[..|rs| - 1]) + {rs[|rs| - 1].key}
  }

  /** The cache only grows: a tick adds the keys it reads, and a key's gauge,
      once created, is never replaced or removed. */
  lemma {:induction false} RecordGrows(c: Cache, rs: seq<Reading>)
    ensures Record(c, rs).gauges.Keys == c.gauges.Keys + KeysOf(rs)
    ensures forall k | k in c.gauges :: Record(c, rs).gauges[k] == c.gauges[k]
    ensures c.next <= Record(c, rs).next
    decreases |rs|
  {
    if rs != [] {
      var init := rs[..|rs| - 1];
      RecordGrows(c, init);
      ObserveSpec(Record(c, init), rs[|rs| - 1]);
    }
  }

  /** A tick keeps the cache well formed. */
  lemma {:induction false} RecordValid(c: Cache, rs: seq<Reading>)
    requires Valid(c)
    ensures Valid(Record(c, rs))
    decreases |rs|
  {
    if rs != [] {
      RecordValid(c, rs[..|rs| - 1]);
      ObserveSpec(Record(c, rs[..|rs| - 1]), rs[|rs| - 1]);
    }
  }

  /** A tick whose keys all have gauges already creates no gauge. */
  lemma {:induction false} RecordNoNewGauges(c: Cache, rs: seq<Reading>)
    requires KeysOf(rs) <= c.gauges.Keys
    ensures Record(c, rs).gauges == c.gauges
    ensures Record(c, rs).next == c.next
    decreases |rs|
  {
    if rs != [] {
      var init := rs[..|rs| - 1];
      RecordNoNewGauges(c, init);
      ObserveSpec(Record(c, init), rs[|rs| - 1]);
    }
  }

  /** After a tick, the gauge of every key read holds the value of the last
      reading of that key. */
  lemma {:induction false} RecordLastValue(c: Cache, rs: seq<Reading>, j: nat)
    requires Valid(c)
    requires j < |rs|
    requires forall j' :: j < j' < |rs| ==> rs[j'].key != rs[j].key
    ensures rs[j].key in Record(c, rs).gauges && Record(c, rs).gauges[rs[j].key] in Record(c, rs).values
    ensures Record(c, rs).values[Record(c, rs).gauges[rs[j].key]] == rs[j].value
    decreases |rs|
  {
    var init := rs[..|rs| - 1];
    ObserveSpec(Record(c, init), rs[|rs| - 1]);
    if j < |rs| - 1 {
      RecordLastValue(c, init, j);
      RecordValid(c, init);
    }
  }

  /** A tick leaves the gauge of every key it does not read as it was. */
  lemma {:induction false} RecordUntouched(c: Cache, rs: seq<Reading>, k: string)
    requires Valid(c)
    requires k in c.gauges && k !in KeysOf(rs)
    ensures k in Record(c, rs).gauges && Record(c, rs).gauges[k] == c.gauges[k]
    ensures c.gauges[k] in Record(c, rs).values
    ensures Record(c, rs).values[c.gauges[k]] == c.values[c.gauges[k]]
    decreases |rs|
  {
    if rs != [] {
      var init := rs[..|rs| - 1];
      RecordUntouched(c, init, k);
      RecordGrows(c, init);
      RecordValid(c, init);
      ObserveSpec(Record(c, init), rs[|rs| - 1]);
    }
  }

  /** An NVML process: its PID (`uint`) and its used GPU memory (`ulong`). */
  datatype ProcessInfo = ProcessInfo(pid: nat, usedGpuMemory: nat)

  /** `Pid.ToString()`: the decimal digits of the PID, most significant first. */
  function PidKey(pid: nat): (s: string)
    ensures |s| >= 1
    ensures forall i :: 0 <= i < |s| ==> '0' <= s[i] <= '9'
  {
    if pid < 10 then [(48 + pid) as char]
    else PidKey(pid / 10) + [(48 + pid % 10) as char]
  }

  /** Reads a string of decimal digits back as a number. */
  function DigitsValue(s: string): nat
    requires forall i :: 0 <= i < |s| ==> '0' <= s[i] <= '9'
    decreases |s|
  {
    if s == [] then 0 else 10 * DigitsValue(s[..|s| - 1]) + (s[|s| - 1] as int - 48)
  }

  /** The digits of `PidKey(pid)` spell `pid` in decimal, with no leading `0`
      except for the PID 0 itself. */
  lemma {:induction false} PidKeyDigits(pid: nat)
    ensures DigitsValue(PidKey(pid)) == pid
    ensures PidKey(pid)[0] == '0' ==> pid == 0
  {
    if pid >= 10 {
      PidKeyDigits(pid / 10);
      var s := PidKey(pid);
      assert s[..|s| - 1] == PidKey(pid / 10);
    }
  }

  /** Distinct PIDs give distinct cache keys. */
  lemma PidKeyInjective(a: nat, b: nat)
    requires PidKey(a) == PidKey(b)
    ensures a == b
  {
    PidKeyDigits(a);
    PidKeyDigits(b);
  }

  /** The native path's readings: key `Pid.ToString()`, value `UsedGpuMemory`. */
  function NativeReadings(ps: seq<ProcessInfo>): seq<Reading> {
    seq(|ps|, i requires 0 <= i < |ps| => Reading(PidKey(ps[i].pid), ps[i].usedGpuMemory))
  }

  /** In the native path two processes with different PIDs end with different gauges. */
  lemma NativeGaugesDistinct(c: Cache, ps: seq<ProcessInfo>, i: nat, j: nat)
    requires Valid(c)
    requires i < |ps| && j < |ps| && ps[i].pid != ps[j].pid
    ensures PidKey(ps[i].pid) in Record(c, NativeReadings(ps)).gauges
    ensures PidKey(ps[j].pid) in Record(c, NativeReadings(ps)).gauges
    ensures Record(c, NativeReadings(ps)).gauges[PidKey(ps[i].pid)] != Record(c, NativeReadings(ps)).gauges[PidKey(ps[j].pid)]
  {
    var rs := NativeReadings(ps);
    RecordGrows(c, rs);
    RecordValid(c, rs);
    assert rs[i].key in KeysOf(rs) && rs[j].key in KeysOf(rs);
    if PidKey(ps[i].pid) == PidKey(ps[j].pid) {
      PidKeyInjective(ps[i].pid, ps[j].pid);
    }
  }

  /** In the native path the gauge of a process's key holds that process's
      `UsedGpuMemory`, unless a later process of the same tick has the same PID. */
  lemma NativeTick(c: Cache, ps: seq<ProcessInfo>, i: nat)
    requires Valid(c)
    requires i < |ps|
    requires forall j :: i < j < |ps| ==> ps[j].pid != ps[i].pid
    ensures PidKey(ps[i].pid) in Record(c, NativeReadings(ps)).gauges
    ensures Record(c, NativeReadings(ps)).gauges[PidKey(ps[i].pid)] in Record(c, NativeReadings(ps)).values
    ensures Record(c, NativeReadings(ps)).values[Record(c, NativeReadings(ps)).gauges[PidKey(ps[i].pid)]] == ps[i].usedGpuMemory
  {
    var rs := NativeReadings(ps);
    forall j | i < j < |rs| ensures rs[j].key != rs[i].key {
      if rs[j].key == rs[i].key {
        PidKeyInjective(ps[j].pid, ps[i].pid);
      }
    }
    RecordLastValue(c, rs, i);
  }

  /** The simulated processes of the mock path. */
  const MockProcessKeys: seq<string> := ["PID_XXXXX1", "PID_XXXXX2", "PID_XXXXX3"]

  /** The mock path's readings: the i-th simulated process gets the i-th draw. */
  function MockReadings(draws: seq<int>): seq<Reading>
    requires |draws| == |MockProcessKeys|
  {
    seq(|MockProcessKeys|, i requires 0 <= i < |MockProcessKeys| => Reading(MockProcessKeys[i], draws[i]))
  }

  /** The keys a mock tick reads are the three simulated processes. */
  lemma MockKeys(draws: seq<int>)
    requires |draws| == |MockProcessKeys|
    ensures KeysOf(MockReadings(draws)) == {"PID_XXXXX1", "PID_XXXXX2", "PID_XXXXX3"}
  {
    var rs := MockReadings(draws);
    assert rs[..1][..0] == [] && rs[..2][..1] == rs[..1] && rs[..2] == rs[..|rs| - 1];
    assert KeysOf(rs[..1]) == {"PID_XXXXX1"};
    assert KeysOf(rs[..2]) == {"PID_XXXXX1", "PID_XXXXX2"};
  }

  /** After a mock tick the cache holds the three simulated keys, each gauge set
      to its draw. */
  lemma MockTick(c: Cache, draws: seq<int>)
    requires Valid(c)
    requires |draws| == |MockProcessKeys|
    ensures Record(c, MockReadings(draws)).gauges.Keys == c.gauges.Keys + {"PID_XXXXX1", "PID_XXXXX2", "PID_XXXXX3"}
    ensures forall i :: 0 <= i < |MockProcessKeys| ==>
      MockProcessKeys[i] in Record(c, MockReadings(draws)).gauges &&
      Record(c, MockReadings(draws)).gauges[MockProcessKeys[i]] in Record(c, MockReadings(draws)).values &&
      Record(c, MockReadings(draws)).values[Record(c, MockReadings(draws)).gauges[MockProcessKeys[i]]] == draws[i]
  {
    var rs := MockReadings(draws);
    RecordGrows(c, rs);
    MockKeys(draws);
    forall i | 0 <= i < |MockProcessKeys|
      ensures MockProcessKeys[i] in Record(c, rs).gauges && Record(c, rs).gauges[MockProcessKeys[i]] in Record(c, rs).values
      ensures Record(c, rs).values[Record(c, rs).gauges[MockProcessKeys[i]]] == draws[i]
    {
      RecordLastValue(c, rs, i);
    }
  }

  /** A second mock tick creates no new gauge. */
  lemma SecondMockTickNoNewGauges(c: Cache, first: seq<int>, second: seq<int>)
    requires |first| == |MockProcessKeys| && |second| == |MockProcessKeys|
    ensures Record(Record(c, MockReadings(first)), MockReadings(second)).gauges == Record(c, MockReadings(first)).gauges
    ensures Record(Record(c, MockReadings(first)), MockReadings(second)).next == Record(c, MockReadings(first)).next
  {
    RecordGrows(c, MockReadings(first));
    MockKeys(first);
    MockKeys(second);
    RecordNoNewGauges(Record(c, MockReadings(first)), MockReadings(second));
  }
}
