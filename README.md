# rende.manager — a Dafny model of the GPU session manager's core

rende.manager keeps an in-memory registry of GPU-RAM reservations ("sessions").
It answers how much GPU RAM the sessions have requested. A hosted service
publishes that total every ten seconds as an Application Insights event, then
sets Prometheus gauges for the device load and for each GPU process. This
project models that core in Dafny and proves what it does:

- `session.dfy` (module `Sessions`): the `Session` class. `id` is a `const`
  taken from a fresh GUID during construction. The requested load is a field
  with a public setter. `GuidSource` stands in for `Guid.NewGuid` as a
  fresh-string oracle.
- `session_db.dfy` (module `SessionRegistry`): the `SessionDB` class, whose
  list is a `seq<Session>` field. It also holds the pure functions `Without`
  and `Matching` that specify `RemoveAll(x => x.Id == id)`, with their lemmas:
  order, contents, length and idempotence.
- `health_controller.dfy` (module `RequestedLoad`): the `foreach` sum of
  requested loads, as a loop proved against `TotalLoad`. The C# `int`
  accumulator wraps on overflow, and the model writes that wrap out with
  `Int32.Wrap`. The module also holds the lemmas on how adding and deleting
  sessions change the total, and the `HealthController.GetRequestedGPU`
  endpoint.
- `gauge_cache.dfy` (module `GaugeCache`): the process-keyed gauge cache as a
  value. It specifies check-then-create, setting a gauge and one tick's loop
  over readings. Its lemmas cover growth, never-replaced handles, last-value
  semantics, the mock keys and `Pid.ToString()` keys.
- `nvidia_metrics_service.dfy` (module `NvidiaMetrics`): the service class.
  `executionCount`, the sent events, the device gauge and the static gauge
  dictionary are its fields. Its per-process gauge methods are proved against
  the `GaugeCache` specification.
- `int32.dfy` and `wrappers.dfy`: C# `int` wrap-around, and `Option`.

## Behaviour of the code worth knowing

- The code has no capacity constant, free-capacity figure or admission check.
  The tick's event carries only `GPU_RAM_load`.
- Simulated readings come from `Random.Next(10, 200)`, so they lie in
  [10, 200): 200 itself is never drawn.
- The registry does not enforce unique ids. Deletion removes every match.
- The requested load is never validated. The sum is not clamped and wraps as
  a C# `int`.

## Model

| member | source | states |
|---|---|---|
| Int32.Wrap | rende.manager/rende.manager/Controllers/HealthController.cs:26 | the result of an unchecked C# `int` addition is the one 32-bit value congruent to the mathematical sum modulo 2^32, and equals that sum when it fits |
| Int32.WrapAddLeft | rende.manager/rende.manager/Controllers/HealthController.cs:23-27 | accumulating step by step with wrap-around gives the same result as wrapping the whole mathematical sum |
| Sessions.GuidSource.NewGuid | rende.manager/rende.manager/Controllers/Session.cs:12-13 | each GUID string handed out differs from every one handed out before |
| Sessions.Session.constructor | rende.manager/rende.manager/Controllers/Session.cs:8-14 | the given load is stored unchanged, with no check on sign or size; the id is a fresh GUID, set once (a `const`, the private setter) |
| Sessions.Session.SetRequestedGpuRamLoad | rende.manager/rende.manager/Controllers/Session.cs:7 | the public setter changes the load to the new value; the id is a `const` and cannot change |
| Sessions.NewSessions | rende.manager/rende.manager/Controllers/Session.cs:8-14 | sessions constructed one after another keep their loads and have pairwise distinct ids, all newly issued |
| SessionRegistry.Without | rende.manager/rende.manager/Controllers/SessionDB.cs:22 | definition of what `RemoveAll(x => x.Id == id)` keeps, in order; its properties are the lemmas below |
| SessionRegistry.Matching | rende.manager/rende.manager/Controllers/SessionDB.cs:22 | definition of what `RemoveAll(x => x.Id == id)` removes, in order; its properties are the lemmas below |
| SessionRegistry.WithoutSpec | rende.manager/rende.manager/Controllers/SessionDB.cs:22 | what `RemoveAll` keeps: every entry of the result comes from the list and has a different id, and every entry with a different id is kept |
| SessionRegistry.MatchingSpec | rende.manager/rende.manager/Controllers/SessionDB.cs:22 | what `RemoveAll` removes: exactly the entries whose id equals the argument |
| SessionRegistry.WithoutAppend | rende.manager/rende.manager/Controllers/SessionDB.cs:22 | removal distributes over concatenation, so kept entries stay in their relative order |
| SessionRegistry.WithoutMatchingPartition | rende.manager/rende.manager/Controllers/SessionDB.cs:22 | kept and removed entries together are exactly the old entries, as a multiset |
| SessionRegistry.WithoutLength | rende.manager/rende.manager/Controllers/SessionDB.cs:22 | new length = old length minus the number of entries with a matching id |
| SessionRegistry.WithoutAbsent | rende.manager/rende.manager/Controllers/SessionDB.cs:22 | deleting an id that no session has leaves the list unchanged |
| SessionRegistry.WithoutIdempotent | rende.manager/rende.manager/Controllers/SessionDB.cs:22 | deleting the same id twice equals deleting it once |
| SessionRegistry.SessionDB.constructor | rende.manager/rende.manager/Controllers/SessionDB.cs:7-10 | a new registry is empty |
| SessionRegistry.SessionDB.AddSession | rende.manager/rende.manager/Controllers/SessionDB.cs:12-15 | the list becomes the old list followed by the session, with no duplicate check (adding a session twice gives two entries) |
| SessionRegistry.SessionDB.GetSessions | rende.manager/rende.manager/Controllers/SessionDB.cs:16-19 | returns the current list and changes nothing |
| SessionRegistry.SessionDB.DeleteSession | rende.manager/rende.manager/Controllers/SessionDB.cs:20-24 | the list becomes `Without(old list, id)`, so no remaining session has that id, and that list is returned |
| RequestedLoad.TotalLoad | rende.manager/rende.manager/Controllers/HealthController.cs:23-28 | definition of the exact, unwrapped sum of the requested loads that both `foreach` loops (also rende.manager/rende.manager/Services/NvidiaMetricsService.cs:117-121) accumulate |
| RequestedLoad.TotalLoadAppend | rende.manager/rende.manager/Controllers/HealthController.cs:24-27 | the requested total of a concatenation is the sum of the totals |
| RequestedLoad.TotalLoadPartition | rende.manager/rende.manager/Controllers/HealthController.cs:24-27 | the total splits into the loads of the sessions a deletion keeps and those it removes |
| RequestedLoad.RequestedLoadSum | rende.manager/rende.manager/Controllers/HealthController.cs:23-28 | the loop returns the sum of the requested loads in C# `int` arithmetic, and exactly the sum when no overflow occurs; 0 for no sessions |
| RequestedLoad.RequestedAfterAdd | rende.manager/rende.manager/Controllers/HealthController.cs:24-27 | after adding a session with load L the total rises by exactly L (and the reported `int` by L modulo 2^32); a negative L lowers it, with no clamping |
| RequestedLoad.RequestedAfterDelete | rende.manager/rende.manager/Controllers/HealthController.cs:24-27 | after deleting an id the total falls by exactly the loads of the removed sessions |
| RequestedLoad.HealthController.constructor | rende.manager/rende.manager/Controllers/HealthController.cs:13-18 | the controller keeps the registry it is given (the logger is not modelled) |
| RequestedLoad.HealthController.GetRequestedGPU | rende.manager/rende.manager/Controllers/HealthController.cs:21-29 | returns the wrapped sum of the registry's requested loads, 0 on an empty registry, and modifies nothing |
| GaugeCache.GetOrCreate | rende.manager/rende.manager/Services/NvidiaMetricsService.cs:155-165 | definition of the check-then-create step on the dictionary; its properties are in `GetOrCreateSpec` |
| GaugeCache.GetOrCreateSpec | rende.manager/rende.manager/Services/NvidiaMetricsService.cs:156-165 | the key ends up with a gauge; existing keys keep their gauges; a new gauge is created exactly when the key was absent, it is fresh, and other gauges keep their values |
| GaugeCache.Observe | rende.manager/rende.manager/Services/NvidiaMetricsService.cs:155-166 | definition of one loop iteration: get-or-create the key's gauge, then `Set` it; its properties are in `ObserveSpec` |
| GaugeCache.ObserveSpec | rende.manager/rende.manager/Services/NvidiaMetricsService.cs:153-167 | after get-or-create and `Set`, the key's gauge holds the value; no other key's gauge or value changes |
| GaugeCache.Record | rende.manager/rende.manager/Services/NvidiaMetricsService.cs:153-167 | definition of one tick's `foreach` as the iterations in list order (the mock loop at rende.manager/rende.manager/Services/NvidiaMetricsService.cs:176-190 too); its properties are the lemmas below |
| GaugeCache.RecordGrows | rende.manager/rende.manager/Services/NvidiaMetricsService.cs:149-193 | the cache only grows: after a tick it holds the old keys plus the keys read, and every old key keeps its gauge |
| GaugeCache.RecordValid | rende.manager/rende.manager/Services/NvidiaMetricsService.cs:19 | a tick keeps one distinct, created gauge per key |
| GaugeCache.RecordNoNewGauges | rende.manager/rende.manager/Services/NvidiaMetricsService.cs:179-187 | a tick whose keys all have gauges creates no gauge and leaves the dictionary unchanged |
| GaugeCache.RecordLastValue | rende.manager/rende.manager/Services/NvidiaMetricsService.cs:153-167 | after a tick each key's gauge holds the value of the last reading for that key |
| GaugeCache.RecordUntouched | rende.manager/rende.manager/Services/NvidiaMetricsService.cs:149-169 | a tick leaves the gauge and value of every key it does not read unchanged |
| GaugeCache.PidKey | rende.manager/rende.manager/Services/NvidiaMetricsService.cs:156 | `Pid.ToString()` is a non-empty string of decimal digits |
| GaugeCache.PidKeyDigits | rende.manager/rende.manager/Services/NvidiaMetricsService.cs:156 | the key is the decimal spelling of the PID: read back digit by digit it gives the PID, and it starts with `0` only for PID 0 |
| GaugeCache.PidKeyInjective | rende.manager/rende.manager/Services/NvidiaMetricsService.cs:156 | distinct PIDs give distinct cache keys |
| GaugeCache.NativeReadings | rende.manager/rende.manager/Services/NvidiaMetricsService.cs:153-166 | definition of the native readings: per process and in order, key `Pid.ToString()` with value `UsedGpuMemory`; what they do is stated by `NativeTick` |
| GaugeCache.NativeTick | rende.manager/rende.manager/Services/NvidiaMetricsService.cs:153-166 | after a native tick the gauge of each process's key holds that process's `UsedGpuMemory`, unless a later process of the tick has the same PID |
| GaugeCache.NativeGaugesDistinct | rende.manager/rende.manager/Services/NvidiaMetricsService.cs:153-166 | after a native tick, two processes with different PIDs own different gauges |
| GaugeCache.MockReadings | rende.manager/rende.manager/Services/NvidiaMetricsService.cs:175-189 | definition of the mock readings: the three placeholder processes in order, each with its own draw; what they do is stated by `MockTick` |
| GaugeCache.MockKeys | rende.manager/rende.manager/Services/NvidiaMetricsService.cs:175 | the mock keys are exactly `PID_XXXXX1`, `PID_XXXXX2` and `PID_XXXXX3` |
| GaugeCache.MockTick | rende.manager/rende.manager/Services/NvidiaMetricsService.cs:175-190 | after a mock tick the cache holds the three placeholder keys (plus the old ones), each gauge set to its draw |
| GaugeCache.SecondMockTickNoNewGauges | rende.manager/rende.manager/Services/NvidiaMetricsService.cs:176-187 | a second mock tick creates no gauge and leaves the dictionary as the first left it |
| NvidiaMetrics.RequestedLoadEvent | rende.manager/rende.manager/Services/NvidiaMetricsService.cs:115-123 | definition of the `TrackEvent` call: name `GPU Metrics`, the three fixed properties and the one measurement `GPU_RAM_load` |
| NvidiaMetrics.NvidiaMetricsService.constructor | rende.manager/rende.manager/Services/NvidiaMetricsService.cs:11-26 | count 0, no events, an empty gauge dictionary |
| NvidiaMetrics.NvidiaMetricsService.DoWork | rende.manager/rende.manager/Services/NvidiaMetricsService.cs:72-94 | each tick increments the count by one (as a C# `int`) and first sends the requested-load event. On Windows it then runs only the native pair; if the NVML query fails, the event is already sent and the process gauges are untouched. Elsewhere it runs only the mock pair. The device reading is always in [10, 200) |
| NvidiaMetrics.NvidiaMetricsService.GetTotalRequestedGpuMemoryLoad | rende.manager/rende.manager/Services/NvidiaMetricsService.cs:112-124 | appends exactly one event `GPU Metrics` with Device=NVIDIA, Level=Device, VM=VM-ID-0001 and `GPU_RAM_load` equal to the same wrapped sum that `GetRequestedGPU` returns |
| NvidiaMetrics.NvidiaMetricsService.GetTotalGpuMemoryLoadMock | rende.manager/rende.manager/Services/NvidiaMetricsService.cs:125-135 | the device gauge is set to a simulated value in [10, 200) |
| NvidiaMetrics.NvidiaMetricsService.GetTotalGpuMemoryLoad | rende.manager/rende.manager/Services/NvidiaMetricsService.cs:137-147 | the "native" device gauge is also set to a random value in [10, 200) |
| NvidiaMetrics.NvidiaMetricsService.GetOrCreateGauge | rende.manager/rende.manager/Services/NvidiaMetricsService.cs:156-165 | the check-then-create on the static dictionary does what `GetOrCreate` specifies and keeps the dictionary well formed |
| NvidiaMetrics.NvidiaMetricsService.SetProcessGauge | rende.manager/rende.manager/Services/NvidiaMetricsService.cs:155-166 | one iteration of either per-process loop (also rende.manager/rende.manager/Services/NvidiaMetricsService.cs:178-189): the gauge state becomes `Observe(old, Reading(key, value))` and stays well formed |
| NvidiaMetrics.NvidiaMetricsService.GetProcessGpuMemoryLoad | rende.manager/rende.manager/Services/NvidiaMetricsService.cs:149-169 | on a successful NVML query, the gauge state becomes `Record(old, NativeReadings(processes))`; on failure it is unchanged |
| NvidiaMetrics.NvidiaMetricsService.GetProcessGpuMemoryLoadMock | rende.manager/rende.manager/Services/NvidiaMetricsService.cs:172-193 | the gauge state becomes `Record(old, MockReadings(draws))`, with three draws, each in [10, 200) |

## Left out

- NVML interop: `NvmlInitV2`, the device count, the device handle and the
  process query are foreign calls. A tick receives the query's result as an
  input, with `None` when the call throws.
- DoWork: `completed == false` stands for the NVML exception escaping
  `DoWork` uncaught (nothing in `GetProcessGpuMemoryLoad`, `DoWork` or the
  timer callback catches it). What the runtime then does is not modelled;
  the model lets later ticks run.
- Application Insights and QuickPulse setup, with its environment-variable
  keys: telemetry plumbing. `TrackEvent` is a recorded
  (name, properties, measurements) value.
- Prometheus internals: a gauge is an opaque handle whose last set value is
  kept in a map.
- Gauge names are not modelled. In the native path the name is built from the
  whole process record, not its PID, and prometheus-net's `CreateGauge`
  returns the already registered gauge when a name repeats. The model
  assumes that every `CreateGauge` call makes a new gauge, so that no two
  keys share one. `Valid`, `RecordValid` and `NativeGaugesDistinct` rest on
  that assumption.
- `Timer` scheduling, `StartAsync`, `StopAsync` and `Dispose`: timing and
  threading. One tick is one call of `DoWork`.
- Concurrency: the unsynchronised `List` and the static `Dictionary` race under
  overlapping requests and ticks. The model is sequential.
  `Interlocked.Increment` is a plain wrapping increment.
- The static gauge and dictionary are modelled as fields of the one hosted
  service instance.
- `System.Random` is a nondeterministic choice in [10, 200).
- `Guid.NewGuid` is `GuidSource`, which only guarantees freshness; the GUID's
  text format is not modelled.
- Logging and `Console.WriteLine` calls.
- SessionController.cs and Program.cs are not part of this model. They hold
  HTTP routing and dependency-injection wiring.
- SessionDB.GetSessions: returns the list as a value. In C# it returns the
  registry's own `List` object, so a caller's reference sees later changes;
  that aliasing is not modelled.
- SessionDB.DeleteSession: returns the list as a value, and the aliasing of
  the returned `List` is left out, as for `GetSessions`.
- `Gauge.Set` and the event measurement take a `double`. The model keeps exact
  integers. They agree for every C# `int`. For an `UsedGpuMemory` above 2^53,
  rounding to `double` is not modelled.
- `ProcessInfo.pid` (`uint`) and `usedGpuMemory` (`ulong`) are unbounded
  naturals in the model.
- The `_sessions` field is private in C#. Dafny fields are public, so the
  model cannot express that restriction.
