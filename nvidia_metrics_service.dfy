/** The hosted metrics service (`NvidiaMetricsService`): one timer tick publishes
    the requested-load total as an Application Insights event, then sets the
    device gauge and the per-process gauges, from NVML on Windows and from
    simulated readings elsewhere. */
module NvidiaMetrics {

  import opened Int32
  import opened Wrappers
  import opened Sessions
  import opened SessionRegistry
  import opened RequestedLoad
  import opened GaugeCache

  /** One `TelemetryClient.TrackEvent(name, properties, measurements)`. */
  datatype Event = Event(name: string, properties: map<string, string>, measurements: map<string, int>)

  /** The event a tick sends for the requested-load total. */
  function RequestedLoadEvent(total: int32): Event {
    Event("GPU Metrics",
          map["Device" := "NVIDIA", "Level" := "Device", "VM" := "VM-ID-0001"],
          map["GPU_RAM_load" := total])
  }

  /** The lowest and one past the highest value `Random.Next(10, 200)` returns. */
  const MIN_READING: int := 10
  const MAX_READING_EXCLUSIVE: int := 200

  class NvidiaMetricsService {
    const db: SessionDB
    /** `RuntimeInformation.IsOSPlatform(OSPlatform.Windows)`, fixed for the process. */
    const onWindows: bool
    var executionCount: int32
    /** The events sent to the telemetry client, oldest first. */
    var events: seq<Event>
    /** The last value set on the static `TotalGpuMemoryLoad` gauge. */
    var deviceGpuMemoryLoad: int
    /** The static `ProcessGpuMemoryLoad` dictionary and the process gauges it refers to. */
    var processGauges: map<string, GaugeHandle>
    var gaugeValues: map<GaugeHandle, int>
    var nextGauge: GaugeHandle

    /** The process-gauge state as the value that `GaugeCache` specifies. */
    function Gauges(): Cache
      reads this
    {
      Cache(processGauges, gaugeValues, nextGauge)
    }

    ghost predicate Valid()
      reads this
    {
      GaugeCache.Valid(Gauges())
    }

    constructor (db: SessionDB, onWindows: bool)
      ensures this.db == db && this.onWindows == onWindows
      ensures executionCount == 0 && events == [] && deviceGpuMemoryLoad == 0
      ensures Gauges() == Empty && Valid()
    {
      this.db := db;
      this.onWindows := onWindows;
      executionCount := 0;
      events := [];
      deviceGpuMemoryLoad := 0;
      processGauges := map[];
      gaugeValues := map[];
      nextGauge := 0;
    }

    /** One timer tick. `nvml` is the result of `NvmlDeviceGetComputeRunningProcesses`
        (`None` when that foreign call throws; the exception escapes the tick
        uncaught, and `completed` is then false); the mock path ignores it. `draws` are the simulated per-process readings. */
    method DoWork(nvml: Option<seq<ProcessInfo>>) returns (completed: bool, ghost draws: seq<int>)
      requires Valid()
      modifies this
      ensures Valid()
      ensures executionCount == Wrap(old(executionCount) + 1)
      ensures events == old(events) + [RequestedLoadEvent(Wrap(old(TotalLoad(db.sessions))))]
      ensures MIN_READING <= deviceGpuMemoryLoad < MAX_READING_EXCLUSIVE
      ensures onWindows ==> completed == nvml.Some?
      ensures onWindows && nvml.Some? ==> Gauges() == Record(old(Gauges()), NativeReadings(nvml.value))
      ensures onWindows && nvml.None? ==> Gauges() == old(Gauges())
      ensures !onWindows ==> completed && |draws| == |MockProcessKeys|
      ensures !onWindows ==> forall i :: 0 <= i < |draws| ==> MIN_READING <= draws[i] < MAX_READING_EXCLUSIVE
      ensures !onWindows ==> Gauges() == Record(old(Gauges()), MockReadings(draws))
    {
      executionCount := Wrap(executionCount + 1);
      GetTotalRequestedGpuMemoryLoad();
      draws := [];
      if onWindows {
        GetTotalGpuMemoryLoad();
        completed := GetProcessGpuMemoryLoad(nvml);
      } else {
        GetTotalGpuMemoryLoadMock();
        draws := GetProcessGpuMemoryLoadMock();
        completed := true;
      }
    }

    /** Sends the requested-load total under `GPU_RAM_load` with the fixed
        device properties. */
    method GetTotalRequestedGpuMemoryLoad()
      modifies this`events
      ensures events == old(events) + [RequestedLoadEvent(Wrap(TotalLoad(db.sessions)))]
    {
      var sessions := db.GetSessions();
      var total := RequestedLoadSum(sessions);
      events := events + [RequestedLoadEvent(total)];
    }

    /** The simulated device reading. */
    method GetTotalGpuMemoryLoadMock()
      modifies this`deviceGpuMemoryLoad
      ensures MIN_READING <= deviceGpuMemoryLoad < MAX_READING_EXCLUSIVE
    {
      var reading :| MIN_READING <= reading < MAX_READING_EXCLUSIVE;
      deviceGpuMemoryLoad := reading;
    }

    /** The "native" device reading, which is random as well. */
    method GetTotalGpuMemoryLoad()
      modifies this`deviceGpuMemoryLoad
      ensures MIN_READING <= deviceGpuMemoryLoad < MAX_READING_EXCLUSIVE
    {
      var reading :| MIN_READING <= reading < MAX_READING_EXCLUSIVE;
      deviceGpuMemoryLoad := reading;
    }

    /** The check-then-create step on the static dictionary. */
    method GetOrCreateGauge(key: string) returns (gauge: GaugeHandle)
      requires Valid()
      modifies this`processGauges, this`gaugeValues, this`nextGauge
      ensures Valid()
      ensures (Gauges(), gauge) == GetOrCreate(old(Gauges()), key)
    {
      GetOrCreateSpec(Gauges(), key);
      if key !in processGauges {
        gauge := nextGauge;
        nextGauge := nextGauge + 1;
        gaugeValues := gaugeValues[gauge := 0];
        processGauges := processGauges[key := gauge];
      } else {
        gauge := processGauges[key];
      }
    }

    /** The body of both per-process loops: get-or-create the key's gauge, then
        `Set` it to the value. */
    method SetProcessGauge(key: string, value: int)
      requires Valid()
      modifies this`processGauges, this`gaugeValues, this`nextGauge
      ensures Valid()
      ensures Gauges() == Observe(old(Gauges()), Reading(key, value))
    {
      ObserveSpec(Gauges(), Reading(key, value));
      var gauge := GetOrCreateGauge(key);
      gaugeValues := gaugeValues[gauge := value];
    }

    /** The native per-process gauges: key `Pid.ToString()`, value `UsedGpuMemory`. */
    method GetProcessGpuMemoryLoad(nvml: Option<seq<ProcessInfo>>) returns (ok: bool)
      requires Valid()
      modifies this`processGauges, this`gaugeValues, this`nextGauge
      ensures Valid()
      ensures ok == nvml.Some?
      ensures ok ==> Gauges() == Record(old(Gauges()), NativeReadings(nvml.value))
      ensures !ok ==> Gauges() == old(Gauges())
    {
      if nvml.None? {
        return false;
      }
      var processes := nvml.value;
      ghost var readings := NativeReadings(processes);
      for i := 0 to |processes|
        invariant Valid()
        invariant Gauges() == Record(old(Gauges()), readings[..i])
      {
        var process := processes[i];
        SetProcessGauge(PidKey(process.pid), process.usedGpuMemory);
        RecordSnoc(old(Gauges()), readings[..i], readings[i]);
        assert readings[..i + 1] == readings[..i] + [readings[i]];
      }
      assert readings[..|processes|] == readings;
      ok := true;
    }

    /** The simulated per-process gauges: the three placeholder processes, each
        set to a fresh draw; `draws` are those draws in order. */
    method GetProcessGpuMemoryLoadMock() returns (ghost draws: seq<int>)
      requires Valid()
      modifies this`processGauges, this`gaugeValues, this`nextGauge
      ensures Valid()
      ensures |draws| == |MockProcessKeys|
      ensures forall i :: 0 <= i < |draws| ==> MIN_READING <= draws[i] < MAX_READING_EXCLUSIVE
      ensures Gauges() == Record(old(Gauges()), MockReadings(draws))
    {
      var processes := MockProcessKeys;
      draws := [];
      ghost var readings: seq<Reading> := [];
      for i := 0 to |processes|
        invariant Valid()
        invariant |draws| == i && |readings| == i
        invariant forall k :: 0 <= k < i ==> MIN_READING <= draws[k] < MAX_READING_EXCLUSIVE
        invariant forall k :: 0 <= k < i ==> readings[k] == Reading(processes[k], draws[k])
        invariant Gauges() == Record(old(Gauges()), readings)
      {
        var reading :| MIN_READING <= reading < MAX_READING_EXCLUSIVE;
        SetProcessGauge(processes[i], reading);
        draws := draws + [reading];
        ghost var observed := Reading(processes[i], reading);
        RecordSnoc(old(Gauges()), readings, observed);
        readings := readings + [observed];
      }
      assert readings == MockReadings(draws);
    }
  }
}
