/** Host validation before a deployment is created or replaced. */
module Preflight {
  import opened Basics
  import opened Text
  import opened Supervisor
  import opened StatLine
  import opened Planner

  datatype Gpu = Gpu(driver: string, computeMajor: int, computeMinor: int, vramMiB: int)

  /** The host as the probes report it; absent where a probe fails. */
  datatype Probes = Probes(
    gpus: Option<seq<Gpu>>,
    diskFreeBytes: Option<nat>,
    endpointAnswers: bool,
    runtimeFound: bool,
    portFree: int -> bool)

  datatype Requirements = Requirements(
    endpoint: string,
    runtimeBinary: string,
    minDriverMajor: int,
    minComputeMajor: int,
    minVramMiB: int,
    minDiskGiB: int,
    preferredPort: int,
    reservedPorts: seq<int>,
    releasablePorts: seq<int>)

  datatype Failure =
    | NoGpu | DriverUnreadable | DriverTooOld | ComputeTooLow | VramTooSmall
    | DiskUnreadable | DiskTooSmall | EndpointUnreachable | RuntimeEmpty | RuntimeMissing
    | PortInvalid | NoFreePort

  const PORT_SCAN_WINDOW := 100
  const GIB: int := 0x4000_0000

  /** The text before the first dot. */
  function Head(s: string): string {
    if s == "" || s[0] == '.' then "" else [s[0]] + Head(s[1..])
  }

  function DriverMajor(version: string): Option<int> {
    ParseInt(TrimSpace(Head(version)))
  }

  lemma {:induction false} HeadIs(before: string, after: string)
    requires '.' !in before
    ensures Head(before) == before && Head(before + "." + after) == before
  {
    var s := before + "." + after;
    if before != "" {
      assert s[1..] == before[1..] + "." + after;
      HeadIs(before[1..], after);
    }
  }

  /** A driver version's major is the number before its first dot, or all of it, whatever white space surrounds that. */
  lemma DriverMajorIs(left: string, n: nat, right: string, rest: string)
    requires AllSpaces(left) && AllSpaces(right) && n < INT64_LIMIT
    ensures DriverMajor(left + Decimal(n) + right) == Some(n)
    ensures DriverMajor(left + Decimal(n) + right + "." + rest) == Some(n)
  {
    hide Decimal, DriverMajor, IsSpace;
    ParseIntOfDecimal(n);
    DigitsAreNoSpaces(Decimal(n));
    TrimIsExact(left, Decimal(n), right);
    NoDots(left, Decimal(n), right);
    HeadIs(left + Decimal(n) + right, rest);
    MajorOfHead(left + Decimal(n) + right);
    MajorOfHead(left + Decimal(n) + right + "." + rest);
  }

  lemma MajorOfHead(version: string)
    ensures DriverMajor(version) == ParseInt(TrimSpace(Head(version)))
  {
  }

  lemma DigitsAreNoSpaces(s: string)
    requires AllDigits(s)
    ensures forall i :: 0 <= i < |s| ==> !IsSpace(s[i]) && s[i] != '.'
  {
  }

  lemma NoDots(left: string, digits: string, right: string)
    requires AllSpaces(left) && AllSpaces(right) && AllDigits(digits)
    ensures '.' !in left + digits + right
  {
    assert !IsSpace('.');
  }

  /** A port that AllocatePort may return. */
  predicate Usable(port: int, reserved: seq<int>, free: int -> bool) {
    port !in reserved && free(port)
  }

  /** The preferred port, or the next one that is neither reserved nor taken, within a window of a hundred. */
  method AllocatePort(preferred: int, reserved: seq<int>, free: int -> bool) returns (port: Option<int>)
    ensures port.Some? ==>
              && preferred <= port.value < preferred + 100 && Usable(port.value, reserved, free)
              && forall p :: preferred <= p < port.value ==> !Usable(p, reserved, free)
    ensures port == None <==> forall p :: preferred <= p < preferred + 100 ==> !Usable(p, reserved, free)
  {
    var candidate := preferred;
    while candidate < preferred + PORT_SCAN_WINDOW
      invariant preferred <= candidate <= preferred + PORT_SCAN_WINDOW
      invariant forall p :: preferred <= p < candidate ==> !Usable(p, reserved, free)
    {
      if candidate !in reserved && free(candidate) {
        assert Usable(candidate, reserved, free);
        return Some(candidate);
      }
      candidate := candidate + 1;
    }
    return None;
  }

  predicate DriverPasses(r: Requirements, gpu: Gpu) {
    r.minDriverMajor > 0 ==> DriverMajor(gpu.driver).Some? && DriverMajor(gpu.driver).value >= r.minDriverMajor
  }

  /** Only the primary GPU counts: it is the one the runtime will use. */
  predicate GpuPasses(r: Requirements, h: Probes) {
    && h.gpus.Some? && |h.gpus.value| > 0
    && var gpu := h.gpus.value[0];
       DriverPasses(r, gpu) && gpu.computeMajor >= r.minComputeMajor && gpu.vramMiB >= r.minVramMiB
  }

  predicate DiskPasses(r: Requirements, h: Probes) {
    r.minDiskGiB > 0 ==> h.diskFreeBytes.Some? && h.diskFreeBytes.value >= r.minDiskGiB * GIB
  }

  predicate ReachesOthers(r: Requirements, h: Probes) {
    (r.endpoint != "" ==> h.endpointAnswers) && r.runtimeBinary != "" && h.runtimeFound
  }

  /**
   * The port is the preferred one if the deployment being replaced will release it, and otherwise the first usable
   * one.
   */
  predicate PortPasses(r: Requirements, h: Probes, port: int) {
    && 0 < r.preferredPort <= 65535
    && if r.preferredPort in r.releasablePorts && r.preferredPort !in r.reservedPorts then port == r.preferredPort
       else
         && r.preferredPort <= port < r.preferredPort + PORT_SCAN_WINDOW && Usable(port, r.reservedPorts, h.portFree)
         && forall p :: r.preferredPort <= p < port ==> !Usable(p, r.reservedPorts, h.portFree)
  }

  method CheckGpu(r: Requirements, h: Probes) returns (failures: seq<Failure>)
    ensures failures == [] <==> GpuPasses(r, h)
    ensures VramTooSmall in failures <==> h.gpus.Some? && |h.gpus.value| > 0 && h.gpus.value[0].vramMiB < r.minVramMiB
    ensures NoGpu in failures <==> h.gpus.None? || |h.gpus.value| == 0
  {
    hide DriverMajor;
    if h.gpus.None? || |h.gpus.value| == 0 {
      return [NoGpu];
    }
    failures := [];
    var gpu := h.gpus.value[0];
    if r.minDriverMajor > 0 {
      var major := DriverMajor(gpu.driver);
      if major.None? {
        failures := failures + [DriverUnreadable];
      } else if major.value < r.minDriverMajor {
        failures := failures + [DriverTooOld];
      }
    }
    if gpu.computeMajor < r.minComputeMajor {
      failures := failures + [ComputeTooLow];
    }
    if gpu.vramMiB < r.minVramMiB {
      failures := failures + [VramTooSmall];
    }
  }

  method CheckHost(r: Requirements, h: Probes) returns (failures: seq<Failure>)
    ensures failures == [] <==> DiskPasses(r, h) && ReachesOthers(r, h)
    ensures VramTooSmall !in failures && NoGpu !in failures
  {
    failures := [];
    if r.minDiskGiB > 0 {
      if h.diskFreeBytes.None? {
        failures := failures + [DiskUnreadable];
      } else if h.diskFreeBytes.value / GIB < r.minDiskGiB {
        failures := failures + [DiskTooSmall];
      }
    }
    if r.endpoint != "" && !h.endpointAnswers {
      failures := failures + [EndpointUnreachable];
    }
    if r.runtimeBinary == "" {
      failures := failures + [RuntimeEmpty];
    } else if !h.runtimeFound {
      failures := failures + [RuntimeMissing];
    }
  }

  method ChoosePort(r: Requirements, h: Probes) returns (port: Option<int>, failures: seq<Failure>)
    ensures failures in {[], [PortInvalid], [NoFreePort]}
    ensures port.Some? <==> failures == []
    ensures port.Some? ==> PortPasses(r, h, port.value)
    ensures port == None ==> forall p :: !PortPasses(r, h, p)
  {
    if r.preferredPort <= 0 || r.preferredPort > 65535 {
      return None, [PortInvalid];
    }
    if r.preferredPort in r.releasablePorts && r.preferredPort !in r.reservedPorts {
      return Some(r.preferredPort), [];
    }
    port := AllocatePort(r.preferredPort, r.reservedPorts, h.portFree);
    failures := if port == None then [NoFreePort] else [];
  }

  /**
   * Preflight collects every failure before it decides: it passes exactly when each check does, and then settles the
   * port.
   */
  method Run(r: Requirements, h: Probes) returns (port: Option<int>, failures: seq<Failure>)
    ensures port.Some? <==> failures == []
    ensures port.Some? ==> GpuPasses(r, h) && DiskPasses(r, h) && ReachesOthers(r, h) && PortPasses(r, h, port.value)
    ensures port == None ==>
              !GpuPasses(r, h) || !DiskPasses(r, h) || !ReachesOthers(r, h) || forall p :: !PortPasses(r, h, p)
    ensures VramTooSmall in failures <==> h.gpus.Some? && |h.gpus.value| > 0 && h.gpus.value[0].vramMiB < r.minVramMiB
    ensures NoGpu in failures <==> h.gpus.None? || |h.gpus.value| == 0
  {
    hide GpuPasses, DiskPasses, ReachesOthers, PortPasses;
    var gpu := CheckGpu(r, h);
    var host := CheckHost(r, h);
    var last;
    port, last := ChoosePort(r, h);
    failures := gpu + host + last;
    if |failures| > 0 {
      port := None;
    }
  }

  /** The checks in figures: the driver's major version, free disk in bytes, and the hundred ports that may be tried. */
  lemma ChecksInFigures(r: Requirements, h: Probes, gpu: Gpu, n: nat, rest: string, port: int)
    requires n < INT64_LIMIT && gpu.driver == Decimal(n) + "." + rest
    ensures DriverPasses(r, gpu) <==> r.minDriverMajor <= 0 || n >= r.minDriverMajor
    ensures DiskPasses(r, h) <==>
              r.minDiskGiB <= 0 || (h.diskFreeBytes.Some? && h.diskFreeBytes.value >= r.minDiskGiB * 1_073_741_824)
    ensures PortPasses(r, h, port) ==> 1 <= r.preferredPort <= port <= r.preferredPort + 99
  {
    DriverMajorIs("", n, "", rest);
    assert "" + Decimal(n) + "" == Decimal(n);
    hide DriverMajor, Decimal;
  }

  /** The checks settle the port: two ports that pass are the same. */
  lemma PortIsUnique(r: Requirements, h: Probes, a: int, b: int)
    requires PortPasses(r, h, a) && PortPasses(r, h, b)
    ensures a == b
  {
    assert a < b ==> !Usable(a, r.reservedPorts, h.portFree);
    assert b < a ==> !Usable(b, r.reservedPorts, h.portFree);
  }

  /**
   * The planner gate implies the preflight gate: a model that is not TOO_BIG for the primary GPU never fails
   * preflight's VRAM check, because the requirement derived from its size is met.
   */
  lemma PlannedModelPassesVramCheck(est: Estimate, gpu: Gpu, r: Requirements)
    requires est.totalBytes >= 0 || gpu.vramMiB >= 0
    requires r.minVramMiB == RequiredVramMiB(est.totalBytes) && Assess(est.totalBytes, gpu.vramMiB) != TooBig
    ensures gpu.vramMiB >= r.minVramMiB
  {
    GatesAgree(est.totalBytes, gpu.vramMiB);
  }
}
