/** The records of the cache layer (src/cache/mod.rs): the serialisable
    copy of an execution result, a stored entry, and the statistics. A
    `SystemTime` is an integer timestamp; only its order matters here. */
module CacheTypes {
  import opened Wrappers
  import opened Strings
  import opened Executors

  const NanosPerMilli: nat := 1_000_000

  /** `CachedResult`: an `ExecutionResult` without the cache flag and with
      the duration in whole milliseconds. */
  datatype CachedResult = CachedResult(
    success: bool,
    stdout: string,
    stderr: string,
    exitCode: int,
    outputs: seq<string>,
    durationMs: nat)

  /** `CachedEntry`. */
  datatype CachedEntry = CachedEntry(timestamp: int, stageName: string, cacheKey: string, result: CachedResult)

  /** `CacheStats`. */
  datatype CacheStats = CacheStats(entries: nat, sizeBytes: nat, oldestEntry: Option<int>, newestEntry: Option<int>)

  /** `CachedResult::from(&ExecutionResult)`: every field is copied except
      the duration, which is truncated to whole milliseconds. */
  function FromExecution(r: ExecutionResult): (c: CachedResult)
    ensures c.success == r.success && c.stdout == r.stdout && c.stderr == r.stderr
    ensures c.exitCode == r.exitCode && c.outputs == r.outputs
    ensures c.durationMs * NanosPerMilli <= r.duration < (c.durationMs + 1) * NanosPerMilli
  {
    CachedResult(r.success, r.stdout, r.stderr, r.exitCode, r.outputs, r.duration / NanosPerMilli)
  }

  /** `ExecutionResult::from(CachedResult)`: the copied fields come back,
      the duration is the whole milliseconds, and the result is marked as
      served from the cache. */
  function ToExecution(c: CachedResult): (r: ExecutionResult)
    ensures r.cacheHit
    ensures r.success == c.success && r.stdout == c.stdout && r.stderr == c.stderr
    ensures r.exitCode == c.exitCode && r.outputs == c.outputs
    ensures r.duration == c.durationMs * NanosPerMilli
  {
    ExecutionResult(c.success, c.stdout, c.stderr, c.exitCode, c.outputs, c.durationMs * NanosPerMilli, true)
  }

  /** Storing then loading a result loses only the sub-millisecond part
      of its duration and sets the cache flag. */
  lemma ExecutionRoundTrip(r: ExecutionResult)
    ensures ToExecution(FromExecution(r))
      == r.(duration := r.duration - r.duration % NanosPerMilli, cacheHit := true)
  {
  }

  /** Loading then storing a cached result gives it back unchanged. */
  lemma CachedRoundTrip(c: CachedResult)
    ensures FromExecution(ToExecution(c)) == c
  {
  }

  // ---------------------------------------------------------------------
  // `CacheStats::formatted_size`

  const KiB: nat := 1024
  const MiB: nat := KiB * 1024
  const GiB: nat := MiB * 1024

  datatype SizeUnit = Bytes | KB | MB | GB

  function UnitSize(u: SizeUnit): nat {
    match u
    case Bytes => 1
    case KB => KiB
    case MB => MiB
    case GB => GiB
  }

  function UnitName(u: SizeUnit): string {
    match u
    case Bytes => "bytes"
    case KB => "KB"
    case MB => "MB"
    case GB => "GB"
  }

  /** The size as displayed: whole bytes below one kibibyte, otherwise a
      quotient in the largest unit it reaches. `{:.2}` renders the
      quotient with two decimals. */
  datatype FormattedSize = Exact(text: string) | Scaled(value: real, unit: SizeUnit)

  /** `formatted_size`: the unit is the largest of KB, MB and GB the size
      reaches, so the scaled value is at least 1 and, below GB, under 1024;
      sizes under 1024 bytes are shown exactly. */
  function FormatSize(stats: CacheStats): (f: FormattedSize)
    ensures f.Exact? <==> stats.sizeBytes < KiB
    ensures f.Exact? ==> f.text == NatToString(stats.sizeBytes) + " " + UnitName(Bytes)
    ensures f.Scaled? ==> f.value * (UnitSize(f.unit) as real) == stats.sizeBytes as real
    ensures f.Scaled? ==> 1.0 <= f.value && (f.unit != GB ==> f.value < 1024.0)
    ensures f.Scaled? ==> (f.unit == KB <==> stats.sizeBytes < MiB) && (f.unit == GB <==> stats.sizeBytes >= GiB)
  {
    var n := stats.sizeBytes;
    if n >= GiB then Scaled(n as real / GiB as real, GB)
    else if n >= MiB then Scaled(n as real / MiB as real, MB)
    else if n >= KiB then Scaled(n as real / KiB as real, KB)
    else Exact(NatToString(n) + " bytes")
  }
}
