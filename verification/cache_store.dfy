/** The filesystem cache (src/cache/filesystem.rs). The entry files under
    the cache directory are a map from each file's path to the entry it
    holds; JSON (de)serialisation is taken to be exact. The key of a stage
    is computed by a fresh `ContentHasher` with the environment fed in
    name order. The filesystem the stage's inputs and outputs live in is
    the `Files` map of a `KeyContext`: a path exists when it is a key. */
module CacheStore {
  import opened Wrappers
  import opened Errors
  import opened Definition
  import opened Executors
  import opened CacheTypes
  import opened CacheHash
  import opened Ordering
  import Seqs

  /** Everything the key of a stage depends on besides the stage. */
  datatype KeyContext = KeyContext(codec: Codec, glob: Matcher, fs: Files, digest: Digest)

  /** The key of a stage under a context. */
  function KeyOf(stage: Stage, base: string, envOrder: seq<(string, string)>, ctx: KeyContext): Result<string, ConflowError>
  {
    StageKey(stage, base, envOrder, ctx.codec, ctx.glob, ctx.fs, ctx.digest)
  }

  // ---------------------------------------------------------------------
  // Entry paths

  /** The directory part `Path::join` leaves before an appended relative
      path: the directory itself, with a separator unless it is empty or
      already ends with one. */
  function DirPrefix(dir: string): string {
    if dir == [] || dir[|dir| - 1] == '/' then dir else dir + "/"
  }

  /** `Path::join` of a relative path appends it after `DirPrefix`. */
  lemma JoinRelative(dir: string, p: string)
    requires !IsAbsolute(p)
    ensures JoinPath(dir, p) == DirPrefix(dir) + p
  {
  }

  /** The part of an entry path below the cache directory: the first two
      characters of the key, a separator, the rest of the key and ".json";
      an empty key leaves only ".json". */
  function EntryName(key: string): string {
    var cut := if |key| < 2 then |key| else 2;
    if key == [] then ".json" else key[..cut] + ("/" + (key[cut..] + ".json"))
  }

  /** A key that can be cut into path parts as it is: no separator. */
  predicate PlainKey(key: string) {
    forall i :: 0 <= i < |key| ==> key[i] != '/'
  }

  /** `cache_path`: the key split at `min(2, len)` into a directory and a
      file named after the rest. */
  function CachePath(cacheDir: string, key: string): string
  {
    var cut := if |key| < 2 then |key| else 2;
    JoinPath(JoinPath(cacheDir, key[..cut]), key[cut..] + ".json")
  }

  /** Joining a relative name, then another relative path below it. */
  lemma JoinTwice(dir: string, name: string, rest: string)
    requires name != [] && name[0] != '/' && name[|name| - 1] != '/' && !IsAbsolute(rest)
    ensures JoinPath(JoinPath(dir, name), rest) == DirPrefix(dir) + (name + ("/" + rest))
  {
    JoinRelative(dir, name);
    var sub := DirPrefix(dir) + name;
    assert sub[|sub| - 1] == name[|name| - 1];
    JoinRelative(sub, rest);
    Seqs.AppendAssoc(sub, "/", rest);
    Seqs.AppendAssoc(DirPrefix(dir), name, "/" + rest);
  }

  /** An entry path is the cache directory followed by the entry name. */
  lemma CachePathLayout(cacheDir: string, key: string)
    requires PlainKey(key)
    ensures CachePath(cacheDir, key) == DirPrefix(cacheDir) + EntryName(key)
  {
    var cut := if |key| < 2 then |key| else 2;
    var head, rest := key[..cut], key[cut..] + ".json";
    assert rest[|rest| - 5] == '.';
    if key == [] {
      JoinRelative(cacheDir, head);
      assert DirPrefix(cacheDir) + head == DirPrefix(cacheDir);
      JoinRelative(DirPrefix(cacheDir), rest);
    } else {
      assert head[0] == key[0] && head[|head| - 1] == key[cut - 1];
      JoinTwice(cacheDir, head, rest);
    }
  }

  /** Splitting at the first separator is unambiguous. */
  lemma SplitAtSeparator<T>(x1: seq<T>, y1: seq<T>, x2: seq<T>, y2: seq<T>, sep: T)
    requires sep !in x1 && sep !in x2
    requires x1 + [sep] + y1 == x2 + [sep] + y2
    ensures x1 == x2 && y1 == y2
  {
    var w := x1 + [sep] + y1;
    assert w[|x1|] == sep && w[|x2|] == sep;
    assert forall i :: 0 <= i < |x1| ==> w[i] == x1[i] != sep;
    assert forall i :: 0 <= i < |x2| ==> w[i] == x2[i] != sep;
    assert |x1| == |x2|;
    assert x1 == w[..|x1|] == x2;
    assert y1 == w[|x1| + 1..] == y2;
  }

  /** An entry name holds a separator exactly when the key is not empty. */
  lemma EntryNameSeparator(key: string)
    requires PlainKey(key)
    ensures '/' in EntryName(key) <==> key != []
  {
    var cut := if |key| < 2 then |key| else 2;
    if key == [] {
      assert EntryName(key) == ".json";
    } else {
      assert EntryName(key)[cut] == '/';
    }
  }

  /** Distinct non-empty keys have distinct entry names. */
  lemma EntryNameInjective(k: string, l: string)
    requires PlainKey(k) && PlainKey(l) && k != [] && l != []
    requires EntryName(k) == EntryName(l)
    ensures k == l
  {
    var cutK := if |k| < 2 then |k| else 2;
    var cutL := if |l| < 2 then |l| else 2;
    var x1, y1, x2, y2 := k[..cutK], k[cutK..], l[..cutL], l[cutL..];
    assert EntryName(k) == x1 + ['/'] + (y1 + ".json");
    assert EntryName(l) == x2 + ['/'] + (y2 + ".json");
    SplitAtSeparator(x1, y1 + ".json", x2, y2 + ".json", '/');
    assert y1 == (y1 + ".json")[..|y1|] == (y2 + ".json")[..|y2|] == y2;
    assert k == x1 + y1 && l == x2 + y2;
  }

  /** Distinct keys name distinct entry files. */
  lemma CachePathInjective(cacheDir: string, k: string, l: string)
    requires PlainKey(k) && PlainKey(l)
    requires CachePath(cacheDir, k) == CachePath(cacheDir, l)
    ensures k == l
  {
    CachePathLayout(cacheDir, k);
    CachePathLayout(cacheDir, l);
    var d := DirPrefix(cacheDir);
    var a, b := EntryName(k), EntryName(l);
    assert a == (d + a)[|d|..] == (d + b)[|d|..] == b;
    EntryNameSeparator(k);
    EntryNameSeparator(l);
    if k != [] {
      EntryNameInjective(k, l);
    }
  }

  // ---------------------------------------------------------------------
  // Lookups

  /** Every recorded output still exists. */
  predicate OutputsExist(outputs: seq<string>, fs: Files) {
    forall i :: 0 <= i < |outputs| ==> outputs[i] in fs
  }

  /** What `get` returns for the entry at `path`: nothing without an
      entry or when an output has vanished, otherwise the stored result
      as a cache hit. */
  function Found(entries: map<string, CachedEntry>, path: string, fs: Files): (r: Option<ExecutionResult>)
    ensures r.Some? <==> path in entries && OutputsExist(entries[path].result.outputs, fs)
    ensures r.Some? ==>
      && r.value.cacheHit && r.value.stdout == entries[path].result.stdout
      && r.value.success == entries[path].result.success && r.value.outputs == entries[path].result.outputs
  {
    if path in entries && OutputsExist(entries[path].result.outputs, fs) then Some(ToExecution(entries[path].result))
    else None
  }

  /** The entries `get` leaves: a stale entry is deleted, nothing else
      changes. */
  function AfterGet(entries: map<string, CachedEntry>, path: string, fs: Files): (m: map<string, CachedEntry>)
    ensures m.Keys <= entries.Keys
    ensures forall p :: p in m ==> m[p] == entries[p]
    ensures forall p :: p in entries && p != path ==> p in m
    ensures path in m <==> path in entries && OutputsExist(entries[path].result.outputs, fs)
  {
    if path in entries && !OutputsExist(entries[path].result.outputs, fs) then entries - {path} else entries
  }

  /** The entry `store` writes. */
  function NewEntry(stage: Stage, key: string, result: ExecutionResult, now: int): (e: CachedEntry)
    ensures e.timestamp == now && e.stageName == stage.name && e.cacheKey == key
    ensures e.result == FromExecution(result)
  {
    CachedEntry(now, stage.name, key, FromExecution(result))
  }

  /** A stored result is found again, as a cache hit with the same output,
      as long as its outputs exist; whatever was stored before under the
      same path is overwritten. */
  lemma FoundAfterStore(entries: map<string, CachedEntry>, path: string, stage: Stage, key: string,
                        result: ExecutionResult, now: int, fs: Files)
    requires OutputsExist(result.outputs, fs)
    ensures var e := NewEntry(stage, key, result, now);
      Found(entries[path := e], path, fs)
        == Some(result.(duration := result.duration - result.duration % NanosPerMilli, cacheHit := true))
  {
    ExecutionRoundTrip(result);
  }

  /** Removing an entry makes it unfindable and leaves the others as they
      were. */
  lemma FoundAfterRemove(entries: map<string, CachedEntry>, path: string, other: string, fs: Files)
    requires other != path
    ensures Found(entries - {path}, path, fs) == None
    ensures Found(entries - {path}, other, fs) == Found(entries, other, fs)
  {
  }

  /** The timestamps of the entries. */
  function Timestamps(entries: map<string, CachedEntry>): set<int>
  {
    set p | p in entries :: entries[p].timestamp
  }

  // ---------------------------------------------------------------------
  // The cache

  /** `FilesystemCache`: the entry files under `cacheDir`, by path. */
  class FilesystemCache {
    const cacheDir: string
    const baseDir: string
    var entries: map<string, CachedEntry>

    /** `FilesystemCache::new`: opens (or creates) the cache directory;
        entries already in it are kept. */
    constructor(cacheDir: string, baseDir: string, onDisk: map<string, CachedEntry>)
      ensures this.cacheDir == cacheDir && this.baseDir == baseDir && entries == onDisk
    {
      this.cacheDir := cacheDir;
      this.baseDir := baseDir;
      entries := onDisk;
    }

    /** `cache_key`: a fresh hasher over the stage. */
    method CacheKey(stage: Stage, envOrder: seq<(string, string)>, ctx: KeyContext) returns (r: Result<string, ConflowError>)
      requires IsEnumeration(envOrder, stage.env)
      ensures r == KeyOf(stage, baseDir, envOrder, ctx)
    {
      var hasher := new ContentHasher();
      r := hasher.HashStageCanonical(stage, baseDir, envOrder, ctx.codec, ctx.glob, ctx.fs, ctx.digest);
      var feed := StageFeed(stage, baseDir, SortBy(envOrder, KeyLess), ctx.codec, ctx.glob, ctx.fs);
      if feed.Ok? {
        assert hasher.fed == feed.value;
      }
    }

    /** `get`: the stored result of the stage as a cache hit, or nothing;
        an entry whose outputs have vanished is deleted. A key that cannot
        be computed is an error and changes nothing. */
    method Get(stage: Stage, envOrder: seq<(string, string)>, ctx: KeyContext) returns (r: Result<Option<ExecutionResult>, ConflowError>)
      requires IsEnumeration(envOrder, stage.env)
      requires PlainKeys(ctx.digest)
      modifies this
      ensures KeyOf(stage, baseDir, envOrder, ctx).Err? ==>
        r == Err(KeyOf(stage, baseDir, envOrder, ctx).error) && entries == old(entries)
      ensures KeyOf(stage, baseDir, envOrder, ctx).Ok? ==>
        var path := CachePath(cacheDir, KeyOf(stage, baseDir, envOrder, ctx).value);
        && r == Ok(Found(old(entries), path, ctx.fs))
        && entries == AfterGet(old(entries), path, ctx.fs)
    {
      var key := CacheKey(stage, envOrder, ctx);
      if key.Err? {
        return Err(key.error);
      }
      var path := CachePath(cacheDir, key.value);
      if path !in entries {
        return Ok(None);
      }
      var entry := entries[path];
      var present := OutputsPresent(entry.result.outputs, ctx.fs);
      if !present {
        entries := entries - {path};
        return Ok(None);
      }
      var result := ToExecution(entry.result);
      result := result.(cacheHit := true);
      return Ok(Some(result));
    }

    /** `store`: writes the entry for the stage's key, stamped `now`,
        replacing any earlier one. */
    method Store(stage: Stage, envOrder: seq<(string, string)>, ctx: KeyContext, result: ExecutionResult, now: int)
      returns (r: Result<(), ConflowError>)
      requires IsEnumeration(envOrder, stage.env)
      requires PlainKeys(ctx.digest)
      modifies this
      ensures KeyOf(stage, baseDir, envOrder, ctx).Err? ==>
        r == Err(KeyOf(stage, baseDir, envOrder, ctx).error) && entries == old(entries)
      ensures KeyOf(stage, baseDir, envOrder, ctx).Ok? ==>
        var key := KeyOf(stage, baseDir, envOrder, ctx).value;
        r == Ok(()) && entries == old(entries)[CachePath(cacheDir, key) := NewEntry(stage, key, result, now)]
    {
      var key := CacheKey(stage, envOrder, ctx);
      if key.Err? {
        return Err(key.error);
      }
      var path := CachePath(cacheDir, key.value);
      var entry := CachedEntry(now, stage.name, key.value, FromExecution(result));
      entries := entries[path := entry];
      return Ok(());
    }

    /** `invalidate`: removes the entry of the stage's key, if any. */
    method Invalidate(stage: Stage, envOrder: seq<(string, string)>, ctx: KeyContext) returns (r: Result<(), ConflowError>)
      requires IsEnumeration(envOrder, stage.env)
      requires PlainKeys(ctx.digest)
      modifies this
      ensures KeyOf(stage, baseDir, envOrder, ctx).Err? ==>
        r == Err(KeyOf(stage, baseDir, envOrder, ctx).error) && entries == old(entries)
      ensures KeyOf(stage, baseDir, envOrder, ctx).Ok? ==>
        r == Ok(()) && entries == old(entries) - {CachePath(cacheDir, KeyOf(stage, baseDir, envOrder, ctx).value)}
    {
      var key := CacheKey(stage, envOrder, ctx);
      if key.Err? {
        return Err(key.error);
      }
      var path := CachePath(cacheDir, key.value);
      if path in entries {
        entries := entries - {path};
      }
      return Ok(());
    }

    /** `clear`: removes the cache directory and creates it again empty. */
    method Clear()
      modifies this
      ensures entries == map[]
    {
      entries := map[];
    }

    /** `stats`: the number of entries, the size of the directory (given:
        the size of its files is not modelled), and the earliest and latest
        entry timestamps, found by visiting the entries in any order. */
    method Stats(sizeBytes: nat) returns (stats: CacheStats)
      ensures stats.entries == |entries| && stats.sizeBytes == sizeBytes
      ensures stats.oldestEntry.None? <==> entries == map[]
      ensures stats.newestEntry.None? <==> entries == map[]
      ensures stats.oldestEntry.Some? ==> stats.oldestEntry.value in Timestamps(entries)
      ensures stats.newestEntry.Some? ==> stats.newestEntry.value in Timestamps(entries)
      ensures forall p :: p in entries ==>
        stats.oldestEntry.value <= entries[p].timestamp <= stats.newestEntry.value
    {
      var oldest: Option<int> := None;
      var newest: Option<int> := None;
      var left := entries.Keys;
      while left != {}
        invariant left <= entries.Keys
        invariant oldest.None? <==> left == entries.Keys
        invariant newest.None? <==> left == entries.Keys
        invariant oldest.Some? ==> oldest.value in Timestamps(entries)
        invariant newest.Some? ==> newest.value in Timestamps(entries)
        invariant forall p :: p in entries && p !in left ==>
          oldest.value <= entries[p].timestamp <= newest.value
        decreases |left|
      {
        var p :| p in left;
        var t := entries[p].timestamp;
        if oldest.None? || t < oldest.value {
          oldest := Some(t);
        }
        if newest.None? || t > newest.value {
          newest := Some(t);
        }
        left := left - {p};
      }
      if entries == map[] {
        assert entries.Keys == {};
      }
      stats := CacheStats(|entries|, sizeBytes, oldest, newest);
    }
  }

  /** The loop of `get` over the recorded outputs: whether every one of
      them still exists. */
  method OutputsPresent(outputs: seq<string>, fs: Files) returns (present: bool)
    ensures present <==> OutputsExist(outputs, fs)
  {
    var i := 0;
    while i < |outputs|
      invariant 0 <= i <= |outputs|
      invariant forall j :: 0 <= j < i ==> outputs[j] in fs
    {
      if outputs[i] !in fs {
        return false;
      }
      i := i + 1;
    }
    return true;
  }

  /** The digest renders keys without separators (hex text). */
  ghost predicate PlainKeys(digest: Digest) {
    forall bytes :: PlainKey(digest(bytes))
  }

  /** The default cache lives in ".conflow/cache" below the base
      directory. */
  function DefaultCacheDir(base: string): (dir: string)
    ensures base != [] && base[|base| - 1] != '/' ==> dir == base + "/.conflow/cache"
  {
    JoinPath(JoinPath(base, ".conflow"), "cache")
  }
}
