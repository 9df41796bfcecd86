/** Cache keys (src/cache/hash.rs). A `ContentHasher` absorbs bytes and
    finally digests everything it absorbed; BLAKE3 itself is an oracle
    `Digest` from the absorbed bytes to the hex text of the hash, so two
    hashers that absorbed the same bytes give the same key. The key of a
    stage is the digest of its name, the JSON of its tool, input and
    output, its environment, and the contents of its input files in path
    order. serde_json is an oracle `Codec`, the glob library a `Matcher`,
    and the filesystem a map from each existing path to its bytes or the
    message of a read error. */
module CacheHash {
  import opened Wrappers
  import opened Strings
  import opened Errors
  import opened Definition
  import opened Executors
  import opened Ordering
  import opened PathOrder
  import Seqs

  newtype byte = b: int | 0 <= b < 256

  /** The UTF-8 encoding of one Unicode scalar value: the code point cut
      into 6-bit groups below a lead byte that announces the length. */
  function Utf8Char(c: char): (bs: seq<byte>)
    ensures 1 <= |bs| <= 4
    ensures |bs| == 1 <==> (c as int) < 0x80
  {
    var n := c as int;
    var q1 := n / 64;
    var q2 := q1 / 64;
    var q3 := q2 / 64;
    if n < 0x80 then [n as byte]
    else if n < 0x800 then [(0xC0 + q1) as byte, (0x80 + n % 64) as byte]
    else if n < 0x10000 then
      [(0xE0 + q2) as byte, (0x80 + q1 % 64) as byte, (0x80 + n % 64) as byte]
    else
      [(0xF0 + q3) as byte, (0x80 + q2 % 64) as byte, (0x80 + q1 % 64) as byte, (0x80 + n % 64) as byte]
  }

  /** Reading a code point back from its encoding. */
  function Utf8Decode(bs: seq<byte>): int
    requires 1 <= |bs| <= 4
  {
    var b := seq(|bs|, i requires 0 <= i < |bs| => bs[i] as int);
    if |bs| == 1 then b[0]
    else if |bs| == 2 then (b[0] - 0xC0) * 64 + (b[1] - 0x80)
    else if |bs| == 3 then ((b[0] - 0xE0) * 64 + (b[1] - 0x80)) * 64 + (b[2] - 0x80)
    else (((b[0] - 0xF0) * 64 + (b[1] - 0x80)) * 64 + (b[2] - 0x80)) * 64 + (b[3] - 0x80)
  }

  /** `str::as_bytes`: the UTF-8 encoding of a string. */
  function Utf8(s: string): (bs: seq<byte>)
    ensures |s| <= |bs| <= 4 * |s|
  {
    if s == [] then [] else Utf8Char(s[0]) + Utf8(s[1..])
  }

  /** Encoding distributes over concatenation. */
  lemma {:induction false} Utf8Append(a: string, b: string)
    ensures Utf8(a + b) == Utf8(a) + Utf8(b)
    decreases |a|
  {
    if a == [] {
      assert a + b == b;
    } else {
      assert (a + b)[0] == a[0] && (a + b)[1..] == a[1..] + b;
      Utf8Append(a[1..], b);
      Seqs.AppendAssoc(Utf8Char(a[0]), Utf8(a[1..]), Utf8(b));
    }
  }

  /** `str::len` counts the bytes `as_bytes` gives. */
  lemma {:induction false} Utf8Length(s: string)
    ensures |Utf8(s)| == ByteLen(s)
    decreases |s|
  {
    if s != [] {
      Utf8Length(s[1..]);
    }
  }

  /** The hash function: the hex digest of everything absorbed. */
  type Digest = seq<byte> -> string

  /** serde_json's rendering of the three parts of a stage, or its error. */
  datatype Codec = Codec(
    tool: Tool -> Result<string, string>,
    input: Input -> Result<string, string>,
    output: Output -> Result<string, string>)

  /** The filesystem: the bytes, or the read error, of every existing path. */
  type Files = map<string, Result<seq<byte>, string>>

  /** What `std::fs::read` reports for a path that does not exist. */
  const NotFoundMessage := "No such file or directory (os error 2)"

  /** A rendered part as bytes, or the `CacheError` naming which part
      could not be rendered. */
  function Serialized(r: Result<string, string>, part: string): (b: Result<seq<byte>, ConflowError>)
    ensures r.Ok? ==> b == Ok(Utf8(r.value))
    ensures r.Err? ==> b == Err(CacheError("Failed to serialize " + part + " config: " + r.error))
  {
    match r
    case Ok(json) => Ok(Utf8(json))
    case Err(e) => Err(CacheError("Failed to serialize " + part + " config: " + e))
  }

  // ---------------------------------------------------------------------
  // The environment

  /** `pairs` lists every entry of the map exactly once: an iteration
      order of a `HashMap` with these entries. */
  ghost predicate IsEnumeration(pairs: seq<(string, string)>, env: map<string, string>) {
    multiset(pairs) == multiset(env.Items)
  }

  /** The first `n` variables of the iteration, as fed: each name's bytes,
      then its value's. */
  function EnvPrefix(pairs: seq<(string, string)>, n: nat): seq<byte>
    requires n <= |pairs|
  {
    if n == 0 then [] else EnvPrefix(pairs, n - 1) + (Utf8(pairs[n - 1].0) + Utf8(pairs[n - 1].1))
  }

  /** The environment as fed, in the given iteration order. */
  function EnvFeed(pairs: seq<(string, string)>): seq<byte>
  {
    EnvPrefix(pairs, |pairs|)
  }

  /** Everything fed before the input files: the name, the tool, input and
      output JSON (the output only when declared), and the environment. */
  function ConfigFeed(stage: Stage, envOrder: seq<(string, string)>, codec: Codec): (r: Result<seq<byte>, ConflowError>)
    ensures codec.tool(stage.tool).Err? ==> r == Err(Serialized(codec.tool(stage.tool), "tool").error)
  {
    var tool :- Serialized(codec.tool(stage.tool), "tool");
    var input :- Serialized(codec.input(stage.input), "input");
    var output :- if stage.output.Some? then Serialized(codec.output(stage.output.value), "output") else Ok([]);
    Ok(Utf8(stage.name) + tool + input + output + EnvFeed(envOrder))
  }

  // ---------------------------------------------------------------------
  // Input files

  /** `collect_input_files` over the first `n` patterns: the first pattern
      error, or all readable matches in pattern order. Unlike
      `resolve_globs`, a pattern matching nothing is no error. */
  function MatchedPrefix(patterns: seq<string>, n: nat, base: string, glob: Matcher): (r: Result<seq<string>, ConflowError>)
    requires n <= |patterns|
  {
    if n == 0 then Ok([])
    else
      match MatchedPrefix(patterns, n - 1, base, glob)
      case Err(e) => Err(e)
      case Ok(files) =>
        match glob(FullPattern(patterns[n - 1], base))
        case Err(m) => Err(GlobPattern(m))
        case Ok(ms) => Ok(files + ms)
  }

  /** The input files of a stage: none without patterns (in particular for
      a `from_stage` input), otherwise the matches sorted by path. */
  function InputFiles(stage: Stage, base: string, glob: Matcher): (r: Result<seq<string>, ConflowError>)
  {
    var patterns := stage.input.Patterns();
    if patterns == [] then Ok([])
    else
      match MatchedPrefix(patterns, |patterns|, base, glob)
      case Err(e) => Err(e)
      case Ok(files) => Ok(SortBy(files, PathLess))
  }

  /** What `hash_file` feeds for one path: nothing for a missing file, its
      bytes otherwise, or a `FileReadError`. */
  function FileBytes(path: string, fs: Files): (r: Result<seq<byte>, ConflowError>)
    ensures path !in fs ==> r == Ok([])
    ensures path in fs && fs[path].Ok? ==> r == Ok(fs[path].value)
    ensures path in fs && fs[path].Err? ==> r == Err(FileReadError(path, fs[path].error))
  {
    if path !in fs then Ok([])
    else match fs[path]
      case Ok(bytes) => Ok(bytes)
      case Err(e) => Err(FileReadError(path, e))
  }

  /** The contents of the first `n` files, concatenated, or the first
      read error. */
  function FilesFeed(files: seq<string>, n: nat, fs: Files): (r: Result<seq<byte>, ConflowError>)
    requires n <= |files|
  {
    if n == 0 then Ok([])
    else
      match FilesFeed(files, n - 1, fs)
      case Err(e) => Err(e)
      case Ok(bytes) =>
        match FileBytes(files[n - 1], fs)
        case Err(e) => Err(e)
        case Ok(more) => Ok(bytes + more)
  }

  /** Everything `hash_stage` feeds, or the first error it meets. */
  function StageFeed(stage: Stage, base: string, envOrder: seq<(string, string)>, codec: Codec, glob: Matcher, fs: Files): (r: Result<seq<byte>, ConflowError>)
  {
    var config :- ConfigFeed(stage, envOrder, codec);
    var files :- InputFiles(stage, base, glob);
    var contents :- FilesFeed(files, |files|, fs);
    Ok(config + contents)
  }

  // ---------------------------------------------------------------------
  // The hasher

  /** `ContentHasher`: `fed` is everything absorbed so far. */
  class ContentHasher {
    var fed: seq<byte>

    /** `ContentHasher::new`. */
    constructor()
      ensures fed == []
    {
      fed := [];
    }

    /** `update`. */
    method Update(data: seq<byte>)
      modifies this
      ensures fed == old(fed) + data
    {
      fed := fed + data;
    }

    /** `hash_file`: absorbs the bytes of an existing file; a missing file
        is skipped, and a read error absorbs nothing. */
    method HashFile(path: string, fs: Files) returns (r: Result<(), ConflowError>)
      modifies this
      ensures r.Ok? <==> FileBytes(path, fs).Ok?
      ensures r.Ok? ==> fed == old(fed) + FileBytes(path, fs).value
      ensures r.Err? ==> r.error == FileBytes(path, fs).error && fed == old(fed)
    {
      if path !in fs {
        assert fed == old(fed) + [];
        return Ok(());
      }
      var content := fs[path];
      if content.Err? {
        return Err(FileReadError(path, content.error));
      }
      Update(content.value);
      return Ok(());
    }

    /** `collect_input_files`: every readable match of every pattern, then
        sorted. */
    method CollectInputFiles(stage: Stage, base: string, glob: Matcher) returns (r: Result<seq<string>, ConflowError>)
      ensures r == InputFiles(stage, base, glob)
    {
      var patterns := stage.input.Patterns();
      if patterns == [] {
        return Ok([]);
      }
      var files: seq<string> := [];
      var i := 0;
      while i < |patterns|
        invariant 0 <= i <= |patterns|
        invariant MatchedPrefix(patterns, i, base, glob) == Ok(files)
      {
        var full := if IsAbsolute(patterns[i]) then patterns[i] else JoinPath(base, patterns[i]);
        var matches := glob(full);
        if matches.Err? {
          MatchedPrefixErrStays(patterns, i + 1, |patterns|, base, glob);
          return Err(GlobPattern(matches.error));
        }
        files := Seqs.AppendEach(files, matches.value);
        i := i + 1;
      }
      files := SortBy(files, PathLess);
      return Ok(files);
    }

    /** The environment loop of `hash_stage`: each variable's name, then
        its value, in the given order. */
    method FeedEnv(pairs: seq<(string, string)>)
      modifies this
      ensures fed == old(fed) + EnvFeed(pairs)
    {
      var i := 0;
      while i < |pairs|
        invariant 0 <= i <= |pairs|
        invariant fed == old(fed) + EnvPrefix(pairs, i)
      {
        var (k, v) := pairs[i];
        var name, value := Utf8(k), Utf8(v);
        Seqs.AppendAssoc(old(fed), EnvPrefix(pairs, i), name + value);
        Seqs.AppendAssoc(fed, name, value);
        Update(name);
        Update(value);
        i := i + 1;
      }
    }

    /** The part of `hash_stage` before the input files: the name, then
        the tool, input and output JSON, then the environment; a part that
        cannot be rendered stops it with a `CacheError`. */
    method FeedConfig(stage: Stage, envOrder: seq<(string, string)>, codec: Codec) returns (r: Result<(), ConflowError>)
      modifies this
      ensures r.Ok? <==> ConfigFeed(stage, envOrder, codec).Ok?
      ensures r.Ok? ==> fed == old(fed) + ConfigFeed(stage, envOrder, codec).value
      ensures r.Err? ==> r.error == ConfigFeed(stage, envOrder, codec).error
    {
      Update(Utf8(stage.name));
      var tool := Serialized(codec.tool(stage.tool), "tool");
      if tool.Err? {
        return Err(tool.error);
      }
      Update(tool.value);
      var input := Serialized(codec.input(stage.input), "input");
      if input.Err? {
        return Err(input.error);
      }
      Update(input.value);
      var output: seq<byte> := [];
      if stage.output.Some? {
        var o := Serialized(codec.output(stage.output.value), "output");
        if o.Err? {
          return Err(o.error);
        }
        output := o.value;
        Update(output);
      }
      ghost var before := fed;
      FeedEnv(envOrder);
      ConfigFeedLayout(stage, envOrder, codec, tool.value, input.value, output);
      ConcatFive(old(fed), Utf8(stage.name), tool.value, input.value, output, EnvFeed(envOrder));
      return Ok(());
    }

    /** The file loop of `hash_stage`: the contents of each file in turn,
        stopping at the first read error. */
    method FeedFiles(files: seq<string>, fs: Files) returns (r: Result<(), ConflowError>)
      modifies this
      ensures r.Ok? <==> FilesFeed(files, |files|, fs).Ok?
      ensures r.Ok? ==> fed == old(fed) + FilesFeed(files, |files|, fs).value
      ensures r.Err? ==> r.error == FilesFeed(files, |files|, fs).error
    {
      var contents: seq<byte> := [];
      var j := 0;
      while j < |files|
        invariant 0 <= j <= |files|
        invariant FilesFeed(files, j, fs) == Ok(contents)
        invariant fed == old(fed) + contents
      {
        var hashed := HashFile(files[j], fs);
        if hashed.Err? {
          FilesFeedErrStays(files, j + 1, |files|, fs);
          return Err(hashed.error);
        }
        Seqs.AppendAssoc(old(fed), contents, FileBytes(files[j], fs).value);
        contents := contents + FileBytes(files[j], fs).value;
        j := j + 1;
      }
      return Ok(());
    }

    /** `hash_stage` with the environment visited in `envOrder`, the order
        the source's `HashMap` happens to yield: the digest of everything
        absorbed before and during the call. */
    method HashStage(stage: Stage, base: string, envOrder: seq<(string, string)>, codec: Codec, glob: Matcher, fs: Files, digest: Digest)
      returns (r: Result<string, ConflowError>)
      requires IsEnumeration(envOrder, stage.env)
      modifies this
      ensures StageFeed(stage, base, envOrder, codec, glob, fs).Ok? ==>
        fed == old(fed) + StageFeed(stage, base, envOrder, codec, glob, fs).value && r == Ok(digest(fed))
      ensures StageFeed(stage, base, envOrder, codec, glob, fs).Err? ==>
        r == Err(StageFeed(stage, base, envOrder, codec, glob, fs).error)
    {
      var config := FeedConfig(stage, envOrder, codec);
      if config.Err? {
        return Err(config.error);
      }
      var files := CollectInputFiles(stage, base, glob);
      if files.Err? {
        return Err(files.error);
      }
      var contents := FeedFiles(files.value, fs);
      if contents.Err? {
        return Err(contents.error);
      }
      Seqs.AppendAssoc(old(fed), ConfigFeed(stage, envOrder, codec).value, FilesFeed(files.value, |files.value|, fs).value);
      var h := Finalize(digest);
      return Ok(h);
    }

    /** `hash_stage` with the environment fed in name order, so that the
        key is the same whatever order the map yields its entries in. */
    method HashStageCanonical(stage: Stage, base: string, envOrder: seq<(string, string)>, codec: Codec, glob: Matcher, fs: Files, digest: Digest)
      returns (r: Result<string, ConflowError>)
      requires IsEnumeration(envOrder, stage.env)
      modifies this
      ensures var feed := StageFeed(stage, base, SortBy(envOrder, KeyLess), codec, glob, fs);
        && (feed.Ok? ==> fed == old(fed) + feed.value && r == Ok(digest(fed)))
        && (feed.Err? ==> r == Err(feed.error))
    {
      var sorted := SortBy(envOrder, KeyLess);
      SortedEnvOrderFree(envOrder, envOrder, stage.env);
      r := HashStage(stage, base, sorted, codec, glob, fs, digest);
    }

    /** `finalize`: the digest of everything absorbed. */
    method Finalize(digest: Digest) returns (h: string)
      ensures h == digest(fed)
    {
      h := digest(fed);
    }
  }

  /** The bytes fed before the input files, in `hash_stage`'s order. */
  lemma ConfigFeedLayout(stage: Stage, envOrder: seq<(string, string)>, codec: Codec,
                         tool: seq<byte>, input: seq<byte>, output: seq<byte>)
    requires Serialized(codec.tool(stage.tool), "tool") == Ok(tool)
    requires Serialized(codec.input(stage.input), "input") == Ok(input)
    requires stage.output.None? ==> output == []
    requires stage.output.Some? ==> Serialized(codec.output(stage.output.value), "output") == Ok(output)
    ensures ConfigFeed(stage, envOrder, codec)
      == Ok(Utf8(stage.name) + tool + input + output + EnvFeed(envOrder))
  {
  }

  lemma ConcatFive<T>(f: seq<T>, a: seq<T>, b: seq<T>, c: seq<T>, d: seq<T>, e: seq<T>)
    ensures f + a + b + c + d + e == f + (a + b + c + d + e)
  {
  }

  lemma {:induction false} MatchedPrefixErrStays(patterns: seq<string>, k: nat, n: nat, base: string, glob: Matcher)
    requires k <= n <= |patterns| && MatchedPrefix(patterns, k, base, glob).Err?
    ensures MatchedPrefix(patterns, n, base, glob) == MatchedPrefix(patterns, k, base, glob)
    decreases n
  {
    if k < n {
      MatchedPrefixErrStays(patterns, k, n - 1, base, glob);
    }
  }

  lemma {:induction false} FilesFeedErrStays(files: seq<string>, k: nat, n: nat, fs: Files)
    requires k <= n <= |files| && FilesFeed(files, k, fs).Err?
    ensures FilesFeed(files, n, fs) == FilesFeed(files, k, fs)
    decreases n
  {
    if k < n {
      FilesFeedErrStays(files, k, n - 1, fs);
    }
  }

  // ---------------------------------------------------------------------
  // What the feed is made of

  /** Pattern collection succeeds exactly when every pattern is valid, and
      then yields every match of every pattern, in pattern order; an empty
      match is no error. */
  lemma {:induction false} MatchedPrefixOk(patterns: seq<string>, n: nat, base: string, glob: Matcher)
    requires n <= |patterns|
    ensures MatchedPrefix(patterns, n, base, glob).Ok? <==>
      forall k :: 0 <= k < n ==> glob(FullPattern(patterns[k], base)).Ok?
    ensures MatchedPrefix(patterns, n, base, glob).Ok? ==>
      MatchedPrefix(patterns, n, base, glob).value == Seqs.Gather(patterns, n, MatchesOf(base, glob))
    ensures MatchedPrefix(patterns, n, base, glob).Err? ==> MatchedPrefix(patterns, n, base, glob).error.GlobPattern?
  {
    if n > 0 {
      MatchedPrefixOk(patterns, n - 1, base, glob);
    }
  }

  /** The input files are the matches sorted by path: sorted, and a
      permutation of what the patterns matched. */
  lemma InputFilesSorted(stage: Stage, base: string, glob: Matcher)
    requires stage.input.Patterns() != []
    requires MatchedPrefix(stage.input.Patterns(), |stage.input.Patterns()|, base, glob).Ok?
    ensures InputFiles(stage, base, glob).Ok?
    ensures SortedBy(InputFiles(stage, base, glob).value, PathLess)
    ensures multiset(InputFiles(stage, base, glob).value)
      == multiset(MatchedPrefix(stage.input.Patterns(), |stage.input.Patterns()|, base, glob).value)
  {
    PathLessStrictOrder();
    var ps := stage.input.Patterns();
    SortBySorted(MatchedPrefix(ps, |ps|, base, glob).value, PathLess);
  }

  /** Whatever order the matcher yields its matches in, the stage sees the
      same file list, provided no two matches spell the same components. */
  lemma InputFilesOrderFree(stage: Stage, base: string, glob: Matcher, glob': Matcher)
    requires stage.input.Patterns() != []
    requires MatchedPrefix(stage.input.Patterns(), |stage.input.Patterns()|, base, glob).Ok?
    requires MatchedPrefix(stage.input.Patterns(), |stage.input.Patterns()|, base, glob').Ok?
    requires multiset(MatchedPrefix(stage.input.Patterns(), |stage.input.Patterns()|, base, glob).value)
      == multiset(MatchedPrefix(stage.input.Patterns(), |stage.input.Patterns()|, base, glob').value)
    requires DistinctComponents(MatchedPrefix(stage.input.Patterns(), |stage.input.Patterns()|, base, glob).value)
    ensures InputFiles(stage, base, glob) == InputFiles(stage, base, glob')
  {
    var ps := stage.input.Patterns();
    var files := MatchedPrefix(ps, |ps|, base, glob).value;
    PathLessStrictOrder();
    PathLessTotalOn(files);
    SortIgnoresOrder(files, MatchedPrefix(ps, |ps|, base, glob').value, PathLess);
  }

  /** The bytes a file contributes: its contents, or nothing when it is
      missing or unreadable. */
  function ContentOf(fs: Files): string -> seq<byte>
  {
    p => if p in fs && fs[p].Ok? then fs[p].value else []
  }

  /** An existing path whose contents cannot be read. */
  predicate Unreadable(path: string, fs: Files) {
    path in fs && fs[path].Err?
  }

  /** The file loop succeeds exactly when no file is unreadable, and then
      feeds the contents of the files in order: a missing file adds
      nothing, and no path is fed. Otherwise it reports the first
      unreadable file. */
  lemma {:induction false} FilesFeedOk(files: seq<string>, n: nat, fs: Files)
    requires n <= |files|
    ensures FilesFeed(files, n, fs).Ok? <==> forall i :: 0 <= i < n ==> !Unreadable(files[i], fs)
    ensures FilesFeed(files, n, fs).Ok? ==> FilesFeed(files, n, fs).value == Seqs.Gather(files, n, ContentOf(fs))
    ensures FilesFeed(files, n, fs).Err? ==>
      exists i :: 0 <= i < n && Unreadable(files[i], fs) && (forall j :: 0 <= j < i ==> !Unreadable(files[j], fs))
        && FilesFeed(files, n, fs).error == FileReadError(files[i], fs[files[i]].error)
  {
    if n > 0 {
      FilesFeedOk(files, n - 1, fs);
      if FilesFeed(files, n - 1, fs).Ok? && Unreadable(files[n - 1], fs) {
        assert FilesFeed(files, n, fs).error == FileReadError(files[n - 1], fs[files[n - 1]].error);
      }
    }
  }

  /** Files are hashed by contents only: two readable file lists whose
      files hold the same bytes, position by position, feed the same
      bytes whatever the paths. */
  lemma {:induction false} FilesFeedIgnoresPaths(files: seq<string>, fs: Files, files': seq<string>, fs': Files, n: nat)
    requires n <= |files| && n <= |files'|
    requires forall i :: 0 <= i < n ==> !Unreadable(files[i], fs) && !Unreadable(files'[i], fs')
    requires forall i :: 0 <= i < n ==> ContentOf(fs)(files[i]) == ContentOf(fs')(files'[i])
    ensures FilesFeed(files, n, fs) == FilesFeed(files', n, fs')
  {
    if n > 0 {
      FilesFeedIgnoresPaths(files, fs, files', fs', n - 1);
    }
  }

  /** A `from_stage` input names no files, so only the configuration and
      the environment are fed: no upstream output reaches the key. */
  lemma FromStageHashesNoFiles(stage: Stage, base: string, envOrder: seq<(string, string)>, codec: Codec, glob: Matcher, fs: Files)
    requires stage.input.FromStage?
    ensures StageFeed(stage, base, envOrder, codec, glob, fs) == ConfigFeed(stage, envOrder, codec)
  {
    assert InputFiles(stage, base, glob) == Ok([]);
    if ConfigFeed(stage, envOrder, codec).Ok? {
      assert ConfigFeed(stage, envOrder, codec).value + [] == ConfigFeed(stage, envOrder, codec).value;
    }
  }

  // ---------------------------------------------------------------------
  // Strings and single files

  /** The first byte of a character's encoding tells how many bytes it
      has. */
  lemma Utf8CharLead(c: char)
    ensures var bs := Utf8Char(c);
      && (|bs| == 1 <==> bs[0] < 0x80)
      && (|bs| == 2 <==> 0xC0 <= bs[0] < 0xE0)
      && (|bs| == 3 <==> 0xE0 <= bs[0] < 0xF0)
      && (|bs| == 4 <==> 0xF0 <= bs[0])
  {
  }

  /** Decoding inverts the encoding of a character. */
  lemma Utf8CharDecodes(c: char)
    ensures Utf8Decode(Utf8Char(c)) == c as int
  {
    var n := c as int;
    var q1 := n / 64;
    var q2 := q1 / 64;
    var q3 := q2 / 64;
    assert n == q1 * 64 + n % 64;
    assert q1 == q2 * 64 + q1 % 64;
    assert q2 == q3 * 64 + q2 % 64;
  }

  /** Distinct characters have distinct encodings. */
  lemma Utf8CharInjective(a: char, b: char)
    requires Utf8Char(a) == Utf8Char(b)
    ensures a == b
  {
    Utf8CharDecodes(a);
    Utf8CharDecodes(b);
  }

  /** Distinct strings have distinct encodings, so `hash_string` hashes
      distinct byte sequences for distinct strings. */
  lemma {:induction false} Utf8Injective(s: string, t: string)
    requires Utf8(s) == Utf8(t)
    ensures s == t
    decreases |s|
  {
    if s != [] && t != [] {
      var a, b := Utf8Char(s[0]), Utf8Char(t[0]);
      assert Utf8(s) == a + Utf8(s[1..]) && Utf8(t) == b + Utf8(t[1..]);
      Utf8CharLead(s[0]);
      Utf8CharLead(t[0]);
      assert a[0] == Utf8(s)[0] == b[0];
      assert a == Utf8(s)[..|a|] && b == Utf8(t)[..|b|];
      Utf8CharInjective(s[0], t[0]);
      assert Utf8(s[1..]) == Utf8(s)[|a|..] == Utf8(t[1..]);
      Utf8Injective(s[1..], t[1..]);
      assert s == [s[0]] + s[1..] && t == [t[0]] + t[1..];
    }
  }

  /** `hash_string`: a fresh hasher fed the string's bytes. */
  method HashString(s: string, digest: Digest) returns (h: string)
    ensures h == digest(Utf8(s))
  {
    var hasher := new ContentHasher();
    hasher.Update(Utf8(s));
    assert hasher.fed == Utf8(s);
    h := hasher.Finalize(digest);
  }

  /** The standalone `hash_file`: a fresh hasher fed the file's bytes.
      Unlike `ContentHasher::hash_file`, a missing file is an error. */
  method HashFileAlone(path: string, fs: Files, digest: Digest) returns (r: Result<string, ConflowError>)
    ensures path !in fs ==> r == Err(FileReadError(path, NotFoundMessage))
    ensures path in fs && fs[path].Err? ==> r == Err(FileReadError(path, fs[path].error))
    ensures path in fs && fs[path].Ok? ==> r == Ok(digest(fs[path].value))
  {
    if path !in fs {
      return Err(FileReadError(path, NotFoundMessage));
    }
    var content := fs[path];
    if content.Err? {
      return Err(FileReadError(path, content.error));
    }
    var hasher := new ContentHasher();
    hasher.Update(content.value);
    assert hasher.fed == content.value;
    var h := hasher.Finalize(digest);
    return Ok(h);
  }

  // ---------------------------------------------------------------------
  // The environment's iteration order

  /** The environment comes last in the configuration feed: the feed is
      the one of an empty environment followed by the variables. */
  lemma ConfigFeedEnv(stage: Stage, envOrder: seq<(string, string)>, codec: Codec)
    ensures ConfigFeed(stage, envOrder, codec).Ok? == ConfigFeed(stage, [], codec).Ok?
    ensures ConfigFeed(stage, envOrder, codec).Ok? ==>
      ConfigFeed(stage, envOrder, codec).value == ConfigFeed(stage, [], codec).value + EnvFeed(envOrder)
  {
    assert EnvFeed([]) == [];
    if ConfigFeed(stage, envOrder, codec).Ok? {
      var head := ConfigFeed(stage, [], codec).value;
      assert head + [] == head;
    }
  }

  /** Two iteration orders of one environment feed different bytes: the
      key `hash_stage` computes depends on the order in which the
      `HashMap` happens to yield its entries. */
  lemma EnvOrderChangesFeed()
    ensures var env := map["A" := "1", "B" := "2"];
      var p, q := [("A", "1"), ("B", "2")], [("B", "2"), ("A", "1")];
      && IsEnumeration(p, env) && IsEnumeration(q, env)
      && |EnvFeed(p)| == |EnvFeed(q)| && EnvFeed(p) != EnvFeed(q)
  {
    var env := map["A" := "1", "B" := "2"];
    var p, q := [("A", "1"), ("B", "2")], [("B", "2"), ("A", "1")];
    var items := {("A", "1"), ("B", "2")};
    forall x | x in env.Items ensures x in items {
      if x.0 == "A" { assert x == ("A", "1"); } else { assert x == ("B", "2"); }
    }
    ItemsWithin(env, items);
    assert ("A", "1") in env.Items && ("B", "2") in env.Items;
    assert env.Items == items;
    assert multiset(p) == multiset{("A", "1"), ("B", "2")} == multiset(q);
    assert Utf8("A") == [65 as byte] && Utf8("B") == [66 as byte];
    assert EnvPrefix(p, 1) == [] + (Utf8("A") + Utf8("1"));
    assert EnvPrefix(q, 1) == [] + (Utf8("B") + Utf8("2"));
    assert EnvFeed(p)[0] == EnvPrefix(p, 1)[0] == 65 as byte;
    assert EnvFeed(q)[0] == EnvPrefix(q, 1)[0] == 66 as byte;
    assert |EnvFeed(p)| == |EnvPrefix(p, 1)| + |Utf8("B") + Utf8("2")|;
    assert |EnvFeed(q)| == |EnvPrefix(q, 1)| + |Utf8("A") + Utf8("1")|;
    assert |Utf8("1")| == 1 && |Utf8("2")| == 1;
  }

  lemma ItemsWithin(env: map<string, string>, items: set<(string, string)>)
    requires forall x | x in env.Items :: x in items
    ensures env.Items <= items
  {
  }

  /** Sequences that share a head and a tail differ where their middles
      start to differ. */
  lemma MiddleDiffers<T>(head: seq<T>, x: seq<T>, y: seq<T>, tail: seq<T>)
    requires |x| == |y| && x != y
    ensures head + x + tail != head + y + tail
  {
    var i :| 0 <= i < |x| && x[i] != y[i];
    assert (head + x + tail)[|head| + i] == x[i];
    assert (head + y + tail)[|head| + i] == y[i];
  }

  /** The difference reaches the whole feed of a stage with that
      environment: whatever else the stage holds, the two orders feed
      different bytes, so the same stage gets two different keys. */
  lemma EnvOrderChangesStageFeed(stage: Stage, base: string, codec: Codec, glob: Matcher, fs: Files)
    requires stage.env == map["A" := "1", "B" := "2"]
    requires StageFeed(stage, base, [("A", "1"), ("B", "2")], codec, glob, fs).Ok?
    ensures StageFeed(stage, base, [("B", "2"), ("A", "1")], codec, glob, fs).Ok?
    ensures StageFeed(stage, base, [("A", "1"), ("B", "2")], codec, glob, fs).value
      != StageFeed(stage, base, [("B", "2"), ("A", "1")], codec, glob, fs).value
  {
    var p, q := [("A", "1"), ("B", "2")], [("B", "2"), ("A", "1")];
    EnvOrderChangesFeed();
    ConfigFeedEnv(stage, p, codec);
    ConfigFeedEnv(stage, q, codec);
    var head := ConfigFeed(stage, [], codec).value;
    var files := InputFiles(stage, base, glob).value;
    var contents := FilesFeed(files, |files|, fs).value;
    MiddleDiffers(head, EnvFeed(p), EnvFeed(q), contents);
  }

  /** Entries ordered by name. */
  predicate KeyLess(a: (string, string), b: (string, string)) {
    StrLess(a.0, b.0)
  }

  lemma KeyLessStrictOrder()
    ensures StrictOrder(KeyLess)
  {
    StrLessStrictTotal();
  }

  /** The entries of a map have distinct names, so ordering them by name
      leaves no ties. */
  lemma EnumerationTotal(pairs: seq<(string, string)>, env: map<string, string>)
    requires IsEnumeration(pairs, env)
    ensures TotalOn(KeyLess, pairs)
  {
    StrLessStrictTotal();
    forall x, y | x in pairs && y in pairs && x != y ensures KeyLess(x, y) || KeyLess(y, x) {
      assert x in multiset(pairs) && y in multiset(pairs);
      assert x in env.Items && y in env.Items;
    }
  }

  /** Sorting the entries by name gives one sequence per environment,
      whatever order the map yields them in. */
  lemma SortedEnvOrderFree(p: seq<(string, string)>, q: seq<(string, string)>, env: map<string, string>)
    requires IsEnumeration(p, env) && IsEnumeration(q, env)
    ensures SortBy(p, KeyLess) == SortBy(q, KeyLess)
    ensures IsEnumeration(SortBy(p, KeyLess), env)
  {
    KeyLessStrictOrder();
    EnumerationTotal(p, env);
    SortIgnoresOrder(p, q, KeyLess);
  }

  /** The key of a stage with its environment fed in name order: the
      digest of everything a fresh hasher absorbs. */
  function StageKey(stage: Stage, base: string, envOrder: seq<(string, string)>, codec: Codec, glob: Matcher, fs: Files, digest: Digest): Result<string, ConflowError>
  {
    var feed :- StageFeed(stage, base, SortBy(envOrder, KeyLess), codec, glob, fs);
    Ok(digest(feed))
  }

  /** With the environment in name order, the key no longer depends on the
      map's iteration order. */
  lemma StageKeyOrderFree(stage: Stage, base: string, p: seq<(string, string)>, q: seq<(string, string)>,
                          codec: Codec, glob: Matcher, fs: Files, digest: Digest)
    requires IsEnumeration(p, stage.env) && IsEnumeration(q, stage.env)
    ensures StageKey(stage, base, p, codec, glob, fs, digest) == StageKey(stage, base, q, codec, glob, fs, digest)
  {
    SortedEnvOrderFree(p, q, stage.env);
  }
}
