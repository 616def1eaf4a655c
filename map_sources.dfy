/**
 * The map-sources transform as pure functions: every file whose source map
 * has a `sources` list gets each entry replaced by the normalised result of
 * the map function (or of the identity), and every other file passes through
 * untouched. The spy the tests attach to the map function is modelled by
 * `CallLog`, the sequence of argument pairs the map function receives.
 */
module MapSources {
  import opened Wrappers
  import opened SourceMaps

  /** One character of a path after normalisation: a backslash becomes a forward slash. */
  function NormalizeChar(c: char): (r: char)
    ensures r != '\\'
    ensures c != '\\' ==> r == c
  {
    if c == '\\' then '/' else c
  }

  /** A path with every backslash turned into a forward slash, and nothing else changed. */
  function Normalize(s: string): (r: string)
    ensures |r| == |s|
    ensures '\\' !in r
    ensures forall i :: 0 <= i < |s| && s[i] == '\\' ==> r[i] == '/'
    ensures forall i :: 0 <= i < |s| && s[i] != '\\' ==> r[i] == s[i]
  {
    seq(|s|, i requires 0 <= i < |s| => NormalizeChar(s[i]))
  }

  /**
   * The map function actually used for an argument: a function is kept,
   * every other value is ignored.
   */
  function Configure(arg: Argument): (r: Option<MapFn>)
    ensures r.Some? <==> arg.FunctionValue?
    ensures r.Some? ==> forall p, f :: r.value(p, f) == arg.fn(p, f)
  {
    if arg.FunctionValue? then Some(arg.fn) else None
  }

  /** The replacement for one entry: the map function's result, or the entry itself, normalised. */
  function Mapper(mapFn: Option<MapFn>, file: File, path: string): (r: string)
    ensures var raw := if mapFn.Some? then mapFn.value(path, file) else path;
      && |r| == |raw| && '\\' !in r
      && (forall i :: 0 <= i < |raw| && raw[i] == '\\' ==> r[i] == '/')
      && (forall i :: 0 <= i < |raw| && raw[i] != '\\' ==> r[i] == raw[i])
    ensures mapFn.None? && '\\' !in path ==> r == path
  {
    match mapFn
    case Some(fn) => Normalize(fn(path, file))
    case None => Normalize(path)
  }

  /** The `sources` list after the rewrite: entry `i` is replaced by the mapper's result for entry `i`. */
  function RewriteSources(sources: seq<string>, mapFn: Option<MapFn>, file: File): (r: seq<string>)
    ensures |r| == |sources|
    ensures forall i :: 0 <= i < |sources| ==> r[i] == Mapper(mapFn, file, sources[i])
  {
    if sources == [] then []
    else [Mapper(mapFn, file, sources[0])] + RewriteSources(sources[1..], mapFn, file)
  }

  /** What the transform emits for one file. */
  function RewriteFile(file: File, mapFn: Option<MapFn>): (r: File)
    ensures SourcesOf(file).None? ==> r == file
    ensures r.base == file.base
    ensures r.sourceMap.Some? <==> file.sourceMap.Some?
    ensures r.sourceMap.Some? ==> SameMetadata(r.sourceMap.value, file.sourceMap.value)
    ensures SourcesOf(r).Some? <==> SourcesOf(file).Some?
    ensures SourcesOf(file).Some? ==>
      var (out, src) := (SourcesOf(r).value, SourcesOf(file).value);
      |out| == |src| && forall i :: 0 <= i < |src| ==> out[i] == Mapper(mapFn, file, src[i])
  {
    match SourcesOf(file)
    case None => file
    case Some(sources) => WithSources(file, RewriteSources(sources, mapFn, file))
  }

  /** The argument pairs the map function receives, in order, one per entry of `sources`. */
  function Args(sources: seq<string>, file: File): (r: seq<(string, File)>)
    ensures |r| == |sources|
    ensures forall i :: 0 <= i < |sources| ==> r[i] == (sources[i], file)
  {
    seq(|sources|, i requires 0 <= i < |sources| => (sources[i], file))
  }

  /** The calls made to the map function while one file is transformed. */
  function CallsFor(file: File, mapFn: Option<MapFn>): (r: seq<(string, File)>)
    ensures mapFn.None? || SourcesOf(file).None? ==> r == []
    ensures mapFn.Some? && SourcesOf(file).Some? ==> r == Args(SourcesOf(file).value, file)
  {
    if mapFn.Some? && SourcesOf(file).Some? then Args(SourcesOf(file).value, file) else []
  }

  /** The stream: one output per input, in the same order. */
  function Transform(files: seq<File>, mapFn: Option<MapFn>): (r: seq<File>)
    ensures |r| == |files|
    ensures forall i :: 0 <= i < |files| ==> r[i] == RewriteFile(files[i], mapFn)
  {
    if files == [] then [] else [RewriteFile(files[0], mapFn)] + Transform(files[1..], mapFn)
  }

  /**
   * Every call the map function receives while the stream is processed, in
   * order. Each call passes a file of the batch that has a `sources` list,
   * together with one of that list's own entries; with no map function there
   * is no call at all.
   */
  function CallLog(files: seq<File>, mapFn: Option<MapFn>): (r: seq<(string, File)>)
    ensures mapFn.None? ==> r == []
    ensures forall k :: 0 <= k < |r| ==>
      r[k].1 in files && SourcesOf(r[k].1).Some? && r[k].0 in SourcesOf(r[k].1).value
  {
    if files == [] then [] else CallsFor(files[0], mapFn) + CallLog(files[1..], mapFn)
  }

  /**
   * The number of `sources` entries over the files that have a `sources`
   * list; it is zero exactly when no file has a non-empty `sources` list.
   */
  function SourceCount(files: seq<File>): (r: nat)
    ensures r == 0 <==> forall i :: 0 <= i < |files| ==> SourcesOf(files[i]) in {None, Some([])}
  {
    if files == [] then 0
    else (match SourcesOf(files[0]) case None => 0 case Some(s) => |s|) + SourceCount(files[1..])
  }

  // ---- Normalisation ----

  /** A path is left alone by normalisation exactly when it has no backslash. */
  lemma NormalizeFixedPoint(s: string)
    ensures Normalize(s) == s <==> '\\' !in s
  {
  }

  /** Normalising twice is normalising once. */
  lemma NormalizeIdempotent(s: string)
    ensures Normalize(Normalize(s)) == Normalize(s)
  {
  }

  /** Normalisation works character by character, so it distributes over concatenation. */
  lemma NormalizeConcat(a: string, b: string)
    ensures Normalize(a + b) == Normalize(a) + Normalize(b)
  {
  }

  // ---- One file ----

  /** Every entry of a rewritten `sources` list is free of backslashes. */
  lemma RewriteNormalizes(file: File, mapFn: Option<MapFn>)
    requires SourcesOf(file).Some?
    ensures forall s :: s in SourcesOf(RewriteFile(file, mapFn)).value ==> '\\' !in s
  {
  }

  /** The rewrite is the same for any two map functions that agree on this file's entries. */
  lemma RewriteDependsOnlyOnResults(file: File, f: MapFn, g: MapFn)
    requires SourcesOf(file).Some?
    requires forall s :: s in SourcesOf(file).value ==> f(s, file) == g(s, file)
    ensures RewriteFile(file, Some(f)) == RewriteFile(file, Some(g))
  {
    var src := SourcesOf(file).value;
    var a, b := RewriteSources(src, Some(f), file), RewriteSources(src, Some(g), file);
    forall i | 0 <= i < |src| ensures a[i] == b[i] {
      assert src[i] in src;
    }
    assert a == b;
  }

  /** Without a map function the rewrite is normalisation of each entry. */
  lemma DefaultIsNormalization(file: File)
    requires SourcesOf(file).Some?
    ensures SourcesOf(RewriteFile(file, None)).value
      == seq(|SourcesOf(file).value|, i requires 0 <= i < |SourcesOf(file).value| => Normalize(SourcesOf(file).value[i]))
  {
  }

  /** Without a map function a file whose entries have no backslash comes out unchanged. */
  lemma {:induction false} DefaultKeepsUnixPaths(file: File)
    requires SourcesOf(file).Some?
    requires forall s :: s in SourcesOf(file).value ==> '\\' !in s
    ensures RewriteFile(file, None) == file
  {
    var src := SourcesOf(file).value;
    var out := RewriteSources(src, None, file);
    forall i | 0 <= i < |src| ensures out[i] == src[i] {
      assert src[i] in src;
      NormalizeFixedPoint(src[i]);
    }
    assert out == src;
  }

  /** Without a map function, transforming a file twice is transforming it once. */
  lemma {:induction false} DefaultIdempotent(file: File)
    ensures RewriteFile(RewriteFile(file, None), None) == RewriteFile(file, None)
  {
    if SourcesOf(file).Some? {
      var once := RewriteFile(file, None);
      RewriteNormalizes(file, None);
      DefaultKeepsUnixPaths(once);
    }
  }

  /** A two-entry `sources` list is rewritten entry by entry, in order. */
  lemma RewriteTwoSources(file: File, mapFn: Option<MapFn>, a: string, b: string)
    requires SourcesOf(file) == Some([a, b])
    ensures SourcesOf(RewriteFile(file, mapFn)) == Some([Mapper(mapFn, file, a), Mapper(mapFn, file, b)])
  {
    var out := SourcesOf(RewriteFile(file, mapFn)).value;
    assert |out| == 2 && out[0] == Mapper(mapFn, file, a) && out[1] == Mapper(mapFn, file, b);
    assert out == [out[0], out[1]];
  }

  // ---- The stream ----

  /** Files are handled independently: the output of a concatenation is the concatenation of the outputs. */
  lemma {:induction false} TransformAppend(a: seq<File>, b: seq<File>, mapFn: Option<MapFn>)
    ensures Transform(a + b, mapFn) == Transform(a, mapFn) + Transform(b, mapFn)
  {
  }

  /** The map function's calls for a concatenation are the calls for the first part, then for the second. */
  lemma {:induction false} CallLogAppend(a: seq<File>, b: seq<File>, mapFn: Option<MapFn>)
    ensures CallLog(a + b, mapFn) == CallLog(a, mapFn) + CallLog(b, mapFn)
  {
    if a == [] {
      assert a + b == b;
    } else {
      assert (a + b)[0] == a[0];
      assert (a + b)[1..] == a[1..] + b;
      CallLogAppend(a[1..], b, mapFn);
    }
  }

  /** Processing one more file extends the outputs by that file's output. */
  lemma {:induction false} TransformPrefixStep(files: seq<File>, k: nat, mapFn: Option<MapFn>)
    requires k < |files|
    ensures Transform(files[..k + 1], mapFn) == Transform(files[..k], mapFn) + [RewriteFile(files[k], mapFn)]
  {
    var l, r := Transform(files[..k + 1], mapFn), Transform(files[..k], mapFn) + [RewriteFile(files[k], mapFn)];
    assert |l| == |r|;
    forall i | 0 <= i < |l| ensures l[i] == r[i] {
      assert files[..k + 1][i] == files[i];
      if i < k { assert files[..k][i] == files[i]; }
    }
  }

  /** Processing one more file extends the map function's calls by that file's calls. */
  lemma {:induction false} CallLogPrefixStep(files: seq<File>, k: nat, mapFn: Option<MapFn>)
    requires k < |files|
    ensures CallLog(files[..k + 1], mapFn) == CallLog(files[..k], mapFn) + CallsFor(files[k], mapFn)
  {
    assert files[..k + 1] == files[..k] + [files[k]];
    CallLogAppend(files[..k], [files[k]], mapFn);
    assert [files[k]][1..] == [];
  }

  /**
   * A map function is called exactly once per entry of every `sources` list,
   * and files without a source map or without `sources` add no call.
   */
  lemma {:induction false} CallCount(files: seq<File>, fn: MapFn)
    ensures |CallLog(files, Some(fn))| == SourceCount(files)
  {
    if files != [] {
      CallCount(files[1..], fn);
    }
  }

  /** A stream in which no file has a `sources` list passes through unchanged and calls nothing. */
  lemma {:induction false} UntouchedStream(files: seq<File>, mapFn: Option<MapFn>)
    requires forall i :: 0 <= i < |files| ==> SourcesOf(files[i]).None?
    ensures Transform(files, mapFn) == files
    ensures CallLog(files, mapFn) == []
  {
    if files != [] {
      UntouchedStream(files[1..], mapFn);
    }
  }
}
