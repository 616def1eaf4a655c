/**
 * The transform as the tests observe it: the `sources` list of each file is
 * rewritten in place, entry by entry, and every call of the map function is
 * recorded, as the tests' spy records it.
 */
module RewriteLoop {
  import opened Wrappers
  import opened SourceMaps
  import opened MapSources

  /**
   * Rewrites the `sources` array of `file` in place, in index order, and
   * returns the argument pairs passed to the map function. The map function
   * sees `file` as it stood before the rewrite began.
   */
  method RewriteSourcesInPlace(sources: array<string>, mapFn: Option<MapFn>, file: File)
    returns (calls: seq<(string, File)>)
    modifies sources
    ensures sources[..] == RewriteSources(old(sources[..]), mapFn, file)
    ensures calls == if mapFn.Some? then Args(old(sources[..]), file) else []
  {
    ghost var input := sources[..];
    calls := [];
    var i := 0;
    while i < sources.Length
      invariant 0 <= i <= sources.Length
      invariant forall j :: 0 <= j < i ==> sources[j] == Mapper(mapFn, file, input[j])
      invariant forall j :: i <= j < sources.Length ==> sources[j] == input[j]
      invariant calls == if mapFn.Some? then Args(input[..i], file) else []
    {
      var path := sources[i];
      var raw := path;
      match mapFn {
        case Some(fn) =>
          raw := fn(path, file);
          calls := calls + [(path, file)];
        case None =>
      }
      sources[i] := Normalize(raw);
      assert input[..i + 1] == input[..i] + [input[i]];
      i := i + 1;
    }
    assert input[..i] == input;
  }

  /** Handles one stream element: a file without `sources` is emitted as it came. */
  method TransformFile(file: File, mapFn: Option<MapFn>) returns (out: File, calls: seq<(string, File)>)
    ensures out == RewriteFile(file, mapFn)
    ensures calls == CallsFor(file, mapFn)
  {
    match SourcesOf(file) {
      case None =>
        out, calls := file, [];
      case Some(src) =>
        var a := new string[|src|](i requires 0 <= i < |src| => src[i]);
        assert a[..] == src;
        calls := RewriteSourcesInPlace(a, mapFn, file);
        out := WithSources(file, a[..]);
    }
  }

  /** Pushes every file through the transform, in order, collecting the outputs and the map function's calls. */
  method Pipe(files: seq<File>, mapFn: Option<MapFn>) returns (out: seq<File>, calls: seq<(string, File)>)
    ensures out == Transform(files, mapFn)
    ensures calls == CallLog(files, mapFn)
  {
    out, calls := [], [];
    var k := 0;
    while k < |files|
      invariant 0 <= k <= |files|
      invariant out == Transform(files[..k], mapFn)
      invariant calls == CallLog(files[..k], mapFn)
    {
      var f, c := TransformFile(files[k], mapFn);
      TransformPrefixStep(files, k, mapFn);
      CallLogPrefixStep(files, k, mapFn);
      out, calls := out + [f], calls + c;
      k := k + 1;
    }
    assert files[..k] == files;
  }
}
