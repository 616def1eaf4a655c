/**
 * The test cases of the map-sources suite, each stated as a lemma about the
 * transform or as a client of `Pipe` that counts the map function's calls.
 */
module MapSourcesTests {
  import opened Wrappers
  import opened SourceMaps
  import opened MapSources
  import opened RewriteLoop

  /** The fixture: a file under `dir + "/assets"` whose source map lists two sources. */
  function MakeFile(dir: string): (r: File)
    ensures r.base == dir + "/assets"
    ensures SourcesOf(r) == Some(["helloworld.js", "helloworld2.js"])
  {
    File(dir + "/assets", Some(SourceMap(3, "helloworld.js", [], "", Some(["helloworld.js", "helloworld2.js"]))))
  }

  /** The same fixture with each source prefixed by `\test\`. */
  function MakeWindowsFile(dir: string): (r: File)
    ensures r.base == dir + "/assets"
    ensures SourcesOf(r) == Some(["\\test\\helloworld.js", "\\test\\helloworld2.js"])
  {
    WithSources(MakeFile(dir), ["\\test\\helloworld.js", "\\test\\helloworld2.js"])
  }

  /** A map function that returns its path argument unchanged. */
  function Identity(path: string, file: File): (r: string)
    ensures r == path
  {
    path
  }

  /** Normalisation of the literal paths the tests use. */
  lemma NormalizeFixturePaths()
    ensures Normalize("helloworld.js") == "helloworld.js"
    ensures Normalize("helloworld2.js") == "helloworld2.js"
    ensures Normalize("/test/") == "/test/"
    ensures Normalize("\\test\\") == "/test/"
  {
  }

  /** The stream of the fixture alone, when the mapper sends its two sources to `x` and `y`. */
  lemma FixtureOutput(file: File, mapFn: Option<MapFn>, a: string, b: string, x: string, y: string)
    requires SourcesOf(file) == Some([a, b])
    requires Mapper(mapFn, file, a) == x && Mapper(mapFn, file, b) == y
    ensures var out := Transform([file], mapFn); |out| == 1 && SourcesOf(out[0]) == Some([x, y])
  {
    RewriteTwoSources(file, mapFn, a, b);
  }

  /** A file without a source map is emitted alone and unchanged, and the spy is never called. */
  method IgnoresFileWithoutSourceMap(dir: string, spy: MapFn) returns (files: seq<File>, calls: seq<(string, File)>)
    ensures |files| == 1 && files[0] == WithoutSourceMap(MakeFile(dir))
    ensures calls == []
  {
    var file := WithoutSourceMap(MakeFile(dir));
    files, calls := Pipe([file], Configure(FunctionValue(spy)));
  }

  /**
   * Behind a file without a source map, the fixture's two sources are still
   * mapped: two outputs, and two calls, both carrying the second file.
   */
  method OnlyIgnoresFileWithoutSourceMap(dir: string) returns (files: seq<File>, calls: seq<(string, File)>)
    ensures |files| == 2 && files[0] == WithoutSourceMap(MakeFile(dir))
    ensures calls == [("helloworld.js", MakeFile(dir)), ("helloworld2.js", MakeFile(dir))]
  {
    var file, file2 := WithoutSourceMap(MakeFile(dir)), MakeFile(dir);
    files, calls := Pipe([file, file2], Configure(FunctionValue(Identity)));
    var args := Args(["helloworld.js", "helloworld2.js"], file2);
    assert args == [args[0], args[1]];
    assert [file, file2][1..] == [file2] && [file2][1..] == [];
    assert CallLog([file2], Some(Identity)) == args;
    assert CallLog([file, file2], Some(Identity)) == CallLog([file2], Some(Identity));
  }

  /** A file whose source map has no `sources` is emitted alone and unchanged, and the spy is never called. */
  method IgnoresFileWithoutSources(dir: string, spy: MapFn) returns (files: seq<File>, calls: seq<(string, File)>)
    ensures |files| == 1 && files[0] == WithoutSources(MakeFile(dir))
    ensures calls == []
  {
    var file := WithoutSources(MakeFile(dir));
    files, calls := Pipe([file], Configure(FunctionValue(spy)));
  }

  /** Behind a file without `sources`, the fixture's two sources are still mapped: two outputs and two calls. */
  method OnlyIgnoresFileWithoutSources(dir: string) returns (files: seq<File>, calls: seq<(string, File)>)
    ensures |files| == 2 && files[0] == WithoutSources(MakeFile(dir))
    ensures calls == [("helloworld.js", MakeFile(dir)), ("helloworld2.js", MakeFile(dir))]
  {
    var file, file2 := WithoutSources(MakeFile(dir)), MakeFile(dir);
    files, calls := Pipe([file, file2], Configure(FunctionValue(Identity)));
    var args := Args(["helloworld.js", "helloworld2.js"], file2);
    assert args == [args[0], args[1]];
    assert [file, file2][1..] == [file2] && [file2][1..] == [];
    assert CallLog([file2], Some(Identity)) == args;
    assert CallLog([file, file2], Some(Identity)) == CallLog([file2], Some(Identity));
  }

  /** The map function of the first mapping test: prefix `/test/`. */
  function PrefixTest(path: string, file: File): (r: string)
    ensures |r| == |path| + 6 && r[..6] == "/test/" && r[6..] == path
  {
    "/test/" + path
  }

  /** The map function of the Windows test: prefix `\test\`. */
  function PrefixWindowsTest(path: string, file: File): (r: string)
    ensures |r| == |path| + 6 && r[..6] == "\\test\\" && r[6..] == path
  {
    "\\test\\" + path
  }

  /** The map function of the last test: join the file's base and the path with a slash. */
  function JoinBase(path: string, file: File): (r: string)
    ensures |r| == |file.base| + 1 + |path|
    ensures r[..|file.base|] == file.base && r[|file.base|] == '/' && r[|file.base| + 1..] == path
  {
    file.base + "/" + path
  }

  /** Each source is replaced by the map function's result, in order. */
  lemma CallsMapFunctionOnEachSource(dir: string)
    ensures var out := Transform([MakeFile(dir)], Configure(FunctionValue(PrefixTest)));
      |out| == 1 && SourcesOf(out[0]) == Some(["/test/helloworld.js", "/test/helloworld2.js"])
  {
    var file := MakeFile(dir);
    NormalizeFixturePaths();
    NormalizeConcat("/test/", "helloworld.js");
    NormalizeConcat("/test/", "helloworld2.js");
    assert "/test/" + "helloworld.js" == "/test/helloworld.js";
    assert "/test/" + "helloworld2.js" == "/test/helloworld2.js";
    FixtureOutput(file, Some(PrefixTest), "helloworld.js", "helloworld2.js", "/test/helloworld.js", "/test/helloworld2.js");
  }

  /** Backslashes in the map function's results come out as forward slashes. */
  lemma NormalizesWindowsPaths(dir: string)
    ensures var out := Transform([MakeFile(dir)], Configure(FunctionValue(PrefixWindowsTest)));
      |out| == 1 && SourcesOf(out[0]) == Some(["/test/helloworld.js", "/test/helloworld2.js"])
  {
    NormalizeFixturePaths();
    NormalizeConcat("\\test\\", "helloworld.js");
    NormalizeConcat("\\test\\", "helloworld2.js");
    assert "/test/" + "helloworld.js" == "/test/helloworld.js";
    assert "/test/" + "helloworld2.js" == "/test/helloworld2.js";
    FixtureOutput(MakeFile(dir), Some(PrefixWindowsTest), "helloworld.js", "helloworld2.js",
      "/test/helloworld.js", "/test/helloworld2.js");
  }

  /** With no argument the sources come out as they went in. */
  lemma DoesNotNeedMapFunction(dir: string)
    ensures Transform([MakeFile(dir)], Configure(Undefined)) == [MakeFile(dir)]
  {
    NormalizeFixturePaths();
    DefaultKeepsUnixPaths(MakeFile(dir));
  }

  /** A string argument is ignored: the sources come out as they went in. */
  lemma IgnoresNonFunctionArgument(dir: string)
    ensures Transform([MakeFile(dir)], Configure(StringValue("invalid argument"))) == [MakeFile(dir)]
  {
    NormalizeFixturePaths();
    DefaultKeepsUnixPaths(MakeFile(dir));
  }

  /** With no map function, backslashed sources are still normalised. */
  lemma StillNormalizesWithoutMapFunction(dir: string)
    ensures var out := Transform([MakeWindowsFile(dir)], Configure(Undefined));
      |out| == 1 && SourcesOf(out[0]) == Some(["/test/helloworld.js", "/test/helloworld2.js"])
  {
    NormalizeFixturePaths();
    assert "\\test\\helloworld.js" == "\\test\\" + "helloworld.js";
    assert "\\test\\helloworld2.js" == "\\test\\" + "helloworld2.js";
    NormalizeConcat("\\test\\", "helloworld.js");
    NormalizeConcat("\\test\\", "helloworld2.js");
    assert "/test/" + "helloworld.js" == "/test/helloworld.js";
    assert "/test/" + "helloworld2.js" == "/test/helloworld2.js";
    FixtureOutput(MakeWindowsFile(dir), None, "\\test\\helloworld.js", "\\test\\helloworld2.js",
      "/test/helloworld.js", "/test/helloworld2.js");
  }

  /**
   * The map function receives the file as its second argument: joining the
   * file's base with each source gives the normalised base followed by the
   * source, which is the base itself when it has no backslash.
   */
  lemma CallsMapFunctionWithFile(dir: string)
    ensures var out := Transform([MakeFile(dir)], Configure(FunctionValue(JoinBase)));
      var base := MakeFile(dir).base;
      && |out| == 1
      && SourcesOf(out[0]) == Some([Normalize(base) + "/helloworld.js", Normalize(base) + "/helloworld2.js"])
      && ('\\' !in dir <==> SourcesOf(out[0]) == Some([base + "/helloworld.js", base + "/helloworld2.js"]))
  {
    var file := MakeFile(dir);
    var base := file.base;
    assert Normalize("/helloworld.js") == "/helloworld.js" by { NormalizeFixedPoint("/helloworld.js"); }
    assert Normalize("/helloworld2.js") == "/helloworld2.js" by { NormalizeFixedPoint("/helloworld2.js"); }
    assert base + "/" + "helloworld.js" == base + "/helloworld.js";
    assert base + "/" + "helloworld2.js" == base + "/helloworld2.js";
    NormalizeConcat(base, "/helloworld.js");
    NormalizeConcat(base, "/helloworld2.js");
    FixtureOutput(file, Some(JoinBase), "helloworld.js", "helloworld2.js",
      Normalize(base) + "/helloworld.js", Normalize(base) + "/helloworld2.js");
    if '\\' !in dir {
      assert Normalize("/assets") == "/assets" by { NormalizeFixedPoint("/assets"); }
      NormalizeConcat(dir, "/assets");
      NormalizeFixedPoint(dir);
    } else {
      // The backslash in `dir` is also in `base`, but the output has a slash there.
      var i :| 0 <= i < |dir| && dir[i] == '\\';
      assert base[i] == '\\';
      assert (Normalize(base) + "/helloworld.js")[i] == '/';
      assert (base + "/helloworld.js")[i] == '\\';
    }
  }
}
