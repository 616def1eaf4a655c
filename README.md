# map-sources, modelled in Dafny

`map-sources` is a gulp object-stream transform. Each vinyl file that passes
through it and carries a source map with a `sources` list has every entry of
that list replaced by the result of a user map function, called with the entry
and the file, with every backslash of the result turned into a forward slash.
A file without a source map, or whose source map has no `sources`, passes
through untouched and the map function is not called for it. When the
argument to `mapSources` is missing or is not a function, the identity is used,
and normalisation still applies. Each input file gives exactly one output file,
in the same order.

The repository's behaviour is fixed by its test suite, `test/index.js`; the
implementation file is not part of this model. The model follows those tests.

- `wrappers.dfy` (`Wrappers`): the `Option` type.
- `source_maps.dfy` (`SourceMaps`): the data. `SourceMap` keeps `version`,
  `file`, `names` and `mappings`, which are carried through unread, and `sources` as an optional
  list. `File` holds the vinyl file's `base` and its optional source map.
  `Argument` is the JavaScript value handed to `mapSources`. The fixture
  mutations of the tests are functions here: `WithoutSourceMap` for
  `delete file.sourceMap`, `WithoutSources` for `delete file.sourceMap.sources`,
  and `WithSources` for reassigning `sources`.
- `map_sources.dfy` (`MapSources`): the transform as pure functions
  (`Normalize`, `Configure`, `RewriteSources`, `RewriteFile`, `Transform`). The
  tests' spy is modelled by `CallLog`, the argument pairs the map function
  receives, in order. The lemmas state the laws: normalisation, per-file
  independence, exact call counts and the identity default.
- `rewrite_loop.dfy` (`RewriteLoop`): the transform as the tests observe it.
  `RewriteSourcesInPlace` rewrites a `sources` array in place, entry by entry,
  and records each call. `TransformFile` handles one stream element. `Pipe`
  pushes a batch of files through. Each method is proved equal to the pure
  functions.
- `map_sources_tests.dfy` (`MapSourcesTests`): the fixture `makeFile` and every
  `it(...)` case of the suite, each stated as a lemma or as a client of `Pipe`.

The fixture's `base` is `__dirname + '/assets'`. The model takes the directory
as a parameter `dir`. In the last test the map function returns
`file.base + '/' + p`, and normalisation also rewrites any backslash inside
`base`. So the test's expectation, which is the un-normalised base, holds only
when `dir` has no backslash, as on a POSIX system. `CallsMapFunctionWithFile`
proves the general result, which is the normalised base, and proves that the
test's expectation holds exactly when `dir` has no backslash, in both directions.

## Model

| member | source | states |
|---|---|---|
| `SourceMaps.WithoutSourceMap` | test/index.js:37 | removing the source map keeps `base` and leaves no source map and no `sources` |
| `SourceMaps.WithoutSources` | test/index.js:80 | removing `sources` requires a source map (JavaScript throws without one); it keeps `base`, the source map and its `version`, `file`, `names` and `mappings`, and leaves no `sources` |
| `SourceMaps.WithSources` | test/index.js:191 | reassigning `sources` requires a source map (JavaScript throws without one); it makes exactly that list the `sources` and keeps `base` and the other source-map fields |
| `SourceMaps.SourcesOf` | test/index.js:35-94 | a file has a `sources` list exactly when it has a source map that has one, and then it is that list |
| `MapSources.Normalize` | test/index.js:140-157 | the result has the input's length and no backslash; each backslash becomes `/` and every other character is kept |
| `MapSources.NormalizeFixedPoint` | test/index.js:159-172 | a path is unchanged by normalisation exactly when it has no backslash (both directions) |
| `MapSources.NormalizeIdempotent` | test/index.js:140-157 | a law derived from the normalisation rule: normalising an already normalised path changes nothing |
| `MapSources.NormalizeConcat` | test/index.js:143-149 | normalisation distributes over concatenation, so `'\\test\\' + p` normalises to `'/test/' + normalise(p)` |
| `MapSources.Configure` | test/index.js:174-187 | a map function is used exactly when the argument is a function, and then it is that function; any other argument gives none |
| `MapSources.Mapper` | test/index.js:140-205 | one entry's replacement is the map function's result, or the entry itself without one, with the same length, every backslash turned into `/`, no backslash left, and every other character kept; without a map function an entry with no backslash is kept as it is |
| `MapSources.RewriteSources` | test/index.js:121-138 | the rewritten list has the same length, and entry `i` is the normalised map result for input entry `i` |
| `MapSources.RewriteFile` | test/index.js:121-157 | a file without a source map or without `sources` comes out equal to the input; otherwise `base`, the other source-map fields and the presence of `sources` are kept, and each entry is rewritten at its own index |
| `MapSources.CallsFor` | test/index.js:207-229 | with a map function and a `sources` list, one call per entry, in index order, each passing the entry and the file; no calls otherwise |
| `MapSources.Transform` | test/index.js:53-76 | one output per input, in input order, each the rewrite of the corresponding input |
| `MapSources.RewriteNormalizes` | test/index.js:140-157 | no entry of a rewritten `sources` list contains a backslash, whatever the map function returns |
| `MapSources.RewriteDependsOnlyOnResults` | test/index.js:121-138 | the output depends only on the map function's results for the file's own entries |
| `MapSources.DefaultIsNormalization` | test/index.js:189-205 | without a map function each output entry is the normalised input entry |
| `MapSources.DefaultKeepsUnixPaths` | test/index.js:159-172 | without a map function a file whose sources have no backslash comes out unchanged |
| `MapSources.DefaultIdempotent` | test/index.js:140-157 | a law derived from the normalisation rule: without a map function, transforming the output again changes nothing |
| `MapSources.TransformAppend` | test/index.js:53-76 | files are handled independently: the output of a concatenated batch is the concatenation of the outputs |
| `MapSources.CallLogAppend` | test/index.js:96-119 | the calls for a concatenated batch are the first part's calls followed by the second part's |
| `MapSources.CallLog` | test/index.js:62-68 | the spy's record over a batch: with no map function it is empty, and every recorded call passes a file of the batch that has `sources`, with one of that file's own entries |
| `MapSources.SourceCount` | test/index.js:66-68 | the number of `sources` entries over the batch, zero exactly when no file has a non-empty `sources` list |
| `MapSources.CallCount` | test/index.js:64-69 | the map function is called exactly once per `sources` entry over all files that have `sources`; other files add no call |
| `MapSources.UntouchedStream` | test/index.js:35-51 | a batch in which no file has `sources` comes out unchanged, and no call is made |
| `RewriteLoop.RewriteSourcesInPlace` | test/index.js:128-131 | the array after the loop is the pure rewrite of its old contents; the recorded calls are each old entry with the file, in order, or none without a map function |
| `RewriteLoop.TransformFile` | test/index.js:35-51 | the emitted file equals `RewriteFile`, and the calls made equal `CallsFor` |
| `RewriteLoop.Pipe` | test/index.js:46-50 | the collected outputs equal `Transform` of the batch, and the collected calls equal `CallLog` of the batch |
| `MapSourcesTests.MakeFile` | test/index.js:14-31 | the fixture's base is `dir + '/assets'` and its sources are `['helloworld.js', 'helloworld2.js']` |
| `MapSourcesTests.MakeWindowsFile` | test/index.js:190-193 | the fixture with each source prefixed by `\test\` |
| `MapSourcesTests.Identity` | test/index.js:58-60 | the identity map function of the two batch tests (also at lines 101-103) returns its path argument |
| `MapSourcesTests.PrefixTest` | test/index.js:124-126 | the map function returns `/test/` followed by the path |
| `MapSourcesTests.PrefixWindowsTest` | test/index.js:143-145 | the map function returns `\test\` followed by the path |
| `MapSourcesTests.JoinBase` | test/index.js:210-214 | the map function returns the file's `base`, a `/`, then the path; the `File.isVinyl` assertion at line 211 is left out |
| `MapSourcesTests.IgnoresFileWithoutSourceMap` | test/index.js:35-51 | one output, which is the input file, and no call of the spy |
| `MapSourcesTests.OnlyIgnoresFileWithoutSourceMap` | test/index.js:53-76 | two outputs, the first unchanged, and exactly two calls, both for the second file |
| `MapSourcesTests.IgnoresFileWithoutSources` | test/index.js:78-94 | one output, which is the input file, and no call of the spy |
| `MapSourcesTests.OnlyIgnoresFileWithoutSources` | test/index.js:96-119 | two outputs, the first unchanged, and exactly two calls, both for the second file |
| `MapSourcesTests.CallsMapFunctionOnEachSource` | test/index.js:121-138 | the sources become `['/test/helloworld.js', '/test/helloworld2.js']` |
| `MapSourcesTests.NormalizesWindowsPaths` | test/index.js:140-157 | with a `\test\` prefix the sources still become `['/test/helloworld.js', '/test/helloworld2.js']` |
| `MapSourcesTests.DoesNotNeedMapFunction` | test/index.js:159-172 | with no argument the file comes out unchanged |
| `MapSourcesTests.IgnoresNonFunctionArgument` | test/index.js:174-187 | with a string argument the file comes out unchanged |
| `MapSourcesTests.StillNormalizesWithoutMapFunction` | test/index.js:189-205 | with no map function, backslashed sources come out as `['/test/helloworld.js', '/test/helloworld2.js']` |
| `MapSourcesTests.CallsMapFunctionWithFile` | test/index.js:207-229 | the map function sees the file: sources become the normalised base joined with each source; they equal the plain base joined with each source exactly when the directory has no backslash |

## Left out

- Stream plumbing (`pipe`, `from.obj`, `concat`), backpressure and the `done` callback: these belong to the streaming framework. `Pipe` stands in for a batch pushed through the transform and collected.
- The vinyl `File` class and the `File.isVinyl` check: only `base` and `sourceMap` are modelled. `cwd`, `path` and `contents` play no part in the behaviour.
- The spy library: it is replaced by the explicit call record that `RewriteSourcesInPlace`, `TransformFile` and `Pipe` return, with `CallLog` as its specification.
- A map function that throws, and map functions that return non-strings: the suite exercises neither, and a Dafny function value is total and typed.
- Side effects of the map function: it is a pure function here. The order of calls is captured by the call record instead.
- The path-normalisation helper beyond turning backslashes into forward slashes: that helper is not part of this model, and no other rewriting (trailing slashes, `..` segments) is assumed.
- The other source-map fields (`version`, `file`, `names`, `mappings`): they are carried through unchanged and never validated.
- JavaScript truthiness of `sourceMap` and `sources` (`null`, `false` and the like): an absent attribute is `None`. Any other falsy value is not modelled.
- RewriteLoop.RewriteSourcesInPlace: the map function receives the file as it stood before the rewrite began. The suite does not observe whether a map function sees entries that were already rewritten.
- RewriteLoop.RewriteSourcesInPlace: each call record holds the file as a value, as it stood before the rewrite. A JavaScript spy holds a reference to the file object, which is mutated afterwards. The suite does not observe the difference.
