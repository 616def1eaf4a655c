/**
 * The data the transform reads and writes: a streamed file object with an
 * optional source map, and the argument handed to `mapSources`.
 */
module SourceMaps {
  import opened Wrappers

  /**
   * A source map attached to a file. `sources` is the one field the
   * transform rewrites; the others are carried through untouched and are
   * never validated.
   */
  datatype SourceMap = SourceMap(
    version: int,
    file: string,
    names: seq<string>,
    mappings: string,
    sources: Option<seq<string>>)

  /**
   * The two attributes of a vinyl file that the transform and its map
   * functions read: the base directory and the attached source map, which
   * may be absent.
   */
  datatype File = File(base: string, sourceMap: Option<SourceMap>)

  /** A user map function: it receives one source path and the file it belongs to. */
  type MapFn = (string, File) -> string

  /**
   * The value handed to `mapSources`: nothing at all, a function, a string,
   * an integer, or any other JavaScript value (`null`, a boolean, an object,
   * a non-integer number), whose content plays no part.
   */
  datatype Argument =
    | Undefined
    | FunctionValue(fn: MapFn)
    | StringValue(text: string)
    | NumberValue(n: int)
    | OtherValue

  /** Two source maps agree on every field except `sources`. */
  predicate SameMetadata(a: SourceMap, b: SourceMap)
  {
    a.version == b.version && a.file == b.file && a.names == b.names && a.mappings == b.mappings
  }

  /** The `sources` list of a file, when it has a source map that has one. */
  function SourcesOf(file: File): (r: Option<seq<string>>)
    ensures r.Some? <==> file.sourceMap.Some? && file.sourceMap.value.sources.Some?
    ensures r.Some? ==> r.value == file.sourceMap.value.sources.value
  {
    match file.sourceMap
    case None => None
    case Some(sm) => sm.sources
  }

  /** The file with its source map removed (`delete file.sourceMap`). */
  function WithoutSourceMap(file: File): (r: File)
    ensures r.base == file.base && SourcesOf(r).None? && r.sourceMap.None?
  {
    file.(sourceMap := None)
  }

  /** The file with the `sources` list of its source map removed (`delete file.sourceMap.sources`); the file must have a source map. */
  function WithoutSources(file: File): (r: File)
    requires file.sourceMap.Some?
    ensures r.base == file.base && SourcesOf(r).None?
    ensures r.sourceMap.Some? && SameMetadata(r.sourceMap.value, file.sourceMap.value)
  {
    file.(sourceMap := Some(file.sourceMap.value.(sources := None)))
  }

  /**
   * The file with the `sources` list of its source map replaced
   * (`file.sourceMap.sources = ...`); the file must have a source map.
   */
  function WithSources(file: File, sources: seq<string>): (r: File)
    requires file.sourceMap.Some?
    ensures r.base == file.base
    ensures r.sourceMap.Some? && SameMetadata(r.sourceMap.value, file.sourceMap.value)
    ensures SourcesOf(r) == Some(sources)
  {
    file.(sourceMap := Some(file.sourceMap.value.(sources := Some(sources))))
  }
}
