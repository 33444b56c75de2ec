/**
 * The part of the bundler's result that the snapshot reads: the output files
 * and the `outputs` section of the manifest ("metafile").
 */
module Esbuild {

  type Path = string
  type Bytes = seq<bv8>

  /** The options the snapshot is built with; only the working directory is read by the snapshot itself. */
  datatype Options = Options(absoluteWorkingDir: Path)

  /** One file that the bundler wrote in memory, under its absolute path. */
  datatype OutputFile = OutputFile(path: Path, contents: Bytes)

  /** One import edge the manifest records, with the import kind as the bundler spells it. */
  datatype Import = Import(path: Path, kind: string)

  datatype MetaOutput = MetaOutput(imports: seq<Import>)

  /** The manifest: for every output path, the imports of that output in order. */
  datatype Metafile = Metafile(outputs: map<Path, MetaOutput>)

  datatype BundleOutput = BundleOutput(outputFiles: seq<OutputFile>, metafile: Metafile)

  /** The only import kind whose edges the snapshot keeps. */
  const ImportStatement: string := "import-statement"

  /** The reserved key under which the serialised manifest is stored. */
  const MetafileKey: Path := "metafile.json"

  predicate IsStatic(i: Import) {
    i.kind == ImportStatement
  }
}
