/**
 * The two indices the snapshot derives from one bundler result: output bytes
 * by relative path (plus the serialised manifest under a reserved key), and
 * the static-import list of every manifest output.
 */
module Indexing {
  import opened Esbuild

  /** `imports.filter(kind === "import-statement").map(path)`. */
  function StaticImports(imports: seq<Import>): (r: seq<Path>)
    ensures |r| <= |imports|
  {
    if imports == [] then [] else Kept(imports[0]) + StaticImports(imports[1..])
  }

  /** The contribution of one import edge: its path when it is an import statement, nothing otherwise. */
  function Kept(i: Import): seq<Path> {
    if IsStatic(i) then [i.path] else []
  }

  /** When every edge is an import statement, every path is kept, in place. */
  lemma {:induction false} StaticImportsAllStatic(imports: seq<Import>)
    requires forall k :: 0 <= k < |imports| ==> IsStatic(imports[k])
    ensures StaticImports(imports) == seq(|imports|, k requires 0 <= k < |imports| => imports[k].path)
  {
    if imports != [] {
      var tail := imports[1..];
      forall k | 0 <= k < |tail| ensures IsStatic(tail[k]) {
        assert tail[k] == imports[k + 1];
      }
      StaticImportsAllStatic(tail);
      assert Kept(imports[0]) == [imports[0].path];
    }
  }

  /** A path is kept exactly when some import-statement edge names it. */
  lemma {:induction false} StaticImportsMembers(imports: seq<Import>, p: Path)
    ensures p in StaticImports(imports) <==>
            exists i :: 0 <= i < |imports| && IsStatic(imports[i]) && imports[i].path == p
  {
    if imports != [] {
      var tail := imports[1..];
      StaticImportsMembers(tail, p);
      if exists i :: 0 <= i < |imports| && IsStatic(imports[i]) && imports[i].path == p {
        var i :| 0 <= i < |imports| && IsStatic(imports[i]) && imports[i].path == p;
        if i > 0 {
          assert tail[i - 1] == imports[i];
        }
      }
      if exists i :: 0 <= i < |tail| && IsStatic(tail[i]) && tail[i].path == p {
        var i :| 0 <= i < |tail| && IsStatic(tail[i]) && tail[i].path == p;
        assert imports[i + 1] == tail[i];
      }
    }
  }

  /** Filtering commutes with concatenation, so nothing is reordered. */
  lemma {:induction false} StaticImportsAppend(a: seq<Import>, b: seq<Import>)
    ensures StaticImports(a + b) == StaticImports(a) + StaticImports(b)
  {
    if a == [] {
      assert a + b == b;
    } else {
      assert (a + b)[0] == a[0];
      assert (a + b)[1..] == a[1..] + b;
      StaticImportsAppend(a[1..], b);
    }
  }

  /** Splitting the imports around a kept edge splits the result around its path. */
  lemma StaticImportsSplit(imports: seq<Import>, i: nat)
    requires i < |imports| && IsStatic(imports[i])
    ensures StaticImports(imports) == StaticImports(imports[..i]) + [imports[i].path] + StaticImports(imports[i + 1..])
  {
    var rest := imports[i..];
    assert imports == imports[..i] + rest;
    StaticImportsAppend(imports[..i], rest);
    assert rest[0] == imports[i] && rest[1..] == imports[i + 1..];
    assert StaticImports(rest) == Kept(rest[0]) + StaticImports(rest[1..]);
    assert Kept(rest[0]) == [imports[i].path];
  }

  /** Two kept edges appear in the result in the order they had among the imports. */
  lemma StaticImportsKeepOrder(imports: seq<Import>, i: nat, j: nat)
    requires i < j < |imports|
    requires IsStatic(imports[i]) && IsStatic(imports[j])
    ensures exists m, n :: 0 <= m < n < |StaticImports(imports)| &&
                           StaticImports(imports)[m] == imports[i].path &&
                           StaticImports(imports)[n] == imports[j].path
  {
    var r := StaticImports(imports);
    StaticImportsSplit(imports, i);
    StaticImportsSplit(imports, j);
    var prefix := imports[..j];
    assert prefix[..i] == imports[..i] && prefix[i] == imports[i];
    StaticImportsSplit(prefix, i);
    var m := |StaticImports(imports[..i])|;
    var n := |StaticImports(prefix)|;
    assert r[m] == imports[i].path;
    assert r[n] == imports[j].path;
  }

  /**
   * `files` after the output loop has set every file of `outputs`, in order,
   * under its path relative to `workingDir`.
   */
  function IndexOutputs(files: map<Path, Bytes>, workingDir: Path, relative: (Path, Path) -> Path,
                        outputs: seq<OutputFile>): map<Path, Bytes>
  {
    if outputs == [] then files
    else
      var last := outputs[|outputs| - 1];
      IndexOutputs(files, workingDir, relative, outputs[..|outputs| - 1])[relative(workingDir, last.path) := last.contents]
  }

  /** The keys are the old keys and the relative paths of the outputs, and nothing else. */
  lemma {:induction false} IndexOutputsKeys(files: map<Path, Bytes>, workingDir: Path, relative: (Path, Path) -> Path,
                                             outputs: seq<OutputFile>, k: Path)
    ensures k in IndexOutputs(files, workingDir, relative, outputs) <==>
            k in files || exists i :: 0 <= i < |outputs| && relative(workingDir, outputs[i].path) == k
  {
    if outputs != [] {
      var init := outputs[..|outputs| - 1];
      IndexOutputsKeys(files, workingDir, relative, init, k);
      if exists i :: 0 <= i < |outputs| && relative(workingDir, outputs[i].path) == k {
        var i :| 0 <= i < |outputs| && relative(workingDir, outputs[i].path) == k;
        if i < |outputs| - 1 {
          assert init[i] == outputs[i];
        }
      }
      if exists i :: 0 <= i < |init| && relative(workingDir, init[i].path) == k {
        var i :| 0 <= i < |init| && relative(workingDir, init[i].path) == k;
        assert outputs[i] == init[i];
      }
    }
  }

  /** When two outputs share a relative path, the later one's contents are kept. */
  lemma {:induction false} IndexOutputsLastWins(files: map<Path, Bytes>, workingDir: Path, relative: (Path, Path) -> Path,
                                                 outputs: seq<OutputFile>, i: nat)
    requires i < |outputs|
    requires forall j :: i < j < |outputs| ==> relative(workingDir, outputs[j].path) != relative(workingDir, outputs[i].path)
    ensures relative(workingDir, outputs[i].path) in IndexOutputs(files, workingDir, relative, outputs)
    ensures IndexOutputs(files, workingDir, relative, outputs)[relative(workingDir, outputs[i].path)] == outputs[i].contents
  {
    if i < |outputs| - 1 {
      var init := outputs[..|outputs| - 1];
      assert init[i] == outputs[i];
      forall j | i < j < |init| ensures relative(workingDir, init[j].path) != relative(workingDir, init[i].path) {
        assert init[j] == outputs[j];
      }
      IndexOutputsLastWins(files, workingDir, relative, init, i);
    }
  }

  /** A key that no output relativises to keeps its old contents. */
  lemma {:induction false} IndexOutputsUntouched(files: map<Path, Bytes>, workingDir: Path, relative: (Path, Path) -> Path,
                                                  outputs: seq<OutputFile>, k: Path)
    requires k in files
    requires forall j :: 0 <= j < |outputs| ==> relative(workingDir, outputs[j].path) != k
    ensures k in IndexOutputs(files, workingDir, relative, outputs)
    ensures IndexOutputs(files, workingDir, relative, outputs)[k] == files[k]
  {
    if outputs != [] {
      var init := outputs[..|outputs| - 1];
      forall j | 0 <= j < |init| ensures relative(workingDir, init[j].path) != k {
        assert init[j] == outputs[j];
      }
      IndexOutputsUntouched(files, workingDir, relative, init, k);
    }
  }

  /** `#files` after a completed build: the outputs, then the manifest under its reserved key. */
  function BuiltFiles(workingDir: Path, relative: (Path, Path) -> Path, encode: Metafile -> Bytes,
                      bundle: BundleOutput): map<Path, Bytes>
  {
    IndexOutputs(map[], workingDir, relative, bundle.outputFiles)[MetafileKey := encode(bundle.metafile)]
  }

  /**
   * The manifest entry is written last, so it wins even over an output file
   * that relativises to the reserved key; every other key belongs to an
   * output, and holds the contents of the last output with that path.
   */
  lemma BuiltFilesLayout(workingDir: Path, relative: (Path, Path) -> Path, encode: Metafile -> Bytes,
                         bundle: BundleOutput, k: Path)
    ensures MetafileKey in BuiltFiles(workingDir, relative, encode, bundle)
    ensures BuiltFiles(workingDir, relative, encode, bundle)[MetafileKey] == encode(bundle.metafile)
    ensures k in BuiltFiles(workingDir, relative, encode, bundle) <==>
            k == MetafileKey ||
            exists i :: 0 <= i < |bundle.outputFiles| && relative(workingDir, bundle.outputFiles[i].path) == k
  {
    IndexOutputsKeys(map[], workingDir, relative, bundle.outputFiles, k);
  }

  /** The contents an output file leaves in `#files` when no later output shares its path. */
  lemma BuiltFilesOutput(workingDir: Path, relative: (Path, Path) -> Path, encode: Metafile -> Bytes,
                         bundle: BundleOutput, i: nat)
    requires i < |bundle.outputFiles|
    requires relative(workingDir, bundle.outputFiles[i].path) != MetafileKey
    requires forall j :: i < j < |bundle.outputFiles| ==>
               relative(workingDir, bundle.outputFiles[j].path) != relative(workingDir, bundle.outputFiles[i].path)
    ensures relative(workingDir, bundle.outputFiles[i].path) in BuiltFiles(workingDir, relative, encode, bundle)
    ensures BuiltFiles(workingDir, relative, encode, bundle)[relative(workingDir, bundle.outputFiles[i].path)]
            == bundle.outputFiles[i].contents
  {
    IndexOutputsLastWins(map[], workingDir, relative, bundle.outputFiles, i);
  }

  /** `#dependencies` after a completed build. */
  function DependencyIndex(outputs: map<Path, MetaOutput>): (r: map<Path, seq<Path>>)
    ensures r.Keys == outputs.Keys
    ensures forall p :: p in r ==> |r[p]| <= |outputs[p].imports|
  {
    map p | p in outputs :: StaticImports(outputs[p].imports)
  }
}
