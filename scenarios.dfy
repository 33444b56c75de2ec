/** Clients of the snapshot, written against its contracts alone. */
module Scenarios {
  import opened Wrappers
  import opened Esbuild
  import opened Indexing
  import opened Snapshot

  /** One output `main.js` that statically imports `lib.js` and dynamically imports `chunk.js`. */
  function MainBundle(contents: Bytes): BundleOutput {
    BundleOutput(
      [OutputFile("/w/main.js", contents)],
      Metafile(map["main.js" := MetaOutput([Import("lib.js", ImportStatement), Import("chunk.js", "dynamic-import")])]))
  }

  /** After the build: `main.js` depends on `lib.js` only, and `#files` holds `main.js` and the manifest. */
  lemma MainBundleIndices(workingDir: Path, relative: (Path, Path) -> Path, encode: Metafile -> Bytes, contents: Bytes)
    requires relative(workingDir, "/w/main.js") == "main.js"
    ensures DependencyIndex(MainBundle(contents).metafile.outputs) == map["main.js" := ["lib.js"]]
    ensures BuiltFiles(workingDir, relative, encode, MainBundle(contents)).Keys == {"main.js", MetafileKey}
    ensures BuiltFiles(workingDir, relative, encode, MainBundle(contents))["main.js"] == contents
  {
    var bundle := MainBundle(contents);
    assert StaticImports(bundle.metafile.outputs["main.js"].imports) == ["lib.js"];
    assert bundle.outputFiles[..0] == [];
    assert IndexOutputs(map[], workingDir, relative, bundle.outputFiles) == map["main.js" := contents];
  }

  /** Callers that arrive while the build runs attach to it and never start the bundler again. */
  method ConcurrentCallers(contents: Bytes) {
    var s := new JitSnapshot(Options("/w"), _ => Ok(MainBundle(contents)), (base, p) => p, _ => [], p => Ok("tag"));
    var started := s.BeginBundle();
    assert started && s.bundlerCalls == 1;

    var read := s.Read("main.js");
    var info := s.GetFileInfo("main.js");
    assert read == Suspended && info == Suspended;
    assert s.GetDependencies("main.js") == [];

    var settled := s.FinishBundle();
    assert settled == Returned(()) && s.state == Completed;

    // the suspended `getFileInfo` resumes after its await
    info := s.FillEtag("main.js");
    assert info == Returned(None) && s.etags["main.js"] == "tag";

    read := s.Read("main.js");
    assert read == Returned(None) && s.bundlerCalls == 1;
  }

  /** One call of any building operation leaves `main.js` and the manifest in `#files` and `main.js -> [lib.js]`. */
  method MainBundleServed(contents: Bytes) {
    var s := new JitSnapshot(Options("/w"), _ => Ok(MainBundle(contents)),
                             (base, p) => if p == "/w/main.js" then "main.js" else p,
                             _ => [], p => Ok("tag"));
    var read := s.Read("main.js");
    assert read == Returned(None) && s.state == Completed;
    MainBundleIndices("/w", s.relative, s.encodeMetafile, contents);
    assert s.GetDependencies("main.js") == ["lib.js"];
    assert s.files.Keys == {"main.js", MetafileKey};
  }

  /** A bundler failure is reported to the caller that started it; the handle stays set, so nobody retries. */
  method FailedBuild() {
    var s := new JitSnapshot(Options("/w"), _ => Err("bundle failed"), (base, p) => p, _ => [], p => Ok("tag"));
    var first := s.Read("main.js");
    assert first == Threw("bundle failed") && s.state == InProgress;
    var second := s.GetFileInfo("main.js");
    assert second == Suspended && s.bundlerCalls == 1 && s.etags == map[];
    assert s.GetDependencies("main.js") == [];
  }

  /** A non-empty cached tag is reused; an empty one is asked for again. */
  method TagCache() {
    var s := new JitSnapshot(Options("/w"), _ => Ok(BundleOutput([], Metafile(map[]))), (base, p) => p, _ => [],
                             p => if p == "a.js" then Ok("t1") else Ok(""));
    var r := s.GetFileInfo("a.js");
    r := s.GetFileInfo("a.js");
    assert s.tagRequests == ["a.js"] && s.etags["a.js"] == "t1";
    r := s.GetFileInfo("b.js");
    r := s.GetFileInfo("b.js");
    assert s.tagRequests == ["a.js", "b.js", "b.js"] && r == Returned(None);
  }
}
