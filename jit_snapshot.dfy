/**
 * The just-in-time asset snapshot: one bundler run on first demand, the
 * output bytes and the static-import graph indexed from its result, and a
 * tag cache filled path by path.
 */
module Snapshot {
  import opened Wrappers
  import opened Esbuild
  import opened Indexing

  /**
   * The build handle `#def`: null (NotStarted), set but not resolved
   * (InProgress), resolved (Completed).
   */
  datatype BuildState = NotStarted | InProgress | Completed

  /** The build state only moves forward: nothing ever goes back to NotStarted, nothing leaves Completed. */
  predicate Advances(before: BuildState, after: BuildState) {
    before == after || before == NotStarted || (before == InProgress && after == Completed)
  }

  /**
   * What one call of `#bundle` does to the build state, and how it settles,
   * given what the bundler returns if it is called.
   */
  function BuildStep(before: BuildState, outcome: Result<BundleOutput>): (r: (BuildState, Reply<()>))
    ensures Advances(before, r.0) && r.0 != NotStarted
    ensures r.0 == Completed <==> (r.1 == Returned(()))
    ensures before == InProgress ==> r == (InProgress, Suspended)
    ensures before == NotStarted && outcome.Err? ==> r == (InProgress, Threw(outcome.error))
    ensures before == NotStarted && outcome.Ok? ==> r == (Completed, Returned(()))
  {
    match before
    case NotStarted =>
      (match outcome
       case Ok(_) => (Completed, Returned(()))
       case Err(e) => (InProgress, Threw(e)))
    case InProgress => (InProgress, Suspended)
    case Completed => (Completed, Returned(()))
  }

  /** `if (!etag)`: a missing tag and the empty string both make `getFileInfo` ask for a new one. */
  predicate TagMissing(etags: map<Path, string>, path: Path) {
    path !in etags || etags[path] == ""
  }

  class JitSnapshot {
    var files: map<Path, Bytes>
    var dependencies: map<Path, seq<Path>>
    var etags: map<Path, string>
    var state: BuildState

    /** How many times the bundler has been started. */
    ghost var bundlerCalls: nat
    /** True while the call that started the bundler is suspended waiting for it. */
    ghost var awaitingBundler: bool
    /** The paths the tag collaborator has been asked for, in order. */
    ghost var tagRequests: seq<Path>

    const options: Options
    /** What `bundleEsbuild(options)` produces, or the error it throws. */
    const bundleEsbuild: Options -> Result<BundleOutput>
    const relative: (Path, Path) -> Path
    /** `new TextEncoder().encode(JSON.stringify(metafile))`. */
    const encodeMetafile: Metafile -> Bytes
    const getEtag: Path -> Result<string>

    /** The indices the build writes for a given bundler result. */
    ghost predicate IndexedFrom(bundle: BundleOutput)
      reads this
    {
      && files == BuiltFiles(options.absoluteWorkingDir, relative, encodeMetafile, bundle)
      && dependencies == DependencyIndex(bundle.metafile.outputs)
    }

    ghost predicate Valid()
      reads this
    {
      && bundlerCalls == (if state == NotStarted then 0 else 1)
      && (awaitingBundler ==> state == InProgress)
      && (state != Completed ==> files == map[] && dependencies == map[])
      && (state == Completed ==> bundleEsbuild(options).Ok? && IndexedFrom(bundleEsbuild(options).value))
    }

    constructor (options: Options, bundleEsbuild: Options -> Result<BundleOutput>, relative: (Path, Path) -> Path,
                 encodeMetafile: Metafile -> Bytes, getEtag: Path -> Result<string>)
      ensures Valid() && !awaitingBundler
      ensures state == NotStarted && files == map[] && dependencies == map[] && etags == map[]
      ensures tagRequests == []
      ensures this.options == options && this.bundleEsbuild == bundleEsbuild && this.relative == relative
      ensures this.encodeMetafile == encodeMetafile && this.getEtag == getEtag
    {
      this.options := options;
      this.bundleEsbuild := bundleEsbuild;
      this.relative := relative;
      this.encodeMetafile := encodeMetafile;
      this.getEtag := getEtag;
      files, dependencies, etags := map[], map[], map[];
      state := NotStarted;
      bundlerCalls, awaitingBundler, tagRequests := 0, false, [];
    }

    /**
     * `#bundle` up to the bundler's await: only a call that finds the handle
     * null sets it and starts the bundler; it then becomes the caller that
     * waits for the bundler.
     */
    method BeginBundle() returns (started: bool)
      requires Valid()
      modifies this`state, this`bundlerCalls, this`awaitingBundler
      ensures Valid() && Advances(old(state), state)
      ensures started == (old(state) == NotStarted)
      ensures started ==> state == InProgress && bundlerCalls == 1 && awaitingBundler
      ensures !started ==> state == old(state) && bundlerCalls == old(bundlerCalls) && awaitingBundler == old(awaitingBundler)
    {
      started := state == NotStarted;
      if started {
        state := InProgress;
        bundlerCalls := bundlerCalls + 1;
        awaitingBundler := true;
      }
    }

    /**
     * `#bundle` after the bundler returns: index the output files, write the
     * manifest, build the dependency lists and resolve the handle. When the
     * bundler throws, nothing is written and the handle stays set.
     */
    method FinishBundle() returns (r: Reply<()>)
      requires Valid() && awaitingBundler
      modifies this`files, this`dependencies, this`state, this`awaitingBundler
      ensures Valid() && !awaitingBundler && Advances(old(state), state)
      ensures (state, r) == BuildStep(NotStarted, bundleEsbuild(options))
    {
      awaitingBundler := false;
      match bundleEsbuild(options)
      case Err(e) =>
        r := Threw(e);
      case Ok(bundle) =>
        IndexOutputFiles(bundle);
        IndexDependencies(bundle.metafile.outputs);
        state := Completed;
        r := Returned(());
    }

    /** The output loop and the manifest write: every output under its relative path, the manifest last. */
    method IndexOutputFiles(bundle: BundleOutput)
      requires files == map[]
      modifies this`files
      ensures files == BuiltFiles(options.absoluteWorkingDir, relative, encodeMetafile, bundle)
    {
      var workingDir := options.absoluteWorkingDir;
      var outputFiles := bundle.outputFiles;
      var i := 0;
      while i < |outputFiles|
        invariant 0 <= i <= |outputFiles|
        invariant files == IndexOutputs(map[], workingDir, relative, outputFiles[..i])
      {
        var file := outputFiles[i];
        assert outputFiles[..i + 1][..i] == outputFiles[..i];
        files := files[relative(workingDir, file.path) := file.contents];
        i := i + 1;
      }
      assert outputFiles[..i] == outputFiles;
      files := files[MetafileKey := encodeMetafile(bundle.metafile)];
    }

    /** The manifest loop: every output path gets its static-import list. */
    method IndexDependencies(outputs: map<Path, MetaOutput>)
      requires dependencies == map[]
      modifies this`dependencies
      ensures dependencies == DependencyIndex(outputs)
    {
      var pending := outputs.Keys;
      while pending != {}
        invariant pending <= outputs.Keys
        invariant dependencies.Keys == outputs.Keys - pending
        invariant forall p :: p in dependencies ==> dependencies[p] == StaticImports(outputs[p].imports)
        decreases pending
      {
        var path :| path in pending;
        dependencies := dependencies[path := StaticImports(outputs[path].imports)];
        pending := pending - {path};
      }
    }

    /**
     * `#bundle` as one call: the caller that finds the handle null runs the
     * build; any other caller only waits on the handle, so it settles at once
     * after a completed build and stays suspended while the build is pending.
     */
    method Bundle() returns (r: Reply<()>)
      requires Valid()
      modifies this`files, this`dependencies, this`state, this`bundlerCalls, this`awaitingBundler
      ensures Valid() && awaitingBundler == old(awaitingBundler) && Advances(old(state), state)
      ensures (state, r) == BuildStep(old(state), bundleEsbuild(options))
      ensures old(state) != NotStarted ==> files == old(files) && dependencies == old(dependencies)
      ensures bundlerCalls == 1 && (old(state) != NotStarted ==> bundlerCalls == old(bundlerCalls))
    {
      var started := BeginBundle();
      if started {
        r := FinishBundle();
      } else if state == Completed {
        r := Returned(());
      } else {
        r := Suspended;
      }
    }

    /** `read`: builds first, then answers null whatever `#files` holds. */
    method Read(path: Path) returns (r: Reply<Option<Bytes>>)
      requires Valid()
      modifies this`files, this`dependencies, this`state, this`bundlerCalls, this`awaitingBundler
      ensures Valid() && awaitingBundler == old(awaitingBundler) && Advances(old(state), state)
      ensures bundlerCalls == 1 && (old(state) != NotStarted ==> bundlerCalls == old(bundlerCalls))
      ensures state == BuildStep(old(state), bundleEsbuild(options)).0
      ensures r == match BuildStep(old(state), bundleEsbuild(options)).1
                   case Returned(_) => Returned(None)
                   case Threw(e) => Threw(e)
                   case Suspended => Suspended
    {
      var built := Bundle();
      match built
      case Returned(_) => r := Returned(None);
      case Threw(e) => r := Threw(e);
      case Suspended => r := Suspended;
    }

    /** `getDependencies`: a lookup in `#dependencies` that defaults to empty and never starts a build. */
    function GetDependencies(path: Path): (r: seq<Path>)
      reads this
      requires Valid()
      ensures state != Completed ==> r == []
      ensures state == Completed ==>
                var outputs := bundleEsbuild(options).value.metafile.outputs;
                r == if path in outputs then StaticImports(outputs[path].imports) else []
    {
      if path in dependencies then dependencies[path] else []
    }

    /**
     * The part of `getFileInfo` after the build has settled: ask the tag
     * collaborator only when the cached tag is missing or empty, cache what
     * it returns, and answer null.
     */
    method FillEtag(path: Path) returns (r: Reply<Option<string>>)
      requires state == Completed
      modifies this`etags, this`tagRequests
      ensures !TagMissing(old(etags), path) ==>
                r == Returned(None) && etags == old(etags) && tagRequests == old(tagRequests)
      ensures TagMissing(old(etags), path) ==>
                tagRequests == old(tagRequests) + [path] &&
                match getEtag(path)
                case Ok(tag) => r == Returned(None) && etags == old(etags)[path := tag]
                case Err(e) => r == Threw(e) && etags == old(etags)
    {
      if TagMissing(etags, path) {
        tagRequests := tagRequests + [path];
        match getEtag(path)
        case Ok(tag) =>
          etags := etags[path := tag];
          r := Returned(None);
        case Err(e) =>
          r := Threw(e);
      } else {
        r := Returned(None);
      }
    }

    /** `getFileInfo`: builds first, then fills the tag cache for `path`; it always answers null. */
    method GetFileInfo(path: Path) returns (r: Reply<Option<string>>)
      requires Valid()
      modifies this
      ensures Valid() && awaitingBundler == old(awaitingBundler) && Advances(old(state), state)
      ensures bundlerCalls == 1 && (old(state) != NotStarted ==> bundlerCalls == old(bundlerCalls))
      ensures state == BuildStep(old(state), bundleEsbuild(options)).0
      ensures r.Returned? ==> r.value == None
      ensures state != Completed ==>
                etags == old(etags) && tagRequests == old(tagRequests) &&
                r == if old(state) == InProgress then Suspended else Threw(bundleEsbuild(options).error)
      ensures state == Completed && !TagMissing(old(etags), path) ==>
                r == Returned(None) && etags == old(etags) && tagRequests == old(tagRequests)
      ensures state == Completed && TagMissing(old(etags), path) ==>
                tagRequests == old(tagRequests) + [path] &&
                match getEtag(path)
                case Ok(tag) => r == Returned(None) && etags == old(etags)[path := tag]
                case Err(e) => r == Threw(e) && etags == old(etags)
    {
      var built := Bundle();
      match built
      case Returned(_) => r := FillEtag(path);
      case Threw(e) => r := Threw(e);
      case Suspended => r := Suspended;
    }
  }
}
