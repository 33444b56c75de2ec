# JitSnapshot: a verified model of the just-in-time asset snapshot

`JitSnapshot` (src/build/jit_snapshot.ts) is an in-memory asset cache for a development server. On first demand it runs the bundler exactly once. It then indexes the bundler's output files by their paths relative to the working directory and stores the serialised manifest under the reserved key `metafile.json`. It also records, for every output in the manifest, the ordered list of its `import-statement` imports. Beside this it keeps a tag cache that is filled one path at a time.

The model has four modules:

- `Wrappers`: `Option`, `Result` (what a foreign call returns or throws), and `Reply`. A `Reply` is how a caller observes an `async` call: resolved, rejected, or still suspended on the shared build handle.
- `Esbuild`: the part of the bundler's result the class reads. That is the output files (absolute path, bytes) and the manifest's `outputs` (path to ordered `(path, kind)` imports). It also holds the two constants `ImportStatement` and `MetafileKey`.
- `Indexing`: pure functions for what the build writes. `StaticImports` is the filter/map of the import list (one edge's part is `Kept`), `IndexOutputs` is the output loop, `BuiltFiles` is the output loop followed by the manifest write, and `DependencyIndex` builds the dependency map. Lemmas beside them state the properties.
- `Snapshot`: the class `JitSnapshot`, with the four private fields `files`, `dependencies`, `etags` and `state`.
  - `state` is the handle `#def`, flattened to `NotStarted` / `InProgress` / `Completed`.
  - Ghost fields count the bundler calls and log the tag requests. A third ghost field says whether the call that started the bundler is still waiting for it.
  - The bundler, `relative`, the manifest serialiser and `getEtag` are constant function-valued fields, fixed when the instance is created.
  - `Valid()` ties the fields to the state. Before a completed build both indices are empty. After it they equal `BuiltFiles` / `DependencyIndex` of the bundler's result. The bundler has been called once exactly when the state is not `NotStarted`.
- `Scenarios`: clients written against the contracts alone. They cover concurrent callers attaching to a running build, a failed build, and the tag cache.

`#bundle` is split at its one bundler `await` into `BeginBundle` (lines 20-22) and `FinishBundle` (lines 24-43). `Bundle` puts the two halves together and adds the path for callers that only wait on the handle (line 46). A caller that arrives while the build is pending gets `Suspended` and does not start the bundler again. Its continuation can be run afterwards: for `getFileInfo` this continuation is `FillEtag`.

Three behaviours of the code a caller may not expect:

- `getDependencies` does not start a build (line 57). Before any build it answers `[]` for every path.
- A bundler failure rejects only the call that started the bundler. The handle is set at line 21, before the bundler call at line 22, and is cleared nowhere (line 15 is its only null). A failure at line 22 skips the resolve at line 43, so the handle is never resolved and the state stays `InProgress` for good. Later callers wait at line 46 forever, and nobody retries.
- `read` and `getFileInfo` always answer null (lines 53 and 69). `getFileInfo` still fills the tag cache.

`Indexing.IndexOutputs` (lines 24-27) and `Indexing.BuiltFiles` (lines 24-32) are specification functions without contracts of their own. Their contracts are the lemmas `IndexOutputsKeys`, `IndexOutputsLastWins`, `IndexOutputsUntouched`, `BuiltFilesLayout` and `BuiltFilesOutput` in the table below.

## Model

| member | source | states |
|---|---|---|
| `Indexing.StaticImports` | src/build/jit_snapshot.ts:37-39 | the kept import list is never longer than the manifest's import list |
| `Indexing.StaticImportsAllStatic` | src/build/jit_snapshot.ts:37-39 | when every edge is an `import-statement`, the result is exactly the edges' paths, one for one and in place |
| `Indexing.StaticImportsMembers` | src/build/jit_snapshot.ts:37-39 | a path is kept if and only if some import with kind `import-statement` names it |
| `Indexing.StaticImportsAppend` | src/build/jit_snapshot.ts:37-39 | filtering commutes with concatenation: the kept edges of `a + b` are those of `a` followed by those of `b` |
| `Indexing.StaticImportsSplit` | src/build/jit_snapshot.ts:37-39 | around a kept edge at index `i`, the result is the kept edges before `i`, then that edge's path, then the kept edges after `i` |
| `Indexing.StaticImportsKeepOrder` | src/build/jit_snapshot.ts:37-39 | two kept edges `i < j` stand in the result at positions `m < n`: the original order is preserved |
| `Indexing.IndexOutputsKeys` | src/build/jit_snapshot.ts:24-27 | after the output loop, a key is present if and only if it was present before or some output relativises to it |
| `Indexing.IndexOutputsLastWins` | src/build/jit_snapshot.ts:24-27 | when no later output shares its relative path, an output's contents are what the loop leaves under that path (the later file wins) |
| `Indexing.IndexOutputsUntouched` | src/build/jit_snapshot.ts:24-27 | a key that no output relativises to keeps its previous contents |
| `Indexing.BuiltFilesLayout` | src/build/jit_snapshot.ts:24-32 | after the build, `metafile.json` holds the serialised manifest even when an output relativises to it; every other key is the relative path of some output |
| `Indexing.BuiltFilesOutput` | src/build/jit_snapshot.ts:24-32 | an output that is not shadowed by a later output or by the manifest key is stored with its own contents |
| `Indexing.DependencyIndex` | src/build/jit_snapshot.ts:34-41 | the dependency map has exactly the manifest's output paths as keys, and no list is longer than that output's imports |
| `Snapshot.BuildStep` | src/build/jit_snapshot.ts:19-47 | one `#bundle` call never returns the state to NotStarted and only moves it forward; it resolves exactly when the state ends Completed; a first call whose bundler succeeds ends Completed and resolved; a pending or failed build leaves callers suspended; a bundler error rejects the starting call and leaves the state InProgress |
| `Snapshot.JitSnapshot.constructor` | src/build/jit_snapshot.ts:12-17 | a new snapshot has no build started, empty maps and no tag requests |
| `Snapshot.JitSnapshot.BeginBundle` | src/build/jit_snapshot.ts:20-22 | the bundler is started only when the handle is null, and starting it sets the handle first; otherwise nothing changes |
| `Snapshot.JitSnapshot.FinishBundle` | src/build/jit_snapshot.ts:22-43 | on success the two indices equal `BuiltFiles` / `DependencyIndex` of the bundler's result and the state is Completed; on a bundler error nothing is written and the state stays InProgress |
| `Snapshot.JitSnapshot.IndexOutputFiles` | src/build/jit_snapshot.ts:24-32 | starting from an empty map, the output loop and the manifest write leave exactly `BuiltFiles` of the bundler's result in `files` |
| `Snapshot.JitSnapshot.IndexDependencies` | src/build/jit_snapshot.ts:34-41 | starting from an empty map, the manifest loop leaves exactly `DependencyIndex` of the manifest's outputs in `dependencies`, whatever order it visits them in |
| `Snapshot.JitSnapshot.Bundle` | src/build/jit_snapshot.ts:19-47 | the bundler is called at most once over the instance's life; after the first call it is never called again, and a built or pending snapshot's indices do not change |
| `Snapshot.JitSnapshot.Read` | src/build/jit_snapshot.ts:49-54 | `read` ensures the build as `#bundle` does and, once that resolves, answers null whatever `files` holds |
| `Snapshot.JitSnapshot.GetDependencies` | src/build/jit_snapshot.ts:56-58 | before a completed build the answer is `[]` for every path; afterwards it is the output's static imports, or `[]` for a path the manifest does not list; nothing changes and no build starts |
| `Snapshot.JitSnapshot.FillEtag` | src/build/jit_snapshot.ts:63-69 | it runs only once the build has completed (the code after the await at line 61); `getEtag` is asked only when the cached tag is missing or empty; its tag is then cached for that path alone, an error leaves the cache as it was, and the answer is null |
| `Snapshot.JitSnapshot.GetFileInfo` | src/build/jit_snapshot.ts:60-70 | the build is ensured first; a pending or failed build leaves the tag cache untouched; after a completed build the tag cache is filled on demand as `FillEtag` states, and every answer that resolves is null |
| `Scenarios.MainBundleIndices` | src/build/jit_snapshot.ts:24-41 | for one output `main.js` importing `lib.js` statically and `chunk.js` dynamically, the dependency map is `main.js -> [lib.js]` and `files` holds exactly `main.js` and `metafile.json` |

## Left out

- `bundleEsbuild` and its options (src/build/esbuild.ts is not part of this model): the bundler is a function from `Options` to a result or an error, given when the instance is created. `Options` carries only `absoluteWorkingDir`, the one field the class reads.
- `relative`, `TextEncoder` with `JSON.stringify`, and `getEtag` (src/build/deps.ts and src/build/snapshot_utils.ts are not part of this model): they are functions given when the instance is created. `getEtag` is a fixed function of the path, so file contents changing between calls are not modelled.
- Promise interleaving: a call that waits on the pending handle is modelled as `Suspended`. Its continuation after the await is not scheduled by the model. A client runs it explicitly (`FillEtag`), as `Scenarios.ConcurrentCallers` does. The tag collaborator's own await is not a suspension point in the model.
- The discarded `ReadableStream` built in `read` (line 52): it has no observable effect.
- The non-null assertions on `bundle.outputFiles` and `bundle.metafile` (lines 24 and 34): the modelled bundler result always has both, so the `TypeError` a missing one would raise mid-build is not modelled.
- Manifest sections other than `outputs`: the class indexes only `outputs` (line 34), and the model's serialiser is given only that part, although line 31 serialises the whole manifest.
- Aliasing of the cached arrays: `getDependencies` returns the stored array itself (line 57), and `#files` keeps each `file.contents` by reference (line 26). A caller that mutates either one changes the cache. The model stores both as value sequences, so it does not capture this.
- The iteration order of `Object.entries` over the manifest outputs: the keys are unique, so the result does not depend on it, and the model visits them in an arbitrary order.
- `SnapshotFileInfo` and the `AssetSnapshot` interface (src/build/types.ts is not part of this model): `getFileInfo`'s answer is modelled as an optional tag, and it is always empty.
