# dockstep core, modelled in Dafny

dockstep runs a project of build steps ("blocks"). Each block is built FROM
an external image or FROM the image of an earlier block (`from_block`).
Results go into a `.dockstep/` state directory, and a content-addressed
cache lets a block whose inputs did not change be skipped. This project
models the core of that program and proves properties of the model:

- **Types** (`types.dfy`): blocks, block states, image records, and what a
  validated project gives the engine (unique ids, parents listed earlier).
- **StateStore** (`store.dfy`): the `.dockstep` store as a class with one
  map per record kind. It covers states, logs, success logs, digests, image
  history (JSON lines, decoded up to the first line that fails to decode)
  and Dockerfile snapshots. It also holds the block hash and its
  invalidation properties. **StoreFiles** models the file naming as the
  source writes it.
- **CacheIndex** (`cache.dfy`): the cache index file, which can be
  absent, corrupt or present, and the four cache operations.
- **DockerRuntime** (`runtime.dfy`): the Docker daemon as an oracle. It has
  a registry, local images, a clock, and a build outcome that is a function
  of the build count and the Dockerfile.
- **EngineText** (`enginetext.dfy`): `sanitizeForDockerTag`, image tags and
  `generateDockerfile`.
- **Engine** (`engine.dfy`): `RunBlock`, `RunUp`, parent resolution with
  the runtime cycle guard, `buildBlock` and `buildImageWithLogs`. Each is
  proved against predicates that say what ends up on record.
- **Validation** (`validate.dfy`): `Validate`, `validateBlock`,
  `checkCircularDependencies` and the depth-first `hasCycle`. They are
  proved equal to a declarative notion of a valid project, and that notion
  is connected to what the engine needs.
- **Config** (`config.dfy`): `applyDefaults` and `FindConfigFile`.
- **Dockerignore** (`dockerignore.dfy`): `ParseDockerignore` and
  `strings.TrimSpace`.
- **BuildContext** (`buildcontext.dfy`): `convertToGlob`, `shouldIgnore`
  (first matching pattern wins, `!` negates) and the `addToTar` walk. The
  walk skips the subtree of an ignored directory, and is proved to archive
  exactly the visible paths, in walk order.

SHA-256 and `filepath.Match` are function parameters (`sha`, `matcher`), so
every result holds for any hash function and any glob matcher.

Where the design description and the code disagree, the model follows the
code:

- The design says two blocks that name each other as parents fail with a
  circular-dependency error. In the code, the first block's reference is
  rejected earlier, as naming a block that does not exist yet
  (`Validation.MutualReferenceRejected`).
- The design describes builds as container create, commit and diff steps.
  The code issues one `docker build` of a generated Dockerfile, and that is
  what the model does.

## Model

| member | source | states |
|---|---|---|
| Types.IndexOf | engine/engine.go:68-79 | The block search finds the first block with the id, or reports that no block has it |
| StateStore.DecodeHistoryIsPrefix | store/store.go:178-198 | The records read back are exactly those of the lines before the first garbled line, in order |
| StateStore.DecodeHistoryStep | store/store.go:187-196 | The decode loop stops at a garbled line and otherwise yields the line's record and continues |
| StateStore.DecodeHistoryAppend | store/store.go:166-198 | Appending a record to a clean history extends what is read back by exactly that record |
| StateStore.DecodeHistoryStopsAtGarbled | store/store.go:187-196 | Once a garbled line is in the file, later records are never read back |
| StateStore.ComputeBlockHash | store/store.go:226-245 | The writes into the hasher hash the concatenation of parent digest, id, from, from_block, context and the instructions |
| StateStore.HashIgnoresVersionAndExport | store/store.go:226-245 | The pinned version and the export settings never change the hash |
| StateStore.HashDependsOnlyOnInput | store/store.go:226-245 | Blocks with the same hashed fields and parent digest share a cache key |
| StateStore.ParentDigestChangesInput | store/store.go:226-245 | A different parent digest gives a different hash input, so a rebuilt parent invalidates the child |
| StateStore.ChangedInstructionChangesInput | store/store.go:239-242 | Replacing one instruction with a different one changes the hash input |
| StateStore.InstructionRegroupingCollides | store/store.go:239-242 | Without separators, ["RUN a", "RUN b"] and ["RUN aRUN b"] get the same hash |
| StateStore.HashedFieldChangesInput | store/store.go:232-236 | Changing exactly one of id, from, from_block or context, the rest kept, changes the hash input |
| StateStore.FromFieldBoundaryCollides | store/store.go:234-235 | Without separators, a block FROM image "x" and the same block FROM block "x" get the same hash under the same parent digest |
| StateStore.Store.Init | store/store.go:45-63 | A fresh store holds no record of any kind |
| StateStore.Store.SaveDockerfileSnapshot | store/store.go:66-72 | An empty digest is refused and nothing is written; otherwise the snapshot is stored and reads back |
| StateStore.Store.LoadDockerfileSnapshot | store/store.go:75-85 | An empty digest is an error |
| StateStore.Store.SaveBlockState | store/store.go:88-91 | Only this block's state changes, and it reads back as saved |
| StateStore.Store.SaveLogs | store/store.go:104-107 | Only this block's log changes, and it reads back as saved |
| StateStore.Store.AppendLogs | store/store.go:110-119 | The log becomes the old log (empty if absent) followed by the data; other logs are unchanged |
| StateStore.AppendKeepsPrefix | store/store.go:110-119 | Appending keeps the old log as a prefix and touches no other id |
| StateStore.Store.ClearLogs | store/store.go:122-129 | The log exists afterwards and is empty |
| StateStore.Store.SaveSuccessfulLogs | store/store.go:138-141 | The success log reads back as saved, and no block's regular log changes (the corrected key space) |
| StateStore.Store.SaveImageDigest | store/store.go:150-153 | The digest reads back as saved |
| StateStore.Store.SaveImageHistory | store/store.go:166-175 | One encoded line is appended; the file is created when absent |
| StateStore.Store.LoadImageHistory | store/store.go:178-198 | A missing file is a not-exist error; otherwise the result is the decoded prefix of the lines |
| StateStore.Store.GetBlockStates | store/store.go:248-272 | Succeeds exactly when every state file decodes, and then maps each id to its state |
| StateStore.Store.Cleanup | store/store.go:275-296 | The state, log and digest of the block and of every descendant are gone; every other record is kept |
| StoreFiles.SuccessLogIsAnotherBlocksLog | store/store.go:104-147 | The success-log file of id is the regular log file of id + ".success" |
| StoreFiles.SuccessLogOverwritesOtherLog | store/store.go:138-141 | As written, saving block "a"'s success log replaces block "a.success"'s log |
| CacheIndex.LoadEntries | store/cache.go:56-75 | A missing index reads as empty; only a corrupt one is an error |
| CacheIndex.Lookup | store/cache.go:27-38 | A digest is found exactly when the index reads and holds the hash |
| CacheIndex.Count | store/cache.go:105-111 | The count is the number of entries; a corrupt index is an error |
| CacheIndex.LookupAfterSet | store/cache.go:41-53 | After a set, the hash answers with the new digest and every other hash answers as before |
| CacheIndex.CountAfterSet | store/cache.go:41-53 | A new hash adds one entry and a known hash none; a corrupt or missing index restarts at one |
| CacheIndex.SetKeepsKeyed | store/cache.go:41-53 | Setting keeps every entry stored under its own hash |
| CacheIndex.TwoHashesCountTwo | store/cache.go:41-53 | Two hashes set in a fresh cache count as two entries |
| CacheIndex.Cache.GetCachedDigest | store/cache.go:27-38 | Found exactly when the lookup succeeds, with that digest; otherwise "" and false |
| CacheIndex.Cache.SetCachedDigest | store/cache.go:41-53 | The index gains the entry, the hash now answers with the digest, and keyedness is preserved |
| CacheIndex.Cache.ClearCache | store/cache.go:99-102 | The index is gone; removing an absent index is an error |
| CacheIndex.Cache.GetCacheStats | store/cache.go:105-111 | Reports the entry count, or an error exactly when the index is corrupt |
| DockerRuntime.Runtime.PullImage | engine/engine.go:238-240 | A reference the registry serves becomes local; any other reference fails and changes nothing |
| DockerRuntime.Runtime.InspectImage | engine/engine.go:241-244 | A digest is returned exactly for a local image |
| DockerRuntime.Runtime.Now | engine/engine.go:120 | Each clock reading is one tick later than the previous one |
| DockerRuntime.Runtime.Build | engine/engine.go:466-482 | Each build request gets the daemon's answer for that request count and Dockerfile |
| EngineText.ReplaceInvalid | engine/engine.go:363-366 | Same length, only characters of [a-z0-9._-], and identity on ids that already have only such characters |
| EngineText.CollapseDashes | engine/engine.go:368-370 | Never longer; keeps the first and last characters |
| EngineText.CollapseLeavesNoDoubleDash | engine/engine.go:368-370 | No two adjacent hyphens remain |
| EngineText.CollapseKeepsTagChars | engine/engine.go:368-370 | Collapsing introduces no character outside [a-z0-9._-] |
| EngineText.CollapseIdentity | engine/engine.go:368-370 | A string without adjacent hyphens is left as is |
| EngineText.TrimLeftDashes | engine/engine.go:372-373 | Drops exactly the leading hyphens |
| EngineText.TrimRightDashes | engine/engine.go:372-373 | Drops exactly the trailing hyphens |
| EngineText.TrimDashes | engine/engine.go:372-373 | The result neither starts nor ends with a hyphen, and keeps the tag-character and no-double-hyphen properties |
| EngineText.PrefixedIsDockerTag | engine/engine.go:375-381 | The "block-" prefix turns an id starting with '.' or '_' into a valid tag |
| EngineText.HyphenJoinIsDockerTag | engine/engine.go:420-421 | Two valid tags joined by a hyphen form a valid tag |
| EngineText.SanitizeForDockerTag | engine/engine.go:362-384 | Always a valid tag: non-empty, only [a-z0-9._-], alphanumeric first, no double hyphen and no trailing hyphen |
| EngineText.SanitizeFixedPoints | engine/engine.go:362-384 | Sanitizing leaves an id unchanged exactly when it is already a valid tag |
| EngineText.SanitizeIdempotent | engine/engine.go:362-384 | Sanitizing twice is sanitizing once |
| EngineText.ImageTagIsDockerTag | engine/engine.go:420-421 | Every image tag dockstep-<id>-<seconds> is a valid tag |
| EngineText.SplitJoinLines | engine/engine.go:450-463 | Splitting newline-joined lines that contain no newline gives the lines back |
| EngineText.DockerfileLines | engine/engine.go:450-463 | Read line by line, the Dockerfile is the FROM line, a blank line, then the instructions in order |
| EngineText.GenerateDockerfile | engine/engine.go:450-463 | The loop builds the Dockerfile of the parent reference and the instructions |
| Engine.Ids | engine/engine.go:210-211 | The ids of the blocks, in list order |
| Engine.StartIndex | engine/engine.go:197-207 | RunUp starts at the first block with the requested id, or at 0 |
| Engine.Engine.ParentOf | engine/engine.go:296-309 | In a validated project a from_block parent exists and is ranked strictly below its child |
| Engine.Engine.FindBlock | engine/engine.go:68-79 | Finds the first block with the id, or nothing when no block has it |
| Engine.Engine.RunBlock | engine/engine.go:66-193 | The whole step from the world before to the world after: an unknown id is an error and changes nothing; the parent resolves as resolveParent promises, with the trace of that resolution (including any parent built first) carried in the step; a resolution error is reported with its prefix and nothing more changes; a resolved digest leads to the block's hash under it being executed and recorded as cached, success or failed |
| Engine.Engine.SucceededRunIsRecorded | engine/engine.go:66-193 | A RunBlock call that returns no error leaves its block's state on record as a completed cached, success or failed run |
| Engine.Engine.Execute | engine/engine.go:88-192 | A cache hit happens exactly when force is off and the cache holds the hash; a hit is recorded as cached, and anything else is built and recorded |
| Engine.Engine.RecordHit | engine/engine.go:92-125 | A cached state with the cached digest and one clock reading; nothing else changes |
| Engine.Engine.BuildAndRecord | engine/engine.go:133-190 | Running state, cleared log, then the build's outcome is recorded |
| Engine.Engine.StartBuild | engine/engine.go:133-147 | The running state with one clock reading, and an empty log |
| Engine.Engine.TimedBuild | engine/engine.go:150-156 | The duration is the difference of the clock readings around buildBlock |
| Engine.Engine.RecordOutcome | engine/engine.go:158-190 | Failed with exit code 1 and the build error, or success with digest, success log and cache entry |
| Engine.Engine.BuildBlock | engine/engine.go:387-447 | The image is tagged with the sanitized id and the clock; success records the digest, snapshot and history; failure returns the build error |
| Engine.Engine.RecordBuild | engine/engine.go:433-446 | The digest is saved, the snapshot is written unless the digest is empty, and one history record is appended |
| Engine.Engine.BuildImageWithLogs | engine/engine.go:466-482 | Every streamed chunk is appended to the block's log, in order |
| Engine.Engine.ResolveParent | engine/engine.go:230-232 | From the world before to the world after: a from image is pulled (its digest, or the pull error with both prefixes, only the local images changing); no parent is an error; a pinned version, an unreadable parent state and a recorded digest are used or reported without changing anything; an unbuilt parent is built first as BuildParentFirst states: the parent's own resolution (recursively, by the same statement) and then its RunBlock step, each from the world the previous one left, with the error of whichever fails under its prefix, or the digest on record after a completed run |
| Engine.Engine.ResolveParentWithVisited | engine/engine.go:235-359 | A from_block block already in the visited set is a circular dependency and changes nothing; otherwise resolution as ResolveParent states; the visited set is restored on every return |
| Engine.Engine.ResolveFromBlock | engine/engine.go:249-356 | The from_block cases of ResolveParent's statement: pinned version, unreadable state, recorded digest, or building the parent first through the actual chain of resolution and run that BuildParentFirst states |
| Engine.Engine.BuildParentFirst | engine/engine.go:296-331 | The parent's own parent is resolved first, from the world before, as ResolveParentWithVisited states (its failure is reported as "failed to resolve parent dependencies", with the world it left, and ends the call); the parent is then run from that world as RunBlock states (its failure is "failed to execute parent block"); after a successful run the parent is on record as a completed run, and the result is its digest, or "still has no digest after execution" exactly when that digest is empty; the visited set is unchanged |
| Engine.Engine.FindStart | engine/engine.go:197-207 | The loop computes StartIndex |
| Engine.Engine.RunUp | engine/engine.go:196-227 | Runs the blocks from the start block on, in order, each call a RunBlock step from the world the previous one left, from the world before to the world after; stops at the first failure unless continue-on-error, with the "block <id> failed" error |
| Validation.FirstBadEnv | config/validate.go:88-92 | The first environment entry without '=', or none when every entry has one |
| Validation.BlockError | config/validate.go:51-102 | The block has no error exactly when it passes every block rule |
| Validation.ValidateBlock | config/validate.go:51-102 | Reports the first failing check, in the source's order, with its message |
| Validation.BlocksErrorIff | config/validate.go:24-40 | The block loop accepts exactly lists with non-empty distinct ids whose blocks pass against the ids seen so far |
| Validation.DepsOfLookup | config/validate.go:107-112 | With distinct ids, the graph holds exactly the edge each block names |
| Validation.AllReachEndIsCycleFree | config/validate.go:130-146 | If every node reaches a node without an edge, the graph has no cycle |
| Validation.ChainReaches | config/validate.go:130-146 | The search path is a walk along edges to the current node |
| Validation.ClosedChainIsCycle | config/validate.go:130-146 | An edge from the search path's end back onto it closes a cycle |
| Validation.CycleChecker.HasCycle | config/validate.go:130-146 | true means the graph has a cycle; false means the node reaches an end, and recStack is restored |
| Validation.CheckCircularDependencies | config/validate.go:105-127 | Reports an error exactly when the from_block graph has a cycle, whatever order the nodes are tried in |
| Validation.Validate | config/validate.go:11-48 | Reports the first failing check: version, name, no blocks, the block loop, then cycles |
| Validation.ValidateAcceptsValid | config/validate.go:11-48 | Validate accepts exactly the valid projects |
| Validation.SelfReferenceRejected | config/validate.go:105-127 | A block naming itself as its parent is rejected by the cycle check |
| Validation.AcceptedIsWellFormed | config/validate.go:11-48 | An accepted project has distinct ids and every parent listed earlier, which is what the engine needs |
| Validation.ForwardReferenceRejected | config/validate.go:61-66 | A from_block naming a later block is rejected |
| Validation.MutualReferenceRejected | config/validate.go:61-66 | Two blocks naming each other fail at the first block's unknown-parent check |
| Validation.RootOf | config/validate.go:61-66 | Following parents from a block reaches a block without from_block |
| Validation.ChainEndsAtFrom | config/validate.go:51-102 | In an accepted project every parent chain ends at a block built from an image |
| Config.ApplyDefaults | config/config.go:31-56 | The loop computes the defaulted project |
| Config.DefaultsProperties | config/config.go:31-56 | Network and shell are set and explicit settings kept; every block gets a network, its own network and resources win, and nothing else changes |
| Config.DefaultsIdempotent | config/config.go:31-56 | Applying the defaults twice is applying them once |
| Config.Dir | config/config.go:67-70 | A directory is its own parent exactly at the root; otherwise the last component is dropped |
| Config.FindConfigFile | config/config.go:59-75 | Finds dockstep.yaml in the nearest directory that has one, the start directory first, or reports not found |
| Config.WalkReachesRoot | config/config.go:67-70 | Each step climbs one level, and the walk ends at a directory that is its own parent |
| Dockerignore.TrimLeft | buildcontext/dockerignore.go:22 | A suffix that does not start with white space |
| Dockerignore.TrimRight | buildcontext/dockerignore.go:22 | A prefix that does not end with white space |
| Dockerignore.TrimSpaceSpec | buildcontext/dockerignore.go:22 | TrimSpace removes exactly the white space at both ends |
| Dockerignore.TrimSpaceIdempotent | buildcontext/dockerignore.go:22 | Trimming twice is trimming once |
| Dockerignore.PatternsAppend | buildcontext/dockerignore.go:20-28 | Lines are filtered independently and in order |
| Dockerignore.PatternsClean | buildcontext/dockerignore.go:20-28 | Every pattern is trimmed, non-empty and not a comment |
| Dockerignore.ParseDockerignore | buildcontext/dockerignore.go:11-37 | Open and scanner errors are reported; otherwise the result is the trimmed non-blank, non-comment lines |
| BuildContext.ConvertToGlob | buildcontext/buildcontext.go:148-160 | A directory pattern gets "*" appended, a pattern without "/" gets "**/" prepended, any other pattern is kept |
| BuildContext.ConvertToGlobIdempotent | buildcontext/buildcontext.go:148-160 | Converting twice is converting once |
| BuildContext.ShouldIgnore | buildcontext/buildcontext.go:114-145 | The pattern loop computes Ignored |
| BuildContext.FirstDecisionWins | buildcontext/buildcontext.go:114-145 | A path is ignored exactly when some pattern says ignore and no earlier pattern decides anything |
| BuildContext.IgnoredAppend | buildcontext/buildcontext.go:114-145 | Patterns in front decide first; the rest decide only when none in front did |
| BuildContext.SkippedPatternsIrrelevant | buildcontext/buildcontext.go:118-123 | Blank and comment patterns have no effect wherever they stand |
| BuildContext.IgnoredAfterParsing | buildcontext/dockerignore.go:11-37 | Matching the parsed .dockerignore decides as matching its raw lines |
| BuildContext.ArchivedIsFilter | buildcontext/buildcontext.go:45-111 | The walk archives exactly the paths that are not ignored and lie under no ignored directory, in walk order |
| BuildContext.TarWriter.WriteHeader | buildcontext/buildcontext.go:78-80 | One entry is added at the end of the stream |
| BuildContext.AddToTar | buildcontext/buildcontext.go:45-111 | The stream gains the entry names of exactly the archived paths, in walk order, with relative-path names; the source's own naming is ArchivedNamesAsWritten, see Findings |
| BuildContext.BaseNameCollision | buildcontext/buildcontext.go:64-76 | As written, a/x and b/x are both named "x"; with relative names they are "a/x" and "b/x" |
| BuildContext.HeaderNameInjective | buildcontext/buildcontext.go:64-76 | Clean relative paths have the same entry name exactly when they are equal |
| BuildContext.CorrectedNamesDistinct | buildcontext/buildcontext.go:64-76 | With relative names, no two archived entries share a name, whatever the patterns |

## Left out

- Docker: the daemon is the `DockerRuntime.Runtime` oracle. Image
  contents, layers, the build context stream and daemon errors other than
  a failed pull or build are not modelled.
- The message the Docker daemon gives for a failed pull is the runtime
  parameter `pullError`. The client's and the engine's "failed to pull
  image <ref>:" prefixes around it are modelled.
- A cache index file holding JSON `null` decodes to a nil map without error
  (store/cache.go:68-74). A later `SetCachedDigest` would then write into
  that nil map and panic (store/cache.go:47). The index in the model is
  absent, corrupt or a set of entries, so this state is not modelled.
- SHA-256 and hex encoding are the function parameter `sha`, so collisions
  of the real hash are not modelled.
- `filepath.Match` is the function parameter `matcher`. Its glob semantics
  are not modelled, including the fact that "**/x" does not match a
  top-level "x" under Go's matcher.
- `filepath.ToSlash` and path cleaning are not modelled: paths are lists of
  clean components.
- `time.Now` is a clock that ticks once per reading, and durations are
  differences of readings. Wall-clock formatting is not modelled.
- `os.ReadDir` returns entries sorted by name. The model walks entries in the
  order the tree lists them, and sortedness is not a precondition.
- In `addToTar`, errors from Stat, ReadDir, Open and Copy, and file
  contents, are not modelled: only the entry names are.
- `CreateContextTar` (the pipe and its goroutine), `createContextTar` and
  `copyBuildContext` in the engine, and the temporary build directory are
  not part of this model.
- Writes into `.dockstep` never fail in the model. This covers MkdirAll,
  WriteFile, OpenFile and `saveCache`, so the "failed to save ..." error
  returns of RunBlock and the store are not modelled.
- Engine.Engine.BuildBlock does not model the context directory choice,
  the temporary directory, writing the Dockerfile into it or copying the
  context, or the errors of those steps. They are file-system work outside
  this model.
- JSON encoding is not modelled: a state file either decodes or does not,
  and a history line either is a record or is garbled.
- `bufio.Scanner` line splitting and its token-size limit are not modelled.
  The file arrives as lines plus the scanner's final error.
- Debug and warning prints, and the display of cached logs, are left out.
- Go map iteration order in `checkCircularDependencies` is a
  nondeterministic choice in the model, and the verdict is proved
  independent of it.
- `Resources` is shared by reference between the project and the blocks
  that inherit it. The model copies the value, so that aliasing is not
  modelled.
- Engine.Engine.RunBlock assumes a validated project (ids distinct, parents
  listed earlier), as the command line guarantees by calling `Validate`
  first. Under that assumption the engine's "parent block not found in
  project" branches cannot be reached. Neither can the "failed to reload
  state" branch after a parent run, because a run without error has just
  recorded the parent's state.
- StateStore.Store.LoadDockerfileSnapshot only states the empty-digest
  error. Other reads are stated through SaveDockerfileSnapshot.
- Engine.Engine.ResolveParentWithVisited states the circular-dependency
  error only for a block already in the visited set. Under the
  validated-project assumption that set never holds the block.
- `Parse` (YAML decoding), export, the UI server and the commands are not
  part of this model.

## Findings

| source | as written | input that shows it | evidently intended | confidence | as-written member | corrected member |
|---|---|---|---|---|---|---|
| store/store.go:138-141 | The success log of block id is the file `logs/<id>.success.log`, which is also the regular log file of a block whose id is `<id>.success` | Blocks "a" and "a.success": saving "a"'s success log overwrites "a.success"'s log | Success logs and regular logs never share a file | not executed | StoreFiles.SuccessLogOverwritesOtherLog | StateStore.Store.SaveSuccessfulLogs |
| buildcontext/buildcontext.go:64-76 | Every file below the context root is archived under `filepath.Base` of its path, its last component alone | A context with files a/x and b/x: the archive has two entries named "x" and none named "a/x" or "b/x" | Each entry is named by its path relative to the context root, so names are distinct | not executed | BuildContext.BaseNameCollision | BuildContext.CorrectedNamesDistinct |
