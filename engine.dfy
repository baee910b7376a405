/**
 * The execution orchestrator. RunBlock is a per-block state machine over the
 * persisted store, the cache index and the Docker runtime: find the block,
 * resolve its parent (building an unbuilt parent block first), hash it, and
 * either record a cache hit or record `running`, build, and record `failed`
 * or `success`. RunUp runs the block list in order.
 *
 * Termination rests on the project having passed validation: ids are unique
 * and every `from_block` names an earlier block (Types.WellFormed), so each
 * recursive resolution moves to a block with a smaller index.
 */
module Engine {
  import opened Types
  import opened StateStore
  import opened CacheIndex
  import opened DockerRuntime
  import opened EngineText

  /** The `visited` map of resolveParentWithVisited: ids whose resolution is in progress. */
  class VisitedSet {
    var ids: set<string>

    constructor ()
      ensures ids == {}
    {
      ids := {};
    }
  }

  /** The image reference a child of `parent` is built FROM: the parent's base image if it has one, else the digest. */
  function ParentRef(parent: Block, digest: string): string {
    if parent.from != "" then parent.from else digest
  }

  /** The logs after appending each chunk in turn; the log is created by the first append. */
  function AppendedLogs(logs: map<string, Bytes>, id: string, chunks: seq<Bytes>): map<string, Bytes> {
    if |chunks| == 0 then logs else logs[id := LogOrEmpty(logs, id) + Flatten(chunks)]
  }

  /** Block ids in list order. */
  function Ids(bs: seq<Block>): (ids: seq<string>)
    ensures |ids| == |bs| && forall k :: 0 <= k < |bs| ==> ids[k] == bs[k].id
  {
    seq(|bs|, k requires 0 <= k < |bs| => bs[k].id)
  }

  /** A second update of the same key replaces the first. */
  lemma Overwrite<K, V>(m: map<K, V>, k: K, a: V, b: V)
    ensures m[k := a][k := b] == m[k := b]
  {
  }

  lemma IdsExtend(bs: seq<Block>, a: nat, i: nat)
    requires a <= i < |bs|
    ensures Ids(bs[a..i + 1]) == Ids(bs[a..i]) + [bs[i].id]
  {
    assert bs[a..i + 1] == bs[a..i] + [bs[i]];
  }

  /** Where RunUp starts: the first block with the requested id, or the first block. */
  function StartIndex(bs: seq<Block>, fromBlock: string): (start: nat)
    ensures start == 0 || start < |bs|
  {
    if fromBlock == "" then 0
    else match IndexOf(bs, fromBlock)
      case Some(i) => i
      case None => 0
  }

  /**
   * Everything a run can change, as one value: the store's records, the cache
   * index, the local images and the runtime's build and clock counters.
   */
  datatype World = World(
    states: map<string, StateFile>,
    logs: map<string, Bytes>,
    successLogs: map<string, Bytes>,
    digests: map<string, string>,
    history: map<string, seq<HistoryLine>>,
    snapshots: map<string, string>,
    index: IndexFile,
    local: map<string, string>,
    builds: nat,
    clock: nat)

  /**
   * How a parent resolution went: directly, or by building an unbuilt parent
   * first, in which case the parent's own resolution (`sub`, described by
   * `subTrace`, ending in world `mid`) and the run of the parent (`run`,
   * described by `runTrace`) are recorded.
   */
  datatype ResolveTrace =
    | Direct
    | ParentFirst(sub: Result<(string, string), string>, subTrace: ResolveTrace, mid: World,
                  run: Option<string>, runTrace: RunTrace)

  /** What one RunBlock call did besides returning: the parent resolution and how it went, the world just after it, and whether the cache was hit. */
  datatype RunTrace = RunTrace(resolved: Result<(string, string), string>, resolution: ResolveTrace, mid: World, hit: bool)

  function CircularError(id: string): string {
    "circular dependency detected: block " + id + " depends on itself"
  }

  function DepsFailed(parent: string): string {
    "failed to resolve parent dependencies for " + parent + ": "
  }

  function RunFailed(parent: string): string {
    "failed to execute parent block " + parent + ": "
  }

  function NoDigestError(parent: string): string {
    "parent block " + parent + " still has no digest after execution"
  }

  /** Reading a parent's digest back after running it: its state must load and hold a digest. */
  function Reloaded(states: map<string, StateFile>, parent: string): Result<string, string> {
    match StateOf(states, parent)
    case Err(e) => Err("failed to reload state for parent block " + parent + ": " + ErrorText(e))
    case Ok(st) => if st.digest == "" then Err(NoDigestError(parent)) else Ok(st.digest)
  }

  /** A parent digest together with the image reference children are built FROM. */
  function WithParentRef(parent: Block, d: Result<string, string>): Result<(string, string), string> {
    match d
    case Ok(digest) => Ok((ParentRef(parent, digest), digest))
    case Err(e) => Err(e)
  }

  /**
   * What RunBlock leaves on record for a block it ran to completion: a
   * `cached` state whose digest the cache holds for the hash, a `success`
   * state whose digest the cache and the digest record hold, or a `failed`
   * state with exit code 1 and no digest.
   */
  ghost predicate Recorded(w: World, b: Block, hash: string, force: bool) {
    b.id in w.states && w.states[b.id].Stored?
    && var st := w.states[b.id].state;
    st.id == b.id && st.hash == hash
    && match st.status
       case Cached => !force && Lookup(w.index, hash) == Some(st.digest)
       case Success =>
         st.exitCode == 0 && st.error == "" && Lookup(w.index, hash) == Some(st.digest)
         && b.id in w.digests && w.digests[b.id] == st.digest
       case Failed => st.exitCode == 1 && st.digest == ""
       case _ => false
  }

  /** The block's state on record is that of a completed, non-forced run under the hash it carries. */
  ghost predicate RanToCompletion(w: World, b: Block) {
    StateOf(w.states, b.id).Ok? && Recorded(w, b, StateOf(w.states, b.id).value.hash, false)
  }

  /**
   * A cache hit: a `cached` state with the cached digest, stamped with one
   * clock reading; nothing else changes.
   */
  ghost predicate HitRecorded(w0: World, w1: World, b: Block, h: string) {
    var cached := Lookup(w0.index, h);
    cached.Some?
    && w1 == w0.(states := w0.states[b.id := Stored(BlockState(b.id, Cached, cached.value, h, w0.clock, 0, 0, ""))],
                 clock := w0.clock + 1)
  }

  /** A failed build: exit code 1, the build error, two clock readings for the duration. */
  ghost predicate BuildFailed(w0: World, w1: World, b: Block, h: string, e: string) {
    var c := w0.clock;
    w1.states == w0.states[b.id := Stored(BlockState(b.id, Failed, "", h, c, 1, 2, "failed to build image: " + e))]
    && w1.successLogs == w0.successLogs && w1.digests == w0.digests
    && w1.snapshots == w0.snapshots && w1.history == w0.history
    && w1.index == w0.index && w1.clock == c + 4
  }

  /** A successful build of the given Dockerfile that streamed the given log. */
  ghost predicate BuildSucceeded(w0: World, w1: World, b: Block, h: string, d: string, df: string, log: Bytes) {
    var c := w0.clock;
    w1.states == w0.states[b.id := Stored(BlockState(b.id, Success, d, h, c, 0, 3, ""))]
    && w1.successLogs == (if |log| > 0 then w0.successLogs[b.id := log] else w0.successLogs)
    && w1.digests == w0.digests[b.id := d]
    && w1.snapshots == (if d == "" then w0.snapshots else w0.snapshots[d := df])
    && w1.history == w0.history[b.id :=
         HistoryOrEmpty(w0.history, b.id) + [Entry(ImageRecord(ImageTag(b.id, c + 2), d, c + 3, df))]]
    && w1.index == WithEntry(w0.index, h, d) && w1.clock == c + 5
  }

  class Engine {
    const store: Store
    const cache: Cache
    const runtime: Runtime
    /** Hex SHA-256 of a string, kept abstract. */
    const sha: string -> string
    var project: Project

    constructor (store: Store, cache: Cache, runtime: Runtime, sha: string -> string, project: Project)
      ensures this.store == store && this.cache == cache && this.runtime == runtime
      ensures this.sha == sha && this.project == project
    {
      this.store := store;
      this.cache := cache;
      this.runtime := runtime;
      this.sha := sha;
      this.project := project;
    }

    /** What a validated project guarantees the engine. */
    ghost predicate Valid()
      reads this
    {
      WellFormed(project.blocks)
    }

    /** Position of a block in the list; resolution only ever moves to smaller positions. */
    function Rank(id: string): nat
      reads this
    {
      match IndexOf(project.blocks, id)
      case Some(i) => i
      case None => 0
    }

    /** The block a listed block's `from_block` names. */
    ghost function ParentOf(b: Block): (p: Block)
      reads this
      requires Valid() && b in project.blocks && b.fromBlock != ""
      ensures p in project.blocks && p.id == b.fromBlock && Rank(p.id) < Rank(b.id)
    {
      BlockParent(project.blocks, b);
      project.blocks[IndexOf(project.blocks, b.fromBlock).value]
    }

    /** The `for _, b := range e.project.Blocks` searches: the first block with the id. */
    method FindBlock(id: string) returns (found: Option<Block>)
      ensures IndexOf(project.blocks, id).None? ==> found.None?
      ensures IndexOf(project.blocks, id).Some? ==> found == Some(project.blocks[IndexOf(project.blocks, id).value])
    {
      var i := 0;
      while i < |project.blocks|
        invariant 0 <= i <= |project.blocks|
        invariant forall k :: 0 <= k < i ==> project.blocks[k].id != id
      {
        if project.blocks[i].id == id {
          return Some(project.blocks[i]);
        }
        i := i + 1;
      }
      return None;
    }

    /** The current world. */
    ghost function Snap(): World
      reads store, cache, runtime
    {
      World(store.states, store.logs, store.successLogs, store.digests, store.history, store.snapshots,
            cache.index, runtime.local, runtime.builds, runtime.clock)
    }

    /** The result of pulling and inspecting an external base image. */
    function PullOutcome(ref: string): Result<(string, string), string> {
      if ref in runtime.registry then Ok((ref, runtime.registry[ref]))
      else Err("failed to pull image " + ref + ": " + runtime.PullFailure(ref))
    }

    /**
     * How the parent of a listed block resolves, from world w0 to world w1. An
     * external image is pulled and its digest used. A pinned
     * `from_block_version` is used as is, without loading state or building.
     * An unpinned parent with a digest on record is used without building, and
     * an unreadable parent state is an error. Otherwise the parent is resolved
     * and run first: either one of those two steps fails (the error says which),
     * or the parent ends up recorded as a completed run and its digest on
     * record, if any, is the result.
     */
    ghost predicate Resolved(w0: World, w1: World, b: Block, r: Result<(string, string), string>,
                             visited: set<string>, tr: ResolveTrace)
      reads this
      requires Valid() && b in project.blocks
      decreases Rank(b.id), 1
    {
      if b.from != "" then
        r == PullOutcome(b.from)
        && w1 == w0.(local := if r.Ok? then w0.local[b.from := r.value.1] else w0.local)
      else if b.fromBlock == "" then
        r == Err("block has no parent specified") && w1 == w0
      else
        var p := ParentOf(b);
        var v := b.fromBlockVersion;
        var before := StateOf(w0.states, b.fromBlock);
        if v != "" then
          r == Ok((ParentRef(p, v), v)) && w1 == w0
        else if before == Err(DecodeError) then
          r == Err("failed to load state for parent block " + b.fromBlock + ": " + ErrorText(DecodeError)) && w1 == w0
        else if before.Ok? && before.value.digest != "" then
          r == Ok((ParentRef(p, before.value.digest), before.value.digest)) && w1 == w0
        else
          BuiltFirst(w0, w1, p, r, visited, tr)
    }

    /**
     * Resolution while the ids in `visited` are being resolved: a `from_block`
     * block among them is a cycle; any other block is resolved with its own id
     * added to the set.
     */
    ghost predicate ResolvedWith(w0: World, w1: World, b: Block, r: Result<(string, string), string>,
                                 visited: set<string>, tr: ResolveTrace)
      reads this
      requires Valid() && b in project.blocks
      decreases Rank(b.id), 2
    {
      if b.from == "" && b.fromBlock != "" && b.id in visited then r == Err(CircularError(b.id)) && w1 == w0
      else Resolved(w0, w1, b, r, visited + {b.id}, tr)
    }

    /**
     * The resolution of a child whose parent p has no digest on record, from
     * world w0 to world w1: p's own parent is resolved first, and its failure
     * ends the resolution with "failed to resolve parent dependencies"; then p
     * is run as RunBlock does, and its failure ends it with "failed to execute
     * parent block"; after a run without error p is on record as a completed
     * run and its digest, if any, is the result.
     */
    ghost predicate BuiltFirst(w0: World, w1: World, p: Block, r: Result<(string, string), string>,
                               visited: set<string>, tr: ResolveTrace)
      reads this
      requires Valid() && p in project.blocks
      decreases Rank(p.id) + 1, 0
    {
      tr.ParentFirst?
      && ResolvedWith(w0, tr.mid, p, tr.sub, visited, tr.subTrace)
      && (tr.sub.Err? ==> r == Err(DepsFailed(p.id) + tr.sub.error) && w1 == tr.mid)
      && (tr.sub.Ok? ==>
            BlockRun(tr.mid, w1, p.id, false, tr.run, tr.runTrace)
            && (tr.run.Some? ==> r == Err(RunFailed(p.id) + tr.run.value))
            && (tr.run.None? ==> RanToCompletion(w1, p) && r == WithParentRef(p, Reloaded(w1.states, p.id))))
    }

    /**
     * A build run from the `running` state on: the log holds exactly what the
     * build streamed; a failure is recorded with exit code 1 and the build
     * error, a success with the digest, the success log (when the log is not
     * empty), the buildBlock records and the cache entry. Clock readings: the
     * running state's timestamp, the build start, the tag, the history record
     * (on success) and the build end; the duration is end minus start.
     */
    ghost predicate BuildOutcome(w0: World, w1: World, b: Block, parentRef: string, h: string) {
      var df := Dockerfile(parentRef, b.instructions);
      var script := runtime.outcome(w0.builds, df);
      w1.builds == w0.builds + 1 && w1.local == w0.local
      && w1.logs == w0.logs[b.id := Flatten(script.chunks)]
      && (script.result.Err? ==> BuildFailed(w0, w1, b, h, script.result.error))
      && (script.result.Ok? ==> BuildSucceeded(w0, w1, b, h, script.result.value, df, Flatten(script.chunks)))
    }

    /** RunBlock from the hash on: a hit exactly when not forced and the cache holds the hash; anything else is built. */
    ghost predicate Executed(w0: World, w1: World, b: Block, parentRef: string, h: string, force: bool, hit: bool) {
      Recorded(w1, b, h, force)
      && (hit <==> !force && Lookup(w0.index, h).Some?)
      && (hit ==> HitRecorded(w0, w1, b, h))
      && (!hit ==> BuildOutcome(w0, w1, b, parentRef, h))
    }

    /**
     * One RunBlock call from world w0 to world w1: an unknown id changes
     * nothing; otherwise the parent resolves as Resolved says, a resolution
     * error ends the call there, and a resolved parent digest leads to the
     * hash of the block under it being executed.
     */
    ghost predicate BlockRun(w0: World, w1: World, id: string, force: bool, err: Option<string>, t: RunTrace)
      reads this
      requires Valid()
      decreases Rank(id), 3
    {
      match IndexOf(project.blocks, id)
      case None => err == Some("block " + id + " not found") && w1 == w0
      case Some(i) =>
        var b := project.blocks[i];
        ResolvedWith(w0, t.mid, b, t.resolved, {}, t.resolution)
        && match t.resolved
           case Err(e) => err == Some("failed to resolve parent digest: " + e) && w1 == t.mid
           case Ok(res) => err == None && Executed(t.mid, w1, b, res.0, BlockHash(sha, b, res.1), force, t.hit)
    }

    /** A RunBlock call without error leaves its block recorded as a completed run. */
    /** The outcomes of building a parent first, gathered into BuiltFirst for the wrapped result. */
    lemma GatherBuiltFirst(w0: World, w1: World, p: Block, r: Result<string, string>, visited: set<string>, tr: ResolveTrace)
      requires Valid() && p in project.blocks && tr.ParentFirst?
      requires ResolvedWith(w0, tr.mid, p, tr.sub, visited, tr.subTrace)
      requires tr.sub.Err? ==> r == Err(DepsFailed(p.id) + tr.sub.error) && w1 == tr.mid
      requires tr.sub.Ok? ==> BlockRun(tr.mid, w1, p.id, false, tr.run, tr.runTrace)
      requires tr.sub.Ok? && tr.run.Some? ==> r == Err(RunFailed(p.id) + tr.run.value)
      requires tr.sub.Ok? && tr.run.None? ==> RanToCompletion(w1, p) && r == Reloaded(w1.states, p.id)
      ensures BuiltFirst(w0, w1, p, WithParentRef(p, r), visited, tr)
    {
    }

    lemma SucceededRunIsRecorded(w0: World, w1: World, id: string, force: bool, t: RunTrace)
      requires Valid() && BlockRun(w0, w1, id, force, None, t)
      ensures IndexOf(project.blocks, id).Some?
      ensures RanToCompletion(w1, project.blocks[IndexOf(project.blocks, id).value])
    {
      var b := project.blocks[IndexOf(project.blocks, id).value];
      var h := BlockHash(sha, b, t.resolved.value.1);
      assert Recorded(w1, b, h, force);
    }

    /**
     * A sequence of RunBlock calls: the k-th runs ids[k] from worlds[k] to
     * worlds[k + 1], returning results[k], as traces[k] describes.
     */
    ghost predicate RanInOrder(worlds: seq<World>, ids: seq<string>, force: bool, results: seq<Option<string>>,
                               traces: seq<RunTrace>)
      reads this
      requires Valid()
      ensures RanInOrder(worlds, ids, force, results, traces) ==>
        |worlds| == |ids| + 1 && |results| == |ids| && |traces| == |ids|
    {
      |worlds| == |ids| + 1 && |results| == |ids| && |traces| == |ids|
      && forall k :: 0 <= k < |ids| ==> BlockRun(worlds[k], worlds[k + 1], ids[k], force, results[k], traces[k])
    }

    lemma RanInOrderEmpty(w: World, force: bool)
      requires Valid()
      ensures RanInOrder([w], [], force, [], [])
    {
    }

    lemma RanInOrderExtend(worlds: seq<World>, ids: seq<string>, force: bool, results: seq<Option<string>>,
                           traces: seq<RunTrace>, w: World, id: string, err: Option<string>, t: RunTrace)
      requires Valid() && RanInOrder(worlds, ids, force, results, traces)
      requires BlockRun(worlds[|ids|], w, id, force, err, t)
      ensures RanInOrder(worlds + [w], ids + [id], force, results + [err], traces + [t])
    {
      hide BlockRun;
    }

    /** RunBlock. A failed build is recorded in the state but is not an error of the call. */
    method RunBlock(id: string, opts: RunOptions) returns (err: Option<string>, ghost trace: RunTrace)
      requires Valid()
      modifies store, cache, runtime
      decreases Rank(id), 4
      ensures BlockRun(old(Snap()), Snap(), id, opts.force, err, trace)
    {
      hide ResolvedWith, Executed;
      var found := FindBlock(id);
      if found.None? {
        return Some("block " + id + " not found"), RunTrace(Err(""), Direct, Snap(), false);
      }
      var block := found.value;
      var resolution;
      ghost var how;
      resolution, how := ResolveParent(block);
      ghost var mid := Snap();
      if resolution.Err? {
        return Some("failed to resolve parent digest: " + resolution.error), RunTrace(resolution, how, mid, false);
      }
      var parentImageRef := resolution.value.0;
      var parentDigest := resolution.value.1;
      ghost var hit, statesAtBuild, logAtBuild;
      err, hit, statesAtBuild, logAtBuild := Execute(block, parentImageRef, parentDigest, opts);
      trace := RunTrace(resolution, how, mid, hit);
    }

    /** RunBlock from the hash on: a cache hit is recorded, anything else is built. */
    method Execute(b: Block, parentRef: string, parentDigest: string, opts: RunOptions)
      returns (err: Option<string>, ghost hit: bool, ghost statesAtBuild: map<string, StateFile>, ghost logAtBuild: Bytes)
      modifies store`states, store`logs, store`successLogs, store`digests, store`snapshots, store`history
      modifies cache`index, runtime`builds, runtime`clock
      ensures err == None
      ensures Executed(old(Snap()), Snap(), b, parentRef, BlockHash(sha, b, parentDigest), opts.force, hit)
      ensures !hit ==>
        statesAtBuild == old(store.states)[b.id := Stored(
          BlockState(b.id, Running, "", BlockHash(sha, b, parentDigest), old(runtime.clock), 0, 0, ""))]
        && logAtBuild == []
    {
      hide ImageTag, Dockerfile, Flatten, HistoryOrEmpty, WithEntry, Recorded, BlockHash, HitRecorded, BuildOutcome;
      var hash := ComputeBlockHash(sha, b, parentDigest);
      if !opts.force {
        var cachedDigest, cached := cache.GetCachedDigest(hash);
        if cached {
          RecordHit(b, hash, cachedDigest);
          return None, true, map[], [];
        }
      }
      statesAtBuild, logAtBuild := BuildAndRecord(b, parentRef, hash, opts.force);
      return None, false, statesAtBuild, logAtBuild;
    }

    /** The cache-hit branch of RunBlock; the logs of the previous run are only displayed. */
    method RecordHit(b: Block, hash: string, cachedDigest: string)
      requires Lookup(cache.index, hash) == Some(cachedDigest)
      modifies store`states, runtime`clock
      ensures HitRecorded(old(Snap()), Snap(), b, hash) && Recorded(Snap(), b, hash, false)
    {
      var now := runtime.Now();
      store.SaveBlockState(b.id, BlockState(b.id, Cached, cachedDigest, hash, now, 0, 0, ""));
    }

    /** The part of RunBlock that records `running`, clears the log, builds and records the outcome. */
    method BuildAndRecord(b: Block, parentRef: string, hash: string, ghost force: bool)
      returns (ghost statesAtBuild: map<string, StateFile>, ghost logAtBuild: Bytes)
      modifies store`states, store`logs, store`successLogs, store`digests, store`snapshots, store`history
      modifies cache`index, runtime`builds, runtime`clock
      ensures Recorded(Snap(), b, hash, force)
      ensures statesAtBuild == old(store.states)[b.id := Stored(
        BlockState(b.id, Running, "", hash, old(runtime.clock), 0, 0, ""))]
      ensures logAtBuild == []
      ensures BuildOutcome(old(Snap()), Snap(), b, parentRef, hash)
    {
      hide ImageTag, Dockerfile, Flatten, HistoryOrEmpty, WithEntry, Lookup, Recorded, StateOf;
      var state := StartBuild(b, hash);
      statesAtBuild, logAtBuild := store.states, store.logs[b.id];
      ghost var script := runtime.outcome(runtime.builds, Dockerfile(parentRef, b.instructions));
      var built, duration := TimedBuild(b, parentRef);
      RecordOutcome(b, state, built, duration);
      Overwrite(old(store.states), b.id, Stored(state), store.states[b.id]);
      Overwrite(old(store.logs), b.id, [], Flatten(script.chunks));
      if built.Ok? {
        assert BuildSucceeded(old(Snap()), Snap(), b, hash, built.value, Dockerfile(parentRef, b.instructions), Flatten(script.chunks));
      } else {
        assert BuildFailed(old(Snap()), Snap(), b, hash, script.result.error);
      }
    }

    /** The `running` state, stamped with one clock reading, and the cleared log. */
    method StartBuild(b: Block, hash: string) returns (state: BlockState)
      modifies store`states, store`logs, runtime`clock
      ensures state == BlockState(b.id, Running, "", hash, old(runtime.clock), 0, 0, "")
      ensures store.states == old(store.states)[b.id := Stored(state)]
      ensures store.logs == old(store.logs)[b.id := []]
      ensures runtime.clock == old(runtime.clock) + 1
    {
      var now := runtime.Now();
      state := BlockState(b.id, Running, "", hash, now, 0, 0, "");
      store.SaveBlockState(b.id, state);
      store.ClearLogs(b.id);
    }

    /** buildBlock between two clock readings, on a cleared log; the duration is their difference. */
    method TimedBuild(b: Block, parentRef: string) returns (built: Result<string, string>, duration: nat)
      requires b.id in store.logs && store.logs[b.id] == []
      modifies store`logs, store`digests, store`snapshots, store`history, runtime`builds, runtime`clock
      ensures
        var script := runtime.outcome(old(runtime.builds), Dockerfile(parentRef, b.instructions));
        runtime.builds == old(runtime.builds) + 1
        && store.logs == old(store.logs)[b.id := Flatten(script.chunks)]
        && (script.result.Err? ==> built == Err("failed to build image: " + script.result.error))
        && (script.result.Ok? ==> built == script.result)
      ensures duration == (if built.Ok? then 3 else 2) && runtime.clock == old(runtime.clock) + duration + 1
      ensures built.Err? ==>
        store.digests == old(store.digests) && store.snapshots == old(store.snapshots)
        && store.history == old(store.history)
      ensures built.Ok? ==>
        BuildRecorded(b.id, ImageTag(b.id, old(runtime.clock) + 1), built.value, old(runtime.clock) + 2,
                      Dockerfile(parentRef, b.instructions))
    {
      hide ImageTag, Dockerfile;
      var startTime := runtime.Now();
      ghost var script := runtime.outcome(runtime.builds, Dockerfile(parentRef, b.instructions));
      built := BuildBlock(b, parentRef);
      assert store.logs == old(store.logs)[b.id := Flatten(script.chunks)] by {
        if |script.chunks| == 0 {
          assert Flatten(script.chunks) == [];
        } else {
          assert [] + Flatten(script.chunks) == Flatten(script.chunks);
        }
      }
      var endTime := runtime.Now();
      duration := endTime - startTime;
    }

    /**
     * The end of RunBlock after the build: the final state (failed with exit
     * code 1 and the error, or success with the digest), the success log copy
     * of a non-empty log, and on success the cache entry for the hash.
     */
    method RecordOutcome(b: Block, running: BlockState, built: Result<string, string>, duration: nat)
      requires running.id == b.id && running.digest == "" && running.error == ""
      requires built.Ok? ==> b.id in store.digests && store.digests[b.id] == built.value
      modifies store`states, store`successLogs, cache`index
      ensures built.Err? ==>
        store.states == old(store.states)[b.id := Stored(
          running.(status := Failed, error := built.error, exitCode := 1, duration := duration))]
        && store.successLogs == old(store.successLogs) && cache.index == old(cache.index)
      ensures built.Ok? ==>
        store.states == old(store.states)[b.id := Stored(
          running.(status := Success, digest := built.value, exitCode := 0, duration := duration))]
        && store.successLogs == (if b.id in store.logs && |store.logs[b.id]| > 0
                                 then old(store.successLogs)[b.id := store.logs[b.id]]
                                 else old(store.successLogs))
        && cache.index == WithEntry(old(cache.index), running.hash, built.value)
      ensures Recorded(Snap(), b, running.hash, false) && Recorded(Snap(), b, running.hash, true)
    {
      var exitCode := if built.Err? then 1 else 0;
      var state := running.(duration := duration, exitCode := exitCode);
      if built.Err? {
        state := state.(status := Failed, error := built.error);
      } else if exitCode != 0 {
        assert false;
      } else {
        state := state.(status := Success, digest := built.value);
        var successfulLogs := store.LoadLogs(b.id);
        if successfulLogs.Ok? && |successfulLogs.value| > 0 {
          store.SaveSuccessfulLogs(b.id, successfulLogs.value);
        }
      }

      store.SaveBlockState(b.id, state);
      if state.status == Success {
        cache.SetCachedDigest(running.hash, built.value);
      }
    }

    /**
     * buildBlock: writes the Dockerfile, tags the image with the block id and
     * the clock, builds it, and on success records what RecordBuild records.
     */
    method BuildBlock(b: Block, parentRef: string) returns (r: Result<string, string>)
      modifies store`logs, store`digests, store`snapshots, store`history, runtime`builds, runtime`clock
      ensures
        var script := runtime.outcome(old(runtime.builds), Dockerfile(parentRef, b.instructions));
        runtime.builds == old(runtime.builds) + 1
        && store.logs == AppendedLogs(old(store.logs), b.id, script.chunks)
        && (script.result.Err? ==> r == Err("failed to build image: " + script.result.error))
        && (script.result.Ok? ==> r == script.result)
      ensures runtime.clock == old(runtime.clock) + if r.Ok? then 2 else 1
      ensures r.Err? ==>
        store.digests == old(store.digests) && store.snapshots == old(store.snapshots)
        && store.history == old(store.history)
      ensures r.Ok? ==>
        BuildRecorded(b.id, ImageTag(b.id, old(runtime.clock)), r.value, old(runtime.clock) + 1,
                      Dockerfile(parentRef, b.instructions))
    {
      // The tag is only passed along; its definition is not needed here.
      hide ImageTag, Dockerfile, Flatten, HistoryOrEmpty, WithEntry, Lookup;
      var dockerfile := GenerateDockerfile(b, parentRef);
      var now := runtime.Now();
      var tag := ImageTag(b.id, now);
      var built := BuildImageWithLogs(dockerfile, tag, b.id);
      if built.Err? {
        return Err("failed to build image: " + built.error);
      }
      RecordBuild(b.id, tag, built.value, dockerfile);
      return Ok(built.value);
    }

    /**
     * What a successful buildBlock leaves on record: the digest, the
     * Dockerfile snapshot (not written for an empty digest) and one more
     * history record stamped with the clock reading after the build.
     */
    twostate predicate BuildRecorded(id: string, tag: string, digest: string, stamp: nat, dockerfile: string)
      reads store, runtime
    {
      store.digests == old(store.digests)[id := digest]
      && store.snapshots == (if digest == "" then old(store.snapshots) else old(store.snapshots)[digest := dockerfile])
      && store.history == old(store.history)[id :=
           HistoryOrEmpty(old(store.history), id) + [Entry(ImageRecord(tag, digest, stamp, dockerfile))]]
    }

    /** The record keeping at the end of buildBlock; a failed snapshot is only a warning. */
    method RecordBuild(id: string, tag: string, digest: string, dockerfile: string)
      modifies store`digests, store`snapshots, store`history, runtime`clock
      ensures BuildRecorded(id, tag, digest, old(runtime.clock), dockerfile)
      ensures runtime.clock == old(runtime.clock) + 1
    {
      store.SaveImageDigest(id, digest);
      var snapshotErr := store.SaveDockerfileSnapshot(digest, dockerfile);
      var stamp := runtime.Now();
      store.SaveImageHistory(id, ImageRecord(tag, digest, stamp, dockerfile));
    }

    /** buildImageWithLogs: every chunk the daemon streams is appended to the block's log. */
    method BuildImageWithLogs(dockerfile: string, tag: string, id: string) returns (r: Result<string, string>)
      modifies store`logs, runtime`builds
      ensures
        var script := runtime.outcome(old(runtime.builds), dockerfile);
        r == script.result && runtime.builds == old(runtime.builds) + 1
        && store.logs == AppendedLogs(old(store.logs), id, script.chunks)
    {
      var script := runtime.Build(dockerfile);
      for i := 0 to |script.chunks|
        invariant runtime.builds == old(runtime.builds) + 1
        invariant store.logs == AppendedLogs(old(store.logs), id, script.chunks[..i])
      {
        ghost var base := LogOrEmpty(old(store.logs), id);
        assert script.chunks[..i + 1][..i] == script.chunks[..i];
        assert Flatten(script.chunks[..i + 1]) == Flatten(script.chunks[..i]) + script.chunks[i];
        assert LogOrEmpty(store.logs, id) == base + Flatten(script.chunks[..i]) by {
          if i == 0 {
            assert Flatten(script.chunks[..0]) == [];
            assert base + [] == base;
          }
        }
        store.AppendLogs(id, script.chunks[i]);
        assert base + Flatten(script.chunks[..i + 1]) == (base + Flatten(script.chunks[..i])) + script.chunks[i];
      }
      assert script.chunks[..|script.chunks|] == script.chunks;
      return script.result;
    }

    /** resolveParent: resolution with a fresh visited set; `how` says how it went. */
    method ResolveParent(b: Block) returns (r: Result<(string, string), string>, ghost how: ResolveTrace)
      requires Valid() && b in project.blocks
      modifies store, cache, runtime
      decreases Rank(b.id), 3
      ensures ResolvedWith(old(Snap()), Snap(), b, r, {}, how)
    {
      var visited := new VisitedSet();
      r, how := ResolveParentWithVisited(b, visited);
    }

    /**
     * resolveParentWithVisited. A `from_block` block already being resolved is a
     * circular dependency; otherwise the block is marked for the duration of
     * its resolution and unmarked on every return path.
     */
    method ResolveParentWithVisited(b: Block, visited: VisitedSet)
      returns (r: Result<(string, string), string>, ghost how: ResolveTrace)
      requires Valid() && b in project.blocks
      modifies store, cache, runtime, visited
      decreases Rank(b.id), 2
      ensures visited.ids == old(visited.ids)
      ensures ResolvedWith(old(Snap()), Snap(), b, r, old(visited.ids), how)
    {
      how := Direct;
      if b.from != "" {
        var pullErr := runtime.PullImage(b.from);
        if pullErr.Some? {
          return Err("failed to pull image " + b.from + ": " + pullErr.value), how;
        }
        var inspected := runtime.InspectImage(b.from);
        if inspected.Err? {
          // a pulled image is always present locally
          assert false;
        }
        return Ok((b.from, inspected.value)), how;
      }
      if b.fromBlock != "" {
        if b.id in visited.ids {
          return Err(CircularError(b.id)), how;
        }
        visited.ids := visited.ids + {b.id};
        r, how := ResolveFromBlock(b, visited);
        visited.ids := visited.ids - {b.id};
        return;
      }
      return Err("block has no parent specified"), how;
    }

    /** The `from_block` part of resolveParentWithVisited, run while the block is marked visited. */
    method ResolveFromBlock(b: Block, visited: VisitedSet)
      returns (r: Result<(string, string), string>, ghost how: ResolveTrace)
      requires Valid() && b in project.blocks && b.from == "" && b.fromBlock != ""
      modifies store, cache, runtime, visited
      decreases Rank(b.id), 1
      ensures visited.ids == old(visited.ids)
      ensures Resolved(old(Snap()), Snap(), b, r, old(visited.ids), how)
    {
      hide ResolvedWith, BlockRun, BuiltFirst, RanToCompletion, Reloaded, Recorded, BlockHash, Lookup, PullOutcome, ErrorText, CircularError;
      how := Direct;
      BlockParent(project.blocks, b);
      if b.fromBlockVersion != "" {
        var pinned := FindBlock(b.fromBlock);
        if pinned.None? {
          assert false;
        }
        return Ok((ParentRef(pinned.value, b.fromBlockVersion), b.fromBlockVersion)), how;
      }

      var loaded := store.LoadBlockState(b.fromBlock);
      var digest: string;
      match loaded {
        case Err(NotExist) =>
          digest := "";
        case Err(DecodeError) =>
          return Err("failed to load state for parent block " + b.fromBlock + ": " + ErrorText(DecodeError)), how;
        case Ok(state) =>
          digest := state.digest;
      }

      if digest == "" {
        var built;
        built, how := BuildParentFirst(b, visited);
        if built.Err? {
          return Err(built.error), how;
        }
        digest := built.value;
      }

      var parent := FindBlock(b.fromBlock);
      if parent.None? {
        assert false;
      }
      return Ok((ParentRef(parent.value, digest), digest)), how;
    }

    /**
     * A `from_block` parent with no digest on record: resolve its own parent,
     * run it, and read back the digest it now has. `how` records both steps;
     * the result, paired with the parent's image reference, is the child's
     * resolution as BuiltFirst describes it.
     */
    method BuildParentFirst(b: Block, visited: VisitedSet) returns (r: Result<string, string>, ghost how: ResolveTrace)
      requires Valid() && b in project.blocks && b.from == "" && b.fromBlock != ""
      modifies store, cache, runtime, visited
      decreases Rank(b.id), 0
      ensures visited.ids == old(visited.ids)
      ensures BuiltFirst(old(Snap()), Snap(), ParentOf(b), WithParentRef(ParentOf(b), r), old(visited.ids), how)
    {
      hide BuiltFirst, Resolved, ResolvedWith, BlockRun, RanToCompletion, Recorded, Executed, PullOutcome, CircularError, ImageTag, Dockerfile, Flatten, HistoryOrEmpty, WithEntry, Lookup, BlockHash;
      ghost var w0 := Snap();
      BlockParent(project.blocks, b);
      var unbuilt := FindBlock(b.fromBlock);
      if unbuilt.None? {
        assert false;
      }
      ghost var subHow;
      var resolvedParent;
      resolvedParent, subHow := ResolveParentWithVisited(unbuilt.value, visited);
      ghost var mid := Snap();
      how := ParentFirst(resolvedParent, subHow, mid, None, RunTrace(resolvedParent, Direct, mid, false));
      if resolvedParent.Err? {
        r := Err(DepsFailed(b.fromBlock) + resolvedParent.error);
        GatherBuiltFirst(w0, mid, unbuilt.value, r, old(visited.ids), how);
        return;
      }
      var runErr;
      ghost var trace;
      runErr, trace := RunBlock(b.fromBlock, RunOptions(false, false));
      how := ParentFirst(resolvedParent, subHow, mid, runErr, trace);
      if runErr.Some? {
        r := Err(RunFailed(b.fromBlock) + runErr.value);
        GatherBuiltFirst(w0, Snap(), unbuilt.value, r, old(visited.ids), how);
        return;
      }
      SucceededRunIsRecorded(mid, Snap(), b.fromBlock, false, trace);
      var reloaded := store.LoadBlockState(b.fromBlock);
      if reloaded.Err? {
        // a parent run without error has left its state on record
        assert false;
      }
      if reloaded.value.digest == "" {
        r := Err(NoDigestError(b.fromBlock));
      } else {
        r := Ok(reloaded.value.digest);
      }
      GatherBuiltFirst(w0, Snap(), unbuilt.value, r, old(visited.ids), how);
    }

    /** The start of RunUp: the first block with the requested id, or the first block. */
    method FindStart(fromBlock: string) returns (startIndex: nat)
      ensures startIndex == StartIndex(project.blocks, fromBlock)
    {
      var bs := project.blocks;
      startIndex := 0;
      if fromBlock != "" {
        var i := 0;
        while i < |bs|
          invariant 0 <= i <= |bs|
          invariant forall k :: 0 <= k < i ==> bs[k].id != fromBlock
        {
          if bs[i].id == fromBlock {
            startIndex := i;
            break;
          }
          i := i + 1;
        }
      }
    }

    /**
     * RunUp: runs the blocks from the start block to the end of the list, in
     * order. The first failing call ends the run with its error unless
     * ContinueOnError is set, in which case every block is attempted and the
     * run succeeds. `ran` lists the ids run, `results` what each call
     * returned, `traces` what each call did, and `worlds` the world before
     * each call and after the last.
     */
    method RunUp(opts: UpOptions)
      returns (err: Option<string>, ghost ran: seq<string>, ghost results: seq<Option<string>>,
               ghost traces: seq<RunTrace>, ghost worlds: seq<World>)
      requires Valid()
      modifies store, cache, runtime
      ensures
        var bs := project.blocks;
        var start := StartIndex(bs, opts.fromBlock);
        start + |ran| <= |bs| && ran == Ids(bs[start..start + |ran|]) && |results| == |ran|
        && (err.None? ==>
              start + |ran| == |bs| && (opts.continueOnError || forall k :: 0 <= k < |results| ==> results[k].None?))
        && (err.Some? ==>
              !opts.continueOnError && |ran| > 0 && results[|ran| - 1].Some?
              && err == Some("block " + ran[|ran| - 1] + " failed: " + results[|ran| - 1].value)
              && forall k :: 0 <= k < |ran| - 1 ==> results[k].None?)
      ensures Valid() && RanInOrder(worlds, ran, opts.force, results, traces)
      ensures worlds[0] == old(Snap()) && worlds[|ran|] == Snap()
    {
      hide *;
      var bs := project.blocks;
      var startIndex := FindStart(opts.fromBlock);

      ran, results, traces, worlds := [], [], [], [Snap()];
      RanInOrderEmpty(Snap(), opts.force);
      var i := startIndex;
      while i < |bs|
        invariant startIndex <= i <= |bs| && i == startIndex + |ran|
        invariant project.blocks == bs && Valid()
        invariant ran == Ids(bs[startIndex..i]) && |results| == |ran|
        invariant RanInOrder(worlds, ran, opts.force, results, traces)
        invariant worlds[0] == old(Snap()) && worlds[|ran|] == Snap()
        invariant !opts.continueOnError ==> forall k :: 0 <= k < |results| ==> results[k].None?
      {
        var block := bs[i];
        var runErr;
        ghost var trace;
        runErr, trace := RunBlock(block.id, RunOptions(opts.force, false));
        IdsExtend(bs, startIndex, i);
        RanInOrderExtend(worlds, ran, opts.force, results, traces, Snap(), block.id, runErr, trace);
        ran, results, traces, worlds := ran + [block.id], results + [runErr], traces + [trace], worlds + [Snap()];
        if runErr.Some? && !opts.continueOnError {
          err := Some("block " + block.id + " failed: " + runErr.value);
          return;
        }
        i := i + 1;
      }
      err := None;
    }
  }
}
