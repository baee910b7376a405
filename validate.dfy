/**
 * Project validation (config/validate.go): required project fields, unique
 * non-empty block ids, per-block checks made against the ids seen so far in
 * the block list, and a depth-first search for cycles among `from_block`
 * references. Validate reports the first failing check, as the source does;
 * ProjectValid says declaratively what an accepted project looks like, and the
 * lemmas at the end connect it to what the engine relies on (Types.WellFormed).
 */
module Validation {
  import opened Types

  // ---------------------------------------------------------------------------
  // validateBlock
  // ---------------------------------------------------------------------------

  /** The network modes a block may name, in the order the source tries them. */
  const ValidNetworks: seq<string> := [NetworkDefault, NetworkNone, NetworkHost]

  predicate MountOk(m: Mount) {
    m.source != "" && m.target != ""
  }

  /** What validateBlock accepts, given the ids of the blocks seen so far (the block's own included). */
  ghost predicate BlockOk(b: Block, seen: set<string>) {
    && (b.from == "" <==> b.fromBlock != "")
    && (b.fromBlock != "" ==> b.fromBlock in seen)
    && (b.network == "" || b.network == NetworkDefault || b.network == NetworkNone || b.network == NetworkHost)
    && (forall e :: e in b.env ==> '=' in e)
    && (forall m :: m in b.mounts ==> m.source != "" && m.target != "")
  }

  /** Index of the first environment entry without `=`. */
  function FirstBadEnv(env: seq<string>): (r: Option<nat>)
    ensures r.Some? ==> r.value < |env| && '=' !in env[r.value]
    ensures r.Some? ==> forall k :: 0 <= k < r.value ==> '=' in env[k]
    ensures r.None? ==> forall k :: 0 <= k < |env| ==> '=' in env[k]
  {
    if |env| == 0 then None
    else if '=' !in env[0] then Some(0)
    else match FirstBadEnv(env[1..])
      case None => None
      case Some(i) => Some(i + 1)
  }

  /** The error validateBlock reports: the first check that fails, in the source's order. */
  function BlockError(b: Block, seen: set<string>): (r: Option<string>)
    ensures r.None? <==> BlockOk(b, seen)
  {
    if b.from == "" && b.fromBlock == "" then
      Some("either 'from' or 'from_block' must be specified")
    else if b.from != "" && b.fromBlock != "" then
      Some("cannot specify both 'from' and 'from_block'")
    else if b.fromBlock != "" && b.fromBlock !in seen then
      Some("from_block '" + b.fromBlock + "' does not exist")
    else if b.network != "" && b.network !in ValidNetworks then
      Some("invalid network mode: " + b.network)
    else if FirstBadEnv(b.env).Some? then
      Some("invalid environment variable format: " + b.env[FirstBadEnv(b.env).value] + " (must be KEY=VALUE)")
    else if exists k :: 0 <= k < |b.mounts| && !MountOk(b.mounts[k]) then
      Some("mount source and target are required")
    else
      None
  }

  /** validateBlock: checks one block against the ids of the blocks seen so far. */
  method ValidateBlock(b: Block, allBlockIds: set<string>) returns (err: Option<string>)
    ensures err == BlockError(b, allBlockIds)
  {
    if b.from == "" && b.fromBlock == "" {
      return Some("either 'from' or 'from_block' must be specified");
    }
    if b.from != "" && b.fromBlock != "" {
      return Some("cannot specify both 'from' and 'from_block'");
    }
    if b.fromBlock != "" && b.fromBlock !in allBlockIds {
      return Some("from_block '" + b.fromBlock + "' does not exist");
    }
    if b.network != "" {
      var valid := false;
      var k := 0;
      while k < |ValidNetworks|
        invariant 0 <= k <= |ValidNetworks|
        invariant b.network !in ValidNetworks[..k]
      {
        if b.network == ValidNetworks[k] {
          valid := true;
          break;
        }
        k := k + 1;
      }
      if !valid {
        assert ValidNetworks[..k] == ValidNetworks;
        return Some("invalid network mode: " + b.network);
      }
    }
    var i := 0;
    while i < |b.env|
      invariant 0 <= i <= |b.env|
      invariant forall k :: 0 <= k < i ==> '=' in b.env[k]
    {
      if '=' !in b.env[i] {
        assert FirstBadEnv(b.env) == Some(i);
        return Some("invalid environment variable format: " + b.env[i] + " (must be KEY=VALUE)");
      }
      i := i + 1;
    }
    var j := 0;
    while j < |b.mounts|
      invariant 0 <= j <= |b.mounts|
      invariant forall k :: 0 <= k < j ==> MountOk(b.mounts[k])
    {
      if b.mounts[j].source == "" || b.mounts[j].target == "" {
        return Some("mount source and target are required");
      }
      j := j + 1;
    }
    return None;
  }

  // ---------------------------------------------------------------------------
  // The block loop of Validate
  // ---------------------------------------------------------------------------

  /** The ids of a list of blocks. */
  function IdSet(bs: seq<Block>): set<string> {
    set b | b in bs :: b.id
  }

  /**
   * The error the block loop of Validate reports when it starts on `bs` with
   * the ids in `seen` already recorded.
   */
  function BlocksError(bs: seq<Block>, seen: set<string>): Option<string>
    decreases |bs|
  {
    if |bs| == 0 then None
    else if bs[0].id == "" then Some("block ID cannot be empty")
    else if bs[0].id in seen then Some("duplicate block ID: " + bs[0].id)
    else match BlockError(bs[0], seen + {bs[0].id})
      case Some(e) => Some("block " + bs[0].id + ": " + e)
      case None => BlocksError(bs[1..], seen + {bs[0].id})
  }

  /**
   * What the block loop accepts: ids are non-empty, distinct and new, and each
   * block passes validateBlock against the ids up to and including its own.
   */
  ghost predicate BlocksOkFrom(bs: seq<Block>, seen: set<string>) {
    && UniqueIds(bs)
    && (forall i :: 0 <= i < |bs| ==> bs[i].id != "" && bs[i].id !in seen)
    && (forall i :: 0 <= i < |bs| ==> BlockOk(bs[i], seen + IdsUpTo(bs, i)))
  }

  /** The ids of the blocks up to and including position i. */
  function IdsUpTo(bs: seq<Block>, i: nat): set<string>
    requires i < |bs|
  {
    IdSet(bs[..i + 1])
  }

  lemma {:induction false} BlocksErrorIff(bs: seq<Block>, seen: set<string>)
    ensures BlocksError(bs, seen).None? <==> BlocksOkFrom(bs, seen)
    decreases |bs|
  {
    if |bs| > 0 {
      BlocksErrorIff(bs[1..], seen + {bs[0].id});
      BlocksOkFromCons(bs, seen);
    }
  }

  /** The block loop's acceptance, one block at a time. */
  lemma BlocksOkFromCons(bs: seq<Block>, seen: set<string>)
    requires |bs| > 0
    ensures BlocksOkFrom(bs, seen) <==>
      && bs[0].id != "" && bs[0].id !in seen
      && BlockOk(bs[0], seen + {bs[0].id})
      && BlocksOkFrom(bs[1..], seen + {bs[0].id})
  {
    var rest, seen' := bs[1..], seen + {bs[0].id};
    forall i | 0 <= i < |rest|
      ensures seen' + IdsUpTo(rest, i) == seen + IdsUpTo(bs, i + 1)
    {
      assert bs[..i + 2] == [bs[0]] + rest[..i + 1];
    }
    assert bs[..1] == [bs[0]];
    if BlocksOkFrom(bs, seen) {
      ConsTail(bs, seen);
    }
    if bs[0].id != "" && bs[0].id !in seen && BlockOk(bs[0], seen') && BlocksOkFrom(rest, seen') {
      ConsWhole(bs, seen);
    }
  }

  lemma ConsTail(bs: seq<Block>, seen: set<string>)
    requires |bs| > 0 && BlocksOkFrom(bs, seen)
    requires forall i :: 0 <= i < |bs| - 1 ==>
      seen + {bs[0].id} + IdsUpTo(bs[1..], i) == seen + IdsUpTo(bs, i + 1)
    ensures BlocksOkFrom(bs[1..], seen + {bs[0].id})
  {
    var rest, seen' := bs[1..], seen + {bs[0].id};
    forall i | 0 <= i < |rest|
      ensures rest[i].id != "" && rest[i].id !in seen' && BlockOk(rest[i], seen' + IdsUpTo(rest, i))
    {
      assert rest[i] == bs[i + 1];
    }
    forall i, j | 0 <= i < j < |rest| ensures rest[i].id != rest[j].id {
      assert rest[i] == bs[i + 1] && rest[j] == bs[j + 1];
    }
  }

  lemma ConsWhole(bs: seq<Block>, seen: set<string>)
    requires |bs| > 0 && bs[0].id != "" && bs[0].id !in seen
    requires BlockOk(bs[0], seen + IdsUpTo(bs, 0))
    requires BlocksOkFrom(bs[1..], seen + {bs[0].id})
    requires forall i :: 0 <= i < |bs| - 1 ==>
      seen + {bs[0].id} + IdsUpTo(bs[1..], i) == seen + IdsUpTo(bs, i + 1)
    ensures BlocksOkFrom(bs, seen)
  {
    var rest, seen' := bs[1..], seen + {bs[0].id};
    forall i | 0 <= i < |bs|
      ensures bs[i].id != "" && bs[i].id !in seen && BlockOk(bs[i], seen + IdsUpTo(bs, i))
    {
      if i > 0 {
        assert bs[i] == rest[i - 1];
      }
    }
    forall i, j | 0 <= i < j < |bs| ensures bs[i].id != bs[j].id {
      assert bs[j] == rest[j - 1];
      if i > 0 {
        assert bs[i] == rest[i - 1];
      }
    }
  }

  // ---------------------------------------------------------------------------
  // checkCircularDependencies and hasCycle
  // ---------------------------------------------------------------------------

  /**
   * The dependency graph blockID -> parentBlockID of every block naming a
   * parent; a later block with the same id overwrites the entry, as map
   * assignment does in the source.
   */
  function DepsOf(bs: seq<Block>): map<string, string> {
    if |bs| == 0 then map[]
    else
      var d := DepsOf(bs[..|bs| - 1]);
      var b := bs[|bs| - 1];
      if b.fromBlock != "" then d[b.id := b.fromBlock] else d
  }

  /** With distinct ids, the graph has exactly the edge each block names. */
  lemma {:induction false} DepsOfLookup(bs: seq<Block>, i: nat)
    requires UniqueIds(bs) && i < |bs| && bs[i].fromBlock != ""
    ensures bs[i].id in DepsOf(bs) && DepsOf(bs)[bs[i].id] == bs[i].fromBlock
    decreases |bs|
  {
    if i < |bs| - 1 {
      var front := bs[..|bs| - 1];
      assert front[i] == bs[i];
      DepsOfLookup(front, i);
    }
  }

  /** The node reached from x by following at most n edges; a node without an edge is a fixed point. */
  function Walk(deps: map<string, string>, x: string, n: nat): string
    decreases n
  {
    if n == 0 || x !in deps then x else Walk(deps, deps[x], n - 1)
  }

  /** No node with an edge returns to itself by following one or more edges. */
  ghost predicate CycleFree(deps: map<string, string>) {
    forall x, n :: x in deps && 1 <= n ==> Walk(deps, x, n) != x
  }

  /** Following edges from x reaches a node without an edge. */
  ghost predicate ReachesEnd(deps: map<string, string>, x: string) {
    exists n: nat :: Walk(deps, x, n) !in deps
  }

  lemma {:induction false} WalkAdd(deps: map<string, string>, x: string, a: nat, b: nat)
    ensures Walk(deps, x, a + b) == Walk(deps, Walk(deps, x, a), b)
    decreases a
  {
    if a > 0 && x in deps {
      WalkAdd(deps, deps[x], a - 1, b);
    } else if a > 0 {
      assert Walk(deps, x, b) == x;
    }
  }

  /** A node on a cycle is revisited arbitrarily late. */
  lemma {:induction false} CycleRepeats(deps: map<string, string>, x: string, n: nat, k: nat)
    requires 1 <= n && Walk(deps, x, n) == x
    ensures exists m :: m >= k && Walk(deps, x, m) == x
    decreases k
  {
    if k > 0 {
      CycleRepeats(deps, x, n, k - 1);
      var m :| m >= k - 1 && Walk(deps, x, m) == x;
      WalkAdd(deps, x, m, n);
      assert Walk(deps, x, m + n) == x;
    }
  }

  /** Once a walk reaches a node without an edge it stays there. */
  lemma StaysAtEnd(deps: map<string, string>, x: string, end: nat, m: nat)
    requires Walk(deps, x, end) !in deps && end <= m
    ensures Walk(deps, x, m) == Walk(deps, x, end)
  {
    WalkAdd(deps, x, end, m - end);
    assert Walk(deps, Walk(deps, x, end), m - end) == Walk(deps, x, end);
  }

  /** If every node with an edge reaches a node without one, the graph has no cycle. */
  lemma AllReachEndIsCycleFree(deps: map<string, string>)
    requires forall x :: x in deps ==> ReachesEnd(deps, x)
    ensures CycleFree(deps)
  {
    forall x, n | x in deps && 1 <= n
      ensures Walk(deps, x, n) != x
    {
      var end: nat :| Walk(deps, x, end) !in deps;
      if Walk(deps, x, n) == x {
        CycleRepeats(deps, x, n, end);
        var m :| m >= end && Walk(deps, x, m) == x;
        StaysAtEnd(deps, x, end, m);
        assert false;
      }
    }
  }

  /** The node after position j of a DFS path whose last node points at `target`. */
  function NextOnPath(path: seq<string>, j: nat, target: string): string
    requires j < |path|
  {
    if j + 1 < |path| then path[j + 1] else target
  }

  /** `path` is a walk along edges whose last node points at `target`. */
  ghost predicate Chain(deps: map<string, string>, path: seq<string>, target: string) {
    forall j :: 0 <= j < |path| ==> path[j] in deps && deps[path[j]] == NextOnPath(path, j, target)
  }

  lemma ChainExtend(deps: map<string, string>, path: seq<string>, x: string)
    requires Chain(deps, path, x) && x in deps
    ensures Chain(deps, path + [x], deps[x])
  {
    var path' := path + [x];
    forall j | 0 <= j < |path'|
      ensures path'[j] in deps && deps[path'[j]] == NextOnPath(path', j, deps[x])
    {
      if j < |path| {
        assert path'[j] == path[j];
        assert NextOnPath(path', j, deps[x]) == NextOnPath(path, j, x);
      }
    }
  }

  /** From position i, a chain reaches its target in |path| - i steps. */
  lemma {:induction false} ChainReaches(deps: map<string, string>, path: seq<string>, target: string, i: nat)
    requires Chain(deps, path, target) && i < |path|
    ensures Walk(deps, path[i], |path| - i) == target
    decreases |path| - i
  {
    assert path[i] in deps && deps[path[i]] == NextOnPath(path, i, target);
    if i + 1 < |path| {
      ChainReaches(deps, path, target, i + 1);
    }
  }

  /** An edge from the end of a chain back onto it closes a cycle. */
  lemma ClosedChainIsCycle(deps: map<string, string>, path: seq<string>, x: string)
    requires Chain(deps, path, x) && x in deps
    requires deps[x] == x || deps[x] in path
    ensures !CycleFree(deps)
  {
    if deps[x] == x {
      assert Walk(deps, x, 1) == x;
    } else {
      var i :| 0 <= i < |path| && path[i] == deps[x];
      ChainReaches(deps, path, x, i);
      WalkAdd(deps, path[i], |path| - i, 1);
      assert Walk(deps, x, 1) == path[i];
      assert path[i] in deps;
      assert Walk(deps, path[i], |path| - i + 1) == path[i];
    }
  }

  /** The state of the depth-first search: the visited and recStack maps of the source, as sets. */
  class CycleChecker {
    const deps: map<string, string>
    var visited: set<string>
    var recStack: set<string>

    constructor (deps: map<string, string>)
      ensures this.deps == deps && visited == {} && recStack == {}
    {
      this.deps := deps;
      visited := {};
      recStack := {};
    }

    /** Every node the search can reach. */
    ghost function Nodes(): set<string> {
      deps.Keys + deps.Values
    }

    /** Every visited node no longer on the search path reaches a node without an edge. */
    ghost predicate Settled()
      reads this
    {
      forall v :: v in visited && v !in recStack ==> ReachesEnd(deps, v)
    }

    /**
     * hasCycle: depth-first search from blockId; `path` is the current search
     * path, whose nodes form recStack. A true answer means the graph has a
     * cycle; a false one means blockId reaches a node without an edge, and the
     * search path is restored.
     */
    method HasCycle(blockId: string, ghost path: seq<string>) returns (found: bool)
      requires blockId in Nodes() && blockId !in visited && recStack <= visited
      requires Chain(deps, path, blockId) && recStack == set x | x in path
      requires Settled()
      modifies this
      decreases |Nodes() - visited|
      ensures found ==> !CycleFree(deps)
      ensures !found ==> ReachesEnd(deps, blockId) && blockId in visited && old(visited) <= visited
      ensures !found ==> recStack == old(recStack) && recStack <= visited && Settled()
    {
      ghost var before := visited;
      visited := visited + {blockId};
      recStack := recStack + {blockId};
      assert Nodes() - visited == (Nodes() - before) - {blockId};
      if blockId in deps {
        var parent := deps[blockId];
        if parent !in visited {
          ChainExtend(deps, path, blockId);
          assert recStack == set x | x in path + [blockId];
          found := HasCycle(parent, path + [blockId]);
          if found {
            return;
          }
        } else if parent in recStack {
          ClosedChainIsCycle(deps, path, blockId);
          return true;
        }
        var n: nat :| Walk(deps, parent, n) !in deps;
        assert Walk(deps, blockId, n + 1) == Walk(deps, parent, n);
      } else {
        assert Walk(deps, blockId, 0) !in deps;
      }
      recStack := recStack - {blockId};
      found := false;
    }
  }

  /** The error checkCircularDependencies reports. */
  ghost function CycleError(bs: seq<Block>): Option<string> {
    if CycleFree(DepsOf(bs)) then None else Some("circular dependency detected in block references")
  }

  /**
   * checkCircularDependencies: builds the dependency graph and searches from
   * every node with an edge. The source ranges over a Go map, whose order is
   * unspecified; the model picks the nodes in any order, and the verdict does
   * not depend on it.
   */
  method CheckCircularDependencies(blocks: seq<Block>) returns (err: Option<string>)
    ensures err == CycleError(blocks)
  {
    var deps: map<string, string> := map[];
    var i := 0;
    while i < |blocks|
      invariant 0 <= i <= |blocks|
      invariant deps == DepsOf(blocks[..i])
    {
      assert blocks[..i + 1][..i] == blocks[..i];
      if blocks[i].fromBlock != "" {
        deps := deps[blocks[i].id := blocks[i].fromBlock];
      }
      i := i + 1;
    }
    assert blocks[..|blocks|] == blocks;

    var checker := new CycleChecker(deps);
    var pending := deps.Keys;
    while pending != {}
      invariant pending <= deps.Keys
      invariant checker.deps == deps && checker.recStack == {} && checker.Settled()
      invariant forall x :: x in deps && x !in pending ==> x in checker.visited
      decreases |pending|
    {
      var blockId :| blockId in pending;
      if blockId !in checker.visited {
        var found := checker.HasCycle(blockId, []);
        if found {
          return Some("circular dependency detected in block references");
        }
      }
      pending := pending - {blockId};
    }
    AllReachEndIsCycleFree(deps);
    return None;
  }

  // ---------------------------------------------------------------------------
  // Validate
  // ---------------------------------------------------------------------------

  /** The error Validate reports: the first failing check, in the source's order. */
  ghost function ProjectError(p: Project): Option<string> {
    if p.version == "" then Some("version is required")
    else if p.name == "" then Some("name is required")
    else if |p.blocks| == 0 then Some("at least one block is required")
    else if BlocksError(p.blocks, {}).Some? then BlocksError(p.blocks, {})
    else CycleError(p.blocks)
  }

  /** Validate: required fields, then the block loop, then the cycle check. */
  method Validate(p: Project) returns (err: Option<string>)
    ensures err == ProjectError(p)
  {
    if p.version == "" {
      return Some("version is required");
    }
    if p.name == "" {
      return Some("name is required");
    }
    if |p.blocks| == 0 {
      return Some("at least one block is required");
    }
    var blockIds: set<string> := {};
    var i := 0;
    while i < |p.blocks|
      invariant 0 <= i <= |p.blocks|
      invariant BlocksError(p.blocks, {}) == BlocksError(p.blocks[i..], blockIds)
    {
      var b := p.blocks[i];
      assert p.blocks[i..][0] == b && p.blocks[i..][1..] == p.blocks[i + 1..];
      if b.id == "" {
        return Some("block ID cannot be empty");
      }
      if b.id in blockIds {
        return Some("duplicate block ID: " + b.id);
      }
      blockIds := blockIds + {b.id};
      var e := ValidateBlock(b, blockIds);
      if e.Some? {
        return Some("block " + b.id + ": " + e.value);
      }
      i := i + 1;
    }
    err := CheckCircularDependencies(p.blocks);
  }

  /** What an accepted project looks like. */
  ghost predicate ProjectValid(p: Project) {
    && p.version != ""
    && p.name != ""
    && |p.blocks| > 0
    && BlocksOkFrom(p.blocks, {})
    && CycleFree(DepsOf(p.blocks))
  }

  /** Validate accepts exactly the valid projects. */
  lemma ValidateAcceptsValid(p: Project)
    ensures ProjectError(p).None? <==> ProjectValid(p)
  {
    BlocksErrorIff(p.blocks, {});
  }

  /** The cycle check is what rejects a block naming itself as its parent. */
  lemma SelfReferenceRejected(bs: seq<Block>, i: nat)
    requires UniqueIds(bs) && i < |bs| && bs[i].fromBlock != ""
    requires CycleError(bs).None?
    ensures bs[i].fromBlock != bs[i].id
  {
    DepsOfLookup(bs, i);
    assert Walk(DepsOf(bs), bs[i].id, 1) == bs[i].fromBlock;
  }

  /** The block loop only accepts a `from_block` naming the block itself or an earlier one. */
  lemma BlockOkParentSeen(b: Block, seen: set<string>)
    requires BlockOk(b, seen) && b.fromBlock != ""
    ensures b.fromBlock in seen
  {
  }

  lemma IdInPrefix(bs: seq<Block>, i: nat, id: string)
    requires i < |bs| && id in IdSet(bs[..i + 1])
    ensures exists j :: 0 <= j <= i && bs[j].id == id
  {
    var prefix := bs[..i + 1];
    var b :| b in prefix && b.id == id;
    var j :| 0 <= j < |prefix| && prefix[j] == b;
    assert bs[j].id == id;
  }

  lemma ParentInPrefix(bs: seq<Block>, i: nat)
    requires BlocksOkFrom(bs, {}) && i < |bs| && bs[i].fromBlock != ""
    ensures exists j :: 0 <= j <= i && bs[j].id == bs[i].fromBlock
  {
    hide UniqueIds, BlockOk;
    assert BlockOk(bs[i], {} + IdsUpTo(bs, i));
    BlockOkParentSeen(bs[i], {} + IdsUpTo(bs, i));
    IdInPrefix(bs, i, bs[i].fromBlock);
  }

  /** In an accepted project a block's parent is listed strictly before it. */
  lemma ParentBefore(bs: seq<Block>, i: nat)
    requires BlocksOkFrom(bs, {}) && CycleError(bs).None? && i < |bs| && bs[i].fromBlock != ""
    ensures exists j :: 0 <= j < i && bs[j].id == bs[i].fromBlock
  {
    ParentInPrefix(bs, i);
    SelfReferenceRejected(bs, i);
    var j :| 0 <= j <= i && bs[j].id == bs[i].fromBlock;
    assert j != i;
  }

  /** An accepted project gives the engine what it relies on: distinct ids and parents listed earlier. */
  lemma AcceptedIsWellFormed(p: Project)
    requires ProjectValid(p)
    ensures WellFormed(p.blocks)
  {
    forall i | 0 <= i < |p.blocks| && p.blocks[i].fromBlock != ""
      ensures exists j :: 0 <= j < i && p.blocks[j].id == p.blocks[i].fromBlock
    {
      ParentBefore(p.blocks, i);
    }
  }

  /** A `from_block` naming a block later in the list is rejected. */
  lemma ForwardReferenceRejected(p: Project, i: nat, j: nat)
    requires i < j < |p.blocks| && p.blocks[i].fromBlock == p.blocks[j].id
    ensures ProjectError(p).Some?
  {
    var bs := p.blocks;
    if UniqueIds(bs) && bs[j].id != "" {
      forall b | b in bs[..i + 1] ensures b.id != bs[j].id {
        var k :| 0 <= k < i + 1 && bs[..i + 1][k] == b;
        assert bs[k] == b;
      }
      assert bs[j].id !in IdsUpTo(bs, i);
      assert !BlockOk(bs[i], {} + IdsUpTo(bs, i));
    }
    ValidateAcceptsValid(p);
  }

  /**
   * Two blocks naming each other as parents: the first one's reference is
   * already rejected as unknown, before the cycle check runs.
   */
  lemma MutualReferenceRejected(p: Project)
    requires p.version != "" && p.name != "" && |p.blocks| == 2
    requires p.blocks[0].id != "" && p.blocks[1].id != "" && p.blocks[0].id != p.blocks[1].id
    requires p.blocks[0].from == "" && p.blocks[0].fromBlock == p.blocks[1].id
    requires p.blocks[1].fromBlock == p.blocks[0].id
    ensures ProjectError(p) ==
      Some("block " + p.blocks[0].id + ": " + ("from_block '" + p.blocks[1].id + "' does not exist"))
  {
    var a := p.blocks[0];
    assert a.fromBlock !in {} + {a.id};
  }

  /** The block reached from block i by following `from_block` references to a block without one. */
  ghost function RootOf(bs: seq<Block>, i: nat): (r: nat)
    requires WellFormed(bs) && i < |bs|
    ensures r <= i && bs[r].fromBlock == ""
    decreases i
  {
    if bs[i].fromBlock == "" then i
    else
      ParentIndexBelow(bs, i);
      RootOf(bs, IndexOf(bs, bs[i].fromBlock).value)
  }

  /** In an accepted project every chain of `from_block` references ends at a block built `from` an image. */
  lemma ChainEndsAtFrom(p: Project, i: nat)
    requires ProjectValid(p) && i < |p.blocks|
    ensures WellFormed(p.blocks) && p.blocks[RootOf(p.blocks, i)].from != ""
  {
    AcceptedIsWellFormed(p);
    var r := RootOf(p.blocks, i);
    assert BlockOk(p.blocks[r], {} + IdsUpTo(p.blocks, r));
  }
}
