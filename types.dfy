/**
 * The data model shared by the engine, the state store, the cache index and the
 * configuration checks: blocks, projects, per-block execution state and image
 * history records, plus the small Option/Result wrappers the model returns
 * instead of Go's (value, error) pairs.
 */
module Types {

  datatype Option<T> = None | Some(value: T)

  /** A value or an error; Go's `(T, error)` results. */
  datatype Result<T, E> = Ok(value: T) | Err(error: E)

  newtype byte = x: int | 0 <= x < 256

  /** Raw file contents (logs are byte slices in the source). */
  type Bytes = seq<byte>

  /** Execution status of a block. */
  datatype BlockStatus = Pending | Cached | Running | Success | Failed | Skipped

  /** Export settings, carried along but never read by the core. */
  datatype ExportConfig = ExportConfig(
    artifacts: seq<string>,
    labels: map<string, string>,
    entrypoint: seq<string>,
    cmd: seq<string>)

  /** A bind mount; validation only looks at source and target. */
  datatype Mount = Mount(source: string, target: string)

  /** Resource limits; the core only copies them from project settings. */
  datatype Resources = Resources(cpus: string, memory: string)

  /**
   * One build step. `network`, `env`, `mounts` and `resources` are read by the
   * configuration checks and defaults although the Go struct omits them.
   * An empty string stands for an unset optional string field.
   */
  datatype Block = Block(
    id: string,
    from: string,
    fromBlock: string,
    fromBlockVersion: string,
    instructions: seq<string>,
    context: string,
    exportConfig: Option<ExportConfig>,
    network: string,
    env: seq<string>,
    mounts: seq<Mount>,
    resources: Option<Resources>)

  datatype Settings = Settings(network: string, shell: string, resources: Option<Resources>)

  datatype Project = Project(version: string, name: string, settings: Settings, blocks: seq<Block>)

  /** Persisted execution state of one block; times are opaque clock readings. */
  datatype BlockState = BlockState(
    id: string,
    status: BlockStatus,
    digest: string,
    hash: string,
    timestamp: int,
    exitCode: int,
    duration: int,
    error: string)

  /** One successful build of a block, appended to its history. */
  datatype ImageRecord = ImageRecord(tag: string, digest: string, timestamp: int, dockerfile: string)

  datatype RunOptions = RunOptions(force: bool, keepContainer: bool)

  datatype UpOptions = UpOptions(force: bool, fromBlock: string, continueOnError: bool)

  const NetworkDefault: string := "default"
  const NetworkNone: string := "none"
  const NetworkHost: string := "host"

  /** Concatenation of a list of sequences with nothing between them. */
  function Flatten<T>(xs: seq<seq<T>>): seq<T> {
    if |xs| == 0 then [] else Flatten(xs[..|xs| - 1]) + xs[|xs| - 1]
  }

  lemma {:induction false} FlattenAppend<T>(a: seq<seq<T>>, b: seq<seq<T>>)
    ensures Flatten(a + b) == Flatten(a) + Flatten(b)
    decreases |b|
  {
    if |b| == 0 {
      assert a + b == a;
    } else {
      assert (a + b)[..|a + b| - 1] == a + b[..|b| - 1];
      FlattenAppend(a, b[..|b| - 1]);
    }
  }

  /** Path components joined with "/", as filepath.Join joins clean components. */
  function Slashed(parts: seq<string>): string {
    if |parts| == 0 then "" else if |parts| == 1 then parts[0] else parts[0] + "/" + Slashed(parts[1..])
  }

  /** Decimal rendering of a natural number, as `%d` prints it. */
  function Decimal(n: nat): (s: string)
    ensures |s| > 0
    ensures forall k :: 0 <= k < |s| ==> '0' <= s[k] <= '9'
  {
    var d := ['0' + (n % 10) as char];
    if n < 10 then d else Decimal(n / 10) + d
  }

  /**
   * Index of the first block with the given id: the `for _, b := range
   * project.Blocks { if b.ID == id { ...; break } }` searches of the engine.
   */
  function IndexOf(bs: seq<Block>, id: string): (r: Option<nat>)
    ensures r.Some? ==> r.value < |bs| && bs[r.value].id == id
    ensures r.Some? ==> forall k :: 0 <= k < r.value ==> bs[k].id != id
    ensures r.None? ==> forall k :: 0 <= k < |bs| ==> bs[k].id != id
  {
    if |bs| == 0 then None
    else if bs[0].id == id then Some(0)
    else match IndexOf(bs[1..], id)
      case None => None
      case Some(i) => Some(i + 1)
  }

  /** No two blocks share an id. */
  ghost predicate UniqueIds(bs: seq<Block>) {
    forall i, j :: 0 <= i < j < |bs| ==> bs[i].id != bs[j].id
  }

  /** Every `from_block` names a block that comes strictly earlier in the list. */
  ghost predicate ParentsPrecede(bs: seq<Block>) {
    forall i :: 0 <= i < |bs| && bs[i].fromBlock != "" ==>
      exists j :: 0 <= j < i && bs[j].id == bs[i].fromBlock
  }

  /**
   * What a project that passed validation offers the engine: ids are unique and
   * parent references point backwards, so resolution terminates.
   */
  ghost predicate WellFormed(bs: seq<Block>) {
    UniqueIds(bs) && ParentsPrecede(bs)
  }

  /** In a well-formed list a block's own id finds the block itself. */
  lemma IndexOfOwnId(bs: seq<Block>, i: nat)
    requires UniqueIds(bs) && i < |bs|
    ensures IndexOf(bs, bs[i].id) == Some(i)
  {
  }

  /** In a well-formed list a block's parent is found strictly before it. */
  lemma ParentIndexBelow(bs: seq<Block>, i: nat)
    requires WellFormed(bs) && i < |bs| && bs[i].fromBlock != ""
    ensures IndexOf(bs, bs[i].fromBlock).Some?
    ensures IndexOf(bs, bs[i].fromBlock).value < i
  {
    var j :| 0 <= j < i && bs[j].id == bs[i].fromBlock;
    IndexOfOwnId(bs, j);
  }

  /** In a well-formed list a listed block's parent is listed before it. */
  lemma BlockParent(bs: seq<Block>, b: Block)
    requires WellFormed(bs) && b in bs && b.fromBlock != ""
    ensures IndexOf(bs, b.id).Some? && bs[IndexOf(bs, b.id).value] == b
    ensures IndexOf(bs, b.fromBlock).Some?
    ensures IndexOf(bs, b.fromBlock).value < IndexOf(bs, b.id).value
  {
    var i :| 0 <= i < |bs| && bs[i] == b;
    IndexOfOwnId(bs, i);
    ParentIndexBelow(bs, i);
  }
}
