/**
 * Configuration defaults and lookup (config/config.go): applyDefaults fills in
 * the project's network and shell and hands the project's network and resource
 * limits down to blocks that leave them unset; FindConfigFile walks from a
 * directory up to the file-system root looking for `dockstep.yaml`.
 */
module Config {
  import opened Types

  // ---------------------------------------------------------------------------
  // applyDefaults
  // ---------------------------------------------------------------------------

  const DefaultShell: string := "/bin/sh"

  /** The project settings after defaulting. */
  function DefaultSettings(s: Settings): Settings {
    s.(network := if s.network == "" then NetworkDefault else s.network,
       shell := if s.shell == "" then DefaultShell else s.shell)
  }

  /** One block after defaulting against the (already defaulted) project settings. */
  function DefaultBlock(b: Block, s: Settings): Block {
    var withNetwork := if b.network == "" then b.(network := s.network) else b;
    if withNetwork.resources.None? && s.resources.Some? then withNetwork.(resources := s.resources)
    else withNetwork
  }

  /** The project applyDefaults leaves behind. */
  function Defaulted(p: Project): Project {
    var s := DefaultSettings(p.settings);
    p.(settings := s, blocks := seq(|p.blocks|, i requires 0 <= i < |p.blocks| => DefaultBlock(p.blocks[i], s)))
  }

  /** applyDefaults: settings first, then every block in list order. */
  method ApplyDefaults(project: Project) returns (r: Project)
    ensures r == Defaulted(project)
  {
    r := project;
    if r.settings.network == "" {
      r := r.(settings := r.settings.(network := NetworkDefault));
    }
    if r.settings.shell == "" {
      r := r.(settings := r.settings.(shell := DefaultShell));
    }
    assert r.settings == DefaultSettings(project.settings);
    var i := 0;
    while i < |r.blocks|
      invariant 0 <= i <= |r.blocks| == |project.blocks|
      invariant r == project.(settings := DefaultSettings(project.settings), blocks := r.blocks)
      invariant forall k :: 0 <= k < i ==> r.blocks[k] == DefaultBlock(project.blocks[k], r.settings)
      invariant forall k :: i <= k < |r.blocks| ==> r.blocks[k] == project.blocks[k]
    {
      var block := r.blocks[i];
      if block.network == "" {
        block := block.(network := r.settings.network);
      }
      if block.resources.None? && r.settings.resources.Some? {
        block := block.(resources := r.settings.resources);
      }
      r := r.(blocks := r.blocks[i := block]);
      i := i + 1;
    }
    assert r.blocks == Defaulted(project).blocks;
  }

  /**
   * What defaulting promises: the project ends with a network and a shell,
   * explicit settings are kept, every block ends with a network, a block's own
   * network and resources win over the project's, and nothing else changes.
   */
  lemma DefaultsProperties(p: Project)
    ensures var q := Defaulted(p);
      && q.version == p.version && q.name == p.name && q.settings.resources == p.settings.resources
      && q.settings.network != "" && q.settings.shell != ""
      && (p.settings.network != "" ==> q.settings.network == p.settings.network)
      && (p.settings.shell != "" ==> q.settings.shell == p.settings.shell)
      && (p.settings.network == "" ==> q.settings.network == NetworkDefault)
      && (p.settings.shell == "" ==> q.settings.shell == DefaultShell)
      && |q.blocks| == |p.blocks|
      && forall i :: 0 <= i < |p.blocks| ==>
        && q.blocks[i].(network := p.blocks[i].network, resources := p.blocks[i].resources) == p.blocks[i]
        && q.blocks[i].network != ""
        && q.blocks[i].network == (if p.blocks[i].network != "" then p.blocks[i].network else q.settings.network)
        && q.blocks[i].resources == (if p.blocks[i].resources.Some? then p.blocks[i].resources else p.settings.resources)
  {
    var q := Defaulted(p);
    forall i | 0 <= i < |p.blocks|
      ensures q.blocks[i].network != ""
    {
      assert q.blocks[i] == DefaultBlock(p.blocks[i], q.settings);
    }
  }

  /** Applying the defaults a second time changes nothing. */
  lemma DefaultsIdempotent(p: Project)
    ensures Defaulted(Defaulted(p)) == Defaulted(p)
  {
    var q := Defaulted(p);
    DefaultsProperties(p);
    assert DefaultSettings(q.settings) == q.settings;
    forall i | 0 <= i < |q.blocks|
      ensures DefaultBlock(q.blocks[i], q.settings) == q.blocks[i]
    {
    }
    assert Defaulted(q).blocks == q.blocks;
  }

  // ---------------------------------------------------------------------------
  // FindConfigFile
  // ---------------------------------------------------------------------------

  /** A clean path: absolute or relative, as a list of components; "/" and "." have none. */
  datatype Path = Path(absolute: bool, parts: seq<string>)

  const ConfigName: string := "dockstep.yaml"

  /** filepath.Join(dir, name) for a single clean component. */
  function Join(dir: Path, name: string): Path {
    Path(dir.absolute, dir.parts + [name])
  }

  /** filepath.Dir: drops the last component; the root and "." are their own parents. */
  function Dir(d: Path): (r: Path)
    ensures r == d <==> |d.parts| == 0
    ensures |d.parts| > 0 ==> r.absolute == d.absolute && r.parts == d.parts[..|d.parts| - 1]
  {
    if |d.parts| == 0 then d else Path(d.absolute, d.parts[..|d.parts| - 1])
  }

  /** The k-th ancestor of d, for k up to its depth. */
  function Up(d: Path, k: nat): Path
    requires k <= |d.parts|
  {
    Path(d.absolute, d.parts[..|d.parts| - k])
  }

  /** The candidate file in the k-th ancestor of the start directory. */
  function Candidate(start: Path, k: nat): Path
    requires k <= |start.parts|
  {
    Join(Up(start, k), ConfigName)
  }

  /** A path as the source prints it. */
  function Display(d: Path): string {
    if |d.parts| == 0 then (if d.absolute then "/" else ".")
    else (if d.absolute then "/" else "") + Slashed(d.parts)
  }

  /**
   * FindConfigFile: the configuration file of the nearest directory, the
   * start directory first, whose `dockstep.yaml` the file system reports;
   * `stat` is the set of paths os.Stat succeeds on.
   */
  method FindConfigFile(startDir: Path, stat: set<Path>) returns (r: Result<Path, string>)
    ensures r.Ok? <==> exists k :: 0 <= k <= |startDir.parts| && Candidate(startDir, k) in stat
    ensures r.Ok? ==> r.value in stat
    ensures r.Ok? ==> exists k :: (0 <= k <= |startDir.parts| && r.value == Candidate(startDir, k) &&
                                   forall j :: 0 <= j < k ==> Candidate(startDir, j) !in stat)
    ensures r.Err? ==> r.error == ConfigName + " not found in " + Display(startDir) + " or parent directories"
  {
    var dir := startDir;
    ghost var k := 0;
    while true
      invariant 0 <= k <= |startDir.parts| && dir == Up(startDir, k)
      invariant forall j :: 0 <= j < k ==> Candidate(startDir, j) !in stat
      decreases |startDir.parts| - k
    {
      var configPath := Join(dir, ConfigName);
      assert configPath == Candidate(startDir, k);
      if configPath in stat {
        return Ok(configPath);
      }
      var parent := Dir(dir);
      if parent == dir {
        assert k == |startDir.parts|;
        break;
      }
      dir := parent;
      k := k + 1;
    }
    return Err(ConfigName + " not found in " + Display(startDir) + " or parent directories");
  }

  /** The walk ends: climbing from any directory reaches one that is its own parent. */
  lemma {:induction false} WalkReachesRoot(d: Path)
    ensures Dir(Up(d, |d.parts|)) == Up(d, |d.parts|)
    ensures forall k :: 0 <= k < |d.parts| ==> Dir(Up(d, k)) == Up(d, k + 1) != Up(d, k)
  {
    forall k | 0 <= k < |d.parts|
      ensures Dir(Up(d, k)) == Up(d, k + 1)
    {
      assert d.parts[..|d.parts| - k][..|d.parts| - k - 1] == d.parts[..|d.parts| - (k + 1)];
    }
  }
}
