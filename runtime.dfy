/**
 * The Docker daemon and the wall clock, as the engine sees them: an oracle
 * whose answers are fixed when the runtime is created. The registry says which
 * references can be pulled and what digest they carry; the n-th build of a
 * Dockerfile streams a fixed list of log chunks and then yields a digest or an
 * error; every clock reading is one tick later than the previous one.
 */
module DockerRuntime {
  import opened Types

  /** What the daemon does for one build: the log chunks it streams, then a digest or an error. */
  datatype BuildScript = BuildScript(chunks: seq<Bytes>, result: Result<string, string>)

  class Runtime {
    /** Images the registry serves: reference -> digest. */
    const registry: map<string, string>
    /** The daemon's answer to the n-th build request for a given Dockerfile. */
    const outcome: (nat, string) -> BuildScript
    /** The daemon's message when it cannot pull a reference. */
    const pullError: string -> string
    /** Images present locally: reference -> digest. */
    var local: map<string, string>
    /** Number of build requests so far. */
    var builds: nat
    /** Clock readings taken so far; `time.Now()` returns the next one. */
    var clock: nat

    constructor (registry: map<string, string>, outcome: (nat, string) -> BuildScript,
                 pullError: string -> string, local: map<string, string>)
      ensures this.registry == registry && this.outcome == outcome && this.pullError == pullError
      ensures this.local == local
      ensures builds == 0 && clock == 0
    {
      this.registry := registry;
      this.outcome := outcome;
      this.pullError := pullError;
      this.local := local;
      builds := 0;
      clock := 0;
    }

    /** The error PullImage reports for a reference the registry does not serve: the daemon's message, prefixed. */
    function PullFailure(ref: string): string {
      "failed to pull image " + ref + ": " + pullError(ref)
    }

    /** PullImage: a reference the registry serves is copied into the local images. */
    method PullImage(ref: string) returns (err: Option<string>)
      modifies this`local
      ensures ref in registry ==> err == None && local == old(local)[ref := registry[ref]]
      ensures ref !in registry ==> err == Some(PullFailure(ref)) && local == old(local)
    {
      if ref in registry {
        local := local[ref := registry[ref]];
        return None;
      }
      return Some(PullFailure(ref));
    }

    /** InspectImage: the digest of a local image. */
    function InspectImage(ref: string): (r: Result<string, string>)
      reads this
      ensures r.Ok? <==> ref in local
      ensures r.Ok? ==> r.value == local[ref]
    {
      if ref in local then Ok(local[ref]) else Err("failed to inspect image " + ref + ": No such image")
    }

    /** time.Now: the next clock reading. */
    method Now() returns (t: nat)
      modifies this`clock
      ensures t == old(clock) && clock == old(clock) + 1
    {
      t := clock;
      clock := clock + 1;
    }

    /** One build request; the daemon's answer depends on the request count and the Dockerfile. */
    method Build(dockerfile: string) returns (script: BuildScript)
      modifies this`builds
      ensures script == outcome(old(builds), dockerfile) && builds == old(builds) + 1
    {
      script := outcome(builds, dockerfile);
      builds := builds + 1;
    }
  }
}
