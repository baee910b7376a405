/**
 * The `.dockstep` state directory: one record per block id (state, log,
 * success log, image digest, history) and one Dockerfile snapshot per image
 * digest. Each kind of record is a map field of the Store; every Save/Append/
 * Clear method updates one key of one map and nothing else.
 */
module StateStore {
  import opened Types

  /** What `state/<id>.json` holds: a state that decodes, or bytes that do not. */
  datatype StateFile = Stored(state: BlockState) | Unreadable

  /** One line of `history/<id>.jsonl`: an encoded record, or text that does not decode. */
  datatype HistoryLine = Entry(record: ImageRecord) | Garbled

  /** Why a read failed: the file is absent, or its contents do not decode. */
  datatype FsError = NotExist | DecodeError

  function ErrorText(e: FsError): string {
    match e
    case NotExist => "no such file or directory"
    case DecodeError => "invalid character in JSON input"
  }

  /**
   * The records a JSON decoder reads from a history file: the lines before the
   * first one that fails to decode.
   */
  function DecodeHistory(lines: seq<HistoryLine>): seq<ImageRecord> {
    if |lines| == 0 || lines[0].Garbled? then []
    else [lines[0].record] + DecodeHistory(lines[1..])
  }

  /** The records read are exactly those of the lines before the first garbled one (or the end). */
  lemma {:induction false} DecodeHistoryIsPrefix(lines: seq<HistoryLine>)
    ensures var recs := DecodeHistory(lines);
      |recs| <= |lines|
      && (forall k :: 0 <= k < |recs| ==> lines[k] == Entry(recs[k]))
      && (|recs| < |lines| ==> lines[|recs|] == Garbled)
  {
    if |lines| > 0 && lines[0].Entry? {
      DecodeHistoryIsPrefix(lines[1..]);
      var recs := DecodeHistory(lines);
      assert forall k :: 1 <= k < |recs| ==> lines[k] == lines[1..][k - 1];
    }
  }

  /** How the decoder reads a history from line `i` on. */
  lemma DecodeHistoryStep(lines: seq<HistoryLine>, i: nat)
    requires i < |lines|
    ensures lines[i].Garbled? ==> DecodeHistory(lines[i..]) == []
    ensures lines[i].Entry? ==> DecodeHistory(lines[i..]) == [lines[i].record] + DecodeHistory(lines[i + 1..])
  {
    assert lines[i..][0] == lines[i] && lines[i..][1..] == lines[i + 1..];
  }

  /** Appending a record to a history with no garbled line extends what is read back by exactly that record. */
  lemma {:induction false} DecodeHistoryAppend(lines: seq<HistoryLine>, rec: ImageRecord)
    requires forall k :: 0 <= k < |lines| ==> lines[k].Entry?
    ensures DecodeHistory(lines + [Entry(rec)]) == DecodeHistory(lines) + [rec]
  {
    if |lines| == 0 {
    } else {
      assert (lines + [Entry(rec)])[1..] == lines[1..] + [Entry(rec)];
      DecodeHistoryAppend(lines[1..], rec);
    }
  }

  /** Once a garbled line is in a history file, records appended after it are never read back. */
  lemma {:induction false} DecodeHistoryStopsAtGarbled(lines: seq<HistoryLine>, more: seq<HistoryLine>)
    requires Garbled in lines
    ensures DecodeHistory(lines + more) == DecodeHistory(lines)
  {
    if lines[0].Garbled? {
    } else {
      assert (lines + more)[1..] == lines[1..] + more;
      DecodeHistoryStopsAtGarbled(lines[1..], more);
    }
  }

  /**
   * The exact string ComputeBlockHash feeds to SHA-256: parent digest, id,
   * from, from_block, context and every instruction, with no separators.
   */
  function HashInput(b: Block, parentDigest: string): string {
    parentDigest + b.id + b.from + b.fromBlock + b.context + Flatten(b.instructions)
  }

  /** The cache key of a block; `sha` stands for hex-encoded SHA-256, kept abstract. */
  function BlockHash(sha: string -> string, b: Block, parentDigest: string): string {
    sha(HashInput(b, parentDigest))
  }

  /** ComputeBlockHash: writes each field into the hasher in turn, then the instructions one by one. */
  method ComputeBlockHash(sha: string -> string, b: Block, parentDigest: string) returns (h: string)
    ensures h == BlockHash(sha, b, parentDigest)
  {
    var written := parentDigest + b.id + b.from + b.fromBlock + b.context;
    for i := 0 to |b.instructions|
      invariant written == parentDigest + b.id + b.from + b.fromBlock + b.context + Flatten(b.instructions[..i])
    {
      assert b.instructions[..i + 1][..i] == b.instructions[..i];
      written := written + b.instructions[i];
    }
    assert b.instructions[..|b.instructions|] == b.instructions;
    h := sha(written);
  }

  /** The hash never looks at the pinned version or the export settings. */
  lemma HashIgnoresVersionAndExport(sha: string -> string, b: Block, parentDigest: string,
                                    version: string, exp: Option<ExportConfig>)
    ensures BlockHash(sha, b.(fromBlockVersion := version, exportConfig := exp), parentDigest)
         == BlockHash(sha, b, parentDigest)
  {
  }

  /** Blocks that agree on the hashed fields and parent digest share a hash, whatever else differs. */
  lemma HashDependsOnlyOnInput(sha: string -> string, b1: Block, d1: string, b2: Block, d2: string)
    requires HashInput(b1, d1) == HashInput(b2, d2)
    ensures BlockHash(sha, b1, d1) == BlockHash(sha, b2, d2)
  {
  }

  lemma {:induction false} CancelSides(p: string, x: string, y: string, s: string)
    requires p + x + s == p + y + s
    ensures x == y
  {
    var l := p + x + s;
    assert |x| == |y|;
    forall k | 0 <= k < |x| ensures x[k] == y[k] {
      assert x[k] == l[|p| + k];
      assert y[k] == (p + y + s)[|p| + k];
    }
  }

  /** Changing the parent digest alone changes what is hashed (the propagation of invalidation). */
  lemma ParentDigestChangesInput(b: Block, d1: string, d2: string)
    requires d1 != d2
    ensures HashInput(b, d1) != HashInput(b, d2)
  {
    var rest := b.id + b.from + b.fromBlock + b.context + Flatten(b.instructions);
    assert HashInput(b, d1) == "" + d1 + rest;
    assert HashInput(b, d2) == "" + d2 + rest;
    if HashInput(b, d1) == HashInput(b, d2) {
      CancelSides("", d1, d2, rest);
    }
  }

  /** The concatenation around one chosen instruction. */
  lemma FlattenAround(ss: seq<string>, k: nat)
    requires k < |ss|
    ensures Flatten(ss) == Flatten(ss[..k]) + ss[k] + Flatten(ss[k + 1..])
  {
    var front := ss[..k + 1];
    assert ss == front + ss[k + 1..];
    FlattenAppend(front, ss[k + 1..]);
    assert front[..|front| - 1] == ss[..k];
    assert Flatten(front) == Flatten(ss[..k]) + ss[k];
  }

  /** Replacing one instruction by a different one changes what is hashed. */
  lemma ChangedInstructionChangesInput(b: Block, d: string, k: nat, instr: string)
    requires k < |b.instructions| && instr != b.instructions[k]
    ensures HashInput(b.(instructions := b.instructions[k := instr]), d) != HashInput(b, d)
  {
    var is1 := b.instructions;
    var is2 := is1[k := instr];
    var pre := d + b.id + b.from + b.fromBlock + b.context;
    FlattenAround(is1, k);
    FlattenAround(is2, k);
    assert is2[..k] == is1[..k] && is2[k + 1..] == is1[k + 1..];
    var f := Flatten(is1[..k]);
    var s := Flatten(is1[k + 1..]);
    Regroup(pre, f, is1[k], s);
    Regroup(pre, f, instr, s);
    if HashInput(b.(instructions := is2), d) == HashInput(b, d) {
      CancelSides(pre + f, instr, is1[k], s);
    }
  }

  lemma Regroup(a: string, b: string, x: string, c: string)
    ensures a + (b + x + c) == (a + b) + x + c
  {
  }

  /**
   * Without separators the hash sees only the concatenation of the
   * instructions: two instructions and their one-line concatenation collide.
   */
  lemma InstructionRegroupingCollides(sha: string -> string, b: Block, d: string)
    requires b.instructions == ["RUN a", "RUN b"]
    ensures BlockHash(sha, b.(instructions := ["RUN aRUN b"]), d) == BlockHash(sha, b, d)
  {
    var two: seq<string> := ["RUN a", "RUN b"];
    var one: seq<string> := ["RUN aRUN b"];
    assert two[..1] == ["RUN a"];
    assert ["RUN a"][..0] == [];
    assert one[..0] == [];
    assert Flatten(["RUN a"]) == "RUN a";
    assert Flatten(two) == "RUN a" + "RUN b";
    assert Flatten(one) == "RUN aRUN b";
    assert "RUN a" + "RUN b" == "RUN aRUN b";
    assert HashInput(b.(instructions := one), d) == HashInput(b, d);
  }

  /** Changing any one hashed field of a block, the others kept, changes what is hashed. */
  lemma HashedFieldChangesInput(b: Block, d: string, v: string)
    ensures v != b.id ==> HashInput(b.(id := v), d) != HashInput(b, d)
    ensures v != b.from ==> HashInput(b.(from := v), d) != HashInput(b, d)
    ensures v != b.fromBlock ==> HashInput(b.(fromBlock := v), d) != HashInput(b, d)
    ensures v != b.context ==> HashInput(b.(context := v), d) != HashInput(b, d)
  {
    var rest := Flatten(b.instructions);
    forall x: string
      ensures HashInput(b.(id := x), d) == d + x + (b.from + b.fromBlock + b.context + rest)
      ensures HashInput(b.(from := x), d) == d + b.id + x + (b.fromBlock + b.context + rest)
      ensures HashInput(b.(fromBlock := x), d) == d + b.id + b.from + x + (b.context + rest)
      ensures HashInput(b.(context := x), d) == d + b.id + b.from + b.fromBlock + x + rest
    {
    }
    assert b.(id := b.id) == b.(from := b.from) == b.(fromBlock := b.fromBlock) == b.(context := b.context) == b;
    if v != b.id && HashInput(b.(id := v), d) == HashInput(b, d) {
      CancelSides(d, v, b.id, b.from + b.fromBlock + b.context + rest);
    }
    if v != b.from && HashInput(b.(from := v), d) == HashInput(b, d) {
      CancelSides(d + b.id, v, b.from, b.fromBlock + b.context + rest);
    }
    if v != b.fromBlock && HashInput(b.(fromBlock := v), d) == HashInput(b, d) {
      CancelSides(d + b.id + b.from, v, b.fromBlock, b.context + rest);
    }
    if v != b.context && HashInput(b.(context := v), d) == HashInput(b, d) {
      CancelSides(d + b.id + b.from + b.fromBlock, v, b.context, rest);
    }
  }

  /**
   * Without separators a block built from image "x" and one built from
   * block "x" hash the same input, other fields and parent digest equal.
   */
  lemma FromFieldBoundaryCollides(sha: string -> string, b: Block, d: string)
    ensures BlockHash(sha, b.(from := "x", fromBlock := ""), d) == BlockHash(sha, b.(from := "", fromBlock := "x"), d)
  {
    assert "x" + "" == "" + "x";
    assert HashInput(b.(from := "x", fromBlock := ""), d) == HashInput(b.(from := "", fromBlock := "x"), d);
  }

  /** What reading `state/<id>.json` yields from the given state files. */
  function StateOf(states: map<string, StateFile>, id: string): Result<BlockState, FsError> {
    if id !in states then Err(NotExist)
    else match states[id]
      case Stored(s) => Ok(s)
      case Unreadable => Err(DecodeError)
  }

  class Store {
    /** state/<id>.json */
    var states: map<string, StateFile>
    /** logs/<id>.log */
    var logs: map<string, Bytes>
    /** logs/<id>.success.log */
    var successLogs: map<string, Bytes>
    /** images/<id>.digest */
    var digests: map<string, string>
    /** history/<id>.jsonl */
    var history: map<string, seq<HistoryLine>>
    /** history/dockerfiles/<digest>.Dockerfile */
    var snapshots: map<string, string>

    /** Init: the directory tree exists and holds no record yet. */
    constructor Init()
      ensures states == map[] && logs == map[] && successLogs == map[]
      ensures digests == map[] && history == map[] && snapshots == map[]
    {
      states, logs, successLogs := map[], map[], map[];
      digests, history, snapshots := map[], map[], map[];
    }

    method SaveDockerfileSnapshot(digest: string, content: string) returns (err: Option<string>)
      modifies this`snapshots
      ensures digest == "" ==> err == Some("empty digest for dockerfile snapshot") && snapshots == old(snapshots)
      ensures digest != "" ==> err == None && snapshots == old(snapshots)[digest := content]
      ensures digest != "" ==> LoadDockerfileSnapshot(digest) == Ok(content)
    {
      if digest == "" {
        return Some("empty digest for dockerfile snapshot");
      }
      snapshots := snapshots[digest := content];
      return None;
    }

    function LoadDockerfileSnapshot(digest: string): (r: Result<string, string>)
      reads this
      ensures digest == "" ==> r == Err("empty digest")
    {
      if digest == "" then Err("empty digest")
      else if digest in snapshots then Ok(snapshots[digest])
      else Err(ErrorText(NotExist))
    }

    method SaveBlockState(id: string, state: BlockState)
      modifies this`states
      ensures states == old(states)[id := Stored(state)]
      ensures LoadBlockState(id) == Ok(state)
    {
      states := states[id := Stored(state)];
    }

    function LoadBlockState(id: string): Result<BlockState, FsError>
      reads this
    {
      StateOf(states, id)
    }

    method SaveLogs(id: string, data: Bytes)
      modifies this`logs
      ensures logs == old(logs)[id := data]
      ensures LoadLogs(id) == Ok(data)
    {
      logs := logs[id := data];
    }

    /** Opens the log for appending, creating an empty one first when absent. */
    method AppendLogs(id: string, data: Bytes)
      modifies this`logs
      ensures logs == old(logs)[id := LogOrEmpty(old(logs), id) + data]
    {
      logs := logs[id := LogOrEmpty(logs, id) + data];
    }

    /** Truncates (creating if needed) the log to zero length. */
    method ClearLogs(id: string)
      modifies this`logs
      ensures logs == old(logs)[id := []]
      ensures LoadLogs(id) == Ok([])
    {
      logs := logs[id := []];
    }

    function LoadLogs(id: string): Result<Bytes, FsError>
      reads this
    {
      if id in logs then Ok(logs[id]) else Err(NotExist)
    }

    /** Success logs have a key space of their own: no block's regular log changes. */
    method SaveSuccessfulLogs(id: string, data: Bytes)
      modifies this`successLogs
      ensures successLogs == old(successLogs)[id := data]
      ensures LoadSuccessfulLogs(id) == Ok(data)
      ensures forall k :: LoadLogs(k) == old(LoadLogs(k))
    {
      successLogs := successLogs[id := data];
    }

    function LoadSuccessfulLogs(id: string): Result<Bytes, FsError>
      reads this
    {
      if id in successLogs then Ok(successLogs[id]) else Err(NotExist)
    }

    method SaveImageDigest(id: string, digest: string)
      modifies this`digests
      ensures digests == old(digests)[id := digest]
      ensures LoadImageDigest(id) == Ok(digest)
    {
      digests := digests[id := digest];
    }

    function LoadImageDigest(id: string): Result<string, FsError>
      reads this
    {
      if id in digests then Ok(digests[id]) else Err(NotExist)
    }

    /** Appends one JSON line holding the record, creating the file when absent. */
    method SaveImageHistory(id: string, rec: ImageRecord)
      modifies this`history
      ensures history == old(history)[id := HistoryOrEmpty(old(history), id) + [Entry(rec)]]
    {
      history := history[id := HistoryOrEmpty(history, id) + [Entry(rec)]];
    }

    /**
     * Decodes the history file line by line; a line that fails to decode ends
     * the read and the records so far are returned without an error.
     */
    method LoadImageHistory(id: string) returns (r: Result<seq<ImageRecord>, FsError>)
      ensures id !in history ==> r == Err(NotExist)
      ensures id in history ==> r == Ok(DecodeHistory(history[id]))
    {
      if id !in history {
        return Err(NotExist);
      }
      var lines := history[id];
      var out: seq<ImageRecord> := [];
      var i := 0;
      while i < |lines|
        invariant 0 <= i <= |lines|
        invariant DecodeHistory(lines) == out + DecodeHistory(lines[i..])
      {
        DecodeHistoryStep(lines, i);
        if lines[i].Garbled? {
          assert out + [] == out;
          return Ok(out);
        }
        ghost var tail := DecodeHistory(lines[i + 1..]);
        assert out + ([lines[i].record] + tail) == (out + [lines[i].record]) + tail;
        out := out + [lines[i].record];
        i := i + 1;
      }
      assert lines[i..] == [];
      assert out + [] == out;
      return Ok(out);
    }

    /** Reads every state file; one that does not decode fails the whole call. */
    method GetBlockStates() returns (r: Result<map<string, BlockState>, string>)
      ensures r.Ok? <==> forall id :: id in states ==> states[id].Stored?
      ensures r.Ok? ==> r.value == map id | id in states :: states[id].state
    {
      var result: map<string, BlockState> := map[];
      var remaining := states.Keys;
      while remaining != {}
        invariant remaining <= states.Keys
        invariant result.Keys == states.Keys - remaining
        invariant forall id :: id in result ==> states[id] == Stored(result[id])
        decreases remaining
      {
        var id :| id in remaining;
        var loaded := LoadBlockState(id);
        if loaded.Err? {
          return Err("failed to load state for block " + id + ": " + ErrorText(loaded.error));
        }
        result := result[id := loaded.value];
        remaining := remaining - {id};
      }
      return Ok(result);
    }

    /**
     * Removes the state file, log and image digest of the block and of every
     * listed descendant; missing files are ignored, so the call always succeeds.
     */
    method Cleanup(blockID: string, descendants: seq<string>)
      modifies this`states, this`logs, this`digests
      ensures var gone := {blockID} + (set d | d in descendants);
        states == old(states) - gone && logs == old(logs) - gone && digests == old(digests) - gone
    {
      var all := [blockID] + descendants;
      ghost var gone: set<string> := {};
      for i := 0 to |all|
        invariant forall x :: x in gone <==> x in all[..i]
        invariant states == old(states) - gone && logs == old(logs) - gone && digests == old(digests) - gone
      {
        assert all[..i + 1] == all[..i] + [all[i]];
        gone := gone + {all[i]};
        states := states - {all[i]};
        logs := logs - {all[i]};
        digests := digests - {all[i]};
      }
      assert all[..|all|] == all;
      assert gone == {blockID} + (set d | d in descendants);
    }
  }

  function LogOrEmpty(logs: map<string, Bytes>, id: string): Bytes {
    if id in logs then logs[id] else []
  }

  function HistoryOrEmpty(history: map<string, seq<HistoryLine>>, id: string): seq<HistoryLine> {
    if id in history then history[id] else []
  }

  /** Appending to the log never touches other ids and keeps what was there. */
  lemma AppendKeepsPrefix(logs: map<string, Bytes>, id: string, data: Bytes)
    ensures var after := logs[id := LogOrEmpty(logs, id) + data];
      after[id][..|LogOrEmpty(logs, id)|] == LogOrEmpty(logs, id) &&
      after[id][|LogOrEmpty(logs, id)|..] == data
  {
  }
}

/**
 * The file names the source actually uses under `.dockstep/logs`. Regular and
 * successful logs share one directory and differ only by suffix, so block
 * `a`'s success log is the same file as block `a.success`'s regular log.
 * StateStore.Store keeps the two kinds under separate keys instead.
 */
module StoreFiles {
  import opened Types

  function LogFile(id: string): string { id + ".log" }

  function SuccessLogFile(id: string): string { id + ".success.log" }

  /** `logs/` as written: one map from file name to contents. */
  function SaveSuccessfulLogsAsWritten(dir: map<string, Bytes>, id: string, data: Bytes): map<string, Bytes> {
    dir[SuccessLogFile(id) := data]
  }

  function LoadLogsAsWritten(dir: map<string, Bytes>, id: string): Option<Bytes> {
    if LogFile(id) in dir then Some(dir[LogFile(id)]) else None
  }

  /** For every id, the success log of `id` is the regular log of `id + ".success"`. */
  lemma SuccessLogIsAnotherBlocksLog(id: string)
    ensures SuccessLogFile(id) == LogFile(id + ".success")
  {
    assert id + ".success.log" == (id + ".success") + ".log";
  }

  /** Saving block "a"'s success log replaces block "a.success"'s regular log. */
  lemma SuccessLogOverwritesOtherLog(dir: map<string, Bytes>, data: Bytes)
    ensures LoadLogsAsWritten(SaveSuccessfulLogsAsWritten(dir, "a", data), "a.success") == Some(data)
  {
    SuccessLogIsAnotherBlocksLog("a");
    assert "a" + ".success" == "a.success";
  }
}
