/**
 * The cache index `.dockstep/cache/index.json`: a JSON object from block hash to
 * cache entry. Every operation re-reads the whole file; the functions below
 * say what one read or one rewrite of the file yields, and the Cache class
 * applies them to its one field.
 */
module CacheIndex {
  import opened Types

  datatype CacheEntry = CacheEntry(hash: string, digest: string)

  /** The index file: missing, unreadable or undecodable, or a decoded object. */
  datatype IndexFile = Absent | Corrupt | Present(entries: map<string, CacheEntry>)

  /** loadCache: a missing file reads as the empty index, a corrupt one as an error. */
  function LoadEntries(idx: IndexFile): (r: Result<map<string, CacheEntry>, string>)
    ensures r.Err? <==> idx.Corrupt?
    ensures r.Ok? && idx.Absent? ==> r.value == map[]
  {
    match idx
    case Absent => Ok(map[])
    case Corrupt => Err("failed to decode cache: invalid character")
    case Present(es) => Ok(es)
  }

  /** What GetCachedDigest reports for a hash: nothing when the index cannot be read. */
  function Lookup(idx: IndexFile, hash: string): (r: Option<string>)
    ensures r.Some? <==> idx.Present? && hash in idx.entries
    ensures r.Some? ==> r.value == idx.entries[hash].digest
  {
    match LoadEntries(idx)
    case Err(_) => None
    case Ok(es) => if hash in es then Some(es[hash].digest) else None
  }

  /**
   * The index SetCachedDigest writes: the entries read (none when the file is
   * corrupt) with the hash mapped to a fresh entry.
   */
  function WithEntry(idx: IndexFile, hash: string, digest: string): IndexFile {
    var es := match LoadEntries(idx) case Ok(es) => es case Err(_) => map[];
    Present(es[hash := CacheEntry(hash, digest)])
  }

  /** GetCacheStats: the number of entries, or the read error. */
  function Count(idx: IndexFile): (r: Result<nat, string>)
    ensures r.Err? <==> idx.Corrupt?
    ensures idx.Present? ==> r == Ok(|idx.entries|)
  {
    match LoadEntries(idx)
    case Err(e) => Err(e)
    case Ok(es) => Ok(|es|)
  }

  /** Every entry is stored under its own hash (what the program itself writes). */
  ghost predicate Keyed(idx: IndexFile) {
    idx.Present? ==> forall h :: h in idx.entries ==> idx.entries[h].hash == h
  }

  /** Setting a digest makes it the answer for that hash and changes no other answer. */
  lemma LookupAfterSet(idx: IndexFile, hash: string, digest: string, other: string)
    ensures Lookup(WithEntry(idx, hash, digest), hash) == Some(digest)
    ensures other != hash ==> Lookup(WithEntry(idx, hash, digest), other) == Lookup(idx, other)
  {
  }

  /** A new hash adds one entry, a known hash none; a corrupt index restarts from one entry. */
  lemma CountAfterSet(idx: IndexFile, hash: string, digest: string)
    ensures idx.Corrupt? ==> Count(WithEntry(idx, hash, digest)) == Ok(1)
    ensures idx.Present? ==>
      Count(WithEntry(idx, hash, digest)) == Ok(|idx.entries| + if hash in idx.entries then 0 else 1)
    ensures idx.Absent? ==> Count(WithEntry(idx, hash, digest)) == Ok(1)
  {
    if idx.Corrupt? || idx.Absent? {
      assert WithEntry(idx, hash, digest).entries == map[hash := CacheEntry(hash, digest)];
    }
  }

  /** The program only ever writes keyed indexes. */
  lemma SetKeepsKeyed(idx: IndexFile, hash: string, digest: string)
    requires Keyed(idx)
    ensures Keyed(WithEntry(idx, hash, digest))
  {
  }

  /** Two digests stored under two hashes in a fresh index count as two entries. */
  lemma TwoHashesCountTwo()
    ensures Count(WithEntry(WithEntry(Absent, "hash1", "digest1"), "hash2", "digest2")) == Ok(2)
  {
    CountAfterSet(Absent, "hash1", "digest1");
    CountAfterSet(WithEntry(Absent, "hash1", "digest1"), "hash2", "digest2");
  }

  class Cache {
    var index: IndexFile

    /** NewCache over a state directory whose index file is in the given condition. */
    constructor Open(initial: IndexFile)
      ensures index == initial
    {
      index := initial;
    }

    method GetCachedDigest(hash: string) returns (digest: string, found: bool)
      ensures found <==> Lookup(index, hash).Some?
      ensures found ==> digest == Lookup(index, hash).value
      ensures !found ==> digest == ""
    {
      var loaded := LoadEntries(index);
      if loaded.Err? {
        return "", false;
      }
      if hash in loaded.value {
        return loaded.value[hash].digest, true;
      }
      return "", false;
    }

    /** Rewrites the index with the entry added; a corrupt index is replaced. */
    method SetCachedDigest(hash: string, digest: string)
      modifies this`index
      ensures index == WithEntry(old(index), hash, digest)
      ensures Lookup(index, hash) == Some(digest)
      ensures old(Keyed(index)) ==> Keyed(index)
    {
      index := WithEntry(index, hash, digest);
      LookupAfterSet(old(index), hash, digest, hash);
    }

    /** Removes the index file; removing a file that is not there is an error. */
    method ClearCache() returns (err: Option<string>)
      modifies this`index
      ensures index == Absent
      ensures err.Some? <==> old(index).Absent?
    {
      if index.Absent? {
        err := Some("remove .dockstep/cache/index.json: no such file or directory");
      } else {
        err := None;
      }
      index := Absent;
    }

    method GetCacheStats() returns (count: nat, err: Option<string>)
      ensures err.Some? <==> index.Corrupt?
      ensures err.None? ==> Count(index) == Ok(count)
      ensures err.Some? ==> count == 0
    {
      var loaded := LoadEntries(index);
      if loaded.Err? {
        return 0, Some(loaded.error);
      }
      return |loaded.value|, None;
    }
  }
}
