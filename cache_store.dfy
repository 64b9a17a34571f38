/** The two cache files kept in the configured cache directory:
    `ansible-hammer.cache` (host details) and `ansible-hammer.index`
    (the inventory mapping), and the check that decides whether they are
    fresh enough to be used instead of asking the API. */
module CacheStore {
  import opened Records
  import opened Grouping

  /** What a read of a file's text gives once decoded: a value of the
      expected shape, or text that is not such a JSON document. */
  datatype Content<T> = Garbled | Holds(value: T)

  /** A regular file on disk, with its modification time in whole seconds. */
  datatype FileState<T> = Absent | Present(mtime: int, content: Content<T>)

  /** Which of the two cache files an error is about. */
  datatype Slot = CacheFile | IndexFile

  /** Raised by a load (the file cannot be opened for reading, or `json.loads`
      fails) or by a write (the file cannot be opened for writing). */
  datatype Error = FileNotFound(slot: Slot) | InvalidJson(slot: Slot) | WriteFailed(slot: Slot)

  datatype Result<T> = Ok(value: T) | Err(error: Error)

  /** The result of a step that only changes state: it ends normally or raises. */
  datatype Outcome = Pass | Fail(error: Error)

  /** Opening and decoding one cache file. */
  function Load<T>(f: FileState<T>, slot: Slot): Result<T>
  {
    match f
    case Absent => Err(FileNotFound(slot))
    case Present(_, Garbled) => Err(InvalidJson(slot))
    case Present(_, Holds(v)) => Ok(v)
  }

  /** Loading a file that a write left behind gives back the value written. */
  lemma LoadAfterWrite<T>(v: T, now: int, slot: Slot)
    ensures Load(Present(now, Holds(v)), slot) == Ok(v)
  {
  }

  /** A load fails exactly when the file is missing or does not decode, and the
      error names the file and the reason. */
  lemma LoadFails<T>(f: FileState<T>, slot: Slot)
    ensures Load(f, slot).Err? <==> f.Absent? || f.content.Garbled?
    ensures f.Absent? ==> Load(f, slot) == Err(FileNotFound(slot))
    ensures f.Present? && f.content.Garbled? ==> Load(f, slot) == Err(InvalidJson(slot))
  {
  }

  /** `is_cache_valid`: the `.cache` file exists, its mtime plus the maximum
      age lies strictly after `now`, and the `.index` file exists. */
  function IsCacheValid<A, B>(cacheFile: FileState<A>, indexFile: FileState<B>, maxAge: int, now: int): bool
  {
    if cacheFile.Present? then
      if cacheFile.mtime + maxAge > now then
        indexFile.Present?
      else false
    else false
  }

  /** The three conditions, in both directions. */
  lemma CacheValidIff<A, B>(cacheFile: FileState<A>, indexFile: FileState<B>, maxAge: int, now: int)
    ensures IsCacheValid(cacheFile, indexFile, maxAge, now)
        <==> cacheFile.Present? && cacheFile.mtime + maxAge > now && indexFile.Present?
  {
  }

  /** Only the `.cache` file's mtime is consulted: the `.index` file's mtime
      and the contents of both files make no difference. */
  lemma CacheValidIgnoresIndexAge<A, B>(c1: FileState<A>, c2: FileState<A>, i1: FileState<B>, i2: FileState<B>, maxAge: int, now: int)
    requires c1.Present? <==> c2.Present?
    requires c1.Present? ==> c1.mtime == c2.mtime
    requires i1.Present? <==> i2.Present?
    ensures IsCacheValid(c1, i1, maxAge, now) == IsCacheValid(c2, i2, maxAge, now)
  {
  }

  /** Once expired, the cache stays expired as time goes on. */
  lemma ExpiryIsPermanent<A, B>(cacheFile: FileState<A>, indexFile: FileState<B>, maxAge: int, now: int, later: int)
    requires now <= later
    requires !IsCacheValid(cacheFile, indexFile, maxAge, now)
    ensures !IsCacheValid(cacheFile, indexFile, maxAge, later)
  {
  }

  /** Files both written at `now` are valid at `now` exactly when the maximum
      age is positive; a zero or negative age forces a refresh on every run. */
  lemma JustWrittenValid<A, B>(a: Content<A>, b: Content<B>, maxAge: int, now: int)
    ensures IsCacheValid(Present(now, a), Present(now, b), maxAge, now) <==> maxAge > 0
  {
  }

  /** A refresh whose `.index` write failed leaves a fresh `.cache` file beside
      the old `.index` file; until the maximum age runs out, later runs take
      that old index as valid, whatever its age or contents. */
  lemma StaleIndexAccepted<A, B>(c: Content<A>, index: FileState<B>, maxAge: int, written: int, later: int)
    requires index.Present?
    requires written <= later < written + maxAge
    ensures IsCacheValid(Present(written, c), index, maxAge, later)
  {
  }

  /** The cache directory: one slot per file. */
  class CacheFiles {
    var cacheFile: FileState<map<string, Json>>
    var indexFile: FileState<Inventory>
    /** Whether `open(path, 'w')` succeeds on each file (a missing or
        read-only cache directory makes it fail). */
    const cacheWritable: bool
    const indexWritable: bool

    constructor(cacheFile: FileState<map<string, Json>>, indexFile: FileState<Inventory>,
                cacheWritable: bool, indexWritable: bool)
      ensures this.cacheFile == cacheFile && this.indexFile == indexFile
      ensures this.cacheWritable == cacheWritable && this.indexWritable == indexWritable
    {
      this.cacheFile := cacheFile;
      this.indexFile := indexFile;
      this.cacheWritable := cacheWritable;
      this.indexWritable := indexWritable;
    }

    /** Both writes of a refresh go through. */
    predicate Writable()
    {
      cacheWritable && indexWritable
    }

    /** The error a refresh raises when its writes do not both go through:
        the `.cache` file is written first. */
    function WriteError(): Error
    {
      if !cacheWritable then WriteFailed(CacheFile) else WriteFailed(IndexFile)
    }

    /** `write_to_cache(data, cache_path_cache)`: overwrite the `.cache` file,
        or raise and leave it as it was. */
    method WriteCache(data: map<string, Json>, now: int) returns (o: Outcome)
      modifies this`cacheFile
      ensures o == (if cacheWritable then Pass else Fail(WriteFailed(CacheFile)))
      ensures cacheWritable ==> cacheFile == Present(now, Holds(data))
      ensures cacheWritable ==> Load(cacheFile, CacheFile) == Ok(data)
      ensures !cacheWritable ==> cacheFile == old(cacheFile)
    {
      if !cacheWritable {
        return Fail(WriteFailed(CacheFile));
      }
      cacheFile := Present(now, Holds(data));
      o := Pass;
    }

    /** `write_to_cache(data, cache_path_inventory)`: overwrite the `.index`
        file, or raise and leave it as it was. */
    method WriteIndex(data: Inventory, now: int) returns (o: Outcome)
      modifies this`indexFile
      ensures o == (if indexWritable then Pass else Fail(WriteFailed(IndexFile)))
      ensures indexWritable ==> indexFile == Present(now, Holds(data))
      ensures indexWritable ==> Load(indexFile, IndexFile) == Ok(data)
      ensures !indexWritable ==> indexFile == old(indexFile)
    {
      if !indexWritable {
        return Fail(WriteFailed(IndexFile));
      }
      indexFile := Present(now, Holds(data));
      o := Pass;
    }

    /** Read and decode the `.cache` file; the files are not changed. */
    method ReadCache() returns (r: Result<map<string, Json>>)
      ensures r.Ok? <==> cacheFile.Present? && cacheFile.content.Holds?
      ensures r.Ok? ==> r.value == cacheFile.content.value
      ensures r == Load(cacheFile, CacheFile)
    {
      r := Load(cacheFile, CacheFile);
    }

    /** Read and decode the `.index` file; the files are not changed. */
    method ReadIndex() returns (r: Result<Inventory>)
      ensures r.Ok? <==> indexFile.Present? && indexFile.content.Holds?
      ensures r.Ok? ==> r.value == indexFile.content.value
      ensures r == Load(indexFile, IndexFile)
    {
      r := Load(indexFile, IndexFile);
    }
  }
}
