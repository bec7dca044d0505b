/**
 * The collaborators a container field reaches through its host model: the
 * cache store, the FileMaker server connection and the file systems. Only
 * their interfaces are modelled.
 */
module Collaborators {

  type Bytes = seq<bv8>

  /** A PHP value held as container data: null or a byte string. */
  datatype Value = Null | Blob(bytes: Bytes)

  /** A Laravel storage disk: `Storage::disk(null)` is the default disk. */
  datatype Disk = DefaultDisk | NamedDisk(name: string)

  /**
   * Read-only file access: `file_get_contents($realpath)` and
   * `Storage::disk($disk)->get($filename)`.
   */
  datatype Files = Files(readPath: string -> Bytes, readDisk: (Disk, string) -> Bytes)

  /** A cached value with the duration it was put with. */
  datatype CacheEntry = CacheEntry(value: Value, duration: int)

  type Cache = map<string, CacheEntry>

  /** `Cache::get($key)`: a missing key reads as null. */
  function CacheGet(cache: Cache, key: string): Value
  {
    if key in cache then cache[key].value else Null
  }

  /**
   * `Cache::has($key)`: Laravel's cache repository answers `get($key)` is not
   * null, so an entry that holds null counts as missing.
   */
  predicate CacheHas(cache: Cache, key: string)
    ensures CacheHas(cache, key) ==> key in cache && cache[key].value != Null
    ensures key in cache && cache[key].value != Null ==> CacheHas(cache, key)
  {
    CacheGet(cache, key) != Null
  }

  /** The host model's container field cache store, shared by all fields. */
  class CacheStore {
    var entries: Cache

    constructor (entries: Cache)
      ensures this.entries == entries
    {
      this.entries := entries;
    }

    function Has(key: string): bool
      reads this
    {
      CacheHas(entries, key)
    }

    function Get(key: string): Value
      reads this
    {
      CacheGet(entries, key)
    }

    method Put(key: string, value: Value, duration: int)
      modifies this
      ensures entries == old(entries)[key := CacheEntry(value, duration)]
    {
      entries := entries[key := CacheEntry(value, duration)];
    }
  }

  /**
   * The FileMaker connection's `getContainerData($url)`. `requests` records
   * every URL fetched, so that callers can state how often the server is hit.
   */
  class FileMakerServer {
    const containerData: string -> Value
    ghost var requests: seq<string>

    constructor (containerData: string -> Value)
      ensures this.containerData == containerData && requests == []
    {
      this.containerData := containerData;
      requests := [];
    }

    method GetContainerData(url: string) returns (data: Value)
      modifies this
      ensures data == containerData(url)
      ensures requests == old(requests) + [url]
    {
      data := containerData(url);
      requests := requests + [url];
    }
  }
}
