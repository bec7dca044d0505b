/**
 * A FileMaker container field: a record attribute whose binary payload comes
 * from one of four origins and is loaded lazily, with an optional
 * write-through cache for data held on the server.
 *
 * The pure functions over (origin, container) state what each operation
 * returns and leaves behind; the class `ContainerField` performs them in
 * place and is proved against those functions.
 */
module ContainerFields {
  import opened Wrappers
  import opened Php
  import opened Collaborators

  /** Where the current data comes from: the `$origin` tag. */
  datatype Origin = Server | Storage | Realpath | Data

  /**
   * The `$container` array. Each entry is absent (`None`) or present; the
   * `data` entry may be present and hold null.
   */
  datatype Container = Container(
    file: Option<string>,
    url: Option<string>,
    disk: Option<Disk>,
    realpath: Option<string>,
    data: Option<Value>)

  const NoEntries: Container := Container(None, None, None, None, None)

  /**
   * Why an operation throws. `NotStoredOnServer` is `fetchServerData()`'s own
   * exception. `UndefinedDataIndex` is the undefined-index notice raised by
   * reading an absent `data` entry, which Laravel's error handler turns into an
   * exception.
   */
  datatype Error = NotStoredOnServer | UndefinedDataIndex

  /**
   * The entries each origin's setter puts in place and that no later
   * operation removes. `url` may be added to any origin by a save to the
   * server; `data` may be added to a server field by loading it.
   */
  predicate WellFormed(origin: Origin, c: Container)
    ensures WellFormed(origin, c) ==> (c.disk.Some? <==> origin == Storage)
    ensures WellFormed(origin, c) ==> (c.realpath.Some? <==> origin == Realpath)
    ensures WellFormed(origin, c) && c.data.Some? ==> origin == Server || origin == Data
  {
    && c.file.Some?
    && match origin
       case Server => c.url.Some? && c.disk.None? && c.realpath.None?
       case Storage => c.disk.Some? && c.realpath.None? && c.data.None?
       case Realpath => c.realpath.Some? && c.disk.None? && c.data.None?
       case Data => c.data.Some? && c.disk.None? && c.realpath.None?
  }

  /**
   * The filename `fromServer` derives from a URL: the basename of the part
   * before the first '?'. Without a '?', `strpos` gives false, which `substr`
   * reads as length 0, so the filename is "".
   */
  function FileNameFromUrl(url: string): (r: string)
    ensures '/' !in r
    ensures '?' !in url ==> r == ""
  {
    var length := match StrPos(url, '?', 0) case Some(i) => i case None => 0;
    Basename(url[..length])
  }

  /** `isEmpty()`: meaningful only for fields fetched from the server. */
  predicate IsEmpty(origin: Origin, c: Container)
    ensures IsEmpty(origin, c) ==> origin == Server
    ensures IsEmpty(origin, c) ==> c.url.None? || |c.url.value| <= 1
  {
    match origin
    case Server => Empty(c.url)
    case _ => false
  }

  /** `hasLoadedServerData()`: the `data` entry exists, even when it holds null. */
  predicate HasLoadedServerData(origin: Origin, c: Container)
    ensures origin != Server ==> !HasLoadedServerData(origin, c)
    ensures origin == Server && c.data == Some(Null) ==> HasLoadedServerData(origin, c)
  {
    origin == Server && c.data.Some?
  }

  /** `getCacheKey()`: the `url` entry whenever it exists, whatever the origin. */
  function CacheKey(c: Container): (r: Option<string>)
    ensures WellFormed(Server, c) ==> r.Some?
    ensures r.Some? <==> c.url.Some?
    ensures r.Some? ==> r.value == c.url.value
  {
    c.url
  }

  /** `isCachable()`: a positive cache time and a non-empty cache key. */
  predicate IsCachable(c: Container, cacheTime: int)
    ensures IsCachable(c, cacheTime) ==> 0 < cacheTime && CacheKey(c).Some?
    ensures cacheTime <= 0 ==> !IsCachable(c, cacheTime)
  {
    0 < cacheTime && !Empty(CacheKey(c))
  }

  /**
   * The `$data` that `saveToCache()` puts in the cache: the `data` entry for
   * `server` and `data` fields, a fresh read for `realpath` and `storage`
   * fields. Reading the absent `data` entry of an unloaded server field throws.
   */
  function CachedPayload(origin: Origin, c: Container, files: Files): (r: Result<Value, Error>)
    requires WellFormed(origin, c)
    ensures r.Failure? <==> origin == Server && c.data.None?
    ensures r.Failure? ==> r.error == UndefinedDataIndex
    ensures (origin == Server || origin == Data) && r.Success? ==> Some(r.value) == c.data
  {
    match origin
    case Server | Data => if c.data.Some? then Success(c.data.value) else Failure(UndefinedDataIndex)
    case Realpath => Success(Blob(files.readPath(c.realpath.value)))
    case Storage => Success(Blob(files.readDisk(c.disk.value, c.file.value)))
  }

  /**
   * What reading `$field->data` returns and leaves behind: the container
   * afterwards, the cache store afterwards and the URLs fetched from the
   * server.
   */
  datatype Read = Read(value: Value, container: Container, cache: Cache, fetches: seq<string>)

  /** Reading `$field->data` (`__get('data')`). */
  function ReadData(origin: Origin, c: Container, cacheTime: int, cache: Cache,
                    fetch: string -> Value, files: Files): (r: Read)
    requires WellFormed(origin, c)
    ensures WellFormed(origin, r.container)
    ensures |r.fetches| <= 1
    ensures r.fetches != [] ==>
      && origin == Server && !HasLoadedServerData(origin, c)
      && r.fetches == [c.url.value] && r.value == fetch(c.url.value)
      && (IsCachable(c, cacheTime) ==> !CacheHas(cache, c.url.value))
    ensures r.container == c || (origin == Server && r.container == c.(data := Some(r.value)))
    ensures r.cache == cache
         || (IsCachable(c, cacheTime) && r.cache == cache[c.url.value := CacheEntry(r.value, cacheTime)])
  {
    match origin
    case Server =>
      if Empty(c.url) then Read(Null, c, cache, [])
      else if HasLoadedServerData(origin, c) then Read(c.data.value, c, cache, [])
      else
        var url := c.url.value;
        if IsCachable(c, cacheTime) then
          if CacheHas(cache, url) then
            Read(cache[url].value, c.(data := Some(cache[url].value)), cache, [])
          else
            var fetched := fetch(url);
            Read(fetched, c.(data := Some(fetched)), cache[url := CacheEntry(fetched, cacheTime)], [url])
        else
          var fetched := fetch(url);
          Read(fetched, c.(data := Some(fetched)), cache, [url])
    case Realpath => Read(Blob(files.readPath(c.realpath.value)), c, cache, [])
    case Storage => Read(Blob(files.readDisk(c.disk.value, c.file.value)), c, cache, [])
    case Data => Read(c.data.value, c, cache, [])
  }

  /**
   * The container and the cache store after `didSaveToServer($url)`, and
   * whether it threw.
   */
  datatype Saved = Saved(container: Container, cache: Cache, outcome: Outcome<Error>)

  /**
   * `didSaveToServer($url)`: record the new URL and, when cachable, cache the
   * field's bytes under it. The URL is recorded before `saveToCache()` runs,
   * so it stays recorded when that throws.
   */
  function ServerSave(origin: Origin, c: Container, url: string, cacheTime: int, cache: Cache,
                      files: Files): (s: Saved)
    requires WellFormed(origin, c)
    ensures WellFormed(origin, s.container)
    ensures s.container.(url := c.url) == c
    ensures CacheKey(s.container) == Some(url)
    ensures s.outcome.Fail? <==> IsCachable(s.container, cacheTime) && origin == Server && c.data.None?
    ensures s.outcome.Fail? ==> s.outcome == Fail(UndefinedDataIndex) && s.cache == cache
    ensures !IsCachable(s.container, cacheTime) ==> s.cache == cache
    ensures IsCachable(s.container, cacheTime) && s.outcome.Pass? ==>
      && url in s.cache
      && Success(s.cache[url].value) == CachedPayload(origin, s.container, files)
      && s.cache[url].duration == cacheTime
      && s.cache - {url} == cache - {url}
  {
    var saved := c.(url := Some(url));
    if IsCachable(saved, cacheTime) then
      match CachedPayload(origin, saved, files)
      case Success(data) => Saved(saved, cache[url := CacheEntry(data, cacheTime)], Pass)
      case Failure(e) => Saved(saved, cache, Fail(e))
    else
      Saved(saved, cache, Pass)
  }

  /**
   * One container field. The host model is not held: its cache time, cache
   * store and server connection are passed to the operations that use them.
   */
  class ContainerField {
    var origin: Origin
    var key: Option<string>
    var container: Container

    predicate Valid()
      reads this
    {
      WellFormed(origin, container)
    }

    /** `fromServer($key, $url, $model)`. */
    constructor FromServer(key: string, url: string)
      ensures Valid()
      ensures origin == Server && this.key == Some(key)
      ensures container == Container(Some(FileNameFromUrl(url)), Some(url), None, None, None)
    {
      origin := Server;
      this.key := Some(key);
      container := Container(Some(FileNameFromUrl(url)), Some(url), None, None, None);
    }

    /** `fromStorage($filename, $disk)`: no key is set. */
    constructor FromStorage(filename: string, disk: Disk)
      ensures Valid()
      ensures origin == Storage && key == None
      ensures container == Container(Some(filename), None, Some(disk), None, None)
    {
      origin := Storage;
      key := None;
      container := NoEntries;
      new;
      SetFromStorage(filename, disk);
    }

    /** `fromRealpath($realpath, $filename)`: no key is set. */
    constructor FromRealpath(realpath: string, filename: Option<string>)
      ensures Valid()
      ensures origin == Realpath && key == None
      ensures container == Container(Some(filename.GetOr(Basename(realpath))), None, None, Some(realpath), None)
    {
      origin := Realpath;
      key := None;
      container := NoEntries;
      new;
      SetFromRealpath(realpath, filename);
    }

    /** `withData($filename, $rawData)`: no key is set. */
    constructor WithData(filename: string, rawData: Value)
      ensures Valid()
      ensures origin == Data && key == None
      ensures container == Container(Some(filename), None, None, None, Some(rawData))
    {
      origin := Data;
      key := None;
      container := NoEntries;
      new;
      SetWithData(filename, rawData);
    }

    /** `setFromStorage($filename, $disk)`: re-source the field; every earlier entry is dropped. */
    method SetFromStorage(filename: string, disk: Disk)
      modifies this`origin, this`container
      ensures Valid()
      ensures origin == Storage
      ensures container == Container(Some(filename), None, Some(disk), None, None)
    {
      origin := Storage;
      container := Container(Some(filename), None, Some(disk), None, None);
    }

    /**
     * `setFromRealpath($realpath, $filename)`: re-source the field; without a
     * filename, the basename of the path is used.
     */
    method SetFromRealpath(realpath: string, filename: Option<string>)
      modifies this`origin, this`container
      ensures Valid()
      ensures origin == Realpath
      ensures container == Container(Some(filename.GetOr(Basename(realpath))), None, None, Some(realpath), None)
    {
      var name := if filename.Some? then filename.value else Basename(realpath);
      origin := Realpath;
      container := Container(Some(name), None, None, Some(realpath), None);
    }

    /** `setWithData($filename, $rawData)`: re-source the field with bytes held in memory. */
    method SetWithData(filename: string, rawData: Value)
      modifies this`origin, this`container
      ensures Valid()
      ensures origin == Data
      ensures container == Container(Some(filename), None, None, None, Some(rawData))
    {
      origin := Data;
      container := Container(Some(filename), None, None, None, Some(rawData));
    }

    /** `setKey($key)`. */
    method SetKey(key: string)
      modifies this`key
      ensures this.key == Some(key)
    {
      this.key := Some(key);
    }

    /**
     * `fetchServerData()`: fails unless the field comes from the server;
     * null without a URL; otherwise the server's container data for the URL.
     */
    method FetchServerData(server: FileMakerServer) returns (r: Result<Value, Error>)
      modifies server
      ensures origin != Server ==>
        r == Failure(NotStoredOnServer) && server.requests == old(server.requests)
      ensures origin == Server && Empty(container.url) ==>
        r == Success(Null) && server.requests == old(server.requests)
      ensures origin == Server && !Empty(container.url) ==>
        && r == Success(server.containerData(container.url.value))
        && server.requests == old(server.requests) + [container.url.value]
    {
      if origin != Server {
        return Failure(NotStoredOnServer);
      }
      if Empty(container.url) {
        return Success(Null);
      }
      var data := server.GetContainerData(container.url.value);
      return Success(data);
    }

    /** `loadServerData()`: fetch and memoise the server data unless it is already loaded. */
    method LoadServerData(server: FileMakerServer) returns (outcome: Outcome<Error>)
      modifies this`container, server
      ensures HasLoadedServerData(origin, old(container)) ==>
        outcome == Pass && container == old(container) && server.requests == old(server.requests)
      ensures origin != Server ==>
        outcome == Fail(NotStoredOnServer) && container == old(container)
        && server.requests == old(server.requests)
      ensures !HasLoadedServerData(origin, old(container)) && origin == Server && Empty(old(container).url) ==>
        outcome == Pass && container == old(container).(data := Some(Null))
        && server.requests == old(server.requests)
      ensures !HasLoadedServerData(origin, old(container)) && origin == Server && !Empty(old(container).url) ==>
        var url := old(container).url.value;
        outcome == Pass && container == old(container).(data := Some(server.containerData(url)))
        && server.requests == old(server.requests) + [url]
    {
      if !HasLoadedServerData(origin, container) {
        var fetched := FetchServerData(server);
        match fetched
        case Failure(e) =>
          return Fail(e);
        case Success(data) =>
          container := container.(data := Some(data));
      }
      return Pass;
    }

    /**
     * `saveToCache()`: put the field's bytes in the cache store under its
     * cache key; an unloaded server field throws before anything is stored.
     */
    method SaveToCache(cacheTime: int, store: CacheStore, files: Files) returns (outcome: Outcome<Error>)
      requires Valid()
      requires CacheKey(container).Some?
      modifies store
      ensures CachedPayload(origin, container, files).Success? ==>
        && outcome == Pass
        && store.entries == old(store.entries)[CacheKey(container).value :=
                              CacheEntry(CachedPayload(origin, container, files).value, cacheTime)]
      ensures CachedPayload(origin, container, files).Failure? ==>
        outcome == Fail(CachedPayload(origin, container, files).error) && store.entries == old(store.entries)
    {
      match CachedPayload(origin, container, files) {
        case Success(data) =>
          store.Put(CacheKey(container).value, data, cacheTime);
          outcome := Pass;
        case Failure(e) =>
          outcome := Fail(e);
      }
    }

    /** `$field->data`: the field's bytes, loaded and cached on first access for server fields. */
    method GetData(cacheTime: int, store: CacheStore, server: FileMakerServer, files: Files)
      returns (v: Value)
      requires Valid()
      modifies this`container, store, server
      ensures Valid()
      ensures var r := ReadData(origin, old(container), cacheTime, old(store.entries), server.containerData, files);
        && v == r.value
        && container == r.container
        && store.entries == r.cache
        && server.requests == old(server.requests) + r.fetches
    {
      match origin
      case Server =>
        if Empty(container.url) {
          return Null;
        }
        if !HasLoadedServerData(origin, container) {
          if IsCachable(container, cacheTime) {
            var cacheKey := CacheKey(container).value;
            if store.Has(cacheKey) {
              container := container.(data := Some(store.Get(cacheKey)));
            } else {
              var loaded := LoadServerData(server);
              var saved := SaveToCache(cacheTime, store, files);
            }
          } else {
            var loaded := LoadServerData(server);
          }
        }
        v := container.data.value;
      case Realpath =>
        v := Blob(files.readPath(container.realpath.value));
      case Storage =>
        v := Blob(files.readDisk(container.disk.value, container.file.value));
      case Data =>
        v := container.data.value;
    }

    /** `didSaveToServer($url)`: the origin is left as it is. */
    method DidSaveToServer(url: string, cacheTime: int, store: CacheStore, files: Files)
      returns (outcome: Outcome<Error>)
      requires Valid()
      modifies this`container, store
      ensures Valid()
      ensures var s := ServerSave(origin, old(container), url, cacheTime, old(store.entries), files);
        container == s.container && store.entries == s.cache && outcome == s.outcome
    {
      container := container.(url := Some(url));
      outcome := Pass;
      if IsCachable(container, cacheTime) {
        outcome := SaveToCache(cacheTime, store, files);
      }
    }
  }
}
