/**
 * What reading, loading and saving a container field promise, stated over the
 * functions that specify the class's methods.
 */
module ContainerFieldProperties {
  import opened Wrappers
  import opened Php
  import opened Collaborators
  import opened ContainerFields

  // ----- Filenames -----

  /** A URL with a query string gives the basename of the part before the first '?'. */
  lemma FileNameOfUrlWithQuery(path: string, query: string)
    requires '?' !in path
    ensures FileNameFromUrl(path + "?" + query) == Basename(path)
  {
    var url := path + "?" + query;
    assert url[|path|] == '?';
    var cut := StrPos(url, '?', 0);
    assert cut.value == |path|;
    assert url[..|path|] == path;
  }

  /** A URL of the usual shape `dir/name?query` gives `name`. */
  lemma FileNameOfFileUrl(dir: string, name: string, query: string)
    requires name != [] && '/' !in name
    requires '?' !in dir && '?' !in name
    ensures FileNameFromUrl(dir + "/" + name + "?" + query) == name
  {
    FileNameOfUrlWithQuery(dir + "/" + name, query);
    BasenameOfJoin(dir, name);
  }

  lemma FileNameExample()
    ensures FileNameFromUrl("https://h/dir/photo.jpg?token=xyz") == "photo.jpg"
  {
    assert "https://h/dir/photo.jpg?token=xyz" == "https://h/dir" + "/" + "photo.jpg" + "?" + "token=xyz";
    FileNameOfFileUrl("https://h/dir", "photo.jpg", "token=xyz");
  }

  /** Without a '?', the URL's own last segment is not used: the filename is "". */
  lemma FileNameWithoutQueryExample()
    ensures FileNameFromUrl("https://h/dir/photo.jpg") == ""
  {
    var url := "https://h/dir/photo.jpg";
    assert forall i :: 0 <= i < |url| ==> url[i] != '?';
  }

  lemma RealpathFileNameExample()
    ensures Basename("/tmp/x/report.pdf") == "report.pdf"
  {
    assert "/tmp/x/report.pdf" == "/tmp/x" + "/" + "report.pdf";
    BasenameOfJoin("/tmp/x", "report.pdf");
  }

  // ----- Emptiness and cache eligibility -----

  /** Only a server field can be empty; fields from any other origin are never empty. */
  lemma OnlyServerFieldsAreEmpty(origin: Origin, c: Container)
    ensures IsEmpty(origin, c) ==> origin == Server
    ensures origin == Server ==> (IsEmpty(origin, c) <==> Empty(c.url))
  {
  }

  /** Caching needs both a positive cache time and a non-empty URL, whatever the origin. */
  lemma CachableExactly(c: Container, cacheTime: int)
    ensures IsCachable(c, cacheTime) <==> 0 < cacheTime && c.url.Some? && c.url.value != "" && c.url.value != "0"
    ensures cacheTime <= 0 ==> !IsCachable(c, cacheTime)
  {
  }

  // ----- Reading the data -----

  /** An empty server field reads as null: nothing is fetched and nothing changes. */
  lemma EmptyFieldReadsNull(origin: Origin, c: Container, cacheTime: int, cache: Cache,
                            fetch: string -> Value, files: Files)
    requires WellFormed(origin, c) && IsEmpty(origin, c)
    ensures ReadData(origin, c, cacheTime, cache, fetch, files) == Read(Null, c, cache, [])
  {
  }

  /**
   * Once a server field has loaded its data, a read returns the memoised value
   * without fetching and without touching the cache, whatever the cache
   * configuration.
   */
  lemma LoadedFieldReadsMemoisedData(origin: Origin, c: Container, cacheTime: int, cache: Cache,
                                     fetch: string -> Value, files: Files)
    requires WellFormed(origin, c) && HasLoadedServerData(origin, c) && !IsEmpty(origin, c)
    ensures ReadData(origin, c, cacheTime, cache, fetch, files) == Read(c.data.value, c, cache, [])
  {
  }

  /**
   * A cache hit (a non-null entry under the URL) on an unloaded server field
   * memoises the cached value and fetches nothing.
   */
  lemma CacheHitDoesNotFetch(c: Container, cacheTime: int, cache: Cache,
                             fetch: string -> Value, files: Files)
    requires WellFormed(Server, c) && !HasLoadedServerData(Server, c)
    requires IsCachable(c, cacheTime) && CacheHas(cache, c.url.value)
    ensures var r := ReadData(Server, c, cacheTime, cache, fetch, files);
      && r.value == cache[c.url.value].value
      && r.fetches == []
      && r.cache == cache
      && r.container == c.(data := Some(cache[c.url.value].value))
  {
  }

  /**
   * A cache miss on an unloaded server field fetches once, memoises the value
   * and puts it in the cache under the URL with the cache time; every other
   * cache entry is unchanged. An entry holding null is a miss.
   */
  lemma CacheMissFetchesOnceAndStores(c: Container, cacheTime: int, cache: Cache,
                                      fetch: string -> Value, files: Files)
    requires WellFormed(Server, c) && !HasLoadedServerData(Server, c)
    requires IsCachable(c, cacheTime) && !CacheHas(cache, c.url.value)
    ensures var url := c.url.value;
      var r := ReadData(Server, c, cacheTime, cache, fetch, files);
      && r.value == fetch(url)
      && r.fetches == [url]
      && r.container == c.(data := Some(fetch(url)))
      && url in r.cache && r.cache[url] == CacheEntry(fetch(url), cacheTime)
      && r.cache - {url} == cache - {url}
  {
  }

  /** Without caching, an unloaded, non-empty server field fetches once and leaves the cache alone. */
  lemma UncachedReadFetchesOnce(c: Container, cacheTime: int, cache: Cache,
                                fetch: string -> Value, files: Files)
    requires WellFormed(Server, c) && !HasLoadedServerData(Server, c) && !IsEmpty(Server, c)
    requires !IsCachable(c, cacheTime)
    ensures var r := ReadData(Server, c, cacheTime, cache, fetch, files);
      && r.value == fetch(c.url.value)
      && r.fetches == [c.url.value]
      && r.container == c.(data := Some(fetch(c.url.value)))
      && r.cache == cache
  {
  }

  /** Fields that do not come from the server never fetch and never touch the cache or the container. */
  lemma LocalFieldsNeverFetch(origin: Origin, c: Container, cacheTime: int, cache: Cache,
                              fetch: string -> Value, files: Files)
    requires WellFormed(origin, c) && origin != Server
    ensures var r := ReadData(origin, c, cacheTime, cache, fetch, files);
      r.fetches == [] && r.cache == cache && r.container == c
  {
  }

  /** A field made with `withData` reads back exactly the bytes it was given. */
  lemma WithDataReadsBack(filename: string, raw: Value, cacheTime: int, cache: Cache,
                          fetch: string -> Value, files: Files)
    ensures ReadData(Data, Container(Some(filename), None, None, None, Some(raw)), cacheTime, cache, fetch, files).value == raw
  {
  }

  /**
   * The server is fetched at most once per field: a second read, even with
   * another cache configuration, cache contents, server or file contents,
   * fetches nothing and changes neither the field nor the cache. It returns
   * the same value for `server` and `data` fields, and for `realpath` and
   * `storage` fields whose files are unchanged.
   */
  lemma {:induction false} SecondReadNeverFetches(origin: Origin, c: Container,
                                                  cacheTime: int, cache: Cache, fetch: string -> Value,
                                                  files: Files, cacheTime': int, cache': Cache,
                                                  fetch': string -> Value, files': Files)
    requires WellFormed(origin, c)
    ensures var r := ReadData(origin, c, cacheTime, cache, fetch, files);
      var r' := ReadData(origin, r.container, cacheTime', cache', fetch', files');
      && r'.fetches == [] && r'.container == r.container && r'.cache == cache'
      && (origin == Server || origin == Data || files' == files ==> r'.value == r.value)
  {
    var r := ReadData(origin, c, cacheTime, cache, fetch, files);
    if origin == Server && !IsEmpty(origin, c) {
      assert HasLoadedServerData(origin, r.container);
      LoadedFieldReadsMemoisedData(origin, r.container, cacheTime', cache', fetch', files');
    }
  }

  // ----- Saving to the server -----

  /** What `saveToCache()` stores is what a read of a non-empty, loaded or local field returns. */
  lemma CachedPayloadIsReadValue(origin: Origin, c: Container, cacheTime: int, cache: Cache,
                                 fetch: string -> Value, files: Files)
    requires WellFormed(origin, c) && !IsEmpty(origin, c)
    requires origin == Server ==> HasLoadedServerData(origin, c)
    ensures CachedPayload(origin, c, files) == Success(ReadData(origin, c, cacheTime, cache, fetch, files).value)
  {
  }

  /**
   * After a `didSaveToServer(url)` that does not throw, with caching on,
   * reading the field never fetches; when the URL is non-empty it returns
   * what was just cached.
   */
  lemma SaveThenReadNeverFetches(origin: Origin, c: Container, url: string, cacheTime: int, cache: Cache,
                                 fetch: string -> Value, files: Files)
    requires WellFormed(origin, c) && 0 < cacheTime
    ensures var s := ServerSave(origin, c, url, cacheTime, cache, files);
      var r := ReadData(origin, s.container, cacheTime, s.cache, fetch, files);
      s.outcome.Pass? ==>
        && r.fetches == []
        && (!Empty(Some(url)) ==> url in s.cache && r.value == s.cache[url].value)
  {
  }

  /**
   * With caching on, `didSaveToServer(url)` on a server field that has not
   * loaded its data throws from `saveToCache()`: the URL is recorded, the
   * cache is untouched, and a later read fetches unless the cache already
   * holds a non-null value under the URL.
   */
  lemma SaveOfUnloadedServerFieldThrows(c: Container, url: string, cacheTime: int, cache: Cache,
                                        fetch: string -> Value, files: Files)
    requires WellFormed(Server, c) && !HasLoadedServerData(Server, c)
    requires 0 < cacheTime && !Empty(Some(url))
    ensures var s := ServerSave(Server, c, url, cacheTime, cache, files);
      var r := ReadData(Server, s.container, cacheTime, s.cache, fetch, files);
      && s.outcome == Fail(UndefinedDataIndex)
      && s.container == c.(url := Some(url))
      && s.cache == cache
      && r.fetches == (if CacheHas(cache, url) then [] else [url])
  {
  }

  /**
   * A save to the server makes any field cache-key-bearing: a `data` field
   * keeps its origin, and with caching on its bytes are cached under the URL.
   */
  lemma SavedDataFieldIsCachedUnderUrl(c: Container, url: string, cacheTime: int, cache: Cache, files: Files)
    requires WellFormed(Data, c) && 0 < cacheTime && !Empty(Some(url))
    ensures var s := ServerSave(Data, c, url, cacheTime, cache, files);
      && s.outcome == Pass
      && CacheKey(s.container) == Some(url)
      && s.cache[url] == CacheEntry(c.data.value, cacheTime)
  {
  }

  /**
   * Two fields that save to the same URL share one cache entry: the cache key
   * is the raw URL, with no per-field or per-record part.
   */
  lemma SameUrlSharesCacheEntry(origin1: Origin, c1: Container, origin2: Origin, c2: Container,
                                url: string, cacheTime: int, cache: Cache, files: Files)
    requires WellFormed(origin1, c1) && WellFormed(origin2, c2)
    requires 0 < cacheTime && !Empty(Some(url))
    ensures var s1 := ServerSave(origin1, c1, url, cacheTime, cache, files);
      var s2 := ServerSave(origin2, c2, url, cacheTime, s1.cache, files);
      && (s2.outcome.Pass? ==>
            s2.cache[url] == CacheEntry(CachedPayload(origin2, c2.(url := Some(url)), files).value, cacheTime))
      && s2.cache - {url} == cache - {url}
  {
  }

  // ----- The same promises on a field object -----

  /** Reading `$field->data` twice hits the server at most once and gives the same value. */
  method RepeatedReadsFetchAtMostOnce(field: ContainerField, cacheTime: int, store: CacheStore,
                                      server: FileMakerServer, files: Files)
    returns (first: Value, second: Value)
    requires field.Valid()
    modifies field, store, server
    ensures first == second
    ensures |server.requests| <= |old(server.requests)| + 1
  {
    ghost var c := field.container;
    ghost var cache := store.entries;
    first := field.GetData(cacheTime, store, server, files);
    second := field.GetData(cacheTime, store, server, files);
    SecondReadNeverFetches(field.origin, c, cacheTime, cache, server.containerData, files,
                           cacheTime, ReadData(field.origin, c, cacheTime, cache, server.containerData, files).cache,
                           server.containerData, files);
  }

  /**
   * With caching on, reading a field just saved to the server does not hit
   * the server. When the save throws, the exception propagates and nothing
   * is read.
   */
  method SaveThenReadDoesNotFetch(field: ContainerField, url: string, cacheTime: int, store: CacheStore,
                                  server: FileMakerServer, files: Files)
    returns (outcome: Outcome<Error>, data: Value)
    requires field.Valid() && 0 < cacheTime
    modifies field, store, server
    ensures server.requests == old(server.requests)
    ensures field.origin == old(field.origin) && field.container.url == Some(url)
    ensures outcome.Pass? && !Empty(Some(url)) ==> url in store.entries && data == store.entries[url].value
  {
    ghost var c := field.container;
    ghost var cache := store.entries;
    outcome := field.DidSaveToServer(url, cacheTime, store, files);
    if outcome.Fail? {
      return outcome, Null;
    }
    data := field.GetData(cacheTime, store, server, files);
    SaveThenReadNeverFetches(field.origin, c, url, cacheTime, cache, server.containerData, files);
  }
}
