# FileMaker container fields

A model of `ContainerField` from FMLaravel. A container field is a FileMaker
record attribute whose binary payload comes from one of four origins:

- `server`: a URL on the FileMaker server;
- `storage`: a file on a Laravel storage disk;
- `realpath`: a file on the local file system;
- `data`: bytes held in memory.

Server data is loaded lazily on the first read of `$field->data` and memoised
in the field. Loading can go through a write-through cache that the host model
configures. After an upload, `didSaveToServer` records the new URL and, when
caching is on, caches the field's bytes under it.

Files:

- `Wrappers.dfy` holds `Option`, `Result` and `Outcome`.
- `Php.dfy` holds the PHP built-ins the class relies on: `empty()` on a string
  entry, `strpos` and `basename`.
- `Collaborators.dfy` holds what the field reaches through its host model.
  - `CacheStore` is the shared cache store: a map from key to value and duration.
    As in Laravel's cache repository, `has` is false for an entry that holds null.
  - `FileMakerServer` is the connection's `getContainerData`. Its ghost
    `requests` log records every URL fetched.
  - `Files` holds read functions for `file_get_contents` and for
    `Storage::disk(...)->get(...)`.
- `ContainerField.dfy` holds the data model and the specification functions.
  - The `Origin` enum and the `Container` record: each `$container` entry
    (`file`, `url`, `disk`, `realpath`, `data`) is absent or present.
  - `WellFormed` is the invariant that relates the origin to the entries present.
  - The read-only queries `IsEmpty`, `HasLoadedServerData`, `CacheKey` and
    `IsCachable` are pure functions over (origin, container).
  - `ReadData` specifies `__get('data')`. `ServerSave` specifies
    `didSaveToServer`. `CachedPayload` is what `saveToCache` stores.
  - The class `ContainerField` has the fields `origin`, `key` and `container`.
    Its methods update them in place and are proved against those functions.
- `ContainerFieldProperties.dfy` holds the lemmas relating reads, loads, the
  cache and saves. It also has two methods that show the same promises on a
  field object.

`getKey()` is the `key` field. The setters' `modifies` frames leave `key`
untouched.

Behaviour a reader might not expect:

- `didSaveToServer` does not change the origin. A `data`, `realpath` or
  `storage` field gets a `url` entry, keeps its origin and becomes
  cache-key-bearing.
- `getCacheKey` returns the `url` entry for every origin that has one, not only
  for server fields.
- "Loaded" means that the `data` entry exists. A memoised null counts as loaded.
- `empty()` is PHP's: an absent entry, `""` and `"0"` are all empty.
- `fromServer` takes the filename from the part of the URL before the first `?`
  (the query delimiter of section 3.4 of RFC 3986). For a URL without `?`,
  `strpos` gives false, which `substr` reads as length 0, so the filename is
  `""`.
- `saveToCache` reads `$this->container['data']` for `server` and `data`
  fields. On a server field that has not loaded its data, the entry is absent.
  Reading it raises an undefined-index notice, and Laravel's error handler turns
  that notice into an exception. So `didSaveToServer` with caching on, on such a
  field, records the new URL, caches nothing and throws (`UndefinedDataIndex`).
- The cache store's `has` is false for a key that holds null. A null that was
  fetched and cached is therefore fetched again on the next field's first read.
- Both `throw new Exception(...)` sites (lines 219 and 276) name `Exception`
  inside the `FMLaravel\Database\ContainerField` namespace without importing
  it. Unless that namespace defines its own `Exception`, PHP raises a
  class-not-found error there instead. Either way the call fails, and the
  model records only that it fails.
- `saveToCache`'s `default` branch throws for an unknown origin. With a closed
  `Origin` enum this branch cannot be reached, so it is not modelled.

## Model

| member | source | states |
|---|---|---|
| `Php.Empty` | src/FMLaravel/Database/ContainerField/ContainerField.php:197 | PHP `empty()` on a string entry: an empty entry is absent or at most one character long, and a one-character empty string is `0` |
| `Php.EmptyStrings` | src/FMLaravel/Database/ContainerField/ContainerField.php:256 | absent, `""` and `"0"` are empty; `"00"`, `"0.0"`, `" "` and `"false"` are not |
| `Php.StrPos` | src/FMLaravel/Database/ContainerField/ContainerField.php:51 | `strpos($url, '?', $offset)`: `None` (false) exactly when no `?` lies at or after the offset; otherwise the index of the first such `?` |
| `Php.TrimmedLength` | src/FMLaravel/Database/ContainerField/ContainerField.php:51 | first step of `basename`: the length of the path without its trailing slashes; what it cuts off is all `/` and what remains does not end in `/` |
| `Php.LastSlash` | src/FMLaravel/Database/ContainerField/ContainerField.php:51 | the index of a `/` with no `/` after it in the given prefix, or `None` exactly when the prefix has no `/` |
| `Php.Basename` | src/FMLaravel/Database/ContainerField/ContainerField.php:88-92 | `basename` never contains `/` and leaves a path without `/` unchanged |
| `Php.BasenameOfJoin` | src/FMLaravel/Database/ContainerField/ContainerField.php:90-92 | `basename(dir + "/" + name)` is `name` for any non-empty segment `name` |
| `Php.BasenameIgnoresTrailingSlash` | src/FMLaravel/Database/ContainerField/ContainerField.php:88-92 | `basename(path + "/")` equals `basename(path)` for every path: trailing slashes are ignored |
| `Php.BasenameOfDirectoryExample` | src/FMLaravel/Database/ContainerField/ContainerField.php:88-92 | `basename("a/b/")` is `b` |
| `ContainerFields.FileNameFromUrl` | src/FMLaravel/Database/ContainerField/ContainerField.php:51 | the filename contains no `/` and is `""` for a URL without `?` |
| `ContainerFieldProperties.FileNameOfUrlWithQuery` | src/FMLaravel/Database/ContainerField/ContainerField.php:51 | for `path?query` with no `?` in `path`, the filename is `basename(path)` |
| `ContainerFieldProperties.FileNameOfFileUrl` | src/FMLaravel/Database/ContainerField/ContainerField.php:51 | for `dir/name?query` the filename is `name` |
| `ContainerFieldProperties.FileNameExample` | src/FMLaravel/Database/ContainerField/ContainerField.php:51 | `https://h/dir/photo.jpg?token=xyz` gives `photo.jpg` |
| `ContainerFieldProperties.FileNameWithoutQueryExample` | src/FMLaravel/Database/ContainerField/ContainerField.php:51 | `https://h/dir/photo.jpg` (no `?`) gives `""` |
| `ContainerFieldProperties.RealpathFileNameExample` | src/FMLaravel/Database/ContainerField/ContainerField.php:90-92 | `basename("/tmp/x/report.pdf")` is `report.pdf` |
| `ContainerFields.ContainerField.FromServer` | src/FMLaravel/Database/ContainerField/ContainerField.php:44-59 | a server field with the given key, the URL stored verbatim, the derived filename, and no `data` entry, so nothing is loaded |
| `ContainerFields.ContainerField.FromStorage` | src/FMLaravel/Database/ContainerField/ContainerField.php:61-68 | a storage field with no key and exactly the `file` and `disk` entries |
| `ContainerFields.ContainerField.SetFromStorage` | src/FMLaravel/Database/ContainerField/ContainerField.php:70-77 | origin becomes `storage`; the container is replaced by `file` and `disk` only, so any `url` or `data` is dropped; the key is untouched |
| `ContainerFields.ContainerField.FromRealpath` | src/FMLaravel/Database/ContainerField/ContainerField.php:79-86 | a realpath field with no key, the given filename or else `basename(realpath)` |
| `ContainerFields.ContainerField.SetFromRealpath` | src/FMLaravel/Database/ContainerField/ContainerField.php:88-99 | origin becomes `realpath`; the container is replaced by `file` (the filename, or else `basename(realpath)`) and `realpath`; the key is untouched |
| `ContainerFields.ContainerField.WithData` | src/FMLaravel/Database/ContainerField/ContainerField.php:101-108 | a data field with no key holding exactly the given filename and bytes |
| `ContainerFields.ContainerField.SetWithData` | src/FMLaravel/Database/ContainerField/ContainerField.php:110-117 | origin becomes `data`; the container is replaced by `file` and `data`; the key is untouched |
| `ContainerFields.ContainerField.SetKey` | src/FMLaravel/Database/ContainerField/ContainerField.php:134-138 | sets the key and nothing else |
| `ContainerFields.ReadData` | src/FMLaravel/Database/ContainerField/ContainerField.php:146-183 | a read keeps the invariant and fetches at most once. A fetch happens only on an unloaded server field, for its URL, and only on a cache miss when cachable; the fetched value is returned. The container is unchanged or gains the returned value as memoised `data`. The cache is unchanged or, when cachable, gains the returned value under the URL with the cache time |
| `ContainerFields.ContainerField.GetData` | src/FMLaravel/Database/ContainerField/ContainerField.php:146-183 | the value returned, the new container, the new cache store and the URLs requested from the server are those `ReadData` gives for the old state |
| `ContainerFields.WellFormed` | src/FMLaravel/Database/ContainerField/ContainerField.php:44-117 | the entries the factories and setters put in place: a `disk` entry exactly for `storage` fields, a `realpath` entry exactly for `realpath` fields, and a `data` entry only on `server` and `data` fields |
| `ContainerFields.IsEmpty` | src/FMLaravel/Database/ContainerField/ContainerField.php:193-203 | `isEmpty()` can hold only for a server field whose `url` entry is absent or at most one character long |
| `ContainerFields.HasLoadedServerData` | src/FMLaravel/Database/ContainerField/ContainerField.php:205-208 | never holds for a field not from the server; a server field whose `data` entry holds null has loaded |
| `ContainerFields.CacheKey` | src/FMLaravel/Database/ContainerField/ContainerField.php:242-248 | the key is present exactly when the `url` entry is, is that entry's raw string, and every server field has one |
| `ContainerFields.IsCachable` | src/FMLaravel/Database/ContainerField/ContainerField.php:254-257 | a cachable field has a positive cache time and a cache key; a cache time ≤ 0 disables caching |
| `ContainerFields.CachedPayload` | src/FMLaravel/Database/ContainerField/ContainerField.php:259-277 | the `$data` `saveToCache` stores: it fails exactly for a server field without a `data` entry; for `server` and `data` fields it is the `data` entry |
| `Collaborators.CacheHas` | src/FMLaravel/Database/ContainerField/ContainerField.php:162 | `$store->has($key)` holds exactly when the key is stored with a non-null value |
| `ContainerFieldProperties.OnlyServerFieldsAreEmpty` | src/FMLaravel/Database/ContainerField/ContainerField.php:193-203 | `isEmpty()` holds only for server fields, and for them exactly when the URL is empty |
| `ContainerFieldProperties.EmptyFieldReadsNull` | src/FMLaravel/Database/ContainerField/ContainerField.php:151-155 | reading an empty server field gives null, fetches nothing, and leaves the container and cache unchanged |
| `ContainerFieldProperties.LoadedFieldReadsMemoisedData` | src/FMLaravel/Database/ContainerField/ContainerField.php:156-173 | once `data` exists on a server field with a non-empty URL, a read returns it, fetches nothing and changes nothing, whatever the cache configuration |
| `ContainerFieldProperties.CacheHitDoesNotFetch` | src/FMLaravel/Database/ContainerField/ContainerField.php:158-163 | cachable and unloaded with a non-null value cached under the URL: returns and memoises the cached value, fetches nothing, leaves the cache unchanged |
| `ContainerFieldProperties.CacheMissFetchesOnceAndStores` | src/FMLaravel/Database/ContainerField/ContainerField.php:164-167 | cachable and unloaded with the URL not cached or cached as null: fetches the URL once, memoises the value, and puts it under the URL with the cache time; every other entry is unchanged |
| `ContainerFieldProperties.UncachedReadFetchesOnce` | src/FMLaravel/Database/ContainerField/ContainerField.php:168-170 | not cachable, unloaded and non-empty: fetches the URL once, memoises the value, and leaves the cache store untouched |
| `ContainerFieldProperties.LocalFieldsNeverFetch` | src/FMLaravel/Database/ContainerField/ContainerField.php:175-182 | `realpath`, `storage` and `data` reads never fetch and change neither the container nor the cache |
| `ContainerFieldProperties.WithDataReadsBack` | src/FMLaravel/Database/ContainerField/ContainerField.php:110-117 | a field built from `withData(f, B)` reads back exactly `B` |
| `ContainerFieldProperties.SecondReadNeverFetches` | src/FMLaravel/Database/ContainerField/ContainerField.php:146-183 | a second read fetches nothing and changes neither the field nor the cache, even with another cache time, cache, server or file contents. It returns the same value for `server` and `data` fields, and for `realpath` and `storage` fields whose files are unchanged |
| `ContainerFieldProperties.RepeatedReadsFetchAtMostOnce` | src/FMLaravel/Database/ContainerField/ContainerField.php:146-183 | on a field object, two reads of `data` return the same value and add at most one server request |
| `ContainerFields.ContainerField.FetchServerData` | src/FMLaravel/Database/ContainerField/ContainerField.php:216-225 | fails (the source throws) unless the origin is `server`; null without a request when the URL is empty; otherwise one request for the URL and its data |
| `ContainerFields.ContainerField.LoadServerData` | src/FMLaravel/Database/ContainerField/ContainerField.php:205-215 | a no-op once loaded. A non-server field fails and nothing changes. An unloaded server field memoises what `fetchServerData` returns: null for an empty URL, otherwise the server's data after one request |
| `ContainerFieldProperties.CachableExactly` | src/FMLaravel/Database/ContainerField/ContainerField.php:242-257 | `isCachable()` holds exactly when the cache time is positive and the `url` entry exists and is non-empty, for every origin. It is false when the cache time is ≤ 0 |
| `ContainerFields.ContainerField.SaveToCache` | src/FMLaravel/Database/ContainerField/ContainerField.php:259-283 | when `CachedPayload` succeeds, the store gains exactly one entry: the origin's bytes under the cache key, with the cache time. For a server field without a `data` entry it fails and the store is unchanged |
| `ContainerFieldProperties.CachedPayloadIsReadValue` | src/FMLaravel/Database/ContainerField/ContainerField.php:259-276 | what `saveToCache` stores (it does not fail) equals what a read returns, for a non-empty field that is local or has loaded its data |
| `ContainerFields.ServerSave` | src/FMLaravel/Database/ContainerField/ContainerField.php:227-235 | only the `url` entry changes, so the origin and the invariant are kept, and the cache key becomes the new URL, even when the save throws. It throws exactly when cachable on a server field without a `data` entry, and then the cache is unchanged. When not cachable the cache is unchanged. Otherwise the URL maps to the origin's bytes with the cache time, and every other entry is unchanged |
| `ContainerFields.ContainerField.DidSaveToServer` | src/FMLaravel/Database/ContainerField/ContainerField.php:227-235 | the new container, the cache store and whether it throws are those `ServerSave` gives; the origin is untouched |
| `ContainerFieldProperties.SaveThenReadNeverFetches` | src/FMLaravel/Database/ContainerField/ContainerField.php:227-235 | with caching on, a read after a `didSaveToServer(url)` that does not throw fetches nothing; for a non-empty URL it returns what was cached |
| `ContainerFieldProperties.SaveOfUnloadedServerFieldThrows` | src/FMLaravel/Database/ContainerField/ContainerField.php:227-235 | with caching on, saving an unloaded server field records the URL, throws and leaves the cache unchanged; a later read fetches unless a non-null value is already cached under the URL |
| `ContainerFieldProperties.SaveThenReadDoesNotFetch` | src/FMLaravel/Database/ContainerField/ContainerField.php:227-235 | on a field object with caching on, save then read adds no server request, keeps the origin and records the URL; when the save does not throw and the URL is non-empty, the read returns the cached value |
| `ContainerFieldProperties.SavedDataFieldIsCachedUnderUrl` | src/FMLaravel/Database/ContainerField/ContainerField.php:227-248 | a `data` field saved to the server does not throw, keeps its origin, has the URL as cache key, and with caching on its bytes are cached under the URL |
| `ContainerFieldProperties.SameUrlSharesCacheEntry` | src/FMLaravel/Database/ContainerField/ContainerField.php:242-248 | two fields saved to the same URL share one cache entry, and the last save that does not throw wins: the key has no per-field part |

## Left out

- `src/FMLaravel/Database/FileMaker/Record.php`: it only copies the fields of the FileMaker record it extends into an array, so it has no logic of its own.
- The host model (`$model`, `getModel`, `setModel`): its cache time, cache store and server connection are passed to each operation instead of being reached through a back-reference.
- `getMimeType`: MIME detection by file extension is a foreign table lookup.
- The generic `__get($name)` branch for other entries (lines 184-186): it depends on PHP's `isset` treating null as unset, and nothing in the model reads it.
- Failures of the collaborators: a failed fetch, a missing file or disk entry, or a cache store error would be exceptions that propagate unchanged. The read functions and `containerData` are total here, so these failure paths are not modelled.
- File contents do not change while the model runs: `Files` is one fixed pair of read functions. The source re-reads a `realpath` or `storage` file on every access (lines 176, 179, 268 and 272). So `CachedPayloadIsReadValue`, `SaveThenReadNeverFetches` and `SaveThenReadDoesNotFetch` equate a cached file payload with a later read only under this assumption.
- Bare PHP without Laravel's error handler reads the absent `data` entry in `saveToCache` as null and caches null. The model follows Laravel's handler, which throws instead.
- Cache durations are recorded with each entry but do not expire. TTL is the cache store's concern.
- Concurrency: the source is sequential, and so is the model.
- Filenames and URLs are strings. Disk names are a `Disk` value, and `null` is the default disk. A `null` filename or URL passed by a caller is not modelled.
