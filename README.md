# SGImageCache, modelled in Dafny

SGImageCache is an iOS library that fetches files and images from URLs and keeps them in a
disk cache. A fetch of a file that is not cached becomes a *task*. Tasks are queued on one of
two operation queues:

- the *fast queue*, for urgent fetches;
- the *slow queue*, a serial queue for prefetching.

Each caller of a fetch registers a completion block, and optionally fail and retry blocks, on
the task for its cache key. A second fetch of the same key joins the existing task instead of
starting a new one. SGCache keeps its own cache folder and maps each key to a file in it. The
example app also pulls in SGHTTPRequest, whose keyed disk cache `SGFileCache` is modelled
separately, as its own module.

This model is an abstract state model built from the headers' declarations and doc comments. It has six modules:

- **`Common`**: option values, bytes, and header dictionaries (`map<string, string>`).
- **`OrderedSet`**: the `NSMutableOrderedSet` in which a task keeps its blocks. It is
  modelled as a duplicate-free sequence. `Add` appends an absent element. `AddAll` adds a
  sequence one element at a time.
- **`FileStore`**: `SGFileCache` as a class over a table from primary key to entry. An entry
  holds bytes, an optional expiry time and secondary keys. The class also keeps a running
  total size, tied to the table by its invariant. It models every removal and lookup and the
  size limit.
- **`Tasks`**: `SGCacheTask` as a class. Its three block collections are ordered sets that grow
  in place.
- **`Registry`**: `SGCache` and its private helpers.
  - The class `Cache` holds the fast and slow queues as sequences of tasks, plus the cached
    files with the time each was added.
  - Its invariant: each cache key has at most one task across both queues.
  - Every fetch, move and finish operation preserves the invariant. Each states how the queues
    and the task's blocks change.
- **`Images`**: the `SGImageCache` facade. It applies the same queue rules to images and
  manages images by URL.

## Modelling decisions

- **Time.**
  - Clock readings are integer seconds, passed as `now`.
  - `NSDate` and `NSTimeInterval` values are integers.
  - An entry with an expiry date has expired once `now` reaches that date.
  - An entry without an expiry date never expires.
  - Reads and has-checks treat expired entries as missing.
- **Size limit.**
  - The limit is `maxDiskCacheSizeMB` × 1048576 bytes, and 0 means unlimited.
  - After every write the total size is within the limit.
  - Other entries are evicted first, in no particular order.
  - The entry just written is dropped only when it alone exceeds the limit.
- **Moving a task.** An `NSOperation` cannot change queues. So a move between queues creates
  a new task with the same request, attempt, flags and promise. The old task's blocks are then
  added to the new one, one by one, and the old task leaves its queue.
  - `Registry.CopyTask` proves that the copy's block collections equal the original's, because
    they are ordered sets.
  - What a task has already executed is not modelled, so a task in the slow queue can always
    be moved.
- **Creating a task.** A fetch that creates a task uses attempt 1. It records the fetch's
  promise and registers a completion that resolves that promise.
- **Task fields.** The headers declare `url`, `requestHeaders` and `cacheKey` as writable
  properties. The model makes them constants, since nothing in the library's API rewrites them.
- **Task failure.** `taskFailed:` takes only the task. The model adds two inputs from the fetch
  collaborator: the error and whether it was fatal, the arguments of the fail block type
  (`SGCachePromise.h`, lines 13-14).
  - A fatal failure calls every fail block with `wasFatal` true.
  - A non-fatal failure calls every retry block, then every fail block with `wasFatal` false,
    and counts the attempt.
  - In both cases the task leaves its queue.
- **Finishing a task.** A task that obtains its data stores the data as a file under its key,
  leaves its queue and calls every completion block in order. The calls are returned as a
  sequence of notifications.
- **Derived keys and paths.** How a cache key is derived from a URL and headers, and how a key
  becomes a file name, are parameters of the cache. They are unspecified hashes.
- **Overloads.** Overloads that differ only by optional arguments are one member. A missing
  `requestHeaders:` is the empty dictionary, and a missing `cacheKey:` is `None`. The callback
  forms of the image fetches (`onReceive:`) are the same members, with the receiver as the
  completion.

## Model

| member | source | states |
|---|---|---|
| OrderedSet.Add | SGImageCache/Classes/SGCacheTask.h:22-23 | adding a block keeps the set as a prefix, adds the block at the end only if it is absent, and never introduces a duplicate |
| OrderedSet.AddAll | SGImageCache/Classes/SGCacheTask.h:24 | adding many blocks keeps the set as a prefix; the result holds exactly the old and new blocks and stays duplicate-free |
| OrderedSet.AddAllIsAppendOfFresh | SGImageCache/Classes/SGCacheTask.h:22-32 | adding an ordered set gives the original set followed by the new elements not already present, in their given order |
| OrderedSet.AddAllPresent | SGImageCache/Classes/SGCacheTask.h:22-32 | adding blocks that are all present changes nothing |
| OrderedSet.AddAllIdempotent | SGImageCache/Classes/SGCacheTask.h:22-32 | re-adding the same blocks a second time changes nothing |
| OrderedSet.AddAllToEmpty | SGImageCache/Classes/SGCacheTask.h:24 | adding an ordered set to an empty one copies it exactly |
| Tasks.CacheTask.constructor | SGImageCache/Classes/SGCacheTask.h:19-20 | the factory sets url, headers, cache key and attempt from its arguments, with empty block sets and cleared flags |
| Tasks.CacheTask.MatchesCacheKey | SGImageCache/Classes/SGCacheTask.h:34 | true exactly when the task's cache key equals the argument |
| Tasks.CacheTask.AddCompletion | SGImageCache/Classes/SGCacheTask.h:23 | the completions become `Add` of the old ones; only that collection can change, and it stays an ordered set |
| Tasks.CacheTask.AddCompletions | SGImageCache/Classes/SGCacheTask.h:24 | the completions become `AddAll` of the old ones and the given ones, in order; nothing else changes |
| Tasks.CacheTask.AddFailBlock | SGImageCache/Classes/SGCacheTask.h:27 | the fail blocks become `Add` of the old ones; nothing else changes |
| Tasks.CacheTask.AddFailBlocks | SGImageCache/Classes/SGCacheTask.h:28 | the fail blocks become `AddAll` of the old ones and the given ones; nothing else changes |
| Tasks.CacheTask.AddRetryBlock | SGImageCache/Classes/SGCacheTask.h:31 | the retry blocks become `Add` of the old ones; nothing else changes |
| Tasks.CacheTask.AddRetryBlocks | SGImageCache/Classes/SGCacheTask.h:32 | the retry blocks become `AddAll` of the old ones and the given ones; nothing else changes |
| FileStore.KeepOnly | Example/Pods/SGHTTPRequest/SGHTTPRequest/Core/Cache/SGFileCache.h:54-57 | the table restricted to the listed keys holds exactly the listed keys that were present, with unchanged entries |
| FileStore.Unexpired | Example/Pods/SGHTTPRequest/SGHTTPRequest/Core/Cache/SGFileCache.h:44-47 | the table without expired entries holds exactly the unexpired keys, with unchanged entries |
| FileStore.TotalSizeRemove | Example/Pods/SGHTTPRequest/SGHTTPRequest/Core/Cache/SGFileCache.h:32-37 | the cache's size is any one entry's size plus the size of the rest, whichever entry is taken first |
| FileStore.TotalSizeUpdate | Example/Pods/SGHTTPRequest/SGHTTPRequest/Core/Cache/SGFileCache.h:32-37 | writing an entry replaces the old entry's size, if any, by the new entry's size |
| FileStore.TotalSizeSingle | Example/Pods/SGHTTPRequest/SGHTTPRequest/Core/Cache/SGFileCache.h:32-37 | a cache holding one entry is as large as that entry's data |
| FileStore.FileCache.constructor | Example/Pods/SGHTTPRequest/SGHTTPRequest/Core/Cache/SGFileCache.h:27-37 | a new cache is empty, with a max-age of 2592000 seconds and a limit of 20 MB |
| FileStore.FileCache.CachedData | Example/Pods/SGHTTPRequest/SGHTTPRequest/Core/Cache/SGFileCache.h:82-92 | returns the stored bytes exactly when the key is present and unexpired and every supplied secondary key is stored with the same value; nil otherwise |
| FileStore.FileCache.HasCachedData | Example/Pods/SGHTTPRequest/SGHTTPRequest/Core/Cache/SGFileCache.h:70-80 | YES exactly when the lookup would return data |
| FileStore.FileCache.SecondaryKeyValueNamed | Example/Pods/SGHTTPRequest/SGHTTPRequest/Core/Cache/SGFileCache.h:123-127 | the stored value of the named secondary key, or nil when the key or the name is missing |
| FileStore.FileCache.CachedDataRefreshingExpiry | Example/Pods/SGHTTPRequest/SGHTTPRequest/Core/Cache/SGFileCache.h:94-99 | returns what the lookup returns; a hit sets only that entry's expiry to the new date, and a miss changes nothing |
| FileStore.FileCache.RemoveCacheFilesForPrimaryKey | Example/Pods/SGHTTPRequest/SGHTTPRequest/Core/Cache/SGFileCache.h:49-52 | the table loses exactly that key |
| FileStore.FileCache.RemoveCacheFilesForPrimaryKeys | Example/Pods/SGHTTPRequest/SGHTTPRequest/Core/Cache/SGFileCache.h:59-62 | the table loses exactly the listed keys; every other entry is untouched |
| FileStore.FileCache.RemoveCacheFilesNotMatchingPrimaryKeys | Example/Pods/SGHTTPRequest/SGHTTPRequest/Core/Cache/SGFileCache.h:54-57 | the table becomes `KeepOnly` of the old table and the list |
| FileStore.FileCache.RemoveCacheFilesIfExpiredForPrimaryKey | Example/Pods/SGHTTPRequest/SGHTTPRequest/Core/Cache/SGFileCache.h:64-68 | YES exactly when the key was present and expired, and then only that key is removed; NO leaves the table unchanged |
| FileStore.FileCache.ClearExpiredFiles | Example/Pods/SGHTTPRequest/SGHTTPRequest/Core/Cache/SGFileCache.h:44-47 | the table becomes `Unexpired` of the old table: every expired entry goes and only those |
| FileStore.FileCache.ClearCache | Example/Pods/SGHTTPRequest/SGHTTPRequest/Core/Cache/SGFileCache.h:39-42 | the table is empty |
| FileStore.FileCache.EnforceSizeLimit | Example/Pods/SGHTTPRequest/SGHTTPRequest/Core/Cache/SGFileCache.h:32-37 | with a nonzero limit the total size ends within it; only entries are removed; a cache already within the limit, or an unlimited one, is unchanged; the kept key survives unless it alone exceeds the limit |
| FileStore.FileCache.Store | Example/Pods/SGHTTPRequest/SGHTTPRequest/Core/Cache/SGFileCache.h:107-120 | the written entry is present unless it alone exceeds the limit; the result is part of the old table plus the entry, all of it when that fits; with a nonzero limit the total size is within it |
| FileStore.FileCache.CacheData | Example/Pods/SGHTTPRequest/SGHTTPRequest/Core/Cache/SGFileCache.h:107-110 | after caching, a lookup of the key returns the same bytes at any time, because an entry without expiry never expires; when the table with the new entry fits the limit, or there is no limit, the table is exactly the old one with that entry set, so every other entry survives |
| FileStore.FileCache.CacheDataWithExpiry | Example/Pods/SGHTTPRequest/SGHTTPRequest/Core/Cache/SGFileCache.h:112-115 | a lookup returns the bytes before the expiry date and nil from then on; when the table with the new entry fits the limit, or there is no limit, the table is exactly the old one with that entry set, so every other entry survives |
| FileStore.FileCache.CacheDataWithSecondaryKeys | Example/Pods/SGHTTPRequest/SGHTTPRequest/Core/Cache/SGFileCache.h:117-120 | a lookup that supplies the stored secondary keys returns the bytes while the entry is unexpired; when the table with the new entry fits the limit, or there is no limit, the table is exactly the old one with that entry set, so every other entry survives |
| Registry.Count | SGImageCache/Classes/SGCacheTask.h:12 | the number of a queue's tasks that carry a given cache key never exceeds the queue's length |
| Registry.ExistingTask | SGCachePrivate.h:28-29 | a task found is in the queue and has the key; nothing is found exactly when no task of the queue has the key |
| Registry.ExistingTaskIsTheOnlyOne | SGCachePrivate.h:28-29 | when a key has at most one task in a queue, the lookup returns that task |
| Registry.CountPositive | SGCachePrivate.h:28-29 | a queued task counts towards its own key |
| Registry.Without | SGCachePrivate.h:30 | removing a task that is not queued changes nothing; otherwise the queue shrinks by one and keeps every other task |
| Registry.CountWithout | SGCachePrivate.h:30 | removing a task lowers the count of its own key by one and leaves every other key's count unchanged |
| Registry.CountSnoc | SGCache.h:52-57 | appending a task raises the count of its own key by one and leaves every other key's count unchanged |
| Registry.Admit | SGCache.h:52-53 | a task for a key that no queue holds may join either queue without breaking one-task-per-key |
| Registry.Transfer | SGCache.h:56-57 | replacing a task of one queue by a task for the same key at the end of the other keeps one-task-per-key |
| Registry.Retire | SGCachePrivate.h:30 | taking a task out of both queues keeps one-task-per-key |
| Registry.TaskWithPromise | SGCachePrivate.h:32 | a task found is in the queue and was created for the promise; nothing is found only when no queued task was |
| Registry.CompletionCalls | SGCache.h:54-57 | every completion block is called once with the data, in attachment order |
| Registry.RetryCalls | SGCachePrivate.h:33 | every retry block is called once, in attachment order |
| Registry.FailCalls | SGCachePrivate.h:34 | every fail block is called once with the error and the fatality flag, in attachment order |
| Registry.FailureCalls | SGCachePrivate.h:30 | a fatal failure calls only fail blocks, all with `wasFatal` true; a non-fatal one calls every retry block first, then every fail block |
| Registry.CopyTask | SGCache.h:56-57 | the new task has the original's request, attempt, flags and promise; its blocks are the original's added back one by one, which equals the original's blocks when those are ordered sets |
| Registry.NewTask | SGImageCache/Classes/SGCacheTask.h:19-20 | a new fetch task starts at attempt 1, not succeeded, with the fetch's promise and completion and no other blocks |
| Registry.Cache.constructor | SGCache.h:302-309 | a new cache has empty queues, no files and logging set to nothing |
| Registry.Cache.CacheKeyFor | SGCachePrivate.h:26 | the key is the cache's derivation applied to the url and headers alone, so equal requests share a key and, by `PathForURL`, a path |
| Registry.Cache.ResolveKey | SGCache.h:94-95 | a fetch's explicit `cacheKey:` is used as given; without one the key derived from the request is used |
| Registry.Cache.PathForCacheKey | SGCachePrivate.h:24 | the path lies inside the cache folder and ends with the file name of the key |
| Registry.Cache.PathForURL | SGCachePrivate.h:25-26 | the path of a request is the path of the key derived from it, so equal requests share a path |
| Registry.Cache.ExistingFastQueueTaskFor | SGCachePrivate.h:29 | returns a fast-queue task that matches the key, or nothing only when no fast-queue task does |
| Registry.Cache.ExistingSlowQueueTaskFor | SGCachePrivate.h:28 | returns a slow-queue task that matches the key, or nothing only when no slow-queue task does |
| Registry.Cache.TaskForPromise | SGCachePrivate.h:32 | returns a queued task created for the promise, or nothing only when no queued task was; when a fast-queue task was, the first such fast-queue task is returned |
| Registry.Cache.MoveToFastQueue | SGCache.h:56-57 | a copy of the slow-queue task goes to the end of the fast queue and the original leaves the slow queue; one-task-per-key holds; only the queues and the task fields named can change, so the cached files and the logging level stay as they were |
| Registry.Cache.MoveToSlowQueue | SGCache.h:204-218 | a copy of the fast-queue task goes to the end of the slow queue and the original leaves the fast queue; one-task-per-key holds; only the queues and the task fields named can change, so the cached files and the logging level stay as they were |
| Registry.Cache.FastGetJoin | SGCache.h:54-55 | a fast fetch for a key in the fast queue joins that task; the queues are unchanged, and the key's one task gets the completion |
| Registry.Cache.FastGetPromote | SGCache.h:56-57 | a fast fetch for a key only in the slow queue moves the task to the fast queue with its blocks and adds the completion; only the queues and the task fields named can change, so the cached files and the logging level stay as they were |
| Registry.Cache.FastGetCreate | SGCache.h:52-53 | a fast fetch for an unqueued key appends exactly one new task to the fast queue and leaves the slow queue alone; only the queues and the task fields named can change, so the cached files and the logging level stay as they were |
| Registry.Cache.FastGet | SGCache.h:52-57 | the three fast-get rules; afterwards the key's one task is in the fast queue and none is in the slow queue; one-task-per-key holds; no other task's completions change; only the queues and the task fields named can change, so the cached files and the logging level stay as they were |
| Registry.Cache.GetFile | SGCache.h:41-95 | `getFileForURL…` with the key from the request or the explicit key follows the fast-get rules; only the queues and the task fields named can change, so the cached files and the logging level stay as they were |
| Registry.Cache.GetRemoteFile | SGCache.h:98-153 | `getRemoteFileForURL…` follows the same rules; a task it creates is remote-only; only the queues and the task fields named can change, so the cached files and the logging level stay as they were |
| Registry.Cache.SlowGetFile | SGCache.h:155-202 | joins the key's task in either queue without moving it, else appends a new task to the slow queue; one-task-per-key holds; only the queues and the task fields named can change, so the cached files and the logging level stay as they were |
| Registry.Cache.MoveTaskToSlowQueueForCacheKey | SGCache.h:215-218 | the key's fast-queue task, if any, leaves the fast queue and a copy is appended to the slow queue; every other task stays in place; only the queues and the task fields named can change, so the cached files and the logging level stay as they were |
| Registry.Cache.MoveTaskToSlowQueueForURL | SGCache.h:204-213 | the same move for the key derived from the request; only the queues and the task fields named can change, so the cached files and the logging level stay as they were |
| Registry.Cache.AddRetryForPromise | SGCachePrivate.h:33 | the promise's task, if any, gets the retry block added; no other task's retry blocks change, and no other field can change |
| Registry.Cache.AddFailForPromise | SGCachePrivate.h:34 | the promise's task, if any, gets the fail block added; no other task's fail blocks change, and no other field can change |
| Registry.Cache.Dequeue | SGCachePrivate.h:30 | a finished task leaves whichever queue holds it, every other task stays, and one-task-per-key holds; only the two queues can change |
| Registry.Cache.TaskFailed | SGCachePrivate.h:30 | the task leaves both queues; its blocks are called as `FailureCalls` gives; a non-fatal failure counts one more attempt; files are unchanged; only the queues and the task fields named can change, so the cached files and the logging level stay as they were |
| Registry.Cache.TaskSucceeded | SGCache.h:54-57 | the task is marked succeeded, its data is stored under its key, it leaves both queues, and every completion is called with the data in order; the logging level stays as it was |
| Registry.Cache.HaveFileForCacheKey | SGCache.h:261-264 | YES exactly when `fileForCacheKey:` returns data |
| Registry.Cache.HaveFileForURL | SGCache.h:251-259 | YES exactly when `fileForURL:` returns data |
| Registry.Cache.FileForCacheKey | SGCache.h:287-296 | the cached data when present, and nil exactly when the key is not cached |
| Registry.Cache.FileForURL | SGCache.h:266-285 | the file of the key derived from the request |
| Registry.Cache.AddData | SGCache.h:311 | afterwards `haveFileForCacheKey:` is YES and `fileForCacheKey:` returns the data; other files are unchanged |
| Registry.Cache.FlushFilesOlderThan | SGCache.h:224-228 | exactly the files added at or after `now - age` remain, unchanged |
| Registry.Cache.SetLogging | SGCache.h:302-305 | the logging level becomes the given mask |
| Images.ImageCache.constructor | SGImageCache/Classes/SGImageCache.h:24 | the image cache extends the given cache |
| Images.ImageCache.GetImage | SGImageCache/Classes/SGImageCache.h:36-92 | `getImageForURL…` follows the fast-get rules: create in the fast queue, join in the fast queue, or move from the slow queue and join; never a second task for the key; only the queues and the completions can change, so cached images stay as they were |
| Images.ImageCache.GetRemoteImage | SGImageCache/Classes/SGImageCache.h:94-152 | `getRemoteImageForURL…` follows the same queue and deduplication rules; only the queues and the completions can change, so cached images stay as they were |
| Images.ImageCache.SlowGetImage | SGImageCache/Classes/SGImageCache.h:154-200 | `slowGetImageForURL…` joins the key's task in either queue, else creates a slow-queue task; only the queues and the completions can change, so cached images stay as they were |
| Images.ImageCache.HaveImageForCacheKey | SGImageCache/Classes/SGImageCache.h:224-227 | YES exactly when `imageForCacheKey:` returns an image |
| Images.ImageCache.HaveImageForURL | SGImageCache/Classes/SGImageCache.h:212-222 | YES exactly when `imageForURL:` returns an image, which is when the derived key has one |
| Images.ImageCache.ImageForCacheKey | SGImageCache/Classes/SGImageCache.h:249-257 | the cached image, and nil exactly when the key has none |
| Images.ImageCache.ImageForURL | SGImageCache/Classes/SGImageCache.h:229-247 | the image of the key derived from the request |
| Images.ImageCache.AddImage | SGImageCache/Classes/SGImageCache.h:265-269 | afterwards `haveImageForURL:` is YES and `imageForURL:` returns the image |
| Images.ImageCache.RemoveImageForURL | SGImageCache/Classes/SGImageCache.h:271-275 | afterwards `haveImageForURL:` is NO; every other key's image is unaffected |
| Images.ImageCache.FlushImagesOlderThan | SGImageCache/Classes/SGImageCache.h:206-210 | no image added before `now - age` remains; younger ones remain unchanged |

## Left out

- Thread scheduling is not modelled: the operation queues' execution, their concurrency and
  `backgroundDo`. The queues are sequences of tasks. The slow queue's single-task
  concurrency survives only as the constant `SlowQueueMaxConcurrentTasks`.
- Task execution is not modelled. A task is never "started", so a slow-queue task can always
  be moved to the fast queue. Checking the cache tiers, calling the network and resubmitting
  automatically after a retryable failure are left out. The outcome of a fetch enters only as
  the inputs of `TaskSucceeded` and `TaskFailed`.
- File-system I/O is not modelled: `makeCachePath`, reading and writing files, and the
  `folderName` property. Only the key-to-path mapping is kept.
- Floating-point time is not modelled. `NSTimeInterval` and `NSDate` are integer seconds.
- `defaultCacheMaxAge` is kept as a setting. The headers do not say how it applies to entries
  written without an expiry date, so those entries never expire.
- FileStore.FileCache.EnforceSizeLimit: does not say which entries are evicted, because the
  header gives no eviction order.
- The in-memory image cache (`imageFromMemCacheForCacheKey:`, `setImageInMemCache:`,
  `setMemoryCacheSize:`, `globalMemCache`) is not modelled. The operating system purges it
  at will, so it gives no hit guarantee.
- Image decoding and `imageNamed:` (asset lookup) are not modelled. An image is the bytes it
  was cached as.
- PromiseKit is not modelled. A promise is an identifier, and resolving it is a completion
  block.
- The HTTP client, JSON parsing, debugging helpers, event and observer plumbing, and the UI
  categories are not modelled. They sit outside the cache.
- The older root-level copies of `SGImageCache.h`, `SGCacheTask.h`, `SGImageCacheTask.h` and
  `SGImageCachePrivate.h` are not modelled. They describe an earlier, url-keyed API.
- `getCachedDataAsyncFor:…` is not modelled. It is the asynchronous form of
  `CachedDataRefreshingExpiry`, delivering the result to a block.
- The shared instances `+cache` and `+cacheFor:` of both caches are not modelled. Neither is
  `logCache`: it only controls console output.
- `SGCacheTask.cacheClass` is not modelled. It selects the class that runs a fetch.
- The `promise` of a task is a plain field, not a weak reference that can vanish.
- A task records only the promise of the fetch that created it. A fetch that joins or
  promotes an existing task adds its completion but not its promise, so `taskForPromise:` does
  not find the shared task for the joining caller's promise. That caller's retry and fail
  blocks are then dropped, and it gets no failure signal if the shared task fails. This
  follows the task's single `promise` property. Attaching a set of promises per task is not
  modelled.
- Registry.CopyTask: states that the copy's blocks equal the original's only when the original's
  collections are duplicate-free. Otherwise it states that they are the original's blocks added
  one by one. The ordered-set invariant of tasks is left out of the cache's invariant to keep
  the queue proofs small.
- Registry.Cache.TaskFailed: takes the error and its fatality as inputs, which the header's
  `taskFailed:` does not; it does not model whether a retry is scheduled.
