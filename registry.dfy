/**
 * The file cache facade (SGCache) with its private registry helpers: the fast and the
 * slow queue of fetch tasks, the files cached on disk, and the logging setting.
 */
module Registry {
  import opened Common
  import OrderedSet
  import opened Tasks

  /** SGImageCacheLogging: a bit mask of what to log. */
  const LogNothing: bv64 := 0
  const LogRequests: bv64 := 1 << 0
  const LogResponses: bv64 := 1 << 1
  const LogErrors: bv64 := 1 << 2
  const LogMemoryFlushing: bv64 := 1 << 3
  const LogAll: bv64 := LogRequests | LogResponses | LogErrors | LogMemoryFlushing

  /** The slow queue runs one task at a time. */
  const SlowQueueMaxConcurrentTasks: nat := 1

  /** The attempt number given to a task created by a fetch. */
  const FirstAttempt: int := 1

  /** A file in the cache folder, with the time at which it was added. */
  datatype StoredFile = StoredFile(data: Bytes, addedAt: int)

  /** The error a failed fetch reports. */
  datatype FetchError = FetchError(code: int)

  /** One call of a callback block, in the order in which the blocks are called. */
  datatype Notification =
    | Completed(completion: Completion, data: Bytes)
    | Failed(fail: FailBlock, error: FetchError, wasFatal: bool)
    | Retried(retry: RetryBlock)

  /** How many tasks of the queue have cache key `key`. */
  function Count(q: seq<CacheTask>, key: string): (n: nat)
    ensures n <= |q|
  {
    if q == [] then 0 else (if q[0].cacheKey == key then 1 else 0) + Count(q[1..], key)
  }

  /** The invariant of the registry: at most one task per cache key, across both queues. */
  ghost predicate OneTaskPerKey(fast: seq<CacheTask>, slow: seq<CacheTask>) {
    forall k :: Count(fast, k) + Count(slow, k) <= 1
  }

  /** The first task of the queue whose cache key is `key`, if any. */
  function ExistingTask(q: seq<CacheTask>, key: string): (r: Option<CacheTask>)
    ensures r.Some? ==> r.value in q && r.value.cacheKey == key
    ensures r.None? <==> Count(q, key) == 0
    ensures r.None? ==> forall t :: t in q ==> t.cacheKey != key
  {
    if q == [] then None
    else if q[0].MatchesCacheKey(key) then Some(q[0])
    else ExistingTask(q[1..], key)
  }

  /** When a key has at most one task in a queue, the lookup finds that task. */
  lemma {:induction false} ExistingTaskIsTheOnlyOne(q: seq<CacheTask>, key: string, t: CacheTask)
    requires Count(q, key) <= 1
    requires t in q && t.cacheKey == key
    ensures ExistingTask(q, key) == Some(t)
  {
    if q[0] != t {
      assert t in q[1..];
      if q[0].cacheKey == key {
        CountPositive(q[1..], t);
      }
      ExistingTaskIsTheOnlyOne(q[1..], key, t);
    }
  }

  lemma {:induction false} CountPositive(q: seq<CacheTask>, t: CacheTask)
    requires t in q
    ensures Count(q, t.cacheKey) >= 1
  {
    if q[0] != t {
      assert t in q[1..];
      CountPositive(q[1..], t);
    }
  }

  /** The queue with its first occurrence of `t` taken out: the task is cancelled or finished. */
  function Without(q: seq<CacheTask>, t: CacheTask): (r: seq<CacheTask>)
    ensures t !in q ==> r == q
    ensures t in q ==> |r| == |q| - 1
    ensures forall x :: x in r ==> x in q
    ensures forall x :: x in q && x != t ==> x in r
  {
    if q == [] then []
    else if q[0] == t then q[1..]
    else [q[0]] + Without(q[1..], t)
  }

  /** Taking a task out of a queue lowers the count of its key, and only of its key, by one. */
  lemma {:induction false} CountWithout(q: seq<CacheTask>, t: CacheTask, k: string)
    ensures Count(Without(q, t), k) == Count(q, k) - (if t in q && t.cacheKey == k then 1 else 0)
  {
    if q != [] && q[0] != t {
      var rest := Without(q[1..], t);
      assert ([q[0]] + rest)[1..] == rest;
      assert t in q <==> t in q[1..];
      CountWithout(q[1..], t, k);
    }
  }

  /** Appending a task raises the count of its key, and only of its key, by one. */
  lemma {:induction false} CountSnoc(q: seq<CacheTask>, t: CacheTask, k: string)
    ensures Count(q + [t], k) == Count(q, k) + (if t.cacheKey == k then 1 else 0)
  {
    if q != [] {
      assert (q + [t])[1..] == q[1..] + [t];
      CountSnoc(q[1..], t, k);
    }
  }

  /** A task for a key that no queue holds may join either queue. */
  lemma Admit(a: seq<CacheTask>, b: seq<CacheTask>, t: CacheTask)
    requires OneTaskPerKey(a, b)
    requires Count(a, t.cacheKey) == 0 && Count(b, t.cacheKey) == 0
    ensures OneTaskPerKey(a + [t], b) && OneTaskPerKey(b, a + [t])
  {
    forall k
      ensures Count(a + [t], k) + Count(b, k) <= 1
    {
      assert Count(a, k) + Count(b, k) <= 1;
      CountSnoc(a, t, k);
    }
  }

  /** Replacing a task of one queue by a task for the same key at the end of the other. */
  lemma Transfer(a: seq<CacheTask>, b: seq<CacheTask>, s: CacheTask, t: CacheTask)
    requires OneTaskPerKey(a, b)
    requires s in a && t.cacheKey == s.cacheKey
    ensures OneTaskPerKey(Without(a, s), b + [t]) && OneTaskPerKey(b + [t], Without(a, s))
  {
    forall k
      ensures Count(Without(a, s), k) + Count(b + [t], k) <= 1
    {
      assert Count(a, k) + Count(b, k) <= 1;
      CountWithout(a, s, k);
      CountSnoc(b, t, k);
    }
  }

  /** Taking a task out of the queues keeps the invariant. */
  lemma Retire(a: seq<CacheTask>, b: seq<CacheTask>, t: CacheTask)
    requires OneTaskPerKey(a, b)
    ensures OneTaskPerKey(Without(a, t), Without(b, t))
  {
    forall k
      ensures Count(Without(a, t), k) + Count(Without(b, t), k) <= 1
    {
      assert Count(a, k) + Count(b, k) <= 1;
      CountWithout(a, t, k);
      CountWithout(b, t, k);
    }
  }

  /** The first task of the queue created for promise `p`, if any. */
  function TaskWithPromise(q: seq<CacheTask>, p: Promise): (r: Option<CacheTask>)
    reads q
    ensures r.Some? ==> r.value in q && r.value.promise == Some(p)
    ensures r.None? ==> forall t :: t in q ==> t.promise != Some(p)
  {
    if q == [] then None
    else if q[0].promise == Some(p) then Some(q[0])
    else TaskWithPromise(q[1..], p)
  }

  /** The calls made to the completion blocks when a task succeeds with `data`. */
  function CompletionCalls(cs: seq<Completion>, data: Bytes): (r: seq<Notification>)
    ensures |r| == |cs|
    ensures forall i :: 0 <= i < |cs| ==> r[i] == Completed(cs[i], data)
  {
    if cs == [] then [] else [Completed(cs[0], data)] + CompletionCalls(cs[1..], data)
  }

  function RetryCalls(rs: seq<RetryBlock>): (r: seq<Notification>)
    ensures |r| == |rs|
    ensures forall i :: 0 <= i < |rs| ==> r[i] == Retried(rs[i])
  {
    if rs == [] then [] else [Retried(rs[0])] + RetryCalls(rs[1..])
  }

  function FailCalls(fs: seq<FailBlock>, error: FetchError, wasFatal: bool): (r: seq<Notification>)
    ensures |r| == |fs|
    ensures forall i :: 0 <= i < |fs| ==> r[i] == Failed(fs[i], error, wasFatal)
  {
    if fs == [] then [] else [Failed(fs[0], error, wasFatal)] + FailCalls(fs[1..], error, wasFatal)
  }

  /**
   * The calls made when a task fails: a fatal failure calls every fail block, once each and
   * in order, and no retry block; a non-fatal one first calls every retry block, then every
   * fail block.
   */
  function FailureCalls(rs: seq<RetryBlock>, fs: seq<FailBlock>, error: FetchError, wasFatal: bool): (r: seq<Notification>)
    ensures |r| == |fs| + if wasFatal then 0 else |rs|
    ensures wasFatal ==> forall n :: n in r ==> n.Failed? && n.wasFatal
    ensures !wasFatal ==> r[..|rs|] == RetryCalls(rs)
    ensures r[|r| - |fs|..] == FailCalls(fs, error, wasFatal)
  {
    (if wasFatal then [] else RetryCalls(rs)) + FailCalls(fs, error, wasFatal)
  }

  /** `task` has `original`'s request, attempt, flags, promise and failure callbacks. */
  ghost predicate CopiesRequest(task: CacheTask, original: CacheTask)
    reads task, original
  {
    && task.url == original.url && task.requestHeaders == original.requestHeaders
    && task.cacheKey == original.cacheKey && task.attempt == original.attempt
    && task.succeeded == original.succeeded && task.remoteFetchOnly == original.remoteFetchOnly
    && task.promise == original.promise
    && task.onFailBlocks == OrderedSet.AddAll([], original.onFailBlocks)
    && task.onRetryBlocks == OrderedSet.AddAll([], original.onRetryBlocks)
  }

  /**
   * `task` has the request, attempt, flags, promise and failure callbacks that `original` had
   * in the earlier state: the same relation as `CopiesRequest`, for a contract whose method
   * runs between the two states and must compare a fresh task with the original as it was.
   */
  twostate predicate CopiedRequest(new task: CacheTask, original: CacheTask)
    reads task
  {
    && task.url == original.url && task.requestHeaders == original.requestHeaders
    && task.cacheKey == original.cacheKey && task.attempt == old(original.attempt)
    && task.succeeded == old(original.succeeded) && task.remoteFetchOnly == old(original.remoteFetchOnly)
    && task.promise == old(original.promise)
    && task.onFailBlocks == OrderedSet.AddAll([], old(original.onFailBlocks))
    && task.onRetryBlocks == OrderedSet.AddAll([], old(original.onRetryBlocks))
  }

  /** `task` is `original` re-created with every callback added back, in order. */
  ghost predicate IsCopy(task: CacheTask, original: CacheTask)
    reads task, original
  {
    CopiesRequest(task, original) && task.completions == OrderedSet.AddAll([], original.completions)
  }

  /**
   * A new task for `original`'s request, attempt and promise, given `original`'s callbacks
   * one by one, for moving `original` to the other queue; the callbacks come out exactly as
   * they were, because they form ordered sets.
   */
  method CopyTask(original: CacheTask) returns (task: CacheTask)
    ensures fresh(task) && task.Valid() && IsCopy(task, original)
    ensures original.Valid() ==> && task.completions == original.completions
                                 && task.onFailBlocks == original.onFailBlocks
                                 && task.onRetryBlocks == original.onRetryBlocks
  {
    task := new CacheTask(original.url, original.requestHeaders, original.cacheKey, original.attempt);
    task.succeeded := original.succeeded;
    task.remoteFetchOnly := original.remoteFetchOnly;
    task.promise := original.promise;
    task.AddCompletions(original.completions);
    task.AddFailBlocks(original.onFailBlocks);
    task.AddRetryBlocks(original.onRetryBlocks);
    if original.Valid() {
      OrderedSet.AddAllToEmpty(original.completions);
      OrderedSet.AddAllToEmpty(original.onFailBlocks);
      OrderedSet.AddAllToEmpty(original.onRetryBlocks);
    }
  }

  /** A fetch's new task: first attempt, not yet succeeded, holding only the fetch's completion. */
  ghost predicate IsNewTask(task: CacheTask, url: string, headers: Dict, key: string, remoteOnly: bool, p: Promise)
    reads task
  {
    && task.url == url && task.requestHeaders == headers && task.cacheKey == key
    && task.attempt == FirstAttempt && !task.succeeded
    && task.remoteFetchOnly == remoteOnly && task.promise == Some(p)
    && task.completions == [Resolve(p)] && task.onFailBlocks == [] && task.onRetryBlocks == []
  }

  /** The task a fetch creates through `taskForURL:requestHeaders:cacheKey:attempt:`, with its completion added. */
  method NewTask(url: string, headers: Dict, key: string, remoteOnly: bool, p: Promise) returns (task: CacheTask)
    ensures fresh(task) && task.Valid() && IsNewTask(task, url, headers, key, remoteOnly, p)
  {
    task := new CacheTask(url, headers, key, FirstAttempt);
    task.remoteFetchOnly := remoteOnly;
    task.promise := Some(p);
    task.AddCompletion(Resolve(p));
  }

  class Cache {
    /** How a cache key is derived from a URL and request headers. */
    const keyFor: (string, Dict) -> string
    /** The file-system-safe name of the file that holds a key's data. */
    const fileName: string -> string
    /** The folder of this cache instance. */
    const cachePath: string

    var fastQueue: seq<CacheTask>
    var slowQueue: seq<CacheTask>
    /** The cached files, by cache key. */
    var files: map<string, StoredFile>
    var logging: bv64

    ghost predicate Valid()
      reads this
    {
      OneTaskPerKey(fastQueue, slowQueue)
    }

    constructor (keyFor: (string, Dict) -> string, fileName: string -> string, cachePath: string)
      ensures Valid()
      ensures this.keyFor == keyFor && this.fileName == fileName && this.cachePath == cachePath
      ensures fastQueue == [] && slowQueue == [] && files == map[]
      ensures logging == LogNothing
    {
      this.keyFor := keyFor;
      this.fileName := fileName;
      this.cachePath := cachePath;
      fastQueue := [];
      slowQueue := [];
      files := map[];
      logging := LogNothing;
    }

    /** `cacheKeyFor:requestHeaders:` */
    function CacheKeyFor(url: string, headers: Dict): (key: string)
      ensures key == keyFor(url, headers)
    {
      keyFor(url, headers)
    }

    /** The key of a fetch: the caller's explicit cache key, else the one derived from the request. */
    function ResolveKey(url: string, headers: Dict, cacheKey: Option<string>): (key: string)
      ensures cacheKey.Some? ==> key == cacheKey.value
      ensures cacheKey.None? ==> key == CacheKeyFor(url, headers)
    {
      if cacheKey.Some? then cacheKey.value else CacheKeyFor(url, headers)
    }

    /** `pathForCacheKey:` — a file inside the cache folder, named after the key. */
    function PathForCacheKey(key: string): (path: string)
      ensures |path| > |cachePath| && path[..|cachePath| + 1] == cachePath + "/"
      ensures path[|cachePath| + 1..] == fileName(key)
    {
      cachePath + "/" + fileName(key)
    }

    /** `pathForURL:requestHeaders:` — the path of the key that the request derives. */
    function PathForURL(url: string, headers: Dict): (path: string)
      ensures path == PathForCacheKey(CacheKeyFor(url, headers))
    {
      cachePath + "/" + fileName(keyFor(url, headers))
    }

    /** `existingFastQueueTaskFor:` */
    function ExistingFastQueueTaskFor(key: string): (r: Option<CacheTask>)
      reads this
      ensures r.Some? ==> r.value in fastQueue && r.value.MatchesCacheKey(key)
      ensures r.None? ==> forall t :: t in fastQueue ==> !t.MatchesCacheKey(key)
    {
      ExistingTask(fastQueue, key)
    }

    /** `existingSlowQueueTaskFor:` */
    function ExistingSlowQueueTaskFor(key: string): (r: Option<CacheTask>)
      reads this
      ensures r.Some? ==> r.value in slowQueue && r.value.MatchesCacheKey(key)
      ensures r.None? ==> forall t :: t in slowQueue ==> !t.MatchesCacheKey(key)
    {
      ExistingTask(slowQueue, key)
    }

    /** `taskForPromise:` — the queued task created for promise `p`, fast queue first. */
    function TaskForPromise(p: Promise): (r: Option<CacheTask>)
      reads this, fastQueue, slowQueue
      ensures r.Some? ==> (r.value in fastQueue || r.value in slowQueue) && r.value.promise == Some(p)
      ensures r.None? ==> forall t :: t in fastQueue + slowQueue ==> t.promise != Some(p)
      ensures TaskWithPromise(fastQueue, p).Some? ==> r == TaskWithPromise(fastQueue, p)
    {
      var f := TaskWithPromise(fastQueue, p);
      if f.Some? then f else TaskWithPromise(slowQueue, p)
    }

    /**
     * The outcome of a fast fetch for `key` that returned `task`: the key's one task is now in
     * the fast queue and carries the fetch's completion; it is the task that was already in the
     * fast queue, or a copy of the one taken out of the slow queue, or else a new task.
     */
    twostate predicate FastGetRules(url: string, headers: Dict, key: string, p: Promise, remoteOnly: bool, new task: CacheTask)
      reads this, task
    {
      var inFast := old(ExistingTask(fastQueue, key));
      var inSlow := old(ExistingTask(slowQueue, key));
      && task.cacheKey == key
      && ExistingTask(fastQueue, key) == Some(task)
      && ExistingTask(slowQueue, key) == None
      && (inFast.Some? ==>
            && task == inFast.value
            && fastQueue == old(fastQueue) && slowQueue == old(slowQueue)
            && task.completions == OrderedSet.Add(old(task.completions), Resolve(p)))
      && (inFast.None? && inSlow.Some? ==>
            && fresh(task)
            && fastQueue == old(fastQueue) + [task]
            && slowQueue == Without(old(slowQueue), inSlow.value)
            && CopiedRequest(task, inSlow.value)
            && task.completions == OrderedSet.Add(OrderedSet.AddAll([], old(inSlow.value.completions)), Resolve(p)))
      && (inFast.None? && inSlow.None? ==>
            && fresh(task)
            && fastQueue == old(fastQueue) + [task]
            && slowQueue == old(slowQueue)
            && IsNewTask(task, url, headers, key, remoteOnly, p))
    }

    /**
     * The outcome of a slow fetch for `key` that returned `task`: it joined the key's task in
     * either queue, or else a new task was added to the slow queue.
     */
    twostate predicate SlowGetRules(url: string, headers: Dict, key: string, p: Promise, new task: CacheTask)
      reads this, task
    {
      var inFast := old(ExistingTask(fastQueue, key));
      var inSlow := old(ExistingTask(slowQueue, key));
      && task.cacheKey == key
      && (inFast.Some? ==> task == inFast.value)
      && (inFast.None? && inSlow.Some? ==> task == inSlow.value)
      && (inFast.Some? || inSlow.Some? ==>
            && fastQueue == old(fastQueue) && slowQueue == old(slowQueue)
            && task.completions == OrderedSet.Add(old(task.completions), Resolve(p)))
      && (inFast.None? && inSlow.None? ==>
            && fresh(task)
            && fastQueue == old(fastQueue)
            && slowQueue == old(slowQueue) + [task]
            && ExistingTask(slowQueue, key) == Some(task)
            && IsNewTask(task, url, headers, key, false, p))
    }

    /** Puts a copy of the slow-queue task `moved` at the end of the fast queue, in its place. */
    method MoveToFastQueue(moved: CacheTask) returns (task: CacheTask)
      requires Valid() && moved in slowQueue
      modifies this`fastQueue, this`slowQueue
      ensures Valid() && fresh(task) && IsCopy(task, moved) && CopiedRequest(task, moved)
      ensures fastQueue == old(fastQueue) + [task] && slowQueue == Without(old(slowQueue), moved)
    {
      task := CopyTask(moved);
      Transfer(slowQueue, fastQueue, moved, task);
      slowQueue := Without(slowQueue, moved);
      fastQueue := fastQueue + [task];
    }

    /** Puts a copy of the fast-queue task `moved` at the end of the slow queue, in its place. */
    method MoveToSlowQueue(moved: CacheTask) returns (task: CacheTask)
      requires Valid() && moved in fastQueue
      modifies this`fastQueue, this`slowQueue
      ensures Valid() && fresh(task) && IsCopy(task, moved)
      ensures fastQueue == Without(old(fastQueue), moved) && slowQueue == old(slowQueue) + [task]
    {
      task := CopyTask(moved);
      Transfer(fastQueue, slowQueue, moved, task);
      fastQueue := Without(fastQueue, moved);
      slowQueue := slowQueue + [task];
    }

    /** A fast fetch for a key whose task is in the fast queue joins that task. */
    method FastGetJoin(url: string, headers: Dict, key: string, p: Promise, remoteOnly: bool) returns (task: CacheTask)
      requires Valid() && ExistingTask(fastQueue, key).Some?
      modifies fastQueue`completions
      ensures Valid()
      ensures FastGetRules(url, headers, key, p, remoteOnly, task)
      ensures forall t :: t in old(fastQueue) && t != task ==> t.completions == old(t.completions)
    {
      task := ExistingTask(fastQueue, key).value;
      task.AddCompletion(Resolve(p));
      ExistingTaskIsTheOnlyOne(fastQueue, key, task);
    }

    /** A fast fetch for a key whose task is only in the slow queue moves that task to the fast queue and joins it. */
    method FastGetPromote(url: string, headers: Dict, key: string, p: Promise, remoteOnly: bool) returns (task: CacheTask)
      requires Valid() && ExistingTask(fastQueue, key).None? && ExistingTask(slowQueue, key).Some?
      modifies this`fastQueue, this`slowQueue
      ensures Valid()
      ensures FastGetRules(url, headers, key, p, remoteOnly, task)
    {
      var moved := ExistingTask(slowQueue, key).value;
      task := MoveToFastQueue(moved);
      task.AddCompletion(Resolve(p));
      ExistingTaskIsTheOnlyOne(fastQueue, key, task);
    }

    /** A fast fetch for a key that no queue holds creates the key's task, in the fast queue. */
    method FastGetCreate(url: string, headers: Dict, key: string, p: Promise, remoteOnly: bool) returns (task: CacheTask)
      requires Valid() && ExistingTask(fastQueue, key).None? && ExistingTask(slowQueue, key).None?
      modifies this`fastQueue, this`slowQueue
      ensures Valid()
      ensures FastGetRules(url, headers, key, p, remoteOnly, task)
    {
      task := NewTask(url, headers, key, remoteOnly, p);
      Admit(fastQueue, slowQueue, task);
      fastQueue := fastQueue + [task];
      ExistingTaskIsTheOnlyOne(fastQueue, key, task);
    }

    /** The queue rules shared by `getFileForURL…` and `getRemoteFileForURL…`. */
    method FastGet(url: string, headers: Dict, key: string, p: Promise, remoteOnly: bool) returns (task: CacheTask)
      requires Valid()
      modifies this`fastQueue, this`slowQueue, fastQueue`completions
      ensures Valid()
      ensures FastGetRules(url, headers, key, p, remoteOnly, task)
      ensures forall t :: t in old(fastQueue) && t != task ==> t.completions == old(t.completions)
    {
      if ExistingTask(fastQueue, key).Some? {
        task := FastGetJoin(url, headers, key, p, remoteOnly);
      } else if ExistingTask(slowQueue, key).Some? {
        task := FastGetPromote(url, headers, key, p, remoteOnly);
      } else {
        task := FastGetCreate(url, headers, key, p, remoteOnly);
      }
    }

    /** `getFileForURL:`, `getFileForURL:requestHeaders:` and `getFileForURL:requestHeaders:cacheKey:` */
    method GetFile(url: string, headers: Dict, cacheKey: Option<string>, p: Promise) returns (task: CacheTask)
      requires Valid()
      modifies this`fastQueue, this`slowQueue, fastQueue`completions
      ensures Valid()
      ensures FastGetRules(url, headers, ResolveKey(url, headers, cacheKey), p, false, task)
      ensures forall t :: t in old(fastQueue) && t != task ==> t.completions == old(t.completions)
    {
      task := FastGet(url, headers, ResolveKey(url, headers, cacheKey), p, false);
    }

    /** `getRemoteFileForURL…` — the same queue rules; a task it creates skips the cached file. */
    method GetRemoteFile(url: string, headers: Dict, cacheKey: Option<string>, p: Promise) returns (task: CacheTask)
      requires Valid()
      modifies this`fastQueue, this`slowQueue, fastQueue`completions
      ensures Valid()
      ensures FastGetRules(url, headers, ResolveKey(url, headers, cacheKey), p, true, task)
      ensures forall t :: t in old(fastQueue) && t != task ==> t.completions == old(t.completions)
    {
      task := FastGet(url, headers, ResolveKey(url, headers, cacheKey), p, true);
    }

    /** `slowGetFileForURL…` */
    method SlowGetFile(url: string, headers: Dict, cacheKey: Option<string>, p: Promise) returns (task: CacheTask)
      requires Valid()
      modifies this`fastQueue, this`slowQueue, fastQueue`completions, slowQueue`completions
      ensures Valid()
      ensures SlowGetRules(url, headers, ResolveKey(url, headers, cacheKey), p, task)
      ensures forall t :: t in old(fastQueue) + old(slowQueue) && t != task ==> t.completions == old(t.completions)
    {
      var key := ResolveKey(url, headers, cacheKey);
      var inFast := ExistingTask(fastQueue, key);
      var inSlow := ExistingTask(slowQueue, key);
      if inFast.Some? {
        task := inFast.value;
        task.AddCompletion(Resolve(p));
      } else if inSlow.Some? {
        task := inSlow.value;
        task.AddCompletion(Resolve(p));
      } else {
        task := NewTask(url, headers, key, false, p);
        Admit(slowQueue, fastQueue, task);
        slowQueue := slowQueue + [task];
        ExistingTaskIsTheOnlyOne(slowQueue, key, task);
      }
    }

    /** `moveTaskToSlowQueueForCacheKey:` — the key's fast-queue task, if any, moves to the end of the slow queue. */
    method MoveTaskToSlowQueueForCacheKey(key: string)
      requires Valid()
      modifies this`fastQueue, this`slowQueue
      ensures Valid()
      ensures var inFast := old(ExistingTask(fastQueue, key));
        && (inFast.None? ==> fastQueue == old(fastQueue) && slowQueue == old(slowQueue))
        && (inFast.Some? ==>
              && fastQueue == Without(old(fastQueue), inFast.value)
              && |slowQueue| == |old(slowQueue)| + 1
              && slowQueue[..|old(slowQueue)|] == old(slowQueue)
              && fresh(slowQueue[|old(slowQueue)|])
              && IsCopy(slowQueue[|old(slowQueue)|], inFast.value))
    {
      var inFast := ExistingTask(fastQueue, key);
      if inFast.Some? {
        var task := MoveToSlowQueue(inFast.value);
        assert slowQueue[..|old(slowQueue)|] == old(slowQueue);
      }
    }

    /** `moveTaskToSlowQueueForURL:` and `moveTaskToSlowQueueForURL:requestHeaders:` */
    method MoveTaskToSlowQueueForURL(url: string, headers: Dict)
      requires Valid()
      modifies this`fastQueue, this`slowQueue
      ensures Valid()
      ensures var inFast := old(ExistingTask(fastQueue, CacheKeyFor(url, headers)));
        && (inFast.None? ==> fastQueue == old(fastQueue) && slowQueue == old(slowQueue))
        && (inFast.Some? ==>
              && fastQueue == Without(old(fastQueue), inFast.value)
              && |slowQueue| == |old(slowQueue)| + 1
              && slowQueue[..|old(slowQueue)|] == old(slowQueue)
              && fresh(slowQueue[|old(slowQueue)|])
              && IsCopy(slowQueue[|old(slowQueue)|], inFast.value))
    {
      MoveTaskToSlowQueueForCacheKey(CacheKeyFor(url, headers));
    }

    /** `addRetryForPromise:retryBlock:` — adds the block to the promise's task, if one is queued. */
    method AddRetryForPromise(p: Promise, r: RetryBlock)
      requires Valid()
      modifies fastQueue`onRetryBlocks, slowQueue`onRetryBlocks
      ensures Valid()
      ensures var owner := old(TaskForPromise(p));
        owner.Some? ==> owner.value.onRetryBlocks == OrderedSet.Add(old(owner.value.onRetryBlocks), r)
      ensures forall t :: t in fastQueue + slowQueue && Some(t) != old(TaskForPromise(p)) ==> t.onRetryBlocks == old(t.onRetryBlocks)
    {
      var owner := TaskForPromise(p);
      if owner.Some? {
        owner.value.AddRetryBlock(r);
      }
    }

    /** `addFailForPromise:failBlock:` — adds the block to the promise's task, if one is queued. */
    method AddFailForPromise(p: Promise, f: FailBlock)
      requires Valid()
      modifies fastQueue`onFailBlocks, slowQueue`onFailBlocks
      ensures Valid()
      ensures var owner := old(TaskForPromise(p));
        owner.Some? ==> owner.value.onFailBlocks == OrderedSet.Add(old(owner.value.onFailBlocks), f)
      ensures forall t :: t in fastQueue + slowQueue && Some(t) != old(TaskForPromise(p)) ==> t.onFailBlocks == old(t.onFailBlocks)
    {
      var owner := TaskForPromise(p);
      if owner.Some? {
        owner.value.AddFailBlock(f);
      }
    }

    /** Takes a finished task out of whichever queue holds it. */
    method Dequeue(task: CacheTask)
      requires Valid()
      modifies this`fastQueue, this`slowQueue
      ensures Valid()
      ensures fastQueue == Without(old(fastQueue), task) && slowQueue == Without(old(slowQueue), task)
    {
      Retire(fastQueue, slowQueue, task);
      fastQueue := Without(fastQueue, task);
      slowQueue := Without(slowQueue, task);
    }

    /**
     * `taskFailed:` — the task leaves the queues and its blocks are called with the fetch
     * collaborator's error; a non-fatal failure also counts the attempt.
     */
    method TaskFailed(task: CacheTask, error: FetchError, wasFatal: bool) returns (calls: seq<Notification>)
      requires Valid()
      modifies this`fastQueue, this`slowQueue, task`attempt
      ensures Valid()
      ensures fastQueue == Without(old(fastQueue), task) && slowQueue == Without(old(slowQueue), task)
      ensures files == old(files)
      ensures task.attempt == if wasFatal then old(task.attempt) else old(task.attempt) + 1
      ensures calls == FailureCalls(task.onRetryBlocks, task.onFailBlocks, error, wasFatal)
    {
      if !wasFatal {
        task.attempt := task.attempt + 1;
      }
      calls := FailureCalls(task.onRetryBlocks, task.onFailBlocks, error, wasFatal);
      Dequeue(task);
    }

    /**
     * A task that obtained `data` succeeds: the file is cached under its key, the task leaves
     * the queues and every completion block is called with the data, in order.
     */
    method TaskSucceeded(task: CacheTask, data: Bytes, now: int) returns (calls: seq<Notification>)
      requires Valid()
      modifies this`fastQueue, this`slowQueue, this`files, task`succeeded
      ensures Valid()
      ensures task.succeeded
      ensures fastQueue == Without(old(fastQueue), task) && slowQueue == Without(old(slowQueue), task)
      ensures files == old(files)[task.cacheKey := StoredFile(data, now)]
      ensures calls == CompletionCalls(task.completions, data)
    {
      task.succeeded := true;
      files := files[task.cacheKey := StoredFile(data, now)];
      calls := CompletionCalls(task.completions, data);
      Dequeue(task);
    }

    /** `haveFileForCacheKey:` */
    function HaveFileForCacheKey(key: string): (b: bool)
      reads this
      ensures b <==> FileForCacheKey(key).Some?
    {
      key in files
    }

    /** `haveFileForURL:` and `haveFileForURL:requestHeaders:` */
    function HaveFileForURL(url: string, headers: Dict): (b: bool)
      reads this
      ensures b <==> FileForURL(url, headers).Some?
    {
      HaveFileForCacheKey(CacheKeyFor(url, headers))
    }

    /** `fileForCacheKey:` — the cached data, or nil when the key is not cached. */
    function FileForCacheKey(key: string): (r: Option<Bytes>)
      reads this
      ensures r.Some? <==> key in files
      ensures r.Some? ==> r.value == files[key].data
    {
      if key in files then Some(files[key].data) else None
    }

    /** `fileForURL:` and `fileForURL:requestHeaders:` */
    function FileForURL(url: string, headers: Dict): (r: Option<Bytes>)
      reads this
      ensures r.Some? <==> CacheKeyFor(url, headers) in files
      ensures r.Some? ==> r.value == files[CacheKeyFor(url, headers)].data
    {
      FileForCacheKey(CacheKeyFor(url, headers))
    }

    /** `addData:forCacheKey:` — caches `data`, added at time `now`. */
    method AddData(data: Bytes, key: string, now: int)
      modifies this`files
      ensures files == old(files)[key := StoredFile(data, now)]
      ensures HaveFileForCacheKey(key) && FileForCacheKey(key) == Some(data)
    {
      files := files[key := StoredFile(data, now)];
    }

    /** `flushFilesOlderThan:` — deletes the files added before `now - age`; younger ones stay. */
    method FlushFilesOlderThan(age: int, now: int)
      modifies this`files
      ensures forall k :: k in files <==> k in old(files) && old(files)[k].addedAt >= now - age
      ensures forall k :: k in files ==> files[k] == old(files)[k]
    {
      files := map k | k in files && files[k].addedAt >= now - age :: files[k];
    }

    /** `setLogging:` */
    method SetLogging(level: bv64)
      modifies this`logging
      ensures logging == level
    {
      logging := level;
    }
  }
}
