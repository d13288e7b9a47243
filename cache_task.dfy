/**
 * A fetch task (SGCacheTask): the unit of work queued for one cache key, with the
 * callbacks of every caller waiting on it.
 */
module Tasks {
  import opened Common
  import OrderedSet

  /** The caller-visible promise returned by a fetch. */
  datatype Promise = Promise(id: nat)

  /** A completion block; the one a fetch registers resolves that fetch's promise. */
  datatype Completion = Resolve(promise: Promise)

  /** A fail block; it is called with the error and whether the failure was fatal. */
  datatype FailBlock = FailBlock(id: nat)

  /** A retry block; it is called with no arguments. */
  datatype RetryBlock = RetryBlock(id: nat)

  class CacheTask {
    const url: string
    const requestHeaders: Dict
    const cacheKey: string
    var succeeded: bool
    var attempt: int
    var remoteFetchOnly: bool
    /** The promise this task was created for, if it is still alive (a weak reference). */
    var promise: Option<Promise>
    var completions: seq<Completion>
    var onFailBlocks: seq<FailBlock>
    var onRetryBlocks: seq<RetryBlock>

    /** The three callback collections are ordered sets. */
    ghost predicate Valid()
      reads this
    {
      OrderedSet.NoDup(completions) && OrderedSet.NoDup(onFailBlocks) && OrderedSet.NoDup(onRetryBlocks)
    }

    /** `taskForURL:requestHeaders:cacheKey:attempt:` */
    constructor (url: string, headers: Dict, cacheKey: string, attempt: int)
      ensures Valid()
      ensures this.url == url && requestHeaders == headers && this.cacheKey == cacheKey && this.attempt == attempt
      ensures !succeeded && !remoteFetchOnly && promise == None
      ensures completions == [] && onFailBlocks == [] && onRetryBlocks == []
    {
      this.url := url;
      requestHeaders := headers;
      this.cacheKey := cacheKey;
      this.attempt := attempt;
      succeeded := false;
      remoteFetchOnly := false;
      promise := None;
      completions := [];
      onFailBlocks := [];
      onRetryBlocks := [];
    }

    /** `matchesCacheKey:` */
    predicate MatchesCacheKey(key: string)
      ensures MatchesCacheKey(key) <==> cacheKey == key
    {
      key == cacheKey
    }

    /** `addCompletion:` — appends the block unless it is already there; nothing else changes. */
    method AddCompletion(c: Completion)
      modifies this`completions
      ensures old(Valid()) ==> Valid()
      ensures completions == OrderedSet.Add(old(completions), c)
    {
      if c !in completions {
        completions := completions + [c];
      }
    }

    /** `addCompletions:` — adds the blocks one by one, in their order. */
    method AddCompletions(cs: seq<Completion>)
      modifies this`completions
      ensures old(Valid()) ==> Valid()
      ensures completions == OrderedSet.AddAll(old(completions), cs)
    {
      for i := 0 to |cs|
        invariant old(Valid()) ==> Valid()
        invariant completions == OrderedSet.AddAll(old(completions), cs[..i])
      {
        assert cs[..i + 1][..i] == cs[..i];
        AddCompletion(cs[i]);
      }
      assert cs[..|cs|] == cs;
    }

    /** `addFailBlock:` */
    method AddFailBlock(f: FailBlock)
      modifies this`onFailBlocks
      ensures old(Valid()) ==> Valid()
      ensures onFailBlocks == OrderedSet.Add(old(onFailBlocks), f)
    {
      if f !in onFailBlocks {
        onFailBlocks := onFailBlocks + [f];
      }
    }

    /** `addFailBlocks:` */
    method AddFailBlocks(fs: seq<FailBlock>)
      modifies this`onFailBlocks
      ensures old(Valid()) ==> Valid()
      ensures onFailBlocks == OrderedSet.AddAll(old(onFailBlocks), fs)
    {
      for i := 0 to |fs|
        invariant old(Valid()) ==> Valid()
        invariant onFailBlocks == OrderedSet.AddAll(old(onFailBlocks), fs[..i])
      {
        assert fs[..i + 1][..i] == fs[..i];
        AddFailBlock(fs[i]);
      }
      assert fs[..|fs|] == fs;
    }

    /** `addRetryBlock:` */
    method AddRetryBlock(r: RetryBlock)
      modifies this`onRetryBlocks
      ensures old(Valid()) ==> Valid()
      ensures onRetryBlocks == OrderedSet.Add(old(onRetryBlocks), r)
    {
      if r !in onRetryBlocks {
        onRetryBlocks := onRetryBlocks + [r];
      }
    }

    /** `addRetryBlocks:` */
    method AddRetryBlocks(rs: seq<RetryBlock>)
      modifies this`onRetryBlocks
      ensures old(Valid()) ==> Valid()
      ensures onRetryBlocks == OrderedSet.AddAll(old(onRetryBlocks), rs)
    {
      for i := 0 to |rs|
        invariant old(Valid()) ==> Valid()
        invariant onRetryBlocks == OrderedSet.AddAll(old(onRetryBlocks), rs[..i])
      {
        assert rs[..i + 1][..i] == rs[..i];
        AddRetryBlock(rs[i]);
      }
      assert rs[..|rs|] == rs;
    }
  }
}
