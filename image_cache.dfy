/**
 * The image facade (SGImageCache): the same fetch queues and file store as the file
 * cache, with images stored as the bytes they were encoded from.
 */
module Images {
  import opened Common
  import opened Tasks
  import opened Registry

  /** An image, as the bytes that are cached for it; decoding is not modelled. */
  type Image = Bytes

  /** The headers of a request that sends none. */
  const NoHeaders: Dict := map[]

  class ImageCache {
    /** The cache this facade extends. */
    const cache: Cache

    constructor (cache: Cache)
      ensures this.cache == cache
    {
      this.cache := cache;
    }

    /** `getImageForURL…`, and `getImageForURL:onReceive:` with the receiver as completion. */
    method GetImage(url: string, headers: Dict, cacheKey: Option<string>, p: Promise) returns (task: CacheTask)
      requires cache.Valid()
      modifies cache`fastQueue, cache`slowQueue, cache.fastQueue`completions
      ensures cache.Valid()
      ensures cache.FastGetRules(url, headers, cache.ResolveKey(url, headers, cacheKey), p, false, task)
      ensures forall t :: t in old(cache.fastQueue) && t != task ==> t.completions == old(t.completions)
    {
      task := cache.GetFile(url, headers, cacheKey, p);
    }

    /** `getRemoteImageForURL…` — the fast-queue rules, skipping the cache for a new task. */
    method GetRemoteImage(url: string, headers: Dict, cacheKey: Option<string>, p: Promise) returns (task: CacheTask)
      requires cache.Valid()
      modifies cache`fastQueue, cache`slowQueue, cache.fastQueue`completions
      ensures cache.Valid()
      ensures cache.FastGetRules(url, headers, cache.ResolveKey(url, headers, cacheKey), p, true, task)
      ensures forall t :: t in old(cache.fastQueue) && t != task ==> t.completions == old(t.completions)
    {
      task := cache.GetRemoteFile(url, headers, cacheKey, p);
    }

    /** `slowGetImageForURL…` */
    method SlowGetImage(url: string, headers: Dict, cacheKey: Option<string>, p: Promise) returns (task: CacheTask)
      requires cache.Valid()
      modifies cache`fastQueue, cache`slowQueue, cache.fastQueue`completions, cache.slowQueue`completions
      ensures cache.Valid()
      ensures cache.SlowGetRules(url, headers, cache.ResolveKey(url, headers, cacheKey), p, task)
      ensures forall t :: t in old(cache.fastQueue) + old(cache.slowQueue) && t != task ==> t.completions == old(t.completions)
    {
      task := cache.SlowGetFile(url, headers, cacheKey, p);
    }

    /** `haveImageForCacheKey:` */
    function HaveImageForCacheKey(key: string): (b: bool)
      reads cache
      ensures b <==> ImageForCacheKey(key).Some?
    {
      cache.HaveFileForCacheKey(key)
    }

    /** `haveImageForURL:` (no headers) and `haveImageForURL:requestHeaders:` */
    function HaveImageForURL(url: string, headers: Dict): (b: bool)
      reads cache
      ensures b <==> ImageForURL(url, headers).Some?
      ensures b <==> HaveImageForCacheKey(cache.CacheKeyFor(url, headers))
    {
      cache.HaveFileForURL(url, headers)
    }

    /** `imageForCacheKey:` — nil exactly when the key has no cached image. */
    function ImageForCacheKey(key: string): (r: Option<Image>)
      reads cache
      ensures r.Some? <==> key in cache.files
      ensures r.Some? ==> r.value == cache.files[key].data
    {
      cache.FileForCacheKey(key)
    }

    /** `imageForURL:` (no headers) and `imageForURL:requestHeaders:` */
    function ImageForURL(url: string, headers: Dict): (r: Option<Image>)
      reads cache
      ensures r == ImageForCacheKey(cache.CacheKeyFor(url, headers))
    {
      cache.FileForURL(url, headers)
    }

    /** `addImage:forURL:` — caches the image under the key of a request without headers. */
    method AddImage(image: Image, url: string, now: int)
      modifies cache`files
      ensures cache.files == old(cache.files)[cache.CacheKeyFor(url, NoHeaders) := StoredFile(image, now)]
      ensures HaveImageForURL(url, NoHeaders) && ImageForURL(url, NoHeaders) == Some(image)
    {
      cache.AddData(image, cache.CacheKeyFor(url, NoHeaders), now);
    }

    /** `removeImageForURL:` — deletes the image of a request without headers; nothing else changes. */
    method RemoveImageForURL(url: string)
      modifies cache`files
      ensures cache.files == old(cache.files) - {cache.CacheKeyFor(url, NoHeaders)}
      ensures !HaveImageForURL(url, NoHeaders)
      ensures forall k :: k != cache.CacheKeyFor(url, NoHeaders) ==> ImageForCacheKey(k) == old(ImageForCacheKey(k))
    {
      cache.files := cache.files - {cache.CacheKeyFor(url, NoHeaders)};
    }

    /** `flushImagesOlderThan:` — deletes the images added before `now - age`; younger ones stay. */
    method FlushImagesOlderThan(age: int, now: int)
      modifies cache`files
      ensures forall k :: k in cache.files <==> k in old(cache.files) && old(cache.files)[k].addedAt >= now - age
      ensures forall k :: k in cache.files ==> cache.files[k] == old(cache.files)[k]
    {
      cache.FlushFilesOlderThan(age, now);
    }
  }
}
