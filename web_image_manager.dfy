/**
 * `YYWebImageManager`: creates image operations from its configuration. The
 * header fields of a request, the cache key and the transform of an operation
 * are resolved from the manager's properties and the URL; the filter blocks
 * are uninterpreted functions, and so is the default cache key, which the
 * interface does not document.
 */
module WebImageManager {
  import opened Wrappers
  import opened WebImageTypes
  import Cache
  import WebImageOperation

  /** `headersFilter`: the header fields for a URL, given the manager's `headers`. */
  type HeadersFilter = (Url, Option<Headers>) -> Headers

  /** `cacheKeyFilter`: the cache key for a URL. */
  type CacheKeyFilter = Url -> string

  /**
   * `headersForURL:` on the manager's `headers` and `headersFilter`: without a
   * filter the request carries the manager's headers; with one, whatever the
   * filter makes of them for that URL, so never nil.
   */
  function ResolveHeaders(headers: Option<Headers>, filter: Option<HeadersFilter>, url: Url): (r: Option<Headers>)
    ensures filter.None? ==> r == headers
    ensures filter.Some? ==> r == Some(filter.value(url, headers))
    ensures r.None? <==> filter.None? && headers.None?
  {
    if filter.Some? then Some(filter.value(url, headers)) else headers
  }

  /**
   * `cacheKeyForURL:` on the manager's `cacheKeyFilter` and the default key:
   * the filter's key when there is a filter, the default key otherwise.
   */
  function ResolveCacheKey(filter: Option<CacheKeyFilter>, defaultKey: Url -> string, url: Url): (r: string)
    ensures filter.Some? ==> r == filter.value(url)
    ensures filter.None? ==> r == defaultKey(url)
  {
    if filter.Some? then filter.value(url) else defaultKey(url)
  }

  /**
   * The transform an operation gets: the request's own wins, the shared one is
   * used only when the request has none, and there is none exactly when
   * neither is set.
   */
  function ResolveTransform(own: Option<Transform>, shared: Option<Transform>): (r: Option<Transform>)
    ensures own.Some? ==> r == own
    ensures own.None? ==> r == shared
    ensures r.None? <==> own.None? && shared.None?
  {
    if own.Some? then own else shared
  }

  /** The credential: made exactly when both a username and a password are set, from those two. */
  function ResolveCredential(username: Option<string>, password: Option<string>): (r: Option<Credential>)
    ensures r.Some? <==> username.Some? && password.Some?
    ensures r.Some? ==> r.value.user == username.value && r.value.password == password.value
  {
    if username.Some? && password.Some? then Some(Credential(username.value, password.value)) else None
  }

  class YYWebImageManager {
    /** The image cache handed to operations; `null` means no image cache. */
    var cache: Cache.YYCache?<Image>
    /** Whether there is an operation queue; without one an operation starts as soon as it is made. */
    var hasQueue: bool
    var sharedTransformBlock: Option<Transform>
    /** The request timeout in seconds. */
    var timeout: real
    var username: Option<string>
    var password: Option<string>
    var headers: Option<Headers>
    var headersFilter: Option<HeadersFilter>
    var cacheKeyFilter: Option<CacheKeyFilter>
    /** The cache key for a URL when there is no `cacheKeyFilter`. */
    const defaultCacheKey: Url -> string

    /** `initWithCache:queue:` with the documented defaults. */
    constructor (cache: Cache.YYCache?<Image>, hasQueue: bool, defaultCacheKey: Url -> string)
      ensures this.cache == cache && this.hasQueue == hasQueue && this.defaultCacheKey == defaultCacheKey
      ensures sharedTransformBlock.None?
      ensures timeout == 15.0
      ensures username.None? && password.None?
      ensures headers == Some(DefaultHeaders)
      ensures headersFilter.None? && cacheKeyFilter.None?
      ensures forall url :: HeadersForURL(url) == Some(DefaultHeaders)
      ensures forall url :: CacheKeyForURL(url) == defaultCacheKey(url)
      ensures forall t :: TransformFor(t) == t
    {
      this.cache := cache;
      this.hasQueue := hasQueue;
      this.defaultCacheKey := defaultCacheKey;
      sharedTransformBlock := None;
      timeout := 15.0;
      username := None;
      password := None;
      headers := Some(DefaultHeaders);
      headersFilter := None;
      cacheKeyFilter := None;
    }

    /** `headersForURL:`. */
    function HeadersForURL(url: Url): (r: Option<Headers>)
      reads this
      ensures headersFilter.None? ==> r == headers
      ensures headersFilter.Some? ==> r == Some(headersFilter.value(url, headers))
    {
      ResolveHeaders(headers, headersFilter, url)
    }

    /** `cacheKeyForURL:`. */
    function CacheKeyForURL(url: Url): (r: string)
      reads this
      ensures cacheKeyFilter.Some? ==> r == cacheKeyFilter.value(url)
      ensures cacheKeyFilter.None? ==> r == defaultCacheKey(url)
    {
      ResolveCacheKey(cacheKeyFilter, defaultCacheKey, url)
    }

    /** The transform of an operation requested with `transform`. */
    function TransformFor(transform: Option<Transform>): (r: Option<Transform>)
      reads this
      ensures transform.Some? ==> r == transform
      ensures transform.None? ==> r == sharedTransformBlock
    {
      ResolveTransform(transform, sharedTransformBlock)
    }

    /**
     * `requestImageWithURL:options:progress:transform:completion:`. The new
     * operation gets the resolved request, cache key, transform and
     * credential, and the manager's cache. Without a queue it runs at once
     * (`transfer`, `decode` and `failed` are what its run meets); with one it
     * is left ready for the queue and nothing else changes.
     */
    method RequestImageWithURL(url: Url, options: Options, transform: Option<Transform>,
                               transfer: Transfer, decode: Decoder, failed: WebImageOperation.FailedURLList)
      returns (op: WebImageOperation.YYWebImageOperation)
      modifies cache, failed
      ensures fresh(op)
      ensures op.request == Request(url, HeadersForURL(url), timeout)
      ensures op.options == options && op.cache == cache
      ensures op.cacheKey == Some(CacheKeyForURL(url))
      ensures op.transform == TransformFor(transform)
      ensures op.credential == ResolveCredential(username, password)
      ensures op.shouldUseCredentialStorage && !op.cancelRequested
      ensures hasQueue ==> op.state == WebImageOperation.Ready && op.trace == []
      ensures hasQueue ==> WebImageOperation.TiersOf(cache) == old(WebImageOperation.TiersOf(cache)) && failed.urls == old(failed.urls)
      ensures !hasQueue ==>
        var o := WebImageOperation.Run(op.Cfg(), false, old(WebImageOperation.TiersOf(cache)), old(failed.urls), transfer, decode);
        && op.trace == o.trace && op.state == o.state && op.response == o.response
        && failed.urls == o.denylist && WebImageOperation.TiersOf(cache) == o.tiers
      ensures !hasQueue ==> op.state != WebImageOperation.Ready
      ensures cache == null ==> forall e :: e in op.trace ==> !e.CacheLookup? && !e.CacheStore?
    {
      var request := Request(url, HeadersForURL(url), timeout);
      op := new WebImageOperation.YYWebImageOperation(request, options, cache, Some(CacheKeyForURL(url)), TransformFor(transform));
      if username.Some? && password.Some? {
        op.credential := Some(Credential(username.value, password.value));
      }
      if !hasQueue {
        ghost var tiers := WebImageOperation.TiersOf(cache);
        ghost var denylist := failed.urls;
        op.Start(transfer, decode, failed);
        WebImageOperation.RunInStepOrder(op.Cfg(), false, tiers, denylist, transfer, decode);
        if cache == null {
          WebImageOperation.NoCacheNoAccess(op.Cfg(), false, tiers, denylist, transfer, decode);
        }
      }
    }
  }
}
