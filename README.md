# YYKit core, modelled in Dafny

This project models the parts of YYKit whose behaviour its Objective-C headers
document precisely enough to state and prove. It has six parts.

- **`YYCache`** (`cache.dfy`) is a key-value cache facade over a memory tier and a disk tier.
  - Each tier is an opaque finite map.
  - Reads look in memory first, then on disk.
  - Writes and removals go to both tiers.
  - A `nil` key or object is `None`.
  - Each asynchronous `withBlock:` form is the blocking operation, followed by the reply its block would receive.
- **The option, source and stage enumerations of the web image manager** (`web_image_types.dfy`).
  - The 15-flag `YYWebImageOptions` bitmask.
  - `YYWebImageFromType` and `YYWebImageStage`.
  - The events an image operation makes visible.
- **`YYWebImageOperation`** (`web_image_operation.dfy`) fetches one image in four documented steps:
  1. cache lookup;
  2. transfer with progress calls;
  3. transform;
  4. store and completion.

  What the network does is an oracle (`Transfer`), and so is the codec (`Decoder`). Every callback and cache access is recorded in order in a `trace`. The `start` method is proved equal to the specification function `Run`, and the documented ordering properties are proved about `Run`.
- **`YYWebImageManager`** (`web_image_manager.dfy`) resolves a request from its configuration.
  - It resolves the header fields, the cache key, the transform and the credential.
  - It then creates the operation.
  - Without a queue, it starts the operation at once.
- **The enumerations of `YYTextAttribute.h`** (`text_attribute.dfy`).
  - The attribute-type and direction bitmasks.
  - The line style: a basic style in mask `0xFF`, a pattern in mask `0xF00`.
  - Vertical alignment and truncation type.
- **The network activity counter of `UIApplication (YYAdd)`** (`network_activity.dfy`) and **the observer registry of `YYTextKeyboardManager`** (`keyboard_manager.dfy`).

Only the headers of these classes are available. Behaviour therefore follows the documentation comments. The model makes these choices where the comments say nothing:

- **`objectForKey:` promotes a disk hit into the memory tier.**
  - This is how a two-tier cache reads through.
  - It never changes which object any key maps to: see `Cache.PromoteKeepsObjects`.
- **A transform block that returns `nil`** ends the operation with no image, a `TransformFailed` error, and no store.
- **URLs on the failed list.** With `IgnoreFailedURL`, both a failed transfer and data that does not decode put the URL on the in-memory list of failed URLs.
  - That list (`FailedURLList`) is shared by all operations.
  - It is checked after the cache lookup and before any transfer.
- **The credential** of a request is made only when both `username` and `password` are set, from those two.
- **The `error` of the end block of `removeAllObjectsWithProgressBlock:endBlock:`** is set exactly when entries remain on disk.
- **Progressive images.** With a progressive option, a partial image is handed over after every chunk whose bytes so far decode, following that chunk's progress call.

The image cache of an operation is a `YYImageCache`, which is not part of this model. It is represented by the same two-tier facade as `YYCache`, with `Image` objects.

## Model

| member | source | states |
|---|---|---|
| Cache.Get | YYKit/Cache/YYCache.h:148-159 | a nil key, or a key in neither tier, gives nil; otherwise the object the facade holds for the key, memory tier before disk tier; non-nil exactly when the key is contained |
| Cache.Contains | YYKit/Cache/YYCache.h:119-130 | a key is contained exactly when it is non-nil and held by the facade, in either tier |
| Cache.Promote | YYKit/Cache/YYCache.h:36-44 | a read leaves the disk tier and the facade's key-to-object view unchanged and leaves a found key in the memory tier |
| Cache.Remove | YYKit/Cache/YYCache.h:202-211 | a nil key changes nothing; otherwise the key leaves both the memory tier and the disk tier, and the view loses exactly that key |
| Cache.Set | YYKit/Cache/YYCache.h:175-186 | a nil key changes nothing; a nil object removes the key; otherwise the object is written under the key to both the memory tier and the disk tier, so the view maps the key to it and is otherwise unchanged |
| Cache.RemoveAll | YYKit/Cache/YYCache.h:227-233 | the view is empty afterwards |
| Cache.ProgressEvents | YYKit/Cache/YYCache.h:247-261 | one progress call per removed entry, the i-th reporting i+1 removed out of the total |
| Cache.ProgressCountsUp | YYKit/Cache/YYCache.h:247-261 | the removed counts of the progress calls strictly increase |
| Cache.SetThenGet | YYKit/Cache/YYCache.h:175-186 | after setting a non-nil object for a non-nil key, reading the key gives that object and the key is contained |
| Cache.SetFrame | YYKit/Cache/YYCache.h:175-186 | setting one key leaves every other key's object unchanged |
| Cache.SetNilIsRemove | YYKit/Cache/YYCache.h:181-186 | setting a nil object has exactly the effect of removing the key |
| Cache.RemoveFrame | YYKit/Cache/YYCache.h:202-211 | after removing a key it is absent and reads nil, and every other key keeps its object |
| Cache.RemoveIdempotent | YYKit/Cache/YYCache.h:202-211 | removing twice is removing once |
| Cache.RemoveAllEmpties | YYKit/Cache/YYCache.h:227-233 | after removing all objects no key is contained and every read is nil |
| Cache.PromoteKeepsObjects | YYKit/Cache/YYCache.h:148-159 | a read changes neither the object of any key nor whether it is contained |
| Cache.YYCache.constructor | YYKit/Cache/YYCache.h:46-60 | a cache with the given name, an empty memory tier and the disk tier's stored entries |
| Cache.YYCache.ContainsObjectForKey | YYKit/Cache/YYCache.h:119-130 | YES exactly when the key is non-nil and in either tier; NO for a nil key; nothing changes |
| Cache.YYCache.ObjectForKey | YYKit/Cache/YYCache.h:148-159 | returns the facade's object for the key (nil for a nil or absent key) and promotes a disk hit |
| Cache.YYCache.SetObject | YYKit/Cache/YYCache.h:175-186 | the tiers become `Set` of the old tiers |
| Cache.YYCache.RemoveObjectForKey | YYKit/Cache/YYCache.h:202-211 | the tiers become `Remove` of the old tiers |
| Cache.YYCache.RemoveAllObjects | YYKit/Cache/YYCache.h:227-233 | both tiers become empty |
| Cache.YYCache.ContainsObjectForKeyWithBlock | YYKit/Cache/YYCache.h:132-146 | the block receives the key and the same answer as the blocking form; a nil block receives nothing |
| Cache.YYCache.ObjectForKeyWithBlock | YYKit/Cache/YYCache.h:161-173 | same final state as the blocking form; the block receives the key and the same object |
| Cache.YYCache.SetObjectWithBlock | YYKit/Cache/YYCache.h:188-200 | same final state as the blocking form; the block is called once |
| Cache.YYCache.RemoveObjectForKeyWithBlock | YYKit/Cache/YYCache.h:213-225 | same final state as the blocking form; the block receives the key |
| Cache.YYCache.RemoveAllObjectsWithBlock | YYKit/Cache/YYCache.h:235-245 | same final state as the blocking form; the block is called |
| Cache.YYCache.RemoveAllObjectsWithProgress | YYKit/Cache/YYCache.h:247-261 | memory cleared, disk shrinks to a sub-map, a progress call per removed entry then one end call whose error flag is set exactly when entries remain; everything is removed unless storage fails |
| WebImageTypes.OptionsAreDistinctBits | YYKit/Image/YYWebImageManager.h:28-102 | the 15 options are 1<<0 to 1<<14 in declaration order and no two share a bit |
| WebImageTypes.OptionPairDisjoint | YYKit/Image/YYWebImageManager.h:28-102 | any two different options are non-zero and disjoint |
| WebImageTypes.SetFlagIsSet | YYKit/Image/YYWebImageManager.h:28-102 | or-ing a non-zero flag into a mask makes its test succeed |
| WebImageTypes.ClearedFlagIsClear | YYKit/Image/YYWebImageManager.h:28-102 | clearing a flag makes its test fail |
| WebImageTypes.SetFlagKeepsOthers | YYKit/Image/YYWebImageManager.h:28-102 | setting a flag leaves the test for any disjoint flag unchanged |
| WebImageTypes.ClearFlagKeepsOthers | YYKit/Image/YYWebImageManager.h:28-102 | clearing a flag leaves the test for any disjoint flag unchanged |
| WebImageTypes.FromType.RawValue | YYKit/Image/YYWebImageManager.h:107-130 | every source has a value below 5 |
| WebImageTypes.FromTypeOfRaw | YYKit/Image/YYWebImageManager.h:107-130 | a raw value names a source exactly when it is 0 to 4 |
| WebImageTypes.FromTypeRawRoundTrip | YYKit/Image/YYWebImageManager.h:107-130 | None is 0 and the others follow consecutively; value and source determine each other |
| WebImageTypes.Stage.RawValue | YYKit/Image/YYWebImageManager.h:135-148 | stage values lie in -1..1 |
| WebImageTypes.StageRawValuesDistinct | YYKit/Image/YYWebImageManager.h:135-148 | Progress is -1, Cancelled 0, Finished 1, and the value determines the stage |
| WebImageOperation.Store | YYKit/Image/YYWebImageOperation.h:41-44 | when the image cache is in use (a cache, a key, no `UseNSURLCache`) the image lands in the memory tier under the key and the cache gives it for the key; every other key keeps its object; the image is written to the disk tier too unless `IgnoreDiskCache`, which leaves the disk tier untouched; without the image cache nothing changes |
| WebImageOperation.Deliver | YYKit/Image/YYWebImageOperation.h:41-44 | steps 3 and 4 finish the operation: a set transform is applied first and its result handed over (the decoded image when there is none); a nil result completes with `TransformFailed` and stores nothing; an image under the image cache is stored under the key just before the completion; no other key changes; the last event is the Finished completion from Remote |
| WebImageOperation.Ending | YYKit/Image/YYWebImageOperation.h:35-44 | the end of the transfer gives a terminal last event, whose stage is Cancelled exactly when the operation was cancelled; a Finished completion carries an image exactly when it has no error; a failed transfer ends Finished with its network error and a transfer whose data does not decode ends Finished with a decode error, both without an image; a cancelled ending changes no cache entry |
| WebImageOperation.TransferEvents | YYKit/Image/YYWebImageOperation.h:37-40 | at least as many calls as chunks, each a progress call or a partial image delivered only when progressive; the exact calls are pinned by the three lemmas below |
| WebImageOperation.ProgressSizesOfTransfer | YYKit/Image/YYWebImageManager.h:150-160 | exactly one progress call per chunk, in order, the i-th reporting the total number of bytes received through chunk i |
| WebImageOperation.TransferEventsOrigin | YYKit/Image/YYWebImageOperation.h:37-40 | every call made during the transfer is, for some chunk, the progress call with the size received through it or, under a progressive option, the decode of the bytes received through it |
| WebImageOperation.TransferEventsCount | YYKit/Image/YYWebImageOperation.h:37-40 | the transfer makes exactly one call per chunk plus one partial image per chunk after which the bytes so far decode under a progressive option |
| WebImageOperation.TransferPart | YYKit/Image/YYWebImageOperation.h:37-40 | step 2 begins with the transfer start, and every later event is a progress call or a partial image |
| WebImageOperation.ReceivedPrefix | YYKit/Image/YYWebImageManager.h:150-160 | the bytes received after any number of chunks are a prefix of those received after all of them, so the received size never shrinks |
| WebImageOperation.TransferEventsPrefix | YYKit/Image/YYWebImageOperation.h:37-40 | the calls made for the first chunks come first, unchanged, among the calls for all chunks |
| WebImageOperation.TransferEventsLast | YYKit/Image/YYWebImageOperation.h:37-40 | after a chunk the progress call reports the total bytes received so far and the expected size; with a progressive option it is followed by the partial image exactly when those bytes decode |
| WebImageOperation.ChunkReported | YYKit/Image/YYWebImageOperation.h:37-40 | every chunk gets a progress call with the size received up to it, and with a progressive option the partial image when those bytes decode |
| WebImageOperation.Run | YYKit/Image/YYWebImageOperation.h:26-44 | the run of `start`: it always ends with a terminal completion whose stage is Cancelled exactly when the run ends cancelled, which is exactly when it was cancelled before starting or during the transfer; a Finished completion carries an image exactly when it has no error; it has a response exactly when it got past the lookup and the failed list; the failed list gains at most the URL, and only with `IgnoreFailedURL` |
| WebImageOperation.RunInStepOrder | YYKit/Image/YYWebImageOperation.h:35-44 | every run's events follow the steps in order and end with a Finished or Cancelled completion |
| WebImageOperation.TerminalCompletionIsLast | YYKit/Image/YYWebImageOperation.h:121-123 | the last event is a completion at stage Finished or Cancelled, and no earlier event is |
| WebImageOperation.StepsInOrder | YYKit/Image/YYWebImageOperation.h:35-44 | progress precedes transform, store and end; transfer start precedes progress and transform; transform precedes store; store precedes the end; a lookup is the first event |
| WebImageOperation.CacheHitShortCircuits | YYKit/Image/YYWebImageOperation.h:35-36 | on a hit: the lookup, then a completion with the cached image from memory or disk; no transfer, no response, no object changed |
| WebImageOperation.LookupComesFirst | YYKit/Image/YYWebImageOperation.h:35-36 | a run that reads the cache does that first |
| WebImageOperation.TransferBeforeProgressAndTransform | YYKit/Image/YYWebImageOperation.h:37-42 | progress calls, partial images and the transform occur only in a run that transferred; the transform only when there is one |
| WebImageOperation.PartialImageOnlyWhenProgressive | YYKit/Image/YYWebImageOperation.h:37-40 | a completion at stage Progress happens only with a progressive option and carries a remote image |
| WebImageOperation.NoCacheNoAccess | YYKit/Image/YYWebImageOperation.h:109-112 | with no cache, no key, or `UseNSURLCache`, the run neither reads nor writes the image cache |
| WebImageOperation.StoreBeforeFinalCompletion | YYKit/Image/YYWebImageOperation.h:43-44 | a store is made under the key immediately before a Finished completion from Remote that hands over the stored image |
| WebImageOperation.StoreOnlyAfterCompletedTransfer | YYKit/Image/YYWebImageOperation.h:37-44 | a store happens only in a run that uses the image cache and got a response from a completed transfer |
| WebImageOperation.DecodedDownloadIsDelivered | YYKit/Image/YYWebImageOperation.h:37-44 | a transfer that completes and decodes ends with a Finished completion from Remote carrying the transformed image (or the decoded one without a transform), after the transform event when there is a transform, and with the store just before it under the image cache |
| WebImageOperation.FinishedDownloadIsCached | YYKit/Image/YYWebImageOperation.h:35-44 | under the image cache, a run that ends with an image from the network leaves it in the memory tier under the key, and the next run that reads the cache is the lookup then that image from the memory cache, without a transfer |
| WebImageOperation.CancelledRunStoresNothing | YYKit/Image/YYWebImageOperation.h:121-123 | a run that ends cancelled was cancelled before or during the transfer, leaves the cache as it was, and neither transforms nor stores |
| WebImageOperation.FailedURLIsDenylisted | YYKit/Image/YYWebImageManager.h:98-101 | with `IgnoreFailedURL`, a failed or undecodable download that was not a cache hit lists the URL and changes no cache entry, and the next request for it is at most the lookup and then a `URLDenylisted` completion, without a transfer or a response |
| WebImageOperation.FailedFetchReportsError | YYKit/Image/YYWebImageManager.h:135-147 | a fetch that fails, or whose data does not decode, ends at stage Finished (not Cancelled) with no image and the error of the fetch, and changes no cache entry |
| WebImageOperation.DenylistOnlyWithOption | YYKit/Image/YYWebImageManager.h:98-101 | without `IgnoreFailedURL` the failed list never changes |
| WebImageOperation.FailedURLList.constructor | YYKit/Image/YYWebImageManager.h:98-101 | the failed list starts empty |
| WebImageOperation.YYWebImageOperation.constructor | YYKit/Image/YYWebImageOperation.h:97-134 | an operation with the given request, options, cache, key and transform; `shouldUseCredentialStorage` is YES; no credential, no response, not started |
| WebImageOperation.YYWebImageOperation.Cancel | YYKit/Image/YYWebImageOperation.h:121-123 | a cancel request is recorded for an operation that has not started |
| WebImageOperation.YYWebImageOperation.Start | YYKit/Image/YYWebImageOperation.h:29-44 | trace, state, response, cache contents and failed list afterwards are exactly those of `Run` on the state before |
| WebImageOperation.YYWebImageOperation.Fetch | YYKit/Image/YYWebImageOperation.h:37-44 | steps 2 to 4: the transfer's calls then those of its ending are appended; the response is set |
| WebImageOperation.YYWebImageOperation.Download | YYKit/Image/YYWebImageOperation.h:37-40 | the loop over chunks accumulates all received bytes and appends the calls of every chunk in order |
| WebImageOperation.YYWebImageOperation.Conclude | YYKit/Image/YYWebImageOperation.h:37-44 | the end of the transfer has the effect `Ending` describes |
| WebImageOperation.YYWebImageOperation.DeliverImage | YYKit/Image/YYWebImageOperation.h:41-44 | steps 3 and 4 have the effect `Deliver` describes |
| WebImageManager.ResolveHeaders | YYKit/Image/YYWebImageManager.h:320-355 | without a filter a request carries the manager's headers; with one, the filter's result for that URL and those headers; nil only when both are nil |
| WebImageManager.ResolveCacheKey | YYKit/Image/YYWebImageManager.h:336-366 | with a filter the cache key is the filter's key for the URL, without one the default key |
| WebImageManager.ResolveTransform | YYKit/Image/YYWebImageManager.h:292-300 | the request's transform wins, else the shared block; none exactly when neither is set |
| WebImageManager.ResolveCredential | YYKit/Image/YYWebImageManager.h:308-318 | a credential exactly when both username and password are set, made of those two |
| WebImageManager.YYWebImageManager.constructor | YYKit/Image/YYWebImageManager.h:226-240 | the given cache and queue; timeout 15; no shared transform, username, password or filters; headers are the default Accept header |
| WebImageManager.YYWebImageManager.HeadersForURL | YYKit/Image/YYWebImageManager.h:345-355 | the manager's `headers` without a `headersFilter`, otherwise the filter's result for the URL and those headers |
| WebImageManager.YYWebImageManager.CacheKeyForURL | YYKit/Image/YYWebImageManager.h:357-366 | the `cacheKeyFilter`'s key for the URL when there is a filter, otherwise the default key |
| WebImageManager.YYWebImageManager.TransformFor | YYKit/Image/YYWebImageManager.h:292-300 | the request's own transform when given, otherwise `sharedTransformBlock` |
| WebImageManager.YYWebImageManager.RequestImageWithURL | YYKit/Image/YYWebImageManager.h:247-268 | a new operation with the resolved request, key, transform and credential and the manager's cache; without a queue it has run (as `Run` says) and, with no cache, touched none; with a queue it waits and nothing changes |
| TextAttribute.AttributeKind.Bit | YYKit/Text/String/YYTextAttribute.h:18-24 | every attribute kind is a non-zero flag |
| TextAttribute.AttributeKindsDisjoint | YYKit/Text/String/YYTextAttribute.h:18-24 | different attribute kinds share no bit |
| TextAttribute.AttributeTypesRoundTrip | YYKit/Text/String/YYTextAttribute.h:18-24 | a combination of kinds and its mask determine each other, up to unused bits |
| TextAttribute.Side.Bit | YYKit/Text/String/YYTextAttribute.h:57-66 | every direction is a non-zero flag |
| TextAttribute.SidesDisjoint | YYKit/Text/String/YYTextAttribute.h:57-66 | different directions share no bit |
| TextAttribute.DirectionMaskBits | YYKit/Text/String/YYTextAttribute.h:57-66 | a direction mask lies within 0xF and each side's test reads back its flag |
| TextAttribute.DirectionsRoundTrip | YYKit/Text/String/YYTextAttribute.h:57-66 | a combination of directions and its mask determine each other, up to unused bits |
| TextAttribute.BasicStyle.Raw | YYKit/Text/String/YYTextAttribute.h:32-37 | basic styles lie within mask 0xFF |
| TextAttribute.Pattern.Raw | YYKit/Text/String/YYTextAttribute.h:39-45 | patterns lie within mask 0xF00 and share no bit with 0xFF |
| TextAttribute.MasksDisjoint | YYKit/Text/String/YYTextAttribute.h:32-46 | the two masks share no bit |
| TextAttribute.BasicStyleOutsidePattern | YYKit/Text/String/YYTextAttribute.h:32-37 | no basic style has a pattern bit |
| TextAttribute.BasicStyleParts | YYKit/Text/String/YYTextAttribute.h:32-46 | `(b or p) and 0xFF` is b and `(b or p) and 0xF00` is p |
| TextAttribute.LineStyleValue | YYKit/Text/String/YYTextAttribute.h:32-46 | masking a line style's value gives back its basic style and its pattern |
| TextAttribute.LineStyleRoundTrip | YYKit/Text/String/YYTextAttribute.h:32-46 | every line style is read back from its value |
| TextAttribute.LineStyleValueOfRead | YYKit/Text/String/YYTextAttribute.h:32-46 | a value that reads as a line style is that style's value, up to bits outside both masks |
| TextAttribute.SolidIsDefault | YYKit/Text/String/YYTextAttribute.h:40 | the solid pattern is 0, so a basic style alone draws a solid line |
| TextAttribute.VerticalAlignmentOfRaw | YYKit/Text/String/YYTextAttribute.h:48-55 | a raw value names an alignment exactly when it is 0 to 2 |
| TextAttribute.VerticalAlignmentRoundTrip | YYKit/Text/String/YYTextAttribute.h:48-55 | the alignments are the distinct values 0, 1, 2 |
| TextAttribute.TruncationTypeOfRaw | YYKit/Text/String/YYTextAttribute.h:68-83 | a raw value names a truncation type exactly when it is 0 to 3 |
| TextAttribute.TruncationTypeRoundTrip | YYKit/Text/String/YYTextAttribute.h:68-83 | the truncation types are the distinct values 0 to 3 |
| NetworkActivity.Step | YYKit/Base/UIKit/UIApplication+YYAdd.h:64-92 | increment adds one and starts the indicator when the count was 0; decrement subtracts one and stops it when the count becomes 0; nothing changes in an app extension |
| NetworkActivity.StepKeepsConsistent | YYKit/Base/UIKit/UIApplication+YYAdd.h:64-92 | every permitted call keeps "indicator on exactly while the count is positive" |
| NetworkActivity.IndicatorTracksCount | YYKit/Base/UIKit/UIApplication+YYAdd.h:64-92 | from no requests, after any sequence of calls that never decrements zero, the indicator is on exactly when the count is positive |
| NetworkActivity.ReplayCount | YYKit/Base/UIKit/UIApplication+YYAdd.h:64-92 | the count moves by the number of increments minus decrements, and not at all in an app extension |
| NetworkActivity.Application.constructor | YYKit/Base/UIKit/UIApplication+YYAdd.h:94-97 | no active requests, indicator off, `isAppExtension` as given |
| NetworkActivity.Application.IncrementNetworkActivityCount | YYKit/Base/UIKit/UIApplication+YYAdd.h:64-77 | the state becomes `Step` with an increment and stays consistent |
| NetworkActivity.Application.DecrementNetworkActivityCount | YYKit/Base/UIKit/UIApplication+YYAdd.h:79-92 | the state becomes `Step` with a decrement and stays consistent |
| KeyboardManager.Added | YYKit/Text/Component/YYTextKeyboardManager.h:91-102 | nil changes nothing; otherwise the members are the old ones plus the observer |
| KeyboardManager.Removed | YYKit/Text/Component/YYTextKeyboardManager.h:104-113 | nil changes nothing; otherwise the members are the old ones except the observer |
| KeyboardManager.AddIdempotent | YYKit/Text/Component/YYTextKeyboardManager.h:91-102 | adding a registered observer changes nothing, so adding twice is adding once |
| KeyboardManager.RemoveIdempotent | YYKit/Text/Component/YYTextKeyboardManager.h:104-113 | removing an unregistered observer changes nothing, so removing twice is removing once |
| KeyboardManager.AddRemoveInverse | YYKit/Text/Component/YYTextKeyboardManager.h:91-113 | adding then removing a fresh observer restores the set, as does removing then re-adding a registered one |
| KeyboardManager.YYTextKeyboardManager.constructor | YYKit/Text/Component/YYTextKeyboardManager.h:64-68 | the default manager starts with no observers |
| KeyboardManager.YYTextKeyboardManager.AddObserver | YYKit/Text/Component/YYTextKeyboardManager.h:91-102 | the observers become `Added` of the old ones |
| KeyboardManager.YYTextKeyboardManager.RemoveObserver | YYKit/Text/Component/YYTextKeyboardManager.h:104-113 | the observers become `Removed` of the old ones |

## Left out

- Tier internals of `YYMemoryCache` and `YYDiskCache`: each tier is an opaque map, with no eviction by count, cost or age, no trimming, and no storage layout. Those classes are not part of this model.
- `initWithPath:`, `cacheWithName:` and `cacheWithPath:`, and the nil an initializer returns on error: the model has one initializer. It is given the entries the disk tier opens with.
- Thread safety, background dispatch of blocks, `NSOperationQueue` scheduling and concurrency: every operation runs to completion in one call. A queued operation is only created.
- `Cache.YYCache.RemoveAllObjectsWithProgress`: reports one progress call per disk entry. The disk cache's real batching is not modelled, and a storage failure is the `failAfter` parameter.
- `sharedManager`, the process-wide singleton, and the `init`/`new` that the headers declare unavailable.
- `NSURLRequest` and `NSURLResponse` details, beyond the URL, header fields, timeout and expected size. Also left out: SSL options, cookies, background tasks, `NSURLCache`, and the option flags that only affect the view layer (placeholder, fade, avoid-set). The `timeout` is carried into the request but takes part in no proof, being an `NSTimeInterval`.
- Image decoding: the codec is the `Decoder` function parameter. `IgnoreImageDecoding` and `IgnoreAnimatedImage` change how the operation decodes; the `Decoder` absorbs them, and the model does not tell them apart.
- `WebImageTypes.IsProgressive`: treats `ProgressiveBlur` exactly like `Progressive`. The model therefore hands over every decodable prefix under `ProgressiveBlur` too, baseline images included, although that option ignores baseline images; whether a prefix is baseline is not visible in the model. The blur itself is not modelled either.
- `WebImageManager.YYWebImageManager.RequestImageWithURL`: always returns an operation. The nil the header allows, for a request that cannot be built, is not modelled.
- `WebImageOperation.YYWebImageOperation.Cancel`: only records a request before the operation runs. Cancellation while data is arriving is the transfer oracle's `CancelledDuring` ending. An executing state and `NSOperation`'s other KVO states are not modelled.
- The `progress`, `transform` and `completion` blocks passed as nil: the trace records every call the operation would make. A nil progress or completion block just ignores its calls.
- The default cache key when there is no `cacheKeyFilter` is undocumented. It is an uninterpreted function given to the manager.
- The coupling of `ShowNetworkActivity` to the network activity counter.
- `FromMemoryCacheFast`: produced only by the view categories, which are not part of this model.
- `NetworkActivity.Application.DecrementNetworkActivityCount`: requires an active request outside an app extension. Decrementing below zero is not documented.
- `defaultManager` returning nil in an app extension: the model's keyboard manager is the one it returns elsewhere.
- The keyboard manager's weak references to observers, which can expire; the keyboard frame, window and transition data; and `convertRect:toView:`. Observers are identities in a set.
- The attribute-name lookup `YYTextAttributeGetType`, which depends on string tables not in the headers.
