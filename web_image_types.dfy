/**
 * The enumerations and callback shapes of `YYWebImageManager.h` that the
 * image operation and the manager share: the option bitmask, where an image
 * came from, the completion stage, and the notifications an operation makes.
 */
module WebImageTypes {
  import opened Wrappers

  /** `YYWebImageOptions`, an `NSUInteger` bitmask. */
  type Options = bv64

  const OptionShowNetworkActivity: Options := 1 << 0
  const OptionProgressive: Options := 1 << 1
  const OptionProgressiveBlur: Options := 1 << 2
  const OptionUseNSURLCache: Options := 1 << 3
  const OptionAllowInvalidSSLCertificates: Options := 1 << 4
  const OptionAllowBackgroundTask: Options := 1 << 5
  const OptionHandleCookies: Options := 1 << 6
  const OptionRefreshImageCache: Options := 1 << 7
  const OptionIgnoreDiskCache: Options := 1 << 8
  const OptionIgnorePlaceHolder: Options := 1 << 9
  const OptionIgnoreImageDecoding: Options := 1 << 10
  const OptionIgnoreAnimatedImage: Options := 1 << 11
  const OptionSetImageWithFadeAnimation: Options := 1 << 12
  const OptionAvoidSetImage: Options := 1 << 13
  const OptionIgnoreFailedURL: Options := 1 << 14

  /** The fifteen flags in declaration order. */
  const AllOptions: seq<Options> := [
    OptionShowNetworkActivity, OptionProgressive, OptionProgressiveBlur,
    OptionUseNSURLCache, OptionAllowInvalidSSLCertificates, OptionAllowBackgroundTask,
    OptionHandleCookies, OptionRefreshImageCache, OptionIgnoreDiskCache,
    OptionIgnorePlaceHolder, OptionIgnoreImageDecoding, OptionIgnoreAnimatedImage,
    OptionSetImageWithFadeAnimation, OptionAvoidSetImage, OptionIgnoreFailedURL
  ]

  /** Whether `options` has the flag `flag` set. */
  predicate Has(options: Options, flag: Options)
  {
    options & flag != 0
  }

  /** Whether the partial image is delivered while downloading. */
  predicate IsProgressive(options: Options)
  {
    Has(options, OptionProgressive) || Has(options, OptionProgressiveBlur)
  }

  /** Flag number `i` is the single bit `1 << i`, and no two flags share a bit. */
  lemma OptionsAreDistinctBits()
    ensures |AllOptions| == 15
    ensures forall i :: 0 <= i < 15 ==> AllOptions[i] == 1 << i
    ensures forall i, j :: 0 <= i < j < 15 ==> AllOptions[i] & AllOptions[j] == 0
  {
  }

  /** Setting a non-zero flag makes its test succeed; clearing it makes its test fail. */
  lemma SetFlagIsSet(mask: Options, f: Options)
    requires f != 0
    ensures Has(mask | f, f)
  {
  }

  lemma ClearedFlagIsClear(mask: Options, f: Options)
    ensures !Has(mask & !f, f)
  {
  }

  /** Setting a flag `f` does not change the test for a flag `g` that shares no bit with it. */
  lemma SetFlagKeepsOthers(mask: Options, f: Options, g: Options)
    requires f & g == 0
    ensures Has(mask | f, g) == Has(mask, g)
  {
    assert (mask | f) & g == mask & g;
  }

  /** Clearing a flag `f` does not change the test for a flag `g` that shares no bit with it. */
  lemma ClearFlagKeepsOthers(mask: Options, f: Options, g: Options)
    requires f & g == 0
    ensures Has(mask & !f, g) == Has(mask, g)
  {
    assert (mask & !f) & g == mask & g;
  }

  /** Two different options share no bit, and none is zero. */
  lemma OptionPairDisjoint(i: nat, j: nat)
    requires i < 15 && j < 15 && i != j
    ensures AllOptions[i] != 0
    ensures AllOptions[i] & AllOptions[j] == 0
  {
    OptionsAreDistinctBits();
    if j < i {
      assert AllOptions[j] & AllOptions[i] == 0;
    }
  }

  /** `YYWebImageFromType`: where an image came from. */
  datatype FromType = FromNone | FromMemoryCacheFast | FromMemoryCache | FromDiskCache | FromRemote
  {
    /** The `NSUInteger` value of the constant. */
    function RawValue(): (r: nat)
      ensures r < 5
    {
      match this
      case FromNone => 0
      case FromMemoryCacheFast => 1
      case FromMemoryCache => 2
      case FromDiskCache => 3
      case FromRemote => 4
    }
  }

  /** The constant with raw value `n`, if there is one. */
  function FromTypeOfRaw(n: int): (r: Option<FromType>)
    ensures r.Some? <==> 0 <= n < 5
  {
    if n == 0 then Some(FromNone)
    else if n == 1 then Some(FromMemoryCacheFast)
    else if n == 2 then Some(FromMemoryCache)
    else if n == 3 then Some(FromDiskCache)
    else if n == 4 then Some(FromRemote)
    else None
  }

  /** `FromNone` is 0 and the others follow it consecutively; the raw values identify the constants. */
  lemma FromTypeRawRoundTrip(f: FromType, n: int)
    ensures FromTypeOfRaw(f.RawValue()) == Some(f)
    ensures FromNone.RawValue() == 0
    ensures FromMemoryCacheFast.RawValue() == FromNone.RawValue() + 1
    ensures FromMemoryCache.RawValue() == FromMemoryCacheFast.RawValue() + 1
    ensures FromDiskCache.RawValue() == FromMemoryCache.RawValue() + 1
    ensures FromRemote.RawValue() == FromDiskCache.RawValue() + 1
    ensures FromTypeOfRaw(n).Some? ==> FromTypeOfRaw(n).value.RawValue() == n
  {
  }

  /** `YYWebImageStage`. */
  datatype Stage = StageProgress | StageCancelled | StageFinished
  {
    /** The `NSInteger` value of the constant. */
    function RawValue(): (r: int)
      ensures -1 <= r <= 1
    {
      match this
      case StageProgress => -1
      case StageCancelled => 0
      case StageFinished => 1
    }
  }

  /** Progress is -1, Cancelled 0, Finished 1: distinct values, so the raw value identifies the stage. */
  lemma StageRawValuesDistinct(s: Stage, t: Stage)
    ensures StageProgress.RawValue() == -1
    ensures StageCancelled.RawValue() == 0
    ensures StageFinished.RawValue() == 1
    ensures s.RawValue() == t.RawValue() ==> s == t
  {
  }

  /** An image URL (remote, or a local file path). */
  type Url = string

  /** HTTP header fields. */
  type Headers = map<string, string>

  /** The accept header every request carries unless the manager is told otherwise. */
  const DefaultHeaders: Headers := map["Accept" := "image/webp,image/*;q=0.8"]

  /** A decoded image; its identity is all the model needs. */
  datatype Image = Image(id: nat)

  /** `YYWebImageTransformBlock`: may return nil. */
  type Transform = (Image, Url) -> Option<Image>

  /** The image codec: bytes received so far to an image, or nil if they do not decode. */
  type Decoder = seq<bv8> -> Option<Image>

  /** The URL request an operation is created with: its URL, header fields and timeout in seconds. */
  datatype Request = Request(url: Url, headers: Option<Headers>, timeout: real)

  /** The credential built from the manager's username and password. */
  datatype Credential = Credential(user: string, password: string)

  /** The server response: its expected content length (-1 when unknown). */
  datatype Response = Response(expectedSize: int)

  /** The error passed to the completion block. */
  datatype ImageError =
    | NetworkError(code: int)
    | DecodeFailed
    | TransformFailed
    | URLDenylisted

  /** The network as an oracle: the response, the data chunks in order, and how the transfer ends. */
  datatype Transfer = Transfer(expectedSize: int, chunks: seq<seq<bv8>>, ending: TransferEnd)

  datatype TransferEnd =
    | Completed
    | Failed(code: int)
    /** A cancel request arrived while the data was coming in. */
    | CancelledDuring

  /** What an operation does that an observer can see, in order. */
  datatype Event =
    | CacheLookup(key: string)
    | TransferStart
    | ProgressCall(receivedSize: int, expectedSize: int)
    | Transformed
    | CacheStore(key: string)
    | Completion(image: Option<Image>, from: FromType, stage: Stage, error: Option<ImageError>)
  {
    /** A completion that ends the operation: finished or cancelled. */
    predicate IsTerminal()
    {
      Completion? && stage != StageProgress
    }
  }
}
