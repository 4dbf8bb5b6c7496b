/**
 * `YYWebImageOperation`: one fetch of one image. Started, it
 *   1. looks the image up in the image cache and, on a hit, completes with it;
 *   2. otherwise transfers the data, calling `progress` for each chunk and, with
 *      a progressive option, completing with the partial image at stage Progress;
 *   3. applies the transform block;
 *   4. stores the image in the cache and completes with it.
 * The network is an oracle (`Transfer`), the codec a function (`Decoder`), and
 * what the callbacks observe is recorded, in order, in `trace`.
 */
module WebImageOperation {
  import opened Wrappers
  import opened WebImageTypes
  import Cache

  datatype OperationState = Ready | Finished | Cancelled

  /** What an operation is created with, as far as its run depends on it. */
  datatype Config = Config(url: Url, options: Options, hasCache: bool, cacheKey: Option<string>, transform: Option<Transform>)
  {
    /** The image cache takes part at all: there is a cache, a key, and no `UseNSURLCache`. */
    predicate UsesCache()
    {
      hasCache && cacheKey.Some? && !Has(options, OptionUseNSURLCache)
    }

    /** The cache is read before the transfer, unless `RefreshImageCache` asks for a reload. */
    predicate ReadsCache()
    {
      UsesCache() && !Has(options, OptionRefreshImageCache)
    }

    /** The disk tier is read and written, unless `IgnoreDiskCache`. */
    predicate UsesDisk()
    {
      !Has(options, OptionIgnoreDiskCache)
    }
  }

  /** Everything a run of `start` produces. */
  datatype Outcome = Outcome(
    trace: seq<Event>,
    tiers: Cache.Tiers<Image>,
    denylist: set<Url>,
    state: OperationState,
    response: Option<Response>)

  /** The bytes received after the given chunks, in order. */
  function Received(chunks: seq<seq<bv8>>): (r: seq<bv8>)
    ensures chunks == [] ==> r == []
  {
    if chunks == [] then [] else Received(chunks[..|chunks| - 1]) + chunks[|chunks| - 1]
  }

  /** An event that may occur while data is coming in. */
  predicate DuringTransfer(e: Event, progressive: bool)
  {
    e.ProgressCall? || (e.Completion? && e.stage == StageProgress && e.from == FromRemote && e.image.Some? && e.error.None? && progressive)
  }

  /** The calls made once the bytes `data` have arrived. */
  function ChunkEvents(data: seq<bv8>, expected: int, progressive: bool, decode: Decoder): (r: seq<Event>)
    ensures |r| > 0 && r[0] == ProgressCall(|data|, expected)
    ensures forall e :: e in r ==> DuringTransfer(e, progressive)
  {
    [ProgressCall(|data|, expected)]
      + (if progressive && decode(data).Some? then [Completion(decode(data), FromRemote, StageProgress, None)] else [])
  }

  /** The calls made while the given chunks arrive. */
  function TransferEvents(chunks: seq<seq<bv8>>, expected: int, progressive: bool, decode: Decoder): (r: seq<Event>)
    ensures |r| >= |chunks|
    ensures forall e :: e in r ==> DuringTransfer(e, progressive)
  {
    if chunks == [] then []
    else
      TransferEvents(chunks[..|chunks| - 1], expected, progressive, decode)
        + ChunkEvents(Received(chunks), expected, progressive, decode)
  }

  /** One more chunk: its bytes are appended, and its calls follow those of the earlier chunks. */
  lemma TransferStep(chunks: seq<seq<bv8>>, i: nat, expected: int, progressive: bool, decode: Decoder)
    requires i < |chunks|
    ensures Received(chunks[..i + 1]) == Received(chunks[..i]) + chunks[i]
    ensures TransferEvents(chunks[..i + 1], expected, progressive, decode)
      == TransferEvents(chunks[..i], expected, progressive, decode)
         + ChunkEvents(Received(chunks[..i + 1]), expected, progressive, decode)
  {
    assert chunks[..i + 1][..i] == chunks[..i];
  }
  /** The bytes received after the first `i` chunks are a prefix of those received after all of them. */
  lemma {:induction false} ReceivedPrefix(chunks: seq<seq<bv8>>, i: nat)
    requires i <= |chunks|
    ensures Received(chunks[..i]) <= Received(chunks)
    decreases |chunks|
  {
    if i < |chunks| {
      var init := chunks[..|chunks| - 1];
      assert init[..i] == chunks[..i];
      ReceivedPrefix(init, i);
    } else {
      assert chunks[..i] == chunks;
    }
  }

  /** The calls made for the first `i` chunks come first among the calls made for all of them. */
  lemma {:induction false} TransferEventsPrefix(chunks: seq<seq<bv8>>, i: nat, expected: int, progressive: bool, decode: Decoder)
    requires i <= |chunks|
    ensures TransferEvents(chunks[..i], expected, progressive, decode) <= TransferEvents(chunks, expected, progressive, decode)
    decreases |chunks|
  {
    if i < |chunks| {
      var init := chunks[..|chunks| - 1];
      assert init[..i] == chunks[..i];
      TransferEventsPrefix(init, i, expected, progressive, decode);
    } else {
      assert chunks[..i] == chunks;
    }
  }

  /**
   * After the last chunk arrives, the progress call reports all the bytes
   * received so far; with a progressive option, it is followed by the partial
   * image exactly when those bytes decode.
   */
  lemma TransferEventsLast(chunks: seq<seq<bv8>>, expected: int, progressive: bool, decode: Decoder)
    requires chunks != []
    ensures var r := TransferEvents(chunks, expected, progressive, decode);
      var data := Received(chunks);
      if progressive && decode(data).Some? then
        |r| >= 2 && r[|r| - 2] == ProgressCall(|data|, expected)
        && r[|r| - 1] == Completion(decode(data), FromRemote, StageProgress, None)
      else
        r[|r| - 1] == ProgressCall(|data|, expected)
  {
  }

  /**
   * Every chunk is reported: once the first `i + 1` chunks have arrived there
   * is a progress call with the size received so far, and with a progressive
   * option the partial image when those bytes decode.
   */
  lemma ChunkReported(chunks: seq<seq<bv8>>, i: nat, expected: int, progressive: bool, decode: Decoder)
    requires i < |chunks|
    ensures var r := TransferEvents(chunks, expected, progressive, decode);
      var data := Received(chunks[..i + 1]);
      && ProgressCall(|data|, expected) in r
      && (progressive && decode(data).Some? ==> Completion(decode(data), FromRemote, StageProgress, None) in r)
  {
    var prefix := chunks[..i + 1];
    TransferEventsLast(prefix, expected, progressive, decode);
    TransferEventsPrefix(chunks, i + 1, expected, progressive, decode);
    var r := TransferEvents(prefix, expected, progressive, decode);
    assert r[|r| - 1] in r;
    if progressive && decode(Received(prefix)).Some? {
      assert r[|r| - 2] in r;
    }
  }

  /** The bytes received once the first `i + 1` chunks have arrived. */
  function ReceivedThrough(chunks: seq<seq<bv8>>, i: nat): seq<bv8>
    requires i < |chunks|
  {
    Received(chunks[..i + 1])
  }

  /** The received sizes the progress calls among `events` report, in order. */
  function ProgressSizes(events: seq<Event>): seq<int>
  {
    if events == [] then []
    else (if events[0].ProgressCall? then [events[0].receivedSize] else []) + ProgressSizes(events[1..])
  }

  lemma {:induction false} ProgressSizesConcat(a: seq<Event>, b: seq<Event>)
    ensures ProgressSizes(a + b) == ProgressSizes(a) + ProgressSizes(b)
    decreases |a|
  {
    if a == [] {
      assert a + b == b;
    } else {
      var head := if a[0].ProgressCall? then [a[0].receivedSize] else [];
      assert (a + b)[0] == a[0];
      assert (a + b)[1..] == a[1..] + b;
      assert ProgressSizes(a + b) == head + ProgressSizes(a[1..] + b);
      ProgressSizesConcat(a[1..], b);
      assert ProgressSizes(a) == head + ProgressSizes(a[1..]);
    }
  }

  /**
   * `e` is one of the calls made once chunk `i` has arrived: the progress call
   * with the size received through that chunk, or, with a progressive option,
   * the partial image those bytes decode to.
   */
  predicate ReportsChunk(e: Event, chunks: seq<seq<bv8>>, i: nat, expected: int, progressive: bool, decode: Decoder)
    requires i < |chunks|
  {
    var data := ReceivedThrough(chunks, i);
    || e == ProgressCall(|data|, expected)
    || (progressive && decode(data).Some? && e == Completion(decode(data), FromRemote, StageProgress, None))
  }

  /** `e` is one of the calls made once some chunk has arrived. */
  predicate ReportsSomeChunk(e: Event, chunks: seq<seq<bv8>>, expected: int, progressive: bool, decode: Decoder)
  {
    exists i: nat :: i < |chunks| && ReportsChunk(e, chunks, i, expected, progressive, decode)
  }

  /** The chunks whose arrival makes the received bytes decode, under a progressive option. */
  function DecodableChunks(chunks: seq<seq<bv8>>, progressive: bool, decode: Decoder): set<nat>
  {
    set i: nat | i < |chunks| && progressive && decode(ReceivedThrough(chunks, i)).Some?
  }

  /** Adding a chunk leaves the bytes received through the earlier ones as they were. */
  lemma ReceivedThroughInit(chunks: seq<seq<bv8>>, i: nat)
    requires i < |chunks| - 1
    ensures ReceivedThrough(chunks[..|chunks| - 1], i) == ReceivedThrough(chunks, i)
  {
    assert chunks[..|chunks| - 1][..i + 1] == chunks[..i + 1];
  }

  /** The calls made once some bytes have arrived hold exactly one progress call, reporting their size. */
  lemma ChunkProgressSizes(data: seq<bv8>, expected: int, progressive: bool, decode: Decoder)
    ensures ProgressSizes(ChunkEvents(data, expected, progressive, decode)) == [|data|]
  {
    var r := ChunkEvents(data, expected, progressive, decode);
    if progressive && decode(data).Some? {
      var c := Completion(decode(data), FromRemote, StageProgress, None);
      assert r[1..] == [c];
      assert [c][1..] == [];
      assert ProgressSizes([c]) == [];
    } else {
      assert r[1..] == [];
    }
  }

  /**
   * Exactly one progress call per chunk, in order, the i-th reporting the
   * total size received through chunk i.
   */
  lemma {:induction false} ProgressSizesOfTransfer(chunks: seq<seq<bv8>>, expected: int, progressive: bool, decode: Decoder)
    ensures var s := ProgressSizes(TransferEvents(chunks, expected, progressive, decode));
      && |s| == |chunks|
      && forall i :: 0 <= i < |chunks| ==> s[i] == |ReceivedThrough(chunks, i)|
    decreases |chunks|
  {
    if chunks != [] {
      var n := |chunks|;
      var init := chunks[..n - 1];
      var data := Received(chunks);
      var last := ChunkEvents(data, expected, progressive, decode);
      ProgressSizesOfTransfer(init, expected, progressive, decode);
      ProgressSizesConcat(TransferEvents(init, expected, progressive, decode), last);
      ChunkProgressSizes(data, expected, progressive, decode);
      assert chunks[..n] == chunks;
      forall i | 0 <= i < n - 1
        ensures ReceivedThrough(init, i) == ReceivedThrough(chunks, i)
      {
        ReceivedThroughInit(chunks, i);
      }
    }
  }

  /** Every call made during the transfer is one of the calls some chunk's arrival makes. */
  lemma {:induction false} TransferEventsOrigin(chunks: seq<seq<bv8>>, expected: int, progressive: bool, decode: Decoder)
    ensures forall k :: 0 <= k < |TransferEvents(chunks, expected, progressive, decode)| ==>
      ReportsSomeChunk(TransferEvents(chunks, expected, progressive, decode)[k], chunks, expected, progressive, decode)
    decreases |chunks|
  {
    if chunks != [] {
      var n := |chunks|;
      var init := chunks[..n - 1];
      var before := TransferEvents(init, expected, progressive, decode);
      var r := TransferEvents(chunks, expected, progressive, decode);
      TransferEventsOrigin(init, expected, progressive, decode);
      assert chunks[..n] == chunks;
      forall k | 0 <= k < |r|
        ensures ReportsSomeChunk(r[k], chunks, expected, progressive, decode)
      {
        if k < |before| {
          assert r[k] == before[k];
          assert ReportsSomeChunk(before[k], init, expected, progressive, decode);
          var i: nat :| i < |init| && ReportsChunk(before[k], init, i, expected, progressive, decode);
          ReceivedThroughInit(chunks, i);
          assert ReportsChunk(r[k], chunks, i, expected, progressive, decode);
        } else {
          assert ReportsChunk(r[k], chunks, n - 1, expected, progressive, decode);
        }
      }
    }
  }

  /** A further chunk adds itself to the decodable chunks exactly when the bytes through it decode. */
  lemma DecodableChunksStep(chunks: seq<seq<bv8>>, progressive: bool, decode: Decoder)
    requires chunks != []
    ensures var n := |chunks|;
      DecodableChunks(chunks, progressive, decode)
      == DecodableChunks(chunks[..n - 1], progressive, decode)
         + (if progressive && decode(Received(chunks)).Some? then {n - 1} else {})
  {
    var n := |chunks|;
    var after := DecodableChunks(chunks, progressive, decode);
    var before := DecodableChunks(chunks[..n - 1], progressive, decode);
    var decodes := progressive && decode(Received(chunks)).Some?;
    assert ReceivedThrough(chunks, n - 1) == Received(chunks) by {
      assert chunks[..n] == chunks;
    }
    forall i: nat
      ensures i in after <==> i in before || (decodes && i == n - 1)
    {
      if i < n - 1 {
        ReceivedThroughInit(chunks, i);
      }
    }
    if decodes {
      assert after == before + {n - 1};
    } else {
      assert after == before;
    }
  }

  /**
   * The transfer makes one call per chunk plus one partial image per chunk
   * after which the bytes so far decode under a progressive option, and no
   * other call.
   */
  lemma {:induction false} TransferEventsCount(chunks: seq<seq<bv8>>, expected: int, progressive: bool, decode: Decoder)
    ensures |TransferEvents(chunks, expected, progressive, decode)| == |chunks| + |DecodableChunks(chunks, progressive, decode)|
    decreases |chunks|
  {
    if chunks == [] {
      assert DecodableChunks(chunks, progressive, decode) == {};
    } else {
      var n := |chunks|;
      var init := chunks[..n - 1];
      TransferEventsCount(init, expected, progressive, decode);
      DecodableChunksStep(chunks, progressive, decode);
      assert n - 1 !in DecodableChunks(init, progressive, decode);
    }
  }


  /** The URL is remembered as failed when `IgnoreFailedURL` is set. */
  function Deny(cfg: Config, denylist: set<Url>): set<Url>
  {
    if Has(cfg.options, OptionIgnoreFailedURL) then denylist + {cfg.url} else denylist
  }

  /** Step 4: the cache tiers after storing `image` under the operation's key. */
  function Store(cfg: Config, tiers: Cache.Tiers<Image>, image: Image): (r: Cache.Tiers<Image>)
    ensures cfg.UsesCache() ==> cfg.cacheKey.value in r.memory && r.memory[cfg.cacheKey.value] == image
    ensures cfg.UsesCache() ==> Cache.Get(r, cfg.cacheKey) == Some(image)
    ensures forall j :: cfg.cacheKey != Some(j) ==> Cache.Get(r, Some(j)) == Cache.Get(tiers, Some(j))
    ensures !cfg.UsesDisk() ==> r.disk == tiers.disk
    ensures cfg.UsesCache() && cfg.UsesDisk() ==> r.disk == tiers.disk[cfg.cacheKey.value := image]
    ensures !cfg.UsesCache() ==> r == tiers
  {
    if !cfg.UsesCache() then tiers
    else
      var k := cfg.cacheKey.value;
      Cache.Tiers(tiers.memory[k := image], if cfg.UsesDisk() then tiers.disk[k := image] else tiers.disk)
  }

  /** Step 3: the image after the transform block, if there is one (which may return nil). */
  function ApplyTransform(cfg: Config, image: Image): Option<Image>
  {
    if cfg.transform.None? then Some(image) else cfg.transform.value(image, cfg.url)
  }

  /** Steps 3 and 4, and the final completion, once all the data has arrived and decoded to `image`. */
  function Deliver(cfg: Config, image: Image, tiers: Cache.Tiers<Image>, denylist: set<Url>): (r: Outcome)
    ensures r.state == Finished && r.denylist == denylist
    ensures |r.trace| > 0 && r.trace[|r.trace| - 1].IsTerminal()
    ensures forall e :: e in r.trace ==> Phase(e) >= 3
    ensures forall e :: e in r.trace && e.CacheStore? ==> cfg.UsesCache() && e.key == cfg.cacheKey.value
    ensures Transformed in r.trace ==> cfg.transform.Some?
    ensures !cfg.UsesCache() ==> r.tiers == tiers
    ensures cfg.transform.Some? <==> r.trace[0] == Transformed
    ensures var last := r.trace[|r.trace| - 1];
      && last.Completion? && last.from == FromRemote && last.stage == StageFinished
      && last.image == (if cfg.transform.Some? then cfg.transform.value(image, cfg.url) else Some(image))
      && (last.image.Some? <==> last.error.None?)
      && (last.image.None? ==> last.error == Some(TransformFailed) && r.tiers == tiers)
      && (last.image.Some? && cfg.UsesCache() ==>
            |r.trace| >= 2 && r.trace[|r.trace| - 2] == CacheStore(cfg.cacheKey.value)
            && Cache.Get(r.tiers, cfg.cacheKey) == last.image)
    ensures forall j :: cfg.cacheKey != Some(j) ==> Cache.Get(r.tiers, Some(j)) == Cache.Get(tiers, Some(j))
  {
    var applied: seq<Event> := if cfg.transform.None? then [] else [Transformed];
    var out := ApplyTransform(cfg, image);
    if out.None? then
      Outcome(applied + [Completion(None, FromRemote, StageFinished, Some(TransformFailed))], tiers, denylist, Finished, None)
    else
      var stored: seq<Event> := if cfg.UsesCache() then [CacheStore(cfg.cacheKey.value)] else [];
      Outcome(applied + stored + [Completion(out, FromRemote, StageFinished, None)],
              Store(cfg, tiers, out.value), denylist, Finished, None)
  }

  /** What happens after the last chunk: cancellation, failure, or steps 3 and 4. */
  function Ending(cfg: Config, t: Transfer, decode: Decoder, tiers: Cache.Tiers<Image>, denylist: set<Url>): (r: Outcome)
    ensures |r.trace| > 0 && r.trace[|r.trace| - 1].IsTerminal()
    ensures forall e :: e in r.trace ==> Phase(e) >= 3
    ensures forall e :: e in r.trace && e.CacheStore? ==> cfg.UsesCache() && e.key == cfg.cacheKey.value
    ensures Transformed in r.trace ==> cfg.transform.Some?
    ensures r.state == Cancelled ==> r.tiers == tiers && r.trace == [Completion(None, FromNone, StageCancelled, None)]
    ensures !cfg.UsesCache() ==> r.tiers == tiers
    ensures var last := r.trace[|r.trace| - 1];
      && (last.stage == StageCancelled <==> r.state == Cancelled)
      && (last.stage == StageFinished ==> (last.image.Some? <==> last.error.None?))
      && (t.ending.Failed? ==> last == Completion(None, FromNone, StageFinished, Some(NetworkError(t.ending.code))))
      && (t.ending.Completed? && decode(Received(t.chunks)).None? ==>
            last == Completion(None, FromNone, StageFinished, Some(DecodeFailed)))
  {
    match t.ending
    case CancelledDuring =>
      Outcome([Completion(None, FromNone, StageCancelled, None)], tiers, denylist, Cancelled, None)
    case Failed(code) =>
      Outcome([Completion(None, FromNone, StageFinished, Some(NetworkError(code)))], tiers, Deny(cfg, denylist), Finished, None)
    case Completed =>
      match decode(Received(t.chunks))
      case None =>
        Outcome([Completion(None, FromNone, StageFinished, Some(DecodeFailed))], tiers, Deny(cfg, denylist), Finished, None)
      case Some(image) =>
        Deliver(cfg, image, tiers, denylist)
  }

  /** A single event is in step order. */
  lemma SingleInStepOrder(x: Event)
    ensures InStepOrder([x])
  {
  }

  /** Steps 3 and 4 keep their order: transform, store, completion. */
  lemma DeliverInStepOrder(cfg: Config, image: Image, tiers: Cache.Tiers<Image>, denylist: set<Url>)
    ensures InStepOrder(Deliver(cfg, image, tiers, denylist).trace)
  {
    var tr := Deliver(cfg, image, tiers, denylist).trace;
    var out := ApplyTransform(cfg, image);
    if out.None? {
      var last := Completion(None, FromRemote, StageFinished, Some(TransformFailed));
      assert tr == [Transformed, last];
    } else {
      var last := Completion(out, FromRemote, StageFinished, None);
      if cfg.transform.None? && !cfg.UsesCache() {
        assert tr == [last];
      } else if cfg.transform.None? {
        assert tr == [CacheStore(cfg.cacheKey.value), last];
      } else if !cfg.UsesCache() {
        assert tr == [Transformed, last];
      } else {
        assert tr == [Transformed, CacheStore(cfg.cacheKey.value), last];
      }
    }
  }

  lemma EndingInStepOrder(cfg: Config, t: Transfer, decode: Decoder, tiers: Cache.Tiers<Image>, denylist: set<Url>)
    ensures InStepOrder(Ending(cfg, t, decode, tiers, denylist).trace)
  {
    if t.ending.Completed? && decode(Received(t.chunks)).Some? {
      DeliverInStepOrder(cfg, decode(Received(t.chunks)).value, tiers, denylist);
    }
  }

  /** The cache lookup event, when the run reads the cache. */
  function LookupEvents(cfg: Config): (r: seq<Event>)
    ensures forall e :: e in r ==> cfg.ReadsCache() && e == CacheLookup(cfg.cacheKey.value)
    ensures cfg.ReadsCache() ==> r == [CacheLookup(cfg.cacheKey.value)]
  {
    if cfg.ReadsCache() then [CacheLookup(cfg.cacheKey.value)] else []
  }

  /** The transfer: its start, then the calls made while the chunks arrive. */
  function TransferPart(cfg: Config, t: Transfer, decode: Decoder): (r: seq<Event>)
    ensures |r| > 0 && r[0] == TransferStart
    ensures forall e :: e in r[1..] ==> DuringTransfer(e, IsProgressive(cfg.options))
    ensures forall e :: e in r ==> e == TransferStart || DuringTransfer(e, IsProgressive(cfg.options))
  {
    [TransferStart] + TransferEvents(t.chunks, t.expectedSize, IsProgressive(cfg.options), decode)
  }

  /** The cache lookup finds the image: in the memory tier, or in the disk tier when that is used. */
  predicate CacheHit(cfg: Config, tiers: Cache.Tiers<Image>)
  {
    cfg.ReadsCache() && (cfg.cacheKey.value in tiers.memory || (cfg.UsesDisk() && cfg.cacheKey.value in tiers.disk))
  }

  /** The URL failed before and `IgnoreFailedURL` is set. */
  predicate Denied(cfg: Config, denylist: set<Url>)
  {
    Has(cfg.options, OptionIgnoreFailedURL) && cfg.url in denylist
  }

  /**
   * The whole run of `start`, from the cache tiers and the set of failed URLs
   * it finds, a cancellation that arrived before it, and what the network does.
   */
  function Run(cfg: Config, cancelled: bool, tiers: Cache.Tiers<Image>, denylist: set<Url>, t: Transfer, decode: Decoder)
    : (o: Outcome)
    ensures |o.trace| > 0 && o.trace[|o.trace| - 1].IsTerminal()
    ensures var last := o.trace[|o.trace| - 1];
      && (last.stage == StageCancelled <==> o.state == Cancelled)
      && (last.stage == StageFinished ==> (last.image.Some? <==> last.error.None?))
    ensures o.state == Cancelled <==> cancelled || (!CacheHit(cfg, tiers) && !Denied(cfg, denylist) && t.ending.CancelledDuring?)
    ensures o.response.Some? <==> !cancelled && !CacheHit(cfg, tiers) && !Denied(cfg, denylist)
    ensures o.denylist == denylist || (Has(cfg.options, OptionIgnoreFailedURL) && o.denylist == denylist + {cfg.url})
  {
    if cancelled then
      Outcome([Completion(None, FromNone, StageCancelled, None)], tiers, denylist, Cancelled, None)
    else if CacheHit(cfg, tiers) then
      var k := cfg.cacheKey.value;
      var from := if k in tiers.memory then FromMemoryCache else FromDiskCache;
      Outcome([CacheLookup(k), Completion(Cache.Get(tiers, cfg.cacheKey), from, StageFinished, None)],
              Cache.Promote(tiers, cfg.cacheKey), denylist, Finished, None)
    else if Denied(cfg, denylist) then
      Outcome(LookupEvents(cfg) + [Completion(None, FromNone, StageFinished, Some(URLDenylisted))], tiers, denylist, Finished, None)
    else
      var e := Ending(cfg, t, decode, tiers, denylist);
      Outcome(LookupEvents(cfg) + TransferPart(cfg, t, decode) + e.trace, e.tiers, e.denylist, e.state,
              Some(Response(t.expectedSize)))
  }

  /** The trace of a run that gets as far as the transfer. */
  lemma RunTransferShape(cfg: Config, tiers: Cache.Tiers<Image>, denylist: set<Url>, t: Transfer, decode: Decoder)
    requires !CacheHit(cfg, tiers) && !Denied(cfg, denylist)
    ensures var o := Run(cfg, false, tiers, denylist, t, decode);
      var e := Ending(cfg, t, decode, tiers, denylist);
      && o.trace == LookupEvents(cfg) + TransferPart(cfg, t, decode) + e.trace
      && o.tiers == e.tiers && o.state == e.state
  {
  }

  // ---------------------------------------------------------------------------
  // Ordering of the trace

  /** The step an event belongs to: lookup, transfer start, transfer, transform, store, end. */
  function Phase(e: Event): nat
  {
    match e
    case CacheLookup(_) => 0
    case TransferStart => 1
    case ProgressCall(_, _) => 2
    case Transformed => 3
    case CacheStore(_) => 4
    case Completion(_, _, stage, _) => if stage == StageProgress then 2 else 5
  }

  /** Events come in step order, and every step but the transfer occurs at most once. */
  predicate InStepOrder(tr: seq<Event>)
  {
    forall i, j :: 0 <= i < j < |tr| ==> Phase(tr[i]) < Phase(tr[j]) || Phase(tr[i]) == Phase(tr[j]) == 2
  }

  /** Every event of `a` belongs to an earlier step than every event of `b`, or both to the transfer. */
  predicate PhasesBefore(a: seq<Event>, b: seq<Event>)
  {
    forall x, y :: x in a && y in b ==> Phase(x) < Phase(y) || Phase(x) == Phase(y) == 2
  }

  lemma {:induction false} ConcatInStepOrder(a: seq<Event>, b: seq<Event>)
    requires InStepOrder(a) && InStepOrder(b) && PhasesBefore(a, b)
    ensures InStepOrder(a + b)
  {
    forall i, j | 0 <= i < j < |a + b|
      ensures Phase((a + b)[i]) < Phase((a + b)[j]) || Phase((a + b)[i]) == Phase((a + b)[j]) == 2
    {
      if j < |a| {
        assert (a + b)[i] == a[i] && (a + b)[j] == a[j];
      } else if i >= |a| {
        assert (a + b)[i] == b[i - |a|] && (a + b)[j] == b[j - |a|];
      } else {
        assert (a + b)[i] in a && (a + b)[j] in b;
      }
    }
  }

  /** Events that all belong to the transfer are in step order. */
  lemma TransferOnlyInStepOrder(tr: seq<Event>)
    requires forall x :: x in tr ==> Phase(x) == 2
    ensures InStepOrder(tr)
  {
    forall i, j | 0 <= i < j < |tr|
      ensures Phase(tr[i]) == Phase(tr[j]) == 2
    {
      assert tr[i] in tr && tr[j] in tr;
    }
  }

  /** The transfer starts, then only its progress calls and partial images follow. */
  lemma TransferPartInStepOrder(cfg: Config, t: Transfer, decode: Decoder)
    ensures InStepOrder(TransferPart(cfg, t, decode))
    ensures forall x :: x in TransferPart(cfg, t, decode) ==> 1 <= Phase(x) <= 2
  {
    var transfer := TransferPart(cfg, t, decode);
    var rest := transfer[1..];
    assert transfer == [TransferStart] + rest;
    assert forall x :: x in rest ==> Phase(x) == 2;
    TransferOnlyInStepOrder(rest);
    SingleInStepOrder(TransferStart);
    ConcatInStepOrder([TransferStart], rest);
  }

  /** The steps up to the end of the transfer, followed by the ending, are in order. */
  lemma TransferRunInStepOrder(cfg: Config, t: Transfer, decode: Decoder, tiers: Cache.Tiers<Image>, denylist: set<Url>)
    ensures var tr := LookupEvents(cfg) + TransferPart(cfg, t, decode) + Ending(cfg, t, decode, tiers, denylist).trace;
      InStepOrder(tr) && |tr| > 0 && tr[|tr| - 1].IsTerminal()
  {
    var lookup := LookupEvents(cfg);
    var transfer := TransferPart(cfg, t, decode);
    var ending := Ending(cfg, t, decode, tiers, denylist).trace;
    TransferPartInStepOrder(cfg, t, decode);
    EndingInStepOrder(cfg, t, decode, tiers, denylist);
    assert InStepOrder(lookup);
    ConcatInStepOrder(lookup, transfer);
    assert forall x :: x in lookup + transfer ==> Phase(x) <= 2;
    ConcatInStepOrder(lookup + transfer, ending);
  }

  /** A denied run: at most the lookup, then the error completion. */
  lemma DeniedInStepOrder(cfg: Config)
    ensures InStepOrder(LookupEvents(cfg) + [Completion(None, FromNone, StageFinished, Some(URLDenylisted))])
  {
    var last := Completion(None, FromNone, StageFinished, Some(URLDenylisted));
    SingleInStepOrder(last);
    ConcatInStepOrder(LookupEvents(cfg), [last]);
  }

  /**
   * Every run ends with one completion at stage Finished or Cancelled, and
   * before it the events follow the documented steps in order.
   */
  lemma RunInStepOrder(cfg: Config, cancelled: bool, tiers: Cache.Tiers<Image>, denylist: set<Url>, t: Transfer, decode: Decoder)
    ensures var o := Run(cfg, cancelled, tiers, denylist, t, decode);
      && InStepOrder(o.trace) && |o.trace| > 0 && o.trace[|o.trace| - 1].IsTerminal()
  {
    if cancelled || CacheHit(cfg, tiers) {
    } else if Denied(cfg, denylist) {
      DeniedInStepOrder(cfg);
    } else {
      RunTransferShape(cfg, tiers, denylist, t, decode);
      TransferRunInStepOrder(cfg, t, decode, tiers, denylist);
    }
  }

  /** Two events of an ordered trace, the earlier first. */
  lemma OrderAt(tr: seq<Event>, i: nat, j: nat)
    requires InStepOrder(tr) && i < j < |tr|
    ensures Phase(tr[i]) < Phase(tr[j]) || Phase(tr[i]) == Phase(tr[j]) == 2
  {
  }

  /** The terminal completion is the last event, and the only terminal one. */
  lemma TerminalCompletionIsLast(cfg: Config, cancelled: bool, tiers: Cache.Tiers<Image>, denylist: set<Url>, t: Transfer, decode: Decoder)
    ensures var tr := Run(cfg, cancelled, tiers, denylist, t, decode).trace;
      && |tr| > 0 && tr[|tr| - 1].Completion?
      && tr[|tr| - 1].stage in {StageFinished, StageCancelled}
      && forall i :: 0 <= i < |tr| - 1 ==> !tr[i].IsTerminal()
  {
    RunInStepOrder(cfg, cancelled, tiers, denylist, t, decode);
    var tr := Run(cfg, cancelled, tiers, denylist, t, decode).trace;
    forall i | 0 <= i < |tr| - 1
      ensures !tr[i].IsTerminal()
    {
      OrderAt(tr, i, |tr| - 1);
    }
  }

  /**
   * Progress calls come after the transfer starts and before the transform,
   * the store and the end; the transform comes before the store; the store
   * comes before the end; a cache lookup can only be the first event.
   */
  lemma StepsInOrder(cfg: Config, cancelled: bool, tiers: Cache.Tiers<Image>, denylist: set<Url>, t: Transfer, decode: Decoder, i: nat, j: nat)
    requires i < |Run(cfg, cancelled, tiers, denylist, t, decode).trace|
    requires j < |Run(cfg, cancelled, tiers, denylist, t, decode).trace|
    ensures var tr := Run(cfg, cancelled, tiers, denylist, t, decode).trace;
      && (tr[i].ProgressCall? && (tr[j].Transformed? || tr[j].CacheStore? || tr[j].IsTerminal()) ==> i < j)
      && (tr[i] == TransferStart && (tr[j].ProgressCall? || tr[j].Transformed?) ==> i < j)
      && (tr[i].Transformed? && tr[j].CacheStore? ==> i < j)
      && (tr[i].CacheStore? && tr[j].IsTerminal() ==> i < j)
      && (tr[i].CacheLookup? ==> i == 0)
  {
    RunInStepOrder(cfg, cancelled, tiers, denylist, t, decode);
    var tr := Run(cfg, cancelled, tiers, denylist, t, decode).trace;
    if j < i {
      OrderAt(tr, j, i);
    }
    if 0 < i {
      OrderAt(tr, 0, i);
    }
  }

  /** On a cache hit the image is returned at once: no transfer, and no key changes its object. */
  lemma CacheHitShortCircuits(cfg: Config, tiers: Cache.Tiers<Image>, denylist: set<Url>, t: Transfer, decode: Decoder)
    requires CacheHit(cfg, tiers)
    ensures var o := Run(cfg, false, tiers, denylist, t, decode);
      var k := cfg.cacheKey.value;
      && o.trace == [CacheLookup(k),
                     Completion(Some(tiers.View()[k]), if k in tiers.memory then FromMemoryCache else FromDiskCache, StageFinished, None)]
      && TransferStart !in o.trace
      && o.response.None?
      && o.tiers.View() == tiers.View() && k in o.tiers.memory
  {
  }

  /** A run that reads the cache does so before anything else. */
  lemma LookupComesFirst(cfg: Config, tiers: Cache.Tiers<Image>, denylist: set<Url>, t: Transfer, decode: Decoder)
    requires cfg.ReadsCache()
    ensures Run(cfg, false, tiers, denylist, t, decode).trace[0] == CacheLookup(cfg.cacheKey.value)
  {
    if !CacheHit(cfg, tiers) && !Denied(cfg, denylist) {
      RunTransferShape(cfg, tiers, denylist, t, decode);
    }
  }

  /**
   * Progress calls and partial images occur only in a run that transferred, and
   * the transform is applied only when there is one and after a transfer.
   */
  lemma TransferBeforeProgressAndTransform(cfg: Config, cancelled: bool, tiers: Cache.Tiers<Image>, denylist: set<Url>, t: Transfer, decode: Decoder)
    ensures var tr := Run(cfg, cancelled, tiers, denylist, t, decode).trace;
      && (forall e :: e in tr && Phase(e) == 2 ==> TransferStart in tr)
      && (Transformed in tr ==> cfg.transform.Some? && TransferStart in tr)
  {
    if !cancelled && !CacheHit(cfg, tiers) && !Denied(cfg, denylist) {
      RunTransferShape(cfg, tiers, denylist, t, decode);
      var lookup := LookupEvents(cfg);
      var transfer := TransferPart(cfg, t, decode);
      var ending := Ending(cfg, t, decode, tiers, denylist).trace;
      assert TransferStart in lookup + transfer + ending by {
        assert transfer[0] == TransferStart;
        assert (lookup + transfer + ending)[|lookup|] == TransferStart;
      }
      assert Transformed in lookup + transfer + ending ==> Transformed in ending by {
        assert Transformed !in lookup && Transformed !in transfer;
      }
    }
  }

  /** A partial image (stage Progress) is delivered only with a progressive option, and only from the transfer. */
  lemma PartialImageOnlyWhenProgressive(cfg: Config, cancelled: bool, tiers: Cache.Tiers<Image>, denylist: set<Url>, t: Transfer, decode: Decoder)
    ensures forall e :: (e in Run(cfg, cancelled, tiers, denylist, t, decode).trace && e.Completion? && e.stage == StageProgress
      ==> IsProgressive(cfg.options) && e.from == FromRemote && e.image.Some?)
  {
    if !cancelled && !CacheHit(cfg, tiers) && !Denied(cfg, denylist) {
      RunTransferShape(cfg, tiers, denylist, t, decode);
      var lookup := LookupEvents(cfg);
      var transfer := TransferPart(cfg, t, decode);
      var ending := Ending(cfg, t, decode, tiers, denylist).trace;
      forall e: Event | e in lookup + transfer + ending && e.Completion? && e.stage == StageProgress
        ensures IsProgressive(cfg.options) && e.from == FromRemote && e.image.Some?
      {
        assert e in transfer by {
          assert Phase(e) == 2;
          assert e in lookup || e in transfer || e in ending;
        }
      }
    }
  }

  /** Without a cache, without a key, or with `UseNSURLCache`, the image cache is neither read nor written. */
  lemma NoCacheNoAccess(cfg: Config, cancelled: bool, tiers: Cache.Tiers<Image>, denylist: set<Url>, t: Transfer, decode: Decoder)
    requires !cfg.UsesCache()
    ensures var o := Run(cfg, cancelled, tiers, denylist, t, decode);
      && o.tiers == tiers
      && forall e :: e in o.trace ==> !e.CacheLookup? && !e.CacheStore?
  {
    if !cancelled && !Denied(cfg, denylist) {
      RunTransferShape(cfg, tiers, denylist, t, decode);
    }
  }

  /** After the transfer, a store is followed only by the completion that hands over the stored image. */
  lemma EndingStoreThenComplete(cfg: Config, t: Transfer, decode: Decoder, tiers: Cache.Tiers<Image>, denylist: set<Url>)
    ensures var r := Ending(cfg, t, decode, tiers, denylist);
      var last := r.trace[|r.trace| - 1];
      (exists e :: e in r.trace && e.CacheStore?) ==>
      && t.ending.Completed? && cfg.UsesCache()
      && |r.trace| >= 2 && r.trace[|r.trace| - 2] == CacheStore(cfg.cacheKey.value)
      && last.Completion? && last.image.Some? && last.from == FromRemote
      && last.stage == StageFinished && last.error.None?
      && Cache.Get(r.tiers, cfg.cacheKey) == last.image
  {
  }

  /** The last two elements of a concatenation come from its second part when that has two. */
  lemma ConcatTail<T>(a: seq<T>, b: seq<T>)
    requires |b| >= 2
    ensures (a + b)[|a + b| - 1] == b[|b| - 1] && (a + b)[|a + b| - 2] == b[|b| - 2]
  {
  }

  /** Nothing before the end of the transfer is a store. */
  lemma NoStoreBeforeEnding(cfg: Config, t: Transfer, decode: Decoder)
    ensures forall x :: x in LookupEvents(cfg) + TransferPart(cfg, t, decode) ==> !x.CacheStore?
  {
  }

  /** A store happens only in a run that reached the end of a completed transfer and uses the cache. */
  lemma StoreOnlyAfterCompletedTransfer(cfg: Config, cancelled: bool, tiers: Cache.Tiers<Image>, denylist: set<Url>, t: Transfer, decode: Decoder)
    ensures var o := Run(cfg, cancelled, tiers, denylist, t, decode);
      (exists e :: e in o.trace && e.CacheStore?) ==>
      && cfg.UsesCache() && o.response.Some? && t.ending.Completed?
  {
    if !cancelled && !CacheHit(cfg, tiers) && !Denied(cfg, denylist) {
      RunTransferShape(cfg, tiers, denylist, t, decode);
      NoStoreBeforeEnding(cfg, t, decode);
      EndingStoreThenComplete(cfg, t, decode, tiers, denylist);
    }
  }

  /**
   * A store is made under the cache key just before the final completion,
   * which hands over the image that was stored.
   */
  lemma StoreBeforeFinalCompletion(cfg: Config, cancelled: bool, tiers: Cache.Tiers<Image>, denylist: set<Url>, t: Transfer, decode: Decoder)
    ensures var o := Run(cfg, cancelled, tiers, denylist, t, decode);
      var last := o.trace[|o.trace| - 1];
      (exists e :: e in o.trace && e.CacheStore?) ==>
      && |o.trace| >= 2 && o.trace[|o.trace| - 2] == CacheStore(cfg.cacheKey.value)
      && last.Completion? && last.image.Some? && last.from == FromRemote
      && last.stage == StageFinished && last.error.None?
      && Cache.Get(o.tiers, cfg.cacheKey) == last.image
  {
    if !cancelled && !CacheHit(cfg, tiers) && !Denied(cfg, denylist) {
      RunTransferShape(cfg, tiers, denylist, t, decode);
      var prefix := LookupEvents(cfg) + TransferPart(cfg, t, decode);
      var e := Ending(cfg, t, decode, tiers, denylist);
      NoStoreBeforeEnding(cfg, t, decode);
      EndingStoreThenComplete(cfg, t, decode, tiers, denylist);
      if |e.trace| >= 2 {
        ConcatTail(prefix, e.trace);
      }
    }
  }

  /**
   * A download that completes and decodes is handed over after the transform
   * (when there is one) and, when the image cache is used and the transform
   * gave an image, stored under the cache key first.
   */
  lemma DecodedDownloadIsDelivered(cfg: Config, tiers: Cache.Tiers<Image>, denylist: set<Url>, t: Transfer, decode: Decoder)
    requires !CacheHit(cfg, tiers) && !Denied(cfg, denylist)
    requires t.ending.Completed? && decode(Received(t.chunks)).Some?
    ensures var o := Run(cfg, false, tiers, denylist, t, decode);
      var image := decode(Received(t.chunks)).value;
      var last := o.trace[|o.trace| - 1];
      && last.Completion? && last.from == FromRemote && last.stage == StageFinished
      && last.image == (if cfg.transform.Some? then cfg.transform.value(image, cfg.url) else Some(image))
      && (cfg.transform.Some? ==> Transformed in o.trace)
      && (last.image.Some? && cfg.UsesCache() ==>
            o.trace[|o.trace| - 2] == CacheStore(cfg.cacheKey.value) && Cache.Get(o.tiers, cfg.cacheKey) == last.image)
  {
    RunTransferShape(cfg, tiers, denylist, t, decode);
    var prefix := LookupEvents(cfg) + TransferPart(cfg, t, decode);
    var d := Deliver(cfg, decode(Received(t.chunks)).value, tiers, denylist);
    assert Transformed in d.trace <== cfg.transform.Some?;
    if |d.trace| >= 2 {
      ConcatTail(prefix, d.trace);
    }
  }

  /**
   * Under the image cache, a run that ends with an image from the network
   * leaves that image in the memory tier under the key, and the next run that
   * reads the cache is served from memory without a transfer.
   */
  lemma FinishedDownloadIsCached(cfg: Config, tiers: Cache.Tiers<Image>, denylist: set<Url>, t: Transfer, t2: Transfer, decode: Decoder)
    requires cfg.UsesCache()
    ensures var o := Run(cfg, false, tiers, denylist, t, decode);
      var last := o.trace[|o.trace| - 1];
      last.Completion? && last.from == FromRemote && last.stage == StageFinished && last.error.None? ==>
      && last.image.Some?
      && cfg.cacheKey.value in o.tiers.memory && o.tiers.memory[cfg.cacheKey.value] == last.image.value
      && (cfg.ReadsCache() ==>
            Run(cfg, false, o.tiers, o.denylist, t2, decode).trace
              == [CacheLookup(cfg.cacheKey.value), Completion(last.image, FromMemoryCache, StageFinished, None)])
  {
    if !CacheHit(cfg, tiers) && !Denied(cfg, denylist) {
      RunTransferShape(cfg, tiers, denylist, t, decode);
    }
  }

  /** A run that ends cancelled leaves the cache as it was and stores nothing. */
  lemma CancelledRunStoresNothing(cfg: Config, cancelled: bool, tiers: Cache.Tiers<Image>, denylist: set<Url>, t: Transfer, decode: Decoder)
    ensures var o := Run(cfg, cancelled, tiers, denylist, t, decode);
      o.state == Cancelled ==>
      && (cancelled || t.ending.CancelledDuring?)
      && o.tiers == tiers
      && o.trace[|o.trace| - 1] == Completion(None, FromNone, StageCancelled, None)
      && forall e :: e in o.trace ==> !e.CacheStore? && !e.Transformed?
  {
    if !cancelled && !CacheHit(cfg, tiers) && !Denied(cfg, denylist) {
      RunTransferShape(cfg, tiers, denylist, t, decode);
    }
  }

  /**
   * With `IgnoreFailedURL`, a download that fails or does not decode puts the
   * URL on the list, and a later request for it fails at once, without a transfer.
   */
  lemma FailedURLIsDenylisted(cfg: Config, tiers: Cache.Tiers<Image>, denylist: set<Url>, t: Transfer, t2: Transfer, decode: Decoder)
    requires Has(cfg.options, OptionIgnoreFailedURL)
    requires !CacheHit(cfg, tiers)
    requires t.ending.Failed? || (t.ending.Completed? && decode(Received(t.chunks)).None?)
    ensures var o := Run(cfg, false, tiers, denylist, t, decode);
      && cfg.url in o.denylist && o.tiers == tiers
      && var o2 := Run(cfg, false, o.tiers, o.denylist, t2, decode);
      && o2.trace == LookupEvents(cfg) + [Completion(None, FromNone, StageFinished, Some(URLDenylisted))]
      && o2.response.None? && o2.tiers == tiers && o2.denylist == o.denylist
  {
  }
  /**
   * A fetch that fails, or whose data does not decode, ends Finished (not
   * Cancelled) with no image and the error of the fetch.
   */
  lemma FailedFetchReportsError(cfg: Config, tiers: Cache.Tiers<Image>, denylist: set<Url>, t: Transfer, decode: Decoder)
    requires !CacheHit(cfg, tiers) && !Denied(cfg, denylist)
    ensures var o := Run(cfg, false, tiers, denylist, t, decode);
      var last := o.trace[|o.trace| - 1];
      && (t.ending.Failed? ==>
            last == Completion(None, FromNone, StageFinished, Some(NetworkError(t.ending.code))) && o.state == Finished)
      && (t.ending.Completed? && decode(Received(t.chunks)).None? ==>
            last == Completion(None, FromNone, StageFinished, Some(DecodeFailed)) && o.state == Finished)
      && (t.ending.Failed? || (t.ending.Completed? && decode(Received(t.chunks)).None?) ==> o.tiers == tiers)
  {
    RunTransferShape(cfg, tiers, denylist, t, decode);
  }


  /** Without `IgnoreFailedURL` the list of failed URLs is never changed. */
  lemma DenylistOnlyWithOption(cfg: Config, cancelled: bool, tiers: Cache.Tiers<Image>, denylist: set<Url>, t: Transfer, decode: Decoder)
    requires !Has(cfg.options, OptionIgnoreFailedURL)
    ensures Run(cfg, cancelled, tiers, denylist, t, decode).denylist == denylist
  {
  }

  /** The contents of an image cache, two empty tiers when there is none. */
  function TiersOf(cache: Cache.YYCache?<Image>): Cache.Tiers<Image>
    reads cache
  {
    if cache == null then Cache.Tiers(map[], map[]) else cache.Snapshot()
  }

  /** The in-memory list of URLs that failed to download. */
  class FailedURLList {
    var urls: set<Url>

    constructor ()
      ensures urls == {}
    {
      urls := {};
    }
  }

  class YYWebImageOperation {
    const request: Request
    const options: Options
    const cache: Cache.YYCache?<Image>
    const cacheKey: Option<string>
    const transform: Option<Transform>
    /** Whether the connection consults the credential storage. */
    var shouldUseCredentialStorage: bool
    var credential: Option<Credential>
    var response: Option<Response>
    var state: OperationState
    var cancelRequested: bool
    /** The calls the operation has made to its blocks, and its cache accesses, in order. */
    var trace: seq<Event>

    function Cfg(): Config
      reads this
    {
      Config(request.url, options, cache != null, cacheKey, transform)
    }

    /** The designated initializer. */
    constructor (request: Request, options: Options, cache: Cache.YYCache?<Image>, cacheKey: Option<string>,
                 transform: Option<Transform>)
      ensures this.request == request && this.options == options && this.cache == cache
      ensures this.cacheKey == cacheKey && this.transform == transform
      ensures shouldUseCredentialStorage
      ensures credential.None? && response.None?
      ensures state == Ready && !cancelRequested && trace == []
    {
      this.request := request;
      this.options := options;
      this.cache := cache;
      this.cacheKey := cacheKey;
      this.transform := transform;
      shouldUseCredentialStorage := true;
      credential := None;
      response := None;
      state := Ready;
      cancelRequested := false;
      trace := [];
    }

    /** `cancel`: takes effect only on an operation that has not run yet. */
    method Cancel()
      modifies this`cancelRequested
      ensures cancelRequested == (old(cancelRequested) || state == Ready)
    {
      if state == Ready {
        cancelRequested := true;
      }
    }

    /**
     * `start`: runs the four steps. `transfer` is what the network does,
     * `decode` the image codec, `failed` the list of failed URLs.
     */
    method Start(transfer: Transfer, decode: Decoder, failed: FailedURLList)
      requires state == Ready && trace == [] && response.None?
      modifies this`trace, this`state, this`response, cache, failed
      ensures var o := Run(Cfg(), cancelRequested, old(TiersOf(cache)), old(failed.urls), transfer, decode);
        && trace == o.trace && state == o.state && response == o.response
        && failed.urls == o.denylist && TiersOf(cache) == o.tiers
    {
      var cfg := Cfg();
      if cancelRequested {
        trace := [Completion(None, FromNone, StageCancelled, None)];
        state := Cancelled;
        return;
      }
      // Step 1: the cache lookup.
      if cfg.ReadsCache() {
        var key := cacheKey.value;
        if key in cache.memoryCache || (cfg.UsesDisk() && key in cache.diskCache) {
          var from := if key in cache.memoryCache then FromMemoryCache else FromDiskCache;
          var found := cache.ObjectForKey(cacheKey);
          trace := [CacheLookup(key), Completion(found, from, StageFinished, None)];
          state := Finished;
          return;
        }
        trace := [CacheLookup(key)];
      }
      if Has(options, OptionIgnoreFailedURL) && request.url in failed.urls {
        trace := trace + [Completion(None, FromNone, StageFinished, Some(URLDenylisted))];
        state := Finished;
        return;
      }
      RunTransferShape(cfg, TiersOf(cache), failed.urls, transfer, decode);
      Fetch(transfer, decode, failed);
    }

    /** Step 2 onwards, when the cache did not have the image and the URL is not on the failed list. */
    method Fetch(transfer: Transfer, decode: Decoder, failed: FailedURLList)
      modifies this`trace, this`state, this`response, cache, failed
      ensures var e := Ending(Cfg(), transfer, decode, old(TiersOf(cache)), old(failed.urls));
        && trace == old(trace) + TransferPart(Cfg(), transfer, decode) + e.trace
        && state == e.state && response == Some(Response(transfer.expectedSize))
        && failed.urls == e.denylist && TiersOf(cache) == e.tiers
    {
      response := Some(Response(transfer.expectedSize));
      ghost var before := trace;
      ghost var cfg := Cfg();
      trace := trace + [TransferStart];
      var data := Download(transfer, decode);
      ghost var transferred := trace;
      assert transferred == before + TransferPart(cfg, transfer, decode);
      Conclude(transfer, data, decode, failed);
      assert trace == transferred + Ending(cfg, transfer, decode, old(TiersOf(cache)), old(failed.urls)).trace;
    }

    /** Step 2 as the data comes in: a progress call per chunk, and the partial image when progressive. */
    method Download(transfer: Transfer, decode: Decoder) returns (data: seq<bv8>)
      modifies this`trace
      ensures data == Received(transfer.chunks)
      ensures trace == old(trace) + TransferEvents(transfer.chunks, transfer.expectedSize, IsProgressive(options), decode)
    {
      var progressive := IsProgressive(options);
      var chunks, expected := transfer.chunks, transfer.expectedSize;
      ghost var start := trace;
      data := [];
      var i := 0;
      while i < |chunks|
        modifies this`trace
        invariant 0 <= i <= |chunks|
        invariant data == Received(chunks[..i])
        invariant trace == start + TransferEvents(chunks[..i], expected, progressive, decode)
      {
        TransferStep(chunks, i, expected, progressive, decode);
        data := data + chunks[i];
        var calls := [ProgressCall(|data|, expected)];
        if progressive {
          var partial := decode(data);
          if partial.Some? {
            calls := calls + [Completion(partial, FromRemote, StageProgress, None)];
          }
        }
        assert calls == ChunkEvents(data, expected, progressive, decode);
        trace := trace + calls;
        i := i + 1;
      }
      assert chunks[..i] == chunks;
    }

    /** The end of the transfer: cancelled, failed, undecodable, or on to steps 3 and 4. */
    method Conclude(transfer: Transfer, data: seq<bv8>, decode: Decoder, failed: FailedURLList)
      requires data == Received(transfer.chunks)
      modifies this`trace, this`state, cache, failed
      ensures var e := Ending(Cfg(), transfer, decode, old(TiersOf(cache)), old(failed.urls));
        && trace == old(trace) + e.trace && state == e.state
        && failed.urls == e.denylist && TiersOf(cache) == e.tiers
    {
      match transfer.ending {
        case CancelledDuring =>
          trace := trace + [Completion(None, FromNone, StageCancelled, None)];
          state := Cancelled;
        case Failed(code) =>
          if Has(options, OptionIgnoreFailedURL) {
            failed.urls := failed.urls + {request.url};
          }
          trace := trace + [Completion(None, FromNone, StageFinished, Some(NetworkError(code)))];
          state := Finished;
        case Completed =>
          var image := decode(data);
          if image.None? {
            if Has(options, OptionIgnoreFailedURL) {
              failed.urls := failed.urls + {request.url};
            }
            trace := trace + [Completion(None, FromNone, StageFinished, Some(DecodeFailed))];
            state := Finished;
          } else {
            DeliverImage(image.value);
          }
      }
    }

    /** Steps 3 and 4: the transform, the store into the cache, and the final completion. */
    method DeliverImage(image: Image)
      modifies this`trace, this`state, cache
      ensures var d := Deliver(Cfg(), image, old(TiersOf(cache)), {});
        && trace == old(trace) + d.trace && state == d.state && TiersOf(cache) == d.tiers
    {
      var result := image;
      if transform.Some? {
        var out := transform.value(image, request.url);
        trace := trace + [Transformed];
        if out.None? {
          trace := trace + [Completion(None, FromRemote, StageFinished, Some(TransformFailed))];
          state := Finished;
          return;
        }
        result := out.value;
      }
      if Cfg().UsesCache() {
        var key := cacheKey.value;
        trace := trace + [CacheStore(key)];
        cache.memoryCache := cache.memoryCache[key := result];
        if Cfg().UsesDisk() {
          cache.diskCache := cache.diskCache[key := result];
        }
      }
      trace := trace + [Completion(Some(result), FromRemote, StageFinished, None)];
      state := Finished;
    }
  }
}
