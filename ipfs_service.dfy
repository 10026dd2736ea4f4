/** The media service: like the validating service it keeps a cache and
    tries every gateway in turn, but it does not validate the payload; it
    caches the raw JSON as soon as it has parsed it, then confirms that the
    video the payload's `image` names is reachable through the same gateway,
    and returns the payload with the video response URL. */
module IpfsService {
  import opened Wrappers
  import opened Js
  import opened Batching
  import opened IpfsUtils

  const InvalidUriMessage: string := "Invalid IPFS URI: must start with ipfs://"
  const BadTokenIdMessage: string := "Token ID must be a non-negative integer"
  const NotAFunctionMessage: string := "uri.replace is not a function"

  /** `NftMetadataWithVideo`: the payload as parsed and the video URL. On a
      cache hit the URL is the payload's raw `image` member, whatever it is. */
  datatype WithVideo = WithVideo(nftMetadata: Json, videoUrl: Json)

  /** What one gateway attempt produced: its outcome, and the payload it
      parsed (and so cached) on the way, if it got that far. */
  datatype Attempt = Attempt(result: Result<WithVideo>, parsed: Option<Json>)

  /** `extractCidFromUri(jsonData.image)` on an unvalidated payload. */
  function VideoCid(json: Json): Result<string>
  {
    if json.JNull? || json.JUndefined? then Err(NullReadMessage(json, "image"))
    else
      var image := json.Member("image");
      if image.JNull? || image.JUndefined? then Err(NullReadMessage(image, "replace"))
      else if !image.JString? then Err(NotAFunctionMessage)
      else Ok(ExtractCid(image.s))
  }

  /** The video step of attempt `i`, on the same gateway. */
  function VideoStep(json: Json, i: nat, host: Host): Result<WithVideo>
  {
    match VideoCid(json)
    case Err(m) => Err(m)
    case Ok(cid) =>
      match host.media(GetIpfsUrl(cid, i))
      case NetworkFailure(t) => Err(ErrorMessage(t))
      case Aborted(m) => Err(m)
      case Response(status, _, url, _) =>
        if !IsOk(status) then Err("Video HTTP " + Decimal(status))
        else Ok(WithVideo(json, JString(url)))
  }

  function GatewayAttempt(uri: string, i: nat, host: Host): Attempt
  {
    match host.metadata(GetIpfsUrl(ExtractCid(uri), i))
    case NetworkFailure(t) => Attempt(Err(ErrorMessage(t)), None)
    case Aborted(m) => Attempt(Err(m), None)
    case Response(status, _, _, body) =>
      if !IsOk(status) then Attempt(Err("HTTP " + Decimal(status)), None)
      else
        match body
        case Unparsable(m) => Attempt(Err(m), None)
        case Parsed(json) => Attempt(VideoStep(json, i, host), Some(json))
  }

  function GatewayFailure(i: nat, message: string): string
  {
    "Gateway " + Decimal(i + 1) + " failed: " + message
  }

  const AllFailedPrefix: string := "Failed to fetch metadata/video from all gateways. Last error: "

  /** `${lastError?.message}`: "undefined" when no attempt was made. */
  function AllFailedMessage(lastError: Option<string>): string
  {
    AllFailedPrefix
      + (if lastError.Some? then lastError.value else "undefined")
  }

  /** The loop's outcome and the last payload it parsed. */
  datatype Tried = Tried(result: Result<WithVideo>, lastParsed: Option<Json>)

  /** What each gateway would answer, in gateway order. */
  function Attempts(uri: string, host: Host): (r: seq<Attempt>)
    ensures |r| == |Gateways| && forall i :: 0 <= i < |r| ==> r[i] == GatewayAttempt(uri, i, host)
  {
    seq(|Gateways|, i requires 0 <= i < |Gateways| => GatewayAttempt(uri, i, host))
  }

  /** The gateway loop from attempt `from` on: stop at the first success,
      otherwise remember the failure and the last parsed payload. */
  function TryFrom(attempts: seq<Attempt>, from: nat, lastError: Option<string>, lastParsed: Option<Json>): Tried
    decreases |attempts| - from
  {
    if from >= |attempts| then Tried(Err(AllFailedMessage(lastError)), lastParsed)
    else
      var a := attempts[from];
      var parsed := if a.parsed.Some? then a.parsed else lastParsed;
      match a.result
      case Ok(v) => Tried(Ok(v), parsed)
      case Err(e) => TryFrom(attempts, from + 1, Some(GatewayFailure(from, e)), parsed)
  }

  /** The loop over this service's gateway answers. */
  function TryGateways(uri: string, from: nat, host: Host, lastError: Option<string>, lastParsed: Option<Json>): Tried
  {
    TryFrom(Attempts(uri, host), from, lastError, lastParsed)
  }

  /** The cache-hit answer: the stored payload and its `image` member. */
  function FromCache(cached: Json): Result<WithVideo>
  {
    if cached.JNull? || cached.JUndefined? then Err(NullReadMessage(cached, "image"))
    else Ok(WithVideo(cached, cached.Member("image")))
  }

  /** `fetchMetadata(uri, useCache)` against `cache`: the result and the
      value the cache holds under `uri` afterwards, when it is written. */
  function FetchSpec(cache: map<string, Json>, uri: string, useCache: bool, host: Host): Effect<WithVideo, Json>
  {
    if useCache && uri in cache then Effect(FromCache(cache[uri]), uri, None)
    else if uri == "" || !StartsWith(uri, Scheme) then Effect(Err(InvalidUriMessage), uri, None)
    else
      var t := TryGateways(uri, 0, host, None, None);
      Effect(t.result, uri, if useCache then t.lastParsed else None)
  }

  /** The per-token URI `fetchMetadataById` uses: with a '/' between base
      and id. */
  function TokenUri(ipfsBaseUri: string, tokenId: real, numberText: real -> string): string
  {
    ipfsBaseUri + "/" + NumberToString(tokenId, numberText) + ".json"
  }

  function FetchByIdSpec(cache: map<string, Json>, ipfsBaseUri: string, tokenId: real, host: Host): Effect<WithVideo, Json>
  {
    if tokenId < 0.0 || !IsInteger(tokenId) then Effect(Err(BadTokenIdMessage), "", None)
    else FetchSpec(cache, TokenUri(ipfsBaseUri, tokenId, host.numberText), true, host)
  }

  function FetchByIdWith(ipfsBaseUri: string, host: Host): (map<string, Json>, real) -> Effect<WithVideo, Json>
  {
    (cache: map<string, Json>, id: real) => FetchByIdSpec(cache, ipfsBaseUri, id, host)
  }

  /** The body of `fetchMetadata`, against the cache as it stands when the
      call starts; `written` is what the loop has stored under `uri`. */
  method Fetch(cache: map<string, Json>, uri: string, useCache: bool, host: Host) returns (e: Effect<WithVideo, Json>)
    ensures e == FetchSpec(cache, uri, useCache, host)
  {
    if useCache && uri in cache {
      var cached := cache[uri];
      if cached.JNull? || cached.JUndefined? {
        return Effect(Err(NullReadMessage(cached, "image")), uri, None);
      }
      return Effect(Ok(WithVideo(cached, cached.Member("image"))), uri, None);
    }
    if uri == "" || !StartsWith(uri, Scheme) {
      return Effect(Err(InvalidUriMessage), uri, None);
    }
    var lastError: Option<string> := None;
    var written: Option<Json> := None;
    ghost var parsed: Option<Json> := None;
    for i := 0 to |Gateways|
      invariant written == if useCache then parsed else None
      invariant TryGateways(uri, i, host, lastError, parsed) == TryGateways(uri, 0, host, None, None)
    {
      var failure: string;
      match host.metadata(GetIpfsUrl(ExtractCid(uri), i)) {
        case NetworkFailure(t) => failure := ErrorMessage(t);
        case Aborted(m) => failure := m;
        case Response(status, _, _, body) =>
          if !IsOk(status) {
            failure := "HTTP " + Decimal(status);
          } else {
            match body {
              case Unparsable(m) => failure := m;
              case Parsed(json) =>
                parsed := Some(json);
                if useCache {
                  written := Some(json);
                }
                var video := VideoStep(json, i, host);
                if video.Ok? {
                  return Effect(video, uri, written);
                }
                failure := video.message;
            }
          }
      }
      lastError := Some(GatewayFailure(i, failure));
    }
    return Effect(Err(AllFailedMessage(lastError)), uri, written);
  }

  method FetchById(cache: map<string, Json>, ipfsBaseUri: string, tokenId: real, host: Host)
    returns (e: Effect<WithVideo, Json>)
    ensures e == FetchByIdSpec(cache, ipfsBaseUri, tokenId, host)
  {
    if tokenId < 0.0 || !IsInteger(tokenId) {
      return Effect(Err(BadTokenIdMessage), "", None);
    }
    e := Fetch(cache, TokenUri(ipfsBaseUri, tokenId, host.numberText), true, host);
  }

  /** The key `isTokenCached` checks: no '/' between base and id. */
  function CheckedTokenUri(ipfsBaseUri: string, tokenId: real, numberText: real -> string): string
  {
    ipfsBaseUri + NumberToString(tokenId, numberText) + ".json"
  }

  datatype CacheStats = CacheStats(size: nat, keys: set<string>)

  /** The module-level cache of this service and the operations on it. */
  class MediaCache {
    var entries: map<string, Json>

    constructor ()
      ensures entries == map[]
    {
      entries := map[];
    }

    method FetchMetadata(uri: string, useCache: bool, host: Host) returns (r: Result<WithVideo>)
      modifies this
      ensures var e := FetchSpec(old(entries), uri, useCache, host);
              r == e.result && entries == Apply(old(entries), e.key, e.write)
    {
      var e := Fetch(entries, uri, useCache, host);
      entries := Apply(entries, e.key, e.write);
      r := e.result;
    }

    method FetchMetadataById(ipfsBaseUri: string, tokenId: real, host: Host) returns (r: Result<WithVideo>)
      modifies this
      ensures var e := FetchByIdSpec(old(entries), ipfsBaseUri, tokenId, host);
              r == e.result && entries == Apply(old(entries), e.key, e.write)
    {
      var e := FetchById(entries, ipfsBaseUri, tokenId, host);
      entries := Apply(entries, e.key, e.write);
      r := e.result;
    }

    /** One chunk of fetches by id, started together against the cache as
        it stands now. */
    method FetchChunk(ipfsBaseUri: string, batch: seq<real>, host: Host) returns (batchResults: seq<BatchEntry<WithVideo>>)
      modifies this
      ensures Chunk(old(entries), old(entries), batch, FetchByIdWith(ipfsBaseUri, host)) == Outcome(batchResults, entries)
    {
      var snapshot := entries;
      batchResults := [];
      for j := 0 to |batch|
        invariant Chunk(snapshot, snapshot, batch[..j], FetchByIdWith(ipfsBaseUri, host)) == Outcome(batchResults, entries)
      {
        var e := FetchById(snapshot, ipfsBaseUri, batch[j], host);
        ChunkStep(snapshot, snapshot, batch, j, FetchByIdWith(ipfsBaseUri, host));
        batchResults := batchResults + [EntryOf(batch[j], e.result)];
        entries := Apply(entries, e.key, e.write);
      }
      assert batch[..|batch|] == batch;
    }

    method PreloadMetadata(ipfsBaseUri: string, tokenIds: seq<real>, host: Host)
      modifies this
      ensures entries == Preload(old(entries), tokenIds, FetchByIdWith(ipfsBaseUri, host))
    {
      if |tokenIds| == 0 {
        return;
      }
      var _ := FetchChunk(ipfsBaseUri, tokenIds, host);
    }

    method ClearMetadataCache()
      modifies this
      ensures entries == map[]
    {
      entries := map[];
    }

    method RemoveFromCache(ipfsUri: string) returns (wasPresent: bool)
      modifies this
      ensures wasPresent == (ipfsUri in old(entries))
      ensures entries == old(entries) - {ipfsUri}
    {
      wasPresent := ipfsUri in entries;
      entries := entries - {ipfsUri};
    }

    function IsMetadataCached(ipfsUri: string): bool
      reads this
    {
      ipfsUri in entries
    }

    /** `isTokenCached` as written: it looks the id up without the '/'. */
    function IsTokenCachedAsWritten(ipfsBaseUri: string, tokenId: real, numberText: real -> string): (r: bool)
      reads this
      ensures r <==> CheckedTokenUri(ipfsBaseUri, tokenId, numberText) in entries
    {
      (ipfsBaseUri + NumberToString(tokenId, numberText) + ".json") in entries
    }

    /** `isTokenCached` checking the key `fetchMetadataById` writes. */
    function IsTokenCached(ipfsBaseUri: string, tokenId: real, numberText: real -> string): (r: bool)
      reads this
      ensures r <==> TokenUri(ipfsBaseUri, tokenId, numberText) in entries
    {
      (ipfsBaseUri + "/" + NumberToString(tokenId, numberText) + ".json") in entries
    }

    function GetCacheStats(): (s: CacheStats)
      reads this
      ensures s.size == |s.keys|
      ensures forall k :: k in s.keys <==> IsMetadataCached(k)
    {
      CacheStats(|entries|, entries.Keys)
    }

    method FetchMultipleMetadata(ipfsBaseUri: string, tokenIds: seq<real>, maxConcurrent: nat, host: Host)
      returns (results: seq<BatchEntry<WithVideo>>)
      requires maxConcurrent > 0 || tokenIds == []
      modifies this
      ensures maxConcurrent > 0 ==>
                var out := Batch(old(entries), tokenIds, maxConcurrent, FetchByIdWith(ipfsBaseUri, host));
                results == out.entries && entries == out.cache
      ensures maxConcurrent == 0 ==> results == [] && entries == old(entries)
    {
      ghost var f := FetchByIdWith(ipfsBaseUri, host);
      ghost var start := entries;
      results := [];
      var i := 0;
      while i < |tokenIds|
        invariant 0 <= i <= |tokenIds|
        invariant maxConcurrent > 0 ==> BatchSoFar(start, tokenIds, maxConcurrent, f, results, entries, i)
        invariant maxConcurrent == 0 ==> results == [] && entries == start
        decreases |tokenIds| - i
      {
        var end := if i + maxConcurrent < |tokenIds| then i + maxConcurrent else |tokenIds|;
        ghost var before := entries;
        var batchResults := FetchChunk(ipfsBaseUri, tokenIds[i..end], host);
        BatchSoFarStep(start, tokenIds, maxConcurrent, f, results, before, i, end, batchResults, entries);
        results := results + batchResults;
        i := end;
      }
      if maxConcurrent > 0 {
        BatchSoFarDone(start, tokenIds, maxConcurrent, f, results, entries);
      }
    }
  }

  // ---------------------------------------------------------------- properties

  /** A successful attempt used one gateway for both requests: the payload
      is the parsed body of gateway i's metadata response, the video was
      requested through gateway i, and the URL returned is that response's
      URL. The payload it returns is the one it cached. */
  lemma SuccessUsesOneGateway(uri: string, i: nat, host: Host)
    requires GatewayAttempt(uri, i, host).result.Ok?
    ensures var a := GatewayAttempt(uri, i, host);
            var reply := host.metadata(GetIpfsUrl(ExtractCid(uri), i));
            && reply.Response? && IsOk(reply.status) && reply.body == Parsed(a.result.value.nftMetadata)
            && a.parsed == Some(a.result.value.nftMetadata)
            && VideoCid(a.result.value.nftMetadata).Ok?
            && var video := host.media(GetIpfsUrl(VideoCid(a.result.value.nftMetadata).value, i));
               video.Response? && IsOk(video.status) && a.result.value.videoUrl == JString(video.url)
  {
  }

  /** Gateways are tried in order; the first complete success wins. */
  lemma {:induction false} TryGatewaysFirstSuccess(attempts: seq<Attempt>, from: nat, lastError: Option<string>,
                                                  lastParsed: Option<Json>, v: WithVideo)
    ensures TryFrom(attempts, from, lastError, lastParsed).result == Ok(v) <==>
      exists i :: from <= i < |attempts| && attempts[i].result == Ok(v)
                  && forall j :: from <= j < i ==> attempts[j].result.Err?
    decreases |attempts| - from
  {
    if from < |attempts| {
      var a := attempts[from];
      if a.result.Err? {
        var parsed := if a.parsed.Some? then a.parsed else lastParsed;
        TryGatewaysFirstSuccess(attempts, from + 1, Some(GatewayFailure(from, a.result.message)), parsed, v);
        if TryFrom(attempts, from, lastError, lastParsed).result == Ok(v) {
          var i :| from + 1 <= i < |attempts| && attempts[i].result == Ok(v)
                   && forall j :: from + 1 <= j < i ==> attempts[j].result.Err?;
          assert forall j :: from <= j < i ==> attempts[j].result.Err?;
        }
      }
    }
  }

  /** A successful attempt records the payload it returns as parsed. */
  predicate RecordsPayload(a: Attempt)
  {
    a.result.Ok? ==> a.parsed == Some(a.result.value.nftMetadata)
  }

  lemma GatewayAttemptsRecordPayload(uri: string, host: Host)
    ensures forall i :: 0 <= i < |Attempts(uri, host)| ==> RecordsPayload(Attempts(uri, host)[i])
  {
    forall i | 0 <= i < |Gateways|
      ensures RecordsPayload(GatewayAttempt(uri, i, host))
    {
      if GatewayAttempt(uri, i, host).result.Ok? {
        SuccessUsesOneGateway(uri, i, host);
      }
    }
  }

  /** On success, what the loop cached last is the payload it returns. */
  lemma {:induction false} SuccessCachesReturnedPayload(attempts: seq<Attempt>, from: nat, lastError: Option<string>,
                                                       lastParsed: Option<Json>)
    requires forall k :: 0 <= k < |attempts| ==> RecordsPayload(attempts[k])
    ensures var t := TryFrom(attempts, from, lastError, lastParsed);
            t.result.Ok? ==> t.lastParsed == Some(t.result.value.nftMetadata)
    decreases |attempts| - from
  {
    if from < |attempts| {
      var a := attempts[from];
      if a.result.Err? {
        var parsed := if a.parsed.Some? then a.parsed else lastParsed;
        SuccessCachesReturnedPayload(attempts, from + 1, Some(GatewayFailure(from, a.result.message)), parsed);
      } else {
        assert RecordsPayload(a);
      }
    }
  }

  /** The loop fails exactly when every attempt fails. */
  lemma {:induction false} TryGatewaysAllFail(attempts: seq<Attempt>, from: nat, lastError: Option<string>,
                                             lastParsed: Option<Json>)
    ensures TryFrom(attempts, from, lastError, lastParsed).result.Err? <==>
      forall i :: from <= i < |attempts| ==> attempts[i].result.Err?
    decreases |attempts| - from
  {
    if from < |attempts| {
      var a := attempts[from];
      if a.result.Err? {
        var parsed := if a.parsed.Some? then a.parsed else lastParsed;
        TryGatewaysAllFail(attempts, from + 1, Some(GatewayFailure(from, a.result.message)), parsed);
      }
    }
  }

  /** When the loop fails after at least one attempt, its message names
      the last gateway's failure. */
  lemma {:induction false} TryGatewaysLastError(attempts: seq<Attempt>, from: nat, lastError: Option<string>,
                                               lastParsed: Option<Json>)
    requires from < |attempts| && attempts[|attempts| - 1].result.Err?
    ensures TryFrom(attempts, from, lastError, lastParsed).result.Err? ==>
      TryFrom(attempts, from, lastError, lastParsed).result
        == Err(AllFailedMessage(Some(GatewayFailure(|attempts| - 1, attempts[|attempts| - 1].result.message))))
    decreases |attempts| - from
  {
    var a := attempts[from];
    if a.result.Err? && from + 1 < |attempts| {
      var parsed := if a.parsed.Some? then a.parsed else lastParsed;
      TryGatewaysLastError(attempts, from + 1, Some(GatewayFailure(from, a.result.message)), parsed);
    }
  }

  lemma AllGatewaysFailMessage(uri: string, host: Host)
    requires forall i :: 0 <= i < |Gateways| ==> GatewayAttempt(uri, i, host).result.Err?
    ensures TryGateways(uri, 0, host, None, None).result
      == Err("Failed to fetch metadata/video from all gateways. Last error: "
             + GatewayFailure(2, GatewayAttempt(uri, 2, host).result.message))
  {
    TryGatewaysAllFail(Attempts(uri, host), 0, None, None);
    TryGatewaysLastError(Attempts(uri, host), 0, None, None);
  }

  /** Failing attempts that parse nothing leave the cached payload as it was. */
  lemma {:induction false} NothingParsedKeepsWrite(attempts: seq<Attempt>, from: nat, lastError: Option<string>,
                                                  lastParsed: Option<Json>)
    requires forall k :: from <= k < |attempts| ==> attempts[k].result.Err? && attempts[k].parsed.None?
    ensures TryFrom(attempts, from, lastError, lastParsed).lastParsed == lastParsed
    decreases |attempts| - from
  {
    if from < |attempts| {
      var a := attempts[from];
      NothingParsedKeepsWrite(attempts, from + 1, Some(GatewayFailure(from, a.result.message)), lastParsed);
    }
  }

  /** When every attempt fails, the cache keeps the payload of the last
      gateway that returned one, even though its video check failed. */
  lemma {:induction false} LastParsedPayloadStays(attempts: seq<Attempt>, from: nat, lastError: Option<string>,
                                                 lastParsed: Option<Json>, i: nat, json: Json)
    requires from <= i < |attempts|
    requires forall k :: from <= k < |attempts| ==> attempts[k].result.Err?
    requires attempts[i].parsed == Some(json)
    requires forall k :: i < k < |attempts| ==> attempts[k].parsed.None?
    ensures TryFrom(attempts, from, lastError, lastParsed).lastParsed == Some(json)
    decreases i - from
  {
    var a := attempts[from];
    var parsed := if a.parsed.Some? then a.parsed else lastParsed;
    if from < i {
      LastParsedPayloadStays(attempts, from + 1, Some(GatewayFailure(from, a.result.message)), parsed, i, json);
    } else {
      NothingParsedKeepsWrite(attempts, from + 1, Some(GatewayFailure(from, a.result.message)), parsed);
    }
  }

  /** At the level of one `fetchMetadata` call: a payload whose video check
      failed is still in the cache afterwards. */
  lemma VideoFailureStillCaches(cache: map<string, Json>, uri: string, host: Host, i: nat, json: Json)
    requires uri !in cache && StartsWith(uri, Scheme)
    requires i < |Gateways|
    requires forall k :: 0 <= k < |Gateways| ==> GatewayAttempt(uri, k, host).result.Err?
    requires GatewayAttempt(uri, i, host).parsed == Some(json)
    requires forall k :: i < k < |Gateways| ==> GatewayAttempt(uri, k, host).parsed.None?
    ensures var e := FetchSpec(cache, uri, true, host);
            e.result.Err? && Apply(cache, e.key, e.write) == cache[uri := json]
  {
    LastParsedPayloadStays(Attempts(uri, host), 0, None, None, i, json);
    TryGatewaysAllFail(Attempts(uri, host), 0, None, None);
    TryGatewaysLastError(Attempts(uri, host), 0, None, None);
  }

  /** A cache hit answers from the cache whatever the network would say,
      pairing the payload with its raw `image` member. */
  lemma CacheHitSkipsNetwork(cache: map<string, Json>, uri: string, host: Host, other: Host)
    requires uri in cache && !cache[uri].JNull? && !cache[uri].JUndefined?
    ensures FetchSpec(cache, uri, true, host) == FetchSpec(cache, uri, true, other)
    ensures FetchSpec(cache, uri, true, host) == Effect(Ok(WithVideo(cache[uri], cache[uri].Member("image"))), uri, None)
  {
  }

  /** A URI without the scheme prefix is rejected without any request. */
  lemma InvalidUriSkipsNetwork(cache: map<string, Json>, uri: string, useCache: bool, host: Host, other: Host)
    requires !(useCache && uri in cache) && !StartsWith(uri, Scheme)
    ensures FetchSpec(cache, uri, useCache, host) == FetchSpec(cache, uri, useCache, other)
    ensures FetchSpec(cache, uri, useCache, host) == Effect(Err(InvalidUriMessage), uri, None)
  {
  }

  /** A successful fetch that missed the cache leaves the returned payload
      cached under the URI when the cache is in use, and writes nothing
      otherwise. */
  lemma SuccessfulFetchIsCached(cache: map<string, Json>, uri: string, useCache: bool, host: Host)
    requires !(useCache && uri in cache)
    requires FetchSpec(cache, uri, useCache, host).result.Ok?
    ensures var e := FetchSpec(cache, uri, useCache, host);
            e.key == uri && e.write == (if useCache then Some(e.result.value.nftMetadata) else None)
  {
    GatewayAttemptsRecordPayload(uri, host);
    SuccessCachesReturnedPayload(Attempts(uri, host), 0, None, None);
  }

  /** The two keys never coincide: they differ in length. */
  lemma TokenKeysDiffer(ipfsBaseUri: string, tokenId: real, numberText: real -> string)
    ensures TokenUri(ipfsBaseUri, tokenId, numberText) != CheckedTokenUri(ipfsBaseUri, tokenId, numberText)
  {
    assert |TokenUri(ipfsBaseUri, tokenId, numberText)| == |CheckedTokenUri(ipfsBaseUri, tokenId, numberText)| + 1;
  }

  /** As written, `isTokenCached` does not see a token fetched by id: after
      a successful `fetchMetadataById` the entry is cached under the key
      with '/', and the key it checks stays absent. */
  lemma FetchedTokenNotReported(cache: map<string, Json>, ipfsBaseUri: string, tokenId: real, host: Host)
    requires CheckedTokenUri(ipfsBaseUri, tokenId, host.numberText) !in cache
    requires FetchByIdSpec(cache, ipfsBaseUri, tokenId, host).result.Ok?
    ensures var e := FetchByIdSpec(cache, ipfsBaseUri, tokenId, host);
            var after := Apply(cache, e.key, e.write);
            TokenUri(ipfsBaseUri, tokenId, host.numberText) in after
            && CheckedTokenUri(ipfsBaseUri, tokenId, host.numberText) !in after
  {
    TokenKeysDiffer(ipfsBaseUri, tokenId, host.numberText);
    var uri := TokenUri(ipfsBaseUri, tokenId, host.numberText);
    if uri !in cache {
      SuccessfulFetchIsCached(cache, uri, true, host);
    }
  }

  /** With the key `fetchMetadataById` writes, a successful fetch by id is
      reported as cached. */
  lemma FetchedTokenIsCached(cache: map<string, Json>, ipfsBaseUri: string, tokenId: real, host: Host)
    requires FetchByIdSpec(cache, ipfsBaseUri, tokenId, host).result.Ok?
    ensures var e := FetchByIdSpec(cache, ipfsBaseUri, tokenId, host);
            TokenUri(ipfsBaseUri, tokenId, host.numberText) in Apply(cache, e.key, e.write)
  {
    var uri := TokenUri(ipfsBaseUri, tokenId, host.numberText);
    if uri !in cache {
      SuccessfulFetchIsCached(cache, uri, true, host);
    }
  }
}
