/** The validating metadata service: a process-wide cache from URI to
    validated metadata, a fetch that tries every gateway in turn and
    validates the payload, fetch by token id, preloading, cache management
    and chunked batch fetching. It returns metadata only (no video URL). */
module NftMetadataService {
  import opened Wrappers
  import opened Js
  import opened MetadataTypes
  import opened Batching
  import IpfsUtils

  /** This service's own copy of the gateway list. */
  const Gateways: seq<string> :=
    ["https://ipfs.io/ipfs/", "https://cloudflare-ipfs.com/ipfs/", "https://gateway.pinata.cloud/ipfs/"]

  const Scheme: string := "ipfs://"
  const DefaultMaxConcurrent: nat := 5

  const NoGatewaysMessage: string := "No IPFS gateways configured"
  const InvalidUriMessage: string := "Invalid IPFS URI: must start with ipfs://"
  const BadTokenIdMessage: string := "Token ID must be a non-negative integer"
  const MissingFieldsMessage: string :=
    "Missing or invalid required fields: name, description, and image must be strings"

  /** `ipfsToHttp(uri, gatewayIndex)` */
  function IpfsToHttp(ipfsUri: string, gatewayIndex: int): string
  {
    var hash := ReplaceFirst(ipfsUri, Scheme, "");
    (if 0 <= gatewayIndex < |Gateways| then Gateways[gatewayIndex] else "undefined") + hash
  }

  // ---------------------------------------------------------------- validation

  /** `!v || typeof v !== 'string'` fails exactly when this does not hold. */
  predicate IsRequiredString(v: Json)
  {
    Truthy(v) && v.JString?
  }

  function IndexName(index: nat): string
  {
    "attribute_" + Decimal(index)
  }

  /** One element of `attributes`. */
  function CoerceAttribute(attr: Json, index: nat, stringOf: Json -> string): Attribute
  {
    if Truthy(attr) && IsObjectType(attr) then
      Attribute(StringOf(Or(attr.Member("trait_type"), JString(IndexName(index))), stringOf),
                Or(attr.Member("value"), JString("")))
    else
      Attribute(IndexName(index), JString(""))
  }

  function CoerceAttributes(attrs: Json, stringOf: Json -> string): seq<Attribute>
  {
    if attrs.JArray? then
      seq(|attrs.items|, i requires 0 <= i < |attrs.items| => CoerceAttribute(attrs.items[i], i, stringOf))
    else []
  }

  function CoerceProperties(props: Json, stringOf: Json -> string): Properties
  {
    if Truthy(props) && IsObjectType(props) then
      Properties(
        StringOf(Or(props.Member("category"), JString("")), stringOf),
        StringOf(Or(props.Member("course_type"), JString("")), stringOf),
        StringOf(Or(props.Member("accessibility_level"), JString("")), stringOf),
        Truthy(props.Member("redeemable")),
        Truthy(props.Member("instructor_certified")),
        StringOf(Or(props.Member("style"), JString("")), stringOf))
    else EmptyProperties
  }

  /** `validateMetadata`: name, description and image must be non-empty
      strings; attributes and properties are coerced, never rejected. */
  function ValidateMetadata(data: Json, stringOf: Json -> string): (r: Result<CourseMetadata>)
    ensures r.Ok? <==> !data.JNull? && !data.JUndefined? && IsRequiredString(data.Member("name"))
                       && IsRequiredString(data.Member("description")) && IsRequiredString(data.Member("image"))
    ensures r.Ok? ==> r.value.name == data.Member("name").s && r.value.description == data.Member("description").s
                      && r.value.image == data.Member("image").s
    ensures r.Ok? ==> r.value.attributes == CoerceAttributes(data.Member("attributes"), stringOf)
                      && r.value.properties == CoerceProperties(data.Member("properties"), stringOf)
    ensures r.Err? ==> r.message == if data.JNull? || data.JUndefined? then NullReadMessage(data, "name")
                                    else MissingFieldsMessage
    ensures r.Ok? ==> HasRequiredFields(r.value)
  {
    if data.JNull? || data.JUndefined? then Err(NullReadMessage(data, "name"))
    else
      var name := data.Member("name");
      var description := data.Member("description");
      var image := data.Member("image");
      if !IsRequiredString(name) || !IsRequiredString(description) || !IsRequiredString(image) then
        Err(MissingFieldsMessage)
      else
        Ok(CourseMetadata(name.s, description.s, image.s,
                          CoerceAttributes(data.Member("attributes"), stringOf),
                          CoerceProperties(data.Member("properties"), stringOf)))
  }

  /** What validation guarantees: the three required fields are non-empty. */
  predicate HasRequiredFields(m: CourseMetadata)
  {
    m.name != "" && m.description != "" && m.image != ""
  }

  /** The records validation maps to themselves: besides the required
      fields, every trait name is non-empty and every trait value is truthy
      or the empty string. */
  predicate Canonical(m: CourseMetadata)
  {
    HasRequiredFields(m)
    && forall i :: 0 <= i < |m.attributes| ==>
         m.attributes[i].traitType != "" && (Truthy(m.attributes[i].value) || m.attributes[i].value == JString(""))
  }

  // ---------------------------------------------------------------- fetching

  /** One gateway attempt: fetch, check the status, parse, validate. */
  function GatewayAttempt(uri: string, i: nat, host: Host): Result<CourseMetadata>
  {
    match host.metadata(IpfsToHttp(uri, i))
    case NetworkFailure(t) => Err(ErrorMessage(t))
    case Aborted(m) => Err(m)
    case Response(status, statusText, _, body) =>
      if !IsOk(status) then Err("HTTP " + Decimal(status) + ": " + statusText)
      else
        match body
        case Unparsable(m) => Err(m)
        case Parsed(json) => ValidateMetadata(json, host.stringOf)
  }

  function GatewayFailure(i: nat, message: string): string
  {
    "Gateway " + Decimal(i + 1) + " failed: " + message
  }

  const AllFailedPrefix: string := "Failed to fetch metadata from all "
  const AllFailedMiddle: string := " gateways. Last error: "

  /** `lastError?.message || 'Unknown error'` in the final error. */
  function AllFailedMessage(lastError: Option<string>): string
  {
    var last := if lastError.Some? && lastError.value != "" then lastError.value else "Unknown error";
    AllFailedPrefix + Decimal(|Gateways|) + AllFailedMiddle + last
  }

  /** The gateway loop from index `from` on, `lastError` being the failure
      recorded so far. */
  function TryGateways(uri: string, from: nat, host: Host, lastError: Option<string>): Result<CourseMetadata>
    decreases |Gateways| - from
  {
    if from >= |Gateways| then Err(AllFailedMessage(lastError))
    else
      match GatewayAttempt(uri, from, host)
      case Ok(m) => Ok(m)
      case Err(e) => TryGateways(uri, from + 1, host, Some(GatewayFailure(from, e)))
  }

  /** `fetchMetadata(uri, useCache)` against the cache `cache`: the result and
      what it writes. */
  function FetchSpec(cache: map<string, CourseMetadata>, uri: string, useCache: bool, host: Host)
    : Effect<CourseMetadata, CourseMetadata>
  {
    if useCache && uri in cache then Effect(Ok(cache[uri]), uri, None)
    else if |Gateways| == 0 then Effect(Err(NoGatewaysMessage), uri, None)
    else if uri == "" || !StartsWith(uri, Scheme) then Effect(Err(InvalidUriMessage), uri, None)
    else
      var r := TryGateways(uri, 0, host, None);
      Effect(r, uri, if useCache && r.Ok? then Some(r.value) else None)
  }

  /** The per-token URI: no '/' between base and id. */
  function TokenUri(ipfsBaseUri: string, tokenId: real, numberText: real -> string): string
  {
    ipfsBaseUri + NumberToString(tokenId, numberText) + ".json"
  }

  /** `fetchMetadataById`, which always uses the cache. */
  function FetchByIdSpec(cache: map<string, CourseMetadata>, ipfsBaseUri: string, tokenId: real, host: Host)
    : Effect<CourseMetadata, CourseMetadata>
  {
    if tokenId < 0.0 || !IsInteger(tokenId) then Effect(Err(BadTokenIdMessage), "", None)
    else FetchSpec(cache, TokenUri(ipfsBaseUri, tokenId, host.numberText), true, host)
  }

  function FetchByIdWith(ipfsBaseUri: string, host: Host): (map<string, CourseMetadata>, real) -> Effect<CourseMetadata, CourseMetadata>
  {
    (cache: map<string, CourseMetadata>, id: real) => FetchByIdSpec(cache, ipfsBaseUri, id, host)
  }

  /** The body of `fetchMetadata`, run against the cache as it stands when
      the call starts: the gateway loop with its `lastError`. */
  method Fetch(cache: map<string, CourseMetadata>, uri: string, useCache: bool, host: Host)
    returns (e: Effect<CourseMetadata, CourseMetadata>)
    ensures e == FetchSpec(cache, uri, useCache, host)
  {
    if useCache && uri in cache {
      return Effect(Ok(cache[uri]), uri, None);
    }
    if |Gateways| == 0 {
      return Effect(Err(NoGatewaysMessage), uri, None);
    }
    if uri == "" || !StartsWith(uri, Scheme) {
      return Effect(Err(InvalidUriMessage), uri, None);
    }
    var lastError: Option<string> := None;
    for i := 0 to |Gateways|
      invariant TryGateways(uri, i, host, lastError) == TryGateways(uri, 0, host, None)
    {
      var failure: string;
      match host.metadata(IpfsToHttp(uri, i)) {
        case NetworkFailure(t) => failure := ErrorMessage(t);
        case Aborted(m) => failure := m;
        case Response(status, statusText, _, body) =>
          if !IsOk(status) {
            failure := "HTTP " + Decimal(status) + ": " + statusText;
          } else {
            match body {
              case Unparsable(m) => failure := m;
              case Parsed(json) =>
                var validated := ValidateMetadata(json, host.stringOf);
                if validated.Ok? {
                  return Effect(validated, uri, if useCache then Some(validated.value) else None);
                }
                failure := validated.message;
            }
          }
      }
      lastError := Some(GatewayFailure(i, failure));
    }
    return Effect(Err(AllFailedMessage(lastError)), uri, None);
  }

  method FetchById(cache: map<string, CourseMetadata>, ipfsBaseUri: string, tokenId: real, host: Host)
    returns (e: Effect<CourseMetadata, CourseMetadata>)
    ensures e == FetchByIdSpec(cache, ipfsBaseUri, tokenId, host)
  {
    if tokenId < 0.0 || !IsInteger(tokenId) {
      return Effect(Err(BadTokenIdMessage), "", None);
    }
    e := Fetch(cache, TokenUri(ipfsBaseUri, tokenId, host.numberText), true, host);
  }

  datatype CacheStats = CacheStats(size: nat, keys: set<string>)

  /** The module-level cache and the operations on it. */
  class MetadataCache {
    var entries: map<string, CourseMetadata>

    constructor ()
      ensures entries == map[]
    {
      entries := map[];
    }

    method FetchMetadata(uri: string, useCache: bool, host: Host) returns (r: Result<CourseMetadata>)
      modifies this
      ensures var e := FetchSpec(old(entries), uri, useCache, host);
              r == e.result && entries == Apply(old(entries), e.key, e.write)
    {
      var e := Fetch(entries, uri, useCache, host);
      entries := Apply(entries, e.key, e.write);
      r := e.result;
    }

    method FetchMetadataById(ipfsBaseUri: string, tokenId: real, host: Host) returns (r: Result<CourseMetadata>)
      modifies this
      ensures var e := FetchByIdSpec(old(entries), ipfsBaseUri, tokenId, host);
              r == e.result && entries == Apply(old(entries), e.key, e.write)
    {
      var e := FetchById(entries, ipfsBaseUri, tokenId, host);
      entries := Apply(entries, e.key, e.write);
      r := e.result;
    }

    /** One chunk of fetches by id, started together: each reads the cache
        as it stands when the chunk starts; a failure is recorded, not
        thrown. */
    method FetchChunk(ipfsBaseUri: string, batch: seq<real>, host: Host) returns (batchResults: seq<BatchEntry<CourseMetadata>>)
      modifies this
      ensures Chunk(old(entries), old(entries), batch, FetchByIdWith(ipfsBaseUri, host)) == Outcome(batchResults, entries)
    {
      var snapshot := entries;
      batchResults := [];
      for j := 0 to |batch|
        invariant Chunk(snapshot, snapshot, batch[..j], FetchByIdWith(ipfsBaseUri, host)) == Outcome(batchResults, entries)
      {
        var e := FetchById(snapshot, ipfsBaseUri, batch[j], host);
        ChunkStep(snapshot, snapshot, batch, j, FetchByIdWith(ipfsBaseUri, host));
        batchResults := batchResults + [EntryOf(batch[j], e.result)];
        entries := Apply(entries, e.key, e.write);
      }
      assert batch[..|batch|] == batch;
    }

    /** Starts every fetch at once and waits for all of them; failures are
        swallowed. */
    method PreloadMetadata(ipfsBaseUri: string, tokenIds: seq<real>, host: Host)
      modifies this
      ensures entries == Preload(old(entries), tokenIds, FetchByIdWith(ipfsBaseUri, host))
    {
      if |tokenIds| == 0 {
        return;
      }
      var _ := FetchChunk(ipfsBaseUri, tokenIds, host);
    }

    method ClearMetadataCache()
      modifies this
      ensures entries == map[]
    {
      entries := map[];
    }

    method RemoveFromCache(ipfsUri: string) returns (wasPresent: bool)
      modifies this
      ensures wasPresent == (ipfsUri in old(entries))
      ensures entries == old(entries) - {ipfsUri}
    {
      wasPresent := ipfsUri in entries;
      entries := entries - {ipfsUri};
    }

    function IsMetadataCached(ipfsUri: string): bool
      reads this
    {
      ipfsUri in entries
    }

    /** Checks the same key `fetchMetadataById` writes. */
    function IsTokenCached(ipfsBaseUri: string, tokenId: real, numberText: real -> string): (r: bool)
      reads this
      ensures r <==> TokenUri(ipfsBaseUri, tokenId, numberText) in entries
    {
      (ipfsBaseUri + NumberToString(tokenId, numberText) + ".json") in entries
    }

    /** The size and the keys of `getCacheStats`. */
    function GetCacheStats(): (s: CacheStats)
      reads this
      ensures s.size == |s.keys|
      ensures forall k :: k in s.keys <==> IsMetadataCached(k)
    {
      CacheStats(|entries|, entries.Keys)
    }

    method FetchMultipleMetadata(ipfsBaseUri: string, tokenIds: seq<real>, maxConcurrent: nat, host: Host)
      returns (results: seq<BatchEntry<CourseMetadata>>)
      requires maxConcurrent > 0 || tokenIds == []
      modifies this
      ensures maxConcurrent > 0 ==>
                var out := Batch(old(entries), tokenIds, maxConcurrent, FetchByIdWith(ipfsBaseUri, host));
                results == out.entries && entries == out.cache
      ensures maxConcurrent == 0 ==> results == [] && entries == old(entries)
    {
      ghost var f := FetchByIdWith(ipfsBaseUri, host);
      ghost var start := entries;
      results := [];
      var i := 0;
      while i < |tokenIds|
        invariant 0 <= i <= |tokenIds|
        invariant maxConcurrent > 0 ==> BatchSoFar(start, tokenIds, maxConcurrent, f, results, entries, i)
        invariant maxConcurrent == 0 ==> results == [] && entries == start
        decreases |tokenIds| - i
      {
        var end := if i + maxConcurrent < |tokenIds| then i + maxConcurrent else |tokenIds|;
        ghost var before := entries;
        var batchResults := FetchChunk(ipfsBaseUri, tokenIds[i..end], host);
        BatchSoFarStep(start, tokenIds, maxConcurrent, f, results, before, i, end, batchResults, entries);
        results := results + batchResults;
        i := end;
      }
      if maxConcurrent > 0 {
        BatchSoFarDone(start, tokenIds, maxConcurrent, f, results, entries);
      }
    }
  }

  // ---------------------------------------------------------------- properties

  /** Both gateway lists are the same, and `ipfsToHttp` builds the URL that
      `getIpfsUrl(extractCid(uri), i)` builds. */
  lemma GatewayListsAgree(uri: string, i: int)
    ensures Gateways == IpfsUtils.Gateways
    ensures IpfsToHttp(uri, i) == IpfsUtils.GetIpfsUrl(IpfsUtils.ExtractCid(uri), i)
  {
  }

  lemma MetadataJsonMembers(m: CourseMetadata)
    ensures MetadataJson(m).Member("name") == JString(m.name)
    ensures MetadataJson(m).Member("description") == JString(m.description)
    ensures MetadataJson(m).Member("image") == JString(m.image)
    ensures MetadataJson(m).Member("attributes") == AttributesJson(m.attributes)
    ensures MetadataJson(m).Member("properties") == PropertiesJson(m.properties)
  {
  }

  lemma CoerceAttributeOfJson(a: Attribute, index: nat, stringOf: Json -> string)
    requires a.traitType != "" && (Truthy(a.value) || a.value == JString(""))
    ensures CoerceAttribute(AttributeJson(a), index, stringOf) == a
  {
    var j := AttributeJson(a);
    assert j.Member("trait_type") == JString(a.traitType);
    assert j.Member("value") == a.value;
  }

  /** `String(x || '')` of a string is the string, empty or not. */
  lemma StringOfOrEmpty(x: string, stringOf: Json -> string)
    ensures StringOf(Or(JString(x), JString("")), stringOf) == x
  {
    if x == "" {
      assert Or(JString(x), JString("")) == JString("");
    }
  }

  lemma PropertiesJsonMembers(p: Properties)
    ensures var j := PropertiesJson(p);
            && Truthy(j) && IsObjectType(j)
            && j.Member("category") == JString(p.category)
            && j.Member("course_type") == JString(p.courseType)
            && j.Member("accessibility_level") == JString(p.accessibilityLevel)
            && j.Member("redeemable") == JBool(p.redeemable)
            && j.Member("instructor_certified") == JBool(p.instructorCertified)
            && j.Member("style") == JString(p.style)
  {
  }

  lemma CoercePropertiesOfJson(p: Properties, stringOf: Json -> string)
    ensures CoerceProperties(PropertiesJson(p), stringOf) == p
  {
    PropertiesJsonMembers(p);
    StringOfOrEmpty(p.category, stringOf);
    StringOfOrEmpty(p.courseType, stringOf);
    StringOfOrEmpty(p.accessibilityLevel, stringOf);
    StringOfOrEmpty(p.style, stringOf);
  }

  /** Serialising canonical attributes and coercing them again gives them back. */
  lemma CoerceAttributesOfJson(attributes: seq<Attribute>, stringOf: Json -> string)
    requires forall i :: 0 <= i < |attributes| ==>
               attributes[i].traitType != "" && (Truthy(attributes[i].value) || attributes[i].value == JString(""))
    ensures CoerceAttributes(AttributesJson(attributes), stringOf) == attributes
  {
    var attrs := CoerceAttributes(AttributesJson(attributes), stringOf);
    forall i | 0 <= i < |attributes|
      ensures attrs[i] == attributes[i]
    {
      CoerceAttributeOfJson(attributes[i], i, stringOf);
    }
  }

  /** Serialising a canonical record and validating it again gives it back. */
  lemma ValidateOfMetadataJson(m: CourseMetadata, stringOf: Json -> string)
    requires Canonical(m)
    ensures ValidateMetadata(MetadataJson(m), stringOf) == Ok(m)
  {
    MetadataJsonMembers(m);
    CoerceAttributesOfJson(m.attributes, stringOf);
    CoercePropertiesOfJson(m.properties, stringOf);
  }

  /** Coerced trait values are truthy or the empty string. */
  lemma CoercedValuesCanonical(attrs: Json, stringOf: Json -> string)
    ensures var r := CoerceAttributes(attrs, stringOf);
            forall i :: 0 <= i < |r| ==> Truthy(r[i].value) || r[i].value == JString("")
  {
  }

  /** A record with an empty trait name is not a fixed point of validation:
      validating its serialisation renames the trait. */
  lemma EmptyTraitRenamed(m: CourseMetadata, i: nat, stringOf: Json -> string)
    requires i < |m.attributes| && m.attributes[i].traitType == ""
    ensures ValidateMetadata(MetadataJson(m), stringOf) != Ok(m)
  {
    MetadataJsonMembers(m);
    var again := CoerceAttributes(AttributesJson(m.attributes), stringOf);
    assert AttributeJson(m.attributes[i]).Member("trait_type") == JString("");
    assert again[i].traitType == IndexName(i);
    assert again[i].traitType[0] == 'a';
  }

  /** Validation is idempotent exactly when no trait name came out empty
      (`String(value)` can be empty for a truthy value, such as an empty
      array). */
  lemma ValidateIdempotent(data: Json, stringOf: Json -> string)
    requires ValidateMetadata(data, stringOf).Ok?
    ensures var m := ValidateMetadata(data, stringOf).value;
            ValidateMetadata(MetadataJson(m), stringOf) == Ok(m)
            <==> forall i :: 0 <= i < |m.attributes| ==> m.attributes[i].traitType != ""
  {
    var m := ValidateMetadata(data, stringOf).value;
    if forall i :: 0 <= i < |m.attributes| ==> m.attributes[i].traitType != "" {
      CoercedValuesCanonical(data.Member("attributes"), stringOf);
      ValidateOfMetadataJson(m, stringOf);
    } else {
      var i :| 0 <= i < |m.attributes| && m.attributes[i].traitType == "";
      EmptyTraitRenamed(m, i, stringOf);
    }
  }

  /** The gateways are tried in order and the first that yields valid
      metadata wins. */
  lemma {:induction false} TryGatewaysFirstSuccess(uri: string, from: nat, host: Host, lastError: Option<string>,
                                                  m: CourseMetadata)
    ensures TryGateways(uri, from, host, lastError) == Ok(m) <==>
      exists i :: from <= i < |Gateways| && GatewayAttempt(uri, i, host) == Ok(m)
                  && forall j :: from <= j < i ==> GatewayAttempt(uri, j, host).Err?
    decreases |Gateways| - from
  {
    if from < |Gateways| {
      match GatewayAttempt(uri, from, host)
      case Ok(_) =>
      case Err(e) =>
        TryGatewaysFirstSuccess(uri, from + 1, host, Some(GatewayFailure(from, e)), m);
        if TryGateways(uri, from, host, lastError) == Ok(m) {
          var i :| from + 1 <= i < |Gateways| && GatewayAttempt(uri, i, host) == Ok(m)
                   && forall j :: from + 1 <= j < i ==> GatewayAttempt(uri, j, host).Err?;
          assert forall j :: from <= j < i ==> GatewayAttempt(uri, j, host).Err?;
        }
    }
  }

  /** The loop from `from` on fails exactly when every remaining gateway
      fails. */
  lemma {:induction false} TryGatewaysAllFail(uri: string, from: nat, host: Host, lastError: Option<string>)
    ensures TryGateways(uri, from, host, lastError).Err? <==>
      forall i :: from <= i < |Gateways| ==> GatewayAttempt(uri, i, host).Err?
    decreases |Gateways| - from
  {
    if from < |Gateways| {
      match GatewayAttempt(uri, from, host)
      case Ok(_) =>
      case Err(e) =>
        TryGatewaysAllFail(uri, from + 1, host, Some(GatewayFailure(from, e)));
    }
  }

  /** Its error then carries the last gateway's failure. */
  lemma {:induction false} TryGatewaysLastError(uri: string, from: nat, host: Host, lastError: Option<string>)
    requires from < |Gateways| && GatewayAttempt(uri, |Gateways| - 1, host).Err?
    ensures TryGateways(uri, from, host, lastError).Err? ==>
      TryGateways(uri, from, host, lastError).message
        == AllFailedMessage(Some(GatewayFailure(|Gateways| - 1, GatewayAttempt(uri, |Gateways| - 1, host).message)))
    decreases |Gateways| - from
  {
    match GatewayAttempt(uri, from, host)
    case Ok(_) =>
    case Err(e) =>
      if from + 1 < |Gateways| {
        TryGatewaysLastError(uri, from + 1, host, Some(GatewayFailure(from, e)));
      }
  }

  lemma GatewayFailureText(message: string)
    ensures GatewayFailure(2, message) == "Gateway 3 failed: " + message
  {
    assert Decimal(3) == "3";
  }

  lemma AllFailedMessageText(last: string)
    requires last != ""
    ensures AllFailedMessage(Some(last)) == "Failed to fetch metadata from all 3 gateways. Last error: " + last
  {
    assert Decimal(|Gateways|) == "3";
  }

  /** When all three gateways fail, the error names the count and the third
      gateway's failure. */
  lemma AllGatewaysFailMessage(uri: string, host: Host)
    requires forall i :: 0 <= i < |Gateways| ==> GatewayAttempt(uri, i, host).Err?
    ensures TryGateways(uri, 0, host, None)
      == Err("Failed to fetch metadata from all 3 gateways. Last error: "
             + ("Gateway 3 failed: " + GatewayAttempt(uri, 2, host).message))
  {
    TryGatewaysLastError(uri, 0, host, None);
    TryGatewaysAllFail(uri, 0, host, None);
    var message := GatewayAttempt(uri, 2, host).message;
    GatewayFailureText(message);
    AllFailedMessageText(GatewayFailure(2, message));
  }

  /** A cache hit answers from the cache whatever the network would say. */
  lemma CacheHitSkipsNetwork(cache: map<string, CourseMetadata>, uri: string, host: Host, other: Host)
    requires uri in cache
    ensures FetchSpec(cache, uri, true, host) == FetchSpec(cache, uri, true, other)
    ensures FetchSpec(cache, uri, true, host) == Effect(Ok(cache[uri]), uri, None)
  {
  }

  /** A URI without the scheme prefix is rejected without any request. */
  lemma InvalidUriSkipsNetwork(cache: map<string, CourseMetadata>, uri: string, useCache: bool, host: Host, other: Host)
    requires !(useCache && uri in cache) && !StartsWith(uri, Scheme)
    ensures FetchSpec(cache, uri, useCache, host) == FetchSpec(cache, uri, useCache, other)
    ensures FetchSpec(cache, uri, useCache, host) == Effect(Err(InvalidUriMessage), uri, None)
  {
  }

  /** A fetch writes exactly when the cache is in use, the URI missed and
      the fetch succeeded; it writes the result under the URI. */
  lemma FetchWritesIffFetched(cache: map<string, CourseMetadata>, uri: string, useCache: bool, host: Host)
    ensures var e := FetchSpec(cache, uri, useCache, host);
            e.key == uri
            && (e.write.Some? <==> useCache && uri !in cache && e.result.Ok?)
            && (e.write.Some? ==> e.result == Ok(e.write.value))
  {
  }

  /** Whatever the fetch returns successfully has passed validation. */
  lemma TryGatewaysValidated(uri: string, host: Host)
    ensures TryGateways(uri, 0, host, None).Ok? ==> HasRequiredFields(TryGateways(uri, 0, host, None).value)
  {
    var r := TryGateways(uri, 0, host, None);
    if r.Ok? {
      TryGatewaysFirstSuccess(uri, 0, host, None, r.value);
      var i :| 0 <= i < |Gateways| && GatewayAttempt(uri, i, host) == Ok(r.value);
    }
  }

  /** The cache invariant: every key is an IPFS URI and every value has
      passed validation. */
  predicate ValidEntry(key: string, m: CourseMetadata)
  {
    StartsWith(key, Scheme) && HasRequiredFields(m)
  }

  predicate CacheValid(cache: map<string, CourseMetadata>)
  {
    AllKept(cache, ValidEntry)
  }

  lemma FetchWritesValid(cache: map<string, CourseMetadata>, uri: string, useCache: bool, host: Host)
    ensures var e := FetchSpec(cache, uri, useCache, host);
            e.write.Some? ==> ValidEntry(e.key, e.write.value)
  {
    TryGatewaysValidated(uri, host);
  }

  lemma FetchKeepsCacheValid(cache: map<string, CourseMetadata>, uri: string, useCache: bool, host: Host)
    requires CacheValid(cache)
    ensures var e := FetchSpec(cache, uri, useCache, host);
            CacheValid(Apply(cache, e.key, e.write))
  {
    FetchWritesValid(cache, uri, useCache, host);
  }

  lemma FetchByIdWritesValid(ipfsBaseUri: string, host: Host)
    ensures WritesKept(FetchByIdWith(ipfsBaseUri, host), ValidEntry)
  {
    forall cache: map<string, CourseMetadata>, id: real
      ensures var e := FetchByIdWith(ipfsBaseUri, host)(cache, id);
              e.write.Some? ==> ValidEntry(e.key, e.write.value)
    {
      if 0.0 <= id && IsInteger(id) {
        FetchWritesValid(cache, TokenUri(ipfsBaseUri, id, host.numberText), true, host);
      }
    }
  }

  /** Batch fetching and preloading keep the cache invariant. */
  lemma BatchKeepsCacheValid(cache: map<string, CourseMetadata>, ipfsBaseUri: string, tokenIds: seq<real>,
                             maxConcurrent: nat, host: Host)
    requires maxConcurrent > 0 && CacheValid(cache)
    ensures CacheValid(Batch(cache, tokenIds, maxConcurrent, FetchByIdWith(ipfsBaseUri, host)).cache)
    ensures CacheValid(Preload(cache, tokenIds, FetchByIdWith(ipfsBaseUri, host)))
  {
    FetchByIdWritesValid(ipfsBaseUri, host);
    BatchKeeps(cache, tokenIds, maxConcurrent, FetchByIdWith(ipfsBaseUri, host), ValidEntry);
    PreloadKeeps(cache, tokenIds, FetchByIdWith(ipfsBaseUri, host), ValidEntry);
  }

  /** A whole-number id below 10^21 is written in plain decimal. */
  lemma TokenUriOfNat(ipfsBaseUri: string, n: nat, numberText: real -> string)
    requires (n as real) < DecimalLimit
    ensures TokenUri(ipfsBaseUri, n as real, numberText) == ipfsBaseUri + Decimal(n) + ".json"
  {
  }

  /** After a successful fetch by id, `isTokenCached` reports the id. */
  lemma FetchedTokenIsCached(cache: map<string, CourseMetadata>, ipfsBaseUri: string, tokenId: real, host: Host)
    requires FetchByIdSpec(cache, ipfsBaseUri, tokenId, host).result.Ok?
    ensures var e := FetchByIdSpec(cache, ipfsBaseUri, tokenId, host);
            TokenUri(ipfsBaseUri, tokenId, host.numberText) in Apply(cache, e.key, e.write)
  {
  }

  /** An invalid token id is reported in its own record of a batch, with
      the id-validation error. */
  lemma BatchReportsInvalidIds(cache: map<string, CourseMetadata>, ipfsBaseUri: string, tokenIds: seq<real>,
                               maxConcurrent: nat, host: Host, k: nat)
    requires maxConcurrent > 0 && k < |tokenIds| && (tokenIds[k] < 0.0 || !IsInteger(tokenIds[k]))
    ensures k < |Batch(cache, tokenIds, maxConcurrent, FetchByIdWith(ipfsBaseUri, host)).entries|
    ensures Batch(cache, tokenIds, maxConcurrent, FetchByIdWith(ipfsBaseUri, host)).entries[k]
            == Failed(tokenIds[k], BadTokenIdMessage)
  {
    BatchEntries(cache, tokenIds, maxConcurrent, FetchByIdWith(ipfsBaseUri, host));
  }
}
