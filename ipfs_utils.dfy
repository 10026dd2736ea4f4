/** The gateway URL helpers: the gateway list, building a gateway URL for a
    content identifier, stripping the `ipfs://` marker, and classifying a
    URL as a video by its extension. */
module IpfsUtils {
  import opened Js
  import opened Wrappers

  /** The gateways, in the order they are tried: the main one, then two backups. */
  const Gateways: seq<string> :=
    ["https://ipfs.io/ipfs/", "https://cloudflare-ipfs.com/ipfs/", "https://gateway.pinata.cloud/ipfs/"]

  /** The content-addressing scheme marker. */
  const Scheme: string := "ipfs://"

  const VideoExtensions: seq<string> := ["mp4", "webm", "ogg", "mov", "avi"]

  /** `IPFS_GATEWAYS[i]` inside a template literal: an index outside the
      list reads `undefined`, which prints as the text "undefined". */
  function GatewayText(i: int): string
  {
    if 0 <= i < |Gateways| then Gateways[i] else "undefined"
  }

  /** `getIpfsUrl(cid, gatewayIndex)`; callers that omit the index pass 0. */
  function GetIpfsUrl(cid: string, gatewayIndex: int): (r: string)
    ensures 0 <= gatewayIndex < |Gateways| ==>
      StartsWith(r, Gateways[gatewayIndex]) && r[|Gateways[gatewayIndex]|..] == cid
    ensures !(0 <= gatewayIndex < |Gateways|) ==> r == "undefined" + cid
  {
    GatewayText(gatewayIndex) + cid
  }

  /** `extractCidFromUri`: removes the first `ipfs://`, wherever it stands. */
  function ExtractCid(uri: string): string
  {
    ReplaceFirst(uri, Scheme, "")
  }

  /** `buildVideoUrl`: always on the main gateway. */
  function BuildVideoUrl(videoCid: string): string
  {
    GetIpfsUrl(ExtractCid(videoCid), 0)
  }

  /** `getFileExtension`: the lower-cased text after the last '.', the whole
      string lower-cased when there is no '.', and '' when it ends in '.'.
      (The trailing `|| ''` of the source changes nothing on a string.) */
  function GetFileExtension(url: string): string
  {
    Lower(AfterLast(url, '.'))
  }

  function IsVideoFile(url: string): bool
  {
    GetFileExtension(url) in VideoExtensions
  }

  // ---------------------------------------------------------------- lemmas

  /** On a gateway of the list, the identifier is recoverable from the URL,
      so distinct identifiers give distinct URLs. */
  lemma GetIpfsUrlInjective(a: string, b: string, i: int)
    requires 0 <= i < |Gateways|
    requires GetIpfsUrl(a, i) == GetIpfsUrl(b, i)
    ensures a == b
  {
    assert a == GetIpfsUrl(a, i)[|Gateways[i]|..];
  }

  lemma ExtractCidOfSchemeUri(cid: string)
    ensures ExtractCid(Scheme + cid) == cid
  {
    var u := Scheme + cid;
    assert u[0..|Scheme|] == Scheme;
    assert IndexOf(u, Scheme) == Some(0);
  }

  lemma ExtractCidWithoutScheme(uri: string)
    requires forall j :: !OccursAt(uri, Scheme, j)
    ensures ExtractCid(uri) == uri
  {
  }

  /** Only the first marker goes: putting `ipfs://` back at the index of the
      first occurrence restores the input, and nothing before that index
      was a marker. */
  lemma ExtractCidRemovesFirstOccurrence(uri: string, i: nat)
    requires OccursAt(uri, Scheme, i)
    requires forall j: nat :: j < i ==> !OccursAt(uri, Scheme, j)
    ensures |ExtractCid(uri)| == |uri| - |Scheme|
    ensures ExtractCid(uri)[..i] + Scheme + ExtractCid(uri)[i..] == uri
  {
    assert IndexOf(uri, Scheme) == Some(i);
    var out := uri[..i] + uri[i + |Scheme|..];
    assert ExtractCid(uri) == out;
    assert out[..i] == uri[..i];
    assert out[i..] == uri[i + |Scheme|..];
    assert uri[i..i + |Scheme|] == Scheme;
    assert uri == uri[..i] + uri[i..i + |Scheme|] + uri[i + |Scheme|..];
  }

  lemma BuildVideoUrlUsesMainGateway(videoCid: string)
    ensures BuildVideoUrl(videoCid) == GetIpfsUrl(ExtractCid(videoCid), 0)
    ensures StartsWith(BuildVideoUrl(videoCid), "https://ipfs.io/ipfs/")
    ensures BuildVideoUrl(Scheme + videoCid) == "https://ipfs.io/ipfs/" + videoCid
  {
    ExtractCidOfSchemeUri(videoCid);
  }

  lemma {:induction false} LastDotOfLower(s: string, end: nat)
    requires end <= |s|
    ensures LastIndexOf(Lower(s), '.', end) == LastIndexOf(s, '.', end)
    decreases end
  {
    if end > 0 {
      LastDotOfLower(s, end - 1);
    }
  }

  lemma AfterLastDotOfLower(s: string)
    ensures AfterLast(Lower(s), '.') == Lower(AfterLast(s, '.'))
  {
    LastDotOfLower(s, |s|);
  }

  lemma AfterLastDotOfJoin(a: string, b: string)
    requires '.' !in b
    ensures AfterLast(a + "." + b, '.') == b
  {
    var s := a + "." + b;
    assert s[|a|] == '.';
    assert s[|a| + 1..] == b;
  }

  /** The extension is the last '.'-separated segment, lower-cased. */
  lemma FileExtensionIsLastSegment(url: string)
    ensures '.' !in GetFileExtension(url)
    ensures '.' !in url ==> GetFileExtension(url) == Lower(url)
    ensures '.' in url ==> exists i :: 0 <= i < |url| && url[i] == '.' && '.' !in url[i + 1..]
                                      && GetFileExtension(url) == Lower(url[i + 1..])
    ensures |url| > 0 && url[|url| - 1] == '.' ==> GetFileExtension(url) == ""
  {
    var seg := AfterLast(url, '.');
    assert '.' !in seg;
    assert '.' !in Lower(seg) by {
      forall k | 0 <= k < |seg| ensures Lower(seg)[k] != '.' { assert seg[k] != '.'; }
    }
  }

  /** Classification ignores the case of the URL. */
  lemma IsVideoFileIgnoresCase(url: string)
    ensures IsVideoFile(Lower(url)) == IsVideoFile(url)
  {
    AfterLastDotOfLower(url);
    LowerIdempotent(AfterLast(url, '.'));
  }
}
