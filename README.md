# YoYo yoga-course NFT metadata: a Dafny model

This project models the metadata side of the YoYo dApp. YoYo sells one NFT per inclusive yoga course, and each NFT's metadata lives on IPFS. The model covers:

- **IPFS helpers**, in `ipfs_utils.dfy`: the three public gateways, the gateway URL of a CID, stripping the `ipfs://` scheme, the video URL, the file extension and the video test.
- **Two metadata services**, each with the same overall shape: a module-level cache keyed by URI, a loop over the gateways, fetch by token id, preload, batched fetching and cache management.
  - `NftMetadataService` (`nft_metadata_service.dfy`) validates the JSON it receives. Its cache is the `MetadataCache` class.
  - `ipfsService` (`ipfs_service.dfy`, module `IpfsService`) caches the raw JSON and then fetches the course video. Its cache is the `MediaCache` class.
  - The batch and preload drivers the two services share are in `batching.dfy`. They are generic over the fetch function.
- **The metadata generator script**, in `generator.dfy`: the table of twenty courses, `generateNFTMetadata`, the JSON file written per course, and the per-style and per-level statistics.
- **The card helpers**, in `nft_card.dfy`: the difficulty, level and style colour classes, the trait lookups and the 'Accessible' badge.
- **Three Redux slices**:
  - the per-token loading state, in `nft_loading_data.dfy`;
  - the current page, in `pages.dfy`;
  - the selected NFT, in `selected_nft.dfy`.

Shared definitions:

- `js.dfy` models the JavaScript values and built-ins the code relies on:
  - JSON values;
  - truthiness and `||`;
  - `toLowerCase`, `indexOf`, `lastIndexOf`, `replace` and `padStart`;
  - decimal numerals;
  - the `Error` and string cases of `getErrorMessage`;
  - the answers of `fetch`.
- `metadata_types.dfy` holds the metadata records and their JSON form.
- `wrappers.dfy` holds `Option` and `Result`.

How effects are modelled:

- **The network.** It is an oracle, `Js.Host`:
  - `metadata` answers a URL with a reply;
  - `media` answers a video URL;
  - `stringOf` is JavaScript's `String(x)`;
  - `numberText` is the text of a number.
- **An operation that touches the cache** is a pure specification function that returns an `Effect`: its result, the key it touched and an optional write. A method on the cache class runs it and applies the write to the `entries` map.
- **The gateway loops** are `for` loops in methods. Each method is proved equal to a recursive specification, which the lemmas then describe.
- **Batched fetching.** `fetchMultipleMetadata` runs the requests of one batch concurrently. The model gives every request in a batch the cache as it stood when the batch began. Writes are applied in order.
- **The course script** writes files. The model represents the files it writes as a map from file name to JSON.

## Model

| member | source | states |
|---|---|---|
| IpfsUtils.GetIpfsUrl | src/utils/ipfsUtils.ts:7-9 | For a valid index, the URL is that gateway's prefix followed by the CID. For an index outside the list, it is "undefined" followed by the CID, as JavaScript's template literal gives. |
| IpfsUtils.GetIpfsUrlInjective | src/utils/ipfsUtils.ts:7-9 | On one gateway, different CIDs give different URLs. |
| IpfsUtils.ExtractCidOfSchemeUri | src/utils/ipfsUtils.ts:11-13 | Stripping the scheme from `ipfs://` followed by a CID gives back the CID. |
| IpfsUtils.ExtractCidWithoutScheme | src/utils/ipfsUtils.ts:11-13 | A string that does not contain `ipfs://` anywhere is returned unchanged. |
| IpfsUtils.ExtractCidRemovesFirstOccurrence | src/utils/ipfsUtils.ts:11-13 | Only the first `ipfs://` is removed, wherever it occurs: putting it back at that index restores the input. |
| IpfsUtils.BuildVideoUrlUsesMainGateway | src/utils/ipfsUtils.ts:15-18 | The video URL always uses the main gateway with the stripped CID. For an `ipfs://` URI it is "https://ipfs.io/ipfs/" followed by the CID. |
| IpfsUtils.LastDotOfLower | src/utils/ipfsUtils.ts:21-23 | Lower-casing does not move the last '.'. |
| IpfsUtils.AfterLastDotOfLower | src/utils/ipfsUtils.ts:21-23 | Taking the text after the last dot commutes with lower-casing. |
| IpfsUtils.AfterLastDotOfJoin | src/utils/ipfsUtils.ts:21-23 | The text after the last dot of `a + "." + b`, where b has no dot, is b. |
| IpfsUtils.FileExtensionIsLastSegment | src/utils/ipfsUtils.ts:21-23 | The extension contains no dot. Without a dot it is the whole URL lower-cased. Otherwise it is the lower-cased text after the last dot, and it is empty when the URL ends with a dot. |
| IpfsUtils.IsVideoFileIgnoresCase | src/utils/ipfsUtils.ts:26-29 | The video test ignores ASCII case. |
| Js.FalsyValues | src/services/NftMetadataService.ts:21-27 | The falsy JSON values are exactly undefined, null, false, 0 and the empty string. This is the meaning of `!x` and `x \|\| y`. |
| Js.LowerIdempotent | src/utils/ipfsUtils.ts:22 | Lower-casing twice is the same as lower-casing once. |
| Js.IndexOfFrom | src/utils/ipfsUtils.ts:12 | The search finds the first occurrence at or after the start, and None only when there is none. |
| Js.LastIndexOf | src/utils/ipfsUtils.ts:22 | The search finds the last occurrence of the character before the end, and None only when there is none. |
| Js.LastIndexOfJoin | src/utils/ipfsUtils.ts:22 | In `a + [c] + b`, where b has no c, the last c is at index \|a\|. |
| Js.DigitChar | scripts/generateNftMetadata.ts:290 | Each digit value gives a decimal digit character. |
| Js.Decimal | scripts/generateNftMetadata.ts:290 | The decimal text of a natural number is non-empty and all digits, with no leading zero from 10 up. |
| Js.ParseDecimalOfDecimal | scripts/generateNftMetadata.ts:290 | Reading back the decimal text of n gives n. |
| Js.DecimalInjective | src/redux/nftLoadingDataSlice.ts:18 | Different numbers have different decimal texts. |
| NftMetadataService.GatewayListsAgree | src/services/NftMetadataService.ts:3-16 | The service's gateway list equals the shared one. `ipfsToHttp` equals `getIpfsUrl` of the stripped CID. |
| NftMetadataService.ValidateMetadata | src/services/NftMetadataService.ts:18-75 | Validation succeeds exactly when name, description and image are non-empty strings. On success, it returns those three strings, the coerced attributes and the coerced properties. On failure, it gives the missing-fields message, or JavaScript's TypeError text when the data itself is null or undefined. |
| NftMetadataService.MetadataJsonMembers | src/types/NftMetadataTypes.ts:15-21 | Each field of a metadata record is stored under its JSON member name. |
| NftMetadataService.CoerceAttributeOfJson | src/services/NftMetadataService.ts:34-41 | An attribute object with a non-empty trait name and a truthy or empty-string value comes back unchanged. |
| NftMetadataService.StringOfOrEmpty | src/services/NftMetadataService.ts:59-64 | `String(s \|\| '')` of a string is the string. |
| NftMetadataService.PropertiesJsonMembers | src/services/NftMetadataService.ts:56-65 | The JSON of a properties record is a truthy object that holds each field under its member name. |
| NftMetadataService.CoercePropertiesOfJson | src/services/NftMetadataService.ts:47-66 | Coercing the JSON of a properties record gives back that record. |
| NftMetadataService.CoerceAttributesOfJson | src/services/NftMetadataService.ts:32-45 | Coercing the JSON of an attribute list whose traits are all named gives back the list. |
| NftMetadataService.ValidateOfMetadataJson | src/services/NftMetadataService.ts:18-75 | Validating the JSON of a canonical record returns that record. A canonical record has non-empty required strings, named traits and truthy or empty values. |
| NftMetadataService.CoercedValuesCanonical | src/services/NftMetadataService.ts:39 | Every coerced attribute value is truthy or the empty string. |
| NftMetadataService.EmptyTraitRenamed | src/services/NftMetadataService.ts:38 | A record with an empty trait name does not survive validation, because the name is replaced by `attribute_<index>`. |
| NftMetadataService.ValidateIdempotent | src/services/NftMetadataService.ts:18-75 | Re-validating the JSON of a validated record gives that record exactly when none of its trait names is empty. |
| NftMetadataService.TryGatewaysFirstSuccess | src/services/NftMetadataService.ts:108-153 | The gateway loop returns a record exactly when some gateway succeeds with it and every earlier gateway failed. |
| NftMetadataService.TryGatewaysAllFail | src/services/NftMetadataService.ts:108-160 | The loop ends in an error exactly when every gateway fails. |
| NftMetadataService.TryGatewaysLastError | src/services/NftMetadataService.ts:148-160 | When the loop fails, its message names the last gateway's failure. |
| NftMetadataService.GatewayFailureText | src/services/NftMetadataService.ts:150 | The failure text of the third gateway is "Gateway 3 failed: " followed by the error message. |
| NftMetadataService.AllFailedMessageText | src/services/NftMetadataService.ts:156-158 | The final message is "Failed to fetch metadata from all 3 gateways. Last error: " followed by the last error. |
| NftMetadataService.AllGatewaysFailMessage | src/services/NftMetadataService.ts:105-160 | When all three gateways fail, the fetch fails with the full final message, which quotes the third gateway's error. |
| NftMetadataService.CacheHitSkipsNetwork | src/services/NftMetadataService.ts:91-94 | A cached URI is answered from the cache, whatever the network does, and nothing is written. |
| NftMetadataService.InvalidUriSkipsNetwork | src/services/NftMetadataService.ts:101-103 | Unless the cache answers first, a URI without `ipfs://` is rejected with the invalid-URI message and never reaches the network. |
| NftMetadataService.FetchWritesIffFetched | src/services/NftMetadataService.ts:89-161 | A fetch writes the cache exactly when caching is on, the URI was not cached and the fetch succeeded. It writes the returned record, under the URI. |
| NftMetadataService.TryGatewaysValidated | src/services/NftMetadataService.ts:137-147 | Every record the gateway loop returns has its three required strings. |
| NftMetadataService.FetchWritesValid | src/services/NftMetadataService.ts:141-144 | Every record a fetch writes to the cache is a validated one. |
| NftMetadataService.FetchKeepsCacheValid | src/services/NftMetadataService.ts:89-161 | A fetch keeps the cache invariant that every cached record is validated. |
| NftMetadataService.FetchByIdWritesValid | src/services/NftMetadataService.ts:163-171 | A fetch by token id writes only validated records. |
| NftMetadataService.BatchKeepsCacheValid | src/services/NftMetadataService.ts:174-278 | Preloading and batched fetching keep every cached record validated. |
| NftMetadataService.TokenUriOfNat | src/services/NftMetadataService.ts:168 | For a whole token id, the token URI is the base, the decimal id and ".json", with no separator. |
| NftMetadataService.FetchedTokenIsCached | src/services/NftMetadataService.ts:163-229 | After a successful fetch by id, `isTokenCached` for that token holds. |
| NftMetadataService.BatchReportsInvalidIds | src/services/NftMetadataService.ts:164-270 | In a batched fetch, a negative or fractional token id yields an error entry with the token-id message, at its own position. |
| NftMetadataService.Fetch | src/services/NftMetadataService.ts:89-161 | The gateway `for` loop is equal to the specification FetchSpec. |
| NftMetadataService.FetchById | src/services/NftMetadataService.ts:163-171 | The fetch by token id is equal to FetchByIdSpec: token id check, then the URI without '/', then the fetch. |
| NftMetadataService.MetadataCache.constructor | src/services/NftMetadataService.ts:9 | The cache starts empty. |
| NftMetadataService.MetadataCache.FetchMetadata | src/services/NftMetadataService.ts:89-161 | Returns FetchSpec's result and applies its write to the cache. |
| NftMetadataService.MetadataCache.FetchMetadataById | src/services/NftMetadataService.ts:163-171 | Returns FetchByIdSpec's result and applies its write to the cache. |
| NftMetadataService.MetadataCache.FetchChunk | src/services/NftMetadataService.ts:262-273 | One batch: every request sees the cache as it stood when the batch began. The results and writes come in token order. |
| NftMetadataService.MetadataCache.PreloadMetadata | src/services/NftMetadataService.ts:174-195 | The cache becomes Preload of the old cache. Failures are swallowed, and an empty list changes nothing. |
| NftMetadataService.MetadataCache.ClearMetadataCache | src/services/NftMetadataService.ts:198-202 | The cache becomes empty. |
| NftMetadataService.MetadataCache.RemoveFromCache | src/services/NftMetadataService.ts:207-214 | Returns whether the URI was cached, and removes it and nothing else. |
| NftMetadataService.MetadataCache.IsTokenCached | src/services/NftMetadataService.ts:226-229 | Holds exactly when the token's URI, with no separator, is a cache key. |
| NftMetadataService.MetadataCache.GetCacheStats | src/services/NftMetadataService.ts:234-251 | The size is the number of keys, and the keys are exactly the cached URIs. |
| NftMetadataService.MetadataCache.FetchMultipleMetadata | src/services/NftMetadataService.ts:253-278 | The `for` loop over batches of maxConcurrent ids returns Batch's entries and leaves Batch's cache. With maxConcurrent 0 and no ids, the loop does not run: it returns no entries and leaves the cache alone. |
| Batching.ChunkEntries | src/services/NftMetadataService.ts:262-273 | A batch yields one entry per id, in order. Each entry is that id's fetch against the cache as it stood when the batch began. |
| Batching.ChunkStep | src/services/NftMetadataService.ts:264-273 | Processing one more id of a batch appends its entry and applies its write. |
| Batching.BatchStep | src/services/NftMetadataService.ts:261-275 | The batched run is the first batch of maxConcurrent ids followed by the run on the rest. |
| Batching.BatchSoFarStep | src/services/NftMetadataService.ts:261-275 | The loop invariant of `fetchMultipleMetadata` survives one batch. |
| Batching.BatchSoFarDone | src/services/NftMetadataService.ts:277 | When the loop ends, the results and the cache are those of the whole batched run. |
| Batching.ChunkOfBounds | src/services/NftMetadataService.ts:261-262 | The id at index k falls in batch k / maxConcurrent. |
| Batching.LaterChunk | src/services/NftMetadataService.ts:261-262 | An id after the first batch belongs to the batch with the same number, one lower, in the rest of the run. |
| Batching.BatchEntries | src/services/NftMetadataService.ts:253-278 | Every id gets exactly one entry, in input order: its fetch against the cache as it stood when its own batch began. |
| Batching.BatchKeepsOrder | src/services/NftMetadataService.ts:267-274 | The results list the token ids in input order, one each. |
| Batching.PreloadIsOneChunk | src/services/NftMetadataService.ts:182-193 | A preload of a non-empty list is one batch holding all the ids. |
| Batching.ChunkKeeps | src/services/NftMetadataService.ts:264-273 | A batch keeps any cache invariant that every write keeps. |
| Batching.BatchKeeps | src/services/NftMetadataService.ts:253-278 | Batched fetching keeps any cache invariant that every write keeps. |
| Batching.PreloadKeeps | src/services/NftMetadataService.ts:174-195 | Preloading keeps any cache invariant that every write keeps. |
| IpfsService.SuccessUsesOneGateway | src/services/ipfsService.ts:37-68 | A successful attempt fetched the metadata and the video from the same gateway, both with an ok status. It returns the parsed JSON and the video response's URL, and records the JSON for the cache. |
| IpfsService.TryGatewaysFirstSuccess | src/services/ipfsService.ts:33-73 | The loop returns a value exactly when some gateway attempt succeeds with it and every earlier one failed. |
| IpfsService.GatewayAttemptsRecordPayload | src/services/ipfsService.ts:52-68 | Every successful attempt recorded the JSON it returns. |
| IpfsService.SuccessCachesReturnedPayload | src/services/ipfsService.ts:54-68 | When the loop succeeds, the JSON to cache is the returned metadata. |
| IpfsService.TryGatewaysAllFail | src/services/ipfsService.ts:33-75 | The loop fails exactly when every attempt fails. |
| IpfsService.TryGatewaysLastError | src/services/ipfsService.ts:69-75 | When the loop fails, the message quotes the last gateway's failure. |
| IpfsService.AllGatewaysFailMessage | src/services/ipfsService.ts:30-75 | When all gateways fail, the fetch fails with "Failed to fetch metadata/video from all gateways. Last error: Gateway 3 failed: …". |
| IpfsService.NothingParsedKeepsWrite | src/services/ipfsService.ts:54 | When no attempt parsed any JSON, the cache write stays as it was. |
| IpfsService.LastParsedPayloadStays | src/services/ipfsService.ts:54-72 | When all attempts fail, the pending write is the JSON of the last attempt that parsed one. |
| IpfsService.VideoFailureStillCaches | src/services/ipfsService.ts:54-75 | A fetch whose metadata arrived but whose video failed everywhere still fails. It has nonetheless cached the last metadata it parsed. |
| IpfsService.CacheHitSkipsNetwork | src/services/ipfsService.ts:20-23 | A cached URI is answered with the cached JSON and its image as video URL, whatever the network does. |
| IpfsService.InvalidUriSkipsNetwork | src/services/ipfsService.ts:26-28 | Unless the cache answers first, a URI without `ipfs://` is rejected and never reaches the network. |
| IpfsService.SuccessfulFetchIsCached | src/services/ipfsService.ts:54-68 | A successful fetch writes the returned metadata under its URI exactly when caching is on. |
| IpfsService.TokenKeysDiffer | src/services/ipfsService.ts:84-128 | The key `fetchMetadataById` writes, with '/', differs from the key `isTokenCached` checks, without it. |
| IpfsService.FetchedTokenNotReported | src/services/ipfsService.ts:79-130 | After a successful fetch by id, the token is cached, yet the `isTokenCached` check as written misses it. |
| IpfsService.FetchedTokenIsCached | src/services/ipfsService.ts:79-87 | After a successful fetch by id, the corrected check finds the token. |
| IpfsService.Fetch | src/services/ipfsService.ts:14-76 | The gateway `for` loop, including the cache write before the video fetch, is equal to the specification FetchSpec. |
| IpfsService.FetchById | src/services/ipfsService.ts:79-87 | The fetch by token id is equal to FetchByIdSpec: token id check, then the URI with '/', then the fetch. |
| IpfsService.MediaCache.constructor | src/services/ipfsService.ts:5 | The cache starts empty. |
| IpfsService.MediaCache.FetchMetadata | src/services/ipfsService.ts:14-76 | Returns FetchSpec's result and applies its write to the cache. |
| IpfsService.MediaCache.FetchMetadataById | src/services/ipfsService.ts:79-87 | Returns FetchByIdSpec's result and applies its write to the cache. |
| IpfsService.MediaCache.FetchChunk | src/services/ipfsService.ts:153-164 | One batch, against the cache as it stood when the batch began. The results and writes come in token order. |
| IpfsService.MediaCache.PreloadMetadata | src/services/ipfsService.ts:90-109 | The cache becomes Preload of the old cache. |
| IpfsService.MediaCache.ClearMetadataCache | src/services/ipfsService.ts:112-116 | The cache becomes empty. |
| IpfsService.MediaCache.RemoveFromCache | src/services/ipfsService.ts:118-123 | Returns whether the URI was cached, and removes it and nothing else. |
| IpfsService.MediaCache.IsTokenCachedAsWritten | src/services/ipfsService.ts:127-130 | Holds exactly when the key without '/' is cached. |
| IpfsService.MediaCache.IsTokenCached | src/services/ipfsService.ts:79-130 | Corrected check: holds exactly when the key that `fetchMetadataById` writes is cached. |
| IpfsService.MediaCache.GetCacheStats | src/services/ipfsService.ts:132-142 | The size is the number of keys, and the keys are exactly the cached URIs. |
| IpfsService.MediaCache.FetchMultipleMetadata | src/services/ipfsService.ts:145-168 | The loop over batches returns Batch's entries and leaves Batch's cache. With maxConcurrent 0 and no ids, it returns no entries and leaves the cache alone. |
| Generator.PadStart | scripts/generateNftMetadata.ts:290 | `padStart` gives the longer of the input and the width. The input is kept as a suffix and only the fill character is added in front. |
| Generator.DropWhitespace | scripts/generateNftMetadata.ts:306-307 | Dropping a whitespace run leaves a suffix that starts with no whitespace. Exactly the dropped prefix was whitespace. |
| Generator.TrailingDigits | scripts/generateNftMetadata.ts:290-293 | The trailing digits of a string form its longest all-digit suffix. |
| Generator.TrailingDigitsOfJoin | scripts/generateNftMetadata.ts:290-293 | A digit string appended to text that ends in a non-digit is exactly its trailing digits. |
| Generator.ParseDecimalLeadingZero | scripts/generateNftMetadata.ts:290 | A leading '0' does not change a numeral's value. |
| Generator.ParseDecimalOfZeros | scripts/generateNftMetadata.ts:290 | Any number of leading zeros does not change a numeral's value. |
| Generator.ParseDecimalOfPadded | scripts/generateNftMetadata.ts:290 | Zero-padding a numeral does not change its value. |
| Generator.PadIdReadsBack | scripts/generateNftMetadata.ts:290 | The padded id has at least three digits and reads back as the id. |
| Generator.PadIdInjective | scripts/generateNftMetadata.ts:290 | Different ids have different padded ids. |
| Generator.NameEndsWithId | scripts/generateNftMetadata.ts:290 | The NFT name ends with the padded id. |
| Generator.BasesEndInLetterOrSlash | scripts/generateNftMetadata.ts:292-293 | The image and external URL prefixes end in a non-digit. |
| Generator.UrlsEndWithId | scripts/generateNftMetadata.ts:292-293 | The image URL and the external URL end with the padded id. |
| Generator.FileNameEndsWithId | scripts/generateNftMetadata.ts:326 | The file name is the padded id followed by ".json". |
| Generator.GeneratedIdsAgree | scripts/generateNftMetadata.ts:288-326 | The name, the image, the external URL and the file name all carry the same padded id, which reads back as the course id. |
| Generator.FileNameInjective | scripts/generateNftMetadata.ts:326 | Courses with different ids write different files. |
| Generator.ValidateReadsFiveMembers | src/services/NftMetadataService.ts:18-75 | Validation reads only name, description, image, attributes and properties, so `external_url` does not affect it. |
| Generator.TraitsCanonical | scripts/generateNftMetadata.ts:294-303 | When lessons and difficulty are positive, every generated trait is named and has a truthy or empty value. |
| Generator.GeneratedIsCanonical | scripts/generateNftMetadata.ts:288-313 | When lessons and difficulty are positive, the generated record is canonical. |
| Generator.CanonicalGeneratedValidates | scripts/generateNftMetadata.ts:329 | The written JSON of a canonical generated record validates to that record. |
| Generator.GeneratedJsonMembers | scripts/generateNftMetadata.ts:22-36 | Where each field of the written JSON is stored. |
| Generator.GeneratedMetadataValidates | scripts/generateNftMetadata.ts:288-329 | With positive lessons and difficulty, a generated file passes `validateMetadata` and gives back the generated record. |
| Generator.GeneratedTraits | scripts/generateNftMetadata.ts:294-303 | The generated record has exactly eight attributes: the eight trait names in source order, the last being 'Category' with value "Course". |
| Generator.UnderscoreWhitespaceClean | scripts/generateNftMetadata.ts:306-307 | After `replace(/\s+/g, '_')` no whitespace is left. Every character is '_' or comes from the input. |
| Generator.UnderscoreWhitespaceIdentity | scripts/generateNftMetadata.ts:306-307 | Text without whitespace is unchanged. |
| Generator.LowerFixes | scripts/generateNftMetadata.ts:306-310 | Text that is already lower case is unchanged by lower-casing. |
| Generator.SlugIdempotent | scripts/generateNftMetadata.ts:306-307 | A slug contains no whitespace, and slugging a slug changes nothing. |
| Generator.UnderscoreWhitespaceOfPrefix | scripts/generateNftMetadata.ts:306-307 | A whitespace-free prefix passes through unchanged. |
| Generator.ImageBaseColon | scripts/generateNftMetadata.ts:292 | The image prefix holds its only ':' after "https". |
| Generator.ImageHoldsNoScheme | scripts/generateNftMetadata.ts:292 | A generated image URL never contains `ipfs://`. |
| Generator.ImageBaseLastDot | scripts/generateNftMetadata.ts:292 | The last '.' of the image prefix is the one in "ipfs.io". |
| Generator.ImageIsNotVideo | scripts/generateNftMetadata.ts:292 | A generated image URL does not pass the video test: its extension is "io/ipfs/…". |
| Generator.VideoCidOfGenerated | src/services/ipfsService.ts:57 | The video CID that `ipfsService` takes from a generated file is its image stripped of `ipfs://`. |
| Generator.GeneratedImageIsNotIpfsUri | src/services/ipfsService.ts:57-58 | The generated image is already an https URL. `ipfsService` therefore fetches it behind a gateway prefix, and it fails the video test. |
| Generator.WritesKeys | scripts/generateNftMetadata.ts:324-336 | The written files are exactly the names written. |
| Generator.WritesValues | scripts/generateNftMetadata.ts:324-336 | With distinct names, each file holds its own contents. |
| Generator.WritesSize | scripts/generateNftMetadata.ts:324-336 | With distinct names, there is one file per write. |
| Generator.WritesOnePerName | scripts/generateNftMetadata.ts:324-336 | With distinct names: the files are the names written, each holds its own contents, and there are as many files as writes. |
| Generator.WritesStep | scripts/generateNftMetadata.ts:329 | Each write adds or replaces exactly one file. |
| Generator.WrittenFilesOfDistinct | scripts/generateNftMetadata.ts:324-336 | With distinct file names, every course has its file holding its generated metadata, and there is one file per course. |
| Generator.CourseTableNumbered | scripts/generateNftMetadata.ts:38-286 | The table holds twenty courses, numbered 1 to 20 in order. |
| Generator.CourseTableCounted | scripts/generateNftMetadata.ts:38-286 | Every course has positive lessons and difficulty. |
| Generator.NumberedFilesValidate | scripts/generateNftMetadata.ts:324-336 | When the courses are numbered from 1 and counted, every written file validates to its course's record. |
| Generator.CourseTableFilesValidate | scripts/generateNftMetadata.ts:38-336 | Every one of the twenty files the script writes passes `validateMetadata`. |
| Generator.TallyCounts | scripts/generateNftMetadata.ts:344-347 | The tally counts each value as often as it occurs. Its keys are exactly the values seen. |
| Generator.TotalRemove | scripts/generateNftMetadata.ts:341-347 | A total splits off any one key's count. |
| Generator.TallyTotal | scripts/generateNftMetadata.ts:341-347 | The counts of a tally add up to the number of courses. |
| Generator.WriteCourseFiles | scripts/generateNftMetadata.ts:324-336 | The `forEach` loop writes exactly WrittenFiles of the courses. |
| Generator.CountCourses | scripts/generateNftMetadata.ts:341-347 | The counting loop leaves, for every style and level, its number of occurrences. The counts add up to the number of courses. |
| Generator.GenerateAllCourseNFTs | scripts/generateNftMetadata.ts:315-358 | Writes one file per course and returns style and level counts that agree with the courses. |
| NftCard.DifficultyColor | src/componentes/NftCard.tsx:26-30 | Green exactly for difficulty up to 2, yellow exactly for above 2 and up to 4, red exactly above 4. |
| NftCard.DifficultyColorMonotone | src/componentes/NftCard.tsx:26-30 | A harder course never gets a milder colour band. |
| NftCard.Lookup | src/componentes/NftCard.tsx:32-58 | A `switch` finds the colour of a matching case, and gray when no case matches. |
| NftCard.LevelColorCases | src/componentes/NftCard.tsx:32-43 | beginner is blue, intermediate purple and advanced orange, in any ASCII case. Anything else is gray. |
| NftCard.StyleColorCases | src/componentes/NftCard.tsx:45-58 | hatha is indigo, vinyasa pink, ashtanga red and yin teal, in any ASCII case. Anything else is gray. |
| NftCard.ColorsDistinct | src/componentes/NftCard.tsx:32-58 | The level colours differ from each other, as do the style colours, and none is the gray default. |
| NftCard.FindTrait | src/componentes/NftCard.tsx:61-66 | `find` returns the value of the first attribute with that trait name, and undefined only when there is none. |
| NftCard.TraitNamesOfGenerated | scripts/generateNftMetadata.ts:294-303 | The generated trait names, by index. |
| NftCard.FindGeneratedTrait | src/componentes/NftCard.tsx:61-66 | On a generated record, a lookup by a generated name finds that trait. Any other name finds nothing. |
| NftCard.CardNamesNotGenerated | src/componentes/NftCard.tsx:62-65 | 'Duration', 'Lessons' and 'Focus' are not among the generator's names. |
| NftCard.FindGeneratedTraitAt | src/componentes/NftCard.tsx:61-66 | The lookup by the k-th generated name finds the k-th value. |
| NftCard.CardFindsGeneratedTraits | src/componentes/NftCard.tsx:61-66 | On a generated record, the card finds the level, the difficulty and the accessibility. |
| NftCard.CardMissesGeneratedNames | src/componentes/NftCard.tsx:62-65 | On a generated record, the card finds no duration, lesson count or focus. |
| NftCard.CardMissesGeneratedTraits | src/componentes/NftCard.tsx:61-66 | What the card reads from a generated record: level, difficulty and accessibility, and nothing for the other three. |
| NftCard.GeneratedNamesReadEveryTrait | src/componentes/NftCard.tsx:61-66 | Reading by the generator's names finds all six values of a generated record. |
| NftCard.GeneratedBadge | src/componentes/NftCard.tsx:178-182 | A generated card shows the badge exactly when the course's accessibility is "Full". |
| NftLoadingData.NftLoadingStore.constructor | src/redux/nftLoadingDataSlice.ts:12-16 | The state starts with three empty maps. |
| NftLoadingData.NftLoadingStore.ClearError | src/redux/nftLoadingDataSlice.ts:39-41 | Removes that key's error and nothing else. |
| NftLoadingData.NftLoadingStore.ClearNftData | src/redux/nftLoadingDataSlice.ts:42-46 | Removes that key from data, loading and errors. |
| NftLoadingData.NftLoadingStore.Pending | src/redux/nftLoadingDataSlice.ts:50-54 | The state becomes the reducer's pending step. |
| NftLoadingData.NftLoadingStore.Fulfilled | src/redux/nftLoadingDataSlice.ts:55-59 | Stores the data, sets loading to false and leaves errors alone. |
| NftLoadingData.NftLoadingStore.Rejected | src/redux/nftLoadingDataSlice.ts:60-64 | Sets loading to false, stores the error and leaves data alone. |
| NftLoadingData.NftLoadingStore.Dispatch | src/redux/nftLoadingDataSlice.ts:35-66 | The state becomes Reduce of the old state and the action. |
| NftLoadingData.OtherKeysUnchanged | src/redux/nftLoadingDataSlice.ts:38-65 | Every action touches only its own key. |
| NftLoadingData.FetchSucceeds | src/redux/nftLoadingDataSlice.ts:21-59 | Pending then fulfilled: the data is there, loading is false and there is no error. |
| NftLoadingData.FetchPending | src/redux/nftLoadingDataSlice.ts:50-54 | Pending: loading is true, the error is cleared and data already present stays. |
| NftLoadingData.FetchFails | src/redux/nftLoadingDataSlice.ts:21-64 | Pending then rejected: the earlier data stays, loading is false and the error is stored. |
| NftLoadingData.ClearNftDataForgets | src/redux/nftLoadingDataSlice.ts:42-85 | After clearNftData, the three selectors answer as in the initial state. |
| NftLoadingData.UnknownKeyNotLoading | src/redux/nftLoadingDataSlice.ts:77-80 | A key never seen is not loading (`\|\| false`). |
| NftLoadingData.ClearErrorIdempotent | src/redux/nftLoadingDataSlice.ts:39-41 | clearError removes the error and nothing else. Doing it twice is the same as once. |
| NftLoadingData.MakeKeyInjective | src/redux/nftLoadingDataSlice.ts:18 | For whole token ids, the key determines the base URI and the token id. |
| Pages.ParsePage | src/redux/pagesSlice.ts:4 | A string names a page exactly when it is one of the four in the union. |
| Pages.PageNameRoundTrip | src/redux/pagesSlice.ts:4 | Page names and pages round-trip in both directions. |
| Pages.CurrentPageStore.constructor | src/redux/pagesSlice.ts:10-12 | The store starts on the gallery. |
| Pages.CurrentPageStore.SetCurrentPage | src/redux/pagesSlice.ts:18-20 | Sets the page. |
| Pages.LastPageSetWins | src/redux/pagesSlice.ts:18-28 | After setting one page and then another, `selectCurrentPage` returns the second. A later `setCurrentPage` overwrites an earlier one, whatever either page is. |
| SelectedNft.SelectedNftStore.constructor | src/redux/selectedNftSlice.ts:9-11 | Nothing is selected at first. |
| SelectedNft.SelectedNftStore.SetSelectedNft | src/redux/selectedNftSlice.ts:17-19 | Sets the selection, which may be null. |
| SelectedNft.SelectedNftStore.ClearSelectedNft | src/redux/selectedNftSlice.ts:20-22 | Clears the selection. |

## Left out

- **Network.** The network, `fetch` options and headers, `AbortController` and the timeouts are left out. The network is an oracle parameter (`Js.Host`). An aborted request is just one more error reply.
  - The oracle is a function: within one operation it answers a URL the same way every time. The model has no flaky gateway and no answer that varies from one request to the next.
  - This is why applying the writes of a batch in token order gives the same cache as any completion order, even when one batch holds the same id twice.
- **Logging.** All `console` logging is left out. It changes no state.
- **Concurrency.**
  - Promise scheduling is not modelled. The requests of one batch in `fetchMultipleMetadata`, and all requests of `preloadMetadata`, are modelled as running against the cache as it stood when the batch began, with their writes applied in token order.
  - That snapshot is exact rather than an approximation. Each request checks the cache synchronously before its first `await`, so no request of a batch can see another request's write to the same cache.
  - Only the order in which the requests finish is abstracted. Under a fixed oracle it does not change the result.
- **Host oracles.**
  - JavaScript's `String(x)` for non-strings and the text of a number are host functions: the oracle parameters `stringOf` and `numberText`.
  - `Js.NumberToString` writes whole numbers of magnitude below 10^21 (where JavaScript switches to exponent notation) itself. It leaves every other number to the `numberText` oracle.
- **Character handling.** `toLowerCase` is modelled for ASCII letters only. Unicode case mapping is not modelled. `\s` (`Js.IsWhitespace`) has JavaScript's full whitespace set, Unicode spaces and U+FEFF included.
- **Numbers.** A JavaScript number is a `real`, so NaN, the infinities, -0 and floating-point rounding are not modelled. This affects token ids, `difficulty` and `lessons`. No behaviour that the source relies on changes.
- **getCacheStats.**
  - Its `memoryUsage` string, which depends on `JSON.stringify` output size, is left out.
  - The key order of `Array.from(map.keys())` is not modelled. The keys are a set.
- **The nftLoadingData thunk.** The `createAsyncThunk` wiring, with its request ids and meta, is modelled as the three reducer actions it dispatches. The error text is passed in.
- NftMetadataService.MetadataCache.FetchMultipleMetadata: requires `maxConcurrent > 0 || tokenIds == []`.
  - With maxConcurrent 0 and a non-empty list, the source's `for` loop never advances and never ends, so that input is excluded.
  - With 0 and an empty list, the loop does not run and the method returns no entries.
  - `maxConcurrent` is a `nat`. A negative value, for which the source loops forever too, cannot be passed, and a fractional one is not modelled.
- IpfsService.MediaCache.FetchMultipleMetadata: the same requires, for the same reasons.
- **generateAllCourseNFTs.**
  - `fs.existsSync`, `mkdirSync`, `path.join` and the pretty-printing of `JSON.stringify` are left out. The written files are a map from file name to JSON value.
  - The order of `Object.entries` in the statistics output is left out, since it only affects printing.
  - The method takes the course list as a parameter. The lemmas about the script's own twenty-course table are stated for `Generator.Courses`.
- **Generator.PadId.** Ids are natural numbers below 2^53 (`SafeNat`), so their decimal text is exact.
- **NftCard.**
  - The rendering, the JSX, the video element and its state are left out.
  - The `nft` the component reads is never declared in the file. The model states the card's lookups on an attribute list instead.
  - The `difficulty &&` guard of the difficulty badge is left out.
- **IpfsService.MediaCache.IsMetadataCached** and **NftMetadataService.MetadataCache.IsMetadataCached** carry no contract of their own. Each is just key membership, and `GetCacheStats` is stated in terms of it.
- **src/types/nftTypes.ts.** Only the fields the services read are modelled: the metadata JSON and the video URL.

## Findings

| source | as written | input that shows it | evidently intended | confidence | as-written member | corrected member |
|---|---|---|---|---|---|---|
| src/services/ipfsService.ts:127-130 | `isTokenCached` looks up `${ipfsBaseUri}${tokenId}.json`, but `fetchMetadataById` (line 84) caches under `${ipfsBaseUri}/${tokenId}.json` | fetch token 1 under base "ipfs://Qm" successfully. The cache then holds "ipfs://Qm/1.json", while `isTokenCached("ipfs://Qm", 1)` looks for "ipfs://Qm1.json" and answers false | `isTokenCached` is true after a successful `fetchMetadataById` of the same token | high (not executed) | IpfsService.FetchedTokenNotReported | IpfsService.FetchedTokenIsCached |
| src/componentes/NftCard.tsx:62-65 | the card looks up the traits 'Duration', 'Lessons' and 'Focus', but the generator (scripts/generateNftMetadata.ts:297-300) names them 'Lesson Duration', 'Number of Lessons' and 'Main Focus' | any generated course, for example course 1: its card finds no duration, no lesson count and no focus | the card shows all six traits of a generated record | medium (not executed) | NftCard.CardMissesGeneratedTraits | NftCard.GeneratedNamesReadEveryTrait |
