# Azure Function static files, modelled in Dafny

The repository is an Azure Function that serves the blobs of a storage
container over HTTP, the way a static web site is served. A request
`GET {container}/{*path}` works as follows:

- The object path is normalised (`Get.NormalisePath`).
- A redirect base URI is derived from the request: scheme, host, and the
  request path with the object path cut off its end.
- `Get.ServeBlob` resolves the path:
  - the bare container root redirects to itself plus `/`;
  - a directory path (one ending in `/`) gets the configured index file name
    appended;
  - the blob is downloaded and returned with its content type and an ETag;
  - a missing blob is probed for a nested index, and the result is a redirect
    to the directory or a 404;
  - any other download failure is a 500;
  - a failure of the probe itself escapes (see below).

The model has one module per source class, plus two support modules:

- `Wrappers`: the `Option` type.
- `Strings`: the .NET string members used, with ordinal comparison. These are
  `IsNullOrEmpty`, `StartsWith`, `EndsWith`, `LastIndexOf` and
  `Path.GetFileName` with `/` as the separator.
- `StringExtensions`: `ValueOrDefault`, a fallback for null or empty strings.
- `HttpStatusMessageResult`: the 404/500 message table and the result's
  (status code, body) pair.
- `BlobResult`: the uppercase-hex MD5 formatter and the quoted entity tag.
  - The formatter is a method with a loop, proved equal to the function `Hex`.
  - `Hex` has `UnHex` as its inverse, in both directions.
- `Get`: `NormalisePath`, `ServeBlob` and `Run`.
  - Storage is a `ContainerClient`: two functions that give, for a blob name,
    the outcome of a download and of a properties read.
  - `ServeBlob` and `Run` return the outcome, either a returned action result
    or an exception that escapes. They also return the trace of storage calls
    and log levels, in order. That trace is what makes "storage is never
    consulted" and "the probe comes only after a not-found download"
    statable.
  - The behaviour of `ServeBlob` is packaged in two predicates:
    `ServesDownload` for a non-root path and `ServesMissing` for its
    "BlobNotFound" clause.
- `Scenarios`: the cases of `AzureFunctionStaticFiles.Tests/GetTests.cs`
  replayed through `Run` as client code (lines 197-289). They cover an
  existing file, a missing file, the bare-container and nested-directory
  redirects, a directory index, and a storage outage.

### Probe faults escape the handler

The catch-all clause at `Get.cs:135-138` suggests that every failure becomes
a 500. It does not catch a fault during the nested-index probe. The probe
fault is rethrown at `Get.cs:122`, inside the
`catch (Azure.RequestFailedException)` clause. A sibling `catch (Exception)`
of the same `try` does not catch an exception thrown from another catch
clause, so the exception leaves `ServeBlob` unhandled. The model describes
what the code does. `ServesMissing` gives `Threw(RequestFailedException(code))`
or `Threw(UnclassifiedException)` for a probe fault.
`Get.ServeBlobResultsWellFormed` proves that an exception leaves `ServeBlob`
only in one case. The download reported "BlobNotFound", the path was
eligible for the probe, and the probe then failed with something other than
"BlobNotFound".

The model also follows the code in two other places:

- **A null `BlobContentHash`.** `FormatMd5Bytes` dereferences the null hash
  inside the `try`, and the catch-all clause turns that into a 500. This
  happens after the 200 information entry has been logged.
- **A path that does not occur in the request path.** `Run` does not check
  this case. `LastIndexOf` then returns -1 and `Substring` throws. The model
  gives `Threw(ArgumentOutOfRangeException)` with an empty trace; this is not
  a precondition. `Get.Run` proves that this cannot happen when the
  normalised path ends the request path.

## Model

| member | source | states |
|---|---|---|
| Strings.IsNullOrEmpty | AzureFunctionStaticFiles/Get.cs:34 | `string.IsNullOrEmpty`: null or the empty string (a definition) |
| Strings.Interpolate | AzureFunctionStaticFiles/Get.cs:201 | string interpolation renders a null reference as "" (a definition) |
| Strings.StartsWith | AzureFunctionStaticFiles/Get.cs:42 | `StartsWith`, ordinal: the string begins with the prefix (a definition) |
| Strings.EndsWith | AzureFunctionStaticFiles/Get.cs:34 | `EndsWith`, ordinal: the string finishes with the suffix (a definition) |
| Strings.LastIndexOf | AzureFunctionStaticFiles/Get.cs:198 | the result is -1 or an index where the needle occurs, and the needle occurs at no larger index |
| Strings.LastIndexOfSuffix | AzureFunctionStaticFiles/Get.cs:198 | when the needle ends the string, its last occurrence starts at length minus needle length |
| Strings.GetFileName | AzureFunctionStaticFiles/Get.cs:107 | the file name has no "/", ends the path, and is preceded by "/" whenever it is not the whole path |
| Strings.GetFileNameAfterSlash | AzureFunctionStaticFiles/Get.cs:107 | the file name of a directory ending in "/", followed by a slash-free name, is that name |
| StringExtensions.ValueOrDefault | AzureFunctionStaticFiles/StringExtensions.cs:17-24 | a null or empty value gives the default; any other value is returned unchanged; the result is null or empty exactly when both are |
| StringExtensions.ValueOrDefaultIdempotent | AzureFunctionStaticFiles/StringExtensions.cs:17-24 | falling back twice to the same default equals falling back once |
| HttpStatusMessageResult.GetStatusCodeMessage | AzureFunctionStaticFiles/HttpStatusMessageResult.cs:20-31 | only 404 and 500 are accepted; 404 gives "404 Not Found", 500 gives "500 Internal Server Error"; each message starts with the code's decimal digits and a space |
| HttpStatusMessageResult.DecimalString | AzureFunctionStaticFiles/HttpStatusMessageResult.cs:22-27 | the decimal rendering of a status code is non-empty and made of digits only |
| HttpStatusMessageResult.DecimalStringValue | AzureFunctionStaticFiles/HttpStatusMessageResult.cs:22-27 | reading the decimal rendering of n back as digits gives n |
| HttpStatusMessageResult.NewHttpStatusMessageResult | AzureFunctionStaticFiles/HttpStatusMessageResult.cs:39-43 | the result's status code is the argument and its body is the mapped message |
| BlobResult.HexDigit | AzureFunctionStaticFiles/BlobResult.cs:21 | each nibble is written as one uppercase hex digit, 0-9A-F |
| BlobResult.ByteHex | AzureFunctionStaticFiles/BlobResult.cs:21 | "X2" writes a byte as two uppercase hex digits that read back as its high and low nibble |
| BlobResult.HexValue | AzureFunctionStaticFiles/BlobResult.cs:21 | each uppercase hex digit stands for a nibble below 16 whose "X" digit it is |
| BlobResult.Hex | AzureFunctionStaticFiles/BlobResult.cs:18-24 | the encoding has exactly two characters per byte, all in 0-9A-F |
| BlobResult.HexAt | AzureFunctionStaticFiles/BlobResult.cs:19-22 | characters 2i and 2i+1 of the encoding are the high and low nibble of byte i, in that order |
| BlobResult.UnHex | AzureFunctionStaticFiles/BlobResult.cs:16-25 | the reference decoder: anything it accepts is two characters per decoded byte |
| BlobResult.UnHexHex | AzureFunctionStaticFiles/BlobResult.cs:16-25 | decoding the encoding of any byte sequence gives back that sequence |
| BlobResult.HexUnHex | AzureFunctionStaticFiles/BlobResult.cs:16-25 | every string the decoder accepts is the encoding of what it decodes to |
| BlobResult.HexInjective | AzureFunctionStaticFiles/BlobResult.cs:16-25 | distinct hashes give distinct hex strings |
| BlobResult.FormatMd5Bytes | AzureFunctionStaticFiles/BlobResult.cs:16-25 | the string-builder loop produces `Hex(raw)`: length 2n, with byte i's high and low nibble at positions 2i and 2i+1 |
| BlobResult.EntityTag | AzureFunctionStaticFiles/BlobResult.cs:35 | the tag is the hex digest between two double quotes, two characters longer than the digest |
| BlobResult.NewBlobResult | AzureFunctionStaticFiles/BlobResult.cs:30-36 | with a hash, the result keeps the stored content type and gets the quoted hex tag of length 2n+2; a null hash gives no result (the dereference fails) |
| Get.NotFound | AzureFunctionStaticFiles/Get.cs:127 | the 404 result: status 404 with body "404 Not Found" |
| Get.InternalServerError | AzureFunctionStaticFiles/Get.cs:132-138 | the 500 result: status 500 with body "500 Internal Server Error" |
| Get.NormalisePath | AzureFunctionStaticFiles/Get.cs:32-50 | the result is "" or starts with "/"; a null or empty path gives "/" if the request path ends in "/" and "" otherwise; a path without a leading "/" gets one prepended; a path with one is unchanged |
| Get.NormalisePathIdempotent | AzureFunctionStaticFiles/Get.cs:42-49 | normalising a normalised path again, with the same request path, changes nothing |
| Get.IndexCandidate | AzureFunctionStaticFiles/Get.cs:90-94 | the candidate extends the path; it differs from the path exactly when an index name is set and the path is empty or ends in "/", and then it is the path plus the index name |
| Get.StorageName | AzureFunctionStaticFiles/Get.cs:96 | the blob name is the candidate with exactly its first character removed |
| Get.ProbeEligible | AzureFunctionStaticFiles/Get.cs:106-107 | a missing blob is probed when an index name is set and the candidate's file name is not that name (a definition) |
| Get.ProbeName | AzureFunctionStaticFiles/Get.cs:112 | the probed name starts with the blob name plus "/" and ends with "/" plus the index name |
| Get.ServesMissing | AzureFunctionStaticFiles/Get.cs:104-127 | the case table of the "BlobNotFound" clause: 404 when not eligible; otherwise one probe, then a redirect, a 404, or the escaping probe exception (a definition) |
| Get.ServesDownload | AzureFunctionStaticFiles/Get.cs:96-139 | the case table of a non-root request: one download, then the blob, a 500, or the "BlobNotFound" clause, with the trace of each case (a definition) |
| Get.DirectoryRequestNamesIndex | AzureFunctionStaticFiles/Get.cs:90-96 | a request for "/dir/" downloads "dir/" followed by the index name |
| Get.OtherRequestNamesPath | AzureFunctionStaticFiles/Get.cs:90-96 | without an index name, or for a path not ending in "/", the download names the path without its leading "/" |
| Get.DirectoryRequestNeverProbes | AzureFunctionStaticFiles/Get.cs:90-107 | after index substitution a directory request's file name is the index name, so its miss is never probed |
| Get.ServeMissing | AzureFunctionStaticFiles/Get.cs:104-127 | when eligible, probes `{name}/{indexName}` once: redirect to base + path + "/" if it exists, 404 if it is missing, and the probe's exception escapes otherwise; when not eligible, 404 |
| Get.ServeBlob | AzureFunctionStaticFiles/Get.cs:80-140 | the bare root gives a permanent redirect to base + "/" with no storage call; otherwise one download of the (index-substituted) name, then the blob with its content type and tag, 500 for a null hash or any failure other than "BlobNotFound", and the missing-blob clause for "BlobNotFound" |
| Get.ServeBlobResultsWellFormed | AzureFunctionStaticFiles/Get.cs:80-140 | every redirect is permanent, starts with the base URI and ends in "/"; every status result has a known code; an exception escapes only after a "BlobNotFound" download, for an eligible path, when the probe fails with something other than "BlobNotFound" |
| Get.NotFoundOnlyForMissingBlob | AzureFunctionStaticFiles/Get.cs:102-133 | a 404 implies the download reported "BlobNotFound", so a storage fault never becomes a 404 |
| Get.ExistingBlobServed | AzureFunctionStaticFiles/Get.cs:98-100 | a downloaded blob is served with its stored content type and a quoted tag from which the decoder recovers the hash |
| Get.DownloadFaultIsServerError | AzureFunctionStaticFiles/Get.cs:129-139 | any download failure other than "BlobNotFound" gives status 500 with body "500 Internal Server Error" |
| Get.ProbeFollowsNotFound | AzureFunctionStaticFiles/Get.cs:97-125 | a properties read in the trace is its second event, it follows a "BlobNotFound" download, and it names `{name}/{indexName}` |
| Get.ServeBlobRedirects | AzureFunctionStaticFiles/Get.cs:84-116 | a redirect is base + "/" for the bare root, and otherwise base + the eligible candidate path + "/" |
| Get.BasePath | AzureFunctionStaticFiles/Get.cs:195-199 | an empty path gives the whole request path; otherwise no result exactly when the path does not occur, and the result is the text before an occurrence after which the path occurs no more (the last one); when the path ends the request path, base path + path is the request path |
| Get.EffectiveHost | AzureFunctionStaticFiles/Get.cs:200 | the configured host name when it is non-empty, else the request's Host header (null renders as "") |
| Get.Run | AzureFunctionStaticFiles/Get.cs:188-207 | normalises the path; throws, with no storage call, when the path does not occur in the request path; otherwise serves under baseUri = scheme + "://" + host + base path; never throws that for a path that ends the request path; when the index name is empty or has no "/", a redirect of such a request goes to its own URL plus "/" |
| Get.EligibleCandidateIsPath | AzureFunctionStaticFiles/Get.cs:90-107 | when the index name has no "/", a path that can be probed is one that was not index-substituted |
| Get.RedirectTargetsRequestDirectory | AzureFunctionStaticFiles/Get.cs:193-201 | when base path + path is the request path, both redirect shapes go to scheme://host + request path + "/" |
| Get.BareRootRedirectsToSlash | AzureFunctionStaticFiles/Get.cs:193-198 | a null or empty path on a request path without a trailing "/" normalises to "" and keeps the whole request path as the base |

## Left out

- The storage SDK (`BlobServiceClient`, `GetBlobClient`, `DownloadAsync`, `GetProperties`, `Get.cs:55-60, 112-113, 203-204`) is network I/O behind library types. It is the `ContainerClient` parameter: one function per call, from blob name to outcome. `Run` takes the container lookup as a function of the container name; the connection string is not modelled.
- Error codes are strings; a null error code behaves like any other code that is not "BlobNotFound".
- Blob content streams and the framework result types (`FileStreamResult`, `RedirectResult`, `ObjectResult`) are plain datatypes. The content stream is not modelled.
- Get.ExistingBlobServed: does not model how `FileStreamResult(Stream, string)` parses the stored content type. A type it cannot parse throws inside the `try`, and the catch-all (`Get.cs:135-138`) then gives a 500. The model serves every download that carries a hash.
- Log message text is formatting. The trace records each entry's level and the status it reports.
- `async`/`Task` and cancellation are left out: each request runs sequentially, with nothing shared between requests.
- Options binding and dependency injection (`Startup.cs`, `StorageOptions.cs`, `FrontendOptions.cs`) are reduced to the two option values used: host name and index name.
- `Path.GetFileName` also treats `\` as a separator on Windows; only `/` is modelled, as on Linux.
- C#'s `StartsWith`, `EndsWith` and `LastIndexOf(string)` compare with the current culture; the model compares ordinally, character by character.
- HttpStatusMessageResult.GetStatusCodeMessage: the `NotImplementedException` for an unknown code is a precondition (404 or 500). The only callers pass those two codes, which the model's `NotFound` and `InternalServerError` show.
- `TestRedirectsHonourHostNameOption` (`GetTests.cs:291-303`) has no `[Fact]` attribute, and it expects a redirect for an existing `index.html`, which `Get.cs` does not produce. It is not a scenario.
- The second missing-file test input, `missing/missing.html`, is not a scenario. The missing-file scenario uses a blob named `absent`. The lemma `Get.NotFoundOnlyForMissingBlob` and the case table `Get.ServesMissing` cover any name.
