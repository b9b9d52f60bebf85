/**
 * The `Get` function: resolve `{container}/{*path}` against blob storage.
 *
 * Storage is a `ContainerClient` whose two calls return the outcomes the
 * storage SDK reports (a download, or a request failure with its error code,
 * or some other exception). `ServeBlob` and `Run` also return the trace of
 * storage calls and log entries they make, in order.
 */
module Get {
  import opened Wrappers
  import opened Strings
  import opened StringExtensions
  import BlobResult
  import HttpStatusMessageResult

  /** The error code the storage service reports for a missing blob. */
  const BlobNotFound := "BlobNotFound"

  /** What downloading a blob gives: its properties, or the exception raised. */
  datatype FetchOutcome =
    | Downloaded(contentType: string, contentHash: Option<seq<BlobResult.byte>>)
    | RequestFailed(errorCode: string)
    | OtherFailure

  /** What reading a blob's properties gives. */
  datatype ProbeOutcome =
    | PropertiesFound
    | ProbeRequestFailed(errorCode: string)
    | ProbeOtherFailure

  /** A client for one container: download a blob, read a blob's properties. */
  datatype ContainerClient = ContainerClient(download: string -> FetchOutcome, getProperties: string -> ProbeOutcome)

  /** The action results the function builds. */
  datatype ActionResult =
    | Blob(blob: BlobResult.BlobResult)
    | Redirect(url: string, permanent: bool)
    | StatusMessage(status: HttpStatusMessageResult.HttpStatusMessageResult)

  /** Exceptions that leave the function unhandled. */
  datatype Exception =
    | RequestFailedException(errorCode: string)
    | UnclassifiedException
    | ArgumentOutOfRangeException

  datatype Outcome = Returned(result: ActionResult) | Threw(exception: Exception)

  datatype LogLevel = Information | Warning | Error

  /** A storage call or a log entry (with the status it reports). */
  datatype Event = Download(name: string) | GetProperties(name: string) | Log(level: LogLevel, status: int)

  /** The HTTP request: scheme, `Host` header and the complete request path. */
  datatype Request = Request(scheme: string, host: NullableString, path: string)

  /** Configuration: `FrontendOptions.HostName` and `StorageOptions.IndexName`. */
  datatype Options = Options(hostName: NullableString, indexName: NullableString)

  /** The 404 and 500 results. */
  function NotFound(): (r: ActionResult)
    ensures r.StatusMessage? && r.status.statusCode == 404 && r.status.value == "404 Not Found"
  {
    StatusMessage(HttpStatusMessageResult.NewHttpStatusMessageResult(404))
  }

  function InternalServerError(): (r: ActionResult)
    ensures r.StatusMessage? && r.status.statusCode == 500 && r.status.value == "500 Internal Server Error"
  {
    StatusMessage(HttpStatusMessageResult.NewHttpStatusMessageResult(500))
  }

  /**
   * `NormalisePath`: the path of an object within the container. Empty
   * (bare container root), "/" (root with a trailing slash) or a path that
   * starts with "/".
   */
  function NormalisePath(path: NullableString, requestPath: string): (r: string)
    ensures r == "" || r[0] == '/'
    ensures IsNullOrEmpty(path) ==> (r == "/" <==> EndsWith(requestPath, "/"))
    ensures IsNullOrEmpty(path) ==> (r == "" <==> !EndsWith(requestPath, "/"))
    ensures !IsNullOrEmpty(path) && path.value[0] != '/' ==> r == "/" + path.value
    ensures !IsNullOrEmpty(path) && path.value[0] == '/' ==> r == path.value
  {
    if IsNullOrEmpty(path) && EndsWith(requestPath, "/") then "/"
    else if IsNullOrEmpty(path) then ""
    else if !StartsWith(path.value, "/") then "/" + path.value
    else path.value
  }

  /** Normalising a normalised path changes nothing. */
  lemma NormalisePathIdempotent(path: NullableString, requestPath: string)
    ensures NormalisePath(Some(NormalisePath(path, requestPath)), requestPath) == NormalisePath(path, requestPath)
  {
  }

  /** The blob path after index substitution: directory paths get the index name appended. */
  function IndexCandidate(path: string, indexName: NullableString): (candidate: string)
    ensures StartsWith(candidate, path)
    ensures candidate != path <==> !IsNullOrEmpty(indexName) && (path == "" || EndsWith(path, "/"))
    ensures candidate != path ==> candidate == path + indexName.value
  {
    if !IsNullOrEmpty(indexName) && (path == "" || EndsWith(path, "/")) then path + indexName.value
    else path
  }

  /** The blob name requested from storage: the candidate without its leading "/". */
  function StorageName(path: string, indexName: NullableString): (name: string)
    requires path != ""
    ensures [IndexCandidate(path, indexName)[0]] + name == IndexCandidate(path, indexName)
  {
    IndexCandidate(path, indexName)[1..]
  }

  /** A missing blob is probed for a nested index when an index is configured and not what was asked for. */
  predicate ProbeEligible(candidate: string, indexName: NullableString) {
    !IsNullOrEmpty(indexName) && GetFileName(candidate) != indexName.value
  }

  /** A directory request asks storage for the directory's index blob. */
  lemma DirectoryRequestNamesIndex(path: string, indexName: NullableString)
    requires StartsWith(path, "/") && EndsWith(path, "/")
    requires !IsNullOrEmpty(indexName)
    ensures StorageName(path, indexName) == path[1..] + indexName.value
  {
  }

  /** Any other request asks storage for its own path without the leading "/". */
  lemma OtherRequestNamesPath(path: string, indexName: NullableString)
    requires path != ""
    requires IsNullOrEmpty(indexName) || !EndsWith(path, "/")
    ensures StorageName(path, indexName) == path[1..]
  {
  }

  /** A directory request whose index name has no "/" never probes for a nested index. */
  lemma DirectoryRequestNeverProbes(path: string, indexName: NullableString)
    requires EndsWith(path, "/")
    requires !IsNullOrEmpty(indexName) && '/' !in indexName.value
    ensures !ProbeEligible(IndexCandidate(path, indexName), indexName)
  {
    GetFileNameAfterSlash(path, indexName.value);
  }

  /** The blob probed for a nested index: `{name}/{indexName}`. */
  function ProbeName(candidate: string, indexName: NullableString): (name: string)
    requires candidate != "" && indexName.Some?
    ensures StartsWith(name, candidate[1..] + "/")
    ensures EndsWith(name, "/" + indexName.value)
  {
    candidate[1..] + "/" + indexName.value
  }

  /**
   * What the `BlobNotFound` clause of `ServeBlob` does for the blob path
   * `candidate`: when eligible, probe `{name}/{indexName}` and redirect to
   * the directory if it exists, 404 if it is missing, and let any other
   * probe failure escape; when not eligible, 404.
   */
  predicate ServesMissing(baseUri: string, container: ContainerClient, candidate: string, indexName: NullableString,
                          outcome: Outcome, trace: seq<Event>)
    requires candidate != ""
  {
    if !ProbeEligible(candidate, indexName) then
      outcome == Returned(NotFound()) && trace == [Log(Warning, 404)]
    else
      var probeName := ProbeName(candidate, indexName);
      match container.getProperties(probeName)
      case PropertiesFound =>
        outcome == Returned(Redirect(baseUri + candidate + "/", true)) && trace == [GetProperties(probeName)]
      case ProbeRequestFailed(code) =>
        if code == BlobNotFound then
          outcome == Returned(NotFound()) && trace == [GetProperties(probeName), Log(Warning, 404)]
        else
          outcome == Threw(RequestFailedException(code)) && trace == [GetProperties(probeName)]
      case ProbeOtherFailure =>
        outcome == Threw(UnclassifiedException) && trace == [GetProperties(probeName)]
  }

  /**
   * The `BlobNotFound` clause of `ServeBlob`. A probe failure other than
   * "BlobNotFound" is rethrown from inside the catch clause, so the sibling
   * catch-all does not see it and it escapes.
   */
  method ServeMissing(baseUri: string, container: ContainerClient, candidate: string, indexName: NullableString)
    returns (outcome: Outcome, trace: seq<Event>)
    requires candidate != ""
    ensures ServesMissing(baseUri, container, candidate, indexName, outcome, trace)
  {
    trace := [];
    if ProbeEligible(candidate, indexName) {
      // Maybe a nested container: look for an index inside it.
      var probeName := ProbeName(candidate, indexName);
      trace := [GetProperties(probeName)];
      match container.getProperties(probeName)
      case PropertiesFound =>
        return Returned(Redirect(baseUri + candidate + "/", true)), trace;
      case ProbeRequestFailed(indexErrorCode) =>
        if indexErrorCode != BlobNotFound {
          return Threw(RequestFailedException(indexErrorCode)), trace;
        }
      case ProbeOtherFailure =>
        return Threw(UnclassifiedException), trace;
    }
    trace := trace + [Log(Warning, 404)];
    outcome := Returned(NotFound());
  }

  /**
   * What `ServeBlob` does with the download of a non-root path: serve it,
   * map a failure to 500, or hand "BlobNotFound" to the missing-blob clause.
   */
  predicate ServesDownload(baseUri: string, container: ContainerClient, path: string, indexName: NullableString,
                           outcome: Outcome, trace: seq<Event>)
    requires path != ""
  {
    var candidate := IndexCandidate(path, indexName);
    var name := StorageName(path, indexName);
    |trace| >= 1 && trace[0] == Download(name) &&
    match container.download(name)
    case Downloaded(contentType, Some(hash)) =>
      outcome == Returned(Blob(BlobResult.BlobResult(contentType, BlobResult.EntityTag(BlobResult.Hex(hash)))))
      && trace[1..] == [Log(Information, 200)]
    case Downloaded(_, None) =>
      outcome == Returned(InternalServerError()) && trace[1..] == [Log(Information, 200), Log(Error, 500)]
    case RequestFailed(code) =>
      if code == BlobNotFound then ServesMissing(baseUri, container, candidate, indexName, outcome, trace[1..])
      else outcome == Returned(InternalServerError()) && trace[1..] == [Log(Error, 500)]
    case OtherFailure =>
      outcome == Returned(InternalServerError()) && trace[1..] == [Log(Error, 500)]
  }

  /**
   * `ServeBlob`. The bare root redirects without touching storage; otherwise
   * exactly one download, then (only after a "BlobNotFound" that may be a
   * directory) one properties probe.
   */
  method ServeBlob(baseUri: string, container: ContainerClient, path: string, indexName: NullableString)
    returns (outcome: Outcome, trace: seq<Event>)
    ensures path == "" ==> outcome == Returned(Redirect(baseUri + "/", true)) && trace == [Log(Information, 301)]
    ensures path != "" ==> ServesDownload(baseUri, container, path, indexName, outcome, trace)
  {
    // Requests to the root must include the trailing "/" to keep relative links working.
    if IsNullOrEmpty(Some(path)) {
      trace := [Log(Information, 301)];
      assert baseUri + path == baseUri;
      return Returned(Redirect(baseUri + path + "/", true)), trace;
    }

    // Requests for directories yield the index.
    var candidate := IndexCandidate(path, indexName);
    var name := StorageName(path, indexName);
    trace := [Download(name)];
    match container.download(name)
    case Downloaded(contentType, contentHash) =>
      trace := trace + [Log(Information, 200)];
      var blob := BlobResult.NewBlobResult(contentType, contentHash);
      if blob.Some? {
        outcome := Returned(Blob(blob.value));
      } else {
        // the null dereference is caught by the catch-all clause
        trace := trace + [Log(Error, 500)];
        outcome := Returned(InternalServerError());
      }
    case RequestFailed(errorCode) =>
      if errorCode == BlobNotFound {
        var rest;
        outcome, rest := ServeMissing(baseUri, container, candidate, indexName);
        trace := trace + rest;
      } else {
        trace := trace + [Log(Error, 500)];
        outcome := Returned(InternalServerError());
      }
    case OtherFailure =>
      trace := trace + [Log(Error, 500)];
      outcome := Returned(InternalServerError());
  }

  /** Every result `ServeBlob` returns is a 301 to a URL under the base ending in "/", or a known status. */
  lemma {:induction false} ServeBlobResultsWellFormed(baseUri: string, container: ContainerClient, path: string,
                                                      indexName: NullableString, outcome: Outcome, trace: seq<Event>)
    requires path == "" ==> outcome == Returned(Redirect(baseUri + "/", true))
    requires path != "" ==> ServesDownload(baseUri, container, path, indexName, outcome, trace)
    ensures outcome.Returned? && outcome.result.Redirect? ==>
      outcome.result.permanent && StartsWith(outcome.result.url, baseUri) && EndsWith(outcome.result.url, "/")
    ensures outcome.Returned? && outcome.result.StatusMessage? ==>
      HttpStatusMessageResult.IsKnownStatusCode(outcome.result.status.statusCode)
    ensures outcome.Threw? ==> path != "" && container.download(StorageName(path, indexName)) == RequestFailed(BlobNotFound)
    ensures outcome.Threw? ==> ProbeEligible(IndexCandidate(path, indexName), indexName)
    ensures outcome.Threw? ==>
      var probed := container.getProperties(ProbeName(IndexCandidate(path, indexName), indexName));
      probed.ProbeOtherFailure? || (probed.ProbeRequestFailed? && probed.errorCode != BlobNotFound)
  {
  }

  /** A 404 means the download reported "BlobNotFound": a storage fault never becomes 404. */
  lemma {:induction false} NotFoundOnlyForMissingBlob(baseUri: string, container: ContainerClient, path: string,
                                                     indexName: NullableString, outcome: Outcome, trace: seq<Event>)
    requires path != "" && ServesDownload(baseUri, container, path, indexName, outcome, trace)
    requires outcome == Returned(NotFound())
    ensures container.download(StorageName(path, indexName)) == RequestFailed(BlobNotFound)
  {
  }

  /** A blob that downloads with a hash is served with its stored content type and quoted hex hash. */
  lemma ExistingBlobServed(baseUri: string, container: ContainerClient, path: string, indexName: NullableString,
                           outcome: Outcome, trace: seq<Event>, contentType: string, hash: seq<BlobResult.byte>)
    requires path != "" && ServesDownload(baseUri, container, path, indexName, outcome, trace)
    requires container.download(StorageName(path, indexName)) == Downloaded(contentType, Some(hash))
    ensures outcome.Returned? && outcome.result.Blob?
    ensures outcome.result.blob.contentType == contentType
    ensures var tag := outcome.result.blob.entityTag;
      |tag| == 2 * |hash| + 2 && tag[0] == '"' && tag[|tag| - 1] == '"' && BlobResult.UnHex(tag[1..|tag| - 1]) == Some(hash)
  {
    BlobResult.UnHexHex(hash);
  }

  /** A storage fault or any other failure of the download is a 500. */
  lemma DownloadFaultIsServerError(baseUri: string, container: ContainerClient, path: string, indexName: NullableString,
                                   outcome: Outcome, trace: seq<Event>)
    requires path != "" && ServesDownload(baseUri, container, path, indexName, outcome, trace)
    requires var fetched := container.download(StorageName(path, indexName));
      fetched.OtherFailure? || (fetched.RequestFailed? && fetched.errorCode != BlobNotFound)
    ensures outcome == Returned(InternalServerError())
    ensures outcome.result.status.statusCode == 500 && outcome.result.status.value == "500 Internal Server Error"
  {
  }

  /** Storage is probed at most once, right after the download, and only after "BlobNotFound". */
  lemma ProbeFollowsNotFound(baseUri: string, container: ContainerClient, path: string, indexName: NullableString,
                             outcome: Outcome, trace: seq<Event>, k: int)
    requires path != "" && ServesDownload(baseUri, container, path, indexName, outcome, trace)
    requires 0 <= k < |trace| && trace[k].GetProperties?
    ensures k == 1 && trace[0] == Download(StorageName(path, indexName))
    ensures container.download(StorageName(path, indexName)) == RequestFailed(BlobNotFound)
    ensures trace[k].name == StorageName(path, indexName) + "/" + indexName.value
  {
    var name := StorageName(path, indexName);
    var rest := trace[1..];
    assert k != 0;
    assert rest[k - 1] == trace[k];
    match container.download(name)
    case Downloaded(_, _) =>
      assert false;
    case OtherFailure =>
      assert false;
    case RequestFailed(code) =>
      if code != BlobNotFound {
        assert false;
      }
      var candidate := IndexCandidate(path, indexName);
      assert ServesMissing(baseUri, container, candidate, indexName, outcome, rest);
      if !ProbeEligible(candidate, indexName) {
        assert false;
      }
      assert rest[0] == GetProperties(ProbeName(candidate, indexName));
      assert forall j :: 1 <= j < |rest| ==> rest[j].Log?;
  }

  /** A redirect goes to the base plus "/" for the bare root, or to the base plus the eligible blob path plus "/". */
  lemma ServeBlobRedirects(baseUri: string, container: ContainerClient, path: string, indexName: NullableString,
                           outcome: Outcome, trace: seq<Event>)
    requires path == "" ==> outcome == Returned(Redirect(baseUri + "/", true))
    requires path != "" ==> ServesDownload(baseUri, container, path, indexName, outcome, trace)
    requires outcome.Returned? && outcome.result.Redirect?
    ensures path == "" ==> outcome.result.url == baseUri + "/"
    ensures path != "" ==>
      var candidate := IndexCandidate(path, indexName);
      ProbeEligible(candidate, indexName) && outcome.result.url == baseUri + candidate + "/"
  {
  }

  /**
   * The path before the normalised object path in the request path: what is
   * left after cutting off its last occurrence. `None` when it does not occur
   * (`Substring` is then given -1 and throws).
   */
  function BasePath(requestPath: string, path: string): (basePath: Option<string>)
    ensures path == "" ==> basePath == Some(requestPath)
    ensures path != "" ==> (basePath.None? <==> forall i :: !OccursAt(requestPath, path, i))
    ensures path != "" && basePath.Some? ==>
      OccursAt(requestPath, path, |basePath.value|) && requestPath[..|basePath.value|] == basePath.value
    ensures path != "" && basePath.Some? ==> forall j :: |basePath.value| < j ==> !OccursAt(requestPath, path, j)
    ensures path == "" || EndsWith(requestPath, path) ==>
      basePath.Some? && basePath.value + path == requestPath
  {
    if IsNullOrEmpty(Some(path)) then
      assert requestPath + path == requestPath;
      Some(requestPath)
    else
      var i := LastIndexOf(requestPath, path);
      if EndsWith(requestPath, path) then
        LastIndexOfSuffix(requestPath, path);
        PrefixBeforeSuffix(requestPath, path);
        Some(requestPath[..i])
      else if i < 0 then None else Some(requestPath[..i])
  }

  /** The host in redirect URLs: the configured host name if set, else the `Host` header. */
  function EffectiveHost(options: Options, req: Request): (host: string)
    ensures !IsNullOrEmpty(options.hostName) ==> host == options.hostName.value
    ensures IsNullOrEmpty(options.hostName) ==> host == Interpolate(req.host)
  {
    Interpolate(ValueOrDefault(options.hostName, req.host))
  }

  /** The request is consistent when its normalised path is empty or ends the request path. */
  predicate PathEndsRequest(req: Request, path: NullableString) {
    var p := NormalisePath(path, req.path);
    p == "" || EndsWith(req.path, p)
  }

  /**
   * `Run`: normalise the path, derive the redirect base URI from the request,
   * and serve the blob from the named container.
   */
  method Run(options: Options, req: Request, containerName: string, path: NullableString,
             service: string -> ContainerClient)
    returns (outcome: Outcome, trace: seq<Event>)
    ensures var p := NormalisePath(path, req.path);
      BasePath(req.path, p).None? ==> outcome == Threw(ArgumentOutOfRangeException) && trace == []
    ensures var p := NormalisePath(path, req.path);
      BasePath(req.path, p).Some? ==>
        var baseUri := req.scheme + "://" + EffectiveHost(options, req) + BasePath(req.path, p).value;
        (p == "" ==> outcome == Returned(Redirect(baseUri + "/", true)) && trace == [Log(Information, 301)]) &&
        (p != "" ==> ServesDownload(baseUri, service(containerName), p, options.indexName, outcome, trace))
    ensures PathEndsRequest(req, path) ==> outcome != Threw(ArgumentOutOfRangeException)
    // every redirect of a consistent request goes to the request URL plus "/"
    ensures PathEndsRequest(req, path) && (IsNullOrEmpty(options.indexName) || '/' !in options.indexName.value) &&
            outcome.Returned? && outcome.result.Redirect? ==>
      outcome.result.url == req.scheme + "://" + EffectiveHost(options, req) + req.path + "/"
  {
    var p := NormalisePath(path, req.path);

    var basePath := req.path;
    if !IsNullOrEmpty(Some(p)) {
      var i := LastIndexOf(req.path, p);
      if i < 0 {
        return Threw(ArgumentOutOfRangeException), [];
      }
      basePath := req.path[..i];
    }
    assert basePath == BasePath(req.path, p).value;
    var host := Interpolate(ValueOrDefault(options.hostName, req.host));
    var baseUri := req.scheme + "://" + host + basePath;

    var container := service(containerName);
    outcome, trace := ServeBlob(baseUri, container, p, options.indexName);

    if PathEndsRequest(req, path) && (IsNullOrEmpty(options.indexName) || '/' !in options.indexName.value) &&
       outcome.Returned? && outcome.result.Redirect? {
      ServeBlobRedirects(baseUri, container, p, options.indexName, outcome, trace);
      RedirectTargetsRequestDirectory(req.scheme + "://" + host, req.path, basePath, p, options.indexName,
                                      outcome.result.url);
    }
  }

  /** Regrouping a four-part concatenation. */
  lemma AppendRegroup(a: string, b: string, c: string, d: string)
    ensures a + b + c + d == a + (b + c) + d
  {
  }

  /** When the index name has no "/", only an unsubstituted path can be probed. */
  lemma EligibleCandidateIsPath(path: string, indexName: NullableString)
    requires IsNullOrEmpty(indexName) || '/' !in indexName.value
    requires ProbeEligible(IndexCandidate(path, indexName), indexName)
    ensures IndexCandidate(path, indexName) == path
  {
    if path == "" || EndsWith(path, "/") {
      if path == "" {
        assert false;
      }
      DirectoryRequestNeverProbes(path, indexName);
    }
  }

  /**
   * When the base path followed by the normalised path `p` is the request
   * path, a redirect of the shape `ServeBlob` produces targets the request
   * path plus "/" under `prefix` (scheme, "://" and host), provided the
   * index name has no "/".
   */
  lemma RedirectTargetsRequestDirectory(prefix: string, requestPath: string, basePath: string, p: string,
                                        indexName: NullableString, url: string)
    requires basePath + p == requestPath
    requires IsNullOrEmpty(indexName) || '/' !in indexName.value
    requires p == "" ==> url == prefix + basePath + "/"
    requires p != "" ==> ProbeEligible(IndexCandidate(p, indexName), indexName) &&
                         url == prefix + basePath + IndexCandidate(p, indexName) + "/"
    ensures url == prefix + requestPath + "/"
  {
    if p != "" {
      EligibleCandidateIsPath(p, indexName);
      assert url == prefix + basePath + p + "/";
    }
    AppendRegroup(prefix, basePath, p, "/");
  }

  /** The bare container root (no path, no trailing "/") redirects to the request URL plus "/". */
  lemma BareRootRedirectsToSlash(options: Options, req: Request, path: NullableString)
    requires IsNullOrEmpty(path) && !EndsWith(req.path, "/")
    ensures NormalisePath(path, req.path) == ""
    ensures BasePath(req.path, NormalisePath(path, req.path)) == Some(req.path)
  {
  }
}
