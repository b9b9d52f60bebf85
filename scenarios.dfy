/**
 * The cases the repository's tests exercise, replayed against the model as
 * client code: each request goes through `Run` with an index name of
 * "index.html" and no host-name override, and what the caller can conclude
 * from the contracts alone is asserted. Names are kept as concatenations of
 * their parts so that the assertions follow from the contracts.
 */
module Scenarios {
  import opened Wrappers
  import opened Strings
  import opened Get
  import BlobResult

  const Index := "index.html"
  const Directory := "container"
  /** The request path of the container itself under the tests' function route. */
  const ContainerPath := "/api/GetStaticFile/c"

  /** A reachable container holding the given blobs (name to content type), each with the hash 0xAB. */
  function Container(blobs: map<string, string>): ContainerClient {
    ContainerClient(
      name => if name in blobs then Downloaded(blobs[name], Some([0xAB as BlobResult.byte])) else RequestFailed(BlobNotFound),
      name => if name in blobs then PropertiesFound else ProbeRequestFailed(BlobNotFound))
  }

  /** The container the tests populate: an index at the root and one in a nested directory. */
  function Site(): map<string, string> {
    map[Index := "text/html", Directory + "/" + Index := "text/html"]
  }

  /** A container the storage account does not have. */
  function MissingContainer(): ContainerClient {
    ContainerClient(_ => RequestFailed("ContainerNotFound"), _ => ProbeRequestFailed("ContainerNotFound"))
  }

  function TestOptions(): Options {
    Options(None, Some(Index))
  }

  /** A request with the given path; the scheme and the host "localhost" are illustrative. */
  function TestRequest(requestPath: string): Request {
    Request("http", Some("localhost"), requestPath)
  }

  /** A request for the blob path `p` under the container: what `Run` derives from it before touching storage. */
  lemma UnderContainer(p: string)
    requires p != [] && p[0] == '/'
    ensures NormalisePath(Some(p), ContainerPath + p) == p
    ensures BasePath(ContainerPath + p, p) == Some(ContainerPath)
    ensures EffectiveHost(TestOptions(), TestRequest(ContainerPath + p)) == "localhost"
    ensures PathEndsRequest(TestRequest(ContainerPath + p), Some(p))
  {
  }

  /** The blob path "/" + name, for a name without "/", names that blob. */
  lemma PlainBlobPath(name: string)
    requires name != [] && '/' !in name
    ensures StorageName("/" + name, Some(Index)) == name
    ensures GetFileName("/" + name) == name
    ensures IndexCandidate("/" + name, Some(Index)) == "/" + name
    ensures ProbeName("/" + name, Some(Index)) == name + "/" + Index
  {
  }

  /** What storage answers for the directory "container" of the tests' site. */
  lemma SiteLookups()
    ensures Container(Site()).download(Directory) == RequestFailed(BlobNotFound)
    ensures Container(Site()).getProperties(Directory + "/" + Index) == PropertiesFound
    ensures Container(Site()).download(Directory + "/" + Index) == Downloaded("text/html", Some([0xAB]))
    ensures ProbeEligible("/" + Directory, Some(Index))
    ensures '/' !in Index
  {
  }

  /** What an empty container answers for the blob "absent". */
  lemma EmptyLookups()
    ensures Container(map[]).download("absent") == RequestFailed(BlobNotFound)
    ensures Container(map[]).getProperties("absent" + "/" + Index) == ProbeRequestFailed(BlobNotFound)
    ensures ProbeEligible("/" + "absent", Some(Index))
  {
  }

  /** A request for the bare container redirects to the container URL with a trailing "/". */
  method BareContainerRedirects() {
    var req := TestRequest(ContainerPath);
    assert !EndsWith(req.path, "/") by {
      assert req.path[|req.path| - 1] == 'c';
    }
    var outcome, trace := Run(TestOptions(), req, "c", None, _ => Container(Site()));
    assert outcome == Returned(Redirect("http" + "://" + "localhost" + ContainerPath + "/", true));
    assert trace == [Log(Information, 301)];
  }

  /** An existing blob is served with its stored content type and its quoted hex hash. */
  method ExistingFileIsServed() {
    var name := "image.png";
    PlainBlobPath(name);
    UnderContainer("/" + name);
    var req := TestRequest(ContainerPath + ("/" + name));
    var outcome, trace := Run(TestOptions(), req, "c", Some("/" + name), _ => Container(map[name := "image/png"]));
    assert outcome == Returned(Blob(BlobResult.BlobResult("image/png", BlobResult.EntityTag(BlobResult.Hex([0xAB])))));
    assert trace[0] == Download(name);
  }

  /** A missing blob with no nested index is a 404, after one download and one probe. */
  method MissingFileIsNotFound() {
    var name := "absent";
    PlainBlobPath(name);
    UnderContainer("/" + name);
    var req := TestRequest(ContainerPath + ("/" + name));
    var client := Container(map[]);
    EmptyLookups();
    var outcome, trace := Run(TestOptions(), req, "c", Some("/" + name), _ => client);
    assert outcome == Returned(NotFound());
    assert trace == [Download(name), GetProperties(name + "/" + Index), Log(Warning, 404)];
  }

  /** A directory without its trailing "/" whose index exists redirects to the directory. */
  method NestedContainerRedirects() {
    PlainBlobPath(Directory);
    UnderContainer("/" + Directory);
    var req := TestRequest(ContainerPath + ("/" + Directory));
    var client := Container(Site());
    SiteLookups();
    var outcome, trace := Run(TestOptions(), req, "c", Some("/" + Directory), _ => client);
    assert trace == [Download(Directory), GetProperties(Directory + "/" + Index)];
    assert outcome.Returned? && outcome.result.Redirect?;
    assert outcome == Returned(Redirect("http" + "://" + "localhost" + req.path + "/", true));
  }

  /** The directory path "/container/" names the directory's index blob. */
  lemma DirectoryPath()
    ensures ("/" + Directory + "/")[0] == '/'
    ensures StorageName("/" + Directory + "/", Some(Index)) == Directory + "/" + Index
  {
  }

  /** A directory request is served its index blob. */
  method DirectoryServesIndex() {
    var path := "/" + Directory + "/";
    var req := TestRequest(ContainerPath + path);
    UnderContainer(path);
    DirectoryPath();
    var client := Container(Site());
    SiteLookups();
    var outcome, trace := Run(TestOptions(), req, "c", Some(path), _ => client);
    assert outcome == Returned(Blob(BlobResult.BlobResult("text/html", BlobResult.EntityTag(BlobResult.Hex([0xAB])))));
    assert trace == [Download(Directory + "/" + Index), Log(Information, 200)];
  }

  /** A container that does not exist gives a 500, never a 404. */
  method StorageOutageIsServerError() {
    var name := "missing";
    PlainBlobPath(name);
    UnderContainer("/" + name);
    var req := TestRequest(ContainerPath + ("/" + name));
    var outcome, trace := Run(TestOptions(), req, "handlingofstorageoutage", Some("/" + name), _ => MissingContainer());
    assert outcome == Returned(InternalServerError());
    assert outcome.result.status.statusCode == 500;
  }
}
