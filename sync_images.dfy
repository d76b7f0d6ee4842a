/** functions/syncimages/main.go: the function that lists the Falcon sensor
    images and their tags and stores the list in the "images" collection.
    The older copy at functions/SyncImages/main.go shares the helpers and
    the assembly loop; `Variant` selects what differs between the two
    (the digest lookup and where the timestamps are set). */
module SyncImages {
  import opened Wrappers
  import opened Text
  import opened Falcon
  import Registry
  import Ordering
  import Sequences

  datatype Variant = Current | Legacy

  /** The JSON records written to the collection. */
  datatype Tag = Tag(name: string, arch: seq<string>)

  datatype Image = Image(
    name: string,
    description: string,
    registry: string,
    repository: string,
    latestTag: string,
    latestDigest: Option<string>,   // absent from the legacy struct
    tags: seq<Tag>)

  /** `updated` is a timestamp in milliseconds; ZeroTime is Go's time.Time{}. */
  datatype ImageList = ImageList(updated: int, durationMs: int, images: seq<Image>)

  const ZeroTime: int := 0

  /** Semver parsing and ordering (Masterminds/semver) are library code:
      `parses` says whether NewVersion accepts a tag, `le` is the order of
      semver.Collection, a total preorder. */
  datatype Semver = Semver(parses: string -> bool, le: (string, string) -> bool)

  /** Everything getImages reads from outside: the Falcon API's responses,
      the cloud, the URI builder FalconContainerSensorImageURI, the
      registry's tag lists and digests (given the system context and the
      image or reference string), semver, and the clock. */
  datatype Upstream = Upstream(
    api: Api,
    cloud: string,
    imageUri: (string, SensorType) -> string,
    listTags: (Registry.SystemContext, string) -> Result<seq<string>, string>,
    digest: (Registry.SystemContext, string) -> Result<string, string>,
    semver: Semver,
    now: int,
    elapsedMs: int)

  /** What newFalconClient yields: access to the upstream services and the
      collection upload (None when it succeeds, else the error text). */
  datatype Client = Client(upstream: Upstream, upload: ImageList -> Option<string>)

  datatype SyncError =
    | ClientFailed(message: string)
    | CidFailed(error: FalconError)
    | TokenFailed(error: FalconError)
    | TagsFailed(sensor: string, message: string)
    | SortFailed(tag: string)
    | DigestFailed(message: string)
    | UnmarshalFailed(message: string)
    | WriteFailed(message: string)

  /** The order in which the images are listed. */
  const SensorOrder: seq<SensorType> := [SidecarSensor, ImageSensor, KacSensor, NodeSensor]

  const ImageAnalyzerName: string := "Falcon Image Analyzer"
  const ContainerSensorName: string := "Falcon Container Sensor"
  const AdmissionControllerName: string := "Falcon Kubernetes Admission Controller"
  const NodeSensorName: string := "Falcon Linux Sensor"

  const ImageAnalyzerDescription: string :=
    "The Image Sensor is a container image that can be deployed to scan container images for vulnerabilities and misconfigurations."
  const ContainerSensorDescription: string :=
    "The Falcon Container Sensor is a container image that can be deployed as a sidecar to monitor pods and containers."
  const AdmissionControllerDescription: string :=
    "The Kubernetes Agentless Container Sensor is a container image that can be deployed as a Kubernetes Admission Controller to monitor the container runtime and the containers running in a Kubernetes cluster."
  const NodeSensorDescription: string :=
    "The Node Sensor is a container image that can be deployed as a daemonset to monitor the container runtime and the containers running on the host."

  /** sensorImageInfo: the display name and description of a sensor type. */
  function SensorImageInfo(st: SensorType): (r: (string, string))
    ensures st == ImageSensor ==> r == (ImageAnalyzerName, ImageAnalyzerDescription)
    ensures st == SidecarSensor ==> r == (ContainerSensorName, ContainerSensorDescription)
    ensures st == KacSensor ==> r == (AdmissionControllerName, AdmissionControllerDescription)
    ensures st == NodeSensor ==> r == (NodeSensorName, NodeSensorDescription)
    ensures st !in SensorOrder ==> r == ("", "")
  {
    match st
    case ImageSensor => (ImageAnalyzerName, ImageAnalyzerDescription)
    case SidecarSensor => (ContainerSensorName, ContainerSensorDescription)
    case KacSensor => (AdmissionControllerName, AdmissionControllerDescription)
    case NodeSensor => (NodeSensorName, NodeSensorDescription)
    case _ => ("", "")
  }

  /** The four listed sensor types have non-empty, pairwise different names,
      so the name identifies an image (the dashboard keys its rows by it). */
  lemma SensorNamesDistinct(i: int, j: int)
    requires 0 <= i < |SensorOrder| && 0 <= j < |SensorOrder|
    ensures SensorImageInfo(SensorOrder[i]).0 != ""
    ensures i != j ==> SensorImageInfo(SensorOrder[i]).0 != SensorImageInfo(SensorOrder[j]).0
  {
    assert ImageAnalyzerName[7] == 'I' && ContainerSensorName[7] == 'C';
    assert AdmissionControllerName[7] == 'K' && NodeSensorName[7] == 'L';
  }

  /** archInTag: a tag naming "x86_64" is x86_64 only, even if it also names
      "aarch64"; otherwise one naming "aarch64" is aarch64 only; any other
      tag is both. */
  function ArchInTag(tag: string): (r: seq<string>)
    ensures r != []
    ensures Contains(tag, "x86_64") ==> r == ["x86_64"]
    ensures !Contains(tag, "x86_64") && Contains(tag, "aarch64") ==> r == ["aarch64"]
    ensures !Contains(tag, "x86_64") && !Contains(tag, "aarch64") ==> r == ["x86_64", "aarch64"]
  {
    if Contains(tag, "x86_64") then ["x86_64"]
    else if Contains(tag, "aarch64") then ["aarch64"]
    else ["x86_64", "aarch64"]
  }

  /** The same precedence stated through occurrences: aarch64 is listed
      exactly when x86_64 does not occur, and x86_64 is listed unless only
      aarch64 occurs. */
  lemma ArchInTagMembership(tag: string)
    ensures "aarch64" in ArchInTag(tag) <==> !exists i :: OccursAt(tag, "x86_64", i)
    ensures "x86_64" in ArchInTag(tag) <==>
              (exists i :: OccursAt(tag, "x86_64", i)) || !(exists i :: OccursAt(tag, "aarch64", i))
  {
    ContainsIff(tag, "x86_64");
    ContainsIff(tag, "aarch64");
  }

  /** The names archInTag produces are already in the form translateArch
      produces, so the two sources of architectures agree on spelling. */
  lemma ArchInTagTranslated(tag: string, a: string)
    requires a in ArchInTag(tag)
    ensures Registry.TranslateArch(a) == a
  {
  }

  /** registryLogin: "fc-" and the lower-cased first segment of the CID. */
  function RegistryLogin(api: Api): (r: Result<string, FalconError>)
    ensures r.Ok? <==> GetCid(api.sensorCcid).Ok?
    ensures r.Ok? ==> r.value == Falcon.RegistryLogin("fc", GetCid(api.sensorCcid).value)
    ensures r.Ok? ==> r.value[..3] == "fc-"
    ensures r.Err? ==> r.error == GetCid(api.sensorCcid).error
  {
    match GetCid(api.sensorCcid)
    case Err(e) => Err(e)
    case Ok(cid) => Ok(Falcon.RegistryLogin("fc", cid))
  }

  /** registryToken: the container registry credentials, checked exactly as
      the default path of the falcon package's RegistryToken. */
  function RegistryToken(api: Api): (r: Outcome<string, FalconError>)
    ensures r == Falcon.RegistryToken(api, SidecarSensor)
    ensures r.Done? ==> r.value != ""
  {
    DefaultToken(api)
  }

  /** registryConfig */
  datatype RegistryConfig = RegistryConfig(user: string, pass: string, token: string)

  /** dockerConfig: credentials are attached only when there is a user. */
  function DockerConfig(rc: RegistryConfig): (ctx: Registry.SystemContext)
    ensures ctx.dockerAuth.Some? <==> rc.user != ""
    ensures ctx.dockerAuth.Some? ==> ctx.dockerAuth.value == Registry.AuthConfig(rc.user, rc.pass)
  {
    if rc.user != "" then Registry.SystemContext(Some(Registry.AuthConfig(rc.user, rc.pass)))
    else Registry.SystemContext(None)
  }

  /** The position of the first tag semver cannot parse, |tags| if none. */
  function FirstUnparsable(sv: Semver, tags: seq<string>): (r: nat)
    ensures r <= |tags|
    ensures forall k :: 0 <= k < r ==> sv.parses(tags[k])
    ensures r < |tags| ==> !sv.parses(tags[r])
  {
    if tags == [] || !sv.parses(tags[0]) then 0 else 1 + FirstUnparsable(sv, tags[1..])
  }

  /** semverSort as a value: the tags in semver order, or the first tag
      that does not parse. */
  function SemverSorted(sv: Semver, tags: seq<string>): (r: Result<seq<string>, string>)
    ensures r.Ok? <==> forall k :: 0 <= k < |tags| ==> sv.parses(tags[k])
    ensures r.Err? ==> exists i :: 0 <= i < |tags| && tags[i] == r.error && !sv.parses(tags[i]) &&
                                   forall k :: 0 <= k < i ==> sv.parses(tags[k])
    ensures r.Ok? ==> |r.value| == |tags| && multiset(r.value) == multiset(tags)
  {
    var i := FirstUnparsable(sv, tags);
    if i < |tags| then Err(tags[i])
    else Ok(Ordering.SortBy(sv.le, tags))
  }

  /** semverSort's first loop: the position of the first tag semver
      rejects, or the length if it accepts them all. */
  method FindUnparsable(tags: array<string>, sv: Semver) returns (i: int)
    ensures i == FirstUnparsable(sv, tags[..])
  {
    i := 0;
    while i < tags.Length
      invariant 0 <= i <= tags.Length
      invariant forall k :: 0 <= k < i ==> sv.parses(tags[k])
    {
      if !sv.parses(tags[i]) {
        return;
      }
      i := i + 1;
    }
  }

  /** semverSort's second loop: tags[i] = v.Original() for the sorted
      versions, which writes `order` over the slice. */
  method WriteBack(tags: array<string>, order: seq<string>)
    requires |order| == tags.Length
    modifies tags
    ensures tags[..] == order
  {
    for j := 0 to tags.Length
      invariant tags[..j] == order[..j]
    {
      tags[j] := order[j];
      assert tags[..j + 1] == tags[..j] + [order[j]];
    }
    assert tags[..] == tags[..tags.Length];
  }

  /** semverSort. On success it writes the sorted tags back into the slice
      it was given and returns that same slice, so the caller's `tags`
      are sorted too; on a parse error the slice is untouched. */
  method SemverSort(tags: array<string>, sv: Semver) returns (sorted: array<string>, err: Option<string>)
    modifies tags
    ensures err.Some? <==> SemverSorted(sv, old(tags[..])).Err?
    ensures err.Some? ==> err.value == SemverSorted(sv, old(tags[..])).error
                          && tags[..] == old(tags[..]) && fresh(sorted) && sorted.Length == 0
    ensures err.None? ==> sorted == tags && tags[..] == SemverSorted(sv, old(tags[..])).value
  {
    var i := FindUnparsable(tags, sv);
    if i < tags.Length {
      sorted := new string[0];
      err := Some(tags[i]);
      return;
    }
    WriteBack(tags, Ordering.SortBy(sv.le, tags[..]));
    sorted, err := tags, None;
  }

  /** The image analyzer's records: every tag is x86_64. */
  function X86Tags(tags: seq<string>): (r: seq<Tag>)
    ensures |r| == |tags|
    ensures forall k :: 0 <= k < |tags| ==> r[k] == Tag(tags[k], ["x86_64"])
  {
    if tags == [] then [] else X86Tags(tags[..|tags| - 1]) + [Tag(tags[|tags| - 1], ["x86_64"])]
  }

  /** The other sensors' records: architectures read off each tag. */
  function ArchTags(tags: seq<string>): (r: seq<Tag>)
    ensures |r| == |tags|
    ensures forall k :: 0 <= k < |tags| ==> r[k] == Tag(tags[k], ArchInTag(tags[k]))
  {
    if tags == [] then [] else ArchTags(tags[..|tags| - 1]) + [Tag(tags[|tags| - 1], ArchInTag(tags[|tags| - 1]))]
  }

  /** The tail of one loop iteration: the latest tag, then (current variant)
      its digest. An empty tag list makes tags[len(tags)-1] panic. */
  function CompleteImage(v: Variant, st: SensorType, up: Upstream, ctx: Registry.SystemContext,
                         uri: string, tags: seq<string>, records: seq<Tag>): (r: Outcome<Image, SyncError>)
  {
    if tags == [] then Panicked("index out of range [-1]")
    else
      var latest := tags[|tags| - 1];
      var info := SensorImageInfo(st);
      if v == Legacy then Done(Image(info.0, info.1, BeforeFirst(uri, '/'), uri, latest, None, records))
      else match up.digest(ctx, Registry.ImageReference(uri, latest))
        case Err(m) => Failed(DigestFailed(m))
        case Ok(d) => Done(Image(info.0, info.1, BeforeFirst(uri, '/'), uri, latest, Some(d), records))
  }

  /** One iteration of getImages' loop over the sensor types, as a value. */
  function ImageFor(v: Variant, st: SensorType, up: Upstream, ctx: Registry.SystemContext): (r: Outcome<Image, SyncError>)
  {
    var uri := up.imageUri(up.cloud, st);
    match up.listTags(ctx, uri)
    case Err(m) => Failed(TagsFailed(uri, m))
    case Ok(tags) =>
      if st == ImageSensor then
        match SemverSorted(up.semver, tags)
        case Err(t) => Failed(SortFailed(t))
        case Ok(sorted) => CompleteImage(v, st, up, ctx, uri, sorted, X86Tags(sorted))
      else CompleteImage(v, st, up, ctx, uri, tags, ArchTags(tags))
  }

  /** The images of `types`, in order, stopping at the first failure. */
  function ImagesFor(v: Variant, types: seq<SensorType>, up: Upstream, ctx: Registry.SystemContext): (r: Outcome<seq<Image>, SyncError>)
    ensures r.Done? ==> |r.value| == |types|
    decreases |types|
  {
    if types == [] then Done([])
    else match ImagesFor(v, types[..|types| - 1], up, ctx)
      case Failed(e) => Failed(e)
      case Panicked(p) => Panicked(p)
      case Done(acc) =>
        match ImageFor(v, types[|types| - 1], up, ctx)
        case Failed(e) => Failed(e)
        case Panicked(p) => Panicked(p)
        case Done(img) => Done(acc + [img])
  }

  /** The system context getImages uses for every registry call. */
  function ContextFor(login: string, token: string): Registry.SystemContext
  {
    DockerConfig(RegistryConfig(login, token, ""))
  }

  /** getImages as a value. The current variant stamps the list; the legacy
      one leaves `updated` and `duration` at their zero values. */
  function ImagesSpec(v: Variant, up: Upstream): (r: Outcome<ImageList, SyncError>)
  {
    match RegistryLogin(up.api)
    case Err(e) => Failed(CidFailed(e))
    case Ok(login) =>
      match RegistryToken(up.api)
      case Failed(e) => Failed(TokenFailed(e))
      case Panicked(p) => Panicked(p)
      case Done(token) =>
        match ImagesFor(v, SensorOrder, up, ContextFor(login, token))
        case Failed(e) => Failed(e)
        case Panicked(p) => Panicked(p)
        case Done(images) =>
          if v == Current then Done(ImageList(up.now, up.elapsedMs, images))
          else Done(ImageList(ZeroTime, 0, images))
  }

  /** Once a prefix of the sensor types has failed, the whole list fails
      with the same outcome: getImages returns at the first error. */
  lemma {:induction false} StopsAtFailure(v: Variant, types: seq<SensorType>, n: nat, up: Upstream, ctx: Registry.SystemContext)
    requires 0 < n <= |types| && !ImagesFor(v, types[..n], up, ctx).Done?
    ensures ImagesFor(v, types, up, ctx) == ImagesFor(v, types[..n], up, ctx)
    decreases |types| - n
  {
    if n < |types| {
      var front := types[..|types| - 1];
      assert front[..n] == types[..n];
      StopsAtFailure(v, front, n, up, ctx);
    } else {
      assert types[..n] == types;
    }
  }

  /** The image analyzer's loop over the sorted tags. */
  method X86Records(tags: array<string>) returns (records: seq<Tag>)
    ensures records == X86Tags(tags[..])
  {
    records := [];
    for j := 0 to tags.Length
      invariant |records| == j
      invariant forall k :: 0 <= k < j ==> records[k] == Tag(tags[k], ["x86_64"])
    {
      records := records + [Tag(tags[j], ["x86_64"])];
    }
  }

  /** The other sensors' loop over the listed tags. */
  method ArchRecords(tags: array<string>) returns (records: seq<Tag>)
    ensures records == ArchTags(tags[..])
  {
    records := [];
    for j := 0 to tags.Length
      invariant |records| == j
      invariant forall k :: 0 <= k < j ==> records[k] == Tag(tags[k], ArchInTag(tags[k]))
    {
      records := records + [Tag(tags[j], ArchInTag(tags[j]))];
    }
  }

  /** The latest tag and, in the current variant, its digest. */
  method FinishImage(v: Variant, st: SensorType, up: Upstream, ctx: Registry.SystemContext,
                     sensor: string, tags: array<string>, records: seq<Tag>) returns (r: Outcome<Image, SyncError>)
    ensures r == CompleteImage(v, st, up, ctx, sensor, tags[..], records)
  {
    if tags.Length == 0 {
      return Panicked("index out of range [-1]");
    }
    var latest := tags[tags.Length - 1];
    var info := SensorImageInfo(st);
    var digest: Option<string> := None;
    if v == Current {
      var d := up.digest(ctx, Registry.ImageReference(sensor, latest));
      if d.Err? {
        return Failed(DigestFailed(d.error));
      }
      digest := Some(d.value);
    }
    r := Done(Image(info.0, info.1, BeforeFirst(sensor, '/'), sensor, latest, digest, records));
  }

  /** The body of getImages' loop for one sensor type. */
  method BuildImage(v: Variant, st: SensorType, up: Upstream, ctx: Registry.SystemContext)
    returns (r: Outcome<Image, SyncError>)
    ensures r == ImageFor(v, st, up, ctx)
  {
    var sensor := up.imageUri(up.cloud, st);
    var listed := up.listTags(ctx, sensor);
    if listed.Err? {
      return Failed(TagsFailed(sensor, listed.error));
    }
    var tags := new string[|listed.value|](k requires 0 <= k < |listed.value| => listed.value[k]);
    assert tags[..] == listed.value;
    var records: seq<Tag>;
    if st == ImageSensor {
      var iarTags, err := SemverSort(tags, up.semver);
      if err.Some? {
        return Failed(SortFailed(err.value));
      }
      records := X86Records(iarTags);
    } else {
      records := ArchRecords(tags);
    }
    r := FinishImage(v, st, up, ctx, sensor, tags, records);
  }

  /** getImages: the login, the token, then one image per sensor type. */
  method GetImages(v: Variant, up: Upstream) returns (r: Outcome<ImageList, SyncError>)
    ensures r == ImagesSpec(v, up)
  {
    var user := RegistryLogin(up.api);
    if user.Err? {
      return Failed(CidFailed(user.error));
    }
    var pass := RegistryToken(up.api);
    if pass.Failed? {
      return Failed(TokenFailed(pass.error));
    } else if pass.Panicked? {
      return Panicked(pass.reason);
    }
    var ctx := DockerConfig(RegistryConfig(user.value, pass.value, ""));
    var images := CollectImages(v, SensorOrder, up, ctx);
    if images.Failed? {
      r := Failed(images.error);
    } else if images.Panicked? {
      r := Panicked(images.reason);
    } else if v == Current {
      r := Done(ImageList(up.now, up.elapsedMs, images.value));
    } else {
      r := Done(ImageList(ZeroTime, 0, images.value));
    }
  }

  /** One more sensor type whose image was built extends the list. */
  lemma ImagesForExtend(v: Variant, types: seq<SensorType>, i: int, up: Upstream, ctx: Registry.SystemContext)
    requires 0 <= i < |types| && ImagesFor(v, types[..i], up, ctx).Done? && ImageFor(v, types[i], up, ctx).Done?
    ensures ImagesFor(v, types[..i + 1], up, ctx)
         == Done(ImagesFor(v, types[..i], up, ctx).value + [ImageFor(v, types[i], up, ctx).value])
  {
    assert types[..i + 1][..i] == types[..i];
  }

  /** One sensor type whose image failed fails the whole list the same way. */
  lemma ImagesForStop(v: Variant, types: seq<SensorType>, i: int, up: Upstream, ctx: Registry.SystemContext)
    requires 0 <= i < |types| && ImagesFor(v, types[..i], up, ctx).Done? && !ImageFor(v, types[i], up, ctx).Done?
    ensures ImageFor(v, types[i], up, ctx).Failed? ==> ImagesFor(v, types, up, ctx) == Failed(ImageFor(v, types[i], up, ctx).error)
    ensures ImageFor(v, types[i], up, ctx).Panicked? ==> ImagesFor(v, types, up, ctx) == Panicked(ImageFor(v, types[i], up, ctx).reason)
  {
    assert types[..i + 1][..i] == types[..i];
    StopsAtFailure(v, types, i + 1, up, ctx);
  }

  /** getImages' loop over the sensor types. */
  method CollectImages(v: Variant, types: seq<SensorType>, up: Upstream, ctx: Registry.SystemContext)
    returns (r: Outcome<seq<Image>, SyncError>)
    ensures r == ImagesFor(v, types, up, ctx)
  {
    var images: seq<Image> := [];
    for i := 0 to |types|
      invariant ImagesFor(v, types[..i], up, ctx) == Done(images)
    {
      var image := BuildImage(v, types[i], up, ctx);
      if !image.Done? {
        ImagesForStop(v, types, i, up, ctx);
        return if image.Failed? then Failed(image.error) else Panicked(image.reason);
      }
      ImagesForExtend(v, types, i, up, ctx);
      images := images + [image.value];
    }
    assert types[..|types|] == types;
    r := Done(images);
  }

  /** The names of a list of tag records. */
  function TagNames(ts: seq<Tag>): seq<string>
  {
    Sequences.Map((t: Tag) => t.name, ts)
  }

  /** The tags in the order they are listed: semver order for the image
      analyzer, registry order otherwise. */
  function Ordered(st: SensorType, sv: Semver, listed: seq<string>): seq<string>
  {
    if st == ImageSensor then Ordering.SortBy(sv.le, listed) else listed
  }

  /** An image is built exactly when its tags can be listed and are not all
      missing, the analyzer's tags all parse as semver and, in the current
      variant, the digest of the latest tag can be read. */
  lemma ImageForSucceeds(v: Variant, st: SensorType, up: Upstream, ctx: Registry.SystemContext)
    ensures var uri := up.imageUri(up.cloud, st);
            var listed := up.listTags(ctx, uri);
            ImageFor(v, st, up, ctx).Done? <==>
              && listed.Ok? && listed.value != []
              && (st == ImageSensor ==> forall k :: 0 <= k < |listed.value| ==> up.semver.parses(listed.value[k]))
              && (v == Current ==>
                    var ordered := Ordered(st, up.semver, listed.value);
                    up.digest(ctx, Registry.ImageReference(uri, ordered[|ordered| - 1])).Ok?)
  {
    var uri := up.imageUri(up.cloud, st);
    var listed := up.listTags(ctx, uri);
    if listed.Ok? && st == ImageSensor && SemverSorted(up.semver, listed.value).Ok? {
      assert |Ordering.SortBy(up.semver.le, listed.value)| == |listed.value|;
    }
  }

  /** The tail of an iteration that succeeded. */
  lemma CompleteImageContents(v: Variant, st: SensorType, up: Upstream, ctx: Registry.SystemContext,
                              uri: string, tags: seq<string>, records: seq<Tag>)
    requires CompleteImage(v, st, up, ctx, uri, tags, records).Done?
    ensures var img := CompleteImage(v, st, up, ctx, uri, tags, records).value;
            && (img.name, img.description) == SensorImageInfo(st)
            && img.repository == uri && img.registry == BeforeFirst(uri, '/')
            && img.tags == records && tags != [] && img.latestTag == tags[|tags| - 1]
            && (img.latestDigest.None? <==> v == Legacy)
            && (v == Current ==>
                  img.latestDigest == Some(up.digest(ctx, Registry.ImageReference(uri, img.latestTag)).value))
  {
  }

  /** The records built from the ordered tags. */
  function Records(st: SensorType, ordered: seq<string>): seq<Tag>
  {
    if st == ImageSensor then X86Tags(ordered) else ArchTags(ordered)
  }

  lemma RecordNames(st: SensorType, ordered: seq<string>)
    ensures TagNames(Records(st, ordered)) == ordered
    ensures forall k :: 0 <= k < |ordered| ==>
              Records(st, ordered)[k].arch == if st == ImageSensor then ["x86_64"] else ArchInTag(ordered[k])
  {
    assert |TagNames(Records(st, ordered))| == |ordered|;
  }

  /** A built image is the tail of the iteration applied to the tags in
      their listed order. */
  lemma ImageForIsComplete(v: Variant, st: SensorType, up: Upstream, ctx: Registry.SystemContext)
    requires ImageFor(v, st, up, ctx).Done?
    ensures var uri := up.imageUri(up.cloud, st);
            && up.listTags(ctx, uri).Ok?
            && var ordered := Ordered(st, up.semver, up.listTags(ctx, uri).value);
               ImageFor(v, st, up, ctx) == CompleteImage(v, st, up, ctx, uri, ordered, Records(st, ordered))
  {
    var uri := up.imageUri(up.cloud, st);
    var listed := up.listTags(ctx, uri).value;
    if st == ImageSensor {
      assert SemverSorted(up.semver, listed) == Ok(Ordered(st, up.semver, listed));
    }
  }

  /** An image that was built: its name and description, its repository
      and registry, one record per listed tag (semver-sorted and x86_64
      for the image analyzer, in registry order with archInTag otherwise),
      the latest tag as the last record, and a digest of that tag exactly
      in the current variant. */
  lemma ImageForContents(v: Variant, st: SensorType, up: Upstream, ctx: Registry.SystemContext)
    requires ImageFor(v, st, up, ctx).Done?
    ensures var img := ImageFor(v, st, up, ctx).value;
            var uri := up.imageUri(up.cloud, st);
            var listed := up.listTags(ctx, uri).value;
            && up.listTags(ctx, uri).Ok?
            && (img.name, img.description) == SensorImageInfo(st)
            && img.repository == uri && img.registry == BeforeFirst(uri, '/')
            && TagNames(img.tags) == Ordered(st, up.semver, listed)
            && (forall k :: 0 <= k < |img.tags| ==>
                  img.tags[k].arch == if st == ImageSensor then ["x86_64"] else ArchInTag(img.tags[k].name))
            && img.tags != [] && img.latestTag == img.tags[|img.tags| - 1].name
            && (img.latestDigest.None? <==> v == Legacy)
            && (v == Current ==>
                  img.latestDigest == Some(up.digest(ctx, Registry.ImageReference(uri, img.latestTag)).value))
  {
    var uri := up.imageUri(up.cloud, st);
    var ordered := Ordered(st, up.semver, up.listTags(ctx, uri).value);
    ImageForIsComplete(v, st, up, ctx);
    CompleteImageContents(v, st, up, ctx, uri, ordered, Records(st, ordered));
    RecordNames(st, ordered);
  }

  /** The image analyzer's tags are a semver-sorted permutation of the
      registry's tags, so the latest tag is a greatest version. */
  lemma AnalyzerTagsSorted(v: Variant, up: Upstream, ctx: Registry.SystemContext)
    requires Ordering.TotalPreorder(up.semver.le)
    requires ImageFor(v, ImageSensor, up, ctx).Done?
    ensures var img := ImageFor(v, ImageSensor, up, ctx).value;
            var listed := up.listTags(ctx, up.imageUri(up.cloud, ImageSensor)).value;
            && Ordering.SortedBy(up.semver.le, TagNames(img.tags))
            && multiset(TagNames(img.tags)) == multiset(listed)
            && forall t :: t in listed ==> up.semver.le(t, img.latestTag)
  {
    var img := ImageFor(v, ImageSensor, up, ctx).value;
    var listed := up.listTags(ctx, up.imageUri(up.cloud, ImageSensor)).value;
    ImageForContents(v, ImageSensor, up, ctx);
    var names := TagNames(img.tags);
    Ordering.SortBySorted(up.semver.le, listed);
    forall t | t in listed ensures up.semver.le(t, img.latestTag) {
      assert t in multiset(names);
      var k :| 0 <= k < |names| && names[k] == t;
      if k < |names| - 1 {
        Ordering.LastIsGreatest(up.semver.le, names, k);
      } else {
        assert up.semver.le(t, t) || up.semver.le(t, t);
      }
    }
  }

  /** A list that was built holds, at position k, the image built for
      the sensor type at that position. */
  lemma {:induction false} ImagesForAt(v: Variant, types: seq<SensorType>, up: Upstream, ctx: Registry.SystemContext, k: int)
    requires ImagesFor(v, types, up, ctx).Done? && 0 <= k < |types|
    ensures ImageFor(v, types[k], up, ctx) == Done(ImagesFor(v, types, up, ctx).value[k])
    decreases |types|
  {
    var front := types[..|types| - 1];
    var acc := ImagesFor(v, front, up, ctx);
    var img := ImageFor(v, types[|types| - 1], up, ctx);
    assert acc.Done? && img.Done?;
    assert ImagesFor(v, types, up, ctx).value == acc.value + [img.value];
    if k < |types| - 1 {
      ImagesForAt(v, front, up, ctx, k);
      assert front[k] == types[k];
    }
  }

  /** The system context of a getImages run whose login and token were
      obtained. */
  function Session(up: Upstream): (ctx: Registry.SystemContext)
    requires RegistryLogin(up.api).Ok? && RegistryToken(up.api).Done?
    ensures ctx.dockerAuth == Some(Registry.AuthConfig(RegistryLogin(up.api).value, RegistryToken(up.api).value))
  {
    var login := RegistryLogin(up.api).value;
    assert login[..3] == "fc-";
    ContextFor(login, RegistryToken(up.api).value)
  }

  /** A successful getImages: the CID and token were obtained first, and
      the list has the four images in SensorOrder, each the one built for
      its sensor type with the session's credentials. Only the current
      variant stamps the list. */
  lemma ImagesListed(v: Variant, up: Upstream)
    requires ImagesSpec(v, up).Done?
    ensures RegistryLogin(up.api).Ok? && RegistryToken(up.api).Done?
    ensures var list := ImagesSpec(v, up).value;
            && |list.images| == |SensorOrder| == 4
            && (forall k :: 0 <= k < 4 ==> ImageFor(v, SensorOrder[k], up, Session(up)) == Done(list.images[k]))
            && (v == Current ==> list.updated == up.now && list.durationMs == up.elapsedMs)
            && (v == Legacy ==> list.updated == ZeroTime && list.durationMs == 0)
  {
    var ctx := Session(up);
    forall k | 0 <= k < 4
      ensures ImageFor(v, SensorOrder[k], up, ctx) == Done(ImagesSpec(v, up).value.images[k])
    {
      ImagesForAt(v, SensorOrder, up, ctx, k);
    }
  }

  /** Any failure while building one image fails the whole of getImages:
      no partial list is produced. */
  lemma ImagesAbort(v: Variant, up: Upstream, k: int)
    requires RegistryLogin(up.api).Ok? && RegistryToken(up.api).Done?
    requires 0 <= k < |SensorOrder| && !ImageFor(v, SensorOrder[k], up, Session(up)).Done?
    ensures !ImagesSpec(v, up).Done?
  {
    if ImagesSpec(v, up).Done? {
      ImagesListed(v, up);
    }
  }

  /** The CID is read before the token, and both before any registry call. */
  lemma CredentialsFirst(v: Variant, up: Upstream)
    ensures RegistryLogin(up.api).Err? ==> ImagesSpec(v, up) == Failed(CidFailed(RegistryLogin(up.api).error))
    ensures RegistryLogin(up.api).Ok? && RegistryToken(up.api).Failed? ==>
              ImagesSpec(v, up) == Failed(TokenFailed(RegistryToken(up.api).error))
    ensures RegistryLogin(up.api).Ok? && RegistryToken(up.api).Panicked? ==> ImagesSpec(v, up).Panicked?
  {
  }

  datatype Body = ListBody(list: ImageList) | ErrorBody(error: SyncError)

  datatype Response = Response(code: int, body: Body)

  /** A handled request: the response, and the list handed to
      writeToCollection if the handler wrote one; or a panic. */
  datatype Handled = Handled(response: Response, written: Option<ImageList>) | Crashed(reason: string)

  /** The POST /sync-images handler. `client` is what newFalconClient
      yields for the request's access token. A list is written only when
      there is an access token, and a failed write turns the response into
      an error. */
  function HandleSyncImages(accessToken: string, client: Result<Client, string>): (r: Handled)
    ensures r.Crashed? <==> client.Ok? && ImagesSpec(Current, client.value.upstream).Panicked?
    ensures r.Handled? ==> r.response.code == 200 || r.response.code == 500
    ensures r.Handled? && r.response.code == 500 ==> r.response.body.ErrorBody?
    ensures r.Handled? && r.response.code == 200 <==>
              && client.Ok? && ImagesSpec(Current, client.value.upstream).Done?
              && (accessToken == "" || client.value.upload(ImagesSpec(Current, client.value.upstream).value).None?)
    ensures r.Handled? && r.response.code == 200 ==>
              r.response.body == ListBody(ImagesSpec(Current, client.value.upstream).value)
    ensures r.Handled? && r.written.Some? <==>
              accessToken != "" && client.Ok? && ImagesSpec(Current, client.value.upstream).Done?
    ensures r.Handled? && r.written.Some? ==> r.written.value == ImagesSpec(Current, client.value.upstream).value
    ensures client.Err? ==> r == Handled(Response(500, ErrorBody(ClientFailed(client.error))), None)
    ensures client.Ok? && ImagesSpec(Current, client.value.upstream).Failed? ==>
              r == Handled(Response(500, ErrorBody(ImagesSpec(Current, client.value.upstream).error)), None)
    ensures client.Ok? ==>
            var list := ImagesSpec(Current, client.value.upstream);
            list.Done? && accessToken != "" && client.value.upload(list.value).Some? ==>
              r == Handled(Response(500, ErrorBody(WriteFailed(client.value.upload(list.value).value))), Some(list.value))
  {
    match client
    case Err(m) => Handled(Response(500, ErrorBody(ClientFailed(m))), None)
    case Ok(c) =>
      match ImagesSpec(Current, c.upstream)
      case Panicked(p) => Crashed(p)
      case Failed(e) => Handled(Response(500, ErrorBody(e)), None)
      case Done(list) =>
        if accessToken == "" then Handled(Response(200, ListBody(list)), None)
        else match c.upload(list)
          case Some(m) => Handled(Response(500, ErrorBody(WriteFailed(m))), Some(list))
          case None => Handled(Response(200, ListBody(list)), Some(list))
  }

  /** What a successful response promises: the stored list, if one was
      written, is the list served, and it names every sensor type in
      order with the latest tag and its digest. */
  lemma ServedList(accessToken: string, client: Result<Client, string>)
    requires HandleSyncImages(accessToken, client).Handled?
    requires HandleSyncImages(accessToken, client).response.code == 200
    ensures var r := HandleSyncImages(accessToken, client);
            && r.response.body.ListBody?
            && (accessToken != "" ==> r.written == Some(r.response.body.list))
            && |r.response.body.list.images| == 4
            && forall k :: 0 <= k < 4 ==>
                 var img := r.response.body.list.images[k];
                 && img.name == SensorImageInfo(SensorOrder[k]).0
                 && img.tags != [] && img.latestTag == img.tags[|img.tags| - 1].name
                 && img.latestDigest.Some?
  {
    var up := client.value.upstream;
    ImagesListed(Current, up);
    var list := ImagesSpec(Current, up).value;
    forall k | 0 <= k < 4
      ensures var img := list.images[k];
              && img.name == SensorImageInfo(SensorOrder[k]).0
              && img.tags != [] && img.latestTag == img.tags[|img.tags| - 1].name
              && img.latestDigest.Some?
    {
      ImageForContents(Current, SensorOrder[k], up, Session(up));
    }
  }
}
