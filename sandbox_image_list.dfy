/** ui/pages/sandbox/src/app/Dashboard/ImageList.tsx: the sandbox's simpler
    image list. It loads once on mount; failures are only logged. */
module SandboxImageList {
  import opened Wrappers
  import Sequences

  /** ui/pages/sandbox/src/app/types/Image.ts */
  datatype Tag = Tag(name: string, arch: seq<string>)

  datatype Image = Image(name: string, description: string, latest: string,
                         registry: string, repository: string, tags: seq<Tag>)

  /** ui/pages/sandbox/src/app/shared/ImageCollectionResponse.ts */
  datatype CollectionResponse = CollectionResponse(duration: int, updated: int, images: seq<Image>)

  /** The one-image mock shown on localhost. */
  const MockImages: seq<Image> := [
    Image("Mock Falcon Sensor",
          "The Mock Falcon Sensor is a placeholder object used to display something in the UI when running in dev mode.",
          "1.23-4567.DEV.mock.us-0", "registry.crowdstrike.com",
          "registry.crowdstrike.com/mock/sensor/falcon-mock",
          [Tag("1.22-4567.DEV.mock.us-0", ["x86_64"]),
           Tag("1.23-4567.DEV.mock.us-0", ["x86_64", "aarch64"])])]

  datatype View = Skeleton | Rows(keys: seq<string>)

  class SandboxImageListView {
    var loading: bool
    var images: seq<Image>
    /** Declared by the component and never written. */
    var error: Option<string>
    ghost var pendingReads: nat
    ghost var pendingTimers: nat

    /** At most one load is ever started, and loading ends only through it. */
    ghost predicate Valid()
      reads this
    {
      && error.None?
      && pendingReads + pendingTimers <= 1
      && (pendingReads + pendingTimers == 1 ==> loading)
    }

    /** The first render and the mount effect. On localhost the mock is
        shown at once and a timer ends loading; otherwise connect() and the
        read are started. */
    constructor (isLocalhost: bool)
      ensures Valid() && loading
      ensures images == if isLocalhost then MockImages else []
      ensures isLocalhost ==> pendingTimers == 1 && pendingReads == 0
      ensures !isLocalhost ==> pendingReads == 1 && pendingTimers == 0
    {
      loading, images, error := true, [], None;
      pendingReads, pendingTimers := 0, 0;
      if isLocalhost {
        images := MockImages;
        pendingTimers := 1;
      } else {
        pendingReads := 1;
      }
    }

    method MockTimerFired()
      requires Valid() && pendingTimers > 0
      modifies this`loading, this`pendingTimers
      ensures Valid() && !loading && pendingTimers == 0
    {
      loading := false;
      pendingTimers := 0;
    }

    /** The read resolved. `resp` is None when the client was not connected
        and the read was skipped: reading `images` of undefined throws, the
        error is logged and the images stay. Otherwise the images are
        replaced by the response's, whatever they are. */
    method ReadResolved(resp: Option<CollectionResponse>)
      requires Valid() && pendingReads > 0
      modifies this`loading, this`images, this`pendingReads
      ensures Valid() && !loading && pendingReads == 0
      ensures images == if resp.Some? then resp.value.images else old(images)
    {
      if resp.Some? {
        images := resp.value.images;
      }
      loading := false;
      pendingReads := 0;
    }

    /** connect() or the read rejected: logged only. */
    method ReadRejected()
      requires Valid() && pendingReads > 0
      modifies this`loading, this`pendingReads
      ensures Valid() && !loading && pendingReads == 0
    {
      loading := false;
      pendingReads := 0;
    }

    /** The skeleton while loading, else one row per image keyed by name. */
    function Render(): (v: View)
      reads this
      ensures v.Skeleton? <==> loading
      ensures v.Rows? ==> |v.keys| == |images| && forall k :: 0 <= k < |images| ==> v.keys[k] == images[k].name
    {
      if loading then Skeleton else Rows(Sequences.Map((i: Image) => i.name, images))
    }
  }

  /** The mock's two tags appear oldest first, and only the newer one is
      multi-architecture. */
  lemma MockShape()
    ensures |MockImages| == 1 && |MockImages[0].tags| == 2
    ensures MockImages[0].latest == MockImages[0].tags[1].name
    ensures MockImages[0].tags[0].arch == ["x86_64"] && "aarch64" in MockImages[0].tags[1].arch
  {
  }
}
