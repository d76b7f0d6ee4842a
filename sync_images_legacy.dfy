/** functions/SyncImages/main.go: the older copy of the sync function. Its
    getImages is SyncImages.ImagesSpec(Legacy, _) (no digests, and the list
    is marshalled to JSON); its handler unmarshals that JSON, stamps the
    list and writes it without looking at the outcome of the write. */
module SyncImagesLegacy {
  import opened Wrappers
  import opened SyncImages
  import Falcon
  import Registry

  /** The legacy POST /sync-images handler. `roundTrip` is json.Marshal in
      getImages followed by json.Unmarshal here; the upstream clock gives
      the time of the response and the time since the request began. */
  function HandleSyncImagesLegacy(accessToken: string, client: Result<Client, string>,
                                  roundTrip: ImageList -> Result<ImageList, string>): (r: Handled)
    ensures r.Crashed? <==> client.Ok? && ImagesSpec(Legacy, client.value.upstream).Panicked?
    ensures r.Handled? ==> r.response.code == 200 || r.response.code == 500
    ensures r.Handled? && r.response.code == 500 ==> r.response.body.ErrorBody? && r.written.None?
    ensures r.Handled? && r.response.code == 200 <==>
              client.Ok? && ImagesSpec(Legacy, client.value.upstream).Done?
              && roundTrip(ImagesSpec(Legacy, client.value.upstream).value).Ok?
    ensures r.Handled? && r.response.code == 200 ==>
              var up := client.value.upstream;
              r.response.body == ListBody(roundTrip(ImagesSpec(Legacy, up).value).value.(updated := up.now, durationMs := up.elapsedMs))
    ensures r.Handled? && r.response.code == 200 ==>
              (r.written.Some? <==> accessToken != "") && (r.written.Some? ==> r.written.value == r.response.body.list)
    ensures client.Err? ==> r == Handled(Response(500, ErrorBody(ClientFailed(client.error))), None)
    ensures client.Ok? && ImagesSpec(Legacy, client.value.upstream).Failed? ==>
              r == Handled(Response(500, ErrorBody(ImagesSpec(Legacy, client.value.upstream).error)), None)
    ensures client.Ok? ==>
            var data := ImagesSpec(Legacy, client.value.upstream);
            data.Done? && roundTrip(data.value).Err? ==>
              r == Handled(Response(500, ErrorBody(UnmarshalFailed(roundTrip(data.value).error))), None)
  {
    match client
    case Err(m) => Handled(Response(500, ErrorBody(ClientFailed(m))), None)
    case Ok(c) =>
      match ImagesSpec(Legacy, c.upstream)
      case Panicked(p) => Crashed(p)
      case Failed(e) => Handled(Response(500, ErrorBody(e)), None)
      case Done(data) =>
        match roundTrip(data)
        case Err(m) => Handled(Response(500, ErrorBody(UnmarshalFailed(m))), None)
        case Ok(decoded) =>
          var response := decoded.(updated := c.upstream.now, durationMs := c.upstream.elapsedMs);
          Handled(Response(200, ListBody(response)), if accessToken != "" then Some(response) else None)
  }

  /** The outcome of the write never reaches the caller: two clients that
      differ only in their upload get the same response. The current
      handler, by contrast, answers 500 when the write fails
      (CurrentReportsWriteFailure). */
  lemma LegacyIgnoresWrite(accessToken: string, c: Client, upload: ImageList -> Option<string>,
                           roundTrip: ImageList -> Result<ImageList, string>)
    ensures HandleSyncImagesLegacy(accessToken, Ok(c), roundTrip)
         == HandleSyncImagesLegacy(accessToken, Ok(c.(upload := upload)), roundTrip)
  {
  }

  /** The current handler reports a failed write as an error. */
  lemma CurrentReportsWriteFailure(accessToken: string, c: Client)
    requires accessToken != "" && ImagesSpec(Current, c.upstream).Done?
    requires c.upload(ImagesSpec(Current, c.upstream).value).Some?
    ensures HandleSyncImages(accessToken, Ok(c))
         == Handled(Response(500, ErrorBody(WriteFailed(c.upload(ImagesSpec(Current, c.upstream).value).value))),
                    Some(ImagesSpec(Current, c.upstream).value))
  {
  }

  /** The legacy images carry no digest, and with a faithful JSON round trip
      the response is the built list with only its timestamps replaced. */
  lemma LegacyResponse(accessToken: string, c: Client, roundTrip: ImageList -> Result<ImageList, string>)
    requires ImagesSpec(Legacy, c.upstream).Done?
    requires roundTrip(ImagesSpec(Legacy, c.upstream).value) == Ok(ImagesSpec(Legacy, c.upstream).value)
    ensures var r := HandleSyncImagesLegacy(accessToken, Ok(c), roundTrip);
            && r.Handled? && r.response.code == 200
            && r.response.body.list.images == ImagesSpec(Legacy, c.upstream).value.images
            && |r.response.body.list.images| == 4
            && forall k :: 0 <= k < 4 ==> r.response.body.list.images[k].latestDigest.None?
  {
    var up := c.upstream;
    ImagesListed(Legacy, up);
    forall k | 0 <= k < 4 ensures ImagesSpec(Legacy, up).value.images[k].latestDigest.None? {
      ImageForContents(Legacy, SensorOrder[k], up, Session(up));
    }
  }

  /** The legacy function never asks the registry for a digest: its result
      does not depend on the digest lookup at all. */
  lemma {:induction false} LegacyImagesIgnoreDigests(types: seq<Falcon.SensorType>, up: Upstream,
                                                     digest: (Registry.SystemContext, string) -> Result<string, string>,
                                                     ctx: Registry.SystemContext)
    ensures ImagesFor(Legacy, types, up, ctx) == ImagesFor(Legacy, types, up.(digest := digest), ctx)
    decreases |types|
  {
    if types != [] {
      LegacyImagesIgnoreDigests(types[..|types| - 1], up, digest, ctx);
      var st := types[|types| - 1];
      assert ImageFor(Legacy, st, up, ctx) == ImageFor(Legacy, st, up.(digest := digest), ctx);
    }
  }

  /** The same at the level of getImages. */
  lemma LegacyIgnoresDigests(up: Upstream, digest: (Registry.SystemContext, string) -> Result<string, string>)
    ensures ImagesSpec(Legacy, up) == ImagesSpec(Legacy, up.(digest := digest))
  {
    var up2 := up.(digest := digest);
    assert up2.api == up.api;
    if RegistryLogin(up.api).Ok? && RegistryToken(up.api).Done? {
      LegacyImagesIgnoreDigests(SensorOrder, up, digest,
        ContextFor(RegistryLogin(up.api).value, RegistryToken(up.api).value));
    }
  }
}
