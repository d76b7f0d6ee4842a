/** functions/syncimages/falcon/falcon.go: the login string and the checks
    applied to the Falcon API's responses. The API calls themselves are not
    modelled; each is represented by the response it produced. */
module Falcon {
  import opened Wrappers
  import opened Text

  /** gofalcon's falcon.SensorType values that the functions distinguish. */
  datatype SensorType =
    | SidecarSensor
    | ImageSensor
    | KacSensor
    | NodeSensor
    | Snapshot
    | FCSCli
    | OtherSensor(name: string)

  /** One entry of a payload's `errors` array. */
  datatype ApiError = ApiError(code: int, message: string)

  /** What one SDK call produced: an error from the call itself, or a
      decoded payload with its `errors` and `resources`. */
  datatype Call<R> = CallFailed(message: string) | Returned(errors: seq<ApiError>, resources: R)

  /** A credentials resource; `token` is a *string in the SDK model. */
  datatype TokenResource = TokenResource(token: Option<string>)

  /** The responses each endpoint would give. */
  datatype Api = Api(
    sensorCcid: Call<seq<string>>,                 // SensorDownload.GetSensorInstallersCCIDByQuery
    containerCredentials: Call<seq<TokenResource>>, // FalconContainer.GetCredentials
    snapshotCredentials: Call<seq<TokenResource>>,  // CloudSnapshots.GetCredentialsMixin0Mixin60
    fcsCredentials: Call<Option<string>>)           // CspgIacapi.GetCredentialsMixin0

  datatype FalconError =
    | RequestFailed(message: string)           // the SDK call returned an error
    | ErrorsReported(errors: seq<ApiError>)    // falcon.AssertNoError on payload.Errors
    | UnexpectedResources(resources: seq<string>)
    | WrongTokenCount(count: nat)              // "expected to receive exactly one token, but got %d"
    | EmptyToken                               // "received empty token"
    | NoToken                                  // "expected to receive a token, but got none"

  /** RegistryLogin: prefix, '-', and the lower-cased part of the CID
      before its first '-'. */
  function RegistryLogin(prefix: string, cid: string): (r: string)
    ensures |r| > |prefix| && r[..|prefix| + 1] == prefix + "-"
    ensures var seg := r[|prefix| + 1..];
            && '-' !in seg
            && (forall i :: 0 <= i < |seg| ==> !IsUpperAscii(seg[i]))
            && |seg| <= |cid| && seg == ToLower(cid[..|seg|])
            && (|seg| == |cid| || cid[|seg|] == '-')
  {
    var seg := BeforeFirst(cid, '-');
    ToLowerKeepsAbsent(seg, '-');
    var r := prefix + "-" + ToLower(seg);
    assert r[|prefix| + 1..] == ToLower(seg);
    r
  }

  /** The login derived from a CID in the usual "<hex>-<checksum>" shape
      keeps only the hexadecimal part. */
  lemma RegistryLoginExample()
    ensures RegistryLogin("fc", "ABC123-45") == "fc-abc123"
  {
    var cid := "ABC123-45";
    assert cid[..6] == "ABC123" && cid[6] == '-';
    BeforeFirstUnique(cid, '-', "ABC123");
    var lower := ToLower("ABC123");
    assert lower[0] == 'a' && lower[1] == 'b' && lower[2] == 'c';
    assert lower[3] == '1' && lower[4] == '2' && lower[5] == '3';
    assert lower == "abc123";
  }

  /** GetCID: the one resource of an error-free payload. */
  function GetCid(resp: Call<seq<string>>): (r: Result<string, FalconError>)
    ensures r.Ok? <==> resp.Returned? && resp.errors == [] && |resp.resources| == 1
    ensures r.Ok? ==> r.value == resp.resources[0]
    ensures resp.CallFailed? ==> r == Err(RequestFailed(resp.message))
    ensures resp.Returned? && resp.errors != [] ==> r == Err(ErrorsReported(resp.errors))
    ensures resp.Returned? && resp.errors == [] && |resp.resources| != 1 ==>
              r == Err(UnexpectedResources(resp.resources))
  {
    match resp
    case CallFailed(m) => Err(RequestFailed(m))
    case Returned(errs, res) =>
      if errs != [] then Err(ErrorsReported(errs))
      else if |res| != 1 then Err(UnexpectedResources(res))
      else Ok(res[0])
  }

  /** The check shared by getSnapshotToken and getDefaultToken: exactly one
      resource whose token is present and not empty. A nil token pointer is
      dereferenced and panics. */
  function SingleToken(resp: Call<seq<TokenResource>>): (r: Outcome<string, FalconError>)
    ensures r.Done? <==> && resp.Returned? && resp.errors == [] && |resp.resources| == 1
                         && resp.resources[0].token.Some? && resp.resources[0].token.value != ""
    ensures r.Done? ==> r.value == resp.resources[0].token.value && r.value != ""
    ensures r.Panicked? <==> && resp.Returned? && resp.errors == [] && |resp.resources| == 1
                             && resp.resources[0].token.None?
    ensures resp.Returned? && resp.errors == [] && |resp.resources| != 1 ==>
              r == Failed(WrongTokenCount(|resp.resources|))
    ensures (r.Failed? && r.error == EmptyToken) <==>
              && resp.Returned? && resp.errors == [] && |resp.resources| == 1
              && resp.resources[0].token == Some("")
  {
    match resp
    case CallFailed(m) => Failed(RequestFailed(m))
    case Returned(errs, res) =>
      if errs != [] then Failed(ErrorsReported(errs))
      else if |res| != 1 then Failed(WrongTokenCount(|res|))
      else match res[0].token
        case None => Panicked("invalid memory address or nil pointer dereference")
        case Some(t) => if t == "" then Failed(EmptyToken) else Done(t)
  }

  /** getSnapshotToken: the Cloud Snapshots credentials. */
  function SnapshotToken(api: Api): (r: Outcome<string, FalconError>)
    ensures r.Done? ==> api.snapshotCredentials.Returned? && r.value != ""
  {
    SingleToken(api.snapshotCredentials)
  }

  /** getDefaultToken: the Falcon Container registry credentials. */
  function DefaultToken(api: Api): (r: Outcome<string, FalconError>)
    ensures r.Done? ==> api.containerCredentials.Returned? && r.value != ""
  {
    SingleToken(api.containerCredentials)
  }

  /** getFCSCliToken: the token must be present and not empty; there is no
      resource count to check. The payload and the two nested resource
      structs it reaches through are taken to be non-nil. */
  function FcsCliToken(api: Api): (r: Outcome<string, FalconError>)
    ensures !r.Panicked?
    ensures var resp := api.fcsCredentials;
            r.Done? <==> resp.Returned? && resp.errors == [] && resp.resources.Some? && resp.resources.value != ""
    ensures r.Done? ==> r.value == api.fcsCredentials.resources.value
    ensures var resp := api.fcsCredentials;
            (r.Failed? && r.error == NoToken) <==>
              resp.Returned? && resp.errors == [] && (resp.resources.None? || resp.resources.value == "")
  {
    match api.fcsCredentials
    case CallFailed(m) => Failed(RequestFailed(m))
    case Returned(errs, token) =>
      if errs != [] then Failed(ErrorsReported(errs))
      else if token.None? || token.value == "" then Failed(NoToken)
      else Done(token.value)
  }

  /** RegistryToken: Snapshot reads the snapshot credentials, FCSCli the FCS
      CLI credentials, every other sensor type the container registry's. */
  function RegistryToken(api: Api, sensor: SensorType): (r: Outcome<string, FalconError>)
    ensures r.Done? ==> r.value != ""
    ensures sensor == Snapshot ==> r == SnapshotToken(api)
    ensures sensor == FCSCli ==> r == FcsCliToken(api)
    ensures sensor != Snapshot && sensor != FCSCli ==> r == DefaultToken(api)
  {
    match sensor
    case Snapshot => SnapshotToken(api)
    case FCSCli => FcsCliToken(api)
    case _ => DefaultToken(api)
  }

  /** The token chosen for a sensor type depends only on the endpoint that
      type selects. */
  lemma RegistryTokenUsesOneEndpoint(api: Api, other: Api, sensor: SensorType)
    requires sensor == Snapshot ==> api.snapshotCredentials == other.snapshotCredentials
    requires sensor == FCSCli ==> api.fcsCredentials == other.fcsCredentials
    requires sensor != Snapshot && sensor != FCSCli ==> api.containerCredentials == other.containerCredentials
    ensures RegistryToken(api, sensor) == RegistryToken(other, sensor)
  {
  }
}
