/** functions/syncimages/registry/registry.go: registry credentials, the
    reference strings handed to the containers/image library, architecture
    names, and the base64 docker config. The library and network calls are
    represented by what they return. */
module Registry {
  import opened Wrappers
  import opened Text
  import Base64

  /** registry.Config */
  datatype Config = Config(user: string, pass: string, token: string)

  /** types.DockerAuthConfig and the part of types.SystemContext in use. */
  datatype AuthConfig = AuthConfig(username: string, password: string)
  datatype SystemContext = SystemContext(dockerAuth: Option<AuthConfig>)

  /** Config.dockerConfig: credentials are attached unconditionally, even
      when both are empty. */
  function DockerConfig(rc: Config): (ctx: SystemContext)
    ensures ctx.dockerAuth.Some?
    ensures ctx.dockerAuth.value.username == rc.user && ctx.dockerAuth.value.password == rc.pass
  {
    SystemContext(Some(AuthConfig(rc.user, rc.pass)))
  }

  /** The "//<image>:<tag>" string given to docker.ParseReference. */
  function ImageReference(image: string, tag: string): (r: string)
    ensures |r| == |image| + |tag| + 3
    ensures r[..2] == "//" && r[2..2 + |image|] == image
    ensures r[|image| + 2] == ':' && r[|image| + 3..] == tag
  {
    "//" + image + ":" + tag
  }

  /** Docker tags never contain ':', so the reference string determines
      both the image and the tag. */
  lemma ImageReferenceInjective(i1: string, t1: string, i2: string, t2: string)
    requires ':' !in t1 && ':' !in t2
    requires ImageReference(i1, t1) == ImageReference(i2, t2)
    ensures i1 == i2 && t1 == t2
  {
    var r := ImageReference(i1, t1);
    assert i1 == r[2..2 + |i1|];
  }

  /** translateArch: Go's architecture names to the kernel's; every other
      name unchanged. */
  function TranslateArch(arch: string): (r: string)
    ensures arch == "arm64" ==> r == "aarch64"
    ensures arch == "amd64" ==> r == "x86_64"
    ensures arch != "arm64" && arch != "amd64" ==> r == arch
    ensures r != "arm64" && r != "amd64"
  {
    if arch == "arm64" then "aarch64"
    else if arch == "amd64" then "x86_64"
    else arch
  }

  lemma TranslateArchIdempotent(arch: string)
    ensures TranslateArch(TranslateArch(arch)) == TranslateArch(arch)
  {
  }

  /** The translation of each name of a list, in order. */
  function TranslateAll(archs: seq<string>): (r: seq<string>)
    ensures |r| == |archs|
    ensures forall k :: 0 <= k < |archs| ==> r[k] == TranslateArch(archs[k])
  {
    if archs == [] then [] else TranslateAll(archs[..|archs| - 1]) + [TranslateArch(archs[|archs| - 1])]
  }

  const ManifestListType: string := "application/vnd.docker.distribution.manifest.list.v2+json"
  const ManifestV2Type: string := "application/vnd.docker.distribution.manifest.v2+json"

  /** One entry of a manifest list (manifest.Schema2List), reduced to its
      platform's architecture. */
  datatype ManifestEntry = ManifestEntry(architecture: string)

  /** What each library step returns for one reference, in the order the
      steps run: docker.ParseReference, NewImageSource, GetManifest (the
      manifest's media type), json.Unmarshal of a manifest list, NewImage,
      and Inspect (the image's own architecture). Each is an error message
      when that step fails. */
  datatype ImageSource = ImageSource(
    reference: Result<(), string>,
    source: Result<(), string>,
    mediaType: Result<string, string>,
    list: Result<seq<ManifestEntry>, string>,
    image: Result<(), string>,
    inspected: Result<string, string>)

  /** One error per step, as each is wrapped by its own message. */
  datatype RegistryError =
    | ReferenceFailed(message: string)          // "error parsing reference"
    | SourceFailed(message: string)             // "error creating image source"
    | ManifestFailed(message: string)           // "error getting manifest"
    | ListParseFailed(message: string)          // "error parsing manifest list"
    | ImageFailed(message: string)              // "error creating image instance"
    | InspectFailed(message: string)            // "error inspecting image"
    | UnsupportedManifestType(mediaType: string) // "unsupported manifest type"

  /** GetImageArchitecture: the manifest's media type decides how the
      architectures are read. `open` is the library, queried with the
      system context and the reference string. */
  method GetImageArchitecture(rc: Config, open: (SystemContext, string) -> ImageSource, image: string, tag: string)
    returns (r: Result<seq<string>, RegistryError>)
    ensures var src := open(DockerConfig(rc), ImageReference(image, tag));
      && (src.reference.Err? ==> r == Err(ReferenceFailed(src.reference.error)))
      && (src.reference.Ok? && src.source.Err? ==> r == Err(SourceFailed(src.source.error)))
      && (src.reference.Ok? && src.source.Ok? && src.mediaType.Err? ==> r == Err(ManifestFailed(src.mediaType.error)))
      && (src.reference.Ok? && src.source.Ok? && src.mediaType.Ok? ==>
            var mediaType := src.mediaType.value;
            && (mediaType == ManifestListType ==>
                  if src.list.Err? then r == Err(ListParseFailed(src.list.error))
                  else && r.Ok? && |r.value| == |src.list.value|
                       && forall k :: 0 <= k < |r.value| ==> r.value[k] == TranslateArch(src.list.value[k].architecture))
            && (mediaType == ManifestV2Type ==>
                  if src.image.Err? then r == Err(ImageFailed(src.image.error))
                  else if src.inspected.Err? then r == Err(InspectFailed(src.inspected.error))
                  else r == Ok([TranslateArch(src.inspected.value)]))
            && (mediaType != ManifestListType && mediaType != ManifestV2Type ==>
                  r == Err(UnsupportedManifestType(mediaType))))
  {
    var src := open(DockerConfig(rc), ImageReference(image, tag));
    if src.reference.Err? {
      return Err(ReferenceFailed(src.reference.error));
    }
    if src.source.Err? {
      return Err(SourceFailed(src.source.error));
    }
    if src.mediaType.Err? {
      return Err(ManifestFailed(src.mediaType.error));
    }
    var mediaType := src.mediaType.value;
    if mediaType == ManifestListType {
      if src.list.Err? {
        return Err(ListParseFailed(src.list.error));
      }
      var entries := src.list.value;
      var archs: seq<string> := [];
      var i := 0;
      while i < |entries|
        invariant 0 <= i <= |entries|
        invariant |archs| == i
        invariant forall k :: 0 <= k < i ==> archs[k] == TranslateArch(entries[k].architecture)
      {
        archs := archs + [TranslateArch(entries[i].architecture)];
        i := i + 1;
      }
      return Ok(archs);
    } else if mediaType == ManifestV2Type {
      if src.image.Err? {
        return Err(ImageFailed(src.image.error));
      }
      if src.inspected.Err? {
        return Err(InspectFailed(src.inspected.error));
      }
      return Ok([TranslateArch(src.inspected.value)]);
    }
    return Err(UnsupportedManifestType(mediaType));
  }

  /** The bytes of "user:pass". */
  lemma CredentialBytes(user: string, pass: string)
    ensures Utf8(user + ":" + pass) == Utf8(user) + [':' as int] + Utf8(pass)
  {
    Utf8Append(user + ":", pass);
    Utf8Append(user, ":");
    assert Utf8(":") == Utf8Char(':') + Utf8("");
  }

  /** base64 of "user:pass", the value of the "auth" member. */
  function CredentialsAuth(rc: Config): (r: string)
    ensures Base64.Decode(r) == Some(Utf8(rc.user) + [':' as int] + Utf8(rc.pass))
  {
    var bytes := Utf8(rc.user + ":" + rc.pass);
    Base64.RoundTrip(bytes);
    CredentialBytes(rc.user, rc.pass);
    Base64.Encode(bytes)
  }

  const AuthsPrefix: string := "{\"auths\":{\""
  const AuthMember: string := "\":{\"auth\": \""
  const AuthsSuffix: string := "\"}}}"

  /** The JSON document, built by plain substitution: neither the registry
      nor the credentials are escaped. */
  function AuthsJson(registry: string, auth: string): (r: string)
    ensures r == AuthsPrefix + registry + AuthMember + auth + AuthsSuffix
    ensures |AuthsPrefix| == 11 && |AuthMember| == 12 && |AuthsSuffix| == 4
    ensures r[11..11 + |registry|] == registry
    ensures r[23 + |registry|..23 + |registry| + |auth|] == auth
  {
    var r := AuthsPrefix + registry + AuthMember + auth + AuthsSuffix;
    assert r == AuthsPrefix + registry + (AuthMember + auth + AuthsSuffix);
    MiddleOf(AuthsPrefix, registry, AuthMember + auth + AuthsSuffix);
    MiddleOf(AuthsPrefix + registry + AuthMember, auth, AuthsSuffix);
    r
  }

  /** The base64 form of a document's UTF-8 bytes. */
  function EncodeDocument(doc: string): (r: string)
    ensures Base64.Decode(r) == Some(Utf8(doc))
    ensures |r| == 4 * ((|Utf8(doc)| + 2) / 3)
  {
    var bytes := Utf8(doc);
    Base64.RoundTrip(bytes);
    Base64.Encode(bytes)
  }

  /** DockerConfigJson: base64 of the JSON document whose "auth" member is
      itself base64 of "user:pass". */
  function DockerConfigJson(rc: Config, registry: string): (r: string)
    ensures Base64.Decode(r) == Some(Utf8(AuthsJson(registry, CredentialsAuth(rc))))
    ensures |r| == 4 * ((|Utf8(AuthsJson(registry, CredentialsAuth(rc)))| + 2) / 3)
  {
    EncodeDocument(AuthsJson(registry, CredentialsAuth(rc)))
  }
}
