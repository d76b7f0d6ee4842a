# Falcon image sync: a verified model

This project models the core of a Falcon Foundry app that publishes the
CrowdStrike sensor images to a dashboard. It has two halves.

- **The sync function (Go).** It obtains registry credentials from the
  Falcon API: a login derived from the customer ID (CID) and a registry
  token. It lists the tags of the four sensor images, labels each tag with
  its CPU architectures, sorts the image analyzer's tags in semver order,
  picks the latest tag (and, in the current version, its digest), and stores
  the list in the "images" collection. The POST /sync-images handler turns
  the outcome into a 200 or a 500 response. Two versions of the function
  exist. `functions/syncimages` is current. `functions/SyncImages` is older:
  it has no digests, it stamps the list in the handler after a JSON round
  trip, and it ignores the result of the collection write. One model,
  parameterised by `Variant`, covers both.
- **The dashboard (TypeScript/React).** The image list screen is a state
  machine over `loading`, `error`, `images` and `updated`, driven by the
  completions of the connect, read and sync-post promises. Each image row
  pages its tags newest first, shortens digests and offers pull commands.
  The sandbox build has a simpler list with the same shape.

Modules:

| module | file | models |
|---|---|---|
| `Wrappers` | wrappers.dfy | `Option`, `Result`, and `Outcome` (done, failed, or a Go panic) |
| `Text` | text.dfy | `strings.Contains`, `strings.Split(s, sep)[0]`, ASCII `strings.ToLower`, UTF-8 bytes of a string |
| `Base64` | base64.dfy | standard base64 with '=' padding (section 4 of RFC 4648): the encoder and a reference decoder |
| `Sequences` | sequences.dfy | the element-wise map that the Go loops and `Array.prototype.map` perform |
| `Ordering` | ordering.dfy | a sort by a total preorder, standing in for `sort.Sort` over `semver.Collection` |
| `Falcon` | falcon.dfy | functions/syncimages/falcon/falcon.go |
| `Registry` | registry.dfy | functions/syncimages/registry/registry.go |
| `SyncImages` | sync_images.dfy | functions/syncimages/main.go, and the helpers and `getImages` of functions/SyncImages/main.go |
| `SyncImagesLegacy` | sync_images_legacy.dfy | the handler of functions/SyncImages/main.go |
| `DashboardTypes` | dashboard_types.dfy | ui/pages/src/app/types/Image.ts, ImageCollectionResponse.ts, and the mock data of Dashboard/MockData.tsx |
| `ImageItem` | image_item.dfy | ui/pages/src/app/Dashboard/ImageItem.tsx |
| `ImageList` | image_list.dfy | ui/pages/src/app/Dashboard/ImageList.tsx |
| `SandboxImageList` | sandbox_image_list.dfy | ui/pages/sandbox/src/app/Dashboard/ImageList.tsx |

How things outside the code are represented:

- **Foreign calls become values.** Every Falcon SDK call is the response
  it returned (`Falcon.Call`). The registry's tag list, digest and manifest
  lookups, the image URI builder, semver, the collection upload and the
  clock are fields of `SyncImages.Upstream` and `SyncImages.Client`. The
  registry lookups receive the system context and the reference string, so
  the model records which credentials and which reference each lookup is
  given.
- **Oracles for semver.** Semver parsing is a predicate and the
  `semver.Collection` order is a relation. The sorting lemma assumes that
  relation is a total preorder.
- **Go panics are outcomes.** Dereferencing a nil token pointer, and
  reading `tags[len(tags)-1]` of an empty tag list, give
  `Outcome.Panicked`. They are not preconditions. A handler run that panics
  is `Handled.Crashed`.
- **Imperative code stays imperative.**
  - `semverSort`, the loops of `getImages` and `GetImageArchitecture` are
    methods with loops. Each is proved equal to a specification function,
    and the properties are proved about that function.
  - `semverSort` works on an `array`. On success it writes the sorted tags
    back into the caller's array and returns that same array, so the
    caller's `tags[len(tags)-1]` is the greatest version.
- **React state is a class.** Each component's state is a class whose
  fields are the React state variables. Each promise callback is a method.
  Ghost counters of outstanding connects, reads, timers and posts ensure
  that a callback method can run only after the call that registered it.

## Model

| member | source | states |
|---|---|---|
| Text.ContainsIff | functions/syncimages/main.go:218-220 | `strings.Contains(s, sub)` holds exactly when `sub` occurs in `s` at some position |
| Text.BeforeFirst | functions/syncimages/main.go:149 | `strings.Split(s, sep)[0]` is the prefix of `s` up to the first `sep`, or all of `s`; it contains no `sep` |
| Text.BeforeFirstUnique | functions/syncimages/main.go:149 | any prefix that has no `sep` and ends at a `sep` or at the end of `s` is that first segment |
| Text.LowerChar | functions/syncimages/main.go:254 | ASCII upper-case letters are shifted to lower case; every other character is unchanged |
| Text.ToLower | functions/syncimages/main.go:254 | lower-cases pointwise and keeps the length |
| Text.ToLowerKeepsAbsent | functions/syncimages/main.go:254 | lower-casing introduces no character other than a lower-case letter |
| Text.ToLowerIdempotent | functions/syncimages/main.go:254 | lower-casing twice is lower-casing once |
| Text.Utf8Char | functions/syncimages/registry/registry.go:152 | one to four bytes per character; an ASCII character is its own single byte |
| Text.Utf8 | functions/syncimages/registry/registry.go:152 | `[]byte(s)` has at least one byte per character |
| Text.Utf8Append | functions/syncimages/registry/registry.go:152 | the bytes of a concatenation are the concatenation of the bytes |
| Text.Utf8Ascii | functions/syncimages/registry/registry.go:153 | the bytes of an ASCII string are its character codes |
| Text.MiddleOf | functions/syncimages/registry/registry.go:153 | the middle of a three-part concatenation is the middle part |
| Base64.AlphabetIsTable | functions/syncimages/registry/registry.go:152-153 | the 6-bit digit map is the standard 64-character alphabet of RFC 4648, section 4 |
| Base64.SextetValue | functions/syncimages/registry/registry.go:152-153 | reading a character inverts the digit map; '=' is not a digit |
| Base64.SextetRoundTrip | functions/syncimages/registry/registry.go:152-153 | every 6-bit value is read back from its character |
| Base64.Encode | functions/syncimages/registry/registry.go:152-153 | the encoding of n bytes has 4·⌈n/3⌉ characters |
| Base64.JoinSplit | functions/syncimages/registry/registry.go:152-153 | a byte is recovered from its high and low bit groups |
| Base64.BlockArithmetic | functions/syncimages/registry/registry.go:152-153 | the four 6-bit digits of a 3-byte block reassemble the three bytes |
| Base64.BlockRoundTrip | functions/syncimages/registry/registry.go:152-153 | a full 4-character block decodes to the 3 bytes it encodes |
| Base64.RoundTripOne | functions/syncimages/registry/registry.go:152-153 | one byte, padded with "==", decodes back |
| Base64.RoundTripTwo | functions/syncimages/registry/registry.go:152-153 | two bytes, padded with "=", decode back |
| Base64.RoundTripThree | functions/syncimages/registry/registry.go:152-153 | three bytes, with no padding, decode back |
| Base64.EncodeFront | functions/syncimages/registry/registry.go:152-153 | the encoding of more than three bytes is the first block followed by the encoding of the rest |
| Base64.RoundTripStep | functions/syncimages/registry/registry.go:152-153 | a full block in front of a decodable text decodes to the block's bytes followed by the text's |
| Base64.RoundTrip | functions/syncimages/registry/registry.go:152-153 | decoding the encoding of any byte string gives that byte string back |
| Base64.DecodeAppend | functions/syncimages/registry/registry.go:152-153 | decoding a full block followed by more text decodes the block, then the rest |
| Base64.SextetCharEncodes | functions/syncimages/registry/registry.go:152-153 | every digit character is an alphabet character and not the pad |
| Base64.ShortAlphabet | functions/syncimages/registry/registry.go:152-153 | the encoding of up to three bytes uses alphabet characters, with '=' exactly in the padding positions |
| Base64.BlockAlphabet | functions/syncimages/registry/registry.go:152-153 | a full block has four alphabet characters and no pad |
| Base64.EncodeAlphabet | functions/syncimages/registry/registry.go:152-153 | every encoding uses only alphabet characters, with '=' exactly in the last (3 − n mod 3) mod 3 positions |
| Base64.EncodeIsAscii | functions/syncimages/registry/registry.go:153 | every encoding is ASCII, so its UTF-8 bytes are its characters |
| Base64.FoobarBytes | functions/syncimages/registry/registry.go:153 | the UTF-8 bytes of each prefix of "foobar" are the same prefix of its ASCII codes |
| Base64.PaddedVectors | functions/syncimages/registry/registry.go:152-153 | one byte gets "==" and two bytes get "=": "f", "fo", "b" and "ba" encode as RFC 4648 gives them |
| Base64.BlockVectors | functions/syncimages/registry/registry.go:152-153 | the blocks "foo" and "bar" encode to "Zm9v" and "YmFy", with no padding |
| Base64.FoobarFront | functions/syncimages/registry/registry.go:152-153 | "foo" followed by more bytes encodes as "Zm9v" followed by the encoding of the rest |
| Base64.FoobarVector | functions/syncimages/registry/registry.go:153 | encoding a prefix of the string "foobar" is encoding that prefix of its bytes |
| Base64.FoobarEncodings | functions/syncimages/registry/registry.go:152-153 | the first k bytes of "foobar" encode to the k-th test vector of section 10 of RFC 4648 |
| Base64.Rfc4648Vectors | functions/syncimages/registry/registry.go:152-153 | the strings "", "f", "fo", "foo", "foob", "fooba" and "foobar" encode to "", "Zg==", "Zm8=", "Zm9v", "Zm9vYg==", "Zm9vYmE=" and "Zm9vYmFy", as section 10 of RFC 4648 lists |
| Sequences.Map | functions/syncimages/main.go:168-174 | one image per element, in order: the names of the tag records, and (ImageList.tsx:154-156) the names of the images |
| Ordering.Insert | functions/syncimages/main.go:239 | inserting adds exactly one element, as a multiset |
| Ordering.SortBy | functions/syncimages/main.go:239 | sorting keeps the length and is a permutation of the input |
| Ordering.InsertSorted | functions/syncimages/main.go:239 | under a total preorder, inserting into a sorted list keeps it sorted |
| Ordering.SortBySorted | functions/syncimages/main.go:239 | under a total preorder, the sorted list is sorted |
| Ordering.LastIsGreatest | functions/syncimages/main.go:177 | in a sorted list the last element is at least every other element |
| Falcon.RegistryLogin | functions/syncimages/falcon/falcon.go:21-23 | the login is prefix + "-" + a segment that has no '-' and no upper-case letter, and that is the lower-cased part of the CID before its first '-' (or all of it) |
| Falcon.RegistryLoginExample | functions/syncimages/falcon/falcon.go:21-23 | the CID "ABC123-45" gives the login "fc-abc123" |
| Falcon.GetCid | functions/syncimages/falcon/falcon.go:26-42 | succeeds exactly when the call worked, the payload has no errors and exactly one resource, and returns that resource; each failing check has its own error, in the source's order |
| Falcon.SingleToken | functions/syncimages/falcon/falcon.go:53-66 | succeeds exactly when there are no errors, one resource and a non-empty token, and returns that token; a wrong count reports the count; an empty token is an error; a nil token panics |
| Falcon.SnapshotToken | functions/syncimages/falcon/falcon.go:45-67 | a snapshot token comes from the Cloud Snapshots credentials and is never empty |
| Falcon.DefaultToken | functions/syncimages/falcon/falcon.go:90-113 | a default token comes from the container registry credentials and is never empty |
| Falcon.FcsCliToken | functions/syncimages/falcon/falcon.go:70-87 | succeeds exactly when the call worked, there are no errors and the token is present and non-empty, and returns it; an absent or empty token is the "no token" error, not a panic |
| Falcon.RegistryToken | functions/syncimages/falcon/falcon.go:116-125 | Snapshot uses the snapshot path, FCSCli the FCS CLI path, and every other sensor type the default path; a token returned is never empty |
| Falcon.RegistryTokenUsesOneEndpoint | functions/syncimages/falcon/falcon.go:116-125 | the token for a sensor type depends only on the one endpoint that type selects |
| Registry.DockerConfig | functions/syncimages/registry/registry.go:38-51 | credentials are always attached, even when the user and the password are empty |
| Registry.ImageReference | functions/syncimages/registry/registry.go:74 | the lookup reference is "//", the image, ':' and the tag, laid out in that order |
| Registry.ImageReferenceInjective | functions/syncimages/registry/registry.go:74 | for tags without ':', the reference determines both the image and the tag |
| Registry.TranslateArch | functions/syncimages/registry/registry.go:109-118 | "arm64" becomes "aarch64", "amd64" becomes "x86_64", anything else is unchanged; the result is never "arm64" or "amd64" |
| Registry.TranslateArchIdempotent | functions/syncimages/registry/registry.go:109-118 | translating twice is translating once |
| Registry.TranslateAll | functions/syncimages/registry/registry.go:127-130 | one translated name per input name, in order |
| Registry.GetImageArchitecture | functions/syncimages/registry/registry.go:89-148 | the source is opened with the always-credentialed context and the "//image:tag" reference; the steps run in order (parse the reference, open the image source, fetch the manifest, then parse the list or open and inspect the image), and the first one that fails is the result, with its own error; a manifest list gives one translated architecture per entry, in entry order; a single manifest gives the one translated architecture; any other media type is "unsupported manifest type" |
| Registry.CredentialBytes | functions/syncimages/registry/registry.go:152 | the bytes of "user:pass" are the user's bytes, ':' and the password's bytes |
| Registry.CredentialsAuth | functions/syncimages/registry/registry.go:152 | the inner value decodes, as base64, to the bytes of user, ':' and password |
| Registry.AuthsJson | functions/syncimages/registry/registry.go:153 | the document is the literal `{"auths":{"…":{"auth": "…"}}}` template around the unescaped registry and auth, and each can be read back at its fixed offset |
| Registry.EncodeDocument | functions/syncimages/registry/registry.go:153 | the outer encoding decodes back to the document's UTF-8 bytes and has 4·⌈n/3⌉ characters |
| Registry.DockerConfigJson | functions/syncimages/registry/registry.go:151-155 | the result decodes, as base64, to the JSON document whose "auth" member is the base64 of "user:pass"; its length is 4·⌈n/3⌉ for the document's n bytes |
| SyncImages.SensorImageInfo | functions/syncimages/main.go:193-212 | each of the four sensor types has its fixed name and description; any other type gives two empty strings |
| SyncImages.SensorNamesDistinct | functions/syncimages/main.go:193-212 | the four listed types have non-empty, pairwise different names |
| SyncImages.ArchInTag | functions/syncimages/main.go:215-226 | a tag containing "x86_64" is ["x86_64"] even if it also contains "aarch64"; otherwise one containing "aarch64" is ["aarch64"]; otherwise both; never empty |
| SyncImages.ArchInTagMembership | functions/SyncImages/main.go:209-220 | "aarch64" is listed exactly when "x86_64" does not occur; "x86_64" is listed unless only "aarch64" occurs |
| SyncImages.ArchInTagTranslated | functions/syncimages/main.go:215-226 | the names read off a tag are already in the form that `translateArch` produces |
| SyncImages.RegistryLogin | functions/syncimages/main.go:248-255 | succeeds exactly when the CID is obtained; the login is "fc-" followed by the CID's lower-cased first segment; the CID error is passed through |
| SyncImages.RegistryToken | functions/syncimages/main.go:277-298 | the same checks as the falcon package's default token path; a token is never empty |
| SyncImages.DockerConfig | functions/syncimages/main.go:322-336 | credentials are attached exactly when the user is non-empty, and they are that user and password |
| SyncImages.FirstUnparsable | functions/syncimages/main.go:231-237 | every tag before the position parses; the tag at it does not |
| SyncImages.SemverSorted | functions/syncimages/main.go:229-245 | succeeds exactly when every tag parses, giving a permutation of the tags of the same length; otherwise fails with the first tag that does not parse |
| SyncImages.FindUnparsable | functions/syncimages/main.go:231-237 | the parse loop stops at the first tag that does not parse |
| SyncImages.WriteBack | functions/syncimages/main.go:240-242 | the write-back loop leaves the array holding the sorted order |
| SyncImages.SemverSort | functions/syncimages/main.go:229-245 | on a parse error: returns a new empty slice and the first bad tag, and the input is untouched; on success: returns the input array itself, now holding the semver-sorted tags |
| SyncImages.X86Tags | functions/syncimages/main.go:168-170 | one record per tag, in order, each with architecture ["x86_64"] |
| SyncImages.ArchTags | functions/syncimages/main.go:172-174 | one record per tag, in order, each with the architectures read off the tag |
| SyncImages.ImagesFor | functions/syncimages/main.go:145-184 | a list that was built has one image per sensor type |
| SyncImages.StopsAtFailure | functions/syncimages/main.go:156-181 | once a sensor type fails, the whole loop ends with that failure |
| SyncImages.X86Records | functions/syncimages/main.go:168-170 | the image analyzer's append loop builds `X86Tags` of the sorted array |
| SyncImages.ArchRecords | functions/syncimages/main.go:172-174 | the other sensors' append loop builds `ArchTags` of the listed array |
| SyncImages.FinishImage | functions/syncimages/main.go:177-183 | the latest tag is the last of `tags` (a panic when empty); the current variant looks up its digest and fails if the lookup fails |
| SyncImages.BuildImage | functions/syncimages/main.go:146-183 | one loop iteration for one sensor type: lists the tags, sorts the analyzer's in place, builds the records, and finishes the image |
| SyncImages.GetImages | functions/syncimages/main.go:127-190 | getImages reads the login, then the token, then builds the images in the fixed sensor order; only the current variant stamps the time and duration |
| SyncImages.ImagesForExtend | functions/syncimages/main.go:183 | an image that was built is appended after the images before it |
| SyncImages.ImagesForStop | functions/syncimages/main.go:156-181 | an image that fails makes the whole list fail with the same error or panic |
| SyncImages.CollectImages | functions/syncimages/main.go:144-184 | the loop over the sensor types builds the list `ImagesFor` describes |
| SyncImages.ImageForSucceeds | functions/syncimages/main.go:156-182 | an image is built exactly when: its tags are listed and non-empty; for the image analyzer, all of them parse as semver; and in the current variant, the digest of the last ordered tag is found |
| SyncImages.CompleteImageContents | functions/syncimages/main.go:146-183 | a finished image has its sensor's name and description, the URI as its repository, the URI's part before the first '/' as its registry, the given records, the last tag as its latest tag, and a digest exactly in the current variant |
| SyncImages.RecordNames | functions/syncimages/main.go:168-174 | the records name the ordered tags, with x86_64 for the analyzer and `archInTag` otherwise |
| SyncImages.ImageForIsComplete | functions/syncimages/main.go:161-177 | a built image is finished from the tags in their listed order: semver order for the analyzer, registry order otherwise |
| SyncImages.ImageForContents | functions/syncimages/main.go:146-183 | the contents of a built image: name and description; repository and registry; one record per tag, in the order above, with the architectures above; the latest tag is the last record; the digest of the latest tag exactly in the current variant |
| SyncImages.AnalyzerTagsSorted | functions/syncimages/main.go:161-177 | the analyzer's records are a semver-sorted permutation of the registry's tags, so its latest tag is at least every listed tag, because the sorted result was written into the slice that `tags[len(tags)-1]` reads |
| SyncImages.ImagesForAt | functions/syncimages/main.go:145-184 | image k of a built list is the image built for sensor type k |
| SyncImages.Session | functions/syncimages/main.go:142 | every registry call uses the login and the token as its credentials |
| SyncImages.ImagesListed | functions/syncimages/main.go:127-190 | a successful getImages obtained the login and token, and has exactly four images in the order Sidecar, Image, KAC, Node, each built with those credentials; timestamps are set in the current variant and zero in the legacy one |
| SyncImages.ImagesAbort | functions/syncimages/main.go:156-181 | any one sensor type's failure fails getImages, so no partial list is produced |
| SyncImages.CredentialsFirst | functions/syncimages/main.go:132-140 | a CID failure or a token failure ends getImages with that error before any registry call |
| SyncImages.HandleSyncImages | functions/syncimages/main.go:52-98 | 200 with the list exactly when the client, getImages and (if there is an access token) the write all succeed; every failure is 500 whose body is the error of the step that failed: the client's message, getImages' own error, or the write's message; the list is written exactly when there is an access token and it was built; a panic in getImages crashes the handler |
| SyncImages.ServedList | functions/syncimages/main.go:68-95 | a 200 response serves the same list that was written, with four images in sensor order, each named, with non-empty tags, the last tag as latest, and a digest |
| SyncImagesLegacy.HandleSyncImagesLegacy | functions/SyncImages/main.go:51-103 | 200 exactly when the client, getImages and the JSON round trip succeed; the response is the decoded list with only `updated` and `duration` replaced; on 200 it is written exactly when there is an access token; a 500 writes nothing and carries the error of the step that failed: the client's message, getImages' own error, or the unmarshal message |
| SyncImagesLegacy.LegacyIgnoresWrite | functions/SyncImages/main.go:93-100 | the result of the write never affects the response |
| SyncImagesLegacy.CurrentReportsWriteFailure | functions/syncimages/main.go:80-89 | in the current handler, a failed write with an access token is a 500 carrying the write error, and the list was written |
| SyncImagesLegacy.LegacyResponse | functions/SyncImages/main.go:79-100 | with a faithful round trip, the legacy response holds the built images unchanged: four of them, none with a digest |
| SyncImagesLegacy.LegacyImagesIgnoreDigests | functions/SyncImages/main.go:146-181 | the legacy image loop never consults the digest lookup |
| SyncImagesLegacy.LegacyIgnoresDigests | functions/SyncImages/main.go:132-184 | the legacy getImages does not depend on the digest lookup at all |
| ImageItem.Reverse | ui/pages/src/app/Dashboard/ImageItem.tsx:79 | a reversed copy: same length, element k is element n−1−k of the input |
| ImageItem.ClampIndex | ui/pages/src/app/Dashboard/ImageItem.tsx:82 | how `slice` reads an index: a negative one counts from the end, and the result is clamped to [0, n] |
| ImageItem.ClampWidth | ui/pages/src/app/Dashboard/ImageItem.tsx:82 | two clamped indices are never further apart than the originals |
| ImageItem.JsSlice | ui/pages/src/app/Dashboard/ImageItem.tsx:82 | with a and b the clamped bounds, `slice(start, end)` has b − a elements when a < b and none otherwise, and its element i is element a + i of the input |
| ImageItem.SliceAt | ui/pages/src/app/Dashboard/ImageItem.tsx:82 | element i of a slice with non-negative bounds is element start+i of the input |
| ImageItem.PageBound | ui/pages/src/app/Dashboard/ImageItem.tsx:79-82 | a page never has more than perPage rows, whatever page is asked for |
| ImageItem.ReversedSliceAt | ui/pages/src/app/Dashboard/ImageItem.tsx:79-82 | element i of a non-negative slice of the reversed tags is the tag start + i places from the newest |
| ImageItem.PageAt | ui/pages/src/app/Dashboard/ImageItem.tsx:79-82 | row i of page p is the tag (p−1)·perPage+i places from the newest |
| ImageItem.PageEmpty | ui/pages/src/app/Dashboard/ImageItem.tsx:79-82 | a page is empty exactly when its start is at or past the number of tags |
| ImageItem.FirstPageNewest | ui/pages/src/app/Dashboard/ImageItem.tsx:79-82 | page 1 begins with the last stored tag, the newest |
| ImageItem.PagesCover | ui/pages/src/app/Dashboard/ImageItem.tsx:79-82 | pages 1 to k, one after another, are exactly the first k·perPage reversed tags: none repeated, none skipped |
| ImageItem.AllPages | ui/pages/src/app/Dashboard/ImageItem.tsx:79-82 | pages 1 to ⌈n/perPage⌉ together are exactly the reversed tags |
| ImageItem.SecondPageOfMock | ui/pages/src/app/Dashboard/MockData.tsx:65-137 | the twelve-tag mock at page 2 of size 10 shows 1.12.0 then 1.11.0 |
| ImageItem.ShortDigest | ui/pages/src/app/Dashboard/ImageItem.tsx:214 | the shown digest is the first 19 characters, or the whole of a shorter one |
| ImageItem.ShortDigestIdempotent | ui/pages/src/app/Dashboard/ImageItem.tsx:214 | shortening twice shortens no further |
| ImageItem.ShortMockDigest | ui/pages/src/app/Dashboard/ImageItem.tsx:214 | a sha256 digest is shown as "sha256:" and its first 12 hex digits |
| ImageItem.Reference | ui/pages/src/app/Dashboard/ImageItem.tsx:235-246 | a pull reference is the repository, then the separator (':' before a tag, '@' before a digest), then the tag or digest, each readable back at its offset |
| ImageItem.PullCommands | ui/pages/src/app/Dashboard/ImageItem.tsx:235-246 | four commands: docker then podman pull, by tag, then by digest |
| ImageItem.PullMatchesDigestLookup | ui/pages/src/app/Dashboard/ImageItem.tsx:235 | the by-tag reference is the one whose digest the sync function looked up, minus its leading "//", and it names the repository and tag it was built from |
| ImageItem.ImageItemView.constructor | ui/pages/src/app/Dashboard/ImageItem.tsx:32-41 | starts at page 1 with 10 rows per page, collapsed, with the modal closed, both secrets masked and nothing selected |
| ImageItem.ImageItemView.HandleModalToggle | ui/pages/src/app/Dashboard/ImageItem.tsx:43-45 | flips the modal open or closed, and nothing else |
| ImageItem.ImageItemView.HandleDownloadClick | ui/pages/src/app/Dashboard/ImageItem.tsx:47-51 | records the tag and the digest and opens the modal, which then shows their pull commands |
| ImageItem.ImageItemView.OnSetPage | ui/pages/src/app/Dashboard/ImageItem.tsx:54-59 | changes only the page |
| ImageItem.ImageItemView.OnPerPageSelect | ui/pages/src/app/Dashboard/ImageItem.tsx:61-68 | sets both the page size and the page to the values given |
| ImageItem.ImageItemView.ToggleExpanded | ui/pages/src/app/Dashboard/ImageItem.tsx:88 | flips whether the details are shown |
| ImageItem.ImageItemView.TogglePassword | ui/pages/src/app/Dashboard/ImageItem.tsx:152 | flips whether the password is shown |
| ImageItem.ImageItemView.TogglePullToken | ui/pages/src/app/Dashboard/ImageItem.tsx:168 | flips whether the pull token is shown |
| ImageItem.ImageItemView.CurrentRows | ui/pages/src/app/Dashboard/ImageItem.tsx:201-217 | one row per tag of the current page, in page order, with its name, architectures and short digest; never more than perPage rows |
| ImageItem.ImageItemView.PasswordText | ui/pages/src/app/Dashboard/ImageItem.tsx:149 | the password when revealed, the mask otherwise |
| ImageItem.ImageItemView.PullTokenText | ui/pages/src/app/Dashboard/ImageItem.tsx:163-165 | the pull token when revealed, the mask otherwise |
| ImageList.ErrorOf | ui/pages/src/app/Dashboard/ImageList.tsx:32-40 | a string becomes an error with exactly that message, an error is kept, and an array gives its first element; the result is absent exactly for an empty array |
| ImageList.ImageListView.constructor | ui/pages/src/app/Dashboard/ImageList.tsx:26-30 | loading, with no error, no images, no update time and no client; only connect() is outstanding |
| ImageList.ImageListView.LoadImages | ui/pages/src/app/Dashboard/ImageList.tsx:58-94 | changes nothing without a connected client; on localhost, shows the mock, stamps the time and starts the timer; otherwise starts a read; never touches loading or error synchronously |
| ImageList.ImageListView.MountConnectResolved | ui/pages/src/app/Dashboard/ImageList.tsx:100-113 | a still-disconnected client records the "not connected" error and is never stored, so loading stays on; a connected one is stored and loads |
| ImageList.ImageListView.MountConnectRejected | ui/pages/src/app/Dashboard/ImageList.tsx:110 | records the normalised error; the client is never set and loading stays on |
| ImageList.ImageListView.MockTimerFired | ui/pages/src/app/Dashboard/ImageList.tsx:64-67 | the localhost timer ends loading |
| ImageList.ImageListView.ReadResolved | ui/pages/src/app/Dashboard/ImageList.tsx:72-93 | a skipped read records the TypeError of reading undefined; otherwise `updated` and `images` are replaced only when present, the response's errors are ignored and the old error stays; loading ends |
| ImageList.ImageListView.ReadRejected | ui/pages/src/app/Dashboard/ImageList.tsx:90-93 | records the normalised error and ends loading; images and update time stay |
| ImageList.ImageListView.SyncImages | ui/pages/src/app/Dashboard/ImageList.tsx:42-50 | sets loading and posts to the sync function, which is only possible when there is a client |
| ImageList.ImageListView.SyncPostResolved | ui/pages/src/app/Dashboard/ImageList.tsx:51-55 | reloads, and ends loading at once, while the read it started may still be outstanding |
| ImageList.ImageListView.SyncPostRejected | ui/pages/src/app/Dashboard/ImageList.tsx:52-55 | records the error, reloads nothing, and ends loading |
| ImageList.ImageListView.Render | ui/pages/src/app/Dashboard/ImageList.tsx:115-187 | only the skeleton while loading; otherwise a banner exactly when there is an error, with its message; independently of that, the empty state exactly when there are no images, else one row per image and the last sync time |
| SandboxImageList.SandboxImageListView.constructor | ui/pages/sandbox/src/app/Dashboard/ImageList.tsx:17-55 | loading; on localhost the one-image mock and a timer; otherwise no images and a read |
| SandboxImageList.SandboxImageListView.MockTimerFired | ui/pages/sandbox/src/app/Dashboard/ImageList.tsx:44-47 | the timer ends loading |
| SandboxImageList.SandboxImageListView.ReadResolved | ui/pages/sandbox/src/app/Dashboard/ImageList.tsx:56-64 | the images are replaced by the response's, whatever they are; a skipped read throws, is only logged, and leaves the images; loading ends either way |
| SandboxImageList.SandboxImageListView.ReadRejected | ui/pages/sandbox/src/app/Dashboard/ImageList.tsx:61-64 | only logged: loading ends, images and the never-written error stay |
| SandboxImageList.SandboxImageListView.Render | ui/pages/sandbox/src/app/Dashboard/ImageList.tsx:67-86 | the skeleton while loading, else one row per image keyed by its name |
| SandboxImageList.MockShape | ui/pages/sandbox/src/app/Dashboard/ImageList.tsx:24-43 | the mock is one image with two tags, oldest first; its latest is the second tag, and only that tag is multi-architecture |

## Left out

- Logging (`slog`, `console.log`, `console.error`) is not modelled; it has no effect on state or results.
- `newFalconClient` and its environment variables are left out. The handler receives what it yields: a client, or an error message.
- `getImageRef` (reference parsing and the name-only check) is library code. Its errors reach the model folded into the tag-listing result.
- JSON encoding is left out. This covers the handlers' bodies, `writeToCollection`'s encoder, and the legacy `json.Marshal`/`json.Unmarshal`. The legacy round trip is a parameter. Marshalling this struct cannot fail, so the legacy `getImages` has no marshal error path.
- Semver parsing and ordering are oracles (`Semver.parses`, `Semver.le`).
- SyncImages.SemverSort: `sort.Sort` is not stable, so Go may order semver-equal tags either way. The model fixes one order (an insertion sort). The properties proved about it, sorted and a permutation, hold for any order Go could produce; the position of equal tags does not.
- Falcon.RegistryLogin: lower-casing is ASCII only. Go's `strings.ToLower` also folds non-ASCII letters; CIDs are hexadecimal.
- The foreign URI builder `FalconContainerSensorImageURI`, the registry's tag-list, digest and manifest lookups, and the collection upload are oracles. Their results are inputs to the model, not modelled behaviour.
- Time is an integer of milliseconds. `time.Now`, `time.Since`, `new Date()` and `setTimeout`'s delay are inputs.
- ImageList.ImageListView.ReadResolved: `imageResp.updated && …` tests truthiness, which the model reads as presence. A falsy but present `updated` (such as the epoch as a number) would be skipped in JavaScript and stored by the model. `images` is an array, which is truthy even when empty, so presence is exact there.
- ImageList.ImageListView.ReadResolved: the TypeError message for reading a property of undefined is V8's wording. Object identity of errors (`new Error`) is not modelled, only their messages.
- ImageItem.PageBound: requires perPage ≥ 0. The pagination control only supplies positive page sizes, and a negative size makes `slice` count both bounds from the end.
- Promise scheduling is not modelled. Each completion is an event method, and the ghost counters only ensure that a completion follows the call that registered it. Interleavings between outstanding operations are any order of those methods.
- `deleteImages` in the dashboard list is left out: nothing calls it (its button is commented out).
- The sandbox image item (ui/pages/sandbox/src/app/Dashboard/ImageItem.tsx) and the markup of all components are left out. The row, banner and empty-state choices are modelled; the layout is not.
- The sandbox response type says `images` is always present, and the model follows the type. A response without it at run time sets the images to undefined, which the model does not capture.
- The registry package is not called by either main.go, which has its own copies of the tag and digest lookups. Its functions are modelled and proved on their own.
- `Config.GetRepositoryTags` and `Config.GetImageDigest` in the registry package are left out. Each only wraps one library call with the package's context. Their reference string is `Registry.ImageReference`.
- DashboardTypes.Tag: carries a digest per tag, following the mock data (ui/pages/src/app/Dashboard/MockData.tsx:16-26) and the read of `t.digest` at ui/pages/src/app/Dashboard/ImageItem.tsx:214. The declared type (ui/pages/src/app/types/Image.ts:11-14) has no tag digest, and neither Go function writes one (functions/syncimages/main.go:168-174 writes only the name and architectures). So on synced data `t.digest.substring` throws a TypeError, which the model does not capture.
- ImageItem.ImageItemView.CurrentRows: shows a short digest for every tag, as the mock data allows. On data written by either Go function the tag has no digest and the row render throws instead (see DashboardTypes.Tag).
- DashboardTypes.Image: `login`, `password` and `dockerAuthConfig` are never written by either Go function, and the older function writes no image `digest`. The model follows the TypeScript type, in which they are present; at run time they are undefined.
- ImageItem.ImageItemView.PasswordText: shows the stored password, which the model assumes present. On synced data it is undefined (see DashboardTypes.Image).
- ImageItem.ImageItemView.PullTokenText: shows the stored Docker auth configuration, which the model assumes present. On synced data it is undefined (see DashboardTypes.Image).
- Falcon.FcsCliToken: the SDK payload and its nested `payload.Resources` and `Resources.Resources` (functions/syncimages/falcon/falcon.go:83) are assumed non-nil, so only the token is optional. A nil one of them would make Go panic, which the model does not capture.
- Falcon.SingleToken: the payload and the element `resourcesList[0]` (functions/syncimages/falcon/falcon.go:52-62 and 98-108) are assumed non-nil. Only the nil token pointer panics in the model. Falcon.SnapshotToken and Falcon.DefaultToken inherit this through Falcon.SingleToken.
- Falcon.GetCid: the payload returned by `GetPayload` (functions/syncimages/falcon/falcon.go:33) is assumed non-nil; a nil payload would panic in Go.
