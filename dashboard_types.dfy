/** ui/pages/src/app/types/Image.ts and ImageCollectionResponse.ts: the
    records the dashboard reads from the "images" collection, and the
    dashboard's mock data (ui/pages/src/app/Dashboard/MockData.tsx). */
module DashboardTypes {
  import opened Wrappers

  /** A tag record. The dashboard reads a digest per tag, which the mock
      data carries; the declared interface has none. */
  datatype Tag = Tag(name: string, digest: string, arch: seq<string>)

  datatype Image = Image(
    name: string,
    description: string,
    latest: string,
    registry: string,
    repository: string,
    digest: string,
    login: string,
    password: string,
    dockerAuthConfig: string,
    tags: seq<Tag>)

  /** A collection read's response; `updated` and `images` may be missing
      and are checked before use. Dates are milliseconds. */
  datatype ApiError = ApiError(code: int, message: string)

  datatype CollectionResponse = CollectionResponse(
    duration: Option<int>,
    updated: Option<int>,
    images: Option<seq<Image>>,
    errors: Option<seq<ApiError>>)

  const MockDigest: string := "sha256:" + "1234567890abcdef1234567890abcdef" + "1234567890abcdef1234567890abcdef"
  const MockDescription: string :=
    "The Mock Falcon Sensor is a placeholder object used to display something in the UI when running in dev mode."
  const MockRegistry: string := "registry.crowdstrike.com"
  const MockRepository: string := "registry.crowdstrike.com/mock/sensor/falcon-mock"
  const MockLogin: string := "fc-mock123456789mock123456789mock12"
  const MockPassword: string := "mockmockmockmockmockmockmockmockmockmockmockmockmockmockmockmock=="
  const MockAuthConfig: string := "mockmockmockmockmockmockmockmockmockmock="

  function MockTag(name: string, arch: seq<string>): Tag
  {
    Tag(name, MockDigest, arch)
  }

  /** The third mock image's twelve tags, oldest first. */
  const MoreThanTenTags: seq<Tag> := [
    MockTag("1.11.0", ["x86_64"]), MockTag("1.12.0", ["x86_64"]), MockTag("1.13.0", ["x86_64"]),
    MockTag("1.14.0", ["x86_64"]), MockTag("1.15.0", ["x86_64"]), MockTag("1.16.0", ["x86_64"]),
    MockTag("1.17.0", ["x86_64"]), MockTag("1.18.0", ["x86_64"]), MockTag("1.19.0", ["x86_64"]),
    MockTag("1.20.0", ["x86_64"]), MockTag("1.21.0", ["x86_64"]), MockTag("1.23.0", ["x86_64"])]

  /** MOCK_IMAGES */
  const MockImages: seq<Image> := [
    Image("Mock Falcon Sensor (Multi-Arch)", MockDescription, "1.23-4567.DEV.mock.us-0",
          MockRegistry, MockRepository, MockDigest, MockLogin, MockPassword, MockAuthConfig,
          [MockTag("1.22-4567.DEV.mock.us-0", ["x86_64", "aarch64"]),
           MockTag("1.23-4567.DEV.mock.us-0", ["x86_64", "aarch64", "ppc64le"])]),
    Image("Mock Falcon Sensor", MockDescription, "1.23-4567.DEV.mock.us-0",
          MockRegistry, MockRepository, MockDigest, MockLogin, MockPassword, MockAuthConfig,
          [MockTag("1.23-4567.DEV.mock.us-0", ["x86_64"])]),
    Image("Mock Falcon Sensor (More than 10)", MockDescription, "1.23.0",
          MockRegistry, MockRepository, MockDigest, MockLogin, MockPassword, MockAuthConfig,
          MoreThanTenTags)]
}
