/** ui/pages/src/app/Dashboard/ImageItem.tsx: one expandable image row with
    its credentials, a paged table of tags (newest first), and a modal
    with pull commands. */
module ImageItem {
  import opened DashboardTypes
  import Registry

  /** [...tags].reverse(): a reversed copy. */
  function Reverse<T>(s: seq<T>): (r: seq<T>)
    ensures |r| == |s|
    ensures forall k :: 0 <= k < |s| ==> r[k] == s[|s| - 1 - k]
  {
    if s == [] then [] else [s[|s| - 1]] + Reverse(s[..|s| - 1])
  }

  /** How Array.prototype.slice reads an index: a negative one counts from
      the end, and the result is clamped to [0, n]. */
  function ClampIndex(i: int, n: nat): (k: nat)
    ensures k <= n
    ensures 0 <= i <= n ==> k == i
    ensures i > n ==> k == n
    ensures i < 0 ==> k == if n + i > 0 then n + i else 0
  {
    if i < 0 then (if n + i > 0 then n + i else 0) else if i < n then i else n
  }

  /** Two clamped indices are never further apart than the originals when
      the first is the smaller. */
  lemma ClampWidth(i: int, j: int, n: nat)
    requires i <= j
    ensures ClampIndex(i, n) < ClampIndex(j, n) ==> ClampIndex(j, n) - ClampIndex(i, n) <= j - i
  {
  }

  /** Array.prototype.slice(start, end). */
  function JsSlice<T>(s: seq<T>, start: int, end: int): (r: seq<T>)
    ensures var a, b := ClampIndex(start, |s|), ClampIndex(end, |s|);
            && |r| == (if a < b then b - a else 0)
            && forall i :: 0 <= i < |r| ==> a + i < |s| && r[i] == s[a + i]
  {
    var a, b := ClampIndex(start, |s|), ClampIndex(end, |s|);
    if a < b then s[a..b] else []
  }

  /** Element i of a slice between two non-negative bounds. */
  lemma SliceAt<T>(s: seq<T>, start: int, end: int, i: int)
    requires 0 <= start <= end && 0 <= i < |JsSlice(s, start, end)|
    ensures start + i < |s| && JsSlice(s, start, end)[i] == s[start + i]
  {
  }

  /** Element i of a slice of the reversed tags, counted from the newest. */
  lemma ReversedSliceAt<T>(tags: seq<T>, start: int, end: int, i: int)
    requires 0 <= start <= end && 0 <= i < |JsSlice(Reverse(tags), start, end)|
    ensures start + i < |tags| && JsSlice(Reverse(tags), start, end)[i] == tags[|tags| - 1 - (start + i)]
  {
    SliceAt(Reverse(tags), start, end, i);
  }

  /** The tags shown on `page` with `perPage` rows per page: the reversed
      copy of the tags sliced at [(page-1)*perPage, page*perPage). */
  function PageTags<T>(tags: seq<T>, page: int, perPage: int): seq<T>
  {
    JsSlice(Reverse(tags), (page - 1) * perPage, page * perPage)
  }

  /** A page never holds more than perPage rows, whatever page is asked
      for (a page below 1 makes slice count from the end). */
  lemma PageBound<T>(tags: seq<T>, page: int, perPage: int)
    requires perPage >= 0
    ensures |PageTags(tags, page, perPage)| <= perPage
  {
    var start, end := (page - 1) * perPage, page * perPage;
    assert end - start == perPage;
    var r := Reverse(tags);
    assert |r| == |tags|;
    ClampWidth(start, end, |r|);
    var a, b := ClampIndex(start, |r|), ClampIndex(end, |r|);
    assert |PageTags(tags, page, perPage)| == if a < b then b - a else 0;
  }

  /** Row i of page `page` is the tag (page-1)*perPage + i places from the
      newest. */
  lemma PageAt<T>(tags: seq<T>, page: int, perPage: int, i: int)
    requires page >= 1 && perPage >= 1
    requires 0 <= i < |PageTags(tags, page, perPage)|
    ensures (page - 1) * perPage + i < |tags|
    ensures PageTags(tags, page, perPage)[i] == tags[|tags| - 1 - ((page - 1) * perPage + i)]
  {
    var start, end := (page - 1) * perPage, page * perPage;
    assert 0 <= start && end == start + perPage;
    ReversedSliceAt(tags, start, end, i);
  }

  /** A page is empty exactly when it starts at or past the last tag. */
  lemma PageEmpty<T>(tags: seq<T>, page: int, perPage: int)
    requires page >= 1 && perPage >= 1
    ensures PageTags(tags, page, perPage) == [] <==> (page - 1) * perPage >= |tags|
  {
    assert (page - 1) * perPage >= 0;
    assert page * perPage == (page - 1) * perPage + perPage;
  }

  /** Page 1 begins with the last stored tag, the newest. */
  lemma FirstPageNewest<T>(tags: seq<T>, perPage: int)
    requires tags != [] && perPage >= 1
    ensures PageTags(tags, 1, perPage) != [] && PageTags(tags, 1, perPage)[0] == tags[|tags| - 1]
  {
    PageEmpty(tags, 1, perPage);
    PageAt(tags, 1, perPage, 0);
  }

  /** Pages 1 to k, one after another. */
  function PagesUpTo<T>(tags: seq<T>, perPage: int, k: nat): seq<T>
  {
    if k == 0 then [] else PagesUpTo(tags, perPage, k - 1) + PageTags(tags, k, perPage)
  }

  /** Pages 1 to k together are the first k*perPage tags of the reversed
      list: no tag is shown twice and none is skipped. */
  lemma {:induction false} PagesCover<T>(tags: seq<T>, perPage: int, k: nat)
    requires perPage >= 1
    ensures var m := if k * perPage < |tags| then k * perPage else |tags|;
            PagesUpTo(tags, perPage, k) == Reverse(tags)[..m]
  {
    if k > 0 {
      PagesCover(tags, perPage, k - 1);
      var r := Reverse(tags);
      var start := (k - 1) * perPage;
      assert k * perPage == start + perPage;
      assert start >= 0;
      var m0 := if start < |tags| then start else |tags|;
      var m := if k * perPage < |tags| then k * perPage else |tags|;
      if start < |tags| {
        assert PageTags(tags, k, perPage) == r[start..m];
        assert r[..m0] + r[start..m] == r[..m];
      } else {
        assert PageTags(tags, k, perPage) == [];
      }
    }
  }

  /** Pages 1 to ceil(n / perPage) are exactly the reversed tags. */
  lemma AllPages<T>(tags: seq<T>, perPage: int)
    requires perPage >= 1
    ensures PagesUpTo(tags, perPage, (|tags| + perPage - 1) / perPage) == Reverse(tags)
  {
    var n := |tags|;
    var q := (n + perPage - 1) / perPage;
    assert n + perPage - 1 == q * perPage + (n + perPage - 1) % perPage;
    assert q * perPage >= n;
    PagesCover(tags, perPage, q);
    assert Reverse(tags)[..n] == Reverse(tags);
  }

  /** The more-than-ten mock at page 2 of 10 shows 1.12.0 then 1.11.0. */
  lemma SecondPageOfMock()
    ensures PageTags(MoreThanTenTags, 2, 10) == [MoreThanTenTags[1], MoreThanTenTags[0]]
    ensures MoreThanTenTags[1].name == "1.12.0" && MoreThanTenTags[0].name == "1.11.0"
  {
    var p := PageTags(MoreThanTenTags, 2, 10);
    assert |p| == 2;
    PageAt(MoreThanTenTags, 2, 10, 0);
    PageAt(MoreThanTenTags, 2, 10, 1);
  }

  /** t.digest.substring(0, 19): the first 19 characters, or all of a
      shorter digest. */
  function ShortDigest(d: string): (r: string)
    ensures |r| == if |d| < 19 then |d| else 19
    ensures r == d[..|r|]
  {
    d[..if |d| < 19 then |d| else 19]
  }

  /** Shortening twice shortens no further. */
  lemma ShortDigestIdempotent(d: string)
    ensures ShortDigest(ShortDigest(d)) == ShortDigest(d)
  {
  }

  /** A sha256 digest is shown as the algorithm and its first 12 hex digits. */
  lemma ShortMockDigest()
    ensures ShortDigest(MockDigest) == "sha256:1234567890ab"
  {
    var hex := "1234567890abcdef1234567890abcdef";
    assert MockDigest == "sha256:" + hex + hex;
    assert MockDigest[..19] == "sha256:" + hex[..12];
    assert hex[..12] == "1234567890ab";
  }

  /** A pull reference: the repository, a separator, and what follows it
      (':' and a tag, or '@' and a digest). */
  function Reference(repository: string, sep: char, suffix: string): (r: string)
    ensures |r| == |repository| + 1 + |suffix|
    ensures r[..|repository|] == repository && r[|repository|] == sep && r[|repository| + 1..] == suffix
  {
    repository + [sep] + suffix
  }

  /** The reference pulled by tag. */
  function TagReference(repository: string, tag: string): string
  {
    Reference(repository, ':', tag)
  }

  /** The reference pulled by digest. */
  function DigestReference(repository: string, digest: string): string
  {
    Reference(repository, '@', digest)
  }

  /** The modal's four commands: docker and podman, by tag then by digest. */
  function PullCommands(repository: string, tag: string, digest: string): (r: seq<string>)
    ensures |r| == 4
    ensures r[0] == "docker pull " + TagReference(repository, tag) && r[1] == "podman pull " + TagReference(repository, tag)
    ensures r[2] == "docker pull " + DigestReference(repository, digest) && r[3] == "podman pull " + DigestReference(repository, digest)
  {
    ["docker pull " + repository + ":" + tag, "podman pull " + repository + ":" + tag,
     "docker pull " + repository + "@" + digest, "podman pull " + repository + "@" + digest]
  }

  /** The tag reference the dashboard offers is the one whose digest the
      sync function looked up, without its leading "//"; since tags have no
      ':', it names the repository and tag it was built from. */
  lemma PullMatchesDigestLookup(repository: string, tag: string, repository2: string, tag2: string)
    requires ':' !in tag && ':' !in tag2
    ensures "//" + TagReference(repository, tag) == Registry.ImageReference(repository, tag)
    ensures TagReference(repository, tag) == TagReference(repository2, tag2) ==> repository == repository2 && tag == tag2
  {
    assert "//" + TagReference(repository, tag) == "//" + repository + ":" + tag;
    if TagReference(repository, tag) == TagReference(repository2, tag2) {
      Registry.ImageReferenceInjective(repository, tag, repository2, tag2);
    }
  }

  const Masked: string := "••••••••••"

  /** The component's state; `image` is its prop and is never written. */
  class ImageItemView {
    const image: Image
    var isExpanded: bool
    var isModalOpen: bool
    var selectedTag: string
    var selectedDigest: string
    var showPassword: bool
    var showPullToken: bool
    var page: int
    var perPage: int

    /** The pager starts at page 1 with 10 rows; everything is collapsed,
        closed and masked. */
    constructor (image: Image)
      ensures this.image == image
      ensures page == 1 && perPage == 10
      ensures !isExpanded && !isModalOpen && !showPassword && !showPullToken
      ensures selectedTag == "" && selectedDigest == ""
    {
      this.image := image;
      isExpanded, isModalOpen := false, false;
      selectedTag, selectedDigest := "", "";
      showPassword, showPullToken := false, false;
      page, perPage := 1, 10;
    }

    /** handleModalToggle */
    method HandleModalToggle()
      modifies this`isModalOpen
      ensures isModalOpen == !old(isModalOpen)
    {
      isModalOpen := !isModalOpen;
    }

    /** handleDownloadClick: remember the tag and digest, open the modal. */
    method HandleDownloadClick(tagName: string, digest: string)
      modifies this`selectedTag, this`selectedDigest, this`isModalOpen
      ensures selectedTag == tagName && selectedDigest == digest && isModalOpen
      ensures ModalCommands() == PullCommands(image.repository, tagName, digest)
    {
      selectedTag, selectedDigest := tagName, digest;
      isModalOpen := true;
    }

    /** onSetPage: only the page changes. */
    method OnSetPage(pageNumber: int)
      modifies this`page
      ensures page == pageNumber
    {
      page := pageNumber;
    }

    /** onPerPageSelect: both the page size and the page are taken as given. */
    method OnPerPageSelect(newPerPage: int, newPage: int)
      modifies this`perPage, this`page
      ensures perPage == newPerPage && page == newPage
    {
      perPage := newPerPage;
      page := newPage;
    }

    method ToggleExpanded()
      modifies this`isExpanded
      ensures isExpanded == !old(isExpanded)
    {
      isExpanded := !isExpanded;
    }

    method TogglePassword()
      modifies this`showPassword
      ensures showPassword == !old(showPassword)
    {
      showPassword := !showPassword;
    }

    method TogglePullToken()
      modifies this`showPullToken
      ensures showPullToken == !old(showPullToken)
    {
      showPullToken := !showPullToken;
    }

    /** The rows of the tags table on the current page (at most perPage of
        them, by PageBound), each its name, architectures and short digest. */
    function CurrentRows(): (rows: seq<(string, seq<string>, string)>)
      reads this
      ensures |rows| == |PageTags(image.tags, page, perPage)|
      ensures perPage >= 0 ==> |rows| <= perPage
      ensures forall i :: 0 <= i < |rows| ==>
                var t := PageTags(image.tags, page, perPage)[i];
                rows[i] == (t.name, t.arch, ShortDigest(t.digest))
    {
      var ts := PageTags(image.tags, page, perPage);
      assert perPage >= 0 ==> |ts| <= perPage by {
        if perPage >= 0 { PageBound(image.tags, page, perPage); }
      }
      seq(|ts|, i requires 0 <= i < |ts| => (ts[i].name, ts[i].arch, ShortDigest(ts[i].digest)))
    }

    /** The password cell: masked unless revealed. */
    function PasswordText(): (s: string)
      reads this
      ensures showPassword ==> s == image.password
      ensures !showPassword ==> s == Masked
    {
      if showPassword then image.password else Masked
    }

    /** The pull-token cell: masked unless revealed. */
    function PullTokenText(): (s: string)
      reads this
      ensures showPullToken ==> s == image.dockerAuthConfig
      ensures !showPullToken ==> s == Masked
    {
      if showPullToken then image.dockerAuthConfig else Masked
    }

    /** The commands the modal shows for the selected tag and digest. */
    function ModalCommands(): seq<string>
      reads this
    {
      PullCommands(image.repository, selectedTag, selectedDigest)
    }
  }
}
