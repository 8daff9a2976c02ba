/** Expansion of short image references (`normalize_reference` in
    agent/src/containerd.rs). */
module ImageReference {

  /** The position of the first slash from `i` on, or the length. */
  function FirstSlash(s: string, i: nat): (r: nat)
    requires i <= |s|
    ensures i <= r <= |s| && (r < |s| ==> s[r] == '/')
    ensures forall j :: i <= j < r ==> s[j] != '/'
    decreases |s| - i
  {
    if i == |s| || s[i] == '/' then i else FirstSlash(s, i + 1)
  }

  /** The position of the last slash before `n`, or -1. */
  function LastSlash(s: string, n: nat): (r: int)
    requires n <= |s|
    ensures -1 <= r < n && (r >= 0 ==> s[r] == '/')
    ensures forall j :: r < j < n ==> s[j] != '/'
  {
    if n == 0 then -1 else if s[n - 1] == '/' then n - 1 else LastSlash(s, n - 1)
  }

  /** The text before the first slash, or all of it. */
  function FirstSegment(s: string): string {
    s[..FirstSlash(s, 0)]
  }

  /** The text after the last slash, or all of it. */
  function LastSegment(s: string): string {
    s[LastSlash(s, |s|) + 1..]
  }

  const HUB := "docker.io/"
  const LIBRARY := "library/"
  const LATEST := ":latest"

  predicate RegistryLike(segment: string) {
    segment == "localhost" || '.' in segment || ':' in segment
  }

  predicate HasRegistryHost(image: string) {
    '/' in image && RegistryLike(FirstSegment(image))
  }

  predicate HasTagOrDigest(image: string) {
    '@' in LastSegment(image) || ':' in LastSegment(image)
  }

  function Qualify(image: string): string {
    if HasRegistryHost(image) then image
    else if '/' in image then HUB + image
    else HUB + (LIBRARY + image)
  }

  function NormalizeReference(image: string): string {
    var qualified := Qualify(image);
    if HasTagOrDigest(qualified) then qualified else qualified + LATEST
  }

  lemma SlashFound(s: string)
    ensures '/' in s <==> FirstSlash(s, 0) < |s|
  {
  }

  lemma SlashIs(s: string, i: nat)
    requires i < |s| && s[i] == '/'
    ensures (forall j :: 0 <= j < i ==> s[j] != '/') ==> FirstSlash(s, 0) == i
    ensures (forall j :: i < j < |s| ==> s[j] != '/') ==> LastSlash(s, |s|) == i
  {
  }

  /** An image names a registry when the text before its first slash is localhost or
      has a dot or a colon. */
  lemma HasRegistryHostMeans(image: string)
    ensures HasRegistryHost(image) <==>
              exists i :: 0 <= i < |image| && image[i] == '/' && (forall j :: 0 <= j < i ==> image[j] != '/')
                          && (image[..i] == "localhost" || '.' in image[..i] || ':' in image[..i])
  {
    SlashFound(image);
    if i :| 0 <= i < |image| && image[i] == '/' && (forall j :: 0 <= j < i ==> image[j] != '/')
            && (image[..i] == "localhost" || '.' in image[..i] || ':' in image[..i]) {
      SlashIs(image, i);
    }
    if HasRegistryHost(image) {
      var f := FirstSlash(image, 0);
      assert FirstSegment(image) == image[..f];
    }
  }

  /** An image has a tag or digest when a colon or an at sign comes after its last
      slash. */
  lemma HasTagOrDigestMeans(image: string)
    ensures HasTagOrDigest(image) <==>
              exists i :: 0 <= i < |image| && (image[i] == ':' || image[i] == '@')
                          && forall j :: i < j < |image| ==> image[j] != '/'
  {
    if i :| 0 <= i < |image| && (image[i] == ':' || image[i] == '@')
            && forall j :: i < j < |image| ==> image[j] != '/' {
      AfterLastSlash(image, i);
    }
    if HasTagOrDigest(image) {
      var c := if '@' in LastSegment(image) then '@' else ':';
      var i :| 0 <= i < |LastSegment(image)| && LastSegment(image)[i] == c;
      AfterLastSlash(image, LastSlash(image, |image|) + 1 + i);
    }
  }

  lemma AfterLastSlash(image: string, i: nat)
    requires i < |image| && image[i] != '/'
    ensures i > LastSlash(image, |image|) <==> forall j :: i < j < |image| ==> image[j] != '/'
    ensures i > LastSlash(image, |image|) ==>
              && image[i] == LastSegment(image)[i - (LastSlash(image, |image|) + 1)]
              && image[i] in LastSegment(image)
  {
    var k := LastSlash(image, |image|);
    if i <= k {
      assert image[k] == '/';
    } else {
      assert image[k + 1..][i - (k + 1)] == image[i];
    }
  }

  /** Text put in front, ending in a slash, does not change the last segment. */
  lemma PrependKeepsLast(front: string, image: string)
    requires front != "" && front[|front| - 1] == '/'
    ensures LastSegment(front + image) == LastSegment(image)
  {
    var r, k := front + image, LastSlash(image, |image|);
    assert forall j :: |front| <= j < |r| ==> r[j] == image[j - |front|];
    SlashIs(r, |front| + k);
    DropFront(front, image, k + 1);
  }

  lemma DropFront(front: string, image: string, i: nat)
    requires i <= |image|
    ensures (front + image)[|front| + i..] == image[i..]
  {
  }

  lemma AppendKeepsFirst(image: string, tail: string)
    requires '/' in image
    ensures FirstSegment(image + tail) == FirstSegment(image)
  {
    var r, f := image + tail, FirstSlash(image, 0);
    SlashFound(image);
    assert forall j :: 0 <= j < |image| ==> r[j] == image[j];
    SlashIs(r, f);
    assert r[..f] == image[..f];
  }

  lemma DropOfAppend(a: string, b: string, i: nat)
    requires i <= |a|
    ensures (a + b)[i..] == a[i..] + b
  {
  }

  lemma LastSlashOfAppend(a: string, b: string)
    requires forall j :: 0 <= j < |b| ==> b[j] != '/'
    requires LastSlash(a, |a|) >= 0
    ensures LastSlash(a + b, |a + b|) == LastSlash(a, |a|)
  {
    var k := LastSlash(a, |a|);
    forall j | k < j < |a + b| ensures (a + b)[j] != '/' {
      assert (a + b)[j] == if j < |a| then a[j] else b[j - |a|];
    }
    SlashIs(a + b, k);
  }

  lemma AppendedSegment(image: string, tail: string, k: nat)
    requires k < |image| && LastSlash(image, |image|) == k && LastSlash(image + tail, |image + tail|) == k
    ensures LastSegment(image + tail) == LastSegment(image) + tail
  {
    DropOfAppend(image, tail, k + 1);
  }

  /** A slash-free tail extends the last segment. */
  lemma AppendToLast(image: string, tail: string)
    requires forall j :: 0 <= j < |tail| ==> tail[j] != '/'
    requires LastSlash(image, |image|) >= 0
    ensures LastSegment(image + tail) == LastSegment(image) + tail
  {
    LastSlashOfAppend(image, tail);
    AppendedSegment(image, tail, LastSlash(image, |image|));
  }

  lemma HubIsHost(rest: string)
    ensures HasRegistryHost(HUB + rest)
  {
    var r := HUB + rest;
    assert r[9] == HUB[9] == '/';
    assert forall j :: 0 <= j < 9 ==> r[j] == HUB[j];
    SlashIs(r, 9);
    assert FirstSegment(r)[6] == '.';
  }

  /** The decision about the tag is the same before and after qualifying. */
  lemma QualifyKeepsTag(image: string)
    ensures LastSegment(Qualify(image)) == LastSegment(image)
    ensures HasRegistryHost(Qualify(image))
  {
    if !HasRegistryHost(image) {
      PrependKeepsLast(HUB, image);
      HubIsHost(image);
      PrependKeepsLast(LIBRARY, image);
      PrependKeepsLast(HUB, LIBRARY + image);
      HubIsHost(LIBRARY + image);
    }
  }

  lemma LatestIsTag(image: string)
    requires '/' in image
    ensures HasTagOrDigest(image + LATEST)
    ensures HasRegistryHost(image + LATEST) <==> HasRegistryHost(image)
  {
    assert LATEST == ":latest";
    SlashFound(image);
    assert image[FirstSlash(image, 0)] == '/' && (image + LATEST)[FirstSlash(image, 0)] == '/';
    AppendKeepsFirst(image, LATEST);
    AppendToLast(image, LATEST);
    assert (LastSegment(image) + LATEST)[|LastSegment(image)|] == ':';
  }

  /** A normalised reference names its registry and carries a tag or digest; an
      input is left as it is exactly when it already does both; so normalising
      twice is normalising once. */
  lemma NormalizeReferenceCorrect(image: string)
    ensures var r := NormalizeReference(image);
            && HasRegistryHost(r) && HasTagOrDigest(r)
            && (r == image <==> HasRegistryHost(image) && HasTagOrDigest(image))
            && NormalizeReference(r) == r
  {
    QualifyKeepsTag(image);
    var q := Qualify(image);
    if !HasTagOrDigest(q) {
      LatestIsTag(q);
      assert |q + LATEST| > |image|;
    }
    assert q != image ==> |q| > |image|;
  }

  /** What comes in front of an image that names no registry. */
  function Front(image: string): string {
    if HasRegistryHost(image) then "" else if '/' in image then "docker.io/" else "docker.io/library/"
  }

  lemma NothingAround(s: string)
    ensures "" + s == s && s + "" == s
  {
  }

  lemma Associative(a: string, b: string, c: string)
    ensures a + (b + c) == (a + b) + c
  {
  }

  lemma QualifyIsFront(image: string)
    ensures Qualify(image) == Front(image) + image
  {
    if HasRegistryHost(image) {
      NothingAround(image);
    } else if '/' !in image {
      Associative(HUB, LIBRARY, image);
      assert HUB + LIBRARY == "docker.io/library/";
    }
  }

  /** The image named is still there: normalising only adds a registry path in
      front, none if there was one, and a tag behind, only when there was none. */
  lemma NormalizeReferenceExtends(image: string)
    ensures NormalizeReference(image) == Front(image) + image + (if HasTagOrDigest(image) then "" else ":latest")
  {
    QualifyKeepsTag(image);
    QualifyIsFront(image);
    NothingAround(Qualify(image));
  }
}
