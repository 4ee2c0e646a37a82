/**
 * The update check: comparing dotted version strings, and choosing which
 * download of a release to offer on this operating system.
 */
module VersionCheck {
  import opened Common
  import opened Text

  /** The numeric pieces of a split version, with the pieces that do not parse as `u32` dropped. */
  function ParseParts(pieces: seq<string>): (r: seq<nat>)
    ensures |r| <= |pieces|
    ensures forall k :: 0 <= k < |r| ==> r[k] < U32_BOUND
  {
    if pieces == [] then []
    else match ParseU32(pieces[0])
      case Some(n) => [n] + ParseParts(pieces[1..])
      case None => ParseParts(pieces[1..])
  }

  /** The parse inside `is_newer_version`: split at '.', keep what parses as `u32`. */
  function ParseVersion(v: string): seq<nat>
  {
    ParseParts(Split(v, '.'))
  }

  /** A version written from its numbers, dot-separated. */
  function ShowVersion(parts: seq<nat>): string
    requires |parts| >= 1
  {
    JoinWith(ShowEach(parts), '.')
  }

  function ShowEach(parts: seq<nat>): (r: seq<string>)
    ensures |r| == |parts|
    ensures forall k :: 0 <= k < |r| ==> r[k] == ShowNat(parts[k])
  {
    if parts == [] then [] else [ShowNat(parts[0])] + ShowEach(parts[1..])
  }

  /** Component `i`, or 0 past the end. */
  function Component(p: seq<nat>, i: nat): nat
  {
    if i < |p| then p[i] else 0
  }

  /** The comparison from component `i` on: the first component that differs decides; none differing means not newer. */
  function NewerFrom(l: seq<nat>, c: seq<nat>, i: nat): bool
    decreases Max(|l|, |c|) - i
  {
    if i >= Max(|l|, |c|) then false
    else if Component(l, i) > Component(c, i) then true
    else if Component(l, i) < Component(c, i) then false
    else NewerFrom(l, c, i + 1)
  }

  predicate Newer(l: seq<nat>, c: seq<nat>)
  {
    NewerFrom(l, c, 0)
  }

  /** `is_newer_version`: the loop over the longer length, with its early returns. */
  method IsNewerVersion(latest: string, current: string) returns (b: bool)
    ensures b == Newer(ParseVersion(latest), ParseVersion(current))
  {
    var lp := ParseVersion(latest);
    var cp := ParseVersion(current);
    var n := Max(|lp|, |cp|);
    for i := 0 to n
      invariant NewerFrom(lp, cp, 0) == NewerFrom(lp, cp, i)
    {
      var l := if i < |lp| then lp[i] else 0;
      var c := if i < |cp| then cp[i] else 0;
      if l > c {
        return true;
      } else if l < c {
        return false;
      }
    }
    return false;
  }

  /** Newer exactly when some component is larger and every earlier one is equal: a witness of it. */
  lemma {:induction false} NewerWitness(l: seq<nat>, c: seq<nat>, i: nat) returns (k: nat)
    requires NewerFrom(l, c, i)
    ensures i <= k < Max(|l|, |c|) && Component(l, k) > Component(c, k)
    ensures forall j :: i <= j < k ==> Component(l, j) == Component(c, j)
    decreases Max(|l|, |c|) - i
  {
    if Component(l, i) > Component(c, i) {
      k := i;
    } else {
      k := NewerWitness(l, c, i + 1);
    }
  }

  /** And the converse: a first larger component makes the version newer. */
  lemma {:induction false} NewerAt(l: seq<nat>, c: seq<nat>, i: nat, k: nat)
    requires i <= k && Component(l, k) > Component(c, k)
    requires forall j :: i <= j < k ==> Component(l, j) == Component(c, j)
    ensures NewerFrom(l, c, i)
    decreases k - i
  {
    if i < k {
      NewerAt(l, c, i + 1, k);
    }
  }

  /** Versions whose components all agree are not newer than each other. */
  lemma {:induction false} NotNewerWhenEqual(l: seq<nat>, c: seq<nat>, i: nat)
    requires forall j :: i <= j ==> Component(l, j) == Component(c, j)
    ensures !NewerFrom(l, c, i)
    decreases Max(|l|, |c|) - i
  {
    if i < Max(|l|, |c|) {
      NotNewerWhenEqual(l, c, i + 1);
    }
  }

  /** No version is newer than itself. */
  lemma Irreflexive(v: string)
    ensures !Newer(ParseVersion(v), ParseVersion(v))
  {
    var p := ParseVersion(v);
    NotNewerWhenEqual(p, p, 0);
  }

  /** A newer version is never also older. */
  lemma {:induction false} Asymmetric(l: seq<nat>, c: seq<nat>, i: nat)
    requires NewerFrom(l, c, i)
    ensures !NewerFrom(c, l, i)
    decreases Max(|l|, |c|) - i
  {
    if Component(l, i) == Component(c, i) {
      Asymmetric(l, c, i + 1);
    }
  }

  /** Any two versions are ordered one way or the other, or agree in every component. */
  lemma {:induction false} Total(l: seq<nat>, c: seq<nat>, i: nat)
    ensures NewerFrom(l, c, i) || NewerFrom(c, l, i) || forall j :: i <= j ==> Component(l, j) == Component(c, j)
    decreases Max(|l|, |c|) - i
  {
    if i < Max(|l|, |c|) && Component(l, i) == Component(c, i) {
      Total(l, c, i + 1);
      if forall j :: i + 1 <= j ==> Component(l, j) == Component(c, j) {
        assert forall j :: i <= j ==> Component(l, j) == Component(c, j);
      }
    }
  }

  /** A trailing zero component changes nothing, on either side. */
  lemma {:induction false} TrailingZeroLatest(l: seq<nat>, c: seq<nat>, i: nat)
    ensures NewerFrom(l + [0], c, i) == NewerFrom(l, c, i)
    decreases Max(|l| + 1, |c|) - i
  {
    assert Component(l + [0], i) == Component(l, i);
    if i < Max(|l| + 1, |c|) {
      TrailingZeroLatest(l, c, i + 1);
    }
  }

  lemma {:induction false} TrailingZeroCurrent(l: seq<nat>, c: seq<nat>, i: nat)
    ensures NewerFrom(l, c + [0], i) == NewerFrom(l, c, i)
    decreases Max(|l|, |c| + 1) - i
  {
    assert Component(c + [0], i) == Component(c, i);
    if i < Max(|l|, |c| + 1) {
      TrailingZeroCurrent(l, c, i + 1);
    }
  }

  /** So "1.0" and "1.0.0" are not newer than each other, and neither is any pair differing only in trailing zeros. */
  lemma TrailingZerosEqual(p: seq<nat>)
    ensures !Newer(p + [0], p) && !Newer(p, p + [0])
  {
    TrailingZeroLatest(p, p, 0);
    TrailingZeroCurrent(p, p, 0);
    NotNewerWhenEqual(p, p, 0);
  }

  /** Parsing pieces one after another. */
  lemma {:induction false} ParsePartsAppend(a: seq<string>, b: seq<string>)
    ensures ParseParts(a + b) == ParseParts(a) + ParseParts(b)
    decreases |a|
  {
    if a != [] {
      assert (a + b)[0] == a[0] && (a + b)[1..] == a[1..] + b;
      ParsePartsAppend(a[1..], b);
      match ParseU32(a[0])
      case Some(n) =>
        assert ParseParts(a + b) == [n] + ParseParts(a[1..] + b);
      case None =>
        assert ParseParts(a + b) == ParseParts(a[1..] + b);
    } else {
      assert a + b == b;
    }
  }

  /** A piece that is not a `u32` is dropped from the comparison. */
  lemma NonNumericDropped(a: seq<string>, s: string, b: seq<string>)
    requires ParseU32(s).None?
    ensures ParseParts(a + [s] + b) == ParseParts(a + b)
  {
    ParsePartsAppend(a + [s], b);
    ParsePartsAppend(a, [s]);
    ParsePartsAppend(a, b);
    assert ParseParts([s]) == [];
  }

  /** Written with its numbers and parsed again, a version gives back those numbers. */
  lemma {:induction false} ParseShowEach(parts: seq<nat>)
    requires forall k :: 0 <= k < |parts| ==> parts[k] < U32_BOUND
    ensures ParseParts(ShowEach(parts)) == parts
    decreases |parts|
  {
    if parts != [] {
      ParseShow(parts[0], U32_BOUND);
      assert ShowEach(parts)[1..] == ShowEach(parts[1..]);
      ParseShowEach(parts[1..]);
    }
  }

  lemma VersionRoundTrip(parts: seq<nat>)
    requires |parts| >= 1
    requires forall k :: 0 <= k < |parts| ==> parts[k] < U32_BOUND
    ensures ParseVersion(ShowVersion(parts)) == parts
  {
    var pieces := ShowEach(parts);
    forall k | 0 <= k < |pieces|
      ensures '.' !in pieces[k]
    {
      assert AllDigits(pieces[k]);
    }
    Text.JoinSplit(pieces, '.');
    ParseShowEach(parts);
  }

  /** The three-digit versions of the unit tests. */
  lemma ShowDigits(x: nat, y: nat, z: nat)
    requires x < 10 && y < 10 && z < 10
    ensures ShowVersion([x, y, z]) == [DigitChar(x), '.', DigitChar(y), '.', DigitChar(z)]
  {
    var e := ShowEach([x, y, z]);
    assert e == [[DigitChar(x)], [DigitChar(y)], [DigitChar(z)]];
    assert e[1..][1..] == [[DigitChar(z)]];
    assert JoinWith(e[1..][1..], '.') == [DigitChar(z)];
    assert JoinWith(e[1..], '.') == [DigitChar(y)] + ['.'] + [DigitChar(z)];
    assert JoinWith(e, '.') == [DigitChar(x)] + ['.'] + ([DigitChar(y)] + ['.'] + [DigitChar(z)]);
  }

  lemma ThreeDigitVersion(x: nat, y: nat, z: nat, v: string)
    requires x < 10 && y < 10 && z < 10
    requires v == [DigitChar(x), '.', DigitChar(y), '.', DigitChar(z)]
    ensures ParseVersion(v) == [x, y, z]
  {
    ShowDigits(x, y, z);
    VersionRoundTrip([x, y, z]);
  }

  /** The cases the source's unit test asserts. */
  lemma NewerPatch()
    ensures Newer(ParseVersion("0.3.4"), ParseVersion("0.3.3"))
  {
    ThreeDigitVersion(0, 3, 4, "0.3.4");
    ThreeDigitVersion(0, 3, 3, "0.3.3");
  }

  lemma NewerMinor()
    ensures Newer(ParseVersion("0.4.0"), ParseVersion("0.3.9"))
  {
    ThreeDigitVersion(0, 4, 0, "0.4.0");
    ThreeDigitVersion(0, 3, 9, "0.3.9");
  }

  lemma NewerMajor()
    ensures Newer(ParseVersion("1.0.0"), ParseVersion("0.9.9"))
  {
    ThreeDigitVersion(1, 0, 0, "1.0.0");
    ThreeDigitVersion(0, 9, 9, "0.9.9");
  }

  lemma NotNewerSame()
    ensures !Newer(ParseVersion("0.3.3"), ParseVersion("0.3.3"))
  {
    ThreeDigitVersion(0, 3, 3, "0.3.3");
  }

  lemma NotNewerOlder()
    ensures !Newer(ParseVersion("0.3.2"), ParseVersion("0.3.3"))
  {
    ThreeDigitVersion(0, 3, 2, "0.3.2");
    ThreeDigitVersion(0, 3, 3, "0.3.3");
  }

  lemma TwoDigitVersion(x: nat, y: nat, v: string)
    requires x < 10 && y < 10
    requires v == [DigitChar(x), '.', DigitChar(y)]
    ensures ParseVersion(v) == [x, y]
  {
    var e := ShowEach([x, y]);
    assert e == [[DigitChar(x)], [DigitChar(y)]];
    assert JoinWith(e[1..], '.') == [DigitChar(y)];
    VersionRoundTrip([x, y]);
  }

  /** "1.0" and "1.0.0" name the same release. */
  lemma ShortVersionSame()
    ensures !Newer(ParseVersion("1.0"), ParseVersion("1.0.0"))
    ensures !Newer(ParseVersion("1.0.0"), ParseVersion("1.0"))
  {
    OneZeroParts();
    TrailingZerosEqual([1, 0]);
  }

  lemma OneZeroParts()
    ensures ParseVersion("1.0") == [1, 0]
    ensures ParseVersion("1.0.0") == [1, 0] + [0]
  {
    TwoDigitVersion(1, 0, "1.0");
    ThreeDigitVersion(1, 0, 0, "1.0.0");
  }

  /** The operating system the binary was built for; `cfg!(target_os)` becomes this value. */
  datatype Os = Windows | MacOs | Linux | OtherOs

  /** A release asset: its file name and its direct download URL. */
  datatype Asset = Asset(name: string, downloadUrl: string)

  /** The file-name ending of this system's download, if it has one. */
  function PlatformSuffix(os: Os): (r: Option<string>)
    ensures r.None? <==> os == OtherOs
  {
    match os
    case Windows => Some(".exe")
    case MacOs => Some(".dmg")
    case Linux => Some(".AppImage")
    case OtherOs => None
  }

  /** The position of the first asset whose name ends with `suffix`. */
  function FirstEndingWith(assets: seq<Asset>, suffix: string): (r: Option<nat>)
    ensures r.Some? ==> r.value < |assets| && EndsWith(assets[r.value].name, suffix)
    ensures r.Some? ==> forall j :: 0 <= j < r.value ==> !EndsWith(assets[j].name, suffix)
    ensures r.None? ==> forall j :: 0 <= j < |assets| ==> !EndsWith(assets[j].name, suffix)
  {
    if assets == [] then None
    else if EndsWith(assets[0].name, suffix) then Some(0)
    else match FirstEndingWith(assets[1..], suffix)
      case None => None
      case Some(k) => Some(k + 1)
  }

  /** `find_platform_asset`: the download URL of the first asset for this system, if any. */
  function FindPlatformAsset(assets: seq<Asset>, os: Os): (r: Option<string>)
    ensures os == OtherOs ==> r.None?
    ensures r.Some? ==>
      exists k :: 0 <= k < |assets| && r.value == assets[k].downloadUrl
        && EndsWith(assets[k].name, PlatformSuffix(os).value)
        && forall j :: 0 <= j < k ==> !EndsWith(assets[j].name, PlatformSuffix(os).value)
    ensures os != OtherOs && r.None? ==>
      forall j :: 0 <= j < |assets| ==> !EndsWith(assets[j].name, PlatformSuffix(os).value)
  {
    match PlatformSuffix(os)
    case None => None
    case Some(suffix) =>
      match FirstEndingWith(assets, suffix)
      case None => None
      case Some(k) => Some(assets[k].downloadUrl)
  }

  /** What the update check reports: the release's tag and where to get it. */
  datatype NewVersionInfo = NewVersionInfo(version: string, downloadUrl: string)

  /**
   * The decision inside `check_github_release`, once the release is fetched:
   * a leading 'v' is ignored on both sides; a newer release is offered with
   * this system's asset, or the release page when it has none.
   */
  function ReleaseUpdate(tagName: string, htmlUrl: string, assets: seq<Asset>, currentVersion: string, os: Os)
    : (r: Option<NewVersionInfo>)
    ensures r.Some? <==>
      Newer(ParseVersion(TrimStartChar(tagName, 'v')), ParseVersion(TrimStartChar(currentVersion, 'v')))
    ensures r.Some? ==> r.value.version == tagName
    ensures r.Some? && FindPlatformAsset(assets, os).None? ==> r.value.downloadUrl == htmlUrl
    ensures r.Some? && FindPlatformAsset(assets, os).Some? ==> r.value.downloadUrl == FindPlatformAsset(assets, os).value
  {
    var latest := TrimStartChar(tagName, 'v');
    var current := TrimStartChar(currentVersion, 'v');
    if Newer(ParseVersion(latest), ParseVersion(current)) then
      var url := match FindPlatformAsset(assets, os)
        case Some(u) => u
        case None => htmlUrl;
      Some(NewVersionInfo(tagName, url))
    else None
  }

  /** A release tagged with the running version, with or without its 'v', is not offered. */
  lemma SameVersionNotOffered(version: string, htmlUrl: string, assets: seq<Asset>, os: Os)
    ensures ReleaseUpdate(version, htmlUrl, assets, version, os).None?
    ensures ReleaseUpdate(['v'] + version, htmlUrl, assets, version, os).None?
  {
    Irreflexive(TrimStartChar(version, 'v'));
    assert TrimStartChar(['v'] + version, 'v') == TrimStartChar(version, 'v');
  }
}
