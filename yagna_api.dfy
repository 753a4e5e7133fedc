/**
 * YagnaApi (src/shared/utils/yagna/yagnaApi.ts): the set of REST clients a requestor
 * talks to, their base URLs and Authorization header, and the check that the running
 * Yagna is at least version 0.13.2.
 *
 * The environment values (the app key and API URL) and the version service's answer are
 * inputs. Versions are (major, minor, patch) triples compared by the precedence of
 * section 11 of Semantic Versioning 2.0.0 restricted to release versions.
 */
module YagnaApis {
  import opened Wrappers
  import opened Strings

  datatype YagnaOptions = YagnaOptions(apiKey: Option<string>, basePath: Option<string>)

  datatype YagnaError =
    | GolemConfigError(message: string)
    | GolemPlatformError(message: string)

  /** One generated REST client: its base URL and, when it sends one, its Authorization header. */
  datatype Client = Client(base: string, authorization: Option<string>)

  datatype YagnaApi = YagnaApi(
    basePath: string,
    apiKey: string,
    market: Client,
    payment: Client,
    activity: Client,
    net: Client,
    gsb: Client,
    identity: Client,
    version: Client)

  /** The Authorization value of RFC 6750 section 2.1: the scheme "Bearer", a space, the token. */
  function BearerHeader(apiKey: string): string
  {
    "Bearer " + apiKey
  }

  /** The token is recovered from the header by dropping the scheme and the space. */
  lemma BearerHeaderRoundTrip(apiKey: string)
    ensures StartsWith(BearerHeader(apiKey), "Bearer ")
    ensures BearerHeader(apiKey)[7..] == apiKey
  {
  }

  function ServiceBase(basePath: string, name: string): string
  {
    basePath + "/" + name + "-api/v1"
  }

  /**
   * The constructor: the key is the option's, else the environment's; the base path
   * likewise. Without a key the construction fails. Every client but the version client
   * sends the bearer header.
   */
  function NewYagnaApi(options: Option<YagnaOptions>, envAppKey: string, envApiUrl: string): (r: Result<YagnaApi, YagnaError>)
    ensures var key := OrString(if options.Some? then options.value.apiKey else None, envAppKey);
            (r.Err? <==> key == "") &&
            (r.Err? ==> r.error == GolemConfigError("Yagna API key not defined")) &&
            (r.Ok? ==> r.value.apiKey == key)
    ensures r.Ok? ==> r.value.basePath == OrString(if options.Some? then options.value.basePath else None, envApiUrl)
    ensures r.Ok? ==>
              var api := r.value;
              api.market.base == ServiceBase(api.basePath, "market") &&
              api.payment.base == ServiceBase(api.basePath, "payment") &&
              api.activity.base == ServiceBase(api.basePath, "activity") &&
              api.net.base == ServiceBase(api.basePath, "net") &&
              api.gsb.base == ServiceBase(api.basePath, "gsb") &&
              api.identity.base == api.basePath && api.version.base == api.basePath
    ensures r.Ok? ==>
              var h := Some(BearerHeader(r.value.apiKey));
              r.value.market.authorization == h && r.value.payment.authorization == h &&
              r.value.activity.authorization == h && r.value.net.authorization == h &&
              r.value.gsb.authorization == h && r.value.identity.authorization == h &&
              r.value.version.authorization.None?
  {
    var apiKey := OrString(if options.Some? then options.value.apiKey else None, envAppKey);
    var basePath := OrString(if options.Some? then options.value.basePath else None, envApiUrl);
    if apiKey == "" then Err(GolemConfigError("Yagna API key not defined"))
    else
      var h := Some(BearerHeader(apiKey));
      Ok(YagnaApi(
        basePath, apiKey,
        Client(ServiceBase(basePath, "market"), h),
        Client(ServiceBase(basePath, "payment"), h),
        Client(ServiceBase(basePath, "activity"), h),
        Client(ServiceBase(basePath, "net"), h),
        Client(ServiceBase(basePath, "gsb"), h),
        Client(basePath, h),
        Client(basePath, None)))
  }

  /** The five API clients under the base path all have different base URLs. */
  lemma ServiceBasesDistinct(basePath: string)
    ensures var names := ["market", "payment", "activity", "net", "gsb"];
            forall i, j :: 0 <= i < j < |names| ==> ServiceBase(basePath, names[i]) != ServiceBase(basePath, names[j])
  {
    var names := ["market", "payment", "activity", "net", "gsb"];
    var k := |basePath| + 1;
    forall i, j | 0 <= i < j < |names|
      ensures ServiceBase(basePath, names[i]) != ServiceBase(basePath, names[j])
    {
      assert ServiceBase(basePath, names[i])[k] == names[i][0];
      assert ServiceBase(basePath, names[j])[k] == names[j][0];
    }
  }

  // ---------------------------------------------------------------------------
  // Versions

  datatype Version = Version(major: nat, minor: nat, patch: nat)

  const MinSupportedYagna := Version(0, 13, 2)
  const MinSupportedYagnaText := "0.13.2"

  /** Precedence of release versions: major, then minor, then patch, compared as numbers. */
  predicate AtLeast(v: Version, w: Version)
    ensures v == w ==> AtLeast(v, w)
    ensures v.major != w.major ==> (AtLeast(v, w) <==> v.major > w.major)
    ensures v.major == w.major && v.minor != w.minor ==> (AtLeast(v, w) <==> v.minor > w.minor)
    ensures v.major == w.major && v.minor == w.minor ==> (AtLeast(v, w) <==> v.patch >= w.patch)
  {
    v.major > w.major ||
    (v.major == w.major && (v.minor > w.minor || (v.minor == w.minor && v.patch >= w.patch)))
  }

  lemma AtLeastTransitive(u: Version, v: Version, w: Version)
    requires AtLeast(u, v) && AtLeast(v, w)
    ensures AtLeast(u, w)
  {
  }

  lemma AtLeastTotal(v: Version, w: Version)
    ensures AtLeast(v, w) || AtLeast(w, v)
    ensures AtLeast(v, w) && AtLeast(w, v) ==> v == w
  {
  }

  /** The first index at or after `from` holding a digit, or |s|. */
  function FirstDigitFrom(s: string, from: nat): (i: nat)
    requires from <= |s|
    ensures from <= i <= |s|
    ensures i < |s| ==> IsDigit(s[i])
    ensures forall k :: from <= k < i ==> !IsDigit(s[k])
    decreases |s| - from
  {
    if from == |s| || IsDigit(s[from]) then from else FirstDigitFrom(s, from + 1)
  }

  /** A '.' followed by a digit run, read as a number: the value and the length consumed. */
  function DottedPart(s: string): (r: Option<(nat, nat)>)
    ensures r.Some? ==> 2 <= r.value.1 <= |s|
  {
    if |s| >= 2 && s[0] == '.' && IsDigit(s[1]) then
      var n := DigitRun(s[1..]);
      Some((DecimalValue(s[1..][..n]), n + 1))
    else None
  }

  /**
   * semver's `coerce`: the first run of digits is the major number, and up to two
   * following ".digits" parts are the minor and patch numbers, 0 when missing. A text
   * without digits is unreadable.
   */
  function Coerce(text: string): (r: Option<Version>)
    ensures r.None? <==> forall k :: 0 <= k < |text| ==> !IsDigit(text[k])
  {
    var i := FirstDigitFrom(text, 0);
    if i == |text| then None
    else
      var rest := text[i..];
      var n := DigitRun(rest);
      var major := DecimalValue(rest[..n]);
      var afterMajor := rest[n..];
      match DottedPart(afterMajor)
      case None => Some(Version(major, 0, 0))
      case Some((minor, m)) =>
        match DottedPart(afterMajor[m..])
        case None => Some(Version(major, minor, 0))
        case Some((patch, _)) => Some(Version(major, minor, patch))
  }

  /** `normVersion.version`: the coerced version written as "major.minor.patch". */
  function VersionText(v: Version): string
  {
    NatToDecimal(v.major) + "." + NatToDecimal(v.minor) + "." + NatToDecimal(v.patch)
  }

  /** A dot and a digit run, followed by something that is not a digit, is read as that number. */
  lemma DottedPartOf(b: string, after: string)
    requires |b| > 0 && forall k :: 0 <= k < |b| ==> IsDigit(b[k])
    requires |after| == 0 || !IsDigit(after[0])
    ensures DottedPart("." + b + after) == Some((DecimalValue(b), |b| + 1))
  {
    var s := "." + b + after;
    var body := b + after;
    assert s == ['.'] + body;
    assert s[1..] == body;
    DigitRunOfDigits(b, after);
    assert body[..|b|] == b;
    assert s[1] == b[0];
  }

  lemma LeadingRun(a: string, tail: string)
    requires |a| > 0 && forall k :: 0 <= k < |a| ==> IsDigit(a[k])
    requires |tail| == 0 || !IsDigit(tail[0])
    ensures FirstDigitFrom(a + tail, 0) == 0
    ensures (a + tail)[0..] == a + tail
    ensures DigitRun(a + tail) == |a| && (a + tail)[..|a|] == a && (a + tail)[|a|..] == tail
  {
    assert (a + tail)[0] == a[0];
    DigitRunOfDigits(a, tail);
  }

  /** Coercing the text of a version gives that version back. */
  lemma CoerceVersionText(v: Version)
    ensures Coerce(VersionText(v)) == Some(v)
  {
    var a, b, c := NatToDecimal(v.major), NatToDecimal(v.minor), NatToDecimal(v.patch);
    assert VersionText(v) == a + ("." + b + ("." + c));
    DecimalRoundTrip(v.major);
    DecimalRoundTrip(v.minor);
    DecimalRoundTrip(v.patch);
    CoerceOfPieces(a, b, c, v);
  }

  /** Three digit runs joined by dots are read as the version they spell. */
  lemma CoerceOfPieces(a: string, b: string, c: string, v: Version)
    requires |a| > 0 && forall k :: 0 <= k < |a| ==> IsDigit(a[k])
    requires |b| > 0 && forall k :: 0 <= k < |b| ==> IsDigit(b[k])
    requires |c| > 0 && forall k :: 0 <= k < |c| ==> IsDigit(c[k])
    requires DecimalValue(a) == v.major && DecimalValue(b) == v.minor && DecimalValue(c) == v.patch
    ensures Coerce(a + ("." + b + ("." + c))) == Some(v)
  {
    MajorPiece(a, "." + b + ("." + c));
    MinorPiece(a, b, "." + c);
    PatchPiece(a, b, c);
    CoerceOfParts(a + ("." + b + ("." + c)), 0, |a|, |b| + 1, v);
  }

  lemma MajorPiece(a: string, tail: string)
    requires |a| > 0 && forall k :: 0 <= k < |a| ==> IsDigit(a[k])
    requires |tail| > 0 && tail[0] == '.'
    ensures FirstDigitFrom(a + tail, 0) == 0
    ensures DigitRun((a + tail)[0..]) == |a| && (a + tail)[0..][..|a|] == a
  {
    assert (a + tail)[0..] == a + tail;
    LeadingRun(a, tail);
  }

  lemma MinorPiece(a: string, b: string, tail2: string)
    requires |b| > 0 && forall k :: 0 <= k < |b| ==> IsDigit(b[k])
    requires |tail2| > 0 && tail2[0] == '.'
    ensures (a + ("." + b + tail2))[0..][|a|..] == "." + b + tail2
    ensures DottedPart("." + b + tail2) == Some((DecimalValue(b), |b| + 1))
  {
    var t := a + ("." + b + tail2);
    assert t[0..] == t;
    DottedPartOf(b, tail2);
  }

  lemma PatchPiece(a: string, b: string, c: string)
    requires |c| > 0 && forall k :: 0 <= k < |c| ==> IsDigit(c[k])
    ensures (a + ("." + b + ("." + c)))[0..][|a|..][|b| + 1..] == "." + c
    ensures DottedPart("." + c) == Some((DecimalValue(c), |c| + 1))
  {
    var t := a + ("." + b + ("." + c));
    assert t[0..] == t;
    assert t[|a|..] == "." + b + ("." + c);
    assert ("." + b) + ("." + c) == "." + b + ("." + c);
    assert ("." + b + ("." + c))[|b| + 1..] == "." + c;
    DottedPartOf(c, "");
    assert "." + c + "" == "." + c;
  }

  /** How `Coerce` reads a text whose first digit starts a run, a dotted part and another dotted part. */
  lemma CoerceOfParts(text: string, i: nat, n: nat, m: nat, v: Version)
    requires FirstDigitFrom(text, 0) == i < |text|
    requires DigitRun(text[i..]) == n <= |text| - i && DecimalValue(text[i..][..n]) == v.major
    requires DottedPart(text[i..][n..]) == Some((v.minor, m)) && m <= |text| - i - n
    requires DottedPart(text[i..][n..][m..]).Some? && DottedPart(text[i..][n..][m..]).value.0 == v.patch
    ensures Coerce(text) == Some(v)
  {
  }

  function VersionFetchFailed(cause: string): YagnaError
  {
    GolemPlatformError("Failed to establish yagna version due to: " + cause)
  }

  function UnreadableVersion(version: string): YagnaError
  {
    GolemPlatformError("Unreadable yana version '" + version + "'. Can't proceed without checking yagna version support status.")
  }

  function UnsupportedVersion(version: string): YagnaError
  {
    GolemPlatformError("You run yagna in version " + version + " and the minimal version supported by the SDK is " +
      MinSupportedYagnaText + ". Please consult the golem-js README to find matching SDK version or upgrade your yagna installation.")
  }

  /**
   * `assertSupportedVersion` after `getVersion`: `fetched` is the version service's
   * answer (or the failure it raised). The result is the coerced version's text.
   */
  function AssertSupportedVersion(fetched: Result<string, string>): (r: Result<string, YagnaError>)
    ensures fetched.Err? ==> r == Err(VersionFetchFailed(fetched.error))
    ensures fetched.Ok? ==>
              var v := Coerce(fetched.value);
              (v.None? ==> r == Err(UnreadableVersion(fetched.value))) &&
              (v.Some? && !AtLeast(v.value, MinSupportedYagna) ==> r == Err(UnsupportedVersion(fetched.value))) &&
              (v.Some? && AtLeast(v.value, MinSupportedYagna) ==> r == Ok(VersionText(v.value)))
  {
    match fetched
    case Err(e) => Err(VersionFetchFailed(e))
    case Ok(version) =>
      match Coerce(version)
      case None => Err(UnreadableVersion(version))
      case Some(v) => if AtLeast(v, MinSupportedYagna) then Ok(VersionText(v)) else Err(UnsupportedVersion(version))
  }

  /** Any version at or above a supported one is supported too. */
  lemma SupportIsUpwardClosed(v: Version, w: Version)
    requires AtLeast(v, MinSupportedYagna) && AtLeast(w, v)
    ensures AtLeast(w, MinSupportedYagna)
  {
    AtLeastTransitive(w, v, MinSupportedYagna);
  }

  /** `MIN_SUPPORTED_YAGNA` is the text of the minimum version. */
  lemma MinimumText()
    ensures VersionText(MinSupportedYagna) == MinSupportedYagnaText
  {
    assert NatToDecimal(13) == NatToDecimal(1) + [DigitChar(3)];
  }

  /**
   * Exactly the versions at or above the minimum pass the gate, and the text of a
   * version that passes is the version itself.
   */
  lemma VersionGate(v: Version)
    ensures AssertSupportedVersion(Ok(VersionText(v))).Ok? <==> AtLeast(v, MinSupportedYagna)
    ensures AtLeast(v, MinSupportedYagna) ==> AssertSupportedVersion(Ok(VersionText(v))) == Ok(VersionText(v))
  {
    CoerceVersionText(v);
  }

  lemma MinimumPasses()
    ensures AssertSupportedVersion(Ok(MinSupportedYagnaText)) == Ok(MinSupportedYagnaText)
  {
    VersionGate(MinSupportedYagna);
    MinimumText();
  }

  /** The patch release before the minimum is refused. */
  lemma PreviousPatchRefused()
    ensures !AtLeast(Version(0, 13, 1), MinSupportedYagna) && !AtLeast(Version(0, 12, 99), MinSupportedYagna)
    ensures AtLeast(Version(1, 0, 0), MinSupportedYagna)
  {
  }

  /** A version text without any digit is refused as unreadable. */
  lemma UnreadableVersionRefused(version: string)
    requires forall k :: 0 <= k < |version| ==> !IsDigit(version[k])
    ensures AssertSupportedVersion(Ok(version)).Err?
  {
  }
}
