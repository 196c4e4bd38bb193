/**
 * The minimum-Kubernetes-version gate of the serving extension
 * (`checkMinimumVersion`): the server's reported version and the required
 * minimum are read as `major.minor.patch`, ignoring one leading `v` and any
 * `-pre-release` or `+build` suffix, and compared lexicographically.
 */
module KubeVersion {
  import opened Wrappers
  import opened Text

  datatype Version = Version(major: nat, minor: nat, patch: nat)

  datatype VersionError =
    | FetchFailed(reason: string)          // the discovery client returned an error
    | Unparsable(text: string)             // a version string that is not major.minor.patch
    | TooLow(actual: Version, minimum: Version)

  /** Removes one leading `v`, if there is one. */
  function TrimV(s: string): string
  {
    if |s| > 0 && s[0] == 'v' then s[1..] else s
  }

  /** The longest prefix of s before its first `-` or `+` (the pre-release or build suffix). */
  function Core(s: string): (r: string)
    ensures r <= s
    ensures forall i :: 0 <= i < |r| ==> r[i] != '-' && r[i] != '+'
    ensures |r| < |s| ==> s[|r|] == '-' || s[|r|] == '+'
    decreases |s|
  {
    if s == [] || s[0] == '-' || s[0] == '+' then [] else [s[0]] + Core(s[1..])
  }

  /** The `major.minor.patch` core of a version read as three non-negative decimal numbers. */
  function ParseTriple(core: string): Option<Version>
  {
    var parts := Split(core, '.');
    if |parts| != 3 then None
    else match (ParseNat(parts[0]), ParseNat(parts[1]), ParseNat(parts[2]))
      case (Some(major), Some(minor), Some(patch)) => Some(Version(major, minor, patch))
      case _ => None
  }

  /** A version string: one optional leading `v`, the numeric core, an ignored suffix. */
  function ParseVersion(s: string): Result<Version, VersionError>
  {
    match ParseTriple(Core(TrimV(s)))
    case Some(v) => Ok(v)
    case None => Err(Unparsable(s))
  }

  /** The canonical text of a version, `major.minor.patch` in shortest decimal. */
  function Format(v: Version): string
  {
    Decimal(v.major) + "." + Decimal(v.minor) + "." + Decimal(v.patch)
  }

  /** a is at least b: major first, then minor, then patch. */
  predicate AtLeast(a: Version, b: Version)
  {
    a.major > b.major
    || (a.major == b.major && (a.minor > b.minor || (a.minor == b.minor && a.patch >= b.patch)))
  }

  /**
   * `checkMinimumVersion`: None when the server's version is at least the
   * minimum; otherwise the first failure, in the order fetch error, unparsable
   * server version, unparsable minimum, version too low.
   */
  function CheckMinimumVersion(serverVersion: Result<string, string>, minimum: string): (r: Option<VersionError>)
    ensures serverVersion.Err? ==> r == Some(FetchFailed(serverVersion.error))
    ensures r.None? <==>
      (serverVersion.Ok? && ParseVersion(serverVersion.value).Ok? && ParseVersion(minimum).Ok? &&
       AtLeast(ParseVersion(serverVersion.value).value, ParseVersion(minimum).value))
  {
    match serverVersion
    case Err(e) => Some(FetchFailed(e))
    case Ok(actual) =>
      match (ParseVersion(actual), ParseVersion(minimum))
      case (Err(e), _) => Some(e)
      case (_, Err(e)) => Some(e)
      case (Ok(a), Ok(m)) => if AtLeast(a, m) then None else Some(TooLow(a, m))
  }

  // ---------------------------------------------------------------------------
  // Properties

  /** AtLeast is a total order on versions. */
  lemma AtLeastTotalOrder(a: Version, b: Version, c: Version)
    ensures AtLeast(a, a)
    ensures AtLeast(a, b) || AtLeast(b, a)
    ensures AtLeast(a, b) && AtLeast(b, a) ==> a == b
    ensures AtLeast(a, b) && AtLeast(b, c) ==> AtLeast(a, c)
  {
  }

  /** A string of digits contains neither a separator nor a suffix marker. */
  lemma DigitsHaveNoMarks(s: string)
    requires AllDigits(s)
    ensures '.' !in s && '-' !in s && '+' !in s
  {
  }

  /** The canonical text contains no suffix marker. */
  lemma FormatHasNoMarks(v: Version)
    ensures '-' !in Format(v) && '+' !in Format(v)
    ensures |Format(v)| > 0 && Format(v)[0] != 'v'
  {
    DigitsHaveNoMarks(Decimal(v.major));
    DigitsHaveNoMarks(Decimal(v.minor));
    DigitsHaveNoMarks(Decimal(v.patch));
    assert IsDigit(Decimal(v.major)[0]);
  }

  /** Core leaves a string without suffix markers as it is. */
  lemma {:induction false} CoreOfPlain(s: string)
    requires '-' !in s && '+' !in s
    ensures Core(s) == s
    decreases |s|
  {
    if s != [] {
      assert '-' !in s[1..] && '+' !in s[1..] by {
        forall i | 0 <= i < |s[1..]| ensures s[1..][i] != '-' && s[1..][i] != '+' {
          assert s[1..][i] == s[i + 1];
        }
      }
      CoreOfPlain(s[1..]);
      assert [s[0]] + s[1..] == s;
    }
  }

  /** Core cuts a string at its first suffix marker. */
  lemma {:induction false} CoreOfSuffixed(s: string, marker: char, rest: string)
    requires '-' !in s && '+' !in s
    requires marker == '-' || marker == '+'
    ensures Core(s + [marker] + rest) == s
    decreases |s|
  {
    var t := s + [marker] + rest;
    if s == [] {
      assert t[0] == marker;
    } else {
      assert t[0] == s[0];
      assert t[1..] == s[1..] + [marker] + rest;
      assert '-' !in s[1..] && '+' !in s[1..] by {
        forall i | 0 <= i < |s[1..]| ensures s[1..][i] != '-' && s[1..][i] != '+' {
          assert s[1..][i] == s[i + 1];
        }
      }
      CoreOfSuffixed(s[1..], marker, rest);
      assert [s[0]] + s[1..] == s;
    }
  }

  /** Splitting the canonical text on dots gives the three decimal parts. */
  lemma FormatSplits(v: Version)
    ensures Split(Format(v), '.') == [Decimal(v.major), Decimal(v.minor), Decimal(v.patch)]
  {
    var parts := [Decimal(v.major), Decimal(v.minor), Decimal(v.patch)];
    DigitsHaveNoMarks(parts[0]);
    DigitsHaveNoMarks(parts[1]);
    DigitsHaveNoMarks(parts[2]);
    assert Join(parts[2..], '.') == parts[2];
    assert Join(parts[1..], '.') == parts[1] + "." + parts[2];
    assert Join(parts, '.') == Format(v);
    SplitJoin(parts, '.');
  }

  /** The parser reads the canonical text of a version back exactly. */
  lemma FormatRoundTrip(v: Version)
    ensures ParseVersion(Format(v)) == Ok(v)
  {
    FormatHasNoMarks(v);
    CoreOfPlain(Format(v));
    FormatSplits(v);
    DecimalRoundTrip(v.major);
    DecimalRoundTrip(v.minor);
    DecimalRoundTrip(v.patch);
  }

  /** A pre-release or build suffix never changes the parsed version. */
  lemma SuffixIgnored(s: string, marker: char, rest: string)
    requires '-' !in s && '+' !in s
    requires marker == '-' || marker == '+'
    requires s == [] || s[0] != 'v'
    ensures ParseVersion(s + [marker] + rest).Ok? <==> ParseVersion(s).Ok?
    ensures ParseVersion(s + [marker] + rest).Ok? ==> ParseVersion(s + [marker] + rest) == ParseVersion(s)
  {
    var t := s + [marker] + rest;
    assert TrimV(t) == t by {
      if s == [] { assert t[0] == marker; } else { assert t[0] == s[0]; }
    }
    CoreOfSuffixed(s, marker, rest);
    CoreOfPlain(s);
  }

  /** One leading `v` never changes the parsed version. */
  lemma VPrefixIgnored(s: string)
    requires s == [] || s[0] != 'v'
    ensures ParseVersion("v" + s).Ok? <==> ParseVersion(s).Ok?
    ensures ParseVersion("v" + s).Ok? ==> ParseVersion("v" + s) == ParseVersion(s)
  {
    assert ("v" + s)[1..] == s;
  }

  /** Every well-formed version followed by a suffix parses to its numbers. */
  lemma SuffixedVersionParses(v: Version, marker: char, rest: string)
    requires marker == '-' || marker == '+'
    ensures ParseVersion(Format(v) + [marker] + rest) == Ok(v)
  {
    FormatHasNoMarks(v);
    FormatRoundTrip(v);
    SuffixIgnored(Format(v), marker, rest);
  }

  /** The same with a leading `v`. */
  lemma VSuffixedVersionParses(v: Version, marker: char, rest: string)
    requires marker == '-' || marker == '+'
    ensures ParseVersion("v" + Format(v) + [marker] + rest) == Ok(v)
  {
    var t := Format(v) + [marker] + rest;
    SuffixedVersionParses(v, marker, rest);
    FormatHasNoMarks(v);
    assert t[0] == Format(v)[0];
    VPrefixIgnored(t);
    ConcatAssoc("v", Format(v), [marker], rest);
  }

  /** A canonical version with a leading `v` parses to its numbers. */
  lemma VPrefixedVersionParses(v: Version)
    ensures ParseVersion("v" + Format(v)) == Ok(v)
  {
    FormatHasNoMarks(v);
    FormatRoundTrip(v);
    VPrefixIgnored(Format(v));
  }

  lemma ConcatAssoc(a: string, b: string, c: string, d: string)
    ensures a + b + c + d == a + (b + c + d)
  {
  }

  /** A version equal to the minimum at the numeric triple always passes, whatever its decoration. */
  lemma SameTriplePasses(v: Version, marker: char, rest: string)
    requires marker == '-' || marker == '+'
    ensures CheckMinimumVersion(Ok(Format(v) + [marker] + rest), Format(v)) == None
    ensures CheckMinimumVersion(Ok("v" + Format(v) + [marker] + rest), Format(v)) == None
  {
    SuffixedVersionParses(v, marker, rest);
    VSuffixedVersionParses(v, marker, rest);
    FormatRoundTrip(v);
  }

  /** A failure to fetch the server version always fails the check, whatever the minimum. */
  lemma FetchErrorFails(reason: string, minimum: string)
    ensures CheckMinimumVersion(Err(reason), minimum) == Some(FetchFailed(reason))
  {
  }

  /** An unparsable server version fails the check with that version's text. */
  lemma UnparsableFails(actual: string, minimum: string)
    requires ParseVersion(actual).Err?
    ensures CheckMinimumVersion(Ok(actual), minimum) == Some(Unparsable(actual))
  {
  }

  // ---------------------------------------------------------------------------
  // The version table of the extension's tests, minimum "1.20.0"

  const TestMinimum := "1.20.0"

  lemma Decimal0() ensures Decimal(0) == "0" {}
  lemma Decimal1() ensures Decimal(1) == "1" {}
  lemma Decimal2() ensures Decimal(2) == "2" {}
  lemma Decimal3() ensures Decimal(3) == "3" {}
  lemma Decimal19() ensures Decimal(19) == "19" {}
  lemma Decimal20() ensures Decimal(20) == "20" {}

  lemma MinimumParses()
    ensures ParseVersion(TestMinimum) == Ok(Version(1, 20, 0))
  {
    Decimal0();
    Decimal1();
    Decimal20();
    assert Format(Version(1, 20, 0)) == TestMinimum;
    FormatRoundTrip(Version(1, 20, 0));
  }

  /** Any server version that parses to at least 1.20.0 passes against the test minimum. */
  lemma PassesAgainstMinimum(actual: string, v: Version)
    requires ParseVersion(actual) == Ok(v)
    requires AtLeast(v, Version(1, 20, 0))
    ensures CheckMinimumVersion(Ok(actual), TestMinimum) == None
  {
    MinimumParses();
  }

  lemma VPlainParses()
    ensures ParseVersion("v1.20.0") == Ok(Version(1, 20, 0))
  {
    Decimal0();
    Decimal1();
    Decimal20();
    assert "v1.20.0" == "v" + Format(Version(1, 20, 0));
    VPrefixedVersionParses(Version(1, 20, 0));
  }

  lemma PreReleaseText()
    ensures "1.20.2-kpn-065dce" == Format(Version(1, 20, 2)) + ['-'] + "kpn-065dce"
  {
    Decimal1();
    Decimal2();
    Decimal20();
    assert Format(Version(1, 20, 2)) == "1.20.2";
  }

  lemma PreReleaseBuildText()
    ensures "1.20.0-1095+9689d22dc3121e-dirty" == Format(Version(1, 20, 0)) + ['-'] + "1095+9689d22dc3121e-dirty"
  {
    Decimal0();
    Decimal1();
    Decimal20();
    assert Format(Version(1, 20, 0)) == "1.20.0";
  }

  lemma PreReleaseParses()
    ensures ParseVersion("1.20.2-kpn-065dce") == Ok(Version(1, 20, 2))
  {
    PreReleaseText();
    SuffixedVersionParses(Version(1, 20, 2), '-', "kpn-065dce");
  }

  lemma PreReleaseBuildParses()
    ensures ParseVersion("1.20.0-1095+9689d22dc3121e-dirty") == Ok(Version(1, 20, 0))
  {
    PreReleaseBuildText();
    SuffixedVersionParses(Version(1, 20, 0), '-', "1095+9689d22dc3121e-dirty");
  }

  lemma VBuildParses()
    ensures ParseVersion("v1.20.0+k3s.1") == Ok(Version(1, 20, 0))
  {
    Decimal0();
    Decimal1();
    Decimal20();
    assert "v1.20.0+k3s.1" == "v" + Format(Version(1, 20, 0)) + ['+'] + "k3s.1";
    VSuffixedVersionParses(Version(1, 20, 0), '+', "k3s.1");
  }

  lemma VPreReleaseParses()
    ensures ParseVersion("v1.20.0-k3s.1") == Ok(Version(1, 20, 0))
  {
    Decimal0();
    Decimal1();
    Decimal20();
    assert "v1.20.0-k3s.1" == "v" + Format(Version(1, 20, 0)) + ['-'] + "k3s.1";
    VSuffixedVersionParses(Version(1, 20, 0), '-', "k3s.1");
  }

  lemma SmallerParses()
    ensures ParseVersion("v1.19.3") == Ok(Version(1, 19, 3))
  {
    Decimal1();
    Decimal3();
    Decimal19();
    assert "v1.19.3" == "v" + Format(Version(1, 19, 3));
    VPrefixedVersionParses(Version(1, 19, 3));
  }

  lemma NonNumericSplits()
    ensures Split("1.19.foo", '.') == ["1", "19", "foo"]
  {
    assert Join(["1", "19", "foo"], '.') == "1.19.foo";
    SplitJoin(["1", "19", "foo"], '.');
  }

  lemma NonNumericUnparsable()
    ensures ParseVersion("v1.19.foo") == Err(Unparsable("v1.19.foo"))
  {
    assert TrimV("v1.19.foo") == "1.19.foo";
    CoreOfPlain("1.19.foo");
    NonNumericSplits();
    assert !IsDigit("foo"[0]);
  }

  /**
   * The table of the extension's version test against the minimum 1.20.0:
   * every server version whose numbers are at least 1.20.0 passes, whatever
   * its `v` prefix and suffixes.
   */
  lemma VersionTablePasses()
    ensures CheckMinimumVersion(Ok("v1.20.0"), TestMinimum) == None
    ensures CheckMinimumVersion(Ok("1.20.0"), TestMinimum) == None
    ensures CheckMinimumVersion(Ok("1.20.2-kpn-065dce"), TestMinimum) == None
    ensures CheckMinimumVersion(Ok("1.20.0-1095+9689d22dc3121e-dirty"), TestMinimum) == None
    ensures CheckMinimumVersion(Ok("v1.20.0+k3s.1"), TestMinimum) == None
    ensures CheckMinimumVersion(Ok("v1.20.0-k3s.1"), TestMinimum) == None
  {
    VPlainParses();
    PassesAgainstMinimum("v1.20.0", Version(1, 20, 0));
    MinimumParses();
    PassesAgainstMinimum(TestMinimum, Version(1, 20, 0));
    PreReleaseParses();
    PassesAgainstMinimum("1.20.2-kpn-065dce", Version(1, 20, 2));
    PreReleaseBuildParses();
    PassesAgainstMinimum("1.20.0-1095+9689d22dc3121e-dirty", Version(1, 20, 0));
    VBuildParses();
    PassesAgainstMinimum("v1.20.0+k3s.1", Version(1, 20, 0));
    VPreReleaseParses();
    PassesAgainstMinimum("v1.20.0-k3s.1", Version(1, 20, 0));
  }

  /** The failing rows: a smaller version, a non-numeric patch level and a fetch error. */
  lemma VersionTableFails()
    ensures CheckMinimumVersion(Ok("v1.19.3"), TestMinimum) == Some(TooLow(Version(1, 19, 3), Version(1, 20, 0)))
    ensures CheckMinimumVersion(Ok("v1.19.foo"), TestMinimum) == Some(Unparsable("v1.19.foo"))
    ensures CheckMinimumVersion(Err("random error"), TestMinimum) == Some(FetchFailed("random error"))
  {
    SmallerParses();
    MinimumParses();
    NonNumericUnparsable();
  }
}
