/**
 * The scenarios of lib/src/app_config/versioning_tests.rs, stated as lemmas
 * about what `Versioning.UpgradeData` returns.
 *
 * The test double `MockUpgrader` accepts exactly one version and appends
 * `-` and a fixed result to the data. Each scenario fixes the versions and
 * the registry; scenarios whose data the test picks only as a sample
 * (empty, whitespace, multi-line, Unicode and JSON-like data) are stated
 * for every data string.
 */
module VersioningTests {
  import opened Wrappers
  import opened SemVer
  import opened Traits
  import opened Versioning

  /** Accepts exactly `canUpgradeFrom`, produces `version`, and appends "-" and `upgradeResult`. */
  datatype MockUpgrader = MockUpgrader(
    version: string,
    canUpgradeFrom: string,
    breakingChange: Option<string>,
    upgradeResult: string)
  {
    function AsUpgrader(): (u: Upgrader)
      ensures u.version == version
      ensures forall v :: u.canUpgrade(v) <==> v == canUpgradeFrom
      ensures forall d :: u.upgrade(d) == d + "-" + upgradeResult
      ensures u.breakingChangeMessage == breakingChange
    {
      Upgrader(d => d + "-" + upgradeResult, version, v => v == canUpgradeFrom, breakingChange)
    }
  }

  /** What `UpgradeData` returns, by its postcondition. */
  function Upgrade(fromVersion: string, toVersion: string, data: string, upgradersOverride: Option<seq<Upgrader>>)
    : Result<string, string>
  {
    Render(UpgradeOutcome(fromVersion, toVersion, data, SelectUpgraders(upgradersOverride)))
  }

  /** `sub` occurs in `s`, as Rust's `str::contains`. */
  predicate Contains(s: string, sub: string) {
    exists i, j :: 0 <= i <= j <= |s| && s[i..j] == sub
  }

  /** A release version without pre-release or build metadata. */
  function Release(major: nat, minor: nat, patch: nat): Version {
    Version(major, minor, patch, [], [])
  }

  /** A release version string is parsed into its three numbers. */
  lemma ParsesRelease(s: string, major: nat, minor: nat, patch: nat)
    requires s == CoreString(major, minor, patch)
    ensures Parse(s) == Some(Release(major, minor, patch))
  {
    assert Format(Release(major, minor, patch)) == s;
    ParseFormat(Release(major, minor, patch));
  }

  lemma Parses100()
    ensures Parse("1.0.0") == Some(Release(1, 0, 0))
  {
    ParsesRelease("1.0.0", 1, 0, 0);
  }

  lemma Parses110()
    ensures Parse("1.1.0") == Some(Release(1, 1, 0))
  {
    ParsesRelease("1.1.0", 1, 1, 0);
  }

  lemma Parses120()
    ensures Parse("1.2.0") == Some(Release(1, 2, 0))
  {
    ParsesRelease("1.2.0", 1, 2, 0);
  }

  lemma Parses130()
    ensures Parse("1.3.0") == Some(Release(1, 3, 0))
  {
    ParsesRelease("1.3.0", 1, 3, 0);
  }

  lemma Parses90000()
    ensures Parse("90000.0.0") == Some(Release(90000, 0, 0))
  {
    assert CoreString(90000, 0, 0) == "90000.0.0" by {
      assert Decimal(9) == "9";
      assert Decimal(90) == Decimal(9) + "0";
      assert Decimal(900) == Decimal(90) + "0";
      assert Decimal(9000) == Decimal(900) + "0";
      assert Decimal(90000) == Decimal(9000) + "0";
    }
    ParsesRelease("90000.0.0", 90000, 0, 0);
  }

  lemma Parses200()
    ensures Parse("2.0.0") == Some(Release(2, 0, 0))
  {
    ParsesRelease("2.0.0", 2, 0, 0);
  }

  /** A version with one alphanumeric pre-release identifier is parsed into its parts. */
  lemma ParsesPreRelease(s: string, major: nat, minor: nat, patch: nat, id: string)
    requires IsAlphanumericIdentifier(id)
    requires s == CoreString(major, minor, patch) + "-" + id
    ensures Parse(s) == Some(Version(major, minor, patch, [Alphanumeric(id)], []))
  {
    var v := Version(major, minor, patch, [Alphanumeric(id)], []);
    assert IdentifierStrings(v.pre) == [id];
    assert PreReleaseText(v.pre) == Some(id);
    assert Format(v) == s;
    ParseFormat(v);
  }

  /** A release version with one build identifier is parsed into its parts. */
  lemma ParsesBuild(s: string, major: nat, minor: nat, patch: nat, id: string)
    requires IsBuildIdentifier(id)
    requires s == CoreString(major, minor, patch) + "+" + id
    ensures Parse(s) == Some(Version(major, minor, patch, [], [id]))
  {
    var v := Version(major, minor, patch, [], [id]);
    assert BuildText(v.build) == Some(id);
    assert Format(v) == s;
    ParseFormat(v);
  }

  lemma Parses100Alpha()
    ensures Parse("1.0.0-alpha") == Some(Version(1, 0, 0, [Alphanumeric("alpha")], []))
  {
    assert IsAlphanumericIdentifier("alpha") by { assert !IsDigit("alpha"[0]); }
    assert CoreString(1, 0, 0) == "1.0.0";
    ParsesPreRelease("1.0.0-alpha", 1, 0, 0, "alpha");
  }

  lemma Parses110Beta()
    ensures Parse("1.1.0-beta") == Some(Version(1, 1, 0, [Alphanumeric("beta")], []))
  {
    assert IsAlphanumericIdentifier("beta") by { assert !IsDigit("beta"[0]); }
    assert CoreString(1, 1, 0) == "1.1.0";
    ParsesPreRelease("1.1.0-beta", 1, 1, 0, "beta");
  }

  lemma Parses100Build1()
    ensures Parse("1.0.0+build1") == Some(Version(1, 0, 0, [], ["build1"]))
  {
    assert CoreString(1, 0, 0) == "1.0.0";
    ParsesBuild("1.0.0+build1", 1, 0, 0, "build1");
  }

  lemma Parses100Build2()
    ensures Parse("1.0.0+build2") == Some(Version(1, 0, 0, [], ["build2"]))
  {
    assert CoreString(1, 0, 0) == "1.0.0";
    ParsesBuild("1.0.0+build2", 1, 0, 0, "build2");
  }

  lemma Parses110Build2()
    ensures Parse("1.1.0+build2") == Some(Version(1, 1, 0, [], ["build2"]))
  {
    assert CoreString(1, 1, 0) == "1.1.0";
    ParsesBuild("1.1.0+build2", 1, 1, 0, "build2");
  }

  /** A prefix of a string occurs in it. */
  lemma ContainsPrefix(s: string, p: string)
    requires |p| <= |s| && s[..|p|] == p
    ensures Contains(s, p)
  {
    assert s[0..|p|] == p;
  }

  /** A suffix of a string occurs in it. */
  lemma ContainsSuffix(a: string, b: string)
    ensures Contains(a + b, b)
  {
    assert (a + b)[|a|..|a + b|] == b;
  }

  /** The downgrade message names both versions and the rule that is broken. */
  lemma DowngradeMessageMentions(from: string, to: string)
    ensures Contains(Message(Downgrade(from, to)), "Cannot upgrade from version " + from + " to " + to)
    ensures Contains(Message(Downgrade(from, to)), "from_version must be less than or equal to to_version")
  {
    var p := "Cannot upgrade from version " + from + " to " + to;
    assert Message(Downgrade(from, to)) == p + ": " + "from_version must be less than or equal to to_version";
    ContainsPrefix(Message(Downgrade(from, to)), p);
    ContainsSuffix(p + ": ", "from_version must be less than or equal to to_version");
  }

  /** The breaking-change message names both versions and carries the upgrader's own message. */
  lemma BreakingMessageMentions(from: string, to: string, message: string)
    ensures Contains(Message(BreakingChange(from, to, message)), "Cannot upgrade from version " + from + " to " + to)
    ensures Contains(Message(BreakingChange(from, to, message)), message)
  {
    var p := "Cannot upgrade from version " + from + " to " + to;
    assert Message(BreakingChange(from, to, message)) == p + ": " + message;
    ContainsPrefix(Message(BreakingChange(from, to, message)), p);
    ContainsSuffix(p + ": ", message);
  }

  /** The guards are passed: valid versions, an upgrade by precedence, distinct strings, a supported target. */
  lemma Enters(fromVersion: string, toVersion: string, upgraders: seq<Upgrader>, from: Version, to: Version, i: nat)
    requires Parse(fromVersion) == Some(from) && Parse(toVersion) == Some(to)
    requires Compare(from, to) == Less
    requires i < |upgraders| && upgraders[i].version == toVersion
    ensures EntersPass(fromVersion, toVersion, upgraders)
  {
    CompareFlip(from, to);
  }

  /** Valid forward versions whose target no selected upgrader produces are refused as unsupported. */
  lemma Unsupported(fromVersion: string, toVersion: string, data: string, upgradersOverride: Option<seq<Upgrader>>,
                    from: Version, to: Version)
    requires Parse(fromVersion) == Some(from) && Parse(toVersion) == Some(to) && Compare(from, to) == Less
    requires !Supports(SelectUpgraders(upgradersOverride), toVersion)
    ensures Upgrade(fromVersion, toVersion, data, upgradersOverride) == Err(Message(UnsupportedTarget(toVersion)))
  {
    CompareFlip(from, to);
    UnsupportedTargetRefused(fromVersion, toVersion, data, SelectUpgraders(upgradersOverride), toVersion);
  }

  /** A registry of one applicable, non-breaking mock that produces the target appends the mock's result once. */
  lemma OneStep(fromVersion: string, toVersion: string, data: string, m: MockUpgrader, from: Version, to: Version)
    requires Parse(fromVersion) == Some(from) && Parse(toVersion) == Some(to) && Compare(from, to) == Less
    requires m.version == toVersion && m.canUpgradeFrom == fromVersion && m.breakingChange.None?
    ensures Upgrade(fromVersion, toVersion, data, Some([m.AsUpgrader()])) == Ok(data + "-" + m.upgradeResult)
  {
    var us := [m.AsUpgrader()];
    Enters(fromVersion, toVersion, us, from, to, 0);
    PassOutcome(fromVersion, toVersion, data, us);
    assert us[..0] == [];
  }

  /** A registry of one applicable breaking mock reports the mock's message, from the starting version to the mock's. */
  lemma OneBreakingStep(fromVersion: string, toVersion: string, data: string, m: MockUpgrader, from: Version, to: Version)
    requires Parse(fromVersion) == Some(from) && Parse(toVersion) == Some(to) && Compare(from, to) == Less
    requires m.version == toVersion && m.canUpgradeFrom == fromVersion && m.breakingChange.Some?
    ensures Upgrade(fromVersion, toVersion, data, Some([m.AsUpgrader()]))
         == Err(Message(BreakingChange(fromVersion, toVersion, m.breakingChange.value)))
  {
    var us := [m.AsUpgrader()];
    Enters(fromVersion, toVersion, us, from, to, 0);
    PassOutcome(fromVersion, toVersion, data, us);
    assert us[..0] == [];
  }

  // ---------------------------------------------------------------------
  // Scenarios with the default registry
  // ---------------------------------------------------------------------

  /** `test_upgrade_data_same_version`: any data comes back unchanged. */
  lemma SameVersion(data: string)
    ensures Upgrade("1.0.0", "1.0.0", data, None) == Ok(data)
  {
    Parses100();
    SameVersionIdentity("1.0.0", data, Upgraders);
  }

  /** `test_same_version_data_empty` and `test_same_version_data_whitespace`. */
  lemma SameVersionSampleData()
    ensures Upgrade("1.0.0", "1.0.0", "", None) == Ok("")
    ensures Upgrade("1.0.0", "1.0.0", "   ", None) == Ok("   ")
  {
    SameVersion("");
    SameVersion("   ");
  }

  /** `test_upgrade_data_zero_versions`. */
  lemma ZeroVersions(data: string)
    ensures Upgrade("0.0.0", "0.0.0", data, None) == Ok(data)
  {
    ParsesRelease("0.0.0", 0, 0, 0);
    SameVersionIdentity("0.0.0", data, Upgraders);
  }

  /** `test_upgrade_data_large_version_numbers`. */
  lemma LargeVersionNumbers(data: string)
    ensures Upgrade("999.999.999", "999.999.999", data, None) == Ok(data)
  {
    assert Decimal(999) == "999" by {
      assert Decimal(9) == "9";
      assert Decimal(99) == Decimal(9) + "9";
    }
    ParsesRelease("999.999.999", 999, 999, 999);
    SameVersionIdentity("999.999.999", data, Upgraders);
  }

  /** `test_upgrade_data_invalid_from_version`. */
  lemma InvalidFrom(data: string)
    ensures Upgrade("invalid-version", "1.0.0", data, None) == Err(Message(InvalidFromVersion))
  {
    LeadingNonDigitRejected("invalid-version");
    InvalidFromVersionFirst("invalid-version", "1.0.0", data, Upgraders);
  }

  /** `test_upgrade_data_invalid_to_version`. */
  lemma InvalidTo(data: string)
    ensures Upgrade("1.0.0", "invalid-version", data, None) == Err(Message(InvalidToVersion))
  {
    Parses100();
    LeadingNonDigitRejected("invalid-version");
    InvalidToVersionSecond("1.0.0", "invalid-version", data, Upgraders);
  }

  /** `test_upgrade_data_version_with_leading_v`. */
  lemma LeadingV(data: string)
    ensures Upgrade("v1.0.0", "1.0.0", data, None) == Err(Message(InvalidFromVersion))
  {
    LeadingNonDigitRejected("v1.0.0");
    InvalidFromVersionFirst("v1.0.0", "1.0.0", data, Upgraders);
  }

  /** `test_upgrade_data_version_with_spaces`. */
  lemma SurroundingSpaces(data: string)
    ensures Upgrade(" 1.0.0 ", "1.0.0", data, None) == Err(Message(InvalidFromVersion))
  {
    LeadingNonDigitRejected(" 1.0.0 ");
    InvalidFromVersionFirst(" 1.0.0 ", "1.0.0", data, Upgraders);
  }

  /** `test_upgrade_data_from_version_greater_than_to_version`. */
  lemma Downgrading(data: string)
    ensures Upgrade("2.0.0", "1.0.0", data, None) == Err(Message(Downgrade("2.0.0", "1.0.0")))
  {
    Parses200();
    Parses100();
    DowngradeRefused("2.0.0", "1.0.0", data, Upgraders, "2.0.0", "1.0.0");
  }

  /** `test_upgrade_data_unsupported_target_version`: the default registry supports no target. */
  lemma UnsupportedByDefault(data: string)
    ensures Upgrade("1.0.0", "90000.0.0", data, None) == Err(Message(UnsupportedTarget("90000.0.0")))
  {
    Parses100();
    Parses90000();
    Unsupported("1.0.0", "90000.0.0", data, None, Release(1, 0, 0), Release(90000, 0, 0));
  }


  // ---------------------------------------------------------------------
  // Scenarios with an explicit registry
  // ---------------------------------------------------------------------

  /** `test_upgrade_data_successful_single_upgrade`: one applicable step appends its result to whatever the data is. */
  lemma SingleUpgrade(data: string, result: string)
    ensures Upgrade("1.0.0", "1.1.0", data, Some([MockUpgrader("1.1.0", "1.0.0", None, result).AsUpgrader()]))
         == Ok(data + "-" + result)
  {
    Parses100();
    Parses110();
    OneStep("1.0.0", "1.1.0", data, MockUpgrader("1.1.0", "1.0.0", None, result), Release(1, 0, 0), Release(1, 1, 0));
  }


  /** `test_upgrade_data_with_multiline_data`: line breaks pass through the step untouched. */
  lemma MultilineData()
    ensures Upgrade("1.0.0", "1.1.0", "line1\nline2\nline3",
              Some([MockUpgrader("1.1.0", "1.0.0", None, "newline").AsUpgrader()]))
         == Ok("line1\nline2\nline3" + "-" + "newline")
  {
    SingleUpgrade("line1\nline2\nline3", "newline");
  }

  /** `test_upgrade_data_with_unicode_data`: non-ASCII data and results pass through untouched. */
  lemma UnicodeData()
    ensures Upgrade("1.0.0", "1.1.0", "\U{6D4B}\U{8BD5}\U{6570}\U{636E} \U{00E9}mojis",
              Some([MockUpgrader("1.1.0", "1.0.0", None, "\U{1F680}").AsUpgrader()]))
         == Ok("\U{6D4B}\U{8BD5}\U{6570}\U{636E} \U{00E9}mojis" + "-" + "\U{1F680}")
  {
    SingleUpgrade("\U{6D4B}\U{8BD5}\U{6570}\U{636E} \U{00E9}mojis", "\U{1F680}");
  }

  /** `test_upgrade_data_with_json_like_data`: quotes and braces pass through untouched. */
  lemma JsonLikeData()
    ensures Upgrade("1.0.0", "1.1.0", "{\"key\": \"value\", \"number\": 42}",
              Some([MockUpgrader("1.1.0", "1.0.0", None, "updated").AsUpgrader()]))
         == Ok("{\"key\": \"value\", \"number\": 42}" + "-" + "updated")
  {
    SingleUpgrade("{\"key\": \"value\", \"number\": 42}", "updated");
  }

  /** The pass of `MultipleUpgrades`. */
  lemma MultipleUpgradesPass(data: string)
    ensures Run([
                MockUpgrader("1.1.0", "1.0.0", None, "v1.1").AsUpgrader(),
                MockUpgrader("1.2.0", "1.1.0", None, "v1.2").AsUpgrader()],
                Running("1.0.0", data), "1.2.0")
         == Reached(data + "-v1.1" + "-v1.2")
  {
    var u1 := MockUpgrader("1.1.0", "1.0.0", None, "v1.1").AsUpgrader();
    var u2 := MockUpgrader("1.2.0", "1.1.0", None, "v1.2").AsUpgrader();
    var us := [u1, u2];
    var start := Running("1.0.0", data);
    assert us[..1] == [u1] && [u1][..0] == [];
    assert Run([u1], start, "1.2.0") == Running("1.1.0", data + "-v1.1");
  }

  /** `test_upgrade_data_successful_multiple_upgrades`: the data is "data", giving "data-v1.1-v1.2". */
  lemma MultipleUpgrades(data: string)
    ensures Upgrade("1.0.0", "1.2.0", data, Some([
              MockUpgrader("1.1.0", "1.0.0", None, "v1.1").AsUpgrader(),
              MockUpgrader("1.2.0", "1.1.0", None, "v1.2").AsUpgrader()]))
         == Ok(data + "-v1.1" + "-v1.2")
  {
    var u1 := MockUpgrader("1.1.0", "1.0.0", None, "v1.1").AsUpgrader();
    var u2 := MockUpgrader("1.2.0", "1.1.0", None, "v1.2").AsUpgrader();
    var us := [u1, u2];
    MultipleUpgradesPass(data);
    Parses100();
    Parses120();
    Enters("1.0.0", "1.2.0", us, Release(1, 0, 0), Release(1, 2, 0), 1);
    PassOutcome("1.0.0", "1.2.0", data, us);
  }

  /** `test_upgrade_data_breaking_change_detected`. */
  lemma BreakingChangeDetected(data: string)
    ensures Upgrade("1.0.0", "2.0.0", data, Some([
              MockUpgrader("2.0.0", "1.0.0", Some("This is a breaking change"), "upgraded").AsUpgrader()]))
         == Err(Message(BreakingChange("1.0.0", "2.0.0", "This is a breaking change")))
  {
    Parses100();
    Parses200();
    OneBreakingStep("1.0.0", "2.0.0", data, MockUpgrader("2.0.0", "1.0.0", Some("This is a breaking change"), "upgraded"),
      Release(1, 0, 0), Release(2, 0, 0));
  }


  /** The pass of `StopsAtTarget`. */
  lemma StopsAtTargetPass(data: string)
    ensures Run([
                MockUpgrader("1.1.0", "1.0.0", None, "v1.1").AsUpgrader(),
                MockUpgrader("1.2.0", "1.1.0", None, "v1.2").AsUpgrader()],
                Running("1.0.0", data), "1.1.0")
         == Reached(data + "-v1.1")
  {
    var u1 := MockUpgrader("1.1.0", "1.0.0", None, "v1.1").AsUpgrader();
    var u2 := MockUpgrader("1.2.0", "1.1.0", None, "v1.2").AsUpgrader();
    var us := [u1, u2];
    var start := Running("1.0.0", data);
    assert us[..1] == [u1] && [u1][..0] == [];
    assert Run([u1], start, "1.1.0") == Reached(data + "-v1.1");
  }

  /** `test_upgrade_data_stops_at_target_version`: the entry after the target is not applied. */
  lemma StopsAtTarget(data: string)
    ensures Upgrade("1.0.0", "1.1.0", data, Some([
              MockUpgrader("1.1.0", "1.0.0", None, "v1.1").AsUpgrader(),
              MockUpgrader("1.2.0", "1.1.0", None, "v1.2").AsUpgrader()]))
         == Ok(data + "-v1.1")
  {
    var u1 := MockUpgrader("1.1.0", "1.0.0", None, "v1.1").AsUpgrader();
    var u2 := MockUpgrader("1.2.0", "1.1.0", None, "v1.2").AsUpgrader();
    var us := [u1, u2];
    StopsAtTargetPass(data);
    Parses100();
    Parses110();
    Enters("1.0.0", "1.1.0", us, Release(1, 0, 0), Release(1, 1, 0), 0);
    PassOutcome("1.0.0", "1.1.0", data, us);
  }

  /** `test_upgrade_data_no_applicable_upgrader`. */
  lemma NoApplicableUpgrader(data: string)
    ensures Upgrade("1.0.0", "1.1.0", data, Some([MockUpgrader("1.1.0", "0.9.0", None, "upgraded").AsUpgrader()]))
         == Err(Message(NoRoute("1.1.0")))
  {
    var us := [MockUpgrader("1.1.0", "0.9.0", None, "upgraded").AsUpgrader()];
    Parses100();
    Parses110();
    Enters("1.0.0", "1.1.0", us, Release(1, 0, 0), Release(1, 1, 0), 0);
    PassOutcome("1.0.0", "1.1.0", data, us);
    assert us[..0] == [];
  }

  /** `test_upgrade_data_target_version_not_in_upgraders`. */
  lemma TargetNotInUpgraders(data: string)
    ensures Upgrade("1.0.0", "1.2.0", data, Some([MockUpgrader("1.1.0", "1.0.0", None, "upgraded").AsUpgrader()]))
         == Err(Message(UnsupportedTarget("1.2.0")))
  {
    var us := [MockUpgrader("1.1.0", "1.0.0", None, "upgraded").AsUpgrader()];
    Parses100();
    Parses120();
    assert !Supports(us, "1.2.0");
    Unsupported("1.0.0", "1.2.0", data, Some(us), Release(1, 0, 0), Release(1, 2, 0));
  }

  /** `test_upgrade_data_empty_upgraders_list`. */
  lemma EmptyUpgradersList(data: string)
    ensures Upgrade("1.0.0", "1.1.0", data, Some([])) == Err(Message(UnsupportedTarget("1.1.0")))
  {
    Parses100();
    Parses110();
    Unsupported("1.0.0", "1.1.0", data, Some([]), Release(1, 0, 0), Release(1, 1, 0));
  }

  /** The pass of `ComplexUpgradeChain`. */
  lemma ComplexUpgradeChainPass(data: string)
    ensures Run([
                MockUpgrader("1.0.1", "1.0.0", None, "patch").AsUpgrader(),
                MockUpgrader("1.1.0", "1.0.1", None, "minor").AsUpgrader(),
                MockUpgrader("2.0.0", "1.1.0", None, "major").AsUpgrader()],
                Running("1.0.0", data), "2.0.0")
         == Reached(data + "-patch" + "-minor" + "-major")
  {
    var u1 := MockUpgrader("1.0.1", "1.0.0", None, "patch").AsUpgrader();
    var u2 := MockUpgrader("1.1.0", "1.0.1", None, "minor").AsUpgrader();
    var u3 := MockUpgrader("2.0.0", "1.1.0", None, "major").AsUpgrader();
    var us := [u1, u2, u3];
    var start := Running("1.0.0", data);
    assert us[..2] == [u1, u2] && [u1, u2][..1] == [u1] && [u1][..0] == [];
    assert Run([u1], start, "2.0.0") == Running("1.0.1", data + "-patch");
    assert Run([u1, u2], start, "2.0.0") == Running("1.1.0", data + "-patch" + "-minor");
  }

  /** `test_upgrade_data_complex_upgrade_chain`: the data is "base", giving "base-patch-minor-major". */
  lemma ComplexUpgradeChain(data: string)
    ensures Upgrade("1.0.0", "2.0.0", data, Some([
              MockUpgrader("1.0.1", "1.0.0", None, "patch").AsUpgrader(),
              MockUpgrader("1.1.0", "1.0.1", None, "minor").AsUpgrader(),
              MockUpgrader("2.0.0", "1.1.0", None, "major").AsUpgrader()]))
         == Ok(data + "-patch" + "-minor" + "-major")
  {
    var u1 := MockUpgrader("1.0.1", "1.0.0", None, "patch").AsUpgrader();
    var u2 := MockUpgrader("1.1.0", "1.0.1", None, "minor").AsUpgrader();
    var u3 := MockUpgrader("2.0.0", "1.1.0", None, "major").AsUpgrader();
    var us := [u1, u2, u3];
    ComplexUpgradeChainPass(data);
    Parses100();
    Parses200();
    Enters("1.0.0", "2.0.0", us, Release(1, 0, 0), Release(2, 0, 0), 2);
    PassOutcome("1.0.0", "2.0.0", data, us);
  }

  /** `test_upgrade_data_prerelease_versions`. */
  lemma PrereleaseVersions(data: string)
    ensures Upgrade("1.0.0-alpha", "1.1.0-beta", data, Some([MockUpgrader("1.1.0-beta", "1.0.0-alpha", None, "beta").AsUpgrader()]))
         == Ok(data + "-" + "beta")
  {
    Parses100Alpha();
    Parses110Beta();
    OneStep("1.0.0-alpha", "1.1.0-beta", data, MockUpgrader("1.1.0-beta", "1.0.0-alpha", None, "beta"),
      Version(1, 0, 0, [Alphanumeric("alpha")], []), Version(1, 1, 0, [Alphanumeric("beta")], []));
  }


  /** `test_upgrade_data_build_metadata_ignored`. */
  lemma BuildMetadataVersions(data: string)
    ensures Upgrade("1.0.0+build1", "1.1.0+build2", data, Some([MockUpgrader("1.1.0+build2", "1.0.0+build1", None, "build").AsUpgrader()]))
         == Ok(data + "-" + "build")
  {
    Parses100Build1();
    Parses110Build2();
    OneStep("1.0.0+build1", "1.1.0+build2", data, MockUpgrader("1.1.0+build2", "1.0.0+build1", None, "build"),
      Version(1, 0, 0, [], ["build1"]), Version(1, 1, 0, [], ["build2"]));
  }


  /** With the default registry, versions that differ only in build metadata reach the supported-target check. */
  lemma BuildTieUnsupported(fromVersion: string, toVersion: string, data: string, v: Version, x: seq<string>, y: seq<string>)
    requires Parse(fromVersion) == Some(v.(build := x)) && Parse(toVersion) == Some(v.(build := y))
    requires fromVersion != toVersion
    ensures Upgrade(fromVersion, toVersion, data, None) == Err(Message(UnsupportedTarget(toVersion)))
  {
    BuildMetadataNeverDowngrade(fromVersion, toVersion, data, Upgraders);
    UnsupportedTargetRefused(fromVersion, toVersion, data, Upgraders, toVersion);
  }

  /**
   * Not a test of the suite: versions that differ only in build metadata tie
   * in precedence, so the downgrade guard lets them through and, with the
   * default registry, the target is refused as unsupported.
   */
  lemma BuildOnlyDifference(data: string)
    ensures Upgrade("1.0.0+build2", "1.0.0+build1", data, None) == Err(Message(UnsupportedTarget("1.0.0+build1")))
  {
    Parses100Build1();
    Parses100Build2();
    BuildTieUnsupported("1.0.0+build2", "1.0.0+build1", data, Release(1, 0, 0), ["build2"], ["build1"]);
  }

  /** The pass of `IncompleteUpgradeChain`. */
  lemma IncompleteUpgradeChainPass(data: string)
    ensures Run([
                MockUpgrader("1.1.0", "1.0.0", None, "v1.1").AsUpgrader(),
                MockUpgrader("1.3.0", "1.2.0", None, "v1.3").AsUpgrader()],
                Running("1.0.0", data), "1.3.0")
         == Running("1.1.0", data + "-v1.1")
  {
    var u1 := MockUpgrader("1.1.0", "1.0.0", None, "v1.1").AsUpgrader();
    var u3 := MockUpgrader("1.3.0", "1.2.0", None, "v1.3").AsUpgrader();
    var us := [u1, u3];
    var start := Running("1.0.0", data);
    assert us[..1] == [u1] && [u1][..0] == [];
    assert Run([u1], start, "1.3.0") == Running("1.1.0", data + "-v1.1");
  }

  /** `test_upgrade_data_incomplete_upgrade_chain`: a gap in the chain leaves the pass short of the target. */
  lemma IncompleteUpgradeChain(data: string)
    ensures Upgrade("1.0.0", "1.3.0", data, Some([
              MockUpgrader("1.1.0", "1.0.0", None, "v1.1").AsUpgrader(),
              MockUpgrader("1.3.0", "1.2.0", None, "v1.3").AsUpgrader()]))
         == Err(Message(NoRoute("1.3.0")))
  {
    var u1 := MockUpgrader("1.1.0", "1.0.0", None, "v1.1").AsUpgrader();
    var u3 := MockUpgrader("1.3.0", "1.2.0", None, "v1.3").AsUpgrader();
    var us := [u1, u3];
    IncompleteUpgradeChainPass(data);
    Parses100();
    Parses130();
    Enters("1.0.0", "1.3.0", us, Release(1, 0, 0), Release(1, 3, 0), 1);
    PassOutcome("1.0.0", "1.3.0", data, us);
  }

  /**
   * `test_upgrade_data_missing_intermediate_version`: the same registry as
   * `IncompleteUpgradeChain`, with the test's data "data".
   */
  lemma MissingIntermediateVersion()
    ensures Upgrade("1.0.0", "1.3.0", "data", Some([
              MockUpgrader("1.1.0", "1.0.0", None, "v1.1").AsUpgrader(),
              MockUpgrader("1.3.0", "1.2.0", None, "v1.3").AsUpgrader()]))
         == Err(Message(NoRoute("1.3.0")))
  {
    IncompleteUpgradeChain("data");
  }

  /** The pass of `CompleteUpgradeChain`. */
  lemma CompleteUpgradeChainPass(data: string)
    ensures Run([
                MockUpgrader("1.1.0", "1.0.0", None, "v1.1").AsUpgrader(),
                MockUpgrader("1.2.0", "1.1.0", None, "v1.2").AsUpgrader(),
                MockUpgrader("1.3.0", "1.2.0", None, "v1.3").AsUpgrader()],
                Running("1.0.0", data), "1.3.0")
         == Reached(data + "-v1.1" + "-v1.2" + "-v1.3")
  {
    var u1 := MockUpgrader("1.1.0", "1.0.0", None, "v1.1").AsUpgrader();
    var u2 := MockUpgrader("1.2.0", "1.1.0", None, "v1.2").AsUpgrader();
    var u3 := MockUpgrader("1.3.0", "1.2.0", None, "v1.3").AsUpgrader();
    var us := [u1, u2, u3];
    var start := Running("1.0.0", data);
    assert us[..2] == [u1, u2] && [u1, u2][..1] == [u1] && [u1][..0] == [];
    assert Run([u1], start, "1.3.0") == Running("1.1.0", data + "-v1.1");
    assert Run([u1, u2], start, "1.3.0") == Running("1.2.0", data + "-v1.1" + "-v1.2");
  }

  /** `test_upgrade_data_complete_upgrade_chain_validation`: the data is "data", giving "data-v1.1-v1.2-v1.3". */
  lemma CompleteUpgradeChain(data: string)
    ensures Upgrade("1.0.0", "1.3.0", data, Some([
              MockUpgrader("1.1.0", "1.0.0", None, "v1.1").AsUpgrader(),
              MockUpgrader("1.2.0", "1.1.0", None, "v1.2").AsUpgrader(),
              MockUpgrader("1.3.0", "1.2.0", None, "v1.3").AsUpgrader()]))
         == Ok(data + "-v1.1" + "-v1.2" + "-v1.3")
  {
    var u1 := MockUpgrader("1.1.0", "1.0.0", None, "v1.1").AsUpgrader();
    var u2 := MockUpgrader("1.2.0", "1.1.0", None, "v1.2").AsUpgrader();
    var u3 := MockUpgrader("1.3.0", "1.2.0", None, "v1.3").AsUpgrader();
    var us := [u1, u2, u3];
    CompleteUpgradeChainPass(data);
    Parses100();
    Parses130();
    Enters("1.0.0", "1.3.0", us, Release(1, 0, 0), Release(1, 3, 0), 2);
    PassOutcome("1.0.0", "1.3.0", data, us);
  }
}
