/**
 * Semantic versions as the migration engine parses and compares them:
 * the grammar of Semantic Versioning 2.0.0 (MAJOR.MINOR.PATCH, an optional
 * pre-release after `-`, section 9, and optional build metadata after `+`,
 * section 10) and its precedence rule (section 11).
 *
 * `Parse` and `Format` are proved to be inverse to each other, so a string
 * is accepted exactly when it is the canonical spelling of a well-formed
 * version; `Compare` is proved to be a total order on everything except the
 * build metadata, which it ignores.
 */
module SemVer {
  import opened Wrappers

  /** One dot-separated pre-release identifier. */
  datatype Identifier = Numeric(n: nat) | Alphanumeric(s: string)

  /** A parsed version; `pre == []` means no pre-release, `build == []` no build metadata. */
  datatype Version = Version(major: nat, minor: nat, patch: nat, pre: seq<Identifier>, build: seq<string>)

  datatype Ordering = Less | Equal | Greater

  function Flip(o: Ordering): Ordering {
    match o
    case Less => Greater
    case Equal => Equal
    case Greater => Less
  }

  // ---------------------------------------------------------------------
  // Character classes and identifiers of the grammar
  // ---------------------------------------------------------------------

  predicate IsDigit(c: char) { '0' <= c <= '9' }

  /** [0-9A-Za-z-], the characters an identifier may use. */
  predicate IsIdentChar(c: char) {
    IsDigit(c) || ('A' <= c <= 'Z') || ('a' <= c <= 'z') || c == '-'
  }

  predicate AllDigits(s: string) { forall i :: 0 <= i < |s| ==> IsDigit(s[i]) }

  predicate AllIdentChars(s: string) { forall i :: 0 <= i < |s| ==> IsIdentChar(s[i]) }

  /** "0", or a non-zero digit followed by digits: no leading zeros. */
  predicate IsNumericIdentifier(s: string) {
    |s| > 0 && AllDigits(s) && (s[0] == '0' ==> |s| == 1)
  }

  /** An identifier with at least one non-digit. */
  predicate IsAlphanumericIdentifier(s: string) {
    |s| > 0 && AllIdentChars(s) && !AllDigits(s)
  }

  predicate IsPreReleaseIdentifier(s: string) {
    IsNumericIdentifier(s) || IsAlphanumericIdentifier(s)
  }

  /** Build identifiers may be all digits and may have leading zeros. */
  predicate IsBuildIdentifier(s: string) {
    |s| > 0 && AllIdentChars(s)
  }

  /** The versions that have a spelling: alphanumeric identifiers really hold a non-digit. */
  predicate WellFormed(v: Version) {
    && (forall i :: 0 <= i < |v.pre| && v.pre[i].Alphanumeric? ==> IsAlphanumericIdentifier(v.pre[i].s))
    && (forall i :: 0 <= i < |v.build| ==> IsBuildIdentifier(v.build[i]))
  }

  // ---------------------------------------------------------------------
  // Decimal numerals
  // ---------------------------------------------------------------------

  function DigitChar(d: nat): (c: char)
    requires d < 10
    ensures IsDigit(c)
  {
    ('0' as int + d) as char
  }

  function DigitValue(c: char): (d: nat)
    requires IsDigit(c)
    ensures d < 10 && DigitChar(d) == c
  {
    c as int - '0' as int
  }

  /** The decimal spelling of `n`, without leading zeros. */
  function Decimal(n: nat): (s: string)
    ensures |s| > 0 && AllDigits(s)
    ensures s[0] == '0' <==> n == 0
    ensures |s| == 1 <==> n < 10
    ensures IsNumericIdentifier(s)
    decreases n
  {
    if n < 10 then [DigitChar(n)] else Decimal(n / 10) + [DigitChar(n % 10)]
  }

  /** The number a digit string denotes. */
  function ValueOf(s: string): nat
    requires AllDigits(s)
    decreases |s|
  {
    if s == [] then 0 else ValueOf(s[..|s| - 1]) * 10 + DigitValue(s[|s| - 1])
  }

  lemma {:induction false} ValueOfDecimal(n: nat)
    ensures ValueOf(Decimal(n)) == n
    decreases n
  {
    var s := Decimal(n);
    if n < 10 {
      assert s == [DigitChar(n)];
      assert s[..0] == [];
    } else {
      ValueOfDecimal(n / 10);
      assert s[..|s| - 1] == Decimal(n / 10);
      assert s[|s| - 1] == DigitChar(n % 10);
    }
  }

  lemma {:induction false} ValueOfPositive(s: string)
    requires |s| > 0 && AllDigits(s) && s[0] != '0'
    ensures ValueOf(s) > 0
    decreases |s|
  {
    if |s| > 1 {
      var p := s[..|s| - 1];
      assert p[0] == s[0];
      ValueOfPositive(p);
    } else {
      assert s[..0] == [];
    }
  }

  /** A numeral without leading zeros is the spelling of its own value. */
  lemma {:induction false} DecimalOfValue(s: string)
    requires IsNumericIdentifier(s)
    ensures Decimal(ValueOf(s)) == s
    decreases |s|
  {
    if |s| == 1 {
      assert s[..0] == [];
      assert ValueOf(s) == DigitValue(s[0]);
      assert s == [s[0]];
    } else {
      var p := s[..|s| - 1];
      var d := DigitValue(s[|s| - 1]);
      assert p[0] == s[0];
      DecimalOfValue(p);
      ValueOfPositive(p);
      var n := ValueOf(s);
      assert n == ValueOf(p) * 10 + d;
      assert n / 10 == ValueOf(p) && n % 10 == d;
      assert s == p + [s[|s| - 1]];
    }
  }

  // ---------------------------------------------------------------------
  // Cutting and splitting strings at a separator
  // ---------------------------------------------------------------------

  /** Cuts `s` at the first `c`: the part before it and, if there is one, the part after. */
  function Cut(s: string, c: char): (r: (string, Option<string>))
    ensures c !in r.0
    ensures r.1.None? ==> r.0 == s
    ensures r.1.Some? ==> s == r.0 + [c] + r.1.value
    decreases |s|
  {
    if s == [] then ([], None)
    else if s[0] == c then ([], Some(s[1..]))
    else
      var r := Cut(s[1..], c);
      ([s[0]] + r.0, r.1)
  }

  lemma CutAbsent(a: string, c: char)
    requires c !in a
    ensures Cut(a, c) == (a, None)
  {
  }

  /** The first occurrence of `c` is unique: two cuts at it agree. */
  lemma {:induction false} CutUnique(a: string, b: string, a': string, b': string, c: char)
    requires c !in a && c !in a'
    requires a + [c] + b == a' + [c] + b'
    ensures a == a' && b == b'
    decreases |a|
  {
    var s := a + [c] + b;
    assert s[0] == if a == [] then c else a[0];
    assert s[0] == if a' == [] then c else a'[0];
    if a != [] && a' != [] {
      assert a[1..] + [c] + b == (a + [c] + b)[1..];
      assert a'[1..] + [c] + b' == (a' + [c] + b')[1..];
      CutUnique(a[1..], b, a'[1..], b', c);
      assert a == [a[0]] + a[1..];
      assert a' == [a'[0]] + a'[1..];
    } else if a == [] && a' == [] {
      assert b == (a + [c] + b)[1..];
      assert b' == (a' + [c] + b')[1..];
    }
  }

  lemma CutJoined(a: string, c: char, b: string)
    requires c !in a
    ensures Cut(a + [c] + b, c) == (a, Some(b))
  {
    var s := a + [c] + b;
    assert s[|a|] == c;
    var r := Cut(s, c);
    CutUnique(a, b, r.0, r.1.value, c);
  }

  function Join(parts: seq<string>, c: char): string
    requires |parts| > 0
    decreases |parts|
  {
    if |parts| == 1 then parts[0] else parts[0] + [c] + Join(parts[1..], c)
  }

  /** The pieces of `s` between occurrences of `c`; joining them back gives `s`. */
  function Split(s: string, c: char): (parts: seq<string>)
    ensures |parts| > 0
    ensures forall i :: 0 <= i < |parts| ==> c !in parts[i]
    ensures Join(parts, c) == s
    decreases |s|
  {
    var r := Cut(s, c);
    if r.1.None? then [r.0]
    else
      var rest := Split(r.1.value, c);
      assert ([r.0] + rest)[1..] == rest;
      [r.0] + rest
  }

  /** Splitting undoes joining pieces that do not contain the separator. */
  lemma {:induction false} SplitJoin(parts: seq<string>, c: char)
    requires |parts| > 0
    requires forall i :: 0 <= i < |parts| ==> c !in parts[i]
    ensures Split(Join(parts, c), c) == parts
    decreases |parts|
  {
    if |parts| == 1 {
      CutAbsent(parts[0], c);
    } else {
      CutJoined(parts[0], c, Join(parts[1..], c));
      SplitJoin(parts[1..], c);
    }
  }

  lemma {:induction false} NotInJoin(parts: seq<string>, sep: char, c: char)
    requires |parts| > 0 && c != sep
    requires forall i :: 0 <= i < |parts| ==> c !in parts[i]
    ensures c !in Join(parts, sep)
    decreases |parts|
  {
    if |parts| > 1 {
      NotInJoin(parts[1..], sep, c);
    }
  }

  // ---------------------------------------------------------------------
  // Parsing and formatting
  // ---------------------------------------------------------------------

  function ToIdentifier(s: string): Identifier {
    if AllDigits(s) then Numeric(ValueOf(s)) else Alphanumeric(s)
  }

  function ToIdentifiers(parts: seq<string>): (ids: seq<Identifier>)
    ensures |ids| == |parts|
  {
    seq(|parts|, i requires 0 <= i < |parts| => ToIdentifier(parts[i]))
  }

  function IdentifierString(id: Identifier): string {
    match id
    case Numeric(n) => Decimal(n)
    case Alphanumeric(s) => s
  }

  function IdentifierStrings(ids: seq<Identifier>): (parts: seq<string>)
    ensures |parts| == |ids|
  {
    seq(|ids|, i requires 0 <= i < |ids| => IdentifierString(ids[i]))
  }

  /** MAJOR.MINOR.PATCH: exactly three numeric identifiers. */
  function ParseCore(s: string): Option<(nat, nat, nat)> {
    var parts := Split(s, '.');
    if |parts| == 3 && IsNumericIdentifier(parts[0]) && IsNumericIdentifier(parts[1]) && IsNumericIdentifier(parts[2])
    then Some((ValueOf(parts[0]), ValueOf(parts[1]), ValueOf(parts[2])))
    else None
  }

  /** The text after the first `-`, if any: non-empty dot-separated pre-release identifiers. */
  function ParsePreRelease(s: Option<string>): Option<seq<Identifier>> {
    if s.None? then Some([])
    else
      var parts := Split(s.value, '.');
      if forall i :: 0 <= i < |parts| ==> IsPreReleaseIdentifier(parts[i])
      then Some(ToIdentifiers(parts))
      else None
  }

  /** The text after the first `+`, if any: non-empty dot-separated build identifiers. */
  function ParseBuild(s: Option<string>): Option<seq<string>> {
    if s.None? then Some([])
    else
      var parts := Split(s.value, '.');
      if forall i :: 0 <= i < |parts| ==> IsBuildIdentifier(parts[i])
      then Some(parts)
      else None
  }

  /**
   * Parses a version string; `None` for anything outside the grammar:
   * a leading `v`, surrounding spaces, missing or extra numeric parts,
   * leading zeros in a numeric part or numeric pre-release identifier,
   * empty identifiers, or characters outside [0-9A-Za-z-].
   */
  function Parse(s: string): (r: Option<Version>)
    ensures r.Some? ==> WellFormed(r.value)
  {
    var plus := Cut(s, '+');
    var minus := Cut(plus.0, '-');
    var core := ParseCore(minus.0);
    var pre := ParsePreRelease(minus.1);
    var build := ParseBuild(plus.1);
    if core.Some? && pre.Some? && build.Some?
    then Some(Version(core.value.0, core.value.1, core.value.2, pre.value, build.value))
    else None
  }

  /** The part before the first cut is a prefix of the string cut. */
  lemma CutPrefix(s: string, c: char)
    ensures |Cut(s, c).0| <= |s| && Cut(s, c).0 == s[..|Cut(s, c).0|]
  {
  }

  /** Anything that does not start with a digit, such as a leading `v` or space, is rejected. */
  lemma LeadingNonDigitRejected(s: string)
    requires |s| > 0 && !IsDigit(s[0])
    ensures Parse(s).None?
  {
    var plus := Cut(s, '+');
    var minus := Cut(plus.0, '-');
    var first := Split(minus.0, '.')[0];
    CutPrefix(s, '+');
    CutPrefix(plus.0, '-');
    CutPrefix(minus.0, '.');
    assert first == Cut(minus.0, '.').0;
    assert |first| > 0 ==> first[0] == s[0];
    assert !IsNumericIdentifier(first);
  }

  function CoreString(major: nat, minor: nat, patch: nat): string {
    Decimal(major) + "." + Decimal(minor) + "." + Decimal(patch)
  }

  /** The pre-release text, absent when there is no pre-release. */
  function PreReleaseText(pre: seq<Identifier>): Option<string> {
    if pre == [] then None else Some(Join(IdentifierStrings(pre), '.'))
  }

  /** The build-metadata text, absent when there is none. */
  function BuildText(build: seq<string>): Option<string> {
    if build == [] then None else Some(Join(build, '.'))
  }

  function Suffix(c: char, text: Option<string>): string {
    if text.None? then "" else [c] + text.value
  }

  /** The canonical spelling of a version. */
  function Format(v: Version): string {
    CoreString(v.major, v.minor, v.patch) + Suffix('-', PreReleaseText(v.pre)) + Suffix('+', BuildText(v.build))
  }

  lemma IdentifierRoundTrip(id: Identifier)
    requires id.Alphanumeric? ==> IsAlphanumericIdentifier(id.s)
    ensures IsPreReleaseIdentifier(IdentifierString(id))
    ensures AllIdentChars(IdentifierString(id))
    ensures ToIdentifier(IdentifierString(id)) == id
  {
    if id.Numeric? {
      ValueOfDecimal(id.n);
    }
  }

  lemma StringRoundTrip(s: string)
    requires IsPreReleaseIdentifier(s)
    ensures IdentifierString(ToIdentifier(s)) == s
  {
    if AllDigits(s) {
      DecimalOfValue(s);
    }
  }

  lemma ThreeJoin(a: string, b: string, c: string)
    ensures Join([a, b, c], '.') == a + "." + b + "." + c
  {
    assert [a, b, c][1..] == [b, c];
    assert [b, c][1..] == [c];
    assert Join([c], '.') == c;
    assert Join([b, c], '.') == b + "." + c;
  }

  lemma CoreRoundTrip(major: nat, minor: nat, patch: nat)
    ensures ParseCore(CoreString(major, minor, patch)) == Some((major, minor, patch))
    ensures '-' !in CoreString(major, minor, patch) && '+' !in CoreString(major, minor, patch)
  {
    var digits := [Decimal(major), Decimal(minor), Decimal(patch)];
    ThreeJoin(digits[0], digits[1], digits[2]);
    forall i | 0 <= i < 3
      ensures '.' !in digits[i] && '-' !in digits[i] && '+' !in digits[i]
    {
      assert AllDigits(digits[i]);
    }
    NotInJoin(digits, '.', '-');
    NotInJoin(digits, '.', '+');
    SplitJoin(digits, '.');
    ValueOfDecimal(major);
    ValueOfDecimal(minor);
    ValueOfDecimal(patch);
  }

  lemma CoreInverse(s: string)
    requires ParseCore(s).Some?
    ensures CoreString(ParseCore(s).value.0, ParseCore(s).value.1, ParseCore(s).value.2) == s
  {
    var parts := Split(s, '.');
    DecimalOfValue(parts[0]);
    DecimalOfValue(parts[1]);
    DecimalOfValue(parts[2]);
    ThreeJoin(parts[0], parts[1], parts[2]);
    assert parts == [parts[0], parts[1], parts[2]];
  }

  lemma PreReleaseRoundTrip(pre: seq<Identifier>)
    requires forall i :: 0 <= i < |pre| && pre[i].Alphanumeric? ==> IsAlphanumericIdentifier(pre[i].s)
    ensures ParsePreRelease(PreReleaseText(pre)) == Some(pre)
    ensures PreReleaseText(pre).Some? ==> '+' !in PreReleaseText(pre).value
  {
    if pre != [] {
      var ids := IdentifierStrings(pre);
      forall i | 0 <= i < |ids|
        ensures IsPreReleaseIdentifier(ids[i]) && '.' !in ids[i] && '+' !in ids[i]
        ensures ToIdentifier(ids[i]) == pre[i]
      {
        IdentifierRoundTrip(pre[i]);
        assert AllIdentChars(ids[i]);
      }
      NotInJoin(ids, '.', '+');
      SplitJoin(ids, '.');
      assert ToIdentifiers(ids) == pre;
    }
  }

  lemma PreReleaseInverse(s: Option<string>)
    requires ParsePreRelease(s).Some?
    ensures PreReleaseText(ParsePreRelease(s).value) == s
  {
    if s.Some? {
      var parts := Split(s.value, '.');
      forall i | 0 <= i < |parts|
        ensures IdentifierString(ToIdentifiers(parts)[i]) == parts[i]
      {
        StringRoundTrip(parts[i]);
      }
      assert IdentifierStrings(ToIdentifiers(parts)) == parts;
    }
  }

  lemma BuildRoundTrip(build: seq<string>)
    requires forall i :: 0 <= i < |build| ==> IsBuildIdentifier(build[i])
    ensures ParseBuild(BuildText(build)) == Some(build)
  {
    if build != [] {
      forall i | 0 <= i < |build|
        ensures '.' !in build[i]
      {
        assert AllIdentChars(build[i]);
      }
      SplitJoin(build, '.');
    }
  }

  lemma SuffixCut(a: string, c: char, text: Option<string>)
    requires c !in a
    ensures Cut(a + Suffix(c, text), c) == (a, text)
  {
    if text.None? {
      assert a + Suffix(c, text) == a;
      CutAbsent(a, c);
    } else {
      assert a + Suffix(c, text) == a + [c] + text.value;
      CutJoined(a, c, text.value);
    }
  }

  /** Every well-formed version is accepted in its canonical spelling. */
  lemma ParseFormat(v: Version)
    requires WellFormed(v)
    ensures Parse(Format(v)) == Some(v)
  {
    var core := CoreString(v.major, v.minor, v.patch);
    var main := core + Suffix('-', PreReleaseText(v.pre));
    CoreRoundTrip(v.major, v.minor, v.patch);
    PreReleaseRoundTrip(v.pre);
    BuildRoundTrip(v.build);
    SuffixCut(core, '-', PreReleaseText(v.pre));
    assert '+' !in main;
    SuffixCut(main, '+', BuildText(v.build));
  }

  lemma BuildInverse(s: Option<string>)
    requires ParseBuild(s).Some?
    ensures BuildText(ParseBuild(s).value) == s
  {
  }

  /** Whatever is accepted is the canonical spelling of what it parses to. */
  lemma FormatParse(s: string)
    requires Parse(s).Some?
    ensures Format(Parse(s).value) == s
  {
    var plus := Cut(s, '+');
    var minus := Cut(plus.0, '-');
    var core := ParseCore(minus.0).value;
    var pre := ParsePreRelease(minus.1).value;
    var build := ParseBuild(plus.1).value;
    assert Parse(s) == Some(Version(core.0, core.1, core.2, pre, build));
    CoreInverse(minus.0);
    PreReleaseInverse(minus.1);
    BuildInverse(plus.1);
    CutRejoin(plus.0, '-');
    CutRejoin(s, '+');
  }

  /** Cutting loses nothing: the part before the separator, then the separator and the rest. */
  lemma CutRejoin(s: string, c: char)
    ensures s == Cut(s, c).0 + Suffix(c, Cut(s, c).1)
  {
    var r := Cut(s, c);
    if r.1.Some? {
      assert r.0 + [c] + r.1.value == r.0 + ([c] + r.1.value);
    }
  }

  // ---------------------------------------------------------------------
  // Precedence (section 11)
  // ---------------------------------------------------------------------

  function CompareNat(a: nat, b: nat): Ordering {
    if a < b then Less else if b < a then Greater else Equal
  }

  /** Lexical comparison in character-code (ASCII) order. */
  function CompareString(a: string, b: string): Ordering
    decreases |a|
  {
    if a == [] then (if b == [] then Equal else Less)
    else if b == [] then Greater
    else if a[0] < b[0] then Less
    else if b[0] < a[0] then Greater
    else CompareString(a[1..], b[1..])
  }

  /** Numeric identifiers compare numerically and rank below alphanumeric ones. */
  function CompareIdentifier(a: Identifier, b: Identifier): Ordering {
    match (a, b)
    case (Numeric(x), Numeric(y)) => CompareNat(x, y)
    case (Numeric(_), Alphanumeric(_)) => Less
    case (Alphanumeric(_), Numeric(_)) => Greater
    case (Alphanumeric(x), Alphanumeric(y)) => CompareString(x, y)
  }

  /** Identifier by identifier; when one list is a prefix of the other, the shorter ranks lower. */
  function CompareIdentifiers(a: seq<Identifier>, b: seq<Identifier>): Ordering
    decreases |a|
  {
    if a == [] then (if b == [] then Equal else Less)
    else if b == [] then Greater
    else if CompareIdentifier(a[0], b[0]) != Equal then CompareIdentifier(a[0], b[0])
    else CompareIdentifiers(a[1..], b[1..])
  }

  /** A version without pre-release ranks above every pre-release of it. */
  function ComparePreRelease(a: seq<Identifier>, b: seq<Identifier>): Ordering {
    if a == [] then (if b == [] then Equal else Greater)
    else if b == [] then Less
    else CompareIdentifiers(a, b)
  }

  /** Precedence: major, minor, patch numerically, then the pre-release; build metadata is ignored. */
  function Compare(a: Version, b: Version): Ordering {
    if CompareNat(a.major, b.major) != Equal then CompareNat(a.major, b.major)
    else if CompareNat(a.minor, b.minor) != Equal then CompareNat(a.minor, b.minor)
    else if CompareNat(a.patch, b.patch) != Equal then CompareNat(a.patch, b.patch)
    else ComparePreRelease(a.pre, b.pre)
  }

  /** The parts of a version that take part in precedence. */
  function Precedence(v: Version): (nat, nat, nat, seq<Identifier>) {
    (v.major, v.minor, v.patch, v.pre)
  }

  lemma {:induction false} CompareStringFlip(a: string, b: string)
    ensures CompareString(b, a) == Flip(CompareString(a, b))
    ensures CompareString(a, b) == Equal <==> a == b
    decreases |a|
  {
    if a != [] && b != [] && a[0] == b[0] {
      CompareStringFlip(a[1..], b[1..]);
      assert a == [a[0]] + a[1..] && b == [b[0]] + b[1..];
    }
  }

  lemma {:induction false} CompareStringTransitive(a: string, b: string, c: string)
    requires CompareString(a, b) == Less && CompareString(b, c) == Less
    ensures CompareString(a, c) == Less
    decreases |a|
  {
    if a != [] && a[0] == b[0] && b[0] == c[0] {
      CompareStringTransitive(a[1..], b[1..], c[1..]);
    }
  }

  lemma CompareIdentifierFlip(a: Identifier, b: Identifier)
    ensures CompareIdentifier(b, a) == Flip(CompareIdentifier(a, b))
    ensures CompareIdentifier(a, b) == Equal <==> a == b
  {
    if a.Alphanumeric? && b.Alphanumeric? {
      CompareStringFlip(a.s, b.s);
    }
  }

  lemma CompareIdentifierTransitive(a: Identifier, b: Identifier, c: Identifier)
    requires CompareIdentifier(a, b) == Less && CompareIdentifier(b, c) == Less
    ensures CompareIdentifier(a, c) == Less
  {
    if a.Alphanumeric? && b.Alphanumeric? && c.Alphanumeric? {
      CompareStringTransitive(a.s, b.s, c.s);
    }
  }

  lemma {:induction false} CompareIdentifiersFlip(a: seq<Identifier>, b: seq<Identifier>)
    ensures CompareIdentifiers(b, a) == Flip(CompareIdentifiers(a, b))
    ensures CompareIdentifiers(a, b) == Equal <==> a == b
    decreases |a|
  {
    if a != [] && b != [] {
      CompareIdentifierFlip(a[0], b[0]);
      if a[0] == b[0] {
        CompareIdentifiersFlip(a[1..], b[1..]);
        assert a == [a[0]] + a[1..] && b == [b[0]] + b[1..];
      }
    }
  }

  lemma {:induction false} CompareIdentifiersTransitive(a: seq<Identifier>, b: seq<Identifier>, c: seq<Identifier>)
    requires CompareIdentifiers(a, b) == Less && CompareIdentifiers(b, c) == Less
    ensures CompareIdentifiers(a, c) == Less
    decreases |a|
  {
    if a != [] && c != [] {
      CompareIdentifierFlip(a[0], b[0]);
      CompareIdentifierFlip(b[0], c[0]);
      if a[0] == b[0] && b[0] == c[0] {
        CompareIdentifiersTransitive(a[1..], b[1..], c[1..]);
      } else if a[0] != b[0] && b[0] != c[0] {
        CompareIdentifierTransitive(a[0], b[0], c[0]);
      }
    }
  }

  /** Precedence is antisymmetric, and two versions tie exactly when they differ at most in build metadata. */
  lemma CompareFlip(a: Version, b: Version)
    ensures Compare(b, a) == Flip(Compare(a, b))
    ensures Compare(a, b) == Equal <==> Precedence(a) == Precedence(b)
  {
    CompareIdentifiersFlip(a.pre, b.pre);
  }

  /** Precedence is transitive. */
  lemma CompareTransitive(a: Version, b: Version, c: Version)
    requires Compare(a, b) == Less && Compare(b, c) == Less
    ensures Compare(a, c) == Less
  {
    if Precedence(a).0 == Precedence(c).0 && a.minor == c.minor && a.patch == c.patch
       && a.pre != [] && b.pre != [] && c.pre != [] {
      CompareIdentifiersTransitive(a.pre, b.pre, c.pre);
    }
  }

  /** Build metadata does not take part in precedence. */
  lemma CompareIgnoresBuild(a: Version, b: Version, x: seq<string>, y: seq<string>)
    ensures Compare(a.(build := x), b.(build := y)) == Compare(a, b)
  {
  }

  /** A pre-release ranks below the release it precedes. */
  lemma PreReleaseBelowRelease(v: Version)
    requires v.pre != []
    ensures Compare(v, v.(pre := [])) == Less
  {
  }
}
