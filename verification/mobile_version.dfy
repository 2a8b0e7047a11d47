/** Store version codes: packings of a release version that keep the order of its numbers. */
module MobileVersion {
  import opened Wrappers
  import ByteOrder

  /** A prerelease such as alpha.3. */
  datatype Prerelease = Prerelease(word: string, number: nat)

  datatype Version = Version(major: nat, minor: nat, patch: nat, prerelease: Option<Prerelease>)

  // ----- Semantic Versioning 2.0.0, section 11 -----

  /** Words are compared as bytes, then numbers as numbers; a release follows all its prereleases. */
  predicate PrereleaseBefore(a: Option<Prerelease>, b: Option<Prerelease>) {
    a.Some? && (b.None? || ByteOrder.Less(a.value.word, b.value.word)
                || (a.value.word == b.value.word && a.value.number < b.value.number))
  }

  predicate SameRelease(a: Version, b: Version) {
    a.major == b.major && a.minor == b.minor && a.patch == b.patch
  }

  predicate ReleaseBefore(a: Version, b: Version) {
    || a.major < b.major
    || (a.major == b.major && a.minor < b.minor)
    || (a.major == b.major && a.minor == b.minor && a.patch < b.patch)
  }

  predicate Before(a: Version, b: Version) {
    ReleaseBefore(a, b) || (SameRelease(a, b) && PrereleaseBefore(a.prerelease, b.prerelease))
  }

  lemma BeforeIsTotal(a: Version, b: Version)
    ensures Before(a, b) || a == b || Before(b, a)
    ensures !(Before(a, b) && Before(b, a)) && !Before(a, a)
  {
    if a.prerelease.Some? && b.prerelease.Some? {
      var (v, w) := (a.prerelease.value.word, b.prerelease.value.word);
      ByteOrder.LessIsTotal(v, w);
      if ByteOrder.Less(v, w) {
        ByteOrder.LessIsStrict(v, w);
      } else if ByteOrder.Less(w, v) {
        ByteOrder.LessIsStrict(w, v);
      }
    }
    if a.prerelease.Some? && ByteOrder.Less(a.prerelease.value.word, a.prerelease.value.word) {
      ByteOrder.LessIsStrict(a.prerelease.value.word, a.prerelease.value.word);
    }
  }

  // ----- The numbers of a version -----

  /** What the pattern captures: the prerelease's word is not among it. */
  datatype Numbers = Numbers(major: nat, minor: nat, patch: nat, prerelease: Option<nat>)

  function NumbersOf(v: Version): Numbers {
    Numbers(v.major, v.minor, v.patch, if v.prerelease.Some? then Some(v.prerelease.value.number) else None)
  }

  /** A version with these numbers; the word only matters for a prerelease. */
  function WithWord(n: Numbers, word: string): Version {
    Version(n.major, n.minor, n.patch,
            if n.prerelease.Some? then Some(Prerelease(word, n.prerelease.value)) else None)
  }

  predicate NumbersBefore(a: Numbers, b: Numbers) {
    || a.major < b.major
    || (a.major == b.major && a.minor < b.minor)
    || (a.major == b.major && a.minor == b.minor && a.patch < b.patch)
    || (a.major == b.major && a.minor == b.minor && a.patch == b.patch
        && a.prerelease.Some? && (b.prerelease.None? || a.prerelease.value < b.prerelease.value))
  }

  function Sequence(n: Numbers): nat {
    if n.prerelease.Some? then n.prerelease.value else 99
  }

  /** Two prereleases of one release whose numbers do not follow the order of their different words. */
  predicate Clash(a: Version, b: Version) {
    && SameRelease(a, b) && a.prerelease.Some? && b.prerelease.Some?
    && a.prerelease.value.word != b.prerelease.value.word
    && (if ByteOrder.Less(a.prerelease.value.word, b.prerelease.value.word)
        then a.prerelease.value.number >= b.prerelease.value.number
        else a.prerelease.value.number <= b.prerelease.value.number)
  }

  /** The numbers tell the versions apart, and order them as they are ordered. */
  predicate NumbersDecide(a: Version, b: Version) {
    && (NumbersBefore(NumbersOf(a), NumbersOf(b)) <==> Before(a, b))
    && (NumbersBefore(NumbersOf(b), NumbersOf(a)) <==> Before(b, a))
    && (NumbersOf(a) == NumbersOf(b) <==> a == b)
  }

  lemma NumbersDecideUnlessTheyClash(a: Version, b: Version)
    ensures NumbersDecide(a, b) <==> !Clash(a, b)
  {
    BeforeIsTotal(a, b);
  }

  // ----- Android -----

  const MAX_CODE: nat := 2_100_000_000

  function AndroidCode(v: Version): Option<nat> {
    var n := NumbersOf(v);
    if n.minor > 999 || n.patch > 999 || (n.prerelease.Some? && Sequence(n) > 98) then None
    else
      var code := n.major * 100_000_000 + n.minor * 100_000 + n.patch * 100 + Sequence(n);
      if code < 1 || code > MAX_CODE then None else Some(code)
  }

  /** Reads the numbers of a code back. */
  function AndroidNumbers(code: nat): Numbers {
    Numbers(code / 100_000_000, code / 100_000 % 1000, code / 100 % 1000,
            if code % 100 == 99 then None else Some(code % 100))
  }

  lemma Places(major: nat, minor: nat, patch: nat, sequence: nat)
    requires minor <= 999 && patch <= 999 && sequence <= 99
    ensures var code := major * 100_000_000 + minor * 100_000 + patch * 100 + sequence;
            && code % 100 == sequence && code / 100 % 1000 == patch
            && code / 100_000 % 1000 == minor && code / 100_000_000 == major
  {
    var code := major * 100_000_000 + minor * 100_000 + patch * 100 + sequence;
    assert code / 100 == major * 1_000_000 + minor * 1000 + patch;
    assert code / 100_000 == major * 1000 + minor;
  }

  lemma AndroidReadsBack(v: Version)
    requires AndroidCode(v).Some?
    ensures AndroidNumbers(AndroidCode(v).value) == NumbersOf(v)
    ensures 1 <= AndroidCode(v).value <= MAX_CODE
  {
    Places(v.major, v.minor, v.patch, Sequence(NumbersOf(v)));
  }

  lemma AndroidFollowsNumbers(a: Version, b: Version)
    requires AndroidCode(a).Some? && AndroidCode(b).Some? && NumbersBefore(NumbersOf(a), NumbersOf(b))
    ensures AndroidCode(a).value < AndroidCode(b).value
  {
  }

  lemma AndroidIsTheNumbers(a: Version, b: Version)
    requires AndroidCode(a).Some? && AndroidCode(b).Some?
    ensures AndroidCode(a).value < AndroidCode(b).value <==> NumbersBefore(NumbersOf(a), NumbersOf(b))
    ensures AndroidCode(a) == AndroidCode(b) <==> NumbersOf(a) == NumbersOf(b)
  {
    AndroidReadsBack(a);
    AndroidReadsBack(b);
    if NumbersBefore(NumbersOf(a), NumbersOf(b)) {
      AndroidFollowsNumbers(a, b);
    } else if NumbersBefore(NumbersOf(b), NumbersOf(a)) {
      AndroidFollowsNumbers(b, a);
    }
  }

  /** The codes of two versions are unique and ordered as the versions are. */
  predicate AndroidDecides(a: Version, b: Version)
    requires AndroidCode(a).Some? && AndroidCode(b).Some?
  {
    && (AndroidCode(a).value < AndroidCode(b).value <==> Before(a, b))
    && (AndroidCode(b).value < AndroidCode(a).value <==> Before(b, a))
    && (AndroidCode(a) == AndroidCode(b) <==> a == b)
  }

  /** Codes keep order and identity of two versions exactly unless the two clash. */
  lemma AndroidKeepsOrder(a: Version, b: Version)
    requires AndroidCode(a).Some? && AndroidCode(b).Some?
    ensures AndroidDecides(a, b) <==> !Clash(a, b)
  {
    AndroidIsTheNumbers(a, b);
    AndroidIsTheNumbers(b, a);
    NumbersDecideUnlessTheyClash(a, b);
  }

  /** With one word for all prereleases, codes keep order and identity. */
  lemma AndroidKeepsOrderOfOneWord(a: Version, b: Version)
    requires AndroidCode(a).Some? && AndroidCode(b).Some?
    requires a.prerelease.Some? && b.prerelease.Some? ==> a.prerelease.value.word == b.prerelease.value.word
    ensures AndroidDecides(a, b)
  {
    AndroidKeepsOrder(a, b);
  }

  /** Every code in Google Play's range belongs to a version. */
  lemma EveryCodeIsAVersion(code: nat, word: string)
    requires 1 <= code <= MAX_CODE
    ensures AndroidCode(WithWord(AndroidNumbers(code), word)) == Some(code)
  {
    var (major, minor, patch, sequence) :=
      (code / 100_000_000, code / 100_000 % 1000, code / 100 % 1000, code % 100);
    assert code == code / 100 * 100 + sequence;
    assert code / 100 == code / 100_000 * 1000 + patch;
    assert code / 100_000 == major * 1000 + minor;
  }

  /** A code refuses a version exactly when a component does not fit, or the whole is zero or too large. */
  lemma AndroidAccepts(v: Version)
    ensures AndroidCode(v).Some? <==>
              && v.minor <= 999 && v.patch <= 999 && (v.prerelease.Some? ==> v.prerelease.value.number <= 98)
              && NumbersOf(v) != Numbers(0, 0, 0, Some(0))
              && (v.major <= 20 || NumbersOf(v) == Numbers(21, 0, 0, Some(0)))
  {
  }

  // ----- Apple -----

  datatype Build = Build(line: nat, patch: nat, sequence: nat)

  function AppleBuild(v: Version): Option<Build> {
    var n := NumbersOf(v);
    if n.minor > 999 || n.patch > 99 || (n.prerelease.Some? && Sequence(n) > 98) then None
    else
      var line := n.major * 1000 + n.minor + 1;
      if line > 9999 then None else Some(Build(line, n.patch, Sequence(n)))
  }

  function AppleNumbers(b: Build): Numbers
    requires b.line >= 1
  {
    Numbers((b.line - 1) / 1000, (b.line - 1) % 1000, b.patch, if b.sequence == 99 then None else Some(b.sequence))
  }

  /** The order in which Apple compares builds. */
  predicate BuildBefore(a: Build, b: Build) {
    || a.line < b.line
    || (a.line == b.line && a.patch < b.patch)
    || (a.line == b.line && a.patch == b.patch && a.sequence < b.sequence)
  }

  lemma AppleReadsBack(v: Version)
    requires AppleBuild(v).Some?
    ensures var b := AppleBuild(v).value;
            1 <= b.line <= 9999 && b.patch <= 99 && b.sequence <= 99 && AppleNumbers(b) == NumbersOf(v)
  {
  }

  lemma AppleLinesFollowReleases(a: Version, b: Version)
    requires a.minor <= 999 && b.minor <= 999
    ensures a.major * 1000 + a.minor < b.major * 1000 + b.minor
            <==> a.major < b.major || (a.major == b.major && a.minor < b.minor)
  {
  }

  lemma AppleIsTheNumbers(a: Version, b: Version)
    requires AppleBuild(a).Some? && AppleBuild(b).Some?
    ensures BuildBefore(AppleBuild(a).value, AppleBuild(b).value) <==> NumbersBefore(NumbersOf(a), NumbersOf(b))
    ensures AppleBuild(a) == AppleBuild(b) <==> NumbersOf(a) == NumbersOf(b)
  {
    AppleReadsBack(a);
    AppleReadsBack(b);
    AppleLinesFollowReleases(a, b);
  }

  predicate AppleDecides(a: Version, b: Version)
    requires AppleBuild(a).Some? && AppleBuild(b).Some?
  {
    && (BuildBefore(AppleBuild(a).value, AppleBuild(b).value) <==> Before(a, b))
    && (BuildBefore(AppleBuild(b).value, AppleBuild(a).value) <==> Before(b, a))
    && (AppleBuild(a) == AppleBuild(b) <==> a == b)
  }

  /** Builds keep order and identity of two versions exactly unless the two clash. */
  lemma AppleKeepsOrder(a: Version, b: Version)
    requires AppleBuild(a).Some? && AppleBuild(b).Some?
    ensures AppleDecides(a, b) <==> !Clash(a, b)
  {
    AppleIsTheNumbers(a, b);
    AppleIsTheNumbers(b, a);
    NumbersDecideUnlessTheyClash(a, b);
  }

  lemma AppleKeepsOrderOfOneWord(a: Version, b: Version)
    requires AppleBuild(a).Some? && AppleBuild(b).Some?
    requires a.prerelease.Some? && b.prerelease.Some? ==> a.prerelease.value.word == b.prerelease.value.word
    ensures AppleDecides(a, b)
  {
    AppleKeepsOrder(a, b);
  }

  /** Whatever the Apple build accepts, the Android code accepts too, except the very first prerelease. */
  lemma StoresAgree(v: Version)
    requires AppleBuild(v).Some? && NumbersOf(v) != Numbers(0, 0, 0, Some(0))
    ensures AndroidCode(v).Some?
  {
  }

  // ----- Where the order stops -----

  function First(word: string, number: nat): Version {
    Version(1, 0, 0, Some(Prerelease(word, number)))
  }

  lemma AlphaComesFirst()
    ensures ByteOrder.Less("alpha", "beta")
  {
    assert "alpha"[0] < "beta"[0];
  }

  /** 1.0.0-alpha.1 and 1.0.0-beta.1 share their codes. */
  lemma WordsCanShareACode()
    ensures First("alpha", 1) != First("beta", 1) && Clash(First("alpha", 1), First("beta", 1))
    ensures AndroidCode(First("alpha", 1)) == AndroidCode(First("beta", 1)) == Some(100_000_001)
    ensures AppleBuild(First("alpha", 1)) == AppleBuild(First("beta", 1)) == Some(Build(1001, 0, 1))
  {
    AlphaComesFirst();
    assert First("alpha", 1).prerelease.value.word != First("beta", 1).prerelease.value.word;
  }

  /** 1.0.0-alpha.2 precedes 1.0.0-beta.1, but its codes follow. */
  lemma WordsCanInvertCodes()
    ensures Before(First("alpha", 2), First("beta", 1)) && Clash(First("alpha", 2), First("beta", 1))
    ensures AndroidCode(First("alpha", 2)) == Some(100_000_002) && AndroidCode(First("beta", 1)) == Some(100_000_001)
    ensures AppleBuild(First("alpha", 2)) == Some(Build(1001, 0, 2))
    ensures AppleBuild(First("beta", 1)) == Some(Build(1001, 0, 1))
  {
    AlphaComesFirst();
    assert First("alpha", 2).prerelease.value.word != First("beta", 1).prerelease.value.word;
  }
}
