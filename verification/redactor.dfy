/** Masking of private stage aliases in operator-visible text. A char stands for one byte. */
module Redactor {
  import opened Wrappers
  import opened ByteOrder

  const REPLACEMENT: string := "[private prompt input]"
  const MIN_FRAGMENT: nat := 8

  datatype Redactor = Redactor(aliases: seq<string>, foldCase: bool)

  /** How a byte is compared: as it is, or without case and with both path separators alike. */
  function Norm(foldCase: bool, c: char): char {
    if !foldCase then c
    else if 'A' <= c <= 'Z' then ((c as int) + 32) as char
    else if c == '\\' then '/'
    else c
  }

  /** x and y agree as far as the shorter one goes. */
  predicate Comparable(r: Redactor, x: string, y: string) {
    forall k :: 0 <= k < |x| && k < |y| ==> Norm(r.foldCase, x[k]) == Norm(r.foldCase, y[k])
  }

  predicate HasPrefix(r: Redactor, v: string, prefix: string) {
    |prefix| <= |v| && Comparable(r, v, prefix)
  }

  predicate HasSuffix(r: Redactor, v: string, suffix: string) {
    |suffix| <= |v| && Comparable(r, v[|v| - |suffix|..], suffix)
  }

  predicate OccursAt(r: Redactor, v: string, i: nat, alias: string) {
    i <= |v| && HasPrefix(r, v[i..], alias)
  }

  /** No alias occurs anywhere in v. */
  ghost predicate Clean(r: Redactor, v: string) {
    forall a, i: nat :: a in r.aliases ==> !OccursAt(r, v, i, a)
  }

  ghost predicate NonEmpty(r: Redactor) {
    forall a <- r.aliases :: a != ""
  }

  /** Longest first, as the constructor orders them. */
  ghost predicate LongestFirst(r: Redactor) {
    forall i, j :: 0 <= i < j < |r.aliases| ==> |r.aliases[i]| >= |r.aliases[j]|
  }

  /** No tail of an alias lines up with the start of the replacement. */
  ghost predicate NoneEntersReplacement(r: Redactor) {
    forall a <- r.aliases :: forall j :: 0 <= j < |a| ==> !Comparable(r, a[j..], REPLACEMENT)
  }

  /** No alias lines up with a tail of the replacement. */
  ghost predicate NoneLeavesReplacement(r: Redactor) {
    forall a <- r.aliases :: forall p :: 0 <= p < |REPLACEMENT| ==> !Comparable(r, REPLACEMENT[p..], a)
  }

  ghost predicate NoOverlap(r: Redactor) {
    NoneEntersReplacement(r) && NoneLeavesReplacement(r)
  }

  /** The condition in the words of a caller: no bracket in an alias, and no alias inside the replacement. */
  ghost predicate BracketFree(r: Redactor) {
    forall a <- r.aliases :: forall k :: 0 <= k < |a| ==> a[k] != '[' && a[k] != ']'
  }

  lemma BracketFreeDoesNotOverlap(r: Redactor)
    requires NonEmpty(r) && BracketFree(r) && Clean(r, REPLACEMENT)
    ensures NoOverlap(r)
  {
    var n := |REPLACEMENT|;
    forall a, j | a in r.aliases && 0 <= j < |a|
      ensures !Comparable(r, a[j..], REPLACEMENT)
    {
      assert a[j..][0] == a[j] && REPLACEMENT[0] == '[';
    }
    forall a, p | a in r.aliases && 0 <= p < n
      ensures !Comparable(r, REPLACEMENT[p..], a)
    {
      assert !OccursAt(r, REPLACEMENT, p, a);
      assert REPLACEMENT[p..][n - 1 - p] == ']';
    }
  }

  // ----- The order of the aliases -----

  /** Longer aliases come first; equally long ones in byte order. */
  predicate Precedes(a: string, b: string) {
    |a| > |b| || (|a| == |b| && Less(a, b))
  }

  ghost predicate InOrder(aliases: seq<string>) {
    forall i, j :: 0 <= i < j < |aliases| ==> Precedes(aliases[i], aliases[j])
  }

  function Inserted(a: string, aliases: seq<string>): seq<string> {
    if aliases == [] || Precedes(a, aliases[0]) then [a] + aliases
    else if a == aliases[0] then aliases
    else [aliases[0]] + Inserted(a, aliases[1..])
  }

  /** The aliases as they are tried: each once, in order. */
  function Arranged(values: seq<string>): seq<string> {
    if values == [] then [] else Inserted(values[0], Arranged(values[1..]))
  }

  lemma {:induction false} InsertedHolds(a: string, aliases: seq<string>, x: string)
    ensures x in Inserted(a, aliases) <==> x == a || x in aliases
  {
    if aliases != [] && !Precedes(a, aliases[0]) && a != aliases[0] {
      InsertedHolds(a, aliases[1..], x);
      assert aliases == [aliases[0]] + aliases[1..];
    }
  }

  lemma PrecedesIsTransitive(a: string, b: string, c: string)
    requires Precedes(a, b) && Precedes(b, c)
    ensures Precedes(a, c)
  {
    if |a| == |b| == |c| {
      LessIsTransitive(a, b, c);
    }
  }

  lemma {:induction false} InsertedKeepsOrder(a: string, aliases: seq<string>)
    requires InOrder(aliases)
    ensures InOrder(Inserted(a, aliases))
  {
    if aliases == [] || a == aliases[0] {
    } else if Precedes(a, aliases[0]) {
      forall k | 0 <= k < |aliases| ensures Precedes(a, aliases[k]) {
        if k > 0 {
          PrecedesIsTransitive(a, aliases[0], aliases[k]);
        }
      }
    } else {
      var rest := Inserted(a, aliases[1..]);
      InsertedKeepsOrder(a, aliases[1..]);
      LessIsTotal(a, aliases[0]);
      forall x | x in rest ensures Precedes(aliases[0], x) {
        InsertedHolds(a, aliases[1..], x);
      }
    }
  }

  /** Arranging keeps every alias, once, and puts no alias before a longer one. */
  lemma {:induction false} ArrangedIsLongestFirst(values: seq<string>, foldCase: bool)
    ensures InOrder(Arranged(values)) && LongestFirst(Redactor(Arranged(values), foldCase))
    ensures forall x :: x in Arranged(values) <==> x in values
    ensures forall i, j :: 0 <= i < j < |Arranged(values)| ==> Arranged(values)[i] != Arranged(values)[j]
  {
    ArrangedIsInOrder(values);
    forall x ensures x in Arranged(values) <==> x in values {
      ArrangedHolds(values, x);
    }
    forall i, j | 0 <= i < j < |Arranged(values)| ensures Arranged(values)[i] != Arranged(values)[j] {
      PrecedesIsStrict(Arranged(values)[i], Arranged(values)[j]);
    }
  }

  lemma PrecedesIsStrict(a: string, b: string)
    requires Precedes(a, b)
    ensures a != b
  {
    if |a| == |b| {
      LessIsStrict(a, b);
    }
  }

  lemma {:induction false} ArrangedIsInOrder(values: seq<string>)
    ensures InOrder(Arranged(values))
  {
    if values != [] {
      ArrangedIsInOrder(values[1..]);
      InsertedKeepsOrder(values[0], Arranged(values[1..]));
    }
  }

  lemma {:induction false} ArrangedHolds(values: seq<string>, x: string)
    ensures x in Arranged(values) <==> x in values
  {
    if values != [] {
      ArrangedHolds(values[1..], x);
      InsertedHolds(values[0], Arranged(values[1..]), x);
      assert values == [values[0]] + values[1..];
    }
  }

  // ----- Complete aliases -----

  /** The length of the first listed alias that v starts with, or 0. */
  function MatchFrom(r: Redactor, v: string, i: nat): (n: nat)
    requires i <= |r.aliases|
    ensures n <= |v|
    decreases |r.aliases| - i
  {
    if i == |r.aliases| then 0
    else if HasPrefix(r, v, r.aliases[i]) then |r.aliases[i]|
    else MatchFrom(r, v, i + 1)
  }

  function Match(r: Redactor, v: string): (n: nat)
    ensures n <= |v|
  {
    MatchFrom(r, v, 0)
  }

  function Redact(r: Redactor, v: string): string {
    if v == "" then ""
    else if Match(r, v) > 0 then REPLACEMENT + Redact(r, v[Match(r, v)..])
    else [v[0]] + Redact(r, v[1..])
  }

  lemma {:induction false} NoMatchFrom(r: Redactor, v: string, i: nat, a: string)
    requires NonEmpty(r) && i <= |r.aliases| && a in r.aliases[i..]
    requires HasPrefix(r, v, a)
    ensures MatchFrom(r, v, i) > 0
    decreases |r.aliases| - i
  {
    assert r.aliases[i] in r.aliases;
    if !HasPrefix(r, v, r.aliases[i]) {
      NoMatchFrom(r, v, i + 1, a);
    }
  }

  /** Ordered longest first, the match is the longest alias that begins here. */
  lemma {:induction false} MatchIsLongest(r: Redactor, v: string, i: nat, k: nat)
    requires LongestFirst(r) && i <= k < |r.aliases|
    requires HasPrefix(r, v, r.aliases[k])
    ensures MatchFrom(r, v, i) >= |r.aliases[k]|
    decreases k - i
  {
    if !HasPrefix(r, v, r.aliases[i]) {
      MatchIsLongest(r, v, i + 1, k);
    }
  }

  /** A tail of an alias that begins the redacted text also begins the original text. */
  lemma {:induction false} PrefixSurvives(r: Redactor, v: string, a: string, j: nat)
    requires NoOverlap(r) && a in r.aliases && j <= |a|
    requires HasPrefix(r, Redact(r, v), a[j..])
    ensures HasPrefix(r, v, a[j..])
    decreases |v|
  {
    if j < |a| {
      var s, w := a[j..], Redact(r, v);
      if Match(r, v) > 0 {
        StartsLikeReplacement(r, Redact(r, v[Match(r, v)..]), s);
      } else {
        var rest := Redact(r, v[1..]);
        assert w[0] == v[0] && w[1..] == rest;
        assert s[1..] == a[j + 1..];
        PrefixOfTails(r, w, s);
        PrefixSurvives(r, v[1..], a, j + 1);
        PrefixOfTails(r, v, s);
      }
    }
  }

  lemma StartsLikeReplacement(r: Redactor, rest: string, s: string)
    ensures Comparable(r, REPLACEMENT + rest, s) ==> Comparable(r, s, REPLACEMENT)
  {
    assert forall k :: 0 <= k < |REPLACEMENT| ==> (REPLACEMENT + rest)[k] == REPLACEMENT[k];
  }

  /** Matching a non-empty prefix is matching its first byte and then its tail. */
  lemma PrefixOfTails(r: Redactor, v: string, s: string)
    requires v != "" && s != ""
    ensures HasPrefix(r, v, s) <==>
            Norm(r.foldCase, v[0]) == Norm(r.foldCase, s[0]) && HasPrefix(r, v[1..], s[1..])
  {
    if Norm(r.foldCase, v[0]) == Norm(r.foldCase, s[0]) && HasPrefix(r, v[1..], s[1..]) {
      forall k | 0 <= k < |v| && k < |s|
        ensures Norm(r.foldCase, v[k]) == Norm(r.foldCase, s[k])
      {
        if k > 0 {
          assert v[1..][k - 1] == v[k] && s[1..][k - 1] == s[k];
        }
      }
    } else if HasPrefix(r, v, s) {
      forall k | 0 <= k < |v[1..]| && k < |s[1..]|
        ensures Norm(r.foldCase, v[1..][k]) == Norm(r.foldCase, s[1..][k])
      {
        assert v[1..][k] == v[k + 1] && s[1..][k] == s[k + 1];
      }
    }
  }

  /** Putting a replacement between two clean texts never makes an alias, not even across its seams. */
  lemma CleanJoin(r: Redactor, x: string, y: string)
    requires NoOverlap(r) && Clean(r, x) && Clean(r, y)
    ensures Clean(r, x + REPLACEMENT + y)
  {
    var w := x + REPLACEMENT + y;
    forall a, i: nat | a in r.aliases && OccursAt(r, w, i, a)
      ensures false
    {
      OccurrenceMeetsReplacement(r, x, y, a, i);
    }
  }

  lemma OccurrenceMeetsReplacement(r: Redactor, x: string, y: string, a: string, i: nat)
    requires a in r.aliases && OccursAt(r, x + REPLACEMENT + y, i, a)
    ensures
      || OccursAt(r, x, i, a)
      || (i < |x| && |x| - i < |a| && Comparable(r, a[|x| - i..], REPLACEMENT))
      || (|x| <= i < |x| + |REPLACEMENT| && Comparable(r, REPLACEMENT[i - |x|..], a))
      || (|x| + |REPLACEMENT| <= i && OccursAt(r, y, i - |x| - |REPLACEMENT|, a))
  {
    var w, n := x + REPLACEMENT + y, |REPLACEMENT|;
    Spread(r, w, i, a);
    if i + |a| <= |x| {
      assert forall k :: 0 <= k < |a| ==> x[i..][k] == w[i + k];
    } else if i < |x| {
      var d := |x| - i;
      assert forall k :: 0 <= k < |a| - d && k < n ==> a[d..][k] == a[d + k] && REPLACEMENT[k] == w[i + (d + k)];
    } else if i < |x| + n {
      var tail := REPLACEMENT[i - |x|..];
      assert forall k :: 0 <= k < |a| && k < |tail| ==> tail[k] == w[i + k];
    } else {
      var tail := y[i - |x| - n..];
      assert forall k :: 0 <= k < |a| ==> tail[k] == w[i + k];
    }
  }

  /** An occurrence, byte by byte. */
  lemma Spread(r: Redactor, w: string, i: nat, a: string)
    requires OccursAt(r, w, i, a)
    ensures i + |a| <= |w|
    ensures forall k :: 0 <= k < |a| ==> Norm(r.foldCase, w[i + k]) == Norm(r.foldCase, a[k])
  {
    assert forall k :: 0 <= k < |a| ==> w[i..][k] == w[i + k];
  }

  /** Redaction is complete: no alias is left anywhere in its output. */
  lemma {:induction false} RedactIsClean(r: Redactor, v: string)
    requires NonEmpty(r) && NoOverlap(r)
    ensures Clean(r, Redact(r, v))
    decreases |v|
  {
    var w := Redact(r, v);
    if v == "" {
    } else if Match(r, v) > 0 {
      RedactIsClean(r, v[Match(r, v)..]);
      CleanJoin(r, "", Redact(r, v[Match(r, v)..]));
      assert w == "" + REPLACEMENT + Redact(r, v[Match(r, v)..]);
    } else {
      forall a, i: nat | a in r.aliases && OccursAt(r, w, i, a)
        ensures false
      {
        if i == 0 {
          assert w[0..] == w && a[0..] == a && r.aliases[0..] == r.aliases;
          PrefixSurvives(r, v, a, 0);
          NoMatchFrom(r, v, 0, a);
        } else {
          assert w[1..] == Redact(r, v[1..]) && w[i..] == w[1..][i - 1..];
          assert OccursAt(r, w[1..], i - 1, a);
          RedactIsClean(r, v[1..]);
        }
      }
    }
  }

  lemma MatchMeansOccurrence(r: Redactor, v: string, i: nat) returns (a: string)
    requires i <= |r.aliases| && MatchFrom(r, v, i) > 0
    ensures a in r.aliases && OccursAt(r, v, 0, a) && |a| == MatchFrom(r, v, i)
    decreases |r.aliases| - i
  {
    if HasPrefix(r, v, r.aliases[i]) {
      a := r.aliases[i];
      assert v[0..] == v;
    } else {
      a := MatchMeansOccurrence(r, v, i + 1);
    }
  }

  /** Text without an alias is left as it is. */
  lemma {:induction false} RedactKeepsClean(r: Redactor, v: string)
    requires Clean(r, v)
    ensures Redact(r, v) == v
    decreases |v|
  {
    if v != "" {
      if Match(r, v) > 0 {
        var a := MatchMeansOccurrence(r, v, 0);
        assert false;
      }
      CleanTail(r, v, 1);
      RedactKeepsClean(r, v[1..]);
    }
  }

  lemma CleanTail(r: Redactor, v: string, d: nat)
    requires Clean(r, v) && d <= |v|
    ensures Clean(r, v[d..])
  {
    forall a, i: nat | a in r.aliases && OccursAt(r, v[d..], i, a)
      ensures false
    {
      assert v[d..][i..] == v[d + i..];
      assert OccursAt(r, v, d + i, a);
    }
  }

  lemma CleanHead(r: Redactor, v: string, n: nat)
    requires Clean(r, v) && n <= |v|
    ensures Clean(r, v[..n])
  {
    forall a, i: nat | a in r.aliases && OccursAt(r, v[..n], i, a)
      ensures false
    {
      Spread(r, v[..n], i, a);
      assert forall k :: 0 <= k < |a| ==> v[i..][k] == v[..n][i + k];
      assert OccursAt(r, v, i, a);
    }
  }

  /** No alias occurs in v before position i, and none longer than a occurs at i. */
  ghost predicate LeftmostLongest(r: Redactor, v: string, i: nat, a: string) {
    && a in r.aliases && OccursAt(r, v, i, a)
    && (forall b, j: nat :: b in r.aliases && OccursAt(r, v, j, b) ==> i <= j)
    && (forall b :: b in r.aliases && OccursAt(r, v, i, b) ==> |b| <= |a|)
  }

  lemma MatchIsThere(r: Redactor, v: string, i: nat, a: string)
    requires NonEmpty(r) && LongestFirst(r) && LeftmostLongest(r, v, i, a)
    ensures i + |a| <= |v| && Match(r, v[i..]) == |a| > 0
  {
    var w := v[i..];
    assert r.aliases[0..] == r.aliases;
    NoMatchFrom(r, w, 0, a);
    var b := MatchMeansOccurrence(r, w, 0);
    assert w[0..] == w && OccursAt(r, v, i, b);
    var k :| 0 <= k < |r.aliases| && r.aliases[k] == a;
    MatchIsLongest(r, w, 0, k);
  }

  lemma NoMatchBefore(r: Redactor, v: string, i: nat, a: string, j: nat)
    requires LeftmostLongest(r, v, i, a) && j < i
    ensures Match(r, v[j..]) == 0
  {
    forall b | b in r.aliases ensures !HasPrefix(r, v[j..][0..], b) {
      assert v[j..][0..] == v[j..];
      assert !OccursAt(r, v, j, b);
    }
    if Match(r, v[j..]) > 0 {
      var b := MatchMeansOccurrence(r, v[j..], 0);
    }
  }

  lemma RedactUnfolds(r: Redactor, value: string, offset: nat, out: string)
    requires offset < |value|
    ensures var m := Match(r, value[offset..]);
            && offset + m <= |value|
            && out + Redact(r, value[offset..])
               == if m > 0 then out + REPLACEMENT + Redact(r, value[offset + m..])
                  else out + [value[offset]] + Redact(r, value[offset + 1..])
  {
    var m := Match(r, value[offset..]);
    if m > 0 {
      assert value[offset..][m..] == value[offset + m..];
    } else {
      assert value[offset..][1..] == value[offset + 1..];
    }
  }

  lemma TakeOneMore(v: string, i: nat)
    requires i < |v|
    ensures v[..i] + [v[i]] == v[..i + 1]
  {
  }

  /** Characters where no alias begins are copied. */
  lemma {:induction false} RedactSkips(r: Redactor, v: string, i: nat)
    requires i <= |v| && forall j :: 0 <= j < i ==> Match(r, v[j..]) == 0
    ensures Redact(r, v) == v[..i] + Redact(r, v[i..])
  {
    if i == 0 {
      assert v[0..] == v;
    } else {
      RedactSkips(r, v, i - 1);
      RedactUnfolds(r, v, i - 1, v[..i - 1]);
      TakeOneMore(v, i - 1);
    }
  }

  /** Redaction replaces the leftmost occurrence, the longest one there, and goes on after it. */
  lemma RedactLeftmostLongest(r: Redactor, v: string, i: nat, a: string)
    requires NonEmpty(r) && LongestFirst(r) && LeftmostLongest(r, v, i, a)
    ensures i + |a| <= |v|
    ensures Redact(r, v) == v[..i] + REPLACEMENT + Redact(r, v[i + |a|..])
  {
    forall j | 0 <= j < i ensures Match(r, v[j..]) == 0 {
      NoMatchBefore(r, v, i, a, j);
    }
    RedactSkips(r, v, i);
    MatchIsThere(r, v, i, a);
    assert v[i..][|a|..] == v[i + |a|..];
  }

  /** An alias inside the replacement always leaks: redacting it writes it. */
  lemma AliasInsideReplacementLeaks(r: Redactor, a: string)
    requires NonEmpty(r) && a in r.aliases && !Clean(Redactor([a], r.foldCase), REPLACEMENT)
    ensures !Clean(r, Redact(r, a))
  {
    assert r.aliases[0..] == r.aliases;
    NoMatchFrom(r, a, 0, a);
    var n := Match(r, a);
    var b, i: nat :| b in [a] && OccursAt(Redactor([a], r.foldCase), REPLACEMENT, i, b);
    var w := REPLACEMENT + Redact(r, a[n..]);
    assert w == Redact(r, a);
    Spread(Redactor([a], r.foldCase), REPLACEMENT, i, a);
    assert forall k :: 0 <= k < |a| ==> w[i..][k] == REPLACEMENT[i + k];
    assert OccursAt(r, w, i, a);
  }

  /** Without brackets in the aliases, redaction is complete exactly when the replacement holds no alias. */
  lemma RedactionIsComplete(r: Redactor)
    requires NonEmpty(r) && BracketFree(r)
    ensures (forall v :: Clean(r, Redact(r, v))) <==> Clean(r, REPLACEMENT)
  {
    if Clean(r, REPLACEMENT) {
      BracketFreeDoesNotOverlap(r);
      forall v ensures Clean(r, Redact(r, v)) {
        RedactIsClean(r, v);
      }
    } else {
      var a, i: nat :| a in r.aliases && OccursAt(r, REPLACEMENT, i, a);
      assert a in Redactor([a], r.foldCase).aliases && OccursAt(Redactor([a], r.foldCase), REPLACEMENT, i, a);
      AliasInsideReplacementLeaks(r, a);
    }
  }

  /** How a redactor with one exact alias goes on. */
  lemma OneAliasUnfolds(a: string, v: string)
    requires a != "" && v != ""
    ensures var r := Redactor([a], false);
            && (HasPrefix(r, v, a) ==> Match(r, v) == |a| && Redact(r, v) == REPLACEMENT + Redact(r, v[|a|..]))
            && (!HasPrefix(r, v, a) ==> Match(r, v) == 0 && Redact(r, v) == [v[0]] + Redact(r, v[1..]))
  {
    var r := Redactor([a], false);
    assert MatchFrom(r, v, 1) == 0;
  }

  lemma NoXInReplacement()
    ensures 'x' !in REPLACEMENT && 'z' !in REPLACEMENT
    ensures REPLACEMENT[0] == '[' && REPLACEMENT[|REPLACEMENT| - 1] == ']'
  {
    assert REPLACEMENT == "[private prompt input]";
  }

  /** An alias with an x is not in the replacement. */
  lemma ForeignAliasIsNotInReplacement(a: string, k: nat)
    requires k < |a| && a[k] == 'x'
    ensures Clean(Redactor([a], false), REPLACEMENT)
  {
    var r := Redactor([a], false);
    NoXInReplacement();
    forall b, i: nat | b in r.aliases ensures !OccursAt(r, REPLACEMENT, i, b) {
      assert i + k < |REPLACEMENT| ==> REPLACEMENT[i..][k] == REPLACEMENT[i + k] && REPLACEMENT[i + k] in REPLACEMENT;
    }
  }

  lemma EnteringAlias()
    ensures var r := Redactor(["x["], false); !NoneEntersReplacement(r) && NoneLeavesReplacement(r)
  {
    var (a, r) := ("x[", Redactor(["x["], false));
    NoXInReplacement();
    assert a[1..][0] == REPLACEMENT[0] && Comparable(r, a[1..], REPLACEMENT);
    forall p | 0 <= p < |REPLACEMENT| ensures !Comparable(r, REPLACEMENT[p..], a) {
      assert REPLACEMENT[p..][0] == REPLACEMENT[p] && REPLACEMENT[p] in REPLACEMENT;
    }
  }

  lemma LeavingAlias()
    ensures var r := Redactor(["]x"], false); NoneEntersReplacement(r) && !NoneLeavesReplacement(r)
  {
    var (a, r, n) := ("]x", Redactor(["]x"], false), |REPLACEMENT|);
    NoXInReplacement();
    assert REPLACEMENT[n - 1..][0] == a[0] && Comparable(r, REPLACEMENT[n - 1..], a);
    forall j | 0 <= j < |a| ensures !Comparable(r, a[j..], REPLACEMENT) {
      assert a[j..][0] == a[j];
    }
  }

  lemma EnteringOutput()
    ensures Redact(Redactor(["x["], false), "xx[") == "x" + REPLACEMENT
  {
    var (a, v) := ("x[", "xx[");
    assert v[1..] == a && a[2..] == "" && v[1] != a[1];
    OneAliasUnfolds(a, v);
    OneAliasUnfolds(a, a);
  }

  lemma LeavingOutput()
    ensures Redact(Redactor(["]x"], false), "]xx") == REPLACEMENT + "x"
  {
    var (a, v) := ("]x", "]xx");
    assert v[2..] == "x" && "x"[1..] == "";
    OneAliasUnfolds(a, v);
    OneAliasUnfolds(a, "x");
  }

  lemma EnteringOccurs()
    ensures !Clean(Redactor(["x["], false), "x" + REPLACEMENT)
  {
    var (a, w) := ("x[", "x" + REPLACEMENT);
    var r := Redactor([a], false);
    NoXInReplacement();
    assert w[0] == a[0] && w[1] == REPLACEMENT[0] == a[1] && w[0..] == w;
    assert OccursAt(r, w, 0, a);
  }

  lemma LeavingOccurs()
    ensures !Clean(Redactor(["]x"], false), REPLACEMENT + "x")
  {
    var (a, w, n) := ("]x", REPLACEMENT + "x", |REPLACEMENT|);
    var r := Redactor([a], false);
    NoXInReplacement();
    assert w[n - 1..] == a;
    assert OccursAt(r, w, n - 1, a);
  }

  /** The replacement is clean, and still text v leaks an alias. */
  ghost predicate Leaks(r: Redactor, v: string) {
    NonEmpty(r) && LongestFirst(r) && Clean(r, REPLACEMENT) && !Clean(r, Redact(r, v))
  }

  lemma OneAliasLeaks(a: string, v: string)
    requires a != "" && Clean(Redactor([a], false), REPLACEMENT)
    requires !Clean(Redactor([a], false), Redact(Redactor([a], false), v))
    ensures Leaks(Redactor([a], false), v)
  {
  }

  /** An alias that runs into the replacement reappears across the seam before it. */
  lemma AliasBeforeTheSeamLeaks()
    ensures exists r, v :: !NoneEntersReplacement(r) && NoneLeavesReplacement(r) && Leaks(r, v)
  {
    EnteringOutput();
    EnteringOccurs();
    ForeignAliasIsNotInReplacement("x[", 0);
    OneAliasLeaks("x[", "xx[");
    EnteringAlias();
  }

  /** An alias that continues the replacement reappears across the seam after it. */
  lemma AliasAcrossTheSeamLeaks()
    ensures exists r, v :: NoneEntersReplacement(r) && !NoneLeavesReplacement(r) && Leaks(r, v)
  {
    LeavingOutput();
    LeavingOccurs();
    ForeignAliasIsNotInReplacement("]x", 1);
    OneAliasLeaks("]x", "]xx");
    LeavingAlias();
  }

  /** The overlap condition is not necessary: an overlapping alias that a shorter one hides never leaks. */
  lemma HiddenOverlapDoesNotLeak(v: string)
    ensures var r := Redactor(["z[", "z"], false);
            NonEmpty(r) && LongestFirst(r) && !NoOverlap(r) && Clean(r, Redact(r, v))
  {
    var r := Redactor(["z[", "z"], false);
    assert r.aliases[0] == "z[" && "z["[1..][0] == REPLACEMENT[0] && Comparable(r, "z["[1..], REPLACEMENT);
    var w := Redact(r, v);
    NoZIsLeft(v);
    forall a, i: nat | a in r.aliases ensures !OccursAt(r, w, i, a) {
      assert i < |w| ==> w[i..][0] == w[i];
    }
  }

  lemma {:induction false} NoZIsLeft(v: string)
    ensures 'z' !in Redact(Redactor(["z[", "z"], false), v)
    decreases |v|
  {
    var r := Redactor(["z[", "z"], false);
    NoXInReplacement();
    if v != "" {
      if Match(r, v) > 0 {
        NoZIsLeft(v[Match(r, v)..]);
      } else {
        assert MatchFrom(r, v, 2) == 0 && !HasPrefix(r, v, r.aliases[1]);
        assert v[0] != 'z';
        NoZIsLeft(v[1..]);
      }
    }
  }

  // ----- Partial aliases at the ends of a fragment -----

  /** A proper tail of the alias, of a telling length, begins v. */
  predicate LeadsWith(r: Redactor, v: string, alias: string, size: nat) {
    MIN_FRAGMENT <= size < |alias| && HasPrefix(r, v, alias[|alias| - size..])
  }

  /** A proper head of the alias, of a telling length, ends v. */
  predicate TrailsWith(r: Redactor, v: string, alias: string, size: nat) {
    MIN_FRAGMENT <= size < |alias| && HasSuffix(r, v, alias[..size])
  }

  predicate LeadFragment(r: Redactor, v: string, size: nat) {
    exists a <- r.aliases :: LeadsWith(r, v, a, size)
  }

  predicate TrailFragment(r: Redactor, v: string, size: nat) {
    exists a <- r.aliases :: TrailsWith(r, v, a, size)
  }

  /** The longest leading fragment of at most n bytes, or 0. */
  function Leading(r: Redactor, v: string, n: nat): (size: nat)
    ensures size <= n
  {
    if n < MIN_FRAGMENT then 0 else if LeadFragment(r, v, n) then n else Leading(r, v, n - 1)
  }

  function Trailing(r: Redactor, v: string, n: nat): (size: nat)
    ensures size <= n
  {
    if n < MIN_FRAGMENT then 0 else if TrailFragment(r, v, n) then n else Trailing(r, v, n - 1)
  }

  /** Replaces what the cut ends of a redacted text could still give away. */
  function Trim(value: string, leading: nat, trailing: nat): string {
    if leading == 0 && trailing == 0 then value
    else if leading + trailing >= |value| then REPLACEMENT
    else
      (if leading > 0 then REPLACEMENT else "") + value[leading..|value| - trailing] +
      (if trailing > 0 then REPLACEMENT else "")
  }

  function RedactFragment(r: Redactor, v: string): string {
    var value := Redact(r, v);
    Trim(value, Leading(r, value, |value|), Trailing(r, value, |value|))
  }

  /** Nothing of an alias can be read off v: no alias, and no telling fragment at either end. */
  ghost predicate Tidy(r: Redactor, v: string) {
    Clean(r, v) && forall size: nat :: !LeadFragment(r, v, size) && !TrailFragment(r, v, size)
  }

  lemma {:induction false} LeadingIsLargest(r: Redactor, v: string, n: nat, size: nat)
    requires LeadFragment(r, v, size) && size <= n
    ensures size <= Leading(r, v, n)
  {
    if !LeadFragment(r, v, n) {
      LeadingIsLargest(r, v, n - 1, size);
    }
  }

  lemma {:induction false} TrailingIsLargest(r: Redactor, v: string, n: nat, size: nat)
    requires TrailFragment(r, v, size) && size <= n
    ensures size <= Trailing(r, v, n)
  {
    if !TrailFragment(r, v, n) {
      TrailingIsLargest(r, v, n - 1, size);
    }
  }

  lemma LeadOfJoin(r: Redactor, x: string, y: string, size: nat)
    requires NoOverlap(r) && LeadFragment(r, x + REPLACEMENT + y, size)
    ensures LeadFragment(r, x, size)
  {
    var a :| a in r.aliases && LeadsWith(r, x + REPLACEMENT + y, a, size);
    if size > |x| {
      LeadMeetsReplacement(r, x, y, a, size);
      assert false;
    }
    assert forall k :: 0 <= k < |x| ==> (x + REPLACEMENT + y)[k] == x[k];
    assert LeadsWith(r, x, a, size);
  }

  lemma LeadMeetsReplacement(r: Redactor, x: string, y: string, a: string, size: nat)
    requires LeadsWith(r, x + REPLACEMENT + y, a, size) && size > |x|
    ensures Comparable(r, a[|a| - size + |x|..], REPLACEMENT)
  {
    var w, s, t := x + REPLACEMENT + y, a[|a| - size..], a[|a| - size + |x|..];
    forall k | 0 <= k < |t| && k < |REPLACEMENT|
      ensures Norm(r.foldCase, t[k]) == Norm(r.foldCase, REPLACEMENT[k])
    {
      assert t[k] == s[|x| + k] && w[|x| + k] == REPLACEMENT[k];
    }
  }

  lemma TrailOfJoin(r: Redactor, x: string, y: string, size: nat)
    requires NoOverlap(r) && TrailFragment(r, x + REPLACEMENT + y, size)
    ensures TrailFragment(r, y, size)
  {
    var w, n := x + REPLACEMENT + y, |REPLACEMENT|;
    var a :| a in r.aliases && TrailsWith(r, w, a, size);
    if |y| < size <= |y| + n {
      TrailMeetsTail(r, x, y, a, size);
      assert false;
    } else if |y| + n < size {
      TrailSpansReplacement(r, x, y, a, size);
      assert false;
    }
    assert w[|w| - size..] == y[|y| - size..];
    assert TrailsWith(r, y, a, size);
  }

  lemma TrailMeetsTail(r: Redactor, x: string, y: string, a: string, size: nat)
    requires TrailsWith(r, x + REPLACEMENT + y, a, size)
    requires |y| < size <= |y| + |REPLACEMENT|
    ensures Comparable(r, REPLACEMENT[|REPLACEMENT| + |y| - size..], a)
  {
    var w, p := x + REPLACEMENT + y, |REPLACEMENT| + |y| - size;
    var tail, end := w[|w| - size..], REPLACEMENT[p..];
    forall k | 0 <= k < |end| && k < |a|
      ensures Norm(r.foldCase, end[k]) == Norm(r.foldCase, a[k])
    {
      assert tail[k] == w[|x| + p + k] == end[k] && a[..size][k] == a[k];
    }
  }

  lemma TrailSpansReplacement(r: Redactor, x: string, y: string, a: string, size: nat)
    requires TrailsWith(r, x + REPLACEMENT + y, a, size)
    requires |y| + |REPLACEMENT| < size
    ensures Comparable(r, a[size - |y| - |REPLACEMENT|..], REPLACEMENT)
  {
    var w, j := x + REPLACEMENT + y, size - |y| - |REPLACEMENT|;
    var tail, t := w[|w| - size..], a[j..];
    forall k | 0 <= k < |t| && k < |REPLACEMENT|
      ensures Norm(r.foldCase, t[k]) == Norm(r.foldCase, REPLACEMENT[k])
    {
      assert t[k] == a[..size][j + k] && tail[j + k] == w[|x| + k] == REPLACEMENT[k];
    }
  }

  lemma LeadOfHead(r: Redactor, v: string, n: nat, size: nat)
    requires n <= |v| && LeadFragment(r, v[..n], size)
    ensures LeadFragment(r, v, size)
  {
    var a :| a in r.aliases && LeadsWith(r, v[..n], a, size);
    assert LeadsWith(r, v, a, size);
  }

  lemma TrailOfTail(r: Redactor, v: string, d: nat, size: nat)
    requires d <= |v| && TrailFragment(r, v[d..], size)
    ensures TrailFragment(r, v, size)
  {
    var a :| a in r.aliases && TrailsWith(r, v[d..], a, size);
    assert v[d..][|v| - d - size..] == v[|v| - size..];
    assert TrailsWith(r, v, a, size);
  }

  /** The replacement, alone or at an end, shows nothing. */
  lemma JoinIsTidy(r: Redactor, x: string, y: string)
    requires NoOverlap(r) && Clean(r, x) && Clean(r, y)
    requires forall size: nat :: !LeadFragment(r, x, size) && !TrailFragment(r, y, size)
    ensures Tidy(r, x + REPLACEMENT + y)
  {
    CleanJoin(r, x, y);
    forall size: nat
      ensures !LeadFragment(r, x + REPLACEMENT + y, size) && !TrailFragment(r, x + REPLACEMENT + y, size)
    {
      if LeadFragment(r, x + REPLACEMENT + y, size) {
        LeadOfJoin(r, x, y, size);
      }
      if TrailFragment(r, x + REPLACEMENT + y, size) {
        TrailOfJoin(r, x, y, size);
      }
    }
  }

  lemma EmptyIsTidy(r: Redactor)
    requires NonEmpty(r)
    ensures Tidy(r, "")
  {
  }

  /** Trimming a clean text by its longest fragments leaves nothing to trim. */
  lemma TrimIsTidy(r: Redactor, value: string, leading: nat, trailing: nat)
    requires NonEmpty(r) && NoOverlap(r) && Clean(r, value)
    requires leading <= |value| && trailing <= |value|
    requires forall size: nat :: LeadFragment(r, value, size) ==> 0 < size <= leading
    requires forall size: nat :: TrailFragment(r, value, size) ==> 0 < size <= trailing
    ensures Tidy(r, Trim(value, leading, trailing))
  {
    EmptyIsTidy(r);
    if leading == 0 && trailing == 0 {
    } else if leading + trailing >= |value| {
      JoinIsTidy(r, "", "");
      assert "" + REPLACEMENT + "" == REPLACEMENT;
    } else {
      var mid := value[leading..|value| - trailing];
      CleanHead(r, value, |value| - trailing);
      CleanTail(r, value[..|value| - trailing], leading);
      assert mid == value[..|value| - trailing][leading..];
      if leading > 0 && trailing > 0 {
        JoinIsTidyBothSides(r, mid);
      } else if leading > 0 {
        assert mid == value[leading..];
        forall size: nat ensures !TrailFragment(r, mid, size) {
          if TrailFragment(r, mid, size) {
            TrailOfTail(r, value, leading, size);
          }
        }
        JoinIsTidy(r, "", mid);
        assert "" + REPLACEMENT + mid == REPLACEMENT + mid + "";
      } else {
        assert mid == value[..|value| - trailing];
        forall size: nat ensures !LeadFragment(r, mid, size) {
          if LeadFragment(r, mid, size) {
            LeadOfHead(r, value, |value| - trailing, size);
          }
        }
        JoinIsTidy(r, mid, "");
        assert mid + REPLACEMENT + "" == "" + mid + REPLACEMENT;
      }
    }
  }

  lemma JoinIsTidyBothSides(r: Redactor, mid: string)
    requires NonEmpty(r) && NoOverlap(r) && Clean(r, mid)
    ensures Tidy(r, REPLACEMENT + mid + REPLACEMENT)
  {
    EmptyIsTidy(r);
    var w := REPLACEMENT + mid + REPLACEMENT;
    CleanJoin(r, mid, "");
    assert mid + REPLACEMENT + "" == mid + REPLACEMENT;
    CleanJoin(r, "", mid + REPLACEMENT);
    assert w == "" + REPLACEMENT + (mid + REPLACEMENT);
    assert w == (REPLACEMENT + mid) + REPLACEMENT + "";
    forall size: nat ensures !LeadFragment(r, w, size) && !TrailFragment(r, w, size) {
      if LeadFragment(r, w, size) {
        LeadOfJoin(r, "", mid + REPLACEMENT, size);
      }
      if TrailFragment(r, w, size) {
        TrailOfJoin(r, REPLACEMENT + mid, "", size);
      }
    }
  }

  /** Fragment redaction is complete, at the ends as well as inside. */
  lemma RedactFragmentIsTidy(r: Redactor, v: string)
    requires NonEmpty(r) && NoOverlap(r)
    ensures Tidy(r, RedactFragment(r, v))
  {
    var value := Redact(r, v);
    RedactIsClean(r, v);
    var leading, trailing := Leading(r, value, |value|), Trailing(r, value, |value|);
    forall size: nat | LeadFragment(r, value, size) ensures 0 < size <= leading {
      LeadingIsLargest(r, value, |value|, size);
    }
    forall size: nat | TrailFragment(r, value, size) ensures 0 < size <= trailing {
      TrailingIsLargest(r, value, |value|, size);
    }
    TrimIsTidy(r, value, leading, trailing);
  }

  lemma {:induction false} NothingToTrim(r: Redactor, v: string, n: nat)
    requires forall size: nat :: !LeadFragment(r, v, size) && !TrailFragment(r, v, size)
    ensures Leading(r, v, n) == 0 && Trailing(r, v, n) == 0
  {
    if n >= MIN_FRAGMENT {
      NothingToTrim(r, v, n - 1);
    }
  }

  /** The fixed points of fragment redaction are exactly the texts that show nothing. */
  lemma FixedPointsAreTidy(r: Redactor, v: string)
    requires NonEmpty(r) && NoOverlap(r)
    ensures RedactFragment(r, v) == v <==> Tidy(r, v)
  {
    if Tidy(r, v) {
      RedactKeepsClean(r, v);
      NothingToTrim(r, v, |v|);
    } else {
      RedactFragmentIsTidy(r, v);
    }
  }

  lemma RedactFragmentIsIdempotent(r: Redactor, v: string)
    requires NonEmpty(r) && NoOverlap(r)
    ensures RedactFragment(r, RedactFragment(r, v)) == RedactFragment(r, v)
  {
    RedactFragmentIsTidy(r, v);
    FixedPointsAreTidy(r, RedactFragment(r, v));
  }

  // ----- Split texts -----

  /** Wherever an alias is split, one of its parts is long enough to tell. */
  ghost predicate Unsplittable(r: Redactor) {
    forall a <- r.aliases :: |a| == 1 || |a| >= 2 * MIN_FRAGMENT - 1
  }

  /** An alias in a joined text lies on one side, or shows a fragment on one side of the seam. */
  lemma OccurrenceInJoin(r: Redactor, x: string, y: string, a: string, i: nat)
    requires Unsplittable(r) && a in r.aliases && OccursAt(r, x + y, i, a)
    ensures || OccursAt(r, x, i, a)
            || (i >= |x| && OccursAt(r, y, i - |x|, a))
            || (i < |x| < i + |a| && (TrailFragment(r, x, |x| - i) || LeadFragment(r, y, i + |a| - |x|)))
  {
    var w := x + y;
    Spread(r, w, i, a);
    if i + |a| <= |x| {
      assert forall k :: 0 <= k < |a| ==> x[i..][k] == w[i + k];
    } else if i >= |x| {
      var j := i - |x|;
      assert forall k :: 0 <= k < |a| ==> y[j..][k] == w[i + k];
    } else {
      SeamShowsFragment(r, x, y, a, i);
    }
  }

  lemma SeamShowsFragment(r: Redactor, x: string, y: string, a: string, i: nat)
    requires Unsplittable(r) && a in r.aliases && OccursAt(r, x + y, i, a) && i < |x| < i + |a|
    ensures TrailFragment(r, x, |x| - i) || LeadFragment(r, y, i + |a| - |x|)
  {
    Spread(r, x + y, i, a);
    if |x| - i >= MIN_FRAGMENT {
      SeamTrails(r, x, y, a, i);
    } else {
      SeamLeads(r, x, y, a, i);
    }
  }

  lemma SeamTrails(r: Redactor, x: string, y: string, a: string, i: nat)
    requires OccursAt(r, x + y, i, a) && i + MIN_FRAGMENT <= |x| < i + |a|
    ensures TrailsWith(r, x, a, |x| - i)
  {
    Spread(r, x + y, i, a);
    var p := |x| - i;
    var (end, head) := (x[|x| - p..], a[..p]);
    forall k | 0 <= k < |end| && k < |head| ensures Norm(r.foldCase, end[k]) == Norm(r.foldCase, head[k]) {
      assert end[k] == (x + y)[i + k] && head[k] == a[k];
    }
  }

  lemma SeamLeads(r: Redactor, x: string, y: string, a: string, i: nat)
    requires OccursAt(r, x + y, i, a) && i < |x| && |x| + MIN_FRAGMENT <= i + |a|
    ensures LeadsWith(r, y, a, i + |a| - |x|)
  {
    Spread(r, x + y, i, a);
    var (p, q) := (|x| - i, i + |a| - |x|);
    var tail := a[|a| - q..];
    forall k | 0 <= k < |y| && k < |tail| ensures Norm(r.foldCase, y[k]) == Norm(r.foldCase, tail[k]) {
      assert tail[k] == a[p + k] && (x + y)[i + (p + k)] == y[k];
    }
  }

  /** A path split over two redacted fragments does not come together again. */
  lemma FragmentsJoinClean(r: Redactor, x: string, y: string)
    requires NonEmpty(r) && NoOverlap(r) && Unsplittable(r)
    ensures Clean(r, RedactFragment(r, x) + RedactFragment(r, y))
  {
    var (u, v) := (RedactFragment(r, x), RedactFragment(r, y));
    RedactFragmentIsTidy(r, x);
    RedactFragmentIsTidy(r, y);
    forall a, i: nat | a in r.aliases && OccursAt(r, u + v, i, a) ensures false {
      OccurrenceInJoin(r, u, v, a, i);
    }
  }

  lemma ShortPartIsKept(r: Redactor, a: string, x: string)
    requires r.aliases == [a] && NoOverlap(r) && |x| < |a| && |x| < MIN_FRAGMENT
    ensures RedactFragment(r, x) == x
  {
    assert NonEmpty(r);
    forall b, i: nat | b in r.aliases ensures !OccursAt(r, x, i, b) {
    }
    forall size: nat ensures !LeadFragment(r, x, size) && !TrailFragment(r, x, size) {
    }
    FixedPointsAreTidy(r, x);
  }

  lemma OccursInItself(r: Redactor, a: string)
    requires a in r.aliases
    ensures !Clean(r, a)
  {
    assert a[0..] == a;
    assert OccursAt(r, a, 0, a);
  }

  /** The halves of a shorter alias pass as they are, and come together again. */
  lemma ShortAliasComesTogether(r: Redactor, a: string)
    requires r.aliases == [a] && NoOverlap(r) && 2 <= |a| < 2 * MIN_FRAGMENT - 1
    ensures !Clean(r, RedactFragment(r, a[..|a| / 2]) + RedactFragment(r, a[|a| / 2..]))
  {
    var half := |a| / 2;
    ShortPartIsKept(r, a, a[..half]);
    ShortPartIsKept(r, a, a[half..]);
    assert a[..half] + a[half..] == a;
    OccursInItself(r, a);
  }

  /** For one alias: redacted fragments join clean exactly when it cannot be split into two parts that do not tell. */
  lemma OneAliasJoinsClean(r: Redactor, a: string)
    requires r.aliases == [a] && a != "" && NoOverlap(r)
    ensures (forall x, y :: Clean(r, RedactFragment(r, x) + RedactFragment(r, y))) <==> Unsplittable(r)
  {
    if Unsplittable(r) {
      forall x, y ensures Clean(r, RedactFragment(r, x) + RedactFragment(r, y)) {
        FragmentsJoinClean(r, x, y);
      }
    } else {
      ShortAliasComesTogether(r, a);
    }
  }

  // ----- The loops -----

  method RedactText(r: Redactor, value: string) returns (out: string)
    requires NonEmpty(r)
    ensures out == Redact(r, value)
  {
    out := "";
    var offset := 0;
    assert value[0..] == value;
    while offset < |value|
      invariant offset <= |value|
      invariant out + Redact(r, value[offset..]) == Redact(r, value)
    {
      RedactUnfolds(r, value, offset, out);
      var matched := MatchAt(r, value, offset);
      if matched > 0 {
        out := out + REPLACEMENT;
        offset := offset + matched;
      } else {
        out := out + [value[offset]];
        offset := offset + 1;
      }
    }
    assert value[offset..] == "";
  }

  method MatchAt(r: Redactor, value: string, offset: nat) returns (matched: nat)
    requires NonEmpty(r) && offset <= |value|
    ensures matched == Match(r, value[offset..])
  {
    for i := 0 to |r.aliases|
      invariant Match(r, value[offset..]) == MatchFrom(r, value[offset..], i)
    {
      if offset + |r.aliases[i]| <= |value| && HasPrefix(r, value[offset..], r.aliases[i]) {
        return |r.aliases[i]|;
      }
    }
    return 0;
  }

  /** The largest fragment among the first i aliases. */
  ghost predicate LargestLead(r: Redactor, v: string, i: nat, leading: nat)
    requires i <= |r.aliases|
  {
    && (leading > 0 ==> LeadFragment(r, v, leading))
    && (forall k, size: nat :: 0 <= k < i && LeadsWith(r, v, r.aliases[k], size) ==> size <= leading)
  }

  ghost predicate LargestTrail(r: Redactor, v: string, i: nat, trailing: nat)
    requires i <= |r.aliases|
  {
    && (trailing > 0 ==> TrailFragment(r, v, trailing))
    && (forall k, size: nat :: 0 <= k < i && TrailsWith(r, v, r.aliases[k], size) ==> size <= trailing)
  }

  lemma {:induction false} LargestLeadIsLeading(r: Redactor, v: string, leading: nat, n: nat)
    requires LargestLead(r, v, |r.aliases|, leading) && leading <= n
    ensures Leading(r, v, n) == leading
  {
    if n >= MIN_FRAGMENT && LeadFragment(r, v, n) {
      var a :| a in r.aliases && LeadsWith(r, v, a, n);
    } else if n >= MIN_FRAGMENT {
      LargestLeadIsLeading(r, v, leading, n - 1);
    }
  }

  lemma {:induction false} LargestTrailIsTrailing(r: Redactor, v: string, trailing: nat, n: nat)
    requires LargestTrail(r, v, |r.aliases|, trailing) && trailing <= n
    ensures Trailing(r, v, n) == trailing
  {
    if n >= MIN_FRAGMENT && TrailFragment(r, v, n) {
      var a :| a in r.aliases && TrailsWith(r, v, a, n);
    } else if n >= MIN_FRAGMENT {
      LargestTrailIsTrailing(r, v, trailing, n - 1);
    }
  }

  method WidenLead(r: Redactor, v: string, i: nat, before: nat) returns (leading: nat)
    requires i < |r.aliases| && before <= |v| && LargestLead(r, v, i, before)
    ensures leading <= |v| && LargestLead(r, v, i + 1, leading)
  {
    leading := before;
    var alias := r.aliases[i];
    var size := if |v| < |alias| - 1 then |v| else |alias| - 1;
    while size > leading && size >= MIN_FRAGMENT
      invariant size <= |v| && size < |alias|
      invariant forall k: nat :: LeadsWith(r, v, alias, k) ==> k <= size
      decreases size
    {
      if HasPrefix(r, v, alias[|alias| - size..]) {
        assert LeadsWith(r, v, alias, size);
        return size;
      }
      size := size - 1;
    }
  }

  method WidenTrail(r: Redactor, v: string, i: nat, before: nat) returns (trailing: nat)
    requires i < |r.aliases| && before <= |v| && LargestTrail(r, v, i, before)
    ensures trailing <= |v| && LargestTrail(r, v, i + 1, trailing)
  {
    trailing := before;
    var alias := r.aliases[i];
    var size := if |v| < |alias| - 1 then |v| else |alias| - 1;
    while size > trailing && size >= MIN_FRAGMENT
      invariant size <= |v| && size < |alias|
      invariant forall k: nat :: TrailsWith(r, v, alias, k) ==> k <= size
      decreases size
    {
      if HasSuffix(r, v, alias[..size]) {
        assert TrailsWith(r, v, alias, size);
        return size;
      }
      size := size - 1;
    }
  }

  method RedactFragmentText(r: Redactor, value: string) returns (out: string)
    requires NonEmpty(r)
    ensures out == RedactFragment(r, value)
  {
    var safe := RedactText(r, value);
    var leading: nat, trailing: nat := 0, 0;
    for i := 0 to |r.aliases|
      invariant leading <= |safe| && trailing <= |safe|
      invariant LargestLead(r, safe, i, leading) && LargestTrail(r, safe, i, trailing)
    {
      leading := WidenLead(r, safe, i, leading);
      trailing := WidenTrail(r, safe, i, trailing);
    }
    LargestLeadIsLeading(r, safe, leading, |safe|);
    LargestTrailIsTrailing(r, safe, trailing, |safe|);
    out := Trim(safe, leading, trailing);
  }

  /** Identifiers are safe exactly when none of them shows anything. */
  method ProtocolIdentifiersSafe(r: Redactor, values: seq<string>) returns (safe: bool)
    requires NonEmpty(r) && NoOverlap(r)
    ensures safe <==> forall v <- values :: Tidy(r, v)
  {
    for i := 0 to |values|
      invariant forall k :: 0 <= k < i ==> Tidy(r, values[k])
    {
      var redacted := RedactFragmentText(r, values[i]);
      FixedPointsAreTidy(r, values[i]);
      if redacted != values[i] {
        return false;
      }
    }
    return true;
  }
}
