/** Byte strings and the UTF-8 grammar of section 4 of RFC 3629. */
module Utf8 {

  newtype byte = x: int | 0 <= x < 256

  type Bytes = seq<byte>

  /** Any byte that is not a continuation octet (10xxxxxx). */
  predicate RuneStart(b: byte) {
    b < 0x80 || 0xC0 <= b
  }

  predicate Tail(b: byte, lo: byte, hi: byte) {
    lo <= b <= hi
  }

  /** The range allowed for the second octet after a given lead octet. */
  function SecondLow(lead: byte): byte {
    if lead == 0xE0 then 0xA0 else if lead == 0xF0 then 0x90 else 0x80
  }

  function SecondHigh(lead: byte): byte {
    if lead == 0xED then 0x9F else if lead == 0xF4 then 0x8F else 0xBF
  }

  /** How many octets a lead octet announces; 0 when it cannot begin a rune. */
  function LeadLength(lead: byte): (n: nat)
    ensures n <= 4
  {
    if lead < 0x80 then 1
    else if lead < 0xC2 then 0
    else if lead < 0xE0 then 2
    else if lead < 0xF0 then 3
    else if lead < 0xF5 then 4
    else 0
  }

  /** The length of the well-formed rune at the head of s, or 0 when there is none. */
  function RuneLength(s: Bytes): (n: nat)
    ensures n <= |s| && n <= 4
    ensures n > 0 ==> RuneStart(s[0])
    ensures forall k :: 0 < k < n ==> !RuneStart(s[k])
  {
    if s == [] then 0 else
      var n := LeadLength(s[0]);
      if n > |s| then 0
      else if n >= 2 && !Tail(s[1], SecondLow(s[0]), SecondHigh(s[0])) then 0
      else if n >= 3 && !Tail(s[2], 0x80, 0xBF) then 0
      else if n >= 4 && !Tail(s[3], 0x80, 0xBF) then 0
      else n
  }

  predicate Valid(s: Bytes) {
    s == [] || (RuneLength(s) > 0 && Valid(s[RuneLength(s)..]))
  }

  /** U+FFFD, the replacement character. */
  const REPLACEMENT: Bytes := [0xEF, 0xBF, 0xBD]

  /** Each maximal run of ill-formed octets becomes one replacement character. */
  function ToValid(s: Bytes, inRun: bool := false): Bytes {
    if s == [] then []
    else if RuneLength(s) == 0 then
      (if inRun then [] else REPLACEMENT) + ToValid(s[1..], true)
    else s[..RuneLength(s)] + ToValid(s[RuneLength(s)..])
  }

  lemma HeadIsStable(a: Bytes, b: Bytes)
    requires RuneLength(a) > 0
    ensures RuneLength(a + b) == RuneLength(a)
  {
  }

  lemma {:induction false} ValidConcat(a: Bytes, b: Bytes)
    requires Valid(a) && Valid(b)
    ensures Valid(a + b)
  {
    if a == [] {
      assert a + b == b;
    } else {
      var n := RuneLength(a);
      HeadIsStable(a, b);
      assert (a + b)[n..] == a[n..] + b;
      ValidConcat(a[n..], b);
    }
  }

  /** Repairing always yields well-formed text. */
  lemma {:induction false} ToValidIsValid(s: Bytes, inRun: bool)
    ensures Valid(ToValid(s, inRun))
  {
    if s == [] {
    } else if RuneLength(s) == 0 {
      ToValidIsValid(s[1..], true);
      assert Valid(REPLACEMENT[3..]);
      ValidConcat(if inRun then [] else REPLACEMENT, ToValid(s[1..], true));
    } else {
      var n := RuneLength(s);
      ToValidIsValid(s[n..], false);
      assert s == s[..n] + s[n..];
      assert RuneLength(s[..n]) == n;
      assert s[..n][n..] == [];
      ValidConcat(s[..n], ToValid(s[n..], false));
    }
  }

  /** Repairing leaves well-formed text alone. */
  lemma {:induction false} ToValidKeepsValid(s: Bytes, inRun: bool)
    requires Valid(s)
    ensures ToValid(s, inRun) == s
  {
    if s != [] {
      ToValidKeepsValid(s[RuneLength(s)..], false);
    }
  }

  lemma ValidWithHead(s: Bytes, n: nat, k: nat)
    requires s != [] && 0 < n == RuneLength(s) <= k <= |s| && Valid(s[n..][..k - n])
    ensures Valid(s[..k])
  {
    assert s[n..][..k - n] == s[..k][n..];
    assert s[..n] + s[..k][n..] == s[..k];
    assert RuneLength(s[..n]) == n;
    HeadIsStable(s[..n], s[..k][n..]);
  }

  /** A cut at a rune start (or at the end) splits well-formed text into well-formed halves. */
  lemma {:induction false} ValidCut(s: Bytes, k: nat)
    requires Valid(s) && k <= |s|
    requires k == |s| || RuneStart(s[k])
    ensures Valid(s[..k]) && Valid(s[k..])
  {
    if s != [] && k != 0 {
      var n := RuneLength(s);
      assert n <= k;
      assert k < |s| ==> s[n..][k - n] == s[k];
      ValidCut(s[n..], k - n);
      assert s[n..][k - n..] == s[k..];
      ValidWithHead(s, n, k);
    } else {
      assert s[..k] == [] && s[k..] == s;
    }
  }

  /** Well-formed text has a rune start within any three octets back from any position. */
  lemma {:induction false} RuneStartsAreDense(s: Bytes, k: nat)
    requires Valid(s) && k < |s|
    ensures exists j :: 0 <= j <= k && k < j + 4 && RuneStart(s[j])
  {
    var n := RuneLength(s);
    if k < n {
      assert RuneStart(s[0]);
    } else {
      RuneStartsAreDense(s[n..], k - n);
      var j :| 0 <= j <= k - n && k - n < j + 4 && RuneStart(s[n..][j]);
      assert RuneStart(s[j + n]);
    }
  }
}
