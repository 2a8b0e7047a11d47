/** The bytes that pin an executable: length-prefixed fields that can be read back in only one way. */
module ExecutableIdentity {
  import opened Wrappers
  import opened Utf8
  import Digits

  // ----- Length prefixes -----

  function Power256(k: nat): nat {
    if k == 0 then 1 else 256 * Power256(k - 1)
  }

  /** The low k bytes of n, most significant first. */
  function BigEndian(n: nat, k: nat): (b: Bytes)
    ensures |b| == k
  {
    if k == 0 then [] else BigEndian(n / 256, k - 1) + [(n % 256) as byte]
  }

  function FromBigEndian(b: Bytes): nat {
    if b == [] then 0 else FromBigEndian(b[..|b| - 1]) * 256 + b[|b| - 1] as nat
  }

  lemma {:induction false} BigEndianReadsBack(n: nat, k: nat)
    requires n < Power256(k)
    ensures FromBigEndian(BigEndian(n, k)) == n
    decreases k
  {
    if k > 0 {
      var b := BigEndian(n, k);
      assert b[..k - 1] == BigEndian(n / 256, k - 1);
      BigEndianReadsBack(n / 256, k - 1);
    }
  }

  const PREFIX: nat := 8

  /** A string of the host language: its length fits the prefix. */
  predicate Sized(field: Bytes) {
    |field| < Power256(PREFIX)
  }

  function Frame(field: Bytes): Bytes {
    BigEndian(|field|, PREFIX) + field
  }

  function Frames(fields: seq<Bytes>): Bytes {
    if fields == [] then [] else Frame(fields[0]) + Frames(fields[1..])
  }

  /** Reads the fields back, if the bytes are framed fields at all. */
  function Unframe(b: Bytes): Option<seq<Bytes>>
    decreases |b|
  {
    if b == [] then Some([])
    else if |b| < PREFIX then None
    else
      var n := FromBigEndian(b[..PREFIX]);
      if |b| < PREFIX + n then None
      else match Unframe(b[PREFIX + n..])
        case None => None
        case Some(rest) => Some([b[PREFIX..PREFIX + n]] + rest)
  }

  /** Framed fields can be read back, whatever bytes they hold. */
  lemma {:induction false} FramesReadBack(fields: seq<Bytes>)
    requires forall f <- fields :: Sized(f)
    ensures Unframe(Frames(fields)) == Some(fields)
    decreases |fields|
  {
    if fields != [] {
      var (f, rest) := (fields[0], Frames(fields[1..]));
      var b := Frames(fields);
      assert f in fields && Sized(f);
      BigEndianReadsBack(|f|, PREFIX);
      FramesReadBack(fields[1..]);
      assert b == BigEndian(|f|, PREFIX) + f + rest;
      assert b[..PREFIX] == BigEndian(|f|, PREFIX);
      assert b[PREFIX..PREFIX + |f|] == f && b[PREFIX + |f|..] == rest;
      assert [f] + fields[1..] == fields;
    }
  }

  lemma FramesAreInjective(a: seq<Bytes>, b: seq<Bytes>)
    requires (forall f <- a :: Sized(f)) && (forall f <- b :: Sized(f)) && Frames(a) == Frames(b)
    ensures a == b
  {
    FramesReadBack(a);
    FramesReadBack(b);
  }

  // ----- Identities -----

  datatype Publisher = Publisher(status: Bytes, platform: Bytes, identifier: Bytes, teamId: Bytes)

  datatype Identity = Identity(
    schema: Bytes, invocationPath: Bytes, canonicalPath: Bytes, sha256: Bytes, coverage: Bytes, fileId: Bytes,
    mode: nat, size: int, publisher: Publisher, chain: seq<Bytes>)

  function Ascii(s: string): (b: Bytes)
    requires forall c <- s :: c < 128 as char
    ensures |b| == |s|
  {
    seq(|s|, i requires 0 <= i < |s| => assert s[i] in s; s[i] as int as byte)
  }

  lemma AsciiIsInjective(s: string, t: string)
    requires (forall c <- s :: c < 128 as char) && (forall c <- t :: c < 128 as char) && Ascii(s) == Ascii(t)
    ensures s == t
  {
    forall i | 0 <= i < |s| ensures s[i] == t[i] {
      assert Ascii(s)[i] == Ascii(t)[i];
    }
  }

  function Octal(n: nat): Bytes {
    Ascii(Digits.Numeral(n, 8))
  }

  /** As fmt prints a signed number. */
  function Signed(n: int): (s: string)
    ensures forall c <- s :: c < 128 as char
  {
    if n < 0 then "-" + Digits.Numeral(-n, 10) else Digits.Numeral(n, 10)
  }

  function SignedDecimal(n: int): Bytes {
    Ascii(Signed(n))
  }

  lemma OctalIsInjective(m: nat, n: nat)
    requires Octal(m) == Octal(n)
    ensures m == n
  {
    AsciiIsInjective(Digits.Numeral(m, 8), Digits.Numeral(n, 8));
    Digits.NumeralInjective(m, n, 8);
  }

  lemma SignShows(n: int)
    ensures Signed(n) != [] && (Signed(n)[0] == '-' <==> n < 0)
  {
    if n >= 0 {
      assert Digits.Numeral(n, 10)[0] in Digits.Numeral(n, 10);
    }
  }

  lemma SignedDecimalIsInjective(m: int, n: int)
    requires SignedDecimal(m) == SignedDecimal(n)
    ensures m == n
  {
    AsciiIsInjective(Signed(m), Signed(n));
    SignShows(m);
    SignShows(n);
    if m < 0 {
      assert Signed(m)[1..] == Digits.Numeral(-m, 10) && Signed(n)[1..] == Digits.Numeral(-n, 10);
      Digits.NumeralInjective(-m, -n, 10);
    } else {
      Digits.NumeralInjective(m, n, 10);
    }
  }

  const FIXED: nat := 13

  /** The fields in the order they reach the digest; the chain follows its own length. */
  function Fields(id: Identity): (fields: seq<Bytes>)
    ensures |fields| == FIXED + |id.chain|
  {
    [id.schema, id.invocationPath, id.canonicalPath, id.sha256, id.coverage, id.fileId,
     Octal(id.mode), SignedDecimal(id.size),
     id.publisher.status, id.publisher.platform, id.publisher.identifier, id.publisher.teamId,
     SignedDecimal(|id.chain|)] + id.chain
  }

  function Stream(id: Identity): Bytes {
    Frames(Fields(id))
  }

  ghost predicate Encodable(id: Identity) {
    forall f <- Fields(id) :: Sized(f)
  }

  /** Two identities that feed the digest the same bytes agree in every field, number and launcher-chain entry. */
  lemma StreamIsInjective(a: Identity, b: Identity)
    requires Encodable(a) && Encodable(b) && Stream(a) == Stream(b)
    ensures a == b
  {
    FramesAreInjective(Fields(a), Fields(b));
    var (f, g) := (Fields(a), Fields(b));
    assert f[0] == g[0] && f[1] == g[1] && f[2] == g[2] && f[3] == g[3] && f[4] == g[4] && f[5] == g[5];
    assert f[6] == g[6] && f[7] == g[7] && f[8] == g[8] && f[9] == g[9] && f[10] == g[10] && f[11] == g[11];
    OctalIsInjective(a.mode, b.mode);
    SignedDecimalIsInjective(a.size, b.size);
    assert a.chain == f[FIXED..] && b.chain == g[FIXED..];
  }

  lemma {:induction false} FramesOfMore(fields: seq<Bytes>, f: Bytes)
    ensures Frames(fields + [f]) == Frames(fields) + Frame(f)
    decreases |fields|
  {
    if fields == [] {
      assert [f][1..] == [] && fields + [f] == [f];
    } else {
      assert (fields + [f])[1..] == fields[1..] + [f];
      FramesOfMore(fields[1..], f);
    }
  }

  /** The digest is fed field by field. */
  class Feed {
    var fed: Bytes
    ghost var fields: seq<Bytes>

    constructor ()
      ensures fed == [] && fields == []
    {
      fed, fields := [], [];
    }

    method WriteField(field: Bytes)
      requires fed == Frames(fields)
      modifies this
      ensures fields == old(fields) + [field]
      ensures fed == Frames(fields)
    {
      FramesOfMore(fields, field);
      fed := fed + BigEndian(|field|, PREFIX);
      fed := fed + field;
      fields := fields + [field];
    }

    method WritePaths(id: Identity)
      requires fed == [] && fields == []
      modifies this
      ensures fields == Fields(id)[..6] && fed == Frames(fields)
    {
      WriteField(id.schema);
      WriteField(id.invocationPath);
      WriteField(id.canonicalPath);
      WriteField(id.sha256);
      WriteField(id.coverage);
      WriteField(id.fileId);
    }

    method WriteFacts(id: Identity)
      requires fed == Frames(fields) && fields == Fields(id)[..6]
      modifies this
      ensures fields == Fields(id)[..FIXED] && fed == Frames(fields)
    {
      WriteField(Octal(id.mode));
      WriteField(SignedDecimal(id.size));
      WriteField(id.publisher.status);
      WriteField(id.publisher.platform);
      WriteField(id.publisher.identifier);
      WriteField(id.publisher.teamId);
      WriteField(SignedDecimal(|id.chain|));
    }

    method WriteIdentity(id: Identity)
      requires fed == [] && fields == []
      modifies this
      ensures fed == Stream(id)
    {
      WritePaths(id);
      WriteFacts(id);
      var i := 0;
      while i < |id.chain|
        invariant 0 <= i <= |id.chain|
        invariant fields == Fields(id)[..FIXED + i] && fed == Frames(fields)
      {
        assert Fields(id)[FIXED + i] == id.chain[i];
        WriteField(id.chain[i]);
        i := i + 1;
      }
      assert Fields(id)[..FIXED + |id.chain|] == Fields(id);
    }
  }

  // ----- Measuring the contents -----

  const PREFIX_LIMIT: nat := 4096
  const COPY_CHUNK: nat := 32 * 1024

  function Smaller(a: nat, b: nat): nat {
    if a <= b then a else b
  }

  datatype Measurement = Hashed(prefix: Bytes, hashed: Bytes) | TooLong | ReadFailed

  /** The reader fails, by an error or a cancelled context, instead of answering the read at position failAt. */
  predicate FailsBefore(failAt: Option<nat>, position: int) {
    failAt.Some? && failAt.value < position
  }

  /**
   * Hashes a file of at most maxBytes bytes, reading one byte beyond the limit to notice a longer one; a file within
   * the limit is read up to the answer that it has ended. hashed are the bytes that reached the digest; prefix is what
   * the file is classified by.
   */
  method HashContents(contents: Bytes, failAt: Option<nat>, maxBytes: int) returns (res: Measurement, consumed: nat)
    ensures res.ReadFailed? <==> maxBytes >= 0 && FailsBefore(failAt, Smaller(maxBytes + 1, |contents| + 1))
    ensures res.TooLong? <==> !res.ReadFailed? && |contents| > maxBytes
    ensures res.Hashed? ==> res == Hashed(contents[..Smaller(PREFIX_LIMIT, |contents|)], contents)
    ensures consumed <= if maxBytes < 0 then 0 else maxBytes + 1
  {
    if maxBytes < 0 {
      return TooLong, 0;
    }
    var available := Smaller(maxBytes + 1, |contents|);
    consumed := Smaller(PREFIX_LIMIT, available);
    if FailsBefore(failAt, consumed) {
      return ReadFailed, failAt.value;
    }
    var prefix := contents[..consumed];
    var hashed := prefix;
    while consumed < available
      invariant |prefix| <= consumed <= available && hashed == contents[..consumed]
      invariant prefix == contents[..Smaller(PREFIX_LIMIT, available)]
      invariant !FailsBefore(failAt, consumed)
    {
      var next := consumed + Smaller(COPY_CHUNK, available - consumed);
      if FailsBefore(failAt, next) {
        return ReadFailed, failAt.value;
      }
      assert contents[..consumed] + contents[consumed..next] == contents[..next];
      hashed := hashed + contents[consumed..next];
      consumed := next;
    }
    if consumed > maxBytes {
      return TooLong, consumed;
    }
    if FailsBefore(failAt, consumed + 1) {
      return ReadFailed, consumed;
    }
    assert contents[..consumed] == contents;
    return Hashed(prefix, hashed), consumed;
  }
}
