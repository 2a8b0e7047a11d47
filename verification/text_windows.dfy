/** The bounded text windows: the terminal output ring, the thought accumulator and the update splitter. */
module TextWindows {
  import opened Wrappers
  import opened Utf8
  import Digits

  // ----- The windows of a whole stream -----

  predicate Boundary(s: Bytes, k: nat)
    requires k <= |s|
  {
    k == |s| || RuneStart(s[k])
  }

  /** The first boundary at or after k. */
  function AlignUp(s: Bytes, k: nat): (i: nat)
    requires k <= |s|
    ensures k <= i <= |s| && Boundary(s, i)
    decreases |s| - k
  {
    if k == |s| || RuneStart(s[k]) then k else AlignUp(s, k + 1)
  }

  /** The last rune start at or before k, or 0. */
  function AlignDown(s: Bytes, k: nat): (i: nat)
    requires k < |s|
    ensures i <= k && (i == 0 || RuneStart(s[i]))
  {
    if k == 0 || RuneStart(s[k]) then k else AlignDown(s, k - 1)
  }

  lemma {:induction false} AlignUpIsLeast(s: Bytes, k: nat, j: nat)
    requires k <= j <= |s| && Boundary(s, j)
    ensures AlignUp(s, k) <= j
    decreases |s| - k
  {
    if AlignUp(s, k) != k {
      AlignUpIsLeast(s, k + 1, j);
    }
  }

  lemma {:induction false} AlignUpSkips(s: Bytes, k: nat, j: nat)
    requires k <= j <= |s| && j <= AlignUp(s, k)
    ensures AlignUp(s, j) == AlignUp(s, k)
    decreases |s| - k
  {
    if k < j {
      AlignUpSkips(s, k + 1, j);
    }
  }

  lemma {:induction false} AlignUpOfDrop(s: Bytes, d: nat, k: nat)
    requires d <= |s| && k <= |s| - d
    ensures AlignUp(s[d..], k) + d == AlignUp(s, k + d)
    decreases |s| - k
  {
    if k < |s| - d {
      assert s[d..][k] == s[k + d];
      if !RuneStart(s[k + d]) {
        AlignUpOfDrop(s, d, k + 1);
      }
    }
  }

  lemma {:induction false} AlignUpOfConcat(s: Bytes, text: Bytes, k: nat)
    requires k <= |s|
    requires text != [] ==> RuneStart(text[0])
    ensures AlignUp(s + text, k) == AlignUp(s, k)
    decreases |s| - k
  {
    if k < |s| {
      assert (s + text)[k] == s[k];
      if !RuneStart(s[k]) {
        AlignUpOfConcat(s, text, k + 1);
      }
    } else if text != [] {
      assert (s + text)[k] == text[0];
    }
  }

  lemma {:induction false} AlignDownIsGreatest(s: Bytes, k: nat, j: nat)
    requires j <= k < |s| && RuneStart(s[j])
    ensures j <= AlignDown(s, k)
  {
    if AlignDown(s, k) != k {
      AlignDownIsGreatest(s, k - 1, j);
    }
  }

  lemma {:induction false} AlignDownOfPrefix(s: Bytes, text: Bytes, k: nat)
    requires k < |s|
    ensures AlignDown(s + text, k) == AlignDown(s, k)
  {
    assert (s + text)[k] == s[k];
    if AlignDown(s, k) != k {
      AlignDownOfPrefix(s, text, k - 1);
    }
  }

  lemma {:induction false} AlignDownOfSuffix(s: Bytes, text: Bytes, k: nat)
    requires k < |text| && RuneStart(text[0])
    ensures AlignDown(s + text, |s| + k) == |s| + AlignDown(text, k)
  {
    assert (s + text)[|s| + k] == text[k];
    if AlignDown(text, k) != k {
      AlignDownOfSuffix(s, text, k - 1);
    }
  }

  method BoundaryFrom(s: Bytes, start: nat) returns (drop: nat)
    requires start <= |s|
    ensures drop == AlignUp(s, start) && drop <= |s|
  {
    drop := start;
    while drop < |s| && !RuneStart(s[drop])
      invariant start <= drop <= |s|
      invariant AlignUp(s, start) == AlignUp(s, drop)
    {
      drop := drop + 1;
    }
  }

  method BoundaryBefore(s: Bytes, start: nat) returns (cut: nat)
    requires start < |s|
    ensures cut == AlignDown(s, start)
  {
    cut := start;
    while cut > 0 && !RuneStart(s[cut])
      invariant 0 <= cut <= start
      invariant AlignDown(s, start) == AlignDown(s, cut)
    {
      cut := cut - 1;
    }
  }

  /** The longest rune-aligned suffix of s that fits in limit bytes. */
  function SuffixWindow(s: Bytes, limit: nat): (w: Bytes)
    ensures |w| <= limit
  {
    if |s| <= limit then s else s[AlignUp(s, |s| - limit)..]
  }

  /** The longest rune-aligned prefix of s that fits in limit bytes. */
  function PrefixWindow(s: Bytes, limit: nat): (w: Bytes)
    ensures |w| <= limit && w <= s
  {
    if |s| <= limit then s else s[..AlignDown(s, limit)]
  }

  /** SuffixWindow is the maximum over every suffix that starts at a boundary and fits. */
  lemma SuffixWindowIsLongest(s: Bytes, limit: nat, k: nat)
    requires Valid(s)
    requires k <= |s| && Boundary(s, k) && |s| - k <= limit
    ensures Valid(SuffixWindow(s, limit))
    ensures var w := SuffixWindow(s, limit);
            |s| - k <= |w| && s[k..] == w[|w| - (|s| - k)..]
  {
    if |s| > limit {
      var a := AlignUp(s, |s| - limit);
      AlignUpIsLeast(s, |s| - limit, k);
      ValidCut(s, a);
      SuffixOfSuffix(s, a, k);
      assert SuffixWindow(s, limit) == s[a..];
    }
  }

  lemma SuffixOfSuffix(s: Bytes, a: nat, k: nat)
    requires a <= k <= |s|
    ensures var w := s[a..]; s[k..] == w[|w| - (|s| - k)..]
  {
  }

  /** PrefixWindow is the maximum over every prefix that ends at a boundary and fits. */
  lemma PrefixWindowIsLongest(s: Bytes, limit: nat, k: nat)
    requires Valid(s)
    requires k <= |s| && Boundary(s, k) && k <= limit
    ensures Valid(PrefixWindow(s, limit))
    ensures s[..k] <= PrefixWindow(s, limit)
  {
    if |s| > limit {
      if 0 < k {
        AlignDownIsGreatest(s, limit, k);
      }
      ValidCut(s, AlignDown(s, limit));
    }
  }

  // ----- The terminal output ring -----

  /** Trimming the trimmed stream plus one chunk is trimming the whole stream. */
  lemma SuffixWindowAppend(s: Bytes, text: Bytes, limit: nat)
    requires Valid(text)
    ensures SuffixWindow(SuffixWindow(s, limit) + text, limit) == SuffixWindow(s + text, limit)
  {
    if |s| > limit {
      var d := AlignUp(s, |s| - limit);
      AlignUpOfConcat(s, text, |s| - limit);
      DropConcat(s, text, d);
      SuffixWindowOfTrim(s + text, d, limit, |s| - limit);
    }
  }

  lemma DropConcat(s: Bytes, text: Bytes, d: nat)
    requires d <= |s|
    ensures (s + text)[d..] == s[d..] + text
  {
  }

  /** Trimming to the boundary after k first makes no difference when the window starts at or after k. */
  lemma SuffixWindowOfTrim(z: Bytes, d: nat, limit: nat, k: nat)
    requires 0 < k && k + limit <= |z| && d == AlignUp(z, k)
    ensures SuffixWindow(z[d..], limit) == SuffixWindow(z, limit)
  {
    if |z| <= d + limit {
      AlignUpSkips(z, k, |z| - limit);
      assert SuffixWindow(z, limit) == z[d..];
    } else {
      SuffixWindowOfDrop(z, d, limit);
    }
  }

  /** Dropping less than the window drops makes no difference to it. */
  lemma SuffixWindowOfDrop(z: Bytes, d: nat, limit: nat)
    requires d + limit < |z|
    ensures SuffixWindow(z[d..], limit) == SuffixWindow(z, limit)
  {
    var (y, k) := (z[d..], |z| - limit - d);
    AlignUpOfDrop(z, d, k);
    WindowOfDrop(z, y, d, k, limit);
  }

  lemma WindowOfDrop(z: Bytes, y: Bytes, d: nat, k: nat, limit: nat)
    requires d + k + limit == |z| && 0 < k && y == z[d..] && AlignUp(z, d + k) == d + AlignUp(y, k)
    ensures SuffixWindow(y, limit) == SuffixWindow(z, limit)
  {
    DropTwice(z, d, AlignUp(y, k));
  }

  lemma DropTwice(s: Bytes, d: nat, k: nat)
    requires d + k <= |s|
    ensures s[d..][k..] == s[d + k..]
  {
  }

  /** What a terminal wrote so far, each chunk repaired before it is kept. */
  function Repaired(chunks: seq<Bytes>): Bytes {
    if chunks == [] then [] else Repaired(chunks[..|chunks| - 1]) + ToValid(chunks[|chunks| - 1])
  }

  lemma {:induction false} RepairedIsValid(chunks: seq<Bytes>)
    ensures Valid(Repaired(chunks))
  {
    if chunks != [] {
      RepairedIsValid(chunks[..|chunks| - 1]);
      ToValidIsValid(chunks[|chunks| - 1], false);
      ValidConcat(Repaired(chunks[..|chunks| - 1]), ToValid(chunks[|chunks| - 1]));
    }
  }

  /** The ring stays the window of everything written when one more chunk arrives. */
  lemma RingFollowsStream(chunks: seq<Bytes>, text: Bytes, limit: nat)
    ensures Repaired(chunks + [text]) == Repaired(chunks) + ToValid(text)
    ensures var grown := SuffixWindow(Repaired(chunks), limit) + ToValid(text);
            && SuffixWindow(grown, limit) == SuffixWindow(Repaired(chunks + [text]), limit)
            && (|Repaired(chunks + [text])| > limit <==> |Repaired(chunks)| > limit || |grown| > limit)
  {
    assert (chunks + [text])[..|chunks|] == chunks;
    ToValidIsValid(text, false);
    SuffixWindowAppend(Repaired(chunks), ToValid(text), limit);
  }

  const DEFAULT_TERMINAL_OUTPUT_LIMIT: nat := 1024 * 1024

  class TerminalOutputBuffer {
    const limit: nat
    var output: Bytes
    var truncated: bool
    ghost var chunks: seq<Bytes>

    /** The ring is a function of everything ever written to the terminal. */
    ghost predicate Valid()
      reads this
    {
      && output == SuffixWindow(Repaired(chunks), limit)
      && truncated == (|Repaired(chunks)| > limit)
    }

    constructor (requested: int)
      ensures Valid() && chunks == []
      ensures limit == if requested <= 0 then DEFAULT_TERMINAL_OUTPUT_LIMIT else requested
    {
      limit := if requested <= 0 then DEFAULT_TERMINAL_OUTPUT_LIMIT else requested;
      output, truncated, chunks := [], false, [];
    }

    method Append(text: Bytes)
      requires Valid()
      modifies this
      ensures Valid() && chunks == old(chunks) + [text]
    {
      RingFollowsStream(chunks, text, limit);
      chunks := chunks + [text];
      if text == [] {
        return;
      }
      output := output + ToValid(text);
      if |output| <= limit {
        return;
      }
      truncated := true;
      var drop := BoundaryFrom(output, |output| - limit);
      output := output[drop..];
    }

    /** A snapshot is always well-formed UTF-8 and within the limit. */
    method Snapshot() returns (text: Bytes, cut: bool)
      requires Valid()
      ensures Utf8.Valid(text) && |text| <= limit
      ensures text == SuffixWindow(Repaired(chunks), limit) && cut == (|Repaired(chunks)| > limit)
    {
      text, cut := output, truncated;
      RepairedIsValid(chunks);
      SuffixWindowIsLongest(Repaired(chunks), limit, |Repaired(chunks)|);
    }
  }

  // ----- The thought accumulator -----

  const THOUGHT_LIMIT: nat := 32 * 1024

  /** Text that extends a full window leaves it as it is; otherwise the window takes what fits of the text. */
  lemma PrefixWindowAppend(s: Bytes, text: Bytes, limit: nat)
    requires Valid(text) && text != []
    ensures |s| > limit ==> PrefixWindow(s + text, limit) == PrefixWindow(s, limit)
    ensures |s| <= limit < |s + text| ==>
              PrefixWindow(s + text, limit) == s + text[..AlignDown(text, limit - |s|)]
  {
    if |s| > limit {
      AlignDownOfPrefix(s, text, limit);
    } else if |s + text| > limit {
      AlignDownOfSuffix(s, text, limit - |s|);
    }
  }

  /** One thought block: its row id, whether that id was minted here, and all the text sent for it. */
  datatype Episode = Episode(id: string, minted: bool, stream: Bytes)

  /** The blocks of a turn, the current one last. */
  datatype Blocks = NoBlock | Block(past: Blocks, current: Episode)

  function FallbackId(n: nat): string {
    "__fallback-" + Digits.Decimal(n)
  }

  function Minted(blocks: Blocks): (n: nat) {
    if blocks.NoBlock? then 0 else Minted(blocks.past) + (if blocks.current.minted then 1 else 0)
  }

  predicate Occurs(e: Episode, blocks: Blocks) {
    blocks.Block? && (blocks.current == e || Occurs(e, blocks.past))
  }

  /** Every block has an id and well-formed text, and minted rows are numbered in the order they were opened. */
  ghost predicate WellFormed(blocks: Blocks) {
    blocks.Block? ==>
      && WellFormed(blocks.past)
      && blocks.current.id != "" && Valid(blocks.current.stream)
      && (blocks.current.minted ==> blocks.current.id == FallbackId(Minted(blocks)))
  }

  lemma FallbackIdInjective(m: nat, n: nat)
    requires FallbackId(m) == FallbackId(n)
    ensures m == n
  {
    var prefix := "__fallback-";
    assert FallbackId(m)[|prefix|..] == Digits.Decimal(m);
    assert FallbackId(n)[|prefix|..] == Digits.Decimal(n);
    Digits.NumeralInjective(m, n, 10);
  }

  /** Every minted block carries one of the numbers handed out so far. */
  lemma {:induction false} MintedNumber(blocks: Blocks, e: Episode) returns (k: nat)
    requires WellFormed(blocks) && Occurs(e, blocks) && e.minted
    ensures k <= Minted(blocks) && e.id == FallbackId(k)
  {
    if blocks.current == e {
      k := Minted(blocks);
    } else {
      k := MintedNumber(blocks.past, e);
    }
  }

  /** No two fallback episodes of a turn share a row. */
  lemma FallbackRowsAreDistinct(blocks: Blocks, e: Episode)
    requires WellFormed(blocks) && blocks.Block? && blocks.current.minted
    requires Occurs(e, blocks.past) && e.minted
    ensures e.id != blocks.current.id
  {
    var k := MintedNumber(blocks.past, e);
    if e.id == blocks.current.id {
      FallbackIdInjective(k, Minted(blocks));
    }
  }

  /** A chunk without an id continues a minted block; a chunk with an id continues the block of that id. */
  predicate Continues(blocks: Blocks, nextId: string) {
    blocks.Block? && (nextId == blocks.current.id || (nextId == "" && blocks.current.minted))
  }

  /** The blocks of a turn after one more chunk. */
  function NextBlocks(blocks: Blocks, nextId: string, chunk: Bytes): Blocks {
    if chunk == [] then blocks
    else if Continues(blocks, nextId) then
      Block(blocks.past, blocks.current.(stream := blocks.current.stream + chunk))
    else if nextId != "" then Block(blocks, Episode(nextId, false, chunk))
    else Block(blocks, Episode(FallbackId(Minted(blocks) + 1), true, chunk))
  }

  lemma NextBlocksWellFormed(blocks: Blocks, nextId: string, chunk: Bytes)
    requires WellFormed(blocks) && Valid(chunk)
    ensures WellFormed(NextBlocks(blocks, nextId, chunk))
  {
    if Continues(blocks, nextId) {
      ValidConcat(blocks.current.stream, chunk);
    }
  }

  /** The window of a block, and whether it is partial. */
  ghost predicate Shows(stream: Bytes, text: Bytes, truncated: bool) {
    text == PrefixWindow(stream, THOUGHT_LIMIT) && truncated == (|stream| > THOUGHT_LIMIT)
  }

  datatype ThoughtRow = ThoughtRow(id: string, text: Bytes, truncated: bool)

  /** The fields of a turn that follow its thought blocks. */
  class ThoughtStream {
    var id: string
    var minted: bool
    var mintedCount: nat
    var text: Bytes
    var truncated: bool
    ghost var blocks: Blocks

    ghost predicate Valid()
      reads this
    {
      && WellFormed(blocks)
      && mintedCount == Minted(blocks)
      && (blocks.NoBlock? ==> id == "" && text == [] && !truncated)
      && (blocks.Block? ==>
            && id == blocks.current.id && minted == blocks.current.minted
            && Shows(blocks.current.stream, text, truncated))
    }

    constructor ()
      ensures Valid() && blocks == NoBlock
    {
      id, minted, mintedCount, text, truncated, blocks := "", false, 0, [], false, NoBlock;
    }

    method AppendChunk(nextId: string, chunk: Bytes) returns (row: Option<ThoughtRow>)
      requires Valid() && Utf8.Valid(chunk)
      modifies this
      ensures Valid()
      ensures blocks == NextBlocks(old(blocks), nextId, chunk)
      ensures row == if chunk == [] then None else Some(ThoughtRow(id, text, truncated))
    {
      if chunk == [] {
        return None;
      }
      NextBlocksWellFormed(blocks, nextId, chunk);
      ghost var stream := if Continues(blocks, nextId) then blocks.current.stream else [];
      assert [] + chunk == chunk;
      SelectBlock(nextId, chunk);
      blocks := NextBlocks(blocks, nextId, chunk);
      AppendBounded(chunk, stream);
      row := Some(ThoughtRow(id, text, truncated));
    }

    /** The block boundary rule: adopt a new id, mint one, or stay. */
    method SelectBlock(nextId: string, ghost chunk: Bytes)
      requires Valid() && chunk != []
      modifies this`id, this`minted, this`mintedCount, this`text, this`truncated
      ensures var next := NextBlocks(blocks, nextId, chunk);
              id == next.current.id && minted == next.current.minted && mintedCount == Minted(next)
      ensures Shows(if Continues(blocks, nextId) then blocks.current.stream else [], text, truncated)
    {
      if id == "" || (nextId == "" && !minted) || (nextId != "" && nextId != id) {
        if nextId != "" {
          id, minted := nextId, false;
        } else {
          mintedCount := mintedCount + 1;
          id, minted := FallbackId(mintedCount), true;
        }
        text, truncated := [], false;
      }
    }

    method AppendBounded(chunk: Bytes, ghost stream: Bytes)
      requires Utf8.Valid(chunk) && chunk != []
      requires Shows(stream, text, truncated)
      modifies this`text, this`truncated
      ensures Shows(stream + chunk, text, truncated)
    {
      PrefixWindowAppend(stream, chunk, THOUGHT_LIMIT);
      if truncated {
        return;
      }
      var remaining := THOUGHT_LIMIT - |text|;
      if remaining <= 0 {
        truncated := true;
        return;
      }
      if |chunk| <= remaining {
        text := text + chunk;
        return;
      }
      var cut := BoundaryBefore(chunk, remaining);
      if cut > 0 {
        text := text + chunk[..cut];
      }
      truncated := true;
    }
  }

  // ----- Splitting an update into transport-sized chunks -----

  function Joined(chunks: seq<Bytes>): Bytes {
    if chunks == [] then [] else chunks[0] + Joined(chunks[1..])
  }

  /** Where the splitter cuts: the last rune start that fits, or the bound itself when there is none. */
  function CutAt(text: Bytes, bound: nat): (cut: nat)
    requires 0 < bound < |text|
    ensures 0 < cut <= bound
  {
    var cut := AlignDown(text, bound);
    if cut == 0 then bound else cut
  }

  function Chunks(text: Bytes, bound: nat): seq<Bytes>
    requires 0 < bound
  {
    if |text| <= bound then [text]
    else [text[..CutAt(text, bound)]] + Chunks(text[CutAt(text, bound)..], bound)
  }

  /** Splitting loses nothing, and every chunk fits. */
  lemma {:induction false} ChunksJoinBack(text: Bytes, bound: nat)
    requires 0 < bound
    ensures Joined(Chunks(text, bound)) == text
    ensures forall c <- Chunks(text, bound) :: |c| <= bound
  {
    if |text| <= bound {
      assert Joined([text]) == text + Joined([text][1..]);
    } else {
      var cut := CutAt(text, bound);
      ChunksJoinBack(text[cut..], bound);
      assert Chunks(text, bound)[1..] == Chunks(text[cut..], bound);
    }
  }

  /** For well-formed text and room for one rune, the cut never falls back to a raw one. */
  lemma AlignedCutIsProper(text: Bytes, bound: nat)
    requires Valid(text) && 4 <= bound < |text|
    ensures RuneStart(text[CutAt(text, bound)])
    ensures text[..CutAt(text, bound)] == PrefixWindow(text, bound)
  {
    RuneStartsAreDense(text, bound);
    var j :| 0 <= j <= bound && bound < j + 4 && RuneStart(text[j]);
    AlignDownIsGreatest(text, bound, j);
  }

  lemma FirstChunk(text: Bytes, bound: nat)
    requires Valid(text) && 4 <= bound
    ensures Valid(Chunks(text, bound)[0]) && Chunks(text, bound)[0] == PrefixWindow(text, bound)
    ensures |text| > bound ==> Valid(text[CutAt(text, bound)..])
  {
    if |text| > bound {
      AlignedCutIsProper(text, bound);
      ValidCut(text, CutAt(text, bound));
    }
  }

  lemma LaterChunks(text: Bytes, bound: nat, i: nat)
    requires 0 < bound < |text| && 0 < i < |Chunks(text, bound)|
    ensures var rest := Chunks(text[CutAt(text, bound)..], bound);
            i - 1 < |rest| && Chunks(text, bound)[i] == rest[i - 1] && Chunks(text, bound)[i..] == rest[i - 1..]
  {
  }

  /** For well-formed text and room for one rune, every chunk is well-formed and as long as it can be. */
  lemma {:induction false} ChunksAreMaximalRunes(text: Bytes, bound: nat, i: nat)
    requires Valid(text) && 4 <= bound
    requires i < |Chunks(text, bound)|
    ensures Valid(Chunks(text, bound)[i])
    ensures Chunks(text, bound)[i] == PrefixWindow(Joined(Chunks(text, bound)[i..]), bound)
    decreases i
  {
    FirstChunk(text, bound);
    if i == 0 {
      assert Chunks(text, bound)[0..] == Chunks(text, bound);
      ChunksJoinBack(text, bound);
    } else {
      LaterChunks(text, bound, i);
      ChunksAreMaximalRunes(text[CutAt(text, bound)..], bound, i - 1);
    }
  }

  method CutPoint(text: Bytes, bound: nat) returns (cut: nat)
    requires 0 < bound < |text|
    ensures cut == CutAt(text, bound)
  {
    cut := BoundaryBefore(text, bound);
    if cut == 0 {
      cut := bound;
    }
  }

  method SplitText(text: Bytes, maxBytes: int) returns (chunks: seq<Bytes>)
    ensures chunks == if maxBytes <= 0 then [text] else Chunks(text, maxBytes)
  {
    if maxBytes <= 0 || |text| <= maxBytes {
      return [text];
    }
    var rest := text;
    chunks := [];
    while |rest| > maxBytes
      invariant chunks + Chunks(rest, maxBytes) == Chunks(text, maxBytes)
      decreases |rest|
    {
      var cut := CutPoint(rest, maxBytes);
      assert Chunks(rest, maxBytes) == [rest[..cut]] + Chunks(rest[cut..], maxBytes);
      chunks := chunks + [rest[..cut]];
      rest := rest[cut..];
    }
    chunks := chunks + [rest];
  }

  /** truncateText keeps the first chunk. */
  method TruncateText(text: Bytes, maxBytes: int) returns (head: Bytes)
    ensures head <= text
    ensures maxBytes > 0 ==> |head| <= maxBytes
    ensures maxBytes >= 4 && Valid(text) ==> Valid(head) && head == PrefixWindow(text, maxBytes)
    ensures maxBytes <= 0 ==> head == text
  {
    var chunks := SplitText(text, maxBytes);
    head := chunks[0];
    if maxBytes > 0 {
      ChunksJoinBack(text, maxBytes);
      if maxBytes >= 4 && Valid(text) {
        ChunksAreMaximalRunes(text, maxBytes, 0);
        assert chunks[0..] == chunks;
      }
    }
  }
}
