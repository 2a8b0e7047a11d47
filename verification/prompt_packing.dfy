/** Packing a prompt: which files travel inline, which are staged and linked, and the wire budget that decides. */
module PromptPacking {
  import opened Wrappers

  const BUDGET: nat := 768 * 1024

  // ----- Files -----

  datatype Media = ImageMedia | TextMedia | OtherMedia

  /**
   * rich and link are the encoded sizes of the two blocks a file can travel in, if they can be encoded; written says
   * whether staging the file works.
   */
  datatype File = File(media: Media, bytes: nat, rich: Option<nat>, link: Option<nat>, written: bool)

  datatype Capabilities = Capabilities(image: bool, embedded: bool)

  function Base64Length(n: nat): nat {
    (n + 2) / 3 * 4
  }

  /** May the file travel inline at all? */
  predicate Capable(f: File, c: Capabilities) {
    c.embedded || (f.media.ImageMedia? && c.image)
  }

  /** The bytes of the contents as they appear in a rich block. */
  function Payload(f: File): nat {
    if f.media.TextMedia? then f.bytes else Base64Length(f.bytes)
  }

  /** The cheap test that runs before a rich block is built. */
  predicate MayFit(f: File, c: Capabilities, available: nat) {
    available > 0 && Capable(f, c) && Payload(f) <= available
  }

  function Available(wire: nat): nat {
    if wire <= BUDGET then BUDGET - wire else 0
  }

  // ----- Specification -----

  datatype Block = Text(size: nat) | Rich(index: nat, size: nat) | Link(index: nat, size: nat)

  datatype Error =
    | TextNotEncoded
    | TextTooLong
    | RichNotEncoded(index: nat)
    | NotStaged(index: nat)
    | LinkNotEncoded(index: nat)

  predicate Inline(b: Block) {
    !b.Link?
  }

  predicate Fits(size: nat, wire: nat) {
    wire <= BUDGET && size <= BUDGET - wire
  }

  /** One file: its block and the wire bytes accounted for after it; tryRich is the verdict of the test before. */
  function Place(f: File, index: nat, wire: nat, tryRich: bool): Result<(Block, nat), Error> {
    if tryRich && f.rich.None? then Err(RichNotEncoded(index))
    else if tryRich && Fits(f.rich.value, wire) then Ok((Rich(index, f.rich.value), wire + f.rich.value))
    else if !f.written then Err(NotStaged(index))
    else if f.link.None? then Err(LinkNotEncoded(index))
    else Ok((Link(index, f.link.value), if Fits(f.link.value, wire) then wire + f.link.value else BUDGET + 1))
  }

  /** The test before a rich block is built: the cheap one, or the capability alone. */
  predicate Tried(f: File, c: Capabilities, wire: nat, cheap: bool) {
    if cheap then MayFit(f, c, Available(wire)) else Capable(f, c)
  }

  function Pack(files: seq<File>, index: nat, c: Capabilities, wire: nat, cheap: bool): Result<seq<Block>, Error>
    decreases |files|
  {
    if files == [] then Ok([])
    else match Place(files[0], index, wire, Tried(files[0], c, wire, cheap))
      case Err(e) => Err(e)
      case Ok((block, after)) =>
        match Pack(files[1..], index + 1, c, after, cheap)
        case Err(e) => Err(e)
        case Ok(rest) => Ok([block] + rest)
  }

  /** text is the encoded size of the text block, if the prompt has text. */
  function Build(text: Option<Option<nat>>, files: seq<File>, c: Capabilities, cheap: bool): Result<seq<Block>, Error> {
    match text
    case None => Pack(files, 0, c, 0, cheap)
    case Some(None) => Err(TextNotEncoded)
    case Some(Some(size)) =>
      if size > BUDGET then Err(TextTooLong)
      else match Pack(files, 0, c, size, cheap)
        case Err(e) => Err(e)
        case Ok(blocks) => Ok([Text(size)] + blocks)
  }

  // ----- The loop -----

  /** staged: the files whose contents were written to the private stage, in order. */
  method BuildPrompt(text: Option<Option<nat>>, files: seq<File>, c: Capabilities)
      returns (res: Result<seq<Block>, Error>, staged: seq<nat>)
    ensures res == Build(text, files, c, true)
    ensures res.Ok? ==> staged == Linked(res.value)
  {
    var wire: nat := 0;
    match text {
      case None =>
      case Some(None) => return Err(TextNotEncoded), [];
      case Some(Some(size)) =>
        if size > BUDGET {
          return Err(TextTooLong), [];
        }
        wire := size;
    }
    var packed;
    packed, staged := PackFiles(files, c, wire);
    if packed.Err? || text.None? {
      return packed, staged;
    }
    return Ok([Text(wire)] + packed.value), staged;
  }

  method PackFiles(files: seq<File>, c: Capabilities, start: nat)
      returns (res: Result<seq<Block>, Error>, staged: seq<nat>)
    ensures res == Pack(files, 0, c, start, true)
    ensures res.Ok? ==> staged == Linked(res.value)
  {
    var blocks: seq<Block> := [];
    staged := [];
    var wire := start;
    var index := 0;
    ghost var goal := Pack(files, 0, c, start, true);
    assert files[0..] == files;
    assert goal.Ok? ==> [] + goal.value == goal.value;
    while index < |files|
      invariant 0 <= index <= |files|
      invariant goal == Prefixed(blocks, Pack(files[index..], index, c, wire, true))
      invariant staged == Linked(blocks)
    {
      assert files[index..][0] == files[index] && files[index..][1..] == files[index + 1..];
      var placed, written := PlaceFile(files[index], index, c, wire);
      if written {
        staged := staged + [index];
      }
      if placed.Err? {
        return Err(placed.error), staged;
      }
      PrefixedByMore(blocks, placed.value.0, Pack(files[index + 1..], index + 1, c, placed.value.1, true));
      LinkedOfMore(blocks, placed.value.0);
      blocks := blocks + [placed.value.0];
      wire := placed.value.1;
      index := index + 1;
    }
    assert blocks + [] == blocks;
    res := Ok(blocks);
  }

  /** staged: the contents were written to the private stage, which happens exactly for the files that end up linked. */
  method PlaceFile(file: File, index: nat, c: Capabilities, wire: nat)
      returns (res: Result<(Block, nat), Error>, staged: bool)
    ensures res == Place(file, index, wire, Tried(file, c, wire, true))
    ensures res.Ok? ==> (staged <==> res.value.0.Link?) && (staged ==> res.value.0.index == index)
    ensures res.Err? ==> (staged <==> res.error.LinkNotEncoded?)
  {
    var available := if wire <= BUDGET then BUDGET - wire else 0;
    if MayFit(file, c, available) {
      if file.rich.None? {
        return Err(RichNotEncoded(index)), false;
      }
      if wire <= BUDGET && file.rich.value <= BUDGET - wire {
        return Ok((Rich(index, file.rich.value), wire + file.rich.value)), false;
      }
    }
    if !file.written {
      return Err(NotStaged(index)), false;
    }
    if file.link.None? {
      return Err(LinkNotEncoded(index)), true;
    }
    if wire <= BUDGET && file.link.value <= BUDGET - wire {
      return Ok((Link(index, file.link.value), wire + file.link.value)), true;
    }
    return Ok((Link(index, file.link.value), BUDGET + 1)), true;
  }

  /** The files that travel as links, in order. */
  function Linked(blocks: seq<Block>): seq<nat> {
    if blocks == [] then []
    else (if blocks[0].Link? then [blocks[0].index] else []) + Linked(blocks[1..])
  }

  lemma {:induction false} LinkedOfMore(blocks: seq<Block>, b: Block)
    ensures Linked(blocks + [b]) == Linked(blocks) + if b.Link? then [b.index] else []
  {
    if blocks == [] {
      assert [] + [b] == [b] && [b][1..] == [];
    } else {
      var last := if b.Link? then [b.index] else [];
      assert (blocks + [b])[1..] == blocks[1..] + [b] && (blocks + [b])[0] == blocks[0];
      LinkedOfMore(blocks[1..], b);
      Associates(if blocks[0].Link? then [blocks[0].index] else [], Linked(blocks[1..]), last);
    }
  }

  lemma Associates(a: seq<nat>, b: seq<nat>, c: seq<nat>)
    ensures a + (b + c) == a + b + c
  {
  }

  ghost function Prefixed(head: seq<Block>, rest: Result<seq<Block>, Error>): Result<seq<Block>, Error> {
    match rest
    case Ok(blocks) => Ok(head + blocks)
    case Err(e) => Err(e)
  }

  lemma PrefixedByMore(head: seq<Block>, b: Block, rest: Result<seq<Block>, Error>)
    ensures Prefixed(head, Prefixed([b], rest)) == Prefixed(head + [b], rest)
  {
    if rest.Ok? {
      assert head + ([b] + rest.value) == head + [b] + rest.value;
    }
  }

  // ----- Order and budget -----

  /** One block per file, in the files' order. */
  lemma {:induction false} BlocksFollowFiles(files: seq<File>, index: nat, c: Capabilities, wire: nat, cheap: bool)
    requires Pack(files, index, c, wire, cheap).Ok?
    ensures var blocks := Pack(files, index, c, wire, cheap).value;
            && |blocks| == |files|
            && (forall i :: 0 <= i < |files| ==> !blocks[i].Text? && blocks[i].index == index + i)
            && (forall i :: 0 <= i < |files| ==>
                  (if blocks[i].Rich? then files[i].rich == Some(blocks[i].size) && Capable(files[i], c)
                   else files[i].written && files[i].link == Some(blocks[i].size)))
    decreases |files|
  {
    if files != [] {
      var (block, after) := Place(files[0], index, wire, Tried(files[0], c, wire, cheap)).value;
      BlocksFollowFiles(files[1..], index + 1, c, after, cheap);
    }
  }

  function WireBytes(blocks: seq<Block>): nat {
    if blocks == [] then 0 else blocks[0].size + WireBytes(blocks[1..])
  }

  /** Once the budget is used up only links follow. */
  lemma {:induction false} SaturatedPromptsOnlyLink(files: seq<File>, index: nat, c: Capabilities, wire: nat, cheap: bool)
    requires wire > BUDGET && Pack(files, index, c, wire, cheap).Ok?
    ensures forall b <- Pack(files, index, c, wire, cheap).value :: b.Link?
    decreases |files|
  {
    if files != [] {
      SaturatedPromptsOnlyLink(files[1..], index + 1, c, BUDGET + 1, cheap);
    }
  }

  /** The blocks up to any inline one stay within what is left of the budget. */
  lemma {:induction false} InlinePrefixFits(files: seq<File>, index: nat, c: Capabilities, wire: nat, cheap: bool, k: nat)
    requires wire <= BUDGET && Pack(files, index, c, wire, cheap).Ok?
    requires k < |Pack(files, index, c, wire, cheap).value| && Inline(Pack(files, index, c, wire, cheap).value[k])
    ensures wire + WireBytes(Pack(files, index, c, wire, cheap).value[..k + 1]) <= BUDGET
    decreases |files|
  {
    var blocks := Pack(files, index, c, wire, cheap).value;
    var (block, after) := Place(files[0], index, wire, Tried(files[0], c, wire, cheap)).value;
    assert blocks[..k + 1][0] == block && blocks[..k + 1][1..] == blocks[1..][..k];
    if k == 0 {
      assert blocks[1..][..0] == [];
    } else if after > BUDGET {
      SaturatedPromptsOnlyLink(files[1..], index + 1, c, after, cheap);
    } else {
      InlinePrefixFits(files[1..], index + 1, c, after, cheap, k - 1);
    }
  }

  /** What an adapter receives inline, with everything before it, never exceeds the transport budget. */
  lemma PromptIsBudgetSafe(text: Option<Option<nat>>, files: seq<File>, c: Capabilities, cheap: bool, k: nat)
    requires Build(text, files, c, cheap).Ok?
    requires k < |Build(text, files, c, cheap).value| && Inline(Build(text, files, c, cheap).value[k])
    ensures WireBytes(Build(text, files, c, cheap).value[..k + 1]) <= BUDGET
  {
    var blocks := Build(text, files, c, cheap).value;
    if text.None? {
      InlinePrefixFits(files, 0, c, 0, cheap, k);
    } else {
      var size := text.value.value;
      assert blocks[..k + 1][0] == Text(size) && blocks[..k + 1][1..] == blocks[1..][..k];
      if k > 0 {
        InlinePrefixFits(files, 0, c, size, cheap, k - 1);
      }
    }
  }

  // ----- The cheap test is exact -----

  /** An encoded block is never shorter than its contents, nor empty. */
  predicate Encodes(f: File) {
    f.rich.Some? ==> f.rich.value >= 1 && f.rich.value >= Payload(f)
  }

  /** The test changes nothing for a file, except that it spares a rich block that could not be encoded anyway. */
  lemma CheapTestIsExact(f: File, index: nat, c: Capabilities, wire: nat)
    requires Encodes(f)
    ensures Place(f, index, wire, Tried(f, c, wire, true)) == Place(f, index, wire, Tried(f, c, wire, false))
            <==> (f.rich.Some? || !Capable(f, c) || MayFit(f, c, Available(wire)))
  {
  }

  /**
   * Packing reaches a file, before anything fails, whose rich block cannot be encoded but is capable and too large by
   * the cheap test: a caller can tell without packing either way.
   */
  predicate Parts(files: seq<File>, c: Capabilities, wire: nat)
    decreases |files|
  {
    if files == [] then false
    else
      var f := files[0];
      if f.rich.None? && Capable(f, c) then !MayFit(f, c, Available(wire))
      else if Capable(f, c) && Fits(f.rich.value, wire) then Parts(files[1..], c, wire + f.rich.value)
      else if !f.written || f.link.None? then false
      else Parts(files[1..], c, if Fits(f.link.value, wire) then wire + f.link.value else BUDGET + 1)
  }

  /** Where the first files are placed alike, the prompts agree exactly when their rests do. */
  lemma PlacedAlike(block: Block, one: Result<seq<Block>, Error>, other: Result<seq<Block>, Error>)
    ensures Prefixed([block], one) == Prefixed([block], other) <==> one == other
  {
    if one.Ok? && other.Ok? {
      assert ([block] + one.value)[1..] == one.value && ([block] + other.value)[1..] == other.value;
    }
  }

  lemma PackUnfolds(files: seq<File>, index: nat, c: Capabilities, wire: nat, cheap: bool)
    requires files != []
    ensures var placed := Place(files[0], index, wire, Tried(files[0], c, wire, cheap));
            Pack(files, index, c, wire, cheap)
            == match placed
               case Err(e) => Err(e)
               case Ok((block, after)) => Prefixed([block], Pack(files[1..], index + 1, c, after, cheap))
  {
  }

  /** The failure of the plain rule at a file is one that the cheap test never reports there. */
  lemma {:induction false} PackFailsLater(files: seq<File>, index: nat, c: Capabilities, wire: nat, e: Error)
    requires Pack(files, index, c, wire, true) == Err(e)
    ensures e.RichNotEncoded? ==> e.index >= index
    decreases |files|
  {
    if files != [] {
      var placed := Place(files[0], index, wire, Tried(files[0], c, wire, true));
      if placed.Ok? {
        PackFailsLater(files[1..], index + 1, c, placed.value.1, e);
      }
    }
  }

  /** A file the cheap test spares makes the plain rule fail where the cheap one does not. */
  lemma SparedFilePartsTheRules(files: seq<File>, index: nat, c: Capabilities, wire: nat)
    requires files != [] && files[0].rich.None? && Capable(files[0], c) && !MayFit(files[0], c, Available(wire))
    ensures Pack(files, index, c, wire, true) != Pack(files, index, c, wire, false)
  {
    var placed := Place(files[0], index, wire, false);
    if placed.Ok? {
      var rest := Pack(files[1..], index + 1, c, placed.value.1, true);
      if rest.Err? {
        PackFailsLater(files[1..], index + 1, c, placed.value.1, rest.error);
      }
    }
  }

  /** The two rules pack the same prompt, or fail alike, exactly when no file parts them. */
  lemma {:induction false} RulesAgreeExactly(files: seq<File>, index: nat, c: Capabilities, wire: nat)
    requires forall f <- files :: Encodes(f)
    ensures Pack(files, index, c, wire, true) == Pack(files, index, c, wire, false) <==> !Parts(files, c, wire)
    decreases |files|
  {
    if files != [] {
      var f := files[0];
      if f.rich.None? && Capable(f, c) && !MayFit(f, c, Available(wire)) {
        SparedFilePartsTheRules(files, index, c, wire);
      } else {
        CheapTestIsExact(f, index, c, wire);
        PackUnfolds(files, index, c, wire, true);
        PackUnfolds(files, index, c, wire, false);
        var placed := Place(f, index, wire, Tried(f, c, wire, false));
        if placed.Ok? {
          var (block, after) := placed.value;
          RulesAgreeExactly(files[1..], index + 1, c, after);
          PlacedAlike(block, Pack(files[1..], index + 1, c, after, true), Pack(files[1..], index + 1, c, after, false));
        }
      }
    }
  }

  /** The wire bytes taken by the text, if the prompt can be built at all. */
  function TextBytes(text: Option<Option<nat>>): Option<nat> {
    match text
    case None => Some(0)
    case Some(None) => None
    case Some(Some(size)) => if size > BUDGET then None else Some(size)
  }

  /** Dropping the cheap test changes nothing about a prompt, exactly unless a file parts the rules. */
  lemma PromptIgnoresTheCheapTest(text: Option<Option<nat>>, files: seq<File>, c: Capabilities)
    requires forall f <- files :: Encodes(f)
    ensures Build(text, files, c, true) == Build(text, files, c, false)
            <==> TextBytes(text).None? || !Parts(files, c, TextBytes(text).value)
  {
    var size := TextBytes(text);
    if size.Some? {
      RulesAgreeExactly(files, 0, c, size.value);
      if text.Some? {
        PlacedAlike(Text(size.value), Pack(files, 0, c, size.value, true), Pack(files, 0, c, size.value, false));
      }
    }
  }

  /** In particular, files whose rich blocks all encode never part the rules. */
  lemma {:induction false} EncodableFilesNeverPart(files: seq<File>, c: Capabilities, wire: nat)
    requires forall f <- files :: Capable(f, c) ==> f.rich.Some?
    ensures !Parts(files, c, wire)
    decreases |files|
  {
    if files != [] {
      var f := files[0];
      var fits := Capable(f, c) && Fits(f.rich.value, wire);
      if fits {
        EncodableFilesNeverPart(files[1..], c, wire + f.rich.value);
      } else if f.written && f.link.Some? {
        EncodableFilesNeverPart(files[1..], c, if Fits(f.link.value, wire) then wire + f.link.value else BUDGET + 1);
      }
    }
  }

  /** A file whose rich block cannot be encoded is where the two rules part: one stages it, the other fails. */
  lemma UnencodableFileIsStaged()
    ensures var f := File(TextMedia, BUDGET + 1, None, Some(100), true);
            && Build(None, [f], Capabilities(false, true), true) == Ok([Link(0, 100)])
            && Build(None, [f], Capabilities(false, true), false) == Err(RichNotEncoded(0))
  {
    var f := File(TextMedia, BUDGET + 1, None, Some(100), true);
    assert [f][1..] == [];
    assert Pack([], 1, Capabilities(false, true), 100, true) == Ok([]);
    assert [Link(0, 100)] + [] == [Link(0, 100)];
  }
}
