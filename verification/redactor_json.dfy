/** Masking lifted to decoded JSON values. */
module RedactorJson {
  import opened Wrappers
  import opened Redactor

  datatype Json =
    | Null
    | Bool(b: bool)
    | Number(digits: string)
    | Str(text: string)
    | Arr(items: Items)
    | Obj(members: Members)

  datatype Items = NoItems | Item(head: Json, tail: Items)

  /** The members of an object in the order they are visited. */
  datatype Members = NoMembers | Member(key: string, value: Json, rest: Members)

  function Keys(members: Members): set<string> {
    match members
    case NoMembers => {}
    case Member(key, _, rest) => {key} + Keys(rest)
  }

  function Mask(r: Redactor, fragments: bool, text: string): string {
    if fragments then RedactFragment(r, text) else Redact(r, text)
  }

  function MaskValue(r: Redactor, fragments: bool, v: Json): Option<Json> {
    match v
    case Str(text) => Some(Str(Mask(r, fragments, text)))
    case Arr(items) =>
      (match MaskItems(r, fragments, items)
       case None => None
       case Some(masked) => Some(Arr(masked)))
    case Obj(members) =>
      (match MaskMembers(r, fragments, members, {})
       case None => None
       case Some(masked) => Some(Obj(masked)))
    case _ => Some(v)
  }

  function MaskItems(r: Redactor, fragments: bool, items: Items): Option<Items> {
    match items
    case NoItems => Some(NoItems)
    case Item(head, tail) =>
      match (MaskValue(r, fragments, head), MaskItems(r, fragments, tail))
      case (Some(h), Some(t)) => Some(Item(h, t))
      case _ => None
  }

  /** A masked key that is already taken fails the whole value. */
  function MaskMembers(r: Redactor, fragments: bool, members: Members, taken: set<string>): Option<Members> {
    match members
    case NoMembers => Some(NoMembers)
    case Member(key, value, rest) =>
      var safeKey := Mask(r, fragments, key);
      if safeKey in taken then None else
        match (MaskValue(r, fragments, value), MaskMembers(r, fragments, rest, taken + {safeKey}))
        case (Some(masked), Some(others)) => Some(Member(safeKey, masked, others))
        case _ => None
  }

  /** What masking promises of one string. */
  ghost predicate Safe(r: Redactor, fragments: bool, text: string) {
    if fragments then Tidy(r, text) else Clean(r, text)
  }

  /** Every string and key in the value is safe, and no object repeats a key. */
  ghost predicate SafeValue(r: Redactor, fragments: bool, v: Json) {
    match v
    case Str(text) => Safe(r, fragments, text)
    case Arr(items) => SafeItems(r, fragments, items)
    case Obj(members) => SafeMembers(r, fragments, members)
    case _ => true
  }

  ghost predicate SafeItems(r: Redactor, fragments: bool, items: Items) {
    items.Item? ==> SafeValue(r, fragments, items.head) && SafeItems(r, fragments, items.tail)
  }

  ghost predicate SafeMembers(r: Redactor, fragments: bool, members: Members) {
    members.Member? ==>
      && Safe(r, fragments, members.key) && members.key !in Keys(members.rest)
      && SafeValue(r, fragments, members.value) && SafeMembers(r, fragments, members.rest)
  }

  /** Masking keeps the keys of every object apart. */
  ghost predicate KeysStayApart(r: Redactor, fragments: bool, v: Json) {
    match v
    case Arr(items) => ItemsStayApart(r, fragments, items)
    case Obj(members) => MembersStayApart(r, fragments, members)
    case _ => true
  }

  ghost predicate ItemsStayApart(r: Redactor, fragments: bool, items: Items) {
    items.Item? ==> KeysStayApart(r, fragments, items.head) && ItemsStayApart(r, fragments, items.tail)
  }

  ghost predicate MembersStayApart(r: Redactor, fragments: bool, members: Members) {
    members.Member? ==>
      && (forall other <- Keys(members.rest) :: Mask(r, fragments, other) != Mask(r, fragments, members.key))
      && KeysStayApart(r, fragments, members.value)
      && MembersStayApart(r, fragments, members.rest)
  }

  lemma MaskIsSafe(r: Redactor, fragments: bool, text: string)
    requires NonEmpty(r) && NoOverlap(r)
    ensures Safe(r, fragments, Mask(r, fragments, text))
    ensures Safe(r, fragments, text) ==> Mask(r, fragments, text) == text
  {
    if fragments {
      RedactFragmentIsTidy(r, text);
      FixedPointsAreTidy(r, text);
    } else {
      RedactIsClean(r, text);
      if Clean(r, text) {
        RedactKeepsClean(r, text);
      }
    }
  }

  /** A masked value shows nothing anywhere. */
  lemma {:induction false} MaskedValueIsSafe(r: Redactor, fragments: bool, v: Json)
    requires NonEmpty(r) && NoOverlap(r) && MaskValue(r, fragments, v).Some?
    ensures SafeValue(r, fragments, MaskValue(r, fragments, v).value)
  {
    match v
    case Str(text) => MaskIsSafe(r, fragments, text);
    case Arr(items) => MaskedItemsAreSafe(r, fragments, items);
    case Obj(members) => MaskedMembersAreSafe(r, fragments, members, {});
    case _ =>
  }

  lemma {:induction false} MaskedItemsAreSafe(r: Redactor, fragments: bool, items: Items)
    requires NonEmpty(r) && NoOverlap(r) && MaskItems(r, fragments, items).Some?
    ensures SafeItems(r, fragments, MaskItems(r, fragments, items).value)
  {
    if items.Item? {
      MaskedValueIsSafe(r, fragments, items.head);
      MaskedItemsAreSafe(r, fragments, items.tail);
    }
  }

  lemma {:induction false} MaskedMembersAreSafe(r: Redactor, fragments: bool, members: Members, taken: set<string>)
    requires NonEmpty(r) && NoOverlap(r) && MaskMembers(r, fragments, members, taken).Some?
    ensures SafeMembers(r, fragments, MaskMembers(r, fragments, members, taken).value)
    ensures Keys(MaskMembers(r, fragments, members, taken).value) !! taken
  {
    if members.Member? {
      var safeKey := Mask(r, fragments, members.key);
      MaskIsSafe(r, fragments, members.key);
      MaskedValueIsSafe(r, fragments, members.value);
      MaskedMembersAreSafe(r, fragments, members.rest, taken + {safeKey});
    }
  }

  /** A safe value is masked to itself, so masking twice is masking once. */
  lemma {:induction false} SafeValueIsFixed(r: Redactor, fragments: bool, v: Json)
    requires NonEmpty(r) && NoOverlap(r) && SafeValue(r, fragments, v)
    ensures MaskValue(r, fragments, v) == Some(v)
  {
    match v
    case Str(text) => MaskIsSafe(r, fragments, text);
    case Arr(items) => SafeItemsAreFixed(r, fragments, items);
    case Obj(members) => SafeMembersAreFixed(r, fragments, members, {});
    case _ =>
  }

  lemma {:induction false} SafeItemsAreFixed(r: Redactor, fragments: bool, items: Items)
    requires NonEmpty(r) && NoOverlap(r) && SafeItems(r, fragments, items)
    ensures MaskItems(r, fragments, items) == Some(items)
  {
    if items.Item? {
      SafeValueIsFixed(r, fragments, items.head);
      SafeItemsAreFixed(r, fragments, items.tail);
    }
  }

  lemma {:induction false} SafeMembersAreFixed(r: Redactor, fragments: bool, members: Members, taken: set<string>)
    requires NonEmpty(r) && NoOverlap(r) && SafeMembers(r, fragments, members)
    requires Keys(members) !! taken
    ensures MaskMembers(r, fragments, members, taken) == Some(members)
  {
    if members.Member? {
      MaskIsSafe(r, fragments, members.key);
      SafeValueIsFixed(r, fragments, members.value);
      SafeMembersAreFixed(r, fragments, members.rest, taken + {members.key});
    }
  }

  /** Masking fails exactly when two keys of one object would become equal. */
  lemma {:induction false} MaskingFailsOnCollisionsOnly(r: Redactor, fragments: bool, v: Json)
    ensures MaskValue(r, fragments, v).Some? <==> KeysStayApart(r, fragments, v)
  {
    match v
    case Arr(items) => ItemsFailOnCollisionsOnly(r, fragments, items);
    case Obj(members) => MembersFailOnCollisionsOnly(r, fragments, members, {});
    case _ =>
  }

  lemma {:induction false} ItemsFailOnCollisionsOnly(r: Redactor, fragments: bool, items: Items)
    ensures MaskItems(r, fragments, items).Some? <==> ItemsStayApart(r, fragments, items)
  {
    if items.Item? {
      MaskingFailsOnCollisionsOnly(r, fragments, items.head);
      ItemsFailOnCollisionsOnly(r, fragments, items.tail);
    }
  }

  lemma {:induction false} MembersFailOnCollisionsOnly(r: Redactor, fragments: bool, members: Members, taken: set<string>)
    ensures MaskMembers(r, fragments, members, taken).Some? <==>
            && MembersStayApart(r, fragments, members)
            && (forall key <- Keys(members) :: Mask(r, fragments, key) !in taken)
  {
    if members.Member? {
      var safeKey := Mask(r, fragments, members.key);
      MaskingFailsOnCollisionsOnly(r, fragments, members.value);
      MembersFailOnCollisionsOnly(r, fragments, members.rest, taken + {safeKey});
    }
  }

  /** A value with its strings and keys blanked out. */
  function Skeleton(v: Json): Json {
    match v
    case Str(_) => Str("")
    case Arr(items) => Arr(ItemsSkeleton(items))
    case Obj(members) => Obj(MembersSkeleton(members))
    case _ => v
  }

  function ItemsSkeleton(items: Items): Items {
    match items
    case NoItems => NoItems
    case Item(head, tail) => Item(Skeleton(head), ItemsSkeleton(tail))
  }

  function MembersSkeleton(members: Members): Members {
    match members
    case NoMembers => NoMembers
    case Member(_, value, rest) => Member("", Skeleton(value), MembersSkeleton(rest))
  }

  /** The strings and keys of a value, in order. */
  function Strings(v: Json): seq<string> {
    match v
    case Str(text) => [text]
    case Arr(items) => ItemsStrings(items)
    case Obj(members) => MembersStrings(members)
    case _ => []
  }

  function ItemsStrings(items: Items): seq<string> {
    match items
    case NoItems => []
    case Item(head, tail) => Strings(head) + ItemsStrings(tail)
  }

  function MembersStrings(members: Members): seq<string> {
    match members
    case NoMembers => []
    case Member(key, value, rest) => [key] + Strings(value) + MembersStrings(rest)
  }

  /** w is v with every string masked on its own, and nothing else changed. */
  ghost predicate MaskedPointwise(r: Redactor, fragments: bool, before: seq<string>, after: seq<string>) {
    |after| == |before| && forall i :: 0 <= i < |before| ==> after[i] == Mask(r, fragments, before[i])
  }

  lemma PointwiseJoins(r: Redactor, fragments: bool, a: seq<string>, a': seq<string>, b: seq<string>, b': seq<string>)
    requires MaskedPointwise(r, fragments, a, a') && MaskedPointwise(r, fragments, b, b')
    ensures MaskedPointwise(r, fragments, a + b, a' + b')
  {
  }

  lemma {:induction false} MaskingIsPointwise(r: Redactor, fragments: bool, v: Json)
    requires MaskValue(r, fragments, v).Some?
    ensures Skeleton(MaskValue(r, fragments, v).value) == Skeleton(v)
    ensures MaskedPointwise(r, fragments, Strings(v), Strings(MaskValue(r, fragments, v).value))
  {
    match v
    case Arr(items) => ItemsMaskingIsPointwise(r, fragments, items);
    case Obj(members) => MembersMaskingIsPointwise(r, fragments, members, {});
    case _ =>
  }

  lemma {:induction false} ItemsMaskingIsPointwise(r: Redactor, fragments: bool, items: Items)
    requires MaskItems(r, fragments, items).Some?
    ensures ItemsSkeleton(MaskItems(r, fragments, items).value) == ItemsSkeleton(items)
    ensures MaskedPointwise(r, fragments, ItemsStrings(items), ItemsStrings(MaskItems(r, fragments, items).value))
  {
    if items.Item? {
      MaskingIsPointwise(r, fragments, items.head);
      ItemsMaskingIsPointwise(r, fragments, items.tail);
    }
  }

  lemma {:induction false} MembersMaskingIsPointwise(r: Redactor, fragments: bool, members: Members, taken: set<string>)
    requires MaskMembers(r, fragments, members, taken).Some?
    ensures MembersSkeleton(MaskMembers(r, fragments, members, taken).value) == MembersSkeleton(members)
    ensures var masked := MaskMembers(r, fragments, members, taken).value;
            MaskedPointwise(r, fragments, MembersStrings(members), MembersStrings(masked))
  {
    if members.Member? {
      var safeKey := Mask(r, fragments, members.key);
      var safeValue := MaskValue(r, fragments, members.value).value;
      var safeRest := MaskMembers(r, fragments, members.rest, taken + {safeKey}).value;
      MaskingIsPointwise(r, fragments, members.value);
      MembersMaskingIsPointwise(r, fragments, members.rest, taken + {safeKey});
      PointwiseJoins(r, fragments, [members.key], [safeKey], Strings(members.value), Strings(safeValue));
      PointwiseJoins(r, fragments, [members.key] + Strings(members.value), [safeKey] + Strings(safeValue),
                     MembersStrings(members.rest), MembersStrings(safeRest));
    }
  }
}
