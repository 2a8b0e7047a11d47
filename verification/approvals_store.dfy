/** Approval rows, standing grants, and the in-memory store that holds them. */
module ApprovalsStore {
  import opened Wrappers

  datatype Status = Pending | Approved | Denied | TimedOut | Cancelled

  datatype Decision = Approve | Deny

  datatype Scope = Once | Session | WorkspaceTool | AdapterTool

  datatype Path = Operator | Grant | DefaultMode | Timeout | RequestCancelled | StartupReconcile

  /** What a resolution writes into a row. */
  datatype Resolution = Resolution(
    status: Status, decision: Option<Decision>, selected: string, scope: Option<Scope>, path: Path)

  datatype Approval = Approval(
    id: string, createdAt: int, status: Status, resolution: Option<Resolution>, resolvedAt: Option<int>)

  /** A row as its creator hands it over; None where the creator left a field empty. */
  datatype Draft = Draft(
    id: string, createdAt: Option<int>, status: Option<Status>, resolution: Option<Resolution>,
    resolvedAt: Option<int>)

  datatype Grant = Grant(
    id: string, scope: Scope, adapterId: string, toolKind: string, workspace: string, sessionId: string,
    decision: Decision, grantedAt: int, expiresAt: Option<int>)

  datatype StoreError = NotFound | AlreadyResolved

  // ----- Resolving a row -----

  type Rows = map<string, Approval>

  /** Rows are filed under their own id. */
  ghost predicate Filed(rows: Rows) {
    forall id <- rows :: rows[id].id == id
  }

  function Resolved(row: Approval, res: Resolution, now: int): Approval {
    row.(status := res.status, resolution := Some(res), resolvedAt := Some(now))
  }

  function ResolveRow(rows: Rows, id: string, res: Resolution, now: int): (Rows, Result<Approval, StoreError>) {
    if id !in rows then (rows, Err(NotFound))
    else if rows[id].status != Pending then (rows, Err(AlreadyResolved))
    else (rows[id := Resolved(rows[id], res, now)], Ok(Resolved(rows[id], res, now)))
  }

  /** The second of two terminal writers always loses, and changes nothing. */
  lemma FirstResolutionWins(rows: Rows, id: string, first: Resolution, second: Resolution, t: int, u: int)
    requires id in rows && rows[id].status == Pending && first.status != Pending
    ensures var (after, _) := ResolveRow(rows, id, first, t);
            ResolveRow(after, id, second, u) == (after, Err(AlreadyResolved))
  {
  }

  // ----- Standing grants -----

  /** How specific a scope is; None for a scope that never stands. */
  function Rank(scope: Scope): Option<nat> {
    match scope
    case Once => None
    case Session => Some(0)
    case WorkspaceTool => Some(1)
    case AdapterTool => Some(2)
  }

  datatype Request = Request(sessionId: string, workspace: string, adapterId: string, toolKind: string)

  predicate Live(g: Grant, now: int) {
    g.expiresAt.Some? ==> g.expiresAt.value > now
  }

  predicate Matches(g: Grant, req: Request, now: int) {
    && g.adapterId == req.adapterId && g.toolKind == req.toolKind && Live(g, now)
    && match g.scope
       case Session => g.sessionId == req.sessionId
       case WorkspaceTool => g.workspace == req.workspace
       case AdapterTool => true
       case Once => false
  }

  /** g is at least as specific as h, and at least as recent when equally specific. */
  predicate Outranks(g: Grant, h: Grant)
    requires Rank(g.scope).Some? && Rank(h.scope).Some?
  {
    || Rank(g.scope).value < Rank(h.scope).value
    || (g.scope == h.scope && g.grantedAt >= h.grantedAt)
  }

  // ----- Newest first -----

  function Ids(rows: seq<Approval>): set<string> {
    set row <- rows :: row.id
  }

  ghost predicate NewestFirst(rows: seq<Approval>) {
    forall i, j :: 0 <= i < j < |rows| ==> rows[i].createdAt >= rows[j].createdAt
  }

  function Insert(row: Approval, rows: seq<Approval>): seq<Approval> {
    if rows == [] || row.createdAt >= rows[0].createdAt then [row] + rows
    else [rows[0]] + Insert(row, rows[1..])
  }

  function Sorted(rows: seq<Approval>): seq<Approval> {
    if rows == [] then [] else Insert(rows[0], Sorted(rows[1..]))
  }

  lemma {:induction false} InsertAddsRow(row: Approval, rows: seq<Approval>)
    ensures multiset(Insert(row, rows)) == multiset(rows) + multiset{row}
  {
    if rows != [] && row.createdAt < rows[0].createdAt {
      InsertAddsRow(row, rows[1..]);
      assert rows == [rows[0]] + rows[1..];
    }
  }

  lemma {:induction false} InsertKeepsOrder(row: Approval, rows: seq<Approval>)
    requires NewestFirst(rows)
    ensures NewestFirst(Insert(row, rows))
  {
    if rows != [] && row.createdAt < rows[0].createdAt {
      InsertKeepsOrder(row, rows[1..]);
      InsertAddsRow(row, rows[1..]);
      var rest := Insert(row, rows[1..]);
      forall x | x in rest ensures x.createdAt <= rows[0].createdAt {
        assert x in multiset(rest);
      }
    }
  }

  lemma {:induction false} SortedIsNewestFirst(rows: seq<Approval>)
    ensures NewestFirst(Sorted(rows))
    ensures multiset(Sorted(rows)) == multiset(rows)
  {
    if rows != [] {
      SortedIsNewestFirst(rows[1..]);
      InsertKeepsOrder(rows[0], Sorted(rows[1..]));
      InsertAddsRow(rows[0], Sorted(rows[1..]));
      assert rows == [rows[0]] + rows[1..];
    }
  }

  // ----- Retention -----

  /** The ids of the rows that are no longer pending. */
  function Settled(rows: Rows): set<string> {
    set id <- rows | rows[id].status != Pending
  }

  /** A listing of the settled rows, each once. */
  ghost predicate Lists(listing: seq<Approval>, rows: Rows) {
    ListsExcept(listing, rows, {})
  }

  /** A listing of the settled rows outside rest. */
  ghost predicate ListsExcept(listing: seq<Approval>, rows: Rows, rest: set<string>) {
    && (forall row <- listing :: row.id in rows && rows[row.id] == row)
    && Ids(listing) == Settled(rows) - rest
    && |Ids(listing)| == |listing|
  }

  lemma ListOneMore(listing: seq<Approval>, rows: Rows, rest: set<string>, id: string)
    requires Filed(rows) && ListsExcept(listing, rows, rest) && id in rest && id in Settled(rows)
    ensures ListsExcept(listing + [rows[id]], rows, rest - {id})
  {
    IdsAppend(listing, rows[id]);
  }

  lemma IdsAppend(listing: seq<Approval>, row: Approval)
    ensures Ids(listing + [row]) == Ids(listing) + {row.id}
    ensures row.id !in Ids(listing) && |Ids(listing)| == |listing| ==> |Ids(listing + [row])| == |listing + [row]|
  {
  }

  lemma IdsOfPermutation(a: seq<Approval>, b: seq<Approval>)
    requires multiset(a) == multiset(b)
    ensures Ids(a) == Ids(b) && |a| == |b|
    ensures forall row :: row in a <==> row in b
  {
    assert forall row :: row in a <==> row in multiset(a);
    assert forall row :: row in b <==> row in multiset(b);
    assert |multiset(a)| == |a| && |multiset(b)| == |b|;
  }

  lemma {:induction false} IdsBounded(listing: seq<Approval>)
    ensures |Ids(listing)| <= |listing|
  {
    if listing != [] {
      var init := listing[..|listing| - 1];
      IdsBounded(init);
      assert listing == init + [listing[|listing| - 1]];
      IdsAppend(init, listing[|listing| - 1]);
    }
  }

  /** A listing without repetitions splits into disjoint halves. */
  lemma SplitListing(listing: seq<Approval>, k: nat)
    requires |Ids(listing)| == |listing| && k <= |listing|
    ensures Ids(listing) == Ids(listing[..k]) + Ids(listing[k..])
    ensures Ids(listing[..k]) !! Ids(listing[k..])
    ensures |Ids(listing[..k])| == k && |Ids(listing[k..])| == |listing| - k
  {
    assert listing == listing[..k] + listing[k..];
    IdsBounded(listing[..k]);
    IdsBounded(listing[k..]);
    var a, b := Ids(listing[..k]), Ids(listing[k..]);
    assert Ids(listing) == a + b;
    assert |a + b| == |a| + |b| - |a * b|;
    assert |a * b| == 0;
    assert a * b == {};
    assert forall id :: id in a && id in b ==> id in a * b;
  }

  function TooOld(rows: Rows, cutoff: int): set<string> {
    set id <- rows | rows[id].status != Pending && rows[id].createdAt < cutoff
  }

  function Young(rows: Rows, now: int, maxAge: int): Rows {
    if maxAge > 0 then rows - TooOld(rows, now - maxAge) else rows
  }

  /** A sweep keeps pending rows, keeps rows as they are, and stops dropping at the count. */
  ghost predicate Swept(before: Rows, after: Rows, maxCount: int) {
    && after.Keys <= before.Keys
    && (forall id <- after :: after[id] == before[id])
    && before.Keys - Settled(before) <= after.Keys
    && (maxCount > 0 ==> |Settled(after)| <= maxCount)
    && (after.Keys != before.Keys ==> |Settled(after)| == maxCount)
  }

  /** Whatever was dropped is no newer than any settled row that stayed. */
  ghost predicate StayedNewer(before: Rows, after: Rows) {
    forall id, kept :: id in before && id !in after && kept in Settled(after) ==>
      after[kept].createdAt >= before[id].createdAt
  }

  lemma DroppingTheTailSweeps(rows: Rows, listing: seq<Approval>, maxCount: nat)
    requires Lists(listing, rows) && 0 < maxCount <= |listing|
    ensures Swept(rows, rows - Ids(listing[maxCount..]), maxCount)
    ensures Settled(rows - Ids(listing[maxCount..])) == Ids(listing[..maxCount])
    ensures |rows - Ids(listing[maxCount..])| == |rows| - (|listing| - maxCount)
  {
    SettledSplits(rows, listing, maxCount);
    DroppingSweeps(rows, Ids(listing[..maxCount]), Ids(listing[maxCount..]));
  }

  lemma SettledSplits(rows: Rows, listing: seq<Approval>, k: nat)
    requires Lists(listing, rows) && k <= |listing|
    ensures Settled(rows) == Ids(listing[..k]) + Ids(listing[k..]) && Ids(listing[..k]) !! Ids(listing[k..])
    ensures |Ids(listing[..k])| == k && |Ids(listing[k..])| == |listing| - k
  {
    SplitListing(listing, k);
  }

  lemma DroppingSweeps(rows: Rows, kept: set<string>, dropped: set<string>)
    requires Settled(rows) == kept + dropped && kept !! dropped && kept != {}
    ensures Swept(rows, rows - dropped, |kept|)
    ensures Settled(rows - dropped) == kept
    ensures |rows - dropped| == |rows| - |dropped|
  {
    SettledAfter(rows, dropped);
    RemovedCount(rows, dropped);
  }

  lemma DroppingTheTailKeepsNewest(rows: Rows, listing: seq<Approval>, maxCount: nat)
    requires Lists(listing, rows) && NewestFirst(listing) && 0 < maxCount <= |listing|
    ensures StayedNewer(rows, rows - Ids(listing[maxCount..]))
  {
    var after := rows - Ids(listing[maxCount..]);
    DroppingTheTailSweeps(rows, listing, maxCount);
    forall id, kept | id in rows && id !in after && kept in Settled(after)
      ensures after[kept].createdAt >= rows[id].createdAt
    {
      HeadIsNewer(rows, listing, maxCount, kept, id);
    }
  }

  lemma SettledAfter(rows: Rows, dropped: set<string>)
    ensures Settled(rows - dropped) == Settled(rows) - dropped
  {
  }

  lemma HeadIsNewer(rows: Rows, listing: seq<Approval>, k: nat, kept: string, id: string)
    requires Lists(listing, rows) && NewestFirst(listing) && k <= |listing|
    requires kept in Ids(listing[..k]) && id in Ids(listing[k..])
    ensures kept in rows && id in rows
    ensures rows[kept].createdAt >= rows[id].createdAt
  {
    var newer :| newer in listing[..k] && newer.id == kept;
    var older :| older in listing[k..] && older.id == id;
    assert newer in listing && older in listing;
  }

  class MemoryApprovalStore {
    var approvals: Rows
    var grants: map<string, Grant>

    constructor ()
      ensures approvals == map[] && grants == map[]
    {
      approvals, grants := map[], map[];
    }

    /** Files a row, filling in what the caller left open: a new id, the time, and pending. */
    method CreateApproval(draft: Draft, newId: string, now: int) returns (stored: Approval)
      requires Filed(approvals)
      modifies this`approvals
      ensures Filed(approvals) && approvals == old(approvals)[stored.id := stored]
      ensures stored.id == if draft.id == "" then newId else draft.id
      ensures stored.createdAt == if draft.createdAt.Some? then draft.createdAt.value else now
      ensures stored.status == if draft.status.Some? then draft.status.value else Pending
      ensures stored.resolution == draft.resolution && stored.resolvedAt == draft.resolvedAt
    {
      var (id, createdAt, status) := (draft.id, now, Pending);
      if id == "" {
        id := newId;
      }
      if draft.createdAt.Some? {
        createdAt := draft.createdAt.value;
      }
      if draft.status.Some? {
        status := draft.status.value;
      }
      stored := Approval(id, createdAt, status, draft.resolution, draft.resolvedAt);
      approvals := approvals[id := stored];
    }

    method GetApproval(id: string) returns (res: Result<Approval, StoreError>)
      ensures res == if id in approvals then Ok(approvals[id]) else Err(NotFound)
    {
      if id !in approvals {
        return Err(NotFound);
      }
      return Ok(approvals[id]);
    }

    method ResolveApproval(id: string, res: Resolution, now: int) returns (out: Result<Approval, StoreError>)
      requires Filed(approvals)
      modifies this`approvals
      ensures (approvals, out) == ResolveRow(old(approvals), id, res, now)
      ensures Filed(approvals)
    {
      if id !in approvals {
        return Err(NotFound);
      }
      var row := approvals[id];
      if row.status != Pending {
        return Err(AlreadyResolved);
      }
      row := row.(status := res.status);
      row := row.(resolution := Some(res));
      row := row.(resolvedAt := Some(now));
      approvals := approvals[id := row];
      return Ok(row);
    }

    /** Files a grant; dated: the caller gave the time. */
    method CreateGrant(g: Grant, dated: bool, newId: string, now: int) returns (stored: Grant)
      modifies this`grants
      ensures grants == old(grants)[stored.id := stored]
      ensures stored.id == if g.id == "" then newId else g.id
      ensures stored.grantedAt == if dated then g.grantedAt else now
      ensures stored.(id := g.id, grantedAt := g.grantedAt) == g
    {
      stored := g;
      if g.id == "" {
        stored := stored.(id := newId);
      }
      if !dated {
        stored := stored.(grantedAt := now);
      }
      grants := grants[stored.id := stored];
    }

    /** The most specific live grant, and the most recent among those, whatever the visiting order. */
    method FindMatchingGrant(req: Request, now: int) returns (best: Option<Grant>)
      ensures best == None <==> forall id <- grants :: !Matches(grants[id], req, now)
      ensures best.Some? ==> Matches(best.value, req, now) && exists id <- grants :: grants[id] == best.value
      ensures best.Some? ==> forall id <- grants :: Matches(grants[id], req, now) ==> Outranks(best.value, grants[id])
    {
      best := None;
      var rest := grants.Keys;
      while rest != {}
        invariant rest <= grants.Keys
        invariant best.Some? ==> Matches(best.value, req, now) && exists id <- grants :: grants[id] == best.value
        invariant forall id <- grants :: id !in rest && Matches(grants[id], req, now) ==>
                    best.Some? && Outranks(best.value, grants[id])
        decreases |rest|
      {
        var id :| id in rest;
        rest := rest - {id};
        var g := grants[id];
        if Matches(g, req, now) {
          var rank := Rank(g.scope).value;
          if best == None
             || rank < Rank(best.value.scope).value
             || (rank == Rank(best.value.scope).value && g.grantedAt > best.value.grantedAt) {
            best := Some(g);
          }
        }
      }
    }

    /** Lists the settled rows in whatever order the map yields them. */
    method CollectSettled() returns (listing: seq<Approval>)
      requires Filed(approvals)
      ensures Lists(listing, approvals)
    {
      listing := [];
      var rest := approvals.Keys;
      while rest != {}
        invariant rest <= approvals.Keys
        invariant ListsExcept(listing, approvals, rest)
        decreases |rest|
      {
        var id :| id in rest;
        if approvals[id].status != Pending {
          ListOneMore(listing, approvals, rest, id);
          listing := listing + [approvals[id]];
        }
        rest := rest - {id};
      }
    }

    /** Drops what is too old, then what does not fit the count; pending rows always stay. */
    method PruneApprovals(now: int, maxAge: int, maxCount: int) returns (deleted: nat)
      requires Filed(approvals)
      modifies this`approvals
      ensures Filed(approvals)
      ensures Swept(Young(old(approvals), now, maxAge), approvals, maxCount)
      ensures StayedNewer(Young(old(approvals), now, maxAge), approvals)
      ensures deleted == |old(approvals)| - |approvals|
    {
      var aged := PruneByAge(now, maxAge);
      var dropped := PruneByCount(maxCount);
      deleted := aged + dropped;
    }

    method PruneByAge(now: int, maxAge: int) returns (deleted: nat)
      requires Filed(approvals)
      modifies this`approvals
      ensures Filed(approvals)
      ensures approvals == Young(old(approvals), now, maxAge)
      ensures deleted == |old(approvals)| - |approvals|
    {
      if maxAge <= 0 {
        return 0;
      }
      YoungCounts(approvals, now, maxAge);
      deleted := DropAged(now - maxAge);
    }

    method DropAged(cutoff: int) returns (deleted: nat)
      modifies this`approvals
      ensures approvals == old(approvals) - TooOld(old(approvals), cutoff)
      ensures deleted == |TooOld(old(approvals), cutoff)|
    {
      ghost var (before, aged) := (approvals, TooOld(approvals, cutoff));
      deleted := 0;
      var rest := approvals.Keys;
      NothingDroppedYet(before, aged);
      while rest != {}
        invariant rest <= before.Keys
        invariant approvals == before - (aged - rest)
        invariant deleted == |aged - rest|
        decreases |rest|
      {
        var id :| id in rest;
        DropOneMore(before, aged, rest, id);
        rest := rest - {id};
        if approvals[id].status != Pending && approvals[id].createdAt < cutoff {
          approvals := approvals - {id};
          deleted := deleted + 1;
        }
      }
      assert aged - rest == aged;
    }

    method PruneByCount(maxCount: int) returns (deleted: nat)
      requires Filed(approvals)
      modifies this`approvals
      ensures Filed(approvals)
      ensures Swept(old(approvals), approvals, maxCount)
      ensures StayedNewer(old(approvals), approvals)
      ensures deleted == |old(approvals)| - |approvals|
    {
      if maxCount <= 0 {
        return 0;
      }
      var listing := CollectSettled();
      SortedIsNewestFirst(listing);
      IdsOfPermutation(Sorted(listing), listing);
      listing := Sorted(listing);
      if |listing| <= maxCount {
        return 0;
      }
      DroppingTheTailSweeps(approvals, listing, maxCount);
      DroppingTheTailKeepsNewest(approvals, listing, maxCount);
      deleted := DropFrom(listing, maxCount);
    }

    method DropFrom(listing: seq<Approval>, k: nat) returns (deleted: nat)
      requires Filed(approvals) && k <= |listing|
      modifies this`approvals
      ensures Filed(approvals) && approvals == old(approvals) - Ids(listing[k..]) && deleted == |listing| - k
    {
      var i := k;
      deleted := 0;
      assert approvals - Ids(listing[k..k]) == approvals;
      while i < |listing|
        invariant k <= i <= |listing| && deleted == i - k
        invariant approvals == old(approvals) - Ids(listing[k..i])
      {
        assert listing[k..i + 1] == listing[k..i] + [listing[i]];
        IdsAppend(listing[k..i], listing[i]);
        approvals := approvals - {listing[i].id};
        deleted := deleted + 1;
        i := i + 1;
      }
      assert listing[k..i] == listing[k..];
    }

    /** At startup every pending row is closed, because its waiter did not survive. */
    method ReconcilePending(now: int) returns (closed: nat)
      modifies this`approvals
      ensures approvals.Keys == old(approvals).Keys
      ensures forall id <- approvals :: approvals[id] == Reconciled(old(approvals)[id], now)
      ensures closed == |old(approvals).Keys - Settled(old(approvals))|
    {
      ghost var before := approvals;
      ghost var open := approvals.Keys - Settled(approvals);
      var rest := approvals.Keys;
      closed := 0;
      while rest != {}
        invariant rest <= approvals.Keys == before.Keys
        invariant forall id <- approvals :: approvals[id] == if id in rest then before[id] else Reconciled(before[id], now)
        invariant closed == |open - rest|
        decreases |rest|
      {
        var id :| id in rest;
        CountOneMore(open, rest, id);
        rest := rest - {id};
        if approvals[id].status == Pending {
          approvals := approvals[id := Reconciled(approvals[id], now)];
          closed := closed + 1;
        }
      }
    }
  }

  lemma CountOneMore(open: set<string>, rest: set<string>, id: string)
    requires id in rest
    ensures |open - (rest - {id})| == |open - rest| + (if id in open then 1 else 0)
  {
    if id in open {
      assert open - (rest - {id}) == open - rest + {id};
    } else {
      assert open - (rest - {id}) == open - rest;
    }
  }

  lemma YoungCounts(rows: Rows, now: int, maxAge: int)
    requires Filed(rows) && maxAge > 0
    ensures Filed(Young(rows, now, maxAge)) && Young(rows, now, maxAge) == rows - TooOld(rows, now - maxAge)
    ensures |Young(rows, now, maxAge)| == |rows| - |TooOld(rows, now - maxAge)|
  {
    RemovedCount(rows, TooOld(rows, now - maxAge));
  }

  lemma NothingDroppedYet(rows: Rows, gone: set<string>)
    requires gone <= rows.Keys
    ensures gone - rows.Keys == {} && rows - (gone - rows.Keys) == rows
  {
  }

  lemma DropOneMore(rows: Rows, gone: set<string>, rest: set<string>, id: string)
    requires id in rest && id in rows
    ensures id in rows - (gone - rest) && (rows - (gone - rest))[id] == rows[id]
    ensures rows - (gone - (rest - {id})) == rows - (gone - rest) - (if id in gone then {id} else {})
    ensures rows - (gone - rest) - {} == rows - (gone - rest)
    ensures |gone - (rest - {id})| == |gone - rest| + (if id in gone then 1 else 0)
  {
    CountOneMore(gone, rest, id);
  }

  function Reconciled(row: Approval, now: int): Approval {
    if row.status == Pending then Resolved(row, Resolution(TimedOut, None, "", None, StartupReconcile), now) else row
  }

  lemma RemovedCount(rows: Rows, gone: set<string>)
    requires gone <= rows.Keys
    ensures |rows - gone| == |rows| - |gone|
  {
    assert (rows - gone).Keys == rows.Keys - gone;
    assert |(rows - gone).Keys| == |rows| - |gone|;
  }
}
