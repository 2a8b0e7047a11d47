/** Approval of executables: a reader/writer protocol that pins the approved identity while a permit is open. */
module ExecutableTrust {
  import opened Wrappers

  type AdapterId = string
  type LockId = nat

  /** Surrounding space is trimmed before identities are compared. */
  datatype Identity = Identity(schema: string, token: string)

  predicate Same(a: Identity, b: Identity) {
    a.schema == b.schema && a.token != "" && a.token == b.token
  }

  // ----- Locks and permits in place -----

  datatype Lock = Lock(readers: nat, writer: bool)

  function ReadLocked(l: Lock): Lock {
    l.(readers := l.readers + 1)
  }

  function ReadUnlocked(l: Lock): Lock {
    if l.readers > 0 then l.(readers := l.readers - 1) else l
  }

  function WriteLocked(l: Lock): Lock {
    l.(writer := true)
  }

  function WriteUnlocked(l: Lock): Lock {
    l.(writer := false)
  }

  /** A reader enters while nobody writes. */
  predicate Readable(l: Lock) {
    !l.writer
  }

  /** A writer enters while nobody reads or writes. */
  predicate Writable(l: Lock) {
    l.readers == 0 && !l.writer
  }

  class RWLock {
    var readers: nat
    var writer: bool

    ghost function Value(): Lock
      reads this
    {
      Lock(readers, writer)
    }

    constructor ()
      ensures Value() == Lock(0, false)
    {
      readers, writer := 0, false;
    }

    method TryReadLock() returns (ok: bool)
      modifies this`readers
      ensures ok <==> Readable(old(Value()))
      ensures Value() == if ok then ReadLocked(old(Value())) else old(Value())
    {
      ok := !writer;
      if ok {
        readers := readers + 1;
      }
    }

    method ReadUnlock()
      requires readers > 0
      modifies this`readers
      ensures Value() == ReadUnlocked(old(Value()))
    {
      readers := readers - 1;
    }

    method TryWriteLock() returns (ok: bool)
      modifies this`writer
      ensures ok <==> Writable(old(Value()))
      ensures Value() == if ok then WriteLocked(old(Value())) else old(Value())
    {
      ok := readers == 0 && !writer;
      if ok {
        writer := true;
      }
    }

    method WriteUnlock()
      requires writer
      modifies this`writer
      ensures Value() == WriteUnlocked(old(Value()))
    {
      writer := false;
    }
  }

  class Permit {
    const identity: Identity
    const lock: RWLock
    var closed: bool

    constructor (identity: Identity, lock: RWLock)
      ensures this.identity == identity && this.lock == lock && !closed
    {
      this.identity, this.lock, closed := identity, lock, false;
    }

    /** However often it is called, the read lock is given back once. */
    method Close()
      requires !closed ==> lock.readers > 0
      modifies this`closed, lock`readers
      ensures closed
      ensures lock.Value() == if old(closed) then old(lock.Value()) else ReadUnlocked(old(lock.Value()))
    {
      if !closed {
        closed := true;
        lock.ReadUnlock();
      }
    }
  }

  /** Hands out the one lock of an adapter. */
  class LockTable {
    var locks: map<AdapterId, LockId>
    var next: LockId

    ghost predicate Valid()
      reads this
    {
      && (forall a <- locks :: locks[a] < next)
      && (forall a, b :: a in locks && b in locks && locks[a] == locks[b] ==> a == b)
    }

    constructor ()
      ensures Valid() && locks == map[]
    {
      locks, next := map[], 0;
    }

    /** The same adapter always gets the same lock, and never another adapter's. */
    method LockFor(a: AdapterId) returns (lock: LockId)
      requires Valid()
      modifies this
      ensures Valid() && locks == old(locks)[a := lock]
      ensures a in old(locks) ==> lock == old(locks)[a]
      ensures forall b <- old(locks) :: b != a ==> old(locks)[b] != lock
    {
      if a !in locks {
        locks := locks[a := next];
        next := next + 1;
      }
      lock := locks[a];
    }
  }

  // ----- Authorizations, approvals and revocations -----

  datatype Authorization =
    | Wanting(a: AdapterId)
    | Locked(a: AdapterId)
    | Measured(a: AdapterId, identity: Identity)
    | Permitted(a: AdapterId, identity: Identity, open: bool)
    | Refused

  datatype Change = Approve(expected: string) | Revoke

  datatype Writer = Queued(a: AdapterId, change: Change) | Writing(a: AdapterId, change: Change) | Over(ok: bool)

  datatype State = State(
    records: map<AdapterId, Identity>, locks: map<AdapterId, Lock>,
    authorizations: map<nat, Authorization>, writers: map<nat, Writer>)

  datatype Step =
    | Authorize(k: nat, a: AdapterId)
    | ReadLock(k: nat)
    | Measure(k: nat, identity: Option<Identity>)
    | Compare(k: nat, readable: bool)
    | ClosePermit(k: nat)
    | Request(k: nat, a: AdapterId, change: Change)
    | WriteLock(k: nat)
    | Apply(k: nat, measured: Option<Identity>, stored: bool)

  function Init(): State {
    State(map[], map[], map[], map[])
  }

  function LockOf(s: State, a: AdapterId): Lock {
    if a in s.locks then s.locks[a] else Lock(0, false)
  }

  function WithLock(s: State, a: AdapterId, lock: Lock): State {
    s.(locks := s.locks[a := lock])
  }

  /** Gives the read lock back and ends the authorization there. */
  function Unlock(s: State, k: nat, a: AdapterId, next: Authorization): Option<State> {
    if LockOf(s, a).readers == 0 then None
    else Some(WithLock(s, a, ReadUnlocked(LockOf(s, a))).(authorizations := s.authorizations[k := next]))
  }

  function NextAuthorization(s: State, step: Step, k: nat): Option<State>
    requires k in s.authorizations
  {
    match (step, s.authorizations[k])
    case (ReadLock(_), Wanting(a)) =>
      if !Readable(LockOf(s, a)) then None
      else Some(WithLock(s, a, ReadLocked(LockOf(s, a))).(authorizations := s.authorizations[k := Locked(a)]))
    case (Measure(_, identity), Locked(a)) =>
      if identity.None? then Unlock(s, k, a, Refused)
      else Some(s.(authorizations := s.authorizations[k := Measured(a, identity.value)]))
    case (Compare(_, readable), Measured(a, identity)) =>
      if readable && a in s.records && Same(identity, s.records[a])
      then Some(s.(authorizations := s.authorizations[k := Permitted(a, identity, true)]))
      else Unlock(s, k, a, Refused)
    case (ClosePermit(_), Permitted(a, identity, open)) =>
      if open then Unlock(s, k, a, Permitted(a, identity, false)) else Some(s)
    case _ => None
  }

  /** The record after a change under the write lock; expected is the identity the operator reviewed. */
  function Applied(
      records: map<AdapterId, Identity>, a: AdapterId, change: Change, measured: Option<Identity>, stored: bool)
      : (map<AdapterId, Identity>, bool) {
    match change
    case Revoke => if stored then (records - {a}, true) else (records, false)
    case Approve(expected) =>
      if measured.None? || expected == "" || expected != measured.value.token || !stored then (records, false)
      else (records[a := measured.value], true)
  }

  function NextWriter(s: State, step: Step, k: nat): Option<State>
    requires k in s.writers
  {
    match (step, s.writers[k])
    case (WriteLock(_), Queued(a, change)) =>
      if !Writable(LockOf(s, a)) then None
      else Some(WithLock(s, a, WriteLocked(LockOf(s, a))).(writers := s.writers[k := Writing(a, change)]))
    case (Apply(_, measured, stored), Writing(a, change)) =>
      var (records, ok) := Applied(s.records, a, change, measured, stored);
      Some(WithLock(s, a, WriteUnlocked(LockOf(s, a))).(records := records, writers := s.writers[k := Over(ok)]))
    case _ => None
  }

  function Next(s: State, step: Step): Option<State> {
    match step
    case Authorize(k, a) =>
      if k in s.authorizations then None else Some(s.(authorizations := s.authorizations[k := Wanting(a)]))
    case Request(k, a, change) =>
      if k in s.writers then None else Some(s.(writers := s.writers[k := Queued(a, change)]))
    case WriteLock(k) => if k in s.writers then NextWriter(s, step, k) else None
    case Apply(k, _, _) => if k in s.writers then NextWriter(s, step, k) else None
    case ReadLock(k) => if k in s.authorizations then NextAuthorization(s, step, k) else None
    case Measure(k, _) => if k in s.authorizations then NextAuthorization(s, step, k) else None
    case Compare(k, _) => if k in s.authorizations then NextAuthorization(s, step, k) else None
    case ClosePermit(k) => if k in s.authorizations then NextAuthorization(s, step, k) else None
  }

  function Run(s: State, steps: seq<Step>): Option<State>
    decreases |steps|
  {
    if steps == [] then Some(s)
    else match Next(s, steps[0])
      case None => None
      case Some(t) => Run(t, steps[1..])
  }

  // ----- What every step keeps -----

  predicate Reads(auth: Authorization, a: AdapterId) {
    match auth
    case Locked(b) => a == b
    case Measured(b, _) => a == b
    case Permitted(b, _, open) => a == b && open
    case _ => false
  }

  function ReadersOf(authorizations: map<nat, Authorization>, a: AdapterId): set<nat> {
    set k | k in authorizations && Reads(authorizations[k], a)
  }

  /** The reader count is the number of authorizations that hold the lock, so each gives it back once. */
  ghost predicate LockInv(s: State, a: AdapterId) {
    && LockOf(s, a).readers == |ReadersOf(s.authorizations, a)|
    && (LockOf(s, a).writer ==> LockOf(s, a).readers == 0)
    && (LockOf(s, a).writer <==> exists k <- s.writers :: s.writers[k].Writing? && s.writers[k].a == a)
  }

  ghost predicate AloneInv(s: State) {
    forall j, k ::
      (j in s.writers && k in s.writers && s.writers[j].Writing? && s.writers[k].Writing?
       && s.writers[j].a == s.writers[k].a) ==> j == k
  }

  ghost predicate PermitInv(s: State, k: nat)
    requires k in s.authorizations
  {
    var auth := s.authorizations[k];
    auth.Permitted? && auth.open ==> auth.a in s.records && Same(auth.identity, s.records[auth.a])
  }

  ghost predicate Inv(s: State) {
    (forall a :: LockInv(s, a)) && AloneInv(s) && forall k <- s.authorizations :: PermitInv(s, k)
  }

  lemma InitInv()
    ensures Inv(Init())
  {
    forall a ensures LockInv(Init(), a) {
      assert ReadersOf(map[], a) == {};
    }
  }

  /** The readers other than k. */
  function OtherReaders(authorizations: map<nat, Authorization>, k: nat, a: AdapterId): set<nat> {
    set j | j in authorizations && j != k && Reads(authorizations[j], a)
  }

  lemma ReadersAndOne(authorizations: map<nat, Authorization>, k: nat, a: AdapterId)
    ensures |ReadersOf(authorizations, a)|
            == |OtherReaders(authorizations, k, a)|
               + if k in authorizations && Reads(authorizations[k], a) then 1 else 0
  {
    var others := OtherReaders(authorizations, k, a);
    if k in authorizations && Reads(authorizations[k], a) {
      assert ReadersOf(authorizations, a) == others + {k};
    } else {
      assert ReadersOf(authorizations, a) == others;
    }
  }

  lemma ReadersChange(authorizations: map<nat, Authorization>, k: nat, next: Authorization, a: AdapterId)
    ensures |ReadersOf(authorizations[k := next], a)|
            == |ReadersOf(authorizations, a)|
               + (if Reads(next, a) then 1 else 0)
               - (if k in authorizations && Reads(authorizations[k], a) then 1 else 0)
  {
    ReadersAndOne(authorizations, k, a);
    ReadersAndOne(authorizations[k := next], k, a);
    assert OtherReaders(authorizations[k := next], k, a) == OtherReaders(authorizations, k, a);
  }

  lemma AuthorizationKeepsLocks(s: State, step: Step, k: nat, a: AdapterId)
    requires LockInv(s, a) && k in s.authorizations && NextAuthorization(s, step, k).Some?
    ensures LockInv(NextAuthorization(s, step, k).value, a)
  {
    var t := NextAuthorization(s, step, k).value;
    ReadersChange(s.authorizations, k, t.authorizations[k], a);
    assert t.authorizations == s.authorizations[k := t.authorizations[k]];
  }

  lemma AuthorizationKeepsInv(s: State, step: Step, k: nat)
    requires Inv(s) && k in s.authorizations && NextAuthorization(s, step, k).Some?
    ensures Inv(NextAuthorization(s, step, k).value)
  {
    var t := NextAuthorization(s, step, k).value;
    forall a ensures LockInv(t, a) {
      AuthorizationKeepsLocks(s, step, k, a);
    }
    forall j | j in t.authorizations ensures PermitInv(t, j) {
      assert PermitInv(s, j);
    }
  }

  lemma WriterKeepsLocks(s: State, step: Step, k: nat, a: AdapterId)
    requires LockInv(s, a) && AloneInv(s) && k in s.writers && NextWriter(s, step, k).Some?
    ensures LockInv(NextWriter(s, step, k).value, a)
  {
    var t := NextWriter(s, step, k).value;
    assert k in t.writers;
    forall j | j in s.writers && j != k ensures j in t.writers && t.writers[j] == s.writers[j] {
    }
  }

  /** Whoever holds the write lock faces no open permit. */
  lemma WriterFacesNoPermit(s: State, k: nat, j: nat)
    requires Inv(s) && k in s.writers && s.writers[k].Writing? && j in s.authorizations
    ensures !Reads(s.authorizations[j], s.writers[k].a)
  {
    var a := s.writers[k].a;
    assert LockInv(s, a);
    assert LockOf(s, a).writer;
    assert j !in ReadersOf(s.authorizations, a);
  }

  lemma WriterKeepsInv(s: State, step: Step, k: nat)
    requires Inv(s) && k in s.writers && NextWriter(s, step, k).Some?
    ensures Inv(NextWriter(s, step, k).value)
  {
    var t := NextWriter(s, step, k).value;
    forall a ensures LockInv(t, a) {
      WriterKeepsLocks(s, step, k, a);
    }
    assert LockInv(s, s.writers[k].a);
    forall j | j in t.authorizations ensures PermitInv(t, j) {
      assert PermitInv(s, j);
      if s.writers[k].Writing? {
        WriterFacesNoPermit(s, k, j);
      }
    }
  }

  lemma StepKeepsInv(s: State, step: Step)
    requires Inv(s) && Next(s, step).Some?
    ensures Inv(Next(s, step).value)
  {
    var t := Next(s, step).value;
    match step {
      case Authorize(k, b) =>
        forall a ensures LockInv(t, a) {
          assert LockInv(s, a);
          ReadersChange(s.authorizations, k, Wanting(b), a);
        }
        forall j | j in t.authorizations ensures PermitInv(t, j) {
          if j != k {
            assert PermitInv(s, j);
          }
        }
      case Request(k, _, _) => RequestKeepsInv(s, step);
      case WriteLock(k) => WriterKeepsInv(s, step, k);
      case Apply(k, _, _) => WriterKeepsInv(s, step, k);
      case ReadLock(k) => AuthorizationKeepsInv(s, step, k);
      case Measure(k, _) => AuthorizationKeepsInv(s, step, k);
      case Compare(k, _) => AuthorizationKeepsInv(s, step, k);
      case ClosePermit(k) => AuthorizationKeepsInv(s, step, k);
    }
  }

  lemma RequestKeepsInv(s: State, step: Step)
    requires Inv(s) && step.Request? && Next(s, step).Some?
    ensures Inv(Next(s, step).value)
  {
    var t := Next(s, step).value;
    forall a ensures LockInv(t, a) {
      assert LockInv(s, a);
      forall j | j in s.writers ensures j in t.writers && t.writers[j] == s.writers[j] {
      }
    }
    forall j | j in t.authorizations ensures PermitInv(t, j) {
      assert PermitInv(s, j);
    }
  }

  lemma {:induction false} RunKeepsInv(s: State, steps: seq<Step>)
    requires Inv(s) && Run(s, steps).Some?
    ensures Inv(Run(s, steps).value)
    decreases |steps|
  {
    if steps != [] {
      StepKeepsInv(s, steps[0]);
      RunKeepsInv(Next(s, steps[0]).value, steps[1..]);
    }
  }

  // ----- Over whole runs -----

  predicate OpenPermit(s: State, k: nat) {
    k in s.authorizations && s.authorizations[k].Permitted? && s.authorizations[k].open
  }

  lemma ClosedStaysClosed(s: State, step: Step, k: nat)
    requires k in s.authorizations && s.authorizations[k].Permitted? && !s.authorizations[k].open && Next(s, step).Some?
    ensures Next(s, step).value.authorizations[k := s.authorizations[k]] == Next(s, step).value.authorizations
  {
  }

  lemma {:induction false} ClosedStaysClosedForever(s: State, steps: seq<Step>, k: nat)
    requires k in s.authorizations && s.authorizations[k].Permitted? && !s.authorizations[k].open
    requires Run(s, steps).Some?
    ensures !OpenPermit(Run(s, steps).value, k)
    decreases |steps|
  {
    if steps != [] {
      ClosedStaysClosed(s, steps[0], k);
      ClosedStaysClosedForever(Next(s, steps[0]).value, steps[1..], k);
    }
  }

  lemma OpenPermitPinsStep(s: State, step: Step, k: nat)
    requires Inv(s) && OpenPermit(s, k) && Next(s, step).Some?
    ensures var (t, a) := (Next(s, step).value, s.authorizations[k].a);
            && k in t.authorizations && t.authorizations[k].Permitted? && t.authorizations[k].a == a
            && a in s.records && a in t.records && t.records[a] == s.records[a]
  {
    assert PermitInv(s, k);
    if step.Apply? {
      if s.writers[step.k].Writing? {
        WriterFacesNoPermit(s, step.k, k);
      }
    }
  }

  /** While a permit is open nobody changes the record it matched, through any number of steps. */
  lemma {:induction false} OpenPermitPinsRecord(s: State, steps: seq<Step>, k: nat)
    requires Inv(s) && OpenPermit(s, k) && Run(s, steps).Some? && OpenPermit(Run(s, steps).value, k)
    ensures var (t, a) := (Run(s, steps).value, s.authorizations[k].a);
            && t.authorizations[k].a == a && a in s.records && a in t.records && t.records[a] == s.records[a]
            && Same(t.authorizations[k].identity, t.records[a])
    decreases |steps|
  {
    if steps == [] {
      assert PermitInv(s, k);
    } else {
      var t := Next(s, steps[0]).value;
      OpenPermitPinsStep(s, steps[0], k);
      StepKeepsInv(s, steps[0]);
      if !t.authorizations[k].open {
        ClosedStaysClosedForever(t, steps[1..], k);
      }
      OpenPermitPinsRecord(t, steps[1..], k);
    }
  }

  /** A permit that can be opened or closed always finds its read lock held. */
  lemma HeldLockCanBeReleased(s: State, k: nat)
    requires Inv(s) && OpenPermit(s, k)
    ensures Next(s, ClosePermit(k)).Some?
    ensures var a := s.authorizations[k].a;
            LockOf(Next(s, ClosePermit(k)).value, a).readers == LockOf(s, a).readers - 1
  {
    var a := s.authorizations[k].a;
    assert LockInv(s, a) && k in ReadersOf(s.authorizations, a);
  }

  /** Closing again changes nothing. */
  lemma CloseIsIdempotent(s: State, k: nat)
    requires OpenPermit(s, k) && Next(s, ClosePermit(k)).Some?
    ensures Next(Next(s, ClosePermit(k)).value, ClosePermit(k)) == Next(s, ClosePermit(k))
  {
  }

  /** A record appears only with the identity the operator reviewed. */
  lemma RecordsAreReviewed(s: State, k: nat, measured: Option<Identity>, stored: bool, a: AdapterId)
    requires k in s.writers && NextWriter(s, Apply(k, measured, stored), k).Some?
    ensures var t := NextWriter(s, Apply(k, measured, stored), k).value;
            a in t.records && (a !in s.records || t.records[a] != s.records[a]) ==>
              && s.writers[k].a == a && s.writers[k].change == Approve(t.records[a].token)
              && t.records[a].token != "" && Some(t.records[a]) == measured
  {
  }
}
