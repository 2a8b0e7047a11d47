/** The process-wide owner of staged prompt inputs whose cleanup failed, and the sessions that rely on it. */
module CleanupOwner {
  import opened Wrappers

  type Key = nat
  type StageId = nat
  type TurnId = nat

  const MAX_RETAINED_PER_SESSION: nat := 4

  // ----- The owner -----

  /** generation counts how often the "changed" channel was replaced. */
  datatype Owner = Owner(
    limit: nat, reservations: nat, stages: map<StageId, Key>, counts: map<Key, nat>, worker: bool, generation: nat)

  function Count(o: Owner, k: Key): nat {
    if k in o.counts then o.counts[k] else 0
  }

  function RetainedOf(stages: map<StageId, Key>, k: Key): set<StageId> {
    set x | x in stages && stages[x] == k
  }

  function RetainedAmong(stages: map<StageId, Key>, seen: set<StageId>, k: Key): set<StageId> {
    set x | x in seen && x in stages && stages[x] == k
  }

  lemma RetainedAmongGrows(stages: map<StageId, Key>, seen: set<StageId>, k: Key, x: StageId)
    requires x in stages && x !in seen
    ensures |RetainedAmong(stages, seen + {x}, k)| == |RetainedAmong(stages, seen, k)| + if stages[x] == k then 1 else 0
  {
    var before := RetainedAmong(stages, seen, k);
    assert RetainedAmong(stages, seen + {x}, k) == if stages[x] == k then before + {x} else before;
  }

  predicate HasRoom(o: Owner, k: Key) {
    k != 0 && Count(o, k) < MAX_RETAINED_PER_SESSION && o.reservations + |o.stages| < o.limit
  }

  function Reserve(o: Owner, k: Key): Owner {
    o.(reservations := o.reservations + 1, counts := o.counts[k := Count(o, k) + 1])
  }

  function Decrement(o: Owner, k: Key): Owner {
    if Count(o, k) > 1 then o.(counts := o.counts[k := o.counts[k] - 1]) else o.(counts := o.counts - {k})
  }

  function DropReservation(o: Owner): Owner {
    if o.reservations > 0 then o.(reservations := o.reservations - 1) else o
  }

  function Unreserve(o: Owner, k: Key): Owner {
    Decrement(DropReservation(o), k).(generation := o.generation + 1)
  }

  /** The reservation becomes a retained stage; its count stays. */
  function Retain(o: Owner, k: Key, stage: StageId): Owner {
    DropReservation(o).(stages := o.stages[stage := k], worker := true, generation := o.generation + 1)
  }

  /** A stage that was cleaned, or that is gone already, is forgotten. */
  function Forget(o: Owner, stage: StageId): Owner {
    if stage in o.stages
    then Decrement(o.(stages := o.stages - {stage}), o.stages[stage]).(generation := o.generation + 1)
    else o
  }

  class StageOwner {
    const limit: nat
    var reservations: nat
    var stages: map<StageId, Key>
    var counts: map<Key, nat>
    var worker: bool
    ghost var generation: nat

    ghost function Value(): Owner
      reads this
    {
      Owner(limit, reservations, stages, counts, worker, generation)
    }

    constructor (wanted: int)
      ensures Value() == Owner(if wanted <= 0 then 1 else wanted, 0, map[], map[], false, 0)
    {
      limit := if wanted <= 0 then 1 else wanted;
      reservations, stages, counts, worker, generation := 0, map[], map[], false, 0;
    }

    method Acquire(k: Key) returns (ok: bool)
      modifies this`reservations, this`counts
      ensures ok <==> HasRoom(old(Value()), k)
      ensures Value() == if ok then Reserve(old(Value()), k) else old(Value())
    {
      if k == 0 {
        return false;
      }
      var held := if k in counts then counts[k] else 0;
      if held >= MAX_RETAINED_PER_SESSION || reservations + |stages| >= limit {
        return false;
      }
      reservations := reservations + 1;
      counts := counts[k := held + 1];
      return true;
    }

    method DecrementSession(k: Key)
      modifies this`counts
      ensures Value() == Decrement(old(Value()), k)
    {
      if k in counts && counts[k] > 1 {
        counts := counts[k := counts[k] - 1];
      } else {
        counts := counts - {k};
      }
    }

    method ReleaseReservation(k: Key)
      modifies this`reservations, this`counts, this`generation
      ensures Value() == Unreserve(old(Value()), k)
    {
      if reservations > 0 {
        reservations := reservations - 1;
      }
      DecrementSession(k);
      generation := generation + 1;
    }

    /** spawn: the caller starts the worker. */
    method RetainReservation(k: Key, stage: StageId) returns (spawn: bool, pending: nat)
      modifies this`reservations, this`stages, this`worker, this`generation
      ensures Value() == Retain(old(Value()), k, stage)
      ensures spawn <==> !old(worker)
      ensures pending == |RetainedOf(stages, k)|
    {
      if reservations > 0 {
        reservations := reservations - 1;
      }
      stages := stages[stage := k];
      spawn := !worker;
      worker := true;
      pending := RetainedCount(k);
      generation := generation + 1;
    }

    method ForgetCleaned(stage: StageId) returns (known: bool)
      modifies this`stages, this`counts, this`generation
      ensures Value() == Forget(old(Value()), stage)
      ensures known <==> stage in old(stages)
    {
      known := stage in stages;
      if known {
        var k := stages[stage];
        stages := stages - {stage};
        DecrementSession(k);
        generation := generation + 1;
      }
    }

    method RetainedCount(k: Key) returns (n: nat)
      ensures n == |RetainedOf(stages, k)|
    {
      n := 0;
      var todo := stages.Keys;
      ghost var seen: set<StageId> := {};
      while todo != {}
        invariant seen + todo == stages.Keys && seen * todo == {}
        invariant n == |RetainedAmong(stages, seen, k)|
        decreases |todo|
      {
        var x :| x in todo;
        RetainedAmongGrows(stages, seen, k, x);
        todo := todo - {x};
        seen := seen + {x};
        if stages[x] == k {
          n := n + 1;
        }
      }
      assert RetainedAmong(stages, seen, k) == RetainedOf(stages, k);
    }
  }

  // ----- Turns, shutdowns and the worker -----

  /** Held is active; Releasing and Retaining are spent but not yet accounted for by the owner. */
  datatype Admission = NoAdmission | Held | Releasing | Retaining | Spent

  datatype TurnPc = Arriving | Admitted | Running | Ending | Clearing | Leaving | Over

  datatype Turn = Turn(key: Key, files: bool, pc: TurnPc, admission: Admission)

  /** ok: no error was joined so far. */
  datatype Shutdown =
    | Closing(k: Key)
    | Asking(k: Key)
    | AwaitingTurn(k: Key, t: TurnId)
    | Checking(k: Key, ok: bool)
    | Watching(k: Key, ok: bool, generation: nat)
    | Returned(k: Key, ok: bool)

  datatype WorkerPc = Head | Sleeping | Cleaning(todo: set<StageId>)

  datatype State = State(
    owner: Owner, turns: map<TurnId, Turn>, closing: set<Key>, active: map<Key, TurnId>, done: set<TurnId>,
    shutdowns: map<nat, Shutdown>, workers: map<nat, WorkerPc>)

  datatype Step =
    | Arrive(t: TurnId, k: Key, files: bool)
    | Acquire(t: TurnId)
    | Begin(t: TurnId)
    | Finish(t: TurnId)
    | SpendForRetain(t: TurnId)
    | RetainStage(t: TurnId, w: nat)
    | CloseDone(t: TurnId)
    | Clear(t: TurnId)
    | SpendForRelease(t: TurnId)
    | ReleaseStep(t: TurnId)
    | Shut(j: nat, k: Key)
    | CloseAdmission(j: nat)
    | AskActive(j: nat)
    | TurnDone(j: nat)
    | GiveUp(j: nat)
    | Check(j: nat)
    | Changed(j: nat)
    | WorkerHead(w: nat)
    | WorkerWake(w: nat)
    | WorkerClean(w: nat, stage: StageId, cleaned: bool)
    | WorkerRound(w: nat)

  function Init(limit: nat): State {
    State(Owner(limit, 0, map[], map[], false, 0), map[], {}, map[], {}, map[], map[])
  }

  function SetTurn(s: State, t: TurnId, pc: TurnPc, admission: Admission): State
    requires t in s.turns
  {
    s.(turns := s.turns[t := s.turns[t].(pc := pc, admission := admission)])
  }

  function NextTurn(s: State, step: Step, t: TurnId): Option<State>
    requires t in s.turns
  {
    var turn := s.turns[t];
    match (step, turn.pc)
    case (Acquire(_), Arriving) =>
      if !turn.files then Some(SetTurn(s, t, Admitted, NoAdmission))
      else if HasRoom(s.owner, turn.key)
      then Some(SetTurn(s, t, Admitted, Held).(owner := Reserve(s.owner, turn.key)))
      else Some(SetTurn(s, t, Over, NoAdmission))
    case (Begin(_), Admitted) =>
      if turn.key in s.closing || turn.key in s.active then Some(SetTurn(s, t, Leaving, turn.admission))
      else Some(SetTurn(s, t, Running, turn.admission).(active := s.active[turn.key := t]))
    case (Finish(_), Running) =>
      if turn.admission.Retaining? then None else Some(SetTurn(s, t, Ending, turn.admission))
    case (SpendForRetain(_), Running) =>
      if turn.admission.Held? then Some(SetTurn(s, t, Running, Retaining)) else None
    case (RetainStage(_, w), Running) =>
      if !turn.admission.Retaining? || w in s.workers then None
      else Some(SetTurn(s, t, Ending, Spent).(
        owner := Retain(s.owner, turn.key, t),
        workers := if s.owner.worker then s.workers else s.workers[w := Head]))
    case (CloseDone(_), Ending) => Some(SetTurn(s, t, Clearing, turn.admission).(done := s.done + {t}))
    case (Clear(_), Clearing) =>
      Some(SetTurn(s, t, Leaving, turn.admission).(
        active := if turn.key in s.active && s.active[turn.key] == t then s.active - {turn.key} else s.active))
    case (SpendForRelease(_), Leaving) =>
      if turn.admission.Held? then Some(SetTurn(s, t, Leaving, Releasing))
      else if turn.admission.Releasing? then None
      else Some(SetTurn(s, t, Over, turn.admission))
    case (ReleaseStep(_), Leaving) =>
      if turn.admission.Releasing?
      then Some(SetTurn(s, t, Over, Spent).(owner := Unreserve(s.owner, turn.key))) else None
    case _ => None
  }

  function NextShutdown(s: State, step: Step, j: nat): Option<State>
    requires j in s.shutdowns
  {
    match (step, s.shutdowns[j])
    case (CloseAdmission(_), Closing(k)) =>
      Some(s.(closing := s.closing + {k}, shutdowns := s.shutdowns[j := Asking(k)]))
    case (AskActive(_), Asking(k)) =>
      Some(s.(shutdowns := s.shutdowns[j := if k in s.active then AwaitingTurn(k, s.active[k]) else Checking(k, true)]))
    case (TurnDone(_), AwaitingTurn(k, t)) =>
      if t in s.done then Some(s.(shutdowns := s.shutdowns[j := Checking(k, true)])) else None
    case (GiveUp(_), AwaitingTurn(k, t)) => Some(s.(shutdowns := s.shutdowns[j := Checking(k, false)]))
    case (Check(_), Checking(k, ok)) =>
      Some(s.(shutdowns :=
        s.shutdowns[j := if Count(s.owner, k) == 0 then Returned(k, ok) else Watching(k, ok, s.owner.generation)]))
    case (Changed(_), Watching(k, ok, g)) =>
      if g != s.owner.generation then Some(s.(shutdowns := s.shutdowns[j := Checking(k, ok)])) else None
    case (GiveUp(_), Watching(k, _, _)) => Some(s.(shutdowns := s.shutdowns[j := Returned(k, false)]))
    case _ => None
  }

  function NextWorker(s: State, step: Step, w: nat): Option<State>
    requires w in s.workers
  {
    match (step, s.workers[w])
    case (WorkerHead(_), Head) =>
      if s.owner.stages == map[] then Some(s.(owner := s.owner.(worker := false), workers := s.workers - {w}))
      else Some(s.(workers := s.workers[w := Sleeping]))
    case (WorkerWake(_), Sleeping) => Some(s.(workers := s.workers[w := Cleaning(s.owner.stages.Keys)]))
    case (WorkerClean(_, stage, cleaned), Cleaning(todo)) =>
      if stage !in todo then None
      else Some(s.(owner := if cleaned then Forget(s.owner, stage) else s.owner,
                   workers := s.workers[w := Cleaning(todo - {stage})]))
    case (WorkerRound(_), Cleaning(todo)) =>
      if todo != {} then None else Some(s.(workers := s.workers[w := Head]))
    case _ => None
  }

  function TurnOf(step: Step): Option<TurnId> {
    match step
    case Acquire(t) => Some(t)
    case Begin(t) => Some(t)
    case Finish(t) => Some(t)
    case SpendForRetain(t) => Some(t)
    case RetainStage(t, _) => Some(t)
    case CloseDone(t) => Some(t)
    case Clear(t) => Some(t)
    case SpendForRelease(t) => Some(t)
    case ReleaseStep(t) => Some(t)
    case _ => None
  }

  function WorkerOf(step: Step): Option<nat> {
    match step
    case WorkerHead(w) => Some(w)
    case WorkerWake(w) => Some(w)
    case WorkerClean(w, _, _) => Some(w)
    case WorkerRound(w) => Some(w)
    case _ => None
  }

  function Next(s: State, step: Step): Option<State> {
    if step.Arrive? then
      if step.t in s.turns || step.k == 0 then None
      else Some(s.(turns := s.turns[step.t := Turn(step.k, step.files, Arriving, NoAdmission)]))
    else if step.Shut? then
      if step.j in s.shutdowns then None else Some(s.(shutdowns := s.shutdowns[step.j := Closing(step.k)]))
    else if TurnOf(step).Some? then
      if TurnOf(step).value in s.turns then NextTurn(s, step, TurnOf(step).value) else None
    else if WorkerOf(step).Some? then
      if WorkerOf(step).value in s.workers then NextWorker(s, step, WorkerOf(step).value) else None
    else if step.j in s.shutdowns then NextShutdown(s, step, step.j) else None
  }

  function Run(s: State, steps: seq<Step>): Option<State>
    decreases |steps|
  {
    if steps == [] then Some(s)
    else match Next(s, steps[0])
      case None => None
      case Some(t) => Run(t, steps[1..])
  }

  // ----- What every step keeps -----

  predicate Outstanding(turn: Turn) {
    turn.admission.Held? || turn.admission.Releasing? || turn.admission.Retaining?
  }

  function Reserved(turns: map<TurnId, Turn>): set<TurnId> {
    set t | t in turns && Outstanding(turns[t])
  }

  function ReservedOf(turns: map<TurnId, Turn>, k: Key): set<TurnId> {
    set t | t in turns && Outstanding(turns[t]) && turns[t].key == k
  }

  /** The session's count is its reservations plus its retained stages. */
  ghost predicate Balanced(s: State, k: Key) {
    Count(s.owner, k) == |ReservedOf(s.turns, k)| + |RetainedOf(s.owner.stages, k)|
  }

  ghost predicate LedgerInv(s: State) {
    && s.owner.reservations == |Reserved(s.turns)|
    && (forall k :: Balanced(s, k))
    && (forall k <- s.owner.counts :: 0 < s.owner.counts[k] <= MAX_RETAINED_PER_SESSION)
    && s.owner.reservations + |s.owner.stages| <= s.owner.limit
  }

  ghost predicate TurnInv(s: State, t: TurnId)
    requires t in s.turns
  {
    var turn := s.turns[t];
    && (turn.admission.Retaining? ==> turn.pc.Running?)
    && (turn.admission.Releasing? ==> turn.pc.Leaving?)
    && (turn.admission.Held? ==> !turn.pc.Arriving? && !turn.pc.Over?)
    && (turn.pc.Arriving? ==> turn.admission.NoAdmission?)
    && (turn.pc.Admitted? || turn.pc.Running? ==> !turn.admission.Spent?)
    && (turn.pc.Running? || turn.pc.Ending? ==> turn.key in s.active && s.active[turn.key] == t && t !in s.done)
    && (turn.pc.Clearing? ==> t in s.done)
    && (t in s.done ==> turn.pc.Clearing? || turn.pc.Leaving? || turn.pc.Over?)
  }

  ghost predicate StageInv(s: State, x: StageId)
    requires x in s.owner.stages
  {
    x in s.turns && s.turns[x].admission.Spent? && s.turns[x].key == s.owner.stages[x]
  }

  /** Turn admission of the session is closed and at most turn t of it is still past it. */
  ghost predicate OnlyRunning(s: State, k: Key, t: TurnId) {
    k in s.closing && forall u <- s.turns :: s.turns[u].key == k && s.turns[u].pc.Running? ==> u == t
  }

  ghost predicate Quiet(s: State, k: Key) {
    k in s.closing && forall u <- s.turns :: s.turns[u].key == k ==> !s.turns[u].pc.Running?
  }

  ghost predicate ShutdownInv(s: State, j: nat)
    requires j in s.shutdowns
  {
    match s.shutdowns[j]
    case Closing(_) => true
    case Asking(k) => k in s.closing
    case AwaitingTurn(k, t) => OnlyRunning(s, k, t)
    case Checking(k, ok) => ok ==> Quiet(s, k)
    case Watching(k, ok, g) =>
      g <= s.owner.generation && (g == s.owner.generation ==> Count(s.owner, k) > 0) && (ok ==> Quiet(s, k))
    case Returned(k, ok) => ok ==> Quiet(s, k) && RetainedOf(s.owner.stages, k) == {}
  }

  ghost predicate WorkerInv(s: State) {
    && (s.owner.worker <==> s.workers != map[])
    && (forall v, w :: v in s.workers && w in s.workers ==> v == w)
    && (s.owner.stages != map[] ==> s.owner.worker)
  }

  ghost predicate TurnsInv(s: State) { forall t <- s.turns :: TurnInv(s, t) }
  ghost predicate StagesInv(s: State) { forall x <- s.owner.stages :: StageInv(s, x) }
  ghost predicate ShutdownsInv(s: State) { forall j <- s.shutdowns :: ShutdownInv(s, j) }

  ghost predicate ActiveInv(s: State) {
    s.done <= s.turns.Keys && forall k <- s.active :: s.active[k] in s.turns
  }

  ghost predicate Inv(s: State) {
    LedgerInv(s) && TurnsInv(s) && StagesInv(s) && ShutdownsInv(s) && WorkerInv(s) && ActiveInv(s)
  }

  lemma InitInv(limit: nat)
    ensures Inv(Init(limit))
  {
    var s := Init(limit);
    assert Reserved(s.turns) == {};
    forall k ensures Balanced(s, k) {
      assert ReservedOf(s.turns, k) == {} && RetainedOf(s.owner.stages, k) == {};
    }
  }

  // How the two sets the ledger counts change.

  lemma SameReserved(turns: map<TurnId, Turn>, t: TurnId, turn: Turn)
    requires if t in turns then Outstanding(turn) == Outstanding(turns[t]) && turn.key == turns[t].key
             else !Outstanding(turn)
    ensures Reserved(turns[t := turn]) == Reserved(turns)
    ensures forall k :: ReservedOf(turns[t := turn], k) == ReservedOf(turns, k)
  {
  }

  lemma MoreReserved(turns: map<TurnId, Turn>, t: TurnId, turn: Turn)
    requires t in turns && !Outstanding(turns[t]) && Outstanding(turn) && turn.key == turns[t].key
    ensures |Reserved(turns[t := turn])| == |Reserved(turns)| + 1
    ensures |ReservedOf(turns[t := turn], turn.key)| == |ReservedOf(turns, turn.key)| + 1
    ensures forall k :: k != turn.key ==> ReservedOf(turns[t := turn], k) == ReservedOf(turns, k)
  {
    assert Reserved(turns[t := turn]) == Reserved(turns) + {t};
    assert ReservedOf(turns[t := turn], turn.key) == ReservedOf(turns, turn.key) + {t};
  }

  lemma LessReserved(turns: map<TurnId, Turn>, t: TurnId, turn: Turn)
    requires t in turns && Outstanding(turns[t]) && !Outstanding(turn) && turn.key == turns[t].key
    ensures |Reserved(turns[t := turn])| == |Reserved(turns)| - 1
    ensures |ReservedOf(turns[t := turn], turn.key)| == |ReservedOf(turns, turn.key)| - 1
    ensures forall k :: k != turn.key ==> ReservedOf(turns[t := turn], k) == ReservedOf(turns, k)
  {
    assert Reserved(turns[t := turn]) + {t} == Reserved(turns);
    assert ReservedOf(turns[t := turn], turn.key) + {t} == ReservedOf(turns, turn.key);
  }

  lemma MoreRetained(stages: map<StageId, Key>, x: StageId, k: Key)
    requires x !in stages
    ensures |stages[x := k]| == |stages| + 1
    ensures |RetainedOf(stages[x := k], k)| == |RetainedOf(stages, k)| + 1
    ensures forall j :: j != k ==> RetainedOf(stages[x := k], j) == RetainedOf(stages, j)
  {
    var after := stages[x := k];
    assert after.Keys == stages.Keys + {x};
    assert RetainedOf(after, k) == RetainedOf(stages, k) + {x};
  }

  lemma LessRetained(stages: map<StageId, Key>, x: StageId)
    requires x in stages
    ensures |stages - {x}| == |stages| - 1
    ensures |RetainedOf(stages - {x}, stages[x])| == |RetainedOf(stages, stages[x])| - 1
    ensures forall j :: j != stages[x] ==> RetainedOf(stages - {x}, j) == RetainedOf(stages, j)
  {
    assert (stages - {x}).Keys + {x} == stages.Keys;
    assert RetainedOf(stages - {x}, stages[x]) + {x} == RetainedOf(stages, stages[x]);
  }

  // The ledger under the owner's four operations.

  lemma ReserveKeepsLedger(s: State, t: TurnId, turn: Turn, s': State)
    requires LedgerInv(s) && t in s.turns && !Outstanding(s.turns[t]) && Outstanding(turn) && HasRoom(s.owner, turn.key)
    requires turn.key == s.turns[t].key
    requires s'.turns == s.turns[t := turn] && s'.owner == Reserve(s.owner, turn.key)
    ensures LedgerInv(s')
  {
    MoreReserved(s.turns, t, turn);
    forall k ensures Balanced(s', k) {
      assert Balanced(s, k);
    }
  }

  lemma UnreserveKeepsLedger(s: State, t: TurnId, turn: Turn, s': State)
    requires LedgerInv(s) && t in s.turns && Outstanding(s.turns[t]) && !Outstanding(turn) && turn.key == s.turns[t].key
    requires s'.turns == s.turns[t := turn] && s'.owner == Unreserve(s.owner, turn.key)
    ensures LedgerInv(s')
  {
    LessReserved(s.turns, t, turn);
    forall k ensures Balanced(s', k) {
      assert Balanced(s, k);
    }
  }

  lemma RetainKeepsLedger(s: State, t: TurnId, turn: Turn, s': State)
    requires LedgerInv(s) && t in s.turns && Outstanding(s.turns[t]) && !Outstanding(turn) && turn.key == s.turns[t].key
    requires t !in s.owner.stages
    requires s'.turns == s.turns[t := turn] && s'.owner == Retain(s.owner, turn.key, t)
    ensures LedgerInv(s')
  {
    LessReserved(s.turns, t, turn);
    MoreRetained(s.owner.stages, t, turn.key);
    forall k ensures Balanced(s', k) {
      assert Balanced(s, k);
    }
  }

  lemma ForgetBalances(s: State, x: StageId, s': State, k: Key)
    requires Balanced(s, k) && x in s.owner.stages && s'.turns == s.turns && s'.owner == Forget(s.owner, x)
    requires |RetainedOf(s.owner.stages - {x}, s.owner.stages[x])| == |RetainedOf(s.owner.stages, s.owner.stages[x])| - 1
    requires k != s.owner.stages[x] ==> RetainedOf(s.owner.stages - {x}, k) == RetainedOf(s.owner.stages, k)
    ensures Balanced(s', k)
  {
  }

  lemma ForgettingKeepsCounts(s: State, x: StageId)
    requires LedgerInv(s) && x in s.owner.stages
    ensures var o := Forget(s.owner, x);
            && (forall k <- o.counts :: 0 < o.counts[k] <= MAX_RETAINED_PER_SESSION)
            && o.reservations + |o.stages| <= o.limit && o.reservations == s.owner.reservations
  {
    LessRetained(s.owner.stages, x);
  }

  lemma ForgettingKeepsLedger(s: State, x: StageId, s': State)
    requires LedgerInv(s) && s'.turns == s.turns && x in s.owner.stages && s'.owner == Forget(s.owner, x)
    ensures LedgerInv(s')
  {
    ForgettingKeepsCounts(s, x);
    LessRetained(s.owner.stages, x);
    forall k ensures Balanced(s', k) {
      assert Balanced(s, k);
      ForgetBalances(s, x, s', k);
    }
  }

  lemma ForgetKeepsLedger(s: State, x: StageId, s': State)
    requires LedgerInv(s) && s'.turns == s.turns && s'.owner == Forget(s.owner, x)
    ensures LedgerInv(s')
  {
    if x in s.owner.stages {
      ForgettingKeepsLedger(s, x, s');
    } else {
      SameLedger(s, s');
    }
  }

  lemma SameLedger(s: State, s': State)
    requires LedgerInv(s) && s'.owner.(worker := s.owner.worker) == s.owner && s'.turns == s.turns
    ensures LedgerInv(s')
  {
    forall k ensures Balanced(s', k) {
      assert Balanced(s, k);
    }
  }

  lemma TurnKeepsLedger(s: State, t: TurnId, turn: Turn, s': State)
    requires LedgerInv(s) && s'.owner == s.owner && s'.turns == s.turns[t := turn]
    requires if t in s.turns then Outstanding(turn) == Outstanding(s.turns[t]) && turn.key == s.turns[t].key
             else !Outstanding(turn)
    ensures LedgerInv(s')
  {
    SameReserved(s.turns, t, turn);
    forall k ensures Balanced(s', k) {
      assert Balanced(s, k);
    }
  }

  lemma UnspentIsNotRetained(s: State, t: TurnId)
    requires StagesInv(s) && t in s.turns && !s.turns[t].admission.Spent?
    ensures t !in s.owner.stages
  {
    forall x | x in s.owner.stages ensures x != t {
      assert StageInv(s, x);
    }
  }

  lemma AcquireKeepsLedger(s: State, step: Step, t: TurnId)
    requires LedgerInv(s) && t in s.turns && TurnInv(s, t) && step.Acquire? && NextTurn(s, step, t).Some?
    ensures LedgerInv(NextTurn(s, step, t).value)
  {
    var s' := NextTurn(s, step, t).value;
    if s.turns[t].files && HasRoom(s.owner, s.turns[t].key) {
      ReserveKeepsLedger(s, t, s'.turns[t], s');
    } else {
      TurnKeepsLedger(s, t, s'.turns[t], s');
    }
  }

  /** What a step leaves of the turn it takes and of the stages. */
  lemma TurnStepActs(s: State, step: Step, t: TurnId)
    requires t in s.turns && NextTurn(s, step, t).Some?
    ensures var s' := NextTurn(s, step, t).value;
            && t in s'.turns && s'.turns == s.turns[t := s'.turns[t]] && s'.turns[t].key == s.turns[t].key
            && s'.shutdowns == s.shutdowns && s'.closing == s.closing
            && (s'.owner.stages != s.owner.stages ==>
                  && s.turns[t].pc.Running? && s.turns[t].admission.Retaining? && s'.turns[t].admission.Spent?
                  && s'.owner.stages == s.owner.stages[t := s.turns[t].key])
  {
  }

  lemma TurnStepSpends(s: State, step: Step, t: TurnId)
    requires t in s.turns && TurnInv(s, t) && NextTurn(s, step, t).Some?
    requires !step.Acquire? && !step.RetainStage? && !step.ReleaseStep?
    ensures NextTurn(s, step, t).value.owner == s.owner
    ensures Outstanding(NextTurn(s, step, t).value.turns[t]) == Outstanding(s.turns[t])
  {
  }

  lemma RetainStepKeepsLedger(s: State, step: Step, t: TurnId)
    requires LedgerInv(s) && StagesInv(s) && t in s.turns && step.RetainStage? && NextTurn(s, step, t).Some?
    ensures LedgerInv(NextTurn(s, step, t).value)
  {
    var s' := NextTurn(s, step, t).value;
    UnspentIsNotRetained(s, t);
    RetainKeepsLedger(s, t, s'.turns[t], s');
  }

  lemma ReleaseStepKeepsLedger(s: State, step: Step, t: TurnId)
    requires LedgerInv(s) && t in s.turns && step.ReleaseStep? && NextTurn(s, step, t).Some?
    ensures LedgerInv(NextTurn(s, step, t).value)
  {
    var s' := NextTurn(s, step, t).value;
    UnreserveKeepsLedger(s, t, s'.turns[t], s');
  }

  lemma TurnStepKeepsLedger(s: State, step: Step, t: TurnId)
    requires LedgerInv(s) && StagesInv(s) && t in s.turns && TurnInv(s, t) && NextTurn(s, step, t).Some?
    ensures LedgerInv(NextTurn(s, step, t).value)
  {
    if step.RetainStage? {
      RetainStepKeepsLedger(s, step, t);
    } else if step.ReleaseStep? {
      ReleaseStepKeepsLedger(s, step, t);
    } else if step.Acquire? {
      AcquireKeepsLedger(s, step, t);
    } else {
      TurnStepActs(s, step, t);
      TurnStepSpends(s, step, t);
      TurnKeepsLedger(s, t, NextTurn(s, step, t).value.turns[t], NextTurn(s, step, t).value);
    }
  }

  /** A turn's step moves nobody else in or out of the active slot. */
  ghost predicate OwnSlot(s: State, s': State, t: TurnId) {
    && t in s.turns && t in s'.turns && s'.turns == s.turns[t := s'.turns[t]]
    && (s'.done == s.done || s'.done == s.done + {t})
    && (forall u :: u != t && u in s.turns && s.turns[u].key in s.active && s.active[s.turns[u].key] == u ==>
          s.turns[u].key in s'.active && s'.active[s.turns[u].key] == u)
  }

  lemma TurnStepOwnsItsSlot(s: State, step: Step, t: TurnId)
    requires t in s.turns && NextTurn(s, step, t).Some?
    ensures OwnSlot(s, NextTurn(s, step, t).value, t)
  {
  }

  lemma TurnStepKeepsTurns(s: State, step: Step, t: TurnId)
    requires TurnsInv(s) && t in s.turns && NextTurn(s, step, t).Some?
    ensures TurnsInv(NextTurn(s, step, t).value)
  {
    TurnStepOwnsItsSlot(s, step, t);
    TurnStepKeepsOwn(s, step, t);
    OwnSlotKeepsTurns(s, NextTurn(s, step, t).value, t);
  }

  lemma OwnSlotKeepsTurns(s: State, s': State, t: TurnId)
    requires TurnsInv(s) && OwnSlot(s, s', t) && TurnInv(s', t)
    ensures TurnsInv(s')
  {
    forall u | u in s'.turns ensures TurnInv(s', u) {
      if u != t {
        assert TurnInv(s, u);
      }
    }
  }

  lemma TurnStepKeepsOwn(s: State, step: Step, t: TurnId)
    requires t in s.turns && TurnInv(s, t) && NextTurn(s, step, t).Some?
    ensures TurnInv(NextTurn(s, step, t).value, t)
  {
  }

  lemma TurnStepKeepsActive(s: State, step: Step, t: TurnId)
    requires ActiveInv(s) && t in s.turns && NextTurn(s, step, t).Some?
    ensures ActiveInv(NextTurn(s, step, t).value)
  {
  }

  lemma StaysSpent(s: State, step: Step, t: TurnId)
    requires t in s.turns && TurnInv(s, t) && s.turns[t].admission.Spent? && NextTurn(s, step, t).Some?
    ensures NextTurn(s, step, t).value.turns[t].admission.Spent?
  {
  }

  lemma TurnStepKeepsStages(s: State, step: Step, t: TurnId)
    requires StagesInv(s) && t in s.turns && TurnInv(s, t) && NextTurn(s, step, t).Some?
    ensures StagesInv(NextTurn(s, step, t).value)
  {
    var s' := NextTurn(s, step, t).value;
    TurnStepActs(s, step, t);
    if s.turns[t].admission.Spent? {
      StaysSpent(s, step, t);
    }
    forall x | x in s'.owner.stages ensures StageInv(s', x) {
      if x in s.owner.stages {
        assert StageInv(s, x);
      }
    }
  }

  lemma TurnStepKeepsWorker(s: State, step: Step, t: TurnId)
    requires WorkerInv(s) && t in s.turns && NextTurn(s, step, t).Some?
    ensures WorkerInv(NextTurn(s, step, t).value)
  {
  }

  /** What a turn's step may do to the sessions that are being shut down. */
  ghost predicate Harmless(s: State, s': State, t: TurnId) {
    && t in s.turns && t in s'.turns && s'.turns == s.turns[t := s'.turns[t]] && s'.turns[t].key == s.turns[t].key
    && s.closing <= s'.closing && s.owner.generation <= s'.owner.generation
    && (s'.turns[t].pc.Running? ==> s.turns[t].pc.Running? || s.turns[t].key !in s.closing)
    && (forall k :: s.owner.generation == s'.owner.generation ==> Count(s.owner, k) <= Count(s'.owner, k))
    && (s'.owner.stages == s.owner.stages
        || (s.turns[t].pc.Running? && t !in s.owner.stages && s'.owner.stages == s.owner.stages[t := s.turns[t].key]))
  }

  lemma CountsGrowWithinAGeneration(s: State, step: Step, t: TurnId)
    requires t in s.turns && NextTurn(s, step, t).Some?
    ensures var s' := NextTurn(s, step, t).value;
            && s.owner.generation <= s'.owner.generation
            && forall k :: s.owner.generation == s'.owner.generation ==> Count(s.owner, k) <= Count(s'.owner, k)
  {
  }

  lemma TurnStepIsHarmless(s: State, step: Step, t: TurnId)
    requires t in s.turns && TurnInv(s, t) && NextTurn(s, step, t).Some?
    requires s.turns[t].admission.Retaining? ==> t !in s.owner.stages
    ensures Harmless(s, NextTurn(s, step, t).value, t)
  {
    TurnStepActs(s, step, t);
    CountsGrowWithinAGeneration(s, step, t);
  }

  lemma HarmlessKeepsQuiet(s: State, s': State, t: TurnId, k: Key)
    requires Harmless(s, s', t) && Quiet(s, k)
    ensures Quiet(s', k) && RetainedOf(s'.owner.stages, k) == RetainedOf(s.owner.stages, k)
  {
  }

  lemma HarmlessKeepsShutdowns(s: State, s': State, t: TurnId)
    requires ShutdownsInv(s) && Harmless(s, s', t) && s'.shutdowns == s.shutdowns
    ensures ShutdownsInv(s')
  {
    forall j | j in s'.shutdowns ensures ShutdownInv(s', j) {
      assert ShutdownInv(s, j);
      if (s.shutdowns[j].Checking? || s.shutdowns[j].Watching? || s.shutdowns[j].Returned?) && s.shutdowns[j].ok {
        HarmlessKeepsQuiet(s, s', t, s.shutdowns[j].k);
      }
    }
  }

  lemma TurnStepKeepsShutdowns(s: State, step: Step, t: TurnId)
    requires ShutdownsInv(s) && StagesInv(s) && t in s.turns && TurnInv(s, t) && NextTurn(s, step, t).Some?
    ensures ShutdownsInv(NextTurn(s, step, t).value)
  {
    if s.turns[t].admission.Retaining? {
      UnspentIsNotRetained(s, t);
    }
    TurnStepIsHarmless(s, step, t);
    HarmlessKeepsShutdowns(s, NextTurn(s, step, t).value, t);
  }

  lemma TurnStepKeepsInv(s: State, step: Step, t: TurnId)
    requires Inv(s) && t in s.turns && NextTurn(s, step, t).Some?
    ensures Inv(NextTurn(s, step, t).value)
  {
    assert TurnInv(s, t);
    TurnStepKeepsLedger(s, step, t);
    TurnStepKeepsTurns(s, step, t);
    TurnStepKeepsActive(s, step, t);
    TurnStepKeepsStages(s, step, t);
    TurnStepKeepsWorker(s, step, t);
    TurnStepKeepsShutdowns(s, step, t);
  }

  lemma RunningTurnIsActive(s: State, k: Key)
    requires TurnsInv(s) && k in s.closing
    ensures k !in s.active ==> Quiet(s, k)
    ensures k in s.active ==> OnlyRunning(s, k, s.active[k])
    ensures forall t :: OnlyRunning(s, k, t) && t in s.done ==> Quiet(s, k)
  {
    forall u | u in s.turns && s.turns[u].key == k && s.turns[u].pc.Running?
      ensures k in s.active && u == s.active[k] && u !in s.done
    {
      assert TurnInv(s, u);
    }
  }

  lemma NothingCountedNothingRetained(s: State, k: Key)
    requires LedgerInv(s) && Count(s.owner, k) == 0
    ensures RetainedOf(s.owner.stages, k) == {}
  {
    assert Balanced(s, k);
  }

  /** A shutdown's step closes admission of its session at most, and moves its own program counter. */
  lemma ShutdownStepActs(s: State, step: Step, j: nat)
    requires j in s.shutdowns && NextShutdown(s, step, j).Some?
    ensures var s' := NextShutdown(s, step, j).value;
            && s.closing <= s'.closing && j in s'.shutdowns
            && s' == s.(closing := s'.closing, shutdowns := s.shutdowns[j := s'.shutdowns[j]])
  {
  }

  lemma ShutdownStepKeepsOwn(s: State, step: Step, j: nat)
    requires LedgerInv(s) && TurnsInv(s) && j in s.shutdowns && ShutdownInv(s, j) && NextShutdown(s, step, j).Some?
    ensures ShutdownInv(NextShutdown(s, step, j).value, j)
  {
    var k := s.shutdowns[j].k;
    if k in s.closing {
      RunningTurnIsActive(s, k);
    }
    if Count(s.owner, k) == 0 {
      NothingCountedNothingRetained(s, k);
    }
  }

  lemma ShutdownStepKeepsShutdowns(s: State, step: Step, j: nat)
    requires LedgerInv(s) && TurnsInv(s) && ShutdownsInv(s) && j in s.shutdowns && NextShutdown(s, step, j).Some?
    ensures ShutdownsInv(NextShutdown(s, step, j).value)
  {
    var s' := NextShutdown(s, step, j).value;
    assert ShutdownInv(s, j);
    ShutdownStepActs(s, step, j);
    ShutdownStepKeepsOwn(s, step, j);
    forall i | i in s'.shutdowns ensures ShutdownInv(s', i) {
      assert ShutdownInv(s, i);
    }
  }

  lemma ShutdownStepKeepsInv(s: State, step: Step, j: nat)
    requires Inv(s) && j in s.shutdowns && NextShutdown(s, step, j).Some?
    ensures Inv(NextShutdown(s, step, j).value)
  {
    var s' := NextShutdown(s, step, j).value;
    ShutdownStepActs(s, step, j);
    ShutdownStepKeepsShutdowns(s, step, j);
    SameLedger(s, s');
    forall t | t in s'.turns ensures TurnInv(s', t) {
      assert TurnInv(s, t);
    }
    forall x | x in s'.owner.stages ensures StageInv(s', x) {
      assert StageInv(s, x);
    }
  }

  lemma WorkerStepKeepsShutdowns(s: State, step: Step, w: nat)
    requires ShutdownsInv(s) && w in s.workers && NextWorker(s, step, w).Some?
    ensures ShutdownsInv(NextWorker(s, step, w).value)
  {
    var s' := NextWorker(s, step, w).value;
    forall j | j in s'.shutdowns ensures ShutdownInv(s', j) {
      assert ShutdownInv(s, j);
    }
  }

  lemma WorkerStepKeepsLedger(s: State, step: Step, w: nat)
    requires LedgerInv(s) && w in s.workers && NextWorker(s, step, w).Some?
    ensures LedgerInv(NextWorker(s, step, w).value)
  {
    var s' := NextWorker(s, step, w).value;
    if step.WorkerClean? && step.cleaned {
      ForgetKeepsLedger(s, step.stage, s');
    } else {
      SameLedger(s, s');
    }
  }

  lemma WorkerStepKeepsInv(s: State, step: Step, w: nat)
    requires Inv(s) && w in s.workers && NextWorker(s, step, w).Some?
    ensures Inv(NextWorker(s, step, w).value)
  {
    var s' := NextWorker(s, step, w).value;
    WorkerStepKeepsLedger(s, step, w);
    WorkerStepKeepsShutdowns(s, step, w);
    forall t | t in s'.turns ensures TurnInv(s', t) {
      assert TurnInv(s, t);
    }
    forall x | x in s'.owner.stages ensures StageInv(s', x) {
      assert StageInv(s, x);
    }
  }

  lemma ArriveKeepsInv(s: State, t: TurnId, k: Key, files: bool)
    requires Inv(s) && t !in s.turns
    ensures Inv(s.(turns := s.turns[t := Turn(k, files, Arriving, NoAdmission)]))
  {
    var s' := s.(turns := s.turns[t := Turn(k, files, Arriving, NoAdmission)]);
    TurnKeepsLedger(s, t, s'.turns[t], s');
    forall u | u in s'.turns ensures TurnInv(s', u) {
      if u in s.turns {
        assert TurnInv(s, u);
      }
    }
    forall x | x in s'.owner.stages ensures StageInv(s', x) {
      assert StageInv(s, x);
    }
    forall j | j in s'.shutdowns ensures ShutdownInv(s', j) {
      assert ShutdownInv(s, j);
    }
  }

  lemma ShutKeepsInv(s: State, j: nat, k: Key)
    requires Inv(s) && j !in s.shutdowns
    ensures Inv(s.(shutdowns := s.shutdowns[j := Closing(k)]))
  {
    var s' := s.(shutdowns := s.shutdowns[j := Closing(k)]);
    SameLedger(s, s');
    forall t | t in s'.turns ensures TurnInv(s', t) {
      assert TurnInv(s, t);
    }
    forall x | x in s'.owner.stages ensures StageInv(s', x) {
      assert StageInv(s, x);
    }
    forall i | i in s'.shutdowns ensures ShutdownInv(s', i) {
      if i != j {
        assert ShutdownInv(s, i);
      }
    }
  }

  lemma StepKeepsInv(s: State, step: Step)
    requires Inv(s) && Next(s, step).Some?
    ensures Inv(Next(s, step).value)
  {
    if step.Arrive? {
      ArriveKeepsInv(s, step.t, step.k, step.files);
    } else if step.Shut? {
      ShutKeepsInv(s, step.j, step.k);
    } else if TurnOf(step).Some? {
      TurnStepKeepsInv(s, step, TurnOf(step).value);
    } else if WorkerOf(step).Some? {
      WorkerStepKeepsInv(s, step, WorkerOf(step).value);
    } else {
      ShutdownStepKeepsInv(s, step, step.j);
    }
  }

  lemma {:induction false} RunKeepsInv(s: State, steps: seq<Step>)
    requires Inv(s) && Run(s, steps).Some?
    ensures Inv(Run(s, steps).value)
    decreases |steps|
  {
    if steps != [] {
      StepKeepsInv(s, steps[0]);
      RunKeepsInv(Next(s, steps[0]).value, steps[1..]);
    }
  }

  // ----- Over whole runs -----

  ghost predicate Reachable(limit: nat, t: State) {
    exists steps :: Run(Init(limit), steps) == Some(t)
  }

  lemma ReachableInv(limit: nat, t: State)
    requires Reachable(limit, t)
    ensures Inv(t)
  {
    var steps :| Run(Init(limit), steps) == Some(t);
    InitInv(limit);
    RunKeepsInv(Init(limit), steps);
  }

  lemma LimitNeverChanges(s: State, step: Step)
    requires Next(s, step).Some?
    ensures Next(s, step).value.owner.limit == s.owner.limit
  {
    if TurnOf(step).None? && WorkerOf(step).None? && !step.Arrive? && !step.Shut? {
      ShutdownStepActs(s, step, step.j);
    }
  }

  lemma {:induction false} RunKeepsLimit(s: State, steps: seq<Step>)
    requires Run(s, steps).Some?
    ensures Run(s, steps).value.owner.limit == s.owner.limit
    decreases |steps|
  {
    if steps != [] {
      LimitNeverChanges(s, steps[0]);
      RunKeepsLimit(Next(s, steps[0]).value, steps[1..]);
    }
  }

  /** Every reservation and every retained stage is counted once, within both limits. */
  lemma CountsAreConserved(limit: nat, t: State, k: Key)
    requires Reachable(limit, t)
    ensures Count(t.owner, k) == |ReservedOf(t.turns, k)| + |RetainedOf(t.owner.stages, k)|
    ensures Count(t.owner, k) <= MAX_RETAINED_PER_SESSION
    ensures t.owner.reservations == |Reserved(t.turns)|
    ensures t.owner.reservations + |t.owner.stages| <= limit
    ensures k in t.owner.counts <==> Count(t.owner, k) > 0
  {
    ReachableInv(limit, t);
    assert Balanced(t, k);
    var steps :| Run(Init(limit), steps) == Some(t);
    RunKeepsLimit(Init(limit), steps);
  }

  /** While anything is retained exactly one worker looks after it; there are never two. */
  lemma OneWorker(limit: nat, t: State)
    requires Reachable(limit, t)
    ensures |t.workers| <= 1
    ensures t.owner.stages != map[] ==> |t.workers| == 1
  {
    ReachableInv(limit, t);
    if t.workers != map[] {
      var w :| w in t.workers;
      assert t.workers.Keys == {w};
    }
  }

  predicate SpentFor(s: State, t: TurnId) {
    && t in s.turns && s.turns[t].admission.Spent?
    && (s.turns[t].pc.Ending? || s.turns[t].pc.Clearing? || s.turns[t].pc.Leaving? || s.turns[t].pc.Over?)
  }

  lemma OwnStepKeepsSpent(s: State, step: Step, t: TurnId)
    requires SpentFor(s, t) && NextTurn(s, step, t).Some?
    ensures var s' := NextTurn(s, step, t).value; SpentFor(s', t) && s'.owner == s.owner
  {
  }

  lemma OtherStepKeepsSpent(s: State, step: Step, t: TurnId, u: TurnId)
    requires SpentFor(s, t) && u != t && u in s.turns && NextTurn(s, step, u).Some?
    ensures var s' := NextTurn(s, step, u).value; SpentFor(s', t) && (t !in s.owner.stages ==> t !in s'.owner.stages)
  {
  }

  /** A spent admission stays spent, so each is given back or turned into a stage at most once. */
  lemma SpentIsForever(s: State, step: Step, t: TurnId)
    requires SpentFor(s, t) && Next(s, step).Some?
    ensures var s' := Next(s, step).value;
            SpentFor(s', t) && (t !in s.owner.stages ==> t !in s'.owner.stages)
  {
    if TurnOf(step) == Some(t) {
      OwnStepKeepsSpent(s, step, t);
    } else if TurnOf(step).Some? {
      OtherStepKeepsSpent(s, step, t, TurnOf(step).value);
    }
  }

  lemma SpentAdmissionsAreOver(limit: nat, s: State, t: TurnId)
    requires Reachable(limit, s) && t in s.turns && s.turns[t].admission.Spent?
    ensures SpentFor(s, t)
  {
    ReachableInv(limit, s);
    assert TurnInv(s, t);
  }

  lemma {:induction false} SpentOverRuns(s: State, steps: seq<Step>, t: TurnId)
    requires SpentFor(s, t) && Run(s, steps).Some?
    ensures var s' := Run(s, steps).value;
            SpentFor(s', t) && (t !in s.owner.stages ==> t !in s'.owner.stages)
    decreases |steps|
  {
    if steps != [] {
      SpentIsForever(s, steps[0], t);
      SpentOverRuns(Next(s, steps[0]).value, steps[1..], t);
    }
  }

  /** Over any run, a spent admission is never given back or retained again, and its stage never returns. */
  lemma SpentNeverActsAgain(limit: nat, s: State, steps: seq<Step>, t: TurnId)
    requires Reachable(limit, s) && t in s.turns && s.turns[t].admission.Spent? && Run(s, steps).Some?
    ensures var s' := Run(s, steps).value;
            && t in s'.turns && s'.turns[t].admission.Spent? && !s'.turns[t].pc.Running?
            && (t !in s.owner.stages ==> t !in s'.owner.stages)
  {
    SpentAdmissionsAreOver(limit, s, t);
    SpentOverRuns(s, steps, t);
  }

  predicate Admits(s: State, t: TurnId) {
    t in s.turns && !s.turns[t].admission.NoAdmission?
  }

  lemma TurnKeepsItsAdmission(s: State, step: Step, t: TurnId, u: TurnId)
    requires Admits(s, t) && u in s.turns && (u == t ==> !s.turns[t].pc.Arriving?) && NextTurn(s, step, u).Some?
    ensures Admits(NextTurn(s, step, u).value, t)
  {
  }

  lemma StepKeepsItsAdmission(s: State, step: Step, t: TurnId)
    requires Inv(s) && Admits(s, t) && Next(s, step).Some?
    ensures Admits(Next(s, step).value, t)
  {
    assert TurnInv(s, t);
    if TurnOf(step).Some? {
      TurnKeepsItsAdmission(s, step, t, TurnOf(step).value);
    }
  }

  /** Every admission is spent: a turn that held one and is over has spent it, by release or by retain. */
  lemma {:induction false} AdmissionsEndSpent(s: State, steps: seq<Step>, t: TurnId)
    requires Inv(s) && Admits(s, t) && Run(s, steps).Some?
    requires t in Run(s, steps).value.turns && Run(s, steps).value.turns[t].pc.Over?
    ensures Run(s, steps).value.turns[t].admission.Spent?
    decreases |steps|
  {
    if steps == [] {
      assert TurnInv(s, t);
    } else {
      StepKeepsItsAdmission(s, steps[0], t);
      StepKeepsInv(s, steps[0]);
      AdmissionsEndSpent(Next(s, steps[0]).value, steps[1..], t);
    }
  }

  /** A turn that is over owes nothing. */
  lemma OverTurnsOweNothing(limit: nat, s: State, t: TurnId)
    requires Reachable(limit, s) && t in s.turns && s.turns[t].pc.Over?
    ensures !Outstanding(s.turns[t])
  {
    ReachableInv(limit, s);
    assert TurnInv(s, t);
  }

  /** A shutdown that waits on the current generation still has something to wait for. */
  lemma NoWakeupIsLost(limit: nat, t: State, j: nat)
    requires Reachable(limit, t) && j in t.shutdowns && t.shutdowns[j].Watching?
    ensures Count(t.owner, t.shutdowns[j].k) == 0 ==> Next(t, Changed(j)).Some?
  {
    ReachableInv(limit, t);
    assert ShutdownInv(t, j);
  }

  predicate ReturnedNil(s: State, j: nat) {
    j in s.shutdowns && s.shutdowns[j].Returned? && s.shutdowns[j].ok
  }

  lemma WorkersLeaveShutdowns(s: State, step: Step, w: nat)
    requires w in s.workers && NextWorker(s, step, w).Some?
    ensures NextWorker(s, step, w).value.shutdowns == s.shutdowns
  {
  }

  lemma ReturnIsFinal(s: State, step: Step, j: nat)
    requires ReturnedNil(s, j) && Next(s, step).Some?
    ensures ReturnedNil(Next(s, step).value, j) && Next(s, step).value.shutdowns[j] == s.shutdowns[j]
  {
    if TurnOf(step).Some? {
      TurnStepActs(s, step, TurnOf(step).value);
    } else if WorkerOf(step).Some? {
      WorkersLeaveShutdowns(s, step, WorkerOf(step).value);
    }
  }

  lemma {:induction false} ReturnIsFinalForever(s: State, steps: seq<Step>, j: nat)
    requires ReturnedNil(s, j) && Run(s, steps).Some?
    ensures ReturnedNil(Run(s, steps).value, j) && Run(s, steps).value.shutdowns[j] == s.shutdowns[j]
    decreases |steps|
  {
    if steps != [] {
      ReturnIsFinal(s, steps[0], j);
      ReturnIsFinalForever(Next(s, steps[0]).value, steps[1..], j);
    }
  }

  /**
   * Once a shutdown returned without error its session retains nothing and no turn of it is on its way to retain,
   * now and after any further steps, however many queued turns still race for admission.
   */
  lemma ShutdownDrainsForGood(limit: nat, s: State, j: nat, steps: seq<Step>)
    requires Reachable(limit, s) && ReturnedNil(s, j) && Run(s, steps).Some?
    ensures var (t, k) := (Run(s, steps).value, s.shutdowns[j].k);
            && RetainedOf(t.owner.stages, k) == {} && k in t.closing
            && forall u <- t.turns :: t.turns[u].key == k ==> !t.turns[u].pc.Running? && !t.turns[u].admission.Retaining?
  {
    ReachableInv(limit, s);
    RunKeepsInv(s, steps);
    ReturnIsFinalForever(s, steps, j);
    var t := Run(s, steps).value;
    assert ShutdownInv(t, j);
    forall u | u in t.turns && t.turns[u].key == s.shutdowns[j].k
      ensures !t.turns[u].pc.Running? && !t.turns[u].admission.Retaining?
    {
      assert TurnInv(t, u);
    }
  }
}
