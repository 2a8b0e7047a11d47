/** Any number of cleanups of one stage: the foreign steps follow an automaton whose latches never reopen. */
module StageLatch {
  import opened Wrappers
  import opened StageCleanup

  // ----- Any number of calls -----

  /** Between two cleanups a stage may still be given its fence. */
  datatype Call = Clean(answers: Answers) | Fence

  /** The combined steps of the calls and the last stage. */
  function Calls(stage: Stage, calls: seq<Call>): (Stage, seq<Op>)
    decreases |calls|
  {
    if calls == [] then (stage, [])
    else
      var (next, first) := OneCall(stage, calls[0]);
      var (last, ops) := Calls(next, calls[1..]);
      (last, first + ops)
  }

  function OneCall(stage: Stage, call: Call): (Stage, seq<Op>) {
    match call
    case Fence => if stage.dir == "" || stage.fenced then (stage, []) else (stage.(fenced := true), [Register])
    case Clean(answers) => var out := Cleaned(stage, answers); (out.stage, out.ops)
  }

  /** The removal as an automaton over the steps; only listed steps are allowed. */
  datatype Phase = Standing | Quarantined(announced: bool) | Prepared | Issued | Proved | Closed | Gone

  datatype Trail = Trail(phase: Phase, fenced: bool)

  function Move(at: Trail, op: Op): Option<Trail> {
    match (at.phase, op)
    case (Standing, Quarantine(ok)) => Some(at.(phase := if ok then Quarantined(false) else Standing))
    case (Quarantined(false), Announce) => if at.fenced then Some(at.(phase := Quarantined(true))) else None
    case (Quarantined(announced), Prepare(ok)) =>
      if announced != at.fenced then None else Some(at.(phase := if ok then Prepared else Standing))
    case (Prepared, Remove(ok, _)) => Some(at.(phase := if ok then Issued else Standing))
    case (Issued, Probe(removed)) => Some(at.(phase := if removed then Proved else Issued))
    case (Proved, CloseIdentity) => Some(at.(phase := if at.fenced then Closed else Gone))
    case (Closed, ReleaseFence) => Some(Trail(Gone, false))
    case (Standing, Register) => if at.fenced then None else Some(at.(fenced := true))
    case (Issued, Register) => if at.fenced then None else Some(at.(fenced := true))
    case _ => None
  }

  function Trace(at: Trail, ops: seq<Op>): Option<Trail>
    decreases |ops|
  {
    if ops == [] then Some(at)
    else match Move(at, ops[0])
      case None => None
      case Some(next) => Trace(next, ops[1..])
  }

  lemma {:induction false} TraceConcat(at: Trail, a: seq<Op>, b: seq<Op>)
    requires Trace(at, a).Some?
    ensures Trace(at, a + b) == Trace(Trace(at, a).value, b)
    decreases |a|
  {
    if a == [] {
      assert a + b == b;
    } else {
      assert (a + b)[0] == a[0] && (a + b)[1..] == a[1..] + b;
      TraceConcat(Move(at, a[0]).value, a[1..], b);
    }
  }

  lemma TraceOne(at: Trail, op: Op)
    ensures Trace(at, [op]) == Move(at, op)
  {
    assert [op][1..] == [];
  }

  function TrailOf(stage: Stage): Trail {
    Trail(if stage.dir == "" then Gone else if stage.removalIssued then Issued else Standing, stage.fenced)
  }

  lemma QuarantineIsTraced(fenced: bool)
    ensures Trace(Trail(Standing, fenced), [Quarantine(true)] + (if fenced then [Announce] else []))
            == Some(Trail(Quarantined(fenced), fenced))
  {
    TraceOne(Trail(Standing, fenced), Quarantine(true));
    if fenced {
      TraceOne(Trail(Quarantined(false), true), Announce);
      TraceConcat(Trail(Standing, true), [Quarantine(true)], [Announce]);
    } else {
      assert [Quarantine(true)] + [] == [Quarantine(true)];
    }
  }

  function PrepareOps(names: seq<string>, a: Attempt): seq<Op> {
    if !a.prepared then [Prepare(false)] else [Prepare(true), Remove(a.removed, names)]
  }

  lemma PreparationIsTraced(fenced: bool, names: seq<string>, a: Attempt)
    ensures Trace(Trail(Quarantined(fenced), fenced), PrepareOps(names, a))
            == Some(Trail(if a.prepared && a.removed then Issued else Standing, fenced))
  {
    TraceOne(Trail(Quarantined(fenced), fenced), Prepare(a.prepared));
    if a.prepared {
      TraceOne(Trail(Prepared, fenced), Remove(a.removed, names));
      TraceConcat(Trail(Quarantined(fenced), fenced), [Prepare(true)], [Remove(a.removed, names)]);
      assert [Prepare(true)] + [Remove(a.removed, names)] == PrepareOps(names, a);
    }
  }

  lemma AttemptIsTraced(stage: Stage, a: Attempt)
    ensures Trace(Trail(Standing, stage.fenced), AttemptOps(stage, a))
            == Some(Trail(if Succeeds(a) then Issued else Standing, stage.fenced))
  {
    if a.quarantined {
      QuarantineIsTraced(stage.fenced);
      PreparationIsTraced(stage.fenced, stage.names, a);
      TraceConcat(Trail(Standing, stage.fenced), [Quarantine(true)] + (if stage.fenced then [Announce] else []),
                  PrepareOps(stage.names, a));
    } else {
      TraceOne(Trail(Standing, stage.fenced), Quarantine(false));
    }
  }

  lemma {:induction false} TriesAreTraced(stage: Stage, attempts: seq<Attempt>)
    ensures Trace(Trail(Standing, stage.fenced), Tries(stage, attempts).1)
            == Some(Trail(if Tries(stage, attempts).0 then Issued else Standing, stage.fenced))
    decreases |attempts|
  {
    if attempts != [] {
      AttemptIsTraced(stage, attempts[0]);
      if !Succeeds(attempts[0]) {
        TriesAreTraced(stage, attempts[1..]);
        TraceConcat(Trail(Standing, stage.fenced), AttemptOps(stage, attempts[0]), Tries(stage, attempts[1..]).1);
      }
    }
  }

  lemma {:induction false} ProofsAreTraced(proofs: seq<bool>, fenced: bool)
    ensures Trace(Trail(Issued, fenced), Proofs(proofs).1)
            == Some(Trail(if Proofs(proofs).0 then Proved else Issued, fenced))
    decreases |proofs|
  {
    if proofs != [] {
      TraceOne(Trail(Issued, fenced), Probe(proofs[0]));
      if !proofs[0] {
        ProofsAreTraced(proofs[1..], fenced);
        TraceConcat(Trail(Issued, fenced), [Probe(false)], Proofs(proofs[1..]).1);
      }
    }
  }

  lemma FinishIsTraced(stage: Stage)
    ensures Trace(Trail(Proved, stage.fenced), FinishOps(stage)) == Some(Trail(Gone, false))
  {
    TraceOne(Trail(Proved, stage.fenced), CloseIdentity);
    if stage.fenced {
      TraceOne(Trail(Closed, true), ReleaseFence);
      TraceConcat(Trail(Proved, true), [CloseIdentity], [ReleaseFence]);
    } else {
      assert FinishOps(stage) == [CloseIdentity];
    }
  }

  lemma AfterTriesIsTraced(at: Trail, stage: Stage, proofs: seq<bool>, ops: seq<Op>)
    requires stage.dir != "" && Trace(at, ops) == Some(TrailOf(stage))
    ensures var out := AfterTries(stage, proofs, ops); Trace(at, out.ops) == Some(TrailOf(out.stage))
  {
    if stage.removalIssued {
      ProofsAreTraced(proofs, stage.fenced);
      TraceConcat(at, ops, Proofs(proofs).1);
      if Proofs(proofs).0 {
        FinishIsTraced(stage);
        TraceConcat(at, ops + Proofs(proofs).1, FinishOps(stage));
      }
    }
  }

  lemma CallIsTraced(stage: Stage, call: Call)
    ensures Trace(TrailOf(stage), OneCall(stage, call).1) == Some(TrailOf(OneCall(stage, call).0))
  {
    if call.Fence? {
      TraceOne(TrailOf(stage), Register);
    } else if stage.dir != "" && stage.identity.Some? {
      var wiped := stage.(files := map[]);
      if wiped.removalIssued {
        AfterTriesIsTraced(TrailOf(stage), wiped, call.answers.proofs, []);
      } else {
        TriesAreTraced(wiped, call.answers.attempts);
        var (issued, ops) := Tries(wiped, call.answers.attempts);
        AfterTriesIsTraced(TrailOf(stage), wiped.(removalIssued := issued), call.answers.proofs, ops);
      }
    }
  }

  /** However often cleanup is called and whatever fails, the steps taken are a path of the automaton. */
  lemma {:induction false} CallsAreTraced(stage: Stage, calls: seq<Call>)
    ensures Trace(TrailOf(stage), Calls(stage, calls).1) == Some(TrailOf(Calls(stage, calls).0))
    decreases |calls|
  {
    if calls != [] {
      CallIsTraced(stage, calls[0]);
      var (next, first) := OneCall(stage, calls[0]);
      CallsAreTraced(next, calls[1..]);
      TraceConcat(TrailOf(stage), first, Calls(next, calls[1..]).1);
    }
  }

  // ----- What a path of the automaton can contain -----

  /** The steps that go through a name in the file system. */
  predicate ByName(op: Op) {
    op.Quarantine? || op.Announce? || op.Prepare? || op.Remove?
  }

  predicate Late(phase: Phase) {
    phase.Issued? || phase.Proved? || phase.Closed? || phase.Gone?
  }

  lemma {:induction false} LatePhasesUseNoNames(at: Trail, ops: seq<Op>, i: nat)
    requires Trace(at, ops).Some? && Late(at.phase) && i < |ops|
    ensures !ByName(ops[i])
    decreases |ops|
  {
    if i > 0 {
      LatePhasesUseNoNames(Move(at, ops[0]).value, ops[1..], i - 1);
    }
  }

  /** The removal latches: over any calls, no step by name follows a successful one. */
  lemma RemovalLatches(stage: Stage, calls: seq<Call>)
    ensures var ops := Calls(stage, calls).1;
            forall i, j :: 0 <= i < j < |ops| && ops[i].Remove? && ops[i].ok ==> !ByName(ops[j])
  {
    CallsAreTraced(stage, calls);
    var ops := Calls(stage, calls).1;
    forall i, j | 0 <= i < j < |ops| && ops[i].Remove? && ops[i].ok ensures !ByName(ops[j]) {
      NothingByNameAfterRemoval(TrailOf(stage), ops, i, j);
    }
  }

  /** Over any calls, identity and fence go only after a probe found the stage removed. */
  lemma IdentityOutlivesUntilProof(stage: Stage, calls: seq<Call>)
    ensures var ops := Calls(stage, calls).1;
            forall j :: 0 <= j < |ops| && Ends(ops[j]) ==> exists i :: 0 <= i < j && ops[i] == Probe(true)
  {
    CallsAreTraced(stage, calls);
    var ops := Calls(stage, calls).1;
    forall j | 0 <= j < |ops| && Ends(ops[j]) ensures exists i :: 0 <= i < j && ops[i] == Probe(true) {
      EndsOnlyBehindProof(TrailOf(stage), ops, j);
    }
  }

  /** Once a removal succeeded nothing goes through a name again, so it succeeds at most once. */
  lemma {:induction false} NothingByNameAfterRemoval(at: Trail, ops: seq<Op>, i: nat, j: nat)
    requires Trace(at, ops).Some? && i < j < |ops| && ops[i].Remove? && ops[i].ok
    ensures !ByName(ops[j])
    decreases |ops|
  {
    var next := Move(at, ops[0]).value;
    if i == 0 {
      LatePhasesUseNoNames(next, ops[1..], j - 1);
    } else {
      NothingByNameAfterRemoval(next, ops[1..], i - 1, j - 1);
    }
  }

  /** The identity is closed and the fence released only behind a positive proof of removal. */
  lemma {:induction false} EndsOnlyBehindProof(at: Trail, ops: seq<Op>, j: nat)
    requires Trace(at, ops).Some? && !at.phase.Proved? && !at.phase.Closed? && j < |ops| && Ends(ops[j])
    ensures exists i :: 0 <= i < j && ops[i] == Probe(true)
    decreases |ops|
  {
    if ops[0] != Probe(true) {
      EndsOnlyBehindProof(Move(at, ops[0]).value, ops[1..], j - 1);
      var i :| 0 <= i < j - 1 && ops[1..][i] == Probe(true);
      assert ops[i + 1] == Probe(true);
    }
  }
}
