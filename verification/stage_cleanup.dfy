/** Removing one private prompt stage: bounded retries around steps that may fail, and latches that never reopen. */
module StageCleanup {
  import opened Wrappers

  const CLEANUP_TRIES: nat := 4
  const PROOF_TRIES: nat := 4

  type Identity = nat

  /** dir is "" for a stage that was never created or is finished; files are the contents kept in memory. */
  datatype Stage = Stage(
    dir: string, identity: Option<Identity>, names: seq<string>, files: map<string, string>,
    removalIssued: bool, fenced: bool)

  /** What the foreign steps of one cleanup attempt answer. */
  datatype Attempt = Attempt(quarantined: bool, prepared: bool, removed: bool)

  /** The foreign steps in the order they are taken; the flag says whether the step succeeded. */
  datatype Op =
    | Quarantine(ok: bool)
    | Announce
    | Prepare(ok: bool)
    | Remove(ok: bool, names: seq<string>)
    | Probe(removed: bool)
    | CloseIdentity
    | ReleaseFence
    | Register

  /** A cleanup call's answers: what each attempt and each proof would say if it is asked. */
  datatype Answers = Answers(attempts: seq<Attempt>, proofs: seq<bool>)

  predicate Enough(a: Answers) {
    |a.attempts| == CLEANUP_TRIES && |a.proofs| == PROOF_TRIES
  }

  // ----- Specification -----

  function AttemptOps(stage: Stage, a: Attempt): seq<Op> {
    if !a.quarantined then [Quarantine(false)]
    else
      [Quarantine(true)] + (if stage.fenced then [Announce] else [])
      + (if !a.prepared then [Prepare(false)] else [Prepare(true), Remove(a.removed, stage.names)])
  }

  predicate Succeeds(a: Attempt) {
    a.quarantined && a.prepared && a.removed
  }

  /** Attempts are made until one removes the stage. */
  function Tries(stage: Stage, attempts: seq<Attempt>): (bool, seq<Op>) {
    if attempts == [] then (false, [])
    else if Succeeds(attempts[0]) then (true, AttemptOps(stage, attempts[0]))
    else
      var (issued, ops) := Tries(stage, attempts[1..]);
      (issued, AttemptOps(stage, attempts[0]) + ops)
  }

  function Proofs(proofs: seq<bool>): (bool, seq<Op>) {
    if proofs == [] then (false, [])
    else if proofs[0] then (true, [Probe(true)])
    else
      var (proved, ops) := Proofs(proofs[1..]);
      (proved, [Probe(false)] + ops)
  }

  function Finished(stage: Stage): Stage {
    stage.(identity := None, dir := "", names := [], removalIssued := false, fenced := false)
  }

  function FinishOps(stage: Stage): seq<Op> {
    [CloseIdentity] + if stage.fenced then [ReleaseFence] else []
  }

  datatype Outcome = Outcome(stage: Stage, ok: bool, ops: seq<Op>)

  function AfterTries(stage: Stage, proofs: seq<bool>, ops: seq<Op>): Outcome {
    if !stage.removalIssued then Outcome(stage, false, ops)
    else
      var (proved, more) := Proofs(proofs);
      if proved then Outcome(Finished(stage), true, ops + more + FinishOps(stage)) else Outcome(stage, false, ops + more)
  }

  /** One call of cleanup. */
  function Cleaned(stage: Stage, a: Answers): Outcome {
    if stage.dir == "" then Outcome(stage, true, [])
    else
      var wiped := stage.(files := map[]);
      if wiped.identity.None? then Outcome(wiped, false, [])
      else
        var (tried, ops) := Attempted(wiped, a.attempts);
        AfterTries(tried, a.proofs, ops)
  }

  /** The first half of a cleanup; nothing is attempted again once a removal was issued. */
  function Attempted(stage: Stage, attempts: seq<Attempt>): (Stage, seq<Op>) {
    if stage.removalIssued then (stage, [])
    else
      var (issued, ops) := Tries(stage, attempts);
      (stage.(removalIssued := issued), ops)
  }

  lemma TriesUnfold(stage: Stage, attempts: seq<Attempt>, i: nat, before: seq<Op>)
    requires i < |attempts|
    ensures Succeeds(attempts[i]) ==>
              Tries(stage, attempts[i..]) == (true, AttemptOps(stage, attempts[i]))
    ensures !Succeeds(attempts[i]) ==>
              && Tries(stage, attempts[i..]).0 == Tries(stage, attempts[i + 1..]).0
              && before + Tries(stage, attempts[i..]).1
                 == before + AttemptOps(stage, attempts[i]) + Tries(stage, attempts[i + 1..]).1
  {
    assert attempts[i..][0] == attempts[i] && attempts[i..][1..] == attempts[i + 1..];
  }

  // ----- The loops -----

  class PromptStage {
    var dir: string
    var identity: Option<Identity>
    var names: seq<string>
    var files: map<string, string>
    var removalIssued: bool
    var fenced: bool
    ghost var ops: seq<Op>

    ghost function Value(): Stage
      reads this
    {
      Stage(dir, identity, names, files, removalIssued, fenced)
    }

    constructor (stage: Stage)
      ensures Value() == stage && ops == []
    {
      dir, identity, names, files := stage.dir, stage.identity, stage.names, stage.files;
      removalIssued, fenced, ops := stage.removalIssued, stage.fenced, [];
    }

    method TryOnce(a: Attempt)
      modifies this`removalIssued, this`ops
      ensures removalIssued == (old(removalIssued) || Succeeds(a))
      ensures ops == old(ops) + AttemptOps(old(Value()), a)
    {
      ops := ops + [Quarantine(a.quarantined)];
      if a.quarantined {
        if fenced {
          ops := ops + [Announce];
        }
        ops := ops + [Prepare(a.prepared)];
        if a.prepared {
          ops := ops + [Remove(a.removed, names)];
          if a.removed {
            removalIssued := true;
          }
        }
      }
    }

    method TryRemoval(attempts: seq<Attempt>)
      requires !removalIssued && |attempts| == CLEANUP_TRIES
      modifies this`removalIssued, this`ops
      ensures removalIssued == Tries(old(Value()), attempts).0
      ensures ops == old(ops) + Tries(old(Value()), attempts).1
    {
      ghost var stage, goal := Value(), ops + Tries(Value(), attempts).1;
      var attempt := 0;
      while attempt < CLEANUP_TRIES
        invariant 0 <= attempt <= CLEANUP_TRIES && Value() == stage
        invariant Tries(stage, attempts).0 == Tries(stage, attempts[attempt..]).0
        invariant goal == ops + Tries(stage, attempts[attempt..]).1
      {
        TriesUnfold(stage, attempts, attempt, ops);
        TryOnce(attempts[attempt]);
        if removalIssued {
          break;
        }
        attempt := attempt + 1;
      }
    }

    method ProveRemoval(proofs: seq<bool>) returns (proved: bool)
      requires |proofs| == PROOF_TRIES
      modifies this`ops
      ensures proved == Proofs(proofs).0
      ensures ops == old(ops) + Proofs(proofs).1
    {
      var attempt := 0;
      while attempt < PROOF_TRIES
        invariant 0 <= attempt <= PROOF_TRIES
        invariant Proofs(proofs).0 == Proofs(proofs[attempt..]).0
        invariant old(ops) + Proofs(proofs).1 == ops + Proofs(proofs[attempt..]).1
      {
        assert proofs[attempt..][0] == proofs[attempt] && proofs[attempt..][1..] == proofs[attempt + 1..];
        ops := ops + [Probe(proofs[attempt])];
        if proofs[attempt] {
          return true;
        }
        attempt := attempt + 1;
      }
      return false;
    }

    method Cleanup(a: Answers) returns (ok: bool)
      requires Enough(a)
      modifies this
      ensures var out := Cleaned(old(Value()), a);
              Value() == out.stage && ok == out.ok && ops == old(ops) + out.ops
    {
      if dir == "" {
        return true;
      }
      files := map[];
      if identity.None? {
        return false;
      }
      AttemptRemoval(a.attempts);
      ok := Settle(a.proofs);
    }

    method AttemptRemoval(attempts: seq<Attempt>)
      requires |attempts| == CLEANUP_TRIES
      modifies this`removalIssued, this`ops
      ensures Value() == Attempted(old(Value()), attempts).0
      ensures ops == old(ops) + Attempted(old(Value()), attempts).1
    {
      if !removalIssued {
        TryRemoval(attempts);
      }
    }

    /** The second half of a cleanup: the proof has its own retries and never goes back to the names. */
    method Settle(proofs: seq<bool>) returns (ok: bool)
      requires |proofs| == PROOF_TRIES
      modifies this
      ensures var out := AfterTries(old(Value()), proofs, old(ops)); Value() == out.stage && ok == out.ok && ops == out.ops
    {
      if !removalIssued {
        return false;
      }
      var proved := ProveRemoval(proofs);
      if !proved {
        return false;
      }
      FinishRemoval();
      return true;
    }

    method FinishRemoval()
      modifies this
      ensures Value() == Finished(old(Value()))
      ensures ops == old(ops) + FinishOps(old(Value()))
    {
      identity, dir, names, removalIssued := None, "", [], false;
      ops := ops + [CloseIdentity];
      if fenced {
        ops := ops + [ReleaseFence];
      }
      fenced := false;
    }
  }

  // ----- One call -----

  predicate Ends(op: Op) {
    op.CloseIdentity? || op.ReleaseFence?
  }

  /** Success means the stage is finished; failure keeps everything a retry needs. Contents are wiped either way. */
  lemma VerdictIsHonest(stage: Stage, a: Answers)
    requires stage.dir != ""
    ensures var out := Cleaned(stage, a);
            && (out.ok ==> out.stage == Finished(stage.(files := map[])) && Probe(true) in out.ops)
            && (!out.ok ==> out.stage.(removalIssued := stage.removalIssued) == stage.(files := map[])
                            && (stage.removalIssued ==> out.stage.removalIssued)
                            && forall op <- out.ops :: !Ends(op))
            && (stage.identity.None? ==> !out.ok)
  {
    var wiped := stage.(files := map[]);
    TriesDoNotEnd(wiped, a.attempts);
    ProofsDoNotEnd(a.proofs);
  }

  lemma {:induction false} TriesDoNotEnd(stage: Stage, attempts: seq<Attempt>)
    ensures forall op <- Tries(stage, attempts).1 :: !Ends(op)
    ensures |Tries(stage, attempts).1| <= 4 * |attempts|
    decreases |attempts|
  {
    if attempts != [] && !Succeeds(attempts[0]) {
      TriesDoNotEnd(stage, attempts[1..]);
    }
  }

  lemma {:induction false} ProofsDoNotEnd(proofs: seq<bool>)
    ensures forall op <- Proofs(proofs).1 :: !Ends(op)
    ensures Proofs(proofs).0 ==> Probe(true) in Proofs(proofs).1
    ensures |Proofs(proofs).1| <= |proofs|
    decreases |proofs|
  {
    if proofs != [] && !proofs[0] {
      ProofsDoNotEnd(proofs[1..]);
    }
  }

  /** One call is bounded, and it removes the stage as soon as one attempt and one later proof succeed. */
  lemma CallIsBounded(stage: Stage, a: Answers)
    requires Enough(a)
    ensures |Cleaned(stage, a).ops| <= 4 * CLEANUP_TRIES + PROOF_TRIES + 2
    ensures stage.dir != "" && stage.identity.Some? ==>
              (Cleaned(stage, a).ok <==>
                 (stage.removalIssued || exists i :: 0 <= i < CLEANUP_TRIES && Succeeds(a.attempts[i])) && true in a.proofs)
  {
    var wiped := stage.(files := map[]);
    TriesDoNotEnd(wiped, a.attempts);
    ProofsDoNotEnd(a.proofs);
    TriesSucceedIfOneDoes(wiped, a.attempts);
    ProofsSucceedIfOneDoes(a.proofs);
  }

  lemma {:induction false} TriesSucceedIfOneDoes(stage: Stage, attempts: seq<Attempt>)
    ensures Tries(stage, attempts).0 <==> exists i :: 0 <= i < |attempts| && Succeeds(attempts[i])
    decreases |attempts|
  {
    if attempts != [] {
      TriesSucceedIfOneDoes(stage, attempts[1..]);
      forall i | 0 < i < |attempts| && Succeeds(attempts[i])
        ensures exists j :: 0 <= j < |attempts[1..]| && Succeeds(attempts[1..][j])
      {
        assert attempts[1..][i - 1] == attempts[i];
      }
    }
  }

  lemma {:induction false} ProofsSucceedIfOneDoes(proofs: seq<bool>)
    ensures Proofs(proofs).0 <==> true in proofs
    decreases |proofs|
  {
    if proofs != [] {
      ProofsSucceedIfOneDoes(proofs[1..]);
      assert proofs == [proofs[0]] + proofs[1..];
    }
  }
}
