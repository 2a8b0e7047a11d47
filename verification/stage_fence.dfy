/** The deny fence around private prompt stages: held over renames until removal is proved. */
module StageFence {
  import opened Wrappers

  // ----- Paths -----

  /** A cleaned absolute path, or one relative to the workspace, as its components. */
  type Path = seq<string>
  type StageId = nat

  predicate Within(path: Path, dir: Path) {
    dir <= path
  }

  /** How an adapter names a file: absolutely, or relative to the workspace root. */
  datatype Request = Absolute(path: Path) | Relative(path: Path)

  /** The workspace root as configured, and without symbolic links when that is known. */
  datatype Roots = Roots(lexical: Path, canonical: Option<Path>)

  function Translated(path: Path, from: Path, to: Path): set<Path> {
    if from <= path then {to + path[|from|..]} else {}
  }

  /** Every spelling that is compared with the fence; links are the spellings the file system resolves them to. */
  function CallbackPaths(request: Request, roots: Roots, links: set<Path>): set<Path> {
    match request
    case Absolute(p) =>
      (match roots.canonical
       case None => {p} + links
       case Some(c) => {p} + Translated(p, roots.lexical, c) + Translated(p, c, roots.lexical) + links)
    case Relative(p) =>
      if p == [] then {}
      else {roots.lexical + p} + (if roots.canonical.Some? then {roots.canonical.value + p} else {}) + links
  }

  /** Whichever way a workspace file is named, both spellings of it are compared with the fence. */
  lemma SpellingsAgree(roots: Roots, relative: Path, links: set<Path>)
    requires roots.canonical.Some? && relative != []
    ensures var both := {roots.lexical + relative, roots.canonical.value + relative};
            && both <= CallbackPaths(Absolute(roots.lexical + relative), roots, links)
            && both <= CallbackPaths(Absolute(roots.canonical.value + relative), roots, links)
            && both <= CallbackPaths(Relative(relative), roots, links)
  {
    var (l, c) := (roots.lexical, roots.canonical.value);
    assert (l + relative)[|l|..] == relative;
    assert (c + relative)[|c|..] == relative;
  }

  predicate Covers(dirs: set<Path>, path: Path) {
    exists dir <- dirs :: Within(path, dir)
  }

  predicate Denies(dirs: set<Path>, paths: set<Path>) {
    exists path <- paths :: Covers(dirs, path)
  }

  lemma UndeniedPathsAreOutside(dirs: set<Path>, paths: set<Path>, path: Path, dir: Path)
    requires !Denies(dirs, paths) && path in paths && dir in dirs
    ensures !Within(path, dir)
  {
    assert Within(path, dir) ==> Covers(dirs, path);
  }

  // ----- Fallbacks and stages under the read-write lock -----

  /** A fallback holds the read lock from the check to the end of its operation. */
  datatype Reader = Deciding(paths: set<Path>) | Executing(paths: set<Path>) | Finished(denied: bool)

  datatype Namespace = Never | Registered | Released

  datatype StagePc = Resting | Picked | Announced | Moved | RemovalIssued | RemovalProved

  datatype Stage = Stage(
    dir: Path, current: Path, former: set<Path>, pending: Option<Path>, namespace: Namespace, pc: StagePc)

  datatype State = State(fence: map<StageId, set<Path>>, readers: map<nat, Reader>, stages: map<StageId, Stage>)

  /** extra: the resolved spelling that is registered along with a directory. */
  datatype Step =
    | Lock(k: nat, request: Request, roots: Roots, links: set<Path>)
    | Decide(k: nat)
    | Unlock(k: nat)
    | Create(x: StageId, dir: Path)
    | Register(x: StageId, extra: set<Path>)
    | Pick(x: StageId, name: Path)
    | Announce(x: StageId, extra: set<Path>)
    | Rename(x: StageId, ok: bool)
    | Reannounce(x: StageId, extra: set<Path>)
    | Rest(x: StageId)
    | Remove(x: StageId)
    | Prove(x: StageId)
    | Release(x: StageId)

  function Init(): State {
    State(map[], map[], map[])
  }

  predicate Holding(r: Reader) {
    r.Deciding? || r.Executing?
  }

  /** The write lock is free to take: its sections are single steps that no reader overlaps. */
  predicate WriteLockFree(s: State) {
    forall k <- s.readers :: !Holding(s.readers[k])
  }

  predicate FenceDenies(s: State, paths: set<Path>) {
    exists x <- s.fence :: Denies(s.fence[x], paths)
  }

  function NextReader(s: State, step: Step): Option<State> {
    match step
    case Lock(k, request, roots, links) =>
      if k in s.readers then None
      else Some(s.(readers := s.readers[k := Deciding(CallbackPaths(request, roots, links))]))
    case Decide(k) =>
      if k !in s.readers || !s.readers[k].Deciding? then None
      else
        var paths := s.readers[k].paths;
        Some(s.(readers := s.readers[k := if FenceDenies(s, paths) then Finished(true) else Executing(paths)]))
    case Unlock(k) =>
      if k !in s.readers || !s.readers[k].Executing? then None
      else Some(s.(readers := s.readers[k := Finished(false)]))
    case _ => None
  }

  function WithStage(s: State, x: StageId, stage: Stage): State {
    s.(stages := s.stages[x := stage])
  }

  /** Adds a directory to a namespace, unless it was released meanwhile. */
  function Enlarged(s: State, x: StageId, dirs: set<Path>): State {
    if x in s.fence then s.(fence := s.fence[x := s.fence[x] + dirs]) else s
  }

  /** The observer of a registered stage adds the directory under the write lock; an unregistered stage has none. */
  function Observe(s: State, x: StageId, stage: Stage, dirs: set<Path>): Option<State> {
    if stage.namespace.Never? then Some(WithStage(s, x, stage))
    else if WriteLockFree(s) then Some(WithStage(Enlarged(s, x, dirs), x, stage))
    else None
  }

  function NextStage(s: State, step: Step, x: StageId): Option<State>
    requires x in s.stages
  {
    var stage := s.stages[x];
    match (step, stage.pc)
    case (Register(_, extra), Resting) =>
      if !stage.namespace.Never? || !WriteLockFree(s) then None
      else Some(WithStage(s, x, stage.(namespace := Registered)).(
                  fence := s.fence[x := {stage.dir, stage.current} + extra]))
    case (Pick(_, name), Resting) =>
      if stage.current != stage.dir || name == stage.dir then None
      else Some(WithStage(s, x,
        stage.(pc := Picked, pending := if stage.pending.Some? then stage.pending else Some(name))))
    case (Announce(_, extra), Picked) =>
      if stage.pending.None? then None
      else Observe(s, x, stage.(pc := Announced), {stage.pending.value} + extra)
    case (Rename(_, ok), Announced) =>
      if stage.pending.None? then None
      else if !ok then Some(WithStage(s, x, stage.(pc := Resting)))
      else Some(WithStage(s, x, stage.(pc := Moved, former := stage.former + {stage.current},
                                       current := stage.pending.value, pending := None)))
    case (Reannounce(_, extra), Moved) => Observe(s, x, stage.(pc := Resting), {stage.current} + extra)
    case (Reannounce(_, extra), Resting) =>
      if stage.current == stage.dir then None else Observe(s, x, stage, {stage.current} + extra)
    case (Rest(_), Moved) => Some(WithStage(s, x, stage.(pc := Resting)))
    case (Remove(_), Resting) =>
      if stage.current == stage.dir then None else Some(WithStage(s, x, stage.(pc := RemovalIssued)))
    case (Prove(_), RemovalIssued) => Some(WithStage(s, x, stage.(pc := RemovalProved)))
    case (Release(_), RemovalProved) =>
      if !stage.namespace.Registered? || !WriteLockFree(s) then None
      else Some(WithStage(s, x, stage.(namespace := Released)).(fence := s.fence - {x}))
    case _ => None
  }

  function StageOf(step: Step): Option<StageId> {
    match step
    case Register(x, _) => Some(x)
    case Pick(x, _) => Some(x)
    case Announce(x, _) => Some(x)
    case Rename(x, _) => Some(x)
    case Reannounce(x, _) => Some(x)
    case Rest(x) => Some(x)
    case Remove(x) => Some(x)
    case Prove(x) => Some(x)
    case Release(x) => Some(x)
    case _ => None
  }

  function Next(s: State, step: Step): Option<State> {
    if step.Create? then
      if step.x in s.stages then None
      else Some(WithStage(s, step.x, Stage(step.dir, step.dir, {}, None, Never, Resting)))
    else if StageOf(step).Some? then
      if StageOf(step).value in s.stages then NextStage(s, step, StageOf(step).value) else None
    else NextReader(s, step)
  }

  function Run(s: State, steps: seq<Step>): Option<State>
    decreases |steps|
  {
    if steps == [] then Some(s)
    else match Next(s, steps[0])
      case None => None
      case Some(t) => Run(t, steps[1..])
  }

  // ----- What every step keeps -----

  /** Where the stage is or was. */
  function Places(stage: Stage): set<Path> {
    {stage.current} + stage.former
  }

  ghost predicate StageInv(s: State, x: StageId)
    requires x in s.stages
  {
    var stage := s.stages[x];
    && (x in s.fence <==> stage.namespace.Registered?)
    && (stage.former == {} || (stage.former == {stage.dir} && stage.pending.None?))
    && (stage.former == {} <==> stage.current == stage.dir)
    && (stage.pc.Picked? || stage.pc.Announced? ==> stage.former == {} && stage.pending.Some?)
    && (stage.pending.Some? ==> stage.pending.value != stage.dir)
    && (stage.namespace.Registered? ==> Places(stage) <= s.fence[x])
    && (stage.namespace.Registered? && stage.pc.Announced? && stage.pending.Some? ==> stage.pending.value in s.fence[x])
    && (stage.namespace.Released? ==> stage.pc.RemovalProved?)
  }

  ghost predicate ReaderInv(s: State, k: nat)
    requires k in s.readers
  {
    s.readers[k].Executing? ==> !FenceDenies(s, s.readers[k].paths)
  }

  ghost predicate Inv(s: State) {
    && (forall x <- s.stages :: StageInv(s, x))
    && (forall k <- s.readers :: ReaderInv(s, k))
    && s.fence.Keys <= s.stages.Keys
  }

  lemma ReaderStepKeepsInv(s: State, step: Step)
    requires Inv(s) && NextReader(s, step).Some?
    ensures Inv(NextReader(s, step).value)
  {
    var t := NextReader(s, step).value;
    forall x | x in t.stages ensures StageInv(t, x) {
      assert StageInv(s, x);
    }
    forall k | k in t.readers ensures ReaderInv(t, k) {
      if k in s.readers {
        assert ReaderInv(s, k);
      }
    }
  }

  /** The fence grows only while nobody reads, and shrinks at will. */
  lemma FenceStepKeepsReaders(s: State, t: State)
    requires t.readers == s.readers
    requires WriteLockFree(s) || t.fence == s.fence
    requires forall k <- s.readers :: ReaderInv(s, k)
    ensures forall k <- t.readers :: ReaderInv(t, k)
  {
    forall k | k in t.readers ensures ReaderInv(t, k) {
      assert ReaderInv(s, k);
    }
  }

  lemma StageStepKeepsReaders(s: State, step: Step, x: StageId)
    requires x in s.stages && NextStage(s, step, x).Some?
    requires forall k <- s.readers :: ReaderInv(s, k)
    ensures forall k <- NextStage(s, step, x).value.readers :: ReaderInv(NextStage(s, step, x).value, k)
  {
    FenceStepKeepsReaders(s, NextStage(s, step, x).value);
  }

  lemma StageStepKeepsOwn(s: State, step: Step, x: StageId)
    requires x in s.stages && StageInv(s, x) && NextStage(s, step, x).Some?
    ensures StageInv(NextStage(s, step, x).value, x)
  {
  }

  lemma StageStepKeepsOthers(s: State, step: Step, x: StageId, y: StageId)
    requires x in s.stages && NextStage(s, step, x).Some? && y in s.stages && y != x && StageInv(s, y)
    ensures StageInv(NextStage(s, step, x).value, y)
  {
  }

  lemma StageStepKeepsInv(s: State, step: Step, x: StageId)
    requires Inv(s) && x in s.stages && NextStage(s, step, x).Some?
    ensures Inv(NextStage(s, step, x).value)
  {
    var t := NextStage(s, step, x).value;
    forall y | y in t.stages ensures StageInv(t, y) {
      if y == x {
        StageStepKeepsOwn(s, step, x);
      } else {
        StageStepKeepsOthers(s, step, x, y);
      }
    }
    StageStepKeepsReaders(s, step, x);
  }

  lemma StepKeepsInv(s: State, step: Step)
    requires Inv(s) && Next(s, step).Some?
    ensures Inv(Next(s, step).value)
  {
    if step.Create? {
      var t := Next(s, step).value;
      forall x | x in t.stages ensures StageInv(t, x) {
        if x != step.x {
          assert StageInv(s, x);
        }
      }
      FenceStepKeepsReaders(s, t);
    } else if StageOf(step).Some? {
      StageStepKeepsInv(s, step, StageOf(step).value);
    } else {
      ReaderStepKeepsInv(s, step);
    }
  }

  lemma {:induction false} RunKeepsInv(s: State, steps: seq<Step>)
    requires Inv(s) && Run(s, steps).Some?
    ensures Inv(Run(s, steps).value)
    decreases |steps|
  {
    if steps != [] {
      StepKeepsInv(s, steps[0]);
      RunKeepsInv(Next(s, steps[0]).value, steps[1..]);
    }
  }

  // ----- Over whole runs -----

  ghost predicate Reachable(t: State) {
    exists steps :: Run(Init(), steps) == Some(t)
  }

  lemma ReachableInv(t: State)
    requires Reachable(t)
    ensures Inv(t)
  {
    var steps :| Run(Init(), steps) == Some(t);
    RunKeepsInv(Init(), steps);
  }

  /** While a stage is registered, no fallback runs on a path inside the place it has or had. */
  lemma NoFallbackInsideAStage(t: State, x: StageId, k: nat, path: Path, place: Path)
    requires Reachable(t) && x in t.stages && t.stages[x].namespace.Registered?
    requires k in t.readers && t.readers[k].Executing? && path in t.readers[k].paths
    requires place in Places(t.stages[x])
    ensures !Within(path, place)
  {
    ReachableInv(t);
    assert StageInv(t, x) && ReaderInv(t, k);
    UndeniedPathsAreOutside(t.fence[x], t.readers[k].paths, path, place);
  }

  /** A registered stage stays registered until its removal is proved; it is never registered again. */
  lemma FenceOutlivesTheStage(s: State, step: Step, x: StageId)
    requires x in s.stages && !s.stages[x].namespace.Never? && Next(s, step).Some?
    ensures var t := Next(s, step).value;
            && x in t.stages && !t.stages[x].namespace.Never?
            && (s.stages[x].namespace.Released? ==> t.stages[x].namespace.Released?)
            && (t.stages[x].namespace != s.stages[x].namespace ==> s.stages[x].pc.RemovalProved?)
            && (x in s.fence && x in t.fence ==> s.fence[x] <= t.fence[x])
  {
  }

  /** A stage that is renamed while registered was fenced under its new name before the rename. */
  lemma NewNameIsFencedFirst(s: State, x: StageId)
    requires Reachable(s) && x in s.stages && s.stages[x].namespace.Registered?
    requires NextStage(s, Rename(x, true), x).Some?
    ensures x in s.fence
    ensures var t := NextStage(s, Rename(x, true), x).value;
            && t.stages[x].current in s.fence[x] && t.fence == s.fence
            && Places(t.stages[x]) == Places(s.stages[x]) + {t.stages[x].current}
  {
    ReachableInv(s);
    assert StageInv(s, x);
  }

  lemma ProofIsFinal(s: State, step: Step, x: StageId)
    requires x in s.stages && s.stages[x].pc.RemovalProved? && Next(s, step).Some?
    ensures x in Next(s, step).value.stages && Next(s, step).value.stages[x].pc.RemovalProved?
  {
  }

  lemma {:induction false} ProofIsFinalForever(s: State, steps: seq<Step>, x: StageId)
    requires x in s.stages && s.stages[x].pc.RemovalProved? && Run(s, steps).Some?
    ensures x in Run(s, steps).value.stages && Run(s, steps).value.stages[x].pc.RemovalProved?
    decreases |steps|
  {
    if steps != [] {
      ProofIsFinal(s, steps[0], x);
      ProofIsFinalForever(Next(s, steps[0]).value, steps[1..], x);
    }
  }

  lemma UnprovedStaysFenced(s: State, step: Step, x: StageId)
    requires Inv(s) && x in s.fence && Next(s, step).Some?
    requires x in Next(s, step).value.stages && !Next(s, step).value.stages[x].pc.RemovalProved?
    ensures x in Next(s, step).value.fence && s.fence[x] <= Next(s, step).value.fence[x]
  {
    assert StageInv(s, x);
  }

  /** As long as removal is not proved, every directory that was ever fenced for the stage stays fenced. */
  lemma {:induction false} FenceHoldsUntilProof(s: State, steps: seq<Step>, x: StageId)
    requires Inv(s) && x in s.fence && Run(s, steps).Some?
    requires x in Run(s, steps).value.stages && !Run(s, steps).value.stages[x].pc.RemovalProved?
    ensures x in Run(s, steps).value.fence && s.fence[x] <= Run(s, steps).value.fence[x]
    decreases |steps|
  {
    if steps != [] {
      var t := Next(s, steps[0]).value;
      assert StageInv(s, x);
      StepKeepsInv(s, steps[0]);
      FenceOutlivesTheStage(s, steps[0], x);
      if t.stages[x].pc.RemovalProved? {
        ProofIsFinalForever(t, steps[1..], x);
      }
      UnprovedStaysFenced(s, steps[0], x);
      FenceHoldsUntilProof(t, steps[1..], x);
    }
  }
}
