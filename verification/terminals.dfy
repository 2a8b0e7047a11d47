/** The terminals of one chat client: admission, the registry, and the single settlement of every terminal. */
module Terminals {
  import opened Wrappers

  type Id = nat

  datatype Status = Completed | Failed | Cancelled

  datatype Activity = RunningShown | KilledShown | Final(status: Status)

  /** The watcher of one terminal: it alone gives the workspace lease back. */
  datatype WatchPc = NotStarted | Watching | Exited | Emitted | LeaseReturned | Done

  /** Who still owes the terminal its settlement. */
  datatype Custody = InRegistry | WithCreator(c: nat) | WithReleaser(a: nat) | WithCloser(j: nat) | Settled

  /**
   * sink: the activity callbacks are attached; reported: the settlement was claimed; failed: what the exit looked
   * like; leases: how often the workspace lease was given back; dones: how often the done callback ran;
   * creator: the creation that opened it.
   */
  datatype Terminal = Terminal(
    sink: bool, reported: bool, killed: bool, failed: bool, watch: WatchPc, leases: nat,
    log: seq<Activity>, dones: nat, custody: Custody, creator: nat)

  datatype Creator = Working | Opened(x: Id) | Registered(x: Id) | Refused(x: Id) | RollingBack(x: Id) | Leaving | Gone

  datatype Actor =
    | Killing(x: Id)
    | ShowingKill(x: Id)
    | Releasing(x: Id, wasDone: bool)
    | Removing(x: Id, wasDone: bool)
    | Emitting(x: Id, wasDone: bool)
    | Waiting(x: Id)
    | Finished

  /** ok: the wait for running creations was not cut short. */
  datatype Closer = Shutting | AwaitingCreates(round: nat) | Collecting(ok: bool) | Settling(todo: set<Id>, ok: bool)

  /** creates counts running creations; rounds counts how often that count went back to zero. */
  datatype State = State(
    closed: bool, creates: nat, rounds: nat, registry: set<Id>, collected: bool, terminals: map<Id, Terminal>,
    creators: map<nat, Creator>, actors: map<nat, Actor>, closers: map<nat, Closer>)

  datatype Step =
    | BeginCreate(c: nat)
    | FailCreate(c: nat)
    | Open(c: nat, x: Id, sink: bool)
    | Register(c: nat)
    | Publish(c: nat)
    | StartRefused(c: nat)
    | SettleRefused(c: nat)
    | FinishCreate(c: nat)
    | Kill(a: nat, x: Id)
    | KillAnswer(a: nat, ok: bool)
    | ShowKill(a: nat)
    | Release(a: nat, x: Id)
    | ReleaseAnswer(a: nat, ok: bool)
    | Remove(a: nat)
    | EmitReleased(a: nat)
    | Wait(a: nat, x: Id)
    | WaitOver(a: nat, interrupted: bool)
    | Shut(j: nat)
    | MarkClosed(j: nat)
    | CreatesOver(j: nat)
    | CutShort(j: nat)
    | Collect(j: nat)
    | SettleOne(j: nat, x: Id)
    | Exit(x: Id, failed: bool)
    | EmitExit(x: Id)
    | ReturnLease(x: Id)
    | CloseDone(x: Id)

  function Init(): State {
    State(false, 0, 0, {}, false, map[], map[], map[], map[])
  }

  // ----- One terminal, under its activity lock -----

  function Show(t: Terminal, activity: Activity): Terminal {
    if t.sink then t.(log := t.log + [activity]) else t
  }

  /** Whoever claims the settlement detaches the callbacks and uses them once. */
  function SettleFor(t: Terminal, status: Status): Terminal {
    if t.reported then t
    else Show(t, Final(status)).(reported := true, sink := false, dones := t.dones + if t.sink then 1 else 0)
  }

  function ExitStatus(t: Terminal): Status {
    if t.killed then Cancelled else if t.failed then Failed else Completed
  }

  /** Settlement by somebody who only knows whether the watcher is done. */
  function SettleBy(t: Terminal, done: bool): Terminal {
    SettleFor(t, if done then ExitStatus(t) else Cancelled).(custody := Settled)
  }

  function ShowKilled(t: Terminal): Terminal {
    if t.reported then t else Show(t, KilledShown)
  }

  /** The first row and the start of the watcher; the row is lost if the terminal is settled already. */
  function Published(t: Terminal): Terminal {
    Show(t, RunningShown).(watch := Watching)
  }

  /** The callbacks of one terminal; every method is one section under its activity lock. */
  class ActivityRow {
    var sink: bool
    var reported: bool
    var killed: bool
    var failed: bool
    var log: seq<Activity>
    var dones: nat

    /** The whole terminal, given what the lock does not guard. */
    ghost function Value(watch: WatchPc, leases: nat, custody: Custody, creator: nat): Terminal
      reads this
    {
      Terminal(sink, reported, killed, failed, watch, leases, log, dones, custody, creator)
    }

    constructor (attached: bool)
      ensures forall w, custody, creator ::
                Value(w, 0, custody, creator) == Terminal(attached, false, false, false, w, 0, [], 0, custody, creator)
    {
      sink, reported, killed, failed, log, dones := attached, false, false, false, [], 0;
    }

    method Settle(status: Status)
      modifies this`sink, this`reported, this`log, this`dones
      ensures forall w, n, custody, c ::
                Value(w, n, custody, c) == SettleFor(old(Value(w, n, custody, c)), status)
    {
      if reported {
        return;
      }
      reported := true;
      if sink {
        sink := false;
        log := log + [Final(status)];
        dones := dones + 1;
      }
    }

    method ShowKill()
      modifies this`log
      ensures forall w, n, custody, c :: Value(w, n, custody, c) == ShowKilled(old(Value(w, n, custody, c)))
    {
      if !reported && sink {
        log := log + [KilledShown];
      }
    }
  }

  /** What the terminal lock guards: creates counts running creations, rounds how often that count reached zero. */
  datatype Registry = Registry(closed: bool, creates: nat, rounds: nat, items: set<Id>)

  function Begun(r: Registry): Registry {
    if r.closed then r else r.(creates := r.creates + 1)
  }

  /** The last running creation ends the round that a closer may be waiting for. */
  function Ended(r: Registry): Registry {
    if r.creates == 0 then r
    else r.(creates := r.creates - 1, rounds := if r.creates == 1 then r.rounds + 1 else r.rounds)
  }

  function Entered(r: Registry, x: Id): Registry {
    if r.closed then r else r.(items := r.items + {x})
  }

  function Left(r: Registry, x: Id): Registry {
    r.(items := r.items - {x})
  }

  function Barred(r: Registry): Registry {
    r.(closed := true)
  }

  function Gathered(r: Registry): Registry {
    r.(items := {})
  }

  /** Admission and registry of one client; every method is one section under the terminal lock. */
  class TerminalRegistry {
    var closed: bool
    var creates: nat
    var rounds: nat
    var items: set<Id>

    ghost function Value(): Registry
      reads this
    {
      Registry(closed, creates, rounds, items)
    }

    constructor ()
      ensures Value() == Registry(false, 0, 0, {})
    {
      closed, creates, rounds, items := false, 0, 0, {};
    }

    method BeginCreate() returns (ok: bool)
      modifies this`creates
      ensures ok <==> !closed
      ensures Value() == Begun(old(Value()))
    {
      if closed {
        return false;
      }
      creates := creates + 1;
      return true;
    }

    method FinishCreate()
      modifies this`creates, this`rounds
      ensures Value() == Ended(old(Value()))
    {
      if creates == 0 {
        return;
      }
      creates := creates - 1;
      if creates == 0 {
        rounds := rounds + 1;
      }
    }

    method Register(x: Id) returns (ok: bool)
      modifies this`items
      ensures ok <==> !closed
      ensures Value() == Entered(old(Value()), x)
    {
      if closed {
        return false;
      }
      items := items + {x};
      return true;
    }

    method Remove(x: Id) returns (ok: bool)
      modifies this`items
      ensures ok <==> x in old(items)
      ensures Value() == Left(old(Value()), x)
    {
      ok := x in items;
      items := items - {x};
    }

    /** waits: there are creations to wait for, and the round that has to end. */
    method Close() returns (waits: Option<nat>)
      modifies this`closed
      ensures Value() == Barred(old(Value()))
      ensures waits == if creates > 0 then Some(rounds) else None
    {
      closed := true;
      waits := if creates > 0 then Some(rounds) else None;
    }

    method Collect() returns (gathered: set<Id>)
      modifies this`items
      ensures gathered == old(items) && Value() == Gathered(old(Value()))
    {
      gathered := items;
      items := {};
    }
  }

  function RegistryOf(s: State): Registry {
    Registry(s.closed, s.creates, s.rounds, s.registry)
  }

  function WithRegistry(s: State, r: Registry): State {
    s.(closed := r.closed, creates := r.creates, rounds := r.rounds, registry := r.items)
  }

  function WithTerminal(s: State, x: Id, t: Terminal): State {
    s.(terminals := s.terminals[x := t])
  }

  // ----- Steps -----

  function NextCreator(s: State, step: Step, c: nat): Option<State>
    requires c in s.creators
  {
    match (step, s.creators[c])
    case (FailCreate(_), Working) => Some(s.(creators := s.creators[c := Leaving]))
    case (Open(_, x, sink), Working) =>
      if x in s.terminals then None
      else Some(WithTerminal(s, x, Terminal(sink, false, false, false, NotStarted, 0, [], 0, WithCreator(c), c)).(
                  creators := s.creators[c := Opened(x)]))
    case (Register(_), Opened(x)) =>
      if x !in s.terminals then None
      else if s.closed then Some(s.(creators := s.creators[c := Refused(x)]))
      else Some(WithRegistry(WithTerminal(s, x, s.terminals[x].(custody := InRegistry)), Entered(RegistryOf(s), x)).(
                  creators := s.creators[c := Registered(x)]))
    case (Publish(_), Registered(x)) =>
      if x !in s.terminals then None
      else Some(WithTerminal(s, x, Published(s.terminals[x])).(creators := s.creators[c := Leaving]))
    case (StartRefused(_), Refused(x)) =>
      if x !in s.terminals then None
      else Some(WithTerminal(s, x, s.terminals[x].(watch := Watching, killed := true)).(
                  creators := s.creators[c := RollingBack(x)]))
    case (SettleRefused(_), RollingBack(x)) =>
      if x !in s.terminals then None
      else Some(WithTerminal(s, x, SettleBy(s.terminals[x], s.terminals[x].watch.Done?)).(
                  creators := s.creators[c := Leaving]))
    case (FinishCreate(_), Leaving) =>
      if s.creates == 0 then None
      else Some(WithRegistry(s, Ended(RegistryOf(s))).(creators := s.creators[c := Gone]))
    case _ => None
  }

  function StartActor(s: State, a: nat, x: Id, actor: Actor): Option<State> {
    if a in s.actors || x !in s.registry || x !in s.terminals then None else Some(s.(actors := s.actors[a := actor]))
  }

  function NextActor(s: State, step: Step, a: nat): Option<State>
    requires a in s.actors
  {
    match (step, s.actors[a])
    case (KillAnswer(_, ok), Killing(x)) =>
      if x !in s.terminals then None
      else if ok then Some(s.(actors := s.actors[a := ShowingKill(x)]))
      else Some(WithTerminal(s, x, s.terminals[x].(killed := false)).(actors := s.actors[a := Finished]))
    case (ShowKill(_), ShowingKill(x)) =>
      if x !in s.terminals then None
      else Some(WithTerminal(s, x, ShowKilled(s.terminals[x])).(actors := s.actors[a := Finished]))
    case (ReleaseAnswer(_, ok), Releasing(x, wasDone)) =>
      if x !in s.terminals then None
      else if ok then Some(s.(actors := s.actors[a := Removing(x, wasDone)]))
      else
        var t := s.terminals[x];
        Some(WithTerminal(s, x, if wasDone || t.reported then t else t.(killed := false)).(
               actors := s.actors[a := Finished]))
    case (Remove(_), Removing(x, wasDone)) =>
      if x !in s.terminals then None
      else if x !in s.registry then Some(s.(actors := s.actors[a := Finished]))
      else Some(WithRegistry(WithTerminal(s, x, s.terminals[x].(custody := WithReleaser(a))), Left(RegistryOf(s), x)).(
                  actors := s.actors[a := Emitting(x, wasDone)]))
    case (EmitReleased(_), Emitting(x, wasDone)) =>
      if x !in s.terminals then None
      else Some(WithTerminal(s, x, SettleBy(s.terminals[x], wasDone)).(actors := s.actors[a := Finished]))
    case (WaitOver(_, interrupted), Waiting(x)) =>
      if x !in s.terminals then None
      else if interrupted then Some(s.(actors := s.actors[a := Finished]))
      else if !s.terminals[x].watch.Done? then None
      else Some(WithTerminal(s, x, SettleFor(s.terminals[x], ExitStatus(s.terminals[x]))).(
                  actors := s.actors[a := Finished]))
    case _ => None
  }

  /** Marks the terminal as killed before its close can wake the watcher. */
  function NextStart(s: State, step: Step): Option<State> {
    match step
    case Kill(a, x) =>
      if x !in s.terminals then None
      else StartActor(WithTerminal(s, x, s.terminals[x].(killed := true)), a, x, Killing(x))
    case Release(a, x) =>
      if x !in s.terminals then None
      else
        var t := s.terminals[x];
        StartActor(WithTerminal(s, x, if t.watch.Done? || t.reported then t else t.(killed := true)),
                   a, x, Releasing(x, t.watch.Done?))
    case Wait(a, x) => StartActor(s, a, x, Waiting(x))
    case BeginCreate(c) =>
      if c in s.creators then None
      else Some(WithRegistry(s, Begun(RegistryOf(s))).(
                  creators := s.creators[c := if s.closed then Gone else Working]))
    case Shut(j) => if j in s.closers then None else Some(s.(closers := s.closers[j := Shutting]))
    case _ => None
  }

  function NextCloser(s: State, step: Step, j: nat): Option<State>
    requires j in s.closers
  {
    match (step, s.closers[j])
    case (MarkClosed(_), Shutting) =>
      Some(WithRegistry(s, Barred(RegistryOf(s))).(
              closers := s.closers[j := if s.creates > 0 then AwaitingCreates(s.rounds) else Collecting(true)]))
    case (CreatesOver(_), AwaitingCreates(round)) =>
      if s.rounds > round then Some(s.(closers := s.closers[j := Collecting(true)])) else None
    case (CutShort(_), AwaitingCreates(_)) => Some(s.(closers := s.closers[j := Collecting(false)]))
    case (Collect(_), Collecting(ok)) =>
      Some(WithRegistry(s, Gathered(RegistryOf(s))).(
              collected := true, closers := s.closers[j := Settling(s.registry, ok)],
              terminals := map x | x in s.terminals :: if x in s.registry
                                                       then s.terminals[x].(custody := WithCloser(j)) else s.terminals[x]))
    case (SettleOne(_, x), Settling(todo, ok)) =>
      if x !in todo || x !in s.terminals then None
      else
        var t := s.terminals[x].(killed := true);
        Some(WithTerminal(s, x, SettleBy(t, t.watch.Done?)).(closers := s.closers[j := Settling(todo - {x}, ok)]))
    case _ => None
  }

  function NextWatcher(s: State, step: Step, x: Id): Option<State>
    requires x in s.terminals
  {
    var t := s.terminals[x];
    match (step, t.watch)
    case (Exit(_, failed), Watching) => Some(WithTerminal(s, x, t.(failed := failed, watch := Exited)))
    case (EmitExit(_), Exited) => Some(WithTerminal(s, x, SettleFor(t, ExitStatus(t)).(watch := Emitted)))
    case (ReturnLease(_), Emitted) => Some(WithTerminal(s, x, t.(leases := t.leases + 1, watch := LeaseReturned)))
    case (CloseDone(_), LeaseReturned) => Some(WithTerminal(s, x, t.(watch := Done)))
    case _ => None
  }

  function CreatorOf(step: Step): Option<nat> {
    match step
    case FailCreate(c) => Some(c)
    case Open(c, _, _) => Some(c)
    case Register(c) => Some(c)
    case Publish(c) => Some(c)
    case StartRefused(c) => Some(c)
    case SettleRefused(c) => Some(c)
    case FinishCreate(c) => Some(c)
    case _ => None
  }

  function ActorOf(step: Step): Option<nat> {
    match step
    case KillAnswer(a, _) => Some(a)
    case ShowKill(a) => Some(a)
    case ReleaseAnswer(a, _) => Some(a)
    case Remove(a) => Some(a)
    case EmitReleased(a) => Some(a)
    case WaitOver(a, _) => Some(a)
    case _ => None
  }

  function CloserOf(step: Step): Option<nat> {
    match step
    case MarkClosed(j) => Some(j)
    case CreatesOver(j) => Some(j)
    case CutShort(j) => Some(j)
    case Collect(j) => Some(j)
    case SettleOne(j, _) => Some(j)
    case _ => None
  }

  function WatcherOf(step: Step): Option<Id> {
    match step
    case Exit(x, _) => Some(x)
    case EmitExit(x) => Some(x)
    case ReturnLease(x) => Some(x)
    case CloseDone(x) => Some(x)
    case _ => None
  }

  function Next(s: State, step: Step): Option<State> {
    if CreatorOf(step).Some? then
      if CreatorOf(step).value in s.creators then NextCreator(s, step, CreatorOf(step).value) else None
    else if ActorOf(step).Some? then
      if ActorOf(step).value in s.actors then NextActor(s, step, ActorOf(step).value) else None
    else if CloserOf(step).Some? then
      if CloserOf(step).value in s.closers then NextCloser(s, step, CloserOf(step).value) else None
    else if WatcherOf(step).Some? then
      if WatcherOf(step).value in s.terminals then NextWatcher(s, step, WatcherOf(step).value) else None
    else NextStart(s, step)
  }

  function Run(s: State, steps: seq<Step>): Option<State>
    decreases |steps|
  {
    if steps == [] then Some(s)
    else match Next(s, steps[0])
      case None => None
      case Some(t) => Run(t, steps[1..])
  }

  // ----- What every step keeps -----

  /** Rows may follow each other until the final one, which is the last. */
  predicate WellEnded(log: seq<Activity>) {
    forall i :: 0 <= i < |log| - 1 ==> !log[i].Final?
  }

  predicate Unended(log: seq<Activity>) {
    forall a <- log :: !a.Final?
  }

  /** What a terminal's own fields keep. */
  predicate Sound(t: Terminal) {
    && (t.reported ==> !t.sink)
    && (!t.reported ==> Unended(t.log) && t.dones == 0)
    && WellEnded(t.log) && t.dones <= 1
    && (t.log != [] && t.log[|t.log| - 1].Final? <==> t.dones == 1)
    && t.leases == (if t.watch.LeaseReturned? || t.watch.Done? then 1 else 0)
    && (t.watch.Emitted? || t.watch.LeaseReturned? || t.watch.Done? ==> t.reported)
    && (t.custody.Settled? ==> t.reported)
  }

  ghost predicate CustodyInv(s: State, x: Id)
    requires x in s.terminals
  {
    match s.terminals[x].custody
    case InRegistry => x in s.registry
    case WithCreator(c) =>
      c in s.creators && (s.creators[c] == Opened(x) || s.creators[c] == Refused(x) || s.creators[c] == RollingBack(x))
    case WithReleaser(a) => a in s.actors && s.actors[a].Emitting? && s.actors[a].x == x
    case WithCloser(j) => j in s.closers && s.closers[j].Settling? && x in s.closers[j].todo
    case Settled => true
  }

  predicate Holds(creator: Creator, x: Id) {
    (creator.Opened? || creator.Registered? || creator.Refused? || creator.RollingBack?) && creator.x == x
  }

  ghost predicate CreatorInv(s: State, c: nat)
    requires c in s.creators
  {
    match s.creators[c]
    case Opened(x) => x in s.terminals && s.terminals[x].creator == c && s.terminals[x].watch.NotStarted?
                      && s.terminals[x].custody == WithCreator(c)
    case Registered(x) => x in s.terminals && s.terminals[x].creator == c && s.terminals[x].watch.NotStarted?
    case Refused(x) => x in s.terminals && s.terminals[x].creator == c && s.terminals[x].watch.NotStarted?
                       && s.terminals[x].custody == WithCreator(c)
    case RollingBack(x) => x in s.terminals && s.terminals[x].creator == c && s.terminals[x].custody == WithCreator(c)
    case _ => true
  }

  ghost predicate ActorInv(s: State, a: nat)
    requires a in s.actors
  {
    s.actors[a].Emitting? ==> s.actors[a].x in s.terminals && s.terminals[s.actors[a].x].custody == WithReleaser(a)
  }

  ghost predicate CloserInv(s: State, j: nat)
    requires j in s.closers
  {
    match s.closers[j]
    case Shutting => true
    case AwaitingCreates(round) => s.closed && round <= s.rounds && (round < s.rounds ==> s.creates == 0)
    case Collecting(ok) => s.closed && (ok ==> s.creates == 0)
    case Settling(todo, ok) =>
      && s.collected && (ok ==> s.creates == 0)
      && forall x <- todo :: x in s.terminals && s.terminals[x].custody == WithCloser(j)
  }

  function Busy(creators: map<nat, Creator>): set<nat> {
    set c | c in creators && !creators[c].Gone?
  }

  ghost predicate CountInv(s: State) {
    && s.creates == |Busy(s.creators)|
    && (s.collected ==> s.closed && s.registry == {})
  }

  ghost predicate SoundInv(s: State) { forall x <- s.terminals :: Sound(s.terminals[x]) }
  ghost predicate CustodiesInv(s: State) { forall x <- s.terminals :: CustodyInv(s, x) }
  ghost predicate RegistryInv(s: State) {
    forall x <- s.registry :: x in s.terminals && s.terminals[x].custody == InRegistry
  }
  ghost predicate CreatorsInv(s: State) { forall c <- s.creators :: CreatorInv(s, c) }
  ghost predicate ActorsInv(s: State) { forall a <- s.actors :: ActorInv(s, a) }
  ghost predicate ClosersInv(s: State) { forall j <- s.closers :: CloserInv(s, j) }

  ghost predicate Inv(s: State) {
    && SoundInv(s) && CustodiesInv(s) && RegistryInv(s)
    && CreatorsInv(s) && ActorsInv(s) && ClosersInv(s) && CountInv(s)
  }

  lemma InitInv()
    ensures Inv(Init())
  {
    assert Busy(map[]) == {};
  }

  // Each operation on one terminal keeps it sound.

  lemma ShowKeepsEnding(log: seq<Activity>, activity: Activity)
    requires Unended(log)
    ensures WellEnded(log + [activity]) && (!activity.Final? ==> Unended(log + [activity]))
  {
  }

  lemma SettleKeepsSound(t: Terminal, status: Status)
    requires Sound(t)
    ensures Sound(SettleFor(t, status)) && SettleFor(t, status).reported
  {
    if !t.reported {
      ShowKeepsEnding(t.log, Final(status));
    }
  }

  lemma ShowKilledKeepsSound(t: Terminal)
    requires Sound(t)
    ensures Sound(ShowKilled(t))
  {
    if !t.reported {
      ShowKeepsEnding(t.log, KilledShown);
    }
  }

  lemma PublishedKeepsSound(t: Terminal)
    requires Sound(t) && t.watch.NotStarted?
    ensures Sound(Published(t))
  {
    if !t.reported {
      ShowKeepsEnding(t.log, RunningShown);
    }
  }

  lemma CreatorStepKeepsSound(s: State, step: Step, c: nat)
    requires SoundInv(s) && c in s.creators && CreatorInv(s, c) && NextCreator(s, step, c).Some?
    ensures SoundInv(NextCreator(s, step, c).value)
  {
    if step.Publish? {
      PublishedKeepsSound(s.terminals[s.creators[c].x]);
    } else if step.SettleRefused? {
      var t := s.terminals[s.creators[c].x];
      SettleKeepsSound(t, if t.watch.Done? then ExitStatus(t) else Cancelled);
    }
  }

  lemma CloserStepKeepsSound(s: State, step: Step, j: nat)
    requires SoundInv(s) && j in s.closers && NextCloser(s, step, j).Some?
    ensures SoundInv(NextCloser(s, step, j).value)
  {
    if step.SettleOne? {
      var t := s.terminals[step.x].(killed := true);
      SettleKeepsSound(t, if t.watch.Done? then ExitStatus(t) else Cancelled);
    }
  }

  lemma WatcherStepKeepsSound(s: State, step: Step, x: Id)
    requires SoundInv(s) && x in s.terminals && NextWatcher(s, step, x).Some?
    ensures SoundInv(NextWatcher(s, step, x).value)
  {
    if step.EmitExit? {
      SettleKeepsSound(s.terminals[x], ExitStatus(s.terminals[x]));
    }
  }

  // Threads that do not move a terminal from one keeper to another.

  /** The same keeper, the same creator and, before it started, the same watcher. */
  predicate KeepsPlace(t: Terminal, item: Terminal) {
    t.custody == item.custody && t.creator == item.creator && (t.watch.NotStarted? <==> item.watch.NotStarted?)
  }

  lemma OneTerminalKeepsInv(s: State, x: Id, item: Terminal)
    requires Inv(s) && x in s.terminals && KeepsPlace(s.terminals[x], item) && Sound(item)
    ensures Inv(WithTerminal(s, x, item))
  {
    var t := WithTerminal(s, x, item);
    forall y | y in t.terminals ensures CustodyInv(t, y) {
      assert CustodyInv(s, y);
    }
    forall c | c in t.creators ensures CreatorInv(t, c) {
      assert CreatorInv(s, c);
    }
    forall a | a in t.actors ensures ActorInv(t, a) {
      assert ActorInv(s, a);
    }
    forall j | j in t.closers ensures CloserInv(t, j) {
      assert CloserInv(s, j);
    }
  }

  lemma WatcherStepActs(s: State, step: Step, x: Id)
    requires x in s.terminals && NextWatcher(s, step, x).Some?
    ensures var t := NextWatcher(s, step, x).value;
            && x in t.terminals && t == WithTerminal(s, x, t.terminals[x])
            && KeepsPlace(s.terminals[x], t.terminals[x])
  {
  }

  lemma WatcherStepKeepsInv(s: State, step: Step, x: Id)
    requires Inv(s) && x in s.terminals && NextWatcher(s, step, x).Some?
    ensures Inv(NextWatcher(s, step, x).value)
  {
    WatcherStepKeepsSound(s, step, x);
    WatcherStepActs(s, step, x);
    OneTerminalKeepsInv(s, x, NextWatcher(s, step, x).value.terminals[x]);
  }

  // Creators.

  /** A creator touches the terminal it holds, the one it opens, and its own program counter. */
  lemma CreatorStepActs(s: State, step: Step, c: nat)
    requires c in s.creators && NextCreator(s, step, c).Some?
    ensures var t := NextCreator(s, step, c).value;
            && c in t.creators && t.creators == s.creators[c := t.creators[c]]
            && t.actors == s.actors && t.closers == s.closers && t.collected == s.collected && s.registry <= t.registry
            && (forall y <- s.terminals :: y in t.terminals && (Holds(s.creators[c], y) || t.terminals[y] == s.terminals[y]))
            && (forall y <- t.terminals :: y !in s.terminals ==>
                  t.creators[c] == Opened(y) && t.terminals[y].custody == WithCreator(c))
  {
  }

  lemma CreatorStepKeepsItsCustody(s: State, step: Step, c: nat, x: Id)
    requires c in s.creators && CreatorInv(s, c) && NextCreator(s, step, c).Some?
    requires Holds(s.creators[c], x) && x in s.terminals && CustodyInv(s, x)
    ensures x in NextCreator(s, step, c).value.terminals && CustodyInv(NextCreator(s, step, c).value, x)
  {
  }

  lemma CreatorStepKeepsCustodies(s: State, step: Step, c: nat)
    requires CustodiesInv(s) && c in s.creators && CreatorInv(s, c) && NextCreator(s, step, c).Some?
    ensures CustodiesInv(NextCreator(s, step, c).value)
  {
    var t := NextCreator(s, step, c).value;
    CreatorStepActs(s, step, c);
    forall x | x in t.terminals ensures CustodyInv(t, x) {
      if x in s.terminals {
        assert CustodyInv(s, x);
        if Holds(s.creators[c], x) {
          CreatorStepKeepsItsCustody(s, step, c, x);
        }
      }
    }
  }

  lemma CreatorStepKeepsRegistry(s: State, step: Step, c: nat)
    requires RegistryInv(s) && c in s.creators && CreatorInv(s, c) && NextCreator(s, step, c).Some?
    ensures RegistryInv(NextCreator(s, step, c).value)
  {
  }

  lemma CreatorStepKeepsItself(s: State, step: Step, c: nat)
    requires c in s.creators && CreatorInv(s, c) && NextCreator(s, step, c).Some?
    ensures c in NextCreator(s, step, c).value.creators && CreatorInv(NextCreator(s, step, c).value, c)
  {
  }

  lemma CreatorStepKeepsCreators(s: State, step: Step, c: nat)
    requires CreatorsInv(s) && c in s.creators && NextCreator(s, step, c).Some?
    ensures CreatorsInv(NextCreator(s, step, c).value)
  {
    var t := NextCreator(s, step, c).value;
    assert CreatorInv(s, c);
    CreatorStepActs(s, step, c);
    CreatorStepKeepsItself(s, step, c);
    forall d | d in t.creators ensures CreatorInv(t, d) {
      assert CreatorInv(s, d);
    }
  }

  lemma CreatorStepKeepsActors(s: State, step: Step, c: nat)
    requires ActorsInv(s) && c in s.creators && CreatorInv(s, c) && NextCreator(s, step, c).Some?
    ensures ActorsInv(NextCreator(s, step, c).value)
  {
    var t := NextCreator(s, step, c).value;
    forall a | a in t.actors ensures ActorInv(t, a) {
      assert ActorInv(s, a);
    }
  }

  lemma CreatorStepKeepsClosers(s: State, step: Step, c: nat)
    requires ClosersInv(s) && c in s.creators && CreatorInv(s, c) && NextCreator(s, step, c).Some?
    ensures ClosersInv(NextCreator(s, step, c).value)
  {
    var t := NextCreator(s, step, c).value;
    forall j | j in t.closers ensures CloserInv(t, j) {
      assert CloserInv(s, j);
    }
  }

  lemma BusyChanges(creators: map<nat, Creator>, c: nat, pc: Creator)
    requires c in creators ==> !creators[c].Gone?
    ensures |Busy(creators[c := pc])|
            == |Busy(creators)| + (if pc.Gone? then 0 else 1) - (if c in creators then 1 else 0)
  {
    var rest := Busy(creators) - {c};
    assert Busy(creators) == if c in creators then rest + {c} else rest;
    assert Busy(creators[c := pc]) == if pc.Gone? then rest else rest + {c};
  }

  lemma CreatorStepKeepsCount(s: State, step: Step, c: nat)
    requires CountInv(s) && c in s.creators && NextCreator(s, step, c).Some?
    ensures CountInv(NextCreator(s, step, c).value)
  {
    var t := NextCreator(s, step, c).value;
    BusyChanges(s.creators, c, t.creators[c]);
    assert t.creators == s.creators[c := t.creators[c]];
  }

  lemma CreatorStepKeepsInv(s: State, step: Step, c: nat)
    requires Inv(s) && c in s.creators && NextCreator(s, step, c).Some?
    ensures Inv(NextCreator(s, step, c).value)
  {
    assert CreatorInv(s, c);
    CreatorStepKeepsSound(s, step, c);
    CreatorStepKeepsCustodies(s, step, c);
    CreatorStepKeepsRegistry(s, step, c);
    CreatorStepKeepsCreators(s, step, c);
    CreatorStepKeepsActors(s, step, c);
    CreatorStepKeepsClosers(s, step, c);
    CreatorStepKeepsCount(s, step, c);
  }

  // Actors.

  lemma ActorTurns(s: State, a: nat, actor: Actor)
    requires Inv(s) && a in s.actors && !s.actors[a].Emitting? && !actor.Emitting?
    ensures Inv(s.(actors := s.actors[a := actor]))
  {
    var t := s.(actors := s.actors[a := actor]);
    forall x | x in t.terminals ensures CustodyInv(t, x) {
      assert CustodyInv(s, x);
    }
    forall c | c in t.creators ensures CreatorInv(t, c) {
      assert CreatorInv(s, c);
    }
    forall b | b in t.actors ensures ActorInv(t, b) {
      assert ActorInv(s, b);
    }
    forall j | j in t.closers ensures CloserInv(t, j) {
      assert CloserInv(s, j);
    }
  }

  /** An actor changes one terminal, but not its keeper, and goes on. */
  lemma ActorActs(s: State, a: nat, actor: Actor, x: Id, item: Terminal)
    requires Inv(s) && a in s.actors && !s.actors[a].Emitting? && !actor.Emitting? && x in s.terminals
    requires KeepsPlace(s.terminals[x], item) && Sound(item)
    ensures Inv(WithTerminal(s, x, item).(actors := s.actors[a := actor]))
  {
    OneTerminalKeepsInv(s, x, item);
    ActorTurns(WithTerminal(s, x, item), a, actor);
  }

  lemma KillAnswerKeepsInv(s: State, ok: bool, a: nat)
    requires Inv(s) && a in s.actors && NextActor(s, KillAnswer(a, ok), a).Some?
    ensures Inv(NextActor(s, KillAnswer(a, ok), a).value)
  {
    var x := s.actors[a].x;
    if ok {
      ActorTurns(s, a, ShowingKill(x));
    } else {
      ActorActs(s, a, Finished, x, s.terminals[x].(killed := false));
    }
  }

  lemma ShowKillKeepsInv(s: State, a: nat)
    requires Inv(s) && a in s.actors && NextActor(s, ShowKill(a), a).Some?
    ensures Inv(NextActor(s, ShowKill(a), a).value)
  {
    var x := s.actors[a].x;
    ShowKilledKeepsSound(s.terminals[x]);
    ActorActs(s, a, Finished, x, ShowKilled(s.terminals[x]));
  }

  lemma ReleaseAnswerKeepsInv(s: State, ok: bool, a: nat)
    requires Inv(s) && a in s.actors && NextActor(s, ReleaseAnswer(a, ok), a).Some?
    ensures Inv(NextActor(s, ReleaseAnswer(a, ok), a).value)
  {
    var (x, wasDone) := (s.actors[a].x, s.actors[a].wasDone);
    if ok {
      ActorTurns(s, a, Removing(x, wasDone));
    } else {
      var t := s.terminals[x];
      ActorActs(s, a, Finished, x, if wasDone || t.reported then t else t.(killed := false));
    }
  }

  lemma WaitOverKeepsInv(s: State, interrupted: bool, a: nat)
    requires Inv(s) && a in s.actors && NextActor(s, WaitOver(a, interrupted), a).Some?
    ensures Inv(NextActor(s, WaitOver(a, interrupted), a).value)
  {
    var x := s.actors[a].x;
    if interrupted {
      ActorTurns(s, a, Finished);
    } else {
      SettleKeepsSound(s.terminals[x], ExitStatus(s.terminals[x]));
      ActorActs(s, a, Finished, x, SettleFor(s.terminals[x], ExitStatus(s.terminals[x])));
    }
  }

  /** The terminal moves from the registry to the one release that found it there. */
  lemma RemoveKeepsInv(s: State, a: nat)
    requires Inv(s) && a in s.actors && s.actors[a].Removing? && s.actors[a].x in s.registry
    ensures Inv(NextActor(s, Remove(a), a).value)
  {
    var t := NextActor(s, Remove(a), a).value;
    forall y | y in t.terminals ensures CustodyInv(t, y) {
      assert CustodyInv(s, y);
    }
    forall c | c in t.creators ensures CreatorInv(t, c) {
      assert CreatorInv(s, c);
    }
    forall b | b in t.actors ensures ActorInv(t, b) {
      assert ActorInv(s, b);
    }
    forall j | j in t.closers ensures CloserInv(t, j) {
      assert CloserInv(s, j);
    }
  }

  /** A release settles the terminal it took out of the registry, and ends. */
  lemma EmitReleasedActs(s: State, a: nat)
    requires a in s.actors && s.actors[a].Emitting? && ActorInv(s, a) && SoundInv(s)
    ensures var x := s.actors[a].x;
            && x in s.terminals && NextActor(s, EmitReleased(a), a).Some?
            && var item := SettleBy(s.terminals[x], s.actors[a].wasDone);
               && Sound(item) && item.custody == Settled && item.watch == s.terminals[x].watch
               && NextActor(s, EmitReleased(a), a).value == WithTerminal(s, x, item).(actors := s.actors[a := Finished])
  {
    var item := s.terminals[s.actors[a].x];
    SettleKeepsSound(item, if s.actors[a].wasDone then ExitStatus(item) else Cancelled);
  }

  lemma EmitReleasedKeepsInv(s: State, a: nat)
    requires Inv(s) && a in s.actors && s.actors[a].Emitting?
    ensures NextActor(s, EmitReleased(a), a).Some? && Inv(NextActor(s, EmitReleased(a), a).value)
  {
    assert ActorInv(s, a);
    EmitReleasedActs(s, a);
    var t := NextActor(s, EmitReleased(a), a).value;
    forall y | y in t.terminals ensures CustodyInv(t, y) {
      assert CustodyInv(s, y);
    }
    forall c | c in t.creators ensures CreatorInv(t, c) {
      assert CreatorInv(s, c);
    }
    forall b | b in t.actors ensures ActorInv(t, b) {
      assert ActorInv(s, b);
    }
    forall j | j in t.closers ensures CloserInv(t, j) {
      assert CloserInv(s, j);
    }
  }

  lemma ActorStepKeepsInv(s: State, step: Step, a: nat)
    requires Inv(s) && a in s.actors && ActorOf(step) == Some(a) && NextActor(s, step, a).Some?
    ensures Inv(NextActor(s, step, a).value)
  {
    match step {
      case KillAnswer(_, ok) => KillAnswerKeepsInv(s, ok, a);
      case ShowKill(_) => ShowKillKeepsInv(s, a);
      case ReleaseAnswer(_, ok) => ReleaseAnswerKeepsInv(s, ok, a);
      case WaitOver(_, interrupted) => WaitOverKeepsInv(s, interrupted, a);
      case EmitReleased(_) => EmitReleasedKeepsInv(s, a);
      case Remove(_) =>
        if s.actors[a].x in s.registry {
          RemoveKeepsInv(s, a);
        } else {
          ActorTurns(s, a, Finished);
        }
      case _ => assert false;
    }
  }

  // Closers.

  lemma CloserStepKeepsCustodies(s: State, step: Step, j: nat)
    requires CustodiesInv(s) && j in s.closers && CloserInv(s, j) && NextCloser(s, step, j).Some?
    ensures CustodiesInv(NextCloser(s, step, j).value)
  {
    var t := NextCloser(s, step, j).value;
    forall x | x in t.terminals ensures CustodyInv(t, x) {
      assert CustodyInv(s, x);
    }
  }

  lemma CloserStepKeepsRegistry(s: State, step: Step, j: nat)
    requires RegistryInv(s) && CountInv(s) && j in s.closers && CloserInv(s, j) && NextCloser(s, step, j).Some?
    ensures RegistryInv(NextCloser(s, step, j).value) && CountInv(NextCloser(s, step, j).value)
  {
  }

  lemma CloserStepKeepsThreads(s: State, step: Step, j: nat)
    requires CreatorsInv(s) && ActorsInv(s) && RegistryInv(s)
    requires j in s.closers && CloserInv(s, j) && NextCloser(s, step, j).Some?
    ensures CreatorsInv(NextCloser(s, step, j).value) && ActorsInv(NextCloser(s, step, j).value)
  {
    var t := NextCloser(s, step, j).value;
    forall c | c in t.creators ensures CreatorInv(t, c) {
      assert CreatorInv(s, c);
    }
    forall a | a in t.actors ensures ActorInv(t, a) {
      assert ActorInv(s, a);
    }
  }

  lemma CloserStepKeepsClosers(s: State, step: Step, j: nat)
    requires ClosersInv(s) && RegistryInv(s) && CountInv(s) && j in s.closers && NextCloser(s, step, j).Some?
    ensures ClosersInv(NextCloser(s, step, j).value)
  {
    var t := NextCloser(s, step, j).value;
    assert CloserInv(s, j);
    forall i | i in t.closers ensures CloserInv(t, i) {
      assert CloserInv(s, i);
    }
  }

  lemma CloserStepKeepsInv(s: State, step: Step, j: nat)
    requires Inv(s) && j in s.closers && NextCloser(s, step, j).Some?
    ensures Inv(NextCloser(s, step, j).value)
  {
    assert CloserInv(s, j);
    CloserStepKeepsSound(s, step, j);
    CloserStepKeepsCustodies(s, step, j);
    CloserStepKeepsRegistry(s, step, j);
    CloserStepKeepsThreads(s, step, j);
    CloserStepKeepsClosers(s, step, j);
  }

  // Threads that begin.

  lemma ActorStarts(s: State, a: nat, actor: Actor)
    requires Inv(s) && a !in s.actors && !actor.Emitting?
    ensures Inv(s.(actors := s.actors[a := actor]))
  {
    var t := s.(actors := s.actors[a := actor]);
    forall x | x in t.terminals ensures CustodyInv(t, x) {
      assert CustodyInv(s, x);
    }
    forall c | c in t.creators ensures CreatorInv(t, c) {
      assert CreatorInv(s, c);
    }
    forall b | b in t.actors ensures ActorInv(t, b) {
      if b != a {
        assert ActorInv(s, b);
      }
    }
    forall j | j in t.closers ensures CloserInv(t, j) {
      assert CloserInv(s, j);
    }
  }

  lemma KilledKeepsInv(s: State, x: Id, killed: bool)
    requires Inv(s) && x in s.terminals
    ensures Inv(WithTerminal(s, x, s.terminals[x].(killed := killed)))
  {
    OneTerminalKeepsInv(s, x, s.terminals[x].(killed := killed));
  }

  lemma CreatorStarts(s: State, c: nat)
    requires Inv(s) && NextStart(s, BeginCreate(c)).Some?
    ensures Inv(NextStart(s, BeginCreate(c)).value)
  {
    var t := NextStart(s, BeginCreate(c)).value;
    BusyChanges(s.creators, c, t.creators[c]);
    forall x | x in t.terminals ensures CustodyInv(t, x) {
      assert CustodyInv(s, x);
    }
    forall d | d in t.creators ensures CreatorInv(t, d) {
      if d != c {
        assert CreatorInv(s, d);
      }
    }
    forall a | a in t.actors ensures ActorInv(t, a) {
      assert ActorInv(s, a);
    }
    forall j | j in t.closers ensures CloserInv(t, j) {
      assert CloserInv(s, j);
    }
  }

  lemma CloserStarts(s: State, j: nat)
    requires Inv(s) && j !in s.closers
    ensures Inv(s.(closers := s.closers[j := Shutting]))
  {
    var t := s.(closers := s.closers[j := Shutting]);
    forall x | x in t.terminals ensures CustodyInv(t, x) {
      assert CustodyInv(s, x);
    }
    forall c | c in t.creators ensures CreatorInv(t, c) {
      assert CreatorInv(s, c);
    }
    forall a | a in t.actors ensures ActorInv(t, a) {
      assert ActorInv(s, a);
    }
    forall i | i in t.closers ensures CloserInv(t, i) {
      if i != j {
        assert CloserInv(s, i);
      }
    }
  }

  lemma StartKeepsInv(s: State, step: Step)
    requires Inv(s) && NextStart(s, step).Some?
    ensures Inv(NextStart(s, step).value)
  {
    match step {
      case Kill(a, x) =>
        KilledKeepsInv(s, x, true);
        ActorStarts(WithTerminal(s, x, s.terminals[x].(killed := true)), a, Killing(x));
      case Release(a, x) => ReleaseKeepsInv(s, a, x);
      case Wait(a, x) => ActorStarts(s, a, Waiting(x));
      case BeginCreate(c) => CreatorStarts(s, c);
      case Shut(j) => CloserStarts(s, j);
      case _ => assert false;
    }
  }

  lemma ReleaseKeepsInv(s: State, a: nat, x: Id)
    requires Inv(s) && NextStart(s, Release(a, x)).Some?
    ensures Inv(NextStart(s, Release(a, x)).value)
  {
    var t := s.terminals[x];
    if t.watch.Done? || t.reported {
      assert WithTerminal(s, x, t) == s;
      ActorStarts(s, a, Releasing(x, t.watch.Done?));
    } else {
      KilledKeepsInv(s, x, true);
      ActorStarts(WithTerminal(s, x, t.(killed := true)), a, Releasing(x, t.watch.Done?));
    }
  }

  lemma StepKeepsInv(s: State, step: Step)
    requires Inv(s) && Next(s, step).Some?
    ensures Inv(Next(s, step).value)
  {
    if CreatorOf(step).Some? {
      CreatorStepKeepsInv(s, step, CreatorOf(step).value);
    } else if ActorOf(step).Some? {
      ActorStepKeepsInv(s, step, ActorOf(step).value);
    } else if CloserOf(step).Some? {
      CloserStepKeepsInv(s, step, CloserOf(step).value);
    } else if WatcherOf(step).Some? {
      WatcherStepKeepsInv(s, step, WatcherOf(step).value);
    } else {
      StartKeepsInv(s, step);
    }
  }

  lemma {:induction false} RunKeepsInv(s: State, steps: seq<Step>)
    requires Inv(s) && Run(s, steps).Some?
    ensures Inv(Run(s, steps).value)
    decreases |steps|
  {
    if steps != [] {
      StepKeepsInv(s, steps[0]);
      RunKeepsInv(Next(s, steps[0]).value, steps[1..]);
    }
  }

  // ----- Over whole runs -----

  ghost predicate Reachable(t: State) {
    exists steps :: Run(Init(), steps) == Some(t)
  }

  lemma ReachableInv(t: State)
    requires Reachable(t)
    ensures Inv(t)
  {
    var steps :| Run(Init(), steps) == Some(t);
    InitInv();
    RunKeepsInv(Init(), steps);
  }

  /** A terminal shows at most one final row and nothing after it; its lease is given back once, by its watcher. */
  lemma OneSettlement(t: State, x: Id)
    requires Reachable(t) && x in t.terminals
    ensures var item := t.terminals[x];
            && (forall i :: 0 <= i < |item.log| - 1 ==> !item.log[i].Final?)
            && (item.reported ==> !item.sink) && (!item.reported ==> Unended(item.log))
            && item.dones <= 1
            && item.leases == (if item.watch.LeaseReturned? || item.watch.Done? then 1 else 0)
            && (item.watch.Done? ==> item.reported)
  {
    ReachableInv(t);
  }

  predicate Silent(t: Terminal) {
    t.reported && !t.sink
  }

  /** Nothing that is done to a settled terminal adds a row or calls the callback again. */
  predicate Unheard(s: State, t: State, x: Id) {
    && x in s.terminals && x in t.terminals && Silent(t.terminals[x])
    && t.terminals[x].log == s.terminals[x].log && t.terminals[x].dones == s.terminals[x].dones
  }

  lemma CreatorIsUnheard(s: State, step: Step, c: nat, x: Id)
    requires x in s.terminals && Silent(s.terminals[x]) && c in s.creators && NextCreator(s, step, c).Some?
    ensures Unheard(s, NextCreator(s, step, c).value, x)
  {
  }

  lemma ActorIsUnheard(s: State, step: Step, a: nat, x: Id)
    requires x in s.terminals && Silent(s.terminals[x]) && a in s.actors && NextActor(s, step, a).Some?
    ensures Unheard(s, NextActor(s, step, a).value, x)
  {
  }

  lemma CloserIsUnheard(s: State, step: Step, j: nat, x: Id)
    requires x in s.terminals && Silent(s.terminals[x]) && j in s.closers && NextCloser(s, step, j).Some?
    ensures Unheard(s, NextCloser(s, step, j).value, x)
  {
  }

  /** Rows are only ever added, and never to a terminal that is settled: no "running" row can follow a final one. */
  lemma SettledStaysSilent(s: State, step: Step, x: Id)
    requires x in s.terminals && Silent(s.terminals[x]) && Next(s, step).Some?
    ensures Unheard(s, Next(s, step).value, x)
  {
    if CreatorOf(step).Some? {
      CreatorIsUnheard(s, step, CreatorOf(step).value, x);
    } else if ActorOf(step).Some? {
      ActorIsUnheard(s, step, ActorOf(step).value, x);
    } else if CloserOf(step).Some? {
      CloserIsUnheard(s, step, CloserOf(step).value, x);
    }
  }

  lemma {:induction false} SettledStaysSilentForever(s: State, steps: seq<Step>, x: Id)
    requires x in s.terminals && Silent(s.terminals[x]) && Run(s, steps).Some?
    ensures Unheard(s, Run(s, steps).value, x)
    decreases |steps|
  {
    if steps != [] {
      SettledStaysSilent(s, steps[0], x);
      SettledStaysSilentForever(Next(s, steps[0]).value, steps[1..], x);
    }
  }

  lemma ActorsLeaveCollected(s: State, step: Step, a: nat)
    requires a in s.actors && NextActor(s, step, a).Some?
    ensures NextActor(s, step, a).value.collected == s.collected
  {
  }

  lemma ClosersKeepCollected(s: State, step: Step, j: nat)
    requires s.collected && j in s.closers && NextCloser(s, step, j).Some?
    ensures NextCloser(s, step, j).value.collected
  {
  }

  lemma CollectedIsFinal(s: State, step: Step)
    requires s.collected && Next(s, step).Some?
    ensures Next(s, step).value.collected
  {
    if CreatorOf(step).Some? {
      CreatorStepActs(s, step, CreatorOf(step).value);
    } else if ActorOf(step).Some? {
      ActorsLeaveCollected(s, step, ActorOf(step).value);
    } else if CloserOf(step).Some? {
      ClosersKeepCollected(s, step, CloserOf(step).value);
    } else if WatcherOf(step).Some? {
      WatcherStepActs(s, step, WatcherOf(step).value);
    }
  }

  /** After the registry was collected once it stays empty, whatever creations were still in flight. */
  lemma {:induction false} RegistryStaysEmpty(s: State, steps: seq<Step>)
    requires Inv(s) && s.collected && Run(s, steps).Some?
    ensures Run(s, steps).value.registry == {}
    decreases |steps|
  {
    if steps != [] {
      StepKeepsInv(s, steps[0]);
      CollectedIsFinal(s, steps[0]);
      RegistryStaysEmpty(Next(s, steps[0]).value, steps[1..]);
    }
  }

  lemma NobodyCreates(creators: map<nat, Creator>, x: Id)
    requires |Busy(creators)| == 0
    ensures forall c <- creators :: !Holds(creators[c], x)
  {
    forall c | c in creators ensures creators[c].Gone? {
      assert c !in Busy(creators);
    }
  }

  /**
   * When a closer that waited for all creations has settled everything it collected, every terminal there ever was is
   * settled, unless a release or another closer is about to do it; and nothing is being created any more.
   */
  lemma CloseLeavesNothingUnsettled(t: State, j: nat, x: Id)
    requires Reachable(t) && j in t.closers && t.closers[j] == Settling({}, true) && x in t.terminals
    ensures t.creates == 0 && Busy(t.creators) == {}
    ensures t.terminals[x].reported
            || (exists a <- t.actors :: t.actors[a].Emitting? && t.actors[a].x == x)
            || (exists i <- t.closers :: i != j && t.closers[i].Settling? && x in t.closers[i].todo)
  {
    ReachableInv(t);
    assert CloserInv(t, j) && CustodyInv(t, x) && Sound(t.terminals[x]);
    NobodyCreates(t.creators, x);
  }
}
