/** Publishing one session's command catalog: snapshots may be overtaken, but never persisted out of order. */
module CommandCatalog {
  import opened Wrappers

  type Commands = seq<string>

  datatype Update = Update(revision: nat, commands: Commands)

  // ----- The catalog under its lock -----

  /** publishing: activation has opened publication. */
  datatype Catalog = Catalog(known: bool, revision: nat, commands: Commands, publishing: bool)

  function Replaced(c: Catalog, commands: Commands): Catalog {
    c.(known := true, revision := c.revision + 1, commands := commands)
  }

  function Latest(c: Catalog): Update {
    Update(c.revision, c.commands)
  }

  class SessionCatalog {
    var known: bool
    var revision: nat
    var commands: Commands
    var publishing: bool

    ghost function Value(): Catalog
      reads this
    {
      Catalog(known, revision, commands, publishing)
    }

    constructor ()
      ensures Value() == Catalog(false, 0, [], false)
    {
      known, revision, commands, publishing := false, 0, [], false;
    }

    method SetAvailableCommands(update: Commands) returns (publish: Option<Update>)
      modifies this`known, this`revision, this`commands
      ensures Value() == Replaced(old(Value()), update)
      ensures publish == if publishing then Some(Latest(Value())) else None
    {
      known, revision, commands := true, revision + 1, update;
      publish := if publishing then Some(Update(revision, commands)) else None;
    }

    /** Publishes what is known already, so that an early notification is not lost. */
    method Activate() returns (publish: Option<Update>)
      modifies this`publishing
      ensures Value() == old(Value()).(publishing := true)
      ensures publish == if known then Some(Latest(Value())) else None
    {
      publishing := true;
      publish := if known then Some(Update(revision, commands)) else None;
    }
  }

  // ----- Publications behind the gate -----

  datatype Publication = Pending(u: Update) | Gated(u: Update) | Persisting(u: Update) | Done(u: Update)

  /**
   * gate: who holds the publication gate; installed: the manager still routes to this session; history: the commands
   * of every revision; carrier: the publication of the newest revision.
   */
  datatype State = State(
    catalog: Catalog, installed: bool, gate: Option<nat>, publications: map<nat, Publication>,
    persisted: seq<Update>, history: map<nat, Commands>, carrier: Option<nat>)

  datatype Step =
    | Notify(k: nat, commands: Commands)
    | Activate(k: nat)
    | Enter(k: nat)
    | Check(k: nat)
    | Persist(k: nat)
    | Uninstall

  function Init(): State {
    State(Catalog(false, 0, [], false), true, None, map[], [], map[], None)
  }

  function Publish(s: State, k: nat): State {
    s.(publications := s.publications[k := Pending(Latest(s.catalog))], carrier := Some(k))
  }

  function NextPublication(s: State, step: Step, k: nat): Option<State>
    requires k in s.publications
  {
    match (step, s.publications[k])
    case (Enter(_), Pending(u)) =>
      if s.gate.Some? then None
      else if !s.installed then Some(s.(publications := s.publications[k := Done(u)]))
      else Some(s.(gate := Some(k), publications := s.publications[k := Gated(u)]))
    case (Check(_), Gated(u)) =>
      if s.catalog.known && u.revision == s.catalog.revision
      then Some(s.(publications := s.publications[k := Persisting(u)]))
      else Some(s.(gate := None, publications := s.publications[k := Done(u)]))
    case (Persist(_), Persisting(u)) =>
      Some(s.(gate := None, persisted := s.persisted + [u], publications := s.publications[k := Done(u)]))
    case _ => None
  }

  function Next(s: State, step: Step): Option<State> {
    match step
    case Notify(k, commands) =>
      if k in s.publications then None
      else
        var catalog := Replaced(s.catalog, commands);
        var t := s.(catalog := catalog, history := s.history[catalog.revision := commands]);
        Some(if catalog.publishing then Publish(t, k) else t)
    case Activate(k) =>
      if k in s.publications then None
      else
        var t := s.(catalog := s.catalog.(publishing := true));
        Some(if s.catalog.known then Publish(t, k) else t)
    case Uninstall => if s.gate.Some? then None else Some(s.(installed := false))
    case Enter(k) => if k in s.publications then NextPublication(s, step, k) else None
    case Check(k) => if k in s.publications then NextPublication(s, step, k) else None
    case Persist(k) => if k in s.publications then NextPublication(s, step, k) else None
  }

  function Run(s: State, steps: seq<Step>): Option<State>
    decreases |steps|
  {
    if steps == [] then Some(s)
    else match Next(s, steps[0])
      case None => None
      case Some(t) => Run(t, steps[1..])
  }

  // ----- What every step keeps -----

  predicate InFlight(p: Publication) {
    !p.Done?
  }

  function LastRevision(persisted: seq<Update>): nat {
    if persisted == [] then 0 else persisted[|persisted| - 1].revision
  }

  predicate Ascending(persisted: seq<Update>) {
    forall i, j :: 0 <= i <= j < |persisted| ==> persisted[i].revision <= persisted[j].revision
  }

  /** An update carries the commands of its revision. */
  predicate Genuine(s: State, u: Update) {
    1 <= u.revision <= s.catalog.revision && u.revision in s.history && u.commands == s.history[u.revision]
  }

  ghost predicate PublicationInv(s: State, k: nat)
    requires k in s.publications
  {
    var p := s.publications[k];
    && Genuine(s, p.u)
    && (s.gate == Some(k) <==> p.Gated? || p.Persisting?)
    && (p.Persisting? ==> LastRevision(s.persisted) <= p.u.revision)
  }

  ghost predicate CatalogInv(s: State) {
    && (s.catalog.known <==> s.catalog.revision >= 1)
    && (s.catalog.known ==> Genuine(s, Latest(s.catalog)))
    && (forall r <- s.history :: 1 <= r <= s.catalog.revision)
    && (s.gate.Some? ==> s.gate.value in s.publications && s.installed)
  }

  ghost predicate PersistedInv(s: State) {
    Ascending(s.persisted) && forall u <- s.persisted :: Genuine(s, u)
  }

  /** The newest revision has been persisted, or its publication is on the way. */
  ghost predicate CarrierInv(s: State) {
    s.catalog.publishing && s.catalog.known ==>
      && s.carrier.Some? && s.carrier.value in s.publications
      && s.publications[s.carrier.value].u.revision == s.catalog.revision
      && (InFlight(s.publications[s.carrier.value]) || !s.installed
          || LastRevision(s.persisted) == s.catalog.revision)
  }

  ghost predicate Inv(s: State) {
    && CatalogInv(s) && PersistedInv(s) && CarrierInv(s)
    && forall k <- s.publications :: PublicationInv(s, k)
  }

  lemma InitInv()
    ensures Inv(Init())
  {
  }

  lemma LastIsGreatest(s: State)
    requires PersistedInv(s)
    ensures LastRevision(s.persisted) <= s.catalog.revision
  {
    if s.persisted != [] {
      assert s.persisted[|s.persisted| - 1] in s.persisted;
    }
  }

  lemma PublicationStepKeepsPersisted(s: State, step: Step, k: nat)
    requires PersistedInv(s) && k in s.publications && PublicationInv(s, k) && NextPublication(s, step, k).Some?
    ensures PersistedInv(NextPublication(s, step, k).value)
  {
    var t := NextPublication(s, step, k).value;
    if step.Persist? {
      var last := |s.persisted|;
      forall i, j | 0 <= i <= j < |t.persisted| ensures t.persisted[i].revision <= t.persisted[j].revision {
        if i < last {
          assert s.persisted[i].revision <= s.persisted[last - 1].revision;
        }
      }
    }
  }

  lemma PublicationStepKeepsInv(s: State, step: Step, k: nat)
    requires Inv(s) && k in s.publications && NextPublication(s, step, k).Some?
    ensures Inv(NextPublication(s, step, k).value)
  {
    var t := NextPublication(s, step, k).value;
    assert PublicationInv(s, k);
    LastIsGreatest(s);
    PublicationStepKeepsPersisted(s, step, k);
    forall j | j in t.publications ensures PublicationInv(t, j) {
      assert PublicationInv(s, j);
    }
  }

  lemma PublishKeepsInv(s: State, k: nat)
    requires CatalogInv(s) && PersistedInv(s) && k !in s.publications && s.catalog.known
    requires forall j <- s.publications :: PublicationInv(s, j)
    ensures Inv(Publish(s, k))
  {
    var t := Publish(s, k);
    forall j | j in t.publications ensures PublicationInv(t, j) {
      if j != k {
        assert PublicationInv(s, j);
      }
    }
  }

  lemma NotifyKeepsInv(s: State, k: nat, commands: Commands)
    requires Inv(s) && k !in s.publications
    ensures Inv(Next(s, Notify(k, commands)).value)
  {
    var catalog := Replaced(s.catalog, commands);
    var t := s.(catalog := catalog, history := s.history[catalog.revision := commands]);
    forall j | j in t.publications ensures PublicationInv(t, j) {
      assert PublicationInv(s, j);
    }
    if catalog.publishing {
      PublishKeepsInv(t, k);
    }
  }

  lemma ActivateKeepsInv(s: State, k: nat)
    requires Inv(s) && k !in s.publications
    ensures Inv(Next(s, Activate(k)).value)
  {
    var t := s.(catalog := s.catalog.(publishing := true));
    forall j | j in t.publications ensures PublicationInv(t, j) {
      assert PublicationInv(s, j);
    }
    if s.catalog.known {
      PublishKeepsInv(t, k);
    }
  }

  lemma StepKeepsInv(s: State, step: Step)
    requires Inv(s) && Next(s, step).Some?
    ensures Inv(Next(s, step).value)
  {
    match step {
      case Notify(k, commands) => NotifyKeepsInv(s, k, commands);
      case Activate(k) => ActivateKeepsInv(s, k);
      case Uninstall =>
        var t := Next(s, step).value;
        forall j | j in t.publications ensures PublicationInv(t, j) {
          assert PublicationInv(s, j);
        }
      case Enter(k) => PublicationStepKeepsInv(s, step, k);
      case Check(k) => PublicationStepKeepsInv(s, step, k);
      case Persist(k) => PublicationStepKeepsInv(s, step, k);
    }
  }

  lemma {:induction false} RunKeepsInv(s: State, steps: seq<Step>)
    requires Inv(s) && Run(s, steps).Some?
    ensures Inv(Run(s, steps).value)
    decreases |steps|
  {
    if steps != [] {
      StepKeepsInv(s, steps[0]);
      RunKeepsInv(Next(s, steps[0]).value, steps[1..]);
    }
  }

  // ----- Over whole runs -----

  ghost predicate Reachable(t: State) {
    exists steps :: Run(Init(), steps) == Some(t)
  }

  lemma ReachableInv(t: State)
    requires Reachable(t)
    ensures Inv(t)
  {
    var steps :| Run(Init(), steps) == Some(t);
    InitInv();
    RunKeepsInv(Init(), steps);
  }

  /** Persisted revisions never go back, and each is persisted with its own commands. */
  lemma PersistedNeverGoesBack(t: State, i: nat, j: nat)
    requires Reachable(t) && i <= j < |t.persisted|
    ensures t.persisted[i].revision <= t.persisted[j].revision <= t.catalog.revision
    ensures t.persisted[i].revision in t.history && t.persisted[i].commands == t.history[t.persisted[i].revision]
  {
    ReachableInv(t);
    assert t.persisted[i] in t.persisted && t.persisted[j] in t.persisted;
  }

  /** Once publication is open and no publication is on the way, the last persisted catalog is the newest one. */
  lemma DrainedMeansLatest(t: State)
    requires Reachable(t) && t.catalog.publishing && t.catalog.known && t.installed
    requires forall k <- t.publications :: !InFlight(t.publications[k])
    ensures t.persisted != [] && t.persisted[|t.persisted| - 1] == Latest(t.catalog)
  {
    ReachableInv(t);
    assert t.persisted[|t.persisted| - 1] in t.persisted;
  }

  /** A session that is not installed any more persists nothing. */
  lemma UninstalledPersistsNothing(s: State, step: Step)
    requires Inv(s) && !s.installed && Next(s, step).Some?
    ensures Next(s, step).value.persisted == s.persisted && !Next(s, step).value.installed
  {
    forall k | k in s.publications ensures !s.publications[k].Persisting? {
      assert PublicationInv(s, k);
    }
  }
}
