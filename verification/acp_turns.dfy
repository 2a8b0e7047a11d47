/** The turns of one ACP session: prompts, cancellation, close and the detached controllers interleave. */
module AcpTurns {
  import opened Wrappers

  type TurnId = nat
  type TaskId = nat
  type RunId = nat
  type Prompt = string

  // ----- One turn -----

  /** requested: the cancellation once-guard was used up; controllers: how many controllers were ever started. */
  datatype Turn = Turn(
    task: Option<TaskId>, run: Option<RunId>,
    cancelled: bool, completed: bool, requested: bool, started: bool, controllers: nat)

  const FRESH_TURN: Turn := Turn(None, None, false, false, false, false, 0)

  /** Cancels the turn unless it completed first; only the first request counts. */
  function RequestCancellation(t: Turn): Turn {
    if t.requested then t
    else t.(requested := true, cancelled := t.cancelled || !t.completed)
  }

  predicate Ready(t: Turn) {
    t.cancelled && !t.started && t.task.Some? && t.run.Some?
  }

  /** Claims the one controller of the turn when it is due. */
  function Dispatch(t: Turn): Turn {
    if Ready(t) then t.(started := true, controllers := t.controllers + 1) else t
  }

  class ActiveTurn {
    var task: Option<TaskId>
    var run: Option<RunId>
    var cancelled: bool
    var completed: bool
    var requested: bool
    var started: bool
    ghost var controllers: nat

    ghost function Value(): Turn
      reads this
    {
      Turn(task, run, cancelled, completed, requested, started, controllers)
    }

    constructor ()
      ensures Value() == FRESH_TURN
    {
      task, run, cancelled, completed, requested, started, controllers := None, None, false, false, false, false, 0;
    }

    method SetTask(id: TaskId)
      modifies this`task
      ensures Value() == old(Value()).(task := Some(id))
    {
      task := Some(id);
    }

    method SetRun(id: RunId)
      modifies this`run
      ensures Value() == old(Value()).(run := Some(id))
    {
      run := Some(id);
    }

    method Cancel()
      modifies this`requested, this`cancelled
      ensures Value() == RequestCancellation(old(Value()))
    {
      if requested {
        return;
      }
      requested := true;
      if completed {
        return;
      }
      cancelled := true;
    }

    method MarkCompleted()
      modifies this`completed
      ensures Value() == old(Value()).(completed := true)
    {
      completed := true;
    }

    /** Whoever is told ready starts the controller. */
    method CancellationTarget() returns (target: Option<(TaskId, RunId)>)
      modifies this`started, this`controllers
      ensures Value() == Dispatch(old(Value()))
      ensures target.Some? <==> Ready(old(Value()))
      ensures target.Some? ==> Some(target.value.0) == task && Some(target.value.1) == run
    {
      if !cancelled || started || task.None? || run.None? {
        return None;
      }
      started := true;
      controllers := controllers + 1;
      return Some((task.value, run.value));
    }
  }

  // ----- The session -----

  datatype Session = Session(
    registered: bool, closed: bool, active: Option<TurnId>,
    task: Option<TaskId>, lastRun: Option<RunId>, pending: Option<Prompt>)

  /** May a turn with this prompt begin now? */
  predicate Admits(s: Session, prompt: Prompt) {
    !s.closed && s.active.None? && !(s.task.Some? && s.lastRun.None? && s.pending != Some(prompt))
  }

  predicate Owns(s: Session, t: TurnId) {
    !s.closed && s.active == Some(t)
  }

  function RecordTask(s: Session, t: TurnId, task: TaskId, prompt: Prompt): Session {
    if Owns(s, t) then s.(task := Some(task), pending := Some(prompt)) else s
  }

  function RecordRun(s: Session, t: TurnId, task: TaskId, run: RunId): Session {
    if Owns(s, t) then s.(task := Some(task), lastRun := Some(run), pending := None) else s
  }

  function ClearUnstarted(s: Session, t: TurnId, task: TaskId): Session {
    if s.active == Some(t) && s.task == Some(task) && s.lastRun.None? then s.(task := None, pending := None) else s
  }

  function Detach(s: Session, t: TurnId): Session {
    if s.active == Some(t) then s.(active := None) else s
  }

  class SessionState {
    var closed: bool
    var active: Option<TurnId>
    var task: Option<TaskId>
    var lastRun: Option<RunId>
    var pending: Option<Prompt>

    ghost function Value(registered: bool): Session
      reads this
    {
      Session(registered, closed, active, task, lastRun, pending)
    }

    constructor ()
      ensures forall r :: Value(r) == Session(r, false, None, None, None, None)
    {
      closed, active, task, lastRun, pending := false, None, None, None, None;
    }

    method Admit(t: TurnId, prompt: Prompt) returns (admitted: bool, knownTask: Option<TaskId>, last: Option<RunId>)
      modifies this`active
      ensures admitted <==> Admits(old(Value(true)), prompt)
      ensures forall r :: Value(r) == if admitted then old(Value(r)).(active := Some(t)) else old(Value(r))
      ensures admitted ==> knownTask == task && last == lastRun
    {
      if closed || active.Some? {
        return false, None, None;
      }
      if task.Some? && lastRun.None? && pending != Some(prompt) {
        return false, None, None;
      }
      active := Some(t);
      return true, task, lastRun;
    }

    method Record(t: TurnId, id: TaskId, prompt: Prompt) returns (stop: bool)
      modifies this`task, this`pending
      ensures forall r :: Value(r) == RecordTask(old(Value(r)), t, id, prompt)
      ensures stop <==> !Owns(old(Value(true)), t)
    {
      if !closed && active == Some(t) {
        task, pending := Some(id), Some(prompt);
      }
      stop := closed || active != Some(t);
    }

    method Finish(t: TurnId, id: TaskId, run: RunId) returns (stop: bool)
      modifies this`task, this`lastRun, this`pending
      ensures forall r :: Value(r) == RecordRun(old(Value(r)), t, id, run)
      ensures stop <==> !Owns(old(Value(true)), t)
    {
      stop := closed || active != Some(t);
      if !stop {
        task, lastRun, pending := Some(id), Some(run), None;
      }
    }

    method Clear(t: TurnId, id: TaskId)
      modifies this`task, this`pending
      ensures forall r :: Value(r) == ClearUnstarted(old(Value(r)), t, id)
    {
      if active == Some(t) && task == Some(id) && lastRun.None? {
        task, pending := None, None;
      }
    }

    method Release(t: TurnId)
      modifies this`active
      ensures forall r :: Value(r) == Detach(old(Value(r)), t)
    {
      if active == Some(t) {
        active := None;
      }
    }

    /** Gives up on a turn that never reported a terminal event. */
    method Retire(t: TurnId) returns (unregister: bool)
      modifies this`active, this`closed
      ensures unregister <==> old(active) == Some(t)
      ensures forall r :: Value(r) == if unregister then old(Value(r)).(active := None, closed := true) else old(Value(r))
    {
      if active != Some(t) {
        return false;
      }
      active := None;
      closed := true;
      return true;
    }

    method Close() returns (turn: Option<TurnId>)
      modifies this`closed
      ensures forall r :: Value(r) == old(Value(r)).(closed := true)
      ensures turn == active
    {
      closed := true;
      turn := active;
    }
  }

  // ----- All threads of one session -----

  datatype Event = Plain | Ended | Failed

  /** The questions asked before an update may be written. */
  datatype Gate = AskRequest | AskTurn | AskRegistry | AskSession

  datatype Back = Leave | Stream | Conclude

  /** Where the prompt handler is; the turn mutex lets only one handler in. */
  datatype Pc =
    | Idle
    | Admitted(t: TurnId, prompt: Prompt, task: Option<TaskId>, last: Option<RunId>)
    | Created(t: TurnId, prompt: Prompt, id: TaskId, last: Option<RunId>)
    | TaskKnown(t: TurnId, prompt: Prompt, id: TaskId, last: Option<RunId>, created: bool)
    | Checking(t: TurnId, prompt: Prompt, id: TaskId, last: Option<RunId>, created: bool, stop: bool)
    | Starting(t: TurnId, prompt: Prompt, id: TaskId, last: Option<RunId>)
    | Clearing(t: TurnId, id: TaskId)
    | RunKnown(t: TurnId, id: TaskId, run: RunId)
    | RunSet(t: TurnId, id: TaskId, run: RunId)
    | Recorded(t: TurnId, closed: bool)
    | Entering(t: TurnId)
    | Streaming(t: TurnId)
    | Inspecting(t: TurnId, event: Event, gate: Gate)
    | Handling(t: TurnId, event: Event)
    | Sending(t: TurnId, event: Event, gate: Gate)
    | Writing(t: TurnId, event: Event)
    | Settled(t: TurnId, terminal: bool)
    | Cancelling(t: TurnId, back: Back)
    | Dispatching(t: TurnId, back: Back)
    | Finishing(t: TurnId)
    | Detaching(t: TurnId)

  datatype Canceller = Requesting(u: TurnId) | Claiming(u: TurnId) | Spent

  datatype Controller = Polling | Completing | Releasing | Unregistering | Over

  /**
   * closing: the session left the registry but is not marked closed yet. vouched: it was registered at the last
   * admission. owner: the turn of every acknowledged run; observed: the runs with a terminal event; prompts: what
   * each task was created with; cancels: the runs CancelRun was asked for.
   */
  datatype State = State(
    session: Session, turns: map<TurnId, Turn>, next: TurnId, prompter: Pc, requestDone: bool, vouched: bool,
    cancellers: map<nat, Canceller>, closing: bool, controllers: map<TurnId, Controller>,
    owner: map<RunId, TurnId>, observed: set<RunId>, prompts: map<TaskId, Prompt>, cancels: set<RunId>)

  datatype StartReply = StartFailed | EmptyRun | Started(run: RunId)

  /** What the runtime, the client and the scheduler decide for the handler; Go where there is nothing to decide. */
  datatype Choice = Go | SeeCancel | ListFailed | NoUpdate | SendUpdate | WriteFailed | MoreChunks | AllWritten

  /** Move, SetTask, ..., Release are the prompt handler's; the steps with a k or u belong to cancellers and controllers. */
  datatype Step =
    | Admit(prompt: Prompt)
    | CreateTask(id: Option<TaskId>)
    | SetTask
    | SaveTask
    | ClearTask
    | StartRun(reply: StartReply)
    | SetRun
    | SaveRun
    | Move(choice: Choice)
    | Deliver(event: Event)
    | Request
    | Claim
    | Complete
    | Release
    | RequestEnds
    | CancelSession(k: nat)
    | Watch(k: nat)
    | RequestBy(k: nat)
    | ClaimBy(k: nat)
    | CloseUnregister
    | CloseMark(k: nat)
    | CancelRun(u: TurnId)
    | ObserveTerminal(u: TurnId)
    | Deadline(u: TurnId)
    | CompleteBy(u: TurnId)
    | ReleaseBy(u: TurnId)
    | UnregisterBy(u: TurnId)

  function Init(): State {
    State(Session(true, false, None, None, None, None), map[], 0, Idle, false, true,
          map[], false, map[], map[], {}, map[], {})
  }

  function WithTurn(s: State, u: TurnId, t: Turn): State {
    s.(turns := s.turns[u := t])
  }

  /** Whoever finds the controller of the turn due starts it. */
  function ClaimFor(s: State, u: TurnId): State
    requires u in s.turns
  {
    if Ready(s.turns[u]) then WithTurn(s, u, Dispatch(s.turns[u])).(controllers := s.controllers[u := Polling]) else s
  }

  function Return(t: TurnId, back: Back): Pc {
    match back
    case Leave => Idle
    case Stream => Entering(t)
    case Conclude => Finishing(t)
  }

  function NextAdmit(s: State, prompt: Prompt): Option<State> {
    if !s.prompter.Idle? then None
    else if !Admits(s.session, prompt) then Some(s)
    else
      var t := s.next;
      Some(s.(session := s.session.(active := Some(t)), turns := s.turns[t := FRESH_TURN], next := t + 1,
              prompter := Admitted(t, prompt, s.session.task, s.session.lastRun),
              requestDone := false, vouched := s.session.registered))
  }

  function NextCreate(s: State, id: Option<TaskId>): Option<State> {
    match s.prompter
    case Admitted(t, prompt, None, last) =>
      if id.None? then Some(s.(prompter := Finishing(t)))
      else if id.value in s.prompts then None
      else Some(s.(prompter := Created(t, prompt, id.value, last), prompts := s.prompts[id.value := prompt]))
    case _ => None
  }

  function NextStart(s: State, t: TurnId, reply: StartReply): Option<State> {
    match s.prompter
    case Starting(_, _, id, last) =>
      if t !in s.turns then None
      else (match reply
        case StartFailed =>
          Some(s.(prompter := if last.None? && s.turns[t].cancelled then Clearing(t, id) else Finishing(t)))
        case EmptyRun => Some(s.(prompter := Finishing(t)))
        case Started(run) =>
          if run in s.owner then None
          else Some(s.(prompter := RunKnown(t, id, run), owner := s.owner[run := t])))
    case _ => None
  }

  function NextSetTask(s: State, t: TurnId): Option<State>
    requires t in s.turns
  {
    match s.prompter
    case Admitted(_, prompt, Some(id), last) =>
      Some(WithTurn(s, t, s.turns[t].(task := Some(id))).(prompter := TaskKnown(t, prompt, id, last, false)))
    case Created(_, prompt, id, last) =>
      Some(WithTurn(s, t, s.turns[t].(task := Some(id))).(prompter := TaskKnown(t, prompt, id, last, true)))
    case _ => None
  }

  function NextSaveTask(s: State, t: TurnId): Option<State> {
    match s.prompter
    case TaskKnown(_, prompt, id, last, true) =>
      Some(s.(session := RecordTask(s.session, t, id, prompt),
              prompter := Checking(t, prompt, id, if Owns(s.session, t) then s.session.lastRun else last,
                                   true, !Owns(s.session, t))))
    case _ => None
  }

  function NextClearTask(s: State, t: TurnId): Option<State> {
    match s.prompter
    case Clearing(_, id) => Some(s.(session := ClearUnstarted(s.session, t, id), prompter := Finishing(t)))
    case _ => None
  }

  function NextSetRun(s: State, t: TurnId): Option<State>
    requires t in s.turns
  {
    match s.prompter
    case RunKnown(_, id, run) => Some(WithTurn(s, t, s.turns[t].(run := Some(run))).(prompter := RunSet(t, id, run)))
    case _ => None
  }

  function NextSaveRun(s: State, t: TurnId): Option<State> {
    match s.prompter
    case RunSet(_, id, run) =>
      Some(s.(session := RecordRun(s.session, t, id, run), prompter := Recorded(t, !Owns(s.session, t))))
    case _ => None
  }

  predicate Passes(s: State, t: TurnId, gate: Gate)
    requires t in s.turns
  {
    match gate
    case AskRequest => !s.requestDone
    case AskTurn => !s.turns[t].cancelled
    case AskRegistry => s.session.registered
    case AskSession => Owns(s.session, t)
  }

  function NextGate(gate: Gate): Gate {
    match gate
    case AskRequest => AskTurn
    case AskTurn => AskRegistry
    case _ => AskSession
  }

  /** Where the handler goes before the event stream without touching anything shared. */
  function StartMove(s: State, t: TurnId): Option<Pc>
    requires t in s.turns
  {
    match s.prompter
    case TaskKnown(_, prompt, id, last, false) => Some(Checking(t, prompt, id, last, false, false))
    case Checking(_, prompt, id, last, created, stop) =>
      Some(if stop || s.turns[t].cancelled then if created || last.None? then Clearing(t, id) else Finishing(t)
           else Starting(t, prompt, id, last))
    case Recorded(_, closed) =>
      Some(if closed then Cancelling(t, Stream) else if s.turns[t].cancelled then Dispatching(t, Stream) else Entering(t))
    case Entering(_) => Some(if s.requestDone then Cancelling(t, Leave) else Streaming(t))
    case _ => None
  }

  /** The questions before an event is looked at, before an update is written, and before the turn is finished. */
  function GateMove(s: State, t: TurnId): Option<Pc>
    requires t in s.turns
  {
    match s.prompter
    case Inspecting(_, event, gate) =>
      Some(if !Passes(s, t, gate) then Idle
           else if gate.AskSession? then Handling(t, event) else Inspecting(t, event, NextGate(gate)))
    case Sending(_, event, gate) =>
      Some(if !Passes(s, t, gate) then Settled(t, !event.Plain?)
           else if gate.AskSession? then Writing(t, event) else Sending(t, event, NextGate(gate)))
    case Settled(_, terminal) =>
      Some(if s.turns[t].cancelled || s.requestDone then Cancelling(t, if terminal then Conclude else Leave)
           else Finishing(t))
    case _ => None
  }

  function StreamMove(s: State, t: TurnId, choice: Choice): Option<Pc>
    requires t in s.turns
  {
    match (s.prompter, choice)
    case (Streaming(_), SeeCancel) =>
      if s.requestDone then Some(Cancelling(t, Leave)) else if s.turns[t].cancelled then Some(Idle) else None
    case (Streaming(_), Go) => if s.turns[t].task.None? || s.turns[t].run.None? then Some(Idle) else None
    case (Streaming(_), ListFailed) =>
      Some(if s.turns[t].cancelled || s.requestDone then Idle else Cancelling(t, Leave))
    case (Handling(_, Ended), _) => Some(Settled(t, true))
    case (Handling(_, event), SendUpdate) => Some(Sending(t, event, AskRequest))
    case (Handling(_, event), NoUpdate) => Some(if event.Failed? then Finishing(t) else Streaming(t))
    case (Writing(_, event), MoreChunks) => Some(Sending(t, event, AskRequest))
    case (Writing(_, Failed), _) => Some(Finishing(t))
    case (Writing(_, _), WriteFailed) => Some(Cancelling(t, Leave))
    case (Writing(_, _), AllWritten) => Some(Streaming(t))
    case _ => None
  }

  predicate BeforeEvents(pc: Pc) {
    pc.TaskKnown? || pc.Checking? || pc.Recorded? || pc.Entering?
  }

  function MoveTo(s: State, t: TurnId, choice: Choice): Option<Pc>
    requires t in s.turns
  {
    if BeforeEvents(s.prompter) then StartMove(s, t)
    else if s.prompter.Streaming? || s.prompter.Handling? || s.prompter.Writing? then StreamMove(s, t, choice)
    else GateMove(s, t)
  }

  /** The runtime lists an event of the run. */
  function NextDeliver(s: State, t: TurnId, event: Event): Option<State>
    requires t in s.turns
  {
    if !s.prompter.Streaming? || s.turns[t].run.None? then None
    else Some(s.(observed := if event.Plain? then s.observed else s.observed + {s.turns[t].run.value},
                 prompter := Inspecting(t, event, AskRegistry)))
  }

  function NextEnd(s: State, step: Step, t: TurnId): Option<State>
    requires t in s.turns
  {
    match (step, s.prompter)
    case (Request, Cancelling(_, back)) =>
      Some(WithTurn(s, t, RequestCancellation(s.turns[t])).(prompter := Dispatching(t, back)))
    case (Claim, Dispatching(_, back)) => Some(ClaimFor(s, t).(prompter := Return(t, back)))
    case (Complete, Finishing(_)) =>
      Some(WithTurn(s, t, s.turns[t].(completed := true)).(prompter := Detaching(t)))
    case (Release, Detaching(_)) => Some(s.(session := Detach(s.session, t), prompter := Idle))
    case _ => None
  }

  function NextHandler(s: State, step: Step, t: TurnId): Option<State>
    requires t in s.turns
  {
    match step
    case StartRun(reply) => NextStart(s, t, reply)
    case SetTask => NextSetTask(s, t)
    case SaveTask => NextSaveTask(s, t)
    case ClearTask => NextClearTask(s, t)
    case SetRun => NextSetRun(s, t)
    case SaveRun => NextSaveRun(s, t)
    case Move(choice) =>
      (match MoveTo(s, t, choice)
       case Some(pc) => Some(s.(prompter := pc))
       case None => None)
    case Deliver(event) => NextDeliver(s, t, event)
    case RequestEnds => Some(s.(requestDone := true))
    case _ => NextEnd(s, step, t)
  }

  /** The watcher lives while the event stream is read. */
  predicate Supervised(pc: Pc) {
    pc.Streaming? || pc.Inspecting? || pc.Handling? || pc.Sending? || pc.Writing? || pc.Settled?
    || (pc.Cancelling? && !pc.back.Stream?) || (pc.Dispatching? && !pc.back.Stream?) || pc.Finishing? || pc.Detaching?
  }

  function NextCanceller(s: State, step: Step, k: nat): Option<State> {
    match step
    case CancelSession(_) =>
      if k in s.cancellers || s.session.active.None? then None
      else Some(s.(cancellers := s.cancellers[k := Requesting(s.session.active.value)]))
    case Watch(_) =>
      if k in s.cancellers || !Supervised(s.prompter) || !s.requestDone then None
      else Some(s.(cancellers := s.cancellers[k := Requesting(s.prompter.t)]))
    case RequestBy(_) =>
      if k !in s.cancellers || !s.cancellers[k].Requesting? || s.cancellers[k].u !in s.turns then None
      else
        var u := s.cancellers[k].u;
        Some(WithTurn(s, u, RequestCancellation(s.turns[u])).(cancellers := s.cancellers[k := Claiming(u)]))
    case ClaimBy(_) =>
      if k !in s.cancellers || !s.cancellers[k].Claiming? || s.cancellers[k].u !in s.turns then None
      else Some(ClaimFor(s, s.cancellers[k].u).(cancellers := s.cancellers[k := Spent]))
    case CloseMark(_) =>
      if !s.closing || k in s.cancellers then None
      else
        var t := s.(session := s.session.(closed := true), closing := false);
        if s.session.active.None? then Some(t)
        else Some(t.(cancellers := s.cancellers[k := Requesting(s.session.active.value)]))
    case _ => None
  }

  function NextController(s: State, step: Step, u: TurnId): Option<State>
    requires u in s.controllers && u in s.turns && s.turns[u].run.Some?
  {
    match (step, s.controllers[u])
    case (CancelRun(_), Polling) => Some(s.(cancels := s.cancels + {s.turns[u].run.value}))
    case (ObserveTerminal(_), Polling) =>
      Some(s.(observed := s.observed + {s.turns[u].run.value}, controllers := s.controllers[u := Completing]))
    case (Deadline(_), Polling) =>
      if s.session.active == Some(u)
      then Some(s.(session := s.session.(active := None, closed := true),
                   controllers := s.controllers[u := Unregistering]))
      else Some(s.(controllers := s.controllers[u := Over]))
    case (CompleteBy(_), Completing) =>
      Some(WithTurn(s, u, s.turns[u].(completed := true)).(controllers := s.controllers[u := Releasing]))
    case (ReleaseBy(_), Releasing) =>
      Some(s.(session := Detach(s.session, u), controllers := s.controllers[u := Over]))
    case (UnregisterBy(_), Unregistering) =>
      Some(s.(session := s.session.(registered := false), controllers := s.controllers[u := Over]))
    case _ => None
  }

  function CancellerOf(step: Step): Option<nat> {
    match step
    case CancelSession(k) => Some(k)
    case Watch(k) => Some(k)
    case RequestBy(k) => Some(k)
    case ClaimBy(k) => Some(k)
    case CloseMark(k) => Some(k)
    case _ => None
  }

  function ControllerOf(step: Step): Option<TurnId> {
    match step
    case CancelRun(u) => Some(u)
    case ObserveTerminal(u) => Some(u)
    case Deadline(u) => Some(u)
    case CompleteBy(u) => Some(u)
    case ReleaseBy(u) => Some(u)
    case UnregisterBy(u) => Some(u)
    case _ => None
  }

  function Next(s: State, step: Step): Option<State> {
    if step.Admit? then NextAdmit(s, step.prompt)
    else if step.CreateTask? then NextCreate(s, step.id)
    else if step.CloseUnregister? then
      if s.session.registered then Some(s.(session := s.session.(registered := false), closing := true)) else None
    else if CancellerOf(step).Some? then NextCanceller(s, step, CancellerOf(step).value)
    else if ControllerOf(step).Some? then
      var u := ControllerOf(step).value;
      if u in s.controllers && u in s.turns && s.turns[u].run.Some? then NextController(s, step, u) else None
    else if s.prompter.Idle? || s.prompter.t !in s.turns then None
    else NextHandler(s, step, s.prompter.t)
  }

  function Run(s: State, steps: seq<Step>): Option<State>
    decreases |steps|
  {
    if steps == [] then Some(s)
    else match Next(s, steps[0])
      case None => None
      case Some(t) => Run(t, steps[1..])
  }

  // ----- What every step keeps -----

  /** The handler still passes a point where it claims the controller of its turn. */
  predicate WillClaim(pc: Pc, u: TurnId) {
    (pc.RunSet? || pc.Recorded? || pc.Cancelling? || pc.Dispatching?) && pc.t == u
  }

  ghost predicate ClaimDue(s: State, u: TurnId) {
    WillClaim(s.prompter, u) || exists k <- s.cancellers :: s.cancellers[k] == Claiming(u)
  }

  ghost predicate RequestDue(s: State, u: TurnId) {
    exists k <- s.cancellers :: s.cancellers[k] == Requesting(u)
  }

  ghost predicate TurnInv(s: State, u: TurnId)
    requires u in s.turns
  {
    var t := s.turns[u];
    && u < s.next
    && t.controllers == (if t.started then 1 else 0)
    && (t.started ==> t.cancelled && t.task.Some? && t.run.Some?)
    && (t.started <==> u in s.controllers)
    && (t.cancelled ==> t.requested)
    && (t.requested ==> t.cancelled || t.completed)
    && (t.run.Some? ==> t.run.value in s.owner && s.owner[t.run.value] == u)
    && (Ready(t) ==> ClaimDue(s, u))
  }

  ghost predicate RunInv(s: State, r: RunId)
    requires r in s.owner
  {
    var u := s.owner[r];
    && u in s.turns
    && (s.turns[u].run == Some(r) || (s.prompter.RunKnown? && s.prompter.t == u && s.prompter.run == r))
    && (r in s.observed || s.session.active == Some(u) || !s.session.registered || s.session.closed)
    && (r in s.cancels ==> s.turns[u].cancelled)
  }

  ghost predicate ControllerInv(s: State, u: TurnId)
    requires u in s.controllers
  {
    && u in s.turns && s.turns[u].run.Some?
    && (s.controllers[u].Completing? || s.controllers[u].Releasing? ==> s.turns[u].run.value in s.observed)
  }

  ghost predicate CancellerInv(s: State, k: nat)
    requires k in s.cancellers
  {
    !s.cancellers[k].Spent? ==> s.cancellers[k].u in s.turns
  }

  ghost predicate SessionInv(s: State) {
    var v := s.session;
    && (v.lastRun.Some? ==> v.task.Some? && v.lastRun.value in s.owner)
    && (v.task.Some? && v.lastRun.None? ==> v.task.value in s.prompts && v.pending == Some(s.prompts[v.task.value]))
    && (v.active.Some? ==> v.active.value in s.turns)
    && (v.closed && v.active.Some? ==> s.turns[v.active.value].requested || RequestDue(s, v.active.value))
    && (s.closing ==> !v.registered)
    && s.cancels <= s.owner.Keys
    && s.next !in s.turns
  }

  /** The turn may be completed by its handler: nothing of it can still be running under a usable session. */
  ghost predicate MayFinish(s: State, t: TurnId)
    requires t in s.turns
  {
    s.turns[t].run.None? || s.turns[t].run.value in s.observed || !s.session.registered || s.session.closed
  }

  /** The run the handler continues from, and the prompt of a task it starts. */
  ghost predicate SourceInv(s: State, prompt: Prompt, id: TaskId, last: Option<RunId>) {
    && (last.Some? && s.vouched ==> last.value in s.observed)
    && (last.None? ==> id in s.prompts && s.prompts[id] == prompt)
  }

  ghost predicate StartInv(s: State, t: TurnId)
    requires t in s.turns
  {
    var turn := s.turns[t];
    match s.prompter
    case Admitted(_, prompt, task, last) =>
      && turn.task.None? && turn.run.None? && last == s.session.lastRun && task == s.session.task
      && (last.Some? && s.vouched ==> last.value in s.observed)
      && (task.Some? && last.None? ==> task.value in s.prompts && s.prompts[task.value] == prompt)
    case Created(_, prompt, id, last) =>
      turn.task.None? && turn.run.None? && last.None? && s.session.lastRun.None? && SourceInv(s, prompt, id, last)
    case TaskKnown(_, prompt, id, last, created) =>
      && turn.task.Some? && turn.run.None? && SourceInv(s, prompt, id, last)
      && (created ==> last.None? && s.session.lastRun.None?)
    case Checking(_, prompt, id, last, _, _) => turn.task.Some? && turn.run.None? && SourceInv(s, prompt, id, last)
    case Starting(_, prompt, id, last) => turn.task.Some? && turn.run.None? && SourceInv(s, prompt, id, last)
    case Clearing(_, _) => turn.run.None?
    case RunKnown(_, _, run) => turn.task.Some? && turn.run.None? && run in s.owner && s.owner[run] == t
    case RunSet(_, _, run) => turn.run == Some(run)
    case _ => true
  }

  ghost predicate StreamInv(s: State, t: TurnId)
    requires t in s.turns
  {
    match s.prompter
    case Inspecting(_, event, _) => event.Plain? || MayFinish(s, t)
    case Handling(_, event) => event.Plain? || MayFinish(s, t)
    case Sending(_, event, _) => event.Plain? || MayFinish(s, t)
    case Writing(_, event) => event.Plain? || MayFinish(s, t)
    case Settled(_, terminal) =>
      if terminal then MayFinish(s, t)
      else s.requestDone || s.turns[t].cancelled || !s.session.registered || s.session.closed
           || s.session.active != Some(t)
    case Cancelling(_, back) => back.Conclude? ==> MayFinish(s, t)
    case Dispatching(_, back) => back.Conclude? ==> MayFinish(s, t)
    case Finishing(_) => MayFinish(s, t)
    case Detaching(_) => MayFinish(s, t)
    case _ => true
  }

  ghost predicate PromptInv(s: State) {
    !s.prompter.Idle? ==>
      var t := s.prompter.t;
      && t in s.turns
      && (!s.turns[t].started ==> s.session.active == Some(t))
      && StartInv(s, t) && StreamInv(s, t)
  }

  ghost predicate TurnsInv(s: State) { forall u <- s.turns :: TurnInv(s, u) }
  ghost predicate RunsInv(s: State) { forall r <- s.owner :: RunInv(s, r) }
  ghost predicate ControllersInv(s: State) { forall u <- s.controllers :: ControllerInv(s, u) }
  ghost predicate CancellersInv(s: State) { forall k <- s.cancellers :: CancellerInv(s, k) }

  ghost predicate Inv(s: State) {
    SessionInv(s) && PromptInv(s) && TurnsInv(s) && RunsInv(s) && ControllersInv(s) && CancellersInv(s)
  }

  lemma InitInv()
    ensures Inv(Init())
  {
  }

  /** The handler may not walk past a claim that is still due, nor forget an acknowledged run. */
  ghost predicate Forward(s: State, pc: Pc) {
    (!s.prompter.Idle? && WillClaim(s.prompter, s.prompter.t) && s.prompter.t in s.turns && Ready(s.turns[s.prompter.t]))
    ==> WillClaim(pc, s.prompter.t)
  }

  lemma ClaimStaysDue(s: State, t: State, u: TurnId)
    requires ClaimDue(s, u) && t.cancellers == s.cancellers && (WillClaim(s.prompter, u) ==> WillClaim(t.prompter, u))
    ensures ClaimDue(t, u)
  {
  }

  /** The part of a state that neither turns nor runs change in. */
  ghost predicate SameThreads(s: State, t: State) {
    t.cancellers == s.cancellers && t.controllers == s.controllers && t.owner == s.owner && t.next == s.next
  }

  lemma QuietKeepsTurns(s: State, t: State)
    requires TurnsInv(s) && SameThreads(s, t) && t.turns == s.turns && Forward(s, t.prompter)
    ensures TurnsInv(t)
  {
    forall u | u in t.turns ensures TurnInv(t, u) {
      assert TurnInv(s, u);
      if Ready(t.turns[u]) {
        ClaimStaysDue(s, t, u);
      }
    }
  }

  /** No turn loses its place in the session while its run may go on. */
  ghost predicate Covered(s: State, t: State) {
    && (t.session.registered ==> s.session.registered) && (s.session.closed ==> t.session.closed)
    && s.observed <= t.observed
    && (t.session.active == s.session.active || s.session.active.None?
        || (s.session.active.value in t.turns && MayFinish(t, s.session.active.value)))
  }

  lemma QuietKeepsRuns(s: State, t: State)
    requires RunsInv(s) && t.turns == s.turns && t.owner == s.owner && t.cancels == s.cancels
    requires !s.prompter.RunKnown? && Covered(s, t)
    ensures RunsInv(t)
  {
    forall r | r in t.owner ensures RunInv(t, r) {
      assert RunInv(s, r);
    }
  }

  lemma QuietKeepsThreads(s: State, t: State)
    requires ControllersInv(s) && CancellersInv(s) && SameThreads(s, t) && t.turns == s.turns && s.observed <= t.observed
    ensures ControllersInv(t) && CancellersInv(t)
  {
    forall u | u in t.controllers ensures ControllerInv(t, u) {
      assert ControllerInv(s, u);
    }
    forall k | k in t.cancellers ensures CancellerInv(t, k) {
      assert CancellerInv(s, k);
    }
  }

  /** One turn changed; nobody else's claim was dropped. */
  ghost predicate OnlyTurn(s: State, t: State, u: TurnId) {
    && u in s.turns && u in t.turns && t.turns == s.turns[u := t.turns[u]]
    && t.owner == s.owner && t.next == s.next
    && (t.controllers == s.controllers || (u in t.controllers && t.controllers == s.controllers[u := t.controllers[u]]))
  }

  ghost predicate OtherClaimsStay(s: State, t: State, u: TurnId) {
    forall v :: v != u && ClaimDue(s, v) ==> ClaimDue(t, v)
  }

  lemma ChangeKeepsTurns(s: State, t: State, u: TurnId)
    requires TurnsInv(s) && OnlyTurn(s, t, u) && OtherClaimsStay(s, t, u) && TurnInv(t, u)
    ensures TurnsInv(t)
  {
    forall v | v in t.turns ensures TurnInv(t, v) {
      if v != u {
        assert TurnInv(s, v);
      }
    }
  }

  /** The handler turns the run it was told of into the run of its turn. */
  ghost predicate SetsRun(s: State, t: State, u: TurnId)
    requires u in s.turns && u in t.turns
  {
    s.prompter.RunKnown? && s.prompter.t == u && t.turns[u].run == Some(s.prompter.run) && s.turns[u].run.None?
  }

  lemma ChangeKeepsRuns(s: State, t: State, u: TurnId)
    requires RunsInv(s) && OnlyTurn(s, t, u)
    requires t.cancels == s.cancels && t.session == s.session && t.observed == s.observed
    requires s.turns[u].cancelled ==> t.turns[u].cancelled
    requires SetsRun(s, t, u) || (t.turns[u].run == s.turns[u].run && (s.prompter.RunKnown? ==> t.prompter == s.prompter))
    ensures RunsInv(t)
  {
    forall r | r in t.owner ensures RunInv(t, r) {
      assert RunInv(s, r);
    }
  }

  lemma ChangeKeepsControllers(s: State, t: State, u: TurnId)
    requires ControllersInv(s) && OnlyTurn(s, t, u) && s.observed <= t.observed
    requires s.turns[u].run.Some? ==> t.turns[u].run == s.turns[u].run
    requires u in t.controllers ==> ControllerInv(t, u)
    ensures ControllersInv(t)
  {
    forall v | v in t.controllers ensures ControllerInv(t, v) {
      if v != u {
        assert ControllerInv(s, v);
      }
    }
  }

  lemma ChangeKeepsCancellers(s: State, t: State, u: TurnId)
    requires CancellersInv(s) && OnlyTurn(s, t, u) && t.cancellers == s.cancellers
    ensures CancellersInv(t)
  {
    forall k | k in t.cancellers ensures CancellerInv(t, k) {
      assert CancellerInv(s, k);
    }
  }

  /** What a step of another thread may do to the turn the handler is working on. */
  ghost predicate Meddles(s: State, t: State) {
    && t.prompter == s.prompter && (s.requestDone ==> t.requestDone) && t.vouched == s.vouched
    && t.prompts == s.prompts && t.owner == s.owner && s.observed <= t.observed
    && (t.session.registered ==> s.session.registered) && (s.session.closed ==> t.session.closed)
    && t.session.task == s.session.task && t.session.lastRun == s.session.lastRun
    && (!s.prompter.Idle? && s.prompter.t in s.turns ==>
          var (a, b) := (s.turns[s.prompter.t], if s.prompter.t in t.turns then t.turns[s.prompter.t] else FRESH_TURN);
          && s.prompter.t in t.turns && a.task == b.task && a.run == b.run
          && (a.cancelled ==> b.cancelled) && (a.started ==> b.started && a.cancelled)
          && (t.session.active == s.session.active || a.started))
  }

  lemma OthersKeepPrompt(s: State, t: State)
    requires PromptInv(s) && Meddles(s, t)
    ensures PromptInv(t)
  {
  }

  // The handler's steps.

  lemma AdmitKeepsInv(s: State, prompt: Prompt)
    requires Inv(s) && NextAdmit(s, prompt).Some?
    ensures Inv(NextAdmit(s, prompt).value)
  {
    var t := NextAdmit(s, prompt).value;
    if t != s {
      AdmitKeepsThreads(s, t, prompt);
      AdmitKeepsRuns(s, t, prompt);
      if s.session.lastRun.Some? {
        assert RunInv(s, s.session.lastRun.value);
      }
    }
  }

  lemma AdmitKeepsThreads(s: State, t: State, prompt: Prompt)
    requires TurnsInv(s) && ControllersInv(s) && CancellersInv(s) && SessionInv(s)
    requires NextAdmit(s, prompt) == Some(t) && t != s
    ensures TurnsInv(t) && ControllersInv(t) && CancellersInv(t)
  {
    forall u | u in t.controllers ensures ControllerInv(t, u) && u in s.turns {
      assert ControllerInv(s, u);
    }
    forall u | u in t.turns ensures TurnInv(t, u) {
      if u in s.turns {
        assert TurnInv(s, u);
      }
    }
    forall k | k in t.cancellers ensures CancellerInv(t, k) {
      assert CancellerInv(s, k);
    }
  }

  lemma AdmitKeepsRuns(s: State, t: State, prompt: Prompt)
    requires RunsInv(s) && SessionInv(s) && NextAdmit(s, prompt) == Some(t) && t != s
    ensures RunsInv(t)
  {
    forall r | r in t.owner ensures RunInv(t, r) {
      assert RunInv(s, r);
    }
  }

  lemma QuietKeepsRest(s: State, t: State)
    requires TurnsInv(s) && RunsInv(s) && ControllersInv(s) && CancellersInv(s)
    requires SameThreads(s, t) && t.turns == s.turns && t.cancels == s.cancels
    requires !s.prompter.RunKnown? && Forward(s, t.prompter) && Covered(s, t)
    ensures TurnsInv(t) && RunsInv(t) && ControllersInv(t) && CancellersInv(t)
  {
    QuietKeepsTurns(s, t);
    QuietKeepsRuns(s, t);
    QuietKeepsThreads(s, t);
  }

  lemma CreateKeepsInv(s: State, id: Option<TaskId>)
    requires Inv(s) && NextCreate(s, id).Some?
    ensures Inv(NextCreate(s, id).value)
  {
    QuietKeepsRest(s, NextCreate(s, id).value);
  }

  lemma SaveTaskKeepsInv(s: State, t: TurnId)
    requires Inv(s) && !s.prompter.Idle? && t == s.prompter.t && NextSaveTask(s, t).Some?
    ensures Inv(NextSaveTask(s, t).value)
  {
    assert TurnInv(s, t);
    QuietKeepsRest(s, NextSaveTask(s, t).value);
  }

  lemma ClearTaskKeepsInv(s: State, t: TurnId)
    requires Inv(s) && !s.prompter.Idle? && t == s.prompter.t && NextClearTask(s, t).Some?
    ensures Inv(NextClearTask(s, t).value)
  {
    QuietKeepsRest(s, NextClearTask(s, t).value);
  }

  lemma SaveRunKeepsInv(s: State, t: TurnId)
    requires Inv(s) && !s.prompter.Idle? && t == s.prompter.t && NextSaveRun(s, t).Some?
    ensures Inv(NextSaveRun(s, t).value)
  {
    assert TurnInv(s, t);
    QuietKeepsRest(s, NextSaveRun(s, t).value);
  }

  lemma DeliverKeepsInv(s: State, t: TurnId, event: Event)
    requires Inv(s) && !s.prompter.Idle? && t == s.prompter.t && t in s.turns && NextDeliver(s, t, event).Some?
    ensures Inv(NextDeliver(s, t, event).value)
  {
    QuietKeepsRest(s, NextDeliver(s, t, event).value);
  }

  lemma StartMoveKeepsPrompt(s: State, t: TurnId)
    requires PromptInv(s) && TurnsInv(s) && !s.prompter.Idle? && t == s.prompter.t && StartMove(s, t).Some?
    ensures PromptInv(s.(prompter := StartMove(s, t).value)) && Forward(s, StartMove(s, t).value)
  {
    assert TurnInv(s, t);
  }

  lemma GateMoveKeepsPrompt(s: State, t: TurnId)
    requires PromptInv(s) && TurnsInv(s) && !s.prompter.Idle? && t == s.prompter.t && GateMove(s, t).Some?
    ensures PromptInv(s.(prompter := GateMove(s, t).value)) && Forward(s, GateMove(s, t).value)
  {
    assert TurnInv(s, t);
  }

  lemma StreamMoveKeepsPrompt(s: State, t: TurnId, choice: Choice)
    requires PromptInv(s) && !s.prompter.Idle? && t == s.prompter.t && StreamMove(s, t, choice).Some?
    ensures PromptInv(s.(prompter := StreamMove(s, t, choice).value))
  {
  }

  lemma MoveKeepsPrompt(s: State, t: TurnId, choice: Choice)
    requires PromptInv(s) && TurnsInv(s) && !s.prompter.Idle? && t == s.prompter.t && MoveTo(s, t, choice).Some?
    ensures PromptInv(s.(prompter := MoveTo(s, t, choice).value)) && Forward(s, MoveTo(s, t, choice).value)
    ensures !s.prompter.RunKnown?
  {
    if BeforeEvents(s.prompter) {
      StartMoveKeepsPrompt(s, t);
    } else if s.prompter.Streaming? || s.prompter.Handling? || s.prompter.Writing? {
      StreamMoveKeepsPrompt(s, t, choice);
    } else {
      GateMoveKeepsPrompt(s, t);
    }
  }

  lemma JumpKeepsRest(s: State, pc: Pc)
    requires SessionInv(s) && TurnsInv(s) && RunsInv(s) && ControllersInv(s) && CancellersInv(s)
    requires !s.prompter.RunKnown? && Forward(s, pc)
    ensures var t := s.(prompter := pc);
            SessionInv(t) && TurnsInv(t) && RunsInv(t) && ControllersInv(t) && CancellersInv(t)
  {
    QuietKeepsRest(s, s.(prompter := pc));
  }

  lemma MoveKeepsInv(s: State, t: TurnId, choice: Choice)
    requires Inv(s) && !s.prompter.Idle? && t == s.prompter.t && t in s.turns && MoveTo(s, t, choice).Some?
    ensures Inv(s.(prompter := MoveTo(s, t, choice).value))
  {
    var pc := MoveTo(s, t, choice).value;
    MoveKeepsPrompt(s, t, choice);
    JumpKeepsRest(s, pc);
  }

  lemma ReleaseKeepsInv(s: State, t: TurnId)
    requires Inv(s) && s.prompter == Detaching(t)
    ensures Inv(s.(session := Detach(s.session, t), prompter := Idle))
  {
    QuietKeepsRest(s, s.(session := Detach(s.session, t), prompter := Idle));
  }

  lemma StartKeepsRuns(s: State, t: TurnId, reply: StartReply)
    requires RunsInv(s) && SessionInv(s) && PromptInv(s) && s.prompter.Starting? && t == s.prompter.t
    requires TurnInv(s, t) && NextStart(s, t, reply).Some?
    ensures RunsInv(NextStart(s, t, reply).value)
  {
    var s' := NextStart(s, t, reply).value;
    forall r | r in s'.owner ensures RunInv(s', r) {
      if r in s.owner {
        assert RunInv(s, r);
      }
    }
  }

  /** A start answers with a run that nobody had, and changes no turn and no other thread. */
  lemma StartActs(s: State, t: TurnId, reply: StartReply)
    requires s.prompter.Starting? && t == s.prompter.t && NextStart(s, t, reply).Some?
    ensures var s' := NextStart(s, t, reply).value;
            && s' == s.(prompter := s'.prompter, owner := s'.owner) && !WillClaim(s'.prompter, t)
            && (forall r <- s.owner :: r in s'.owner && s'.owner[r] == s.owner[r])
  {
  }

  lemma StartKeepsTurns(s: State, t: TurnId, reply: StartReply)
    requires TurnsInv(s) && s.prompter.Starting? && t == s.prompter.t && NextStart(s, t, reply).Some?
    ensures TurnsInv(NextStart(s, t, reply).value)
  {
    var s' := NextStart(s, t, reply).value;
    StartActs(s, t, reply);
    forall u | u in s'.turns ensures TurnInv(s', u) {
      assert TurnInv(s, u);
      if Ready(s'.turns[u]) {
        ClaimStaysDue(s, s', u);
      }
    }
  }

  lemma StartKeepsThreads(s: State, t: TurnId, reply: StartReply)
    requires ControllersInv(s) && CancellersInv(s)
    requires s.prompter.Starting? && t == s.prompter.t && NextStart(s, t, reply).Some?
    ensures ControllersInv(NextStart(s, t, reply).value) && CancellersInv(NextStart(s, t, reply).value)
  {
    var s' := NextStart(s, t, reply).value;
    StartActs(s, t, reply);
    forall u | u in s'.controllers ensures ControllerInv(s', u) {
      assert ControllerInv(s, u);
    }
    forall k | k in s'.cancellers ensures CancellerInv(s', k) {
      assert CancellerInv(s, k);
    }
  }

  lemma StartKeepsPrompt(s: State, t: TurnId, reply: StartReply)
    requires PromptInv(s) && SessionInv(s) && s.prompter.Starting? && t == s.prompter.t && NextStart(s, t, reply).Some?
    ensures PromptInv(NextStart(s, t, reply).value) && SessionInv(NextStart(s, t, reply).value)
  {
  }

  lemma StartKeepsInv(s: State, t: TurnId, reply: StartReply)
    requires Inv(s) && s.prompter.Starting? && t == s.prompter.t && NextStart(s, t, reply).Some?
    ensures Inv(NextStart(s, t, reply).value)
  {
    assert TurnInv(s, t);
    StartKeepsPrompt(s, t, reply);
    StartKeepsRuns(s, t, reply);
    StartKeepsTurns(s, t, reply);
    StartKeepsThreads(s, t, reply);
  }

  /** A step of the handler that changes its turn but no thread, and starts no controller. */
  lemma TurnStepKeepsRest(s: State, t: State, u: TurnId)
    requires TurnsInv(s) && RunsInv(s) && ControllersInv(s) && CancellersInv(s)
    requires OnlyTurn(s, t, u) && SameThreads(s, t) && t.cancels == s.cancels
    requires t.session == s.session && t.observed == s.observed
    requires !s.prompter.Idle? && s.prompter.t == u && (t.prompter.Idle? || t.prompter.t == u)
    requires TurnInv(t, u) && (s.turns[u].cancelled ==> t.turns[u].cancelled)
    requires SetsRun(s, t, u) || (t.turns[u].run == s.turns[u].run && !s.prompter.RunKnown?)
    ensures TurnsInv(t) && RunsInv(t) && ControllersInv(t) && CancellersInv(t)
  {
    ChangeKeepsTurns(s, t, u);
    ChangeKeepsRuns(s, t, u);
    if u in s.controllers {
      assert ControllerInv(s, u);
    }
    ChangeKeepsControllers(s, t, u);
    ChangeKeepsCancellers(s, t, u);
  }

  lemma SetTaskKeepsInv(s: State, t: TurnId)
    requires Inv(s) && !s.prompter.Idle? && t == s.prompter.t && t in s.turns && NextSetTask(s, t).Some?
    ensures Inv(NextSetTask(s, t).value)
  {
    if s.prompter.Created? {
      TaskIdIsSet(s, t, s.prompter.id, TaskKnown(t, s.prompter.prompt, s.prompter.id, s.prompter.last, true));
    } else {
      var id := s.prompter.task.value;
      TaskIdIsSet(s, t, id, TaskKnown(t, s.prompter.prompt, id, s.prompter.last, false));
    }
  }

  lemma TaskIdIsSet(s: State, t: TurnId, id: TaskId, pc: Pc)
    requires Inv(s) && (s.prompter.Admitted? || s.prompter.Created?) && t == s.prompter.t && t in s.turns
    requires pc == TaskKnown(t, s.prompter.prompt, id, s.prompter.last, s.prompter.Created?)
    requires if s.prompter.Created? then s.prompter.id == id else s.prompter.task == Some(id)
    ensures Inv(WithTurn(s, t, s.turns[t].(task := Some(id))).(prompter := pc))
  {
    assert TurnInv(s, t);
    TurnStepKeepsRest(s, WithTurn(s, t, s.turns[t].(task := Some(id))).(prompter := pc), t);
  }

  lemma SetRunKeepsInv(s: State, t: TurnId)
    requires Inv(s) && !s.prompter.Idle? && t == s.prompter.t && t in s.turns && NextSetRun(s, t).Some?
    ensures Inv(NextSetRun(s, t).value)
  {
    assert TurnInv(s, t);
    TurnStepKeepsRest(s, NextSetRun(s, t).value, t);
  }

  lemma RequestedKeepsPrompt(s: State, t: TurnId, s': State)
    requires PromptInv(s) && SessionInv(s) && s.prompter.Cancelling? && t == s.prompter.t && t in s.turns
    requires s' == WithTurn(s, t, RequestCancellation(s.turns[t])).(prompter := Dispatching(t, s.prompter.back))
    ensures PromptInv(s') && SessionInv(s')
  {
  }

  lemma RequestedKeepsInv(s: State, t: TurnId, s': State)
    requires Inv(s) && s.prompter.Cancelling? && t == s.prompter.t && t in s.turns
    requires s' == WithTurn(s, t, RequestCancellation(s.turns[t])).(prompter := Dispatching(t, s.prompter.back))
    ensures Inv(s')
  {
    assert TurnInv(s, t);
    RequestedKeepsPrompt(s, t, s');
    TurnStepKeepsRest(s, s', t);
  }

  lemma RequestKeepsInv(s: State, t: TurnId)
    requires Inv(s) && s.prompter.Cancelling? && t == s.prompter.t && t in s.turns
    ensures Inv(NextEnd(s, Request, t).value)
  {
    RequestedKeepsInv(s, t, NextEnd(s, Request, t).value);
  }

  lemma CompletedKeepsPrompt(s: State, t: TurnId, s': State)
    requires PromptInv(s) && SessionInv(s) && s.prompter.Finishing? && t == s.prompter.t && t in s.turns
    requires s' == WithTurn(s, t, s.turns[t].(completed := true)).(prompter := Detaching(t))
    ensures PromptInv(s') && SessionInv(s')
  {
  }

  lemma CompletedKeepsInv(s: State, t: TurnId, s': State)
    requires Inv(s) && s.prompter.Finishing? && t == s.prompter.t && t in s.turns
    requires s' == WithTurn(s, t, s.turns[t].(completed := true)).(prompter := Detaching(t))
    ensures Inv(s')
  {
    assert TurnInv(s, t);
    CompletedKeepsPrompt(s, t, s');
    TurnStepKeepsRest(s, s', t);
  }

  lemma CompleteKeepsInv(s: State, t: TurnId)
    requires Inv(s) && s.prompter.Finishing? && t == s.prompter.t && t in s.turns
    ensures Inv(NextEnd(s, Complete, t).value)
  {
    CompletedKeepsInv(s, t, NextEnd(s, Complete, t).value);
  }

  /** The state after u's controller was claimed by the handler or by a canceller. */
  ghost predicate Claimed(s: State, t: State, u: TurnId) {
    && u in s.turns && u in t.turns && t.turns[u] == Dispatch(s.turns[u]) && t.turns == s.turns[u := t.turns[u]]
    && (if Ready(s.turns[u]) then t.controllers == s.controllers[u := Polling] else t.controllers == s.controllers)
    && t.owner == s.owner && t.next == s.next && t.session == s.session && t.observed == s.observed
    && t.cancels == s.cancels && t.prompts == s.prompts && t.closing == s.closing
    && t.requestDone == s.requestDone && t.vouched == s.vouched
  }

  lemma ClaimKeepsTurns(s: State, t: State, u: TurnId)
    requires TurnsInv(s) && Claimed(s, t, u) && OtherClaimsStay(s, t, u)
    ensures TurnsInv(t)
  {
    assert TurnInv(s, u);
    ChangeKeepsTurns(s, t, u);
  }

  lemma ClaimKeepsRuns(s: State, t: State, u: TurnId)
    requires RunsInv(s) && Claimed(s, t, u) && (s.prompter.RunKnown? ==> t.prompter == s.prompter)
    ensures RunsInv(t)
  {
    ChangeKeepsRuns(s, t, u);
  }

  lemma ClaimKeepsControllers(s: State, t: State, u: TurnId)
    requires ControllersInv(s) && Claimed(s, t, u)
    ensures ControllersInv(t)
  {
    if u in s.controllers {
      assert ControllerInv(s, u);
    }
    ChangeKeepsControllers(s, t, u);
  }

  lemma ClaimKeepsPrompt(s: State, t: TurnId)
    requires PromptInv(s) && s.prompter.Dispatching? && t == s.prompter.t && t in s.turns
    ensures PromptInv(NextEnd(s, Claim, t).value)
  {
  }

  lemma HandlerClaims(s: State, t: TurnId)
    requires s.prompter.Dispatching? && t == s.prompter.t && t in s.turns
    ensures Claimed(s, NextEnd(s, Claim, t).value, t) && NextEnd(s, Claim, t).value.cancellers == s.cancellers
  {
  }

  lemma ClaimKeepsInv(s: State, t: TurnId)
    requires Inv(s) && s.prompter.Dispatching? && t == s.prompter.t && t in s.turns
    ensures Inv(NextEnd(s, Claim, t).value)
  {
    ClaimKeepsPrompt(s, t);
    HandlerClaims(s, t);
    ClaimedKeepsRest(s, NextEnd(s, Claim, t).value, t);
  }

  lemma ClaimedKeepsRest(s: State, t: State, u: TurnId)
    requires TurnsInv(s) && RunsInv(s) && ControllersInv(s) && CancellersInv(s) && SessionInv(s)
    requires Claimed(s, t, u) && t.cancellers == s.cancellers
    requires s.prompter.Dispatching? && s.prompter.t == u
    ensures TurnsInv(t) && RunsInv(t) && ControllersInv(t) && CancellersInv(t) && SessionInv(t)
  {
    ClaimKeepsTurns(s, t, u);
    ClaimKeepsRuns(s, t, u);
    ClaimKeepsControllers(s, t, u);
    ClaimKeepsSession(s, t, u);
    forall k | k in t.cancellers ensures CancellerInv(t, k) {
      assert CancellerInv(s, k);
    }
  }

  lemma ClaimKeepsSession(s: State, t: State, u: TurnId)
    requires SessionInv(s) && Claimed(s, t, u)
    requires forall v :: RequestDue(s, v) ==> RequestDue(t, v)
    ensures SessionInv(t)
  {
  }

  // The other threads' steps.

  lemma AddRequestKeepsInv(s: State, k: nat, u: TurnId)
    requires Inv(s) && k !in s.cancellers && u in s.turns
    ensures Inv(s.(cancellers := s.cancellers[k := Requesting(u)]))
  {
    var t := s.(cancellers := s.cancellers[k := Requesting(u)]);
    RequestsStay(s, t, k);
    AddRequestKeepsTurns(s, t);
    AddRequestKeepsThreads(s, t, k);
    AddRequestKeepsSession(s, t);
    OthersKeepPromptHere(s, t);
  }

  lemma AddRequestKeepsSession(s: State, t: State)
    requires SessionInv(s) && t == s.(cancellers := t.cancellers)
    requires forall v :: RequestDue(s, v) ==> RequestDue(t, v)
    ensures SessionInv(t)
  {
  }

  lemma AddRequestKeepsTurns(s: State, t: State)
    requires TurnsInv(s) && RunsInv(s) && t == s.(cancellers := t.cancellers)
    requires forall v :: ClaimDue(s, v) ==> ClaimDue(t, v)
    ensures TurnsInv(t) && RunsInv(t)
  {
    forall v | v in t.turns ensures TurnInv(t, v) {
      assert TurnInv(s, v);
    }
    forall r | r in t.owner ensures RunInv(t, r) {
      assert RunInv(s, r);
    }
  }

  lemma AddRequestKeepsThreads(s: State, t: State, k: nat)
    requires ControllersInv(s) && CancellersInv(s) && k in t.cancellers && CancellerInv(t, k)
    requires t == s.(cancellers := t.cancellers) && t.cancellers == s.cancellers[k := t.cancellers[k]]
    ensures ControllersInv(t) && CancellersInv(t)
  {
    forall v | v in t.controllers ensures ControllerInv(t, v) {
      assert ControllerInv(s, v);
    }
    forall j | j in t.cancellers ensures CancellerInv(t, j) {
      if j != k {
        assert CancellerInv(s, j);
      }
    }
  }

  lemma RequestsStay(s: State, t: State, k: nat)
    requires t.prompter == s.prompter && k !in s.cancellers && k in t.cancellers
    requires t.cancellers == s.cancellers[k := t.cancellers[k]]
    ensures forall v :: ClaimDue(s, v) ==> ClaimDue(t, v)
    ensures forall v :: RequestDue(s, v) ==> RequestDue(t, v)
  {
    forall v | ClaimDue(s, v) ensures ClaimDue(t, v) {
      if !WillClaim(s.prompter, v) {
        var j :| j in s.cancellers && s.cancellers[j] == Claiming(v);
        assert t.cancellers[j] == Claiming(v);
      }
    }
    forall v | RequestDue(s, v) ensures RequestDue(t, v) {
      var j :| j in s.cancellers && s.cancellers[j] == Requesting(v);
      assert t.cancellers[j] == Requesting(v);
    }
  }

  lemma MarkKeepsInv(s: State)
    requires Inv(s) && (s.session.active.Some? ==> RequestDue(s, s.session.active.value))
    ensures Inv(s.(session := s.session.(closed := true), closing := false))
  {
    var t := s.(session := s.session.(closed := true), closing := false);
    QuietKeepsTurns(s, t);
    ClosingKeepsRuns(s, t);
    QuietKeepsThreads(s, t);
    OthersKeepPromptHere(s, t);
  }

  lemma CloseMarkKeepsInv(s: State, k: nat)
    requires Inv(s) && NextCanceller(s, CloseMark(k), k).Some?
    ensures Inv(NextCanceller(s, CloseMark(k), k).value)
  {
    var t := NextCanceller(s, CloseMark(k), k).value;
    var m := s;
    if s.session.active.Some? {
      AddRequestKeepsInv(s, k, s.session.active.value);
      m := s.(cancellers := s.cancellers[k := Requesting(s.session.active.value)]);
      assert m.cancellers[k] == Requesting(s.session.active.value);
    }
    MarkKeepsInv(m);
  }

  lemma ClosingKeepsRuns(s: State, t: State)
    requires RunsInv(s)
    requires t == s.(session := s.session.(closed := t.session.closed, registered := t.session.registered),
                     closing := t.closing, requestDone := t.requestDone)
    requires (s.session.closed ==> t.session.closed) && (t.session.registered ==> s.session.registered)
    ensures RunsInv(t)
  {
    forall r | r in t.owner ensures RunInv(t, r) {
      assert RunInv(s, r);
    }
  }

  /** Meddling as seen with the turn invariant at hand. */
  lemma OthersKeepPromptHere(s: State, t: State)
    requires PromptInv(s) && TurnsInv(s) && t.turns == s.turns && t.session.active == s.session.active
    requires t.prompter == s.prompter && (s.requestDone ==> t.requestDone) && t.vouched == s.vouched
    requires t.prompts == s.prompts && t.owner == s.owner && s.observed <= t.observed
    requires (t.session.registered ==> s.session.registered) && (s.session.closed ==> t.session.closed)
    requires t.session.task == s.session.task && t.session.lastRun == s.session.lastRun
    ensures PromptInv(t)
  {
    if !s.prompter.Idle? {
      assert TurnInv(s, s.prompter.t);
    }
    OthersKeepPrompt(s, t);
  }

  lemma CloseUnregisterKeepsInv(s: State)
    requires Inv(s)
    ensures Inv(s.(session := s.session.(registered := false), closing := true))
  {
    var t := s.(session := s.session.(registered := false), closing := true);
    QuietKeepsTurns(s, t);
    ClosingKeepsRuns(s, t);
    QuietKeepsThreads(s, t);
    OthersKeepPromptHere(s, t);
  }

  lemma RequestEndsKeepsInv(s: State)
    requires Inv(s)
    ensures Inv(s.(requestDone := true))
  {
    var t := s.(requestDone := true);
    QuietKeepsTurns(s, t);
    ClosingKeepsRuns(s, t);
    QuietKeepsThreads(s, t);
    OthersKeepPromptHere(s, t);
  }

  lemma ThreadClaimsStay(s: State, t: State, k: nat, u: TurnId)
    requires t.prompter == s.prompter && k in s.cancellers && k in t.cancellers && !s.cancellers[k].Spent?
    requires t.cancellers == s.cancellers[k := t.cancellers[k]]
    requires s.cancellers[k].u == u
    ensures s.cancellers[k].Claiming? ==> OtherClaimsStay(s, t, u)
    ensures s.cancellers[k].Claiming? ==> forall v :: RequestDue(s, v) ==> RequestDue(t, v)
    ensures s.cancellers[k].Requesting? ==> forall v :: ClaimDue(s, v) ==> ClaimDue(t, v)
    ensures s.cancellers[k].Requesting? ==> forall v :: v != u && RequestDue(s, v) ==> RequestDue(t, v)
  {
    forall v | ClaimDue(s, v) && (v != u || s.cancellers[k].Requesting?) ensures ClaimDue(t, v) {
      if !WillClaim(s.prompter, v) {
        var j :| j in s.cancellers && s.cancellers[j] == Claiming(v);
        assert t.cancellers[j] == Claiming(v);
      }
    }
    forall v | RequestDue(s, v) && (v != u || s.cancellers[k].Claiming?) ensures RequestDue(t, v) {
      var j :| j in s.cancellers && s.cancellers[j] == Requesting(v);
      assert t.cancellers[j] == Requesting(v);
    }
  }

  lemma StepOfCancellerKeepsCancellers(s: State, t: State, k: nat)
    requires CancellersInv(s) && k in s.cancellers && k in t.cancellers && s.turns.Keys <= t.turns.Keys
    requires t.cancellers == s.cancellers[k := t.cancellers[k]] && CancellerInv(t, k)
    ensures CancellersInv(t)
  {
    forall j | j in t.cancellers ensures CancellerInv(t, j) {
      if j != k {
        assert CancellerInv(s, j);
      }
    }
  }

  /** The state after u's cancellation was requested by a canceller. */
  ghost predicate RequestedBy(s: State, t: State, u: TurnId) {
    u in s.turns && t == WithTurn(s, u, RequestCancellation(s.turns[u])).(cancellers := t.cancellers)
  }

  lemma RequestByKeepsTurns(s: State, t: State, u: TurnId)
    requires TurnsInv(s) && RequestedBy(s, t, u) && OtherClaimsStay(s, t, u) && ClaimDue(t, u)
    ensures TurnsInv(t)
  {
    assert TurnInv(s, u);
    ChangeKeepsTurns(s, t, u);
  }

  lemma RequestByKeepsPrompt(s: State, t: State, u: TurnId)
    requires PromptInv(s) && TurnsInv(s) && RequestedBy(s, t, u)
    ensures PromptInv(t)
  {
    if !s.prompter.Idle? {
      assert TurnInv(s, s.prompter.t);
    }
    OthersKeepPrompt(s, t);
  }

  lemma RequestByKeepsRuns(s: State, t: State, u: TurnId)
    requires RunsInv(s) && ControllersInv(s) && RequestedBy(s, t, u)
    ensures RunsInv(t) && ControllersInv(t)
  {
    ChangeKeepsRuns(s, t, u);
    if u in s.controllers {
      assert ControllerInv(s, u);
    }
    ChangeKeepsControllers(s, t, u);
  }

  lemma RequestByKeepsInv(s: State, k: nat)
    requires Inv(s) && NextCanceller(s, RequestBy(k), k).Some?
    ensures Inv(NextCanceller(s, RequestBy(k), k).value)
  {
    var t := NextCanceller(s, RequestBy(k), k).value;
    var u := s.cancellers[k].u;
    ThreadClaimsStay(s, t, k, u);
    assert t.cancellers[k] == Claiming(u);
    RequestByKeepsSession(s, t, u);
    RequestByKeepsTurns(s, t, u);
    RequestByKeepsRuns(s, t, u);
    RequestByKeepsPrompt(s, t, u);
    StepOfCancellerKeepsCancellers(s, t, k);
  }

  lemma RequestByKeepsSession(s: State, t: State, u: TurnId)
    requires SessionInv(s) && RequestedBy(s, t, u)
    requires forall v :: v != u && RequestDue(s, v) ==> RequestDue(t, v)
    ensures SessionInv(t)
  {
  }

  lemma CancellerClaims(s: State, k: nat)
    requires NextCanceller(s, ClaimBy(k), k).Some?
    ensures var t := NextCanceller(s, ClaimBy(k), k).value;
            && Claimed(s, t, s.cancellers[k].u) && t.prompter == s.prompter
            && t.cancellers == s.cancellers[k := Spent]
  {
  }

  lemma ClaimByKeepsInv(s: State, k: nat)
    requires Inv(s) && NextCanceller(s, ClaimBy(k), k).Some?
    ensures Inv(NextCanceller(s, ClaimBy(k), k).value)
  {
    var t := NextCanceller(s, ClaimBy(k), k).value;
    var u := s.cancellers[k].u;
    CancellerClaims(s, k);
    ThreadClaimsStay(s, t, k, u);
    ClaimKeepsTurns(s, t, u);
    ClaimKeepsRuns(s, t, u);
    ClaimKeepsControllers(s, t, u);
    ClaimKeepsSession(s, t, u);
    StepOfCancellerKeepsCancellers(s, t, k);
    ClaimByKeepsPrompt(s, t, u);
  }

  lemma ClaimByKeepsPrompt(s: State, t: State, u: TurnId)
    requires PromptInv(s) && TurnsInv(s) && Claimed(s, t, u) && t.prompter == s.prompter
    ensures PromptInv(t)
  {
    if !s.prompter.Idle? {
      assert TurnInv(s, s.prompter.t);
    }
    OthersKeepPrompt(s, t);
  }

  // The controllers' steps.

  lemma CancelRunKeepsInv(s: State, u: TurnId)
    requires Inv(s) && u in s.controllers && u in s.turns && s.turns[u].run.Some?
    ensures Inv(s.(cancels := s.cancels + {s.turns[u].run.value}))
  {
    var t := s.(cancels := s.cancels + {s.turns[u].run.value});
    assert TurnInv(s, u);
    QuietKeepsTurns(s, t);
    forall r | r in t.owner ensures RunInv(t, r) {
      assert RunInv(s, r);
    }
    QuietKeepsThreads(s, t);
    OthersKeepPromptHere(s, t);
  }

  /** What a step of u's controller may change. */
  ghost predicate ControllerEffect(s: State, t: State, u: TurnId) {
    && u in s.turns && u in t.turns && t.turns == s.turns[u := t.turns[u]]
    && (t.turns[u] == s.turns[u] || t.turns[u] == s.turns[u].(completed := true))
    && u in s.controllers && u in t.controllers && t.controllers == s.controllers[u := t.controllers[u]]
    && s.turns[u].run.Some?
    && (t.controllers[u].Completing? || t.controllers[u].Releasing? ==> s.turns[u].run.value in t.observed)
    && t.cancellers == s.cancellers && t.owner == s.owner && t.next == s.next && t.cancels == s.cancels
    && t.prompts == s.prompts && t.closing == s.closing && t.vouched == s.vouched
    && t.requestDone == s.requestDone && t.prompter == s.prompter && s.observed <= t.observed
    && ReleasedBy(s, t, u)
  }

  /** The session after a step of u's controller: u loses its place only when its run ended or the session is over. */
  ghost predicate ReleasedBy(s: State, t: State, u: TurnId)
    requires u in s.turns
  {
    && t.session == s.session.(registered := t.session.registered, closed := t.session.closed, active := t.session.active)
    && (t.session.registered ==> s.session.registered) && (s.session.closed ==> t.session.closed)
    && (t.session.closed && !s.session.closed ==> t.session.active.None?)
    && (t.session.active == s.session.active
        || (s.session.active == Some(u) && t.session.active.None?
            && (t.session.closed || (s.turns[u].run.Some? && s.turns[u].run.value in t.observed))))
  }

  lemma ControllerCompletes(s: State, u: TurnId)
    requires u in s.controllers && ControllerInv(s, u) && NextController(s, CompleteBy(u), u).Some?
    ensures ControllerEffect(s, NextController(s, CompleteBy(u), u).value, u)
  {
  }

  lemma ControllerGivesUp(s: State, u: TurnId)
    requires u in s.controllers && ControllerInv(s, u) && NextController(s, Deadline(u), u).Some?
    ensures ControllerEffect(s, NextController(s, Deadline(u), u).value, u)
  {
    assert NextController(s, Deadline(u), u).value.turns == s.turns;
  }

  lemma ControllerActs(s: State, step: Step, u: TurnId)
    requires u in s.controllers && ControllerInv(s, u) && NextController(s, step, u).Some? && !step.CancelRun?
    ensures ControllerEffect(s, NextController(s, step, u).value, u)
  {
    if step.CompleteBy? {
      ControllerCompletes(s, u);
    } else if step.Deadline? {
      ControllerGivesUp(s, u);
    } else {
      assert NextController(s, step, u).value.turns == s.turns;
    }
  }

  lemma ControllerKeepsTurns(s: State, t: State, u: TurnId)
    requires TurnsInv(s) && ControllerEffect(s, t, u)
    ensures TurnsInv(t)
  {
    assert TurnInv(s, u);
    if Ready(t.turns[u]) {
      ClaimStaysDue(s, t, u);
    }
    ChangeKeepsTurns(s, t, u);
  }

  lemma ControllerKeepsRuns(s: State, t: State, u: TurnId)
    requires RunsInv(s) && PromptInv(s) && ControllerEffect(s, t, u)
    ensures RunsInv(t)
  {
    forall r | r in t.owner ensures RunInv(t, r) {
      assert RunInv(s, r);
    }
  }

  lemma ControllerKeepsThreads(s: State, t: State, u: TurnId)
    requires ControllersInv(s) && CancellersInv(s) && ControllerEffect(s, t, u)
    ensures ControllersInv(t) && CancellersInv(t)
  {
    ChangeKeepsControllers(s, t, u);
    forall k | k in t.cancellers ensures CancellerInv(t, k) {
      assert CancellerInv(s, k);
    }
  }

  lemma ControllerKeepsPrompt(s: State, t: State, u: TurnId)
    requires PromptInv(s) && TurnsInv(s) && ControllerEffect(s, t, u)
    ensures PromptInv(t)
  {
    if !s.prompter.Idle? {
      assert TurnInv(s, s.prompter.t);
      assert TurnInv(s, u);
    }
    OthersKeepPrompt(s, t);
  }

  lemma ControllerKeepsSession(s: State, t: State, u: TurnId)
    requires SessionInv(s) && ControllerEffect(s, t, u)
    requires forall v :: RequestDue(s, v) ==> RequestDue(t, v)
    ensures SessionInv(t)
  {
  }

  lemma ControllerKeepsInv(s: State, step: Step, u: TurnId)
    requires Inv(s) && u in s.controllers && u in s.turns && s.turns[u].run.Some? && NextController(s, step, u).Some?
    ensures Inv(NextController(s, step, u).value)
  {
    if step.CancelRun? {
      CancelRunKeepsInv(s, u);
    } else {
      assert ControllerInv(s, u);
      ControllerActs(s, step, u);
      ControllerEffectKeepsInv(s, NextController(s, step, u).value, u);
    }
  }

  lemma ControllerEffectKeepsInv(s: State, t: State, u: TurnId)
    requires Inv(s) && ControllerEffect(s, t, u)
    ensures Inv(t)
  {
    assert TurnInv(s, u);
    ControllerKeepsTurns(s, t, u);
    ControllerKeepsRuns(s, t, u);
    ControllerKeepsThreads(s, t, u);
    ControllerKeepsPrompt(s, t, u);
    ControllerKeepsSession(s, t, u);
  }

  // Every step.

  predicate Starts(step: Step) {
    step.StartRun? || step.SetTask? || step.SaveTask? || step.ClearTask? || step.SetRun? || step.SaveRun?
  }

  lemma StartingStepKeepsInv(s: State, step: Step)
    requires Inv(s) && !s.prompter.Idle? && Starts(step) && NextHandler(s, step, s.prompter.t).Some?
    ensures Inv(NextHandler(s, step, s.prompter.t).value)
  {
    var t := s.prompter.t;
    match step {
      case StartRun(reply) => StartKeepsInv(s, t, reply);
      case SetTask => SetTaskKeepsInv(s, t);
      case SaveTask => SaveTaskKeepsInv(s, t);
      case ClearTask => ClearTaskKeepsInv(s, t);
      case SetRun => SetRunKeepsInv(s, t);
      case _ => SaveRunKeepsInv(s, t);
    }
  }

  lemma EndingStepKeepsInv(s: State, step: Step, t: TurnId)
    requires Inv(s) && !s.prompter.Idle? && t == s.prompter.t && t in s.turns && NextEnd(s, step, t).Some?
    ensures Inv(NextEnd(s, step, t).value)
  {
    match step {
      case Request => RequestKeepsInv(s, t);
      case Claim => ClaimKeepsInv(s, t);
      case Complete => CompleteKeepsInv(s, t);
      case _ => ReleaseKeepsInv(s, t);
    }
  }

  lemma StreamingStepKeepsInv(s: State, step: Step)
    requires Inv(s) && !s.prompter.Idle? && !Starts(step) && NextHandler(s, step, s.prompter.t).Some?
    ensures Inv(NextHandler(s, step, s.prompter.t).value)
  {
    var t := s.prompter.t;
    if step.Move? {
      MoveKeepsInv(s, t, step.choice);
    } else if step.Deliver? {
      DeliverKeepsInv(s, t, step.event);
    } else if step.RequestEnds? {
      RequestEndsKeepsInv(s);
    } else {
      assert NextHandler(s, step, t) == NextEnd(s, step, t);
      EndingStepKeepsInv(s, step, t);
    }
  }

  lemma CancellerStepKeepsInv(s: State, step: Step, k: nat)
    requires Inv(s) && CancellerOf(step) == Some(k) && NextCanceller(s, step, k).Some?
    ensures Inv(NextCanceller(s, step, k).value)
  {
    match step {
      case CancelSession(_) => AddRequestKeepsInv(s, k, s.session.active.value);
      case Watch(_) => AddRequestKeepsInv(s, k, s.prompter.t);
      case RequestBy(_) => RequestByKeepsInv(s, k);
      case ClaimBy(_) => ClaimByKeepsInv(s, k);
      case CloseMark(_) => CloseMarkKeepsInv(s, k);
      case _ => assert false;
    }
  }

  lemma StepKeepsInv(s: State, step: Step)
    requires Inv(s) && Next(s, step).Some?
    ensures Inv(Next(s, step).value)
  {
    if step.Admit? {
      AdmitKeepsInv(s, step.prompt);
    } else if step.CreateTask? {
      CreateKeepsInv(s, step.id);
    } else if step.CloseUnregister? {
      CloseUnregisterKeepsInv(s);
    } else if CancellerOf(step).Some? {
      CancellerStepKeepsInv(s, step, CancellerOf(step).value);
    } else if ControllerOf(step).Some? {
      ControllerKeepsInv(s, step, ControllerOf(step).value);
    } else {
      if Starts(step) {
        StartingStepKeepsInv(s, step);
      } else {
        StreamingStepKeepsInv(s, step);
      }
    }
  }

  lemma {:induction false} RunKeepsInv(s: State, steps: seq<Step>)
    requires Inv(s) && Run(s, steps).Some?
    ensures Inv(Run(s, steps).value)
    decreases |steps|
  {
    if steps != [] {
      StepKeepsInv(s, steps[0]);
      RunKeepsInv(Next(s, steps[0]).value, steps[1..]);
    }
  }

  // ----- Over whole runs -----

  ghost predicate Reachable(t: State) {
    exists steps :: Run(Init(), steps) == Some(t)
  }

  lemma ReachableInv(t: State)
    requires Reachable(t)
    ensures Inv(t)
  {
    var steps :| Run(Init(), steps) == Some(t);
    InitInv();
    RunKeepsInv(Init(), steps);
  }

  /** Under a usable session at most one acknowledged run is unfinished, and none while no turn is active. */
  lemma RunsDoNotOverlap(t: State, q: RunId, r: RunId)
    requires Reachable(t) && t.session.registered && !t.session.closed
    requires q in t.owner && q !in t.observed && r in t.owner && r !in t.observed
    ensures q == r && t.session.active == Some(t.owner[q])
  {
    ReachableInv(t);
    assert RunInv(t, q);
    assert RunInv(t, r);
  }

  lemma IdleSessionHasFinished(t: State)
    requires Reachable(t) && t.session.registered && !t.session.closed && t.session.active.None?
    ensures t.owner.Keys <= t.observed
    ensures t.session.lastRun.Some? ==> t.session.lastRun.value in t.observed
  {
    ReachableInv(t);
    forall r | r in t.owner ensures r in t.observed {
      assert RunInv(t, r);
    }
  }

  /** A run is continued only once it ended, and a task is started only with the prompt it was created for. */
  lemma RunsStartFromKnownGround(t: State)
    requires Reachable(t) && t.prompter.Starting?
    ensures t.prompter.last.Some? && t.vouched ==> t.prompter.last.value in t.observed
    ensures t.prompter.last.None? ==> t.prompter.id in t.prompts && t.prompts[t.prompter.id] == t.prompter.prompt
  {
    ReachableInv(t);
  }

  /** A cancelled turn whose run is known has its one controller, or some thread is about to start it. */
  lemma NoCancellationIsLost(t: State, u: TurnId)
    requires Reachable(t) && u in t.turns
    ensures t.turns[u].controllers <= 1
    ensures t.turns[u].controllers == 1 <==> u in t.controllers
    ensures t.turns[u].controllers == 1 ==> t.turns[u].cancelled
    ensures t.turns[u].cancelled && t.turns[u].task.Some? && t.turns[u].run.Some? ==>
              t.turns[u].controllers == 1 || ClaimDue(t, u)
  {
    ReachableInv(t);
    assert TurnInv(t, u);
  }

  /** Only the runs of cancelled turns are asked to stop. */
  lemma OnlyCancelledRunsAreStopped(t: State, r: RunId)
    requires Reachable(t) && r in t.cancels
    ensures r in t.owner && t.owner[r] in t.turns && t.turns[t.owner[r]].cancelled
  {
    ReachableInv(t);
    assert RunInv(t, r);
  }

  /** Closing a session reaches the turn that is still active. */
  lemma ClosingReachesTheActiveTurn(t: State)
    requires Reachable(t) && t.session.closed && t.session.active.Some?
    ensures t.session.active.value in t.turns
    ensures t.turns[t.session.active.value].requested || RequestDue(t, t.session.active.value)
  {
    ReachableInv(t);
  }

  predicate DoneUncancelled(s: State, u: TurnId) {
    u in s.turns && s.turns[u].completed && !s.turns[u].cancelled
  }

  lemma SetTaskKeepsDoneUncancelled(s: State, t: TurnId, u: TurnId)
    requires DoneUncancelled(s, u) && t in s.turns && NextSetTask(s, t).Some?
    ensures DoneUncancelled(NextSetTask(s, t).value, u)
  {
    var id := if s.prompter.Created? then s.prompter.id else s.prompter.task.value;
    assert NextSetTask(s, t).value.turns == s.turns[t := s.turns[t].(task := Some(id))];
  }

  lemma SetRunKeepsDoneUncancelled(s: State, t: TurnId, u: TurnId)
    requires DoneUncancelled(s, u) && t in s.turns && NextSetRun(s, t).Some?
    ensures DoneUncancelled(NextSetRun(s, t).value, u)
  {
  }

  lemma StartRunLeavesTurns(s: State, t: TurnId, reply: StartReply)
    requires NextStart(s, t, reply).Some?
    ensures NextStart(s, t, reply).value.turns == s.turns
  {
  }

  lemma SaveTaskLeavesTurns(s: State, t: TurnId)
    requires NextSaveTask(s, t).Some?
    ensures NextSaveTask(s, t).value.turns == s.turns
  {
  }

  lemma ClearTaskLeavesTurns(s: State, t: TurnId)
    requires NextClearTask(s, t).Some?
    ensures NextClearTask(s, t).value.turns == s.turns
  {
  }

  lemma SaveRunLeavesTurns(s: State, t: TurnId)
    requires NextSaveRun(s, t).Some?
    ensures NextSaveRun(s, t).value.turns == s.turns
  {
  }

  lemma StartingKeepsDoneUncancelled(s: State, step: Step, t: TurnId, u: TurnId)
    requires DoneUncancelled(s, u) && t in s.turns && Starts(step) && NextHandler(s, step, t).Some?
    ensures DoneUncancelled(NextHandler(s, step, t).value, u)
  {
    match step {
      case SetTask => SetTaskKeepsDoneUncancelled(s, t, u);
      case SetRun => SetRunKeepsDoneUncancelled(s, t, u);
      case StartRun(reply) => StartRunLeavesTurns(s, t, reply);
      case SaveTask => SaveTaskLeavesTurns(s, t);
      case ClearTask => ClearTaskLeavesTurns(s, t);
      case _ => SaveRunLeavesTurns(s, t);
    }
  }

  lemma EndingKeepsDoneUncancelled(s: State, step: Step, t: TurnId, u: TurnId)
    requires DoneUncancelled(s, u) && t in s.turns && NextEnd(s, step, t).Some?
    ensures DoneUncancelled(NextEnd(s, step, t).value, u)
  {
  }

  lemma HandlerKeepsDoneUncancelled(s: State, step: Step, t: TurnId, u: TurnId)
    requires DoneUncancelled(s, u) && t in s.turns && NextHandler(s, step, t).Some?
    ensures DoneUncancelled(NextHandler(s, step, t).value, u)
  {
    if Starts(step) {
      StartingKeepsDoneUncancelled(s, step, t, u);
    } else if step.Move? || step.Deliver? || step.RequestEnds? {
      assert NextHandler(s, step, t).value.turns == s.turns;
    } else {
      assert NextHandler(s, step, t) == NextEnd(s, step, t);
      EndingKeepsDoneUncancelled(s, step, t, u);
    }
  }

  lemma CancellerKeepsDoneUncancelled(s: State, step: Step, k: nat, u: TurnId)
    requires DoneUncancelled(s, u) && NextCanceller(s, step, k).Some?
    ensures DoneUncancelled(NextCanceller(s, step, k).value, u)
  {
  }

  lemma ControllerKeepsDoneUncancelled(s: State, step: Step, v: TurnId, u: TurnId)
    requires DoneUncancelled(s, u) && v in s.controllers && v in s.turns && s.turns[v].run.Some?
    requires NextController(s, step, v).Some?
    ensures DoneUncancelled(NextController(s, step, v).value, u)
  {
  }

  lemma StepKeepsDoneUncancelled(s: State, step: Step, u: TurnId)
    requires DoneUncancelled(s, u) && u != s.next && Next(s, step).Some?
    ensures DoneUncancelled(Next(s, step).value, u)
  {
    if step.Admit? || step.CreateTask? || step.CloseUnregister? {
      assert DoneUncancelled(Next(s, step).value, u);
    } else if ControllerOf(step).Some? {
      ControllerKeepsDoneUncancelled(s, step, ControllerOf(step).value, u);
    } else if CancellerOf(step).Some? {
      CancellerKeepsDoneUncancelled(s, step, CancellerOf(step).value, u);
    } else {
      HandlerKeepsDoneUncancelled(s, step, s.prompter.t, u);
    }
  }

  /** A turn that completed before any cancellation stays uncancelled, and CancelRun is never called for its run. */
  lemma {:induction false} CompletionOutrunsCancellation(s: State, steps: seq<Step>, u: TurnId)
    requires Inv(s) && DoneUncancelled(s, u) && Run(s, steps).Some?
    ensures var t := Run(s, steps).value;
            && DoneUncancelled(t, u) && t.turns[u].controllers == 0
            && forall r <- t.cancels :: r in t.owner && t.owner[r] != u
    decreases |steps|
  {
    assert TurnInv(s, u);
    if steps == [] {
      forall r | r in s.cancels ensures r in s.owner && s.owner[r] != u {
        assert RunInv(s, r);
      }
    } else {
      StepKeepsInv(s, steps[0]);
      StepKeepsDoneUncancelled(s, steps[0], u);
      CompletionOutrunsCancellation(Next(s, steps[0]).value, steps[1..], u);
    }
  }

  // ----- Where the guarantee stops -----

  lemma {:induction false} RunConcat(s: State, a: seq<Step>, b: seq<Step>)
    requires Run(s, a).Some?
    ensures Run(s, a + b) == Run(Run(s, a).value, b)
    decreases |a|
  {
    if a == [] {
      assert a + b == b;
    } else {
      assert (a + b)[1..] == a[1..] + b;
      RunConcat(Next(s, a[0]).value, a[1..], b);
    }
  }

  lemma Extend(s: State, step: Step) returns (t: State)
    requires Reachable(s) && Next(s, step).Some?
    ensures t == Next(s, step).value && Reachable(t)
  {
    var steps :| Run(Init(), steps) == Some(s);
    RunConcat(Init(), steps, [step]);
    t := Next(s, step).value;
    assert Run(t, [step][1..]) == Some(t);
    assert Run(s, [step]) == Some(t);
    assert Run(Init(), steps + [step]) == Some(t);
  }

  /** One move of the handler. */
  lemma Walk(s: State, choice: Choice) returns (t: State)
    requires Reachable(s) && !s.prompter.Idle? && s.prompter.t in s.turns && MoveTo(s, s.prompter.t, choice).Some?
    ensures Reachable(t) && t == s.(prompter := MoveTo(s, s.prompter.t, choice).value)
  {
    t := Extend(s, Move(choice));
  }

  lemma Act(s: State, step: Step) returns (t: State)
    requires Reachable(s) && !s.prompter.Idle? && s.prompter.t in s.turns && NextHandler(s, step, s.prompter.t).Some?
    requires Starts(step) || step.Deliver?
    ensures Reachable(t) && t == NextHandler(s, step, s.prompter.t).value
  {
    t := Extend(s, step);
  }

  lemma End(s: State, step: Step) returns (t: State)
    requires Reachable(s) && !s.prompter.Idle? && s.prompter.t in s.turns && (step.Complete? || step.Release?)
    requires NextEnd(s, step, s.prompter.t).Some?
    ensures Reachable(t) && t == NextEnd(s, step, s.prompter.t).value
  {
    assert NextHandler(s, step, s.prompter.t) == NextEnd(s, step, s.prompter.t);
    t := Extend(s, step);
  }

  lemma FirstTaskIsSaved() returns (s: State)
    ensures Reachable(s) && s.prompter == Checking(0, "go", 0, None, true, false) && !s.requestDone && s.next == 1
    ensures 0 in s.turns && !s.turns[0].cancelled && s.owner == map[]
    ensures s.session == Session(true, false, Some(0), Some(0), None, Some("go")) && s.observed == {}
  {
    assert Run(Init(), []) == Some(Init());
    s := Extend(Init(), Admit("go"));
    s := Extend(s, CreateTask(Some(0)));
    s := Act(s, SetTask);
    s := Act(s, SaveTask);
  }

  lemma FirstRunIsDue() returns (s: State)
    ensures Reachable(s) && s.prompter == Starting(0, "go", 0, None) && !s.requestDone && s.next == 1
    ensures 0 in s.turns && !s.turns[0].cancelled && s.owner == map[]
    ensures s.session == Session(true, false, Some(0), Some(0), None, Some("go")) && s.observed == {}
  {
    s := FirstTaskIsSaved();
    s := Walk(s, Go);
  }

  lemma FirstRunIsKnown() returns (s: State)
    ensures Reachable(s) && s.prompter == RunSet(0, 0, 0) && !s.requestDone && s.next == 1
    ensures 0 in s.turns && !s.turns[0].cancelled && s.turns[0].run == Some(0)
    ensures s.session == Session(true, false, Some(0), Some(0), None, Some("go")) && s.observed == {}
  {
    s := FirstRunIsDue();
    s := Act(s, StartRun(Started(0)));
    s := Act(s, SetRun);
  }

  /** A first turn whose handler is reading the events of run 0. */
  lemma FirstTurnStreams() returns (s: State)
    ensures Reachable(s) && s.prompter == Streaming(0) && !s.requestDone && s.next == 1
    ensures 0 in s.turns && !s.turns[0].cancelled && s.turns[0].run == Some(0)
    ensures s.session == Session(true, false, Some(0), Some(0), Some(0), None) && s.observed == {}
  {
    s := FirstRunIsKnown();
    s := Act(s, SaveRun);
    s := Walk(s, Go);
    s := Walk(s, Go);
  }

  lemma EventArrives() returns (s: State)
    ensures Reachable(s) && s.prompter == Inspecting(0, Plain, AskRegistry) && !s.requestDone && s.next == 1
    ensures 0 in s.turns && !s.turns[0].cancelled && s.turns[0].run == Some(0)
    ensures s.session == Session(true, false, Some(0), Some(0), Some(0), None) && s.observed == {}
  {
    s := FirstTurnStreams();
    s := Act(s, Deliver(Plain));
  }

  lemma EventIsHandled() returns (s: State)
    ensures Reachable(s) && s.prompter == Handling(0, Plain) && !s.requestDone && s.next == 1
    ensures 0 in s.turns && !s.turns[0].cancelled && s.turns[0].run == Some(0)
    ensures s.session == Session(true, false, Some(0), Some(0), Some(0), None) && s.observed == {}
  {
    s := EventArrives();
    s := Walk(s, Go);
    s := Walk(s, Go);
  }

  lemma UpdateIsDue() returns (s: State)
    ensures Reachable(s) && s.prompter == Sending(0, Plain, AskRequest) && !s.requestDone && s.next == 1
    ensures 0 in s.turns && !s.turns[0].cancelled
    ensures s.session == Session(false, false, Some(0), Some(0), Some(0), None) && s.observed == {}
  {
    s := EventIsHandled();
    s := Walk(s, SendUpdate);
    s := Extend(s, CloseUnregister);
  }

  lemma RegistryIsAsked() returns (s: State)
    ensures Reachable(s) && s.prompter == Sending(0, Plain, AskRegistry) && !s.requestDone && s.next == 1
    ensures 0 in s.turns && !s.turns[0].cancelled
    ensures s.session == Session(false, false, Some(0), Some(0), Some(0), None) && s.observed == {}
  {
    s := UpdateIsDue();
    s := Walk(s, Go);
    s := Walk(s, Go);
  }

  /** The session leaves the registry while an update is about to be written. */
  lemma UpdateIsRefused() returns (s: State)
    ensures Reachable(s) && s.prompter == Settled(0, false) && !s.requestDone && s.next == 1
    ensures 0 in s.turns && !s.turns[0].cancelled
    ensures s.session == Session(false, false, Some(0), Some(0), Some(0), None) && s.observed == {}
  {
    s := RegistryIsAsked();
    s := Walk(s, Go);
  }

  lemma TurnEnds(s: State) returns (t: State)
    requires Reachable(s) && s.prompter == Finishing(0) && 0 in s.turns
    ensures Reachable(t) && t.prompter == Idle && t.session == Detach(s.session, 0)
    ensures t.next == s.next && t.observed == s.observed
  {
    t := End(s, Complete);
    t := End(t, Release);
  }

  lemma TurnEndsInTheWindow() returns (s: State)
    ensures Reachable(s) && s.prompter == Idle && s.next == 1
    ensures s.session == Session(false, false, None, Some(0), Some(0), None) && s.observed == {}
  {
    s := UpdateIsRefused();
    s := Walk(s, Go);
    s := TurnEnds(s);
  }

  /** In the closing window a queued prompt may continue from a run nobody saw end. */
  lemma ClosingWindowAllowsOverlap()
    ensures exists t :: Reachable(t) && !t.session.registered && !t.session.closed
              && t.prompter == Starting(1, "more", 0, Some(0)) && 0 !in t.observed
  {
    var s := TurnEndsInTheWindow();
    s := Extend(s, Admit("more"));
    s := Act(s, SetTask);
    s := Walk(s, Go);
    s := Walk(s, Go);
  }
}
