/** One approval: the blocked request, the operators, the timer and the store race over one row. */
module ApprovalsProtocol {
  import opened Wrappers
  import Store = ApprovalsStore

  type Status = Store.Status
  type Decision = Store.Decision
  type Resolution = Store.Resolution

  // ----- Choosing an option -----

  datatype Kind = AllowOnce | AllowAlways | RejectOnce | RejectAlways | OtherKind

  /** exact: the kind is spelled as the protocol spells it, not merely up to case. */
  datatype AcpOption = AcpOption(id: string, kind: Kind, exact: bool)

  datatype Response = Cancelled | Selected(option: string)

  predicate InFamily(decision: Decision, kind: Kind) {
    match decision
    case Approve => kind.AllowOnce? || kind.AllowAlways?
    case Deny => kind.RejectOnce? || kind.RejectAlways?
  }

  predicate Offers(options: seq<AcpOption>, decision: Decision) {
    exists opt <- options :: InFamily(decision, opt.kind)
  }

  /** The option is on offer and belongs to the family of the decision. */
  predicate Carries(options: seq<AcpOption>, decision: Decision, id: string) {
    exists opt <- options :: opt.id == id && InFamily(decision, opt.kind)
  }

  function FirstOfKind(options: seq<AcpOption>, kind: Kind): (res: Option<AcpOption>)
    ensures res.Some? ==> res.value in options && res.value.kind == kind
    ensures res.None? ==> forall opt <- options :: opt.kind != kind
  {
    if options == [] then None
    else if options[0].kind == kind then Some(options[0])
    else FirstOfKind(options[1..], kind)
  }

  /** The "once" option when there is one, else the "always" option. */
  function PickOption(options: seq<AcpOption>, decision: Decision): (res: Option<AcpOption>)
    ensures res.Some? ==> res.value in options && InFamily(decision, res.value.kind)
    ensures res.Some? <==> Offers(options, decision)
  {
    var once := FirstOfKind(options, if decision.Approve? then AllowOnce else RejectOnce);
    if once.Some? then once
    else FirstOfKind(options, if decision.Approve? then AllowAlways else RejectAlways)
  }

  function StatusOf(decision: Decision): Status {
    if decision.Approve? then Store.Approved else Store.Denied
  }

  /** The answer of a grant or a mode default: never a guess, except the explicit fallback. */
  function ApplyDecision(decision: Decision, options: seq<AcpOption>, fallback: bool): (Response, Status, string) {
    var picked := PickOption(options, decision);
    if picked.Some? then (Selected(picked.value.id), StatusOf(decision), picked.value.id)
    else if decision.Approve? && fallback && options != [] then (Selected(options[0].id), Store.Approved, options[0].id)
    else (Cancelled, Store.Cancelled, "")
  }

  datatype PickError = UnknownOption | NoMatchingOption | Ambiguous(matches: seq<AcpOption>)

  function OfFamily(options: seq<AcpOption>, decision: Decision): (res: seq<AcpOption>)
    ensures forall opt :: opt in res <==> opt in options && InFamily(decision, opt.kind)
  {
    if options == [] then []
    else if InFamily(decision, options[0].kind) then [options[0]] + OfFamily(options[1..], decision)
    else OfFamily(options[1..], decision)
  }

  function FirstWithId(options: seq<AcpOption>, id: string): (res: Option<AcpOption>)
    ensures res.Some? ==> res.value in options && res.value.id == id
    ensures res.None? ==> forall opt <- options :: opt.id != id
  {
    if options == [] then None
    else if options[0].id == id then Some(options[0])
    else FirstWithId(options[1..], id)
  }

  /** The operator's choice: an explicit id must fit the decision, an implicit one must be unique. */
  function PickOperatorOption(options: seq<AcpOption>, decision: Decision, wanted: string): (res: Result<string, PickError>)
    ensures res.Ok? ==> Carries(options, decision, res.value)
    ensures res.Ok? && wanted != "" ==> res.value == wanted
    ensures res == Err(UnknownOption) <==> wanted != "" && forall opt <- options :: opt.id != wanted
    ensures wanted == "" && res.Ok? ==> forall opt <- options :: InFamily(decision, opt.kind) ==> opt.id == res.value
    ensures wanted == "" && res == Err(NoMatchingOption) ==> !Offers(options, decision)
  {
    if wanted != "" then
      match FirstWithId(options, wanted)
      case None => Err(UnknownOption)
      case Some(opt) => if InFamily(decision, opt.kind) && opt.exact then Ok(opt.id) else Err(NoMatchingOption)
    else
      var matches := OfFamily(options, decision);
      if |matches| == 0 then Err(NoMatchingOption)
      else if |matches| == 1 then assert matches[0] in matches; Ok(matches[0].id)
      else Err(Ambiguous(matches))
  }

  predicate Fits(opt: AcpOption, decision: Decision) {
    InFamily(decision, opt.kind) && opt.exact
  }

  /** The first option with this id stands at i. */
  ghost predicate FirstAt(options: seq<AcpOption>, id: string, i: nat) {
    i < |options| && options[i].id == id && forall j :: 0 <= j < i ==> options[j].id != id
  }

  /** The first option of this kind stands at i. */
  ghost predicate FirstKindAt(options: seq<AcpOption>, kind: Kind, i: nat) {
    i < |options| && options[i].kind == kind && forall j :: 0 <= j < i ==> options[j].kind != kind
  }

  lemma {:induction false} FirstWithIdStands(options: seq<AcpOption>, id: string) returns (i: nat)
    requires FirstWithId(options, id).Some?
    ensures FirstAt(options, id, i) && FirstWithId(options, id) == Some(options[i])
  {
    if options[0].id == id {
      i := 0;
    } else {
      i := FirstWithIdStands(options[1..], id);
      i := i + 1;
    }
  }

  lemma {:induction false} FirstOfKindStands(options: seq<AcpOption>, kind: Kind) returns (i: nat)
    requires FirstOfKind(options, kind).Some?
    ensures FirstKindAt(options, kind, i) && FirstOfKind(options, kind) == Some(options[i])
  {
    if options[0].kind == kind {
      i := 0;
    } else {
      i := FirstOfKindStands(options[1..], kind);
      i := i + 1;
    }
  }

  function Once(decision: Decision): Kind {
    if decision.Approve? then AllowOnce else RejectOnce
  }

  function Always(decision: Decision): Kind {
    if decision.Approve? then AllowAlways else RejectAlways
  }

  /** The option picked is the first "once" option if there is any, else the first "always" option. */
  lemma PickOptionPrefersOnce(options: seq<AcpOption>, decision: Decision)
    requires Offers(options, decision)
    ensures var kind := if exists opt <- options :: opt.kind == Once(decision) then Once(decision) else Always(decision);
            exists i: nat :: FirstKindAt(options, kind, i) && PickOption(options, decision) == Some(options[i])
  {
    if exists opt <- options :: opt.kind == Once(decision) {
      var i := FirstOfKindStands(options, Once(decision));
    } else {
      var i := FirstOfKindStands(options, Always(decision));
    }
  }

  ghost predicate OffersTwo(options: seq<AcpOption>, decision: Decision) {
    exists i, j :: 0 <= i < j < |options| && InFamily(decision, options[i].kind) && InFamily(decision, options[j].kind)
  }

  lemma TwoOfTail(opt: AcpOption, rest: seq<AcpOption>, decision: Decision)
    requires OffersTwo(rest, decision) || (InFamily(decision, opt.kind) && Offers(rest, decision))
    ensures OffersTwo([opt] + rest, decision)
  {
    var options := [opt] + rest;
    if OffersTwo(rest, decision) {
      var i, j :| 0 <= i < j < |rest| && InFamily(decision, rest[i].kind) && InFamily(decision, rest[j].kind);
      assert options[i + 1] == rest[i] && options[j + 1] == rest[j];
    } else {
      var other :| other in rest && InFamily(decision, other.kind);
      var j :| 0 <= j < |rest| && rest[j] == other;
      assert options[0] == opt && options[j + 1] == other;
    }
  }

  lemma TailOfTwo(opt: AcpOption, rest: seq<AcpOption>, decision: Decision)
    requires OffersTwo([opt] + rest, decision)
    ensures OffersTwo(rest, decision) || (InFamily(decision, opt.kind) && Offers(rest, decision))
  {
    var options := [opt] + rest;
    var i, j :| 0 <= i < j < |options| && InFamily(decision, options[i].kind) && InFamily(decision, options[j].kind);
    assert options[j] == rest[j - 1] && rest[j - 1] in rest;
    if i > 0 {
      assert options[i] == rest[i - 1];
    }
  }

  lemma {:induction false} FamilySizes(options: seq<AcpOption>, decision: Decision)
    ensures |OfFamily(options, decision)| == 0 <==> !Offers(options, decision)
    ensures |OfFamily(options, decision)| >= 2 <==> OffersTwo(options, decision)
  {
    FamilyOffers(options, decision);
    if options != [] {
      var rest := options[1..];
      FamilySizes(rest, decision);
      assert options == [options[0]] + rest;
      if OffersTwo(options, decision) {
        TailOfTwo(options[0], rest, decision);
      } else if OffersTwo(rest, decision) || (InFamily(decision, options[0].kind) && Offers(rest, decision)) {
        TwoOfTail(options[0], rest, decision);
      }
    }
  }

  lemma FamilyOffers(options: seq<AcpOption>, decision: Decision)
    ensures |OfFamily(options, decision)| == 0 <==> !Offers(options, decision)
  {
    var few := OfFamily(options, decision);
    if few != [] {
      assert few[0] in few;
    }
    forall opt | opt in options && InFamily(decision, opt.kind) ensures opt in few {
    }
  }

  lemma FirstAtIsUnique(options: seq<AcpOption>, id: string, i: nat, j: nat)
    requires FirstAt(options, id, i) && FirstAt(options, id, j)
    ensures i == j
  {
    assert options[i].id == id && options[j].id == id;
  }

  /** Every error of the operator's choice has its exact cause. */
  lemma OperatorErrorsAreExact(options: seq<AcpOption>, decision: Decision, wanted: string)
    ensures var res := PickOperatorOption(options, decision, wanted);
            && (res == Err(UnknownOption) <==> wanted != "" && forall opt <- options :: opt.id != wanted)
            && (res == Err(NoMatchingOption) <==>
                  if wanted == "" then !Offers(options, decision)
                  else exists i: nat :: FirstAt(options, wanted, i) && !Fits(options[i], decision))
            && (res.Err? && res.error.Ambiguous? <==> wanted == "" && OffersTwo(options, decision))
            && (res.Err? && res.error.Ambiguous? ==> res.error.matches == OfFamily(options, decision))
  {
    FamilySizes(options, decision);
    if FirstWithId(options, wanted).Some? {
      var i := FirstWithIdStands(options, wanted);
      forall j: nat | FirstAt(options, wanted, j) ensures j == i {
        FirstAtIsUnique(options, wanted, i, j);
      }
    }
  }

  /** What a request that finds its row already resolved answers. */
  function ResponseFor(res: Resolution): Response {
    if (res.status.Approved? || res.status.Denied?) && res.selected != "" then Selected(res.selected) else Cancelled
  }

  // ----- The row -----

  datatype Row = Absent | Open | Closed(resolution: Resolution)

  /** How the store's rows look from one approval. */
  function View(rows: Store.Rows, id: string): Row {
    if id !in rows then Absent
    else if rows[id].status.Pending? then Open
    else if rows[id].resolution.None? then Absent
    else Closed(rows[id].resolution.value)
  }

  function Settle(row: Row, res: Resolution): Row {
    if row.Open? then Closed(res) else row
  }

  /** The store's atomic transition is Settle, and reports success exactly when the row was open. */
  lemma StoreSettles(rows: Store.Rows, id: string, res: Resolution, now: int)
    requires !res.status.Pending?
    ensures var (after, out) := Store.ResolveRow(rows, id, res, now);
            && View(after, id) == Settle(View(rows, id), res)
            && (out.Ok? <==> View(rows, id).Open?)
            && (forall other :: other != id ==> View(after, other) == View(rows, other))
  {
  }

  // ----- Waiters -----

  /** A send that does not block: the channel afterwards, and whether the response went in. */
  function Delivered(slot: Option<Response>, resp: Response): (Option<Response>, bool) {
    if slot.None? then (Some(resp), true) else (slot, false)
  }

  /** A waiter's channel of capacity one. */
  class Mailbox {
    var slot: Option<Response>

    constructor ()
      ensures slot == None
    {
      slot := None;
    }
  }

  class WaiterTable {
    var waiters: map<string, Mailbox>

    constructor ()
      ensures waiters == map[]
    {
      waiters := map[];
    }

    method RegisterWaiter(id: string) returns (box: Mailbox)
      modifies this
      ensures fresh(box) && box.slot == None && waiters == old(waiters)[id := box]
    {
      box := new Mailbox();
      waiters := waiters[id := box];
    }

    method UnregisterWaiter(id: string)
      modifies this
      ensures waiters == old(waiters) - {id}
    {
      waiters := waiters - {id};
    }

    /** Delivers a response unless nobody waits or one is there already; a response is never replaced. */
    method WakeWaiter(id: string, resp: Response) returns (woken: bool)
      modifies waiters.Values
      ensures id !in waiters ==> !woken
      ensures id in waiters ==> (waiters[id].slot, woken) == Delivered(old(waiters[id].slot), resp)
      ensures forall box <- waiters.Values :: (id in waiters ==> box != waiters[id]) ==> box.slot == old(box.slot)
    {
      if id !in waiters {
        return false;
      }
      var box := waiters[id];
      if box.slot.Some? {
        return false;
      }
      box.slot := Some(resp);
      return true;
    }
  }

  // ----- The race -----

  datatype Mode = Auto | DenyAll | Prompt | UnknownMode

  datatype Winner = Requester | Operator(k: nat) | Startup

  datatype Event = ResolvedEvent | TimedOutEvent

  datatype Via = ByDecision(won: bool) | ByRecheck | ByWake | ByExpiry

  datatype RequesterPc =
    | Creating
    | Looking
    | Deciding(resp: Response, res: Resolution)
    | Announcing(resp: Response, event: Event, via: Via)
    | Registering
    | Rechecking
    | Waiting(rechecked: bool)
    | Expiring(res: Resolution)
    | Returning(resp: Response, via: Via)
    | Done(resp: Response, via: Via)

  datatype OperatorRequest = Resolve(decision: Decision, wanted: string, scope: Store.Scope) | CancelRequest

  datatype OperatorPc =
    | Getting(req: OperatorRequest)
    | Settling(resp: Response, res: Resolution)
    | Granting(resp: Response, res: Resolution)
    | Waking(resp: Response, res: Resolution)
    | Sending(resp: Response, res: Resolution)
    | Notifying(resp: Response, res: Resolution)
    | Finished(ok: bool)

  /** history and winner remember the one resolution of the row, even after retention dropped it. */
  datatype State = State(
    mode: Mode,
    options: seq<AcpOption>,
    row: Row,
    history: Option<Resolution>,
    winner: Option<Winner>,
    waiter: bool,
    channel: Option<Response>,
    dropped: bool,
    requester: RequesterPc,
    operators: map<nat, OperatorPc>,
    events: seq<Event>)

  datatype Step =
    | Create(ok: bool)
    | Lookup(grant: Option<(Decision, Store.Scope)>)
    | Decide(fault: bool)
    | Announce
    | Register
    | Recheck(fault: bool)
    | Receive
    | Expire(timeout: bool)
    | ExpireSettle(fault: bool)
    | Return
    | OpStart(k: nat, req: OperatorRequest)
    | OpGet(k: nat, fault: bool)
    | OpSettle(k: nat, fault: bool)
    | OpGrant(k: nat)
    | OpWake(k: nat)
    | OpSend(k: nat)
    | OpNotify(k: nat)
    | Prune
    | Reconcile

  function Init(mode: Mode, options: seq<AcpOption>): State {
    State(mode, options, Absent, None, None, false, None, false, Creating, map[], [])
  }

  /** A writer that finds the row open closes it and is the winner; any other writer changes nothing. */
  function Write(s: State, res: Resolution, who: Winner): State {
    if s.row.Open? then s.(row := Settle(s.row, res), history := Some(res), winner := Some(who)) else s
  }

  function EventFor(res: Resolution): Event {
    if res.path.Timeout? then TimedOutEvent else ResolvedEvent
  }

  function DefaultPc(s: State): RequesterPc {
    match s.mode
    case Auto => DecidePc(s, Store.Approve, true, Store.Once, Store.DefaultMode)
    case DenyAll => DecidePc(s, Store.Deny, false, Store.Once, Store.DefaultMode)
    case Prompt => Registering
    case UnknownMode =>
      Deciding(Cancelled, Store.Resolution(Store.Cancelled, None, "", Some(Store.Once), Store.DefaultMode))
  }

  function DecidePc(s: State, decision: Decision, fallback: bool, scope: Store.Scope, path: Store.Path): RequesterPc {
    var (resp, status, selected) := ApplyDecision(decision, s.options, fallback);
    Deciding(resp, Store.Resolution(status, Some(decision), selected, Some(scope), path))
  }

  function NextRequester(s: State, step: Step): Option<State> {
    match (step, s.requester)
    case (Create(ok), Creating) =>
      Some(s.(row := if ok then Open else Absent, requester := Looking))
    case (Lookup(grant), Looking) =>
      Some(s.(requester :=
        if grant.Some? then DecidePc(s, grant.value.0, false, grant.value.1, Store.Path.Grant) else DefaultPc(s)))
    case (Decide(fault), Deciding(resp, res)) =>
      if !fault && s.row.Open?
      then Some(Write(s, res, Requester).(requester := Announcing(resp, ResolvedEvent, ByDecision(true))))
      else Some(s.(requester := Returning(resp, ByDecision(false))))
    case (Announce, Announcing(resp, event, via)) =>
      Some(s.(events := s.events + [event], requester := Returning(resp, via)))
    case (Register, Registering) =>
      Some(s.(waiter := true, requester := Rechecking))
    case (Recheck(fault), Rechecking) =>
      if !fault && s.row.Closed? then Some(s.(requester := Returning(ResponseFor(s.row.resolution), ByRecheck)))
      else Some(s.(requester := Waiting(!fault && s.row.Open?)))
    case (Receive, Waiting(_)) =>
      if s.channel.None? then None
      else Some(s.(channel := None, requester := Returning(s.channel.value, ByWake)))
    case (Expire(timeout), Waiting(_)) =>
      Some(s.(requester := Expiring(
        if timeout then Store.Resolution(Store.TimedOut, None, "", Some(Store.Once), Store.Timeout)
        else Store.Resolution(Store.Cancelled, None, "", Some(Store.Once), Store.RequestCancelled))))
    case (ExpireSettle(fault), Expiring(res)) =>
      if !fault && s.row.Open?
      then Some(Write(s, res, Requester).(requester := Announcing(Cancelled, EventFor(res), ByExpiry)))
      else Some(s.(requester := Returning(Cancelled, ByExpiry)))
    case (Return, Returning(resp, via)) =>
      Some(s.(waiter := false, requester := Done(resp, via)))
    case _ => None
  }

  function OperatorResolution(req: OperatorRequest, selected: string): Resolution {
    match req
    case Resolve(decision, _, scope) =>
      Store.Resolution(StatusOf(decision), Some(decision), selected, Some(scope), Store.Operator)
    case CancelRequest => Store.Resolution(Store.Cancelled, None, "", Some(Store.Once), Store.Operator)
  }

  function GetPc(s: State, req: OperatorRequest, fault: bool): OperatorPc {
    if fault || !s.row.Open? then Finished(false)
    else match req
      case CancelRequest => Settling(Cancelled, OperatorResolution(req, ""))
      case Resolve(decision, wanted, _) =>
        match PickOperatorOption(s.options, decision, wanted)
        case Err(_) => Finished(false)
        case Ok(id) => Settling(Selected(id), OperatorResolution(req, id))
  }

  function NextOperator(s: State, step: Step, k: nat): Option<State> {
    if step.OpStart? then
      if k in s.operators then None else Some(s.(operators := s.operators[k := Getting(step.req)]))
    else if k !in s.operators then None
    else match (step, s.operators[k])
      case (OpGet(_, fault), Getting(req)) =>
        Some(s.(operators := s.operators[k := GetPc(s, req, fault)]))
      case (OpSettle(_, fault), Settling(resp, res)) =>
        if !fault && s.row.Open?
        then Some(Write(s, res, Operator(k)).(operators := s.operators[k := Granting(resp, res)]))
        else Some(s.(operators := s.operators[k := Finished(false)]))
      case (OpGrant(_), Granting(resp, res)) =>
        Some(s.(operators := s.operators[k := Waking(resp, res)]))
      case (OpWake(_), Waking(resp, res)) =>
        Some(s.(operators := s.operators[k := if s.waiter then Sending(resp, res) else Notifying(resp, res)]))
      case (OpSend(_), Sending(resp, res)) =>
        var (channel, taken) := Delivered(s.channel, resp);
        Some(s.(operators := s.operators[k := Notifying(resp, res)], channel := channel, dropped := s.dropped || !taken))
      case (OpNotify(_), Notifying(_, _)) =>
        Some(s.(events := s.events + [ResolvedEvent], operators := s.operators[k := Finished(true)]))
      case _ => None
  }

  function Next(s: State, step: Step): Option<State> {
    match step
    case OpStart(k, _) => NextOperator(s, step, k)
    case OpGet(k, _) => NextOperator(s, step, k)
    case OpSettle(k, _) => NextOperator(s, step, k)
    case OpGrant(k) => NextOperator(s, step, k)
    case OpWake(k) => NextOperator(s, step, k)
    case OpSend(k) => NextOperator(s, step, k)
    case OpNotify(k) => NextOperator(s, step, k)
    case Prune => if s.row.Closed? then Some(s.(row := Absent)) else None
    case Reconcile =>
      if s.row.Open?
      then Some(Write(s, Store.Resolution(Store.TimedOut, None, "", None, Store.StartupReconcile), Startup))
      else None
    case _ => NextRequester(s, step)
  }

  /** The state after a sequence of steps, if each was possible when it came. */
  function Run(s: State, steps: seq<Step>): Option<State>
    decreases |steps|
  {
    if steps == [] then Some(s)
    else match Next(s, steps[0])
      case None => None
      case Some(t) => Run(t, steps[1..])
  }

  // ----- What every step keeps -----

  /** The families of the options a resolution may carry. */
  ghost predicate Proper(s: State, res: Resolution) {
    && (res.status.Denied? ==> Carries(s.options, Store.Deny, res.selected))
    && (res.status.Approved? ==>
          || Carries(s.options, Store.Approve, res.selected)
          || (s.mode.Auto? && res.path.DefaultMode? && !Offers(s.options, Store.Approve)
              && s.options != [] && res.selected == s.options[0].id))
    && (!res.status.Denied? && !res.status.Approved? ==> res.selected == "")
    && !res.status.Pending?
  }

  /** What an operator's answer and resolution say to each other. */
  ghost predicate Consistent(resp: Response, res: Resolution) {
    match resp
    case Selected(o) => (res.status.Approved? || res.status.Denied?) && res.selected == o
    case Cancelled => res.status.Cancelled?
  }

  ghost predicate RowInv(s: State) {
    && (s.row.Closed? ==> s.history == Some(s.row.resolution))
    && (s.row.Open? ==> s.history == None)
    && (s.history.None? <==> s.winner.None?)
    && (s.history.Some? ==> Proper(s, s.history.value))
    && (s.requester.Creating? ==> s.row.Absent? && s.history.None?)
    && !s.dropped
    && (s.channel.Some? ==> s.winner.Some? && s.winner.value.Operator?)
  }

  ghost predicate RequesterInv(s: State) {
    match s.requester
    case Deciding(resp, res) => Proper(s, res) && Consistent(resp, res) && !res.path.Timeout? && NoWaiter(s)
    case Announcing(resp, event, via) =>
      && s.winner == Some(Requester) && s.history.Some? && s.events == [] && event == EventFor(s.history.value)
      && !via.ByRecheck? && !via.ByWake?
      && (via == ByDecision(true) ==> Consistent(resp, s.history.value))
      && (via.ByExpiry? ==> resp == Cancelled) && via != ByDecision(false)
    case Creating => NoWaiter(s)
    case Looking => NoWaiter(s)
    case Registering => NoWaiter(s)
    case Rechecking => s.waiter && s.winner != Some(Requester)
    case Waiting(rechecked) => s.waiter && s.winner != Some(Requester)
    case Expiring(res) => Proper(s, res) && s.winner != Some(Requester)
    case Returning(resp, via) => Answered(s, resp, via)
    case Done(resp, via) => Answered(s, resp, via) && !s.waiter
  }

  ghost predicate BeforeWaiting(pc: RequesterPc) {
    pc.Creating? || pc.Looking? || pc.Deciding? || pc.Registering?
  }

  ghost predicate NoWaiter(s: State) {
    !s.waiter && s.channel.None? && s.winner != Some(Requester)
  }

  /** Where a returned answer comes from. */
  ghost predicate Answered(s: State, resp: Response, via: Via) {
    match via
    case ByDecision(won) =>
      && (won <==> s.winner == Some(Requester))
      && (won ==> s.history.Some? && Consistent(resp, s.history.value))
    case ByRecheck => s.history.Some? && resp == ResponseFor(s.history.value)
    case ByWake => s.history.Some? && Consistent(resp, s.history.value)
    case ByExpiry => resp == Cancelled
  }

  /** After its win an operator still owes, in this order, the wake and the notification. */
  ghost predicate OperatorInv(s: State, k: nat)
    requires k in s.operators
  {
    var pc := s.operators[k];
    && (pc.Settling? ==> Proper(s, pc.res) && Consistent(pc.resp, pc.res) && !pc.res.path.Timeout?)
    && (pc.Granting? || pc.Waking? || pc.Sending? || pc.Notifying? ==>
          && s.winner == Some(Operator(k)) && s.history == Some(pc.res)
          && Consistent(pc.resp, pc.res) && !pc.res.path.Timeout? && s.events == [])
    && (pc.Granting? || pc.Waking? || pc.Sending? ==> s.channel.None?)
    && (pc.Sending? ==> !BeforeWaiting(s.requester))
    && (pc.Finished? && pc.ok ==> s.winner == Some(Operator(k)))
    && (pc.Notifying? && s.channel.Some? ==> s.channel == Some(pc.resp))
  }

  ghost predicate OperatorsInv(s: State) {
    forall k <- s.operators :: OperatorInv(s, k)
  }

  /** Whoever won is accounted for. */
  ghost predicate WinnerInv(s: State) {
    && (s.winner.Some? && s.winner.value.Operator? ==>
          var k := s.winner.value.k;
          && k in s.operators
          && !s.operators[k].Getting? && !s.operators[k].Settling? && s.operators[k] != Finished(false)
          && s.history.Some?
          && (s.channel.Some? ==> Consistent(s.channel.value, s.history.value)))
    && (s.events != [] ==> s.history.Some? && s.events == [EventFor(s.history.value)] && s.winner != Some(Startup))
    && (s.winner == Some(Requester) && s.events == [] ==> s.requester.Announcing?)
    && (s.winner.Some? && s.winner.value.Operator? && s.events == [] ==> !s.operators[s.winner.value.k].Finished?)
  }

  /** A re-checked wait cannot miss its wake. */
  ghost predicate WakeInv(s: State) {
    s.requester == Waiting(true) && s.winner.Some? && s.winner.value.Operator? && s.winner.value.k in s.operators ==>
      var pc := s.operators[s.winner.value.k];
      pc.Notifying? || pc.Finished? ==> s.channel.Some?
  }

  ghost predicate Inv(s: State) {
    RowInv(s) && RequesterInv(s) && OperatorsInv(s) && WinnerInv(s) && WakeInv(s)
  }

  lemma InitInv(mode: Mode, options: seq<AcpOption>)
    ensures Inv(Init(mode, options))
  {
  }

  lemma ApplyDecisionIsProper(s: State, decision: Decision, fallback: bool, scope: Store.Scope, path: Store.Path)
    requires fallback ==> s.mode.Auto? && path.DefaultMode?
    requires path.Grant? || path.DefaultMode?
    ensures var pc := DecidePc(s, decision, fallback, scope, path);
            Proper(s, pc.res) && Consistent(pc.resp, pc.res) && !pc.res.path.Timeout?
  {
    var picked := PickOption(s.options, decision);
    if picked.Some? {
      assert Carries(s.options, decision, picked.value.id);
    }
  }

  lemma OtherOperatorsKeepInv(s: State, t: State)
    requires OperatorsInv(s) && t.operators == s.operators && t.events == s.events
    requires t.history == s.history && t.winner == s.winner && t.options == s.options && t.mode == s.mode
    requires t.channel == s.channel || t.channel.None?
    requires BeforeWaiting(t.requester) ==> BeforeWaiting(s.requester)
    ensures OperatorsInv(t)
  {
    forall k | k in t.operators ensures OperatorInv(t, k) {
      assert OperatorInv(s, k);
    }
  }

  /** A step of the requester before it writes to the row or announces anything. */
  predicate Quiet(step: Step) {
    !step.Decide? && !step.ExpireSettle? && !step.Announce?
  }

  lemma LookupKeepsInv(s: State, step: Step)
    requires Inv(s) && step.Lookup? && NextRequester(s, step).Some?
    ensures Inv(NextRequester(s, step).value)
  {
    var t := NextRequester(s, step).value;
    if step.grant.Some? {
      ApplyDecisionIsProper(s, step.grant.value.0, false, step.grant.value.1, Store.Path.Grant);
    } else if s.mode.Auto? {
      ApplyDecisionIsProper(s, Store.Approve, true, Store.Once, Store.DefaultMode);
    } else if s.mode.DenyAll? {
      ApplyDecisionIsProper(s, Store.Deny, false, Store.Once, Store.DefaultMode);
    }
    OtherOperatorsKeepInv(s, t);
  }

  lemma WaitingStepKeepsInv(s: State, step: Step)
    requires Inv(s) && NextRequester(s, step).Some? && Quiet(step) && !step.Lookup?
    ensures Inv(NextRequester(s, step).value)
  {
    OtherOperatorsKeepInv(s, NextRequester(s, step).value);
  }

  /** The requester is the first to write. */
  lemma RequesterWinsOperators(s: State, res: Resolution, pc: RequesterPc)
    requires RowInv(s) && OperatorsInv(s) && s.row.Open? && !BeforeWaiting(pc)
    ensures OperatorsInv(Write(s, res, Requester).(requester := pc))
  {
    var t := Write(s, res, Requester).(requester := pc);
    forall k | k in t.operators ensures OperatorInv(t, k) {
      assert OperatorInv(s, k);
    }
  }

  lemma DecideKeepsInv(s: State, fault: bool)
    requires Inv(s) && s.requester.Deciding?
    ensures Inv(NextRequester(s, Decide(fault)).value)
  {
    var t := NextRequester(s, Decide(fault)).value;
    if !fault && s.row.Open? {
      RequesterWinsOperators(s, s.requester.res, t.requester);
    } else {
      OtherOperatorsKeepInv(s, t);
    }
  }

  lemma ExpireSettleKeepsInv(s: State, fault: bool)
    requires Inv(s) && s.requester.Expiring?
    ensures Inv(NextRequester(s, ExpireSettle(fault)).value)
  {
    var t := NextRequester(s, ExpireSettle(fault)).value;
    if !fault && s.row.Open? {
      RequesterWinsOperators(s, s.requester.res, t.requester);
    } else {
      OtherOperatorsKeepInv(s, t);
    }
  }

  lemma AnnounceKeepsInv(s: State)
    requires Inv(s) && s.requester.Announcing?
    ensures Inv(NextRequester(s, Announce).value)
  {
    var t := NextRequester(s, Announce).value;
    forall k | k in t.operators ensures OperatorInv(t, k) {
      assert OperatorInv(s, k);
    }
  }

  lemma RequesterStepKeepsInv(s: State, step: Step)
    requires Inv(s) && NextRequester(s, step).Some?
    ensures Inv(NextRequester(s, step).value)
  {
    if step.Lookup? {
      LookupKeepsInv(s, step);
    } else if Quiet(step) {
      WaitingStepKeepsInv(s, step);
    } else if step.Decide? {
      DecideKeepsInv(s, step.fault);
    } else if step.ExpireSettle? {
      ExpireSettleKeepsInv(s, step.fault);
    } else {
      AnnounceKeepsInv(s);
    }
  }

  /** An operator that has not won goes on, or gives up. */
  lemma OperatorMoves(s: State, k: nat, pc: OperatorPc)
    requires Inv(s) && (k in s.operators ==> s.operators[k].Getting? || s.operators[k].Settling?)
    requires || pc.Getting? || pc == Finished(false)
             || (pc.Settling? && Proper(s, pc.res) && Consistent(pc.resp, pc.res) && !pc.res.path.Timeout?)
    ensures Inv(s.(operators := s.operators[k := pc]))
  {
    var t := s.(operators := s.operators[k := pc]);
    forall j | j in t.operators ensures OperatorInv(t, j) {
      if j != k {
        assert OperatorInv(s, j);
      }
    }
  }

  lemma OperatorLooks(s: State, k: nat, fault: bool)
    requires Inv(s) && k in s.operators && s.operators[k].Getting?
    ensures var pc := GetPc(s, s.operators[k].req, fault);
            || pc == Finished(false)
            || (pc.Settling? && Proper(s, pc.res) && Consistent(pc.resp, pc.res) && !pc.res.path.Timeout?)
  {
  }

  lemma OperatorWinsOperators(s: State, k: nat)
    requires RowInv(s) && OperatorsInv(s) && WinnerInv(s)
    requires k in s.operators && s.operators[k].Settling? && s.row.Open?
    ensures OperatorsInv(NextOperator(s, OpSettle(k, false), k).value)
  {
    var t := NextOperator(s, OpSettle(k, false), k).value;
    assert OperatorInv(s, k);
    forall j | j in t.operators ensures OperatorInv(t, j) {
      assert OperatorInv(s, j);
    }
  }

  /** An operator is the first to write. */
  lemma OperatorWins(s: State, k: nat)
    requires Inv(s) && k in s.operators && s.operators[k].Settling? && s.row.Open?
    ensures Inv(NextOperator(s, OpSettle(k, false), k).value)
  {
    assert OperatorInv(s, k);
    OperatorWinsOperators(s, k);
  }

  predicate Owes(pc: OperatorPc) {
    pc.Granting? || pc.Waking? || pc.Sending? || pc.Notifying?
  }

  /** The winner's next duty leaves the other operators alone: none of them has won. */
  lemma DutyKeepsOthers(s: State, t: State, k: nat)
    requires Inv(s) && k in s.operators && Owes(s.operators[k]) && k in t.operators && OperatorInv(t, k)
    requires t.operators == s.operators[k := t.operators[k]] && t.requester == s.requester
    requires t.winner == s.winner && t.history == s.history && t.options == s.options && t.mode == s.mode
    ensures OperatorsInv(t)
  {
    assert OperatorInv(s, k);
    forall j | j in t.operators ensures OperatorInv(t, j) {
      assert OperatorInv(s, j);
      if j != k {
        assert !Owes(s.operators[j]) && t.operators[j] == s.operators[j];
      }
    }
  }

  lemma OpGrantKeepsInv(s: State, k: nat)
    requires Inv(s) && k in s.operators && s.operators[k].Granting?
    ensures Inv(NextOperator(s, OpGrant(k), k).value)
  {
    assert OperatorInv(s, k);
    DutyKeepsOthers(s, NextOperator(s, OpGrant(k), k).value, k);
  }

  lemma OpWakeKeepsInv(s: State, k: nat)
    requires Inv(s) && k in s.operators && s.operators[k].Waking?
    ensures Inv(NextOperator(s, OpWake(k), k).value)
  {
    assert OperatorInv(s, k);
    DutyKeepsOthers(s, NextOperator(s, OpWake(k), k).value, k);
  }

  lemma OpSendKeepsInv(s: State, k: nat)
    requires Inv(s) && k in s.operators && s.operators[k].Sending?
    ensures Inv(NextOperator(s, OpSend(k), k).value)
  {
    assert OperatorInv(s, k);
    DutyKeepsOthers(s, NextOperator(s, OpSend(k), k).value, k);
  }

  lemma OpNotifyKeepsInv(s: State, k: nat)
    requires Inv(s) && k in s.operators && s.operators[k].Notifying?
    ensures Inv(NextOperator(s, OpNotify(k), k).value)
  {
    assert OperatorInv(s, k);
    DutyKeepsOthers(s, NextOperator(s, OpNotify(k), k).value, k);
  }

  lemma OperatorStepKeepsInv(s: State, step: Step, k: nat)
    requires Inv(s) && OperatorOf(step) == Some(k) && NextOperator(s, step, k).Some?
    ensures Inv(NextOperator(s, step, k).value)
  {
    match step {
      case OpStart(_, req) => OperatorMoves(s, k, Getting(req));
      case OpGet(_, fault) =>
        OperatorLooks(s, k, fault);
        OperatorMoves(s, k, GetPc(s, s.operators[k].req, fault));
      case OpSettle(_, fault) =>
        if !fault && s.row.Open? {
          OperatorWins(s, k);
        } else {
          OperatorMoves(s, k, Finished(false));
        }
      case OpGrant(_) => OpGrantKeepsInv(s, k);
      case OpWake(_) => OpWakeKeepsInv(s, k);
      case OpSend(_) => OpSendKeepsInv(s, k);
      case OpNotify(_) => OpNotifyKeepsInv(s, k);
      case _ => assert false;
    }
  }

  lemma StoreStepKeepsInv(s: State, step: Step)
    requires Inv(s) && (step.Prune? || step.Reconcile?) && Next(s, step).Some?
    ensures Inv(Next(s, step).value)
  {
    var t := Next(s, step).value;
    forall k | k in t.operators ensures OperatorInv(t, k) {
      assert OperatorInv(s, k);
    }
  }

  function OperatorOf(step: Step): Option<nat> {
    match step
    case OpStart(k, _) => Some(k)
    case OpGet(k, _) => Some(k)
    case OpSettle(k, _) => Some(k)
    case OpGrant(k) => Some(k)
    case OpWake(k) => Some(k)
    case OpSend(k) => Some(k)
    case OpNotify(k) => Some(k)
    case _ => None
  }

  lemma StepKeepsInv(s: State, step: Step)
    requires Inv(s) && Next(s, step).Some?
    ensures Inv(Next(s, step).value)
  {
    if OperatorOf(step).Some? {
      var k := OperatorOf(step).value;
      assert Next(s, step) == NextOperator(s, step, k);
      OperatorStepKeepsInv(s, step, k);
    } else if step.Prune? || step.Reconcile? {
      StoreStepKeepsInv(s, step);
    } else {
      RequesterStepKeepsInv(s, step);
    }
  }

  lemma {:induction false} RunKeepsInv(s: State, steps: seq<Step>)
    requires Inv(s) && Run(s, steps).Some?
    ensures Inv(Run(s, steps).value)
    decreases |steps|
  {
    if steps != [] {
      StepKeepsInv(s, steps[0]);
      RunKeepsInv(Next(s, steps[0]).value, steps[1..]);
    }
  }

  // ----- Over whole runs -----

  ghost predicate Reachable(mode: Mode, options: seq<AcpOption>, t: State) {
    exists steps :: Run(Init(mode, options), steps) == Some(t)
  }

  lemma ReachableInv(mode: Mode, options: seq<AcpOption>, t: State)
    requires Reachable(mode, options, t)
    ensures Inv(t)
  {
    var steps :| Run(Init(mode, options), steps) == Some(t);
    InitInv(mode, options);
    RunKeepsInv(Init(mode, options), steps);
  }

  /** A Selected answer of the prompt path is the option the row was resolved with; giving up answers Cancelled. */
  lemma PromptAnswersAreFaithful(mode: Mode, options: seq<AcpOption>, t: State)
    requires Reachable(mode, options, t) && t.requester.Done?
    ensures var (resp, via) := (t.requester.resp, t.requester.via);
            && (resp.Selected? && (via.ByRecheck? || via.ByWake? || via == ByDecision(true)) ==>
                  && t.history.Some? && (t.history.value.status.Approved? || t.history.value.status.Denied?)
                  && t.history.value.selected == resp.option)
            && (via.ByExpiry? ==> resp == Cancelled)
            && (via.ByRecheck? || (via.ByWake? && resp != Selected("")) ==>
                  t.history.Some? && resp == ResponseFor(t.history.value))
  {
    ReachableInv(mode, options, t);
  }

  /** A decision that says it won is the one the row was resolved by, and no other writer's. */
  lemma DecisionsKnowWhetherTheyWon(mode: Mode, options: seq<AcpOption>, t: State)
    requires Reachable(mode, options, t) && t.requester.Done? && t.requester.via.ByDecision?
    ensures t.requester.via.won <==> t.winner == Some(Requester)
  {
    ReachableInv(mode, options, t);
  }

  /** The channel holds one response, and no wake ever finds it full. */
  lemma NothingIsDropped(mode: Mode, options: seq<AcpOption>, t: State)
    requires Reachable(mode, options, t)
    ensures !t.dropped
  {
    ReachableInv(mode, options, t);
  }

  /** A requester that re-checked its row and was woken has the operator's answer waiting for it, undropped. */
  lemma NoLostWakeup(mode: Mode, options: seq<AcpOption>, t: State, k: nat)
    requires Reachable(mode, options, t)
    requires t.requester == Waiting(true) && t.winner == Some(Operator(k))
    ensures !t.dropped && k in t.operators
    ensures t.operators[k].Notifying? || t.operators[k].Finished? ==>
              t.channel.Some? && t.history.Some? && Consistent(t.channel.value, t.history.value)
    ensures t.channel.None? ==> t.operators[k].Granting? || t.operators[k].Waking? || t.operators[k].Sending?
  {
    ReachableInv(mode, options, t);
    assert OperatorInv(t, k);
  }

  /** At most one hook fires for the row; it is the one its resolution calls for, and it fires once the winner is done. */
  lemma OneOutcomeIsAnnounced(mode: Mode, options: seq<AcpOption>, t: State)
    requires Reachable(mode, options, t)
    ensures |t.events| <= 1
    ensures t.events != [] ==> t.history.Some? && t.events[0] == EventFor(t.history.value)
    ensures t.winner == Some(Startup) ==> t.events == []
    ensures t.winner == Some(Requester) && (t.requester.Returning? || t.requester.Done?) ==> |t.events| == 1
    ensures forall k <- t.operators :: t.operators[k] == Finished(true) ==> t.winner == Some(Operator(k)) && |t.events| == 1
  {
    ReachableInv(mode, options, t);
  }

  /** Denied rows carry a reject option; approved rows an allow option, or the explicit fallback of auto mode. */
  lemma ResolutionsCarryTheirFamily(mode: Mode, options: seq<AcpOption>, t: State)
    requires Reachable(mode, options, t) && t.history.Some?
    ensures Proper(t, t.history.value)
    ensures t.row.Closed? ==> t.row.resolution == t.history.value
  {
    ReachableInv(mode, options, t);
  }

  /** A resolution is final: no later step rewrites it, and a row that was dropped does not come back. */
  lemma ResolutionIsFinal(s: State, step: Step)
    requires Inv(s) && Next(s, step).Some?
    ensures var t := Next(s, step).value;
            && (s.history.Some? ==> t.history == s.history && t.winner == s.winner && !t.row.Open?)
            && (s.row.Closed? ==> t.row == s.row || (step.Prune? && t.row.Absent?))
  {
  }

  lemma {:induction false} ResolutionIsFinalForever(s: State, steps: seq<Step>)
    requires Inv(s) && Run(s, steps).Some? && s.history.Some?
    ensures Run(s, steps).value.history == s.history && Run(s, steps).value.winner == s.winner
    decreases |steps|
  {
    if steps != [] {
      ResolutionIsFinal(s, steps[0]);
      StepKeepsInv(s, steps[0]);
      ResolutionIsFinalForever(Next(s, steps[0]).value, steps[1..]);
    }
  }

  // ----- Where the guarantees stop -----

  lemma {:induction false} RunConcat(s: State, a: seq<Step>, b: seq<Step>)
    requires Run(s, a).Some?
    ensures Run(s, a + b) == Run(Run(s, a).value, b)
    decreases |a|
  {
    if a == [] {
      assert a + b == b;
    } else {
      assert (a + b)[1..] == a[1..] + b;
      RunConcat(Next(s, a[0]).value, a[1..], b);
    }
  }

  lemma Extend(mode: Mode, options: seq<AcpOption>, s: State, step: Step) returns (t: State)
    requires Reachable(mode, options, s) && Next(s, step).Some?
    ensures t == Next(s, step).value && Reachable(mode, options, t)
  {
    var steps :| Run(Init(mode, options), steps) == Some(s);
    RunConcat(Init(mode, options), steps, [step]);
    t := Next(s, step).value;
    assert Run(t, [step][1..]) == Some(t);
    assert Run(s, [step]) == Some(t);
    assert Run(Init(mode, options), steps + [step]) == Some(t);
  }

  lemma RequesterActs(mode: Mode, options: seq<AcpOption>, s: State, step: Step) returns (t: State)
    requires Reachable(mode, options, s) && NextRequester(s, step).Some?
    ensures t == NextRequester(s, step).value && Reachable(mode, options, t)
  {
    t := Extend(mode, options, s, step);
  }

  lemma OperatorActs(mode: Mode, options: seq<AcpOption>, s: State, step: Step, k: nat) returns (t: State)
    requires Reachable(mode, options, s) && OperatorOf(step) == Some(k) && NextOperator(s, step, k).Some?
    ensures t == NextOperator(s, step, k).value && Reachable(mode, options, t)
  {
    t := Extend(mode, options, s, step);
  }

  const ALLOW: AcpOption := AcpOption("yes", AllowOnce, true)
  const REJECT: AcpOption := AcpOption("no", RejectOnce, true)

  lemma StartReachable(mode: Mode, options: seq<AcpOption>)
    ensures Reachable(mode, options, Init(mode, options))
  {
    assert Run(Init(mode, options), []) == Some(Init(mode, options));
  }

  const OFFER: seq<AcpOption> := [ALLOW, REJECT]

  lemma OfFamilyOfOne(opt: AcpOption, decision: Decision)
    ensures OfFamily([opt], decision) == if InFamily(decision, opt.kind) then [opt] else []
  {
    assert [opt][1..] == [];
  }

  lemma OfferPicks()
    ensures PickOperatorOption(OFFER, Store.Approve, "") == Ok("yes")
    ensures PickOperatorOption(OFFER, Store.Deny, "") == Ok("no")
    ensures PickOption(OFFER, Store.Approve) == Some(ALLOW)
  {
    assert OFFER[1..] == [REJECT];
    OfFamilyOfOne(REJECT, Store.Approve);
    OfFamilyOfOne(REJECT, Store.Deny);
  }

  function Choice(decision: Decision): Resolution {
    OperatorResolution(Resolve(decision, "", Store.Once), if decision.Approve? then "yes" else "no")
  }

  lemma OfferIsPicked(decision: Decision, s: State)
    requires s.row.Open? && s.options == OFFER
    ensures GetPc(s, Resolve(decision, "", Store.Once), false)
            == Settling(Selected(Choice(decision).selected), Choice(decision))
  {
    OfferPicks();
  }

  /** An operator takes a fresh row as far as its resolution. */
  lemma OperatorPicks(mode: Mode, decision: Decision, s: State) returns (t: State)
    requires Reachable(mode, OFFER, s) && s.operators == map[] && s.row.Open? && s.options == OFFER
    ensures Reachable(mode, OFFER, t)
    ensures t == s.(operators := map[0 := Settling(Selected(Choice(decision).selected), Choice(decision))])
  {
    var req := Resolve(decision, "", Store.Once);
    t := OperatorActs(mode, OFFER, s, OpStart(0, req), 0);
    assert t == s.(operators := map[0 := Getting(req)]);
    OfferIsPicked(decision, t);
    t := OperatorActs(mode, OFFER, t, OpGet(0, false), 0);
    OneOperator(Getting(req), t.operators[0]);
  }

  lemma OneOperator(before: OperatorPc, after: OperatorPc)
    ensures map[0 := before][0 := after] == map[0 := after]
  {
  }

  lemma OperatorResolves(mode: Mode, decision: Decision, s: State) returns (t: State)
    requires Reachable(mode, OFFER, s) && s.operators == map[] && s.row.Open? && s.options == OFFER
    ensures Reachable(mode, OFFER, t)
    ensures var res := Choice(decision);
            t == s.(row := Closed(res), history := Some(res), winner := Some(Operator(0)),
                    operators := map[0 := Granting(Selected(res.selected), res)])
  {
    t := OperatorPicks(mode, decision, s);
    var before := t.operators[0];
    t := OperatorActs(mode, OFFER, t, OpSettle(0, false), 0);
    OneOperator(before, t.operators[0]);
  }

  /** A winner wakes nobody while nobody waits yet. */
  lemma OperatorWakesNobody(s: State, resp: Response, res: Resolution) returns (t: State)
    requires Reachable(Prompt, OFFER, s) && !s.waiter && s.operators == map[0 := Granting(resp, res)]
    ensures Reachable(Prompt, OFFER, t) && t == s.(operators := map[0 := Notifying(resp, res)])
  {
    t := OperatorActs(Prompt, OFFER, s, OpGrant(0), 0);
    OneOperator(Granting(resp, res), Waking(resp, res));
    t := OperatorActs(Prompt, OFFER, t, OpWake(0), 0);
    OneOperator(Waking(resp, res), Notifying(resp, res));
  }

  lemma OperatorFinishesUnheard(s: State, resp: Response, res: Resolution) returns (t: State)
    requires Reachable(Prompt, OFFER, s) && !s.waiter && s.operators == map[0 := Granting(resp, res)]
    ensures Reachable(Prompt, OFFER, t)
    ensures t == s.(operators := map[0 := Finished(true)], events := s.events + [ResolvedEvent])
  {
    t := OperatorWakesNobody(s, resp, res);
    t := OperatorActs(Prompt, OFFER, t, OpNotify(0), 0);
    OneOperator(Notifying(resp, res), Finished(true));
  }

  lemma FreshRow(mode: Mode, options: seq<AcpOption>) returns (s: State)
    ensures Reachable(mode, options, s)
    ensures s == Init(mode, options).(row := Open, requester := Looking)
  {
    StartReachable(mode, options);
    s := RequesterActs(mode, options, Init(mode, options), Create(true));
  }

  lemma AnsweredUnheard() returns (s: State)
    ensures Reachable(Prompt, OFFER, s) && s.requester.Registering? && s.channel.None?
    ensures s.operators == map[0 := Finished(true)] && s.winner == Some(Operator(0))
  {
    s := FreshRow(Prompt, OFFER);
    s := RequesterActs(Prompt, OFFER, s, Lookup(None));
    s := OperatorResolves(Prompt, Store.Approve, s);
    s := OperatorFinishesUnheard(s, Selected(Choice(Store.Approve).selected), Choice(Store.Approve));
  }

  /** Without a successful re-check a wake can be lost: the answer is gone and only the timer is left. */
  lemma UncheckedWaitCanMissItsWake()
    ensures exists t :: Reachable(Prompt, OFFER, t) && t.requester == Waiting(false)
              && t.operators == map[0 := Finished(true)] && t.winner == Some(Operator(0)) && t.channel.None?
  {
    var s := AnsweredUnheard();
    s := RequesterActs(Prompt, OFFER, s, Register);
    s := RequesterActs(Prompt, OFFER, s, Recheck(true));
  }

  lemma RowDeniedFirst() returns (s: State)
    ensures Reachable(Prompt, OFFER, s) && s.requester.Looking? && s.options == OFFER
    ensures s.row == Closed(Choice(Store.Deny)) && s.history == Some(Choice(Store.Deny))
  {
    s := FreshRow(Prompt, OFFER);
    s := OperatorResolves(Prompt, Store.Deny, s);
  }

  lemma GrantPicksOffer(s: State)
    requires s.options == OFFER
    ensures DecidePc(s, Store.Approve, false, Store.AdapterTool, Store.Path.Grant).resp == Selected("yes")
  {
    OfferPicks();
  }

  /** A grant that loses the row to an operator still answers with its own choice. */
  lemma LostDecisionCanDisagree()
    ensures exists t :: Reachable(Prompt, OFFER, t) && t.requester == Done(Selected("yes"), ByDecision(false))
              && t.history.Some? && t.history.value.status.Denied? && t.history.value.selected == "no"
  {
    var s := RowDeniedFirst();
    GrantPicksOffer(s);
    s := RequesterActs(Prompt, OFFER, s, Lookup(Some((Store.Approve, Store.AdapterTool))));
    s := DecideTooLate(Prompt, OFFER, s);
  }

  /** A decision whose row is closed already returns unchanged. */
  lemma DecideTooLate(mode: Mode, options: seq<AcpOption>, s: State) returns (t: State)
    requires Reachable(mode, options, s) && s.requester.Deciding? && s.row.Closed?
    ensures Reachable(mode, options, t)
    ensures t.requester == Done(s.requester.resp, ByDecision(false)) && t.history == s.history
  {
    t := RequesterActs(mode, options, s, Decide(false));
    t := RequesterActs(mode, options, t, Return);
  }

  // ----- When decisions can be trusted -----

  /** Some grant or mode default could answer with an option. */
  predicate CanSelect(mode: Mode, options: seq<AcpOption>) {
    Offers(options, Store.Approve) || Offers(options, Store.Deny) || (mode.Auto? && options != [])
  }

  predicate MatchesRow(t: State, resp: Response) {
    resp.Selected? ==>
      && t.history.Some? && (t.history.value.status.Approved? || t.history.value.status.Denied?)
      && t.history.value.selected == resp.option
  }

  /** Every answer of a grant or mode default matches its row, in every interleaving. */
  ghost predicate DecisionsAreFaithful(mode: Mode, options: seq<AcpOption>) {
    forall t :: Reachable(mode, options, t) && t.requester.Done? && t.requester.via.ByDecision? ==>
                  MatchesRow(t, t.requester.resp)
  }

  /** Nothing to select: a decision answers Cancelled. */
  predicate Mute(s: State) {
    match s.requester
    case Deciding(resp, _) => resp.Cancelled?
    case Announcing(resp, _, via) => via.ByDecision? ==> resp.Cancelled?
    case Returning(resp, via) => via.ByDecision? ==> resp.Cancelled?
    case Done(resp, via) => via.ByDecision? ==> resp.Cancelled?
    case _ => true
  }

  lemma RequesterStaysMute(s: State, step: Step)
    requires !CanSelect(s.mode, s.options) && Mute(s) && NextRequester(s, step).Some?
    ensures Mute(NextRequester(s, step).value)
  {
  }

  lemma OperatorsKeepSetting(s: State, step: Step, k: nat)
    requires NextOperator(s, step, k).Some?
    ensures var t := NextOperator(s, step, k).value;
            t.requester == s.requester && t.mode == s.mode && t.options == s.options
  {
  }

  lemma RequesterKeepsSetting(s: State, step: Step)
    requires NextRequester(s, step).Some?
    ensures NextRequester(s, step).value.mode == s.mode && NextRequester(s, step).value.options == s.options
  {
  }

  lemma StepKeepsSetting(s: State, step: Step)
    requires Next(s, step).Some?
    ensures var t := Next(s, step).value;
            t.mode == s.mode && t.options == s.options && (!CanSelect(s.mode, s.options) && Mute(s) ==> Mute(t))
  {
    if OperatorOf(step).Some? {
      assert Next(s, step) == NextOperator(s, step, OperatorOf(step).value);
      OperatorsKeepSetting(s, step, OperatorOf(step).value);
    } else if !step.Prune? && !step.Reconcile? {
      RequesterKeepsSetting(s, step);
      if !CanSelect(s.mode, s.options) && Mute(s) {
        RequesterStaysMute(s, step);
      }
    }
  }

  lemma {:induction false} RunKeepsSetting(s: State, steps: seq<Step>)
    requires Run(s, steps).Some?
    ensures var t := Run(s, steps).value;
            t.mode == s.mode && t.options == s.options && (!CanSelect(s.mode, s.options) && Mute(s) ==> Mute(t))
    decreases |steps|
  {
    if steps != [] {
      StepKeepsSetting(s, steps[0]);
      RunKeepsSetting(Next(s, steps[0]).value, steps[1..]);
    }
  }

  /** An operator cancels the row before the decision is made. */
  lemma RowCancelledFirst(mode: Mode, options: seq<AcpOption>) returns (s: State)
    ensures Reachable(mode, options, s) && s.requester.Looking? && s.mode == mode && s.options == options
    ensures s.row.Closed? && s.row.resolution.status.Cancelled? && s.history == Some(s.row.resolution)
  {
    s := FreshRow(mode, options);
    s := OperatorActs(mode, options, s, OpStart(0, CancelRequest), 0);
    s := OperatorActs(mode, options, s, OpGet(0, false), 0);
    s := OperatorActs(mode, options, s, OpSettle(0, false), 0);
  }

  lemma DecisionComesTooLate(mode: Mode, options: seq<AcpOption>, s: State)
    requires Reachable(mode, options, s) && s.requester.Deciding? && s.requester.resp.Selected?
    requires s.row.Closed? && s.history.Some? && s.history.value.status.Cancelled?
    ensures !DecisionsAreFaithful(mode, options)
  {
    var t := DecideTooLate(mode, options, s);
    assert !MatchesRow(t, t.requester.resp);
  }

  /** Who grants a decision. */
  function Grantable(options: seq<AcpOption>): Option<(Decision, Store.Scope)> {
    if Offers(options, Store.Approve) then Some((Store.Approve, Store.AdapterTool))
    else if Offers(options, Store.Deny) then Some((Store.Deny, Store.AdapterTool))
    else None
  }

  lemma SelectableDecisionCanDisagree(mode: Mode, options: seq<AcpOption>)
    requires CanSelect(mode, options)
    ensures !DecisionsAreFaithful(mode, options)
  {
    var s := RowCancelledFirst(mode, options);
    s := RequesterActs(mode, options, s, Lookup(Grantable(options)));
    DecisionComesTooLate(mode, options, s);
  }

  /** Decisions are faithful in every interleaving exactly when there is nothing they could select. */
  lemma DecisionsAreFaithfulOnlyWhenMute(mode: Mode, options: seq<AcpOption>)
    ensures DecisionsAreFaithful(mode, options) <==> !CanSelect(mode, options)
  {
    if CanSelect(mode, options) {
      SelectableDecisionCanDisagree(mode, options);
    } else {
      forall t | Reachable(mode, options, t) ensures Mute(t) {
        var steps :| Run(Init(mode, options), steps) == Some(t);
        RunKeepsSetting(Init(mode, options), steps);
      }
    }
  }
}
