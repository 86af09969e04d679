/**
 The operator and everything around it as a state machine. A reconcile in flight is a program
 point `Pc`; one step performs the external call of that point (`Perform`) and moves on
 according to the response (`Next`). Environment steps may happen between any two calls, a
 restart may cut a reconcile short, and every call can fail, with or without taking effect.
 */
module Machine {
  import opened Types
  import opened Validation
  import opened Payload

  datatype World = World(
    now: Time,
    requests: map<string, Request>,
    names: map<nat, string>,                          // every uid ever given to a request, and its name
    bindings: map<BindingKey, Binding>,
    tickets: map<nat, Ticket>,
    workflow: map<(string, string), string>,          // (status, transition) to the next status
    openStatus: string,                               // the status of a newly created ticket
    users: map<string, string>,                       // e-mail to Jira account
    namespaces: map<string, map<string, string>>,     // cluster namespaces and their labels
    config: Option<Config>,                           // the cached configuration file
    regex: Option<Matcher>,                           // the compiled namespace pattern in memory
    webhooks: bool,                                   // ENABLE_WEBHOOKS == "true"
    queue: set<string>,                               // names waiting for a reconcile, back-off included
    pending: set<string>,                             // names with an undelivered event the predicate lets through
    timers: map<string, Time>)                        // delayed re-queues

  datatype Outcome = Ok | Err | Lost                  // Lost: the call took effect but its reply did not arrive

  datatype Result = Error | Done(delay: int)          // delay <= 0 asks for no re-queue

  /** What `updateStatus` is followed by. */
  datatype After = ThenReturn | ThenReturnSkipped | ThenAwaitStart | ThenCleanup

  datatype Pc =
    | Idle
    | Fetch(name: string)
    | LoadConfig(req: Request)
    // handleRejected
    | RejectComment(req: Request, cfg: Config)
    | RejectMove(req: Request, cfg: Config)
    // handleNewRequest
    | ScanFields(req: Request, cfg: Config)
    | FindReporter(req: Request, cfg: Config)
    | OpenTicket(req: Request, cfg: Config)
    | CheckLabels(req: Request, cfg: Config, key: nat)
    | CheckRegex(req: Request, cfg: Config, key: nat)
    | CheckStart(req: Request, cfg: Config, key: nat)
    | PreApproveComment(req: Request, cfg: Config, key: nat)
    // handlePreApproved
    | CheckTime(req: Request, cfg: Config)
    | CheckApproval(req: Request, cfg: Config)
    | Bind(req: Request, cfg: Config, index: nat)
    | CompleteComment(req: Request, cfg: Config)
    | CompleteMove(req: Request, cfg: Config)
    // handleCleanup, deleteJitRequest
    | CheckEnd(req: Request)
    | Delete(req: Request)
    // updateStatus, and the second clock read of a delay
    | Write(req: Request, status: Status, attempt: nat, after: After)
    | Arm(req: Request, target: Time)
    | Finished(name: string, result: Result)

  datatype Resp =
    | Success
    | Failure
    | Missing                              // not found
    | Conflict
    | Exists
    | Got(req: Request)
    | Loaded(cfg: Config)
    | LacksField(field: string)
    | Opened(key: nat)
    | Invalid(namespaces: seq<string>)
    | Approval(approved: bool)
    | Clock(at: Time)

  datatype EnvStep =
    | Tick(to: Time)
    | CreateRequest(name: string, uid: nat, spec: Spec)
    | EditSpec(name: string, spec: Spec)
    | DeleteRequest(name: string)
    | MoveTicket(key: nat, transition: string)        // a human transition in Jira
    | Collect(binding: BindingKey)                    // garbage collection
    | RemoveBinding(binding: BindingKey)
    | Deliver(name: string)                           // a pending watch event reaches the queue
    | Fire(name: string)                              // a timer elapses
    | Reconfigure(config: Option<Config>, regex: Option<Matcher>)
    | SetNamespace(namespace: string, labels: map<string, string>)
    | DropNamespace(namespace: string)
    | SetUsers(users: map<string, string>)

  /** The choices the outside world makes for a response: a fresh ticket key, a payload order, a missing field. */
  datatype Hint = Hint(key: nat, payload: Fields, field: string)

  datatype Step =
    | Env(e: EnvStep)
    | Pop(name: string)                               // the worker takes a name off the queue
    | Respond(outcome: Outcome, hint: Hint)           // the pending external call completes
    | Settle                                          // the worker acts on the reconcile result
    | Restart

  datatype State = State(world: World, pc: Pc)

  const MAX_ATTEMPTS := 5                             // retry.DefaultRetry

  // Watch events

  /** `jitRequestPredicate` on an update event that changed the resource version. */
  predicate JitRequestPredicate(prev: Request, next: Request) {
    if prev.status.phase == Rejected && next.status.phase == Rejected then false
    else next.status.phase == Rejected
  }

  function Enqueue(pending: set<string>, prev: Request, next: Request): set<string> {
    if prev.version != next.version && JitRequestPredicate(prev, next) then pending + {next.name} else pending
  }

  predicate Awake(w: World, name: string) {
    name in w.queue || name in w.pending || name in w.timers
  }

  // The environment

  predicate UidStored(w: World, uid: nat) {
    exists n | n in w.requests :: w.requests[n].uid == uid
  }

  /** Garbage: it has owners and none of them exists any more. */
  predicate Garbage(w: World, key: BindingKey) {
    && key in w.bindings && w.bindings[key].owners != []
    && forall o | o in w.bindings[key].owners :: o.kind == REQUEST_KIND && !UidStored(w, o.uid)
  }

  predicate EnvEnabled(w: World, e: EnvStep) {
    match e
    case Tick(to) => w.now <= to
    case CreateRequest(name, uid, spec) => name !in w.requests && uid !in w.names
    case EditSpec(name, spec) => name in w.requests
    case DeleteRequest(name) => name in w.requests
    case MoveTicket(key, transition) => key in w.tickets && (w.tickets[key].status, transition) in w.workflow
    case Collect(key) => Garbage(w, key)
    case RemoveBinding(key) => key in w.bindings
    case Deliver(name) => name in w.pending
    case Fire(name) => name in w.timers && w.timers[name] <= w.now
    case Reconfigure(_, _) => true
    case SetNamespace(_, _) => true
    case DropNamespace(ns) => ns in w.namespaces
    case SetUsers(_) => true
  }

  function StoreNew(w: World, name: string, uid: nat, spec: Spec): World {
    w.(requests := w.requests[name := Request(name, uid, 0, spec, NEW_STATUS)],
       names := w.names[uid := name],
       pending := w.pending + {name})
  }

  function Edited(w: World, name: string, spec: Spec): World
    requires name in w.requests
  {
    var prev := w.requests[name];
    var next := prev.(spec := spec, version := prev.version + 1);
    w.(requests := w.requests[name := next], pending := Enqueue(w.pending, prev, next))
  }

  function Erased(w: World, name: string): World {
    w.(requests := w.requests - {name}, pending := w.pending + {name})
  }

  function HumanMove(w: World, key: nat, transition: string): World
    requires key in w.tickets && (w.tickets[key].status, transition) in w.workflow
  {
    var t := w.tickets[key];
    w.(tickets := w.tickets[key := t.(status := w.workflow[(t.status, transition)])])
  }

  function Unbound(w: World, key: BindingKey): World {
    w.(bindings := w.bindings - {key})
  }

  function Delivered(w: World, name: string): World {
    w.(pending := w.pending - {name}, queue := w.queue + {name})
  }

  function Fired(w: World, name: string): World {
    w.(timers := w.timers - {name}, queue := w.queue + {name})
  }

  /** Deleting a namespace deletes the bindings in it. */
  function WithoutNamespace(w: World, ns: string): World {
    w.(namespaces := w.namespaces - {ns},
       bindings := map k | k in w.bindings && k.namespace != ns :: w.bindings[k])
  }

  function EnvApply(w: World, e: EnvStep): World
    requires EnvEnabled(w, e)
  {
    match e
    case Tick(to) => w.(now := to)
    case CreateRequest(name, uid, spec) => StoreNew(w, name, uid, spec)
    case EditSpec(name, spec) => Edited(w, name, spec)
    case DeleteRequest(name) => Erased(w, name)
    case MoveTicket(key, transition) => HumanMove(w, key, transition)
    case Collect(key) => Unbound(w, key)
    case RemoveBinding(key) => Unbound(w, key)
    case Deliver(name) => Delivered(w, name)
    case Fire(name) => Fired(w, name)
    case Reconfigure(config, regex) => w.(config := config, regex := regex)
    case SetNamespace(ns, labels) => w.(namespaces := w.namespaces[ns := labels])
    case DropNamespace(ns) => WithoutNamespace(w, ns)
    case SetUsers(users) => w.(users := users)
  }

  // External calls

  function Acked(outcome: Outcome): Resp {
    if outcome == Ok then Success else Failure
  }

  function PostComment(w: World, ticket: TicketRef, note: Comment, outcome: Outcome): (World, Resp) {
    if outcome == Err || !ticket.Issue? || ticket.key !in w.tickets then (w, Failure)
    else
      var t := w.tickets[ticket.key];
      (w.(tickets := w.tickets[ticket.key := t.(comments := t.comments + [note])]), Acked(outcome))
  }

  predicate CanMove(w: World, ticket: TicketRef, transition: string) {
    ticket.Issue? && ticket.key in w.tickets && (w.tickets[ticket.key].status, transition) in w.workflow
  }

  function MoveIssue(w: World, ticket: TicketRef, transition: string, outcome: Outcome): (World, Resp) {
    if outcome == Err || !CanMove(w, ticket, transition) then (w, Failure)
    else
      var t := w.tickets[ticket.key];
      var moved := t.(status := w.workflow[(t.status, transition)], moves := t.moves + [transition]);
      (w.(tickets := w.tickets[ticket.key := moved]), Acked(outcome))
  }

  function CreateIssue(w: World, owner: nat, hint: Hint, outcome: Outcome): (World, Resp) {
    if outcome == Err then (w, Failure)
    else
      (w.(tickets := w.tickets[hint.key := Ticket(owner, w.openStatus, hint.payload, [], [])]),
       if outcome == Ok then Opened(hint.key) else Failure)
  }

  /** One attempt of the status write: it carries the version of the copy it was read at. */
  function WriteStatus(w: World, req: Request, status: Status, outcome: Outcome): (World, Resp) {
    if outcome == Err then (w, Failure)
    else if req.name !in w.requests then (w, Missing)
    else
      var prev := w.requests[req.name];
      if prev.uid != req.uid || prev.version != req.version then (w, Conflict)
      else
        var next := prev.(status := status, version := prev.version + 1);
        (w.(requests := w.requests[req.name := next], pending := Enqueue(w.pending, prev, next)), Acked(outcome))
  }

  function BindingKeyOf(req: Request, namespace: string): BindingKey {
    BindingKey(namespace, BindingName(req.name))
  }

  function CreateBinding(w: World, req: Request, namespace: string, outcome: Outcome): (World, Resp) {
    var key := BindingKeyOf(req, namespace);
    if outcome == Err || namespace !in w.namespaces then (w, Failure)
    else if key in w.bindings then (w, if outcome == Ok then Exists else Failure)
    else (w.(bindings := w.bindings[key := BindingFor(req)]), Acked(outcome))
  }

  /** `Delete` carries no precondition: it removes whatever object has the name. */
  function RemoveRequest(w: World, name: string, outcome: Outcome): (World, Resp) {
    if outcome == Err || name !in w.requests then (w, Failure)
    else (Erased(w, name), Acked(outcome))
  }

  function ListLabels(w: World, spec: Spec, outcome: Outcome): Resp {
    if w.webhooks || spec.namespaceLabels == map[] then Success
    else if outcome != Ok then Invalid([])
    else
      var bad := Unmatched(spec.namespaces, Matching(w.namespaces, spec.namespaceLabels));
      if bad == [] then Success else Invalid(bad)
  }

  function ReadApproval(w: World, ticket: TicketRef, approved: string, outcome: Outcome): Resp {
    Approval(outcome == Ok && ticket.Issue? && ticket.key in w.tickets && w.tickets[ticket.key].status == approved)
  }

  function PreApprovalComment(req: Request, cfg: Config): Comment {
    PreApprovalNote(req.spec.namespaces, req.spec.reporter, req.spec.additionalEmails, cfg.additionalCommentText)
  }

  function Perform(w: World, pc: Pc, outcome: Outcome, hint: Hint): (World, Resp) {
    match pc
    case Idle => (w, Success)
    case Fetch(name) =>
      (w, if outcome != Ok then Failure else if name in w.requests then Got(w.requests[name]) else Missing)
    case LoadConfig(_) => (w, if outcome == Ok && w.config.Some? then Loaded(w.config.value) else Failure)
    case RejectComment(req, _) => PostComment(w, req.status.ticket, RejectedNote(req.status.message), outcome)
    case RejectMove(req, cfg) => MoveIssue(w, req.status.ticket, cfg.rejectedTransition, outcome)
    case ScanFields(req, cfg) => (w, if MissingFields(cfg, req.spec) == {} then Success else LacksField(hint.field))
    case FindReporter(req, _) => (w, if outcome == Ok && req.spec.reporter in w.users then Success else Failure)
    case OpenTicket(req, _) => CreateIssue(w, req.uid, hint, outcome)
    case CheckLabels(req, _, _) => (w, ListLabels(w, req.spec, outcome))
    case CheckRegex(req, _, _) =>
      (w, match FirstRefused(w.regex, req.spec.namespaces) case None => Success case Some(ns) => Invalid([ns]))
    case CheckStart(_, _, _) => (w, Clock(w.now))
    case PreApproveComment(req, cfg, key) => PostComment(w, Issue(key), PreApprovalComment(req, cfg), outcome)
    case CheckTime(_, _) => (w, Clock(w.now))
    case CheckApproval(req, cfg) => (w, ReadApproval(w, req.status.ticket, cfg.approvedStatus, outcome))
    case Bind(req, _, i) =>
      if i < |req.spec.namespaces| then CreateBinding(w, req, req.spec.namespaces[i], outcome) else (w, Success)
    case CompleteComment(req, _) => PostComment(w, req.status.ticket, CompletedNote, outcome)
    case CompleteMove(req, cfg) => MoveIssue(w, req.status.ticket, cfg.completedTransition, outcome)
    case CheckEnd(_) => (w, Clock(w.now))
    case Delete(req) => RemoveRequest(w, req.name, outcome)
    case Write(req, status, _, _) => WriteStatus(w, req, status, outcome)
    case Arm(_, _) => (w, Clock(w.now))
    case Finished(_, _) => (w, Success)
  }

  // The reconciler

  /** The status `updateStatus` sets: the times are copied from the spec each time. */
  function StatusFor(req: Request, phase: Phase, message: Message, ticket: TicketRef): Status {
    Status(phase, message, ticket, req.spec.startTime, req.spec.endTime)
  }

  function RejectWith(req: Request, message: Message, ticket: TicketRef): Pc {
    Write(req, StatusFor(req, Rejected, message, ticket), 0, ThenReturn)
  }

  /** `Reconcile`'s switch on the status. */
  function Dispatch(req: Request, cfg: Config): Pc {
    match req.status.phase
    case Rejected => if req.status.ticket == Skipped then Delete(req) else RejectComment(req, cfg)
    case New => ScanFields(req, cfg)
    case PreApproved => CheckTime(req, cfg)
    case Succeeded => CheckEnd(req)
    case Other(_) => CheckEnd(req)
  }

  function BindFrom(req: Request, cfg: Config, i: nat): Pc {
    if i < |req.spec.namespaces| then Bind(req, cfg, i) else CompleteComment(req, cfg)
  }

  /** The copy in memory after a successful write: the server's reply carries the new version. */
  function Written(req: Request, status: Status): Request {
    req.(status := status, version := req.version + 1)
  }

  function Resume(req: Request, after: After): Pc {
    match after
    case ThenReturn => Finished(req.name, Done(0))
    case ThenReturnSkipped => Finished(req.name, Done(0))
    case ThenAwaitStart => Arm(req, req.spec.startTime)
    case ThenCleanup => CheckEnd(req)
  }

  /** After `updateStatus` has failed; `createJiraTicket` swallows the error. */
  function GiveUp(req: Request, after: After): Pc {
    Finished(req.name, if after == ThenReturnSkipped then Done(0) else Error)
  }

  function Next(pc: Pc, r: Resp): Pc {
    match pc
    case Idle => Idle
    case Fetch(name) =>
      (match r
       case Got(req) => LoadConfig(req)
       case Missing => Finished(name, Done(0))
       case _ => Finished(name, Error))
    case LoadConfig(req) => if r.Loaded? then Dispatch(req, r.cfg) else Finished(req.name, Error)
    case RejectComment(req, cfg) => if r.Success? then RejectMove(req, cfg) else Finished(req.name, Error)
    case RejectMove(req, cfg) => if r.Success? then Delete(req) else Finished(req.name, Error)
    case ScanFields(req, cfg) =>
      if r.LacksField? then
        Write(req, StatusFor(req, Rejected, FieldMissing(r.field), Skipped), 0, ThenReturnSkipped)
      else FindReporter(req, cfg)
    case FindReporter(req, cfg) => if r.Success? then OpenTicket(req, cfg) else Finished(req.name, Error)
    case OpenTicket(req, cfg) =>
      if !r.Opened? then Finished(req.name, Error)
      else if req.spec.clusterRole !in cfg.allowedClusterRoles then
        RejectWith(req, RoleNotAllowed(req.spec.clusterRole), Issue(r.key))
      else CheckLabels(req, cfg, r.key)
    case CheckLabels(req, cfg, key) =>
      (match r
       case Success => CheckRegex(req, cfg, key)
       case Invalid(bad) => RejectWith(req, NamespacesNotValidated(bad), Issue(key))
       case _ => RejectWith(req, NamespacesNotValidated([]), Issue(key)))
    case CheckRegex(req, cfg, key) =>
      if r.Invalid? then RejectWith(req, NamespacesNotValidated(r.namespaces), Issue(key))
      else CheckStart(req, cfg, key)
    case CheckStart(req, cfg, key) =>
      if r.Clock? && req.spec.startTime > r.at then PreApproveComment(req, cfg, key)
      else RejectWith(req, StartNotInFuture(req.spec.startTime), Issue(key))
    case PreApproveComment(req, cfg, key) =>
      if r.Success? then Write(req, StatusFor(req, PreApproved, AwaitingApproval, Issue(key)), 0, ThenAwaitStart)
      else Finished(req.name, Error)
    case CheckTime(req, cfg) =>
      if r.Clock? && req.status.startTime > r.at then Arm(req, req.status.startTime) else CheckApproval(req, cfg)
    case CheckApproval(req, cfg) =>
      if r.Approval? && r.approved then BindFrom(req, cfg, 0) else RejectWith(req, NotApproved, req.status.ticket)
    case Bind(req, cfg, i) =>
      if r.Success? || r.Exists? then BindFrom(req, cfg, i + 1) else Finished(req.name, Error)
    case CompleteComment(req, cfg) => if r.Success? then CompleteMove(req, cfg) else Finished(req.name, Error)
    case CompleteMove(req, cfg) =>
      if r.Success? then Write(req, StatusFor(req, Succeeded, AccessGranted, req.status.ticket), 0, ThenCleanup)
      else Finished(req.name, Error)
    case CheckEnd(req) =>
      if r.Clock? && req.status.endTime > r.at then Arm(req, req.status.endTime) else Delete(req)
    case Delete(req) => Finished(req.name, if r.Success? then Done(0) else Error)
    case Write(req, status, attempt, after) =>
      (match r
       case Success => Resume(Written(req, status), after)
       case Conflict =>
         if attempt + 1 < MAX_ATTEMPTS then Write(req, status, attempt + 1, after) else GiveUp(req, after)
       case _ => GiveUp(req, after))
    case Arm(req, target) => Finished(req.name, Done(if r.Clock? then target - r.at else 0))
    case Finished(_, _) => pc
  }

  // Steps and runs

  predicate InCall(pc: Pc) {
    !pc.Idle? && !pc.Finished?
  }

  /** The name of the request a reconcile in flight works on. */
  function PcName(pc: Pc): Option<string> {
    match pc
    case Idle => None
    case Fetch(name) => Some(name)
    case Finished(name, _) => Some(name)
    case _ => Some(pc.req.name)
  }

  ghost predicate HintOk(w: World, pc: Pc, hint: Hint) {
    && (pc.OpenTicket? ==> hint.key !in w.tickets && PayloadOk(pc.cfg, pc.req.spec, hint.payload))
    && (pc.ScanFields? && MissingFields(pc.cfg, pc.req.spec) != {} ==> hint.field in MissingFields(pc.cfg, pc.req.spec))
  }

  ghost predicate Enabled(s: State, step: Step) {
    match step
    case Env(e) => EnvEnabled(s.world, e)
    case Pop(name) => s.pc == Idle && name in s.world.queue
    case Respond(_, hint) => InCall(s.pc) && HintOk(s.world, s.pc, hint)
    case Settle => s.pc.Finished?
    case Restart => true
  }

  /** `AddAfter` keeps the earlier of two timers for the same name. */
  function AddTimer(timers: map<string, Time>, name: string, at: Time): map<string, Time> {
    if name in timers && timers[name] <= at then timers else timers[name := at]
  }

  function SettleWorld(w: World, name: string, result: Result): World {
    match result
    case Error => w.(queue := w.queue + {name})
    case Done(d) => if d > 0 then w.(timers := AddTimer(w.timers, name, w.now + d)) else w
  }

  /** A restart loses the work queue and the compiled pattern; the first list re-announces every stored request. */
  function RestartWorld(w: World): World {
    w.(queue := {}, timers := map[], pending := w.requests.Keys, regex := None)
  }

  function Answer(s: State, outcome: Outcome, hint: Hint): State {
    var (w, r) := Perform(s.world, s.pc, outcome, hint);
    State(w, Next(s.pc, r))
  }

  ghost function Apply(s: State, step: Step): State {
    if !Enabled(s, step) then s
    else match step
      case Env(e) => s.(world := EnvApply(s.world, e))
      case Pop(name) => State(s.world.(queue := s.world.queue - {name}), Fetch(name))
      case Respond(outcome, hint) => Answer(s, outcome, hint)
      case Settle => State(SettleWorld(s.world, s.pc.name, s.pc.result), Idle)
      case Restart => State(RestartWorld(s.world), Idle)
  }

  ghost function Run(s: State, steps: seq<Step>): State {
    if steps == [] then s
    else Apply(Run(s, steps[..|steps| - 1]), steps[|steps| - 1])
  }

  lemma RunSnoc(s: State, steps: seq<Step>, step: Step)
    ensures Run(s, steps + [step]) == Apply(Run(s, steps), step)
  {
    assert (steps + [step])[..|steps|] == steps;
  }

  lemma RunConcat(s: State, first: seq<Step>, second: seq<Step>)
    ensures Run(s, first + second) == Run(Run(s, first), second)
  {
    if second == [] {
      assert first + second == first;
    } else {
      var n := |second| - 1;
      RunConcat(s, first, second[..n]);
      assert (first + second)[..|first| + n] == first + second[..n];
    }
  }

  /** Before the operator has ever run: no requests, no tickets, no bindings of its own, nothing queued. */
  ghost predicate Init(s: State) {
    && s.pc == Idle
    && s.world.requests == map[] && s.world.names == map[] && s.world.tickets == map[]
    && s.world.queue == {} && s.world.pending == {} && s.world.timers == map[]
    && forall k | k in s.world.bindings :: forall o | o in s.world.bindings[k].owners :: o.kind != REQUEST_KIND
  }
}
