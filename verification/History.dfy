/**
 The record of what a run did: one entry for each observation or effect of the operator.
 It is computed from the steps and is not part of the state, so no step can depend on it.
 */
module History {
  import opened Types
  import opened Validation
  import opened Machine

  datatype Entry =
    | Fetched(req: Request)                           // a reconcile read its request
    | ReadConfig(cfg: Config)
    | ReadClock(at: Time)
    | TicketRead(ticket: TicketRef, ticketStatus: string)
    | LabelsRead(webhooks: bool, namespaces: map<string, map<string, string>>)   // the label check passed on these
    | PatternRead(regex: Option<Matcher>)             // the pattern check passed on this
    | TicketOpened(uid: nat, key: nat, fields: Fields)
    | Transitioned(key: nat, transition: string, completing: bool)
    | Granted(req: Request, namespace: string)        // a role binding was created
    | Updated(req: Request, status: Status)           // a status write took effect
    | Removed(req: Request, victim: Request)          // a delete took effect
    | Late(name: string)                              // a delay was computed when its target had passed
    | Swallowed(name: string)                         // a status write failed and the error was dropped
    | Failed(pc: Pc)                                  // the reconcile ended in error, or was cut short, at this call

  type Trace = seq<Entry>

  predicate WriteTakesEffect(w: World, req: Request, outcome: Outcome) {
    && outcome != Err && req.name in w.requests
    && w.requests[req.name].uid == req.uid && w.requests[req.name].version == req.version
  }

  predicate BindTakesEffect(w: World, req: Request, i: nat, outcome: Outcome) {
    && i < |req.spec.namespaces| && outcome != Err
    && req.spec.namespaces[i] in w.namespaces
    && BindingKeyOf(req, req.spec.namespaces[i]) !in w.bindings
  }

  function EntryIf(c: bool, e: Entry): Trace {
    if c then [e] else []
  }

  function Effect(w: World, pc: Pc, outcome: Outcome, hint: Hint): Trace {
    match pc
    case Fetch(name) => if outcome == Ok && name in w.requests then [Fetched(w.requests[name])] else []
    case LoadConfig(_) => if outcome == Ok && w.config.Some? then [ReadConfig(w.config.value)] else []
    case CheckTime(_, _) => [ReadClock(w.now)]
    case CheckApproval(req, cfg) =>
      var ticket := req.status.ticket;
      if outcome == Ok && ticket.Issue? && ticket.key in w.tickets
      then [TicketRead(ticket, w.tickets[ticket.key].status)] else []
    case CheckLabels(req, _, _) =>
      EntryIf(ListLabels(w, req.spec, outcome).Success?, LabelsRead(w.webhooks, w.namespaces))
    case CheckRegex(req, _, _) => EntryIf(RegexAccepts(w.regex, req.spec.namespaces), PatternRead(w.regex))
    case OpenTicket(req, _) => EntryIf(outcome != Err, TicketOpened(req.uid, hint.key, hint.payload))
    case RejectMove(req, cfg) =>
      if outcome != Err && CanMove(w, req.status.ticket, cfg.rejectedTransition)
      then [Transitioned(req.status.ticket.key, cfg.rejectedTransition, false)] else []
    case CompleteMove(req, cfg) =>
      if outcome != Err && CanMove(w, req.status.ticket, cfg.completedTransition)
      then [Transitioned(req.status.ticket.key, cfg.completedTransition, true)] else []
    case Bind(req, _, i) => if BindTakesEffect(w, req, i, outcome) then [Granted(req, req.spec.namespaces[i])] else []
    case Write(req, status, _, _) => EntryIf(WriteTakesEffect(w, req, outcome), Updated(req, status))
    case Delete(req) => if outcome != Err && req.name in w.requests then [Removed(req, w.requests[req.name])] else []
    case Arm(req, target) => EntryIf(target <= w.now, Late(req.name))
    case _ => []
  }

  /** How the reconcile ends with this response, if it ends badly. */
  function Ending(w: World, pc: Pc, outcome: Outcome, r: Resp): Trace {
    var next := Next(pc, r);
    if next.Finished? && next.result.Error? then [Failed(pc)]
    else if pc.Write? && pc.after.ThenReturnSkipped? && next.Finished? && !WriteTakesEffect(w, pc.req, outcome)
    then [Swallowed(pc.req.name)]
    else []
  }

  function AnswerEntries(s: State, outcome: Outcome, hint: Hint): Trace {
    Effect(s.world, s.pc, outcome, hint) + Ending(s.world, s.pc, outcome, Perform(s.world, s.pc, outcome, hint).1)
  }

  ghost function Entries(s: State, step: Step): Trace {
    if !Enabled(s, step) then []
    else match step
      case Respond(outcome, hint) => AnswerEntries(s, outcome, hint)
      case Restart => EntryIf(InCall(s.pc), Failed(s.pc))
      case _ => []
  }

  ghost function TraceOf(s: State, steps: seq<Step>): Trace {
    if steps == [] then []
    else
      var n := |steps| - 1;
      TraceOf(s, steps[..n]) + Entries(Run(s, steps[..n]), steps[n])
  }

  /** The uid a reconcile in flight works for. */
  predicate PcFor(pc: Pc, uid: nat) {
    !pc.Idle? && !pc.Fetch? && !pc.Finished? && pc.req.uid == uid
  }
}
