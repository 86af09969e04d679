/**
 What a reconcile achieves when nothing goes wrong: every call succeeds and, while it runs, the
 world changes only by the passing of time. Its result is determined by the request, the
 configuration and the clock, and it brings the request closer to deletion unless it is waiting
 for a point in time or blocked in one of a few exact ways.
 */
module Progress {
  import opened Types
  import opened Validation
  import opened Payload
  import opened Machine
  import opened Invariants
  import opened Bindings
  import opened Grants
  import opened Expiry
  import opened Updates

  /** Every call succeeds and only the clock moves. */
  predicate Calm(steps: seq<Step>) {
    forall i | 0 <= i < |steps| :: (steps[i].Respond? && steps[i].outcome == Ok) || (steps[i].Env? && steps[i].e.Tick?)
  }

  // What is true of a request and its surroundings before the reconcile

  predicate LabelsPass(w: World, spec: Spec) {
    w.webhooks || LabelsAccept(w.namespaces, spec)
  }

  predicate ChecksPass(w: World, spec: Spec, cfg: Config) {
    spec.clusterRole in cfg.allowedClusterRoles && LabelsPass(w, spec) && RegexAccepts(w.regex, spec.namespaces)
  }

  predicate Approved(w: World, ticket: TicketRef, cfg: Config) {
    ticket.Issue? && ticket.key in w.tickets && w.tickets[ticket.key].status == cfg.approvedStatus
  }

  predicate Bindable(w: World, spec: Spec) {
    forall ns | ns in spec.namespaces :: ns in w.namespaces
  }

  predicate Due(r: Request, now: Time) {
    Deadline(r).None? || Deadline(r).value <= now
  }

  /** The ways a reconcile without any fault still fails and changes no record. */
  predicate Blocked(w: World, r: Request, cfg: Config) {
    match r.status.phase
    case New => MissingFields(cfg, r.spec) == {} && r.spec.reporter !in w.users
    case PreApproved =>
      && Approved(w, r.status.ticket, cfg)
      && !(Bindable(w, r.spec) && CanMove(w, r.status.ticket, cfg.completedTransition))
    case Rejected => !r.status.ticket.Skipped? && !CanMove(w, r.status.ticket, cfg.rejectedTransition)
    case _ => false
  }

  /** How many of the namespaces, from the first on, exist. */
  function BindableUpTo(w: World, namespaces: seq<string>): (k: nat)
    ensures k <= |namespaces|
    ensures forall j | 0 <= j < k :: namespaces[j] in w.namespaces
    ensures k < |namespaces| ==> namespaces[k] !in w.namespaces
  {
    if namespaces == [] || namespaces[0] !in w.namespaces then 0
    else 1 + BindableUpTo(w, namespaces[1..])
  }

  // Along the way

  ghost predicate Frame(w0: World, w: World) {
    && w0.now <= w.now && w.config == w0.config && w.workflow == w0.workflow && w.users == w0.users
    && w.namespaces == w0.namespaces && w.regex == w0.regex && w.webhooks == w0.webhooks
    && w.openStatus == w0.openStatus && w.queue == w0.queue && w.timers == w0.timers
  }

  predicate OnlyBindings(w0: World, w: World) {
    w.requests == w0.requests && w.tickets == w0.tickets
  }

  predicate Untouched(w0: World, w: World) {
    w.requests == w0.requests && w.bindings == w0.bindings
  }

  predicate Same(w0: World, w: World) {
    Untouched(w0, w) && w.tickets == w0.tickets
  }

  // Tickets

  /** Only this ticket may have changed, and keeps its owner and fields. */
  predicate OnlyTicket(w0: World, w: World, ticket: TicketRef) {
    && ticket.Issue? && ticket.key in w0.tickets && ticket.key in w.tickets
    && w.tickets == w0.tickets[ticket.key := w.tickets[ticket.key]]
    && w.tickets[ticket.key].owner == w0.tickets[ticket.key].owner
    && w.tickets[ticket.key].fields == w0.tickets[ticket.key].fields
  }

  /** At most a comment was added. */
  predicate Commented(w0: World, w: World, ticket: TicketRef) {
    && OnlyTicket(w0, w, ticket)
    && w.tickets[ticket.key].status == w0.tickets[ticket.key].status
    && w.tickets[ticket.key].moves == w0.tickets[ticket.key].moves
  }

  /** The ticket made exactly this transition. */
  predicate Transited(w0: World, w: World, ticket: TicketRef, transition: string) {
    && OnlyTicket(w0, w, ticket) && CanMove(w0, ticket, transition)
    && w.tickets[ticket.key].status == w0.workflow[(w0.tickets[ticket.key].status, transition)]
    && w.tickets[ticket.key].moves == w0.tickets[ticket.key].moves + [transition]
  }

  /** Exactly one ticket was opened, for this request, with its fields. */
  ghost predicate Opens(w0: World, w: World, r: Request, cfg: Config, key: nat) {
    && key !in w0.tickets && key in w.tickets
    && w.tickets == w0.tickets[key := w.tickets[key]]
    && w.tickets[key].owner == r.uid && w.tickets[key].status == w0.openStatus && w.tickets[key].moves == []
    && PayloadOk(cfg, r.spec, w.tickets[key].fields)
  }

  ghost predicate OpensRecorded(w0: World, w: World, r: Request, cfg: Config) {
    && r.name in w.requests && w.requests[r.name].status.ticket.Issue?
    && Opens(w0, w, r, cfg, w.requests[r.name].status.ticket.key)
  }

  /** A skipped request has no ticket; any other one was moved to rejected. */
  predicate Closed(w0: World, w: World, r: Request, cfg: Config) {
    if r.status.ticket.Skipped? then w.tickets == w0.tickets
    else Transited(w0, w, r.status.ticket, cfg.rejectedTransition)
  }

  // Records

  /** Only this record has changed, by one status write. */
  predicate Became(w0: World, w: World, r: Request, phase: Phase, message: Message, ticket: TicketRef) {
    w.requests == w0.requests[r.name := Request(r.name, r.uid, r.version + 1, r.spec,
                                                Status(phase, message, ticket, r.spec.startTime, r.spec.endTime))]
  }

  /** The same, with the ticket that is recorded now. */
  predicate Settles(w0: World, w: World, r: Request, phase: Phase, message: Message) {
    r.name in w.requests && Became(w0, w, r, phase, message, w.requests[r.name].status.ticket)
  }

  /** Rejected for one of the fields it does not give. */
  predicate LacksSomeField(w0: World, w: World, r: Request, cfg: Config) {
    && r.name in w.requests
    && w.requests[r.name].status.message.FieldMissing?
    && w.requests[r.name].status.message.field in MissingFields(cfg, r.spec)
    && Became(w0, w, r, Rejected, w.requests[r.name].status.message, Skipped)
  }

  /** Why a request with all its fields is refused: the first check that fails, in the controller's order. */
  function RefusalOf(w: World, spec: Spec, cfg: Config): Message {
    if spec.clusterRole !in cfg.allowedClusterRoles then RoleNotAllowed(spec.clusterRole)
    else if !LabelsPass(w, spec) then
      NamespacesNotValidated(Unmatched(spec.namespaces, Matching(w.namespaces, spec.namespaceLabels)))
    else match FirstRefused(w.regex, spec.namespaces)
      case Some(ns) => NamespacesNotValidated([ns])
      case None => StartNotInFuture(spec.startTime)
  }

  predicate Gone(w0: World, w: World, r: Request) {
    w.requests == w0.requests - {r.name}
  }

  predicate AllBound(w0: World, w: World, r: Request) {
    w.bindings == Created(w0.bindings, r, r.spec.namespaces)
  }

  // Results

  predicate Waits(w0: World, w: World, target: Time, res: Result) {
    w0.now < target && res.Done? && target - w.now <= res.delay <= target - w0.now
  }

  ghost predicate NewOutcome(w0: World, r: Request, cfg: Config, w: World, res: Result) {
    && w.bindings == w0.bindings
    && if MissingFields(cfg, r.spec) != {} then
         LacksSomeField(w0, w, r, cfg) && w.tickets == w0.tickets && res == Done(0)
       else if r.spec.reporter !in w0.users then Same(w0, w) && res == Error
       else
         && OpensRecorded(w0, w, r, cfg)
         && if !ChecksPass(w0, r.spec, cfg) then
              Settles(w0, w, r, Rejected, RefusalOf(w0, r.spec, cfg)) && res == Done(0)
            else
              || (Settles(w0, w, r, PreApproved, AwaitingApproval) && Waits(w0, w, r.spec.startTime, res))
              || (&& Settles(w0, w, r, Rejected, StartNotInFuture(r.spec.startTime))
                  && r.spec.startTime <= w.now && res == Done(0))
  }

  predicate EndOutcome(w0: World, w: World, r: Request, endTime: Time, kept: bool, res: Result) {
    || (kept && Waits(w0, w, endTime, res))
    || (Gone(w0, w, r) && endTime <= w.now && res == Done(0))
  }

  /** Blocked: the bindings up to the first missing namespace are there, and nothing else has changed. */
  predicate StuckGranting(w0: World, r: Request, w: World) {
    && w.requests == w0.requests && Commented(w0, w, r.status.ticket)
    && w.bindings == Created(w0.bindings, r, r.spec.namespaces[..BindableUpTo(w0, r.spec.namespaces)])
  }

  predicate PreApprovedOutcome(w0: World, r: Request, cfg: Config, w: World, res: Result) {
    || (Same(w0, w) && Waits(w0, w, r.status.startTime, res))
    || (&& r.status.startTime <= w.now
        && if !Approved(w0, r.status.ticket, cfg) then
             && Became(w0, w, r, Rejected, NotApproved, r.status.ticket)
             && w.bindings == w0.bindings && w.tickets == w0.tickets
             && res == Done(0)
           else if Blocked(w0, r, cfg) then StuckGranting(w0, r, w) && res == Error
           else
             && AllBound(w0, w, r) && Transited(w0, w, r.status.ticket, cfg.completedTransition)
             && EndOutcome(w0, w, r, r.spec.endTime, Became(w0, w, r, Succeeded, AccessGranted, r.status.ticket), res))
  }

  predicate RejectedOutcome(w0: World, r: Request, cfg: Config, w: World, res: Result) {
    && w.bindings == w0.bindings
    && if Blocked(w0, r, cfg) then w.requests == w0.requests && Commented(w0, w, r.status.ticket) && res == Error
       else Gone(w0, w, r) && Closed(w0, w, r, cfg) && res == Done(0)
  }

  predicate SucceededOutcome(w0: World, r: Request, w: World, res: Result) {
    && w.bindings == w0.bindings && w.tickets == w0.tickets
    && EndOutcome(w0, w, r, r.status.endTime, w.requests == w0.requests, res)
  }

  /** What an undisturbed reconcile does to requests, tickets and bindings, and its result. */
  ghost predicate Expected(w0: World, r: Request, cfg: Config, w: World, res: Result) {
    match r.status.phase
    case New => NewOutcome(w0, r, cfg, w, res)
    case PreApproved => PreApprovedOutcome(w0, r, cfg, w, res)
    case Succeeded => SucceededOutcome(w0, r, w, res)
    case Rejected => RejectedOutcome(w0, r, cfg, w, res)
    case Other(_) => true
  }

  /** The facts gathered by the time a program point is reached. */
  ghost predicate Along(w0: World, r: Request, cfg: Config, w: World, pc: Pc) {
    match pc
    case Idle => false
    case Fetch(name) => name == r.name && Same(w0, w)
    case LoadConfig(req) => req == r && Same(w0, w)
    case RejectComment(req, c) => req == r && c == cfg && Same(w0, w)
    case RejectMove(req, c) => req == r && c == cfg && Untouched(w0, w) && Commented(w0, w, r.status.ticket)
    case ScanFields(req, c) => req == r && c == cfg && Same(w0, w)
    case FindReporter(req, c) => req == r && c == cfg && Same(w0, w)
    case OpenTicket(req, c) => req == r && c == cfg && Same(w0, w) && r.spec.reporter in w0.users
    case CheckLabels(req, c, key) =>
      && req == r && c == cfg && Untouched(w0, w) && Opens(w0, w, r, cfg, key) && r.spec.reporter in w0.users
      && r.spec.clusterRole in cfg.allowedClusterRoles
    case CheckRegex(req, c, key) =>
      && req == r && c == cfg && Untouched(w0, w) && Opens(w0, w, r, cfg, key) && r.spec.reporter in w0.users
      && r.spec.clusterRole in cfg.allowedClusterRoles && LabelsPass(w0, r.spec)
    case CheckStart(req, c, key) =>
      && req == r && c == cfg && Untouched(w0, w) && Opens(w0, w, r, cfg, key) && r.spec.reporter in w0.users
      && ChecksPass(w0, r.spec, cfg) && MissingFields(cfg, r.spec) == {}
    case PreApproveComment(req, c, key) =>
      && req == r && c == cfg && Untouched(w0, w) && Opens(w0, w, r, cfg, key) && r.spec.reporter in w0.users
      && ChecksPass(w0, r.spec, cfg) && MissingFields(cfg, r.spec) == {} && w0.now < r.spec.startTime
    case CheckTime(req, c) => req == r && c == cfg && Same(w0, w)
    case CheckApproval(req, c) => req == r && c == cfg && Same(w0, w)
    case Bind(req, c, i) =>
      && req == r && c == cfg && OnlyBindings(w0, w) && Approved(w0, r.status.ticket, cfg)
      && i < |r.spec.namespaces|
      && (forall j | 0 <= j < i :: r.spec.namespaces[j] in w0.namespaces)
      && w.bindings == Created(w0.bindings, r, r.spec.namespaces[..i])
    case CompleteComment(req, c) =>
      && req == r && c == cfg && OnlyBindings(w0, w) && Approved(w0, r.status.ticket, cfg)
      && Bindable(w0, r.spec) && AllBound(w0, w, r)
    case CompleteMove(req, c) =>
      && req == r && c == cfg && w.requests == w0.requests && Commented(w0, w, r.status.ticket)
      && Approved(w0, r.status.ticket, cfg) && Bindable(w0, r.spec) && AllBound(w0, w, r)
    case Write(req, status, _, after) =>
      req == r && w.requests == w0.requests && WriteReason(w0, r, cfg, w, status, after)
    case CheckEnd(req) => GrantedOrEnding(w0, r, cfg, w, req)
    case Arm(req, target) =>
      && w0.now < target
      && (|| (req == r && Same(w0, w) && Deadline(r) == Some(target))
          || (JustPreApproved(w0, r, cfg, w, req) && target == r.spec.startTime)
          || (JustGranted(w0, r, cfg, w, req) && target == r.spec.endTime))
    case Delete(req) =>
      || (&& req == r && r.status.phase == Rejected && Untouched(w0, w) && !Blocked(w0, r, cfg)
          && Closed(w0, w, r, cfg))
      || (GrantedOrEnding(w0, r, cfg, w, req) && req.status.endTime <= w.now)
    case Finished(name, res) => name == r.name && Expected(w0, r, cfg, w, res)
  }

  /** Pre-Approved has just been written. */
  ghost predicate JustPreApproved(w0: World, r: Request, cfg: Config, w: World, req: Request) {
    && r.status.phase == New && MissingFields(cfg, r.spec) == {} && r.spec.reporter in w0.users
    && ChecksPass(w0, r.spec, cfg) && w.bindings == w0.bindings && OpensRecorded(w0, w, r, cfg)
    && Settles(w0, w, r, PreApproved, AwaitingApproval) && req == w.requests[r.name]
  }

  /** Succeeded has just been written, with all bindings in place and the ticket completed. */
  predicate JustGranted(w0: World, r: Request, cfg: Config, w: World, req: Request) {
    && r.status.phase == PreApproved && r.status.startTime <= w.now
    && Approved(w0, r.status.ticket, cfg) && !Blocked(w0, r, cfg)
    && Became(w0, w, r, Succeeded, AccessGranted, r.status.ticket) && req == w.requests[r.name]
    && AllBound(w0, w, r) && Transited(w0, w, r.status.ticket, cfg.completedTransition)
  }

  predicate GrantedOrEnding(w0: World, r: Request, cfg: Config, w: World, req: Request) {
    || (r.status.phase == Succeeded && req == r && Same(w0, w))
    || JustGranted(w0, r, cfg, w, req)
  }

  /** Why a status is about to be written. */
  ghost predicate WriteReason(w0: World, r: Request, cfg: Config, w: World, status: Status, after: After) {
    match after
    case ThenReturnSkipped =>
      && r.status.phase == New && status.message.FieldMissing? && status.message.field in MissingFields(cfg, r.spec)
      && Same(w0, w)
    case ThenReturn =>
      || (&& r.status.phase == New && MissingFields(cfg, r.spec) == {} && r.spec.reporter in w0.users
          && (!ChecksPass(w0, r.spec, cfg) || r.spec.startTime <= w.now)
          && status.message == RefusalOf(w0, r.spec, cfg) && w.bindings == w0.bindings
          && status.ticket.Issue? && Opens(w0, w, r, cfg, status.ticket.key))
      || (&& r.status.phase == PreApproved && r.status.startTime <= w.now && !Approved(w0, r.status.ticket, cfg)
          && Same(w0, w) && status.message == NotApproved)
    case ThenAwaitStart =>
      && r.status.phase == New && MissingFields(cfg, r.spec) == {} && r.spec.reporter in w0.users
      && ChecksPass(w0, r.spec, cfg) && w0.now < r.spec.startTime && status.message == AwaitingApproval
      && w.bindings == w0.bindings && status.ticket.Issue? && Opens(w0, w, r, cfg, status.ticket.key)
    case ThenCleanup =>
      && r.status.phase == PreApproved && r.status.startTime <= w.now && Approved(w0, r.status.ticket, cfg)
      && !Blocked(w0, r, cfg) && AllBound(w0, w, r) && status.message == AccessGranted
      && Transited(w0, w, r.status.ticket, cfg.completedTransition)
  }

  lemma UnmatchedEmpty(namespaces: seq<string>, matching: set<string>)
    ensures Unmatched(namespaces, matching) == [] <==> forall ns | ns in namespaces :: ns in matching
  {
    if Unmatched(namespaces, matching) != [] {
      assert Unmatched(namespaces, matching)[0] in Unmatched(namespaces, matching);
    }
  }

  lemma CallKeepsFrame(w: World, pc: Pc, outcome: Outcome, hint: Hint)
    ensures Frame(w, Perform(w, pc, outcome, hint).0)
  {
    if !ChangesWorld(pc) {
      ReadsKeepWorld(w, pc, outcome, hint);
    } else if pc.Write? {
      WriteKeepsFrame(w, pc.req, pc.status, outcome);
    } else if pc.RejectMove? {
      MoveKeepsFrame(w, pc.req.status.ticket, pc.cfg.rejectedTransition, outcome);
    } else if pc.CompleteMove? {
      MoveKeepsFrame(w, pc.req.status.ticket, pc.cfg.completedTransition, outcome);
    } else {
      OtherChangesKeepFrame(w, pc, outcome, hint);
    }
  }

  lemma OtherChangesKeepFrame(w: World, pc: Pc, outcome: Outcome, hint: Hint)
    requires pc.Bind? || pc.OpenTicket? || pc.Delete?
          || pc.RejectComment? || pc.CompleteComment? || pc.PreApproveComment?
    ensures Frame(w, Perform(w, pc, outcome, hint).0)
  {
    var next := Perform(w, pc, outcome, hint).0;
    if pc.Bind? {
      assert next == w.(bindings := next.bindings);
    } else if pc.Delete? {
      assert next == w.(requests := next.requests, pending := next.pending);
    } else {
      TicketCallKeepsFrame(w, pc, outcome, hint);
    }
  }

  lemma TicketCallKeepsFrame(w: World, pc: Pc, outcome: Outcome, hint: Hint)
    requires pc.OpenTicket? || pc.RejectComment? || pc.CompleteComment? || pc.PreApproveComment?
    ensures Frame(w, Perform(w, pc, outcome, hint).0)
  {
    var next := Perform(w, pc, outcome, hint).0;
    assert next == w.(tickets := next.tickets);
  }

  lemma MoveKeepsFrame(w: World, ticket: TicketRef, transition: string, outcome: Outcome)
    ensures Frame(w, MoveIssue(w, ticket, transition, outcome).0)
  {
    var next := MoveIssue(w, ticket, transition, outcome).0;
    assert next == w.(tickets := next.tickets);
  }

  lemma WriteKeepsFrame(w: World, req: Request, status: Status, outcome: Outcome)
    ensures Frame(w, WriteStatus(w, req, status, outcome).0)
  {
    var next := WriteStatus(w, req, status, outcome).0;
    assert next == w.(requests := next.requests, pending := next.pending);
  }

  lemma FrameTrans(a: World, b: World, c: World)
    requires Frame(a, b) && Frame(b, c)
    ensures Frame(a, c)
  {
  }

  lemma TickKeepsNewPath(w0: World, r: Request, cfg: Config, w: World, pc: Pc, to: Time)
    requires NewPath(pc) && Along(w0, r, cfg, w, pc) && w.now <= to
    ensures Along(w0, r, cfg, w.(now := to), pc)
  {
  }

  lemma TickKeepsWrite(w0: World, r: Request, cfg: Config, w: World, pc: Pc, to: Time)
    requires pc.Write? && Along(w0, r, cfg, w, pc) && w.now <= to
    ensures Along(w0, r, cfg, w.(now := to), pc)
  {
  }

  lemma TickKeepsNewOutcome(w0: World, r: Request, cfg: Config, w: World, res: Result, to: Time)
    requires NewOutcome(w0, r, cfg, w, res) && w.now <= to
    ensures NewOutcome(w0, r, cfg, w.(now := to), res)
  {
  }

  lemma TickKeepsPreApprovedOutcome(w0: World, r: Request, cfg: Config, w: World, res: Result, to: Time)
    requires PreApprovedOutcome(w0, r, cfg, w, res) && w.now <= to
    ensures PreApprovedOutcome(w0, r, cfg, w.(now := to), res)
  {
  }

  lemma TickKeepsLateOutcome(w0: World, r: Request, cfg: Config, w: World, res: Result, to: Time)
    requires w.now <= to
    ensures RejectedOutcome(w0, r, cfg, w, res) ==> RejectedOutcome(w0, r, cfg, w.(now := to), res)
    ensures SucceededOutcome(w0, r, w, res) ==> SucceededOutcome(w0, r, w.(now := to), res)
  {
  }

  lemma TickKeepsExpected(w0: World, r: Request, cfg: Config, w: World, res: Result, to: Time)
    requires Expected(w0, r, cfg, w, res) && w.now <= to
    ensures Expected(w0, r, cfg, w.(now := to), res)
  {
    match r.status.phase
    case New => TickKeepsNewOutcome(w0, r, cfg, w, res, to);
    case PreApproved => TickKeepsPreApprovedOutcome(w0, r, cfg, w, res, to);
    case _ => TickKeepsLateOutcome(w0, r, cfg, w, res, to);
  }

  lemma TickKeepsAlong(w0: World, r: Request, cfg: Config, w: World, pc: Pc, to: Time)
    requires Along(w0, r, cfg, w, pc) && w.now <= to
    ensures Along(w0, r, cfg, w.(now := to), pc)
  {
    if NewPath(pc) {
      TickKeepsNewPath(w0, r, cfg, w, pc, to);
    } else if pc.Write? {
      TickKeepsWrite(w0, r, cfg, w, pc, to);
    } else if pc.Finished? {
      TickKeepsExpected(w0, r, cfg, w, pc.result, to);
    }
  }

  // One response

  /** The request as stored, and the configuration as cached, when the reconcile begins. */
  predicate Start(w0: World, r: Request, cfg: Config) {
    r.name in w0.requests && w0.requests[r.name] == r && w0.config == Some(cfg)
  }

  ghost predicate Here(w0: World, r: Request, cfg: Config, w: World, pc: Pc) {
    Start(w0, r, cfg) && Frame(w0, w) && PcOk(w, pc) && Along(w0, r, cfg, w, pc)
  }

  ghost predicate Ahead(w0: World, r: Request, cfg: Config, w: World, pc: Pc, hint: Hint) {
    var (next, resp) := Perform(w, pc, Ok, hint);
    Along(w0, r, cfg, next, Next(pc, resp))
  }

  lemma OpeningAhead(w0: World, r: Request, cfg: Config, w: World, pc: Pc, hint: Hint)
    requires Here(w0, r, cfg, w, pc) && (pc.Fetch? || pc.LoadConfig?)
    requires !r.status.phase.Other?
    ensures Ahead(w0, r, cfg, w, pc, hint)
  {
  }

  lemma CommentNow(w0: World, w: World, ticket: TicketRef, note: Comment)
    requires w.tickets == w0.tickets && ticket.Issue? && ticket.key in w0.tickets
    ensures var (next, resp) := PostComment(w, ticket, note, Ok);
            resp == Success && Commented(w0, next, ticket) && next == w.(tickets := next.tickets)
  {
  }

  lemma MoveNow(w0: World, w: World, ticket: TicketRef, transition: string)
    requires Commented(w0, w, ticket) && w.workflow == w0.workflow
    ensures var (next, resp) := MoveIssue(w, ticket, transition, Ok);
            if CanMove(w0, ticket, transition) then
              resp == Success && Transited(w0, next, ticket, transition) && next == w.(tickets := next.tickets)
            else resp == Failure && next == w
  {
  }

  lemma RejectCommentAhead(w0: World, r: Request, cfg: Config, w: World, pc: Pc, hint: Hint)
    requires Here(w0, r, cfg, w, pc) && pc.RejectComment?
    ensures Ahead(w0, r, cfg, w, pc, hint)
  {
    CommentNow(w0, w, r.status.ticket, RejectedNote(r.status.message));
  }

  lemma RejectMoveAhead(w0: World, r: Request, cfg: Config, w: World, pc: Pc, hint: Hint)
    requires Here(w0, r, cfg, w, pc) && pc.RejectMove?
    ensures Ahead(w0, r, cfg, w, pc, hint)
  {
    MoveNow(w0, w, r.status.ticket, cfg.rejectedTransition);
  }

  lemma FieldsAhead(w0: World, r: Request, cfg: Config, w: World, pc: Pc, hint: Hint)
    requires Here(w0, r, cfg, w, pc) && (pc.ScanFields? || pc.FindReporter?)
    requires HintOk(w, pc, hint)
    ensures Ahead(w0, r, cfg, w, pc, hint)
  {
  }

  lemma TicketAhead(w0: World, r: Request, cfg: Config, w: World, pc: Pc, hint: Hint)
    requires Here(w0, r, cfg, w, pc) && pc.OpenTicket? && HintOk(w, pc, hint)
    ensures Ahead(w0, r, cfg, w, pc, hint)
  {
    var next := CreateIssue(w, r.uid, hint, Ok).0;
    assert Opens(w0, next, r, cfg, hint.key);
  }

  lemma LabelsAhead(w0: World, r: Request, cfg: Config, w: World, pc: Pc, hint: Hint)
    requires Here(w0, r, cfg, w, pc) && pc.CheckLabels?
    ensures Ahead(w0, r, cfg, w, pc, hint)
  {
    ListingDecides(w, r.spec);
  }

  lemma ListingDecides(w: World, spec: Spec)
    ensures ListLabels(w, spec, Ok).Success? <==> LabelsPass(w, spec)
    ensures !LabelsPass(w, spec) ==>
              ListLabels(w, spec, Ok)
              == Invalid(Unmatched(spec.namespaces, Matching(w.namespaces, spec.namespaceLabels)))
  {
    UnmatchedEmpty(spec.namespaces, Matching(w.namespaces, spec.namespaceLabels));
  }

  lemma RegexAhead(w0: World, r: Request, cfg: Config, w: World, pc: Pc, hint: Hint)
    requires Here(w0, r, cfg, w, pc) && pc.CheckRegex?
    ensures Ahead(w0, r, cfg, w, pc, hint)
  {
  }

  lemma StartAhead(w0: World, r: Request, cfg: Config, w: World, pc: Pc, hint: Hint)
    requires Here(w0, r, cfg, w, pc) && pc.CheckStart?
    ensures Ahead(w0, r, cfg, w, pc, hint)
  {
  }

  lemma CommentKeepsOpens(w0: World, w: World, r: Request, cfg: Config, key: nat, note: Comment)
    requires Opens(w0, w, r, cfg, key)
    ensures var (next, resp) := PostComment(w, Issue(key), note, Ok);
            resp == Success && Opens(w0, next, r, cfg, key) && next == w.(tickets := next.tickets)
  {
  }

  lemma PreApprovalAhead(w0: World, r: Request, cfg: Config, w: World, pc: Pc, hint: Hint)
    requires Here(w0, r, cfg, w, pc) && pc.PreApproveComment?
    ensures Ahead(w0, r, cfg, w, pc, hint)
  {
    CommentKeepsOpens(w0, w, r, cfg, pc.key, PreApprovalComment(r, cfg));
  }

  lemma TimeAhead(w0: World, r: Request, cfg: Config, w: World, pc: Pc, hint: Hint)
    requires Here(w0, r, cfg, w, pc) && pc.CheckTime?
    ensures Ahead(w0, r, cfg, w, pc, hint)
  {
  }

  lemma ApprovalAhead(w0: World, r: Request, cfg: Config, w: World, pc: Pc, hint: Hint)
    requires Here(w0, r, cfg, w, pc) && pc.CheckApproval?
    ensures Ahead(w0, r, cfg, w, pc, hint)
  {
    assert r.spec.namespaces[..0] == [];
    assert [] == r.spec.namespaces ==> r.spec.namespaces[..0] == r.spec.namespaces;
  }

  /** One binding more, or the loop ends at a namespace that is gone. */
  lemma BindOne(w0: World, r: Request, cfg: Config, w: World, i: nat)
    requires Start(w0, r, cfg) && Frame(w0, w) && i < |r.spec.namespaces|
    requires w.bindings == Created(w0.bindings, r, r.spec.namespaces[..i])
    ensures var (next, resp) := CreateBinding(w, r, r.spec.namespaces[i], Ok);
            && next == w.(bindings := next.bindings)
            && (resp.Success? || resp.Exists? <==> r.spec.namespaces[i] in w0.namespaces)
            && (resp.Success? || resp.Exists? ==> next.bindings == Created(w0.bindings, r, r.spec.namespaces[..i + 1]))
  {
    CreatedNext(w0.bindings, r, r.spec.namespaces, i);
  }

  lemma BindStopsAhead(w0: World, r: Request, cfg: Config, w: World, pc: Pc, hint: Hint)
    requires Here(w0, r, cfg, w, pc) && pc.Bind? && r.spec.namespaces[pc.index] !in w0.namespaces
    ensures Ahead(w0, r, cfg, w, pc, hint)
  {
    assert BindableUpTo(w0, r.spec.namespaces) == pc.index;
    assert CreateBinding(w, r, r.spec.namespaces[pc.index], Ok) == (w, Failure);
    assert StuckGranting(w0, r, w);
  }

  lemma BindGoesOnAhead(w0: World, r: Request, cfg: Config, w: World, pc: Pc, hint: Hint)
    requires Here(w0, r, cfg, w, pc) && pc.Bind? && r.spec.namespaces[pc.index] in w0.namespaces
    requires pc.index + 1 < |r.spec.namespaces|
    ensures Ahead(w0, r, cfg, w, pc, hint)
  {
    BindOne(w0, r, cfg, w, pc.index);
  }

  lemma LastBindAhead(w0: World, r: Request, cfg: Config, w: World, pc: Pc, hint: Hint)
    requires Here(w0, r, cfg, w, pc) && pc.Bind? && r.spec.namespaces[pc.index] in w0.namespaces
    requires pc.index + 1 == |r.spec.namespaces|
    ensures Ahead(w0, r, cfg, w, pc, hint)
  {
    BindOne(w0, r, cfg, w, pc.index);
    assert r.spec.namespaces[..pc.index + 1] == r.spec.namespaces;
  }

  lemma BindAhead(w0: World, r: Request, cfg: Config, w: World, pc: Pc, hint: Hint)
    requires Here(w0, r, cfg, w, pc) && pc.Bind?
    ensures Ahead(w0, r, cfg, w, pc, hint)
  {
    if r.spec.namespaces[pc.index] !in w0.namespaces {
      BindStopsAhead(w0, r, cfg, w, pc, hint);
    } else if pc.index + 1 == |r.spec.namespaces| {
      LastBindAhead(w0, r, cfg, w, pc, hint);
    } else {
      BindGoesOnAhead(w0, r, cfg, w, pc, hint);
    }
  }

  lemma CompleteCommentAhead(w0: World, r: Request, cfg: Config, w: World, pc: Pc, hint: Hint)
    requires Here(w0, r, cfg, w, pc) && pc.CompleteComment?
    ensures Ahead(w0, r, cfg, w, pc, hint)
  {
    CommentNow(w0, w, r.status.ticket, CompletedNote);
  }

  lemma CompleteMoveAhead(w0: World, r: Request, cfg: Config, w: World, pc: Pc, hint: Hint)
    requires Here(w0, r, cfg, w, pc) && pc.CompleteMove?
    ensures Ahead(w0, r, cfg, w, pc, hint)
  {
    MoveNow(w0, w, r.status.ticket, cfg.completedTransition);
    assert BindableUpTo(w0, r.spec.namespaces) == |r.spec.namespaces|;
    assert r.spec.namespaces[..|r.spec.namespaces|] == r.spec.namespaces;
  }

  /** The write finds the record it was read from. */
  lemma WriteNow(w0: World, r: Request, cfg: Config, w: World, status: Status)
    requires Start(w0, r, cfg) && w.requests == w0.requests
    requires status == StatusFor(r, status.phase, status.message, status.ticket)
    ensures var (next, resp) := WriteStatus(w, r, status, Ok);
            && resp == Success && Became(w0, next, r, status.phase, status.message, status.ticket)
            && next.requests[r.name] == Written(r, status)
            && next.bindings == w.bindings && next.tickets == w.tickets && next.now == w.now
  {
  }

  lemma WriteAhead(w0: World, r: Request, cfg: Config, w: World, pc: Pc, hint: Hint)
    requires Here(w0, r, cfg, w, pc) && pc.Write?
    ensures Ahead(w0, r, cfg, w, pc, hint)
  {
    match pc.after
    case ThenCleanup => WriteSucceededAhead(w0, r, cfg, w, pc, hint);
    case ThenAwaitStart => WritePreApprovedAhead(w0, r, cfg, w, pc, hint);
    case _ => WriteRejectedAhead(w0, r, cfg, w, pc, hint);
  }

  lemma WriteRejectedAhead(w0: World, r: Request, cfg: Config, w: World, pc: Pc, hint: Hint)
    requires Here(w0, r, cfg, w, pc) && pc.Write? && (pc.after.ThenReturn? || pc.after.ThenReturnSkipped?)
    ensures Ahead(w0, r, cfg, w, pc, hint)
  {
    WriteNow(w0, r, cfg, w, pc.status);
  }

  lemma WritePreApprovedAhead(w0: World, r: Request, cfg: Config, w: World, pc: Pc, hint: Hint)
    requires Here(w0, r, cfg, w, pc) && pc.Write? && pc.after.ThenAwaitStart?
    ensures Ahead(w0, r, cfg, w, pc, hint)
  {
    WriteNow(w0, r, cfg, w, pc.status);
    var next := WriteStatus(w, r, pc.status, Ok).0;
    assert JustPreApproved(w0, r, cfg, next, Written(r, pc.status));
  }

  lemma WriteSucceededAhead(w0: World, r: Request, cfg: Config, w: World, pc: Pc, hint: Hint)
    requires Here(w0, r, cfg, w, pc) && pc.Write? && pc.after.ThenCleanup?
    ensures Ahead(w0, r, cfg, w, pc, hint)
  {
    WriteNow(w0, r, cfg, w, pc.status);
    var next := WriteStatus(w, r, pc.status, Ok).0;
    assert JustGranted(w0, r, cfg, next, Written(r, pc.status));
  }

  lemma CheckEndAhead(w0: World, r: Request, cfg: Config, w: World, pc: Pc, hint: Hint)
    requires Here(w0, r, cfg, w, pc) && pc.CheckEnd?
    ensures Ahead(w0, r, cfg, w, pc, hint)
  {
  }

  lemma DeleteNow(w0: World, r: Request, w: World, name: string)
    requires name == r.name && r.name in w.requests && w.requests - {r.name} == w0.requests - {r.name}
    ensures var (next, resp) := RemoveRequest(w, name, Ok);
            resp == Success && Gone(w0, next, r) && next.bindings == w.bindings
            && next.tickets == w.tickets && next.now == w.now
  {
  }

  lemma DeleteRejectedAhead(w0: World, r: Request, cfg: Config, w: World, pc: Pc, hint: Hint)
    requires Here(w0, r, cfg, w, pc) && pc.Delete? && r.status.phase == Rejected
    ensures Ahead(w0, r, cfg, w, pc, hint)
  {
    DeleteNow(w0, r, w, pc.req.name);
  }

  lemma DeleteExpiredAhead(w0: World, r: Request, cfg: Config, w: World, pc: Pc, hint: Hint)
    requires Here(w0, r, cfg, w, pc) && pc.Delete? && r.status.phase != Rejected
    ensures Ahead(w0, r, cfg, w, pc, hint)
  {
    assert w.requests - {r.name} == w0.requests - {r.name};
    DeleteNow(w0, r, w, pc.req.name);
    var next := RemoveRequest(w, pc.req.name, Ok).0;
    if r.status.phase == Succeeded {
      assert SucceededOutcome(w0, r, next, Done(0));
    } else {
      assert EndOutcome(w0, next, r, r.spec.endTime, Became(w0, next, r, Succeeded, AccessGranted, r.status.ticket),
                        Done(0));
    }
  }

  lemma DeleteAhead(w0: World, r: Request, cfg: Config, w: World, pc: Pc, hint: Hint)
    requires Here(w0, r, cfg, w, pc) && pc.Delete?
    ensures Ahead(w0, r, cfg, w, pc, hint)
  {
    if r.status.phase == Rejected {
      DeleteRejectedAhead(w0, r, cfg, w, pc, hint);
    } else {
      DeleteExpiredAhead(w0, r, cfg, w, pc, hint);
    }
  }

  lemma ArmAhead(w0: World, r: Request, cfg: Config, w: World, pc: Pc, hint: Hint)
    requires Here(w0, r, cfg, w, pc) && pc.Arm?
    ensures Ahead(w0, r, cfg, w, pc, hint)
  {
    assert Waits(w0, w, pc.target, Done(pc.target - w.now));
    match r.status.phase
    case New => assert NewOutcome(w0, r, cfg, w, Done(pc.target - w.now));
    case PreApproved => assert PreApprovedOutcome(w0, r, cfg, w, Done(pc.target - w.now));
    case _ =>
  }

  lemma NewPathAhead(w0: World, r: Request, cfg: Config, w: World, pc: Pc, hint: Hint)
    requires Here(w0, r, cfg, w, pc) && NewPath(pc) && HintOk(w, pc, hint)
    ensures Ahead(w0, r, cfg, w, pc, hint)
  {
    if pc.CheckLabels? {
      LabelsAhead(w0, r, cfg, w, pc, hint);
    } else if pc.CheckRegex? {
      RegexAhead(w0, r, cfg, w, pc, hint);
    } else if pc.CheckStart? {
      StartAhead(w0, r, cfg, w, pc, hint);
    } else if pc.PreApproveComment? {
      PreApprovalAhead(w0, r, cfg, w, pc, hint);
    } else if pc.OpenTicket? {
      TicketAhead(w0, r, cfg, w, pc, hint);
    } else {
      FieldsAhead(w0, r, cfg, w, pc, hint);
    }
  }

  lemma GrantPathAhead(w0: World, r: Request, cfg: Config, w: World, pc: Pc, hint: Hint)
    requires Here(w0, r, cfg, w, pc)
    requires pc.CheckTime? || pc.CheckApproval? || pc.Bind? || pc.CompleteComment? || pc.CompleteMove?
    ensures Ahead(w0, r, cfg, w, pc, hint)
  {
    if pc.Bind? {
      BindAhead(w0, r, cfg, w, pc, hint);
    } else if pc.CheckTime? {
      TimeAhead(w0, r, cfg, w, pc, hint);
    } else if pc.CheckApproval? {
      ApprovalAhead(w0, r, cfg, w, pc, hint);
    } else if pc.CompleteComment? {
      CompleteCommentAhead(w0, r, cfg, w, pc, hint);
    } else {
      CompleteMoveAhead(w0, r, cfg, w, pc, hint);
    }
  }

  lemma CallAhead(w0: World, r: Request, cfg: Config, w: World, pc: Pc, hint: Hint)
    requires Here(w0, r, cfg, w, pc) && InCall(pc) && HintOk(w, pc, hint) && !r.status.phase.Other?
    ensures Ahead(w0, r, cfg, w, pc, hint)
  {
    if NewPath(pc) {
      NewPathAhead(w0, r, cfg, w, pc, hint);
    } else if pc.Fetch? || pc.LoadConfig? {
      OpeningAhead(w0, r, cfg, w, pc, hint);
    } else if pc.RejectComment? {
      RejectCommentAhead(w0, r, cfg, w, pc, hint);
    } else if pc.RejectMove? {
      RejectMoveAhead(w0, r, cfg, w, pc, hint);
    } else if pc.CheckEnd? {
      CheckEndAhead(w0, r, cfg, w, pc, hint);
    } else if pc.Delete? {
      DeleteAhead(w0, r, cfg, w, pc, hint);
    } else if pc.Write? {
      WriteAhead(w0, r, cfg, w, pc, hint);
    } else if pc.Arm? {
      ArmAhead(w0, r, cfg, w, pc, hint);
    } else {
      GrantPathAhead(w0, r, cfg, w, pc, hint);
    }
  }

  ghost predicate Underway(s0: State, r: Request, cfg: Config, s: State) {
    Inv(s) && Frame(s0.world, s.world) && Along(s0.world, r, cfg, s.world, s.pc)
  }

  lemma CalmStep(s0: State, r: Request, cfg: Config, s: State, step: Step)
    requires Start(s0.world, r, cfg) && !r.status.phase.Other? && Underway(s0, r, cfg, s)
    requires (step.Respond? && step.outcome == Ok) || (step.Env? && step.e.Tick?)
    ensures Underway(s0, r, cfg, Apply(s, step))
  {
    StepKeepsInv(s, step);
    if Enabled(s, step) {
      if step.Respond? {
        CallAhead(s0.world, r, cfg, s.world, s.pc, step.hint);
        CallKeepsFrame(s.world, s.pc, Ok, step.hint);
        FrameTrans(s0.world, s.world, Apply(s, step).world);
      } else {
        TickKeepsAlong(s0.world, r, cfg, s.world, s.pc, step.e.to);
      }
    }
  }

  lemma {:induction false} UndisturbedRun(s: State, r: Request, cfg: Config, steps: seq<Step>)
    requires Inv(s) && s.pc == Fetch(r.name) && Start(s.world, r, cfg) && Calm(steps) && !r.status.phase.Other?
    ensures Underway(s, r, cfg, Run(s, steps))
  {
    if steps != [] {
      var n := |steps| - 1;
      UndisturbedRun(s, r, cfg, steps[..n]);
      CalmStep(s, r, cfg, Run(s, steps[..n]), steps[n]);
    }
  }

  /**
   The result of an undisturbed reconcile is the one `Expected` gives for the request, the
   configuration and the surroundings it started from.
   */
  lemma UndisturbedReconcile(s: State, r: Request, cfg: Config, steps: seq<Step>)
    requires Inv(s) && s.pc == Fetch(r.name) && Start(s.world, r, cfg) && Calm(steps)
    requires Run(s, steps).pc.Finished?
    ensures var end := Run(s, steps);
            && Inv(end) && Frame(s.world, end.world) && end.pc.name == r.name
            && Expected(s.world, r, cfg, end.world, end.pc.result)
  {
    assert RecordOk(s.world, r.name);
    UndisturbedRun(s, r, cfg, steps);
  }

  // Ranks

  function PhaseRank(phase: Phase): nat {
    match phase
    case New => 3
    case PreApproved => 2
    case _ => 1
  }

  /** How far the request with this number is from deletion. */
  function Rank(w: World, name: string, uid: nat): nat {
    if name in w.requests && w.requests[name].uid == uid then PhaseRank(w.requests[name].status.phase) else 0
  }

  lemma AnswerKeepsRank(s: State, outcome: Outcome, hint: Hint, name: string, uid: nat)
    requires Inv(s)
    ensures Rank(Answer(s, outcome, hint).world, name, uid) <= Rank(s.world, name, uid)
  {
    if !s.pc.Write? {
      CallKeepsStatuses(s.world, s.pc, outcome, hint);
    }
  }

  lemma EnvKeepsRank(w: World, e: EnvStep, name: string, uid: nat)
    requires EnvEnabled(w, e) && uid in w.names
    ensures uid in EnvApply(w, e).names && EnvApply(w, e).names[uid] == w.names[uid]
    ensures Rank(EnvApply(w, e), name, uid) <= Rank(w, name, uid)
  {
    EnvExtends(w, e);
    if name in EnvApply(w, e).requests {
      assert RecordExtends(w, EnvApply(w, e), name);
    }
  }

  lemma StepKeepsRank(s: State, step: Step, name: string, uid: nat)
    requires Inv(s) && uid in s.world.names
    ensures uid in Apply(s, step).world.names && Apply(s, step).world.names[uid] == s.world.names[uid]
    ensures Rank(Apply(s, step).world, name, uid) <= Rank(s.world, name, uid)
  {
    if Enabled(s, step) {
      if step.Env? {
        EnvKeepsRank(s.world, step.e, name, uid);
      } else if step.Respond? {
        CallKeepsNames(s.world, s.pc, step.outcome, step.hint);
        AnswerKeepsRank(s, step.outcome, step.hint, name, uid);
      } else {
        OtherStepsKeepRecords(s, step);
      }
    }
  }

  /** No run, with any faults, ever brings a request further from deletion. */
  lemma {:induction false} RankNeverRises(s: State, steps: seq<Step>, name: string, uid: nat)
    requires Inv(s) && uid in s.world.names
    ensures Inv(Run(s, steps))
    ensures uid in Run(s, steps).world.names && Run(s, steps).world.names[uid] == s.world.names[uid]
    ensures Rank(Run(s, steps).world, name, uid) <= Rank(s.world, name, uid)
  {
    if steps != [] {
      var n := |steps| - 1;
      RankNeverRises(s, steps[..n], name, uid);
      StepKeepsInv(Run(s, steps[..n]), steps[n]);
      StepKeepsRank(Run(s, steps[..n]), steps[n], name, uid);
    }
  }

  /** A complete undisturbed reconcile of the name: taken off the queue, run to its end, settled. */
  ghost predicate Reconciles(s: State, calm: seq<Step>, name: string) {
    && s.pc == Idle && name in s.world.queue && Calm(calm)
    && Run(Apply(s, Pop(name)), calm).pc.Finished?
  }

  ghost function Reconciled(s: State, calm: seq<Step>, name: string): State {
    Apply(Run(Apply(s, Pop(name)), calm), Settle)
  }

  /**
   The request keeps its status. Unless the target has been reached meanwhile it has a timer, which
   is late by at most the duration of the reconcile; a timer it did not have before is not early.
   */
  predicate KeptWaiting(w: World, end: World, r: Request, target: Time) {
    && w.now < target && end.requests == w.requests
    && TimedFor(w, end, r.name, target)
  }

  predicate TimedFor(w: World, end: World, name: string, target: Time) {
    && (end.now < target ==> name in end.timers && end.timers[name] <= target + (end.now - w.now))
    && (name in end.timers && name !in w.timers ==> target <= end.timers[name])
  }

  predicate KeptFailing(w: World, end: World, r: Request, cfg: Config) {
    Blocked(w, r, cfg) && end.requests == w.requests && r.name in end.queue
  }

  lemma ExpectedRank(w0: World, r: Request, cfg: Config, w: World, res: Result)
    requires Start(w0, r, cfg) && StatusOk(r.status) && Expected(w0, r, cfg, w, res)
    ensures var lowered := Rank(w, r.name, r.uid) < Rank(w0, r.name, r.uid);
            && (!lowered ==> w.requests == w0.requests)
            && (!lowered ==>
                  || (Deadline(r).Some? && Waits(w0, w, Deadline(r).value, res))
                  || (Blocked(w0, r, cfg) && res == Error))
            && (Blocked(w0, r, cfg) ==> !lowered)
  {
  }

  lemma SettledTimers(w0: World, w: World, name: string, res: Result)
    requires w.timers == w0.timers
    ensures var end := SettleWorld(w, name, res);
            && end.requests == w.requests && end.now == w.now
            && (res == Error ==> name in end.queue)
            && (forall target | Waits(w0, w, target, res) :: TimedFor(w0, end, name, target))
  {
    if res.Done? && res.delay > 0 {
      assert SettleWorld(w, name, res).timers == AddTimer(w.timers, name, w.now + res.delay);
    }
  }

  /** The outside world always has a choice to make. */
  lemma HintExists(w: World, pc: Pc) returns (hint: Hint)
    requires PcOk(w, pc)
    ensures HintOk(w, pc, hint)
  {
    var key := UnusedKey(w.tickets.Keys);
    var fields: Fields := map[];
    var missing := "";
    if pc.OpenTicket? {
      fields := PayloadExists(pc.cfg, pc.req.spec);
    } else if pc.ScanFields? && MissingFields(pc.cfg, pc.req.spec) != {} {
      missing :| missing in MissingFields(pc.cfg, pc.req.spec);
    }
    hint := Hint(key, fields, missing);
  }

  /** A call that succeeds brings the reconcile closer to its end. */
  lemma NextCall(s: State) returns (hint: Hint)
    requires Inv(s) && InCall(s.pc)
    ensures HintOk(s.world, s.pc, hint)
    ensures var next := Answer(s, Ok, hint);
            && Inv(next) && (InCall(next.pc) || next.pc.Finished?) && !next.pc.Fetch?
            && next.world.now == s.world.now
            && (!s.pc.Fetch? ==> CallsLeft(next.pc) < CallsLeft(s.pc))
  {
    hint := HintExists(s.world, s.pc);
    AnswerOk(s, Ok, hint);
    CallKeepsNow(s.world, s.pc, Ok, hint);
    if !s.pc.Fetch? {
      CallsDecrease(s.pc, Perform(s.world, s.pc, Ok, hint).1);
    }
  }

  /** Every reconcile under way can be finished by calls that succeed, without time passing. */
  lemma {:induction false} Finishes(s: State) returns (calm: seq<Step>)
    requires Inv(s) && (InCall(s.pc) || s.pc.Finished?)
    ensures Calm(calm) && Run(s, calm).pc.Finished? && Run(s, calm).world.now == s.world.now
    decreases if s.pc.Fetch? then 1 else 0, CallsLeft(s.pc)
  {
    if s.pc.Finished? {
      calm := [];
    } else {
      var hint := NextCall(s);
      var step := Respond(Ok, hint);
      var rest := Finishes(Answer(s, Ok, hint));
      calm := [step] + rest;
      RunConcat(s, [step], rest);
      RunSnoc(s, [], step);
      assert [] + [step] == [step];
    }
  }

  lemma CallKeepsNow(w: World, pc: Pc, outcome: Outcome, hint: Hint)
    ensures Perform(w, pc, outcome, hint).0.now == w.now
  {
  }

  /** A name in the queue of an idle worker can be reconciled without disturbance, and in no time. */
  lemma ReconcileExists(s: State, name: string) returns (calm: seq<Step>)
    requires Inv(s) && s.pc == Idle && name in s.world.queue
    ensures Reconciles(s, calm, name) && Reconciled(s, calm, name).world.now == s.world.now
  {
    StepKeepsInv(s, Pop(name));
    calm := Finishes(Apply(s, Pop(name)));
    var done := Run(Apply(s, Pop(name)), calm);
    assert Apply(done, Settle).world == SettleWorld(done.world, done.pc.name, done.pc.result);
  }

  /** An undisturbed reconcile seen as a whole, from the queue to the settled result. */
  lemma WholeReconcile(s: State, calm: seq<Step>, name: string, cfg: Config)
    requires Inv(s) && name in s.world.requests && s.world.config == Some(cfg) && Reconciles(s, calm, name)
    ensures var begun := Apply(s, Pop(name)); var done := Run(begun, calm); var r := s.world.requests[name];
            && begun.world == s.world.(queue := s.world.queue - {name})
            && r.name == name && StatusOk(r.status) && Start(begun.world, r, cfg) && Frame(begun.world, done.world)
            && Expected(begun.world, r, cfg, done.world, done.pc.result)
            && Reconciled(s, calm, name) == State(SettleWorld(done.world, name, done.pc.result), Idle)
            && Inv(Reconciled(s, calm, name))
  {
    assert RecordOk(s.world, name);
    var begun := Apply(s, Pop(name));
    StepKeepsInv(s, Pop(name));
    UndisturbedReconcile(begun, s.world.requests[name], cfg, calm);
    StepKeepsInv(Run(begun, calm), Settle);
  }

  /**
   Ranked progress: an undisturbed reconcile brings the request closer to deletion, or leaves it
   as it is, waiting for its deadline with a timer that does not fire early, or failing because
   it is blocked. At the deadline it always makes progress unless blocked, and blocked it never does.
   */
  lemma RankedProgress(s: State, calm: seq<Step>, name: string, cfg: Config)
    requires Inv(s) && name in s.world.requests && s.world.config == Some(cfg) && Reconciles(s, calm, name)
    ensures var r := s.world.requests[name]; var end := Reconciled(s, calm, name);
            var lowered := Rank(end.world, name, r.uid) < Rank(s.world, name, r.uid);
            && Inv(end) && end.pc == Idle
            && (lowered || KeptFailing(s.world, end.world, r, cfg)
                || (Deadline(r).Some? && KeptWaiting(s.world, end.world, r, Deadline(r).value)))
            && (Due(r, s.world.now) ==> (lowered <==> !Blocked(s.world, r, cfg)))
  {
    WholeReconcile(s, calm, name, cfg);
    var r := s.world.requests[name];
    var begun := Apply(s, Pop(name));
    var done := Run(begun, calm);
    ExpectedRank(begun.world, r, cfg, done.world, done.pc.result);
    SettledTimers(begun.world, done.world, r.name, done.pc.result);
    assert Blocked(begun.world, r, cfg) == Blocked(s.world, r, cfg);
  }

  /**
   A restart recovers what was stranded: once its announcement is delivered, a request that is due
   and not blocked can be reconciled, and every undisturbed reconcile of it makes progress.
   */
  lemma RestartRecovers(s: State, name: string, cfg: Config) returns (woken: State)
    requires Inv(s) && name in s.world.requests && s.world.config == Some(cfg)
    requires Due(s.world.requests[name], s.world.now) && !Blocked(s.world, s.world.requests[name], cfg)
    ensures woken == Run(s, [Restart, Env(Deliver(name))]) && Inv(woken) && woken.pc == Idle
    ensures exists calm :: Reconciles(woken, calm, name)
    ensures forall calm | Reconciles(woken, calm, name) ::
              Rank(Reconciled(woken, calm, name).world, name, s.world.requests[name].uid)
              < Rank(s.world, name, s.world.requests[name].uid)
  {
    woken := Woken(s, name);
    var some := ReconcileExists(woken, name);
    forall calm | Reconciles(woken, calm, name)
      ensures Rank(Reconciled(woken, calm, name).world, name, s.world.requests[name].uid)
              < Rank(s.world, name, s.world.requests[name].uid)
    {
      RankedProgress(woken, calm, name, cfg);
    }
  }

  lemma Woken(s: State, name: string) returns (woken: State)
    requires Inv(s) && name in s.world.requests
    ensures woken == Run(s, [Restart, Env(Deliver(name))]) && Inv(woken) && woken.pc == Idle
    ensures woken.world.requests == s.world.requests && name in woken.world.queue && woken.world.now == s.world.now
    ensures woken.world.config == s.world.config && woken.world.tickets == s.world.tickets
    ensures woken.world.workflow == s.world.workflow && woken.world.users == s.world.users
    ensures woken.world.namespaces == s.world.namespaces
  {
    var restarted := Apply(s, Restart);
    woken := Apply(restarted, Env(Deliver(name)));
    assert Run(s, []) == s;
    RunSnoc(s, [], Restart);
    RunSnoc(s, [Restart], Env(Deliver(name)));
    assert [] + [Restart] + [Env(Deliver(name))] == [Restart, Env(Deliver(name))];
    StepKeepsInv(s, Restart);
    StepKeepsInv(restarted, Env(Deliver(name)));
  }

  /** An undisturbed reconcile of the request, if it still exists, at its deadline and not blocked. */
  ghost predicate Advances(s: State, calm: seq<Step>, name: string, uid: nat) {
    && Reconciles(s, calm, name)
    && (name in s.world.requests && s.world.requests[name].uid == uid ==>
          && s.world.config.Some?
          && Due(s.world.requests[name], s.world.now)
          && !Blocked(s.world, s.world.requests[name], s.world.config.value))
  }

  lemma AdvanceLowers(s: State, calm: seq<Step>, name: string, uid: nat)
    requires Inv(s) && uid in s.world.names && Advances(s, calm, name, uid)
    ensures var end := Reconciled(s, calm, name);
            && Inv(end) && uid in end.world.names && end.world.names[uid] == s.world.names[uid]
            && Rank(end.world, name, uid) <= Rank(s.world, name, uid)
            && (Rank(end.world, name, uid) < Rank(s.world, name, uid) || Rank(end.world, name, uid) == 0)
  {
    var begun := Apply(s, Pop(name));
    StepKeepsInv(s, Pop(name));
    StepKeepsRank(s, Pop(name), name, uid);
    RankNeverRises(begun, calm, name, uid);
    StepKeepsInv(Run(begun, calm), Settle);
    StepKeepsRank(Run(begun, calm), Settle, name, uid);
    if Rank(s.world, name, uid) > 0 {
      RankedProgress(s, calm, name, s.world.config.value);
    }
  }

  /** Some steps of any kind, faults included, followed by an undisturbed reconcile. */
  datatype Round = Round(before: seq<Step>, calm: seq<Step>)

  ghost function RunRounds(s: State, rounds: seq<Round>, name: string): State {
    if rounds == [] then s
    else
      var n := |rounds| - 1;
      Reconciled(Run(RunRounds(s, rounds[..n], name), rounds[n].before), rounds[n].calm, name)
  }

  ghost predicate RoundsAdvance(s: State, rounds: seq<Round>, name: string, uid: nat) {
    forall i | 0 <= i < |rounds| ::
      Advances(Run(RunRounds(s, rounds[..i], name), rounds[i].before), rounds[i].calm, name, uid)
  }

  lemma {:induction false} RoundsLower(s: State, rounds: seq<Round>, name: string, uid: nat)
    requires Inv(s) && uid in s.world.names && RoundsAdvance(s, rounds, name, uid)
    ensures var end := RunRounds(s, rounds, name);
            && Inv(end) && uid in end.world.names
            && (Rank(end.world, name, uid) + |rounds| <= Rank(s.world, name, uid) || Rank(end.world, name, uid) == 0)
  {
    if rounds != [] {
      var n := |rounds| - 1;
      assert RoundsAdvance(s, rounds[..n], name, uid) by {
        forall i | 0 <= i < n
          ensures Advances(Run(RunRounds(s, rounds[..n][..i], name), rounds[..n][i].before),
                           rounds[..n][i].calm, name, uid)
        {
          assert rounds[..n][..i] == rounds[..i];
        }
      }
      RoundsLower(s, rounds[..n], name, uid);
      var before := RunRounds(s, rounds[..n], name);
      RankNeverRises(before, rounds[n].before, name, uid);
      AdvanceLowers(Run(before, rounds[n].before), rounds[n].calm, name, uid);
    }
  }

  /**
   Three undisturbed reconciles at their deadlines delete any request, whatever happens before
   and between them.
   */
  lemma ThreeReconcilesDelete(s: State, rounds: seq<Round>, name: string, uid: nat)
    requires Inv(s) && uid in s.world.names && |rounds| >= 3 && RoundsAdvance(s, rounds, name, uid)
    ensures var end := RunRounds(s, rounds, name).world;
            name in end.requests ==> end.requests[name].uid != uid
  {
    RoundsLower(s, rounds, name, uid);
  }

  // Expiry

  /** An undisturbed reconcile of a Succeeded request at or past its end deletes it for good. */
  lemma ExpiredRequestIsDead(s: State, calm: seq<Step>, name: string)
    requires Inv(s) && name in s.world.requests && s.world.requests[name].status.phase == Succeeded
    requires Advances(s, calm, name, s.world.requests[name].uid)
    ensures Inv(Reconciled(s, calm, name)) && Dead(Reconciled(s, calm, name), s.world.requests[name].uid)
  {
    var uid := s.world.requests[name].uid;
    assert RecordOk(s.world, name);
    AdvanceLowers(s, calm, name, uid);
    var end := Reconciled(s, calm, name);
    forall n | n in end.world.requests ensures end.world.requests[n].uid != uid {
      assert RecordOk(end.world, n);
    }
  }

  /**
   Expiry: after such a reconcile, once each binding the request then owned has been collected,
   no binding with its number remains or ever appears again, whatever else happens.
   */
  lemma ExpiryClearsBindings(s: State, calm: seq<Step>, name: string, more: seq<Step>, key: BindingKey)
    requires Inv(s) && name in s.world.requests && s.world.requests[name].status.phase == Succeeded
    requires Advances(s, calm, name, s.world.requests[name].uid)
    requires forall k | OwnedIn(Reconciled(s, calm, name).world, k, s.world.requests[name].uid) ::
               Env(Collect(k)) in more
    ensures !OwnedIn(Run(Reconciled(s, calm, name), more).world, key, s.world.requests[name].uid)
  {
    ExpiredRequestIsDead(s, calm, name);
    var end, uid := Reconciled(s, calm, name), s.world.requests[name].uid;
    if OwnedIn(Run(end, more).world, key, uid) {
      CollectionClears(end, more, uid, key);
    }
  }
}
