/**
 What every step keeps: the stored records, tickets and bindings stay consistent, and the copy a
 reconcile holds in memory is related to the stored record in a fixed way.
 */
module Invariants {
  import opened Types
  import opened Validation
  import opened Machine

  predicate TicketOwned(w: World, ticket: TicketRef, uid: nat) {
    ticket.Issue? ==> ticket.key in w.tickets && w.tickets[ticket.key].owner == uid
  }

  /** What the phase of a status says about its ticket. */
  predicate StatusOk(status: Status) {
    match status.phase
    case New => status == NEW_STATUS
    case PreApproved => status.ticket.Issue?
    case Succeeded => status.ticket.Issue?
    case Rejected => !status.ticket.Unset?
    case Other(_) => false
  }

  predicate RecordOk(w: World, name: string) {
    && name in w.requests
    && var r := w.requests[name];
    && r.name == name
    && r.uid in w.names && w.names[r.uid] == name
    && StatusOk(r.status)
    && TicketOwned(w, r.status.ticket, r.uid)
  }

  predicate BindingOk(w: World, key: BindingKey) {
    && key in w.bindings
    && forall o | o in w.bindings[key].owners && o.kind == REQUEST_KIND ::
         && w.bindings[key].owners == [o]
         && key.name == BindingName(o.name)
         && o.uid in w.names && w.names[o.uid] == o.name
  }

  ghost predicate RecordsOk(w: World) {
    forall n | n in w.requests :: RecordOk(w, n)
  }

  ghost predicate BindingsOk(w: World) {
    forall k | k in w.bindings :: BindingOk(w, k)
  }

  ghost predicate TicketsOk(w: World) {
    forall k | k in w.tickets :: w.tickets[k].owner in w.names
  }

  ghost predicate WorldOk(w: World) {
    RecordsOk(w) && BindingsOk(w) && TicketsOk(w)
  }

  /** The record a copy in memory was read from is still stored. */
  predicate Live(w: World, req: Request) {
    req.name in w.requests && w.requests[req.name].uid == req.uid
  }

  /** The copy in memory is not ahead of the store; only the spec can have changed since it was read. */
  predicate CopyOk(w: World, req: Request) {
    && req.uid in w.names && w.names[req.uid] == req.name
    && StatusOk(req.status)
    && TicketOwned(w, req.status.ticket, req.uid)
    && (Live(w, req) ==>
          var stored := w.requests[req.name];
          && req.version <= stored.version
          && req.status == stored.status
          && (req.version == stored.version ==> req == stored))
  }

  /** Which status a write may carry, by what follows it. */
  predicate WriteShape(req: Request, status: Status, after: After) {
    && status == StatusFor(req, status.phase, status.message, status.ticket)
    && match after
       case ThenReturnSkipped => req.status.phase == New && status.phase == Rejected && status.ticket == Skipped
       case ThenReturn =>
         && status.phase == Rejected && status.ticket.Issue?
         && (req.status.phase == New || (req.status.phase == PreApproved && status.ticket == req.status.ticket))
       case ThenAwaitStart => req.status.phase == New && status.phase == PreApproved && status.ticket.Issue?
       case ThenCleanup =>
         req.status.phase == PreApproved && status.phase == Succeeded && status.ticket == req.status.ticket
  }

  predicate WriteOk(w: World, req: Request, status: Status, after: After) {
    WriteShape(req, status, after) && TicketOwned(w, status.ticket, req.uid)
  }

  predicate RoleAndFieldsOk(req: Request, cfg: Config) {
    req.spec.clusterRole in cfg.allowedClusterRoles && MissingFields(cfg, req.spec) == {}
  }

  /** The point in time a request waits for; a new or rejected one waits for nothing. */
  function Deadline(r: Request): Option<Time> {
    match r.status.phase
    case PreApproved => Some(r.status.startTime)
    case Succeeded => Some(r.status.endTime)
    case _ => None
  }

  predicate HasReq(pc: Pc) {
    !pc.Idle? && !pc.Fetch? && !pc.Finished?
  }

  /** What is known of the copy at each program point. */
  predicate PcShape(w: World, pc: Pc) {
    match pc
    case Idle => true
    case Fetch(_) => true
    case Finished(_, _) => true
    case LoadConfig(_) => true
    case RejectComment(req, _) => req.status.phase == Rejected && req.status.ticket.Issue?
    case RejectMove(req, _) => req.status.phase == Rejected && req.status.ticket.Issue?
    case ScanFields(req, _) => req.status.phase == New
    case FindReporter(req, cfg) => req.status.phase == New && MissingFields(cfg, req.spec) == {}
    case OpenTicket(req, cfg) => req.status.phase == New && MissingFields(cfg, req.spec) == {}
    case CheckLabels(req, cfg, key) =>
      req.status.phase == New && RoleAndFieldsOk(req, cfg) && TicketOwned(w, Issue(key), req.uid)
    case CheckRegex(req, cfg, key) =>
      req.status.phase == New && RoleAndFieldsOk(req, cfg) && TicketOwned(w, Issue(key), req.uid)
    case CheckStart(req, _, key) => req.status.phase == New && TicketOwned(w, Issue(key), req.uid)
    case PreApproveComment(req, _, key) => req.status.phase == New && TicketOwned(w, Issue(key), req.uid)
    case CheckTime(req, _) => req.status.phase == PreApproved
    case CheckApproval(req, _) => req.status.phase == PreApproved && req.status.startTime <= w.now
    case Bind(req, _, i) =>
      req.status.phase == PreApproved && req.status.startTime <= w.now && i < |req.spec.namespaces|
    case CompleteComment(req, _) => req.status.phase == PreApproved && req.status.startTime <= w.now
    case CompleteMove(req, _) => req.status.phase == PreApproved && req.status.startTime <= w.now
    case CheckEnd(req) => req.status.phase == Succeeded
    case Delete(req) => req.status.phase == Rejected || req.status.phase == Succeeded
    case Write(req, status, attempt, after) => WriteOk(w, req, status, after) && attempt < MAX_ATTEMPTS
    case Arm(req, target) =>
      || (req.status.phase == PreApproved && target == req.status.startTime)
      || (req.status.phase == Succeeded && target == req.status.endTime)
  }

  predicate PcOk(w: World, pc: Pc) {
    (HasReq(pc) ==> CopyOk(w, pc.req)) && PcShape(w, pc)
  }

  ghost predicate Inv(s: State) {
    WorldOk(s.world) && PcOk(s.world, s.pc)
  }

  lemma InitInv(s: State)
    requires Init(s)
    ensures Inv(s)
  {
  }

  /**
   `next` may follow `w` without the operator having written a status: tickets keep their owners,
   a stored record keeps its status, and a record with an old version number is untouched.
   */
  ghost predicate Extends(w: World, next: World) {
    && w.now <= next.now && w.webhooks == next.webhooks
    && (forall u | u in w.names :: u in next.names && next.names[u] == w.names[u])
    && (forall k | k in w.tickets :: k in next.tickets && next.tickets[k].owner == w.tickets[k].owner)
    && (forall n | n in next.requests :: RecordExtends(w, next, n))
  }

  predicate RecordExtends(w: World, next: World, n: string)
    requires n in next.requests
  {
    var r := next.requests[n];
    || r.uid !in w.names
    || (&& n in w.requests && w.requests[n].uid == r.uid
        && w.requests[n].version <= r.version && w.requests[n].status == r.status
        && (w.requests[n].version == r.version ==> w.requests[n] == r))
  }

  lemma EnvExtends(w: World, e: EnvStep)
    requires EnvEnabled(w, e)
    ensures Extends(w, EnvApply(w, e))
  {
  }

  lemma CopyCarries(w: World, next: World, req: Request)
    requires Extends(w, next) && CopyOk(w, req)
    ensures CopyOk(next, req)
  {
    if Live(next, req) {
      assert RecordExtends(w, next, req.name);
    }
  }

  lemma PcCarries(w: World, next: World, pc: Pc)
    requires Extends(w, next) && PcOk(w, pc)
    ensures PcOk(next, pc)
  {
    if HasReq(pc) {
      CopyCarries(w, next, pc.req);
    }
  }

  /** A change that leaves requests and bindings alone and keeps every ticket's owner. */
  ghost predicate TicketsOnly(w: World, next: World) {
    && next.requests == w.requests && next.names == w.names && next.bindings == w.bindings
    && (forall k | k in w.tickets :: k in next.tickets && next.tickets[k].owner == w.tickets[k].owner)
    && (forall k | k in next.tickets :: k in w.tickets || next.tickets[k].owner in w.names)
  }

  lemma TicketsOnlyOk(w: World, next: World)
    requires WorldOk(w) && TicketsOnly(w, next)
    ensures WorldOk(next)
    ensures w.now <= next.now && w.webhooks == next.webhooks ==> Extends(w, next)
  {
    RecordsCarry(w, next);
    forall k | k in next.bindings ensures BindingOk(next, k) {
      assert BindingOk(w, k);
    }
  }

  lemma RecordsCarry(w: World, next: World)
    requires RecordsOk(w)
    requires forall n | n in next.requests :: n in w.requests && next.requests[n] == w.requests[n]
    requires next.names == w.names
    requires forall k | k in w.tickets :: k in next.tickets && next.tickets[k].owner == w.tickets[k].owner
    ensures RecordsOk(next)
  {
    forall n | n in next.requests ensures RecordOk(next, n) {
      assert RecordOk(w, n);
    }
  }

  lemma BindingsCarry(w: World, next: World)
    requires BindingsOk(w)
    requires forall k | k in next.bindings :: k in w.bindings && next.bindings[k] == w.bindings[k]
    requires forall u | u in w.names :: u in next.names && next.names[u] == w.names[u]
    ensures BindingsOk(next)
  {
    forall k | k in next.bindings ensures BindingOk(next, k) {
      assert BindingOk(w, k);
    }
  }

  lemma EnvKeepsWorld(w: World, e: EnvStep)
    requires EnvEnabled(w, e) && WorldOk(w)
    ensures WorldOk(EnvApply(w, e))
  {
    var next := EnvApply(w, e);
    forall n | n in next.requests ensures RecordOk(next, n) {
      assert n in w.requests ==> RecordOk(w, n);
    }
    BindingsCarry(w, next);
  }

  lemma NewBindingOk(w: World, req: Request, key: BindingKey, next: World)
    requires BindingsOk(w) && CopyOk(w, req) && key.name == BindingName(req.name)
    requires next == w.(bindings := w.bindings[key := BindingFor(req)])
    ensures BindingsOk(next)
  {
    forall k | k in next.bindings ensures BindingOk(next, k) {
      if k != key {
        assert BindingOk(w, k);
      }
    }
  }

  lemma CreateBindingOk(w: World, req: Request, namespace: string, outcome: Outcome)
    requires WorldOk(w) && CopyOk(w, req)
    ensures var next := CreateBinding(w, req, namespace, outcome).0; WorldOk(next) && Extends(w, next)
  {
    var next := CreateBinding(w, req, namespace, outcome).0;
    if next != w {
      NewBindingOk(w, req, BindingKeyOf(req, namespace), next);
      RecordsCarry(w, next);
    }
  }

  lemma RemoveRequestOk(w: World, name: string, outcome: Outcome)
    requires WorldOk(w)
    ensures var next := RemoveRequest(w, name, outcome).0; WorldOk(next) && Extends(w, next)
  {
    var next := RemoveRequest(w, name, outcome).0;
    if next != w {
      RecordsCarry(w, next);
      BindingsCarry(w, next);
    }
  }

  lemma WriteStatusOk(w: World, req: Request, status: Status, after: After, outcome: Outcome)
    requires WorldOk(w) && CopyOk(w, req) && WriteOk(w, req, status, after)
    ensures var (next, r) := WriteStatus(w, req, status, outcome);
            && WorldOk(next)
            && (r.Success? ==> CopyOk(next, Written(req, status)))
            && (r.Conflict? ==> next == w)
  {
    var (next, r) := WriteStatus(w, req, status, outcome);
    forall n | n in next.requests ensures RecordOk(next, n) {
      assert RecordOk(w, n);
    }
    BindingsCarry(w, next);
  }

  /** What a response tells the next program point. */
  predicate RespOk(w: World, pc: Pc, r: Resp) {
    match pc
    case Fetch(_) => r.Got? ==> CopyOk(w, r.req)
    case ScanFields(req, cfg) => !r.LacksField? ==> MissingFields(cfg, req.spec) == {}
    case OpenTicket(req, _) => r.Opened? ==> TicketOwned(w, Issue(r.key), req.uid)
    case CheckTime(_, _) => r.Clock? && r.at == w.now
    case Write(req, status, _, _) =>
      && (r.Success? ==> CopyOk(w, Written(req, status)))
      && (r.Conflict? ==> CopyOk(w, req) && TicketOwned(w, status.ticket, req.uid))
    case _ => true
  }

  /** The calls that can change anything. */
  predicate ChangesWorld(pc: Pc) {
    || pc.Write? || pc.Bind? || pc.OpenTicket? || pc.Delete? || pc.RejectMove? || pc.CompleteMove?
    || pc.RejectComment? || pc.CompleteComment? || pc.PreApproveComment?
  }

  lemma ReadsKeepWorld(w: World, pc: Pc, outcome: Outcome, hint: Hint)
    requires !ChangesWorld(pc)
    ensures Perform(w, pc, outcome, hint).0 == w
  {
  }

  lemma PostCommentOk(w: World, ticket: TicketRef, note: Comment, outcome: Outcome)
    requires WorldOk(w)
    ensures var next := PostComment(w, ticket, note, outcome).0; WorldOk(next) && Extends(w, next)
  {
    var next := PostComment(w, ticket, note, outcome).0;
    if next != w {
      TicketsOnlyOk(w, next);
    }
  }

  lemma MoveIssueOk(w: World, ticket: TicketRef, transition: string, outcome: Outcome)
    requires WorldOk(w)
    ensures var next := MoveIssue(w, ticket, transition, outcome).0; WorldOk(next) && Extends(w, next)
  {
    var next := MoveIssue(w, ticket, transition, outcome).0;
    if next != w {
      TicketsOnlyOk(w, next);
    }
  }

  lemma CreateIssueOk(w: World, owner: nat, hint: Hint, outcome: Outcome)
    requires WorldOk(w) && owner in w.names && hint.key !in w.tickets
    ensures var (next, r) := CreateIssue(w, owner, hint, outcome);
            WorldOk(next) && Extends(w, next) && (r.Opened? ==> TicketOwned(next, Issue(r.key), owner))
  {
    TicketsOnlyOk(w, CreateIssue(w, owner, hint, outcome).0);
  }

  lemma PerformOk(w: World, pc: Pc, outcome: Outcome, hint: Hint)
    requires WorldOk(w) && PcOk(w, pc) && HintOk(w, pc, hint)
    ensures var (next, r) := Perform(w, pc, outcome, hint);
            WorldOk(next) && RespOk(next, pc, r) && (!pc.Write? ==> Extends(w, next))
  {
    if pc.RejectComment? {
      PostCommentOk(w, pc.req.status.ticket, RejectedNote(pc.req.status.message), outcome);
    } else if pc.RejectMove? {
      MoveIssueOk(w, pc.req.status.ticket, pc.cfg.rejectedTransition, outcome);
    } else if pc.OpenTicket? {
      CreateIssueOk(w, pc.req.uid, hint, outcome);
    } else if pc.PreApproveComment? {
      PostCommentOk(w, Issue(pc.key), PreApprovalComment(pc.req, pc.cfg), outcome);
    } else if pc.CompleteComment? {
      PostCommentOk(w, pc.req.status.ticket, CompletedNote, outcome);
    } else if pc.CompleteMove? {
      MoveIssueOk(w, pc.req.status.ticket, pc.cfg.completedTransition, outcome);
    } else if pc.Bind? {
      CreateBindingOk(w, pc.req, pc.req.spec.namespaces[pc.index], outcome);
    } else if pc.Delete? {
      RemoveRequestOk(w, pc.req.name, outcome);
    } else if pc.Write? {
      WriteStatusOk(w, pc.req, pc.status, pc.after, outcome);
    } else if pc.Fetch? && pc.name in w.requests {
      assert RecordOk(w, pc.name);
    }
  }

  /** The issue tracker always has a key it has not used. */
  lemma UnusedKey(used: set<nat>) returns (key: nat)
    ensures forall k | k in used :: k < key
  {
    if used == {} {
      key := 0;
    } else {
      var k :| k in used;
      var rest := UnusedKey(used - {k});
      key := if rest <= k then k + 1 else rest;
      assert used == (used - {k}) + {k};
    }
  }

  /** The program points of `handleNewRequest`. */
  predicate NewPath(pc: Pc) {
    || pc.ScanFields? || pc.FindReporter? || pc.OpenTicket? || pc.CheckLabels? || pc.CheckRegex?
    || pc.CheckStart? || pc.PreApproveComment?
  }

  lemma NextShapeNew(w: World, pc: Pc, r: Resp)
    requires NewPath(pc) && PcShape(w, pc) && StatusOk(pc.req.status) && RespOk(w, pc, r)
    ensures PcShape(w, Next(pc, r))
  {
  }

  lemma NextShape(w: World, pc: Pc, r: Resp)
    requires !pc.Write? ==> PcShape(w, pc)
    requires pc.Write? ==> WriteShape(pc.req, pc.status, pc.after)
    requires HasReq(pc) && !pc.Write? ==> StatusOk(pc.req.status) && TicketOwned(w, pc.req.status.ticket, pc.req.uid)
    requires RespOk(w, pc, r)
    ensures PcShape(w, Next(pc, r))
  {
    if NewPath(pc) {
      NextShapeNew(w, pc, r);
    }
  }

  lemma NextOk(w: World, pc: Pc, r: Resp)
    requires !pc.Write? ==> PcOk(w, pc)
    requires pc.Write? ==> WriteShape(pc.req, pc.status, pc.after)
    requires RespOk(w, pc, r)
    ensures PcOk(w, Next(pc, r))
  {
    NextShape(w, pc, r);
    var next := Next(pc, r);
    if HasReq(next) && !pc.Fetch? && !pc.Write? {
      assert next.req == pc.req;
    }
  }

  lemma AnswerOk(s: State, outcome: Outcome, hint: Hint)
    requires Inv(s) && InCall(s.pc) && HintOk(s.world, s.pc, hint)
    ensures Inv(Answer(s, outcome, hint))
  {
    var (next, r) := Perform(s.world, s.pc, outcome, hint);
    PerformOk(s.world, s.pc, outcome, hint);
    if !s.pc.Write? {
      PcCarries(s.world, next, s.pc);
    }
    NextOk(next, s.pc, r);
  }

  lemma EnvKeepsInv(s: State, e: EnvStep)
    requires Inv(s) && EnvEnabled(s.world, e)
    ensures Inv(State(EnvApply(s.world, e), s.pc))
  {
    EnvKeepsWorld(s.world, e);
    EnvExtends(s.world, e);
    PcCarries(s.world, EnvApply(s.world, e), s.pc);
  }

  ghost predicate SameStores(w: World, next: World) {
    next.requests == w.requests && next.names == w.names && next.tickets == w.tickets && next.bindings == w.bindings
  }

  lemma SettlingKeepsStores(w: World, name: string, result: Result)
    ensures SameStores(w, SettleWorld(w, name, result))
  {
    match result
    case Error => assert SettleWorld(w, name, result) == w.(queue := w.queue + {name});
    case Done(delay) =>
      if delay > 0 {
        assert SettleWorld(w, name, result) == w.(timers := AddTimer(w.timers, name, w.now + delay));
      }
  }

  /** Popping, settling and restarting touch no stored object. */
  lemma OtherStepsKeepRecords(s: State, step: Step)
    requires !step.Env? && !step.Respond?
    ensures SameStores(s.world, Apply(s, step).world)
  {
    if Enabled(s, step) && step.Settle? {
      SettlingKeepsStores(s.world, s.pc.name, s.pc.result);
    }
  }

  lemma WorkerKeepsInv(s: State, step: Step)
    requires Inv(s) && Enabled(s, step) && !step.Env? && !step.Respond?
    ensures Inv(Apply(s, step))
  {
    OtherStepsKeepRecords(s, step);
    TicketsOnlyOk(s.world, Apply(s, step).world);
    assert !HasReq(Apply(s, step).pc);
  }

  lemma StepKeepsInv(s: State, step: Step)
    requires Inv(s)
    ensures Inv(Apply(s, step))
  {
    if Enabled(s, step) {
      if step.Env? {
        EnvKeepsInv(s, step.e);
      } else if step.Respond? {
        AnswerOk(s, step.outcome, step.hint);
      } else {
        WorkerKeepsInv(s, step);
      }
    }
  }

  /** The invariant holds in every state any run can reach. */
  lemma {:induction false} Reachable(s: State, steps: seq<Step>)
    requires Init(s)
    ensures Inv(Run(s, steps))
  {
    if steps == [] {
      InitInv(s);
    } else {
      Reachable(s, steps[..|steps| - 1]);
      StepKeepsInv(Run(s, steps[..|steps| - 1]), steps[|steps| - 1]);
    }
  }
}
