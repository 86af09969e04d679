/**
 Requests do not interfere. What one request can see of the world (its record, tickets, bindings,
 wake-ups, and its own reconcile) evolves as if the other requests did not exist.
 */
module Isolation {
  import opened Types
  import opened Machine
  import opened Invariants
  import opened Wakeups
  import opened History

  predicate TicketOf(w: World, key: nat, n: string) {
    key in w.tickets && w.tickets[key].owner in w.names && w.names[w.tickets[key].owner] == n
  }

  function Only<T>(m: map<string, T>, n: string): map<string, T> {
    map k | k in m && k == n :: m[k]
  }

  function OnlyNamed(names: map<nat, string>, n: string): map<nat, string> {
    map u | u in names && names[u] == n :: names[u]
  }

  function OwnNames(w: World, n: string): map<nat, string> {
    OnlyNamed(w.names, n)
  }

  function OwnBindings(w: World, n: string): map<BindingKey, Binding> {
    map k | k in w.bindings && k.name == BindingName(n) :: w.bindings[k]
  }

  function OwnTickets(w: World, n: string): map<nat, Ticket> {
    map k | k in w.tickets && TicketOf(w, k, n) :: w.tickets[k]
  }

  /** The part of the world that belongs to the name `n`, and what all requests share. */
  function Restrict(w: World, n: string): World {
    w.(requests := Only(w.requests, n), names := OwnNames(w, n), bindings := OwnBindings(w, n),
       tickets := OwnTickets(w, n), queue := w.queue * {n}, pending := w.pending * {n}, timers := Only(w.timers, n))
  }

  function View(s: State, n: string): State {
    State(Restrict(s.world, n), if PcName(s.pc) == Some(n) then s.pc else Idle)
  }

  predicate EnvConcerns(w: World, e: EnvStep, n: string) {
    match e
    case Tick(_) => true
    case CreateRequest(name, _, _) => name == n
    case EditSpec(name, _) => name == n
    case DeleteRequest(name) => name == n
    case MoveTicket(key, _) => TicketOf(w, key, n)
    case Collect(key) => key.name == BindingName(n)
    case RemoveBinding(key) => key.name == BindingName(n)
    case Deliver(name) => name == n
    case Fire(name) => name == n
    case Reconfigure(_, _) => true
    case SetNamespace(_, _) => true
    case DropNamespace(_) => true
    case SetUsers(_) => true
  }

  /** The steps a request notices: those about it, and those that change what all requests share. */
  ghost predicate Concerns(s: State, step: Step, n: string) {
    && Enabled(s, step)
    && match step
       case Env(e) => EnvConcerns(s.world, e, n)
       case Pop(name) => name == n
       case Respond(_, _) => PcName(s.pc) == Some(n)
       case Settle => PcName(s.pc) == Some(n)
       case Restart => true
  }

  /** Equality of restricted worlds, field by field. */
  lemma SameView(w: World, n: string, v: World)
    requires w == v.(requests := w.requests, names := w.names, bindings := w.bindings, tickets := w.tickets,
                     queue := w.queue, pending := w.pending, timers := w.timers)
    requires Only(w.requests, n) == v.requests && OwnNames(w, n) == v.names
    requires OwnBindings(w, n) == v.bindings && OwnTickets(w, n) == v.tickets
    requires w.queue * {n} == v.queue && w.pending * {n} == v.pending && Only(w.timers, n) == v.timers
    ensures Restrict(w, n) == v
  {
  }

  // Maps

  lemma OnlySet<T>(m: map<string, T>, k: string, v: T, n: string)
    ensures Only(m[k := v], n) == if k == n then Only(m, n)[k := v] else Only(m, n)
  {
  }

  lemma OnlyRemove<T>(m: map<string, T>, k: string, n: string)
    ensures Only(m - {k}, n) == if k == n then Only(m, n) - {k} else Only(m, n)
  {
  }

  lemma NameSet(names: map<nat, string>, u: nat, name: string, n: string)
    requires u !in names
    ensures OnlyNamed(names[u := name], n) == if name == n then OnlyNamed(names, n)[u := name] else OnlyNamed(names, n)
  {
  }

  lemma SetView(s: set<string>, k: string, n: string)
    ensures (s + {k}) * {n} == if k == n then s * {n} + {k} else s * {n}
    ensures (s - {k}) * {n} == if k == n then s * {n} - {k} else s * {n}
  {
  }

  /** Tickets and bindings are seen alike when their maps and the owners' names are. */
  lemma SameOwned(w: World, next: World, n: string)
    requires next.tickets == w.tickets && next.bindings == w.bindings
    requires forall k | k in w.tickets :: w.tickets[k].owner in w.names
    requires forall u | u in w.names :: u in next.names && next.names[u] == w.names[u]
    ensures OwnTickets(next, n) == OwnTickets(w, n) && OwnBindings(next, n) == OwnBindings(w, n)
  {
  }

  // Environment steps

  lemma StoreNewView(w: World, name: string, uid: nat, spec: Spec, n: string)
    requires TicketsOk(w) && uid !in w.names
    ensures Restrict(StoreNew(w, name, uid, spec), n)
         == if name == n then StoreNew(Restrict(w, n), name, uid, spec) else Restrict(w, n)
  {
    var next := StoreNew(w, name, uid, spec);
    OnlySet(w.requests, name, Request(name, uid, 0, spec, NEW_STATUS), n);
    SetView(w.pending, name, n);
    SameOwned(w, next, n);
    NameSet(w.names, uid, name, n);
    if name == n {
      SameView(next, n, StoreNew(Restrict(w, n), name, uid, spec));
    } else {
      SameView(next, n, Restrict(w, n));
    }
  }

  lemma EditedView(w: World, name: string, spec: Spec, n: string)
    requires WorldOk(w) && name in w.requests
    ensures name == n ==> n in Restrict(w, n).requests
    ensures Restrict(Edited(w, name, spec), n)
         == if name == n then Edited(Restrict(w, n), name, spec) else Restrict(w, n)
  {
    assert RecordOk(w, name);
    var next := Edited(w, name, spec);
    OnlySet(w.requests, name, next.requests[name], n);
    SetView(w.pending, name, n);
    SameOwned(w, next, n);
    if name == n {
      SameView(next, n, Edited(Restrict(w, n), name, spec));
    } else {
      SameView(next, n, Restrict(w, n));
    }
  }

  lemma ErasedView(w: World, name: string, n: string)
    requires TicketsOk(w)
    ensures Restrict(Erased(w, name), n) == if name == n then Erased(Restrict(w, n), name) else Restrict(w, n)
  {
    var next := Erased(w, name);
    OnlyRemove(w.requests, name, n);
    SetView(w.pending, name, n);
    SameOwned(w, next, n);
    if name == n {
      SameView(next, n, Erased(Restrict(w, n), name));
    } else {
      SameView(next, n, Restrict(w, n));
    }
  }

  /** A change to the wake-ups only. */
  lemma WakeView(w: World, queue: set<string>, pending: set<string>, timers: map<string, Time>, n: string)
    ensures Restrict(w.(queue := queue, pending := pending, timers := timers), n)
         == Restrict(w, n).(queue := queue * {n}, pending := pending * {n}, timers := Only(timers, n))
  {
    var next := w.(queue := queue, pending := pending, timers := timers);
    assert OwnTickets(next, n) == OwnTickets(w, n) && OwnBindings(next, n) == OwnBindings(w, n);
    SameView(next, n, Restrict(w, n).(queue := queue * {n}, pending := pending * {n}, timers := Only(timers, n)));
  }

  lemma QueuedView(w: World, name: string, n: string)
    ensures var v := Restrict(w, n);
            Restrict(w.(queue := w.queue + {name}), n) == if name == n then v.(queue := v.queue + {name}) else v
  {
    SetView(w.queue, name, n);
    WakeView(w, w.queue + {name}, w.pending, w.timers, n);
  }

  lemma AnnouncedView(w: World, name: string, n: string)
    ensures var v := Restrict(w, n);
            Restrict(w.(pending := w.pending - {name}), n) == if name == n then v.(pending := v.pending - {name}) else v
  {
    SetView(w.pending, name, n);
    WakeView(w, w.queue, w.pending - {name}, w.timers, n);
  }

  lemma DeliveredView(w: World, name: string, n: string)
    requires TicketsOk(w)
    ensures Restrict(Delivered(w, name), n) == if name == n then Delivered(Restrict(w, n), name) else Restrict(w, n)
  {
    var taken := w.(pending := w.pending - {name});
    AnnouncedView(w, name, n);
    QueuedView(taken, name, n);
    assert Delivered(w, name) == taken.(queue := taken.queue + {name});
  }

  lemma FiredView(w: World, name: string, n: string)
    ensures Restrict(Fired(w, name), n) == if name == n then Fired(Restrict(w, n), name) else Restrict(w, n)
  {
    OnlyRemove(w.timers, name, n);
    SetView(w.queue, name, n);
    WakeView(w, w.queue + {name}, w.pending, w.timers - {name}, n);
  }

  lemma UnboundView(w: World, key: BindingKey, n: string)
    ensures Restrict(Unbound(w, key), n)
         == if key.name == BindingName(n) then Unbound(Restrict(w, n), key) else Restrict(w, n)
  {
    var next := Unbound(w, key);
    assert OwnBindings(next, n) == if key.name == BindingName(n) then OwnBindings(w, n) - {key} else OwnBindings(w, n);
    assert OwnTickets(next, n) == OwnTickets(w, n);
    SameView(next, n, if key.name == BindingName(n) then Unbound(Restrict(w, n), key) else Restrict(w, n));
  }

  lemma WithoutNamespaceView(w: World, ns: string, n: string)
    ensures Restrict(WithoutNamespace(w, ns), n) == WithoutNamespace(Restrict(w, n), ns)
  {
    var next, v := WithoutNamespace(w, ns), WithoutNamespace(Restrict(w, n), ns);
    assert OwnBindings(next, n) == v.bindings;
    assert OwnTickets(next, n) == OwnTickets(w, n);
    SameView(next, n, v);
  }

  /** A change to one ticket that keeps its owner. */
  lemma TicketView(w: World, key: nat, t: Ticket, n: string)
    requires key in w.tickets && t.owner == w.tickets[key].owner
    ensures var next := w.(tickets := w.tickets[key := t]); var v := Restrict(w, n);
            Restrict(next, n) == if TicketOf(w, key, n) then v.(tickets := v.tickets[key := t]) else v
  {
    var next, v := w.(tickets := w.tickets[key := t]), Restrict(w, n);
    assert OwnTickets(next, n) == if TicketOf(w, key, n) then v.tickets[key := t] else v.tickets;
    SameView(next, n, if TicketOf(w, key, n) then v.(tickets := v.tickets[key := t]) else v);
  }

  lemma SharedView(w: World, next: World, n: string)
    requires next.requests == w.requests && next.names == w.names && next.bindings == w.bindings
    requires next.tickets == w.tickets && next.queue == w.queue && next.pending == w.pending && next.timers == w.timers
    ensures var v := Restrict(w, n);
            Restrict(next, n) == next.(requests := v.requests, names := v.names, bindings := v.bindings,
                                       tickets := v.tickets,
                                       queue := v.queue, pending := v.pending, timers := v.timers)
  {
    assert OwnTickets(next, n) == OwnTickets(w, n);
  }

  lemma GarbageInView(w: World, key: BindingKey, n: string)
    requires Garbage(w, key) && key.name == BindingName(n)
    ensures Garbage(Restrict(w, n), key)
  {
  }

  ghost predicate EnvViewed(w: World, e: EnvStep, n: string)
    requires EnvEnabled(w, e)
  {
    if EnvConcerns(w, e, n) then
      EnvEnabled(Restrict(w, n), e) && Restrict(EnvApply(w, e), n) == EnvApply(Restrict(w, n), e)
    else Restrict(EnvApply(w, e), n) == Restrict(w, n)
  }

  lemma EnvView(w: World, e: EnvStep, n: string)
    requires WorldOk(w) && EnvEnabled(w, e)
    ensures EnvViewed(w, e, n)
  {
    match e
    case Tick(_) => SharedView(w, EnvApply(w, e), n);
    case CreateRequest(name, uid, spec) => StoreNewView(w, name, uid, spec, n);
    case EditSpec(name, spec) => EditedView(w, name, spec, n);
    case DeleteRequest(name) => ErasedView(w, name, n);
    case MoveTicket(key, transition) => TicketView(w, key, EnvApply(w, e).tickets[key], n);
    case Collect(key) =>
      if key.name == BindingName(n) { GarbageInView(w, key, n); }
      UnboundView(w, key, n);
    case RemoveBinding(key) => UnboundView(w, key, n);
    case Deliver(name) => DeliveredView(w, name, n);
    case Fire(name) => FiredView(w, name, n);
    case Reconfigure(_, _) => SharedView(w, EnvApply(w, e), n);
    case SetNamespace(_, _) => SharedView(w, EnvApply(w, e), n);
    case DropNamespace(ns) => WithoutNamespaceView(w, ns, n);
    case SetUsers(_) => SharedView(w, EnvApply(w, e), n);
  }

  // External calls

  /** A call of a reconcile of `req.name` on the whole world, seen from `n`. */
  ghost predicate CallViewed(w: World, pc: Pc, outcome: Outcome, hint: Hint, n: string) {
    var (next, r) := Perform(w, pc, outcome, hint);
    if PcName(pc) == Some(n) then Perform(Restrict(w, n), pc, outcome, hint) == (Restrict(next, n), r)
    else Restrict(next, n) == Restrict(w, n)
  }

  lemma PostCommentView(w: World, req: Request, ticket: TicketRef, note: Comment, outcome: Outcome, n: string)
    requires TicketOwned(w, ticket, req.uid) && req.uid in w.names && w.names[req.uid] == req.name
    ensures var (next, r) := PostComment(w, ticket, note, outcome);
            if req.name == n then PostComment(Restrict(w, n), ticket, note, outcome) == (Restrict(next, n), r)
            else Restrict(next, n) == Restrict(w, n)
  {
    if outcome != Err && ticket.Issue? {
      var t := w.tickets[ticket.key];
      TicketView(w, ticket.key, t.(comments := t.comments + [note]), n);
    }
  }

  lemma MoveIssueView(w: World, req: Request, ticket: TicketRef, transition: string, outcome: Outcome, n: string)
    requires TicketOwned(w, ticket, req.uid) && req.uid in w.names && w.names[req.uid] == req.name
    ensures var (next, r) := MoveIssue(w, ticket, transition, outcome);
            if req.name == n then MoveIssue(Restrict(w, n), ticket, transition, outcome) == (Restrict(next, n), r)
            else Restrict(next, n) == Restrict(w, n)
  {
    if outcome != Err && CanMove(w, ticket, transition) {
      var t := w.tickets[ticket.key];
      TicketView(w, ticket.key, t.(status := w.workflow[(t.status, transition)], moves := t.moves + [transition]), n);
    }
  }

  lemma CreateIssueView(w: World, req: Request, hint: Hint, outcome: Outcome, n: string)
    requires req.uid in w.names && w.names[req.uid] == req.name && hint.key !in w.tickets
    ensures var (next, r) := CreateIssue(w, req.uid, hint, outcome);
            if req.name == n then CreateIssue(Restrict(w, n), req.uid, hint, outcome) == (Restrict(next, n), r)
            else Restrict(next, n) == Restrict(w, n)
  {
    if outcome != Err {
      AddTicketView(w, hint.key, Ticket(req.uid, w.openStatus, hint.payload, [], []), n);
    }
  }

  lemma AddTicketView(w: World, key: nat, t: Ticket, n: string)
    requires key !in w.tickets && t.owner in w.names
    ensures var v := Restrict(w, n);
            Restrict(w.(tickets := w.tickets[key := t]), n) ==
            if w.names[t.owner] == n then v.(tickets := v.tickets[key := t]) else v
  {
    var next, v := w.(tickets := w.tickets[key := t]), Restrict(w, n);
    assert OwnTickets(next, n) == if w.names[t.owner] == n then v.tickets[key := t] else v.tickets;
    SameView(next, n, if w.names[t.owner] == n then v.(tickets := v.tickets[key := t]) else v);
  }

  lemma AddBindingView(w: World, key: BindingKey, b: Binding, n: string)
    ensures var v := Restrict(w, n);
            Restrict(w.(bindings := w.bindings[key := b]), n) ==
            if key.name == BindingName(n) then v.(bindings := v.bindings[key := b]) else v
  {
    var next, v := w.(bindings := w.bindings[key := b]), Restrict(w, n);
    assert OwnBindings(next, n) == if key.name == BindingName(n) then v.bindings[key := b] else v.bindings;
    assert OwnTickets(next, n) == OwnTickets(w, n);
    SameView(next, n, if key.name == BindingName(n) then v.(bindings := v.bindings[key := b]) else v);
  }

  lemma SameBindingName(a: string, b: string)
    ensures BindingName(a) == BindingName(b) <==> a == b
  {
    if BindingName(a) == BindingName(b) {
      BindingNameInjective(a, b);
    }
  }

  lemma CreateBindingView(w: World, req: Request, ns: string, outcome: Outcome, n: string)
    ensures var (next, r) := CreateBinding(w, req, ns, outcome);
            if req.name == n then CreateBinding(Restrict(w, n), req, ns, outcome) == (Restrict(next, n), r)
            else Restrict(next, n) == Restrict(w, n)
  {
    SameBindingName(req.name, n);
    AddBindingView(w, BindingKeyOf(req, ns), BindingFor(req), n);
  }

  /** Replacing a record, with or without announcing it. */
  lemma PutView(w: World, r: Request, pending: set<string>, n: string)
    requires TicketsOk(w) && (pending == w.pending || pending == w.pending + {r.name})
    ensures var v := Restrict(w, n);
            Restrict(w.(requests := w.requests[r.name := r], pending := pending), n) ==
            if r.name == n then v.(requests := v.requests[n := r], pending := pending * {n}) else v
  {
    var next := w.(requests := w.requests[r.name := r], pending := pending);
    OnlySet(w.requests, r.name, r, n);
    SetView(w.pending, r.name, n);
    SameOwned(w, next, n);
    if r.name == n {
      SameView(next, n, Restrict(w, n).(requests := Restrict(w, n).requests[n := r], pending := pending * {n}));
    } else {
      SameView(next, n, Restrict(w, n));
    }
  }

  lemma WriteStatusView(w: World, req: Request, status: Status, outcome: Outcome, n: string)
    requires WorldOk(w)
    ensures var (next, r) := WriteStatus(w, req, status, outcome);
            if req.name == n then WriteStatus(Restrict(w, n), req, status, outcome) == (Restrict(next, n), r)
            else Restrict(next, n) == Restrict(w, n)
  {
    if WriteTakesEffect(w, req, outcome) {
      assert RecordOk(w, req.name);
      var prev := w.requests[req.name];
      var r := prev.(status := status, version := prev.version + 1);
      PutView(w, r, Enqueue(w.pending, prev, r), n);
      SetView(w.pending, req.name, n);
    }
  }

  lemma ReadView(w: World, pc: Pc, outcome: Outcome, hint: Hint, n: string)
    requires pc.Idle? || pc.Fetch? || pc.LoadConfig? || pc.ScanFields? || pc.FindReporter? || pc.CheckLabels?
          || pc.CheckRegex? || pc.CheckStart? || pc.CheckTime? || pc.CheckEnd? || pc.Arm? || pc.Finished?
    ensures CallViewed(w, pc, outcome, hint, n)
  {
    ReadsKeepWorld(w, pc, outcome, hint);
    if PcName(pc) == Some(n) {
      ReadsKeepWorld(Restrict(w, n), pc, outcome, hint);
      SameReading(w, pc, outcome, hint, n);
    }
  }

  lemma SameReading(w: World, pc: Pc, outcome: Outcome, hint: Hint, n: string)
    requires !ChangesWorld(pc) && !pc.CheckApproval? && PcName(pc) == Some(n)
    ensures Perform(Restrict(w, n), pc, outcome, hint).1 == Perform(w, pc, outcome, hint).1
  {
  }

  lemma ApprovalView(w: World, pc: Pc, outcome: Outcome, hint: Hint, n: string)
    requires pc.CheckApproval? && PcOk(w, pc)
    ensures CallViewed(w, pc, outcome, hint, n)
  {
  }

  lemma TicketCallView(w: World, pc: Pc, outcome: Outcome, hint: Hint, n: string)
    requires pc.RejectComment? || pc.RejectMove? || pc.PreApproveComment? || pc.CompleteComment? || pc.CompleteMove?
    requires PcOk(w, pc)
    ensures CallViewed(w, pc, outcome, hint, n)
  {
    var req := pc.req;
    match pc
    case RejectComment(_, _) =>
      PostCommentView(w, req, req.status.ticket, RejectedNote(req.status.message), outcome, n);
    case RejectMove(_, cfg) => MoveIssueView(w, req, req.status.ticket, cfg.rejectedTransition, outcome, n);
    case PreApproveComment(_, cfg, key) =>
      PostCommentView(w, req, Issue(key), PreApprovalComment(req, cfg), outcome, n);
    case CompleteComment(_, _) => PostCommentView(w, req, req.status.ticket, CompletedNote, outcome, n);
    case CompleteMove(_, cfg) => MoveIssueView(w, req, req.status.ticket, cfg.completedTransition, outcome, n);
  }

  lemma CallView(w: World, pc: Pc, outcome: Outcome, hint: Hint, n: string)
    requires WorldOk(w) && PcOk(w, pc) && HintOk(w, pc, hint)
    ensures CallViewed(w, pc, outcome, hint, n)
  {
    if pc.OpenTicket? {
      CreateIssueView(w, pc.req, hint, outcome, n);
    } else if pc.Bind? {
      CreateBindingView(w, pc.req, pc.req.spec.namespaces[pc.index], outcome, n);
    } else if pc.Delete? {
      ErasedView(w, pc.req.name, n);
    } else if pc.Write? {
      WriteStatusView(w, pc.req, pc.status, outcome, n);
    } else if pc.CheckApproval? {
      ApprovalView(w, pc, outcome, hint, n);
    } else if pc.RejectComment? || pc.RejectMove? || pc.PreApproveComment? || pc.CompleteComment? || pc.CompleteMove? {
      TicketCallView(w, pc, outcome, hint, n);
    } else {
      ReadView(w, pc, outcome, hint, n);
    }
  }

  // Steps and runs

  /** One step seen from `n`: the same step if it concerns `n`, nothing otherwise. */
  ghost predicate StepViewed(s: State, step: Step, n: string) {
    if Concerns(s, step, n) then Enabled(View(s, n), step) && View(Apply(s, step), n) == Apply(View(s, n), step)
    else View(Apply(s, step), n) == View(s, n)
  }

  lemma RespondView(s: State, step: Step, n: string)
    requires Inv(s) && step.Respond? && Enabled(s, step)
    ensures StepViewed(s, step, n)
  {
    AnswerKeepsName(s, step.outcome, step.hint);
    CallView(s.world, s.pc, step.outcome, step.hint, n);
  }

  lemma PopView(s: State, name: string, n: string)
    requires Inv(s) && Enabled(s, Pop(name))
    ensures StepViewed(s, Pop(name), n)
  {
    SetView(s.world.queue, name, n);
    WakeView(s.world, s.world.queue - {name}, s.world.pending, s.world.timers, n);
  }

  lemma TimedView(w: World, name: string, at: Time, n: string)
    ensures var v := Restrict(w, n);
            Restrict(w.(timers := AddTimer(w.timers, name, at)), n) ==
            if name == n then v.(timers := AddTimer(v.timers, name, at)) else v
  {
    OnlySet(w.timers, name, at, n);
    WakeView(w, w.queue, w.pending, AddTimer(w.timers, name, at), n);
  }

  lemma SettleWorldView(w: World, name: string, result: Result, n: string)
    requires TicketsOk(w)
    ensures Restrict(SettleWorld(w, name, result), n)
         == if name == n then SettleWorld(Restrict(w, n), name, result) else Restrict(w, n)
  {
    match result
    case Error => QueuedView(w, name, n);
    case Done(delay) =>
      if delay > 0 {
        TimedView(w, name, w.now + delay, n);
      }
  }

  lemma SettleView(s: State, n: string)
    requires Inv(s) && Enabled(s, Settle)
    ensures StepViewed(s, Settle, n)
  {
    SettleWorldView(s.world, s.pc.name, s.pc.result, n);
  }

  lemma RestartView(s: State, n: string)
    requires Inv(s)
    ensures StepViewed(s, Restart, n)
  {
    var w := s.world;
    var next := RestartWorld(w);
    SameOwned(w, next, n);
    assert next.pending * {n} == RestartWorld(Restrict(w, n)).pending;
    SameView(next, n, RestartWorld(Restrict(w, n)));
  }

  lemma StepView(s: State, step: Step, n: string)
    requires Inv(s)
    ensures StepViewed(s, step, n)
  {
    if Enabled(s, step) {
      match step
      case Env(e) => EnvView(s.world, e, n);
      case Pop(name) => PopView(s, name, n);
      case Respond(_, _) => RespondView(s, step, n);
      case Settle => SettleView(s, n);
      case Restart => RestartView(s, n);
    }
  }

  /** Every step can be taken when its turn comes. */
  ghost predicate Legal(s: State, steps: seq<Step>) {
    forall i | 0 <= i < |steps| :: Enabled(Run(s, steps[..i]), steps[i])
  }

  lemma LegalFront(s: State, steps: seq<Step>)
    requires steps != [] && Legal(s, steps)
    ensures var k := |steps| - 1; Legal(s, steps[..k]) && Enabled(Run(s, steps[..k]), steps[k])
  {
    var k := |steps| - 1;
    forall i | 0 <= i < k ensures Enabled(Run(s, steps[..k][..i]), steps[..k][i]) {
      assert steps[..k][..i] == steps[..i];
      assert Enabled(Run(s, steps[..i]), steps[i]);
    }
    assert Enabled(Run(s, steps[..k]), steps[k]);
  }

  lemma LegalBack(s: State, steps: seq<Step>)
    requires steps != []
    requires var k := |steps| - 1; Legal(s, steps[..k]) && Enabled(Run(s, steps[..k]), steps[k])
    ensures Legal(s, steps)
  {
    var k := |steps| - 1;
    forall i | 0 <= i < |steps| ensures Enabled(Run(s, steps[..i]), steps[i]) {
      if i < k {
        assert steps[..k][..i] == steps[..i];
        assert Enabled(Run(s, steps[..k][..i]), steps[..k][i]);
      }
    }
  }

  /** The steps of a run that concern `n`, in order. */
  ghost function Project(s: State, steps: seq<Step>, n: string): seq<Step> {
    if steps == [] then []
    else
      var k := |steps| - 1;
      Project(s, steps[..k], n) + if Concerns(Run(s, steps[..k]), steps[k], n) then [steps[k]] else []
  }

  lemma {:induction false} IsolationFrom(s: State, steps: seq<Step>, n: string)
    requires Inv(s)
    ensures Inv(Run(s, steps)) && View(Run(s, steps), n) == Run(View(s, n), Project(s, steps, n))
    ensures Legal(View(s, n), Project(s, steps, n))
  {
    if steps != [] {
      var k := |steps| - 1;
      IsolationFrom(s, steps[..k], n);
      StepKeepsInv(Run(s, steps[..k]), steps[k]);
      StepView(Run(s, steps[..k]), steps[k], n);
      var front := Project(s, steps[..k], n);
      if Concerns(Run(s, steps[..k]), steps[k], n) {
        RunSnoc(View(s, n), front, steps[k]);
        assert (front + [steps[k]])[..|front|] == front;
        LegalBack(View(s, n), front + [steps[k]]);
      } else {
        assert Project(s, steps, n) == front;
      }
    }
  }

  /**
   Isolation: what one request sees of any interleaved run is a run of that request alone, taking
   just the steps that concern it, each of which it can take alone too.
   */
  lemma Isolation(s: State, steps: seq<Step>, n: string)
    requires Init(s)
    ensures View(Run(s, steps), n) == Run(View(s, n), Project(s, steps, n))
    ensures Legal(View(s, n), Project(s, steps, n))
  {
    InitInv(s);
    IsolationFrom(s, steps, n);
  }

  // Commuting reconciles

  /** A step of the worker, on `n` if it is a `Pop`. */
  predicate WorkerStep(step: Step, n: string) {
    step == Pop(n) || step.Respond? || step.Settle?
  }

  predicate WorkerSteps(steps: seq<Step>, n: string) {
    forall i | 0 <= i < |steps| :: WorkerStep(steps[i], n)
  }

  /** Whole reconciles of `n`: legal steps of the worker that begin and end idle. */
  ghost predicate Reconciles(s: State, steps: seq<Step>, n: string) {
    s.pc == Idle && WorkerSteps(steps, n) && Legal(s, steps) && Run(s, steps).pc == Idle
  }

  /** The ticket keys the tracker would choose. */
  predicate ChoosesNone(steps: seq<Step>, keys: set<nat>) {
    forall i | 0 <= i < |steps| :: steps[i].Respond? ==> steps[i].hint.key !in keys
  }

  predicate WorksFor(pc: Pc, n: string) {
    PcName(pc) == None || PcName(pc) == Some(n)
  }

  lemma WorkerStepStays(s: State, step: Step, n: string)
    requires Inv(s) && WorksFor(s.pc, n) && WorkerStep(step, n)
    ensures WorksFor(Apply(s, step).pc, n)
  {
    if Enabled(s, step) && step.Respond? {
      AnswerKeepsName(s, step.outcome, step.hint);
    }
  }

  lemma {:induction false} WorkerStepsStay(s: State, steps: seq<Step>, n: string)
    requires Inv(s) && WorksFor(s.pc, n) && WorkerSteps(steps, n)
    ensures Inv(Run(s, steps)) && WorksFor(Run(s, steps).pc, n)
  {
    if steps != [] {
      var k := |steps| - 1;
      WorkerStepsStay(s, steps[..k], n);
      StepKeepsInv(Run(s, steps[..k]), steps[k]);
      assert WorkerStep(steps[k], n);
      WorkerStepStays(Run(s, steps[..k]), steps[k], n);
    }
  }

  lemma WorkerStepConcerns(s: State, step: Step, n: string, m: string)
    requires WorksFor(s.pc, n) && WorkerStep(step, n)
    ensures m != n ==> !Concerns(s, step, m)
    ensures m == n && Enabled(s, step) ==> Concerns(s, step, m)
  {
  }

  /** What the worker does for `n` does not concern any other name. */
  lemma {:induction false} WorkerStepsProject(s: State, steps: seq<Step>, n: string, m: string)
    requires Inv(s) && WorksFor(s.pc, n) && WorkerSteps(steps, n)
    ensures m != n ==> Project(s, steps, m) == []
    ensures m == n && Legal(s, steps) ==> Project(s, steps, m) == steps
  {
    if steps != [] {
      var k := |steps| - 1;
      WorkerStepsProject(s, steps[..k], n, m);
      WorkerStepsStay(s, steps[..k], n);
      assert WorkerStep(steps[k], n);
      WorkerStepConcerns(Run(s, steps[..k]), steps[k], n, m);
      if Legal(s, steps) {
        LegalFront(s, steps);
        assert steps[..k] + [steps[k]] == steps;
      }
    }
  }

  /** `t` looks to `n` like `s`, and has at most the tickets `extra` besides. */
  ghost predicate Alike(s: State, t: State, n: string, extra: set<nat>) {
    && WorksFor(s.pc, n) && s.pc == t.pc && Restrict(s.world, n) == Restrict(t.world, n)
    && t.world.tickets.Keys <= s.world.tickets.Keys + extra
  }

  lemma AlikeStep(s: State, t: State, step: Step, n: string, extra: set<nat>)
    requires Inv(s) && Inv(t) && Alike(s, t, n, extra) && WorkerStep(step, n) && Enabled(s, step)
    requires step.Respond? ==> step.hint.key !in extra
    ensures Enabled(t, step) && Alike(Apply(s, step), Apply(t, step), n, extra)
  {
    WorkerStepStays(s, step, n);
    if step.Respond? {
      AlikeAnswer(s, t, step.outcome, step.hint, n, extra);
    } else {
      if step.Pop? {
        assert n in Restrict(s.world, n).queue;
      }
      StepView(s, step, n);
      StepView(t, step, n);
      OtherStepsKeepRecords(s, step);
      OtherStepsKeepRecords(t, step);
    }
  }

  lemma AlikeAnswer(s: State, t: State, outcome: Outcome, hint: Hint, n: string, extra: set<nat>)
    requires Inv(s) && Inv(t) && Alike(s, t, n, extra) && Enabled(s, Respond(outcome, hint)) && hint.key !in extra
    requires WorksFor(Answer(s, outcome, hint).pc, n)
    ensures Enabled(t, Respond(outcome, hint))
    ensures Alike(Answer(s, outcome, hint), Answer(t, outcome, hint), n, extra)
  {
    SameResponse(s, t, outcome, hint, n);
    if !s.pc.OpenTicket? {
      CallKeepsKeys(s.world, s.pc, outcome, hint);
      CallKeepsKeys(t.world, t.pc, outcome, hint);
    }
  }

  lemma MoveKeepsKeys(w: World, ticket: TicketRef, transition: string, outcome: Outcome)
    ensures MoveIssue(w, ticket, transition, outcome).0.tickets.Keys == w.tickets.Keys
  {
  }

  lemma CommentKeepsKeys(w: World, ticket: TicketRef, note: Comment, outcome: Outcome)
    ensures PostComment(w, ticket, note, outcome).0.tickets.Keys == w.tickets.Keys
  {
  }

  lemma CallKeepsKeys(w: World, pc: Pc, outcome: Outcome, hint: Hint)
    requires !pc.OpenTicket?
    ensures Perform(w, pc, outcome, hint).0.tickets.Keys == w.tickets.Keys
  {
    match pc
    case RejectMove(req, cfg) => MoveKeepsKeys(w, req.status.ticket, cfg.rejectedTransition, outcome);
    case CompleteMove(req, cfg) => MoveKeepsKeys(w, req.status.ticket, cfg.completedTransition, outcome);
    case RejectComment(req, _) => CommentKeepsKeys(w, req.status.ticket, RejectedNote(req.status.message), outcome);
    case PreApproveComment(req, cfg, key) => CommentKeepsKeys(w, Issue(key), PreApprovalComment(req, cfg), outcome);
    case CompleteComment(req, _) => CommentKeepsKeys(w, req.status.ticket, CompletedNote, outcome);
    case _ => OtherCallsKeepTickets(w, pc, outcome, hint);
  }

  lemma OtherCallsKeepTickets(w: World, pc: Pc, outcome: Outcome, hint: Hint)
    requires !pc.OpenTicket? && !pc.RejectMove? && !pc.CompleteMove?
    requires !pc.RejectComment? && !pc.PreApproveComment? && !pc.CompleteComment?
    ensures Perform(w, pc, outcome, hint).0.tickets == w.tickets
  {
    if !ChangesWorld(pc) {
      ReadsKeepWorld(w, pc, outcome, hint);
    }
  }

  lemma SameResponse(s: State, t: State, outcome: Outcome, hint: Hint, n: string)
    requires Inv(s) && Inv(t) && InCall(s.pc) && PcName(s.pc) == Some(n)
    requires s.pc == t.pc && Restrict(s.world, n) == Restrict(t.world, n)
    requires HintOk(s.world, s.pc, hint) && HintOk(t.world, t.pc, hint)
    ensures Answer(s, outcome, hint).pc == Answer(t, outcome, hint).pc
    ensures Restrict(Answer(s, outcome, hint).world, n) == Restrict(Answer(t, outcome, hint).world, n)
  {
    CallView(s.world, s.pc, outcome, hint, n);
    CallView(t.world, t.pc, outcome, hint, n);
  }

  /** Whole reconciles stay legal where the request sees the same, unless they need a key taken in between. */
  lemma {:induction false} LegalElsewhere(s: State, t: State, steps: seq<Step>, n: string, extra: set<nat>)
    requires Inv(s) && Inv(t) && Alike(s, t, n, extra)
    requires WorkerSteps(steps, n) && Legal(s, steps) && ChoosesNone(steps, extra)
    ensures Inv(Run(s, steps)) && Inv(Run(t, steps)) && Alike(Run(s, steps), Run(t, steps), n, extra)
    ensures Legal(t, steps)
  {
    if steps != [] {
      var k := |steps| - 1;
      LegalFront(s, steps);
      LegalElsewhere(s, t, steps[..k], n, extra);
      StepKeepsInv(Run(s, steps[..k]), steps[k]);
      StepKeepsInv(Run(t, steps[..k]), steps[k]);
      assert WorkerStep(steps[k], n);
      AlikeStep(Run(s, steps[..k]), Run(t, steps[..k]), steps[k], n, extra);
      LegalBack(t, steps);
    }
  }

  /** The tickets after reconciling one name, besides those there were. */
  ghost function NewKeys(s: State, steps: seq<Step>): set<nat> {
    Run(s, steps).world.tickets.Keys - s.world.tickets.Keys
  }

  lemma LegalAfter(s: State, first: seq<Step>, second: seq<Step>, a: string, b: string)
    requires Inv(s) && a != b && Reconciles(s, first, a) && Reconciles(s, second, b)
    requires ChoosesNone(second, NewKeys(s, first))
    ensures Reconciles(Run(s, first), second, b)
  {
    WorkerStepsProject(s, first, a, b);
    WorkerStepsStay(s, first, a);
    IsolationFrom(s, first, b);
    LegalElsewhere(s, Run(s, first), second, b, NewKeys(s, first));
  }

  lemma {:induction false} ProjectConcat(s: State, first: seq<Step>, second: seq<Step>, n: string)
    ensures Project(s, first + second, n) == Project(s, first, n) + Project(Run(s, first), second, n)
  {
    if second == [] {
      assert first + second == first;
    } else {
      var k := |second| - 1;
      ProjectConcat(s, first, second[..k], n);
      RunConcat(s, first, second[..k]);
      assert (first + second)[..|first| + k] == first + second[..k];
    }
  }

  /** After whole reconciles of `a` and then of `b`, each name has seen its own steps only. */
  lemma OrderedViews(s: State, first: seq<Step>, second: seq<Step>, a: string, b: string, n: string)
    requires Inv(s) && a != b && Reconciles(s, first, a) && Reconciles(Run(s, first), second, b)
    ensures View(Run(s, first + second), n)
         == Run(View(s, n), if n == a then first else if n == b then second else [])
  {
    WorkerStepsProject(s, first, a, n);
    WorkerStepsStay(s, first, a);
    WorkerStepsProject(Run(s, first), second, b, n);
    ProjectConcat(s, first, second, n);
    IsolationFrom(s, first + second, n);
    assert first + [] == first && [] + second == second;
  }

  /**
   Reconciles of distinct requests commute: from any state in which whole reconciles of two names
   are possible, and the tracker does not choose the same key for both, they are possible one after
   the other in both orders, and every request sees the same result.
   */
  lemma ReconcilesCommute(s: State, first: seq<Step>, second: seq<Step>, a: string, b: string, n: string)
    requires Inv(s) && a != b && Reconciles(s, first, a) && Reconciles(s, second, b)
    requires ChoosesNone(second, NewKeys(s, first)) && ChoosesNone(first, NewKeys(s, second))
    ensures Reconciles(Run(s, first), second, b) && Reconciles(Run(s, second), first, a)
    ensures View(Run(s, first + second), n) == View(Run(s, second + first), n)
  {
    LegalAfter(s, first, second, a, b);
    LegalAfter(s, second, first, b, a);
    OrderedViews(s, first, second, a, b, n);
    OrderedViews(s, second, first, b, a, n);
  }
}
