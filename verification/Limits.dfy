/**
 Where the operator falls short. Each statement here is either a concrete run that shows a
 hypothesis of a main theorem to be needed, or a general fact about a fault the code does not
 recover from.
 */
module Limits {
  import opened Types
  import opened Validation
  import opened Payload
  import opened Machine
  import opened Invariants
  import opened Grants
  import opened Expiry
  import opened Updates
  import opened Bindings
  import opened Progress
  import Wakeups

  // Two runs that strand a request

  const SAMPLE_WORKFLOW := map[("Todo", "11") := "Approved", ("Todo", "21") := "Rejected", ("Approved", "41") := "Done"]

  const NO_FIELD := FieldSettings("none", "")

  function SampleConfig(fields: map<string, FieldSettings>): Config {
    Config(["edit"], "Approved", "21", "IAM", "Access Request", "41", RequiredFields(NO_FIELD, NO_FIELD, NO_FIELD),
           fields, [], "dev-test", "minikube", "", ".*", false)
  }

  function SampleWorld(cfg: Config): World {
    World(0, map[], map[], map[], map[], SAMPLE_WORKFLOW, "Todo", map["a@x" := "a"], map["ns" := map[]],
          Some(cfg), None, true, {}, {}, map[])
  }

  const SAMPLE_SPEC := Spec("a@x", [], "edit", ["ns"], map[], 10, 20, map[])
  const NAME := "r"
  const FRESH := Request(NAME, 1, 0, SAMPLE_SPEC, NEW_STATUS)
  const PLAIN_HINT := Hint(7, map[], "")

  /** No required field has a known kind and there are no custom fields, so nothing is sent. */
  lemma SamplePayload()
    ensures PayloadOk(SampleConfig(map[]), SAMPLE_SPEC, map[])
  {
    var cfg := SampleConfig(map[]);
    var required := OrderExists(REQUIRED);
    NothingSent(required);
    assert BuiltBy(cfg, SAMPLE_SPEC, map[], [], required);
  }

  lemma NothingSent(required: seq<RequiredName>)
    ensures RequiredPayload(SampleConfig(map[]), SAMPLE_SPEC, map[], required) == map[]
  {
    if required != [] {
      NothingSent(required[..|required| - 1]);
    }
  }

  /** One more step of a run. */
  lemma Continue(s: State, steps: seq<Step>, t: State, step: Step) returns (steps': seq<Step>, t': State)
    requires Run(s, steps) == t
    ensures steps' == steps + [step] && t' == Apply(t, step) && Run(s, steps') == t'
  {
    RunSnoc(s, steps, step);
    steps', t' := steps + [step], Apply(t, step);
  }

  function JustStored(cfg: Config): World {
    SampleWorld(cfg).(requests := map[NAME := FRESH], names := map[1 := NAME])
  }

  /** A request has just been created and is taken off the queue. */
  lemma Taken(cfg: Config) returns (s: State, steps: seq<Step>)
    ensures s == State(SampleWorld(cfg), Idle) && Init(s)
    ensures Run(s, steps) == State(JustStored(cfg), Fetch(NAME))
  {
    s := State(SampleWorld(cfg), Idle);
    var t;
    steps, t := [], s;
    steps, t := Continue(s, steps, t, Env(CreateRequest(NAME, 1, SAMPLE_SPEC)));
    steps, t := Continue(s, steps, t, Env(Deliver(NAME)));
    assert t.world.queue == {NAME} && t.world.pending == {};
    steps, t := Continue(s, steps, t, Pop(NAME));
    assert t.world.queue == {};
    assert t.world == JustStored(cfg);
  }

  /** Its reconcile has read the request and the configuration. */
  lemma Begin(cfg: Config) returns (s: State, steps: seq<Step>, t: State)
    ensures Init(s) && Run(s, steps) == t == State(JustStored(cfg), ScanFields(FRESH, cfg))
  {
    s, steps := Taken(cfg);
    steps, t := Continue(s, steps, State(JustStored(cfg), Fetch(NAME)), Respond(Ok, PLAIN_HINT));
    steps, t := Continue(s, steps, t, Respond(Ok, PLAIN_HINT));
  }

  predicate Stranded(s: State, name: string) {
    s.pc == Idle && name in s.world.requests && !Awake(s.world, name)
  }

  const NEEDS_APPROVER := SampleConfig(map["Approver" := FieldSettings("user", "1")])

  lemma FieldFoundMissing() returns (s: State, steps: seq<Step>, t: State)
    ensures Init(s) && Run(s, steps) == t && t.world == JustStored(NEEDS_APPROVER)
    ensures t.pc == Write(FRESH, StatusFor(FRESH, Rejected, FieldMissing("Approver"), Skipped), 0, ThenReturnSkipped)
  {
    s, steps, t := Begin(NEEDS_APPROVER);
    assert MissingFields(NEEDS_APPROVER, SAMPLE_SPEC) == {"Approver"};
    steps, t := Continue(s, steps, t, Respond(Ok, Hint(0, map[], "Approver")));
  }

  /** If the write that rejects a request for a missing field fails, nothing will ever wake the request. */
  lemma SwallowedWriteStrands() returns (s: State, steps: seq<Step>)
    ensures Init(s) && Stranded(Run(s, steps), NAME)
    ensures Run(s, steps).world.requests[NAME].status.phase == New
  {
    var t;
    s, steps, t := FieldFoundMissing();
    steps, t := Continue(s, steps, t, Respond(Err, PLAIN_HINT));
    assert t == State(JustStored(NEEDS_APPROVER), Finished(NAME, Done(0)));
    steps, t := Continue(s, steps, t, Settle);
  }

  function WithTicket(): World {
    JustStored(SampleConfig(map[])).(tickets := map[7 := Ticket(1, "Todo", map[], [], [])])
  }

  lemma ReporterFound() returns (s: State, steps: seq<Step>, t: State)
    ensures Init(s) && Run(s, steps) == t
    ensures t == State(JustStored(SampleConfig(map[])), OpenTicket(FRESH, SampleConfig(map[])))
  {
    var cfg := SampleConfig(map[]);
    s, steps, t := Begin(cfg);
    assert MissingFields(cfg, SAMPLE_SPEC) == {};
    steps, t := Continue(s, steps, t, Respond(Ok, PLAIN_HINT));
    steps, t := Continue(s, steps, t, Respond(Ok, PLAIN_HINT));
  }

  lemma TicketOpen() returns (s: State, steps: seq<Step>, t: State)
    ensures Init(s) && Run(s, steps) == t == State(WithTicket(), CheckLabels(FRESH, SampleConfig(map[]), 7))
  {
    s, steps, t := ReporterFound();
    SamplePayload();
    steps, t := Continue(s, steps, t, Respond(Ok, PLAIN_HINT));
  }

  lemma ChecksPassed() returns (s: State, steps: seq<Step>, t: State)
    ensures Init(s) && Run(s, steps) == t == State(WithTicket(), PreApproveComment(FRESH, SampleConfig(map[]), 7))
  {
    var cfg := SampleConfig(map[]);
    s, steps, t := TicketOpen();
    steps, t := Continue(s, steps, t, Respond(Ok, PLAIN_HINT));
    assert t == State(WithTicket(), CheckRegex(FRESH, cfg, 7));
    steps, t := Continue(s, steps, t, Respond(Ok, PLAIN_HINT));
    assert t == State(WithTicket(), CheckStart(FRESH, cfg, 7));
    steps, t := Continue(s, steps, t, Respond(Ok, PLAIN_HINT));
  }

  const PRE_APPROVED := Written(FRESH, StatusFor(FRESH, PreApproved, AwaitingApproval, Issue(7)))

  function PreTicket(status: string): Ticket {
    Ticket(1, status, map[], [PreApprovalComment(FRESH, SampleConfig(map[]))], [])
  }

  lemma PreApprovalAnnounced() returns (s: State, steps: seq<Step>, t: State)
    ensures Init(s) && Run(s, steps) == t && t.pc == Write(FRESH, PRE_APPROVED.status, 0, ThenAwaitStart)
    ensures t.world == WithTicket().(tickets := map[7 := PreTicket("Todo")])
  {
    s, steps, t := ChecksPassed();
    var note := PreApprovalComment(FRESH, SampleConfig(map[]));
    assert [] + [note] == [note];
    steps, t := Continue(s, steps, t, Respond(Ok, PLAIN_HINT));
  }

  function PreApprovedWorld(): World {
    WithTicket().(tickets := map[7 := PreTicket("Todo")], requests := map[NAME := PRE_APPROVED])
  }

  lemma PreApprovalWritten() returns (s: State, steps: seq<Step>, t: State)
    ensures Init(s) && Run(s, steps) == t == State(PreApprovedWorld(), Arm(PRE_APPROVED, 10))
  {
    s, steps, t := PreApprovalAnnounced();
    assert WriteStatus(t.world, FRESH, PRE_APPROVED.status, Ok).1 == Success;
    steps, t := Continue(s, steps, t, Respond(Ok, PLAIN_HINT));
  }

  /** If the start time passes between the two readings of the clock, nothing will ever wake the request. */
  lemma LateClockStrands() returns (s: State, steps: seq<Step>)
    ensures Init(s) && Stranded(Run(s, steps), NAME)
    ensures Run(s, steps).world.requests[NAME].status.phase == PreApproved
  {
    var t;
    s, steps, t := PreApprovalWritten();
    steps, t := Continue(s, steps, t, Env(Tick(10)));
    steps, t := Continue(s, steps, t, Respond(Ok, PLAIN_HINT));
    assert t.pc == Finished(NAME, Done(0));
    steps, t := Continue(s, steps, t, Settle);
  }

  // A restart

  lemma EnvKeepsPattern(w: World, e: EnvStep)
    requires EnvEnabled(w, e) && !e.Reconfigure?
    ensures EnvApply(w, e).regex == w.regex
  {
    match e
    case EditSpec(name, spec) => assert EnvApply(w, e) == Edited(w, name, spec);
    case _ =>
  }

  lemma WorkerKeepsPattern(s: State, step: Step)
    requires step.Pop? || step.Settle?
    ensures Apply(s, step).world.regex == s.world.regex
  {
    if Enabled(s, step) {
      match step
      case Pop(name) => assert Apply(s, step).world == s.world.(queue := s.world.queue - {name});
      case Settle => SettlingKeepsPattern(s.world, s.pc.name, s.pc.result);
    }
  }

  lemma SettlingKeepsPattern(w: World, name: string, res: Result)
    ensures SettleWorld(w, name, res).regex == w.regex
  {
    match res
    case Error => assert SettleWorld(w, name, res) == w.(queue := w.queue + {name});
    case Done(d) =>
      if d > 0 {
        assert SettleWorld(w, name, res) == w.(timers := AddTimer(w.timers, name, w.now + d));
      }
  }

  /** No step but a new configuration changes the enforced pattern, and a restart drops it. */
  lemma PatternKept(s: State, step: Step)
    requires !(step.Env? && step.e.Reconfigure?)
    ensures Apply(s, step).world.regex == if step.Restart? then None else s.world.regex
  {
    if step.Env? {
      if Enabled(s, step) {
        EnvKeepsPattern(s.world, step.e);
      }
    } else if step.Respond? {
      CallKeepsFrame(s.world, s.pc, step.outcome, step.hint);
    } else if !step.Restart? {
      WorkerKeepsPattern(s, step);
    }
  }

  /**
   From a restart until the configuration is reconciled again, no pattern is enforced: whatever is in
   the file, no request is refused for the names of its namespaces.
   */
  lemma {:induction false} RestartDropsPattern(s: State, steps: seq<Step>)
    requires steps != [] && steps[0] == Restart
    requires forall i | 0 <= i < |steps| :: !(steps[i].Env? && steps[i].e.Reconfigure?)
    ensures Run(s, steps).world.regex == None
    ensures Run(s, steps).pc.CheckRegex? ==> forall hint :: Answer(Run(s, steps), Ok, hint).pc.CheckStart?
  {
    var n := |steps| - 1;
    if n > 0 {
      RestartDropsPattern(s, steps[..n]);
    }
    PatternKept(Run(s, steps[..n]), steps[n]);
  }

  // The request comes due

  /** The request is queued again, its ticket has the given status, and the time is `at`. */
  function DueWorld(status: string, at: Time): World {
    PreApprovedWorld().(now := at, tickets := map[7 := PreTicket(status)], queue := {NAME})
  }

  lemma Waiting() returns (s: State, steps: seq<Step>, t: State)
    ensures Init(s) && Run(s, steps) == t == State(PreApprovedWorld().(timers := map[NAME := 10]), Idle)
  {
    s, steps, t := PreApprovalWritten();
    steps, t := Continue(s, steps, t, Respond(Ok, PLAIN_HINT));
    assert t == State(PreApprovedWorld(), Finished(NAME, Done(10)));
    steps, t := Continue(s, steps, t, Settle);
  }

  /** Someone moves the ticket, and time passes until the timer has fired. */
  lemma ComesDue(transition: string, status: string, at: Time) returns (s: State, steps: seq<Step>, t: State)
    requires ("Todo", transition) in SAMPLE_WORKFLOW && SAMPLE_WORKFLOW[("Todo", transition)] == status && at >= 10
    ensures Init(s) && Run(s, steps) == t == State(DueWorld(status, at), Idle)
  {
    s, steps, t := Waiting();
    steps, t := Continue(s, steps, t, Env(MoveTicket(7, transition)));
    assert t.world == PreApprovedWorld().(timers := map[NAME := 10], tickets := map[7 := PreTicket(status)]);
    steps, t := Continue(s, steps, t, Env(Tick(at)));
    steps, t := Continue(s, steps, t, Env(Fire(NAME)));
    assert t.world.timers == map[];
  }

  /** A run goes on with a whole reconcile. */
  lemma ContinueReconcile(s: State, steps: seq<Step>, t: State, calm: seq<Step>, name: string)
    returns (steps': seq<Step>)
    requires Run(s, steps) == t
    ensures Run(s, steps') == Reconciled(t, calm, name)
  {
    RunSnoc(s, steps, Pop(name));
    RunConcat(s, steps + [Pop(name)], calm);
    RunSnoc(s, steps + [Pop(name)] + calm, Settle);
    steps' := steps + [Pop(name)] + calm + [Settle];
  }

  // A fault between completing the ticket and recording the success

  /** The write of Succeeded is refused after the ticket was moved on from its approved status. */
  predicate FaultAfterCompletion(s: State, cfg: Config) {
    && s.pc.Write? && s.pc.after == ThenCleanup && Current(s.world, s.pc.req)
    && s.world.config == Some(cfg) && s.pc.req.status.startTime <= s.world.now
    && !Approved(s.world, s.pc.req.status.ticket, cfg)
  }

  /** The state once the refused write has been reported and the name queued again. */
  function AfterFault(s: State): State
    requires s.pc.Write?
  {
    State(s.world.(queue := s.world.queue + {s.pc.req.name}), Idle)
  }

  lemma FaultIsRequeued(s: State)
    requires Inv(s) && s.pc.Write? && s.pc.after == ThenCleanup
    ensures Run(s, [Respond(Err, PLAIN_HINT), Settle]) == AfterFault(s) && Inv(AfterFault(s))
  {
    var refused := Apply(s, Respond(Err, PLAIN_HINT));
    assert refused == State(s.world, Finished(s.pc.req.name, Error));
    StepKeepsInv(s, Respond(Err, PLAIN_HINT));
    StepKeepsInv(refused, Settle);
    assert Run(s, []) == s;
    RunSnoc(s, [], Respond(Err, PLAIN_HINT));
    RunSnoc(s, [Respond(Err, PLAIN_HINT)], Settle);
    assert [] + [Respond(Err, PLAIN_HINT)] + [Settle] == [Respond(Err, PLAIN_HINT), Settle];
  }

  /** An undisturbed reconcile of a due request whose ticket is not approved rejects it and leaves its bindings. */
  lemma UnapprovedIsRejected(s: State, calm: seq<Step>, name: string, cfg: Config)
    requires Inv(s) && name in s.world.requests && s.world.config == Some(cfg) && Reconciles(s, calm, name)
    requires var r := s.world.requests[name];
             && r.status.phase == PreApproved && r.status.startTime <= s.world.now
             && !Approved(s.world, r.status.ticket, cfg)
    ensures var r := s.world.requests[name]; var end := Reconciled(s, calm, name).world;
            && name in end.requests && end.requests[name].uid == r.uid
            && end.requests[name].status.phase == Rejected && end.requests[name].status.ticket == r.status.ticket
            && end.bindings == s.world.bindings && end.tickets == s.world.tickets && end.workflow == s.world.workflow
  {
    WholeReconcile(s, calm, name, cfg);
    var begun := Apply(s, Pop(name));
    var done := Run(begun, calm);
    assert PreApprovedOutcome(begun.world, s.world.requests[name], cfg, done.world, done.pc.result);
  }

  /**
   The reconcile is repeated, finds the ticket not approved, and rejects the request, although all
   its bindings are in place: the window of `Expiry` is real.
   */
  lemma FaultAfterCompletionRejects(s: State, cfg: Config, calm: seq<Step>)
    requires Inv(s) && FaultAfterCompletion(s, cfg) && Reconciles(AfterFault(s), calm, s.pc.req.name)
    ensures var failed := Run(s, [Respond(Err, PLAIN_HINT), Settle]); var name := s.pc.req.name;
            var end := Reconciled(failed, calm, name);
            && failed == AfterFault(s)
            && name in end.world.requests && end.world.requests[name].uid == s.pc.req.uid
            && end.world.requests[name].status.phase == Rejected
            && end.world.bindings == s.world.bindings
  {
    FaultIsRequeued(s);
    FaultLeavesDue(s, cfg);
    UnapprovedIsRejected(AfterFault(s), calm, s.pc.req.name, cfg);
  }

  lemma FaultLeavesDue(s: State, cfg: Config)
    requires Inv(s) && FaultAfterCompletion(s, cfg)
    ensures var w := AfterFault(s).world; var name := s.pc.req.name;
            && w.config == Some(cfg) && name in w.requests && w.requests[name] == s.pc.req
            && s.pc.req.status.phase == PreApproved && s.pc.req.status.startTime <= w.now
            && !Approved(w, s.pc.req.status.ticket, cfg)
            && w.bindings == s.world.bindings
  {
  }

  /**
   For a due Pre-Approved request that owns a binding, the next undisturbed reconcile leaves it
   Rejected and bound exactly if its ticket is not in the approved status.
   */
  lemma RejectedAndBoundIff(s: State, calm: seq<Step>, name: string, cfg: Config, key: BindingKey)
    requires Inv(s) && name in s.world.requests && s.world.config == Some(cfg) && Reconciles(s, calm, name)
    requires var r := s.world.requests[name];
             r.status.phase == PreApproved && r.status.startTime <= s.world.now && OwnedIn(s.world, key, r.uid)
    ensures var r := s.world.requests[name]; var end := Reconciled(s, calm, name).world;
            Bound(end, key, name) && end.requests[name].uid == r.uid && end.requests[name].status.phase == Rejected
            <==> !Approved(s.world, r.status.ticket, cfg)
  {
    if Approved(s.world, s.world.requests[name].status.ticket, cfg) {
      ApprovedStays(s, calm, name, cfg);
    } else {
      UnapprovedIsRejected(s, calm, name, cfg);
    }
  }

  lemma ApprovedStays(s: State, calm: seq<Step>, name: string, cfg: Config)
    requires Inv(s) && name in s.world.requests && s.world.config == Some(cfg) && Reconciles(s, calm, name)
    requires var r := s.world.requests[name];
             && r.status.phase == PreApproved && r.status.startTime <= s.world.now
             && Approved(s.world, r.status.ticket, cfg)
    ensures var w := Reconciled(s, calm, name).world;
            name in w.requests ==> w.requests[name].status.phase != Rejected
  {
    WholeReconcile(s, calm, name, cfg);
    var begun, done := Apply(s, Pop(name)).world, Run(Apply(s, Pop(name)), calm);
    ApprovedIsNotRejected(begun, s.world.requests[name], cfg, done.world, done.pc.result);
  }

  lemma ApprovedIsNotRejected(w0: World, r: Request, cfg: Config, w: World, res: Result)
    requires Start(w0, r, cfg) && r.status.phase == PreApproved && r.status.startTime <= w0.now
    requires Approved(w0, r.status.ticket, cfg) && Expected(w0, r, cfg, w, res)
    ensures r.name in w.requests ==> w.requests[r.name].status.phase != Rejected
  {
  }

  const GRANTED_KEY := BindingKey("ns", BindingName(NAME))

  function BoundWorld(): World {
    DueWorld("Approved", 10).(queue := {}, bindings := map[GRANTED_KEY := BindingFor(PRE_APPROVED)])
  }

  lemma DueTaken() returns (s: State, steps: seq<Step>)
    ensures Init(s) && Run(s, steps) == State(DueWorld("Approved", 10).(queue := {}), Fetch(NAME))
  {
    var t;
    s, steps, t := ComesDue("11", "Approved", 10);
    steps, t := Continue(s, steps, t, Pop(NAME));
    assert t.world.queue == {};
  }

  lemma DueRead() returns (s: State, steps: seq<Step>, t: State)
    ensures Init(s) && Run(s, steps) == t
    ensures t == State(DueWorld("Approved", 10).(queue := {}), CheckTime(PRE_APPROVED, SampleConfig(map[])))
  {
    s, steps := DueTaken();
    steps, t := Continue(s, steps, State(DueWorld("Approved", 10).(queue := {}), Fetch(NAME)), Respond(Ok, PLAIN_HINT));
    steps, t := Continue(s, steps, t, Respond(Ok, PLAIN_HINT));
  }

  lemma ApprovalSeen() returns (s: State, steps: seq<Step>, t: State)
    ensures Init(s) && Run(s, steps) == t
    ensures t == State(DueWorld("Approved", 10).(queue := {}), Bind(PRE_APPROVED, SampleConfig(map[]), 0))
  {
    s, steps, t := DueRead();
    steps, t := Continue(s, steps, t, Respond(Ok, PLAIN_HINT));
    assert t.pc == CheckApproval(PRE_APPROVED, SampleConfig(map[]));
    steps, t := Continue(s, steps, t, Respond(Ok, PLAIN_HINT));
  }

  lemma AccessBound() returns (s: State, steps: seq<Step>, t: State)
    ensures Init(s) && Run(s, steps) == t == State(BoundWorld(), CompleteComment(PRE_APPROVED, SampleConfig(map[])))
  {
    s, steps, t := ApprovalSeen();
    steps, t := Continue(s, steps, t, Respond(Ok, PLAIN_HINT));
  }

  lemma CompletionNoted() returns (s: State, steps: seq<Step>, t: State)
    ensures Init(s) && Run(s, steps) == t && t.pc == CompleteMove(PRE_APPROVED, SampleConfig(map[]))
    ensures t.world == BoundWorld().(tickets := t.world.tickets)
    ensures 7 in t.world.tickets && t.world.tickets[7].status == "Approved"
  {
    s, steps, t := AccessBound();
    steps, t := Continue(s, steps, t, Respond(Ok, PLAIN_HINT));
  }

  /** Access is granted, the ticket is "Done", and Succeeded is about to be written. */
  lemma TicketDone() returns (s: State, steps: seq<Step>, t: State)
    ensures Init(s) && Run(s, steps) == t
    ensures t.pc == Write(PRE_APPROVED, StatusFor(PRE_APPROVED, Succeeded, AccessGranted, Issue(7)), 0, ThenCleanup)
    ensures t.world == BoundWorld().(tickets := t.world.tickets)
    ensures 7 in t.world.tickets && t.world.tickets[7].status == "Done"
  {
    s, steps, t := CompletionNoted();
    steps, t := Continue(s, steps, t, Respond(Ok, PLAIN_HINT));
  }

  /** Rejected and bound: a run under the sample workflow with one refused status write. */
  lemma RejectedWhileBound() returns (s: State, steps: seq<Step>)
    ensures Init(s) && Bound(Run(s, steps).world, GRANTED_KEY, NAME)
    ensures Run(s, steps).world.requests[NAME].status.phase == Rejected
  {
    var t;
    s, steps, t := TicketDone();
    Reachable(s, steps);
    var cfg := SampleConfig(map[]);
    assert FaultAfterCompletion(t, cfg);
    FaultIsRequeued(t);
    var calm := ReconcileExists(AfterFault(t), NAME);
    FaultAfterCompletionRejects(t, cfg, calm);
    RunConcat(s, steps, [Respond(Err, PLAIN_HINT), Settle]);
    steps := steps + [Respond(Err, PLAIN_HINT), Settle];
    steps := ContinueReconcile(s, steps, AfterFault(t), calm, NAME);
    assert OwnRef(PRE_APPROVED) in BindingFor(PRE_APPROVED).owners;
  }

  // Access that was never checked

  const ESCALATED := SAMPLE_SPEC.(reporter := "mallory@x", clusterRole := "cluster-admin")

  const EDITED := PRE_APPROVED.(spec := ESCALATED, version := 2)

  lemma EditedAfterApproval() returns (s: State, steps: seq<Step>, t: State)
    ensures Init(s) && Run(s, steps) == t
    ensures t == State(DueWorld("Approved", 10).(requests := map[NAME := EDITED]), Idle)
  {
    s, steps, t := ComesDue("11", "Approved", 10);
    steps, t := Continue(s, steps, t, Env(EditSpec(NAME, ESCALATED)));
  }

  /**
   A run in which the spec is edited after the ticket was approved: the role that is granted is not
   an allowed one, and the user is not the one the ticket was opened for.
   */
  lemma UncheckedSpecIsGranted() returns (s: State, steps: seq<Step>)
    ensures Init(s)
    ensures var w := Run(s, steps).world;
            && w.config == Some(SampleConfig(map[])) && "cluster-admin" !in SampleConfig(map[]).allowedClusterRoles
            && GRANTED_KEY in w.bindings && w.bindings[GRANTED_KEY].role == "cluster-admin"
            && w.bindings[GRANTED_KEY].subjects == ["mallory@x"]
  {
    var t;
    s, steps, t := EditedAfterApproval();
    Reachable(s, steps);
    var calm := ReconcileExists(t, NAME);
    ReconciledBindings(t, calm, NAME, SampleConfig(map[]));
    EscalatedBinding(t.world);
    ReconcileKeepsConfig(t, calm, NAME, SampleConfig(map[]));
    steps := ContinueReconcile(s, steps, t, calm, NAME);
  }

  lemma EscalatedBinding(w: World)
    requires w.bindings == map[] && w.namespaces == map["ns" := map[]]
    ensures var bound := CreatedSoFar(w, EDITED);
            && GRANTED_KEY in bound && bound[GRANTED_KEY].role == "cluster-admin"
            && bound[GRANTED_KEY].subjects == ["mallory@x"]
  {
    assert BindableUpTo(w, EDITED.spec.namespaces) == 1 && EDITED.spec.namespaces[..1] == ["ns"];
    CreatedExactly(w.bindings, EDITED, ["ns"]);
    assert GRANTED_KEY == BindingKeyOf(EDITED, "ns");
  }

  lemma ReconcileKeepsConfig(s: State, calm: seq<Step>, name: string, cfg: Config)
    requires Inv(s) && name in s.world.requests && s.world.config == Some(cfg) && Reconciles(s, calm, name)
    ensures Reconciled(s, calm, name).world.config == Some(cfg)
  {
    WholeReconcile(s, calm, name, cfg);
  }

  // Tickets that cannot be rejected

  /** No transition leads out of the status: in the sample workflow, "Done" and "Rejected". */
  ghost predicate Terminal(w: World, status: string) {
    forall transition :: (status, transition) !in w.workflow
  }

  lemma SampleTerminals(w: World, status: string)
    requires w.workflow == SAMPLE_WORKFLOW
    ensures Terminal(w, status) <==> status != "Todo" && status != "Approved"
  {
    assert ("Todo", "11") in w.workflow && ("Approved", "41") in w.workflow;
  }

  /** A rejected request whose ticket is in a terminal status, and no stale copy of another one. */
  ghost predicate Stuck(s: State, name: string, uid: nat, key: nat) {
    && name in s.world.requests && s.world.requests[name].uid == uid
    && s.world.requests[name].status.phase == Rejected && s.world.requests[name].status.ticket == Issue(key)
    && key in s.world.tickets && Terminal(s.world, s.world.tickets[key].status)
    && (HasReq(s.pc) && s.pc.req.name == name ==> s.pc.req.uid == uid && !s.pc.Delete?)
  }

  lemma EnvKeepsStuck(s: State, e: EnvStep, name: string, uid: nat, key: nat)
    requires Inv(s) && Stuck(s, name, uid, key) && EnvEnabled(s.world, e) && e != DeleteRequest(name)
    ensures Stuck(State(EnvApply(s.world, e), s.pc), name, uid, key)
  {
    assert EnvApply(s.world, e).workflow == s.world.workflow;
    if e.MoveTicket? {
      assert e.key != key;
    }
  }

  /** A reconcile of the stuck request itself: it comments on the ticket and fails to move it. */
  lemma OwnAnswerKeepsStuck(s: State, outcome: Outcome, hint: Hint, name: string, uid: nat, key: nat)
    requires Inv(s) && Stuck(s, name, uid, key) && HasReq(s.pc) && s.pc.req.name == name
    ensures Stuck(Answer(s, outcome, hint), name, uid, key)
  {
    assert s.pc.req.status == s.world.requests[name].status;
    assert s.pc.LoadConfig? || s.pc.RejectComment? || s.pc.RejectMove?;
  }

  lemma OtherTicketsUntouched(w: World, pc: Pc, outcome: Outcome, hint: Hint, key: nat)
    requires HasReq(pc) && PcOk(w, pc) && HintOk(w, pc, hint) && key in w.tickets && w.tickets[key].owner != pc.req.uid
    ensures var next := Perform(w, pc, outcome, hint).0; key in next.tickets && next.tickets[key] == w.tickets[key]
  {
  }

  lemma OtherRecordsUntouched(w: World, pc: Pc, outcome: Outcome, hint: Hint, name: string)
    requires HasReq(pc) && pc.req.name != name && name in w.requests
    ensures var next := Perform(w, pc, outcome, hint).0;
            name in next.requests && next.requests[name] == w.requests[name]
  {
  }

  lemma OtherAnswerKeepsStuck(s: State, outcome: Outcome, hint: Hint, name: string, uid: nat, key: nat)
    requires Inv(s) && Stuck(s, name, uid, key) && InCall(s.pc) && HintOk(s.world, s.pc, hint)
    requires !(HasReq(s.pc) && s.pc.req.name == name)
    ensures Stuck(Answer(s, outcome, hint), name, uid, key)
  {
    assert RecordOk(s.world, name);
    if s.pc.Fetch? {
      if s.pc.name in s.world.requests {
        assert RecordOk(s.world, s.pc.name);
      }
    } else {
      OtherTicketsUntouched(s.world, s.pc, outcome, hint, key);
      OtherRecordsUntouched(s.world, s.pc, outcome, hint, name);
      CallKeepsFrame(s.world, s.pc, outcome, hint);
      Wakeups.NextKeepsName(s.pc, Perform(s.world, s.pc, outcome, hint).1);
    }
  }

  lemma StepKeepsStuck(s: State, step: Step, name: string, uid: nat, key: nat)
    requires Inv(s) && Stuck(s, name, uid, key) && step != Env(DeleteRequest(name))
    ensures Stuck(Apply(s, step), name, uid, key)
  {
    if Enabled(s, step) {
      if step.Env? {
        EnvKeepsStuck(s, step.e, name, uid, key);
      } else if !step.Respond? {
        OtherStepsKeepRecords(s, step);
        assert Apply(s, step).world.workflow == s.world.workflow;
      } else if HasReq(s.pc) && s.pc.req.name == name {
        OwnAnswerKeepsStuck(s, step.outcome, step.hint, name, uid, key);
      } else {
        OtherAnswerKeepsStuck(s, step.outcome, step.hint, name, uid, key);
      }
    }
  }

  /**
   A Rejected request whose ticket someone has moved to a terminal status is never deleted by the
   operator, in any run: only deleting it from outside ends it.
   */
  lemma {:induction false} TerminalTicketBlocksDeletion(s: State, steps: seq<Step>, name: string, key: nat)
    requires Inv(s) && s.pc == Idle && name in s.world.requests
    requires Stuck(s, name, s.world.requests[name].uid, key)
    requires Env(DeleteRequest(name)) !in steps
    ensures Inv(Run(s, steps)) && Stuck(Run(s, steps), name, s.world.requests[name].uid, key)
  {
    if steps != [] {
      var n := |steps| - 1;
      TerminalTicketBlocksDeletion(s, steps[..n], name, key);
      StepKeepsInv(Run(s, steps[..n]), steps[n]);
      StepKeepsStuck(Run(s, steps[..n]), steps[n], name, s.world.requests[name].uid, key);
    }
  }

  /** Such a request can arise: the ticket was turned down by hand before the start. */
  lemma StuckRequestExists() returns (s: State, steps: seq<Step>)
    ensures Init(s) && Run(s, steps).pc == Idle && Stuck(Run(s, steps), NAME, 1, 7)
  {
    var t;
    s, steps, t := ComesDue("21", "Rejected", 10);
    Reachable(s, steps);
    var calm := ReconcileExists(t, NAME);
    UnapprovedIsRejected(t, calm, NAME, SampleConfig(map[]));
    var end := Reconciled(t, calm, NAME);
    assert end.world.tickets[7].status == "Rejected";
    SampleTerminals(end.world, "Rejected");
    steps := ContinueReconcile(s, steps, t, calm, NAME);
  }

  // Blocked while bound

  /**
   A blocked request that is due keeps every binding it has, and gains those up to the first missing
   namespace, in each undisturbed reconcile; it stays Pre-Approved and queued, and its end time is
   never looked at.
   */
  lemma BlockedKeepsBindings(s: State, calm: seq<Step>, name: string, cfg: Config)
    requires BlockedAndDue(s, name, cfg) && Reconciles(s, calm, name)
    ensures var r := s.world.requests[name]; var end := Reconciled(s, calm, name).world;
            && end.requests == s.world.requests && name in end.queue
            && end.bindings == CreatedSoFar(s.world, r)
            && Keeps(s.world.bindings, end.bindings)
  {
    BlockedBinds(s, calm, name, cfg);
    CreatingKeeps(s.world, s.world.requests[name]);
  }

  predicate Keeps(before: Store, after: Store) {
    forall k | k in before :: k in after && after[k] == before[k]
  }

  /** The bindings after the creation loop has stopped at the first missing namespace. */
  function CreatedSoFar(w: World, r: Request): Store {
    Created(w.bindings, r, r.spec.namespaces[..BindableUpTo(w, r.spec.namespaces)])
  }

  lemma CreatingKeeps(w: World, r: Request)
    ensures Keeps(w.bindings, CreatedSoFar(w, r))
  {
    CreatingKept(w.bindings, r, r.spec.namespaces[..BindableUpTo(w, r.spec.namespaces)]);
  }

  lemma BlockedBinds(s: State, calm: seq<Step>, name: string, cfg: Config)
    requires BlockedAndDue(s, name, cfg) && Reconciles(s, calm, name)
    ensures var r := s.world.requests[name]; var end := Reconciled(s, calm, name).world;
            && end.requests == s.world.requests && name in end.queue
            && end.bindings == CreatedSoFar(s.world, r)
  {
    ReconciledBindings(s, calm, name, cfg);
    RankedProgress(s, calm, name, cfg);
  }

  ghost predicate BlockedAndDue(s: State, name: string, cfg: Config) {
    && Inv(s) && name in s.world.requests && s.world.config == Some(cfg)
    && s.world.requests[name].status.phase == PreApproved
    && s.world.requests[name].status.startTime <= s.world.now && Blocked(s.world, s.world.requests[name], cfg)
  }

  lemma BlockedOutcome(w0: World, r: Request, cfg: Config, w: World, res: Result)
    requires r.status.phase == PreApproved && r.status.startTime <= w0.now && Blocked(w0, r, cfg)
    requires Expected(w0, r, cfg, w, res)
    ensures StuckGranting(w0, r, w) && res == Error
  {
  }

  const UNKNOWN_TRANSITION := SampleConfig(map[]).(completedTransition := "99")

  /** A run to a request that is blocked, bound, and past its end. */
  lemma BlockedPastEnd() returns (s: State, steps: seq<Step>)
    ensures Init(s) && Bound(Run(s, steps).world, GRANTED_KEY, NAME)
    ensures var w := Run(s, steps).world;
            && w.requests[NAME].status.phase == PreApproved && w.requests[NAME].spec.endTime <= w.now
            && w.config.Some? && Blocked(w, w.requests[NAME], w.config.value)
  {
    var t;
    s, steps, t := ComesDue("11", "Approved", 25);
    steps, t := Continue(s, steps, t, Env(Reconfigure(Some(UNKNOWN_TRANSITION), None)));
    Reachable(s, steps);
    assert Blocked(t.world, PRE_APPROVED, UNKNOWN_TRANSITION);
    var calm := ReconcileExists(t, NAME);
    BlockedStays(t, calm);
    steps := ContinueReconcile(s, steps, t, calm, NAME);
  }

  lemma BlockedStays(t: State, calm: seq<Step>)
    requires Inv(t) && Reconciles(t, calm, NAME) && Reconciled(t, calm, NAME).world.now == t.world.now
    requires t.world == DueWorld("Approved", 25).(config := Some(UNKNOWN_TRANSITION))
    ensures var w := Reconciled(t, calm, NAME).world;
            && Bound(w, GRANTED_KEY, NAME) && w.requests == t.world.requests && w.now == 25
            && w.config == Some(UNKNOWN_TRANSITION) && Blocked(w, PRE_APPROVED, UNKNOWN_TRANSITION)
  {
    BlockedKeepsBindings(t, calm, NAME, UNKNOWN_TRANSITION);
    SampleBinding(t.world);
    StillBlocked(t, calm);
  }

  lemma SampleBinding(w: World)
    requires w.bindings == map[] && w.namespaces == map["ns" := map[]]
    ensures var bound := CreatedSoFar(w, PRE_APPROVED);
            GRANTED_KEY in bound && OwnedBy(bound[GRANTED_KEY], 1)
  {
    assert BindableUpTo(w, SAMPLE_SPEC.namespaces) == 1 && SAMPLE_SPEC.namespaces[..1] == ["ns"];
    CreatedExactly(w.bindings, PRE_APPROVED, ["ns"]);
    assert GRANTED_KEY == BindingKeyOf(PRE_APPROVED, "ns");
    assert OwnRef(PRE_APPROVED) in BindingFor(PRE_APPROVED).owners;
  }

  lemma StillBlocked(t: State, calm: seq<Step>)
    requires Inv(t) && Reconciles(t, calm, NAME)
    requires t.world == DueWorld("Approved", 25).(config := Some(UNKNOWN_TRANSITION))
    ensures var w := Reconciled(t, calm, NAME).world;
            w.config == Some(UNKNOWN_TRANSITION) && Blocked(w, PRE_APPROVED, UNKNOWN_TRANSITION)
  {
    WholeReconcile(t, calm, NAME, UNKNOWN_TRANSITION);
    var begun, done := Apply(t, Pop(NAME)).world, Run(Apply(t, Pop(NAME)), calm);
    BlockedOutcome(begun, PRE_APPROVED, UNKNOWN_TRANSITION, done.world, done.pc.result);
  }

  // Granting after the end

  predicate DueAndApproved(w: World, r: Request, cfg: Config) {
    r.status.phase == PreApproved && r.status.startTime <= w.now && Approved(w, r.status.ticket, cfg)
  }

  /** What makes an undisturbed reconcile create a binding; the end time is not part of it. */
  predicate WillBind(w: World, r: Request, cfg: Config) {
    && DueAndApproved(w, r, cfg)
    && exists j | 0 <= j < BindableUpTo(w, r.spec.namespaces) :: BindingKeyOf(r, r.spec.namespaces[j]) !in w.bindings
  }

  /** The start time does not pass while the reconcile is under way. */
  ghost predicate StartNotPassed(s: State, calm: seq<Step>, name: string)
    requires name in s.world.requests
  {
    var start := s.world.requests[name].status.startTime;
    start <= s.world.now || Reconciled(s, calm, name).world.now < start
  }

  predicate AddsBinding(before: Store, after: Store) {
    exists k | k in after :: k !in before
  }

  lemma CreatedAddsIff(w: World, r: Request)
    ensures AddsBinding(w.bindings, CreatedSoFar(w, r)) <==>
            exists j | 0 <= j < BindableUpTo(w, r.spec.namespaces) ::
              BindingKeyOf(r, r.spec.namespaces[j]) !in w.bindings
  {
    var n := BindableUpTo(w, r.spec.namespaces);
    var reached := r.spec.namespaces[..n];
    CreatedExactly(w.bindings, r, reached);
    if j :| 0 <= j < n && BindingKeyOf(r, r.spec.namespaces[j]) !in w.bindings {
      assert reached[j] in reached;
      assert BindingKeyOf(r, reached[j]) in CreatedSoFar(w, r);
    }
    if k :| k in CreatedSoFar(w, r) && k !in w.bindings {
      var ns :| ns in reached && k == BindingKeyOf(r, ns);
      var j :| 0 <= j < n && reached[j] == ns;
      assert BindingKeyOf(r, r.spec.namespaces[j]) !in w.bindings;
    }
  }

  lemma ExpectedBindings(w0: World, r: Request, cfg: Config, w: World, res: Result)
    requires Start(w0, r, cfg) && StatusOk(r.status) && Expected(w0, r, cfg, w, res)
    requires r.status.phase == PreApproved ==> r.status.startTime <= w0.now || w.now < r.status.startTime
    ensures w.bindings == if DueAndApproved(w0, r, cfg) then CreatedSoFar(w0, r) else w0.bindings
  {
    if r.status.phase == PreApproved && !Blocked(w0, r, cfg) && Bindable(w0, r.spec) {
      assert BindableUpTo(w0, r.spec.namespaces) == |r.spec.namespaces|;
      assert r.spec.namespaces[..|r.spec.namespaces|] == r.spec.namespaces;
    }
  }

  /** The queue plays no part in it. */
  lemma QueueIsIrrelevant(w: World, queue: set<string>, r: Request, cfg: Config)
    ensures var w' := w.(queue := queue);
            CreatedSoFar(w', r) == CreatedSoFar(w, r) && DueAndApproved(w', r, cfg) == DueAndApproved(w, r, cfg)
  {
  }

  lemma ReconciledBindings(s: State, calm: seq<Step>, name: string, cfg: Config)
    requires Inv(s) && name in s.world.requests && s.world.config == Some(cfg) && Reconciles(s, calm, name)
    requires StartNotPassed(s, calm, name)
    ensures var r := s.world.requests[name];
            Reconciled(s, calm, name).world.bindings
            == if DueAndApproved(s.world, r, cfg) then CreatedSoFar(s.world, r) else s.world.bindings
  {
    WholeReconcile(s, calm, name, cfg);
    var r, begun, done := s.world.requests[name], Apply(s, Pop(name)).world, Run(Apply(s, Pop(name)), calm);
    SettlingKeeps(done.world, name, done.pc.result);
    QueueIsIrrelevant(s.world, s.world.queue - {name}, r, cfg);
    ExpectedBindings(begun, r, cfg, done.world, done.pc.result);
  }

  lemma SettlingKeeps(w: World, name: string, res: Result)
    ensures SettleWorld(w, name, res).now == w.now && SettleWorld(w, name, res).bindings == w.bindings
  {
  }

  /**
   For any stored request, before or past its end, an undisturbed reconcile creates a binding that was
   not there exactly if the request is Pre-Approved, due, its ticket is approved, and a key is missing
   among the namespaces up to the first that does not exist.
   */
  lemma CreatesBindingIff(s: State, calm: seq<Step>, name: string, cfg: Config)
    requires Inv(s) && name in s.world.requests && s.world.config == Some(cfg) && Reconciles(s, calm, name)
    requires StartNotPassed(s, calm, name)
    ensures AddsBinding(s.world.bindings, Reconciled(s, calm, name).world.bindings)
            <==> WillBind(s.world, s.world.requests[name], cfg)
  {
    ReconciledBindings(s, calm, name, cfg);
    CreatedAddsIff(s.world, s.world.requests[name]);
  }

  /**
   The end time is not looked at before granting: a request that is due, approved and not blocked
   gets all its bindings even when its end time has already passed, and is then deleted.
   */
  lemma ExpiredRequestIsStillGranted(s: State, calm: seq<Step>, name: string, cfg: Config)
    requires Inv(s) && name in s.world.requests && s.world.config == Some(cfg) && Reconciles(s, calm, name)
    requires var r := s.world.requests[name];
             && r.status.phase == PreApproved && r.status.startTime <= s.world.now && r.spec.endTime <= s.world.now
             && Approved(s.world, r.status.ticket, cfg) && !Blocked(s.world, r, cfg)
    ensures var r := s.world.requests[name]; var end := Reconciled(s, calm, name).world;
            name !in end.requests && end.bindings == Created(s.world.bindings, r, r.spec.namespaces)
  {
    var r := s.world.requests[name];
    WholeReconcile(s, calm, name, cfg);
    var begun := Apply(s, Pop(name));
    var done := Run(begun, calm);
    assert PreApprovedOutcome(begun.world, r, cfg, done.world, done.pc.result);
  }

  /** A run to a binding that was created when its time was already over. */
  lemma GrantedPastEnd() returns (s: State, steps: seq<Step>)
    ensures Init(s) && var w := Run(s, steps).world;
            && NAME !in w.requests && w.now == 25
            && GRANTED_KEY in w.bindings && w.bindings[GRANTED_KEY] == BindingFor(PRE_APPROVED)
            && w.bindings[GRANTED_KEY].expiry == 20
  {
    var t;
    s, steps, t := ComesDue("11", "Approved", 25);
    Reachable(s, steps);
    var calm := ReconcileExists(t, NAME);
    ExpiredRequestIsStillGranted(t, calm, NAME, SampleConfig(map[]));
    CreatedExactly(t.world.bindings, PRE_APPROVED, ["ns"]);
    assert GRANTED_KEY == BindingKeyOf(PRE_APPROVED, "ns");
    steps := ContinueReconcile(s, steps, t, calm, NAME);
  }

  // Deleting by name

  /** A request of that name was created during the steps. */
  ghost predicate Recreates(s: State, steps: seq<Step>, name: string) {
    exists i :: CreatesAt(s, steps, i, name)
  }

  ghost predicate Creates(s: State, step: Step, name: string) {
    step.Env? && step.e.CreateRequest? && step.e.name == name && Enabled(s, step)
  }

  ghost predicate CreatesAt(s: State, steps: seq<Step>, i: int, name: string) {
    0 <= i < |steps| && Creates(Run(s, steps[..i]), steps[i], name)
  }

  lemma CreatesAtFront(s: State, steps: seq<Step>, i: int, name: string)
    requires 0 <= i < |steps| - 1
    ensures CreatesAt(s, steps[..|steps| - 1], i, name) <==> CreatesAt(s, steps, i, name)
  {
    assert steps[..|steps| - 1][..i] == steps[..i];
  }

  lemma RecreatesSnoc(s: State, steps: seq<Step>, name: string)
    requires steps != []
    ensures var n := |steps| - 1;
            Recreates(s, steps, name) <==> Recreates(s, steps[..n], name) || Creates(Run(s, steps[..n]), steps[n], name)
  {
    var n := |steps| - 1;
    if i :| 0 <= i < n && CreatesAt(s, steps[..n], i, name) {
      CreatesAtFront(s, steps, i, name);
    } else if i :| 0 <= i < n && CreatesAt(s, steps, i, name) {
      CreatesAtFront(s, steps, i, name);
    } else {
      assert CreatesAt(s, steps, n, name) <==> Creates(Run(s, steps[..n]), steps[n], name);
    }
  }

  /** Whoever has the name: the request numbered `uid`, unless the name was given to another. */
  ghost predicate Holds(w: World, name: string, uid: nat, recreated: bool) {
    && uid in w.names && w.names[uid] == name
    && (if recreated then !UidStored(w, uid) else name in w.requests ==> w.requests[name].uid == uid)
  }

  lemma StepKeepsHolds(s: State, step: Step, name: string, uid: nat, recreated: bool)
    requires Inv(s) && Holds(s.world, name, uid, recreated) && (step.Env? || step.Respond?)
    ensures Holds(Apply(s, step).world, name, uid, recreated || Creates(s, step, name))
  {
    if Enabled(s, step) {
      if step.Env? {
        EnvKeepsHolds(s.world, step.e, name, uid, recreated);
      } else {
        CallKeepsNames(s.world, s.pc, step.outcome, step.hint);
        if recreated {
          AnswerStoresNoUid(s.world, s.pc, step.outcome, step.hint, uid);
        } else if !s.pc.Write? {
          CallKeepsStatuses(s.world, s.pc, step.outcome, step.hint);
        }
      }
    }
  }

  lemma EnvKeepsHolds(w: World, e: EnvStep, name: string, uid: nat, recreated: bool)
    requires WorldOk(w) && EnvEnabled(w, e) && Holds(w, name, uid, recreated)
    ensures Holds(EnvApply(w, e), name, uid, recreated || (e.CreateRequest? && e.name == name))
  {
    EnvExtends(w, e);
    if recreated {
      EnvStoresNoDeadUid(w, e, uid);
    } else if e.CreateRequest? && e.name == name {
      forall n | n in w.requests ensures w.requests[n].uid != uid {
        assert RecordOk(w, n);
      }
    }
  }

  lemma {:induction false} HoldsThroughout(s: State, steps: seq<Step>, name: string, uid: nat)
    requires Inv(s) && Holds(s.world, name, uid, false) && WithinReconcile(steps)
    ensures Inv(Run(s, steps)) && Holds(Run(s, steps).world, name, uid, Recreates(s, steps, name))
  {
    if steps != [] {
      var n := |steps| - 1;
      HoldsThroughout(s, steps[..n], name, uid);
      StepKeepsInv(Run(s, steps[..n]), steps[n]);
      StepKeepsHolds(Run(s, steps[..n]), steps[n], name, uid, Recreates(s, steps[..n], name));
      RecreatesSnoc(s, steps, name);
    }
  }

  /**
   A delete goes by name and carries no precondition. From the moment a reconcile has read its
   request, what it would delete is another request exactly if one of that name has been created
   since, which takes that the first one was deleted by someone else.
   */
  lemma DeletesAnotherIffRecreated(s: State, steps: seq<Step>, outcome: Outcome)
    requires Inv(s) && s.pc.LoadConfig? && Live(s.world, s.pc.req) && WithinReconcile(steps)
    requires s.pc.req.name in Run(s, steps).world.requests && outcome != Err
    ensures var name := s.pc.req.name; var w := Run(s, steps).world;
            && name !in RemoveRequest(w, name, outcome).0.requests
            && (w.requests[name].uid != s.pc.req.uid <==> Recreates(s, steps, name))
  {
    HoldsThroughout(s, steps, s.pc.req.name, s.pc.req.uid);
  }

  const SKIPPED := Written(FRESH, StatusFor(FRESH, Rejected, FieldMissing("Approver"), Skipped))

  function SkippedWorld(): World {
    JustStored(NEEDS_APPROVER).(requests := map[NAME := SKIPPED])
  }

  lemma SkippedWritten() returns (s: State, steps: seq<Step>, t: State)
    ensures Init(s) && Run(s, steps) == t
    ensures t == State(SkippedWorld().(pending := {NAME}), Finished(NAME, Done(0)))
  {
    s, steps, t := FieldFoundMissing();
    assert WriteStatus(t.world, FRESH, SKIPPED.status, Ok).1 == Success;
    steps, t := Continue(s, steps, t, Respond(Ok, PLAIN_HINT));
  }

  lemma SkippedStored() returns (s: State, steps: seq<Step>, t: State)
    ensures Init(s) && Run(s, steps) == t == State(SkippedWorld().(queue := {NAME}), Idle)
  {
    s, steps, t := SkippedWritten();
    steps, t := Continue(s, steps, t, Settle);
    assert t == State(SkippedWorld().(pending := {NAME}), Idle);
    steps, t := Continue(s, steps, t, Env(Deliver(NAME)));
    assert t.world.pending == {} && t.world.queue == {NAME};
  }

  lemma AboutToDelete() returns (s: State, steps: seq<Step>, t: State)
    ensures Init(s) && Run(s, steps) == t == State(SkippedWorld(), Delete(SKIPPED))
  {
    s, steps, t := SkippedStored();
    steps, t := Continue(s, steps, t, Pop(NAME));
    assert t == State(SkippedWorld(), Fetch(NAME));
    steps, t := Continue(s, steps, t, Respond(Ok, PLAIN_HINT));
    steps, t := Continue(s, steps, t, Respond(Ok, PLAIN_HINT));
  }

  /** Meanwhile the request is deleted by someone else, and another one of its name created. */
  lemma NewerRequestStored() returns (s: State, steps: seq<Step>, t: State)
    ensures Init(s) && Run(s, steps) == t && t.pc == Delete(SKIPPED)
    ensures t.world.requests == map[NAME := FRESH.(uid := 2)]
  {
    s, steps, t := AboutToDelete();
    steps, t := Continue(s, steps, t, Env(DeleteRequest(NAME)));
    assert t.world.requests == map[] && t.world.names == map[1 := NAME] && t.pc == Delete(SKIPPED);
    steps, t := Continue(s, steps, t, Env(CreateRequest(NAME, 2, SAMPLE_SPEC)));
  }

  /** A run in which a request that was just created is deleted in place of a rejected one of its name. */
  lemma NewerRequestDeleted() returns (s: State, steps: seq<Step>, before: State)
    ensures Init(s) && Run(s, steps) == before && before.pc == Delete(SKIPPED)
    ensures NAME in before.world.requests && before.world.requests[NAME].uid == 2
    ensures before.world.requests[NAME].status.phase == New
    ensures NAME !in Run(s, steps + [Respond(Ok, PLAIN_HINT)]).world.requests
  {
    s, steps, before := NewerRequestStored();
    RunSnoc(s, steps, Respond(Ok, PLAIN_HINT));
  }


  // Names that are used again

  const LATER_SPEC := SAMPLE_SPEC.(startTime := 30, endTime := 60)

  function Successor(uid: nat): Request {
    Request(NAME, uid, 0, LATER_SPEC, NEW_STATUS)
  }

  /** What the sample runs never change. */
  ghost predicate SampleSurroundings(w: World) {
    && w.config == Some(SampleConfig(map[])) && w.workflow == SAMPLE_WORKFLOW && w.openStatus == "Todo"
    && "a@x" in w.users && "ns" in w.namespaces && w.regex == None && w.webhooks
  }

  /** A request of the same name is created, and its event delivered. */
  lemma Recreated(s: State, steps: seq<Step>, t: State, uid: nat) returns (steps': seq<Step>, t': State)
    requires Run(s, steps) == t && Inv(t) && t.pc == Idle && NAME !in t.world.requests && uid !in t.world.names
    ensures Run(s, steps') == t' && Inv(t') && t'.pc == Idle
    ensures NAME in t'.world.requests && t'.world.requests[NAME] == Successor(uid) && NAME in t'.world.queue
    ensures SampleSurroundings(t.world) ==> SampleSurroundings(t'.world)
    ensures t'.world.bindings == t.world.bindings && t'.world.timers == t.world.timers && t'.world.now == t.world.now
  {
    StepKeepsInv(t, Env(CreateRequest(NAME, uid, LATER_SPEC)));
    steps', t' := Continue(s, steps, t, Env(CreateRequest(NAME, uid, LATER_SPEC)));
    StepKeepsInv(t', Env(Deliver(NAME)));
    steps', t' := Continue(s, steps', t', Env(Deliver(NAME)));
  }

  lemma SuccessorAccepted(w: World)
    requires SampleSurroundings(w)
    ensures MissingFields(SampleConfig(map[]), LATER_SPEC) == {} && ChecksPass(w, LATER_SPEC, SampleConfig(map[]))
  {
  }

  /** It is pre-approved; its ticket is new, and an earlier timer of the name stays. */
  lemma SuccessorPreApproved(t: State, uid: nat, calm: seq<Step>) returns (key: nat)
    requires Inv(t) && NAME in t.world.requests && t.world.requests[NAME] == Successor(uid)
    requires SampleSurroundings(t.world) && t.world.now < 30
    requires Reconciles(t, calm, NAME) && Reconciled(t, calm, NAME).world.now == t.world.now
    ensures var end := Reconciled(t, calm, NAME);
            && Inv(end) && end.pc == Idle && SampleSurroundings(end.world) && end.world.bindings == t.world.bindings
            && Awaits(end.world, uid, key, "Todo") && end.world.timers == AddTimer(t.world.timers, NAME, 30)
  {
    var cfg := SampleConfig(map[]);
    WholeReconcile(t, calm, NAME, cfg);
    var begun, done := Apply(t, Pop(NAME)).world, Run(Apply(t, Pop(NAME)), calm);
    SettlingKeeps(done.world, NAME, done.pc.result);
    key := PreApprovedOnTime(begun, uid, done.world, done.pc.result);
  }

  lemma PreApprovedOnTime(w0: World, uid: nat, w: World, res: Result) returns (key: nat)
    requires SampleSurroundings(w0) && w0.now == w.now < 30
    requires Expected(w0, Successor(uid), SampleConfig(map[]), w, res)
    ensures Awaits(w, uid, key, "Todo") && w.bindings == w0.bindings && res == Done(30 - w0.now)
  {
    SuccessorAccepted(w0);
    key := w.requests[NAME].status.ticket.key;
  }

  /** A run in which a timer left over from a deleted request of the same name fires before the start time. */
  lemma ReusedNameWakesEarly() returns (s: State, steps: seq<Step>)
    ensures Init(s)
    ensures var w := Run(s, steps).world;
            && NAME in w.requests && w.requests[NAME].status.phase == PreApproved
            && NAME in w.timers && w.timers[NAME] < w.requests[NAME].status.startTime
  {
    var t;
    s, steps, t := Waiting();
    steps, t := Continue(s, steps, t, Env(DeleteRequest(NAME)));
    Reachable(s, steps);
    steps, t := Recreated(s, steps, t, 2);
    var calm := ReconcileExists(t, NAME);
    var key := SuccessorPreApproved(t, 2, calm);
    steps := ContinueReconcile(s, steps, t, calm, NAME);
  }

  // Another owner's binding

  /** A request deleted past its end has left its binding behind. */
  lemma BindingLeft() returns (s: State, steps: seq<Step>, t: State)
    ensures Init(s) && Run(s, steps) == t && Inv(t) && t.pc == Idle && t.world.now == 25
    ensures SampleSurroundings(t.world) && NAME !in t.world.requests && t.world.timers == map[]
    ensures GRANTED_KEY in t.world.bindings && t.world.bindings[GRANTED_KEY] == BindingFor(PRE_APPROVED)
    ensures 1 in t.world.names
  {
    s, steps, t := ComesDue("11", "Approved", 25);
    Reachable(s, steps);
    var cfg := SampleConfig(map[]);
    var calm := ReconcileExists(t, NAME);
    ExpiredRequestIsStillGranted(t, calm, NAME, cfg);
    CreatedExactly(t.world.bindings, PRE_APPROVED, ["ns"]);
    assert GRANTED_KEY == BindingKeyOf(PRE_APPROVED, "ns");
    LeftBehind(t, calm);
    steps := ContinueReconcile(s, steps, t, calm, NAME);
    t := Reconciled(t, calm, NAME);
    assert BindingOk(t.world, GRANTED_KEY) && OwnRef(PRE_APPROVED) in BindingFor(PRE_APPROVED).owners;
  }

  lemma LeftBehind(t: State, calm: seq<Step>)
    requires Inv(t) && t == State(DueWorld("Approved", 25), Idle) && Reconciles(t, calm, NAME)
    requires NAME !in Reconciled(t, calm, NAME).world.requests
    ensures var end := Reconciled(t, calm, NAME);
            Inv(end) && end.pc == Idle && SampleSurroundings(end.world) && end.world.timers == map[]
  {
    var cfg := SampleConfig(map[]);
    WholeReconcile(t, calm, NAME, cfg);
    var begun, done := Apply(t, Pop(NAME)), Run(Apply(t, Pop(NAME)), calm);
    GoneWithoutDelay(begun.world, PRE_APPROVED, cfg, done.world, done.pc.result);
  }

  lemma GoneWithoutDelay(w0: World, r: Request, cfg: Config, w: World, res: Result)
    requires Start(w0, r, cfg) && r.status.phase == PreApproved && Expected(w0, r, cfg, w, res) && r.name !in w.requests
    ensures res == Done(0)
  {
  }

  /** Pre-approved for its start at 30, with its ticket in the given status. */
  predicate Awaits(w: World, uid: nat, key: nat, status: string) {
    && NAME in w.requests && w.requests[NAME].uid == uid && w.requests[NAME].spec == LATER_SPEC
    && w.requests[NAME].status == Status(PreApproved, AwaitingApproval, Issue(key), 30, 60)
    && key in w.tickets && w.tickets[key].status == status
  }

  lemma TicketApproved(w: World, uid: nat, key: nat)
    requires SampleSurroundings(w) && Awaits(w, uid, key, "Todo")
    ensures EnvEnabled(w, MoveTicket(key, "11"))
    ensures var next := EnvApply(w, MoveTicket(key, "11"));
            && next == w.(tickets := next.tickets) && SampleSurroundings(next) && Awaits(next, uid, key, "Approved")
  {
  }

  /** Its ticket is approved and it comes due. */
  lemma SuccessorDue(s: State, steps: seq<Step>, t: State, uid: nat, key: nat) returns (steps': seq<Step>, t': State)
    requires Run(s, steps) == t && Inv(t) && t.pc == Idle && SampleSurroundings(t.world) && t.world.now <= 30
    requires Awaits(t.world, uid, key, "Todo") && NAME in t.world.timers && t.world.timers[NAME] <= 30
    ensures Run(s, steps') == t' && Inv(t') && t'.pc == Idle && SampleSurroundings(t'.world) && t'.world.now == 30
    ensures Awaits(t'.world, uid, key, "Approved")
    ensures t'.world.bindings == t.world.bindings && NAME in t'.world.queue
  {
    TicketApproved(t.world, uid, key);
    StepKeepsInv(t, Env(MoveTicket(key, "11")));
    steps', t' := Continue(s, steps, t, Env(MoveTicket(key, "11")));
    steps', t' := TimePasses(s, steps', t', uid, key);
  }

  lemma TimePasses(s: State, steps: seq<Step>, t: State, uid: nat, key: nat) returns (steps': seq<Step>, t': State)
    requires Run(s, steps) == t && Inv(t) && t.pc == Idle && SampleSurroundings(t.world) && t.world.now <= 30
    requires Awaits(t.world, uid, key, "Approved") && NAME in t.world.timers && t.world.timers[NAME] <= 30
    ensures Run(s, steps') == t' && Inv(t') && t'.pc == Idle && SampleSurroundings(t'.world) && t'.world.now == 30
    ensures Awaits(t'.world, uid, key, "Approved")
    ensures t'.world.bindings == t.world.bindings && NAME in t'.world.queue
  {
    StepKeepsInv(t, Env(Tick(30)));
    steps', t' := Continue(s, steps, t, Env(Tick(30)));
    assert t'.world == t.world.(now := 30);
    StepKeepsInv(t', Env(Fire(NAME)));
    steps', t' := Continue(s, steps', t', Env(Fire(NAME)));
    assert t'.world == Fired(t.world.(now := 30), NAME);
  }

  /** It becomes Succeeded, and the key keeps the binding that was there. */
  lemma SuccessorSucceeds(t: State, uid: nat, key: nat, calm: seq<Step>)
    requires Inv(t) && SampleSurroundings(t.world) && t.world.now == 30
    requires Awaits(t.world, uid, key, "Approved")
    requires GRANTED_KEY in t.world.bindings
    requires Reconciles(t, calm, NAME) && Reconciled(t, calm, NAME).world.now == t.world.now
    ensures var w := Reconciled(t, calm, NAME).world;
            && NAME in w.requests && w.requests[NAME].uid == uid && w.requests[NAME].status.phase == Succeeded
            && GRANTED_KEY in w.bindings && w.bindings[GRANTED_KEY] == t.world.bindings[GRANTED_KEY]
  {
    var cfg, r := SampleConfig(map[]), t.world.requests[NAME];
    WholeReconcile(t, calm, NAME, cfg);
    var begun, done := Apply(t, Pop(NAME)).world, Run(Apply(t, Pop(NAME)), calm);
    SettlingKeeps(done.world, NAME, done.pc.result);
    SettlingKeepsStores(done.world, NAME, done.pc.result);
    SucceedsOnTime(begun, uid, key, done.world, done.pc.result);
    CreatingKept(begun.bindings, r, r.spec.namespaces);
  }

  lemma CreatingKept(store: Store, req: Request, namespaces: seq<string>)
    ensures Keeps(store, Created(store, req, namespaces))
  {
    CreatedExactly(store, req, namespaces);
  }

  lemma SucceedsOnTime(w0: World, uid: nat, key: nat, w: World, res: Result)
    requires SampleSurroundings(w0) && w0.now == w.now == 30 && Awaits(w0, uid, key, "Approved")
    requires w0.requests[NAME].name == NAME && Expected(w0, w0.requests[NAME], SampleConfig(map[]), w, res)
    ensures NAME in w.requests && w.requests[NAME].uid == uid && w.requests[NAME].status.phase == Succeeded
    ensures AllBound(w0, w, w0.requests[NAME])
  {
    assert PreApprovedOutcome(w0, w0.requests[NAME], SampleConfig(map[]), w, res);
  }

  /**
   A run to a Succeeded request that owns no binding: its namespace still had the binding of a deleted
   request of the same name, which is garbage and can be collected at any time.
   */
  lemma SucceededWithoutAccess() returns (s: State, steps: seq<Step>)
    ensures Init(s)
    ensures var w := Run(s, steps).world;
            && NAME in w.requests && w.requests[NAME].status.phase == Succeeded
            && GRANTED_KEY in w.bindings && !OwnedBy(w.bindings[GRANTED_KEY], w.requests[NAME].uid)
            && Garbage(w, GRANTED_KEY)
  {
    var t;
    s, steps, t := BindingLeft();
    var uid := UnusedKey(t.world.names.Keys);
    steps, t := Recreated(s, steps, t, uid);
    var calm := ReconcileExists(t, NAME);
    var key := SuccessorPreApproved(t, uid, calm);
    steps := ContinueReconcile(s, steps, t, calm, NAME);
    t := Reconciled(t, calm, NAME);
    steps, t := SuccessorDue(s, steps, t, uid, key);
    calm := ReconcileExists(t, NAME);
    SuccessorSucceeds(t, uid, key, calm);
    steps := ContinueReconcile(s, steps, t, calm, NAME);
    Reachable(s, steps);
    LeftIsGarbage(Run(s, steps).world, uid);
  }

  lemma LeftIsGarbage(w: World, uid: nat)
    requires WorldOk(w) && NAME in w.requests && w.requests[NAME].uid == uid != 1
    requires GRANTED_KEY in w.bindings && w.bindings[GRANTED_KEY] == BindingFor(PRE_APPROVED)
    ensures Garbage(w, GRANTED_KEY) && !OwnedBy(w.bindings[GRANTED_KEY], uid)
  {
    assert BindingOk(w, GRANTED_KEY);
    assert OwnRef(PRE_APPROVED) in w.bindings[GRANTED_KEY].owners;
    forall n | n in w.requests ensures w.requests[n].uid != 1 {
      assert RecordOk(w, n);
    }
  }

  /**
   A request that an undisturbed reconcile makes Succeeded has a binding in each of its namespaces,
   and it is its own exactly if the key was free, or its own already.
   */
  lemma SucceededOwnsIff(s: State, calm: seq<Step>, name: string, cfg: Config, namespace: string)
    requires Inv(s) && name in s.world.requests && s.world.config == Some(cfg) && Reconciles(s, calm, name)
    requires s.world.requests[name].status.phase == PreApproved && namespace in s.world.requests[name].spec.namespaces
    requires var w := Reconciled(s, calm, name).world; name in w.requests && w.requests[name].status.phase == Succeeded
    ensures var r := s.world.requests[name]; var key := BindingKeyOf(r, namespace);
            var after := Reconciled(s, calm, name).world.bindings;
            && key in after
            && (OwnedBy(after[key], r.uid) <==> key !in s.world.bindings || OwnedBy(s.world.bindings[key], r.uid))
  {
    SucceededBinds(s, calm, name, cfg);
    CreatedOwnsIff(s.world.bindings, s.world.requests[name], s.world.requests[name].spec.namespaces, namespace);
  }

  lemma SucceededBinds(s: State, calm: seq<Step>, name: string, cfg: Config)
    requires Inv(s) && name in s.world.requests && s.world.config == Some(cfg) && Reconciles(s, calm, name)
    requires s.world.requests[name].status.phase == PreApproved
    requires var w := Reconciled(s, calm, name).world; name in w.requests && w.requests[name].status.phase == Succeeded
    ensures var r := s.world.requests[name];
            Reconciled(s, calm, name).world.bindings == Created(s.world.bindings, r, r.spec.namespaces)
  {
    WholeReconcile(s, calm, name, cfg);
    var begun, done := Apply(s, Pop(name)).world, Run(Apply(s, Pop(name)), calm);
    SettlingKeepsStores(done.world, name, done.pc.result);
    SucceededIsBound(begun, s.world.requests[name], cfg, done.world, done.pc.result);
  }

  lemma SucceededIsBound(w0: World, r: Request, cfg: Config, w: World, res: Result)
    requires Start(w0, r, cfg) && r.status.phase == PreApproved && Expected(w0, r, cfg, w, res)
    requires r.name in w.requests && w.requests[r.name].status.phase == Succeeded
    ensures AllBound(w0, w, r)
  {
  }
}
