/**
 When access is granted: every role binding the operator creates has a complete justification,
 part of it in the same reconcile and part in an earlier one.
 */
module Grants {
  import opened Types
  import opened Validation
  import opened Payload
  import opened Machine
  import opened Invariants
  import opened History

  /** The role, field, label and pattern checks of `handleNewRequest`, on what was read for them. */
  predicate ChecksHold(req: Request, cfg: Config, labels: Entry, pattern: Entry)
    requires labels.LabelsRead? && pattern.PatternRead?
  {
    && req.spec.clusterRole in cfg.allowedClusterRoles
    && (forall f | f in cfg.customFields :: f in req.spec.jiraFields)
    && (|| labels.webhooks || req.spec.namespaceLabels == map[]
        || forall ns | ns in req.spec.namespaces ::
             ns in labels.namespaces && req.spec.namespaceLabels.Items <= labels.namespaces[ns].Items)
    && (pattern.regex.None? || forall ns | ns in req.spec.namespaces :: pattern.regex.value(ns))
  }

  lemma ChecksMean(req: Request, cfg: Config, labels: Entry, pattern: Entry)
    requires labels.LabelsRead? && pattern.PatternRead? && RoleAndFieldsOk(req, cfg)
    requires labels.webhooks || LabelsAccept(labels.namespaces, req.spec)
    requires RegexAccepts(pattern.regex, req.spec.namespaces)
    ensures ChecksHold(req, cfg, labels, pattern)
  {
    LabelsMean(labels.namespaces, req.spec);
    forall f | f in cfg.customFields ensures f in req.spec.jiraFields {
      assert f !in MissingFields(cfg, req.spec);
    }
  }

  predicate OpensNew(t: Trace, n: int, req: Request, cfg: Config) {
    n >= 2 && n <= |t| && t[n - 2] == Fetched(req) && t[n - 1] == ReadConfig(cfg) && req.status.phase == New
  }

  ghost predicate OpensTicket(t: Trace, n: int, req: Request, cfg: Config, key: nat) {
    && n >= 3 && n <= |t| && OpensNew(t, n - 1, req, cfg)
    && t[n - 1].TicketOpened? && t[n - 1].uid == req.uid && t[n - 1].key == key
    && PayloadOk(cfg, req.spec, t[n - 1].fields)
  }

  ghost predicate ReadsLabels(t: Trace, n: int, req: Request, cfg: Config, key: nat) {
    && n >= 4 && n <= |t| && t[n - 1].LabelsRead? && OpensTicket(t, n - 1, req, cfg, key)
    && (t[n - 1].webhooks || LabelsAccept(t[n - 1].namespaces, req.spec))
  }

  /**
   The five entries before position `p` are those of a reconcile that read the request as new and
   the configuration, opened the ticket with the fields of the request, and passed every check on
   what it read.
   */
  ghost predicate VettedAt(t: Trace, p: int, uid: nat, ticket: TicketRef) {
    && 5 <= p <= |t| && t[p - 5].Fetched? && t[p - 4].ReadConfig? && t[p - 2].LabelsRead? && t[p - 1].PatternRead?
    && t[p - 5].req.uid == uid && t[p - 5].req.status.phase == New
    && ticket.Issue? && t[p - 3].TicketOpened? && t[p - 3].uid == uid && t[p - 3].key == ticket.key
    && PayloadOk(t[p - 4].cfg, t[p - 5].req.spec, t[p - 3].fields)
    && ChecksHold(t[p - 5].req, t[p - 4].cfg, t[p - 2], t[p - 1])
  }

  /** `r` is a later version of `vetted`; the very next one, written by the operator, has the same spec. */
  predicate Descends(vetted: Request, r: Request) {
    && vetted.uid == r.uid && vetted.version < r.version
    && (r.version == vetted.version + 1 ==> r.spec == vetted.spec)
  }

  /** A reconcile has vetted this very copy of the request, opening this ticket. */
  ghost predicate JustVetted(t: Trace, req: Request, ticket: TicketRef) {
    exists p | 5 <= p <= |t| :: VettedAt(t, p, req.uid, ticket) && t[p - 5].req == req
  }

  /** A reconcile has vetted an earlier version of the request, opening the ticket it records. */
  ghost predicate WasVetted(t: Trace, r: Request) {
    exists p | 5 <= p <= |t| :: VettedBefore(t, p, r)
  }

  ghost predicate VettedBefore(t: Trace, p: int, r: Request) {
    VettedAt(t, p, r.uid, r.status.ticket) && Descends(t[p - 5].req, r)
  }

  lemma WasVettedGrows(t: Trace, more: Trace, r: Request)
    requires WasVetted(t, r)
    ensures WasVetted(t + more, r)
  {
    var p :| 5 <= p <= |t| && VettedBefore(t, p, r);
    assert VettedBefore(t + more, p, r);
  }

  lemma JustVettedGrows(t: Trace, more: Trace, req: Request, ticket: TicketRef)
    requires JustVetted(t, req, ticket)
    ensures JustVetted(t + more, req, ticket)
  {
    var p :| 5 <= p <= |t| && VettedAt(t, p, req.uid, ticket) && t[p - 5].req == req;
    assert VettedAt(t + more, p, req.uid, ticket) && (t + more)[p - 5].req == req;
  }

  /** A later version of a vetted request was vetted too. */
  lemma LaterWasVetted(t: Trace, r: Request, next: Request)
    requires WasVetted(t, r) && next.uid == r.uid && next.status == r.status
    requires next == r || next.version > r.version
    ensures WasVetted(t, next)
  {
    var p :| 5 <= p <= |t| && VettedBefore(t, p, r);
    assert VettedBefore(t, p, next);
  }

  lemma WrittenWasVetted(t: Trace, req: Request, status: Status)
    requires JustVetted(t, req, status.ticket)
    ensures WasVetted(t, Written(req, status))
  {
    var p :| 5 <= p <= |t| && VettedAt(t, p, req.uid, status.ticket) && t[p - 5].req == req;
    assert VettedBefore(t, p, Written(req, status));
  }

  /** From position `b` on: the request, the configuration, a clock not before the start, the approved ticket. */
  predicate OpensWith(t: Trace, req: Request, cfg: Config, b: int) {
    && 0 <= b && b + 4 <= |t|
    && t[b] == Fetched(req)
    && t[b + 1] == ReadConfig(cfg)
    && t[b + 2].ReadClock? && t[b + 2].at >= req.status.startTime
    && t[b + 3] == TicketRead(req.status.ticket, cfg.approvedStatus)
  }

  predicate OnlyGrants(t: Trace, from: int, to: int, req: Request)
    requires 0 <= from && to <= |t|
  {
    forall k | from <= k < to :: t[k].Granted? && t[k].req == req
  }

  ghost predicate JustifiedAt(t: Trace, i: int, req: Request, cfg: Config, b: int) {
    && 0 <= b && b + 4 <= i <= |t|
    && OpensWith(t, req, cfg, b)
    && OnlyGrants(t, b + 4, i, req)
    && WasVetted(t[..b], req)
  }

  /**
   Position `i` belongs to a reconcile that read the request Pre-Approved, then a clock not before
   its start time, then its recorded ticket in the approved status, and has only created bindings
   since; and an earlier reconcile vetted the request.
   */
  ghost predicate Justified(t: Trace, i: int, req: Request) {
    req.status.phase == PreApproved && exists cfg, b :: JustifiedAt(t, i, req, cfg, b)
  }

  lemma JustifiedGrows(t: Trace, more: Trace, i: int, req: Request)
    requires Justified(t, i, req)
    ensures Justified(t + more, i, req)
  {
    var cfg, b :| JustifiedAt(t, i, req, cfg, b);
    assert (t + more)[..b] == t[..b];
    assert OpensWith(t + more, req, cfg, b);
    assert JustifiedAt(t + more, i, req, cfg, b);
  }

  // The invariant

  ghost predicate StatusVetted(t: Trace, r: Request) {
    r.status.phase == PreApproved ==> WasVetted(t, r)
  }

  lemma StatusVettedGrows(t: Trace, more: Trace, r: Request)
    requires StatusVetted(t, r)
    ensures StatusVetted(t + more, r)
  {
    if r.status.phase == PreApproved {
      WasVettedGrows(t, more, r);
    }
  }

  ghost predicate StoredVetted(w: World, t: Trace) {
    forall n | n in w.requests :: StatusVetted(t, w.requests[n])
  }

  ghost predicate AllJustified(t: Trace) {
    forall i | 0 <= i < |t| && t[i].Granted? :: Justified(t, i, t[i].req)
  }

  /** How the trace ends at the points that lead to a binding. */
  ghost predicate TailOk(t: Trace, pc: Pc) {
    var n := |t|;
    match pc
    case LoadConfig(req) =>
      n >= 1 && t[n - 1] == Fetched(req) && StatusVetted(t[..n - 1], req)
    case CheckTime(req, cfg) =>
      n >= 2 && t[n - 2] == Fetched(req) && t[n - 1] == ReadConfig(cfg) && StatusVetted(t[..n - 2], req)
    case CheckApproval(req, cfg) =>
      && n >= 3 && t[n - 3] == Fetched(req) && t[n - 2] == ReadConfig(cfg)
      && t[n - 1].ReadClock? && t[n - 1].at >= req.status.startTime && StatusVetted(t[..n - 3], req)
    case Bind(req, _, _) => Justified(t, n, req)
    case ScanFields(req, cfg) => OpensNew(t, n, req, cfg)
    case FindReporter(req, cfg) => OpensNew(t, n, req, cfg)
    case OpenTicket(req, cfg) => OpensNew(t, n, req, cfg)
    case CheckLabels(req, cfg, key) => OpensTicket(t, n, req, cfg, key)
    case CheckRegex(req, cfg, key) => ReadsLabels(t, n, req, cfg, key)
    case CheckStart(req, _, key) => JustVetted(t, req, Issue(key))
    case PreApproveComment(req, _, key) => JustVetted(t, req, Issue(key))
    case Write(req, status, _, after) => after == ThenAwaitStart ==> JustVetted(t, req, status.ticket)
    case _ => true
  }

  ghost predicate GrantInv(s: State, t: Trace) {
    StoredVetted(s.world, t) && TailOk(t, s.pc) && AllJustified(t)
  }

  lemma EnvKeepsStoredVetted(w: World, e: EnvStep, t: Trace)
    requires WorldOk(w) && EnvEnabled(w, e) && StoredVetted(w, t)
    ensures StoredVetted(EnvApply(w, e), t)
  {
    EnvExtends(w, e);
    var next := EnvApply(w, e);
    forall n | n in next.requests ensures StatusVetted(t, next.requests[n]) {
      if next.requests[n].status.phase == PreApproved {
        assert RecordExtends(w, next, n) && StatusVetted(t, w.requests[n]);
        LaterWasVetted(t, w.requests[n], next.requests[n]);
      }
    }
  }

  /** Only a write sets a status; every other call keeps the stored ones. */
  lemma CallKeepsStatuses(w: World, pc: Pc, outcome: Outcome, hint: Hint)
    requires !pc.Write?
    ensures var next := Perform(w, pc, outcome, hint).0;
            forall n | n in next.requests :: n in w.requests && next.requests[n] == w.requests[n]
  {
    if pc.Delete? {
      assert Perform(w, pc, outcome, hint).0.requests == w.requests
          || Perform(w, pc, outcome, hint).0.requests == w.requests - {pc.req.name};
    } else {
      CallKeepsRequests(w, pc, outcome, hint);
    }
  }

  lemma CallKeepsRequests(w: World, pc: Pc, outcome: Outcome, hint: Hint)
    requires !pc.Write? && !pc.Delete?
    ensures Perform(w, pc, outcome, hint).0.requests == w.requests
  {
    if !ChangesWorld(pc) {
      ReadsKeepWorld(w, pc, outcome, hint);
    }
  }

  lemma AnswerKeepsStoredVetted(s: State, outcome: Outcome, hint: Hint, t: Trace, more: Trace)
    requires Inv(s) && InCall(s.pc) && StoredVetted(s.world, t) && TailOk(t, s.pc)
    ensures StoredVetted(Perform(s.world, s.pc, outcome, hint).0, t + more)
  {
    var next := Perform(s.world, s.pc, outcome, hint).0;
    if !s.pc.Write? {
      CallKeepsStatuses(s.world, s.pc, outcome, hint);
    }
    forall n | n in next.requests ensures StatusVetted(t + more, next.requests[n]) {
      assert n in s.world.requests;
      if next.requests[n] == s.world.requests[n] {
        StatusVettedGrows(t, more, s.world.requests[n]);
      } else if s.pc.after == ThenAwaitStart {
        JustVettedGrows(t, more, s.pc.req, s.pc.status.ticket);
        WrittenWasVetted(t + more, s.pc.req, s.pc.status);
        assert next.requests[n] == Written(s.pc.req, s.pc.status);
      }
    }
  }

  lemma GrantsStayJustified(t: Trace, more: Trace)
    requires AllJustified(t)
    requires forall e | e in more :: !e.Granted?
    ensures AllJustified(t + more)
  {
    forall i | |t| <= i < |t + more| ensures !(t + more)[i].Granted? {
      assert (t + more)[i] in more;
    }
    forall i | 0 <= i < |t| && t[i].Granted? ensures Justified(t + more, i, (t + more)[i].req) {
      JustifiedGrows(t, more, i, t[i].req);
    }
  }

  lemma NewGrantJustified(t: Trace, grant: Entry, end: Trace)
    requires AllJustified(t) && grant.Granted? && Justified(t, |t|, grant.req)
    requires forall e | e in end :: !e.Granted?
    ensures AllJustified(t + [grant] + end)
  {
    forall i | 0 <= i < |t + [grant]| && (t + [grant])[i].Granted?
      ensures Justified(t + [grant], i, (t + [grant])[i].req)
    {
      JustifiedGrows(t, [grant], i, (t + [grant])[i].req);
    }
    GrantsStayJustified(t + [grant], end);
  }

  lemma EntriesGrantNothing(s: State, outcome: Outcome, hint: Hint)
    requires !s.pc.Bind?
    ensures forall e | e in AnswerEntries(s, outcome, hint) :: !e.Granted?
  {
  }

  lemma BindKeepsJustified(s: State, outcome: Outcome, hint: Hint, t: Trace)
    requires s.pc.Bind? && TailOk(t, s.pc) && AllJustified(t)
    ensures AllJustified(t + AnswerEntries(s, outcome, hint))
  {
    var effect := Effect(s.world, s.pc, outcome, hint);
    var end := Ending(s.world, s.pc, outcome, Perform(s.world, s.pc, outcome, hint).1);
    if effect != [] {
      NewGrantJustified(t, effect[0], end);
      assert t + effect + end == t + (effect + end);
    } else {
      GrantsStayJustified(t, effect + end);
    }
  }

  lemma AnswerKeepsJustified(s: State, outcome: Outcome, hint: Hint, t: Trace)
    requires InCall(s.pc) && TailOk(t, s.pc) && AllJustified(t)
    ensures AllJustified(t + AnswerEntries(s, outcome, hint))
  {
    if s.pc.Bind? {
      BindKeepsJustified(s, outcome, hint, t);
    } else {
      EntriesGrantNothing(s, outcome, hint);
      GrantsStayJustified(t, AnswerEntries(s, outcome, hint));
    }
  }

  /** The tail grows with each answer on the way to a binding. */
  lemma NextTail(w: World, pc: Pc, outcome: Outcome, hint: Hint, t: Trace)
    requires PcOk(w, pc) && InCall(pc) && TailOk(t, pc) && HintOk(w, pc, hint)
    requires pc.Fetch? && pc.name in w.requests ==> StatusVetted(t, w.requests[pc.name])
    ensures TailOk(t + AnswerEntries(State(w, pc), outcome, hint), Next(pc, Perform(w, pc, outcome, hint).1))
  {
    if NewPath(pc) {
      NextTailNew(w, pc, outcome, hint, t);
    } else if pc.Fetch? || pc.LoadConfig? || pc.CheckTime? {
      NextTailOpening(w, pc, outcome, hint, t);
    } else {
      if pc.CheckApproval? {
        NextTailApproval(w, pc, outcome, hint, t);
      } else if pc.Bind? {
        NextTailBind(w, pc, outcome, hint, t);
      } else {
        NextTailElsewhere(w, pc, outcome, hint, t);
      }
    }
  }

  lemma NextTailBind(w: World, pc: Pc, outcome: Outcome, hint: Hint, t: Trace)
    requires pc.Bind? && TailOk(t, pc)
    ensures TailOk(t + AnswerEntries(State(w, pc), outcome, hint), Next(pc, Perform(w, pc, outcome, hint).1))
  {
    if Next(pc, Perform(w, pc, outcome, hint).1).Bind? {
      NextGrant(t, AnswerEntries(State(w, pc), outcome, hint), pc.req);
    }
  }

  lemma NextTailElsewhere(w: World, pc: Pc, outcome: Outcome, hint: Hint, t: Trace)
    requires InCall(pc) && TailOk(t, pc) && !NewPath(pc)
    requires !pc.Fetch? && !pc.LoadConfig? && !pc.CheckTime? && !pc.CheckApproval? && !pc.Bind?
    ensures TailOk(t + AnswerEntries(State(w, pc), outcome, hint), Next(pc, Perform(w, pc, outcome, hint).1))
  {
    if pc.Write? && pc.after == ThenAwaitStart {
      JustVettedGrows(t, AnswerEntries(State(w, pc), outcome, hint), pc.req, pc.status.ticket);
    }
  }

  lemma NextTailApproval(w: World, pc: Pc, outcome: Outcome, hint: Hint, t: Trace)
    requires pc.CheckApproval? && PcOk(w, pc) && TailOk(t, pc)
    ensures TailOk(t + AnswerEntries(State(w, pc), outcome, hint), Next(pc, Perform(w, pc, outcome, hint).1))
  {
    var t' := t + AnswerEntries(State(w, pc), outcome, hint);
    if Next(pc, Perform(w, pc, outcome, hint).1).Bind? {
      assert t'[..|t| - 3] == t[..|t| - 3];
      assert JustifiedAt(t', |t'|, pc.req, pc.cfg, |t| - 3);
    }
  }

  lemma NextTailOpening(w: World, pc: Pc, outcome: Outcome, hint: Hint, t: Trace)
    requires pc.Fetch? || pc.LoadConfig? || pc.CheckTime?
    requires PcOk(w, pc) && TailOk(t, pc)
    requires pc.Fetch? && pc.name in w.requests ==> StatusVetted(t, w.requests[pc.name])
    ensures TailOk(t + AnswerEntries(State(w, pc), outcome, hint), Next(pc, Perform(w, pc, outcome, hint).1))
  {
    var t' := t + AnswerEntries(State(w, pc), outcome, hint);
    match pc
    case Fetch(_) => assert t'[..|t|] == t;
    case LoadConfig(_) => assert t'[..|t| - 1] == t[..|t| - 1];
    case CheckTime(_, _) => NextTailTime(w, pc, outcome, hint, t);
  }

  lemma NextTailTime(w: World, pc: Pc, outcome: Outcome, hint: Hint, t: Trace)
    requires pc.CheckTime? && PcOk(w, pc) && TailOk(t, pc)
    ensures TailOk(t + AnswerEntries(State(w, pc), outcome, hint), Next(pc, Perform(w, pc, outcome, hint).1))
  {
    var t' := t + AnswerEntries(State(w, pc), outcome, hint);
    assert t'[..|t| - 2] == t[..|t| - 2];
  }

  lemma NextTailNew(w: World, pc: Pc, outcome: Outcome, hint: Hint, t: Trace)
    requires NewPath(pc) && PcOk(w, pc) && TailOk(t, pc) && HintOk(w, pc, hint)
    ensures TailOk(t + AnswerEntries(State(w, pc), outcome, hint), Next(pc, Perform(w, pc, outcome, hint).1))
  {
    if pc.CheckLabels? {
      NextTailLabels(w, pc, outcome, hint, t);
    } else if pc.CheckRegex? {
      NextTailPattern(w, pc, outcome, hint, t);
    } else if pc.CheckStart? || pc.PreApproveComment? {
      NextTailVetted(w, pc, outcome, hint, t);
    } else {
      NextTailTicket(w, pc, outcome, hint, t);
    }
  }

  lemma NextTailVetted(w: World, pc: Pc, outcome: Outcome, hint: Hint, t: Trace)
    requires (pc.CheckStart? || pc.PreApproveComment?) && TailOk(t, pc)
    ensures TailOk(t + AnswerEntries(State(w, pc), outcome, hint), Next(pc, Perform(w, pc, outcome, hint).1))
  {
    JustVettedGrows(t, AnswerEntries(State(w, pc), outcome, hint), pc.req, Issue(pc.key));
  }

  lemma NextTailTicket(w: World, pc: Pc, outcome: Outcome, hint: Hint, t: Trace)
    requires (pc.ScanFields? || pc.FindReporter? || pc.OpenTicket?) && TailOk(t, pc) && HintOk(w, pc, hint)
    ensures TailOk(t + AnswerEntries(State(w, pc), outcome, hint), Next(pc, Perform(w, pc, outcome, hint).1))
  {
    if pc.OpenTicket? && outcome == Ok {
      assert AnswerEntries(State(w, pc), outcome, hint) == [TicketOpened(pc.req.uid, hint.key, hint.payload)];
    }
  }

  lemma NextTailLabels(w: World, pc: Pc, outcome: Outcome, hint: Hint, t: Trace)
    requires pc.CheckLabels? && TailOk(t, pc)
    ensures TailOk(t + AnswerEntries(State(w, pc), outcome, hint), Next(pc, Perform(w, pc, outcome, hint).1))
  {
    if ListLabels(w, pc.req.spec, outcome).Success? {
      ListingAccepts(w, pc.req.spec, outcome);
      assert ReadsLabels(t + [LabelsRead(w.webhooks, w.namespaces)], |t| + 1, pc.req, pc.cfg, pc.key);
    }
  }

  /** A listing that passes the check is one on which the labels hold. */
  lemma ListingAccepts(w: World, spec: Spec, outcome: Outcome)
    requires ListLabels(w, spec, outcome).Success?
    ensures w.webhooks || LabelsAccept(w.namespaces, spec)
  {
    if !w.webhooks && spec.namespaceLabels != map[] {
      assert Unmatched(spec.namespaces, Matching(w.namespaces, spec.namespaceLabels)) == [];
    }
  }

  lemma NextTailPattern(w: World, pc: Pc, outcome: Outcome, hint: Hint, t: Trace)
    requires pc.CheckRegex? && PcOk(w, pc) && TailOk(t, pc)
    ensures TailOk(t + AnswerEntries(State(w, pc), outcome, hint), Next(pc, Perform(w, pc, outcome, hint).1))
  {
    if RegexAccepts(w.regex, pc.req.spec.namespaces) {
      var t' := t + [PatternRead(w.regex)];
      assert AnswerEntries(State(w, pc), outcome, hint) == [PatternRead(w.regex)];
      ChecksMean(pc.req, pc.cfg, t[|t| - 1], PatternRead(w.regex));
      assert VettedAt(t', |t'|, pc.req.uid, Issue(pc.key));
    }
  }

  lemma NextGrant(t: Trace, more: Trace, req: Request)
    requires Justified(t, |t|, req)
    requires more == [] || (|more| == 1 && more[0].Granted? && more[0].req == req)
    ensures Justified(t + more, |t + more|, req)
  {
    var cfg, b :| JustifiedAt(t, |t|, req, cfg, b);
    assert (t + more)[..b] == t[..b];
    assert OpensWith(t + more, req, cfg, b);
    assert JustifiedAt(t + more, |t + more|, req, cfg, b);
  }

  lemma StepKeepsGrantInv(s: State, step: Step, t: Trace)
    requires Inv(s) && GrantInv(s, t)
    ensures GrantInv(Apply(s, step), t + Entries(s, step))
  {
    assert t + [] == t;
    if Enabled(s, step) {
      match step
      case Env(e) => EnvKeepsStoredVetted(s.world, e, t);
      case Respond(outcome, hint) =>
        AnswerKeepsStoredVetted(s, outcome, hint, t, AnswerEntries(s, outcome, hint));
        AnswerKeepsJustified(s, outcome, hint, t);
        NextTail(s.world, s.pc, outcome, hint, t);
      case Pop(_) =>
      case Settle =>
      case Restart => RestartKeepsGrantInv(s, t);
    }
  }

  lemma RestartKeepsGrantInv(s: State, t: Trace)
    requires GrantInv(s, t)
    ensures GrantInv(Apply(s, Restart), t + Entries(s, Restart))
  {
    var more := Entries(s, Restart);
    GrantsStayJustified(t, more);
    forall n | n in s.world.requests ensures StatusVetted(t + more, s.world.requests[n]) {
      StatusVettedGrows(t, more, s.world.requests[n]);
    }
  }

  lemma {:induction false} GrantInvHolds(s: State, steps: seq<Step>)
    requires Init(s)
    ensures Inv(Run(s, steps)) && GrantInv(Run(s, steps), TraceOf(s, steps))
  {
    if steps == [] {
      InitInv(s);
    } else {
      var n := |steps| - 1;
      GrantInvHolds(s, steps[..n]);
      StepKeepsInv(Run(s, steps[..n]), steps[n]);
      StepKeepsGrantInv(Run(s, steps[..n]), steps[n], TraceOf(s, steps[..n]));
    }
  }

  lemma CallKeepsBindings(w: World, pc: Pc, outcome: Outcome, hint: Hint)
    requires !pc.Bind?
    ensures Perform(w, pc, outcome, hint).0.bindings == w.bindings
  {
  }

  lemma EnvAddsNoBinding(w: World, e: EnvStep, key: BindingKey)
    requires EnvEnabled(w, e) && key in EnvApply(w, e).bindings
    ensures key in w.bindings && EnvApply(w, e).bindings[key] == w.bindings[key]
  {
  }

  /** No step but a binding call adds or replaces a binding. */
  predicate SameBinding(w: World, next: World, key: BindingKey) {
    key in next.bindings ==> key in w.bindings && next.bindings[key] == w.bindings[key]
  }

  lemma OtherStepsAddNoBinding(s: State, step: Step, key: BindingKey)
    requires !(step.Respond? && s.pc.Bind? && Enabled(s, step))
    ensures SameBinding(s.world, Apply(s, step).world, key)
  {
    if Enabled(s, step) {
      if step.Env? {
        if key in EnvApply(s.world, step.e).bindings {
          EnvAddsNoBinding(s.world, step.e, key);
        }
      } else if step.Respond? {
        CallKeepsBindings(s.world, s.pc, step.outcome, step.hint);
      } else {
        OtherStepsKeepRecords(s, step);
      }
    }
  }

  /** What the binding that gives a request access to a namespace holds. */
  predicate IsAccess(req: Request, namespace: string, key: BindingKey, b: Binding) {
    && key == BindingKey(namespace, req.name + "-jit")
    && b.subjects == [req.spec.reporter] + req.spec.additionalEmails
    && b.role == req.spec.clusterRole && b.expiry == req.spec.endTime
    && b.owners == [OwnerRef("JitRequest", req.name, req.uid)]
  }

  /** The step that creates `key` is a call of `createRoleBinding`, recorded as a grant. */
  ghost predicate GrantRecorded(s: State, step: Step, key: BindingKey) {
    && s.pc.Bind? && s.pc.index < |s.pc.req.spec.namespaces|
    && key == BindingKeyOf(s.pc.req, s.pc.req.spec.namespaces[s.pc.index]) && key !in s.world.bindings
    && Granted(s.pc.req, s.pc.req.spec.namespaces[s.pc.index]) in Entries(s, step)
    && key in Apply(s, step).world.bindings
    && Apply(s, step).world.bindings == s.world.bindings[key := Apply(s, step).world.bindings[key]]
    && IsAccess(s.pc.req, s.pc.req.spec.namespaces[s.pc.index], key, Apply(s, step).world.bindings[key])
  }

  lemma BindRecords(s: State, outcome: Outcome, hint: Hint)
    requires s.pc.Bind? && Answer(s, outcome, hint).world.bindings != s.world.bindings
    requires Enabled(s, Respond(outcome, hint))
    ensures GrantRecorded(s, Respond(outcome, hint), BindingKeyOf(s.pc.req, s.pc.req.spec.namespaces[s.pc.index]))
  {
    assert AnswerEntries(s, outcome, hint)[0] == Granted(s.pc.req, s.pc.req.spec.namespaces[s.pc.index]);
  }

  /**
   Bindings appear in no other way than through a recorded grant, with the subjects, role, expiry
   and owner of the request it records, and an existing binding is never replaced.
   */
  lemma NewBindingIsGranted(s: State, step: Step, key: BindingKey)
    requires !SameBinding(s.world, Apply(s, step).world, key)
    ensures GrantRecorded(s, step, key)
  {
    if !(step.Respond? && s.pc.Bind? && Enabled(s, step)) {
      OtherStepsAddNoBinding(s, step, key);
    } else {
      BindRecords(s, step.outcome, step.hint);
    }
  }

  /**
   The decision on the ticket: access is granted from here exactly if the ticket was read, with a reply,
   in the configured status; any other answer leads to the write that rejects the request.
   */
  lemma ApprovalDecides(s: State, outcome: Outcome, hint: Hint)
    requires s.pc.CheckApproval?
    ensures var req, cfg := s.pc.req, s.pc.cfg; var next := Answer(s, outcome, hint);
            && next.world == s.world
            && if outcome == Ok && req.status.ticket.Issue? && req.status.ticket.key in s.world.tickets
                  && s.world.tickets[req.status.ticket.key].status == cfg.approvedStatus
               then next.pc == if req.spec.namespaces == [] then CompleteComment(req, cfg) else Bind(req, cfg, 0)
               else next.pc == Write(req, Status(Rejected, NotApproved, req.status.ticket,
                                                 req.spec.startTime, req.spec.endTime), 0, ThenReturn)
  {
  }

  /**
   Grant safety, over whole runs: every role binding ever created is justified, see `Justified`.
   */
  lemma GrantSafety(s: State, steps: seq<Step>, i: nat)
    requires Init(s)
    requires i < |TraceOf(s, steps)| && TraceOf(s, steps)[i].Granted?
    ensures Justified(TraceOf(s, steps), i, TraceOf(s, steps)[i].req)
  {
    GrantInvHolds(s, steps);
  }

  // Stored bindings

  predicate OwnedByRequest(b: Binding) {
    exists o | o in b.owners :: o.kind == REQUEST_KIND
  }

  predicate IsGrantOf(e: Entry, key: BindingKey, b: Binding) {
    e.Granted? && e.namespace in e.req.spec.namespaces && IsAccess(e.req, e.namespace, key, b)
  }

  /** The binding is the one a recorded and justified grant created. */
  ghost predicate HasGrant(t: Trace, key: BindingKey, b: Binding) {
    exists i | 0 <= i < |t| :: IsGrantOf(t[i], key, b) && Justified(t, i, t[i].req)
  }

  ghost predicate Recorded(t: Trace, key: BindingKey, b: Binding) {
    exists e | e in t :: IsGrantOf(e, key, b)
  }

  ghost predicate BindingsRecorded(w: World, t: Trace) {
    forall key | key in w.bindings && OwnedByRequest(w.bindings[key]) :: Recorded(t, key, w.bindings[key])
  }

  lemma StepKeepsBindingsRecorded(s: State, step: Step, t: Trace, key: BindingKey)
    requires BindingsRecorded(s.world, t) && key in Apply(s, step).world.bindings
    requires OwnedByRequest(Apply(s, step).world.bindings[key])
    ensures Recorded(t + Entries(s, step), key, Apply(s, step).world.bindings[key])
  {
    if SameBinding(s.world, Apply(s, step).world, key) {
      var e :| e in t && IsGrantOf(e, key, s.world.bindings[key]);
      assert e in t + Entries(s, step);
    } else {
      NewBindingIsGranted(s, step, key);
      var e := Granted(s.pc.req, s.pc.req.spec.namespaces[s.pc.index]);
      assert e in t + Entries(s, step) && IsGrantOf(e, key, Apply(s, step).world.bindings[key]);
    }
  }

  lemma {:induction false} BindingsRecordedHolds(s: State, steps: seq<Step>)
    requires Init(s)
    ensures BindingsRecorded(Run(s, steps).world, TraceOf(s, steps))
  {
    if steps != [] {
      var n := |steps| - 1;
      BindingsRecordedHolds(s, steps[..n]);
      forall key | key in Run(s, steps).world.bindings && OwnedByRequest(Run(s, steps).world.bindings[key])
        ensures Recorded(TraceOf(s, steps), key, Run(s, steps).world.bindings[key])
      {
        StepKeepsBindingsRecorded(Run(s, steps[..n]), steps[n], TraceOf(s, steps[..n]), key);
      }
    }
  }

  /**
   Every binding owned by a request, in every state of every run, is one a justified grant created: it
   names the reporter and then the additional users, with the role and the end time of the granted
   request, in one of its namespaces, under its name and owned by it alone.
   */
  lemma EveryBindingIsGranted(s: State, steps: seq<Step>, key: BindingKey)
    requires Init(s) && key in Run(s, steps).world.bindings && OwnedByRequest(Run(s, steps).world.bindings[key])
    ensures HasGrant(TraceOf(s, steps), key, Run(s, steps).world.bindings[key])
  {
    BindingsRecordedHolds(s, steps);
    var t := TraceOf(s, steps);
    var e :| e in t && IsGrantOf(e, key, Run(s, steps).world.bindings[key]);
    var i :| 0 <= i < |t| && t[i] == e;
    GrantSafety(s, steps, i);
  }
}
