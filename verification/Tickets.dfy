/**
 Accounting of Jira tickets: how many are opened for a request, that the recorded one never
 changes, and how each is closed.
 */
module Tickets {
  import opened Types
  import opened Machine
  import opened Invariants
  import opened History
  import opened Grants
  import opened Expiry

  /** What is counted in a trace. */
  datatype What =
    | OpenedFor(uid: nat)                             // tickets opened for a request
    | BrokeOff(uid: nat)                              // its new-request reconciles that failed in or after opening one
    | Moved(key: nat, completing: bool)               // the operator's transitions of a ticket
    | FailedFor(uid: nat)                             // any failure of a reconcile of the request

  /** In `handleNewRequest`, from opening the ticket to recording it. */
  predicate Holding(pc: Pc) {
    || pc.CheckLabels? || pc.CheckRegex? || pc.CheckStart? || pc.PreApproveComment?
    || (pc.Write? && pc.req.status.phase == New && pc.after != ThenReturnSkipped)
  }

  predicate Is(e: Entry, what: What) {
    match what
    case OpenedFor(uid) => e.TicketOpened? && e.uid == uid
    case BrokeOff(uid) => e.Failed? && PcFor(e.pc, uid) && (e.pc.OpenTicket? || Holding(e.pc))
    case Moved(key, completing) => e.Transitioned? && e.key == key && e.completing == completing
    case FailedFor(uid) => e.Failed? && PcFor(e.pc, uid)
  }

  function Count(t: Trace, what: What): nat {
    if t == [] then 0
    else Count(t[..|t| - 1], what) + if Is(t[|t| - 1], what) then 1 else 0
  }

  lemma CountConcat(t: Trace, more: Trace, what: What)
    ensures Count(t + more, what) == Count(t, what) + Count(more, what)
  {
    if more == [] {
      assert t + more == t;
    } else {
      var n := |more| - 1;
      assert (t + more)[..|t| + n] == t + more[..n];
      CountConcat(t, more[..n], what);
    }
  }

  lemma CountAt(t: Trace, what: What, i: nat)
    requires i < |t| && Is(t[i], what)
    ensures Count(t, what) >= 1
  {
    if i < |t| - 1 {
      CountAt(t[..|t| - 1], what, i);
    }
  }

  lemma CountNone(t: Trace, what: What)
    requires forall e | e in t :: !Is(e, what)
    ensures Count(t, what) == 0
  {
    if t != [] {
      assert t[|t| - 1] in t;
      CountNone(t[..|t| - 1], what);
    }
  }

  /** A trace of at most two entries, as one answer yields. */
  lemma CountShort(t: Trace, what: What)
    requires |t| <= 2
    ensures t == [] ==> Count(t, what) == 0
    ensures |t| == 1 ==> Count(t, what) == if Is(t[0], what) then 1 else 0
    ensures |t| == 2 ==> Count(t, what) == (if Is(t[0], what) then 1 else 0) + (if Is(t[1], what) then 1 else 0)
  {
    if |t| == 2 {
      assert Count(t[..1], what) == if Is(t[0], what) then 1 else 0;
    }
  }

  // Opening

  predicate BeforeTicket(pc: Pc) {
    || (pc.LoadConfig? && pc.req.status.phase == New) || pc.ScanFields? || pc.FindReporter? || pc.OpenTicket?
    || (pc.Write? && pc.after == ThenReturnSkipped)
  }

  predicate StoredWithoutTicket(w: World, uid: nat) {
    exists n | n in w.requests :: w.requests[n].uid == uid && !w.requests[n].status.ticket.Issue?
  }

  function StoredAllowance(w: World, uid: nat): nat {
    if uid !in w.names || StoredWithoutTicket(w, uid) then 0 else 1
  }

  /** How many tickets beyond the abandoned ones may have been opened for a request by now. */
  function Allowance(s: State, uid: nat): nat {
    if PcFor(s.pc, uid) && Holding(s.pc) then 1
    else if PcFor(s.pc, uid) && BeforeTicket(s.pc) then 0
    else StoredAllowance(s.world, uid)
  }

  predicate Balanced(s: State, t: Trace, uid: nat) {
    Count(t, OpenedFor(uid)) <= Count(t, BrokeOff(uid)) + Allowance(s, uid)
  }

  lemma EnvKeepsStoredAllowance(w: World, e: EnvStep, uid: nat)
    requires EnvEnabled(w, e) && WorldOk(w)
    ensures StoredAllowance(EnvApply(w, e), uid) >= StoredAllowance(w, uid)
  {
    var next := EnvApply(w, e);
    if StoredWithoutTicket(next, uid) {
      var n :| n in next.requests && next.requests[n].uid == uid && !next.requests[n].status.ticket.Issue?;
      EnvExtends(w, e);
      assert RecordExtends(w, next, n);
    }
  }

  lemma SameStatusesSameAllowance(w: World, next: World, uid: nat)
    requires next.names == w.names
    requires forall n | n in next.requests :: n in w.requests && next.requests[n] == w.requests[n]
    ensures StoredAllowance(next, uid) >= StoredAllowance(w, uid)
  {
  }

  lemma WriteKeepsStoredAllowance(w: World, req: Request, status: Status, after: After, outcome: Outcome, uid: nat)
    requires CopyOk(w, req) && WriteShape(req, status, after)
    ensures StoredAllowance(WriteStatus(w, req, status, outcome).0, uid) >= StoredAllowance(w, uid)
  {
    var next := WriteStatus(w, req, status, outcome).0;
    if StoredWithoutTicket(next, uid) {
      var n :| n in next.requests && next.requests[n].uid == uid && !next.requests[n].status.ticket.Issue?;
      assert n in w.requests && w.requests[n].uid == uid && !w.requests[n].status.ticket.Issue?;
    }
  }

  lemma CallKeepsStoredAllowance(w: World, pc: Pc, outcome: Outcome, hint: Hint, uid: nat)
    requires PcOk(w, pc)
    ensures StoredAllowance(Perform(w, pc, outcome, hint).0, uid) >= StoredAllowance(w, uid)
  {
    if pc.Write? {
      WriteKeepsStoredAllowance(w, pc.req, pc.status, pc.after, outcome, uid);
    } else {
      CallKeepsNames(w, pc, outcome, hint);
      CallKeepsStatuses(w, pc, outcome, hint);
      SameStatusesSameAllowance(w, Perform(w, pc, outcome, hint).0, uid);
    }
  }

  /** Outside `handleNewRequest` the stored records decide, and they only raise the allowance. */
  lemma NextLeavesTicketPath(pc: Pc, r: Resp)
    requires HasReq(pc) && pc.req.status.phase != New && !BeforeTicket(pc) && !Holding(pc)
    ensures !BeforeTicket(Next(pc, r)) && !Holding(Next(pc, r))
  {
  }

  lemma LaterBalance(s: State, outcome: Outcome, hint: Hint)
    requires Inv(s) && InCall(s.pc) && HasReq(s.pc) && !BeforeTicket(s.pc) && !Holding(s.pc)
    ensures Allowance(Answer(s, outcome, hint), s.pc.req.uid) >= Allowance(s, s.pc.req.uid)
  {
    CallKeepsStoredAllowance(s.world, s.pc, outcome, hint, s.pc.req.uid);
    assert s.pc.req.status.phase != New;
    NextLeavesTicketPath(s.pc, Perform(s.world, s.pc, outcome, hint).1);
  }

  lemma OtherBalance(s: State, outcome: Outcome, hint: Hint, uid: nat)
    requires Inv(s) && InCall(s.pc) && HasReq(s.pc) && s.pc.req.uid != uid
    ensures Allowance(Answer(s, outcome, hint), uid) >= Allowance(s, uid)
  {
    CallKeepsStoredAllowance(s.world, s.pc, outcome, hint, uid);
    NextKeepsUid(s.pc, Perform(s.world, s.pc, outcome, hint).1, uid);
  }

  lemma FetchBalance(s: State, outcome: Outcome, hint: Hint, uid: nat)
    requires Inv(s) && s.pc.Fetch?
    ensures Allowance(Answer(s, outcome, hint), uid) >= Allowance(s, uid)
  {
    if s.pc.name in s.world.requests && s.world.requests[s.pc.name].uid == uid {
      assert RecordOk(s.world, s.pc.name);
    }
  }

  /** A ticket that was opened and is known is held. */
  lemma OpenedIsHeld(pc: Pc, key: nat)
    requires pc.OpenTicket? && pc.req.status.phase == New
    ensures Holding(Next(pc, Opened(key))) && PcFor(Next(pc, Opened(key)), pc.req.uid)
  {
  }

  lemma OpeningBalance(s: State, outcome: Outcome, hint: Hint)
    requires Inv(s) && s.pc.OpenTicket?
    ensures var more := AnswerEntries(s, outcome, hint); var uid := s.pc.req.uid;
            Count(more, OpenedFor(uid)) <= Count(more, BrokeOff(uid)) + Allowance(Answer(s, outcome, hint), uid)
  {
    var more, uid := AnswerEntries(s, outcome, hint), s.pc.req.uid;
    match outcome
    case Ok =>
      OpenedIsHeld(s.pc, hint.key);
      assert more == [TicketOpened(uid, hint.key, hint.payload)];
      CountShort(more, OpenedFor(uid));
    case Err =>
      assert more == [Failed(s.pc)];
      CountShort(more, OpenedFor(uid));
    case Lost =>
      assert more == [TicketOpened(uid, hint.key, hint.payload), Failed(s.pc)];
      CountShort(more, OpenedFor(uid));
      CountShort(more, BrokeOff(uid));
  }

  /** Before a ticket is opened nothing is owed; the opening itself is held or abandoned. */
  lemma BeforeBalance(s: State, outcome: Outcome, hint: Hint)
    requires Inv(s) && HasReq(s.pc) && BeforeTicket(s.pc) && !Holding(s.pc)
    ensures var more := AnswerEntries(s, outcome, hint); var uid := s.pc.req.uid;
            Count(more, OpenedFor(uid)) <= Count(more, BrokeOff(uid)) + Allowance(Answer(s, outcome, hint), uid)
  {
    if s.pc.OpenTicket? {
      OpeningBalance(s, outcome, hint);
    } else {
      NothingCounted(s, outcome, hint, s.pc.req.uid);
    }
  }

  lemma WriteRecordsTicket(w: World, req: Request, status: Status, after: After, outcome: Outcome)
    requires WorldOk(w) && CopyOk(w, req) && WriteOk(w, req, status, after) && status.ticket.Issue?
    requires WriteStatus(w, req, status, outcome).1.Success?
    ensures StoredAllowance(WriteStatus(w, req, status, outcome).0, req.uid) == 1
  {
    var next := WriteStatus(w, req, status, outcome).0;
    forall n | n in next.requests && next.requests[n].uid == req.uid ensures next.requests[n].status.ticket.Issue? {
      WriteStatusOk(w, req, status, after, outcome);
      SameUidSameName(next, n, req.name);
    }
  }

  lemma HoldingNext(pc: Pc, r: Resp)
    requires Holding(pc) && HasReq(pc) && pc.req.status.phase == New
    ensures var next := Next(pc, r);
            || (Holding(next) && next.req.uid == pc.req.uid)
            || next == Finished(pc.req.name, Error)
            || (pc.Write? && r.Success?)
  {
  }

  lemma NoOpening(s: State, outcome: Outcome, hint: Hint)
    requires Holding(s.pc)
    ensures Count(AnswerEntries(s, outcome, hint), OpenedFor(s.pc.req.uid)) == 0
  {
    NothingOpened(s, outcome, hint);
    CountNone(AnswerEntries(s, outcome, hint), OpenedFor(s.pc.req.uid));
  }

  /** Only the call that opens a ticket records an opening. */
  lemma NothingOpened(s: State, outcome: Outcome, hint: Hint)
    requires !s.pc.OpenTicket?
    ensures forall e | e in AnswerEntries(s, outcome, hint) :: !e.TicketOpened?
  {
  }

  /** An error while a ticket is in hand is counted. */
  lemma HoldingErrorCounted(s: State, outcome: Outcome, hint: Hint)
    requires Holding(s.pc) && HasReq(s.pc) && Answer(s, outcome, hint).pc == Finished(s.pc.req.name, Error)
    ensures Count(AnswerEntries(s, outcome, hint), BrokeOff(s.pc.req.uid)) >= 1
  {
    var effect := Effect(s.world, s.pc, outcome, hint);
    assert AnswerEntries(s, outcome, hint) == effect + [Failed(s.pc)];
    CountAt(effect + [Failed(s.pc)], BrokeOff(s.pc.req.uid), |effect|);
  }

  /** A ticket in hand is recorded, still in hand, or abandoned with a failure. */
  lemma HoldingBalance(s: State, outcome: Outcome, hint: Hint)
    requires Inv(s) && HasReq(s.pc) && Holding(s.pc)
    ensures var more := AnswerEntries(s, outcome, hint); var uid := s.pc.req.uid;
            && Count(more, OpenedFor(uid)) == 0
            && Count(more, BrokeOff(uid)) + Allowance(Answer(s, outcome, hint), uid) >= 1
  {
    var r := Perform(s.world, s.pc, outcome, hint).1;
    NoOpening(s, outcome, hint);
    HoldingNext(s.pc, r);
    if s.pc.Write? && r.Success? {
      WriteRecordsTicket(s.world, s.pc.req, s.pc.status, s.pc.after, outcome);
    } else if Next(s.pc, r).Finished? {
      HoldingErrorCounted(s, outcome, hint);
    }
  }

  lemma NothingCounted(s: State, outcome: Outcome, hint: Hint, uid: nat)
    requires InCall(s.pc) && !(PcFor(s.pc, uid) && (s.pc.OpenTicket? || Holding(s.pc)))
    ensures Count(AnswerEntries(s, outcome, hint), OpenedFor(uid)) == 0
  {
    if !s.pc.OpenTicket? {
      NothingOpened(s, outcome, hint);
    }
    CountNone(AnswerEntries(s, outcome, hint), OpenedFor(uid));
  }

  /** The balance of one answer: what it opens is abandoned, or allowed for from now on. */
  lemma AnswerBalance(s: State, outcome: Outcome, hint: Hint, uid: nat)
    requires Inv(s) && InCall(s.pc)
    ensures var more := AnswerEntries(s, outcome, hint);
            Count(more, OpenedFor(uid)) + Allowance(s, uid)
              <= Count(more, BrokeOff(uid)) + Allowance(Answer(s, outcome, hint), uid)
  {
    if s.pc.Fetch? {
      NothingCounted(s, outcome, hint, uid);
      FetchBalance(s, outcome, hint, uid);
    } else if s.pc.req.uid != uid {
      NothingCounted(s, outcome, hint, uid);
      OtherBalance(s, outcome, hint, uid);
    } else if Holding(s.pc) {
      HoldingBalance(s, outcome, hint);
    } else if BeforeTicket(s.pc) {
      BeforeBalance(s, outcome, hint);
    } else {
      NothingCounted(s, outcome, hint, uid);
      LaterBalance(s, outcome, hint);
    }
  }

  /** A restart in the middle abandons a ticket in hand. */
  lemma RestartBalance(s: State, uid: nat)
    requires Inv(s)
    ensures Count(Entries(s, Restart), OpenedFor(uid)) == 0
    ensures Allowance(s, uid) <= Count(Entries(s, Restart), BrokeOff(uid)) + Allowance(Apply(s, Restart), uid)
  {
    CountShort(Entries(s, Restart), OpenedFor(uid));
    CountShort(Entries(s, Restart), BrokeOff(uid));
  }

  lemma StepBalance(s: State, step: Step, uid: nat)
    requires Inv(s)
    ensures Count(Entries(s, step), OpenedFor(uid)) + Allowance(s, uid)
         <= Count(Entries(s, step), BrokeOff(uid)) + Allowance(Apply(s, step), uid)
  {
    if Enabled(s, step) {
      match step
      case Env(e) => EnvKeepsStoredAllowance(s.world, e, uid);
      case Respond(outcome, hint) => AnswerBalance(s, outcome, hint, uid);
      case Pop(_) =>
      case Settle =>
      case Restart => RestartBalance(s, uid);
    }
  }

  lemma {:induction false} CountInvHolds(s: State, steps: seq<Step>, uid: nat)
    requires Init(s)
    ensures Inv(Run(s, steps)) && Balanced(Run(s, steps), TraceOf(s, steps), uid)
  {
    if steps == [] {
      InitInv(s);
    } else {
      var n := |steps| - 1;
      var t := Run(s, steps[..n]);
      CountInvHolds(s, steps[..n], uid);
      StepKeepsInv(t, steps[n]);
      StepBalance(t, steps[n], uid);
      CountConcat(TraceOf(s, steps[..n]), Entries(t, steps[n]), OpenedFor(uid));
      CountConcat(TraceOf(s, steps[..n]), Entries(t, steps[n]), BrokeOff(uid));
    }
  }

  /**
   Tickets opened for one request number at most one plus the reconciles of it that broke off in
   or after opening a ticket; while the request is new or skipped and idle, at most those.
   */
  lemma TicketsBounded(s: State, steps: seq<Step>, uid: nat)
    requires Init(s)
    ensures var t := TraceOf(s, steps); var end := Run(s, steps);
            && Count(t, OpenedFor(uid)) <= Count(t, BrokeOff(uid)) + 1
            && (StoredWithoutTicket(end.world, uid) && !PcFor(end.pc, uid) ==>
                  Count(t, OpenedFor(uid)) <= Count(t, BrokeOff(uid)))
  {
    CountInvHolds(s, steps, uid);
  }

  // The recorded ticket

  ghost predicate WasOpened(t: Trace, uid: nat, key: nat) {
    exists fields :: TicketOpened(uid, key, fields) in t
  }

  ghost predicate TicketsRecorded(w: World, t: Trace) {
    forall k | k in w.tickets :: WasOpened(t, w.tickets[k].owner, k)
  }

  lemma CallAddsRecordedTicket(w: World, pc: Pc, outcome: Outcome, hint: Hint, k: nat)
    requires k in Perform(w, pc, outcome, hint).0.tickets
    requires pc.OpenTicket? ==> hint.key !in w.tickets
    ensures var next := Perform(w, pc, outcome, hint).0;
            || (k in w.tickets && next.tickets[k].owner == w.tickets[k].owner)
            || (&& next.tickets[k].owner == pc.req.uid
                && Effect(w, pc, outcome, hint) == [TicketOpened(pc.req.uid, k, next.tickets[k].fields)])
  {
  }

  lemma {:induction false} TicketsRecordedHolds(s: State, steps: seq<Step>)
    requires Init(s)
    ensures Inv(Run(s, steps)) && TicketsRecorded(Run(s, steps).world, TraceOf(s, steps))
  {
    if steps == [] {
      InitInv(s);
    } else {
      var n := |steps| - 1;
      var before := Run(s, steps[..n]);
      TicketsRecordedHolds(s, steps[..n]);
      StepKeepsInv(before, steps[n]);
      forall k | k in Run(s, steps).world.tickets
        ensures WasOpened(TraceOf(s, steps), Run(s, steps).world.tickets[k].owner, k)
      {
        StepKeepsRecorded(before, steps[n], TraceOf(s, steps[..n]), k);
      }
    }
  }

  lemma StepKeepsRecorded(s: State, step: Step, t: Trace, k: nat)
    requires TicketsRecorded(s.world, t) && k in Apply(s, step).world.tickets
    ensures WasOpened(t + Entries(s, step), Apply(s, step).world.tickets[k].owner, k)
  {
    if Enabled(s, step) {
      if step.Respond? {
        CallAddsRecordedTicket(s.world, s.pc, step.outcome, step.hint, k);
        if !(k in s.world.tickets && Apply(s, step).world.tickets[k].owner == s.world.tickets[k].owner) {
          assert TicketOpened(s.pc.req.uid, k, Apply(s, step).world.tickets[k].fields) in Entries(s, step);
        }
      } else if step.Env? {
        EnvExtends(s.world, step.e);
      } else {
        OtherStepsKeepRecords(s, step);
      }
    }
  }

  /** What was opened is still there, with its owner and its fields. */
  predicate Kept(w: World, e: Entry)
    requires e.TicketOpened?
  {
    e.key in w.tickets && w.tickets[e.key].owner == e.uid && w.tickets[e.key].fields == e.fields
  }

  lemma EnvKeepsOpened(w: World, e: EnvStep, e': Entry)
    requires EnvEnabled(w, e) && e'.TicketOpened? && Kept(w, e')
    ensures Kept(EnvApply(w, e), e')
  {
  }

  lemma CallKeepsOpened(w: World, pc: Pc, outcome: Outcome, hint: Hint, e': Entry)
    requires HintOk(w, pc, hint) && e'.TicketOpened? && Kept(w, e')
    ensures Kept(Perform(w, pc, outcome, hint).0, e')
  {
    if !ChangesWorld(pc) {
      ReadsKeepWorld(w, pc, outcome, hint);
    }
  }

  lemma NewlyOpenedKept(s: State, step: Step, j: nat)
    requires j < |Entries(s, step)| && Entries(s, step)[j].TicketOpened?
    ensures Kept(Apply(s, step).world, Entries(s, step)[j])
  {
  }

  /** Every ticket ever opened stays, with the owner and the fields it was opened with. */
  lemma {:induction false} TicketsAreKept(s: State, steps: seq<Step>, i: nat)
    requires Init(s) && i < |TraceOf(s, steps)| && TraceOf(s, steps)[i].TicketOpened?
    ensures Kept(Run(s, steps).world, TraceOf(s, steps)[i])
  {
    var n := |steps| - 1;
    var before, t := Run(s, steps[..n]), TraceOf(s, steps[..n]);
    if i < |t| {
      TicketsAreKept(s, steps[..n], i);
      if Enabled(before, steps[n]) {
        if steps[n].Env? {
          EnvKeepsOpened(before.world, steps[n].e, t[i]);
        } else if steps[n].Respond? {
          CallKeepsOpened(before.world, before.pc, steps[n].outcome, steps[n].hint, t[i]);
        } else {
          OtherStepsKeepRecords(before, steps[n]);
        }
      }
    } else {
      NewlyOpenedKept(before, steps[n], i - |t|);
    }
  }

  /**
   The ticket a request records was opened for it; if none of its new-request reconciles broke
   off holding one, it is the only ticket ever opened for the request. A skipped request then has none.
   */
  lemma ExactlyOneTicket(s: State, steps: seq<Step>, name: string)
    requires Init(s) && name in Run(s, steps).world.requests
    ensures var r := Run(s, steps).world.requests[name]; var t := TraceOf(s, steps);
            && (r.status.ticket.Issue? ==> WasOpened(t, r.uid, r.status.ticket.key))
            && (r.status.ticket.Issue? && Count(t, BrokeOff(r.uid)) == 0 ==> Count(t, OpenedFor(r.uid)) == 1)
            && (r.status.ticket.Skipped? && !PcFor(Run(s, steps).pc, r.uid) && Count(t, BrokeOff(r.uid)) == 0 ==>
                  Count(t, OpenedFor(r.uid)) == 0)
  {
    var w, t := Run(s, steps).world, TraceOf(s, steps);
    var r := w.requests[name];
    TicketsRecordedHolds(s, steps);
    TicketsBounded(s, steps, r.uid);
    assert RecordOk(w, name);
    if r.status.ticket.Issue? {
      assert WasOpened(t, r.uid, r.status.ticket.key);
      var fields :| TicketOpened(r.uid, r.status.ticket.key, fields) in t;
      var i :| 0 <= i < |t| && t[i] == TicketOpened(r.uid, r.status.ticket.key, fields);
      CountAt(t, OpenedFor(r.uid), i);
    }
  }

  // Deleted requests

  /** A reconcile that works on a skipped request opens nothing. */
  ghost predicate SkippedBalanced(s: State, t: Trace) {
    HasReq(s.pc) && s.pc.req.status.ticket.Skipped? ==>
      Count(t, OpenedFor(s.pc.req.uid)) <= Count(t, BrokeOff(s.pc.req.uid))
  }

  lemma SkippedStays(pc: Pc, r: Resp)
    requires HasReq(pc) && HasReq(Next(pc, r)) && Next(pc, r).req.status.ticket.Skipped?
    requires pc.Write? ==> WriteShape(pc.req, pc.status, pc.after)
    ensures pc.req.status.ticket.Skipped? && pc.req.uid == Next(pc, r).req.uid
  {
  }

  lemma SkippedIsNotNew(w: World, pc: Pc)
    requires HasReq(pc) && PcOk(w, pc) && pc.req.status.ticket.Skipped?
    ensures !pc.OpenTicket? && !Holding(pc)
  {
  }

  lemma AnswerKeepsSkipped(s: State, outcome: Outcome, hint: Hint, t: Trace)
    requires Inv(s) && InCall(s.pc) && SkippedBalanced(s, t)
    requires forall uid :: Balanced(s, t, uid)
    ensures SkippedBalanced(Answer(s, outcome, hint), t + AnswerEntries(s, outcome, hint))
  {
    var next, more := Answer(s, outcome, hint).pc, AnswerEntries(s, outcome, hint);
    if HasReq(next) && next.req.status.ticket.Skipped? {
      var uid := next.req.uid;
      if s.pc.Fetch? {
        assert StoredWithoutTicket(s.world, uid);
        assert Balanced(s, t, uid);
      } else {
        SkippedStays(s.pc, Perform(s.world, s.pc, outcome, hint).1);
        SkippedIsNotNew(s.world, s.pc);
      }
      NothingCounted(s, outcome, hint, uid);
      CountConcat(t, more, OpenedFor(uid));
      CountConcat(t, more, BrokeOff(uid));
    }
  }

  lemma {:induction false} SkippedHolds(s: State, steps: seq<Step>)
    requires Init(s)
    ensures Inv(Run(s, steps)) && SkippedBalanced(Run(s, steps), TraceOf(s, steps))
  {
    if steps == [] {
      InitInv(s);
    } else {
      var n := |steps| - 1;
      var before, t := Run(s, steps[..n]), TraceOf(s, steps[..n]);
      SkippedHolds(s, steps[..n]);
      StepKeepsInv(before, steps[n]);
      assert t + [] == t;
      if steps[n].Respond? && Enabled(before, steps[n]) {
        forall uid: nat ensures Balanced(before, t, uid) {
          CountInvHolds(s, steps[..n], uid);
        }
        AnswerKeepsSkipped(before, steps[n].outcome, steps[n].hint, t);
      } else if HasReq(Run(s, steps).pc) {
        assert Run(s, steps).pc == before.pc && Entries(before, steps[n]) == [];
      }
    }
  }

  lemma DeleteMakesDead(s: State, outcome: Outcome, hint: Hint)
    requires Inv(s) && s.pc.Delete? && outcome != Err && s.pc.req.name in s.world.requests
    ensures Dead(Answer(s, outcome, hint), s.pc.req.uid)
  {
    var next := Answer(s, outcome, hint);
    forall n | n in next.world.requests ensures next.world.requests[n].uid != s.pc.req.uid {
      assert RecordOk(s.world, n);
    }
  }

  /** Only an effective delete call records a removal, as its first entry. */
  lemma OnlyDeleteRemoves(s: State, step: Step, j: nat)
    requires j < |Entries(s, step)| && Entries(s, step)[j].Removed?
    ensures Enabled(s, step) && step.Respond? && s.pc.Delete? && j == 0
    ensures step.outcome != Err && s.pc.req.name in s.world.requests
  {
  }

  /** The tickets a deleted request had, if none of its reconciles broke off holding one. */
  ghost predicate DeletedOk(s: State, t: Trace, i: nat)
    requires i < |t|
  {
    t[i].Removed? ==>
      && Dead(s, t[i].req.uid)
      && (Count(t, BrokeOff(t[i].req.uid)) == 0 ==>
            && (t[i].req.status.ticket.Skipped? ==> Count(t, OpenedFor(t[i].req.uid)) == 0)
            && (t[i].req.status.ticket.Issue? ==>
                  Count(t, OpenedFor(t[i].req.uid)) == 1 && WasOpened(t, t[i].req.uid, t[i].req.status.ticket.key)))
  }

  /** Nothing is opened for a dead request. */
  lemma DeadOpensNothing(s: State, step: Step, uid: nat)
    requires Dead(s, uid)
    ensures Count(Entries(s, step), OpenedFor(uid)) == 0
  {
    if Enabled(s, step) && step.Respond? {
      NothingCounted(s, step.outcome, step.hint, uid);
    } else {
      CountNone(Entries(s, step), OpenedFor(uid));
    }
  }

  lemma StepKeepsDeleted(s: State, step: Step, t: Trace, i: nat)
    requires i < |t| && DeletedOk(s, t, i)
    ensures DeletedOk(Apply(s, step), t + Entries(s, step), i)
  {
    if t[i].Removed? {
      var uid, more := t[i].req.uid, Entries(s, step);
      StepKeepsDead(s, step, uid);
      DeadOpensNothing(s, step, uid);
      CountConcat(t, more, OpenedFor(uid));
      CountConcat(t, more, BrokeOff(uid));
    }
  }

  /** At the deletion: the balance leaves room for the recorded ticket only. */
  lemma DeleteCounts(s: State, outcome: Outcome, hint: Hint, t: Trace)
    requires Inv(s) && s.pc.Delete? && outcome != Err && s.pc.req.name in s.world.requests
    requires SkippedBalanced(s, t) && Balanced(s, t, s.pc.req.uid) && TicketsRecorded(s.world, t)
    ensures DeletedOk(Answer(s, outcome, hint), t + AnswerEntries(s, outcome, hint), |t|)
  {
    var uid, more := s.pc.req.uid, AnswerEntries(s, outcome, hint);
    assert (t + more)[|t|] == Removed(s.pc.req, s.world.requests[s.pc.req.name]);
    DeleteMakesDead(s, outcome, hint);
    NothingCounted(s, outcome, hint, uid);
    CountConcat(t, more, OpenedFor(uid));
    CountConcat(t, more, BrokeOff(uid));
    if s.pc.req.status.ticket.Issue? {
      var key := s.pc.req.status.ticket.key;
      assert WasOpened(t, uid, key);
      var fields :| TicketOpened(uid, key, fields) in t;
      var k :| 0 <= k < |t| && t[k] == TicketOpened(uid, key, fields);
      CountAt(t, OpenedFor(uid), k);
      assert TicketOpened(uid, key, fields) in t + more;
    }
  }

  lemma {:induction false} DeletedHolds(s: State, steps: seq<Step>, i: nat)
    requires Init(s) && i < |TraceOf(s, steps)|
    ensures DeletedOk(Run(s, steps), TraceOf(s, steps), i)
  {
    var n := |steps| - 1;
    var before, t := Run(s, steps[..n]), TraceOf(s, steps[..n]);
    if i < |t| {
      DeletedHolds(s, steps[..n], i);
      StepKeepsDeleted(before, steps[n], t, i);
    } else if TraceOf(s, steps)[i].Removed? {
      OnlyDeleteRemoves(before, steps[n], i - |t|);
      SkippedHolds(s, steps[..n]);
      TicketsRecordedHolds(s, steps[..n]);
      CountInvHolds(s, steps[..n], before.pc.req.uid);
      DeleteCounts(before, steps[n].outcome, steps[n].hint, t);
    }
  }

  /**
   A request the operator has deleted had, if none of its new-request reconciles broke off holding
   a ticket, no ticket at all if it was Skipped, and otherwise exactly the recorded one.
   */
  lemma DeletedRequestHadOneTicket(s: State, steps: seq<Step>, i: nat)
    requires Init(s) && i < |TraceOf(s, steps)| && TraceOf(s, steps)[i].Removed?
    requires Count(TraceOf(s, steps), BrokeOff(TraceOf(s, steps)[i].req.uid)) == 0
    ensures var t := TraceOf(s, steps); var req := t[i].req;
            && (req.status.ticket.Skipped? ==> Count(t, OpenedFor(req.uid)) == 0)
            && (req.status.ticket.Issue? ==>
                  Count(t, OpenedFor(req.uid)) == 1 && WasOpened(t, req.uid, req.status.ticket.key))
  {
    DeletedHolds(s, steps, i);
  }

  // The recorded ticket is final

  predicate RecordsTicket(w: World, name: string, uid: nat, ticket: TicketRef) {
    name in w.requests && w.requests[name].uid == uid ==>
      w.requests[name].status.phase != New && w.requests[name].status.ticket == ticket
  }

  lemma WriteKeepsTicket(w: World, req: Request, status: Status, after: After, outcome: Outcome,
                         name: string, uid: nat, ticket: TicketRef)
    requires CopyOk(w, req) && WriteShape(req, status, after) && RecordsTicket(w, name, uid, ticket)
    ensures RecordsTicket(WriteStatus(w, req, status, outcome).0, name, uid, ticket)
  {
  }

  lemma AnswerKeepsTicket(s: State, outcome: Outcome, hint: Hint, name: string, uid: nat, ticket: TicketRef)
    requires Inv(s) && RecordsTicket(s.world, name, uid, ticket)
    ensures RecordsTicket(Answer(s, outcome, hint).world, name, uid, ticket)
  {
    if s.pc.Write? {
      WriteKeepsTicket(s.world, s.pc.req, s.pc.status, s.pc.after, outcome, name, uid, ticket);
    } else {
      CallKeepsStatuses(s.world, s.pc, outcome, hint);
    }
  }

  lemma EnvKeepsTicket(w: World, e: EnvStep, name: string, uid: nat, ticket: TicketRef)
    requires EnvEnabled(w, e) && uid in w.names && RecordsTicket(w, name, uid, ticket)
    ensures uid in EnvApply(w, e).names && RecordsTicket(EnvApply(w, e), name, uid, ticket)
  {
    EnvExtends(w, e);
    if name in EnvApply(w, e).requests {
      assert RecordExtends(w, EnvApply(w, e), name);
    }
  }

  lemma StepKeepsTicket(s: State, step: Step, name: string, uid: nat, ticket: TicketRef)
    requires Inv(s) && uid in s.world.names && RecordsTicket(s.world, name, uid, ticket)
    ensures uid in Apply(s, step).world.names && RecordsTicket(Apply(s, step).world, name, uid, ticket)
  {
    if Enabled(s, step) {
      if step.Env? {
        EnvKeepsTicket(s.world, step.e, name, uid, ticket);
      } else if step.Respond? {
        CallKeepsNames(s.world, s.pc, step.outcome, step.hint);
        AnswerKeepsTicket(s, step.outcome, step.hint, name, uid, ticket);
      } else {
        OtherStepsKeepRecords(s, step);
      }
    }
  }

  /** Once the status has left "", the recorded ticket never changes while the request exists. */
  lemma {:induction false} RecordedTicketIsFinal(s: State, steps: seq<Step>, name: string)
    requires Inv(s) && name in s.world.requests && s.world.requests[name].status.phase != New
    ensures Inv(Run(s, steps)) && s.world.requests[name].uid in Run(s, steps).world.names
    ensures RecordsTicket(Run(s, steps).world, name, s.world.requests[name].uid, s.world.requests[name].status.ticket)
  {
    if steps == [] {
      assert RecordOk(s.world, name);
    } else {
      var n := |steps| - 1;
      RecordedTicketIsFinal(s, steps[..n], name);
      StepKeepsInv(Run(s, steps[..n]), steps[n]);
      var r := s.world.requests[name];
      StepKeepsTicket(Run(s, steps[..n]), steps[n], name, r.uid, r.status.ticket);
    }
  }
}
