/**
 What is said on a ticket. Comments are only ever added, and every decision the operator takes on a
 ticket is announced on it first: the access asked for before Pre-Approved is written, the completion
 or the reason of the rejection before the transition, and so before Succeeded or the deletion.
 */
module Comments {
  import opened Types
  import opened Machine
  import opened Invariants
  import opened History

  predicate Said(w: World, ticket: TicketRef, note: Comment) {
    ticket.Issue? && ticket.key in w.tickets && note in w.tickets[ticket.key].comments
  }

  /** The ticket lists the namespaces and users, with the text of a configuration that was read. */
  ghost predicate Announced(w: World, t: Trace, spec: Spec, ticket: TicketRef) {
    exists cfg :: && ReadConfig(cfg) in t
                  && Said(w, ticket, PreApprovalNote(spec.namespaces, spec.reporter, spec.additionalEmails,
                                                     cfg.additionalCommentText))
  }

  /** The ticket gives the reason, and has made the rejecting transition of a configuration that was read. */
  ghost predicate RejectedFor(w: World, t: Trace, ticket: TicketRef, reason: Message) {
    && Said(w, ticket, RejectedNote(reason))
    && exists cfg :: ReadConfig(cfg) in t && Transitioned(ticket.key, cfg.rejectedTransition, false) in t
  }

  ghost predicate CompletedOn(w: World, t: Trace, ticket: TicketRef) {
    && Said(w, ticket, CompletedNote)
    && exists cfg :: ReadConfig(cfg) in t && Transitioned(ticket.key, cfg.completedTransition, true) in t
  }

  /** What must have been said and done on the ticket for an entry. */
  ghost predicate Backed(w: World, t: Trace, e: Entry) {
    match e
    case Updated(req, status) =>
      && (status.phase == PreApproved ==> Announced(w, t, req.spec, status.ticket))
      && (status.phase == Succeeded ==> CompletedOn(w, t, status.ticket))
    case Transitioned(key, _, completing) =>
      if completing then Said(w, Issue(key), CompletedNote)
      else exists reason :: Said(w, Issue(key), RejectedNote(reason))
    case Removed(req, _) =>
      req.status.phase == Rejected && req.status.ticket != Skipped ==>
        RejectedFor(w, t, req.status.ticket, req.status.message)
    case _ => true
  }

  predicate HasConfig(pc: Pc) {
    NewPath(pc) || pc.RejectComment? || pc.RejectMove? || pc.CheckTime? || pc.CheckApproval? || pc.Bind?
    || pc.CompleteComment? || pc.CompleteMove?
  }

  /** What has been said and done by the time a program point is reached. */
  ghost predicate SaidAt(w: World, t: Trace, pc: Pc) {
    && (HasConfig(pc) ==> ReadConfig(pc.cfg) in t)
    && match pc
       case RejectMove(req, _) => Said(w, req.status.ticket, RejectedNote(req.status.message))
       case CompleteMove(req, _) => Said(w, req.status.ticket, CompletedNote)
       case Delete(req) =>
         req.status.phase == Rejected && req.status.ticket != Skipped ==>
           RejectedFor(w, t, req.status.ticket, req.status.message)
       case Write(req, status, _, _) =>
         && (status.phase == PreApproved ==> Announced(w, t, req.spec, status.ticket))
         && (status.phase == Succeeded ==> CompletedOn(w, t, status.ticket))
       case _ => true
  }

  ghost predicate AllBacked(w: World, t: Trace) {
    forall e | e in t :: Backed(w, t, e)
  }

  /** Comments are never withdrawn. */
  ghost predicate CommentsStay(w: World, next: World) {
    forall k | k in w.tickets :: k in next.tickets && w.tickets[k].comments <= next.tickets[k].comments
  }

  lemma SaidStays(w: World, next: World, ticket: TicketRef, note: Comment)
    requires Said(w, ticket, note) && CommentsStay(w, next)
    ensures Said(next, ticket, note)
  {
    var was, now := w.tickets[ticket.key].comments, next.tickets[ticket.key].comments;
    var i :| 0 <= i < |was| && was[i] == note;
    assert now[i] == note;
  }

  lemma AnnouncedStays(w: World, next: World, t: Trace, more: Trace, spec: Spec, ticket: TicketRef)
    requires Announced(w, t, spec, ticket) && CommentsStay(w, next)
    ensures Announced(next, t + more, spec, ticket)
  {
    var cfg :| ReadConfig(cfg) in t
      && Said(w, ticket, PreApprovalNote(spec.namespaces, spec.reporter, spec.additionalEmails,
                                         cfg.additionalCommentText));
    SaidStays(w, next, ticket, PreApprovalNote(spec.namespaces, spec.reporter, spec.additionalEmails,
                                               cfg.additionalCommentText));
    assert ReadConfig(cfg) in t + more;
  }

  lemma RejectedForStays(w: World, next: World, t: Trace, more: Trace, ticket: TicketRef, reason: Message)
    requires RejectedFor(w, t, ticket, reason) && CommentsStay(w, next)
    ensures RejectedFor(next, t + more, ticket, reason)
  {
    SaidStays(w, next, ticket, RejectedNote(reason));
    var cfg :| ReadConfig(cfg) in t && Transitioned(ticket.key, cfg.rejectedTransition, false) in t;
    assert ReadConfig(cfg) in t + more && Transitioned(ticket.key, cfg.rejectedTransition, false) in t + more;
  }

  lemma CompletedOnStays(w: World, next: World, t: Trace, more: Trace, ticket: TicketRef)
    requires CompletedOn(w, t, ticket) && CommentsStay(w, next)
    ensures CompletedOn(next, t + more, ticket)
  {
    SaidStays(w, next, ticket, CompletedNote);
    var cfg :| ReadConfig(cfg) in t && Transitioned(ticket.key, cfg.completedTransition, true) in t;
    assert ReadConfig(cfg) in t + more && Transitioned(ticket.key, cfg.completedTransition, true) in t + more;
  }

  lemma UpdateStays(w: World, next: World, t: Trace, more: Trace, spec: Spec, status: Status)
    requires status.phase == PreApproved ==> Announced(w, t, spec, status.ticket)
    requires status.phase == Succeeded ==> CompletedOn(w, t, status.ticket)
    requires CommentsStay(w, next)
    ensures status.phase == PreApproved ==> Announced(next, t + more, spec, status.ticket)
    ensures status.phase == Succeeded ==> CompletedOn(next, t + more, status.ticket)
  {
    if status.phase == PreApproved {
      AnnouncedStays(w, next, t, more, spec, status.ticket);
    } else if status.phase == Succeeded {
      CompletedOnStays(w, next, t, more, status.ticket);
    }
  }

  lemma BackedStays(w: World, next: World, t: Trace, more: Trace, e: Entry)
    requires Backed(w, t, e) && CommentsStay(w, next)
    ensures Backed(next, t + more, e)
  {
    if e.Updated? {
      UpdateStays(w, next, t, more, e.req.spec, e.status);
    } else if e.Transitioned? {
      TransitionStays(w, next, t, more, e);
    } else if e.Removed? && e.req.status.phase == Rejected && e.req.status.ticket != Skipped {
      RejectedForStays(w, next, t, more, e.req.status.ticket, e.req.status.message);
    }
  }

  lemma TransitionStays(w: World, next: World, t: Trace, more: Trace, e: Entry)
    requires e.Transitioned? && Backed(w, t, e) && CommentsStay(w, next)
    ensures Backed(next, t + more, e)
  {
    if e.completing {
      SaidStays(w, next, Issue(e.key), CompletedNote);
    } else {
      var reason :| Said(w, Issue(e.key), RejectedNote(reason));
      SaidStays(w, next, Issue(e.key), RejectedNote(reason));
    }
  }

  lemma AllBackedStays(w: World, next: World, t: Trace, more: Trace)
    requires AllBacked(w, t) && CommentsStay(w, next)
    requires forall e | e in more :: Backed(next, t + more, e)
    ensures AllBacked(next, t + more)
  {
    forall e | e in t + more ensures Backed(next, t + more, e) {
      if e in t {
        BackedStays(w, next, t, more, e);
      }
    }
  }

  /** Whoever acts: what holds at a program point goes on holding while it is waited at. */
  lemma SaidAtStays(w: World, next: World, t: Trace, more: Trace, pc: Pc)
    requires SaidAt(w, t, pc) && CommentsStay(w, next)
    ensures SaidAt(next, t + more, pc)
  {
    match pc
    case RejectMove(req, _) => SaidStays(w, next, req.status.ticket, RejectedNote(req.status.message));
    case CompleteMove(req, _) => SaidStays(w, next, req.status.ticket, CompletedNote);
    case Delete(req) =>
      if req.status.phase == Rejected && req.status.ticket != Skipped {
        RejectedForStays(w, next, t, more, req.status.ticket, req.status.message);
      }
    case Write(req, status, _, _) => UpdateStays(w, next, t, more, req.spec, status);
    case _ =>
  }

  // One call

  lemma CallKeepsComments(w: World, pc: Pc, outcome: Outcome, hint: Hint)
    requires HintOk(w, pc, hint)
    ensures CommentsStay(w, Perform(w, pc, outcome, hint).0)
  {
    if pc.RejectComment? {
      PostKeepsComments(w, pc.req.status.ticket, RejectedNote(pc.req.status.message), outcome);
    } else if pc.CompleteComment? {
      PostKeepsComments(w, pc.req.status.ticket, CompletedNote, outcome);
    } else if pc.PreApproveComment? {
      PostKeepsComments(w, Issue(pc.key), PreApprovalComment(pc.req, pc.cfg), outcome);
    } else if pc.OpenTicket? || pc.RejectMove? || pc.CompleteMove? {
      TicketCallKeepsComments(w, pc, outcome, hint);
    } else {
      assert Perform(w, pc, outcome, hint).0.tickets == w.tickets;
    }
  }

  lemma PostKeepsComments(w: World, ticket: TicketRef, note: Comment, outcome: Outcome)
    ensures var (next, r) := PostComment(w, ticket, note, outcome);
            CommentsStay(w, next) && (r.Success? ==> Said(next, ticket, note))
  {
    var next := PostComment(w, ticket, note, outcome).0;
    if next != w {
      var was, now := w.tickets[ticket.key].comments, next.tickets[ticket.key].comments;
      assert now == was + [note];
      assert now[|was|] == note;
    }
  }

  lemma TicketCallKeepsComments(w: World, pc: Pc, outcome: Outcome, hint: Hint)
    requires pc.OpenTicket? || pc.RejectMove? || pc.CompleteMove?
    requires HintOk(w, pc, hint)
    ensures CommentsStay(w, Perform(w, pc, outcome, hint).0)
  {
  }

  lemma EnvKeepsComments(w: World, e: EnvStep)
    requires EnvEnabled(w, e)
    ensures CommentsStay(w, EnvApply(w, e))
  {
  }

  /** What a response leads to has been said on the way. */
  lemma NextSaid(s: State, outcome: Outcome, hint: Hint, t: Trace)
    requires Inv(s) && InCall(s.pc) && HintOk(s.world, s.pc, hint) && SaidAt(s.world, t, s.pc)
    ensures var next := Answer(s, outcome, hint);
            SaidAt(next.world, t + AnswerEntries(s, outcome, hint), next.pc)
  {
    var next, more := Answer(s, outcome, hint), AnswerEntries(s, outcome, hint);
    CallKeepsComments(s.world, s.pc, outcome, hint);
    SaidAtStays(s.world, next.world, t, more, s.pc);
    if s.pc.RejectComment? || s.pc.CompleteComment? || s.pc.PreApproveComment? {
      CommentSaid(s, outcome, hint, t);
    } else if s.pc.RejectMove? || s.pc.CompleteMove? {
      MoveSaid(s, outcome, hint, t);
    } else {
      OthersSaid(s, outcome, hint, t);
    }
  }

  lemma CommentSaid(s: State, outcome: Outcome, hint: Hint, t: Trace)
    requires s.pc.RejectComment? || s.pc.CompleteComment? || s.pc.PreApproveComment?
    requires Inv(s) && SaidAt(s.world, t, s.pc)
    ensures var next := Answer(s, outcome, hint);
            SaidAt(next.world, t + AnswerEntries(s, outcome, hint), next.pc)
  {
    var more := AnswerEntries(s, outcome, hint);
    assert ReadConfig(s.pc.cfg) in t + more;
    if s.pc.PreApproveComment? {
      PreApprovalSaid(s, outcome, hint, t, more);
    } else {
      ClosingSaid(s, outcome, hint, t, more);
    }
  }

  lemma PreApprovalSaid(s: State, outcome: Outcome, hint: Hint, t: Trace, more: Trace)
    requires s.pc.PreApproveComment? && ReadConfig(s.pc.cfg) in t + more
    ensures var next := Answer(s, outcome, hint); SaidAt(next.world, t + more, next.pc)
  {
    PostKeepsComments(s.world, Issue(s.pc.key), PreApprovalComment(s.pc.req, s.pc.cfg), outcome);
    var next := Answer(s, outcome, hint);
    if next.pc.Write? {
      assert Announced(next.world, t + more, s.pc.req.spec, Issue(s.pc.key));
    }
  }

  lemma ClosingSaid(s: State, outcome: Outcome, hint: Hint, t: Trace, more: Trace)
    requires (s.pc.RejectComment? || s.pc.CompleteComment?) && ReadConfig(s.pc.cfg) in t + more
    ensures var next := Answer(s, outcome, hint); SaidAt(next.world, t + more, next.pc)
  {
    PostKeepsComments(s.world, s.pc.req.status.ticket,
                      if s.pc.RejectComment? then RejectedNote(s.pc.req.status.message) else CompletedNote, outcome);
  }

  lemma MoveSaid(s: State, outcome: Outcome, hint: Hint, t: Trace)
    requires s.pc.RejectMove? || s.pc.CompleteMove?
    requires Inv(s) && SaidAt(s.world, t, s.pc)
    requires CommentsStay(s.world, Answer(s, outcome, hint).world)
    ensures var next := Answer(s, outcome, hint);
            SaidAt(next.world, t + AnswerEntries(s, outcome, hint), next.pc)
  {
    var req, next, more := s.pc.req, Answer(s, outcome, hint), AnswerEntries(s, outcome, hint);
    assert ReadConfig(s.pc.cfg) in t + more;
    if !next.pc.Finished? {
      MoveIsTold(s, outcome, hint);
      if s.pc.RejectMove? {
        SaidStays(s.world, next.world, req.status.ticket, RejectedNote(req.status.message));
        assert RejectedFor(next.world, t + more, req.status.ticket, req.status.message);
      } else {
        SaidStays(s.world, next.world, req.status.ticket, CompletedNote);
        assert CompletedOn(next.world, t + more, req.status.ticket);
      }
    }
  }

  lemma MoveIsTold(s: State, outcome: Outcome, hint: Hint)
    requires (s.pc.RejectMove? || s.pc.CompleteMove?) && !Answer(s, outcome, hint).pc.Finished?
    ensures AnswerEntries(s, outcome, hint)
         == [Transitioned(s.pc.req.status.ticket.key,
                          if s.pc.RejectMove? then s.pc.cfg.rejectedTransition else s.pc.cfg.completedTransition,
                          s.pc.CompleteMove?)]
    ensures s.pc.req.status.ticket.Issue?
  {
  }

  lemma OthersSaid(s: State, outcome: Outcome, hint: Hint, t: Trace)
    requires Inv(s) && InCall(s.pc) && !s.pc.RejectComment? && !s.pc.CompleteComment? && !s.pc.PreApproveComment?
    requires !s.pc.RejectMove? && !s.pc.CompleteMove?
    requires SaidAt(Answer(s, outcome, hint).world, t + AnswerEntries(s, outcome, hint), s.pc)
    ensures var next := Answer(s, outcome, hint);
            SaidAt(next.world, t + AnswerEntries(s, outcome, hint), next.pc)
  {
    var next, more := Answer(s, outcome, hint), AnswerEntries(s, outcome, hint);
    if s.pc.LoadConfig? && HasConfig(next.pc) {
      assert more[0] == ReadConfig(next.pc.cfg);
      NextNeedsConfig(next.world, t + more, s.pc, Perform(s.world, s.pc, outcome, hint).1);
    } else {
      NextNeedsNothing(s.world, next.world, t + more, s.pc, Perform(s.world, s.pc, outcome, hint).1);
    }
  }

  lemma NextNeedsConfig(w: World, t: Trace, pc: Pc, r: Resp)
    requires pc.LoadConfig? && HasConfig(Next(pc, r)) && ReadConfig(Next(pc, r).cfg) in t
    ensures SaidAt(w, t, Next(pc, r))
  {
  }

  lemma NextNeedsNothing(w: World, next: World, t: Trace, pc: Pc, r: Resp)
    requires PcOk(w, pc) && SaidAt(next, t, pc) && !pc.RejectComment? && !pc.CompleteComment?
    requires !pc.PreApproveComment? && !pc.RejectMove? && !pc.CompleteMove?
    requires pc.LoadConfig? ==> !HasConfig(Next(pc, r))
    ensures SaidAt(next, t, Next(pc, r))
  {
    if NewPath(pc) {
      NewPathNeedsNothing(next, t, pc, r);
    }
  }

  lemma NewPathNeedsNothing(w: World, t: Trace, pc: Pc, r: Resp)
    requires NewPath(pc) && SaidAt(w, t, pc) && !pc.PreApproveComment?
    ensures SaidAt(w, t, Next(pc, r))
  {
  }

  /** The entries of a call are backed by what has been said when it is made. */
  lemma EntriesBacked(s: State, outcome: Outcome, hint: Hint, t: Trace, e: Entry)
    requires Inv(s) && InCall(s.pc) && SaidAt(s.world, t, s.pc) && e in AnswerEntries(s, outcome, hint)
    requires CommentsStay(s.world, Answer(s, outcome, hint).world)
    ensures Backed(Answer(s, outcome, hint).world, t + AnswerEntries(s, outcome, hint), e)
  {
    var next, more := Answer(s, outcome, hint).world, AnswerEntries(s, outcome, hint);
    SaidAtStays(s.world, next, t, more, s.pc);
  }

  ghost predicate SaidInv(s: State, t: Trace) {
    SaidAt(s.world, t, s.pc) && AllBacked(s.world, t)
  }

  lemma AnswerKeepsSaidInv(s: State, outcome: Outcome, hint: Hint, t: Trace)
    requires Inv(s) && InCall(s.pc) && HintOk(s.world, s.pc, hint) && SaidInv(s, t)
    ensures SaidInv(Answer(s, outcome, hint), t + AnswerEntries(s, outcome, hint))
  {
    var next, more := Answer(s, outcome, hint), AnswerEntries(s, outcome, hint);
    CallKeepsComments(s.world, s.pc, outcome, hint);
    NextSaid(s, outcome, hint, t);
    forall e | e in more ensures Backed(next.world, t + more, e) {
      EntriesBacked(s, outcome, hint, t, e);
    }
    AllBackedStays(s.world, next.world, t, more);
  }

  lemma StepKeepsSaidInv(s: State, step: Step, t: Trace)
    requires Inv(s) && SaidInv(s, t)
    ensures SaidInv(Apply(s, step), t + Entries(s, step))
  {
    var next, more := Apply(s, step), Entries(s, step);
    assert t + [] == t;
    if Enabled(s, step) && step.Respond? {
      AnswerKeepsSaidInv(s, step.outcome, step.hint, t);
    } else if Enabled(s, step) {
      if step.Env? {
        EnvKeepsComments(s.world, step.e);
        SaidAtStays(s.world, next.world, t, more, s.pc);
      } else {
        OtherStepsKeepRecords(s, step);
      }
      AllBackedStays(s.world, next.world, t, more);
    }
  }

  lemma {:induction false} SaidInvHolds(s: State, steps: seq<Step>)
    requires Init(s)
    ensures Inv(Run(s, steps)) && SaidInv(Run(s, steps), TraceOf(s, steps))
  {
    if steps == [] {
      InitInv(s);
    } else {
      var n := |steps| - 1;
      SaidInvHolds(s, steps[..n]);
      StepKeepsInv(Run(s, steps[..n]), steps[n]);
      StepKeepsSaidInv(Run(s, steps[..n]), steps[n], TraceOf(s, steps[..n]));
    }
  }

  /**
   In every run: Pre-Approved is recorded only on a ticket that lists the namespaces, the reporter and
   the additional users of the request as it was then, with the configured text; a ticket is completed
   or rejected only after that was said on it, a rejected request is deleted only after its ticket was
   given the reason and then moved, and Succeeded is recorded only after the ticket was completed.
   */
  lemma DecisionsAreAnnounced(s: State, steps: seq<Step>, e: Entry)
    requires Init(s) && e in TraceOf(s, steps)
    ensures Backed(Run(s, steps).world, TraceOf(s, steps), e)
  {
    SaidInvHolds(s, steps);
  }
}
