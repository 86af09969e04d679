/**
 The trace against the world: each entry tells what was so, or what the step did, and no change the
 operator makes to a record, a ticket or a binding is missing from the trace.
 */
module Traces {
  import opened Types
  import opened Machine
  import opened Invariants
  import opened History
  import Grants

  /** The call was made, took effect, and its reply arrived. */
  predicate Answered(step: Step) {
    step.Respond? && step.outcome == Ok
  }

  /** What an entry says about the step from `s` to `next`. */
  ghost predicate Tells(e: Entry, s: State, step: Step, next: State) {
    var w := s.world;
    match e
    case Fetched(req) => Answered(step) && s.pc == Fetch(req.name) && (req.name, req) in w.requests.Items
    case ReadConfig(cfg) => Answered(step) && s.pc.LoadConfig? && w.config == Some(cfg)
    case ReadClock(at) => at == w.now
    case TicketRead(ticket, status) =>
      && Answered(step) && s.pc.CheckApproval? && ticket == s.pc.req.status.ticket
      && ticket.Issue? && ticket.key in w.tickets && status == w.tickets[ticket.key].status
    case LabelsRead(webhooks, namespaces) => webhooks == w.webhooks && namespaces == w.namespaces
    case PatternRead(regex) => regex == w.regex
    case TicketOpened(uid, key, fields) =>
      && key !in w.tickets
      && next.world.tickets == w.tickets[key := Ticket(uid, w.openStatus, fields, [], [])]
    case Transitioned(key, transition, completing) =>
      && (if completing then s.pc.CompleteMove? else s.pc.RejectMove?)
      && key in w.tickets && (w.tickets[key].status, transition) in w.workflow
      && var t := w.tickets[key];
      && next.world.tickets == w.tickets[key := Ticket(t.owner, w.workflow[(t.status, transition)], t.fields,
                                                       t.comments, t.moves + [transition])]
    case Granted(req, namespace) =>
      && s.pc.Bind? && s.pc.req == req && namespace in req.spec.namespaces
      && exists key :: && key !in w.bindings && key in next.world.bindings
                       && Grants.IsAccess(req, namespace, key, next.world.bindings[key])
    case Updated(req, status) =>
      && req.name in w.requests && w.requests[req.name].uid == req.uid && w.requests[req.name].version == req.version
      && next.world.requests
         == w.requests[req.name := Request(req.name, req.uid, req.version + 1, w.requests[req.name].spec, status)]
    case Removed(req, victim) =>
      (req.name, victim) in w.requests.Items && next.world.requests == w.requests - {req.name}
    case Late(name) => s.pc.Arm? && s.pc.req.name == name && s.pc.target <= w.now
    case Swallowed(name) => next.pc == Finished(name, Done(0)) && next.world.requests == w.requests
    case Failed(pc) => pc == s.pc && (step == Restart || (next.pc.Finished? && next.pc.result == Error))
  }

  lemma ReadsTell(s: State, outcome: Outcome, hint: Hint, e: Entry)
    requires Inv(s) && !ChangesWorld(s.pc) && e in Effect(s.world, s.pc, outcome, hint)
    ensures Tells(e, s, Respond(outcome, hint), Answer(s, outcome, hint))
  {
    if s.pc.Fetch? {
      assert RecordOk(s.world, s.pc.name);
    }
  }

  lemma TicketCallsTell(s: State, outcome: Outcome, hint: Hint, e: Entry)
    requires s.pc.OpenTicket? || s.pc.RejectMove? || s.pc.CompleteMove?
    requires HintOk(s.world, s.pc, hint) && e in Effect(s.world, s.pc, outcome, hint)
    ensures Tells(e, s, Respond(outcome, hint), Answer(s, outcome, hint))
  {
  }

  lemma BindTells(s: State, outcome: Outcome, hint: Hint, e: Entry)
    requires s.pc.Bind? && e in Effect(s.world, s.pc, outcome, hint)
    ensures Tells(e, s, Respond(outcome, hint), Answer(s, outcome, hint))
  {
    var next := Answer(s, outcome, hint).world;
    var key := BindingKeyOf(s.pc.req, s.pc.req.spec.namespaces[s.pc.index]);
    assert next == s.world.(bindings := s.world.bindings[key := BindingFor(s.pc.req)]);
    assert Grants.IsAccess(s.pc.req, s.pc.req.spec.namespaces[s.pc.index], key, next.bindings[key]);
  }

  lemma RecordCallsTell(s: State, outcome: Outcome, hint: Hint, e: Entry)
    requires Inv(s) && (s.pc.Write? || s.pc.Delete?) && e in Effect(s.world, s.pc, outcome, hint)
    ensures Tells(e, s, Respond(outcome, hint), Answer(s, outcome, hint))
  {
    assert RecordOk(s.world, s.pc.req.name);
  }

  lemma EffectTells(s: State, outcome: Outcome, hint: Hint, e: Entry)
    requires Inv(s) && InCall(s.pc) && HintOk(s.world, s.pc, hint) && e in Effect(s.world, s.pc, outcome, hint)
    ensures Tells(e, s, Respond(outcome, hint), Answer(s, outcome, hint))
  {
    if !ChangesWorld(s.pc) {
      ReadsTell(s, outcome, hint, e);
    } else if s.pc.Bind? {
      BindTells(s, outcome, hint, e);
    } else if s.pc.Write? || s.pc.Delete? {
      RecordCallsTell(s, outcome, hint, e);
    } else {
      TicketCallsTell(s, outcome, hint, e);
    }
  }

  lemma EndingTells(s: State, outcome: Outcome, hint: Hint, e: Entry)
    requires Inv(s) && e in Ending(s.world, s.pc, outcome, Perform(s.world, s.pc, outcome, hint).1)
    ensures Tells(e, s, Respond(outcome, hint), Answer(s, outcome, hint))
  {
    if e.Swallowed? {
      assert RecordOk(s.world, s.pc.req.name) || s.pc.req.name !in s.world.requests;
      assert WriteStatus(s.world, s.pc.req, s.pc.status, outcome).0 == s.world;
    }
  }

  /** Every entry is true of the step that made it. */
  lemma EntriesTell(s: State, step: Step, e: Entry)
    requires Inv(s) && e in Entries(s, step)
    ensures Tells(e, s, step, Apply(s, step))
  {
    if step.Respond? {
      if e in Effect(s.world, s.pc, step.outcome, step.hint) {
        EffectTells(s, step.outcome, step.hint, e);
      } else {
        EndingTells(s, step.outcome, step.hint, e);
      }
    }
  }

  // Nothing is missing

  /** A ticket is new and recorded as opened, or it has made at most a recorded transition. */
  ghost predicate TicketTold(w: World, next: World, entries: Trace, key: nat) {
    key in next.tickets ==>
      var t := next.tickets[key];
      || TicketOpened(t.owner, key, t.fields) in entries
      || (key in w.tickets && w.tickets[key].moves == t.moves)
      || (&& key in w.tickets && t.moves != []
          && var made := t.moves[|t.moves| - 1];
          Transitioned(key, made, false) in entries || Transitioned(key, made, true) in entries)
  }

  /** A record is as it was, or its new status or its removal is recorded. */
  ghost predicate RecordTold(w: World, next: World, entries: Trace, pc: Pc, name: string) {
    || ((name in next.requests <==> name in w.requests)
        && (name in w.requests ==> next.requests[name] == w.requests[name]))
    || (&& name in next.requests && HasReq(pc) && pc.req.name == name
        && Updated(pc.req, next.requests[name].status) in entries)
    || (&& name in w.requests && name !in next.requests && HasReq(pc)
        && Removed(pc.req, w.requests[name]) in entries)
  }

  lemma TicketIsTold(s: State, outcome: Outcome, hint: Hint, key: nat)
    requires HintOk(s.world, s.pc, hint)
    ensures TicketTold(s.world, Answer(s, outcome, hint).world, Effect(s.world, s.pc, outcome, hint), key)
  {
    if s.pc.OpenTicket? {
      TicketOpeningIsTold(s, outcome, hint, key);
    } else if s.pc.RejectMove? || s.pc.CompleteMove? {
      MoveIsTold(s, outcome, hint, key);
    } else {
      OthersMoveNothing(s.world, s.pc, outcome, hint, key);
    }
  }

  lemma TicketOpeningIsTold(s: State, outcome: Outcome, hint: Hint, key: nat)
    requires s.pc.OpenTicket?
    ensures TicketTold(s.world, Answer(s, outcome, hint).world, Effect(s.world, s.pc, outcome, hint), key)
  {
  }

  lemma MoveIsTold(s: State, outcome: Outcome, hint: Hint, key: nat)
    requires s.pc.RejectMove? || s.pc.CompleteMove?
    ensures TicketTold(s.world, Answer(s, outcome, hint).world, Effect(s.world, s.pc, outcome, hint), key)
  {
    var w, next := s.world, Answer(s, outcome, hint).world;
    if key in w.tickets && next.tickets[key].moves != w.tickets[key].moves {
      var transition := if s.pc.RejectMove? then s.pc.cfg.rejectedTransition else s.pc.cfg.completedTransition;
      assert next.tickets[key].moves == w.tickets[key].moves + [transition];
      assert Effect(w, s.pc, outcome, hint)[0] == Transitioned(key, transition, s.pc.CompleteMove?);
    }
  }

  lemma OthersMoveNothing(w: World, pc: Pc, outcome: Outcome, hint: Hint, key: nat)
    requires !pc.OpenTicket? && !pc.RejectMove? && !pc.CompleteMove?
    ensures var next := Perform(w, pc, outcome, hint).0;
            key in next.tickets ==> key in w.tickets && next.tickets[key].moves == w.tickets[key].moves
  {
  }

  lemma RecordIsTold(s: State, outcome: Outcome, hint: Hint, name: string)
    ensures RecordTold(s.world, Answer(s, outcome, hint).world, Effect(s.world, s.pc, outcome, hint), s.pc, name)
  {
    if !s.pc.Write? && !s.pc.Delete? {
      Grants.CallKeepsRequests(s.world, s.pc, outcome, hint);
    }
  }

  /**
   Whatever the operator does to a ticket, a record or a binding is in the trace: every ticket it
   opens, every transition, every new status, every removal, every binding.
   */
  lemma NothingUntold(s: State, step: Step, ticket: nat, name: string, key: BindingKey)
    requires !step.Env?
    ensures TicketTold(s.world, Apply(s, step).world, Entries(s, step), ticket)
    ensures RecordTold(s.world, Apply(s, step).world, Entries(s, step), s.pc, name)
    ensures key in Apply(s, step).world.bindings && key !in s.world.bindings ==>
              exists e :: e in Entries(s, step) && Grants.IsGrantOf(e, key, Apply(s, step).world.bindings[key])
  {
    if step.Respond? {
      if Enabled(s, step) {
        TicketIsTold(s, step.outcome, step.hint, ticket);
        RecordIsTold(s, step.outcome, step.hint, name);
      }
    } else {
      OtherStepsKeepRecords(s, step);
    }
    if key in Apply(s, step).world.bindings && key !in s.world.bindings {
      Grants.NewBindingIsGranted(s, step, key);
      var e := Granted(s.pc.req, s.pc.req.spec.namespaces[s.pc.index]);
      assert e in Entries(s, step) && Grants.IsGrantOf(e, key, Apply(s, step).world.bindings[key]);
    }
  }
}
