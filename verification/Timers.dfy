/**
 When wake-ups come. As long as names are not reused, a request that is not rejected has one token:
 it is queued, announced, timed, or in flight. So a timer is never left over from something else,
 and it does not fire before the deadline of its request.
 */
module Timers {
  import opened Types
  import opened Machine
  import opened Invariants
  import opened History
  import opened Wakeups
  import opened Progress

  // Hypotheses on a run

  /** No two requests, over the whole run, had the same name. */
  ghost predicate NotReused(names: map<nat, string>) {
    forall u, v | u in names && v in names && names[u] == names[v] :: u == v
  }

  // Tokens

  predicate Known(w: World, name: string) {
    exists u | u in w.names :: w.names[u] == name
  }

  function Tokens(w: World, pc: Pc, name: string): nat {
    (if name in w.queue then 1 else 0) + (if name in w.pending then 1 else 0)
    + (if name in w.timers then 1 else 0) + (if PcName(pc) == Some(name) then 1 else 0)
  }

  predicate TokensOk(w: World, pc: Pc, name: string) {
    && (Tokens(w, pc, name) > 0 ==> Known(w, name))
    && (name in w.requests && w.requests[name].status.phase != Rejected ==> Tokens(w, pc, name) <= 1)
  }

  /** A timer of a stored request does not fire before its deadline. */
  predicate TimerOk(w: World, name: string) {
    name in w.requests && name in w.timers ==>
      Deadline(w.requests[name]).Some? && Deadline(w.requests[name]).value <= w.timers[name]
  }

  /** A delay about to be acted on reaches from its clock reading to the deadline. */
  predicate DelayOk(w: World, pc: Pc, name: string, reading: Time) {
    pc.Finished? && pc.name == name && pc.result.Done? && pc.result.delay > 0 && name in w.requests ==>
      reading <= w.now && Deadline(w.requests[name]) == Some(reading + pc.result.delay)
  }

  ghost predicate TimerInv(s: State, name: string, reading: Time) {
    TokensOk(s.world, s.pc, name) && TimerOk(s.world, name) && DelayOk(s.world, s.pc, name, reading)
  }

  // Environment

  lemma StoredIsKnown(w: World, name: string)
    requires RecordsOk(w) && name in w.requests
    ensures Known(w, name)
  {
    assert RecordOk(w, name);
  }

  lemma FreshNameUnknown(w: World, name: string, uid: nat)
    requires uid !in w.names && NotReused(w.names[uid := name])
    ensures !Known(w, name)
  {
    var names := w.names[uid := name];
    forall u | u in w.names ensures w.names[u] != name {
      assert u in names && uid in names && names[u] == w.names[u] && names[uid] == name;
    }
  }

  lemma CreateKeepsTimers(s: State, e: EnvStep, name: string, reading: Time)
    requires Inv(s) && e.CreateRequest? && EnvEnabled(s.world, e) && TimerInv(s, name, reading)
    requires NotReused(EnvApply(s.world, e).names)
    ensures TimerInv(State(EnvApply(s.world, e), s.pc), name, reading)
  {
    var next := EnvApply(s.world, e);
    assert next.names[e.uid] == e.name;
    if name == e.name {
      FreshNameUnknown(s.world, name, e.uid);
    } else if Known(s.world, name) {
      var u :| u in s.world.names && s.world.names[u] == name;
      assert u in next.names && next.names[u] == name;
    }
  }

  /** What a step leaves of the parts that matter to a name. */
  ghost predicate SameFor(w: World, next: World, name: string) {
    && next.names == w.names && w.now <= next.now
    && (name in next.queue <==> name in w.queue) && (name in next.pending <==> name in w.pending)
    && (name in next.timers <==> name in w.timers) && (name in w.timers ==> next.timers[name] == w.timers[name])
    && (name in next.requests <==> name in w.requests)
    && (name in w.requests ==> next.requests[name].status == w.requests[name].status)
  }

  lemma SameKeepsTimers(s: State, next: World, name: string, reading: Time)
    requires TimerInv(s, name, reading) && SameFor(s.world, next, name)
    ensures TimerInv(State(next, s.pc), name, reading)
  {
    assert Known(next, name) == Known(s.world, name);
  }

  lemma OtherEnvSame(w: World, e: EnvStep, name: string)
    requires EnvEnabled(w, e) && WorldOk(w)
    requires !e.CreateRequest? && !e.DeleteRequest? && !e.Deliver? && !e.Fire?
    ensures SameFor(w, EnvApply(w, e), name)
  {
    if e.EditSpec? {
      assert RecordOk(w, e.name);
    }
  }

  lemma TokenMoves(s: State, e: EnvStep, name: string, reading: Time)
    requires Inv(s) && TimerInv(s, name, reading) && EnvEnabled(s.world, e)
    requires e.DeleteRequest? || e.Deliver? || e.Fire?
    ensures TimerInv(State(EnvApply(s.world, e), s.pc), name, reading)
  {
    var next := EnvApply(s.world, e);
    assert next.names == s.world.names;
    assert Known(next, name) == Known(s.world, name);
    if e.DeleteRequest? {
      StoredIsKnown(s.world, e.name);
    }
  }

  lemma EnvKeepsTimers(s: State, e: EnvStep, name: string, reading: Time)
    requires Inv(s) && EnvEnabled(s.world, e) && TimerInv(s, name, reading)
    requires NotReused(EnvApply(s.world, e).names)
    ensures TimerInv(State(EnvApply(s.world, e), s.pc), name, reading)
  {
    if e.CreateRequest? {
      CreateKeepsTimers(s, e, name, reading);
    } else if e.DeleteRequest? || e.Deliver? || e.Fire? {
      TokenMoves(s, e, name, reading);
    } else {
      OtherEnvSame(s.world, e, name);
      SameKeepsTimers(s, EnvApply(s.world, e), name, reading);
    }
  }

  // Calls

  lemma DeleteSameForOthers(w: World, n: string, outcome: Outcome, name: string)
    requires n != name
    ensures SameFor(w, RemoveRequest(w, n, outcome).0, name)
  {
    var next := RemoveRequest(w, n, outcome).0;
    assert next == w.(requests := next.requests, pending := next.pending);
  }

  /** Calls about tickets and bindings change nothing that matters to a timer. */
  lemma OtherCallSame(w: World, pc: Pc, outcome: Outcome, hint: Hint, name: string)
    requires !pc.Write? && !pc.Delete?
    ensures SameFor(w, Perform(w, pc, outcome, hint).0, name)
  {
    CallKeepsFrame(w, pc, outcome, hint);
    OtherCallsAnnounceNothing(w, pc, outcome, hint);
    Grants.CallKeepsRequests(w, pc, outcome, hint);
    Expiry.CallKeepsNames(w, pc, outcome, hint);
  }

  /** Only a status update or a delete of the name changes what matters to it. */
  lemma CallSame(w: World, pc: Pc, outcome: Outcome, hint: Hint, name: string)
    requires WorldOk(w) && InCall(pc) && ((!pc.Write? && !pc.Delete?) || pc.req.name != name)
    ensures SameFor(w, Perform(w, pc, outcome, hint).0, name)
  {
    if pc.Write? {
      WriteSameForOthers(w, pc.req, pc.status, outcome, name);
    } else if pc.Delete? {
      DeleteSameForOthers(w, pc.req.name, outcome, name);
    } else {
      OtherCallSame(w, pc, outcome, hint, name);
    }
  }

  lemma WriteSameForOthers(w: World, req: Request, status: Status, outcome: Outcome, name: string)
    requires WorldOk(w) && req.name != name
    ensures SameFor(w, WriteStatus(w, req, status, outcome).0, name)
  {
    if WriteTakesEffect(w, req, outcome) {
      assert RecordOk(w, req.name);
    }
  }

  /** With names not reused, the copy in flight is of the stored request. */
  lemma CopyIsLive(w: World, req: Request)
    requires WorldOk(w) && CopyOk(w, req) && NotReused(w.names) && req.name in w.requests
    ensures Live(w, req) && req.status == w.requests[req.name].status
  {
    assert RecordOk(w, req.name);
  }

  lemma AnswerKeepsDelay(s: State, outcome: Outcome, hint: Hint, name: string, reading: Time)
    requires Inv(s) && InCall(s.pc) && HintOk(s.world, s.pc, hint) && NotReused(s.world.names)
    ensures DelayOk(Answer(s, outcome, hint).world, Answer(s, outcome, hint).pc, name,
                    if s.pc.Arm? then s.world.now else reading)
  {
    if s.pc.Arm? {
      if s.pc.req.name in s.world.requests {
        CopyIsLive(s.world, s.pc.req);
      }
    } else {
      var next := Answer(s, outcome, hint).pc;
      if next.Finished? && next.result.Done? {
        EndsWellAt(s.pc, Perform(s.world, s.pc, outcome, hint).1);
      }
    }
  }

  lemma WriteKeepsTokens(s: State, outcome: Outcome, hint: Hint, name: string, reading: Time)
    requires Inv(s) && s.pc.Write? && s.pc.req.name == name && TimerInv(s, name, reading)
    ensures var next := WriteStatus(s.world, s.pc.req, s.pc.status, outcome).0;
            TokensOk(next, s.pc, name) && TimerOk(next, name)
  {
    var next := WriteStatus(s.world, s.pc.req, s.pc.status, outcome).0;
    if WriteTakesEffect(s.world, s.pc.req, outcome) {
      assert RecordOk(s.world, name);
      assert next.names == s.world.names && next.queue == s.world.queue && next.timers == s.world.timers;
      assert Known(next, name) == Known(s.world, name);
      assert name !in s.world.timers;
    } else {
      assert next == s.world;
    }
  }

  lemma DeleteKeepsTokens(s: State, outcome: Outcome, hint: Hint, name: string, reading: Time)
    requires Inv(s) && s.pc.Delete? && s.pc.req.name == name && TimerInv(s, name, reading)
    ensures var next := RemoveRequest(s.world, name, outcome).0;
            TokensOk(next, s.pc, name) && TimerOk(next, name)
  {
    var next := RemoveRequest(s.world, name, outcome).0;
    assert Known(next, name) == Known(s.world, name);
  }

  lemma AnswerKeepsTokens(s: State, outcome: Outcome, hint: Hint, name: string, reading: Time)
    requires Inv(s) && InCall(s.pc) && HintOk(s.world, s.pc, hint) && TimerInv(s, name, reading)
    ensures var w := Perform(s.world, s.pc, outcome, hint).0;
            TokensOk(w, s.pc, name) && TimerOk(w, name)
  {
    if (s.pc.Write? || s.pc.Delete?) && s.pc.req.name == name {
      if s.pc.Write? {
        WriteKeepsTokens(s, outcome, hint, name, reading);
      } else {
        DeleteKeepsTokens(s, outcome, hint, name, reading);
      }
    } else {
      CallSame(s.world, s.pc, outcome, hint, name);
      SameKeepsTimers(s, Perform(s.world, s.pc, outcome, hint).0, name, reading);
    }
  }

  lemma SameNameSameTokens(w: World, pc: Pc, next: Pc, name: string)
    requires TokensOk(w, pc, name) && PcName(next) == PcName(pc)
    ensures TokensOk(w, next, name)
  {
  }

  lemma AnswerKeepsTimers(s: State, outcome: Outcome, hint: Hint, name: string, reading: Time)
    requires Inv(s) && InCall(s.pc) && HintOk(s.world, s.pc, hint) && NotReused(s.world.names)
    requires TimerInv(s, name, reading)
    ensures TimerInv(Answer(s, outcome, hint), name, if s.pc.Arm? then s.world.now else reading)
  {
    AnswerKeepsTokens(s, outcome, hint, name, reading);
    AnswerKeepsName(s, outcome, hint);
    SameNameSameTokens(Answer(s, outcome, hint).world, s.pc, Answer(s, outcome, hint).pc, name);
    AnswerKeepsDelay(s, outcome, hint, name, reading);
  }

  // The worker

  lemma SettleKeepsTimers(s: State, name: string, reading: Time)
    requires Inv(s) && s.pc.Finished? && TimerInv(s, name, reading)
    ensures TimerInv(Apply(s, Settle), name, reading)
  {
    var next := SettleWorld(s.world, s.pc.name, s.pc.result);
    assert Apply(s, Settle) == State(next, Idle);
    assert Known(next, name) == Known(s.world, name);
    if name == s.pc.name && name in s.world.requests && SettlesDelay(s, Settle) {
      assert name !in s.world.timers;
    }
  }

  lemma PopKeepsTimers(s: State, n: string, name: string, reading: Time)
    requires Inv(s) && Enabled(s, Pop(n)) && TimerInv(s, name, reading)
    ensures TimerInv(Apply(s, Pop(n)), name, reading)
  {
    assert Known(Apply(s, Pop(n)).world, name) == Known(s.world, name);
  }

  lemma RestartKeepsTimers(s: State, name: string, reading: Time)
    requires Inv(s) && TimerInv(s, name, reading)
    ensures TimerInv(Apply(s, Restart), name, reading)
  {
    assert Known(Apply(s, Restart).world, name) == Known(s.world, name);
    if name in s.world.requests {
      StoredIsKnown(s.world, name);
    }
  }

  lemma WorkerKeepsTimers(s: State, step: Step, name: string, reading: Time)
    requires Inv(s) && TimerInv(s, name, reading) && Enabled(s, step)
    requires step.Pop? || step.Settle? || step.Restart?
    ensures TimerInv(Apply(s, step), name, reading)
  {
    match step
    case Pop(n) => PopKeepsTimers(s, n, name, reading);
    case Settle => SettleKeepsTimers(s, name, reading);
    case Restart => RestartKeepsTimers(s, name, reading);
  }

  lemma StepKeepsTimers(s: State, step: Step, name: string, reading: Time)
    requires Inv(s) && NotReused(s.world.names) && NotReused(Apply(s, step).world.names)
    requires TimerInv(s, name, reading)
    ensures TimerInv(Apply(s, step), name, ReadingAfter(s, step, reading))
  {
    if Enabled(s, step) {
      match step
      case Env(e) => EnvKeepsTimers(s, e, name, reading);
      case Respond(outcome, hint) => AnswerKeepsTimers(s, outcome, hint, name, reading);
      case _ => WorkerKeepsTimers(s, step, name, reading);
    }
  }

  lemma NotReusedBefore(s: State, step: Step)
    requires NotReused(Apply(s, step).world.names)
    ensures NotReused(s.world.names)
  {
    if Enabled(s, step) {
      if step.Env? {
        EnvExtends(s.world, step.e);
      } else if step.Respond? {
        Expiry.CallKeepsNames(s.world, s.pc, step.outcome, step.hint);
      } else {
        OtherStepsKeepRecords(s, step);
      }
    }
  }

  lemma {:induction false} TimerInvHolds(s: State, steps: seq<Step>, name: string)
    requires Init(s) && NotReused(Run(s, steps).world.names)
    ensures Inv(Run(s, steps)) && TimerInv(Run(s, steps), name, Reading(s, steps))
  {
    if steps == [] {
      InitInv(s);
    } else {
      var n := |steps| - 1;
      var before := Run(s, steps[..n]);
      NotReusedBefore(before, steps[n]);
      TimerInvHolds(s, steps[..n], name);
      StepKeepsInv(before, steps[n]);
      StepKeepsTimers(before, steps[n], name, Reading(s, steps[..n]));
    }
  }

  /**
   A timer never fires before the deadline of its request, in every run in which names are not
   reused, with any failures, restarts and delays.
   */
  lemma TimersAreNotEarly(s: State, steps: seq<Step>, name: string)
    requires Init(s) && NotReused(Run(s, steps).world.names)
    requires name in Run(s, steps).world.requests && name in Run(s, steps).world.timers
    ensures var w := Run(s, steps).world; var deadline := Deadline(w.requests[name]);
            deadline.Some? && deadline.value <= w.timers[name]
  {
    TimerInvHolds(s, steps, name);
  }
}
