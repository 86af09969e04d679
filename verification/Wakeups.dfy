/**
 Wake-ups. A request that waits for a point in time is only looked at again if it is queued,
 has an undelivered event, or has a timer. Two things can leave it with none of them: a delay
 computed after its target, and the dropped error of a rejection for a missing field.
 */
module Wakeups {
  import opened Types
  import opened Machine
  import opened Invariants
  import opened History
  import Grants

  predicate IsLapse(e: Entry, name: string) {
    e == Late(name) || e == Swallowed(name)
  }

  predicate LapseIsLast(t: Trace, i: int, name: string) {
    && 0 <= i < |t| && IsLapse(t[i], name)
    && forall j | i < j < |t| :: t[j].Fetched? ==> t[j].req.name != name
  }

  /** The latest reconcile of the name lapsed: since then none has read it again. */
  predicate Lapsed(t: Trace, name: string) {
    exists i | 0 <= i < |t| :: LapseIsLast(t, i, name)
  }

  predicate FetchesOthers(more: Trace, name: string) {
    forall j | 0 <= j < |more| :: more[j].Fetched? ==> more[j].req.name != name
  }

  lemma LapsedGrows(t: Trace, more: Trace, name: string)
    requires Lapsed(t, name) && FetchesOthers(more, name)
    ensures Lapsed(t + more, name)
  {
    var i :| 0 <= i < |t| && LapseIsLast(t, i, name);
    assert LapseIsLast(t + more, i, name);
  }

  lemma EntriesFetchOthers(s: State, outcome: Outcome, hint: Hint, name: string)
    requires Inv(s) && InCall(s.pc) && PcName(s.pc) != Some(name)
    ensures FetchesOthers(AnswerEntries(s, outcome, hint), name)
  {
    if s.pc.Fetch? && s.pc.name in s.world.requests {
      assert RecordOk(s.world, s.pc.name);
    }
  }

  // Acting on delays

  /** The time of the latest clock reading for a delay. */
  ghost function Reading(s: State, steps: seq<Step>): Time {
    if steps == [] then s.world.now
    else
      var n := |steps| - 1;
      ReadingAfter(Run(s, steps[..n]), steps[n], Reading(s, steps[..n]))
  }

  ghost function ReadingAfter(s: State, step: Step, reading: Time): Time {
    if step.Respond? && Enabled(s, step) && s.pc.Arm? then s.world.now else reading
  }

  predicate SettlesDelay(s: State, step: Step) {
    step.Settle? && s.pc.Finished? && s.pc.result.Done? && s.pc.result.delay > 0
  }

  /** The worker acts on every delay within `lag` of the clock reading it was computed from. */
  ghost predicate Prompt(s: State, steps: seq<Step>, lag: int) {
    forall i | 0 <= i < |steps| && SettlesDelay(Run(s, steps[..i]), steps[i]) ::
      Run(s, steps[..i]).world.now - Reading(s, steps[..i]) <= lag
  }

  /** Every run is prompt for some lag. */
  lemma {:induction false} PromptForSomeLag(s: State, steps: seq<Step>) returns (lag: int)
    ensures Prompt(s, steps, lag)
  {
    if steps == [] {
      lag := 0;
    } else {
      var n := |steps| - 1;
      var before := PromptForSomeLag(s, steps[..n]);
      var last := Run(s, steps[..n]).world.now - Reading(s, steps[..n]);
      lag := if before <= last then last else before;
      forall i | 0 <= i < |steps| && SettlesDelay(Run(s, steps[..i]), steps[i])
        ensures Run(s, steps[..i]).world.now - Reading(s, steps[..i]) <= lag
      {
        if i < n {
          assert steps[..n][..i] == steps[..i];
        }
      }
    }
  }

  lemma PromptFront(s: State, steps: seq<Step>, lag: int)
    requires steps != [] && Prompt(s, steps, lag)
    ensures Prompt(s, steps[..|steps| - 1], lag)
  {
    var n := |steps| - 1;
    forall i | 0 <= i < n && SettlesDelay(Run(s, steps[..n][..i]), steps[..n][i])
      ensures Run(s, steps[..n][..i]).world.now - Reading(s, steps[..n][..i]) <= lag
    {
      assert steps[..n][..i] == steps[..i];
    }
  }

  // Cover

  predicate Announced(w: World, name: string) {
    name in w.queue || name in w.pending
  }

  /** A timer that fires no later than `lag` after the deadline. */
  predicate TimedBy(w: World, name: string, lag: int)
    requires name in w.requests
  {
    && name in w.timers && Deadline(w.requests[name]).Some?
    && w.timers[name] <= Deadline(w.requests[name]).value + lag
  }

  predicate Covered(w: World, t: Trace, name: string, lag: int) {
    name in w.requests ==> Announced(w, name) || TimedBy(w, name, lag) || Lapsed(t, name)
  }

  /** The reconcile has ended without an error and without asking for a re-queue. */
  predicate EndsWell(pc: Pc) {
    pc.Finished? && pc.result.Done? && pc.result.delay <= 0
  }

  /** If another request of the name has come up since the copy was read, it is announced. */
  predicate FlightOk(w: World, pc: Pc) {
    HasReq(pc) && pc.req.name in w.requests && w.requests[pc.req.name].uid != pc.req.uid ==>
      Announced(w, pc.req.name)
  }

  /** A delay about to be acted on reaches from its clock reading to the deadline. */
  predicate DelayDue(w: World, pc: Pc, reading: Time) {
    pc.Finished? && pc.result.Done? && pc.result.delay > 0 && pc.name in w.requests ==>
      || Announced(w, pc.name)
      || (reading <= w.now && Deadline(w.requests[pc.name]) == Some(reading + pc.result.delay))
  }

  predicate PcCovered(w: World, pc: Pc, t: Trace, reading: Time, lag: int) {
    && FlightOk(w, pc) && DelayDue(w, pc, reading)
    && (EndsWell(pc) ==> Covered(w, t, pc.name, lag))
  }

  /** Everyone but the request in flight is covered; the one in flight is once it needs no further call. */
  ghost predicate WakeInv(s: State, t: Trace, reading: Time, lag: int) {
    && (forall n | n in s.world.requests :: PcName(s.pc) == Some(n) || Covered(s.world, t, n, lag))
    && PcCovered(s.world, s.pc, t, reading, lag)
  }

  lemma CoveredByEnv(w: World, e: EnvStep, t: Trace, name: string, lag: int)
    requires EnvEnabled(w, e) && Covered(w, t, name, lag)
    ensures Covered(EnvApply(w, e), t, name, lag)
  {
  }

  lemma FlightByEnv(w: World, e: EnvStep, pc: Pc, reading: Time)
    requires EnvEnabled(w, e)
    ensures FlightOk(w, pc) ==> FlightOk(EnvApply(w, e), pc)
    ensures DelayDue(w, pc, reading) ==> DelayDue(EnvApply(w, e), pc, reading)
  {
  }

  lemma PcCoveredByEnv(w: World, e: EnvStep, pc: Pc, t: Trace, reading: Time, lag: int)
    requires EnvEnabled(w, e) && PcCovered(w, pc, t, reading, lag)
    ensures PcCovered(EnvApply(w, e), pc, t, reading, lag)
  {
    FlightByEnv(w, e, pc, reading);
    if EndsWell(pc) {
      CoveredByEnv(w, e, t, pc.name, lag);
    }
  }

  /** A call never takes a wake-up away from another name. */
  lemma CoveredByCall(w: World, pc: Pc, outcome: Outcome, hint: Hint, t: Trace, name: string, lag: int)
    requires InCall(pc) && PcName(pc) != Some(name) && Covered(w, t, name, lag)
    ensures Covered(Perform(w, pc, outcome, hint).0, t, name, lag)
  {
    if !ChangesWorld(pc) {
      ReadsKeepWorld(w, pc, outcome, hint);
    }
  }

  /** A status update that ends the reconcile without an error announces the request, or is swallowed. */
  lemma WriteEndingCovered(s: State, outcome: Outcome, hint: Hint, t: Trace, lag: int)
    requires Inv(s) && s.pc.Write? && EndsWell(Answer(s, outcome, hint).pc)
    ensures Covered(Answer(s, outcome, hint).world, t + AnswerEntries(s, outcome, hint), s.pc.req.name, lag)
  {
    if s.pc.after.ThenReturnSkipped? && !WriteTakesEffect(s.world, s.pc.req, outcome) {
      assert AnswerEntries(s, outcome, hint) == [Swallowed(s.pc.req.name)];
      assert LapseIsLast(t + [Swallowed(s.pc.req.name)], |t|, s.pc.req.name);
    }
  }

  /** A reconcile ends without an error only here. */
  lemma EndsWellAt(pc: Pc, r: Resp)
    requires InCall(pc) && Next(pc, r).Finished? && Next(pc, r).result.Done?
    ensures pc.Fetch? || pc.Delete? || pc.Arm? || pc.Write?
    ensures pc.Fetch? ==> r.Missing?
    ensures pc.Delete? ==> r.Success?
    ensures !pc.Arm? ==> Next(pc, r).result.delay == 0
  {
  }

  lemma EndingCovered(s: State, outcome: Outcome, hint: Hint, t: Trace, lag: int)
    requires Inv(s) && InCall(s.pc) && EndsWell(Answer(s, outcome, hint).pc)
    ensures var next := Answer(s, outcome, hint);
            Covered(next.world, t + AnswerEntries(s, outcome, hint), next.pc.name, lag)
  {
    EndsWellAt(s.pc, Perform(s.world, s.pc, outcome, hint).1);
    if s.pc.Arm? {
      assert AnswerEntries(s, outcome, hint) == [Late(s.pc.req.name)];
      assert LapseIsLast(t + [Late(s.pc.req.name)], |t|, s.pc.req.name);
    } else if s.pc.Write? {
      NextKeepsName(s.pc, Perform(s.world, s.pc, outcome, hint).1);
      WriteEndingCovered(s, outcome, hint, t, lag);
    }
  }

  lemma AnswerKeepsCovered(s: State, outcome: Outcome, hint: Hint, t: Trace, n: string, lag: int)
    requires Inv(s) && InCall(s.pc) && PcName(s.pc) != Some(n) && Covered(s.world, t, n, lag)
    ensures Covered(Answer(s, outcome, hint).world, t + AnswerEntries(s, outcome, hint), n, lag)
  {
    CoveredByCall(s.world, s.pc, outcome, hint, t, n, lag);
    if Lapsed(t, n) {
      EntriesFetchOthers(s, outcome, hint, n);
      LapsedGrows(t, AnswerEntries(s, outcome, hint), n);
    }
  }

  /** What a call leaves of the names and the announcements. */
  lemma CallKeepsAnnounced(w: World, pc: Pc, outcome: Outcome, hint: Hint, name: string)
    ensures var next := Perform(w, pc, outcome, hint).0;
            && (Announced(w, name) ==> Announced(next, name))
            && (name in next.requests ==> name in w.requests && next.requests[name].uid == w.requests[name].uid)
  {
    if !ChangesWorld(pc) {
      ReadsKeepWorld(w, pc, outcome, hint);
    } else if pc.Write? {
      WriteKeepsAnnounced(w, pc.req, pc.status, outcome, name);
    } else if pc.Delete? {
      DeleteKeepsAnnounced(w, pc.req.name, outcome, name);
    } else {
      QuietCallKeepsQueue(w, pc, outcome, hint);
    }
  }

  lemma DeleteKeepsAnnounced(w: World, n: string, outcome: Outcome, name: string)
    ensures var next := RemoveRequest(w, n, outcome).0;
            && (Announced(w, name) ==> Announced(next, name))
            && (name in next.requests ==> name in w.requests && next.requests[name].uid == w.requests[name].uid)
  {
  }

  lemma WriteKeepsAnnounced(w: World, req: Request, status: Status, outcome: Outcome, name: string)
    ensures var next := WriteStatus(w, req, status, outcome).0;
            && (Announced(w, name) ==> Announced(next, name))
            && (name in next.requests ==> name in w.requests && next.requests[name].uid == w.requests[name].uid)
  {
  }

  lemma QuietCallKeepsQueue(w: World, pc: Pc, outcome: Outcome, hint: Hint)
    requires ChangesWorld(pc) && !pc.Write? && !pc.Delete?
    ensures var next := Perform(w, pc, outcome, hint).0;
            next.queue == w.queue && next.pending == w.pending && next.requests == w.requests
  {
    var next := Perform(w, pc, outcome, hint).0;
    if pc.Bind? {
      assert next == w.(bindings := next.bindings);
    } else if pc.OpenTicket? {
      assert next == w.(tickets := next.tickets);
    } else {
      TicketCallChangesTickets(w, pc, outcome, hint);
    }
  }

  lemma TicketCallChangesTickets(w: World, pc: Pc, outcome: Outcome, hint: Hint)
    requires pc.RejectMove? || pc.CompleteMove? || pc.RejectComment? || pc.CompleteComment? || pc.PreApproveComment?
    ensures var next := Perform(w, pc, outcome, hint).0; next == w.(tickets := next.tickets)
  {
  }

  lemma NextIsOfSame(pc: Pc, r: Resp)
    requires HasReq(pc) && HasReq(Next(pc, r))
    ensures Next(pc, r).req.uid == pc.req.uid && Next(pc, r).req.name == pc.req.name
  {
  }

  lemma AnswerKeepsFlight(s: State, outcome: Outcome, hint: Hint)
    requires Inv(s) && InCall(s.pc) && FlightOk(s.world, s.pc)
    ensures FlightOk(Answer(s, outcome, hint).world, Answer(s, outcome, hint).pc)
  {
    var next := Answer(s, outcome, hint).pc;
    if HasReq(next) {
      CallKeepsAnnounced(s.world, s.pc, outcome, hint, next.req.name);
      if s.pc.Fetch? {
        assert RecordOk(s.world, s.pc.name);
      } else {
        NextIsOfSame(s.pc, Perform(s.world, s.pc, outcome, hint).1);
      }
    }
  }

  lemma AnswerSetsDelay(s: State, outcome: Outcome, hint: Hint, reading: Time)
    requires Inv(s) && InCall(s.pc) && FlightOk(s.world, s.pc)
    ensures DelayDue(Answer(s, outcome, hint).world, Answer(s, outcome, hint).pc,
                     if s.pc.Arm? then s.world.now else reading)
  {
    var next := Answer(s, outcome, hint).pc;
    if next.Finished? && next.result.Done? && !s.pc.Arm? {
      EndsWellAt(s.pc, Perform(s.world, s.pc, outcome, hint).1);
    }
  }

  /** A response leaves the reconcile on the same request, or at its end. */
  lemma AnswerKeepsName(s: State, outcome: Outcome, hint: Hint)
    requires Inv(s) && InCall(s.pc)
    ensures PcName(Answer(s, outcome, hint).pc) == PcName(s.pc)
  {
    if s.pc.Fetch? {
      if s.pc.name in s.world.requests {
        assert RecordOk(s.world, s.pc.name);
      }
    } else {
      NextKeepsName(s.pc, Perform(s.world, s.pc, outcome, hint).1);
    }
  }

  lemma NextKeepsName(pc: Pc, r: Resp)
    requires HasReq(pc)
    ensures PcName(Next(pc, r)) == Some(pc.req.name)
  {
  }

  lemma AnswerKeepsWakeInv(s: State, outcome: Outcome, hint: Hint, t: Trace, reading: Time, lag: int)
    requires Inv(s) && WakeInv(s, t, reading, lag) && InCall(s.pc)
    ensures WakeInv(Answer(s, outcome, hint), t + AnswerEntries(s, outcome, hint),
                    if s.pc.Arm? then s.world.now else reading, lag)
  {
    AnswerKeepsName(s, outcome, hint);
    AnswerKeepsFlight(s, outcome, hint);
    AnswerSetsDelay(s, outcome, hint, reading);
    if EndsWell(Answer(s, outcome, hint).pc) {
      EndingCovered(s, outcome, hint, t, lag);
    }
    forall n | n in Answer(s, outcome, hint).world.requests && PcName(s.pc) != Some(n)
      ensures Covered(Answer(s, outcome, hint).world, t + AnswerEntries(s, outcome, hint), n, lag)
    {
      CallKeepsAnnounced(s.world, s.pc, outcome, hint, n);
      AnswerKeepsCovered(s, outcome, hint, t, n, lag);
    }
  }

  lemma EnvKeepsWakeInv(s: State, e: EnvStep, t: Trace, reading: Time, lag: int)
    requires WakeInv(s, t, reading, lag) && EnvEnabled(s.world, e)
    ensures WakeInv(State(EnvApply(s.world, e), s.pc), t, reading, lag)
  {
    forall n | n in EnvApply(s.world, e).requests
      ensures PcName(s.pc) == Some(n) || Covered(EnvApply(s.world, e), t, n, lag)
    {
      if PcName(s.pc) != Some(n) {
        CoveredByEnv(s.world, e, t, n, lag);
      }
    }
    PcCoveredByEnv(s.world, e, s.pc, t, reading, lag);
  }

  lemma SettleKeepsWakeInv(s: State, t: Trace, reading: Time, lag: int)
    requires WakeInv(s, t, reading, lag) && s.pc.Finished?
    requires SettlesDelay(s, Settle) ==> s.world.now - reading <= lag
    ensures WakeInv(Apply(s, Settle), t, reading, lag)
  {
    var next := SettleWorld(s.world, s.pc.name, s.pc.result);
    forall n | n in next.requests ensures Covered(next, t, n, lag) {
      assert PcName(s.pc) == Some(n) || Covered(s.world, t, n, lag);
    }
  }

  lemma PopKeepsWakeInv(s: State, name: string, t: Trace, reading: Time, lag: int)
    requires WakeInv(s, t, reading, lag) && Enabled(s, Pop(name))
    ensures WakeInv(Apply(s, Pop(name)), t, reading, lag)
  {
    forall n | n in s.world.requests && n != name ensures Covered(Apply(s, Pop(name)).world, t, n, lag) {
      assert Covered(s.world, t, n, lag);
    }
  }

  lemma StepKeepsWakeInv(s: State, step: Step, t: Trace, reading: Time, lag: int)
    requires Inv(s) && WakeInv(s, t, reading, lag)
    requires SettlesDelay(s, step) ==> s.world.now - reading <= lag
    ensures WakeInv(Apply(s, step), t + Entries(s, step), ReadingAfter(s, step, reading), lag)
  {
    assert t + [] == t;
    if Enabled(s, step) {
      match step
      case Env(e) => EnvKeepsWakeInv(s, e, t, reading, lag);
      case Respond(outcome, hint) => AnswerKeepsWakeInv(s, outcome, hint, t, reading, lag);
      case Pop(name) => PopKeepsWakeInv(s, name, t, reading, lag);
      case Settle => SettleKeepsWakeInv(s, t, reading, lag);
      case Restart =>
    }
  }

  lemma {:induction false} WakeInvHolds(s: State, steps: seq<Step>, lag: int)
    requires Init(s) && Prompt(s, steps, lag)
    ensures Inv(Run(s, steps)) && WakeInv(Run(s, steps), TraceOf(s, steps), Reading(s, steps), lag)
  {
    if steps == [] {
      InitInv(s);
    } else {
      var n := |steps| - 1;
      PromptFront(s, steps, lag);
      WakeInvHolds(s, steps[..n], lag);
      StepKeepsInv(Run(s, steps[..n]), steps[n]);
      StepKeepsWakeInv(Run(s, steps[..n]), steps[n], TraceOf(s, steps[..n]), Reading(s, steps[..n]), lag);
    }
  }

  /**
   No stranded request: in every run, with any failures, restarts, interleaving and reuse of names, a
   stored request is in flight, queued, about to be announced, or has a timer that fires no later
   after its next deadline than the worker took to act on a delay; unless the latest reconcile of it
   computed its delay too late or dropped the error of its rejection.
   */
  lemma NoStrandedRequest(s: State, steps: seq<Step>, name: string, lag: int)
    requires Init(s) && Prompt(s, steps, lag) && name in Run(s, steps).world.requests
    ensures var end := Run(s, steps);
            || PcName(end.pc) == Some(name) || Announced(end.world, name) || TimedBy(end.world, name, lag)
            || Lapsed(TraceOf(s, steps), name)
  {
    WakeInvHolds(s, steps, lag);
  }

  /** The state after the pending call is answered and the worker has acted on the result. */
  function Settled(s: State): World
    requires s.pc.Finished?
  {
    SettleWorld(s.world, s.pc.name, s.pc.result)
  }

  predicate OnlyEnvironment(steps: seq<Step>) {
    forall i | 0 <= i < |steps| :: steps[i].Env?
  }

  lemma {:induction false} EnvironmentKeepsPc(s: State, steps: seq<Step>)
    requires OnlyEnvironment(steps)
    ensures Run(s, steps).pc == s.pc
  {
    if steps != [] {
      EnvironmentKeepsPc(s, steps[..|steps| - 1]);
    }
  }

  /**
   The second clock read decides: whatever happens before the result is acted on, a request armed for
   `target` then has a wake-up exactly if it had one already or the clock had not reached the target
   when it was read; and its new timer fires after the target by just the time since that reading.
   */
  lemma ArmedIffInTime(s: State, hint: Hint, between: seq<Step>)
    requires s.pc.Arm? && OnlyEnvironment(between)
    ensures var name := s.pc.req.name; var end := Run(Answer(s, Ok, hint), between);
            && end.pc == Finished(name, Done(s.pc.target - s.world.now))
            && var w := Settled(end); var at := s.pc.target + (end.world.now - s.world.now);
            && (Awake(w, name) <==> Awake(end.world, name) || s.world.now < s.pc.target)
            && (s.world.now < s.pc.target ==> name in w.timers && w.timers[name] <= at)
            && (s.world.now < s.pc.target && name !in end.world.timers ==> w.timers[name] == at)
  {
    EnvironmentKeepsPc(Answer(s, Ok, hint), between);
  }

  /**
   A request with a missing field keeps a wake-up exactly if it had one already or the rejecting
   write took effect; the reconcile reports success either way.
   */
  lemma SwallowedIffWriteFails(s: State, outcome: Outcome, hint: Hint)
    requires Inv(s) && s.pc.Write? && s.pc.after == ThenReturnSkipped && s.pc.req.name in s.world.requests
    requires Answer(s, outcome, hint).pc.Finished?
    ensures var next := Answer(s, outcome, hint); var w := Settled(next);
            && next.pc.result == Done(0)
            && (Awake(w, s.pc.req.name) <==>
                  Awake(s.world, s.pc.req.name) || WriteTakesEffect(s.world, s.pc.req, outcome))
  {
    var req := s.pc.req;
    var (w, r) := WriteStatus(s.world, req, s.pc.status, outcome);
    if WriteTakesEffect(s.world, req, outcome) {
      assert w.pending == s.world.pending + {req.name} by {
        assert RecordOk(s.world, req.name);
      }
    } else {
      assert w == s.world;
    }
  }

  // Which events wake

  /** The record came or went, or was rejected. */
  predicate Noteworthy(w: World, next: World, name: string) {
    || (name in w.requests) != (name in next.requests)
    || (&& name in w.requests && name in next.requests
        && w.requests[name].status.phase != Rejected && next.requests[name].status.phase == Rejected)
  }

  lemma EnvAnnounces(w: World, e: EnvStep, name: string)
    requires WorldOk(w) && EnvEnabled(w, e) && name !in w.pending
    ensures name in EnvApply(w, e).pending <==> Noteworthy(w, EnvApply(w, e), name)
  {
    if e.EditSpec? {
      assert RecordOk(w, e.name);
    }
  }

  lemma WriteAnnounces(w: World, req: Request, status: Status, outcome: Outcome, name: string)
    requires WorldOk(w) && name !in w.pending
    ensures var next := WriteStatus(w, req, status, outcome).0;
            name in next.pending <==> Noteworthy(w, next, name)
  {
    if WriteTakesEffect(w, req, outcome) {
      assert RecordOk(w, req.name);
    }
  }

  /** Calls to the tracker and binding calls are not seen by the watch. */
  lemma OtherCallsAnnounceNothing(w: World, pc: Pc, outcome: Outcome, hint: Hint)
    requires !pc.Write? && !pc.Delete?
    ensures Perform(w, pc, outcome, hint).0.pending == w.pending
  {
    if !ChangesWorld(pc) {
      ReadsKeepWorld(w, pc, outcome, hint);
    }
  }

  lemma DeleteAnnounces(w: World, n: string, outcome: Outcome, name: string)
    requires name !in w.pending
    ensures var next := RemoveRequest(w, n, outcome).0;
            name in next.pending <==> Noteworthy(w, next, name)
  {
    var next := RemoveRequest(w, n, outcome).0;
    if outcome != Err && n in w.requests {
      assert next.pending == w.pending + {n} && next.requests == w.requests - {n};
    }
  }

  lemma CallAnnounces(w: World, pc: Pc, outcome: Outcome, hint: Hint, name: string)
    requires WorldOk(w) && name !in w.pending
    ensures var next := Perform(w, pc, outcome, hint).0;
            name in next.pending <==> Noteworthy(w, next, name)
  {
    if pc.Write? {
      WriteAnnounces(w, pc.req, pc.status, outcome, name);
    } else if pc.Delete? {
      DeleteAnnounces(w, pc.req.name, outcome, name);
    } else {
      OtherCallsAnnounceNothing(w, pc, outcome, hint);
      Grants.CallKeepsRequests(w, pc, outcome, hint);
    }
  }

  lemma WorkerAnnouncesNothing(s: State, step: Step)
    requires Enabled(s, step) && (step.Pop? || step.Settle?)
    ensures Apply(s, step).world.pending == s.world.pending && Apply(s, step).world.requests == s.world.requests
  {
    match step
    case Pop(n) => assert Apply(s, step).world == s.world.(queue := s.world.queue - {n});
    case Settle => assert Apply(s, step).world == SettleWorld(s.world, s.pc.name, s.pc.result);
  }

  /**
   The watch: apart from a restart, an event about a name is announced exactly when its record is
   created or deleted, or turns Rejected; no other change of a request wakes the controller.
   */
  lemma AnnouncedExactly(s: State, step: Step, name: string)
    requires Inv(s) && name !in s.world.pending && step != Restart
    ensures name in Apply(s, step).world.pending <==> Noteworthy(s.world, Apply(s, step).world, name)
  {
    if Enabled(s, step) {
      match step
      case Env(e) => EnvAnnounces(s.world, e, name);
      case Respond(outcome, hint) => CallAnnounces(s.world, s.pc, outcome, hint, name);
      case _ => WorkerAnnouncesNothing(s, step);
    }
  }
}
