/**
 Status updates under concurrent writers. `updateStatus` resubmits the same copy after a
 conflict, so a conflict is final; and the number of calls a reconcile makes is bounded.
 */
module Updates {
  import opened Types
  import opened Machine
  import opened Invariants
  import opened History

  /** The stored record has moved on since the copy was read, or is gone. */
  predicate Stale(w: World, req: Request) {
    !Live(w, req) || req.version < w.requests[req.name].version
  }

  /** Only external calls and environment steps: the reconcile in flight is neither settled nor cut short. */
  predicate WithinReconcile(steps: seq<Step>) {
    forall i | 0 <= i < |steps| :: steps[i].Env? || steps[i].Respond?
  }

  lemma EnvKeepsStale(w: World, e: EnvStep, req: Request)
    requires EnvEnabled(w, e) && WorldOk(w) && CopyOk(w, req) && Stale(w, req)
    ensures Stale(EnvApply(w, e), req)
  {
    EnvExtends(w, e);
    var next := EnvApply(w, e);
    if Live(next, req) {
      assert RecordExtends(w, next, req.name);
    }
  }

  /** The state of an update that has gone stale: still retrying, or given up. Never written. */
  predicate Doomed(s: State, req: Request, status: Status, after: After) {
    || (s.pc.Write? && s.pc.req == req && s.pc.status == status && s.pc.after == after && Stale(s.world, req))
    || s.pc == GiveUp(req, after)
  }

  lemma StepKeepsDoomed(s: State, step: Step, req: Request, status: Status, after: After)
    requires Inv(s) && Doomed(s, req, status, after) && (step.Env? || step.Respond?)
    ensures Doomed(Apply(s, step), req, status, after)
  {
    if Enabled(s, step) && step.Env? && s.pc.Write? {
      EnvKeepsStale(s.world, step.e, req);
    }
  }

  /**
   Once an update conflicts, no retry succeeds, whatever other writers do in between:
   until the reconcile is over the write is still pending and stale, or it has been given up.
   */
  lemma {:induction false} StaleWriteNeverSucceeds(s: State, steps: seq<Step>)
    requires Inv(s) && s.pc.Write? && Stale(s.world, s.pc.req)
    requires WithinReconcile(steps)
    ensures Inv(Run(s, steps))
    ensures Doomed(Run(s, steps), s.pc.req, s.pc.status, s.pc.after)
  {
    if steps != [] {
      var n := |steps| - 1;
      StaleWriteNeverSucceeds(s, steps[..n]);
      StepKeepsInv(Run(s, steps[..n]), steps[n]);
      StepKeepsDoomed(Run(s, steps[..n]), steps[n], s.pc.req, s.pc.status, s.pc.after);
    }
  }

  /** A retry is only ever pending on a stale copy. */
  predicate RetryIsStale(s: State) {
    s.pc.Write? && s.pc.attempt > 0 ==> Stale(s.world, s.pc.req)
  }

  lemma {:induction false} RetriesAreStale(s: State, steps: seq<Step>)
    requires Init(s)
    ensures Inv(Run(s, steps)) && RetryIsStale(Run(s, steps))
  {
    if steps == [] {
      InitInv(s);
    } else {
      var n := |steps| - 1;
      RetriesAreStale(s, steps[..n]);
      StepKeepsInv(Run(s, steps[..n]), steps[n]);
      StepKeepsRetryStale(Run(s, steps[..n]), steps[n]);
    }
  }

  lemma StepKeepsRetryStale(s: State, step: Step)
    requires Inv(s) && RetryIsStale(s)
    ensures RetryIsStale(Apply(s, step))
  {
    if Enabled(s, step) && s.pc.Write? {
      if step.Env? {
        if s.pc.attempt > 0 {
          EnvKeepsStale(s.world, step.e, s.pc.req);
        }
      } else if step.Respond? {
        WriteEffect(s.world, s.pc.req, s.pc.status, step.outcome);
      }
    }
  }

  /** The copy in memory is exactly the stored record. */
  predicate Current(w: World, req: Request) {
    req.name in w.requests && w.requests[req.name] == req
  }

  lemma WriteEffect(w: World, req: Request, status: Status, outcome: Outcome)
    requires CopyOk(w, req)
    ensures var (next, r) := WriteStatus(w, req, status, outcome);
            && (Current(w, req) && outcome != Err ==>
                  next.requests == w.requests[req.name := Written(req, status)] && next.requests != w.requests)
            && (!(Current(w, req) && outcome != Err) ==> next == w)
            && (r.Success? <==> Current(w, req) && outcome == Ok)
  {
    if Current(w, req) && outcome != Err {
      assert WriteStatus(w, req, status, outcome).0.requests[req.name].version == req.version + 1;
    }
  }

  /**
   An update takes effect exactly when its first attempt finds the record as it was read and the
   call is not refused. It never overwrites a concurrent change: it replaces that very record,
   and only its status and version.
   */
  lemma WriteSucceedsIffFirstAttemptDoes(s0: State, steps: seq<Step>, outcome: Outcome)
    requires Init(s0) && Run(s0, steps).pc.Write?
    ensures var s := Run(s0, steps); var req := s.pc.req;
            var (next, r) := WriteStatus(s.world, req, s.pc.status, outcome);
            && (next != s.world <==> s.pc.attempt == 0 && Current(s.world, req) && outcome != Err)
            && (r.Success? <==> s.pc.attempt == 0 && Current(s.world, req) && outcome == Ok)
            && (next != s.world ==> next.requests == s.world.requests[req.name := Written(req, s.pc.status)])
  {
    RetriesAreStale(s0, steps);
    var s := Run(s0, steps);
    WriteEffect(s.world, s.pc.req, s.pc.status, outcome);
  }

  // How many calls a reconcile makes

  /** The calls answered in the steps, or just the attempts to write a status. */
  ghost function Calls(s: State, steps: seq<Step>, writes: bool): nat {
    if steps == [] then 0
    else
      var n := |steps| - 1;
      Calls(s, steps[..n], writes) + if Answers(Run(s, steps[..n]), steps[n], writes) then 1 else 0
  }

  ghost predicate Answers(s: State, step: Step, writes: bool) {
    step.Respond? && Enabled(s, step) && (writes ==> s.pc.Write?)
  }

  /** An upper bound on the external calls a reconcile makes from a program point on. */
  function CallsLeft(pc: Pc): nat {
    match pc
    case Idle => 0
    case Fetch(_) => 0
    case Finished(_, _) => 0
    case LoadConfig(req) => 30 + |req.spec.namespaces|
    case RejectComment(_, _) => 10
    case RejectMove(_, _) => 9
    case ScanFields(_, _) => 28
    case FindReporter(_, _) => 27
    case OpenTicket(_, _) => 26
    case CheckLabels(_, _, _) => 25
    case CheckRegex(_, _, _) => 24
    case CheckStart(_, _, _) => 23
    case PreApproveComment(_, _, _) => 22
    case CheckTime(req, _) => 29 + |req.spec.namespaces|
    case CheckApproval(req, _) => 28 + |req.spec.namespaces|
    case Bind(req, _, i) => 13 + if i < |req.spec.namespaces| then |req.spec.namespaces| - i else 0
    case CompleteComment(_, _) => 12
    case CompleteMove(_, _) => 11
    case CheckEnd(_) => 3
    case Delete(_) => 1
    case Write(_, _, attempt, _) => 4 + if attempt < MAX_ATTEMPTS then MAX_ATTEMPTS - attempt else 0
    case Arm(_, _) => 1
  }

  /** Every response brings the reconcile closer to its end. */
  lemma CallsDecrease(pc: Pc, r: Resp)
    requires InCall(pc) && !pc.Fetch?
    ensures CallsLeft(Next(pc, r)) < CallsLeft(pc)
  {
  }

  /** What is known of the calls so far in a reconcile of `name`. */
  ghost predicate Counted(s: State, steps: seq<Step>, name: string, req: Request) {
    var end := Run(s, steps);
    || (end.pc == Fetch(name) && Calls(s, steps, false) == 0)
    || (end.pc.Finished? && Calls(s, steps, false) <= 1)
    || (&& !end.pc.Fetch? && Fetched(req) in TraceOf(s, steps)
        && Calls(s, steps, false) + CallsLeft(end.pc) <= 31 + |req.spec.namespaces|)
  }

  lemma CountedFetch(s: State, steps: seq<Step>, name: string, req: Request) returns (req': Request)
    requires steps != [] && Counted(s, steps[..|steps| - 1], name, req)
    requires Run(s, steps[..|steps| - 1]).pc.Fetch? && Answers(Run(s, steps[..|steps| - 1]), steps[|steps| - 1], false)
    ensures Counted(s, steps, name, req')
  {
    var n := |steps| - 1;
    var before := Run(s, steps[..n]);
    req' := req;
    if steps[n].outcome == Ok && name in before.world.requests {
      req' := before.world.requests[name];
      assert Entries(before, steps[n])[0] == Fetched(req');
      assert Run(s, steps).pc == LoadConfig(req');
    } else {
      assert Run(s, steps).pc.Finished?;
    }
  }

  lemma CountedNext(s: State, steps: seq<Step>, name: string, req: Request) returns (req': Request)
    requires steps != [] && WithinReconcile(steps) && Counted(s, steps[..|steps| - 1], name, req)
    ensures Counted(s, steps, name, req')
  {
    var n := |steps| - 1;
    var before := Run(s, steps[..n]);
    req' := req;
    if !Answers(before, steps[n], false) {
      assert Run(s, steps).pc == before.pc;
    } else if before.pc.Fetch? {
      req' := CountedFetch(s, steps, name, req);
    } else {
      CallsDecrease(before.pc, Perform(before.world, before.pc, steps[n].outcome, steps[n].hint).1);
    }
  }

  /**
   In any run, one reconcile makes at most 31 calls and one more for each namespace of the request
   it has read.
   */
  lemma CallsBounded(s: State, steps: seq<Step>, name: string) returns (req: Request)
    requires s.pc == Fetch(name) && WithinReconcile(steps)
    ensures Calls(s, steps, false) <= 31 + |req.spec.namespaces|
    ensures Calls(s, steps, false) > 1 ==> Fetched(req) in TraceOf(s, steps)
  {
    req := CallsCounted(s, steps, name);
  }

  lemma {:induction false} CallsCounted(s: State, steps: seq<Step>, name: string) returns (req: Request)
    requires s.pc == Fetch(name) && WithinReconcile(steps)
    ensures Counted(s, steps, name, req)
  {
    if steps == [] {
      req :| true;
    } else {
      var before := CallsCounted(s, steps[..|steps| - 1], name);
      req := CountedNext(s, steps, name, before);
    }
  }

  /** How many attempts to write a status can still follow. */
  function AttemptsLeft(pc: Pc): nat {
    match pc
    case Write(_, _, attempt, _) => if attempt < MAX_ATTEMPTS then MAX_ATTEMPTS - attempt else 1
    case Idle => 0
    case RejectComment(_, _) => 0
    case RejectMove(_, _) => 0
    case CheckEnd(_) => 0
    case Delete(_) => 0
    case Arm(_, _) => 0
    case Finished(_, _) => 0
    case _ => MAX_ATTEMPTS
  }

  lemma AttemptsDecrease(pc: Pc, r: Resp)
    requires InCall(pc)
    ensures AttemptsLeft(Next(pc, r)) + (if pc.Write? then 1 else 0) <= AttemptsLeft(pc)
  {
  }

  lemma {:induction false} AttemptsCounted(s: State, steps: seq<Step>)
    requires WithinReconcile(steps)
    ensures Calls(s, steps, true) + AttemptsLeft(Run(s, steps).pc) <= AttemptsLeft(s.pc)
  {
    if steps != [] {
      var n := |steps| - 1;
      var before := Run(s, steps[..n]);
      AttemptsCounted(s, steps[..n]);
      if Answers(before, steps[n], false) {
        AttemptsDecrease(before.pc, Perform(before.world, before.pc, steps[n].outcome, steps[n].hint).1);
      } else {
        assert Run(s, steps).pc == before.pc;
      }
    }
  }

  /** A reconcile makes at most one status update, and that at most five attempts. */
  lemma AttemptsBounded(s: State, steps: seq<Step>)
    requires WithinReconcile(steps) && (s.pc.Write? ==> s.pc.attempt < MAX_ATTEMPTS)
    ensures Calls(s, steps, true) <= 5
    ensures s.pc.Write? ==> Calls(s, steps, true) <= 5 - s.pc.attempt
  {
    AttemptsCounted(s, steps);
  }

  /** The program point after so many conflicts in a row. */
  function AfterConflicts(pc: Pc, conflicts: nat): Pc {
    if conflicts == 0 then pc else Next(AfterConflicts(pc, conflicts - 1), Conflict)
  }

  /**
   Up to four conflicts, the same write is repeated; the fifth ends the reconcile, in error unless the
   request was being rejected for a missing field.
   */
  lemma {:induction false} FifthConflictGivesUp(req: Request, status: Status, after: After, conflicts: nat)
    ensures AfterConflicts(Write(req, status, 0, after), conflicts)
         == if conflicts < 5 then Write(req, status, conflicts, after)
            else Finished(req.name, if after == ThenReturnSkipped then Done(0) else Error)
  {
    if conflicts > 0 {
      FifthConflictGivesUp(req, status, after, conflicts - 1);
    }
  }
}
