/**
 What bindings can outlive. A request is Rejected while bound only after a fault inside one
 window; a deleted request never gets another binding and collection removes those it had.
 */
module Expiry {
  import opened Types
  import opened Machine
  import opened Invariants
  import opened History
  import opened Grants

  /** From the first binding up to, and including, the write of Succeeded. */
  predicate Granting(pc: Pc) {
    pc.Bind? || pc.CompleteComment? || pc.CompleteMove? || (pc.Write? && pc.after == ThenCleanup)
  }

  predicate Inside(t: Trace, i: int, j: int)
    requires 0 <= i && j <= |t|
  {
    forall k | i < k < j :: t[k].Granted? || t[k].Transitioned?
  }

  predicate OngoingFrom(t: Trace, i: int, req: Request) {
    0 <= i < |t| && t[i].Granted? && t[i].req == req && Inside(t, i, |t|)
  }

  /** The reconcile in flight has created a binding and not yet written Succeeded. */
  predicate Ongoing(t: Trace, req: Request) {
    exists i | 0 <= i < |t| :: OngoingFrom(t, i, req)
  }

  predicate AbortedAt(t: Trace, i: int, j: int, uid: nat) {
    && 0 <= i < j < |t|
    && t[i].Granted? && t[i].req.uid == uid
    && t[j].Failed? && Granting(t[j].pc) && t[j].pc.req == t[i].req
    && Inside(t, i, j)
  }

  /** A reconcile of the request failed, or was cut short, after creating a binding and before writing Succeeded. */
  ghost predicate AbortedGrant(t: Trace, uid: nat) {
    exists i, j :: AbortedAt(t, i, j, uid)
  }

  lemma AbortedGrows(t: Trace, more: Trace, uid: nat)
    requires AbortedGrant(t, uid)
    ensures AbortedGrant(t + more, uid)
  {
    var i, j :| AbortedAt(t, i, j, uid);
    assert AbortedAt(t + more, i, j, uid);
  }

  lemma OngoingGrows(t: Trace, more: Trace, req: Request)
    requires Ongoing(t, req)
    requires forall e | e in more :: e.Granted? || e.Transitioned?
    ensures Ongoing(t + more, req)
  {
    var i :| 0 <= i < |t| && OngoingFrom(t, i, req);
    forall k | i < k < |t + more| ensures (t + more)[k].Granted? || (t + more)[k].Transitioned? {
      if k >= |t| {
        assert (t + more)[k] in more;
      }
    }
    assert OngoingFrom(t + more, i, req);
  }

  lemma OngoingAborts(t: Trace, more: Trace, pc: Pc)
    requires Granting(pc) && Ongoing(t, pc.req)
    requires forall e | e in more :: e.Granted? || e.Transitioned?
    ensures AbortedGrant(t + (more + [Failed(pc)]), pc.req.uid)
  {
    OngoingGrows(t, more, pc.req);
    var i :| 0 <= i < |t + more| && OngoingFrom(t + more, i, pc.req);
    var t' := t + (more + [Failed(pc)]);
    assert t' == t + more + [Failed(pc)];
    assert AbortedAt(t', i, |t + more|, pc.req.uid);
  }

  /** What may be bound: nothing new, nothing rejected without a fault in the window. */
  ghost predicate BoundOk(t: Trace, pc: Pc, r: Request) {
    match r.status.phase
    case New => false
    case PreApproved => AbortedGrant(t, r.uid) || (Granting(pc) && pc.req.uid == r.uid && Ongoing(t, pc.req))
    case Succeeded => true
    case Rejected => AbortedGrant(t, r.uid)
    case Other(_) => false
  }

  predicate Bound(w: World, key: BindingKey, name: string) {
    key in w.bindings && name in w.requests && OwnedBy(w.bindings[key], w.requests[name].uid)
  }

  ghost predicate WindowInv(s: State, t: Trace) {
    forall key, n | Bound(s.world, key, n) :: BoundOk(t, s.pc, s.world.requests[n])
  }

  lemma EnvKeepsBound(w: World, e: EnvStep, key: BindingKey, n: string)
    requires EnvEnabled(w, e) && WorldOk(w) && Bound(EnvApply(w, e), key, n)
    ensures Bound(w, key, n) && EnvApply(w, e).requests[n].status == w.requests[n].status
    ensures EnvApply(w, e).requests[n].uid == w.requests[n].uid
  {
    EnvAddsNoBinding(w, e, key);
    EnvExtends(w, e);
    assert RecordExtends(w, EnvApply(w, e), n);
    assert BindingOk(w, key);
  }

  lemma EnvKeepsWindowInv(s: State, e: EnvStep, t: Trace)
    requires Inv(s) && WindowInv(s, t) && EnvEnabled(s.world, e)
    ensures WindowInv(State(EnvApply(s.world, e), s.pc), t)
  {
    forall key, n | Bound(EnvApply(s.world, e), key, n) ensures BoundOk(t, s.pc, EnvApply(s.world, e).requests[n]) {
      EnvKeepsBound(s.world, e, key, n);
      assert BoundOk(t, s.pc, s.world.requests[n]);
    }
  }

  /** The window stays open, or its end is recorded. */
  lemma WindowAdvances(s: State, outcome: Outcome, hint: Hint, t: Trace)
    requires Inv(s) && Granting(s.pc) && Ongoing(t, s.pc.req)
    requires !(s.pc.Write? && WriteTakesEffect(s.world, s.pc.req, outcome))
    ensures var next := Answer(s, outcome, hint).pc; var t' := t + AnswerEntries(s, outcome, hint);
            AbortedGrant(t', s.pc.req.uid) || (Granting(next) && next.req == s.pc.req && Ongoing(t', s.pc.req))
  {
    var next := Answer(s, outcome, hint).pc;
    var effect := Effect(s.world, s.pc, outcome, hint);
    if next.Finished? {
      assert AnswerEntries(s, outcome, hint) == effect + [Failed(s.pc)];
      OngoingAborts(t, effect, s.pc);
    } else {
      assert AnswerEntries(s, outcome, hint) == effect;
      OngoingGrows(t, effect, s.pc.req);
    }
  }

  lemma NewBindingOpensWindow(s: State, outcome: Outcome, hint: Hint, t: Trace)
    requires Inv(s) && s.pc.Bind? && BindTakesEffect(s.world, s.pc.req, s.pc.index, outcome)
    ensures var next := Answer(s, outcome, hint).pc; var t' := t + AnswerEntries(s, outcome, hint);
            AbortedGrant(t', s.pc.req.uid) || (Granting(next) && next.req == s.pc.req && Ongoing(t', s.pc.req))
  {
    var grant := Granted(s.pc.req, s.pc.req.spec.namespaces[s.pc.index]);
    var t1 := t + [grant];
    assert OngoingFrom(t1, |t|, s.pc.req);
    if Answer(s, outcome, hint).pc.Finished? {
      OngoingAborts(t1, [], s.pc);
      assert t1 + ([] + [Failed(s.pc)]) == t + AnswerEntries(s, outcome, hint);
    } else {
      assert t + AnswerEntries(s, outcome, hint) == t1;
    }
  }

  /** A record the answer leaves alone. */
  lemma KeptRecordStaysOk(s: State, outcome: Outcome, hint: Hint, t: Trace, r: Request)
    requires Inv(s) && InCall(s.pc) && BoundOk(t, s.pc, r)
    requires !(s.pc.Write? && WriteTakesEffect(s.world, s.pc.req, outcome) && r.uid == s.pc.req.uid)
    ensures BoundOk(t + AnswerEntries(s, outcome, hint), Answer(s, outcome, hint).pc, r)
  {
    if AbortedGrant(t, r.uid) {
      AbortedGrows(t, AnswerEntries(s, outcome, hint), r.uid);
    } else if r.status.phase == PreApproved {
      WindowAdvances(s, outcome, hint, t);
    }
  }

  lemma SameUidSameName(w: World, a: string, b: string)
    requires RecordsOk(w) && a in w.requests && b in w.requests && w.requests[a].uid == w.requests[b].uid
    ensures a == b
  {
    assert RecordOk(w, a) && RecordOk(w, b);
  }

  lemma BindKeepsWindowInv(s: State, outcome: Outcome, hint: Hint, t: Trace, key: BindingKey, n: string)
    requires Inv(s) && WindowInv(s, t) && s.pc.Bind? && HintOk(s.world, s.pc, hint)
    requires Bound(Answer(s, outcome, hint).world, key, n)
    ensures BoundOk(t + AnswerEntries(s, outcome, hint), Answer(s, outcome, hint).pc, s.world.requests[n])
  {
    if key in s.world.bindings {
      assert Bound(s.world, key, n);
      KeptRecordStaysOk(s, outcome, hint, t, s.world.requests[n]);
    } else {
      NewBindingOpensWindow(s, outcome, hint, t);
      assert RecordOk(s.world, n);
    }
  }

  lemma WriteKeepsWindowInv(s: State, outcome: Outcome, hint: Hint, t: Trace, key: BindingKey, n: string)
    requires Inv(s) && WindowInv(s, t) && s.pc.Write? && Bound(Answer(s, outcome, hint).world, key, n)
    ensures BoundOk(t + AnswerEntries(s, outcome, hint), Answer(s, outcome, hint).pc,
                    Answer(s, outcome, hint).world.requests[n])
  {
    assert Bound(s.world, key, n);
    assert BoundOk(t, s.pc, s.world.requests[n]);
    if Live(s.world, s.pc.req) && s.world.requests[n].uid == s.pc.req.uid {
      SameUidSameName(s.world, n, s.pc.req.name);
    }
    if WriteTakesEffect(s.world, s.pc.req, outcome) && n == s.pc.req.name {
      if s.pc.after == ThenReturn {
        AbortedGrows(t, AnswerEntries(s, outcome, hint), s.pc.req.uid);
      }
    } else {
      KeptRecordStaysOk(s, outcome, hint, t, s.world.requests[n]);
    }
  }

  lemma AnswerKeepsWindowInv(s: State, outcome: Outcome, hint: Hint, t: Trace)
    requires Inv(s) && WindowInv(s, t) && InCall(s.pc) && HintOk(s.world, s.pc, hint)
    ensures WindowInv(Answer(s, outcome, hint), t + AnswerEntries(s, outcome, hint))
  {
    var next := Answer(s, outcome, hint);
    forall key, n | Bound(next.world, key, n)
      ensures BoundOk(t + AnswerEntries(s, outcome, hint), next.pc, next.world.requests[n])
    {
      if s.pc.Bind? {
        BindKeepsWindowInv(s, outcome, hint, t, key, n);
      } else if s.pc.Write? {
        WriteKeepsWindowInv(s, outcome, hint, t, key, n);
      } else {
        CallKeepsBindings(s.world, s.pc, outcome, hint);
        CallKeepsStatuses(s.world, s.pc, outcome, hint);
        assert Bound(s.world, key, n);
        KeptRecordStaysOk(s, outcome, hint, t, s.world.requests[n]);
      }
    }
  }

  lemma RestartKeepsWindowInv(s: State, t: Trace)
    requires Inv(s) && WindowInv(s, t)
    ensures WindowInv(Apply(s, Restart), t + Entries(s, Restart))
  {
    forall key, n | Bound(RestartWorld(s.world), key, n)
      ensures BoundOk(t + Entries(s, Restart), Idle, s.world.requests[n])
    {
      var r := s.world.requests[n];
      assert Bound(s.world, key, n);
      if AbortedGrant(t, r.uid) {
        AbortedGrows(t, Entries(s, Restart), r.uid);
      } else if r.status.phase == PreApproved {
        OngoingAborts(t, [], s.pc);
        assert Entries(s, Restart) == [] + [Failed(s.pc)];
      }
    }
  }

  /** Outside the window the program point does not matter. */
  lemma QuietKeepsWindowInv(s: State, next: State, t: Trace)
    requires WindowInv(s, t) && !Granting(s.pc)
    requires next.world.requests == s.world.requests && next.world.bindings == s.world.bindings
    ensures WindowInv(next, t)
  {
    forall key, n | Bound(next.world, key, n) ensures BoundOk(t, next.pc, next.world.requests[n]) {
      assert Bound(s.world, key, n);
    }
  }

  lemma StepKeepsWindowInv(s: State, step: Step, t: Trace)
    requires Inv(s) && WindowInv(s, t)
    ensures WindowInv(Apply(s, step), t + Entries(s, step))
  {
    assert t + [] == t;
    if Enabled(s, step) {
      match step
      case Env(e) => EnvKeepsWindowInv(s, e, t);
      case Respond(outcome, hint) => AnswerKeepsWindowInv(s, outcome, hint, t);
      case Pop(_) => QuietKeepsWindowInv(s, Apply(s, step), t);
      case Settle => QuietKeepsWindowInv(s, Apply(s, step), t);
      case Restart => RestartKeepsWindowInv(s, t);
    }
  }

  lemma {:induction false} WindowInvHolds(s: State, steps: seq<Step>)
    requires Init(s)
    ensures Inv(Run(s, steps)) && WindowInv(Run(s, steps), TraceOf(s, steps))
  {
    if steps == [] {
      InitInv(s);
    } else {
      var n := |steps| - 1;
      WindowInvHolds(s, steps[..n]);
      StepKeepsInv(Run(s, steps[..n]), steps[n]);
      StepKeepsWindowInv(Run(s, steps[..n]), steps[n], TraceOf(s, steps[..n]));
    }
  }

  /**
   Rejected and bound exclude each other up to one fault window: a rejected request owns a binding
   only if an earlier reconcile of it broke off after creating one and before writing Succeeded.
   */
  lemma RejectedAndBoundOnlyAfterAbort(s: State, steps: seq<Step>, key: BindingKey, name: string)
    requires Init(s) && Bound(Run(s, steps).world, key, name)
    requires Run(s, steps).world.requests[name].status.phase == Rejected
    ensures AbortedGrant(TraceOf(s, steps), Run(s, steps).world.requests[name].uid)
  {
    WindowInvHolds(s, steps);
  }

  /**
   Without such a fault, whoever owns a binding is Succeeded, is being granted right now, or is no
   longer stored and its bindings are garbage.
   */
  lemma BoundWithoutAbort(s: State, steps: seq<Step>, key: BindingKey, uid: nat)
    requires Init(s) && !AbortedGrant(TraceOf(s, steps), uid)
    requires var w := Run(s, steps).world; key in w.bindings && OwnedBy(w.bindings[key], uid)
    ensures var end := Run(s, steps);
            || Garbage(end.world, key)
            || (exists n | n in end.world.requests :: end.world.requests[n].uid == uid
                  && (|| end.world.requests[n].status.phase == Succeeded
                      || (&& end.world.requests[n].status.phase == PreApproved
                          && Granting(end.pc) && end.pc.req.uid == uid)))
  {
    WindowInvHolds(s, steps);
    var end := Run(s, steps);
    if n :| n in end.world.requests && end.world.requests[n].uid == uid {
      assert Bound(end.world, key, n);
    } else {
      assert BindingOk(end.world, key);
    }
  }

  // Deleted requests

  /** The uid was given to a request that is gone, and no reconcile holds a copy of it. */
  predicate Dead(s: State, uid: nat) {
    uid in s.world.names && !UidStored(s.world, uid) && !PcFor(s.pc, uid)
  }

  lemma AnswerStoresNoUid(w: World, pc: Pc, outcome: Outcome, hint: Hint, uid: nat)
    requires !UidStored(w, uid)
    ensures !UidStored(Perform(w, pc, outcome, hint).0, uid)
  {
    if !pc.Write? {
      CallKeepsStatuses(w, pc, outcome, hint);
    }
  }

  lemma EnvStoresNoDeadUid(w: World, e: EnvStep, uid: nat)
    requires EnvEnabled(w, e) && uid in w.names && !UidStored(w, uid)
    ensures uid in EnvApply(w, e).names && !UidStored(EnvApply(w, e), uid)
  {
  }

  lemma NextKeepsUid(pc: Pc, r: Resp, uid: nat)
    requires !PcFor(pc, uid) && InCall(pc)
    requires pc.Fetch? && r.Got? ==> r.req.uid != uid
    ensures !PcFor(Next(pc, r), uid)
  {
  }

  lemma CallKeepsNames(w: World, pc: Pc, outcome: Outcome, hint: Hint)
    ensures Perform(w, pc, outcome, hint).0.names == w.names
  {
  }

  lemma AnswerKeepsDead(s: State, outcome: Outcome, hint: Hint, uid: nat)
    requires Dead(s, uid) && InCall(s.pc)
    ensures Dead(Answer(s, outcome, hint), uid)
  {
    AnswerStoresNoUid(s.world, s.pc, outcome, hint, uid);
    CallKeepsNames(s.world, s.pc, outcome, hint);
    NextKeepsUid(s.pc, Perform(s.world, s.pc, outcome, hint).1, uid);
  }

  lemma StepKeepsDead(s: State, step: Step, uid: nat)
    requires Dead(s, uid)
    ensures Dead(Apply(s, step), uid)
  {
    if Enabled(s, step) {
      if step.Env? {
        EnvStoresNoDeadUid(s.world, step.e, uid);
      } else if step.Respond? {
        AnswerKeepsDead(s, step.outcome, step.hint, uid);
      } else {
        OtherStepsKeepRecords(s, step);
      }
    }
  }

  lemma DeadGainsNoBinding(s: State, step: Step, uid: nat, key: BindingKey)
    requires Dead(s, uid) && key in Apply(s, step).world.bindings
    requires OwnedBy(Apply(s, step).world.bindings[key], uid)
    ensures key in s.world.bindings && s.world.bindings[key] == Apply(s, step).world.bindings[key]
    ensures step != Env(Collect(key)) || !Enabled(s, step)
  {
    if !SameBinding(s.world, Apply(s, step).world, key) {
      NewBindingIsGranted(s, step, key);
    }
  }

  predicate OwnedIn(w: World, key: BindingKey, uid: nat) {
    key in w.bindings && OwnedBy(w.bindings[key], uid)
  }

  /**
   Once a request is deleted and no reconcile holds it, its bindings only ever shrink in number,
   in any further run, and each one collected in the run is gone for good.
   */
  lemma {:induction false} CollectionClears(s: State, steps: seq<Step>, uid: nat, key: BindingKey)
    requires Inv(s) && Dead(s, uid)
    requires OwnedIn(Run(s, steps).world, key, uid)
    ensures Inv(Run(s, steps)) && Dead(Run(s, steps), uid)
    ensures OwnedIn(s.world, key, uid)
    ensures Env(Collect(key)) !in steps
  {
    DeadForever(s, steps, uid);
    if steps != [] {
      var n := |steps| - 1;
      DeadForever(s, steps[..n], uid);
      var t := Run(s, steps[..n]);
      DeadGainsNoBinding(t, steps[n], uid, key);
      CollectionClears(s, steps[..n], uid, key);
      assert BindingOk(t.world, key);
      assert steps == steps[..n] + [steps[n]];
    }
  }

  lemma {:induction false} DeadForever(s: State, steps: seq<Step>, uid: nat)
    requires Inv(s) && Dead(s, uid)
    ensures Inv(Run(s, steps)) && Dead(Run(s, steps), uid)
  {
    if steps != [] {
      var n := |steps| - 1;
      DeadForever(s, steps[..n], uid);
      StepKeepsInv(Run(s, steps[..n]), steps[n]);
      StepKeepsDead(Run(s, steps[..n]), steps[n], uid);
    }
  }
}
