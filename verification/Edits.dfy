/**
 What becomes of the spec between the checks and the grant. The checks run once, on the spec as it
 was when the request was new; access is granted on the spec as it is later. Each version of a
 record carries the spec of the latest edit before it, so the versions say exactly which edits came
 in between.
 */
module Edits {
  import opened Types
  import opened Payload
  import opened Machine
  import opened Invariants
  import opened History
  import opened Grants
  import opened Tickets
  import opened Expiry

  /** The spec a step gives to the request numbered `uid`, by creating or by editing it. */
  ghost function StepSpecs(s: State, step: Step, uid: nat): seq<Spec> {
    if !step.Env? || !Enabled(s, step) then []
    else match step.e
      case CreateRequest(_, u, spec) => if u == uid then [spec] else []
      case EditSpec(name, spec) => if s.world.requests[name].uid == uid then [spec] else []
      case _ => []
  }

  /** The specs the request has had in a run, in order: as created, then one for each edit. */
  ghost function Specs(s: State, steps: seq<Step>, uid: nat): seq<Spec> {
    if steps == [] then []
    else
      var n := |steps| - 1;
      Specs(s, steps[..n], uid) + StepSpecs(Run(s, steps[..n]), steps[n], uid)
  }

  /** A new record carries the spec of its version; pre-approving it added a version of its own. */
  predicate SpecAt(r: Request, specs: seq<Spec>) {
    match r.status.phase
    case New => r.version < |specs| && r.spec == specs[r.version]
    case PreApproved => 1 <= r.version <= |specs| && r.spec == specs[r.version - 1]
    case _ => true
  }

  predicate Newest(r: Request, specs: seq<Spec>) {
    match r.status.phase
    case New => r.version + 1 == |specs|
    case PreApproved => r.version == |specs|
    case _ => true
  }

  predicate Shows(e: Entry, uid: nat) {
    (e.Fetched? || e.Granted?) && e.req.uid == uid
  }

  predicate TraceSpecs(t: Trace, specs: seq<Spec>, uid: nat) {
    forall i | 0 <= i < |t| && Shows(t[i], uid) :: SpecAt(t[i].req, specs)
  }

  predicate StoredSpecs(w: World, specs: seq<Spec>, uid: nat) {
    && (uid !in w.names ==> specs == [])
    && forall n | n in w.requests && w.requests[n].uid == uid ::
         SpecAt(w.requests[n], specs) && Newest(w.requests[n], specs)
  }

  ghost predicate SpecInv(s: State, t: Trace, specs: seq<Spec>, uid: nat) {
    && StoredSpecs(s.world, specs, uid) && TraceSpecs(t, specs, uid)
    && (PcFor(s.pc, uid) ==> SpecAt(s.pc.req, specs))
  }

  lemma TraceSpecsGrow(t: Trace, more: Trace, specs: seq<Spec>, further: seq<Spec>, uid: nat)
    requires TraceSpecs(t, specs, uid)
    requires forall e | e in more && Shows(e, uid) :: SpecAt(e.req, specs + further)
    ensures TraceSpecs(t + more, specs + further, uid)
  {
    forall i | 0 <= i < |t + more| && Shows((t + more)[i], uid) ensures SpecAt((t + more)[i].req, specs + further) {
      if i >= |t| {
        assert (t + more)[i] in more;
      }
    }
  }

  lemma EnvKeepsStoredSpecs(s: State, e: EnvStep, specs: seq<Spec>, uid: nat)
    requires Inv(s) && EnvEnabled(s.world, e) && StoredSpecs(s.world, specs, uid)
    ensures StoredSpecs(EnvApply(s.world, e), specs + StepSpecs(s, Env(e), uid), uid)
  {
    var w, next := s.world, EnvApply(s.world, e);
    EnvExtends(w, e);
    assert specs + [] == specs;
    forall n | n in next.requests && next.requests[n].uid == uid
      ensures SpecAt(next.requests[n], specs + StepSpecs(s, Env(e), uid))
           && Newest(next.requests[n], specs + StepSpecs(s, Env(e), uid))
    {
      if e.CreateRequest? && e.uid == uid {
        assert n in w.requests ==> RecordOk(w, n);
      } else if e.EditSpec? {
        assert RecordOk(w, n) && RecordOk(w, e.name);
      } else {
        assert n in w.requests && w.requests[n] == next.requests[n];
      }
    }
    if e.EditSpec? {
      assert RecordOk(w, e.name);
    }
  }

  lemma EnvKeepsSpecInv(s: State, e: EnvStep, t: Trace, specs: seq<Spec>, uid: nat)
    requires Inv(s) && EnvEnabled(s.world, e) && SpecInv(s, t, specs, uid)
    ensures SpecInv(State(EnvApply(s.world, e), s.pc), t, specs + StepSpecs(s, Env(e), uid), uid)
  {
    EnvKeepsStoredSpecs(s, e, specs, uid);
    TraceSpecsGrow(t, [], specs, StepSpecs(s, Env(e), uid), uid);
    assert t + [] == t;
  }

  lemma WriteKeepsStoredSpecs(s: State, outcome: Outcome, specs: seq<Spec>, uid: nat)
    requires Inv(s) && s.pc.Write? && StoredSpecs(s.world, specs, uid)
    ensures StoredSpecs(WriteStatus(s.world, s.pc.req, s.pc.status, outcome).0, specs, uid)
  {
    var next := WriteStatus(s.world, s.pc.req, s.pc.status, outcome).0;
    forall n | n in next.requests && next.requests[n].uid == uid
      ensures SpecAt(next.requests[n], specs) && Newest(next.requests[n], specs)
    {
      assert n in s.world.requests && s.world.requests[n].uid == uid;
      if next.requests[n] != s.world.requests[n] {
        assert s.pc.req == s.world.requests[n] && next.requests[n] == Written(s.pc.req, s.pc.status);
      }
    }
  }

  lemma CallKeepsStoredSpecs(s: State, outcome: Outcome, hint: Hint, specs: seq<Spec>, uid: nat)
    requires Inv(s) && StoredSpecs(s.world, specs, uid)
    ensures StoredSpecs(Perform(s.world, s.pc, outcome, hint).0, specs, uid)
  {
    CallKeepsNames(s.world, s.pc, outcome, hint);
    if s.pc.Write? {
      WriteKeepsStoredSpecs(s, outcome, specs, uid);
    } else {
      CallKeepsStatuses(s.world, s.pc, outcome, hint);
    }
  }

  lemma NextKeepsSpec(pc: Pc, r: Resp, specs: seq<Spec>, uid: nat)
    requires HasReq(pc) && PcFor(Next(pc, r), uid)
    requires PcFor(pc, uid) ==> SpecAt(pc.req, specs)
    requires pc.Write? ==> WriteShape(pc.req, pc.status, pc.after)
    ensures SpecAt(Next(pc, r).req, specs)
  {
  }

  lemma EntriesShow(s: State, outcome: Outcome, hint: Hint, specs: seq<Spec>, uid: nat)
    requires InCall(s.pc) && StoredSpecs(s.world, specs, uid)
    requires PcFor(s.pc, uid) ==> SpecAt(s.pc.req, specs)
    ensures forall e | e in AnswerEntries(s, outcome, hint) && Shows(e, uid) :: SpecAt(e.req, specs)
  {
  }

  lemma AnswerKeepsSpecInv(s: State, outcome: Outcome, hint: Hint, t: Trace, specs: seq<Spec>, uid: nat)
    requires Inv(s) && InCall(s.pc) && SpecInv(s, t, specs, uid)
    ensures SpecInv(Answer(s, outcome, hint), t + AnswerEntries(s, outcome, hint), specs, uid)
  {
    CallKeepsStoredSpecs(s, outcome, hint, specs, uid);
    EntriesShow(s, outcome, hint, specs, uid);
    assert specs + [] == specs;
    TraceSpecsGrow(t, AnswerEntries(s, outcome, hint), specs, [], uid);
    if HasReq(s.pc) && PcFor(Answer(s, outcome, hint).pc, uid) {
      NextKeepsSpec(s.pc, Perform(s.world, s.pc, outcome, hint).1, specs, uid);
    }
  }

  lemma RestartKeepsSpecInv(s: State, t: Trace, specs: seq<Spec>, uid: nat)
    requires SpecInv(s, t, specs, uid)
    ensures SpecInv(Apply(s, Restart), t + Entries(s, Restart), specs, uid)
  {
    assert specs + [] == specs;
    TraceSpecsGrow(t, Entries(s, Restart), specs, [], uid);
  }

  lemma StepKeepsSpecInv(s: State, step: Step, t: Trace, specs: seq<Spec>, uid: nat)
    requires Inv(s) && SpecInv(s, t, specs, uid)
    ensures SpecInv(Apply(s, step), t + Entries(s, step), specs + StepSpecs(s, step, uid), uid)
  {
    assert t + [] == t && specs + [] == specs;
    if Enabled(s, step) {
      match step
      case Env(e) => EnvKeepsSpecInv(s, e, t, specs, uid);
      case Respond(outcome, hint) => AnswerKeepsSpecInv(s, outcome, hint, t, specs, uid);
      case Restart => RestartKeepsSpecInv(s, t, specs, uid);
      case _ => OtherStepsKeepRecords(s, step);
    }
  }

  lemma {:induction false} SpecInvHolds(s: State, steps: seq<Step>, uid: nat)
    requires Init(s)
    ensures Inv(Run(s, steps)) && SpecInv(Run(s, steps), TraceOf(s, steps), Specs(s, steps, uid), uid)
  {
    if steps == [] {
      InitInv(s);
    } else {
      var n := |steps| - 1;
      SpecInvHolds(s, steps[..n], uid);
      StepKeepsInv(Run(s, steps[..n]), steps[n]);
      StepKeepsSpecInv(Run(s, steps[..n]), steps[n], TraceOf(s, steps[..n]), Specs(s, steps[..n], uid), uid);
    }
  }

  /**
   The specs of the edits that took effect between two copies of the request, the first read when it
   was new, the second when it was Pre-Approved.
   */
  function EditsBetween(vetted: Request, granted: Request, specs: seq<Spec>): seq<Spec>
    requires vetted.version < granted.version <= |specs|
  {
    specs[vetted.version + 1..granted.version]
  }

  /** The spec after those edits. */
  function LastOf(spec: Spec, edits: seq<Spec>): Spec {
    if edits == [] then spec else edits[|edits| - 1]
  }

  /** Everything that was checked, of a spec: role, fields, labels, pattern; and its fields are in the ticket. */
  ghost predicate CheckedAs(t: Trace, p: int, granted: Request, w: World)
    requires VettedAt(t, p, granted.uid, granted.status.ticket)
  {
    && ChecksHold(granted, t[p - 4].cfg, t[p - 2], t[p - 1])
    && granted.status.ticket.key in w.tickets
    && PayloadOk(t[p - 4].cfg, granted.spec, w.tickets[granted.status.ticket.key].fields)
    && (DistinctIds(t[p - 4].cfg) ==>
          FieldsSent(t[p - 4].cfg, granted.spec, w.tickets[granted.status.ticket.key].fields))
  }

  lemma EarlierVet(t: Trace, i: int, granted: Request) returns (p: int)
    requires Justified(t, i, granted)
    ensures 5 <= p <= i <= |t| && VettedBefore(t, p, granted)
  {
    var cfg, b :| JustifiedAt(t, i, granted, cfg, b);
    p :| 5 <= p <= |t[..b]| && VettedBefore(t[..b], p, granted);
    assert forall k | 0 <= k < p :: t[..b][k] == t[k];
  }

  lemma VersionsTell(vetted: Request, granted: Request, specs: seq<Spec>)
    requires vetted.status.phase == New && granted.status.phase == PreApproved && Descends(vetted, granted)
    requires SpecAt(vetted, specs) && SpecAt(granted, specs)
    ensures vetted.version < granted.version <= |specs|
    ensures granted.spec == LastOf(vetted.spec, EditsBetween(vetted, granted, specs))
  {
  }

  lemma CheckedWhenEqual(t: Trace, p: int, granted: Request, w: World)
    requires VettedAt(t, p, granted.uid, granted.status.ticket) && granted.spec == t[p - 5].req.spec
    requires Kept(w, t[p - 3])
    ensures CheckedAs(t, p, granted, w)
  {
    if DistinctIds(t[p - 4].cfg) {
      PayloadCovers(t[p - 4].cfg, granted.spec, w.tickets[granted.status.ticket.key].fields);
    }
  }

  lemma ShownSpecs(s: State, steps: seq<Step>, uid: nat, i: nat)
    requires Init(s) && i < |TraceOf(s, steps)| && Shows(TraceOf(s, steps)[i], uid)
    ensures SpecAt(TraceOf(s, steps)[i].req, Specs(s, steps, uid))
  {
    SpecInvHolds(s, steps, uid);
  }

  /**
   What is granted is what was checked, up to edits. For every binding ever created there is the
   reconcile that vetted the request, and the granted spec is the vetted one after exactly the edits
   that took effect in between. Without such edits the granted role, namespaces and fields are those
   that passed every check and are in the ticket; the two specs differ exactly if there were edits
   and the last of them set another spec.
   */
  lemma GrantedAsVetted(s: State, steps: seq<Step>, i: nat) returns (p: int)
    requires Init(s) && i < |TraceOf(s, steps)| && TraceOf(s, steps)[i].Granted?
    ensures var t := TraceOf(s, steps); var granted := t[i].req; var specs := Specs(s, steps, granted.uid);
            && 5 <= p <= i && VettedAt(t, p, granted.uid, granted.status.ticket)
            && var vetted := t[p - 5].req;
            && vetted.version < granted.version <= |specs|
            && var edits := EditsBetween(vetted, granted, specs);
            && granted.spec == LastOf(vetted.spec, edits)
            && (edits == [] ==> granted.spec == vetted.spec && CheckedAs(t, p, granted, Run(s, steps).world))
            && (granted.spec != vetted.spec <==> edits != [] && edits[|edits| - 1] != vetted.spec)
  {
    var t, granted := TraceOf(s, steps), TraceOf(s, steps)[i].req;
    GrantSafety(s, steps, i);
    p := EarlierVet(t, i, granted);
    ShownSpecs(s, steps, granted.uid, i);
    ShownSpecs(s, steps, granted.uid, p - 5);
    VersionsTell(t[p - 5].req, granted, Specs(s, steps, granted.uid));
    TicketsAreKept(s, steps, p - 3);
    if granted.spec == t[p - 5].req.spec {
      CheckedWhenEqual(t, p, granted, Run(s, steps).world);
    }
  }

  /** A request that is never edited is granted exactly as it was checked. */
  lemma UneditedGrantIsChecked(s: State, steps: seq<Step>, i: nat) returns (p: int)
    requires Init(s) && i < |TraceOf(s, steps)| && TraceOf(s, steps)[i].Granted?
    requires |Specs(s, steps, TraceOf(s, steps)[i].req.uid)| <= 1
    ensures var t := TraceOf(s, steps); var granted := t[i].req;
            && 5 <= p <= i && VettedAt(t, p, granted.uid, granted.status.ticket)
            && granted.spec == t[p - 5].req.spec && CheckedAs(t, p, granted, Run(s, steps).world)
  {
    p := GrantedAsVetted(s, steps, i);
  }
}
