/**
 The admission webhook, and how its verdict relates to what the controller does with the request
 afterwards.
 */
module Admission {
  import opened Types
  import opened Validation
  import opened Machine
  import opened Invariants
  import opened Progress

  /** Which check refuses a spec; the two field checks name the field. */
  datatype Reason =
    | BadClusterRole
    | BadStartTime
    | BadEndTime
    | PatternRefuses(namespace: string)
    | LabelsRefuse(namespaces: seq<string>)
    | NoCustomField(field: string)
    | UnknownReporter
    | UnknownUser(field: string)
    | SelfApproval(field: string)

  datatype Verdict = Admitted | Refused(reason: Reason) | Unreadable     // Unreadable: no configuration

  predicate UserField(cfg: Config, field: string) {
    field in cfg.customFields && cfg.customFields[field].kind == "user"
  }

  predicate UserKnown(w: World, spec: Spec, field: string) {
    field in spec.jiraFields && spec.jiraFields[field] != "" && spec.jiraFields[field] in w.users
  }

  predicate NotReporter(w: World, spec: Spec, cfg: Config, field: string)
    requires spec.reporter in w.users && UserKnown(w, spec, field)
  {
    cfg.selfApprovalEnabled || w.users[spec.reporter] != w.users[spec.jiraFields[field]]
  }

  predicate UsersOk(w: World, spec: Spec, cfg: Config) {
    && spec.reporter in w.users
    && forall f | f in cfg.customFields && UserField(cfg, f) :: UserKnown(w, spec, f) && NotReporter(w, spec, cfg, f)
  }

  predicate TimesOk(w: World, spec: Spec) {
    w.now < spec.startTime < spec.endTime
  }

  /** What the webhook demands of a spec. */
  predicate Admissible(w: World, spec: Spec, cfg: Config) {
    && spec.clusterRole in cfg.allowedClusterRoles
    && w.now < spec.startTime < spec.endTime
    && (w.regex.None? || forall ns | ns in spec.namespaces :: w.regex.value(ns))
    && (|| spec.namespaceLabels == map[]
        || forall ns | ns in spec.namespaces ::
             ns in w.namespaces && spec.namespaceLabels.Items <= w.namespaces[ns].Items)
    && (forall f | f in cfg.customFields :: f in spec.jiraFields)
    && spec.reporter in w.users
    && forall f | f in cfg.customFields && cfg.customFields[f].kind == "user" ::
         && spec.jiraFields[f] != "" && spec.jiraFields[f] in w.users
         && (!cfg.selfApprovalEnabled ==> w.users[spec.jiraFields[f]] != w.users[spec.reporter])
  }

  /** The position of a check in the webhook's order. */
  function Stage(reason: Reason): nat {
    match reason
    case BadClusterRole => 0
    case BadStartTime => 1
    case BadEndTime => 2
    case PatternRefuses(_) => 3
    case LabelsRefuse(_) => 4
    case NoCustomField(_) => 5
    case UnknownReporter => 6
    case UnknownUser(_) => 7
    case SelfApproval(_) => 7
  }

  /** The check at each position, as the webhook makes it. */
  predicate Passes(w: World, spec: Spec, cfg: Config, stage: nat) {
    match stage
    case 0 => spec.clusterRole in cfg.allowedClusterRoles
    case 1 => w.now < spec.startTime
    case 2 => spec.startTime < spec.endTime
    case 3 => RegexAccepts(w.regex, spec.namespaces)
    case 4 => LabelsAccept(w.namespaces, spec)
    case 5 => MissingFields(cfg, spec) == {}
    case 6 => spec.reporter in w.users
    case _ => UsersOk(w, spec, cfg)
  }

  predicate PassesBefore(w: World, spec: Spec, cfg: Config, stage: nat) {
    forall k | 0 <= k < stage :: Passes(w, spec, cfg, k)
  }

  /** The details a refusal carries are those of a real violation. */
  predicate DetailOk(w: World, spec: Spec, cfg: Config, reason: Reason) {
    match reason
    case BadClusterRole => spec.clusterRole !in cfg.allowedClusterRoles
    case BadStartTime => spec.startTime <= w.now
    case BadEndTime => spec.endTime <= spec.startTime
    case PatternRefuses(ns) => FirstRefused(w.regex, spec.namespaces) == Some(ns)
    case LabelsRefuse(bad) => bad == Unmatched(spec.namespaces, Matching(w.namespaces, spec.namespaceLabels))
    case NoCustomField(f) => f in cfg.customFields && f !in spec.jiraFields
    case UnknownReporter => spec.reporter !in w.users
    case UnknownUser(f) =>
      && f in cfg.customFields && cfg.customFields[f].kind == "user" && f in spec.jiraFields
      && (spec.jiraFields[f] == "" || spec.jiraFields[f] !in w.users)
    case SelfApproval(f) => ApprovesOwn(w, spec, cfg, f)
  }

  /** The user given for the field is the reporter, and that is not allowed. */
  predicate ApprovesOwn(w: World, spec: Spec, cfg: Config, field: string) {
    && !cfg.selfApprovalEnabled && field in cfg.customFields && cfg.customFields[field].kind == "user"
    && field in spec.jiraFields && spec.jiraFields[field] in w.users && spec.reporter in w.users
    && w.users[spec.jiraFields[field]] == w.users[spec.reporter]
  }

  /** A refusal names the first check in the webhook's order that fails, and why it fails. */
  predicate ReasonOk(w: World, spec: Spec, cfg: Config, reason: Reason) {
    && PassesBefore(w, spec, cfg, Stage(reason))
    && !Passes(w, spec, cfg, Stage(reason))
    && DetailOk(w, spec, cfg, reason)
  }

  /** The first Jira account found for an e-mail. An unreliable call may find nothing. */
  method GetNameByEmail(users: map<string, string>, email: string, reliable: bool) returns (name: Option<string>)
    ensures name.Some? ==> email in users && name.value == users[email]
    ensures reliable && email in users ==> name.Some?
  {
    var fault: bool := *;
    return if email in users && (reliable || !fault) then Some(users[email]) else None;
  }

  /** The names of the namespaces with the given labels, in whatever order the server lists them. */
  method ListNamespaces(cluster: map<string, map<string, string>>, selector: map<string, string>, reliable: bool)
    returns (listing: Option<seq<string>>)
    ensures reliable ==> listing.Some?
    ensures listing.Some? ==> (set ns | ns in listing.value) == Matching(cluster, selector)
    ensures listing.Some? ==>
              forall ns :: ns in listing.value <==> ns in cluster && selector.Items <= cluster[ns].Items
  {
    var fault: bool := *;
    if fault && !reliable {
      return None;
    }
    var todo, names: seq<string> := Matching(cluster, selector), [];
    while todo != {}
      invariant (set ns | ns in names) + todo == Matching(cluster, selector)
    {
      var ns :| ns in todo;
      todo, names := todo - {ns}, names + [ns];
    }
    forall ns ensures ns in names <==> ns in cluster && selector.Items <= cluster[ns].Items {
      assert ns in names <==> ns in Matching(cluster, selector);
      if ns in cluster {
        SelectsIsInclusion(selector, cluster[ns]);
      }
    }
    return Some(names);
  }

  /** The loop over the configured fields that looks for one the request does not give. */
  method FindMissingField(cfg: Config, spec: Spec) returns (missing: Option<string>)
    ensures missing.None? <==> MissingFields(cfg, spec) == {}
    ensures missing.Some? ==> missing.value in MissingFields(cfg, spec)
    ensures missing.None? <==> forall f | f in cfg.customFields :: f in spec.jiraFields
  {
    var todo := cfg.customFields.Keys;
    while todo != {}
      invariant todo <= cfg.customFields.Keys
      invariant cfg.customFields.Keys - todo <= spec.jiraFields.Keys
    {
      var f :| f in todo;
      if f !in spec.jiraFields {
        assert f in MissingFields(cfg, spec);
        return Some(f);
      }
      todo := todo - {f};
    }
    return None;
  }

  /** The loop over the configured user fields. */
  method CheckUsers(w: World, spec: Spec, cfg: Config, reporterName: string, reliable: bool)
    returns (reason: Option<Reason>)
    requires MissingFields(cfg, spec) == {}
    requires spec.reporter in w.users && reporterName == w.users[spec.reporter]
    ensures reason.None? ==> UsersOk(w, spec, cfg)
    ensures reason.Some? ==> Stage(reason.value) == 7
    ensures reason.Some? && reliable ==> !UsersOk(w, spec, cfg) && DetailOk(w, spec, cfg, reason.value)
    ensures reason.None? ==>
              forall f | f in cfg.customFields && cfg.customFields[f].kind == "user" ::
                && spec.jiraFields[f] != "" && spec.jiraFields[f] in w.users
                && (!cfg.selfApprovalEnabled ==> w.users[spec.jiraFields[f]] != reporterName)
    ensures reason.Some? && reason.value.SelfApproval? ==>
              && !cfg.selfApprovalEnabled
              && reason.value.field in cfg.customFields && cfg.customFields[reason.value.field].kind == "user"
              && reason.value.field in spec.jiraFields && spec.jiraFields[reason.value.field] in w.users
              && w.users[spec.jiraFields[reason.value.field]] == reporterName
  {
    var todo := cfg.customFields.Keys;
    while todo != {}
      invariant todo <= cfg.customFields.Keys
      invariant forall f | UserField(cfg, f) && f !in todo :: UserKnown(w, spec, f) && NotReporter(w, spec, cfg, f)
    {
      var f :| f in todo;
      assert f in cfg.customFields.Keys;
      if cfg.customFields[f].kind == "user" {
        assert f !in MissingFields(cfg, spec) && f in spec.jiraFields;
        var name := GetNameByEmail(w.users, spec.jiraFields[f], reliable);
        if name.None? || spec.jiraFields[f] == "" {
          assert UserField(cfg, f);
          return Some(UnknownUser(f));
        }
        if !cfg.selfApprovalEnabled && reporterName == name.value {
          assert UserField(cfg, f);
          return Some(SelfApproval(f));
        }
      }
      todo := todo - {f};
    }
    return None;
  }

  /**
   `validateJitRequestSpec`. With reliable calls it admits exactly the admissible specs and a
   refusal names the first check that fails, whatever order the fields are visited in. With
   unreliable calls it can refuse more, and never admits more.
   */
  method ValidateSpec(w: World, spec: Spec, reliable: bool) returns (verdict: Verdict)
    ensures verdict.Unreadable? <==> w.config.None?
    ensures verdict.Admitted? ==> Admissible(w, spec, w.config.value)
    ensures verdict.Refused? && reliable ==> ReasonOk(w, spec, w.config.value, verdict.reason)
    ensures reliable && w.config.Some? && Admissible(w, spec, w.config.value) ==> verdict.Admitted?
    ensures verdict.Admitted? ==> w.regex.None? || forall ns | ns in spec.namespaces :: w.regex.value(ns)
    ensures verdict.Admitted? ==>
              var cfg := w.config.value;
              && spec.reporter in w.users
              && forall f | f in cfg.customFields && cfg.customFields[f].kind == "user" ::
                   && f in spec.jiraFields && spec.jiraFields[f] != "" && spec.jiraFields[f] in w.users
                   && (!cfg.selfApprovalEnabled ==> w.users[spec.jiraFields[f]] != w.users[spec.reporter])
    ensures verdict.Refused? && verdict.reason.SelfApproval? ==>
              var cfg, f := w.config.value, verdict.reason.field;
              && !cfg.selfApprovalEnabled && f in cfg.customFields && cfg.customFields[f].kind == "user"
              && f in spec.jiraFields && spec.jiraFields[f] in w.users && spec.reporter in w.users
              && w.users[spec.jiraFields[f]] == w.users[spec.reporter]
  {
    if w.config.None? {
      return Unreadable;
    }
    var cfg := w.config.value;
    AdmissibleMeansChecked(w, spec, cfg);
    var allowed := Contains(cfg.allowedClusterRoles, spec.clusterRole);
    if !allowed {
      return Refused(BadClusterRole);
    }
    if !(spec.startTime > w.now) {
      return Refused(BadStartTime);
    }
    if !(spec.endTime > spec.startTime) {
      return Refused(BadEndTime);
    }
    var refused := ValidateNamespaceRegex(w.regex, spec.namespaces);
    if refused.Some? {
      return Refused(PatternRefuses(refused.value));
    }
    var listing := ListNamespaces(w.namespaces, spec.namespaceLabels, reliable);
    var bad := ValidateNamespaceLabels(spec, listing);
    if listing.Some? {
      LabelCheckExact(w.namespaces, spec, listing.value);
    }
    if bad.Some? {
      return Refused(LabelsRefuse(bad.value));
    }
    var missing := FindMissingField(cfg, spec);
    if missing.Some? {
      return Refused(NoCustomField(missing.value));
    }
    var name := GetNameByEmail(w.users, spec.reporter, reliable);
    if name.None? {
      return Refused(UnknownReporter);
    }
    var reason := CheckUsers(w, spec, cfg, name.value, reliable);
    if reason.Some? {
      return Refused(reason.value);
    }
    return Admitted;
  }

  method ValidateCreate(w: World, request: Request, reliable: bool) returns (verdict: Verdict)
    ensures verdict.Admitted? ==> w.config.Some? && Admissible(w, request.spec, w.config.value)
    ensures reliable && w.config.Some? ==> (verdict.Admitted? <==> Admissible(w, request.spec, w.config.value))
  {
    verdict := ValidateSpec(w, request.spec, reliable);
    if verdict.Refused? && reliable {
      RefusedIsInadmissible(w, request.spec, w.config.value, verdict.reason);
    }
  }

  /** The old object plays no part: an update is judged like a creation, at the time of the update. */
  method ValidateUpdate(w: World, prev: Request, next: Request, reliable: bool) returns (verdict: Verdict)
    ensures verdict.Admitted? ==> w.config.Some? && Admissible(w, next.spec, w.config.value)
    ensures reliable && w.config.Some? ==> (verdict.Admitted? <==> Admissible(w, next.spec, w.config.value))
  {
    verdict := ValidateCreate(w, next, reliable);
  }

  /** What the webhook demands is what its checks test. */
  lemma AdmissibleMeansChecked(w: World, spec: Spec, cfg: Config)
    ensures Admissible(w, spec, cfg) <==>
            && spec.clusterRole in cfg.allowedClusterRoles && TimesOk(w, spec)
            && RegexAccepts(w.regex, spec.namespaces) && LabelsAccept(w.namespaces, spec)
            && MissingFields(cfg, spec) == {} && UsersOk(w, spec, cfg)
  {
    LabelsMean(w.namespaces, spec);
    assert MissingFields(cfg, spec) == {} <==> forall f | f in cfg.customFields :: f in spec.jiraFields by {
      forall f | f in cfg.customFields ensures f in MissingFields(cfg, spec) <==> f !in spec.jiraFields {
      }
    }
  }

  /** The verdict as positions: a spec is admissible exactly if it passes every check. */
  lemma AdmissibleByStages(w: World, spec: Spec, cfg: Config)
    ensures Admissible(w, spec, cfg) <==> PassesBefore(w, spec, cfg, 8)
  {
    AdmissibleMeansChecked(w, spec, cfg);
    if PassesBefore(w, spec, cfg, 8) {
      assert Passes(w, spec, cfg, 0) && Passes(w, spec, cfg, 1) && Passes(w, spec, cfg, 2) && Passes(w, spec, cfg, 3);
      assert Passes(w, spec, cfg, 4) && Passes(w, spec, cfg, 5) && Passes(w, spec, cfg, 7);
    }
  }

  lemma RefusedIsInadmissible(w: World, spec: Spec, cfg: Config, reason: Reason)
    requires ReasonOk(w, spec, cfg, reason)
    ensures !Admissible(w, spec, cfg)
  {
    AdmissibleByStages(w, spec, cfg);
  }

  /**
   Map order does not matter: two validations of the same spec agree on the verdict, and refusals
   agree on the check that refuses.
   */
  lemma RefusalsAgree(w: World, spec: Spec, cfg: Config, a: Reason, b: Reason)
    requires ReasonOk(w, spec, cfg, a) && ReasonOk(w, spec, cfg, b)
    ensures Stage(a) == Stage(b)
    ensures Stage(a) <= 4 ==> a == b
  {
  }

  // The controller

  /** What `handleNewRequest` demands of a spec, apart from the clock. */
  predicate ControllerAccepts(w: World, spec: Spec, cfg: Config) {
    MissingFields(cfg, spec) == {} && spec.reporter in w.users && ChecksPass(w, spec, cfg)
  }

  /** The webhook demands all of it, and three things more. */
  lemma AdmissionIsStricter(w: World, spec: Spec, cfg: Config)
    requires !w.webhooks
    ensures Admissible(w, spec, cfg) <==>
            ControllerAccepts(w, spec, cfg) && TimesOk(w, spec) && UsersOk(w, spec, cfg)
  {
    AdmissibleMeansChecked(w, spec, cfg);
  }

  /** `w` has the configuration, namespaces, pattern and users the request was admitted under. */
  ghost predicate SameSurroundings(admitted: World, w: World) {
    && w.config == admitted.config && w.namespaces == admitted.namespaces
    && w.regex == admitted.regex && w.users == admitted.users
  }

  ghost predicate NewAndUndisturbed(s: State, calm: seq<Step>, name: string) {
    && Inv(s) && Reconciles(s, calm, name) && s.world.config.Some?
    && name in s.world.requests && s.world.requests[name].status.phase == New
    && Reconciled(s, calm, name).world.now < s.world.requests[name].spec.startTime
  }

  /** An undisturbed reconcile of a new request before its start pre-approves it exactly if it is accepted. */
  lemma PreApprovedIffAccepted(s: State, calm: seq<Step>, name: string)
    requires NewAndUndisturbed(s, calm, name)
    ensures var r := s.world.requests[name]; var end := Reconciled(s, calm, name).world;
            && name in end.requests && end.requests[name].uid == r.uid && end.requests[name].spec == r.spec
            && (end.requests[name].status.phase == PreApproved <==>
                  ControllerAccepts(s.world, r.spec, s.world.config.value))
            && (end.requests[name].status.phase == PreApproved ==>
                  && end.requests[name].status.startTime == r.spec.startTime
                  && end.requests[name].status.endTime == r.spec.endTime
                  && name in end.timers && end.timers[name] <= r.spec.startTime + (end.now - s.world.now)
                  && (name !in s.world.timers ==> r.spec.startTime <= end.timers[name]))
  {
    var r, cfg := s.world.requests[name], s.world.config.value;
    WholeReconcile(s, calm, name, cfg);
    var begun := Apply(s, Pop(name));
    var done := Run(begun, calm);
    SettledTimers(begun.world, done.world, name, done.pc.result);
    assert NewOutcome(begun.world, r, cfg, done.world, done.pc.result);
    assert ControllerAccepts(begun.world, r.spec, cfg) == ControllerAccepts(s.world, r.spec, cfg);
  }

  /**
   Admission refines the controller: a request the webhook admitted, handled under the same
   configuration, namespaces, pattern and users before its start time, always ends Pre-Approved
   with a wake-up at its start time, late by at most the duration of the reconcile, and the start is
   before its end; it is never Rejected.
   */
  lemma AdmittedIsPreApproved(admitted: World, s: State, calm: seq<Step>, name: string)
    requires NewAndUndisturbed(s, calm, name) && SameSurroundings(admitted, s.world)
    requires Admissible(admitted, s.world.requests[name].spec, s.world.config.value)
    ensures var r := s.world.requests[name]; var end := Reconciled(s, calm, name).world;
            && name in end.requests && end.requests[name].uid == r.uid
            && end.requests[name].status.phase == PreApproved
            && end.requests[name].status.startTime == r.spec.startTime < end.requests[name].status.endTime
            && name in end.timers && end.timers[name] <= r.spec.startTime + (end.now - s.world.now)
            && (name !in s.world.timers ==> r.spec.startTime <= end.timers[name])
  {
    var cfg := s.world.config.value;
    AdmissibleMeansChecked(admitted, s.world.requests[name].spec, cfg);
    PreApprovedIffAccepted(s, calm, name);
  }
}
