/**
 The controller: `Reconcile` and its handlers, call by call. Each method is proved to make exactly
 the calls of the machine's program points, in their order and with their arguments, whatever the
 calls return and whatever happens between them; so each complete reconcile is a run of the
 machine, and the theorems about runs hold of this code.
 */
module Operator {
  import opened Types
  import opened Validation
  import opened Payload
  import opened Machine
  import opened Invariants
  import opened ClusterApi
  import opened Bindings
  import opened History
  import Wakeups
  import Timers
  import Tickets
  import Closure
  import Grants
  import Expiry

  /** What `fetchJitRequest` returns beside an error: an object with no fields set. */
  const NOTHING_FETCHED := Request("", 0, 0, Spec("", [], "", [], map[], 0, 0, map[]), NEW_STATUS)

  class Reconciler {
    const api: Cluster

    constructor (api: Cluster)
      ensures this.api == api
    {
      this.api := api;
    }

    /** The machine is at the program point `pc`. */
    ghost predicate At(pc: Pc)
      reads api
    {
      api.Valid() && api.pc == pc
    }

    // utils.go

    /**
     Assigns the status in memory, then writes it, repeating the same write while it conflicts. On
     success the stored record is exactly the copy in memory.
     */
    method UpdateStatus(obj: JitRequest, phase: Phase, message: Message, ticket: TicketRef, ghost after: After)
      returns (ok: bool)
      requires At(Write(obj.Value(), StatusFor(obj.Value(), phase, message, ticket), 0, after))
      modifies api, obj
      ensures api.boundaries == old(api.boundaries)
      ensures ok ==> obj.Value() == Written(old(obj.Value()), StatusFor(old(obj.Value()), phase, message, ticket))
      ensures ok ==> obj.name in api.world.requests && api.world.requests[obj.name] == obj.Value()
      ensures At(if ok then Resume(obj.Value(), after) else GiveUp(old(obj.Value()), after))
    {
      ghost var req := obj.Value();
      obj.status := Status(phase, message, ticket, obj.spec.startTime, obj.spec.endTime);
      for attempt := 0 to MAX_ATTEMPTS
        invariant api.boundaries == old(api.boundaries)
        invariant obj.Value() == req.(status := StatusFor(req, phase, message, ticket))
        invariant At(if attempt < MAX_ATTEMPTS then Write(req, obj.status, attempt, after) else GiveUp(req, after))
      {
        var r := api.PutStatus(obj.Value());
        if r.Success? {
          obj.version := obj.version + 1;
          return true;
        } else if !r.Conflict? {
          return false;
        }
      }
      return false;
    }

    /** The delay until `target`, from a clock reading of its own. */
    method RequeueAt(obj: JitRequest, target: Time) returns (res: Result)
      requires At(Arm(obj.Value(), target))
      modifies api
      ensures api.boundaries == old(api.boundaries) && At(Finished(obj.name, res))
      ensures res.Done? && api.world.now + res.delay == target
    {
      var now := api.Clock();
      return Done(target - now);
    }

    method DeleteJitRequest(obj: JitRequest) returns (ok: bool)
      requires At(Delete(obj.Value()))
      modifies api
      ensures api.boundaries == old(api.boundaries)
      ensures At(Finished(obj.name, if ok then Done(0) else Error))
      ensures ok ==> obj.name !in api.world.requests
    {
      var r := api.DeleteRequest(obj.name);
      return r.Success?;
    }

    method RejectInvalidNamespace(obj: JitRequest, ticket: TicketRef, namespaces: seq<string>) returns (res: Result)
      requires At(RejectWith(obj.Value(), NamespacesNotValidated(namespaces), ticket))
      modifies api, obj
      ensures api.boundaries == old(api.boundaries) && At(Finished(obj.name, res))
    {
      var ok := UpdateStatus(obj, Rejected, NamespacesNotValidated(namespaces), ticket, ThenReturn);
      return if ok then Done(0) else Error;
    }

    method RejectInvalidRole(obj: JitRequest, ticket: TicketRef) returns (res: Result)
      requires At(RejectWith(obj.Value(), RoleNotAllowed(obj.spec.clusterRole), ticket))
      modifies api, obj
      ensures api.boundaries == old(api.boundaries) && At(Finished(obj.name, res))
    {
      var ok := UpdateStatus(obj, Rejected, RoleNotAllowed(obj.spec.clusterRole), ticket, ThenReturn);
      return if ok then Done(0) else Error;
    }

    /** The loop over one binding's owner references, up to its `break`. */
    method DeleteIfOwned(item: Item, name: string, quiet: bool) returns (ok: bool)
      requires api.Valid()
      modifies api
      ensures api.Valid() && api.pc == old(api.pc) && api.boundaries == old(api.boundaries)
      ensures ok && OwnedByName(item.binding, name) ==> item.key !in api.world.bindings
      ensures quiet ==>
                || api.world == old(api.world)
                || (OwnedByName(item.binding, name) && api.world == Unbound(old(api.world), item.key))
    {
      for j := 0 to |item.binding.owners|
        invariant forall o | o in item.binding.owners[..j] :: !(o.kind == "JitRequest" && o.name == name)
        invariant api.Valid() && api.pc == old(api.pc) && api.boundaries == old(api.boundaries)
        invariant api.world == old(api.world)
      {
        if item.binding.owners[j].kind == "JitRequest" && item.binding.owners[j].name == name {
          ok := api.DeleteRoleBinding(item.key, quiet);
          return;
        }
      }
      return true;
    }

    /** The loop over the bindings of one namespace. */
    method DeleteInNamespace(name: string, namespace: string, quiet: bool) returns (ok: bool)
      requires api.Valid()
      modifies api
      ensures api.Valid() && api.pc == old(api.pc) && api.boundaries == old(api.boundaries)
      ensures quiet ==> OnlyOwnedGone(old(api.world.bindings), api.world.bindings, name, {namespace})
      ensures quiet && ok ==> NoneOwned(api.world.bindings, name, {namespace})
    {
      var items;
      ok, items := api.ListRoleBindings(namespace, quiet);
      if !ok {
        return;
      }
      for i := 0 to |items|
        invariant api.Valid() && api.pc == old(api.pc) && api.boundaries == old(api.boundaries)
        invariant quiet ==> OnlyOwnedGone(old(api.world.bindings), api.world.bindings, name, {namespace})
        invariant quiet ==> OwnedAhead(api.world.bindings, name, namespace, items[i..])
      {
        ok := DeleteIfOwned(items[i], name, quiet);
        if !ok {
          return;
        }
      }
      return true;
    }

    /** Every binding still to be deleted is among the items to come. */
    static predicate OwnedAhead(store: Store, name: string, namespace: string, items: seq<Item>) {
      forall k | k in store && k.namespace == namespace && OwnedByName(store[k], name) :: Item(k, store[k]) in items
    }

    /**
     Deletes, in the namespaces of the object, the bindings owned by its name. If nobody else acts
     meanwhile, on success exactly those are gone, and on failure nothing else is.
     */
    method DeleteOwnedObjects(obj: JitRequest, quiet: bool) returns (ok: bool)
      requires api.Valid()
      modifies api
      ensures api.Valid() && api.pc == old(api.pc) && api.boundaries == old(api.boundaries)
      ensures var namespaces := set ns | ns in obj.spec.namespaces;
              && (quiet ==> OnlyOwnedGone(old(api.world.bindings), api.world.bindings, obj.name, namespaces))
              && (quiet && ok ==> api.world.bindings == DeleteOwned(old(api.world.bindings), obj.name, namespaces))
      ensures quiet && ok ==>
                forall k | k in old(api.world.bindings) ::
                  k in api.world.bindings <==>
                  !(&& k.namespace in obj.spec.namespaces
                    && exists o :: && o in old(api.world.bindings)[k].owners
                                   && o.kind == "JitRequest" && o.name == obj.name)
      ensures obj.spec.namespaces == [] ==> ok && api.world == old(api.world)
    {
      ghost var all := set ns | ns in obj.spec.namespaces;
      for i := 0 to |obj.spec.namespaces|
        invariant api.Valid() && api.pc == old(api.pc) && api.boundaries == old(api.boundaries)
        invariant i == 0 ==> api.world == old(api.world)
        invariant quiet ==> OnlyOwnedGone(old(api.world.bindings), api.world.bindings, obj.name, all)
        invariant quiet ==> NoneOwned(api.world.bindings, obj.name, set ns | ns in obj.spec.namespaces[..i])
      {
        ok := DeleteInNamespace(obj.name, obj.spec.namespaces[i], quiet);
        if !ok {
          return;
        }
      }
      assert obj.spec.namespaces[..|obj.spec.namespaces|] == obj.spec.namespaces;
      if quiet {
        GoneAndClear(old(api.world.bindings), api.world.bindings, obj.name, all);
      }
      return true;
    }

    /** The reporter, then the additional users. */
    method Subjects(obj: JitRequest) returns (subjects: seq<string>)
      ensures subjects == [obj.spec.reporter] + obj.spec.additionalEmails
    {
      subjects := [obj.spec.reporter];
      for i := 0 to |obj.spec.additionalEmails|
        invariant subjects == [obj.spec.reporter] + obj.spec.additionalEmails[..i]
      {
        subjects := subjects + [obj.spec.additionalEmails[i]];
      }
    }

    /**
     Creates the bindings one by one; an existing one counts as created. If nobody else acts meanwhile,
     on success each namespace of the object has a binding under its name, what was there before is
     unchanged, and what is new gives the reporter and the additional users the role.
     */
    method CreateRoleBindings(obj: JitRequest, ghost cfg: Config, quiet: bool) returns (ok: bool)
      requires At(BindFrom(obj.Value(), cfg, 0))
      modifies api
      ensures api.boundaries == old(api.boundaries)
      ensures At(if ok then CompleteComment(obj.Value(), cfg) else Finished(obj.name, Error))
      ensures quiet ==> OnlyAdded(old(api.world.bindings), api.world.bindings, obj.Value())
      ensures quiet && ok ==>
                forall ns | ns in obj.spec.namespaces :: BindingKey(ns, obj.name + "-jit") in api.world.bindings
    {
      var subjects := Subjects(obj);
      ghost var was := api.world.bindings;
      for i := 0 to |obj.spec.namespaces|
        invariant api.boundaries == old(api.boundaries) && At(BindFrom(obj.Value(), cfg, i))
        invariant quiet ==> OnlyAdded(was, api.world.bindings, obj.Value())
        invariant quiet ==> forall ns | ns in obj.spec.namespaces[..i] ::
                              BindingKey(ns, obj.name + "-jit") in api.world.bindings
      {
        ok := BindNamespace(obj, cfg, i, subjects, was, quiet);
        if !ok {
          return;
        }
      }
      assert obj.spec.namespaces[..|obj.spec.namespaces|] == obj.spec.namespaces;
      return true;
    }

    /** The body of the loop over the namespaces. */
    method BindNamespace(obj: JitRequest, ghost cfg: Config, i: nat, subjects: seq<string>, ghost was: Store,
                         quiet: bool)
      returns (ok: bool)
      requires i < |obj.spec.namespaces| && At(Bind(obj.Value(), cfg, i))
      requires subjects == [obj.spec.reporter] + obj.spec.additionalEmails
      requires quiet ==> OnlyAdded(was, api.world.bindings, obj.Value())
      modifies api
      ensures api.boundaries == old(api.boundaries)
      ensures At(if ok then BindFrom(obj.Value(), cfg, i + 1) else Finished(obj.name, Error))
      ensures quiet ==> OnlyAdded(was, api.world.bindings, obj.Value())
      ensures quiet ==> forall k | k in old(api.world.bindings) :: k in api.world.bindings
      ensures quiet && ok ==> BindingKey(obj.spec.namespaces[i], obj.name + "-jit") in api.world.bindings
    {
      var owner := OwnerRef("JitRequest", obj.name, obj.uid);
      var binding := Binding([owner], subjects, obj.spec.clusterRole, obj.spec.endTime);
      var r := api.CreateRoleBinding(obj.spec.namespaces[i], obj.name + "-jit", binding, quiet);
      return r.Success? || r.Exists?;
    }

    /** Nothing that was there is changed, and what is new gives access to a namespace of the request. */
    static predicate OnlyAdded(was: Store, now: Store, req: Request) {
      && (forall k | k in was :: k in now && now[k] == was[k])
      && (forall k | k in now && k !in was ::
            && k.namespace in req.spec.namespaces && k.name == req.name + "-jit"
            && now[k] == Binding([OwnerRef("JitRequest", req.name, req.uid)],
                                 [req.spec.reporter] + req.spec.additionalEmails,
                                 req.spec.clusterRole, req.spec.endTime))
    }

    // jira_client.go

    /** Comments on the ticket, then moves it. */
    method CompleteJiraTicket(obj: JitRequest, cfg: Config) returns (ok: bool)
      requires At(CompleteComment(obj.Value(), cfg))
      modifies api
      ensures api.boundaries == old(api.boundaries)
      ensures var granted := StatusFor(obj.Value(), Succeeded, AccessGranted, obj.status.ticket);
              At(if ok then Write(obj.Value(), granted, 0, ThenCleanup)
                 else Finished(obj.name, Error))
    {
      var r := api.AddComment(obj.status.ticket, CompletedNote);
      if !r.Success? {
        return false;
      }
      r := api.Move(obj.status.ticket, cfg.completedTransition);
      return r.Success?;
    }

    method RejectJiraTicket(obj: JitRequest, cfg: Config) returns (ok: bool)
      requires At(RejectComment(obj.Value(), cfg))
      modifies api
      ensures api.boundaries == old(api.boundaries)
      ensures At(if ok then Delete(obj.Value()) else Finished(obj.name, Error))
    {
      var r := api.AddComment(obj.status.ticket, RejectedNote(obj.status.message));
      if !r.Success? {
        return false;
      }
      r := api.Move(obj.status.ticket, cfg.rejectedTransition);
      return r.Success?;
    }

    method GetJiraApproval(obj: JitRequest, cfg: Config) returns (approved: bool)
      requires At(CheckApproval(obj.Value(), cfg))
      modifies api
      ensures api.boundaries == old(api.boundaries)
      ensures At(if approved then BindFrom(obj.Value(), cfg, 0)
                 else RejectWith(obj.Value(), NotApproved, obj.status.ticket))
    {
      approved := api.HasStatus(obj.status.ticket, cfg.approvedStatus);
    }

    /** `None` is an error; a missing field gives Skipped, whether or not its rejection could be written. */
    method CreateJiraTicket(obj: JitRequest, cfg: Config) returns (ticket: Option<TicketRef>)
      requires At(ScanFields(obj.Value(), cfg))
      modifies api, obj
      ensures api.boundaries == old(api.boundaries) && ticket != Some(Unset)
      ensures ticket.None? ==> At(Finished(obj.name, Error))
      ensures ticket == Some(Skipped) ==> At(Finished(obj.name, Done(0)))
      ensures ticket.Some? && ticket.value.Issue? ==>
                obj.Value() == old(obj.Value()) && At(Next(OpenTicket(obj.Value(), cfg), Opened(ticket.value.key)))
    {
      var missing, payload := BuildPayload(cfg, obj.spec);
      api.FieldsScanned(missing);
      if missing.Some? {
        var _ := UpdateStatus(obj, Rejected, FieldMissing(missing.value), Skipped, ThenReturnSkipped);
        return Some(Skipped);
      }
      var found := api.FindUser(obj.spec.reporter);
      if !found {
        return None;
      }
      var r := api.CreateTicket(payload, obj.uid);
      return if r.Opened? then Some(Issue(r.key)) else None;
    }

    /** Announces the pre-approval, records it, and computes the delay from a second reading of the clock. */
    method AwaitStart(obj: JitRequest, cfg: Config, key: nat) returns (res: Result)
      requires At(PreApproveComment(obj.Value(), cfg, key))
      modifies api, obj
      ensures api.boundaries == old(api.boundaries) && At(Finished(obj.name, res))
      ensures res.Done? ==> api.world.now + res.delay == obj.spec.startTime
    {
      var r := api.AddComment(Issue(key), PreApprovalComment(obj.Value(), cfg));
      if !r.Success? {
        return Error;
      }
      var ok := UpdateStatus(obj, PreApproved, AwaitingApproval, Issue(key), ThenAwaitStart);
      if !ok {
        return Error;
      }
      res := RequeueAt(obj, obj.spec.startTime);
    }

    method PreApproveRequest(obj: JitRequest, cfg: Config, key: nat) returns (res: Result)
      requires At(CheckStart(obj.Value(), cfg, key))
      modifies api, obj
      ensures api.boundaries == old(api.boundaries) && At(Finished(obj.name, res))
      ensures res.Done? && res.delay != 0 ==> api.world.now + res.delay == obj.spec.startTime
    {
      var now := api.Clock();
      if obj.spec.startTime > now {
        res := AwaitStart(obj, cfg, key);
        return;
      }
      var ok := UpdateStatus(obj, Rejected, StartNotInFuture(obj.spec.startTime), Issue(key), ThenReturn);
      return if ok then Done(0) else Error;
    }

    // handlers.go

    method HandleRejected(obj: JitRequest, cfg: Config) returns (res: Result)
      requires obj.status.phase == Rejected && At(Dispatch(obj.Value(), cfg))
      modifies api
      ensures api.boundaries == old(api.boundaries) && At(Finished(obj.name, res))
      ensures res.Done? ==> obj.name !in api.world.requests
    {
      if obj.status.ticket != Skipped {
        var rejected := RejectJiraTicket(obj, cfg);
        if !rejected {
          return Error;
        }
      }
      var ok := DeleteJitRequest(obj);
      return if ok then Done(0) else Error;
    }

    method HandleNewRequest(obj: JitRequest, cfg: Config) returns (res: Result)
      requires obj.status.phase == New && At(Dispatch(obj.Value(), cfg))
      modifies api, obj
      ensures api.boundaries == old(api.boundaries) && At(Finished(obj.name, res))
    {
      var created := CreateJiraTicket(obj, cfg);
      if created.None? {
        return Error;
      }
      var ticket := created.value;
      if ticket == Skipped {
        return Done(0);
      }
      var allowed := Contains(cfg.allowedClusterRoles, obj.spec.clusterRole);
      if !allowed {
        res := RejectInvalidRole(obj, ticket);
        return;
      }
      res := CheckNamespaces(obj, cfg, ticket);
    }

    /** The rest of `handleNewRequest`, once the role is allowed. */
    method CheckNamespaces(obj: JitRequest, cfg: Config, ticket: TicketRef) returns (res: Result)
      requires ticket.Issue? && At(CheckLabels(obj.Value(), cfg, ticket.key))
      modifies api, obj
      ensures api.boundaries == old(api.boundaries) && At(Finished(obj.name, res))
    {
      var invalid := api.CheckNamespaceLabels(obj.spec);
      if invalid.Some? {
        res := RejectInvalidNamespace(obj, ticket, invalid.value);
        return;
      }
      assert api.pc.CheckRegex? && api.pc.req == obj.Value() && api.pc.cfg == cfg && api.pc.key == ticket.key;
      var refused := api.CheckNamespaceRegex(obj.spec.namespaces);
      if refused.Some? {
        res := RejectInvalidNamespace(obj, ticket, [refused.value]);
        return;
      }
      assert At(CheckStart(obj.Value(), cfg, ticket.key));
      res := PreApproveRequest(obj, cfg, ticket.key);
    }

    method HandlePreApproved(obj: JitRequest, cfg: Config) returns (res: Result)
      requires obj.status.phase == PreApproved && At(Dispatch(obj.Value(), cfg))
      modifies api, obj
      ensures api.boundaries == old(api.boundaries) && At(Finished(obj.name, res))
    {
      var startTime := obj.status.startTime;
      var now := api.Clock();
      if startTime > now {
        res := RequeueAt(obj, startTime);
        return;
      }
      assert At(CheckApproval(obj.Value(), cfg));
      var ticket := obj.status.ticket;
      var approved := GetJiraApproval(obj, cfg);
      if !approved {
        res := RejectUnapproved(obj, ticket);
      } else {
        res := GrantAccess(obj, cfg);
      }
    }

    method RejectUnapproved(obj: JitRequest, ticket: TicketRef) returns (res: Result)
      requires At(RejectWith(obj.Value(), NotApproved, ticket))
      modifies api, obj
      ensures api.boundaries == old(api.boundaries) && At(Finished(obj.name, res))
    {
      var ok := UpdateStatus(obj, Rejected, NotApproved, ticket, ThenReturn);
      return if ok then Done(0) else Error;
    }

    /** The rest of `handlePreApproved`, once the ticket is approved. */
    method GrantAccess(obj: JitRequest, cfg: Config) returns (res: Result)
      requires At(BindFrom(obj.Value(), cfg, 0))
      modifies api, obj
      ensures api.boundaries == old(api.boundaries) && At(Finished(obj.name, res))
    {
      var bound := CreateRoleBindings(obj, cfg, false);
      if !bound {
        return Error;
      }
      var completed := CompleteJiraTicket(obj, cfg);
      if !completed {
        return Error;
      }
      var ok := UpdateStatus(obj, Succeeded, AccessGranted, obj.status.ticket, ThenCleanup);
      if !ok {
        return Error;
      }
      res := HandleCleanup(obj);
    }

    method HandleCleanup(obj: JitRequest) returns (res: Result)
      requires At(CheckEnd(obj.Value()))
      modifies api
      ensures api.boundaries == old(api.boundaries) && At(Finished(obj.name, res))
      ensures res.Done? ==> obj.name !in api.world.requests || api.world.now + res.delay == obj.status.endTime
    {
      var endTime := obj.status.endTime;
      var now := api.Clock();
      if endTime > now {
        res := RequeueAt(obj, endTime);
        return;
      }
      var ok := DeleteJitRequest(obj);
      return if ok then Done(0) else Error;
    }

    /** The object that was not found names no namespaces, so nothing is listed and nothing is deleted. */
    method HandleFetchError(missing: bool, obj: JitRequest) returns (res: Result)
      requires api.Valid() && obj.Value() == NOTHING_FETCHED
      modifies api
      ensures api.Valid() && api.pc == old(api.pc) && api.boundaries == old(api.boundaries)
      ensures api.world == old(api.world) && res == if missing then Done(0) else Error
    {
      if missing {
        var ok := DeleteOwnedObjects(obj, false);
        if !ok {
          return Error;
        }
        return Done(0);
      }
      return Error;
    }

    // jitrequest_controller.go

    /** One reconcile, from the fetch to its result. */
    method Reconcile(name: string) returns (res: Result)
      requires At(Fetch(name))
      modifies api
      ensures api.boundaries == old(api.boundaries) && At(Finished(name, res))
    {
      var fetched := api.GetRequest(name);
      if !fetched.Got? {
        var nothing := new JitRequest(NOTHING_FETCHED);
        res := HandleFetchError(fetched.Missing?, nothing);
        return;
      }
      var obj := new JitRequest(fetched.req);
      var file := api.ReadConfigFromFile();
      if !file.Loaded? {
        return Error;
      }
      var cfg := file.cfg;
      match obj.status.phase
      case Rejected => res := HandleRejected(obj, cfg);
      case New => res := HandleNewRequest(obj, cfg);
      case PreApproved => res := HandlePreApproved(obj, cfg);
      case Succeeded => res := HandleCleanup(obj);
      case Other(_) => res := HandleCleanup(obj);
    }

    // The worker

    /** Takes a name off the queue, reconciles it and acts on the result. */
    method ProcessNext()
      requires At(Idle)
      modifies api
      ensures At(Idle) && (api.boundaries == old(api.boundaries) || api.boundaries == old(api.boundaries) + 2)
    {
      api.Interfere();
      if api.world.queue != {} {
        var name :| name in api.world.queue;
        api.Take(Pop(name), api.world.(queue := api.world.queue - {name}));
        var res := Reconcile(name);
        api.Take(Settle, SettleWorld(api.world, name, res));
      }
    }

    /** Any number of reconciles, with restarts between them. */
    method Work(rounds: nat)
      requires At(Idle)
      modifies api
      ensures At(Idle)
    {
      for i := 0 to rounds
        invariant At(Idle)
      {
        var restart: bool := *;
        if restart {
          api.Take(Restart, RestartWorld(api.world));
        } else {
          ProcessNext();
        }
      }
    }
  }

  /** What is known of a stored request, by its name. */
  ghost predicate RequestIsSafe(c: Cluster, name: string, lag: int)
    requires name in c.world.requests
    reads c
  {
    var t, r := TraceOf(c.start, c.steps), c.world.requests[name];
    // It is looked at again, in time.
    && (Wakeups.Prompt(c.start, c.steps, lag) ==>
          || PcName(c.pc) == Some(name) || Wakeups.Announced(c.world, name)
          || Wakeups.TimedBy(c.world, name, lag) || Wakeups.Lapsed(t, name))
    && (name in c.world.timers && Timers.NotReused(c.world.names) ==>
          Deadline(r).Some? && Deadline(r).value <= c.world.timers[name])
    // It has one ticket, moved as its status says, unless one of its reconciles failed.
    && (r.status.ticket.Issue? && Closure.NoFailure(t, r.uid) ==>
          && Tickets.Count(t, Tickets.OpenedFor(r.uid)) == 1
          && (!PcFor(c.pc, r.uid) ==>
                Closure.Moves(t, r.status.ticket.key) == if r.status.phase == Succeeded then (1, 0) else (0, 0)))
  }

  /** What is known of a binding owned by a request. */
  ghost predicate BindingIsSafe(c: Cluster, key: BindingKey)
    requires key in c.world.bindings
    reads c
  {
    var t := TraceOf(c.start, c.steps);
    && Grants.HasGrant(t, key, c.world.bindings[key])
    && forall name | Expiry.Bound(c.world, key, name) && c.world.requests[name].status.phase == Rejected ::
         Expiry.AbortedGrant(t, c.world.requests[name].uid)
  }

  /**
   Whatever the controller has done to a cluster, with any environment and any failures: the
   theorems about runs apply to the state it has reached.
   */
  lemma EveryClusterIsSafe(c: Cluster, lag: int)
    requires c.Valid()
    ensures Inv(c.Now())
    ensures forall name | name in c.world.requests :: RequestIsSafe(c, name, lag)
    ensures forall key | key in c.world.bindings && Grants.OwnedByRequest(c.world.bindings[key]) ::
              BindingIsSafe(c, key)
  {
    assert Run(c.start, c.steps) == c.Now();
    c.InvNow();
    forall name | name in c.world.requests ensures RequestIsSafe(c, name, lag) {
      ThisRequestIsSafe(c, name, lag);
    }
    forall key | key in c.world.bindings && Grants.OwnedByRequest(c.world.bindings[key]) ensures BindingIsSafe(c, key) {
      Grants.EveryBindingIsGranted(c.start, c.steps, key);
      forall name | Expiry.Bound(c.world, key, name) && c.world.requests[name].status.phase == Rejected
        ensures Expiry.AbortedGrant(TraceOf(c.start, c.steps), c.world.requests[name].uid)
      {
        Expiry.RejectedAndBoundOnlyAfterAbort(c.start, c.steps, key, name);
      }
    }
  }

  lemma ThisRequestIsSafe(c: Cluster, name: string, lag: int)
    requires c.Valid() && name in c.world.requests
    ensures RequestIsSafe(c, name, lag)
  {
    assert Run(c.start, c.steps) == c.Now();
    var t, r := TraceOf(c.start, c.steps), c.world.requests[name];
    if Wakeups.Prompt(c.start, c.steps, lag) {
      Wakeups.NoStrandedRequest(c.start, c.steps, name, lag);
    }
    if name in c.world.timers && Timers.NotReused(c.world.names) {
      Timers.TimersAreNotEarly(c.start, c.steps, name);
    }
    if r.status.ticket.Issue? && Closure.NoFailure(t, r.uid) {
      Closure.BreakingOffIsFailing(t, r.uid);
      Tickets.ExactlyOneTicket(c.start, c.steps, name);
      if !PcFor(c.pc, r.uid) {
        Closure.MovesFollowStatus(c.start, c.steps, name);
      }
    }
  }
}
