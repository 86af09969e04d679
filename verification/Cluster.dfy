/**
 The world as the operator's code reaches it: one method per external call. Before a call is
 answered the environment may take any number of steps, and any call may fail. The ghost state
 records the run of the machine that the calls make, so that every statement about runs holds of
 the code that makes them.
 */
module ClusterApi {
  import opened Types
  import opened Validation
  import opened Payload
  import opened Machine
  import opened Invariants
  import opened Bindings
  import Admission

  /** The request as the code holds it in memory. `updateStatus` assigns its status before writing it. */
  class JitRequest {
    const name: string
    const uid: nat
    const spec: Spec
    var version: nat
    var status: Status

    constructor (r: Request)
      ensures Value() == r
    {
      name, uid, spec, version, status := r.name, r.uid, r.spec, r.version, r.status;
    }

    function Value(): Request
      reads this
    {
      Request(name, uid, version, spec, status)
    }
  }

  const NO_HINT := Hint(0, map[], "")

  /** The steps that begin, end or cut short a reconcile. */
  ghost function Boundaries(steps: seq<Step>): nat {
    if steps == [] then 0
    else Boundaries(steps[..|steps| - 1]) + if steps[|steps| - 1].Env? || steps[|steps| - 1].Respond? then 0 else 1
  }

  /**
   The machine reaches `t` from a beginning `s`, crossing `n` boundaries. It is quantified so that
   a proof that only passes it on does not unfold the run.
   */
  ghost predicate Reaches(s: State, steps: seq<Step>, t: State, n: nat) {
    forall s', steps' | s' == s && steps' == steps :: Run(s', steps') == t && Boundaries(steps') == n && Init(s')
  }

  class Cluster {
    var world: World
    ghost var pc: Pc
    ghost var steps: seq<Step>
    ghost var boundaries: nat          // of the reconciles so far: no call crosses one
    ghost const start: State

    /** The state is one the machine reaches from its beginning by the recorded steps. */
    ghost predicate Valid()
      reads this
    {
      Reaches(start, steps, Now(), boundaries)
    }

    ghost function Now(): State
      reads this
    {
      State(world, pc)
    }

    constructor (w: World)
      requires Init(State(w, Idle))
      ensures Valid() && world == w && pc == Idle && steps == []
    {
      world, pc, steps, boundaries, start := w, Idle, [], 0, State(w, Idle);
    }

    lemma InvNow()
      requires Valid()
      ensures Inv(Now())
    {
      assert Run(start, steps) == Now();
      Reachable(start, steps);
    }

    /** Carries out one step of the machine. */
    method Take(ghost step: Step, next: World)
      requires Valid() && Apply(Now(), step).world == next
      modifies this
      ensures Valid() && steps == old(steps) + [step] && world == next && Now() == Apply(old(Now()), step)
      ensures boundaries == old(boundaries) + if step.Env? || step.Respond? then 0 else 1
    {
      assert Run(start, steps) == Now();
      RunSnoc(start, steps, step);
      pc := Apply(Now(), step).pc;
      world := next;
      steps := steps + [step];
      boundaries := boundaries + if step.Env? || step.Respond? then 0 else 1;
    }

    /** Whatever happens between two calls. */
    method Interfere()
      requires Valid()
      modifies this
      ensures Valid() && pc == old(pc) && boundaries == old(boundaries)
    {
      var n :| n >= 0;
      for i := 0 to n
        invariant Valid() && pc == old(pc) && boundaries == old(boundaries)
      {
        var e: EnvStep := *;
        if EnvEnabled(world, e) {
          Take(Env(e), EnvApply(world, e));
        }
      }
    }

    /** The pending call is answered. */
    method Reply(ghost outcome: Outcome, ghost hint: Hint, next: World, ghost r: Resp)
      requires Valid() && InCall(pc) && HintOk(world, pc, hint)
      requires Perform(world, pc, outcome, hint) == (next, r)
      modifies this
      ensures Valid() && boundaries == old(boundaries) && world == next && pc == Next(old(pc), r)
    {
      Take(Respond(outcome, hint), next);
    }

    // Requests

    method GetRequest(name: string) returns (r: Resp)
      requires Valid() && pc == Fetch(name)
      modifies this
      ensures Valid() && boundaries == old(boundaries) && pc == Next(old(pc), r)
      ensures r.Got? || r.Missing? || r.Failure?
      ensures r.Got? ==> name in world.requests && world.requests[name] == r.req && r.req.name == name
      ensures r.Missing? ==> name !in world.requests
    {
      Interfere();
      InvNow();
      assert name in world.requests ==> RecordOk(world, name);
      var outcome: Outcome := *;
      r := if outcome != Ok then Failure else if name in world.requests then Got(world.requests[name]) else Missing;
      Reply(outcome, NO_HINT, world, r);
    }

    /** One attempt to write the status of `sent`, at the version it carries. */
    method PutStatus(sent: Request) returns (r: Resp)
      requires Valid() && pc.Write? && sent == pc.req.(status := pc.status)
      modifies this
      ensures Valid() && boundaries == old(boundaries) && pc == Next(old(pc), r)
      ensures r.Success? ==>
                sent.name in world.requests && world.requests[sent.name] == sent.(version := sent.version + 1)
    {
      Interfere();
      InvNow();
      var outcome: Outcome := *;
      var next;
      next, r := WriteStatus(world, sent, sent.status, outcome).0, WriteStatus(world, sent, sent.status, outcome).1;
      Reply(outcome, NO_HINT, next, r);
    }

    method DeleteRequest(name: string) returns (r: Resp)
      requires Valid() && pc.Delete? && pc.req.name == name
      modifies this
      ensures Valid() && boundaries == old(boundaries) && pc == Next(old(pc), r)
      ensures r.Success? ==> name !in world.requests
    {
      Interfere();
      var outcome: Outcome := *;
      var (next, resp) := RemoveRequest(world, name, outcome);
      Reply(outcome, NO_HINT, next, resp);
      r := resp;
    }

    // The configuration file and the clock

    method ReadConfigFromFile() returns (r: Resp)
      requires Valid() && pc.LoadConfig?
      modifies this
      ensures Valid() && boundaries == old(boundaries) && pc == Next(old(pc), r)
      ensures r.Loaded? || r.Failure?
    {
      Interfere();
      var outcome: Outcome := *;
      r := if outcome == Ok && world.config.Some? then Loaded(world.config.value) else Failure;
      Reply(outcome, NO_HINT, world, r);
    }

    method Clock() returns (t: Time)
      requires Valid() && (pc.CheckStart? || pc.CheckTime? || pc.CheckEnd? || pc.Arm?)
      modifies this
      ensures Valid() && boundaries == old(boundaries) && pc == Next(old(pc), Resp.Clock(t))
      ensures world.now == t
    {
      Interfere();
      t := world.now;
      Reply(Ok, NO_HINT, world, Resp.Clock(t));
    }

    // Jira

    method AddComment(ticket: TicketRef, note: Comment) returns (r: Resp)
      requires Valid()
      requires match pc
               case RejectComment(req, _) => ticket == req.status.ticket && note == RejectedNote(req.status.message)
               case PreApproveComment(req, cfg, key) => ticket == Issue(key) && note == PreApprovalComment(req, cfg)
               case CompleteComment(req, _) => ticket == req.status.ticket && note == CompletedNote
               case _ => false
      modifies this
      ensures Valid() && boundaries == old(boundaries) && pc == Next(old(pc), r)
    {
      Interfere();
      var outcome: Outcome := *;
      var (next, resp) := PostComment(world, ticket, note, outcome);
      Reply(outcome, NO_HINT, next, resp);
      r := resp;
    }

    method Move(ticket: TicketRef, transition: string) returns (r: Resp)
      requires Valid()
      requires match pc
               case RejectMove(req, cfg) => ticket == req.status.ticket && transition == cfg.rejectedTransition
               case CompleteMove(req, cfg) => ticket == req.status.ticket && transition == cfg.completedTransition
               case _ => false
      modifies this
      ensures Valid() && boundaries == old(boundaries) && pc == Next(old(pc), r)
    {
      Interfere();
      var outcome: Outcome := *;
      var (next, resp) := MoveIssue(world, ticket, transition, outcome);
      Reply(outcome, NO_HINT, next, resp);
      r := resp;
    }

    /** Whether the ticket could be read and has the given status. */
    method HasStatus(ticket: TicketRef, status: string) returns (approved: bool)
      requires Valid() && pc.CheckApproval? && ticket == pc.req.status.ticket && status == pc.cfg.approvedStatus
      modifies this
      ensures Valid() && boundaries == old(boundaries) && pc == Next(old(pc), Approval(approved))
      ensures approved ==> ticket.Issue? && ticket.key in world.tickets && world.tickets[ticket.key].status == status
    {
      Interfere();
      var outcome: Outcome := *;
      var r := ReadApproval(world, ticket, status, outcome);
      Reply(outcome, NO_HINT, world, r);
      approved := r.approved;
    }

    method FindUser(email: string) returns (ok: bool)
      requires Valid() && pc.FindReporter? && pc.req.spec.reporter == email
      modifies this
      ensures Valid() && boundaries == old(boundaries) && pc == Next(old(pc), if ok then Success else Failure)
    {
      Interfere();
      var outcome: Outcome := *;
      ok := outcome == Ok && email in world.users;
      Reply(outcome, NO_HINT, world, if ok then Success else Failure);
    }

    /** The tracker picks the key. */
    method CreateTicket(payload: Fields, owner: nat) returns (r: Resp)
      requires Valid() && pc.OpenTicket? && pc.req.uid == owner && PayloadOk(pc.cfg, pc.req.spec, payload)
      modifies this
      ensures Valid() && boundaries == old(boundaries) && pc == Next(old(pc), r)
      ensures r.Opened? ==>
                && r.key in world.tickets && world.tickets[r.key].owner == owner
                && world.tickets[r.key].fields == payload
      ensures r.Opened? || r.Failure?
    {
      Interfere();
      var outcome: Outcome := *;
      ghost var unused := UnusedKey(world.tickets.Keys);
      assert unused !in world.tickets;
      var key: nat :| key !in world.tickets;
      var hint := Hint(key, payload, "");
      var (next, resp) := CreateIssue(world, owner, hint, outcome);
      Reply(outcome, hint, next, resp);
      r := resp;
    }

    // Namespaces and bindings

    /** `ValidateNamespaceLabels` behind the test of ENABLE_WEBHOOKS. */
    method CheckNamespaceLabels(spec: Spec) returns (invalid: Option<seq<string>>)
      requires Valid() && pc.CheckLabels? && pc.req.spec == spec
      modifies this
      ensures Valid() && boundaries == old(boundaries)
      ensures match invalid
              case Some(bad) => pc == Next(old(pc), Invalid(bad))
              case None => pc == Next(old(pc), Success)
      ensures world.webhooks ==> invalid.None?
      ensures invalid.None? ==>
                || world.webhooks || spec.namespaceLabels == map[]
                || forall ns | ns in spec.namespaces ::
                     ns in world.namespaces && spec.namespaceLabels.Items <= world.namespaces[ns].Items
      ensures invalid.Some? && invalid.value != [] ==>
                && !world.webhooks
                && invalid.value == Unmatched(spec.namespaces, Matching(world.namespaces, spec.namespaceLabels))
                && forall ns :: ns in invalid.value <==>
                     && ns in spec.namespaces
                     && !(ns in world.namespaces && spec.namespaceLabels.Items <= world.namespaces[ns].Items)
    {
      Interfere();
      if world.webhooks {
        Reply(Ok, NO_HINT, world, Success);
        return None;
      }
      var listing := Admission.ListNamespaces(world.namespaces, spec.namespaceLabels, false);
      invalid := ValidateNamespaceLabels(spec, listing);
      if listing.Some? {
        LabelCheckExact(world.namespaces, spec, listing.value);
      }
      ghost var outcome := if listing.Some? then Ok else Err;
      Reply(outcome, NO_HINT, world, ListLabels(world, spec, outcome));
    }

    method CheckNamespaceRegex(namespaces: seq<string>) returns (refused: Option<string>)
      requires Valid() && pc.CheckRegex? && pc.req.spec.namespaces == namespaces
      modifies this
      ensures Valid() && boundaries == old(boundaries)
      ensures pc == Next(old(pc), if refused.Some? then Invalid([refused.value]) else Success)
      ensures refused == FirstRefused(world.regex, namespaces)
      ensures refused.None? <==>
              world.regex.None? || forall i | 0 <= i < |namespaces| :: world.regex.value(namespaces[i])
      ensures refused.Some? ==>
                exists i :: && 0 <= i < |namespaces| && namespaces[i] == refused.value
                            && !world.regex.value(namespaces[i])
                            && forall j | 0 <= j < i :: world.regex.value(namespaces[j])
    {
      Interfere();
      refused := ValidateNamespaceRegex(world.regex, namespaces);
      assert Perform(world, pc, Ok, NO_HINT)
          == (world, if refused.Some? then Invalid([refused.value]) else Success);
      Reply(Ok, NO_HINT, world, if refused.Some? then Invalid([refused.value]) else Success);
    }

    /** Creates a binding unless the key is taken. When `quiet`, nothing else happens meanwhile. */
    method CreateRoleBinding(namespace: string, name: string, binding: Binding, quiet: bool) returns (r: Resp)
      requires Valid() && pc.Bind?
      requires pc.index < |pc.req.spec.namespaces| && pc.req.spec.namespaces[pc.index] == namespace
      requires name == BindingName(pc.req.name) && binding == BindingFor(pc.req)
      modifies this
      ensures Valid() && boundaries == old(boundaries) && pc == Next(old(pc), r)
      ensures r.Success? || r.Exists? ==> BindingKey(namespace, name) in world.bindings
      ensures r.Success? ==> world.bindings[BindingKey(namespace, name)] == binding
      ensures quiet ==>
                || world.bindings == old(world.bindings)
                || (&& BindingKey(namespace, name) !in old(world.bindings)
                    && world.bindings == old(world.bindings)[BindingKey(namespace, name) := binding])
    {
      if !quiet {
        Interfere();
      }
      var outcome: Outcome := *;
      var key, next := BindingKey(namespace, name), world;
      if outcome == Err || namespace !in world.namespaces {
        r := Failure;
      } else if key in world.bindings {
        r := if outcome == Ok then Exists else Failure;
      } else {
        next := world.(bindings := world.bindings[key := binding]);
        r := if outcome == Ok then Success else Failure;
      }
      Reply(outcome, NO_HINT, next, r);
    }

    /**
     The bindings of one namespace, in whatever order the server lists them; the call may fail. When
     `quiet`, nothing else happens meanwhile.
     */
    method ListRoleBindings(namespace: string, quiet: bool) returns (ok: bool, items: seq<Item>)
      requires Valid()
      modifies this
      ensures Valid() && pc == old(pc) && boundaries == old(boundaries)
      ensures quiet ==> world == old(world)
      ensures Lists(items, world.bindings, namespace)
    {
      if !quiet {
        Interfere();
      }
      ok := *;
      items := [];
      var todo := set k | k in world.bindings && k.namespace == namespace;
      while todo != {}
        invariant Valid() && pc == old(pc) && boundaries == old(boundaries) && (quiet ==> world == old(world))
        invariant forall k | k in todo :: k in world.bindings && k.namespace == namespace
        invariant forall i | i in items ::
                    i.key.namespace == namespace && i.key in world.bindings && world.bindings[i.key] == i.binding
        invariant forall k | k in world.bindings && k.namespace == namespace ::
                    k in todo || Item(k, world.bindings[k]) in items
      {
        var k :| k in todo;
        items := items + [Item(k, world.bindings[k])];
        todo := todo - {k};
      }
    }

    /** Deletes a binding; the call may fail, with or without effect. Not-found counts as success. */
    method DeleteRoleBinding(key: BindingKey, quiet: bool) returns (ok: bool)
      requires Valid()
      modifies this
      ensures Valid() && pc == old(pc) && boundaries == old(boundaries)
      ensures ok ==> key !in world.bindings
      ensures quiet ==> world == old(world) || world == Unbound(old(world), key)
    {
      if !quiet {
        Interfere();
      }
      var outcome: Outcome := *;
      ok := outcome == Ok || (outcome == Err && key !in world.bindings);
      if outcome != Err && key in world.bindings {
        Take(Env(RemoveBinding(key)), Unbound(world, key));
      }
    }

    /** The fields are compared in memory: no call is made. */
    method FieldsScanned(missing: Option<string>)
      requires Valid() && pc.ScanFields?
      requires missing.None? ==> MissingFields(pc.cfg, pc.req.spec) == {}
      requires missing.Some? ==> missing.value in MissingFields(pc.cfg, pc.req.spec)
      modifies this
      ensures Valid() && boundaries == old(boundaries)
      ensures pc == Next(old(pc), if missing.Some? then LacksField(missing.value) else Success)
    {
      ghost var r := if missing.Some? then LacksField(missing.value) else Success;
      Reply(Ok, Hint(0, map[], if missing.Some? then missing.value else ""), world, r);
    }
  }
}
