/**
 The two loops over role bindings: `createRoleBinding`, which can break off anywhere and be run
 again, and `deleteOwnedObjects`, which undoes it.
 */
module Bindings {
  import opened Types
  import opened Machine

  type Store = map<BindingKey, Binding>

  /** What the creation loop has done after going through `namespaces`. */
  function Created(store: Store, req: Request, namespaces: seq<string>): Store {
    if namespaces == [] then store
    else
      var done := Created(store, req, namespaces[..|namespaces| - 1]);
      var key := BindingKeyOf(req, namespaces[|namespaces| - 1]);
      if key in done then done else done[key := BindingFor(req)]
  }

  function KeysOf(req: Request, namespaces: set<string>): set<BindingKey> {
    set ns | ns in namespaces :: BindingKeyOf(req, ns)
  }

  function Filled(store: Store, keys: set<BindingKey>, b: Binding): Store {
    (map k | k in keys && k !in store :: b) + store
  }

  lemma FilledAdd(store: Store, keys: set<BindingKey>, key: BindingKey, b: Binding)
    ensures var done := Filled(store, keys, b);
            Filled(store, keys + {key}, b) == if key in done then done else done[key := b]
  {
  }

  lemma FilledTwice(store: Store, first: set<BindingKey>, second: set<BindingKey>, b: Binding)
    ensures Filled(Filled(store, first, b), second, b) == Filled(store, first + second, b)
  {
  }

  /** The same, independent of order and repetition: every missing key is added, nothing is changed. */
  function Completed(store: Store, req: Request, namespaces: set<string>): Store {
    Filled(store, KeysOf(req, namespaces), BindingFor(req))
  }

  lemma KeysOfUnion(req: Request, a: set<string>, b: set<string>)
    ensures KeysOf(req, a + b) == KeysOf(req, a) + KeysOf(req, b)
  {
  }

  lemma CompletedAdd(store: Store, req: Request, names: set<string>, ns: string)
    ensures var done := Completed(store, req, names); var key := BindingKeyOf(req, ns);
            Completed(store, req, names + {ns}) == if key in done then done else done[key := BindingFor(req)]
  {
    FilledAdd(store, KeysOf(req, names), BindingKeyOf(req, ns), BindingFor(req));
    KeysOfUnion(req, names, {ns});
    assert KeysOf(req, {ns}) == {BindingKeyOf(req, ns)};
  }

  lemma {:induction false} CreatedIsCompleted(store: Store, req: Request, namespaces: seq<string>)
    ensures Created(store, req, namespaces) == Completed(store, req, set ns | ns in namespaces)
  {
    if namespaces != [] {
      var n := |namespaces| - 1;
      CreatedIsCompleted(store, req, namespaces[..n]);
      CompletedAdd(store, req, (set ns | ns in namespaces[..n]), namespaces[n]);
      assert (set ns | ns in namespaces) == (set ns | ns in namespaces[..n]) + {namespaces[n]};
    } else {
      assert Completed(store, req, {}) == store;
    }
  }

  /** Exactly the missing keys are added, with this request's binding, and existing entries stay as they are. */
  lemma CreatedExactly(store: Store, req: Request, namespaces: seq<string>)
    ensures var after := Created(store, req, namespaces);
            && after.Keys == store.Keys + (set ns | ns in namespaces :: BindingKey(ns, req.name + "-jit"))
            && (forall k | k in store :: after[k] == store[k])
            && (forall k | k in after && k !in store ::
                  after[k] == Binding([OwnerRef("JitRequest", req.name, req.uid)],
                                      [req.spec.reporter] + req.spec.additionalEmails,
                                      req.spec.clusterRole, req.spec.endTime))
  {
    CreatedIsCompleted(store, req, namespaces);
    var names := set ns | ns in namespaces;
    forall ns | ns in namespaces ensures BindingKeyOf(req, ns) in Completed(store, req, names) {
      assert ns in names;
    }
  }

  /**
   One call of the loop that gets past a namespace leaves it with the request's own binding exactly
   if the key was free or its own when the call was made: another owner's binding is left as it is.
   */
  lemma PassedOwnsIff(w: World, req: Request, namespace: string, outcome: Outcome)
    requires var r := CreateBinding(w, req, namespace, outcome).1; r.Success? || r.Exists?
    ensures var key := BindingKeyOf(req, namespace); var after := CreateBinding(w, req, namespace, outcome).0.bindings;
            && key in after
            && (OwnedBy(after[key], req.uid) <==> key !in w.bindings || OwnedBy(w.bindings[key], req.uid))
  {
    assert OwnRef(req) in BindingFor(req).owners;
  }

  /** The same for the whole loop. */
  lemma CreatedOwnsIff(store: Store, req: Request, namespaces: seq<string>, namespace: string)
    requires namespace in namespaces
    ensures var key := BindingKeyOf(req, namespace); var after := Created(store, req, namespaces);
            && key in after
            && (OwnedBy(after[key], req.uid) <==> key !in store || OwnedBy(store[key], req.uid))
  {
    CreatedExactly(store, req, namespaces);
    assert OwnRef(req) in BindingFor(req).owners;
  }

  /** Order and repetition of the namespaces do not matter. */
  lemma CreatedIgnoresOrder(store: Store, req: Request, a: seq<string>, b: seq<string>)
    requires forall ns :: ns in a <==> ns in b
    ensures Created(store, req, a) == Created(store, req, b)
  {
    CreatedIsCompleted(store, req, a);
    CreatedIsCompleted(store, req, b);
    assert (set ns | ns in a) == (set ns | ns in b);
  }

  predicate StopsWithin(namespaces: seq<string>, stops: seq<nat>) {
    forall i | 0 <= i < |stops| :: stops[i] <= |namespaces|
  }

  /** A history of attempts, each broken off after some number of namespaces. */
  function Attempts(store: Store, req: Request, namespaces: seq<string>, stops: seq<nat>): Store
    requires StopsWithin(namespaces, stops)
  {
    if stops == [] then store
    else
      Created(Attempts(store, req, namespaces, stops[..|stops| - 1]), req, namespaces[..stops[|stops| - 1]])
  }

  lemma CompletedTwice(store: Store, req: Request, a: set<string>, b: set<string>)
    ensures Completed(Completed(store, req, a), req, b) == Completed(store, req, a + b)
  {
    FilledTwice(store, KeysOf(req, a), KeysOf(req, b), BindingFor(req));
    KeysOfUnion(req, a, b);
  }

  lemma {:induction false} AttemptsAreCompleted(store: Store, req: Request, namespaces: seq<string>, stops: seq<nat>)
    returns (covered: set<string>)
    requires StopsWithin(namespaces, stops)
    ensures forall ns | ns in covered :: ns in namespaces
    ensures Attempts(store, req, namespaces, stops) == Completed(store, req, covered)
  {
    if stops == [] {
      covered := {};
      assert Completed(store, req, {}) == store;
    } else {
      var n := |stops| - 1;
      var before := AttemptsAreCompleted(store, req, namespaces, stops[..n]);
      var last := namespaces[..stops[n]];
      var lastSet := set ns | ns in last;
      CreatedIsCompleted(Attempts(store, req, namespaces, stops[..n]), req, last);
      CompletedTwice(store, req, before, lastSet);
      covered := before + lastSet;
    }
  }

  /**
   Resumable creation: broken off at any namespace, any number of times, and then run to the end,
   it leaves the same store as one uninterrupted run.
   */
  lemma CreationResumes(store: Store, req: Request, namespaces: seq<string>, stops: seq<nat>)
    requires StopsWithin(namespaces, stops)
    ensures Created(Attempts(store, req, namespaces, stops), req, namespaces) == Created(store, req, namespaces)
  {
    var covered := AttemptsAreCompleted(store, req, namespaces, stops);
    var all := set ns | ns in namespaces;
    CreatedIsCompleted(Attempts(store, req, namespaces, stops), req, namespaces);
    CreatedIsCompleted(store, req, namespaces);
    CompletedTwice(store, req, covered, all);
    assert covered + all == all;
  }

  // The loop as the machine runs it

  /** How far the creation loop of `req` has got in state `t`, started from `store`. */
  predicate LoopAt(t: State, store: Store, req: Request, cfg: Config, k: nat) {
    && k <= |req.spec.namespaces|
    && t.world.bindings == Created(store, req, req.spec.namespaces[..k])
    && (|| t.pc == BindFrom(req, cfg, k)
        || t.pc == Finished(req.name, Error))
  }

  lemma CreatedNext(store: Store, req: Request, namespaces: seq<string>, k: nat)
    requires k < |namespaces|
    ensures var done := Created(store, req, namespaces[..k]); var key := BindingKeyOf(req, namespaces[k]);
            Created(store, req, namespaces[..k + 1]) == if key in done then done else done[key := BindingFor(req)]
  {
    assert namespaces[..k + 1][..k] == namespaces[..k];
  }

  lemma LoopStep(t: State, store: Store, req: Request, cfg: Config, k: nat, outcome: Outcome, hint: Hint)
    returns (k': nat)
    requires LoopAt(t, store, req, cfg, k) && t.pc.Bind?
    ensures LoopAt(Answer(t, outcome, hint), store, req, cfg, k')
    ensures k' == k || k' == k + 1
    ensures Answer(t, outcome, hint).pc.Finished? || k' == k + 1
  {
    CreatedNext(store, req, req.spec.namespaces, k);
    var key := BindingKeyOf(req, req.spec.namespaces[k]);
    var next := Answer(t, outcome, hint);
    if next.pc.Finished? && next.world.bindings == t.world.bindings {
      k' := k;
    } else {
      k' := k + 1;
    }
  }

  /**
   Whatever the outcomes of its calls, the creation loop leaves the store as after some number of
   its namespaces; when it gets past the loop, after all of them.
   */
  lemma {:induction false} LoopCreatesPrefix(s: State, answers: seq<(Outcome, Hint)>, req: Request, cfg: Config)
    returns (t: State, k: nat)
    requires s.pc == BindFrom(req, cfg, 0)
    ensures LoopAt(t, s.world.bindings, req, cfg, k)
    ensures t.pc.CompleteComment? ==> t.world.bindings == Created(s.world.bindings, req, req.spec.namespaces)
    ensures t == BindingLoop(s, answers)
  {
    if answers == [] {
      t, k := s, 0;
    } else {
      var n := |answers| - 1;
      t, k := LoopCreatesPrefix(s, answers[..n], req, cfg);
      if t.pc.Bind? {
        var k' := LoopStep(t, s.world.bindings, req, cfg, k, answers[n].0, answers[n].1);
        t, k := Answer(t, answers[n].0, answers[n].1), k';
      }
    }
    assert k == |req.spec.namespaces| ==> req.spec.namespaces[..k] == req.spec.namespaces;
  }

  /** The calls of the creation loop with the given answers. */
  function BindingLoop(s: State, answers: seq<(Outcome, Hint)>): State {
    if answers == [] then s
    else
      var t := BindingLoop(s, answers[..|answers| - 1]);
      if t.pc.Bind? then Answer(t, answers[|answers| - 1].0, answers[|answers| - 1].1) else t
  }

  // deleteOwnedObjects

  predicate OwnedByName(b: Binding, name: string) {
    exists o | o in b.owners :: o.kind == REQUEST_KIND && o.name == name
  }

  /** The store without the bindings in the listed namespaces that have an owner of that kind and name. */
  function DeleteOwned(store: Store, name: string, namespaces: set<string>): Store {
    map k | k in store && !(k.namespace in namespaces && OwnedByName(store[k], name)) :: store[k]
  }

  /**
   Delete undoes create: on a store that had none of the keys and nothing so owned in those
   namespaces, deleting after creating gives the store back.
   */
  lemma DeleteUndoesCreate(store: Store, req: Request, namespaces: seq<string>)
    requires forall ns | ns in namespaces :: BindingKeyOf(req, ns) !in store
    requires forall k | k in store && k.namespace in namespaces :: !OwnedByName(store[k], req.name)
    ensures DeleteOwned(Created(store, req, namespaces), req.name, set ns | ns in namespaces) == store
  {
    CreatedExactly(store, req, namespaces);
    var after := Created(store, req, namespaces);
    forall k | k in after && k !in store ensures k.namespace in namespaces && OwnedByName(after[k], req.name) {
      var ns :| ns in namespaces && k == BindingKeyOf(req, ns);
      assert OwnRef(req) in after[k].owners;
    }
  }

  function OwnRef(req: Request): OwnerRef {
    OwnerRef(REQUEST_KIND, req.name, req.uid)
  }

  /** `now` lacks only bindings in the namespaces that are owned by the name. */
  predicate OnlyOwnedGone(was: Store, now: Store, name: string, namespaces: set<string>) {
    && (forall k | k in now :: k in was && now[k] == was[k])
    && (forall k | k in was && k !in now :: k.namespace in namespaces && OwnedByName(was[k], name))
  }

  predicate NoneOwned(now: Store, name: string, namespaces: set<string>) {
    forall k | k in now && k.namespace in namespaces :: !OwnedByName(now[k], name)
  }

  lemma GoneAndClear(was: Store, now: Store, name: string, namespaces: set<string>)
    requires OnlyOwnedGone(was, now, name, namespaces) && NoneOwned(now, name, namespaces)
    ensures now == DeleteOwned(was, name, namespaces)
  {
  }

  datatype Item = Item(key: BindingKey, binding: Binding)

  predicate Lists(items: seq<Item>, store: Store, namespace: string) {
    && (forall i | i in items :: i.key.namespace == namespace && i.key in store && store[i.key] == i.binding)
    && (forall k | k in store && k.namespace == namespace :: Item(k, store[k]) in items)
  }
}
