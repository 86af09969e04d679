/**
 The fields of a new ticket. `createJiraTicket` ranges over the configured custom fields and then
 over the three required ones, each in an order the language leaves open; an entry for a Jira field
 id overrides an earlier one. The payload is the fold over two such orders, and the theorem says
 exactly when the orders do not matter.
 */
module Payload {
  import opened Types
  import opened Validation

  /** `addCustomField`: the entry one configured field contributes; an unknown kind contributes none. */
  function Encode(settings: FieldSettings, value: RawValue): Option<FieldValue> {
    if settings.kind == "text" || settings.kind == "date" then Some(Plain(value))
    else if settings.kind == "select" then Some(Choice(value))
    else if settings.kind == "user" then Some(Account(value))
    else None
  }

  function AddCustomField(p: Fields, settings: FieldSettings, value: RawValue): Fields {
    match Encode(settings, value)
    case Some(v) => p[settings.id := v]
    case None => p
  }

  datatype RequiredName = StartTimeField | EndTimeField | ClusterRoleField

  const REQUIRED: set<RequiredName> := {StartTimeField, EndTimeField, ClusterRoleField}

  function RequiredSettings(r: RequiredFields, name: RequiredName): FieldSettings {
    match name
    case StartTimeField => r.startTime
    case EndTimeField => r.endTime
    case ClusterRoleField => r.clusterRole
  }

  function RequiredValue(spec: Spec, name: RequiredName): RawValue {
    match name
    case StartTimeField => Stamp(spec.startTime)
    case EndTimeField => Stamp(spec.endTime)
    case ClusterRoleField => Text(spec.clusterRole)
  }

  /** The order in which a loop ranges over the keys of a map: each key once. */
  ghost predicate OrderOf<T(!new)>(order: seq<T>, keys: set<T>) {
    && (forall x :: x in order <==> x in keys)
    && (forall i, j | 0 <= i < j < |order| :: order[i] != order[j])
  }

  predicate Given(cfg: Config, spec: Spec, customs: seq<string>) {
    forall f | f in customs :: f in cfg.customFields && f in spec.jiraFields
  }

  /** The payload after the first loop has ranged over `customs`. */
  function CustomPayload(cfg: Config, spec: Spec, customs: seq<string>): Fields
    requires Given(cfg, spec, customs)
  {
    if customs == [] then map[]
    else
      var n := |customs| - 1;
      var f := customs[n];
      AddCustomField(CustomPayload(cfg, spec, customs[..n]), cfg.customFields[f], Text(spec.jiraFields[f]))
  }

  /** The payload `p` after the second loop has ranged over `required`. */
  function RequiredPayload(cfg: Config, spec: Spec, p: Fields, required: seq<RequiredName>): Fields {
    if required == [] then p
    else
      var n := |required| - 1;
      AddCustomField(RequiredPayload(cfg, spec, p, required[..n]),
                     RequiredSettings(cfg.requiredFields, required[n]), RequiredValue(spec, required[n]))
  }

  function PayloadFor(cfg: Config, spec: Spec, customs: seq<string>, required: seq<RequiredName>): Fields
    requires Given(cfg, spec, customs)
  {
    RequiredPayload(cfg, spec, CustomPayload(cfg, spec, customs), required)
  }

  ghost predicate BuiltBy(cfg: Config, spec: Spec, p: Fields, customs: seq<string>, required: seq<RequiredName>) {
    && OrderOf(customs, cfg.customFields.Keys) && OrderOf(required, REQUIRED)
    && Given(cfg, spec, customs) && p == PayloadFor(cfg, spec, customs, required)
  }

  /** A payload some pair of orders produces. */
  ghost predicate PayloadOk(cfg: Config, spec: Spec, p: Fields) {
    exists customs, required :: BuiltBy(cfg, spec, p, customs, required)
  }

  /** No two configured fields, custom or required, share a Jira field id. */
  ghost predicate DistinctIds(cfg: Config) {
    var r := cfg.requiredFields;
    var start, end, role := r.startTime.id, r.endTime.id, r.clusterRole.id;
    && start != end && start != role && end != role
    && (forall f | f in cfg.customFields :: cfg.customFields[f].id !in {start, end, role})
    && (forall f, g | f in cfg.customFields && g in cfg.customFields && f != g ::
          cfg.customFields[f].id != cfg.customFields[g].id)
  }

  /** The payload holds the value in the form the field's kind asks for; a field of another kind is not sent. */
  predicate SentAs(p: Fields, field: FieldSettings, value: RawValue) {
    && (field.kind == "user" ==> field.id in p && p[field.id] == Account(value))
    && (field.kind == "select" ==> field.id in p && p[field.id] == Choice(value))
    && (field.kind == "text" || field.kind == "date" ==> field.id in p && p[field.id] == Plain(value))
    && (field.kind !in ["user", "select", "text", "date"] ==> field.id !in p)
  }

  /** Every configured field is sent with the value the request gives, the required ones with its times and role. */
  ghost predicate FieldsSent(cfg: Config, spec: Spec, p: Fields) {
    && (forall f | f in cfg.customFields ::
          f in spec.jiraFields && SentAs(p, cfg.customFields[f], Text(spec.jiraFields[f])))
    && SentAs(p, cfg.requiredFields.startTime, Stamp(spec.startTime))
    && SentAs(p, cfg.requiredFields.endTime, Stamp(spec.endTime))
    && SentAs(p, cfg.requiredFields.clusterRole, Text(spec.clusterRole))
    && forall id | id in p ::
         || id == cfg.requiredFields.startTime.id || id == cfg.requiredFields.endTime.id
         || id == cfg.requiredFields.clusterRole.id
         || exists f :: f in cfg.customFields && cfg.customFields[f].id == id
  }

  /**
   The two loops of `createJiraTicket` that fill the payload, each ranging over its keys in an
   arbitrary order. It stops at the first configured field the request does not give.
   */
  method BuildPayload(cfg: Config, spec: Spec) returns (missing: Option<string>, payload: Fields)
    ensures missing.None? <==> forall f | f in cfg.customFields :: f in spec.jiraFields
    ensures missing.Some? ==> missing.value in cfg.customFields && missing.value !in spec.jiraFields
    ensures missing.Some? ==> missing.value in MissingFields(cfg, spec)
    ensures missing.None? ==> MissingFields(cfg, spec) == {} && PayloadOk(cfg, spec, payload)
    ensures missing.None? && DistinctIds(cfg) ==> FieldsSent(cfg, spec, payload)
  {
    payload := map[];
    var todo := cfg.customFields.Keys;
    ghost var customs: seq<string> := [];
    while todo != {}
      invariant todo <= cfg.customFields.Keys
      invariant OrderOf(customs, cfg.customFields.Keys - todo) && Given(cfg, spec, customs)
      invariant payload == CustomPayload(cfg, spec, customs)
    {
      var f :| f in todo;
      if f !in spec.jiraFields {
        assert f in MissingFields(cfg, spec);
        return Some(f), payload;
      }
      payload := AddCustomField(payload, cfg.customFields[f], Text(spec.jiraFields[f]));
      VisitNext(customs, cfg.customFields.Keys, todo, f);
      customs, todo := customs + [f], todo - {f};
    }
    assert cfg.customFields.Keys - todo == cfg.customFields.Keys;
    NoneMissing(cfg, spec, customs);
    payload := AddRequiredFields(cfg, spec, payload, customs);
    if DistinctIds(cfg) {
      PayloadCovers(cfg, spec, payload);
    }
    return None, payload;
  }

  /** The second loop of `createJiraTicket`. */
  method AddRequiredFields(cfg: Config, spec: Spec, given: Fields, ghost customs: seq<string>) returns (payload: Fields)
    requires OrderOf(customs, cfg.customFields.Keys) && Given(cfg, spec, customs)
    requires given == CustomPayload(cfg, spec, customs)
    ensures PayloadOk(cfg, spec, payload)
  {
    payload := given;
    var left := REQUIRED;
    ghost var required: seq<RequiredName> := [];
    while left != {}
      invariant left <= REQUIRED
      invariant OrderOf(required, REQUIRED - left)
      invariant payload == RequiredPayload(cfg, spec, given, required)
    {
      var n :| n in left;
      payload := AddCustomField(payload, RequiredSettings(cfg.requiredFields, n), RequiredValue(spec, n));
      VisitNext(required, REQUIRED, left, n);
      required, left := required + [n], left - {n};
    }
    assert REQUIRED - left == REQUIRED;
    assert BuiltBy(cfg, spec, payload, customs, required);
  }

  /** A loop that visits one more of the keys left extends the order by it. */
  lemma VisitNext<T(!new)>(order: seq<T>, keys: set<T>, left: set<T>, x: T)
    requires x in left && left <= keys && OrderOf(order, keys - left)
    ensures OrderOf(order + [x], keys - (left - {x})) && (order + [x])[..|order|] == order
  {
    OrderGrows(order, keys - left, x);
    assert keys - (left - {x}) == (keys - left) + {x};
  }

  lemma NoneMissing(cfg: Config, spec: Spec, customs: seq<string>)
    requires OrderOf(customs, cfg.customFields.Keys) && Given(cfg, spec, customs)
    ensures MissingFields(cfg, spec) == {}
  {
    forall f | f in cfg.customFields ensures f in spec.jiraFields {
      assert f in customs;
    }
  }

  // Orders

  lemma OrderGrows<T(!new)>(order: seq<T>, keys: set<T>, x: T)
    requires OrderOf(order, keys) && x !in keys
    ensures OrderOf(order + [x], keys + {x})
  {
  }

  lemma OrderExists<T(!new)>(keys: set<T>) returns (order: seq<T>)
    ensures OrderOf(order, keys)
  {
    order := [];
    var todo := keys;
    while todo != {}
      invariant todo <= keys && OrderOf(order, keys - todo)
    {
      var x :| x in todo;
      VisitNext(order, keys, todo, x);
      order, todo := order + [x], todo - {x};
    }
    assert keys - todo == keys;
  }

  /** Any key can come last. */
  lemma OrderEndingIn<T(!new)>(keys: set<T>, last: T) returns (order: seq<T>)
    requires last in keys
    ensures OrderOf(order, keys) && |order| > 0 && order[|order| - 1] == last
  {
    var front := OrderExists(keys - {last});
    OrderGrows(front, keys - {last}, last);
    assert (keys - {last}) + {last} == keys;
    order := front + [last];
  }

  /** A payload exists for every request that gives its fields. */
  lemma PayloadExists(cfg: Config, spec: Spec) returns (p: Fields)
    requires MissingFields(cfg, spec) == {}
    ensures PayloadOk(cfg, spec, p)
  {
    var customs := OrderExists(cfg.customFields.Keys);
    var required := OrderExists(REQUIRED);
    GivenAll(cfg, spec, customs);
    p := PayloadFor(cfg, spec, customs, required);
    assert BuiltBy(cfg, spec, p, customs, required);
  }

  lemma GivenAll(cfg: Config, spec: Spec, customs: seq<string>)
    requires MissingFields(cfg, spec) == {} && OrderOf(customs, cfg.customFields.Keys)
    ensures Given(cfg, spec, customs)
  {
    forall f | f in customs ensures f in cfg.customFields && f in spec.jiraFields {
      assert f !in MissingFields(cfg, spec);
    }
  }

  // What a payload holds

  /** The custom field `field` puts `value` under the Jira field `id`. */
  predicate CustomSupplies(cfg: Config, spec: Spec, field: string, id: string, value: FieldValue) {
    field in cfg.customFields && field in spec.jiraFields && cfg.customFields[field].id == id
    && Encode(cfg.customFields[field], Text(spec.jiraFields[field])) == Some(value)
  }

  predicate RequiredSupplies(cfg: Config, spec: Spec, name: RequiredName, id: string, value: FieldValue) {
    RequiredSettings(cfg.requiredFields, name).id == id
    && Encode(RequiredSettings(cfg.requiredFields, name), RequiredValue(spec, name)) == Some(value)
  }

  /** Some field of a known kind that the loop has visited has this id. */
  predicate CustomTouches(cfg: Config, spec: Spec, customs: seq<string>, id: string) {
    exists f | f in customs :: CustomAt(cfg, spec, f, id)
  }

  predicate CustomAt(cfg: Config, spec: Spec, field: string, id: string) {
    && field in cfg.customFields && field in spec.jiraFields && cfg.customFields[field].id == id
    && Encode(cfg.customFields[field], Text(spec.jiraFields[field])).Some?
  }

  predicate RequiredAt(cfg: Config, spec: Spec, name: RequiredName, id: string) {
    && RequiredSettings(cfg.requiredFields, name).id == id
    && Encode(RequiredSettings(cfg.requiredFields, name), RequiredValue(spec, name)).Some?
  }

  predicate RequiredTouches(cfg: Config, spec: Spec, required: seq<RequiredName>, id: string) {
    exists n | n in required :: RequiredAt(cfg, spec, n, id)
  }

  /** The first loop leaves a value for `id` exactly if it visits a field for it, and it is that of such a field. */
  lemma {:induction false} CustomPayloadAt(cfg: Config, spec: Spec, customs: seq<string>, id: string)
    requires Given(cfg, spec, customs)
    ensures var p := CustomPayload(cfg, spec, customs);
            && (id in p <==> CustomTouches(cfg, spec, customs, id))
            && (id in p ==> exists f | f in customs :: CustomSupplies(cfg, spec, f, id, p[id]))
  {
    if customs != [] {
      var n := |customs| - 1;
      CustomPayloadAt(cfg, spec, customs[..n], id);
      assert customs == customs[..n] + [customs[n]];
      var p, before := CustomPayload(cfg, spec, customs), CustomPayload(cfg, spec, customs[..n]);
      if CustomAt(cfg, spec, customs[n], id) {
        assert CustomSupplies(cfg, spec, customs[n], id, p[id]);
      } else {
        assert id in p <==> id in before;
        assert id in p ==> p[id] == before[id];
      }
    }
  }

  /** The second loop overrides with the value of a required field for `id`, if there is one. */
  lemma {:induction false} RequiredPayloadAt(cfg: Config, spec: Spec, base: Fields,
                                             required: seq<RequiredName>, id: string)
    ensures var p := RequiredPayload(cfg, spec, base, required);
            if RequiredTouches(cfg, spec, required, id) then
              id in p && exists n | n in required :: RequiredSupplies(cfg, spec, n, id, p[id])
            else (id in p <==> id in base) && (id in p ==> p[id] == base[id])
  {
    if required != [] {
      var n := |required| - 1;
      RequiredPayloadAt(cfg, spec, base, required[..n], id);
      assert required == required[..n] + [required[n]];
      var p := RequiredPayload(cfg, spec, base, required);
      if RequiredAt(cfg, spec, required[n], id) {
        assert RequiredSupplies(cfg, spec, required[n], id, p[id]);
      }
    }
  }

  predicate Overridden(cfg: Config, spec: Spec, id: string) {
    exists n | n in REQUIRED :: RequiredAt(cfg, spec, n, id)
  }

  lemma AllRequired(n: RequiredName)
    ensures n in REQUIRED
  {
    match n
    case StartTimeField =>
    case EndTimeField =>
    case ClusterRoleField =>
  }

  /** What the payload holds under an id, whatever the orders. */
  ghost predicate HoldsAt(cfg: Config, spec: Spec, p: Fields, id: string) {
    if Overridden(cfg, spec, id) then id in p && exists n :: RequiredSupplies(cfg, spec, n, id, p[id])
    else
      && (id in p <==> exists f :: CustomAt(cfg, spec, f, id))
      && (id in p ==> exists f :: CustomSupplies(cfg, spec, f, id, p[id]))
  }

  /**
   A required field of a known kind always wins over custom fields with its id; otherwise the value
   is that of one of the custom fields with the id.
   */
  lemma PayloadHolds(cfg: Config, spec: Spec, p: Fields, id: string)
    requires PayloadOk(cfg, spec, p)
    ensures HoldsAt(cfg, spec, p, id)
  {
    var customs, required :| BuiltBy(cfg, spec, p, customs, required);
    CustomPayloadAt(cfg, spec, customs, id);
    RequiredPayloadAt(cfg, spec, CustomPayload(cfg, spec, customs), required, id);
    if Overridden(cfg, spec, id) {
      var n :| n in REQUIRED && RequiredAt(cfg, spec, n, id);
      assert n in required;
    } else if f :| CustomAt(cfg, spec, f, id) {
      assert f in customs;
    }
  }

  // When the orders do not matter

  /** Required fields of known kinds that share an id supply one value. */
  predicate RequiredAgree(cfg: Config, spec: Spec) {
    forall n, m | n in REQUIRED && m in REQUIRED && RequiredAt(cfg, spec, n, RequiredSettings(cfg.requiredFields, n).id)
                  && RequiredAt(cfg, spec, m, RequiredSettings(cfg.requiredFields, n).id) ::
      Encode(RequiredSettings(cfg.requiredFields, n), RequiredValue(spec, n))
      == Encode(RequiredSettings(cfg.requiredFields, m), RequiredValue(spec, m))
  }

  /** Custom fields of known kinds that share an id no required field overrides supply one value. */
  predicate CustomsAgree(cfg: Config, spec: Spec)
    requires MissingFields(cfg, spec) == {}
  {
    forall f, g | f in cfg.customFields && g in cfg.customFields && Clash(cfg, spec, f, g) ::
      SameEntry(cfg, spec, f, g)
  }

  predicate Clash(cfg: Config, spec: Spec, f: string, g: string)
    requires f in cfg.customFields
  {
    var id := cfg.customFields[f].id;
    CustomAt(cfg, spec, f, id) && CustomAt(cfg, spec, g, id) && !Overridden(cfg, spec, id)
  }

  predicate SameEntry(cfg: Config, spec: Spec, f: string, g: string) {
    && f in cfg.customFields && g in cfg.customFields && f in spec.jiraFields && g in spec.jiraFields
    && Encode(cfg.customFields[f], Text(spec.jiraFields[f])) == Encode(cfg.customFields[g], Text(spec.jiraFields[g]))
  }

  ghost predicate OrderIndependent(cfg: Config, spec: Spec) {
    forall p, q | PayloadOk(cfg, spec, p) && PayloadOk(cfg, spec, q) :: p == q
  }

  lemma AgreementDecides(cfg: Config, spec: Spec, p: Fields, q: Fields)
    requires MissingFields(cfg, spec) == {} && RequiredAgree(cfg, spec) && CustomsAgree(cfg, spec)
    requires PayloadOk(cfg, spec, p) && PayloadOk(cfg, spec, q)
    ensures p == q
  {
    forall id ensures id in p <==> id in q
      ensures id in p && id in q ==> p[id] == q[id]
    {
      PayloadHolds(cfg, spec, p, id);
      PayloadHolds(cfg, spec, q, id);
      if id in p && id in q {
        SameAt(cfg, spec, id, p[id], q[id]);
      }
    }
    assert p.Keys == q.Keys;
  }

  ghost predicate Possible(cfg: Config, spec: Spec, id: string, v: FieldValue) {
    if Overridden(cfg, spec, id) then exists n :: RequiredSupplies(cfg, spec, n, id, v)
    else exists f :: CustomSupplies(cfg, spec, f, id, v)
  }

  lemma SameAt(cfg: Config, spec: Spec, id: string, v: FieldValue, w: FieldValue)
    requires MissingFields(cfg, spec) == {} && RequiredAgree(cfg, spec) && CustomsAgree(cfg, spec)
    requires Possible(cfg, spec, id, v) && Possible(cfg, spec, id, w)
    ensures v == w
  {
    if Overridden(cfg, spec, id) {
      var n :| RequiredSupplies(cfg, spec, n, id, v);
      var m :| RequiredSupplies(cfg, spec, m, id, w);
      AllRequired(n);
      AllRequired(m);
    } else {
      var f :| CustomSupplies(cfg, spec, f, id, v);
      var g :| CustomSupplies(cfg, spec, g, id, w);
      assert Clash(cfg, spec, f, g);
    }
  }

  /** The field visited last decides. */
  lemma CustomLast(cfg: Config, spec: Spec, f: string, id: string) returns (p: Fields)
    requires MissingFields(cfg, spec) == {} && CustomAt(cfg, spec, f, id) && !Overridden(cfg, spec, id)
    ensures PayloadOk(cfg, spec, p) && id in p && CustomSupplies(cfg, spec, f, id, p[id])
  {
    var customs := OrderEndingIn(cfg.customFields.Keys, f);
    var required := OrderExists(REQUIRED);
    GivenAll(cfg, spec, customs);
    RequiredPayloadAt(cfg, spec, CustomPayload(cfg, spec, customs), required, id);
    p := PayloadFor(cfg, spec, customs, required);
    assert BuiltBy(cfg, spec, p, customs, required);
  }

  lemma RequiredLast(cfg: Config, spec: Spec, n: RequiredName, id: string) returns (p: Fields)
    requires MissingFields(cfg, spec) == {} && RequiredAt(cfg, spec, n, id)
    ensures PayloadOk(cfg, spec, p) && id in p && RequiredSupplies(cfg, spec, n, id, p[id])
  {
    AllRequired(n);
    var customs := OrderExists(cfg.customFields.Keys);
    var required := OrderEndingIn(REQUIRED, n);
    GivenAll(cfg, spec, customs);
    p := PayloadFor(cfg, spec, customs, required);
    assert BuiltBy(cfg, spec, p, customs, required);
  }

  /**
   Order independence: every pair of orders yields the same payload exactly if the required fields
   of known kinds that share an id supply one value, and so do the custom fields of known kinds
   that share an id no such required field overrides.
   */
  lemma PayloadOrderIndependent(cfg: Config, spec: Spec)
    requires MissingFields(cfg, spec) == {}
    ensures OrderIndependent(cfg, spec) <==> RequiredAgree(cfg, spec) && CustomsAgree(cfg, spec)
  {
    if RequiredAgree(cfg, spec) && CustomsAgree(cfg, spec) {
      forall p, q | PayloadOk(cfg, spec, p) && PayloadOk(cfg, spec, q) ensures p == q {
        AgreementDecides(cfg, spec, p, q);
      }
    } else if !RequiredAgree(cfg, spec) {
      var n, m :| n in REQUIRED && m in REQUIRED
        && RequiredAt(cfg, spec, n, RequiredSettings(cfg.requiredFields, n).id)
        && RequiredAt(cfg, spec, m, RequiredSettings(cfg.requiredFields, n).id)
        && Encode(RequiredSettings(cfg.requiredFields, n), RequiredValue(spec, n))
           != Encode(RequiredSettings(cfg.requiredFields, m), RequiredValue(spec, m));
      var id := RequiredSettings(cfg.requiredFields, n).id;
      var p := RequiredLast(cfg, spec, n, id);
      var q := RequiredLast(cfg, spec, m, id);
      assert p[id] != q[id];
    } else {
      var f, g :| f in cfg.customFields && g in cfg.customFields
        && Clash(cfg, spec, f, g) && !SameEntry(cfg, spec, f, g);
      var id := cfg.customFields[f].id;
      var p := CustomLast(cfg, spec, f, id);
      var q := CustomLast(cfg, spec, g, id);
      assert p[id] != q[id];
    }
  }

  // Distinct ids

  /** Some configured field of a known kind puts `value` under the Jira field `id`. */
  ghost predicate Supplies(cfg: Config, spec: Spec, id: string, value: FieldValue) {
    || (exists f :: CustomSupplies(cfg, spec, f, id, value))
    || (exists n :: RequiredSupplies(cfg, spec, n, id, value))
  }

  lemma RequiredIdsDiffer(cfg: Config, n: RequiredName, m: RequiredName)
    requires DistinctIds(cfg)
    ensures RequiredSettings(cfg.requiredFields, n).id == RequiredSettings(cfg.requiredFields, m).id <==> n == m
  {
  }

  lemma CustomIdsDiffer(cfg: Config, f: string, n: RequiredName)
    requires DistinctIds(cfg) && f in cfg.customFields
    ensures cfg.customFields[f].id != RequiredSettings(cfg.requiredFields, n).id
  {
  }

  /** With distinct ids every pair of orders yields the same payload. */
  lemma PayloadUnique(cfg: Config, spec: Spec, p: Fields, q: Fields)
    requires DistinctIds(cfg) && MissingFields(cfg, spec) == {}
    requires PayloadOk(cfg, spec, p) && PayloadOk(cfg, spec, q)
    ensures p == q
  {
    assert RequiredAgree(cfg, spec) by {
      forall n, m ensures RequiredSettings(cfg.requiredFields, n).id == RequiredSettings(cfg.requiredFields, m).id
                       ==> n == m
      {
        RequiredIdsDiffer(cfg, n, m);
      }
    }
    assert CustomsAgree(cfg, spec);
    AgreementDecides(cfg, spec, p, q);
  }

  /** With distinct ids the payload holds every field of a known kind, custom or required, under its own id. */
  lemma PayloadIsSupplied(cfg: Config, spec: Spec, p: Fields, id: string, value: FieldValue)
    requires DistinctIds(cfg) && PayloadOk(cfg, spec, p)
    ensures Supplies(cfg, spec, id, value) <==> id in p && p[id] == value
  {
    PayloadHolds(cfg, spec, p, id);
    if n :| RequiredAt(cfg, spec, n, id) {
      AllRequired(n);
      SuppliedByRequired(cfg, spec, n, id, value);
    } else {
      SuppliedByCustom(cfg, spec, p, id, value);
    }
  }

  lemma SuppliedByCustom(cfg: Config, spec: Spec, p: Fields, id: string, value: FieldValue)
    requires DistinctIds(cfg) && HoldsAt(cfg, spec, p, id) && forall n :: !RequiredAt(cfg, spec, n, id)
    ensures Supplies(cfg, spec, id, value) <==> id in p && p[id] == value
  {
    if f :| CustomSupplies(cfg, spec, f, id, value) {
      assert CustomAt(cfg, spec, f, id);
    }
  }

  lemma SuppliedByRequired(cfg: Config, spec: Spec, n: RequiredName, id: string, value: FieldValue)
    requires DistinctIds(cfg) && RequiredAt(cfg, spec, n, id)
    ensures Supplies(cfg, spec, id, value) <==> RequiredSupplies(cfg, spec, n, id, value)
  {
    if f :| CustomSupplies(cfg, spec, f, id, value) {
      CustomIdsDiffer(cfg, f, n);
    } else if m :| RequiredSupplies(cfg, spec, m, id, value) {
      RequiredIdsDiffer(cfg, n, m);
    }
  }

  lemma CustomFieldSent(cfg: Config, spec: Spec, p: Fields, f: string)
    requires DistinctIds(cfg) && PayloadOk(cfg, spec, p) && f in cfg.customFields && f in spec.jiraFields
    ensures SentAs(p, cfg.customFields[f], Text(spec.jiraFields[f]))
  {
    PayloadHolds(cfg, spec, p, cfg.customFields[f].id);
    if cfg.customFields[f].kind in ["user", "select", "text", "date"] {
      assert CustomAt(cfg, spec, f, cfg.customFields[f].id);
    }
  }

  lemma RequiredFieldSent(cfg: Config, spec: Spec, p: Fields, n: RequiredName)
    requires DistinctIds(cfg) && PayloadOk(cfg, spec, p)
    ensures SentAs(p, RequiredSettings(cfg.requiredFields, n), RequiredValue(spec, n))
  {
    AllRequired(n);
    PayloadHolds(cfg, spec, p, RequiredSettings(cfg.requiredFields, n).id);
    if RequiredSettings(cfg.requiredFields, n).kind in ["user", "select", "text", "date"] {
      assert RequiredAt(cfg, spec, n, RequiredSettings(cfg.requiredFields, n).id);
    }
  }

  /**
   With distinct ids, whatever the orders: a user field is sent as an account, a select field as an
   option, a text or date field as plain text, a field of another kind not at all, and nothing else.
   */
  lemma PayloadCovers(cfg: Config, spec: Spec, p: Fields)
    requires DistinctIds(cfg) && PayloadOk(cfg, spec, p)
    ensures FieldsSent(cfg, spec, p)
  {
    var customs, required :| BuiltBy(cfg, spec, p, customs, required);
    forall f | f in cfg.customFields
      ensures f in spec.jiraFields && SentAs(p, cfg.customFields[f], Text(spec.jiraFields[f]))
    {
      assert f in customs;
      CustomFieldSent(cfg, spec, p, f);
    }
    RequiredFieldSent(cfg, spec, p, StartTimeField);
    RequiredFieldSent(cfg, spec, p, EndTimeField);
    RequiredFieldSent(cfg, spec, p, ClusterRoleField);
    forall id | id in p
      ensures || (exists n :: RequiredSettings(cfg.requiredFields, n).id == id)
              || exists f :: f in cfg.customFields && cfg.customFields[f].id == id
    {
      PayloadHolds(cfg, spec, p, id);
    }
  }

  /** Two orders of the required fields that disagree, for a configuration in which two of them share an id. */
  lemma SharedIdsDisagree() returns (cfg: Config, spec: Spec, first: seq<RequiredName>, second: seq<RequiredName>)
    ensures MissingFields(cfg, spec) == {} && OrderOf(first, REQUIRED) && OrderOf(second, REQUIRED)
    ensures Given(cfg, spec, []) && PayloadFor(cfg, spec, [], first) != PayloadFor(cfg, spec, [], second)
    ensures OrderOf([], cfg.customFields.Keys)
  {
    var s := FieldSettings("text", "10");
    var required := RequiredFields(FieldSettings("none", "10"), s, s);
    cfg := Config([], "", "", "", "", "", required, map[], [], "", "", "", "", false);
    spec := Spec("", [], "edit", [], map[], 1, 2, map[]);
    first := [ClusterRoleField, StartTimeField, EndTimeField];
    second := [ClusterRoleField, EndTimeField, StartTimeField];
    assert first[..2] == [ClusterRoleField, StartTimeField] && second[..2] == [ClusterRoleField, EndTimeField];
    assert PayloadFor(cfg, spec, [], first)["10"] == Plain(Stamp(2));
    assert PayloadFor(cfg, spec, [], second)["10"] == Plain(Stamp(1));
  }
}
