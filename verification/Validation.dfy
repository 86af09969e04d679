/**
 What a request must satisfy: allowed role, namespace pattern, namespace labels and custom fields.
 */
module Validation {
  import opened Types

  method Contains(slice: seq<string>, item: string) returns (found: bool)
    ensures found <==> item in slice
  {
    for i := 0 to |slice|
      invariant item !in slice[..i]
    {
      if slice[i] == item {
        return true;
      }
    }
    return false;
  }

  predicate RegexAccepts(regex: Option<Matcher>, namespaces: seq<string>) {
    regex.None? || forall ns | ns in namespaces :: regex.value(ns)
  }

  /** The first namespace the pattern refuses. */
  function FirstRefused(regex: Option<Matcher>, namespaces: seq<string>): (r: Option<string>)
    ensures r.None? <==> RegexAccepts(regex, namespaces)
    ensures r.Some? ==> exists i :: 0 <= i < |namespaces| && namespaces[i] == r.value && !regex.value(r.value)
                                    && RegexAccepts(regex, namespaces[..i])
  {
    if regex.None? || namespaces == [] then None
    else if !regex.value(namespaces[0]) then
      assert RegexAccepts(regex, namespaces[..0]);
      Some(namespaces[0])
    else
      var rest := FirstRefused(regex, namespaces[1..]);
      assert rest.Some? ==> exists i :: 0 <= i < |namespaces| && namespaces[i] == rest.value && !regex.value(rest.value)
                                        && RegexAccepts(regex, namespaces[..i]) by {
        if rest.Some? {
          var i :| 0 <= i < |namespaces[1..]| && namespaces[1..][i] == rest.value
                   && RegexAccepts(regex, namespaces[1..][..i]);
          assert namespaces[..i + 1] == [namespaces[0]] + namespaces[1..][..i];
        }
      }
      rest
  }

  /** No pattern refuses nothing; a pattern must accept every namespace, and the first one it does not is named. */
  method ValidateNamespaceRegex(regex: Option<Matcher>, namespaces: seq<string>) returns (refused: Option<string>)
    ensures refused.None? <==> regex.None? || forall i | 0 <= i < |namespaces| :: regex.value(namespaces[i])
    ensures refused.Some? ==>
              exists i :: 0 <= i < |namespaces| && namespaces[i] == refused.value && !regex.value(namespaces[i])
                          && forall j | 0 <= j < i :: regex.value(namespaces[j])
    ensures refused == FirstRefused(regex, namespaces)
  {
    if regex.Some? {
      for i := 0 to |namespaces|
        invariant FirstRefused(regex, namespaces) == FirstRefused(regex, namespaces[i..])
        invariant forall j | 0 <= j < i :: regex.value(namespaces[j])
      {
        if !regex.value(namespaces[i]) {
          return Some(namespaces[i]);
        }
        assert namespaces[i..][1..] == namespaces[i + 1..];
      }
    }
    return None;
  }

  // Namespace labels

  predicate Selects(selector: map<string, string>, labels: map<string, string>) {
    forall k | k in selector :: k in labels && labels[k] == selector[k]
  }

  /** A selector asks for labels that are all among those of the namespace. */
  lemma SelectsIsInclusion(selector: map<string, string>, labels: map<string, string>)
    ensures Selects(selector, labels) <==> selector.Items <= labels.Items
  {
    if Selects(selector, labels) {
      forall i | i in selector.Items ensures i in labels.Items {
        assert selector[i.0] == i.1;
      }
    }
    if selector.Items <= labels.Items {
      forall k | k in selector ensures k in labels && labels[k] == selector[k] {
        assert (k, selector[k]) in selector.Items;
      }
    }
  }

  /** The namespaces a list call with the selector returns. */
  function Matching(cluster: map<string, map<string, string>>, selector: map<string, string>): set<string> {
    set ns | ns in cluster && Selects(selector, cluster[ns])
  }

  function Unmatched(namespaces: seq<string>, matching: set<string>): (r: seq<string>)
    ensures forall ns :: ns in r <==> ns in namespaces && ns !in matching
  {
    if namespaces == [] then []
    else (if namespaces[0] in matching then [] else [namespaces[0]]) + Unmatched(namespaces[1..], matching)
  }

  lemma UnmatchedSnoc(namespaces: seq<string>, ns: string, matching: set<string>)
    ensures Unmatched(namespaces + [ns], matching)
         == Unmatched(namespaces, matching) + if ns in matching then [] else [ns]
  {
    if namespaces != [] {
      assert (namespaces + [ns])[1..] == namespaces[1..] + [ns];
      UnmatchedSnoc(namespaces[1..], ns, matching);
    }
  }

  /** `picked[k]` is the position in `namespaces` of the k-th element of `r`. */
  ghost predicate Embeds(r: seq<string>, namespaces: seq<string>, picked: seq<nat>) {
    && |picked| == |r|
    && (forall k | 0 <= k < |r| :: picked[k] < |namespaces| && namespaces[picked[k]] == r[k])
    && (forall k | 0 < k < |r| :: picked[k - 1] < picked[k])
  }

  ghost predicate PicksUnmatched(namespaces: seq<string>, matching: set<string>, picked: seq<nat>) {
    forall i | 0 <= i < |namespaces| :: i in picked <==> namespaces[i] !in matching
  }

  /**
   The rejected namespaces are a subsequence of the requested ones: same order, each position
   used once, and exactly the positions that do not exist or lack a label.
   */
  lemma {:induction false} UnmatchedIsSubsequence(namespaces: seq<string>, matching: set<string>)
    returns (picked: seq<nat>)
    ensures Embeds(Unmatched(namespaces, matching), namespaces, picked)
    ensures PicksUnmatched(namespaces, matching, picked)
  {
    if namespaces == [] {
      return [];
    }
    var n := |namespaces| - 1;
    assert namespaces == namespaces[..n] + [namespaces[n]];
    UnmatchedSnoc(namespaces[..n], namespaces[n], matching);
    var front := UnmatchedIsSubsequence(namespaces[..n], matching);
    EmbedsSnoc(Unmatched(namespaces[..n], matching), namespaces[..n], namespaces[n], front);
    picked := if namespaces[n] in matching then front else front + [n];
    PicksSnoc(namespaces[..n], namespaces[n], matching, front);
  }

  lemma EmbedsSnoc(r: seq<string>, namespaces: seq<string>, ns: string, picked: seq<nat>)
    requires Embeds(r, namespaces, picked)
    ensures Embeds(r, namespaces + [ns], picked)
    ensures Embeds(r + [ns], namespaces + [ns], picked + [|namespaces|])
    ensures forall i | i in picked :: i < |namespaces|
  {
  }

  lemma PicksSnoc(namespaces: seq<string>, ns: string, matching: set<string>, picked: seq<nat>)
    requires PicksUnmatched(namespaces, matching, picked)
    requires forall i | i in picked :: i < |namespaces|
    ensures PicksUnmatched(namespaces + [ns], matching,
                           if ns in matching then picked else picked + [|namespaces|])
  {
  }

  /** `listing` is what the list call returned, `None` when it failed. `Some([])` then reports the failure. */
  method ValidateNamespaceLabels(spec: Spec, listing: Option<seq<string>>) returns (invalid: Option<seq<string>>)
    ensures spec.namespaceLabels == map[] ==> invalid == None
    ensures spec.namespaceLabels != map[] && listing.None? ==> invalid == Some([])
    ensures spec.namespaceLabels != map[] && listing.Some? ==>
              var bad := Unmatched(spec.namespaces, set ns | ns in listing.value);
              invalid == if bad == [] then None else Some(bad)
  {
    if |spec.namespaceLabels| == 0 {
      return None;
    }
    if listing.None? {
      return Some([]);
    }
    var valid := Collected(listing.value);
    var bad := Filtered(spec.namespaces, valid);
    return if |bad| > 0 then Some(bad) else None;
  }

  method Collected(names: seq<string>) returns (valid: set<string>)
    ensures valid == set ns | ns in names
  {
    valid := {};
    for i := 0 to |names|
      invariant valid == set ns | ns in names[..i]
    {
      valid := valid + {names[i]};
    }
    assert names[..|names|] == names;
  }

  method Filtered(namespaces: seq<string>, valid: set<string>) returns (bad: seq<string>)
    ensures bad == Unmatched(namespaces, valid)
  {
    bad := [];
    for i := 0 to |namespaces|
      invariant bad == Unmatched(namespaces[..i], valid)
    {
      UnmatchedSnoc(namespaces[..i], namespaces[i], valid);
      assert namespaces[..i + 1] == namespaces[..i] + [namespaces[i]];
      if namespaces[i] !in valid {
        bad := bad + [namespaces[i]];
      }
    }
    assert namespaces[..|namespaces|] == namespaces;
  }

  predicate LabelsAccept(cluster: map<string, map<string, string>>, spec: Spec) {
    spec.namespaceLabels == map[] ||
    forall ns | ns in spec.namespaces :: ns in cluster && Selects(spec.namespaceLabels, cluster[ns])
  }

  /**
   Given a faithful listing in any order, the check accepts exactly the specs whose labels hold: each
   namespace exists and has every label asked for.
   */
  lemma LabelCheckExact(cluster: map<string, map<string, string>>, spec: Spec, listing: seq<string>)
    requires (set ns | ns in listing) == Matching(cluster, spec.namespaceLabels)
    ensures LabelsAccept(cluster, spec) <==>
            spec.namespaceLabels == map[] || Unmatched(spec.namespaces, set ns | ns in listing) == []
    ensures LabelsAccept(cluster, spec) <==>
            spec.namespaceLabels == map[] ||
            forall ns | ns in spec.namespaces :: ns in cluster && spec.namespaceLabels.Items <= cluster[ns].Items
  {
    var bad := Unmatched(spec.namespaces, set ns | ns in listing);
    if bad != [] {
      assert bad[0] in bad;
    }
    LabelsMean(cluster, spec);
  }

  /** The labels hold if each namespace exists and has every label asked for. */
  lemma LabelsMean(cluster: map<string, map<string, string>>, spec: Spec)
    ensures LabelsAccept(cluster, spec) <==>
            spec.namespaceLabels == map[] ||
            forall ns | ns in spec.namespaces :: ns in cluster && spec.namespaceLabels.Items <= cluster[ns].Items
  {
    forall ns | ns in spec.namespaces && ns in cluster
      ensures Selects(spec.namespaceLabels, cluster[ns]) <==> spec.namespaceLabels.Items <= cluster[ns].Items
    {
      SelectsIsInclusion(spec.namespaceLabels, cluster[ns]);
    }
  }

  /** The configured fields a request fails to give. */
  function MissingFields(cfg: Config, spec: Spec): set<string> {
    cfg.customFields.Keys - spec.jiraFields.Keys
  }
}
