/**
 The default configuration, which is used as long as the cluster has no configuration object.
 */
module Defaults {
  import opened Types
  import opened Payload
  import opened ConfigCache
  import Limits

  /**
   It fits the sample workflow: a ticket in the approved status can be completed but no longer
   rejected, a new one can be rejected but not completed, and each then stays where it is.
   */
  lemma DefaultFitsWorkflow(transition: string)
    ensures var workflow := Limits.SAMPLE_WORKFLOW; var cfg := DEFAULT_CONFIG;
            && ("Todo", "11") in workflow && workflow[("Todo", "11")] == cfg.approvedStatus
            && (cfg.approvedStatus, cfg.completedTransition) in workflow
            && workflow[(cfg.approvedStatus, cfg.completedTransition)] == "Done"
            && ("Todo", cfg.rejectedTransition) in workflow
            && workflow[("Todo", cfg.rejectedTransition)] == "Rejected"
            && (cfg.approvedStatus, cfg.rejectedTransition) !in workflow
            && ("Todo", cfg.completedTransition) !in workflow
            && ("Done", transition) !in workflow && ("Rejected", transition) !in workflow
  {
    Limits.SampleTerminals(Limits.SampleWorld(DEFAULT_CONFIG), "Done");
    Limits.SampleTerminals(Limits.SampleWorld(DEFAULT_CONFIG), "Rejected");
  }

  lemma DefaultIdsDistinct()
    ensures DistinctIds(DEFAULT_CONFIG)
  {
    var ids := ["customfield_10114", "customfield_10115", "customfield_10116", "customfield_10117",
                "customfield_10118", "customfield_10119"];
    forall i, j | 0 <= i < j < 6 ensures ids[i] != ids[j] {
      assert ids[i][16] != ids[j][16];
    }
  }

  lemma DefaultCustoms(spec: Spec, p: Fields)
    requires FieldsSent(DEFAULT_CONFIG, spec, p)
    ensures "Approver" in spec.jiraFields && SentAccount(p, "customfield_10114", spec.jiraFields["Approver"])
    ensures "ProductOwner" in spec.jiraFields && SentAccount(p, "customfield_10115", spec.jiraFields["ProductOwner"])
    ensures "Justification" in spec.jiraFields
    ensures SentPlain(p, "customfield_10116", Text(spec.jiraFields["Justification"]))
  {
    var customs := DEFAULT_CONFIG.customFields;
    assert customs["Approver"] == FieldSettings("user", "customfield_10114");
    assert customs["ProductOwner"] == FieldSettings("user", "customfield_10115");
    assert customs["Justification"] == FieldSettings("text", "customfield_10116");
  }

  lemma DefaultRequired(spec: Spec, p: Fields)
    requires FieldsSent(DEFAULT_CONFIG, spec, p)
    ensures SentPlain(p, "customfield_10117", Text(spec.clusterRole))
    ensures SentPlain(p, "customfield_10118", Stamp(spec.startTime))
    ensures SentPlain(p, "customfield_10119", Stamp(spec.endTime))
  {
  }

  predicate SentAccount(p: Fields, id: string, name: string) {
    id in p && p[id] == Account(Text(name))
  }

  predicate SentPlain(p: Fields, id: string, value: RawValue) {
    id in p && p[id] == Plain(value)
  }

  lemma DefaultKeys(spec: Spec, p: Fields, id: string)
    requires FieldsSent(DEFAULT_CONFIG, spec, p) && id in p
    ensures id in {"customfield_10114", "customfield_10115", "customfield_10116",
                   "customfield_10117", "customfield_10118", "customfield_10119"}
  {
    var customs := DEFAULT_CONFIG.customFields;
    if f :| f in customs && customs[f].id == id {
      assert f == "Approver" || f == "ProductOwner" || f == "Justification";
    }
  }

  /** Under it there is one payload, whatever the orders: two accounts, and everything else as plain text. */
  lemma DefaultPayload(spec: Spec, p: Fields)
    requires PayloadOk(DEFAULT_CONFIG, spec, p)
    ensures "Approver" in spec.jiraFields && SentAccount(p, "customfield_10114", spec.jiraFields["Approver"])
    ensures "ProductOwner" in spec.jiraFields && SentAccount(p, "customfield_10115", spec.jiraFields["ProductOwner"])
    ensures "Justification" in spec.jiraFields
    ensures SentPlain(p, "customfield_10116", Text(spec.jiraFields["Justification"]))
    ensures SentPlain(p, "customfield_10117", Text(spec.clusterRole))
    ensures SentPlain(p, "customfield_10118", Stamp(spec.startTime))
    ensures SentPlain(p, "customfield_10119", Stamp(spec.endTime))
    ensures forall id | id in p ::
              id in {"customfield_10114", "customfield_10115", "customfield_10116",
                     "customfield_10117", "customfield_10118", "customfield_10119"}
  {
    DefaultIdsDistinct();
    PayloadCovers(DEFAULT_CONFIG, spec, p);
    DefaultCustoms(spec, p);
    DefaultRequired(spec, p);
    forall id | id in p
      ensures id in {"customfield_10114", "customfield_10115", "customfield_10116",
                     "customfield_10117", "customfield_10118", "customfield_10119"}
    {
      DefaultKeys(spec, p, id);
    }
  }
}
