/** The create-jira-draft action: authorise, require the project key,
    summary and description, then build a Jira payload that is always
    marked as a dry run needing an approver. */
module JiraDraft {
  import opened Wrappers
  import opened Strings
  import opened Json
  import opened Common

  const Required: seq<string> := ["projectKey", "summary", "description"]

  function Param(params: Fields, key: string): Value
  {
    Get(params, key).GetOr(Null)
  }

  /** `params.get("labels") or []` */
  function Labels(params: Fields): Value
  {
    var v := Get(params, "labels");
    if v.Some? && PyTruthy(v.value) then v.value else Arr([])
  }

  /** The Jira payload built from the four copied values. */
  function Draft(project: Value, summary: Value, description: Value, labels: Value): Value
  {
    Obj([ ("project", Obj([("key", project)])),
          ("summary", summary),
          ("description", description),
          ("labels", labels),
          ("dryRun", Bool(true)),
          ("approverRequired", Bool(true)) ])
  }

  function Payload(params: Fields): Value
  {
    Draft(Param(params, "projectKey"), Param(params, "summary"), Param(params, "description"), Labels(params))
  }

  lemma {:induction false} DraftCopies(project: Value, summary: Value, description: Value, labels: Value)
    ensures var f := Draft(project, summary, description, labels).fields;
            Get(f, "project") == Some(Obj([("key", project)])) && Get(f, "summary") == Some(summary) &&
            Get(f, "description") == Some(description) && Get(f, "labels") == Some(labels)
  {
    var f := Draft(project, summary, description, labels).fields;
    assert f[0].0 == "project" && f[1].0 == "summary" && f[2].0 == "description" && f[3].0 == "labels";
    forall j | 0 <= j < 3 ensures f[j].0 != "labels" && (j < 2 ==> f[j].0 != "description") && (j < 1 ==> f[j].0 != "summary") {
    }
    GetAt(f, "project", 0);
    GetAt(f, "summary", 1);
    GetAt(f, "description", 2);
    GetAt(f, "labels", 3);
  }

  lemma {:induction false} DraftDryRun(project: Value, summary: Value, description: Value, labels: Value)
    ensures var f := Draft(project, summary, description, labels).fields;
            Get(f, "dryRun") == Some(Bool(true)) && Get(f, "approverRequired") == Some(Bool(true))
  {
    var f := Draft(project, summary, description, labels).fields;
    assert f[0].0 == "project" && f[1].0 == "summary" && f[2].0 == "description" && f[3].0 == "labels" && f[4].0 == "dryRun";
    forall j | 0 <= j < 5 ensures f[j].0 != "approverRequired" {
    }
    GetAt(f, "dryRun", 4);
    GetAt(f, "approverRequired", 5);
  }

  /** The payload has the six keys, in order. */
  lemma PayloadKeys(params: Fields)
    ensures Payload(params).Obj?
    ensures Keys(Payload(params).fields) == ["project", "summary", "description", "labels", "dryRun", "approverRequired"]
  {
    var f := Payload(params).fields;
    var names := ["project", "summary", "description", "labels", "dryRun", "approverRequired"];
    forall k | 0 <= k < |names| ensures Keys(f)[k] == names[k] {
    }
  }

  /** The payload is always a dry run that needs an approver. */
  lemma {:induction false} PayloadAlwaysDryRun(params: Fields)
    ensures Get(Payload(params).fields, "dryRun") == Some(Bool(true))
    ensures Get(Payload(params).fields, "approverRequired") == Some(Bool(true))
  {
    DraftDryRun(Param(params, "projectKey"), Param(params, "summary"), Param(params, "description"), Labels(params));
  }

  /** The missing keys, listed in the order project key, summary, description. */
  function MissingKeys(params: Fields): (m: seq<string>)
    ensures m == (if IsMissing(params, "projectKey") then ["projectKey"] else []) +
                 ((if IsMissing(params, "summary") then ["summary"] else []) +
                  (if IsMissing(params, "description") then ["description"] else []))
  {
    MissingOne(params, "projectKey");
    MissingOne(params, "summary");
    MissingOne(params, "description");
    assert ["summary"] + ["description"] == ["summary", "description"];
    MissingAppend(params, ["summary"], ["description"]);
    assert ["projectKey"] + ["summary", "description"] == Required;
    MissingAppend(params, ["projectKey"], ["summary", "description"]);
    Missing(params, Required)
  }

  function Handler(svc: PolicyService, ev: Event): (r: Envelope)
    ensures r.statusCode == 403 <==> Refused(Authorize(svc, ev))
    ensures Refused(Authorize(svc, ev)) ==> r == Err(403, Authorize(svc, ev).deny)
    ensures !Refused(Authorize(svc, ev)) && MissingKeys(Params(ev)) != [] ==>
              r == Err(400, Str(MissingMessage(MissingKeys(Params(ev)))))
    ensures r.statusCode == 200 <==> !Refused(Authorize(svc, ev)) && MissingKeys(Params(ev)) == []
    ensures r.statusCode == 200 ==> r.body == Obj([("jiraPayload", Payload(Params(ev)))])
  {
    var d := Authorize(svc, ev);
    if Refused(d) then Err(403, d.deny)
    else
      var (params, missing) := Require(ev, Required);
      if missing != [] then Err(400, Str(MissingMessage(missing)))
      else Ok(Obj([("jiraPayload", Payload(params))]))
  }

  /** The three required values are copied unchanged, `None` where a key is absent. */
  lemma {:induction false} PayloadCopiesParams(params: Fields)
    ensures Get(Payload(params).fields, "project") == Some(Obj([("key", Get(params, "projectKey").GetOr(Null))]))
    ensures Get(Payload(params).fields, "summary") == Some(Get(params, "summary").GetOr(Null))
    ensures Get(Payload(params).fields, "description") == Some(Get(params, "description").GetOr(Null))
  {
    DraftCopies(Param(params, "projectKey"), Param(params, "summary"), Param(params, "description"), Labels(params));
  }

  /** Labels fall back to `[]` unless a non-empty value is given. */
  lemma {:induction false} PayloadLabels(params: Fields)
    ensures Get(Payload(params).fields, "labels") ==
              if HasKey(params, "labels") && PyTruthy(Get(params, "labels").value) then Get(params, "labels") else Some(Arr([]))
  {
    DraftCopies(Param(params, "projectKey"), Param(params, "summary"), Param(params, "description"), Labels(params));
  }
}
