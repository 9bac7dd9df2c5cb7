/** The validate-schema action: authorise, require `schemaUri`, then return
    a stub report naming the lower-cased profile. */
module ValidateSchema {
  import opened Wrappers
  import opened Strings
  import opened Json
  import opened Common

  const StubSummary := "No issues found in stub mode."

  /** `(params.get("profile") or "both").lower()`; `None` when a truthy
      non-string profile makes `.lower()` raise. */
  function Profile(params: Fields): (r: Option<string>)
    ensures !HasKey(params, "profile") ==> r == Some("both")
    ensures Get(params, "profile").Some? && !PyTruthy(Get(params, "profile").value) ==> r == Some("both")
    ensures r.None? <==> Get(params, "profile").Some? && PyTruthy(Get(params, "profile").value) && !Get(params, "profile").value.Str?
    ensures forall s | Get(params, "profile") == Some(Str(s)) && s != "" :: r == Some(Lower(s))
  {
    var v := Get(params, "profile");
    var chosen := if v.Some? && PyTruthy(v.value) then v.value else Str("both");
    assert Lower("both") == "both";
    if chosen.Str? then Some(Lower(chosen.s)) else None
  }

  function Report(profile: string): Value
  {
    Obj([("profileEvaluated", Str(profile)), ("issues", Arr([])), ("summary", Str(StubSummary))])
  }

  function Handler(svc: PolicyService, ev: Event): (r: Reply)
    ensures StatusOf(r) == Some(403) <==> Refused(Authorize(svc, ev))
    ensures Refused(Authorize(svc, ev)) ==> r == Returned(Err(403, Authorize(svc, ev).deny))
    ensures !Refused(Authorize(svc, ev)) && IsMissing(Params(ev), "schemaUri") ==>
              r == Returned(Err(400, Str("missing required param(s): schemaUri")))
    ensures r.Raised? <==>
              !Refused(Authorize(svc, ev)) && !IsMissing(Params(ev), "schemaUri") && Profile(Params(ev)).None?
    ensures !Refused(Authorize(svc, ev)) && !IsMissing(Params(ev), "schemaUri") && Profile(Params(ev)).Some? ==>
              r == Returned(Ok(Obj([("validationReport", Report(Profile(Params(ev)).value))])))
  {
    var d := Authorize(svc, ev);
    if Refused(d) then Returned(Err(403, d.deny))
    else
      var (params, missing) := Require(ev, ["schemaUri"]);
      if missing != [] then
        assert missing == ["schemaUri"] && Join(", ", missing) == "schemaUri";
        assert MissingMessage(missing) == "missing required param(s): schemaUri";
        Returned(Err(400, Str(MissingMessage(missing))))
      else
        var profile := Profile(params);
        if profile.None? then Raised("AttributeError")
        else Returned(Ok(Obj([("validationReport", Report(profile.value))])))
  }

  /** An authorised call with empty params is answered 400 naming schemaUri. */
  lemma EmptyParamsNeedSchemaUri(svc: PolicyService, ev: Event)
    requires !Refused(Authorize(svc, ev))
    requires ev.params == Some([])
    ensures Handler(svc, ev) == Returned(Err(400, Str("missing required param(s): schemaUri")))
    ensures ErrorOf(Handler(svc, ev).envelope) == Some(Str("missing required param(s): schemaUri"))
  {
  }
}
