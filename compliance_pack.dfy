/** The generate-compliance-pack action: authorise, require `sourceUris`,
    then name the package and render its cover page. */
module CompliancePack {
  import opened Wrappers
  import opened Strings
  import opened Json
  import opened Common

  /** `(event.get("context") or {}).get("request_id") or "stub"` */
  function Rid(ev: Event): string
  {
    var rid := RequestId(ev);
    if rid.Some? && rid.value != "" then rid.value else "stub"
  }

  function PackageUri(bucket: string, rid: string): string
  {
    "s3://" + bucket + "/packages/" + rid + ".zip"
  }

  /** `params.get("regime", "ISO27k")` as the f-string prints it. */
  function Regime(params: Fields): string
  {
    PyStr(Get(params, "regime").GetOr(Str("ISO27k")))
  }

  /** The fixed lines of the cover page. */
  const Title := "# Compliance Pack (STUB)"
  const Contents := "## Contents"
  const Readme := "- (stub) Included a README with provenance and guardrail notes"
  const Provenance := "## Provenance & Controls"
  const Guardrails := "- Guardrails: credentials-and-secrets, confidential-business-info (active)"
  const Gate := "- OPA Gate: vaultmesh.actions.* (green only)"

  function CoverLines(regime: string, count: nat, packageUri: string): (lines: seq<string>)
    ensures |lines| == 12
    ensures lines[1] == "**Regime:** " + regime
    ensures lines[4] == "- (stub) Collected " + NatToString(count) + " referenced documents"
    ensures lines[11] == "**Package URI:** " + packageUri
  {
    [ Title, "**Regime:** " + regime, "", Contents,
      "- (stub) Collected " + NatToString(count) + " referenced documents",
      Readme, "", Provenance, Guardrails, Gate, "",
      "**Package URI:** " + packageUri ]
  }

  /** The success body: the package URI and the cover page. */
  function Pack(regime: string, count: nat, uri: string): Value
  {
    Obj([("packageUri", Str(uri)), ("coverMarkdown", Str(Unlines(CoverLines(regime, count, uri))))])
  }

  /** The handler; `bucket` is the EXPORT_BUCKET setting. `len()` of a
      number or boolean `sourceUris` raises. */
  function Handler(svc: PolicyService, ev: Event, bucket: string): (r: Reply)
    ensures StatusOf(r) == Some(403) <==> Refused(Authorize(svc, ev))
    ensures Refused(Authorize(svc, ev)) ==> r == Returned(Err(403, Authorize(svc, ev).deny))
    ensures !Refused(Authorize(svc, ev)) && IsMissing(Params(ev), "sourceUris") ==>
              r == Returned(Err(400, Str("missing required param(s): sourceUris")))
    ensures r.Raised? <==>
              !Refused(Authorize(svc, ev)) && !IsMissing(Params(ev), "sourceUris") &&
              PyLen(Get(Params(ev), "sourceUris").value).None?
    ensures !Refused(Authorize(svc, ev)) && !IsMissing(Params(ev), "sourceUris") &&
            PyLen(Get(Params(ev), "sourceUris").value).Some? ==>
              var count := PyLen(Get(Params(ev), "sourceUris").value).value;
              r == Returned(Ok(Pack(Regime(Params(ev)), count, PackageUri(bucket, Rid(ev)))))
  {
    var d := Authorize(svc, ev);
    if Refused(d) then Returned(Err(403, d.deny))
    else
      var (params, missing) := Require(ev, ["sourceUris"]);
      assert missing == [] <==> !IsMissing(params, "sourceUris");
      if missing != [] then
        assert missing == ["sourceUris"] && Join(", ", missing) == "sourceUris";
        assert MissingMessage(missing) == "missing required param(s): sourceUris";
        Returned(Err(400, Str(MissingMessage(missing))))
      else
        var count := PyLen(Get(params, "sourceUris").value);
        if count.None? then Raised("TypeError")
        else Returned(Ok(Pack(Regime(params), count.value, PackageUri(bucket, Rid(ev)))))
  }

  /** The success body has exactly the two documented keys, and the cover
      states the number of sources and the package URI. */
  lemma {:induction false} CoverStatesCountAndUri(svc: PolicyService, ev: Event, bucket: string)
    requires StatusOf(Handler(svc, ev, bucket)) == Some(200)
    ensures var body := Handler(svc, ev, bucket).envelope.body;
            var count := PyLen(Get(Params(ev), "sourceUris").value).value;
            body.Obj? && Keys(body.fields) == ["packageUri", "coverMarkdown"] &&
            exists cover :: Get(body.fields, "coverMarkdown") == Some(Str(cover)) &&
              IsInfix(NatToString(count), cover) && IsInfix(PackageUri(bucket, Rid(ev)), cover)
  {
    var count := PyLen(Get(Params(ev), "sourceUris").value).value;
    var uri := PackageUri(bucket, Rid(ev));
    var lines := CoverLines(Regime(Params(ev)), count, uri);
    InfixOfUnlines(lines, 4);
    InfixOfSplice("- (stub) Collected ", NatToString(count), " referenced documents");
    InfixTrans(NatToString(count), lines[4], Unlines(lines));
    InfixOfUnlines(lines, 11);
    InfixOfSplice("**Package URI:** ", uri, "");
    assert "**Package URI:** " + uri + "" == lines[11];
    InfixTrans(uri, lines[11], Unlines(lines));
    var body := Handler(svc, ev, bucket).envelope.body;
    assert Keys(body.fields) == ["packageUri", "coverMarkdown"];
    assert Get(body.fields, "coverMarkdown") == Some(Str(Unlines(lines)));
  }

  /** Without a `regime` parameter the cover says ISO27k. */
  lemma RegimeDefault(params: Fields)
    requires !HasKey(params, "regime")
    ensures Regime(params) == "ISO27k"
  {
  }

  /** Without a usable request id the package is named after "stub". */
  lemma PackageUriDefault(ev: Event, bucket: string)
    requires RequestId(ev).None? || RequestId(ev) == Some("")
    ensures PackageUri(bucket, Rid(ev)) == "s3://" + bucket + "/packages/stub.zip"
  {
  }
}
