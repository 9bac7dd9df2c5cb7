/** The summarize-docs action: authorise, require `documentUris`, then
    render an executive summary ending with one Sources line per document. */
module SummarizeDocs {
  import opened Wrappers
  import opened Strings
  import opened Json
  import opened Common

  /** `params.get("audience", "general")` as the f-string prints it. */
  function Audience(params: Fields): string
  {
    PyStr(Get(params, "audience").GetOr(Str("general")))
  }

  /** The fixed lines of the summary. */
  const Title := "# Executive Summary (STUB)"
  const Highlights := "## Highlights"
  const Finding := "- (stub) Key findings from documents."
  const Risks := "## Risks"
  const Risk := "- (stub) Identified risk 1"
  const NextSteps := "## Next Steps"
  const Action := "- (stub) Proposed action 1"

  function SummaryLines(audience: string, docs: seq<Value>): (lines: seq<string>)
    ensures |lines| == 10 + |docs|
    ensures lines[1] == "**Audience:** " + audience
    ensures lines[9] == "### Sources"
    ensures forall i | 0 <= i < |docs| :: lines[10 + i] == "- " + PyStr(docs[i])
  {
    [ Title, "**Audience:** " + audience, Highlights, Finding, Risks, Risk, NextSteps, Action, "", "### Sources" ]
    + seq(|docs|, i requires 0 <= i < |docs| => "- " + PyStr(docs[i]))
  }

  /** Iterating a number or boolean `documentUris` raises. The source
      writes `deny or "denied"`; the gate's denial is never empty, so the
      403 always carries the gate's own reason. */
  function Handler(svc: PolicyService, ev: Event): (r: Reply)
    ensures StatusOf(r) == Some(403) <==> Refused(Authorize(svc, ev))
    ensures Refused(Authorize(svc, ev)) ==> r == Returned(Err(403, Authorize(svc, ev).deny))
    ensures !Refused(Authorize(svc, ev)) && IsMissing(Params(ev), "documentUris") ==>
              r == Returned(Err(400, Str("missing required param(s): documentUris")))
    ensures r.Raised? <==>
              !Refused(Authorize(svc, ev)) && !IsMissing(Params(ev), "documentUris") &&
              PyIter(Get(Params(ev), "documentUris").value).None?
    ensures !Refused(Authorize(svc, ev)) && !IsMissing(Params(ev), "documentUris") &&
            PyIter(Get(Params(ev), "documentUris").value).Some? ==>
              var docs := PyIter(Get(Params(ev), "documentUris").value).value;
              r == Returned(Ok(Obj([("summaryMarkdown", Str(Join("\n", SummaryLines(Audience(Params(ev)), docs))))])))
  {
    var d := Authorize(svc, ev);
    if Refused(d) then Returned(Err(403, if PyTruthy(d.deny) then d.deny else Str("denied")))
    else
      var (params, missing) := Require(ev, ["documentUris"]);
      if missing != [] then
        assert missing == ["documentUris"] && Join(", ", missing) == "documentUris";
        assert MissingMessage(missing) == "missing required param(s): documentUris";
        Returned(Err(400, Str(MissingMessage(missing))))
      else
        var docs := PyIter(Get(params, "documentUris").value);
        if docs.None? then Raised("TypeError")
        else Returned(Ok(Obj([("summaryMarkdown", Str(Join("\n", SummaryLines(Audience(params), docs.value))))])))
  }

  /** With no remote policy service, an Engineering caller summarising
      two documents gets a 200 carrying the summary of both. */
  lemma {:induction false} TwoDocumentsFromTheGreenList()
    ensures var ev := Event(Some("summarize-docs"), Some(User(None, Some("VaultMesh-Engineering"))), None,
                            Some([("documentUris", Arr([Str("s3://doc1"), Str("s3://doc2")]))]));
            Handler(NotConfigured, ev) ==
              Returned(Ok(Obj([("summaryMarkdown", Str(Join("\n", SummaryLines("general", [Str("s3://doc1"), Str("s3://doc2")]))))])))
  {
    var ev := Event(Some("summarize-docs"), Some(User(None, Some("VaultMesh-Engineering"))), None,
                    Some([("documentUris", Arr([Str("s3://doc1"), Str("s3://doc2")]))]));
    var docs := [Str("s3://doc1"), Str("s3://doc2")];
    assert !Refused(Authorize(NotConfigured, ev)) by {
      assert InGreen(ev.action, Group(ev));
    }
    assert Missing(Params(ev), ["documentUris"]) == [];
    assert PyIter(Get(Params(ev), "documentUris").value) == Some(docs);
    assert Audience(Params(ev)) == "general";
  }

  /** The summary of two documents ends with a Sources section listing
      both, in order. */
  lemma {:induction false} TwoDocumentsListedAsSources()
    ensures SummaryLines("general", [Str("s3://doc1"), Str("s3://doc2")])[9..] == ["### Sources", "- s3://doc1", "- s3://doc2"]
  {
    var docs := [Str("s3://doc1"), Str("s3://doc2")];
    var lines := SummaryLines("general", docs);
    assert PyStr(docs[0]) == "s3://doc1" && PyStr(docs[1]) == "s3://doc2";
    assert lines[10] == "- s3://doc1" && lines[11] == "- s3://doc2";
  }
}
