/** The generate-faq action: authorise, then render the fixed FAQ lines cut
    to `2 * maxQuestions`. The missing-parameter list is computed and
    ignored, so this handler never answers 400. */
module GenerateFaq {
  import opened Wrappers
  import opened Strings
  import opened Json
  import opened Common

  const DefaultFolder := "s3://vaultmesh-knowledge-base/docs/"

  /** `params.get("folderPrefix", DefaultFolder)` as the f-string prints it. */
  function Prefix(params: Fields): string
  {
    PyStr(Get(params, "folderPrefix").GetOr(Str(DefaultFolder)))
  }

  /** `int(params.get("maxQuestions", 12))`, or the exception `int` raises. */
  function MaxQuestions(params: Fields): Result<int, string>
  {
    PyInt(Get(params, "maxQuestions").GetOr(Num(12)))
  }

  function FaqLines(prefix: string): (lines: seq<string>)
    ensures |lines| == 9
    ensures lines[0] == "# FAQ (STUB)"
    ensures lines[1] == "_Derived from folder: **" + prefix + "**_"
  {
    [ "# FAQ (STUB)",
      "_Derived from folder: **" + prefix + "**_",
      "",
      "## Q: What does this folder contain?",
      "- Draft answer: curated scrolls for the knowledge base.",
      "## Q: Who owns this content?",
      "- Draft answer: Knowledge Ops.",
      "## Q: How often is it synced?",
      "- Draft answer: On merge to main via CI." ]
  }

  /** Python's `s[:n]`: a negative bound counts from the end. */
  function PySliceTo<T>(s: seq<T>, n: int): seq<T>
  {
    if n >= 0 then (if n <= |s| then s[..n] else s)
    else if |s| + n >= 0 then s[..|s| + n] else []
  }

  /** The FAQ lines that are kept for a given `maxQuestions`. */
  function Shown(prefix: string, maxq: int): seq<string>
  {
    PySliceTo(FaqLines(prefix), 2 * maxq)
  }

  function Handler(svc: PolicyService, ev: Event): (r: Reply)
    ensures StatusOf(r) == Some(403) <==> Refused(Authorize(svc, ev))
    ensures Refused(Authorize(svc, ev)) ==> r == Returned(Err(403, Authorize(svc, ev).deny))
    ensures StatusOf(r) != Some(400)
    ensures r.Raised? <==> !Refused(Authorize(svc, ev)) && MaxQuestions(Params(ev)).Failure?
    ensures r.Raised? ==> r.error == MaxQuestions(Params(ev)).error
    ensures !Refused(Authorize(svc, ev)) && MaxQuestions(Params(ev)).Success? ==>
              r == Returned(Ok(Obj([("faqMarkdown", Str(Join("\n", Shown(Prefix(Params(ev)), MaxQuestions(Params(ev)).value))))])))
  {
    var d := Authorize(svc, ev);
    if Refused(d) then Returned(Err(403, d.deny))
    else
      var (params, _) := Require(ev, ["folderPrefix"]);
      var maxq := MaxQuestions(params);
      if maxq.Failure? then Raised(maxq.error)
      else Returned(Ok(Obj([("faqMarkdown", Str(Join("\n", Shown(Prefix(params), maxq.value))))])))
  }

  /** For a non-negative `maxQuestions` the first `min(9, 2 * maxQuestions)` lines are kept. */
  lemma ShownForNonNegative(prefix: string, maxq: int)
    requires maxq >= 0
    ensures var n := if 2 * maxq < 9 then 2 * maxq else 9;
            Shown(prefix, maxq) == FaqLines(prefix)[..n]
  {
  }

  /** For a non-negative `maxQuestions` the folder line is shown exactly when at least one question is asked for. */
  lemma {:induction false} FolderShownIffAQuestion(prefix: string, maxq: int)
    requires maxq >= 0
    ensures FaqLines(prefix)[1] in Shown(prefix, maxq) <==> maxq >= 1
  {
    var lines := FaqLines(prefix);
    if maxq == 0 {
      assert Shown(prefix, maxq) == [];
    } else {
      ShownForNonNegative(prefix, maxq);
      assert Shown(prefix, maxq)[1] == lines[1];
    }
  }

  /** A negative `maxQuestions` drops lines from the end instead: -1 keeps
      seven lines, the folder line among them, and -5 or less keeps none. */
  lemma NegativeMaxQuestions(prefix: string, maxq: int)
    requires maxq < 0
    ensures Shown(prefix, -1) == FaqLines(prefix)[..7]
    ensures maxq <= -5 ==> Shown(prefix, maxq) == []
  {
  }

  /** With no parameters at all the handler uses twelve questions and the default folder. */
  lemma Defaults()
    ensures MaxQuestions([]) == Success(12)
    ensures Prefix([]) == DefaultFolder
    ensures Shown(DefaultFolder, 12) == FaqLines(DefaultFolder)
  {
  }
}
