/** The parameter builder of the action hand-off panel: from the action id,
    the document URIs the user selected and the user's groups it builds the
    `params` object sent to the invoke route, and the lemmas here say what
    each action handler then makes of it. The current month, which the
    panel reads from the clock, is a parameter. */
module ActionHandoff {
  import opened Wrappers
  import opened Strings
  import opened Json
  import opened Common
  import SummarizeDocs
  import GenerateFaq
  import ChangeNote
  import ValidateSchema
  import JiraDraft
  import CompliancePack

  const DefaultPrefix := "s3://vaultmesh-knowledge-base/"

  /** `commonPrefix`: the first URI with everything after its last slash cut
      off; a URI without a slash is kept whole. */
  function CommonPrefix(uris: seq<string>): (r: string)
    ensures uris == [] ==> r == DefaultPrefix
    ensures uris != [] && '/' !in uris[0] ==> r == uris[0]
    ensures uris != [] && '/' in uris[0] ==>
              0 < |r| <= |uris[0]| && r == uris[0][..|r|] && r[|r| - 1] == '/' && '/' !in uris[0][|r|..]
  {
    if uris == [] then DefaultPrefix
    else
      var k := LastIndexOf(uris[0], '/');
      if k.None? then uris[0] else uris[0][..k.value + 1]
  }

  /** The FAQ folder of a selection is the directory of its first URI. */
  lemma {:induction false} CommonPrefixIsDirectory(dir: string, file: string, rest: seq<string>)
    requires '/' !in file
    ensures CommonPrefix([dir + "/" + file] + rest) == dir + "/"
  {
    var u := dir + "/" + file;
    assert u[|dir|] == '/';
    var k := LastIndexOf(u, '/');
    assert k == Some(|dir|) by {
      forall j | |dir| < j < |u| ensures u[j] != '/' {
        assert u[j] == file[j - |dir| - 1];
      }
    }
    assert u[..|dir| + 1] == dir + "/";
  }

  /** `uris[i] || ""` */
  function UriAt(uris: seq<string>, i: nat): string
  {
    if i < |uris| then uris[i] else ""
  }

  function Strs(uris: seq<string>): (r: seq<Value>)
    ensures |r| == |uris| && forall i | 0 <= i < |uris| :: r[i] == Str(uris[i])
  {
    seq(|uris|, i requires 0 <= i < |uris| => Str(uris[i]))
  }

  /** `user?.groups?.includes("VaultMesh-Delivery")` */
  predicate IsDelivery(groups: Option<seq<string>>)
  {
    groups.Some? && "VaultMesh-Delivery" in groups.value
  }

  function SummarizeParams(uris: seq<string>, groups: Option<seq<string>>): Fields
  {
    [("documentUris", Arr(Strs(uris))), ("audience", Str(if IsDelivery(groups) then "delivery" else "engineering"))]
  }

  function FaqParams(uris: seq<string>): Fields
  {
    [("folderPrefix", Str(CommonPrefix(uris))), ("maxQuestions", Num(12))]
  }

  function ChangeNoteParams(uris: seq<string>, yearMonth: string): Fields
  {
    var baseline := UriAt(uris, 0);
    [("baselineUri", Str(baseline)),
     ("updatedUri", Str(if UriAt(uris, 1) != "" then UriAt(uris, 1) else baseline)),
     ("changeWindow", Str(yearMonth))]
  }

  function SchemaParams(uris: seq<string>): Fields
  {
    [("schemaUri", Str(UriAt(uris, 0))), ("profile", Str("both"))]
  }

  function JiraParams(uris: seq<string>): Fields
  {
    [("projectKey", Str("VM")),
     ("summary", Str("Draft ticket from Q Business")),
     ("description", Str("Context: " + Join(", ", uris))),
     ("labels", Arr([Str("qbusiness"), Str("automated")]))]
  }

  function CompliancePackParams(uris: seq<string>): Fields
  {
    [("sourceUris", Arr(Strs(uris))), ("regime", Str("AI-Act"))]
  }

  /** `buildParams`: the parameters for each known action, and an empty
      object for any other id. */
  function BuildParams(actionId: string, uris: seq<string>, groups: Option<seq<string>>, yearMonth: string): (p: Fields)
    ensures actionId !in Green ==> p == []
    ensures actionId in Green ==> p != []
  {
    match actionId
    case "summarize-docs" => SummarizeParams(uris, groups)
    case "generate-faq" => FaqParams(uris)
    case "draft-change-note" => ChangeNoteParams(uris, yearMonth)
    case "validate-schema" => SchemaParams(uris)
    case "create-jira-draft" => JiraParams(uris)
    case "compliance-pack" => CompliancePackParams(uris)
    case _ => []
  }

  /** The summarize handler always finds its documents, one Sources entry
      per selected URI, and writes for the delivery audience exactly when
      the user is in the delivery group. */
  lemma {:induction false} SummarizeGetsDocuments(uris: seq<string>, groups: Option<seq<string>>, yearMonth: string)
    ensures var p := BuildParams("summarize-docs", uris, groups, yearMonth);
            !IsMissing(p, "documentUris") &&
            PyIter(Get(p, "documentUris").value) == Some(Strs(uris)) &&
            (SummarizeDocs.Audience(p) == "delivery" <==> IsDelivery(groups)) &&
            (SummarizeDocs.Audience(p) == "delivery" || SummarizeDocs.Audience(p) == "engineering")
  {
    var p := SummarizeParams(uris, groups);
    GetAt(p, "audience", 1);
  }

  /** The FAQ handler gets at most twelve questions' worth of lines, and
      the folder it names is the common prefix. */
  lemma {:induction false} FaqGetsPrefixAndTwelve(uris: seq<string>, groups: Option<seq<string>>, yearMonth: string)
    ensures var p := BuildParams("generate-faq", uris, groups, yearMonth);
            GenerateFaq.Prefix(p) == CommonPrefix(uris) && GenerateFaq.MaxQuestions(p) == Success(12)
  {
    var p := FaqParams(uris);
    GetAt(p, "maxQuestions", 1);
  }

  /** With no selection the FAQ folder is the knowledge-base root. */
  lemma FaqWithoutSelection(groups: Option<seq<string>>, yearMonth: string)
    ensures GenerateFaq.Prefix(BuildParams("generate-faq", [], groups, yearMonth)) == DefaultPrefix
  {
  }

  /** The change-note handler answers 400 exactly when the selection gives
      no first URI, naming the updated URI too only when there is no second
      one either; a single URI is compared with itself, and the window is
      the current month. */
  lemma {:induction false} ChangeNoteNeedsOneUri(uris: seq<string>, groups: Option<seq<string>>, yearMonth: string)
    ensures var p := BuildParams("draft-change-note", uris, groups, yearMonth);
            ChangeNote.MissingKeys(p) ==
              (if UriAt(uris, 0) == "" then ["baselineUri"] else []) +
              (if UriAt(uris, 0) == "" && UriAt(uris, 1) == "" then ["updatedUri"] else []) &&
            ChangeNote.Window(p) == yearMonth
  {
    var p := ChangeNoteParams(uris, yearMonth);
    forall j | 0 <= j < 2 ensures p[j].0 != "changeWindow" {
    }
    GetAt(p, "updatedUri", 1);
    GetAt(p, "changeWindow", 2);
  }

  /** Two distinct selected URIs become the baseline and the updated
      document, in selection order. */
  lemma {:induction false} ChangeNoteKeepsOrder(uris: seq<string>, groups: Option<seq<string>>, yearMonth: string)
    requires |uris| >= 2 && uris[0] != "" && uris[1] != ""
    ensures var p := BuildParams("draft-change-note", uris, groups, yearMonth);
            Get(p, "baselineUri") == Some(Str(uris[0])) && Get(p, "updatedUri") == Some(Str(uris[1])) &&
            ChangeNote.MissingKeys(p) == []
  {
    var p := ChangeNoteParams(uris, yearMonth);
    GetAt(p, "updatedUri", 1);
  }

  /** The schema handler answers 400 exactly when the selection gives no
      first URI, and otherwise evaluates the "both" profile. */
  lemma {:induction false} SchemaNeedsFirstUri(uris: seq<string>, groups: Option<seq<string>>, yearMonth: string)
    ensures var p := BuildParams("validate-schema", uris, groups, yearMonth);
            (IsMissing(p, "schemaUri") <==> uris == [] || uris[0] == "") &&
            ValidateSchema.Profile(p) == Some("both")
  {
    var p := SchemaParams(uris);
    GetAt(p, "profile", 1);
    assert Lower("both") == "both";
  }

  /** The Jira handler never finds a required parameter missing, even with
      no selection, and keeps the two fixed labels. */
  lemma {:induction false} JiraDraftIsComplete(uris: seq<string>, groups: Option<seq<string>>, yearMonth: string)
    ensures var p := BuildParams("create-jira-draft", uris, groups, yearMonth);
            JiraDraft.MissingKeys(p) == [] &&
            JiraDraft.Labels(p) == Arr([Str("qbusiness"), Str("automated")]) &&
            Get(p, "projectKey") == Some(Str("VM")) &&
            Get(p, "description") == Some(Str("Context: " + Join(", ", uris)))
  {
    var p := JiraParams(uris);
    assert p[0].0 == "projectKey" && p[1].0 == "summary" && p[2].0 == "description";
    forall j | 0 <= j < 3 ensures p[j].0 != "labels" && (j < 2 ==> p[j].0 != "description") {
    }
    GetAt(p, "projectKey", 0);
    GetAt(p, "summary", 1);
    GetAt(p, "description", 2);
    GetAt(p, "labels", 3);
    var d := "Context: " + Join(", ", uris);
    assert d[0] == 'C';
    assert !IsMissing(p, "projectKey") && !IsMissing(p, "summary") && !IsMissing(p, "description");
    assert PyTruthy(Arr([Str("qbusiness"), Str("automated")]));
    assert JiraDraft.MissingKeys(p) == [];
    JiraDispatch(uris, groups, yearMonth);
  }

  /** The Jira payload drafted from a selection is for project VM, carries
      the fixed summary, and lists the selected URIs in its description. */
  lemma {:induction false} JiraPayloadFromSelection(uris: seq<string>, groups: Option<seq<string>>, yearMonth: string)
    ensures var payload := JiraDraft.Payload(BuildParams("create-jira-draft", uris, groups, yearMonth)).fields;
            Get(payload, "project") == Some(Obj([("key", Str("VM"))])) &&
            Get(payload, "summary") == Some(Str("Draft ticket from Q Business")) &&
            Get(payload, "description") == Some(Str("Context: " + Join(", ", uris)))
  {
    var p := JiraParams(uris);
    JiraDispatch(uris, groups, yearMonth);
    JiraDraftIsComplete(uris, groups, yearMonth);
    GetAt(p, "summary", 1);
    JiraDraft.PayloadCopiesParams(p);
  }

  /** `buildParams` dispatches create-jira-draft to its own parameters. */
  lemma JiraDispatch(uris: seq<string>, groups: Option<seq<string>>, yearMonth: string)
    ensures BuildParams("create-jira-draft", uris, groups, yearMonth) == JiraParams(uris)
  {
  }

  /** The compliance pack counts every selected URI and is built for the
      AI Act rather than the handler's ISO 27001 default. */
  lemma {:induction false} CompliancePackCountsSelection(uris: seq<string>, groups: Option<seq<string>>, yearMonth: string)
    ensures var p := BuildParams("compliance-pack", uris, groups, yearMonth);
            !IsMissing(p, "sourceUris") && PyLen(Get(p, "sourceUris").value) == Some(|uris|) &&
            CompliancePack.Regime(p) == "AI-Act"
  {
    var p := CompliancePackParams(uris);
    GetAt(p, "regime", 1);
  }
}
