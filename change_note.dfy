/** The draft-change-note action: authorise, require `baselineUri` and
    `updatedUri`, then render the change-note markdown. */
module ChangeNote {
  import opened Wrappers
  import opened Strings
  import opened Json
  import opened Common

  const Required: seq<string> := ["baselineUri", "updatedUri"]

  /** `params.get("changeWindow", "Unspecified")` as the f-string prints it;
      a window that is present but empty is kept. */
  function Window(params: Fields): string
  {
    PyStr(Get(params, "changeWindow").GetOr(Str("Unspecified")))
  }

  /** The fixed lines of the note. */
  const Title := "# Change Note (STUB)"
  const Summary := "## Summary"
  const Deltas := "## Deltas"
  const Added := "- (stub) Added section X"
  const Updated := "- (stub) Updated requirement Y"
  const Removed := "- (stub) Removed obsolete Z"
  const Impact := "## Impact"
  const Levels := "- (stub) Low / Medium / High"
  const Reviewers := "## Reviewers"
  const Owner1 := "- (stub) @owner1"
  const Owner2 := "- (stub) @owner2"

  function NoteLines(window: string, baseline: string, updated: string): (lines: seq<string>)
    ensures |lines| == 17
    ensures lines[1] == "**Window:** " + window
    ensures lines[4] == "- Drafted change note between **" + baseline + "** and **" + updated + "**."
  {
    [ Title, "**Window:** " + window, "", Summary,
      "- Drafted change note between **" + baseline + "** and **" + updated + "**.",
      "", Deltas, Added, Updated, Removed, "", Impact, Levels, "", Reviewers, Owner1, Owner2 ]
  }

  function Markdown(params: Fields): string
  {
    Unlines(NoteLines(Window(params),
                      PyStr(Get(params, "baselineUri").GetOr(Null)),
                      PyStr(Get(params, "updatedUri").GetOr(Null))))
  }

  /** The missing keys are listed baseline first, then updated. */
  function MissingKeys(params: Fields): (m: seq<string>)
    ensures m == (if IsMissing(params, "baselineUri") then ["baselineUri"] else []) +
                 (if IsMissing(params, "updatedUri") then ["updatedUri"] else [])
  {
    MissingAppend(params, ["baselineUri"], ["updatedUri"]);
    assert Required == ["baselineUri"] + ["updatedUri"];
    Missing(params, Required)
  }

  function Handler(svc: PolicyService, ev: Event): (r: Envelope)
    ensures r.statusCode == 403 <==> Refused(Authorize(svc, ev))
    ensures Refused(Authorize(svc, ev)) ==> r == Err(403, Authorize(svc, ev).deny)
    ensures !Refused(Authorize(svc, ev)) && MissingKeys(Params(ev)) != [] ==>
              r == Err(400, Str(MissingMessage(MissingKeys(Params(ev)))))
    ensures r.statusCode == 200 <==> !Refused(Authorize(svc, ev)) && MissingKeys(Params(ev)) == []
    ensures r.statusCode == 200 ==> r.body == Obj([("changeMarkdown", Str(Markdown(Params(ev))))])
  {
    var d := Authorize(svc, ev);
    if Refused(d) then Err(403, d.deny)
    else
      var (params, missing) := Require(ev, Required);
      if missing != [] then Err(400, Str(MissingMessage(missing)))
      else Ok(Obj([("changeMarkdown", Str(Markdown(params)))]))
  }

  /** With both URIs present, the note names the window and both URIs. */
  lemma {:induction false} NoteNamesWindowAndUris(params: Fields, baseline: string, updated: string)
    requires Get(params, "baselineUri") == Some(Str(baseline))
    requires Get(params, "updatedUri") == Some(Str(updated))
    ensures IsInfix(Window(params), Markdown(params))
    ensures IsInfix(baseline, Markdown(params)) && IsInfix(updated, Markdown(params))
  {
    assert Markdown(params) == Unlines(NoteLines(Window(params), baseline, updated));
    NoteNamesWindow(Window(params), baseline, updated);
    NoteNamesUris(Window(params), baseline, updated);
  }

  lemma {:induction false} NoteNamesWindow(window: string, baseline: string, updated: string)
    ensures IsInfix(window, Unlines(NoteLines(window, baseline, updated)))
  {
    var lines := NoteLines(window, baseline, updated);
    InfixOfUnlines(lines, 1);
    InfixOfSplice("**Window:** ", window, "");
    assert "**Window:** " + window + "" == lines[1];
    InfixTrans(window, lines[1], Unlines(lines));
  }

  lemma {:induction false} NoteNamesUris(window: string, baseline: string, updated: string)
    ensures var md := Unlines(NoteLines(window, baseline, updated));
            IsInfix(baseline, md) && IsInfix(updated, md)
  {
    var lines := NoteLines(window, baseline, updated);
    var md := Unlines(lines);
    InfixOfUnlines(lines, 4);
    InfixOfSplice("- Drafted change note between **", baseline, "** and **" + updated + "**.");
    assert "- Drafted change note between **" + baseline + ("** and **" + updated + "**.") == lines[4];
    InfixTrans(baseline, lines[4], md);
    InfixOfSplice("- Drafted change note between **" + baseline + "** and **", updated, "**.");
    InfixTrans(updated, lines[4], md);
  }

  /** Without a `changeWindow` parameter the window reads "Unspecified". */
  lemma WindowDefault(params: Fields)
    requires !HasKey(params, "changeWindow")
    ensures Window(params) == "Unspecified"
  {
  }
}
