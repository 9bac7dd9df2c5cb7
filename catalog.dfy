/** The actions catalog document (`actions/catalog.json`) as the persona
    helpers and the API routes read it: an optional version and an optional
    list of action entries. */
module Catalog {
  import opened Wrappers
  import opened Json

  datatype Invocation = Invocation(mode: Option<string>, handoffText: Option<string>)

  /** One action; `enabled` is kept as a JSON value because only the exact
      value `false` switches an action off. */
  datatype ActionEntry = ActionEntry(
    id: string,
    name: string,
    description: string,
    lambda: string,
    invocation: Option<Invocation>,
    safetyTier: Option<string>,
    enabled: Option<Value>)

  datatype Doc = Doc(version: Option<Value>, entries: Option<seq<ActionEntry>>)

  /** The document read as a dictionary has no keys at all (Python's `not catalog`). */
  predicate IsEmptyObject(doc: Doc)
  {
    doc.version.None? && doc.entries.None?
  }

  /** `catalog.get("catalog", [])`: an absent list reads as empty. */
  function EntriesOf(doc: Doc): seq<ActionEntry>
  {
    doc.entries.GetOr([])
  }

  /** The first entry whose id is `id`. */
  function Find(entries: seq<ActionEntry>, id: string): (r: Option<ActionEntry>)
    ensures r.None? <==> forall i | 0 <= i < |entries| :: entries[i].id != id
    ensures r.Some? ==>
              r.value.id == id &&
              exists i | 0 <= i < |entries| :: entries[i] == r.value && forall j | 0 <= j < i :: entries[j].id != id
  {
    if entries == [] then None
    else if entries[0].id == id then Some(entries[0])
    else
      var r := Find(entries[1..], id);
      if r.Some? then
        var i :| 0 <= i < |entries[1..]| && entries[1..][i] == r.value && forall j | 0 <= j < i :: entries[1..][j].id != id;
        assert entries[i + 1] == r.value;
        assert forall j | 0 <= j < i + 1 :: entries[j].id != id by {
          forall j | 0 <= j < i + 1 ensures entries[j].id != id {
            if j > 0 { assert entries[j] == entries[1..][j - 1]; }
          }
        }
        r
      else r
  }
}
