/** The `GET /api/actions/catalog` route: the catalog with every action
    whose `enabled` flag is exactly `false` filtered out, and the version
    copied through. The S3 read is a parameter. */
module CatalogRoute {
  import opened Wrappers
  import opened Json
  import opened Catalog

  /** `action.enabled !== false` */
  predicate IsEnabled(e: ActionEntry)
  {
    e.enabled != Some(Bool(false))
  }

  /** The order-preserving filter on enabled entries. */
  function EnabledOnly(entries: seq<ActionEntry>): (r: seq<ActionEntry>)
    ensures |r| <= |entries|
    ensures forall e :: e in r <==> e in entries && IsEnabled(e)
  {
    if entries == [] then []
    else (if IsEnabled(entries[0]) then [entries[0]] else []) + EnabledOnly(entries[1..])
  }

  /** Filtering a concatenation filters each part: kept entries keep their
      relative order. */
  lemma {:induction false} EnabledOnlyAppend(a: seq<ActionEntry>, b: seq<ActionEntry>)
    ensures EnabledOnly(a + b) == EnabledOnly(a) + EnabledOnly(b)
    decreases |a|
  {
    if a == [] {
      assert a + b == b;
    } else {
      assert (a + b)[1..] == a[1..] + b;
      EnabledOnlyAppend(a[1..], b);
    }
  }

  /** No entry whose flag is absent or anything but `false` is dropped. */
  lemma {:induction false} AllEnabledKept(entries: seq<ActionEntry>)
    requires forall i | 0 <= i < |entries| :: IsEnabled(entries[i])
    ensures EnabledOnly(entries) == entries
    decreases |entries|
  {
    if entries != [] {
      AllEnabledKept(entries[1..]);
      assert entries == [entries[0]] + entries[1..];
    }
  }

  datatype Response =
    | Listing(version: Option<Value>, catalog: seq<ActionEntry>)
    | LoadError(status: int, error: string)

  /** `GET`: a load error becomes a 500 carrying its message, or "Catalog
      load failed" when the message is empty. */
  function HandleGet(doc: Result<Doc, string>): (r: Response)
    ensures r.LoadError? <==> doc.Failure?
    ensures r.LoadError? ==> r.status == 500 && r.error != "" && (doc.error != "" ==> r.error == doc.error)
    ensures r.Listing? ==> r.version == doc.value.version && r.catalog == EnabledOnly(EntriesOf(doc.value))
  {
    if doc.Failure? then LoadError(500, if doc.error != "" then doc.error else "Catalog load failed")
    else Listing(doc.value.version, EnabledOnly(EntriesOf(doc.value)))
  }

  /** A document without a `catalog` list gives an empty listing. */
  lemma AbsentCatalogIsEmpty(version: Option<Value>)
    ensures HandleGet(Success(Doc(version, None))) == Listing(version, [])
  {
  }
}
