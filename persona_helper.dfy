/** The Python persona and action helper used by the chat backend:
    group-to-persona resolution, persona and catalog loading through one
    module-wide five-minute cache, handoff choices, action invocation with
    best-effort body decoding, and session initialisation. S3, the Lambda
    service and the clock are parameters. */
module PersonaHelper {
  import opened Wrappers
  import opened Json
  import opened TtlCache
  import opened Catalog

  /** Seconds an entry stays fresh. */
  const Ttl: int := 300

  const GroupMapping: map<string, string> := map[
    "VaultMesh-Engineering" := "engineer",
    "VaultMesh-Delivery" := "delivery-manager",
    "VaultMesh-Compliance" := "compliance",
    "VaultMesh-Management" := "delivery-manager"
  ]

  predicate IsPersonaId(id: string)
  {
    id == "engineer" || id == "delivery-manager" || id == "compliance"
  }

  /** The persona of the first group, in the caller's order, that the
      mapping knows; "engineer" when there is none. */
  function ResolvePersona(groups: seq<string>): (r: string)
    ensures IsPersonaId(r)
    ensures (forall i | 0 <= i < |groups| :: groups[i] !in GroupMapping) ==> r == "engineer"
    ensures forall i | 0 <= i < |groups| && groups[i] in GroupMapping && (forall j | 0 <= j < i :: groups[j] !in GroupMapping) ::
              r == GroupMapping[groups[i]]
  {
    if groups == [] then "engineer"
    else if groups[0] in GroupMapping then GroupMapping[groups[0]]
    else
      var r := ResolvePersona(groups[1..]);
      assert forall i | 1 <= i < |groups| :: groups[i] == groups[1..][i - 1];
      r
  }

  /** Cache key and S3 object key of a persona. */
  function PersonaCacheKey(id: string): string { "persona:" + id }
  function PersonaObjectKey(id: string): string { "personas/" + id + ".json" }
  const CatalogCacheKey := "catalog"

  /** One handoff choice as `get_handoff_choices` projects it. */
  datatype Choice = Choice(id: string, name: string, handoffText: string, description: string,
                           lambda: string, safetyTier: string)

  function ChoiceOf(e: ActionEntry): Choice
  {
    var text := if e.invocation.Some? && e.invocation.value.handoffText.Some?
                then e.invocation.value.handoffText.value else e.name;
    Choice(e.id, e.name, text, e.description, e.lambda, e.safetyTier.GetOr("UNKNOWN"))
  }

  /** A choice copies the entry's identity and falls back to the name for
      the handoff text and to "UNKNOWN" for the safety tier. */
  lemma ChoiceDefaults(e: ActionEntry)
    ensures var c := ChoiceOf(e);
            c.id == e.id && c.name == e.name && c.description == e.description && c.lambda == e.lambda
    ensures e.invocation.None? ==> ChoiceOf(e).handoffText == e.name
    ensures e.safetyTier.None? ==> ChoiceOf(e).safetyTier == "UNKNOWN"
  {
  }

  /** One choice per entry, in catalog order. */
  method BuildChoices(entries: seq<ActionEntry>) returns (choices: seq<Choice>)
    ensures |choices| == |entries|
    ensures forall i | 0 <= i < |entries| :: choices[i] == ChoiceOf(entries[i])
  {
    choices := [];
    var k := 0;
    while k < |entries|
      invariant 0 <= k <= |entries|
      invariant |choices| == k
      invariant forall i | 0 <= i < k :: choices[i] == ChoiceOf(entries[i])
    {
      choices := choices + [ChoiceOf(entries[k])];
      k := k + 1;
    }
  }

  /** The search loop of `invoke_action`: the first entry with the id. */
  method FindEntry(entries: seq<ActionEntry>, id: string) returns (found: Option<ActionEntry>)
    ensures found == Find(entries, id)
  {
    found := None;
    var k := 0;
    while k < |entries|
      invariant 0 <= k <= |entries|
      invariant found.None? ==> Find(entries, id) == Find(entries[k..], id)
      invariant found.Some? ==> found == Find(entries, id)
    {
      if entries[k].id == id {
        found := Some(entries[k]);
        break;
      }
      assert entries[k..] == [entries[k]] + entries[k + 1..];
      k := k + 1;
    }
  }

  /** Python's message when `'body' in result` is asked of a scalar. */
  function NotIterable(typeName: string): string
  {
    "argument of type '" + typeName + "' is not iterable"
  }

  /** The result handling of `invoke_action`: `None`, booleans and numbers
      make the membership test raise; a dictionary whose `body` is a string
      that parses gets the parsed value in its place; anything else is
      returned as it is. */
  function DecodeResultBody(result: Value, parse: string -> Option<Value>): (r: Result<Value, string>)
    ensures r.Failure? <==> result.Null? || result.Bool? || result.Num?
    ensures r.Success? && !result.Obj? ==> r.value == result
    ensures result.Obj? ==> r.Success? && r.value.Obj? && Keys(r.value.fields) == Keys(result.fields)
    ensures result.Obj? ==>
              forall k | k != "body" :: Get(r.value.fields, k) == Get(result.fields, k)
    ensures result.Obj? ==>
              var b := Get(result.fields, "body");
              Get(r.value.fields, "body") ==
                if b.Some? && b.value.Str? && parse(b.value.s).Some? then parse(b.value.s) else b
  {
    match result
    case Null => Failure(NotIterable("NoneType"))
    case Bool(_) => Failure(NotIterable("bool"))
    case Num(_) => Failure(NotIterable("int"))
    case Str(_) => Success(result)
    case Arr(_) => Success(result)
    case Obj(fields) =>
      var b := Get(fields, "body");
      if b.Some? && b.value.Str? && parse(b.value.s).Some? then
        Success(Obj(Put(fields, "body", parse(b.value.s).value)))
      else Success(result)
  }

  /** The event sent to the action: `context or {}`. */
  function EventOf(actionId: string, user: Value, params: Value, context: Option<Value>): (ev: Value)
    ensures ev.Obj? && Keys(ev.fields) == ["action", "user", "context", "params"]
    ensures Get(ev.fields, "action") == Some(Str(actionId))
    ensures Get(ev.fields, "user") == Some(user) && Get(ev.fields, "params") == Some(params)
    ensures Get(ev.fields, "context") == Some(if context.Some? && PyTruthy(context.value) then context.value else Obj([]))
  {
    var ctx := if context.Some? && PyTruthy(context.value) then context.value else Obj([]);
    var fields := [("action", Str(actionId)), ("user", user), ("context", ctx), ("params", params)];
    assert fields[0].0 == "action" && fields[1].0 == "user" && fields[2].0 == "context";
    forall j | 0 <= j < 3 ensures fields[j].0 != "params" && (j < 2 ==> fields[j].0 != "context") {
    }
    GetAt(fields, "action", 0);
    GetAt(fields, "user", 1);
    GetAt(fields, "context", 2);
    GetAt(fields, "params", 3);
    KeysOfFour(fields[0], fields[1], fields[2], fields[3]);
    assert fields == [fields[0], fields[1], fields[2], fields[3]];
    Obj(fields)
  }

  /** What `invoke_action` returns once the catalog is loaded (or not). */
  function InvokeResult(catalog: Option<Doc>, actionId: string, user: Value, params: Value, context: Option<Value>,
                        invoke: (string, Value) -> Result<Value, string>, parse: string -> Option<Value>): Value
  {
    if catalog.None? || IsEmptyObject(catalog.value) then ErrorObject("catalog unavailable")
    else
      var meta := Find(EntriesOf(catalog.value), actionId);
      if meta.None? then ErrorObject("action " + actionId + " not found in catalog")
      else
        var reply := invoke(meta.value.lambda, EventOf(actionId, user, params, context));
        if reply.Failure? then ErrorObject(reply.error)
        else
          var decoded := DecodeResultBody(reply.value, parse);
          if decoded.Failure? then ErrorObject(decoded.error) else decoded.value
  }

  /** The body of `invoke_action` after the catalog load: the search loop,
      the invocation and the decoding, each failure becoming an error object. */
  method Dispatch(catalog: Option<Doc>, actionId: string, user: Value, params: Value, context: Option<Value>,
                  invoke: (string, Value) -> Result<Value, string>, parse: string -> Option<Value>)
    returns (r: Value)
    ensures r == InvokeResult(catalog, actionId, user, params, context, invoke, parse)
  {
    if catalog.None? || IsEmptyObject(catalog.value) {
      return ErrorObject("catalog unavailable");
    }
    var meta := FindEntry(EntriesOf(catalog.value), actionId);
    if meta.None? {
      return ErrorObject("action " + actionId + " not found in catalog");
    }
    var event := EventOf(actionId, user, params, context);
    var reply := invoke(meta.value.lambda, event);
    assert InvokeResult(catalog, actionId, user, params, context, invoke, parse) ==
           if reply.Failure? then ErrorObject(reply.error)
           else if DecodeResultBody(reply.value, parse).Failure? then ErrorObject(DecodeResultBody(reply.value, parse).error)
           else DecodeResultBody(reply.value, parse).value;
    if reply.Failure? {
      return ErrorObject(reply.error);
    }
    var decoded := DecodeResultBody(reply.value, parse);
    r := if decoded.Failure? then ErrorObject(decoded.error) else decoded.value;
  }

  /** The error objects of `invoke_action`: no catalog, no entry with the
      id, a failed invocation, or a reply that is a Python scalar. Every
      other reply is returned, decoded, as the result. */
  lemma InvokeErrors(catalog: Option<Doc>, actionId: string, user: Value, params: Value, context: Option<Value>,
                     invoke: (string, Value) -> Result<Value, string>, parse: string -> Option<Value>)
    ensures var r := InvokeResult(catalog, actionId, user, params, context, invoke, parse);
            (catalog.None? || IsEmptyObject(catalog.value) ==> r == ErrorObject("catalog unavailable")) &&
            (catalog.Some? && !IsEmptyObject(catalog.value) && Find(EntriesOf(catalog.value), actionId).None? ==>
               r == ErrorObject("action " + actionId + " not found in catalog"))
    ensures catalog.Some? && !IsEmptyObject(catalog.value) && Find(EntriesOf(catalog.value), actionId).Some? ==>
              var reply := invoke(Find(EntriesOf(catalog.value), actionId).value.lambda, EventOf(actionId, user, params, context));
              var r := InvokeResult(catalog, actionId, user, params, context, invoke, parse);
              (reply.Failure? ==> r == ErrorObject(reply.error)) &&
              (reply.Success? && reply.value.Null? ==> r == ErrorObject(NotIterable("NoneType"))) &&
              (reply.Success? && reply.value.Obj? ==> r.Obj? && Keys(r.fields) == Keys(reply.value.fields))
  {
  }

  /** The action invoked is the first catalog entry with the id, even when
      a later entry has the same id. */
  lemma {:induction false} FirstEntryWins(e1: ActionEntry, e2: ActionEntry, rest: seq<ActionEntry>, user: Value, params: Value,
                                           invoke: (string, Value) -> Result<Value, string>, parse: string -> Option<Value>)
    requires e1.id == e2.id
    ensures var doc := Doc(None, Some([e1, e2] + rest));
            InvokeResult(Some(doc), e1.id, user, params, None, invoke, parse) ==
            InvokeResult(Some(Doc(None, Some([e1]))), e1.id, user, params, None, invoke, parse)
  {
    assert ([e1, e2] + rest)[0] == e1;
  }

  /** The persona used when none could be loaded. */
  function DefaultPersona(id: string): Value
  {
    Obj([("id", Str(id)), ("tone", Str("professional")), ("preferred_sources", Arr([])),
         ("answer_guidance", Str("Provide clear answers")), ("glossary_aliases", Obj([]))])
  }

  /** The prompt extras: `persona.get(key, default)` for each of the four keys. */
  function Extras(persona: Fields): Value
  {
    Obj([("tone", Get(persona, "tone").GetOr(Str("professional"))),
         ("preferred_sources", Get(persona, "preferred_sources").GetOr(Arr([]))),
         ("answer_guidance", Get(persona, "answer_guidance").GetOr(Str(""))),
         ("glossary_aliases", Get(persona, "glossary_aliases").GetOr(Obj([])))])
  }

  /** The session record of `init_session_with_persona`; a truthy persona
      that is not a dictionary makes `.get` raise. */
  function Session(personaId: string, loaded: Option<Value>): (r: Result<Value, string>)
    ensures loaded.None? || !PyTruthy(loaded.value) ==>
              r.Success? && r.value.Obj? && Get(r.value.fields, "persona") == Some(DefaultPersona(personaId))
    ensures r.Failure? <==> loaded.Some? && PyTruthy(loaded.value) && !loaded.value.Obj?
    ensures r.Success? ==> r.value.Obj? && Keys(r.value.fields) == ["persona_id", "persona", "system_prompt_extras"]
    ensures r.Success? ==> Get(r.value.fields, "persona_id") == Some(Str(personaId))
  {
    var persona := if loaded.Some? && PyTruthy(loaded.value) then loaded.value else DefaultPersona(personaId);
    if !persona.Obj? then Failure("AttributeError")
    else
      var fields := [("persona_id", Str(personaId)), ("persona", persona), ("system_prompt_extras", Extras(persona.fields))];
      GetAt(fields, "persona_id", 0);
      GetAt(fields, "persona", 1);
      Success(Obj(fields))
  }

  /** The prompt extras take the persona's own values and default tone to
      "professional", sources to `[]`, guidance to `""` and aliases to `{}`. */
  lemma {:induction false} ExtrasDefaults(personaId: string, persona: Fields)
    requires persona != []
    ensures var r := Session(personaId, Some(Obj(persona)));
            var extras := Obj([
              ("tone", Get(persona, "tone").GetOr(Str("professional"))),
              ("preferred_sources", Get(persona, "preferred_sources").GetOr(Arr([]))),
              ("answer_guidance", Get(persona, "answer_guidance").GetOr(Str(""))),
              ("glossary_aliases", Get(persona, "glossary_aliases").GetOr(Obj([])))]);
            r.Success? && Get(r.value.fields, "system_prompt_extras") == Some(extras) &&
            Get(r.value.fields, "persona") == Some(Obj(persona))
  {
    var fields := [("persona_id", Str(personaId)), ("persona", Obj(persona)), ("system_prompt_extras", Extras(persona))];
    assert PyTruthy(Obj(persona));
    assert Session(personaId, Some(Obj(persona))) == Success(Obj(fields));
    GetAt(fields, "system_prompt_extras", 2);
    GetAt(fields, "persona", 1);
  }

  /** A caller in no known group gets the engineer default when loading fails. */
  lemma UnknownGroupsFallBack(groups: seq<string>)
    requires forall i | 0 <= i < |groups| :: groups[i] !in GroupMapping
    ensures var r := Session(ResolvePersona(groups), None);
            r.Success? && Get(r.value.fields, "persona") == Some(DefaultPersona("engineer"))
  {
  }

  /** The module-wide `_cache`: persona entries under "persona:<id>" and the
      catalog under "catalog", each stamped with the second it was stored. */
  class Store {
    var personas: Entries<Value>
    var catalogs: Entries<Doc>

    constructor ()
      ensures personas == map[] && catalogs == map[]
    {
      personas := map[];
      catalogs := map[];
    }

    /** `load_persona_s3`: served from the cache while fresh; otherwise S3 is
        asked for "personas/<id>.json", a success is stored and an error
        gives `None` and leaves the cache as it was. */
    method LoadPersona(id: string, now: int, s3: string -> Result<Value, string>) returns (r: Option<Value>, fetchIssued: bool)
      modifies this
      ensures var o := Load(old(personas), PersonaCacheKey(id), now, Ttl, s3(PersonaObjectKey(id)));
              r == o.result.ToOption() && fetchIssued == o.fetched && personas == o.entries
      ensures catalogs == old(catalogs)
    {
      var o := Load(personas, PersonaCacheKey(id), now, Ttl, s3(PersonaObjectKey(id)));
      personas := o.entries;
      r := o.result.ToOption();
      fetchIssued := o.fetched;
    }

    /** `load_catalog`: the same rule under the key "catalog". */
    method LoadCatalog(now: int, fetch: Result<Doc, string>) returns (r: Option<Doc>, fetchIssued: bool)
      modifies this
      ensures var o := Load(old(catalogs), CatalogCacheKey, now, Ttl, fetch);
              r == o.result.ToOption() && fetchIssued == o.fetched && catalogs == o.entries
      ensures personas == old(personas)
    {
      var o := Load(catalogs, CatalogCacheKey, now, Ttl, fetch);
      catalogs := o.entries;
      r := o.result.ToOption();
      fetchIssued := o.fetched;
    }

    /** `get_handoff_choices`: no choices without a catalog, otherwise one per
        entry in order. The persona id is accepted and not used. */
    method GetHandoffChoices(personaId: string, now: int, fetch: Result<Doc, string>) returns (choices: seq<Choice>)
      modifies this
      ensures var doc := Load(old(catalogs), CatalogCacheKey, now, Ttl, fetch).result;
              if doc.Failure? || IsEmptyObject(doc.value) then choices == []
              else |choices| == |EntriesOf(doc.value)| &&
                   forall i | 0 <= i < |choices| :: choices[i] == ChoiceOf(EntriesOf(doc.value)[i])
      ensures catalogs == Load(old(catalogs), CatalogCacheKey, now, Ttl, fetch).entries
      ensures personas == old(personas)
    {
      var doc, _ := LoadCatalog(now, fetch);
      if doc.None? || IsEmptyObject(doc.value) {
        choices := [];
      } else {
        choices := BuildChoices(EntriesOf(doc.value));
      }
    }

    /** `invoke_action`: load the catalog, find the first entry with the id,
        invoke its Lambda with the standard event and decode the reply. */
    method InvokeAction(actionId: string, user: Value, params: Value, context: Option<Value>, now: int,
                        fetch: Result<Doc, string>,
                        invoke: (string, Value) -> Result<Value, string>, parse: string -> Option<Value>)
      returns (r: Value)
      modifies this
      ensures var doc := Load(old(catalogs), CatalogCacheKey, now, Ttl, fetch).result;
              r == InvokeResult(doc.ToOption(), actionId, user, params, context, invoke, parse)
      ensures catalogs == Load(old(catalogs), CatalogCacheKey, now, Ttl, fetch).entries
      ensures personas == old(personas)
    {
      var doc, _ := LoadCatalog(now, fetch);
      r := Dispatch(doc, actionId, user, params, context, invoke, parse);
    }

    /** `init_session_with_persona`: resolve, load (through the cache) and
        fall back to the default persona. */
    method InitSessionWithPersona(groups: seq<string>, now: int, s3: string -> Result<Value, string>)
      returns (r: Result<Value, string>)
      modifies this
      ensures var id := ResolvePersona(groups);
              var o := Load(old(personas), PersonaCacheKey(id), now, Ttl, s3(PersonaObjectKey(id)));
              r == Session(id, o.result.ToOption()) && personas == o.entries
      ensures catalogs == old(catalogs)
    {
      var id := ResolvePersona(groups);
      var persona, _ := LoadPersona(id, now, s3);
      r := Session(id, persona);
    }
  }

  /** The caller's group order decides: the same two groups in the other
      order give a different persona. */
  lemma GroupOrderMatters()
    ensures ResolvePersona(["VaultMesh-Compliance", "VaultMesh-Engineering"]) == "compliance"
    ensures ResolvePersona(["VaultMesh-Engineering", "VaultMesh-Compliance"]) == "engineer"
  {
  }
}
