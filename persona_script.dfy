/** The command-line persona helper: its own group-to-persona table, and
    an action invocation that looks the action up in the catalog, calls the
    Lambda by the function name taken from its ARN, and returns the reply.
    S3, the Lambda service and the millisecond clock are parameters. */
module PersonaScript {
  import opened Wrappers
  import opened Strings
  import opened Json
  import opened Catalog
  import PersonaHelper

  const GroupToPersona: map<string, string> := map[
    "VaultMesh-Engineering" := "engineer",
    "VaultMesh-Delivery" := "delivery-manager",
    "VaultMesh-Compliance" := "compliance",
    "VaultMesh-Management" := "delivery-manager"
  ]

  /** The persona of the first group in the list that the table knows;
      "engineer" otherwise. */
  function ResolvePersona(groups: seq<string>): (r: string)
    ensures (forall i | 0 <= i < |groups| :: groups[i] !in GroupToPersona) ==> r == "engineer"
    ensures forall i | 0 <= i < |groups| && groups[i] in GroupToPersona && (forall j | 0 <= j < i :: groups[j] !in GroupToPersona) ::
              r == GroupToPersona[groups[i]]
  {
    if groups == [] then "engineer"
    else if groups[0] in GroupToPersona then GroupToPersona[groups[0]]
    else
      var r := ResolvePersona(groups[1..]);
      assert forall i | 1 <= i < |groups| :: groups[i] == groups[1..][i - 1];
      r
  }

  /** The script and the backend helper resolve every group list alike. */
  lemma {:induction false} AgreesWithBackendHelper(groups: seq<string>)
    ensures ResolvePersona(groups) == PersonaHelper.ResolvePersona(groups)
    decreases |groups|
  {
    assert GroupToPersona == PersonaHelper.GroupMapping;
    if groups != [] && groups[0] !in GroupToPersona {
      AgreesWithBackendHelper(groups[1..]);
    }
  }

  /** Management is folded into the delivery-manager persona. */
  lemma ManagementIsDelivery()
    ensures ResolvePersona(["VaultMesh-Management"]) == ResolvePersona(["VaultMesh-Delivery"]) == "delivery-manager"
  {
  }

  /** `arn.split(":")[-1]`: the text after the last colon, or the whole ARN. */
  function FunctionName(arn: string): (r: string)
    ensures ':' !in r
    ensures |r| <= |arn| && r == arn[|arn| - |r|..]
    ensures ':' !in arn ==> r == arn
    ensures ':' in arn ==> arn[|arn| - |r| - 1] == ':'
  {
    var k := LastIndexOf(arn, ':');
    if k.None? then arn
    else
      var r := arn[k.value + 1..];
      assert forall j | 0 <= j < |r| :: r[j] == arn[k.value + 1 + j];
      r
  }

  /** `request_id or f"cli-{ms}"`. */
  function RequestIdOf(requestId: Option<string>, nowMs: int): (r: string)
    ensures r != ""
    ensures requestId.Some? && requestId.value != "" ==> r == requestId.value
    ensures requestId.None? || requestId.value == "" ==> |r| >= 4 && r[..4] == "cli-" && r[4..] == IntToString(nowMs)
  {
    if requestId.Some? && requestId.value != "" then requestId.value else "cli-" + IntToString(nowMs)
  }

  function Payload(actionId: string, userId: string, userGroup: string, params: Value,
                   requestId: Option<string>, nowMs: int): (p: Value)
    ensures p.Obj? && Keys(p.fields) == ["action", "user", "context", "params"]
    ensures Get(p.fields, "action") == Some(Str(actionId))
    ensures Get(p.fields, "params") == Some(params)
    ensures Get(p.fields, "context") == Some(Obj([("request_id", Str(RequestIdOf(requestId, nowMs))),
                                                   ("persona", Str(ResolvePersona([userGroup])))]))
  {
    var fields :=
      [ ("action", Str(actionId)),
        ("user", Obj([("id", Str(userId)), ("group", Str(userGroup))])),
        ("context", Obj([("request_id", Str(RequestIdOf(requestId, nowMs))),
                         ("persona", Str(ResolvePersona([userGroup])))])),
        ("params", params) ];
    forall j | 0 <= j < 3 ensures fields[j].0 != "params" && (j < 2 ==> fields[j].0 != "context") {
    }
    GetAt(fields, "action", 0);
    GetAt(fields, "context", 2);
    GetAt(fields, "params", 3);
    KeysOfFour(fields[0], fields[1], fields[2], fields[3]);
    assert fields == [fields[0], fields[1], fields[2], fields[3]];
    Obj(fields)
  }

  /** The payload names the caller and the persona of the caller's single
      group, and keeps a supplied request id verbatim. */
  lemma {:induction false} PayloadNamesCaller(actionId: string, userId: string, userGroup: string, params: Value,
                                              requestId: string, nowMs: int)
    requires requestId != ""
    ensures var p := Payload(actionId, userId, userGroup, params, Some(requestId), nowMs).fields;
            Get(p, "user") == Some(Obj([("id", Str(userId)), ("group", Str(userGroup))])) &&
            Get(p, "context") == Some(Obj([("request_id", Str(requestId)),
                                           ("persona", Str(PersonaHelper.ResolvePersona([userGroup])))]))
  {
    var p := Payload(actionId, userId, userGroup, params, Some(requestId), nowMs).fields;
    GetAt(p, "user", 1);
    GetAt(p, "context", 2);
    AgreesWithBackendHelper([userGroup]);
  }

  /** Without a request id, or with an empty one, the payload's request id
      is "cli-" followed by the current time in milliseconds. */
  lemma {:induction false} CliRequestIdDefault(actionId: string, userId: string, userGroup: string, params: Value,
                                               requestId: Option<string>, nowMs: int)
    requires requestId.None? || requestId == Some("")
    ensures var p := Payload(actionId, userId, userGroup, params, requestId, nowMs).fields;
            Get(p, "context").Some? && Get(p, "context").value.Obj? &&
            Get(Get(p, "context").value.fields, "request_id") == Some(Str("cli-" + IntToString(nowMs)))
  {
    var id := RequestIdOf(requestId, nowMs);
    assert id == id[..4] + id[4..];
    var context := [("request_id", Str(id)), ("persona", Str(ResolvePersona([userGroup])))];
    GetAt(context, "request_id", 0);
  }

  /** `invoke_action`: every failure is an exception, here a `Failure`. */
  function InvokeAction(actionId: string, userId: string, userGroup: string, params: Value,
                        requestId: Option<string>, nowMs: int,
                        catalog: Result<Doc, string>, invoke: (string, Value) -> Result<Value, string>): (r: Result<Value, string>)
    ensures catalog.Failure? ==> r == Failure(catalog.error)
    ensures catalog.Success? && catalog.value.entries.None? ==> r == Failure("KeyError: 'catalog'")
    ensures catalog.Success? && catalog.value.entries.Some? && Find(catalog.value.entries.value, actionId).None? ==>
              r == Failure("ValueError: Action " + actionId + " not found in catalog")
    ensures catalog.Success? && catalog.value.entries.Some? && Find(catalog.value.entries.value, actionId).Some? ==>
              var arn := Find(catalog.value.entries.value, actionId).value.lambda;
              r == invoke(FunctionName(arn), Payload(actionId, userId, userGroup, params, requestId, nowMs))
  {
    if catalog.Failure? then Failure(catalog.error)
    else if catalog.value.entries.None? then Failure("KeyError: 'catalog'")
    else
      var def := Find(catalog.value.entries.value, actionId);
      if def.None? then Failure("ValueError: Action " + actionId + " not found in catalog")
      else invoke(FunctionName(def.value.lambda), Payload(actionId, userId, userGroup, params, requestId, nowMs))
  }

  /** Whatever precedes the last colon, the name after it is the one called. */
  lemma {:induction false} FunctionNameAfterLastColon(prefix: string, name: string)
    requires ':' !in name
    ensures FunctionName(prefix + ":" + name) == name
  {
    var arn := prefix + ":" + name;
    var r := FunctionName(arn);
    assert arn[|prefix|] == ':';
    assert forall j | |prefix| < j < |arn| :: arn[j] == name[j - |prefix| - 1];
    assert r == arn[|prefix| + 1..];
  }
}
