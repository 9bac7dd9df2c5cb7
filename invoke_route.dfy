/** The `POST /api/actions/invoke` route: validate the request, resolve
    the caller's persona, find the action in the catalog, refuse disabled
    actions, optionally pre-check with the policy service (failing open),
    invoke the action and pass its status through with the body decoded
    when it is a JSON string. S3, the policy service, the Lambda service,
    the clock and the random request id are parameters. */
module InvokeRoute {
  import opened Wrappers
  import opened Json
  import opened Catalog
  import opened TtlCache
  import opened PersonaTs

  const DefaultGroup := "VaultMesh-Engineering"
  const DefaultUserId := "anon@vaultmesh.io"

  datatype UserIn = UserIn(id: Option<string>, groups: Option<seq<string>>)

  /** The request body; an absent member is `None`. */
  datatype Request = Request(actionId: Option<string>, params: Option<Fields>, user: Option<UserIn>)

  datatype Response = Response(status: int, body: Value)

  /** The payload sent to the policy service and to the action. */
  datatype Payload = Payload(action: string, userId: string, group: string, requestId: string,
                             persona: string, system: SystemContext, params: Fields)

  /** What the Lambda service answers: its status code and the parsed reply. */
  datatype LambdaReply = LambdaReply(statusCode: int, json: Value)

  function ErrorResponse(status: int, message: string): Response
  {
    Response(status, Obj([("error", Str(message))]))
  }

  /** `error.message || "Action invocation failed"` */
  function FailureMessage(message: string): string
  {
    if message != "" then message else "Action invocation failed"
  }

  /** `user?.groups?.length ? user.groups : [DEFAULT_GROUP]` */
  function Groups(req: Request): (g: seq<string>)
    ensures |g| > 0
    ensures req.user.Some? && req.user.value.groups.Some? && req.user.value.groups.value != [] ==> g == req.user.value.groups.value
    ensures req.user.None? || req.user.value.groups.None? || req.user.value.groups.value == [] ==> g == [DefaultGroup]
  {
    if req.user.Some? && req.user.value.groups.Some? && req.user.value.groups.value != [] then req.user.value.groups.value
    else [DefaultGroup]
  }

  function PayloadOf(req: Request, persona: Persona, requestId: string): (p: Payload)
    ensures p.group == Groups(req)[0]
    ensures p.userId == (if req.user.Some? && req.user.value.id.Some? then req.user.value.id.value else DefaultUserId)
    ensures p.params == (if req.params.Some? then req.params.value else [])
    ensures p.persona == persona.id
  {
    Payload(req.actionId.GetOr(""),
            if req.user.Some? && req.user.value.id.Some? then req.user.value.id.value else DefaultUserId,
            Groups(req)[0], requestId, persona.id, PersonaToSystemContext(persona), req.params.GetOr([]))
  }

  /** `preCheckOPA`: `!!json.result` on the policy service's reply; any
      error, including reading `result` of `null`, counts as allowed. */
  function PreCheck(answer: Result<Value, string>): (allowed: bool)
    ensures answer.Failure? ==> allowed
    ensures answer.Success? && answer.value.Obj? ==>
              (allowed <==> HasKey(answer.value.fields, "result") && JsTruthy(Get(answer.value.fields, "result").value))
    ensures answer.Success? && !answer.value.Obj? ==> (allowed <==> answer.value.Null?)
  {
    if answer.Failure? then true
    else match answer.value
      case Null => true
      case Obj(fields) => var v := Get(fields, "result"); v.Some? && JsTruthy(v.value)
      case _ => false
  }

  /** Reading `json.body` of a `null` reply throws. */
  const NullBodyMessage := "Cannot read properties of null (reading 'body')"

  /** The best-effort body decoding: only a non-empty string body is parsed,
      and a parse failure keeps the reply as it was. */
  function DecodeBody(json: Value, parse: string -> Option<Value>): (r: Result<Value, string>)
    ensures r.Failure? <==> json.Null?
    ensures r.Success? && !json.Obj? ==> r.value == json
    ensures json.Obj? ==> r.Success? && r.value.Obj? && Keys(r.value.fields) == Keys(json.fields)
    ensures json.Obj? ==> forall k | k != "body" :: Get(r.value.fields, k) == Get(json.fields, k)
    ensures json.Obj? ==>
              var b := Get(json.fields, "body");
              Get(r.value.fields, "body") ==
                if b.Some? && b.value.Str? && b.value.s != "" && parse(b.value.s).Some? then parse(b.value.s) else b
  {
    match json
    case Null => Failure(NullBodyMessage)
    case Obj(fields) =>
      var b := Get(fields, "body");
      if b.Some? && b.value.Str? && b.value.s != "" && parse(b.value.s).Some? then
        Success(Obj(Put(fields, "body", parse(b.value.s).value)))
      else Success(json)
    case _ => Success(json)
  }

  /** A body of the form `{error: <string>}`. */
  predicate IsErrorObject(body: Value)
  {
    body.Obj? && |body.fields| == 1 && body.fields[0].0 == "error" && body.fields[0].1.Str?
  }

  /** The decision sequence of `POST` once the persona has been resolved
      (or failed to resolve). `opa` is `None` when no policy service is
      configured. */
  function Route(req: Request, persona: Result<Persona, string>, catalog: Result<Doc, string>,
                 opa: Option<Payload -> Result<Value, string>>,
                 invoke: (string, Payload) -> Result<LambdaReply, string>,
                 parse: string -> Option<Value>, requestId: string): (r: Response)
    ensures (IsErrorObject(r.body) && r.status in {400, 403, 404, 500}) ||
            (persona.Success? && catalog.Success? && req.actionId.Some? &&
             var entry := Find(EntriesOf(catalog.value), req.actionId.value);
             entry.Some? &&
             var reply := invoke(entry.value.lambda, PayloadOf(req, persona.value, requestId));
             reply.Success? && !reply.value.json.Null? && r == Response(reply.value.statusCode, DecodeBody(reply.value.json, parse).value))
  {
    if req.actionId.None? || req.actionId.value == "" then ErrorResponse(400, "actionId is required")
    else
      var id := req.actionId.value;
      if persona.Failure? then ErrorResponse(500, FailureMessage(persona.error))
      else if catalog.Failure? then ErrorResponse(500, FailureMessage(catalog.error))
      else
        var entry := Find(EntriesOf(catalog.value), id);
        if entry.None? then ErrorResponse(404, "Action '" + id + "' not found in catalog")
        else if entry.value.enabled == Some(Bool(false)) then ErrorResponse(403, "Action '" + id + "' is currently disabled")
        else
          var payload := PayloadOf(req, persona.value, requestId);
          if opa.Some? && !PreCheck(opa.value(payload)) then ErrorResponse(403, "Action denied by policy")
          else
            var reply := invoke(entry.value.lambda, payload);
            if reply.Failure? then ErrorResponse(500, FailureMessage(reply.error))
            else
              var body := DecodeBody(reply.value.json, parse);
              if body.Failure? then ErrorResponse(500, body.error)
              else Response(reply.value.statusCode, body.value)
  }

  /** A request without an action id is refused with 400 before anything
      is loaded. */
  lemma MissingActionIdIs400(req: Request, persona: Result<Persona, string>, catalog: Result<Doc, string>,
                             opa: Option<Payload -> Result<Value, string>>,
                             invoke: (string, Payload) -> Result<LambdaReply, string>,
                             parse: string -> Option<Value>, requestId: string)
    requires req.actionId.None? || req.actionId == Some("")
    ensures Route(req, persona, catalog, opa, invoke, parse, requestId) == ErrorResponse(400, "actionId is required")
  {
  }

  /** A persona or catalog that fails to load answers 500 with the
      failure's message, the persona being resolved first. */
  lemma LoadFailuresAre500(req: Request, persona: Result<Persona, string>, catalog: Result<Doc, string>,
                           opa: Option<Payload -> Result<Value, string>>,
                           invoke: (string, Payload) -> Result<LambdaReply, string>,
                           parse: string -> Option<Value>, requestId: string)
    requires req.actionId.Some? && req.actionId.value != ""
    ensures persona.Failure? ==>
              Route(req, persona, catalog, opa, invoke, parse, requestId) == ErrorResponse(500, FailureMessage(persona.error))
    ensures persona.Success? && catalog.Failure? ==>
              Route(req, persona, catalog, opa, invoke, parse, requestId) == ErrorResponse(500, FailureMessage(catalog.error))
  {
  }

  /** The checks come in order: an id missing from the catalog is a 404,
      an entry with `enabled: false` a 403, and any other entry (the flag
      absent included) is put to the policy service when one is
      configured, whose refusal is a 403. */
  lemma {:induction false} CatalogChecks(req: Request, persona: Persona, doc: Doc,
                                         opa: Option<Payload -> Result<Value, string>>,
                                         invoke: (string, Payload) -> Result<LambdaReply, string>,
                                         parse: string -> Option<Value>, requestId: string)
    requires req.actionId.Some? && req.actionId.value != ""
    ensures var id := req.actionId.value;
            var r := Route(req, Success(persona), Success(doc), opa, invoke, parse, requestId);
            var entry := Find(EntriesOf(doc), id);
            (entry.None? ==> r == ErrorResponse(404, "Action '" + id + "' not found in catalog")) &&
            (entry.Some? && entry.value.enabled == Some(Bool(false)) ==> r == ErrorResponse(403, "Action '" + id + "' is currently disabled"))
    ensures var entry := Find(EntriesOf(doc), req.actionId.value);
            entry.Some? && entry.value.enabled != Some(Bool(false)) &&
            opa.Some? && !PreCheck(opa.value(PayloadOf(req, persona, requestId))) ==>
              Route(req, Success(persona), Success(doc), opa, invoke, parse, requestId) == ErrorResponse(403, "Action denied by policy")
  {
  }

  /** Once an enabled entry passes the pre-check (or none is configured),
      the action is invoked with the payload: a failed invocation is a 500
      with its message, a `null` reply a 500 from reading its body, and
      any other reply is passed through with its status and its body
      decoded. */
  lemma {:induction false} InvocationOutcome(req: Request, persona: Persona, doc: Doc,
                                             opa: Option<Payload -> Result<Value, string>>,
                                             invoke: (string, Payload) -> Result<LambdaReply, string>,
                                             parse: string -> Option<Value>, requestId: string)
    requires req.actionId.Some? && req.actionId.value != ""
    ensures var entry := Find(EntriesOf(doc), req.actionId.value);
            var payload := PayloadOf(req, persona, requestId);
            entry.Some? && entry.value.enabled != Some(Bool(false)) && (opa.None? || PreCheck(opa.value(payload))) ==>
              var reply := invoke(entry.value.lambda, payload);
              var r := Route(req, Success(persona), Success(doc), opa, invoke, parse, requestId);
              (reply.Failure? ==> r == ErrorResponse(500, FailureMessage(reply.error))) &&
              (reply.Success? && reply.value.json.Null? ==> r == ErrorResponse(500, NullBodyMessage)) &&
              (reply.Success? && !reply.value.json.Null? ==>
                 r == Response(reply.value.statusCode, DecodeBody(reply.value.json, parse).value))
  {
  }

  /** The pre-check fails open: when the policy service cannot be reached
      the action is invoked, and the reply's status is passed through. */
  lemma {:induction false} PolicyErrorFailsOpen(req: Request, persona: Persona, doc: Doc, entry: ActionEntry,
                                               error: string, reply: LambdaReply,
                                               parse: string -> Option<Value>, requestId: string)
    requires req.actionId.Some? && req.actionId.value != ""
    requires Find(EntriesOf(doc), req.actionId.value) == Some(entry) && entry.enabled != Some(Bool(false))
    requires !reply.json.Null?
    ensures var opa := (p: Payload) => Failure(error);
            var invoke := (arn: string, p: Payload) => Success(reply);
            Route(req, Success(persona), Success(doc), Some(opa), invoke, parse, requestId).status == reply.statusCode
  {
    var opa := (p: Payload) => Failure(error);
    var payload := PayloadOf(req, persona, requestId);
    assert PreCheck(opa(payload));
  }

  /** `POST` as a whole: a request without an action id is answered 400
      without touching the persona cache; otherwise the persona is
      resolved through the cache, which keeps what the resolution loaded,
      and the decision sequence answers. `catalog` is what the catalog
      read returns. */
  method Post(cache: PersonaCache, req: Request, now: int, s3: string -> Result<Persona, string>,
              catalog: Result<Doc, string>, opa: Option<Payload -> Result<Value, string>>,
              invoke: (string, Payload) -> Result<LambdaReply, string>,
              parse: string -> Option<Value>, requestId: string) returns (resp: Response)
    modifies cache
    ensures resp == Route(req, ByPriority(old(cache.entries), Groups(req), now, s3), catalog, opa, invoke, parse, requestId)
    ensures req.actionId.None? || req.actionId == Some("") ==> cache.entries == old(cache.entries)
    ensures req.actionId.Some? && req.actionId != Some("") ==>
              cache.entries == Scan(old(cache.entries), Candidates, Groups(req), now, s3).1
  {
    if req.actionId.None? || req.actionId.value == "" {
      return ErrorResponse(400, "actionId is required");
    }
    var persona := cache.ResolvePersona(Groups(req), now, s3);
    resp := Route(req, persona, catalog, opa, invoke, parse, requestId);
  }
}
