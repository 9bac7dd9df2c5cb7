/** The policy gate and the response envelope shared by every action
    handler: the two-tier authorisation (remote policy service, then the
    static green list), the required-parameter check and the
    `{statusCode, headers, body}` envelope. */
module Common {
  import opened Wrappers
  import opened Strings
  import opened Json

  /** The static green list: action id to the groups that may run it
      when the policy service cannot be consulted. */
  const Green: map<string, set<string>> := map[
    "summarize-docs" := {"VaultMesh-Engineering", "VaultMesh-Delivery", "VaultMesh-Compliance"},
    "generate-faq" := {"VaultMesh-Engineering", "VaultMesh-Delivery"},
    "draft-change-note" := {"VaultMesh-Engineering", "VaultMesh-Delivery", "VaultMesh-Management"},
    "validate-schema" := {"VaultMesh-Engineering"},
    "create-jira-draft" := {"VaultMesh-Delivery", "VaultMesh-Engineering"},
    "compliance-pack" := {"VaultMesh-Compliance", "VaultMesh-Management"}
  ]

  datatype User = User(id: Option<string>, group: Option<string>)
  datatype Context = Context(requestId: Option<string>, persona: Option<string>)

  /** The invocation event every handler receives; an absent field is `None`. */
  datatype Event = Event(action: Option<string>, user: Option<User>, context: Option<Context>, params: Option<Fields>)

  /** `(evt.get("user") or {}).get("group")` */
  function Group(ev: Event): Option<string>
  {
    if ev.user.Some? then ev.user.value.group else None
  }

  /** `(evt.get("context") or {}).get("request_id")` */
  function RequestId(ev: Event): Option<string>
  {
    if ev.context.Some? then ev.context.value.requestId else None
  }

  /** How Python's f-string prints an optional string. */
  function Show(o: Option<string>): string
  {
    if o.Some? then o.value else "None"
  }

  /** The `result` of one policy query, or the failure (network error,
      timeout, malformed reply) that made the call raise. A reply without
      a `result` field is `Replied(Null)`. */
  datatype Answer = Unreachable | Replied(result: Value)

  /** With no policy URL configured no query is made; otherwise each of
      the three queries has the answer it would get. */
  datatype PolicyService = NotConfigured | Configured(allow: Answer, approval: Answer, denyReason: Answer)

  /** The triple `(allowed, approval, deny)` returned by the gate. */
  datatype Decision = Decision(allowed: bool, approval: bool, deny: Value)

  /** The handlers refuse exactly when neither flag is set. */
  predicate Refused(d: Decision)
  {
    !d.allowed && !d.approval
  }

  predicate InGreen(action: Option<string>, group: Option<string>)
  {
    action.Some? && action.value in Green && group.Some? && group.value in Green[action.value]
  }

  function StaticDenial(action: Option<string>, group: Option<string>): string
  {
    "action " + Show(action) + " is not enabled for group " + Show(group)
  }

  /** Tier 2: the green list. */
  function StaticDecision(action: Option<string>, group: Option<string>): (d: Decision)
    ensures d.allowed <==> InGreen(action, group)
    ensures !d.approval
    ensures d.allowed ==> d.deny == Str("")
    ensures !d.allowed ==> d.deny == Str(StaticDenial(action, group))
  {
    if InGreen(action, group) then Decision(true, false, Str(""))
    else Decision(false, false, Str(StaticDenial(action, group)))
  }

  /** `authorize_action`. Tier 1 asks allow and approval_required, and
      deny_reason only when both came back false; any query that raises
      sends the whole decision to tier 2. */
  function Authorize(svc: PolicyService, ev: Event): (d: Decision)
    ensures d.deny == Str("") <==> d.allowed || d.approval
    ensures Refused(d) ==> PyTruthy(d.deny)
    ensures svc.NotConfigured? ==> d == StaticDecision(ev.action, Group(ev))
    ensures svc.Configured? && (svc.allow.Unreachable? || svc.approval.Unreachable?) ==>
              d == StaticDecision(ev.action, Group(ev))
    ensures svc.Configured? && svc.allow.Replied? && svc.approval.Replied? ==>
              (PyTruthy(svc.allow.result) ==> d.allowed && d.deny == Str(""))
    ensures svc.Configured? && svc.allow.Replied? && svc.approval.Replied? &&
            (PyTruthy(svc.allow.result) || PyTruthy(svc.approval.result)) ==>
              d == Decision(PyTruthy(svc.allow.result), PyTruthy(svc.approval.result), Str(""))
    ensures svc.Configured? && svc.allow.Replied? && svc.approval.Replied? &&
            !PyTruthy(svc.allow.result) && !PyTruthy(svc.approval.result) ==>
              d == (match svc.denyReason
                    case Unreachable => StaticDecision(ev.action, Group(ev))
                    case Replied(reason) =>
                      Decision(false, false, if PyTruthy(reason) then reason else Str("denied by policy")))
  {
    match svc
    case NotConfigured => StaticDecision(ev.action, Group(ev))
    case Configured(allow, approval, denyReason) =>
      if allow.Unreachable? || approval.Unreachable? then StaticDecision(ev.action, Group(ev))
      else
        var allowed := PyTruthy(allow.result);
        var needsApproval := PyTruthy(approval.result);
        if allowed || needsApproval then Decision(allowed, needsApproval, Str(""))
        else if denyReason.Unreachable? then StaticDecision(ev.action, Group(ev))
        else Decision(false, false, if PyTruthy(denyReason.result) then denyReason.result else Str("denied by policy"))
  }

  /** The deny_reason query is not made unless both other answers are
      false: when either is true, nothing about the deny_reason answer,
      not even its failure, can change the decision. */
  lemma DenyReasonAskedOnlyWhenNeeded(allow: Answer, approval: Answer, r1: Answer, r2: Answer, ev: Event)
    requires allow.Replied? && approval.Replied?
    requires PyTruthy(allow.result) || PyTruthy(approval.result)
    ensures Authorize(Configured(allow, approval, r1), ev) == Authorize(Configured(allow, approval, r2), ev)
  {
  }

  /** All or nothing: once any query made fails, the answers already
      received are discarded and the green list decides. */
  lemma PartialAnswersDiscarded(svc: PolicyService, ev: Event)
    requires svc.Configured?
    requires svc.allow.Unreachable? || svc.approval.Unreachable? ||
             (!PyTruthy(svc.allow.result) && !PyTruthy(svc.approval.result) && svc.denyReason.Unreachable?)
    ensures Authorize(svc, ev) == StaticDecision(ev.action, Group(ev))
  {
  }

  /** The green list never asks for approval, and its denial names both the action and the group. */
  lemma {:induction false} StaticDenialNamesActionAndGroup(action: string, group: string)
    requires !InGreen(Some(action), Some(group))
    ensures var d := StaticDecision(Some(action), Some(group));
            !d.allowed && !d.approval && d.deny.Str? && IsInfix(action, d.deny.s) && IsInfix(group, d.deny.s)
  {
    DenialNamesBoth(action, group);
  }

  lemma {:induction false} DenialNamesBoth(action: string, group: string)
    ensures IsInfix(action, StaticDenial(Some(action), Some(group)))
    ensures IsInfix(group, StaticDenial(Some(action), Some(group)))
  {
    assert Show(Some(action)) == action && Show(Some(group)) == group;
    var text := StaticDenial(Some(action), Some(group));
    assert text == "action " + action + " is not enabled for group " + group;
    InfixOfSplice("action ", action, " is not enabled for group " + group);
    assert "action " + action + (" is not enabled for group " + group) == text;
    InfixOfSplice("action " + action + " is not enabled for group ", group, "");
    assert "action " + action + " is not enabled for group " + group + "" == text;
  }

  /** `evt.get("params") or {}` */
  function Params(ev: Event): Fields
  {
    if ev.params.Some? then ev.params.value else []
  }

  /** A key counts as missing when it is absent or holds `None` or `""`. */
  predicate IsMissing(params: Fields, key: string)
  {
    var v := Get(params, key);
    v.None? || v.value == Null || v.value == Str("")
  }

  /** The missing keys, in the order they were asked for. */
  function Missing(params: Fields, keys: seq<string>): (m: seq<string>)
    ensures forall k :: k in m <==> k in keys && IsMissing(params, k)
    ensures |m| <= |keys|
  {
    if keys == [] then []
    else (if IsMissing(params, keys[0]) then [keys[0]] else []) + Missing(params, keys[1..])
  }

  /** Missing distributes over the key list, so the missing keys keep the argument order. */
  lemma {:induction false} MissingAppend(params: Fields, a: seq<string>, b: seq<string>)
    ensures Missing(params, a + b) == Missing(params, a) + Missing(params, b)
  {
    if a == [] {
      assert a + b == b;
    } else {
      assert (a + b)[1..] == a[1..] + b;
      MissingAppend(params, a[1..], b);
    }
  }

  /** One key is reported exactly when it is missing. */
  lemma MissingOne(params: Fields, key: string)
    ensures Missing(params, [key]) == if IsMissing(params, key) then [key] else []
  {
    assert [key][1..] == [];
  }

  /** `require(evt, *keys)`: the params mapping and the missing keys. */
  function Require(ev: Event, keys: seq<string>): (r: (Fields, seq<string>))
    ensures r.0 == Params(ev)
    ensures forall k :: k in r.1 <==> k in keys && IsMissing(Params(ev), k)
  {
    (Params(ev), Missing(Params(ev), keys))
  }

  function MissingMessage(missing: seq<string>): string
  {
    "missing required param(s): " + Join(", ", missing)
  }

  const JsonHeaders: map<string, string> := map["Content-Type" := "application/json"]

  /** The Lambda proxy response; `body` is the value the JSON text of the body encodes. */
  datatype Envelope = Envelope(statusCode: int, headers: map<string, string>, body: Value)

  function Ok(body: Value): Envelope
  {
    Envelope(200, JsonHeaders, body)
  }

  function Err(status: int, message: Value): Envelope
  {
    Envelope(status, JsonHeaders, Obj([("error", message)]))
  }

  /** The `error` field of a decoded body, if it has one. */
  function ErrorOf(e: Envelope): Option<Value>
  {
    if e.body.Obj? then Get(e.body.fields, "error") else None
  }

  lemma EnvelopeShapes(status: int, message: Value, body: Value)
    ensures Err(status, message).statusCode == status && Err(status, message).headers == JsonHeaders
    ensures ErrorOf(Err(status, message)) == Some(message)
    ensures Ok(body).statusCode == 200 && Ok(body).headers == JsonHeaders && Ok(body).body == body
  {
  }

  /** What a handler produces: an envelope, or the exception that escaped it. */
  datatype Reply = Returned(envelope: Envelope) | Raised(error: string)

  function StatusOf(r: Reply): Option<int>
  {
    if r.Returned? then Some(r.envelope.statusCode) else None
  }
}
