# VaultMesh Q Business action gateway — a Dafny model

This project models the action path of the VaultMesh Q Business integration. A chat user picks an action, such as summarising documents, drafting a change note or building a compliance pack. The front end builds its parameters and posts them to an invoke route. That route resolves the caller's persona, looks the action up in the catalog stored in S3 and optionally asks the policy service. It then invokes the action's Lambda. Each Lambda handler authorises the caller against the policy service or, failing that, against a static green list. It checks its required parameters and returns a `{statusCode, headers, body}` envelope.

The model covers:

- the shared policy gate and envelope (`Common`);
- the six handlers (`SummarizeDocs`, `GenerateFaq`, `ChangeNote`, `ValidateSchema`, `JiraDraft`, `CompliancePack`);
- the Python persona and action helper of the backend (`PersonaHelper`), with its five-minute cache as a class;
- the command-line helper (`PersonaScript`);
- the front end's persona library (`PersonaTs`), with its cache as a class;
- the invoke and catalog routes (`InvokeRoute`, `CatalogRoute`);
- the parameter builder of the hand-off panel (`ActionHandoff`).

Shared definitions:

- `Json` holds decoded JSON values. Objects are ordered key lists, in insertion order, as Python dicts keep them. JavaScript objects keep string keys in insertion order too, but list integer-like keys ("0", "12") first in ascending order; no object built by the modelled code has such keys. The module also gives the Python and JavaScript readings of a value: truthiness, `str`, `len`, `int` and iteration.
- `TtlCache` holds the time-to-live rule that every cache follows.
- `Catalog` holds the actions catalog document.
- `Strings` and `Wrappers` are small helpers.

External effects are parameters:

- S3 reads are functions from object key to `Result`.
- Lambda invocations are functions from ARN and payload to `Result`.
- The policy service is a record of its answers, or an optional function.
- `JSON.parse` / `json.loads` of a string is a function to `Option<Value>`.
- The clocks are integers.
- The random request id and the current month are strings.

Python exceptions that escape a handler become a `Raised` reply. Exceptions caught by a route become its 500 response.

## Model

Paths are relative to the repository root.

| member | source | states |
|---|---|---|
| Common.StaticDecision | 03-lambdas/.build/vmq-generate-faq/common/vmq_common.py:51-56 | The green-list tier allows exactly when the action is listed and the caller's group is in its set. It never asks for approval. The deny reason is empty when allowed and "action A is not enabled for group G" otherwise. |
| Common.Authorize | 03-lambdas/.build/vmq-generate-faq/common/vmq_common.py:41-56 | The deny reason is empty iff allowed or approval; a refusal always carries a truthy reason. No policy URL, or an allow/approval query that fails, gives the green-list decision. A truthy allow gives allowed with an empty reason. When both answers are false, the deny_reason answer is used, "denied by policy" stands in for a falsy one, and a failing deny query falls back to the green list. |
| Common.DenyReasonAskedOnlyWhenNeeded | 03-lambdas/.build/vmq-generate-faq/common/vmq_common.py:44-47 | When allow or approval is truthy, the deny_reason answer, even a failure, cannot change the decision. |
| Common.PartialAnswersDiscarded | 03-lambdas/.build/vmq-generate-faq/common/vmq_common.py:42-50 | Once any query made fails, the answers already received are dropped and the green list decides. |
| Common.StaticDenialNamesActionAndGroup | 03-lambdas/.build/vmq-generate-faq/common/vmq_common.py:54-56 | A green-list refusal neither allows nor asks for approval, and its reason names both the action and the group. |
| Common.Missing | 03-lambdas/.build/vmq-generate-faq/common/vmq_common.py:86 | A key is reported missing iff it was asked for and is absent, `None` or `""`. There are never more missing keys than keys asked for. |
| Common.MissingAppend | 03-lambdas/.build/vmq-generate-faq/common/vmq_common.py:86 | The missing list of concatenated key lists is the concatenation of their missing lists, so the argument order is kept. |
| Common.Require | 03-lambdas/.build/vmq-generate-faq/common/vmq_common.py:84-87 | `require` returns the params, with `{}` when absent, and exactly the missing keys among those asked for. |
| Common.EnvelopeShapes | 03-lambdas/.build/vmq-generate-faq/common/vmq_common.py:78-82 | `err` keeps its status, sets the JSON content type and carries the message under `error`. `ok` is status 200 with the same header and the body unchanged. |
| CompliancePack.CoverLines | 03-lambdas/.build/vmq-generate-compliance-pack/handler.py:21-33 | The cover has 12 lines. They state the regime, the number of collected documents and the package URI. |
| CompliancePack.Handler | 03-lambdas/.build/vmq-generate-compliance-pack/handler.py:7-34 | 403 with the deny reason iff refused, checked before the parameters. 400 "missing required param(s): sourceUris" when it is missing. A `TypeError` exactly when `len` of a scalar `sourceUris` raises. Otherwise 200 with the body `Pack`: the package URI under the request id and the cover for the regime and the source count. |
| CompliancePack.CoverStatesCountAndUri | 03-lambdas/.build/vmq-generate-compliance-pack/handler.py:19-34 | A 200 body has exactly the keys `packageUri` and `coverMarkdown`. The cover contains the source count and the package URI. |
| CompliancePack.RegimeDefault | 03-lambdas/.build/vmq-generate-compliance-pack/handler.py:17 | Without `regime` the cover says ISO27k. |
| CompliancePack.PackageUriDefault | 03-lambdas/.build/vmq-generate-compliance-pack/handler.py:18-19 | Without a usable request id the package is `s3://<bucket>/packages/stub.zip`. |
| ChangeNote.NoteLines | 03-lambdas/vmq-draft-change-note/handler.py:18-35 | The note has 17 lines. Its window line and its summary line name the window and both URIs. |
| ChangeNote.MissingKeys | 03-lambdas/vmq-draft-change-note/handler.py:10-12 | The missing keys are listed baseline first, then updated. |
| ChangeNote.Handler | 03-lambdas/vmq-draft-change-note/handler.py:4-36 | 403 iff refused. 400 listing the missing keys. 200 iff authorised with both URIs present, and then the body is the single key `changeMarkdown`. |
| ChangeNote.NoteNamesWindowAndUris | 03-lambdas/vmq-draft-change-note/handler.py:14-22 | The markdown contains the window, the baseline URI and the updated URI. |
| ChangeNote.WindowDefault | 03-lambdas/vmq-draft-change-note/handler.py:16 | Without `changeWindow` the window reads "Unspecified". |
| SummarizeDocs.SummaryLines | 03-lambdas/.build/vmq-summarize-docs/handler.py:16-27 | The summary has 10 + n lines. Line 1 names the audience and line 9 is "### Sources". Line 10+i is "- " followed by document i, in input order. |
| SummarizeDocs.Handler | 03-lambdas/.build/vmq-summarize-docs/handler.py:4-29 | 403 with the gate's reason iff refused. 400 when `documentUris` is missing. A `TypeError` exactly when it cannot be iterated. Otherwise 200 with the single key `summaryMarkdown`, the summary lines for the audience and the documents joined by newlines. |
| SummarizeDocs.TwoDocumentsFromTheGreenList | 03-lambdas/.build/vmq-summarize-docs/handler.py:10-29 | With no policy service, an Engineering caller summarising two documents gets a 200 carrying their summary, for the "general" audience. |
| SummarizeDocs.TwoDocumentsListedAsSources | 03-lambdas/.build/vmq-summarize-docs/handler.py:25-27 | That summary ends with a Sources section listing both documents in order. |
| GenerateFaq.FaqLines | 03-lambdas/vmq-generate-faq/handler.py:13-23 | The FAQ has 9 fixed lines, and line 1 names the folder. |
| GenerateFaq.Handler | 03-lambdas/vmq-generate-faq/handler.py:4-24 | 403 iff refused and never 400. An authorised call raises exactly when `int(maxQuestions)` does, with that error: a `ValueError` for a string that is not an integer literal, a `TypeError` for `None`, a list or a dict. Otherwise 200 with `faqMarkdown`, the lines cut Python-style at `2 * maxQuestions` and joined by newlines. |
| GenerateFaq.ShownForNonNegative | 03-lambdas/vmq-generate-faq/handler.py:24 | For a non-negative count, the first min(9, 2·count) lines are kept. |
| GenerateFaq.FolderShownIffAQuestion | 03-lambdas/vmq-generate-faq/handler.py:15-24 | For a non-negative count, the folder line is shown iff at least one question is asked for. |
| GenerateFaq.NegativeMaxQuestions | 03-lambdas/vmq-generate-faq/handler.py:24 | A negative count cuts from the end: -1 keeps seven lines, and -5 or less keeps none. |
| GenerateFaq.Defaults | 03-lambdas/vmq-generate-faq/handler.py:11-12 | With no parameters there are 12 questions, the default folder and every line. |
| Json.PyInt | 03-lambdas/vmq-generate-faq/handler.py:11 | `int(v)` keeps an integer and converts a boolean to 0 or 1. It fails exactly for `None`, a list, a dict, or a string that is not an integer literal. The failure is a `ValueError` for a string and a `TypeError` otherwise. |
| Strings.UnderscoreBetweenDigits | 03-lambdas/vmq-generate-faq/handler.py:11 | Like Python's `int`, the literal "1_2" reads 12. |
| Strings.MisplacedUnderscores | 03-lambdas/vmq-generate-faq/handler.py:11 | Doubled, leading and trailing underscores are refused. |
| JiraDraft.PayloadKeys | 03-lambdas/.build/vmq-create-jira-draft/handler.py:14-21 | The payload has the six keys `project`, `summary`, `description`, `labels`, `dryRun`, `approverRequired`, in that order. |
| JiraDraft.PayloadAlwaysDryRun | 03-lambdas/.build/vmq-create-jira-draft/handler.py:19-20 | `dryRun` and `approverRequired` are always true, whatever the parameters. |
| JiraDraft.MissingKeys | 03-lambdas/.build/vmq-create-jira-draft/handler.py:10-12 | The missing keys are listed in the order project key, summary, description. |
| JiraDraft.Handler | 03-lambdas/.build/vmq-create-jira-draft/handler.py:4-22 | 403 iff refused. 400 listing the missing keys. 200 iff authorised and complete, with the body `{jiraPayload}`. |
| JiraDraft.PayloadCopiesParams | 03-lambdas/.build/vmq-create-jira-draft/handler.py:15-17 | Project key, summary and description are copied unchanged. |
| JiraDraft.PayloadLabels | 03-lambdas/.build/vmq-create-jira-draft/handler.py:18 | The labels are the given ones when truthy, and `[]` otherwise. |
| ValidateSchema.Profile | 03-lambdas/vmq-validate-schema/handler.py:14 | An absent profile or any falsy value (`None`, `""`, `0`, `false`, `[]`, `{}`) reads "both", and a non-empty string is lower-cased. The result is `None` (`.lower()` raises) exactly for a truthy non-string. |
| ValidateSchema.Handler | 03-lambdas/vmq-validate-schema/handler.py:4-20 | 403 iff refused. 400 when `schemaUri` is missing. An `AttributeError` exactly when the profile has no `.lower()`. Otherwise 200 with the single key `validationReport`, the report for the profile. |
| ValidateSchema.EmptyParamsNeedSchemaUri | 03-lambdas/vmq-validate-schema/handler.py:10-12 | Authorised empty params give 400 with the error "missing required param(s): schemaUri". |
| TtlCache.Load | 03-lambdas/persona_helper.py:57-82 | The store is asked iff the entry is not fresh (`now - at < ttl`). A hit is served unchanged. A fetch result is returned as is. A failure leaves the cache untouched, and a success is stored stamped with `now`. No other key changes. |
| TtlCache.StaleEntryNotServed | 03-lambdas/persona_helper.py:58-61 | An expired entry is never served, even when the fetch fails. |
| TtlCache.SecondLoadIsAHit | 03-lambdas/persona_helper.py:58-61 | Within the TTL after a successful fetch, the next load is a hit whatever the store would answer. |
| TtlCache.ExpiredAfterTtl | 03-lambdas/persona_helper.py:58-61 | From `now + ttl` on after a successful fetch at `now`, the next load fetches again and answers with the new fetch. |
| Catalog.Find | 03-lambdas/persona_helper.py:153-157 | The result is `None` iff no entry has the id; otherwise it is the first entry that has it. |
| PersonaHelper.ResolvePersona | 03-lambdas/persona_helper.py:30-47 | The result is the mapping of the first known group in the caller's order, or "engineer" when no group is known. It is always one of the three persona ids. |
| PersonaHelper.GroupOrderMatters | 03-lambdas/persona_helper.py:42-44 | The same two groups in the other order give a different persona. |
| PersonaHelper.ChoiceDefaults | 03-lambdas/persona_helper.py:122-130 | A choice copies id, name, description and lambda. The handoff text defaults to the name and the safety tier to "UNKNOWN". |
| PersonaHelper.BuildChoices | 03-lambdas/persona_helper.py:120-132 | One choice per entry, in catalog order. |
| PersonaHelper.FindEntry | 03-lambdas/persona_helper.py:153-157 | The search loop with `break` finds the first entry with the id. |
| PersonaHelper.DecodeResultBody | 03-lambdas/persona_helper.py:184-195 | `None`, booleans and numbers make `'body' in result` raise. A dict keeps its keys, and a string `body` that parses is replaced by its value. Anything else is returned unchanged. |
| PersonaHelper.EventOf | 03-lambdas/persona_helper.py:165-170 | The event has the keys action, user, context and params, in that order. `action` is the action id, user and params are passed unchanged, and `context` is the given one when truthy and `{}` otherwise. |
| PersonaHelper.Dispatch | 03-lambdas/persona_helper.py:148-195 | The lookup, invocation and decoding give the result of `invoke_action` on the loaded catalog. |
| PersonaHelper.InvokeErrors | 03-lambdas/persona_helper.py:148-195 | The error objects are: "catalog unavailable", "action X not found in catalog", the invocation error, and the error for a `None` reply. A dict reply keeps its keys. |
| PersonaHelper.FirstEntryWins | 03-lambdas/persona_helper.py:153-162 | With two entries sharing an id, the first is invoked. |
| PersonaHelper.Session | 03-lambdas/persona_helper.py:197-227 | A missing or falsy persona becomes the default persona with the resolved id. A truthy non-dict raises. The record has the keys persona_id, persona and system_prompt_extras. |
| PersonaHelper.ExtrasDefaults | 03-lambdas/persona_helper.py:216-221 | The extras take the persona's values. Defaults: tone "professional", sources `[]`, guidance `""`, aliases `{}`. |
| PersonaHelper.UnknownGroupsFallBack | 03-lambdas/persona_helper.py:202-213 | A caller in no known group whose persona cannot be loaded gets the engineer default. |
| PersonaHelper.Store.constructor | 03-lambdas/persona_helper.py:28 | The cache starts empty. |
| PersonaHelper.Store.LoadPersona | 03-lambdas/persona_helper.py:49-82 | `load_persona_s3` follows `TtlCache.Load` under "persona:<id>", reading "personas/<id>.json". An error gives `None`, and the catalog entry is untouched. |
| PersonaHelper.Store.LoadCatalog | 03-lambdas/persona_helper.py:84-109 | `load_catalog` follows the same rule under "catalog", leaving the personas untouched. |
| PersonaHelper.Store.GetHandoffChoices | 03-lambdas/persona_helper.py:111-132 | No choices without a catalog; otherwise one per entry, in order, after one cached catalog load. |
| PersonaHelper.Store.InvokeAction | 03-lambdas/persona_helper.py:134-195 | The result is `InvokeResult` on the catalog the cache yields, and the cache is updated by that load only. |
| PersonaHelper.Store.InitSessionWithPersona | 03-lambdas/persona_helper.py:197-227 | The session of the resolved persona as loaded through the cache. |
| PersonaScript.ResolvePersona | scripts/persona-helper.py:37-42 | The persona of the first known group in list order, or "engineer". |
| PersonaScript.AgreesWithBackendHelper | scripts/persona-helper.py:30-42 | The script and the backend helper resolve every group list alike. |
| PersonaScript.ManagementIsDelivery | scripts/persona-helper.py:30-35 | Management and Delivery both resolve to "delivery-manager". |
| PersonaScript.FunctionName | scripts/persona-helper.py:72 | The function name has no colon and is a suffix of the ARN. It is the whole ARN when there is no colon, and otherwise is preceded by a colon. |
| PersonaScript.FunctionNameAfterLastColon | scripts/persona-helper.py:72 | Whatever precedes the last colon, the text after it is the name called. |
| PersonaScript.Payload | scripts/persona-helper.py:76-84 | The payload has the keys action, user, context and params, in that order. `action` is the action id and `params` is passed unchanged. `context` holds the request id and the persona of the caller's single group. |
| PersonaScript.RequestIdOf | scripts/persona-helper.py:80 | The request id is never empty. A supplied non-empty id is kept, and otherwise it is "cli-" followed by the milliseconds of the clock. |
| PersonaScript.CliRequestIdDefault | scripts/persona-helper.py:76-84 | Without a request id, or with an empty one, the payload's `context.request_id` is "cli-" followed by the milliseconds. |
| PersonaScript.PayloadNamesCaller | scripts/persona-helper.py:74-84 | `user` is `{id, group}`, the persona is that of the single group, and a supplied request id is kept verbatim. |
| PersonaScript.InvokeAction | scripts/persona-helper.py:66-91 | A catalog error propagates. A missing `catalog` key raises `KeyError`, and an unknown id raises "ValueError: Action X not found in catalog". Otherwise the first entry's function is invoked with the payload. |
| PersonaTs.LoadOtherKey | 04-ui-integration/lib/persona.ts:61-76 | Loading one persona does not change what loading another yields. |
| PersonaTs.ReloadIsAHit | 04-ui-integration/lib/persona.ts:64-69 | A persona just loaded is served from the cache at the same instant. |
| PersonaTs.ScanFollowsPriority | 04-ui-integration/lib/persona.ts:42-56 | The candidate loop with the cache threaded through gives the first of engineer, delivery-manager and compliance whose groups meet the caller's. Otherwise it gives the engineer. A load error ends the scan. |
| PersonaTs.GroupOrderIrrelevant | 04-ui-integration/lib/persona.ts:46-52 | Only which groups the caller has matters, not their order. |
| PersonaTs.PersonaCache.constructor | 04-ui-integration/lib/persona.ts:35 | The cache starts empty. |
| PersonaTs.PersonaCache.LoadPersona | 04-ui-integration/lib/persona.ts:61-76 | `loadPersona` follows `TtlCache.Load` with 300000 ms under "personas/<id>.json", and an error propagates. |
| PersonaTs.PersonaCache.ResolvePersona | 04-ui-integration/lib/persona.ts:42-56 | The loop's result and cache are those of the candidate scan. The result is the priority rule applied to the cache as it was. |
| PersonaTs.PersonaCache.DefaultPersona | 04-ui-integration/lib/persona.ts:108-110 | The engineer persona, loaded through the cache. |
| PersonaTs.PersonaToSystemContext | 04-ui-integration/lib/persona.ts:81-88 | Tone and sources are copied. Guidance defaults to `[]` and aliases to `{}`. |
| PersonaTs.NormalizeGroups | 04-ui-integration/lib/persona.ts:94-103 | Length and order are kept. Each group whose lower-cased form is an alias becomes the canonical name, and every other group is kept. |
| PersonaTs.CanonicalNamesAreNotAliases | 04-ui-integration/lib/persona.ts:95-100 | No canonical name, lower-cased, is an alias. |
| PersonaTs.NormalizeIdempotent | 04-ui-integration/lib/persona.ts:94-103 | Normalising twice is normalising once. |
| PersonaTs.LookupAsWritten | 04-ui-integration/lib/persona.ts:95-102 | The object-literal lookup finds the four aliases and also every member inherited from `Object.prototype`. |
| PersonaTs.NormalizeGroupsAsWritten | 04-ui-integration/lib/persona.ts:102 | As written, the result agrees with `NormalizeGroups` on every group whose lower-cased form is not an inherited member. |
| PersonaTs.ConstructorGroupIsNotAString | 04-ui-integration/lib/persona.ts:102 | As written, "Constructor" becomes the inherited `constructor` member; the intended table keeps it. |
| InvokeRoute.Groups | 04-ui-integration/api/invoke-route.ts:47 | The caller's groups when non-empty, else the default group. The result is never empty. |
| InvokeRoute.PayloadOf | 04-ui-integration/api/invoke-route.ts:72-86 | The payload group is the first group. The user id defaults only when absent. Params default to `{}`, and the persona id is copied. |
| InvokeRoute.PreCheck | 04-ui-integration/api/invoke-route.ts:126-143 | Any error allows (fail open). An object reply allows iff its `result` is truthy in JavaScript. `null` allows, since reading its `result` throws, and other scalars deny. |
| InvokeRoute.DecodeBody | 04-ui-integration/api/invoke-route.ts:100-110 | Only a non-empty string body that parses is replaced, and all other keys are kept. A parse failure keeps the reply. A `null` reply throws. |
| InvokeRoute.Route | 04-ui-integration/api/invoke-route.ts:29-120 | Every response is either an `{error}` object the route makes itself, with status 400, 403, 404 or 500, or the decoded reply of the catalog entry's Lambda, invoked once with the payload, under that reply's status. |
| InvokeRoute.MissingActionIdIs400 | 04-ui-integration/api/invoke-route.ts:39-44 | A missing or empty `actionId` is 400 "actionId is required", whatever the persona or catalog. |
| InvokeRoute.LoadFailuresAre500 | 04-ui-integration/api/invoke-route.ts:46-53 | A persona that fails to resolve, or else a catalog that fails to load, answers 500 with the failure's message or "Action invocation failed". |
| InvokeRoute.CatalogChecks | 04-ui-integration/api/invoke-route.ts:53-97 | For any policy service: an unknown id is 404 "not found in catalog". `enabled === false` is 403 "currently disabled". Any other entry, absent flag included, is put to the policy service when one is configured, and a refusal is 403 "Action denied by policy". |
| InvokeRoute.InvocationOutcome | 04-ui-integration/api/invoke-route.ts:99-118 | When the entry is enabled and the pre-check passes or is not configured, the entry's Lambda is invoked with the payload. An invocation error is 500 with its message or "Action invocation failed". A `null` reply is 500 from reading its body. Any other reply keeps its status, and its body is the decoded reply. |
| InvokeRoute.PolicyErrorFailsOpen | 04-ui-integration/api/invoke-route.ts:89-97 | When the policy service fails, the action still runs and its status is passed through. |
| InvokeRoute.Post | 04-ui-integration/api/invoke-route.ts:29-120 | The response is `Route` applied to the persona the cache resolves, so every `Route` property above holds of it. Without an action id the cache is untouched; otherwise it holds what the resolution loaded. |
| CatalogRoute.EnabledOnly | 04-ui-integration/api/catalog-route.ts:20-22 | An entry is kept iff it is in the input and not `enabled === false`. The output is never longer than the input. |
| CatalogRoute.EnabledOnlyAppend | 04-ui-integration/api/catalog-route.ts:20-22 | The filter distributes over concatenation, so relative order is kept. |
| CatalogRoute.AllEnabledKept | 04-ui-integration/api/catalog-route.ts:20-22 | Entries whose flag is absent or not `false` are never dropped. |
| CatalogRoute.HandleGet | 04-ui-integration/api/catalog-route.ts:15-35 | A load error is a 500 with its message, or "Catalog load failed". Otherwise the version is copied and the catalog filtered. |
| CatalogRoute.AbsentCatalogIsEmpty | 04-ui-integration/api/catalog-route.ts:20 | A document without `catalog` lists nothing. |
| ActionHandoff.CommonPrefix | 04-ui-integration/components/ActionHandoff.tsx:167-170 | No URIs give the knowledge-base root. A URI without `/` is kept. Otherwise the result is the longest prefix ending in `/`. |
| ActionHandoff.CommonPrefixIsDirectory | 04-ui-integration/components/ActionHandoff.tsx:169 | The prefix of `dir/file` is `dir/`. |
| ActionHandoff.BuildParams | 04-ui-integration/components/ActionHandoff.tsx:113-162 | The params are empty exactly for an unknown action id. |
| ActionHandoff.SummarizeGetsDocuments | 04-ui-integration/components/ActionHandoff.tsx:118-124 | The summarize handler finds one document per URI. The audience is "delivery" iff the user is in the delivery group, else "engineering". |
| ActionHandoff.FaqGetsPrefixAndTwelve | 04-ui-integration/components/ActionHandoff.tsx:126-130 | The FAQ handler sees the common prefix, and `int(maxQuestions)` succeeds with 12. |
| ActionHandoff.FaqWithoutSelection | 04-ui-integration/components/ActionHandoff.tsx:168 | With nothing selected, the FAQ folder is the knowledge-base root. |
| ActionHandoff.ChangeNoteNeedsOneUri | 04-ui-integration/components/ActionHandoff.tsx:132-137 | The change-note handler misses the baseline iff there is no first URI. It misses the updated URI iff neither of the first two is present. The window is the current month. |
| ActionHandoff.ChangeNoteKeepsOrder | 04-ui-integration/components/ActionHandoff.tsx:132-135 | Two selected URIs become baseline and updated, in selection order. |
| ActionHandoff.SchemaNeedsFirstUri | 04-ui-integration/components/ActionHandoff.tsx:139-143 | The schema URI is missing iff there is no first URI. The profile evaluated is "both". |
| ActionHandoff.JiraDraftIsComplete | 04-ui-integration/components/ActionHandoff.tsx:145-151 | The Jira handler never finds a required parameter missing. The project key is "VM", the description is "Context: " followed by the URIs joined with ", ", and the two fixed labels are kept. |
| ActionHandoff.JiraPayloadFromSelection | 04-ui-integration/components/ActionHandoff.tsx:145-151 | The Jira payload drafted from a selection is for project `{key: "VM"}`, has the fixed summary, and its description lists the selected URIs. |
| ActionHandoff.CompliancePackCountsSelection | 04-ui-integration/components/ActionHandoff.tsx:153-157 | The pack counts every selected URI, under the AI-Act regime. |

## Left out

- Logging, CloudWatch metrics, the `_start_time` write and latency are not modelled. They are side effects whose failures are swallowed.
- The HTTP call of the policy queries, with its 2.5 s timeout, is not modelled. Each answer is a value or `Unreachable`.
- The S3 and Lambda SDK wrappers are not modelled. Each read or invocation is a `Result`-valued parameter, and `04-ui-integration/lib/aws.ts` is not part of this model.
- Byte-level JSON is not modelled. Bodies are decoded values and `JSON.parse` / `json.loads` is a parameter.
- Clocks are integer parameters. The random request id of the invoke route is a string parameter. The current month of the hand-off panel (`new Date().toISOString().slice(0, 7)`) is a string parameter.
- Environment overrides (`OPA_URL`, buckets, default group and user) are constants or parameters.
- The mock-mode branches of the backend helper, and the command-line `__main__`/`main` of both helpers, are not modelled.
- Concurrency: each cache is used by one caller at a time.
- Floating point is not modelled: JSON numbers are integers.
- Python `repr` of nested strings is not modelled: quotes inside strings are not escaped.
- ValidateSchema.Profile: the profile is lower-cased with `Strings.Lower`, which folds ASCII letters only, while Python's `str.lower` folds every cased Unicode letter, so a non-ASCII profile such as "Ä" is reported unchanged. The same ASCII folding is used for the group aliases of `PersonaTs.NormalizeGroups`, where it is exact: the only non-ASCII letter that lower-cases to a single ASCII letter is the Kelvin sign, giving `k`, which no alias contains.
- GenerateFaq.MaxQuestions: `int()` of a string is modelled for an optional sign, ASCII digits and single underscores between digits, surrounded by ASCII whitespace. Python also accepts Unicode decimal digits and Unicode whitespace, which the model refuses with a `ValueError`.
- Handler events are typed records. An `action` or group that is a list or a dict, which makes the green-list lookup raise `TypeError`, is not modelled, and neither is a `user` or `params` that is not a dict.
- Persona documents are typed records whose `iam_groups` is always a list. A stored persona without `iam_groups` makes `.some` throw in `resolvePersona`, which the invoke route answers with 500. The model does not produce that 500.
- A request body that is not valid JSON makes `req.json()` throw, which the invoke route answers with 500. The model starts from the decoded request.
- Catalog entries are typed records. A malformed entry (missing `id`, `lambda`, `name` or `description`, or a non-object) is not modelled, so the model never raises the `KeyError` of `get_handoff_choices` for a missing `action["name"]` or `action["description"]`. A `catalog` key present with the value `null` is not modelled either. Keys of the catalog document other than `version` and `catalog` are not modelled, so `Catalog.IsEmptyObject` reads "no keys" as "neither key".
- Duplicate keys in a JSON object are not modelled: the first occurrence is read and replaced.
- A non-string `actionId` sent to the invoke route is not modelled.
- The Next.js `RangeError` for a Lambda status outside 200-599 is not modelled.
- The UI component (state hooks, rendering, markdown conversion) is not modelled beyond `buildParams` and `commonPrefix`.
- PersonaTs.PersonaCache.ResolvePersona: one `now` is used for every load of one resolution. The source reads the clock on each load.
- InvokeRoute.Post: the catalog read is a value rather than a read issued only after the persona resolves. The result is the same, because the catalog is read only once.
- The FAQ list of generate-faq has 9 lines, so the cut keeps `min(9, 2·maxQuestions)` lines. This follows the code, not the ten lines a reader might expect from four questions.
- The `deny or "denied"` fallback of summarize-docs is modelled, but it never applies, because the gate's refusal reason is always non-empty (`Common.Authorize`).

## Findings

| source | as written | input that shows it | evidently intended | confidence | as-written member | corrected member |
|---|---|---|---|---|---|---|
| 04-ui-integration/lib/persona.ts:94-103 | `mapping[g.toLowerCase()] \|\| g` on an object literal also finds members inherited from `Object.prototype` | `normalizeGroups(["Constructor"])` yields the `Object` constructor function, not a string | groups with no alias are kept as they are, so the result is `["Constructor"]` | not executed | PersonaTs.ConstructorGroupIsNotAString | PersonaTs.NormalizeIdempotent |
