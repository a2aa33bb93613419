# pyawx, modelled in Dafny

pyawx is a small Python client for the AWX REST API. This project models its core and proves properties of the model:

- **`HTTP`** normalises a base URL once. It builds `{url}/api/{version}/{resource}/[{id}/]` endpoint URLs. It sends GET, POST, PATCH and DELETE requests through one session carrying the credentials and the TLS setting. It reads an empty body as `{}`. It turns an HTTP error status into a `ValueError` that names the verb. `is_authenticated` turns an error status into `False`.
- **The resource adapter** (`Adapter` in `resources/adapter.py`, and its older twin `Resource` in `resources.py`) looks a resource up by name in its collection listing. Its `_names_to_ids` rewrites the reference fields `inventory`, `project`, `webhook_credential` and `organization` of a payload from names to identifiers, one lookup per field, in table order. On top of these sit `fetch`, `create`, `update`, `delete` and `exists`.
- **The client** chooses OAuth2 over basic authentication from the credentials given. It wires one HTTP client for API version `v2` into a job template resource and a workflow job template resource.
- **The two pydantic models** are `JobTemplateModel` and `WorkflowJobTemplateModel`. Each has field declarations with defaults and integer bounds, construction from keyword arguments, and a `model_dump` override. The override writes `extra_vars` as JSON text and `job_tags` as a comma-joined string.

## How the model is built

The network and the AWX server are one parameter, `transport: Transport`. It maps the requests already sent and the next request to a response. The `HTTP` class keeps the log `sent` of every request its session has sent.

Every operation is a method that appends to that log. Its `ensures` ties its result and the new log to a specification function of the old log: `GetOutcome`, `LookupOutcome`, `ResolveFrom`, `FetchOutcome` and so on. Those functions also return the log, as `Run(result, sent)`. The lemmas state what the source promises about them: which requests are sent and in what order, which errors are raised, and what comes back when the server answers with a given listing.

`_get_id_by_name` and `_names_to_ids` are loops in the source and stay loops here (`Adapter.IdByName`, `Adapter.NamesToIds`). Python exceptions are the values of `Errors.Error`. A failing `_names_to_ids` leaves the payload dict half rewritten, so its state on failure is modelled too (`Rewrite`).

Files, leaves first:

- `wrappers.dfy`: Option and Result.
- `json.dfy`: JSON values, plus Python sets.
- `errors.dfy`: the exceptions and their messages.
- `schema.dfy`: pydantic field declarations.
- `authentication.dfy`
- `models.dfy`
- `http.dfy`
- `resources.dfy`
- `client.dfy`

## Model

| member | source | states |
|---|---|---|
| Http.RStrip | src/pyawx/http.py:64 | `url.rstrip("/")` is the longest prefix of the text that does not end in `/` and is followed only by `/` |
| Http.RStripUnique | src/pyawx/http.py:64 | any prefix with those three properties is the stripped text, so the properties define `rstrip` |
| Http.RStripIdempotent | src/pyawx/http.py:64 | stripping an already stripped URL changes nothing |
| Http.HTTP.constructor | src/pyawx/http.py:64-68 | the base URL is stored without trailing slashes; the session gets the TLS flag and the credentials; nothing has been sent |
| Http.BaseUrlNormalised | src/pyawx/http.py:64 | the stored base URL never ends in `/`, and the given URL is it followed by slashes only |
| Http.TrailingSlashesIrrelevant | src/pyawx/http.py:64-84 | clients built from `u` and `u + "/"` address every resource and identifier at the same URL |
| Http.BuildUrlShape | src/pyawx/http.py:83-84 | every built URL starts with the collection endpoint and ends in `/`; it is longer exactly when the identifier is truthy, and then the extra part is the identifier's text and `/` |
| Http.FalsyIdIsCollection | src/pyawx/http.py:84 | a missing or falsy identifier (`None`, `""`, `0`) addresses the collection itself |
| Http.Truthy | src/pyawx/http.py:84 | the `not resource_id` test: `None`, `False`, `0` and empty strings and containers are false, everything else true; `Http.BuildUrlShape` and `Http.FalsyIdIsCollection` use it to decide when an identifier is appended |
| Http.Display | src/pyawx/http.py:84 | how the f-string writes an identifier: a string as itself, an integer in decimal, a boolean as `True`/`False`, `None` as `None`; `Http.ItemUrlsDistinct` and `Http.BuildUrlShape` state what it contributes to a URL |
| Http.HTTP.BuildUrl | src/pyawx/http.py:83-84 | `_build_url`: the collection endpoint, extended by the identifier's text and a slash when the identifier is truthy; its shape, its independence from trailing slashes of the base URL and the distinctness of item URLs are proved in `Http.BuildUrlShape`, `Http.TrailingSlashesIrrelevant`, `Http.FalsyIdIsCollection` and `Http.ItemUrlsDistinct` |
| Http.ItemUrlsDistinct | src/pyawx/http.py:83-84 | truthy identifiers with different texts address different URLs of the same collection |
| Http.Decode | src/pyawx/http.py:104-105 | a status in 400..599 is an `HTTPError` carrying the status, reason and URL, and nothing else is; the only other failure is an undecodable body |
| Http.DecodeSuccess | src/pyawx/http.py:104-105 | after a success status, an empty body reads as `{}`, a JSON body as itself, and anything else fails to decode |
| Http.Wrap | src/pyawx/http.py:136-140 | the `except HTTPError` of a verb: success passes through, an `HTTPError` becomes the verb's `ValueError` with the same status, reason and URL, and any other error passes unchanged |
| Http.WrapRaisesValueError | src/pyawx/http.py:136-140 | once wrapped, every error is a `ValueError`, and a wrapped `HTTPError`'s message starts with "Failed to <verb> resource" |
| Http.HTTP.Send | src/pyawx/http.py:103-105 | `_request`: sends exactly one request, appends it to the log and decodes its answer |
| Http.HTTP.Exchange | src/pyawx/http.py:103-105 | `_request` after a log: one request with the session's settings goes out and its answer is decoded; `Http.CredentialsOnEveryRequest` proves the log grows by exactly that request, carrying the credentials and TLS flag, and `Http.Decode`/`Http.DecodeSuccess` what the answer becomes |
| Http.CredentialsOnEveryRequest | src/pyawx/http.py:103 | one exchange keeps the earlier log, adds exactly one request, and that request carries the client's credentials and TLS flag |
| Http.HTTP.Get | src/pyawx/http.py:136-140 | `get`: the result and new log are those of one GET of the built URL, with the retrieve wrapping |
| Http.HTTP.Post | src/pyawx/http.py:158-162 | `post`: one POST of the body to the collection URL, with the create wrapping |
| Http.HTTP.Patch | src/pyawx/http.py:181-185 | `patch`: one PATCH of the body to the item URL, with the update wrapping |
| Http.HTTP.Delete | src/pyawx/http.py:200-204 | `delete`: one DELETE of the item URL, returning nothing on success, with the delete wrapping |
| Http.HTTP.GetOutcome | src/pyawx/http.py:136-140 | `get` after a log: one GET of `_build_url(resource, id)` with the retrieve wrapping; `Http.VerbErrors` and `Http.VerbsRaiseValueErrors` prove what it raises |
| Http.HTTP.PostOutcome | src/pyawx/http.py:158-162 | `post` after a log: one POST of the payload to the collection endpoint with the create wrapping; `Http.VerbErrors` and `Http.VerbsRaiseValueErrors` prove what it raises |
| Http.HTTP.PatchOutcome | src/pyawx/http.py:181-185 | `patch` after a log: one PATCH of the payload to the item URL with the update wrapping; `Http.VerbErrors` and `Http.VerbsRaiseValueErrors` prove what it raises |
| Http.HTTP.DeleteOutcome | src/pyawx/http.py:200-204 | `delete` after a log: one DELETE of the item URL, returning nothing, with the delete wrapping; `Http.VerbErrors` and `Http.VerbsRaiseValueErrors` prove what it raises |
| Http.VerbErrors | src/pyawx/http.py:136-204 | an error status makes each verb raise exactly the failure of its own verb, carrying the response's status and reason and the URL that verb requested |
| Http.VerbsRaiseValueErrors | src/pyawx/http.py:136-204 | no verb lets an `HTTPError` escape: whatever a verb raises is a `ValueError` |
| Http.HTTP.IsAuthenticatedOutcome | src/pyawx/http.py:113-117 | `is_authenticated` sends exactly one GET, to the bare base URL |
| Http.HTTP.IsAuthenticated | src/pyawx/http.py:113-117 | the method's result and log are those of `IsAuthenticatedOutcome` |
| Http.IsAuthenticatedAnswers | src/pyawx/http.py:113-117 | an error status answers false and a decodable success answers true; only an undecodable body is raised |
| Errors.RequestFailedPrefix | src/pyawx/http.py:136-204 | a failed request's message starts with the verb's own "Failed to <verb> resource" |
| Errors.Error.Message | src/pyawx/http.py:136-204 | the texts the library writes: "Failed to <verb> resource: " and the `HTTPError` text for the four verbs, the not-found text of `resources/adapter.py` line 60, the unset-model text of line 124 and the missing-credentials text of `client.py` lines 90-92; `Errors.RequestFailedPrefix`, `Errors.RequestFailedMessagesDiffer` and `Errors.NotFoundMessageNamesResource` prove that they tell verbs and names apart |
| Errors.RequestFailedMessagesDiffer | src/pyawx/http.py:136-204 | failures of different verbs always have different messages |
| Errors.NotFoundMessageNamesResource | src/pyawx/resources/adapter.py:60 | the not-found message determines the name that was looked up |
| Resources.Results | src/pyawx/resources/adapter.py:56 | iterating `page["results"]` succeeds only on a dict with a `results` key, and then yields the list when that is a list; an empty string, dict or set yields nothing, so the lookup goes on to not found; anything else raises a `KeyError`/`TypeError` |
| Resources.FindId | src/pyawx/resources/adapter.py:56-60 | the search loop either finds an id, fails with not found for the name looked up, or hits a malformed item |
| Resources.FindIdFirst | src/pyawx/resources/adapter.py:56-60 | on a well-formed listing the loop returns the id of the FIRST entry with the name (later duplicates are ignored), and not found when no entry has it |
| Resources.LookupOutcome | src/pyawx/resources/adapter.py:54-60 | `_get_id_by_name` sends exactly one GET, of the collection URL; whatever it raises is a `ValueError` or a malformed-listing error |
| Resources.Adapter.IdByName | src/pyawx/resources/adapter.py:42-60 | the loop implementation's result and log are those of `LookupOutcome` |
| Resources.LookupListing | src/pyawx/resources/adapter.py:54-60 | against a listing page, the lookup gives the id of the first entry with the name, or not found |
| Resources.ResolveFrom | src/pyawx/resources/adapter.py:79-86 | `_names_to_ids` from a table row on adds and removes no key of the payload |
| Resources.Adapter.NamesToIds | src/pyawx/resources/adapter.py:62-86 | the loop implementation's final dict, raised error and log are those of `ResolveFrom` from the first row |
| Resources.ResolveKeepsOthers | src/pyawx/resources/adapter.py:79-84 | only table fields that hold a string can change; every other entry keeps its value |
| Resources.ResolveListed | src/pyawx/resources/adapter.py:72-86 | the reference definition, with no server: it keeps the payload's keys |
| Resources.ResolveFollowsListings | src/pyawx/resources/adapter.py:79-86 | against a server whose listings do not change, `_names_to_ids` ends with the dict and the error of the reference definition |
| Resources.ListedFailure | src/pyawx/resources/adapter.py:79-84 | the reference definition fails exactly when some pending row's name is unlisted, and then with not found for the first such name |
| Resources.ListedKeepsOthers | src/pyawx/resources/adapter.py:79-84 | the reference definition changes no entry outside the table rows |
| Resources.ListedRewrites | src/pyawx/resources/adapter.py:79-84 | every pending row before the first unlisted name is rewritten to the id of the first listed entry with its name |
| Resources.ListedLeaves | src/pyawx/resources/adapter.py:79-84 | the first unlisted row, and every row after it, keeps its name |
| Resources.ResolveAgainstListings | src/pyawx/resources/adapter.py:62-86 | against stable listings, `_names_to_ids` succeeds exactly when every name in the table's fields is listed. It rewrites the rows before the first unlisted name to their ids, fails with not found for that name, and leaves it and the later rows unchanged |
| Resources.ResolveQueries | src/pyawx/resources/adapter.py:79-84 | resolution sends only the collection GETs of the rows holding a name, in table order: its log extends the old one by a prefix of those lookups |
| Resources.ResolveSendsAll | src/pyawx/resources/adapter.py:79-84 | a resolution that succeeds has sent every one of those lookups |
| Resources.ResolveFailureSends | src/pyawx/resources/adapter.py:79-84 | a resolution that fails has sent at least one request |
| Resources.Adapter.constructor | src/pyawx/resources/adapter.py:38-40 | an adapter keeps its HTTP client, its collection name and its optional model class |
| Resources.Adapter.FetchOutcome | src/pyawx/resources/adapter.py:101-102 | a failed lookup is raised as is, after the one listing GET; otherwise the log grows by exactly the listing GET and one GET of the found id's URL |
| Resources.Adapter.Fetch | src/pyawx/resources/adapter.py:88-102 | the method's result and log are those of `FetchOutcome` |
| Resources.FetchReturnsRecord | src/pyawx/resources/adapter.py:101-102 | when the listing names the resource and the item GET succeeds, `fetch` returns the record the server sent, unchanged |
| Resources.Adapter.CreateOutcome | src/pyawx/resources/adapter.py:123-124 | with no model class bound, `create` raises before sending any request |
| Resources.CreateRequests | src/pyawx/resources/adapter.py:126-127 | `create` sends the reference lookups in table order. When one fails it raises that error, having sent a non-empty prefix of them. Otherwise it sends exactly one POST of the rewritten dump to the collection |
| Resources.Adapter.PostResolved | src/pyawx/resources/adapter.py:126-127 | what `create` does with the dump once a model is bound: resolve its references, then post the result; `Resources.CreateRequests` proves the requests it sends and what it raises |
| Resources.Adapter.Create | src/pyawx/resources/adapter.py:104-127 | the method's result and log are those of `CreateOutcome` |
| Resources.Adapter.UpdateOutcome | src/pyawx/resources/adapter.py:148-149 | with no model class bound, `update` raises before sending any request |
| Resources.PatchNamedLooksUpFirst | src/pyawx/resources/adapter.py:151-153 | `update` first sends the GET of its own collection; a successful update ends with a PATCH of the URL of the id that lookup found |
| Resources.PatchRequests | src/pyawx/resources/adapter.py:152-153 | once the target is found, `update` sends the reference lookups in table order, then exactly one PATCH of the rewritten dump to the target URL, or raises the failed lookup's error |
| Resources.Adapter.PatchNamed | src/pyawx/resources/adapter.py:151-153 | what `update` does once a model is bound: look the target up, then resolve and patch; `Resources.PatchNamedLooksUpFirst` proves the lookup goes first and the PATCH goes to the found id |
| Resources.Adapter.PatchResolved | src/pyawx/resources/adapter.py:152-153 | what `update` does once the target id is found: resolve the dump's references, then patch the target; `Resources.PatchRequests` proves the requests it sends and what it raises |
| Resources.Adapter.Update | src/pyawx/resources/adapter.py:129-153 | the method's result and log are those of `UpdateOutcome` |
| Resources.Adapter.DeleteOutcome | src/pyawx/resources/adapter.py:164-165 | a failed lookup is raised as is; otherwise the log grows by exactly the listing GET and one DELETE of the found id's URL |
| Resources.Adapter.Delete | src/pyawx/resources/adapter.py:155-165 | the method's result and log are those of `DeleteOutcome` |
| Resources.Adapter.ExistsOutcome | src/pyawx/resources/adapter.py:167-173 | `exists` sends exactly one listing GET and is true exactly when the lookup succeeds; the only thing it raises is a malformed listing |
| Resources.Adapter.Exists | src/pyawx/resources/adapter.py:167-173 | the method's result and log are those of `ExistsOutcome` |
| Resources.ExistsIffListed | src/pyawx/resources/adapter.py:167-173 | against a listing page, `exists(name)` is true exactly when some entry has that name |
| Resources.ExistsFalseOnErrorStatus | src/pyawx/resources/adapter.py:167-173 | an error status on the listing makes `exists` answer false rather than raise |
| Resources.JobTemplateResource | src/pyawx/resources.py:196-197 | the job template resource is the `job_templates` collection bound to `JobTemplateModel` |
| Resources.WorkflowJobTemplateResource | src/pyawx/resources.py:212-215 | the workflow resource is the `workflow_job_templates` collection bound to `WorkflowJobTemplateModel` |
| Clients.Authenticate | src/pyawx/client.py:85-94 | a non-empty token always gives OAuth2 with that token; otherwise a non-empty username and password give basic auth with them; otherwise a `ValueError` about missing credentials |
| Clients.TokenPrecedence | src/pyawx/client.py:85-88 | a non-empty token decides the mechanism whatever else is given, and an empty token counts as no token |
| Clients.Client.constructor | src/pyawx/client.py:62-64 | the client has one fresh HTTP client for API `v2` with the chosen credentials, and both resources share it |
| Clients.NewClient | src/pyawx/client.py:61-64 | construction fails exactly when `_authenticate` does, before anything is built; otherwise the client carries the chosen authentication and a fresh, unused HTTP client shared by both resources |
| Models.DefaultAccepted | src/pyawx/models/job_template.py:105-147 | every declared default satisfies its own declaration, bounds included |
| Models.JobTemplateDeclaration | src/pyawx/models/job_template.py:105-147 | the declaration table of `JobTemplateModel`: each field's type, default and `ge`/`le` bounds; `Models.JobTemplateBounds`, `Models.JobTemplateIntDeclared`, `Models.JobTemplateOthersDefaulted`, `Models.JobTemplateChoices` and `Models.DefaultAccepted` state what it declares |
| Models.WorkflowJobTemplateDeclaration | src/pyawx/models/workflow_job_template.py:66-85 | the declaration table of `WorkflowJobTemplateModel`; `Models.WorkflowJobTemplateOthersDefaulted`, `Models.WorkflowJobTemplateUnbounded`, `Models.WorkflowJobTemplateDefaults` and `Models.DefaultAccepted` state what it declares |
| Models.Construct | src/pyawx/models/job_template.py:105-147 | `Model(**kw)` succeeds exactly when every declared field is admissible (supplied with an accepted value, or left out and defaulted), and yields a model of the class asked for |
| Models.ConstructValid | src/pyawx/models/job_template.py:105-147 | a constructed model holds exactly the declared fields, each with a value its declaration accepts |
| Models.ConstructFailure | src/pyawx/models/job_template.py:105-147 | a failed construction names at least one field, and only declared fields that are not admissible |
| Models.DecidedBy | src/pyawx/models/job_template.py:105-147 | when every other declared field is admissible, construction succeeds exactly when the remaining one is |
| Models.Supplied | src/pyawx/models/job_template.py:105-147 | a successful construction holds each supplied declared field exactly as given |
| Models.Defaulted | src/pyawx/models/job_template.py:105-147 | a successful construction gives each declared field that was not supplied its default, and such a field has one |
| Models.JobTemplateBounds | src/pyawx/models/job_template.py:112-144 | a valid job template has `verbosity` in 0..5, `forks` and `timeout` at least 0, and `job_slice_count` at least 1 |
| Models.JobTemplateIntDeclared | src/pyawx/models/job_template.py:112-144 | the four bounded fields accept exactly the integers within their `ge`/`le` bounds |
| Models.JobTemplateChoices | src/pyawx/models/job_template.py:105-110 | a valid job template's `job_type` is one of run, check and scan, and its four required fields are strings |
| Models.JobTemplateNeedsReferences | src/pyawx/models/job_template.py:105-110 | a job template can only be built when `name`, `inventory`, `project` and `playbook` are supplied as strings |
| Models.JobTemplateOthersDefaulted | src/pyawx/models/job_template.py:105-147 | every job template field but those four has a default |
| Models.JobTemplateRequiredSuffice | src/pyawx/models/job_template.py:105-147 | supplying only the four required strings builds a job template |
| Models.JobTemplateDefaults | src/pyawx/models/job_template.py:106-147 | with only the required fields supplied, every other field holds its declared default |
| Models.JobTemplateIntLimits | src/pyawx/models/job_template.py:112-144 | with the required fields, an integer for one bounded field is accepted exactly within its bounds (`verbosity=6`, `forks=-1` and `job_slice_count=0` fail) |
| Models.WorkflowJobTemplateRequired | src/pyawx/models/workflow_job_template.py:66 | a workflow job template can only be built with a string `name` |
| Models.WorkflowJobTemplateOthersDefaulted | src/pyawx/models/workflow_job_template.py:67-85 | every workflow field but `name` has a default |
| Models.WorkflowJobTemplateNameSuffices | src/pyawx/models/workflow_job_template.py:66-85 | supplying only a name builds a workflow job template |
| Models.WorkflowJobTemplateDefaults | src/pyawx/models/workflow_job_template.py:67-85 | with only a name supplied, every other field holds its default; `inventory`, `organization` and `webhook_credential` are None |
| Models.WorkflowJobTemplateUnbounded | src/pyawx/models/workflow_job_template.py:66-85 | no workflow field has a numeric bound: a value is accepted exactly when it has the declared type |
| Models.WebhookServiceDomain | src/pyawx/models/enums.py:15-16 | in either model, `webhook_service` is None, `github` or `gitlab` |
| Models.ModelDump | src/pyawx/models/job_template.py:159-162 | the dump has the model's keys and keeps every other field's value; `extra_vars` is its JSON text and `job_tags` the tags joined with "," |
| Models.Join | src/pyawx/models/job_template.py:161 | `",".join(...)` of the tags in iteration order; `Models.SplitJoin` proves `Split` inverts it for comma-free parts, `Models.JoinFields` that every part is a whole field of the result, and `Models.DumpedTags` what that means for the dumped tags |
| Models.DumpIsFlat | src/pyawx/models/job_template.py:159-162 | every value of a dump is a JSON scalar: the override removes the only dict and the only set |
| Models.OnlyContainersNest | src/pyawx/models/workflow_job_template.py:66-85 | `extra_vars` and `job_tags` are the only container fields of either model |
| Models.Split | src/pyawx/models/job_template.py:161 | the `split` against which the join is checked always yields at least one part |
| Models.SplitJoin | src/pyawx/models/job_template.py:161 | splitting a join at its separator gives back the parts, when there is at least one part and none contains the separator |
| Models.EnumerationSize | src/pyawx/models/job_template.py:161 | an iteration order of a set lists as many tags as the set has |
| Models.DumpedTags | src/pyawx/models/job_template.py:161 | for any tag set (the same override is at `models/workflow_job_template.py` line 99): every tag occurs in the dumped `job_tags` as a whole comma-delimited field, and an empty set dumps as ""; when no tag contains a comma, splitting the dump at "," gives back exactly the tag set, one part per tag, in any iteration order |
| Models.JoinFields | src/pyawx/models/job_template.py:161 | every part of `sep.join(parts)` occurs in the joined text as a whole field, bounded by the text's ends or by separators, whatever the parts contain |
| Schema.FlatAdmitsScalar | src/pyawx/models/job_template.py:105-147 | a value of a declared type holding no dict and no set is a JSON scalar |

## Left out

- The docstring of `_request` (`src/pyawx/http.py` lines 89 and 101) says non-2xx responses raise `HTTPError`. `raise_for_status` raises only for statuses 400 to 599, and the model follows the code.
- `create` and `update` send one GET per reference name before the write (`src/pyawx/resources/adapter.py` lines 79-86, 126 and 152). A failing lookup leaves the payload dict partly rewritten, and `Rewrite` keeps that state.
- `exists` catches only `ValueError` (`src/pyawx/resources/adapter.py` line 172). The `KeyError`/`TypeError` of a malformed listing therefore reaches the caller, and the model raises `MalformedListing` there.
- `Resource` in `src/pyawx/resources.py` repeats `Adapter` without `exists`. One class, `Adapter`, models both.
- `src/pyawx/resources/__init__.py` imports a `WorkflowJobTemplateResource`, but `resources/workflow_job_template.py` defines the class under another name (`WorkflowJobTemplate`). The `resources/` package also shadows the module `resources.py`, so the `from .resources import ...` of `client.py` line 28 goes through that `__init__.py` and fails, and `pyawx.client` cannot be imported as written. The modelled `Client` wires the evidently intended program: the two subclasses of `resources.py` (lines 186-215), modelled as `JobTemplateResource` and `WorkflowJobTemplateResource`.
- `models.py` is an older copy of the two model classes in `models/`, with the same declarations. `models/enums.py` gives the two enumerations, which appear only as sets of their string values (`JobTypes`, `WebhookServices`).
- The network, TLS and the AWX server are the `transport` parameter. No claim is made about what a POST, PATCH or DELETE does to the server's state. Connection errors and timeouts, which `requests` raises and nothing catches, are not modelled.
- `requests.Session` and `auth.apply` are left out: how BasicAuth or the Bearer header travels on the wire, and pooling and redirects. Each request records the `Auth` value and the TLS flag instead.
- The `HTTPError` text carries the URL as `_build_url` gives it. `requests` reports `response.url` instead, which has been re-quoted and normalised before sending (scheme and host lower-cased; spaces and non-ASCII characters of an identifier or base URL percent-encoded) and is the final URL after any redirect. `Http.VerbErrors` and `Http.Decode` therefore state the URL as given, not as `requests` rewrites it.
- `json.dumps` is the parameter `dumps`, and the order in which Python iterates the `job_tags` set is the parameter `tagOrder`. The model does not compute either.
- `Display` writes `None`, booleans, integers and strings as Python's `str()` does. For a list, dict or set it gives a placeholder text, so `Http.ItemUrlsDistinct` says nothing about container identifiers. Floats are not among the modelled values.
- Pydantic's coercion in lax mode (for example `"5"` accepted for an `int` field, or `1` for a `bool`) is not modelled. A value is accepted only when it already has the declared type.
- Keyword arguments a model does not declare are ignored, as pydantic's default does. Only declared field names can be written as keys, because keys are the `FieldName` type.
- Pagination of listings (`next` pages) is not followed by the source, and not by the model.
- Models.JobTemplateDefaults: states the default only for fields that were not supplied; `Models.Supplied` covers the supplied ones.
- Models.WorkflowJobTemplateDefaults: states the default only for fields other than `name`, which `Models.Supplied` covers.
- Resources.ResolveFrom: its own contract states only that the keys are kept. What the resolution computes is stated by `Resources.ResolveAgainstListings` and `Resources.ResolveQueries`, against a server whose listings do not change. A server whose listing changes between two lookups is covered only by the request-order lemmas.
- Models.ModelDump: never fails, because a modelled `Set` holds strings only. In the source `job_tags` is declared as a plain `set` (`models/job_template.py` line 116, `models/workflow_job_template.py` line 85), so pydantic accepts e.g. `job_tags={1}`, and then `",".join` raises `TypeError`. That makes `create` fail before any request and `update` fail after its own lookup GET. The model does not represent such sets, so it does not capture that error.
- Resources.Adapter.CreateOutcome: a payload is a model of one of the two template classes, as validated at construction. Other pydantic models passed to `create` (`src/pyawx/resources/adapter.py` line 104 takes any `BaseModel`) are not modelled. Neither are fields assigned after construction, which pydantic does not re-validate by default (e.g. `m.verbosity = 9` is sent as 9). The no-model guard (lines 123-124) is stated for every payload.
- Resources.Adapter.UpdateOutcome: the same payload restriction as `create` (line 129 takes any `BaseModel`); the no-model guard (lines 148-149) is stated for every payload.
- Models.ModelDump: its requirement that the model be valid also excludes other `BaseModel`s and values assigned after construction without validation.
- Models.DumpedTags: the exact round trip back to the tag set is stated for comma-free tags only. A tag containing "," is dumped unchanged, so `{"a,b"}` dumps as `a,b`, which reads back as the two tags `a` and `b`; for such sets the lemma states only that each tag occurs as a whole field of the dump.
