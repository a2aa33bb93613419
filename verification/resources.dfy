/** The resource adapter (`Adapter`, and its older twin `Resource`): looking
    a resource up by name in its collection listing, resolving the reference
    fields of a payload to identifiers, and fetch, create, update, delete and
    exists, each a fixed sequence of requests through the shared HTTP client. */
module Resources {
  import opened Wrappers
  import opened Json
  import opened Errors
  import opened Models
  import opened Http

  /** The reference fields `_names_to_ids` resolves, each with the collection
      its names are looked up in, in the order the table lists them. */
  const ReferenceFields: seq<(FieldName, string)> := [
    (Inventory, "inventories"),
    (Project, "projects"),
    (WebhookCredential, "webhook_credentials"),
    (Organization, "organizations")
  ]

  /** What `for resource in page["results"]` iterates over, or the `KeyError`
      or `TypeError` raised on the way: the page must be a dict with a
      "results" entry; a list is iterated item by item, an empty string, dict
      or set yields nothing, and iterating anything else fails (a non-empty
      string, dict or set yields strings, which cannot be subscripted by a
      name). */
  function Results(page: Value): (r: Result<seq<Value>, Error>)
    ensures r.Failure? ==> r.error == MalformedListing
    ensures r.Success? ==> page.Object? && "results" in page.fields
    ensures page.Object? && "results" in page.fields && page.fields["results"].Array? ==>
      r == Success(page.fields["results"].items)
  {
    if !page.Object? || "results" !in page.fields then Failure(MalformedListing)
    else match page.fields["results"]
      case Array(items) => Success(items)
      case Str(s) => if s == "" then Success([]) else Failure(MalformedListing)
      case Object(m) => if m == map[] then Success([]) else Failure(MalformedListing)
      case Set(e) => if e == {} then Success([]) else Failure(MalformedListing)
      case _ => Failure(MalformedListing)
  }

  /** The listing item is a dict with a "name". */
  predicate Named(item: Value) {
    item.Object? && "name" in item.fields
  }

  /** The search loop of `_get_id_by_name` over `items`: the "id" of the
      first item whose "name" equals `name`; not found once the items run out. */
  function FindId(items: seq<Value>, name: string): (r: Result<Value, Error>)
    ensures r.Failure? ==> r.error == NotFound(name) || r.error == MalformedListing
  {
    if |items| == 0 then Failure(NotFound(name))
    else if !Named(items[0]) then Failure(MalformedListing)
    else if items[0].fields["name"] == Str(name) then
      if "id" in items[0].fields then Success(items[0].fields["id"]) else Failure(MalformedListing)
    else FindId(items[1..], name)
  }

  /** `Adapter(http, collection)._get_id_by_name(name)` after `history`: one
      GET of the collection, then the search of its listing. */
  function LookupOutcome(http: HTTP, collection: string, history: seq<Request>, name: string): (run: Run<Value>)
    ensures run.sent == history + [http.Prepare(GET, http.CollectionUrl(collection), None)]
    ensures run.result.Failure? ==> run.result.error.IsValueError() || run.result.error == MalformedListing
  {
    var got := http.GetOutcome(history, collection, None);
    match got.result
    case Failure(e) => Run(Failure(e), got.sent)
    case Success(page) =>
      match Results(page)
      case Failure(e) => Run(Failure(e), got.sent)
      case Success(items) => Run(FindId(items, name), got.sent)
  }

  /** The state `_names_to_ids` leaves behind: the dict as it stands when the
      loop ends or a lookup raises, the error raised if any, and the log. */
  datatype Rewrite = Rewrite(data: Payload, failure: Option<Error>, sent: seq<Request>)

  /** The loop of `_names_to_ids` from table row `k` on: a row whose field
      holds a string has it replaced by the identifier found in the row's
      collection; a failed lookup stops the loop with the rows before it
      already rewritten. */
  function ResolveFrom(http: HTTP, history: seq<Request>, data: Payload, k: nat): (out: Rewrite)
    requires k <= |ReferenceFields|
    ensures out.data.Keys == data.Keys
    decreases |ReferenceFields| - k
  {
    if k == |ReferenceFields| then Rewrite(data, None, history)
    else
      var (field, collection) := ReferenceFields[k];
      if field in data && data[field].Str? then
        var found := LookupOutcome(http, collection, history, data[field].s);
        match found.result
        case Failure(e) => Rewrite(data, Some(e), found.sent)
        case Success(id) => ResolveFrom(http, found.sent, data[field := id], k + 1)
      else ResolveFrom(http, history, data, k + 1)
  }

  /** A resource collection of the API, optionally bound to a model class. */
  class Adapter {
    const http: HTTP
    const resource: string
    const model: Option<ModelClass>

    constructor(http: HTTP, resource: string, model: Option<ModelClass>)
      ensures this.http == http && this.resource == resource && this.model == model
    {
      this.http := http;
      this.resource := resource;
      this.model := model;
    }

    /** `fetch(name)`: the record of the resource named `name`, fetched by the
        identifier the lookup found. */
    function FetchOutcome(history: seq<Request>, name: string): (run: Run<Value>)
      ensures var found := LookupOutcome(http, resource, history, name);
        && (found.result.Failure? ==> run == Run(Failure(found.result.error), found.sent))
        && (found.result.Success? ==>
              run.sent == history + [http.Prepare(GET, http.CollectionUrl(resource), None),
                                     http.Prepare(GET, http.BuildUrl(resource, Some(found.result.value)), None)])
    {
      var found := LookupOutcome(http, resource, history, name);
      match found.result
      case Failure(e) => Run(Failure(e), found.sent)
      case Success(id) => http.GetOutcome(found.sent, resource, Some(id))
    }

    /** `create(payload)`: no model bound is an error before any request;
        otherwise the dump's references are resolved and the result is posted
        to the collection. */
    function CreateOutcome(history: seq<Request>, payload: Model, dumps: Dict -> string, tagOrder: seq<string>): (run: Run<Value>)
      requires model.Some? ==> payload.Valid() && Enumerates(tagOrder, payload.Tags())
      ensures model.None? ==> run == Run(Failure(ModelNotSet), history)
    {
      if model.None? then Run(Failure(ModelNotSet), history)
      else PostResolved(history, ModelDump(payload, dumps, tagOrder))
    }

    /** What `create` does with the dump: its references are resolved, then
        it is posted to the collection. */
    function PostResolved(history: seq<Request>, data: Payload): (run: Run<Value>)
    {
      var resolved := ResolveFrom(http, history, data, 0);
      if resolved.failure.Some? then Run(Failure(resolved.failure.value), resolved.sent)
      else http.PostOutcome(resolved.sent, resource, resolved.data)
    }

    /** `update(name, payload)`: no model bound is an error before any
        request; otherwise the target is looked up first, then the dump's
        references are resolved, then the target is patched. */
    function UpdateOutcome(history: seq<Request>, name: string, payload: Model, dumps: Dict -> string, tagOrder: seq<string>): (run: Run<Value>)
      requires model.Some? ==> payload.Valid() && Enumerates(tagOrder, payload.Tags())
      ensures model.None? ==> run == Run(Failure(ModelNotSet), history)
    {
      if model.None? then Run(Failure(ModelNotSet), history)
      else PatchNamed(history, name, ModelDump(payload, dumps, tagOrder))
    }

    /** What `update` does once the model is known to be bound: the target
        `name` is looked up, then patched with `data`. */
    function PatchNamed(history: seq<Request>, name: string, data: Payload): (run: Run<Value>)
    {
      var found := LookupOutcome(http, resource, history, name);
      match found.result
      case Failure(e) => Run(Failure(e), found.sent)
      case Success(id) => PatchResolved(found.sent, id, data)
    }

    /** What `update` does with the dump once the target is found: its
        references are resolved, then the target `id` is patched with it. */
    function PatchResolved(history: seq<Request>, id: Value, data: Payload): (run: Run<Value>)
    {
      var resolved := ResolveFrom(http, history, data, 0);
      if resolved.failure.Some? then Run(Failure(resolved.failure.value), resolved.sent)
      else http.PatchOutcome(resolved.sent, resource, id, resolved.data)
    }

    /** `delete(name)`: the lookup, then a DELETE of the identifier found. */
    function DeleteOutcome(history: seq<Request>, name: string): (run: Run<()>)
      ensures var found := LookupOutcome(http, resource, history, name);
        && (found.result.Failure? ==> run == Run(Failure(found.result.error), found.sent))
        && (found.result.Success? ==>
              run.sent == history + [http.Prepare(GET, http.CollectionUrl(resource), None),
                                     http.Prepare(DELETE, http.BuildUrl(resource, Some(found.result.value)), None)])
    {
      var found := LookupOutcome(http, resource, history, name);
      match found.result
      case Failure(e) => Run(Failure(e), found.sent)
      case Success(id) => http.DeleteOutcome(found.sent, resource, id)
    }

    /** `exists(name)`: whether the lookup succeeds; a `ValueError` from the
        lookup means false, any other error is raised. */
    function ExistsOutcome(history: seq<Request>, name: string): (run: Run<bool>)
      ensures run.sent == history + [http.Prepare(GET, http.CollectionUrl(resource), None)]
      ensures run.result.Failure? ==> run.result.error == MalformedListing
      ensures run.result == Success(true) <==> LookupOutcome(http, resource, history, name).result.Success?
    {
      var found := LookupOutcome(http, resource, history, name);
      match found.result
      case Success(_) => Run(Success(true), found.sent)
      case Failure(e) =>
        if e.IsValueError() then Run(Success(false), found.sent) else Run(Failure(e), found.sent)
    }

    /** `_get_id_by_name(name)`. */
    method IdByName(name: string) returns (r: Result<Value, Error>)
      modifies http
      ensures Run(r, http.sent) == LookupOutcome(http, resource, old(http.sent), name)
    {
      var page := http.Get(resource, None);
      if page.Failure? {
        return Failure(page.error);
      }
      var listed := Results(page.value);
      if listed.Failure? {
        return Failure(listed.error);
      }
      var items := listed.value;
      var i := 0;
      while i < |items|
        invariant 0 <= i <= |items|
        invariant FindId(items, name) == FindId(items[i..], name)
      {
        var item := items[i];
        assert items[i..][1..] == items[i + 1..];
        if !Named(item) {
          return Failure(MalformedListing);
        }
        if item.fields["name"] == Str(name) {
          if "id" !in item.fields {
            return Failure(MalformedListing);
          }
          return Success(item.fields["id"]);
        }
        i := i + 1;
      }
      return Failure(NotFound(name));
    }

    /** `_names_to_ids(data)`: `out` is the dict when the method returns or
        raises, `failure` what it raises. */
    method NamesToIds(data: Payload) returns (out: Payload, failure: Option<Error>)
      modifies http
      ensures Rewrite(out, failure, http.sent) == ResolveFrom(http, old(http.sent), data, 0)
    {
      out := data;
      failure := None;
      var k := 0;
      while k < |ReferenceFields|
        invariant 0 <= k <= |ReferenceFields|
        invariant ResolveFrom(http, old(http.sent), data, 0) == ResolveFrom(http, http.sent, out, k)
      {
        var (field, collection) := ReferenceFields[k];
        if field in out && out[field].Str? {
          var lookup := new Adapter(http, collection, None);
          var found := lookup.IdByName(out[field].s);
          if found.Failure? {
            failure := Some(found.error);
            return;
          }
          out := out[field := found.value];
        }
        k := k + 1;
      }
    }

    method Fetch(name: string) returns (r: Result<Value, Error>)
      modifies http
      ensures Run(r, http.sent) == FetchOutcome(old(http.sent), name)
    {
      var id := IdByName(name);
      if id.Failure? {
        return Failure(id.error);
      }
      r := http.Get(resource, Some(id.value));
    }

    method Create(payload: Model, dumps: Dict -> string, tagOrder: seq<string>) returns (r: Result<Value, Error>)
      requires model.Some? ==> payload.Valid() && Enumerates(tagOrder, payload.Tags())
      modifies http
      ensures Run(r, http.sent) == CreateOutcome(old(http.sent), payload, dumps, tagOrder)
    {
      if model.None? {
        return Failure(ModelNotSet);
      }
      var data, failure := NamesToIds(ModelDump(payload, dumps, tagOrder));
      if failure.Some? {
        return Failure(failure.value);
      }
      r := http.Post(resource, data);
    }

    method Update(name: string, payload: Model, dumps: Dict -> string, tagOrder: seq<string>) returns (r: Result<Value, Error>)
      requires model.Some? ==> payload.Valid() && Enumerates(tagOrder, payload.Tags())
      modifies http
      ensures Run(r, http.sent) == UpdateOutcome(old(http.sent), name, payload, dumps, tagOrder)
    {
      if model.None? {
        return Failure(ModelNotSet);
      }
      var id := IdByName(name);
      if id.Failure? {
        return Failure(id.error);
      }
      var data, failure := NamesToIds(ModelDump(payload, dumps, tagOrder));
      if failure.Some? {
        return Failure(failure.value);
      }
      r := http.Patch(resource, id.value, data);
    }

    method Delete(name: string) returns (r: Result<(), Error>)
      modifies http
      ensures Run(r, http.sent) == DeleteOutcome(old(http.sent), name)
    {
      var id := IdByName(name);
      if id.Failure? {
        return Failure(id.error);
      }
      r := http.Delete(resource, id.value);
    }

    method Exists(name: string) returns (r: Result<bool, Error>)
      modifies http
      ensures Run(r, http.sent) == ExistsOutcome(old(http.sent), name)
    {
      var id := IdByName(name);
      if id.Success? {
        return Success(true);
      }
      if id.error.IsValueError() {
        return Success(false);
      }
      return Failure(id.error);
    }
  }

  /** `JobTemplateResource(http)`. */
  method JobTemplateResource(http: HTTP) returns (a: Adapter)
    ensures fresh(a)
    ensures a.http == http && a.resource == "job_templates" && a.model == Some(JobTemplateModel)
  {
    a := new Adapter(http, "job_templates", Some(JobTemplateModel));
  }

  /** `WorkflowJobTemplateResource(http)`. */
  method WorkflowJobTemplateResource(http: HTTP) returns (a: Adapter)
    ensures fresh(a)
    ensures a.http == http && a.resource == "workflow_job_templates" && a.model == Some(WorkflowJobTemplateModel)
  {
    a := new Adapter(http, "workflow_job_templates", Some(WorkflowJobTemplateModel));
  }

  /** A well-formed listing entry: a resource's name and identifier. */
  datatype Entry = Entry(name: string, id: Value)

  function EntryValue(e: Entry): Value {
    Object(map["name" := Str(e.name), "id" := e.id])
  }

  function Listed(es: seq<Entry>): seq<Value> {
    seq(|es|, i requires 0 <= i < |es| => EntryValue(es[i]))
  }

  /** A listing page holding the entries `es`, as the server sends it. */
  function Page(es: seq<Entry>): Value {
    Object(map["results" := Array(Listed(es))])
  }

  /** The position of the first entry called `name`, or `|es|` when there is none. */
  function FirstIndex(es: seq<Entry>, name: string): (i: nat)
    ensures i <= |es|
    ensures forall j :: 0 <= j < i ==> es[j].name != name
    ensures i < |es| ==> es[i].name == name
  {
    if |es| == 0 || es[0].name == name then 0 else 1 + FirstIndex(es[1..], name)
  }

  /** The identifier of the first entry called `name`, if any. */
  function ListedId(es: seq<Entry>, name: string): (id: Option<Value>)
    ensures id.None? <==> forall j :: 0 <= j < |es| ==> es[j].name != name
  {
    var i := FirstIndex(es, name);
    if i < |es| then Some(es[i].id) else None
  }

  /** On a well-formed listing the search loop finds the first entry with
      the name, so later entries with the same name are ignored, and reports
      the name as not found when no entry has it. */
  lemma {:induction false} FindIdFirst(es: seq<Entry>, name: string)
    ensures FindId(Listed(es), name) ==
      if ListedId(es, name).Some? then Success(ListedId(es, name).value) else Failure(NotFound(name))
  {
    if |es| > 0 {
      assert Listed(es)[0] == EntryValue(es[0]);
      if es[0].name != name {
        assert Listed(es)[1..] == Listed(es[1..]);
        FindIdFirst(es[1..], name);
        assert FirstIndex(es, name) == 1 + FirstIndex(es[1..], name);
      }
    }
  }

  /** The first GET of `collection` after `history` answers with a
      successful listing page of `es`. */
  predicate Answers(http: HTTP, collection: string, history: seq<Request>, es: seq<Entry>) {
    var response := http.transport(history, http.Prepare(GET, http.CollectionUrl(collection), None));
    response.content == Json(Page(es)) && !(400 <= response.status < 600)
  }

  /** Looking up a name in a well-formed listing yields the identifier of
      the first entry with that name, or not found. */
  lemma LookupListing(http: HTTP, collection: string, history: seq<Request>, name: string, es: seq<Entry>)
    requires Answers(http, collection, history, es)
    ensures LookupOutcome(http, collection, history, name).result ==
      if ListedId(es, name).Some? then Success(ListedId(es, name).value) else Failure(NotFound(name))
  {
    var response := http.transport(history, http.Prepare(GET, http.CollectionUrl(collection), None));
    FalsyIdIsCollection(http, collection, None);
    DecodeSuccess(response, http.CollectionUrl(collection));
    FindIdFirst(es, name);
  }

  /** `exists(name)` is true exactly when some entry of the listing has that name. */
  lemma ExistsIffListed(a: Adapter, history: seq<Request>, name: string, es: seq<Entry>)
    requires Answers(a.http, a.resource, history, es)
    ensures a.ExistsOutcome(history, name).result == Success(exists j :: 0 <= j < |es| && es[j].name == name)
  {
    LookupListing(a.http, a.resource, history, name, es);
  }

  /** `exists(name)` is false, not an error, when the listing request fails
      with an error status. */
  lemma ExistsFalseOnErrorStatus(a: Adapter, history: seq<Request>, name: string)
    requires 400 <= a.http.transport(history, a.http.Prepare(GET, a.http.CollectionUrl(a.resource), None)).status < 600
    ensures a.ExistsOutcome(history, name).result == Success(false)
  {
    FalsyIdIsCollection(a.http, a.resource, None);
  }

  /** Row `j` of the table holds a name to resolve in `data`. */
  predicate Pending(data: Payload, j: nat) {
    j < |ReferenceFields| && ReferenceFields[j].0 in data && data[ReferenceFields[j].0].Str?
  }

  /** The fields of table rows `k` onwards. */
  function RowFields(k: nat): set<FieldName>
    requires k <= |ReferenceFields|
  {
    set j | k <= j < |ReferenceFields| :: ReferenceFields[j].0
  }

  lemma RowFieldsStep(k: nat)
    requires k < |ReferenceFields|
    ensures RowFields(k) == {ReferenceFields[k].0} + RowFields(k + 1)
  {
  }

  /** Resolution only rewrites the reference fields that hold a string: no
      other entry of the dict changes, and no entry is added or removed. */
  lemma {:induction false} ResolveKeepsOthers(http: HTTP, history: seq<Request>, data: Payload, k: nat)
    requires k <= |ReferenceFields|
    ensures var out := ResolveFrom(http, history, data, k);
      forall f :: f in data && (f !in RowFields(k) || !data[f].Str?) ==> out.data[f] == data[f]
    decreases |ReferenceFields| - k
  {
    if k < |ReferenceFields| {
      var (field, collection) := ReferenceFields[k];
      RowFieldsStep(k);
      if field in data && data[field].Str? {
        var found := LookupOutcome(http, collection, history, data[field].s);
        if found.result.Success? {
          ResolveKeepsOthers(http, found.sent, data[field := found.result.value], k + 1);
        }
      } else {
        ResolveKeepsOthers(http, history, data, k + 1);
      }
    }
  }

  /** Every collection of the table answers each GET, whatever was sent
      before, with the listing `listings` holds for it. */
  ghost predicate Serves(http: HTTP, listings: map<string, seq<Entry>>) {
    && (forall j :: 0 <= j < |ReferenceFields| ==> ReferenceFields[j].1 in listings)
    && (forall c, history :: c in listings ==> Answers(http, c, history, listings[c]))
  }

  /** Row `j`'s name, if it has one, is listed in the row's collection. */
  predicate Resolvable(data: Payload, listings: map<string, seq<Entry>>, j: nat) {
    Pending(data, j) ==>
      && ReferenceFields[j].1 in listings
      && ListedId(listings[ReferenceFields[j].1], data[ReferenceFields[j].0].s).Some?
  }

  /** Row `j` of `out` holds the identifier listed for the name that row `j`
      of `data` held, if it held one. */
  predicate RowResolved(data: Payload, out: Payload, listings: map<string, seq<Entry>>, j: nat) {
    Pending(data, j) ==>
      && ReferenceFields[j].1 in listings && ReferenceFields[j].0 in out
      && Some(out[ReferenceFields[j].0]) == ListedId(listings[ReferenceFields[j].1], data[ReferenceFields[j].0].s)
  }

  /** Row `j` of `out` holds the name that row `j` of `data` held, if it held one. */
  predicate RowKept(data: Payload, out: Payload, j: nat) {
    Pending(data, j) ==> ReferenceFields[j].0 in out && out[ReferenceFields[j].0] == data[ReferenceFields[j].0]
  }

  /** The first row from `k` on whose name is not listed, or
      `|ReferenceFields|` when every row from `k` on resolves. */
  function FirstUnresolvable(data: Payload, listings: map<string, seq<Entry>>, k: nat): (u: nat)
    requires k <= |ReferenceFields|
    ensures k <= u <= |ReferenceFields|
    ensures forall j :: k <= j < u ==> Resolvable(data, listings, j)
    ensures u < |ReferenceFields| ==> !Resolvable(data, listings, u)
    decreases |ReferenceFields| - k
  {
    if k == |ReferenceFields| || !Resolvable(data, listings, k) then k
    else FirstUnresolvable(data, listings, k + 1)
  }

  /** Rewriting row `k`'s field leaves the later rows pending as they were. */
  lemma LaterRowsUnaffected(data: Payload, k: nat, id: Value)
    requires k < |ReferenceFields|
    ensures var next := data[ReferenceFields[k].0 := id];
      forall j :: k < j ==> Pending(next, j) == Pending(data, j)
  {
  }

  /** Rewriting row `k`'s field leaves the later rows' names as they were. */
  lemma LaterRowsKept(data: Payload, k: nat, id: Value)
    requires k < |ReferenceFields|
    ensures var next := data[ReferenceFields[k].0 := id];
      forall j :: k < j ==> RowKept(data, next, j)
  {
  }

  lemma {:induction false} FirstUnresolvableAgrees(data: Payload, other: Payload, listings: map<string, seq<Entry>>, k: nat)
    requires k <= |ReferenceFields|
    requires forall j :: k <= j < |ReferenceFields| ==> Resolvable(data, listings, j) == Resolvable(other, listings, j)
    ensures FirstUnresolvable(data, listings, k) == FirstUnresolvable(other, listings, k)
    decreases |ReferenceFields| - k
  {
    if k < |ReferenceFields| {
      FirstUnresolvableAgrees(data, other, listings, k + 1);
    }
  }

  /** Rewriting a resolvable row `k` leaves the first unresolvable row, and
      the later rows' names, as they were. */
  lemma RewriteStep(data: Payload, listings: map<string, seq<Entry>>, k: nat, id: Value)
    requires Pending(data, k) && Resolvable(data, listings, k)
    ensures var next := data[ReferenceFields[k].0 := id];
      && FirstUnresolvable(data, listings, k) == FirstUnresolvable(next, listings, k + 1)
      && forall j :: k < j ==> RowKept(data, next, j) && Pending(next, j) == Pending(data, j)
  {
    LaterRowsUnaffected(data, k, id);
    LaterRowsKept(data, k, id);
    FirstUnresolvableAgrees(data[ReferenceFields[k].0 := id], data, listings, k + 1);
  }

  /** Resolution against listings that do not change, as a reference
      definition with no server: from row `k` on, in table order, each
      pending row is rewritten to the identifier of the first listed entry
      with its name, until the first pending row whose name is not listed
      stops it with not found. */
  function ResolveListed(data: Payload, listings: map<string, seq<Entry>>, k: nat): (out: (Payload, Option<Error>))
    requires k <= |ReferenceFields|
    ensures out.0.Keys == data.Keys
    decreases |ReferenceFields| - k
  {
    if k == |ReferenceFields| then (data, None)
    else if !Pending(data, k) then ResolveListed(data, listings, k + 1)
    else
      var (field, collection) := ReferenceFields[k];
      if !Resolvable(data, listings, k) then (data, Some(NotFound(data[field].s)))
      else ResolveListed(data[field := ListedId(listings[collection], data[field].s).value], listings, k + 1)
  }

  /** Against a server that answers every lookup from `listings`, resolution
      from row `k` ends with the dict and the error of the reference
      definition. */
  lemma {:induction false} ResolveFollowsListings(http: HTTP, history: seq<Request>, data: Payload,
                                                  listings: map<string, seq<Entry>>, k: nat)
    requires k <= |ReferenceFields|
    requires Serves(http, listings)
    ensures var out := ResolveFrom(http, history, data, k);
      (out.data, out.failure) == ResolveListed(data, listings, k)
    decreases |ReferenceFields| - k
  {
    if k < |ReferenceFields| {
      var (field, collection) := ReferenceFields[k];
      if field in data && data[field].Str? {
        assert Answers(http, collection, history, listings[collection]);
        LookupListing(http, collection, history, data[field].s, listings[collection]);
        var found := LookupOutcome(http, collection, history, data[field].s);
        if found.result.Success? {
          ResolveFollowsListings(http, found.sent, data[field := found.result.value], listings, k + 1);
        }
      } else {
        ResolveFollowsListings(http, history, data, listings, k + 1);
      }
    }
  }

  /** The reference resolution fails exactly when some pending row from `k`
      on is not listed, and then with not found for the first such name. */
  lemma {:induction false} ListedFailure(data: Payload, listings: map<string, seq<Entry>>, k: nat)
    requires k <= |ReferenceFields|
    ensures var out := ResolveListed(data, listings, k);
      var u := FirstUnresolvable(data, listings, k);
      && (out.1.None? <==> u == |ReferenceFields|)
      && (out.1.Some? ==> Pending(data, u) && out.1.value == NotFound(data[ReferenceFields[u].0].s))
    decreases |ReferenceFields| - k
  {
    if k < |ReferenceFields| && Resolvable(data, listings, k) {
      var next := if Pending(data, k)
        then data[ReferenceFields[k].0 := ListedId(listings[ReferenceFields[k].1], data[ReferenceFields[k].0].s).value]
        else data;
      ListedFailure(next, listings, k + 1);
      if Pending(data, k) {
        RewriteStep(data, listings, k, next[ReferenceFields[k].0]);
      }
    }
  }

  /** The reference resolution changes no entry outside the rows from `k` on. */
  lemma {:induction false} ListedKeepsOthers(data: Payload, listings: map<string, seq<Entry>>, k: nat)
    requires k <= |ReferenceFields|
    ensures var out := ResolveListed(data, listings, k).0;
      forall f :: f in data && f !in RowFields(k) ==> out[f] == data[f]
    decreases |ReferenceFields| - k
  {
    if k < |ReferenceFields| {
      RowFieldsStep(k);
      if Pending(data, k) && Resolvable(data, listings, k) {
        var (field, collection) := ReferenceFields[k];
        ListedKeepsOthers(data[field := ListedId(listings[collection], data[field].s).value], listings, k + 1);
      } else if !Pending(data, k) {
        ListedKeepsOthers(data, listings, k + 1);
      }
    }
  }

  /** The reference resolution rewrites every pending row before the first
      one whose name is not listed to the identifier listed for its name. */
  lemma {:induction false} ListedRewrites(data: Payload, listings: map<string, seq<Entry>>, k: nat)
    requires k <= |ReferenceFields|
    ensures var out := ResolveListed(data, listings, k).0;
      forall j :: k <= j < FirstUnresolvable(data, listings, k) ==> RowResolved(data, out, listings, j)
    decreases |ReferenceFields| - k
  {
    if k < |ReferenceFields| && Resolvable(data, listings, k) {
      if Pending(data, k) {
        var (field, collection) := ReferenceFields[k];
        var id := ListedId(listings[collection], data[field].s).value;
        var next := data[field := id];
        ListedRewrites(next, listings, k + 1);
        ListedKeepsOthers(next, listings, k + 1);
        assert field !in RowFields(k + 1);
        RewritesStep(data, next, ResolveListed(next, listings, k + 1).0, listings, k, id);
      } else {
        ListedRewrites(data, listings, k + 1);
      }
    }
  }

  /** The step of `ListedRewrites` for a pending row `k` rewritten to `id`. */
  lemma RewritesStep(data: Payload, next: Payload, out: Payload, listings: map<string, seq<Entry>>, k: nat, id: Value)
    requires Pending(data, k) && Resolvable(data, listings, k) && next == data[ReferenceFields[k].0 := id]
    requires Some(id) == ListedId(listings[ReferenceFields[k].1], data[ReferenceFields[k].0].s)
    requires ReferenceFields[k].0 in out && out[ReferenceFields[k].0] == id
    requires forall j :: k + 1 <= j < FirstUnresolvable(next, listings, k + 1) ==> RowResolved(next, out, listings, j)
    ensures forall j :: k <= j < FirstUnresolvable(data, listings, k) ==> RowResolved(data, out, listings, j)
  {
    RewriteStep(data, listings, k, id);
    forall j | k < j < FirstUnresolvable(data, listings, k)
      ensures RowResolved(data, out, listings, j)
    {
      assert RowResolved(next, out, listings, j) && RowKept(data, next, j);
    }
  }

  /** The reference resolution leaves the first row whose name is not
      listed, and every later row, as it was. */
  lemma {:induction false} ListedLeaves(data: Payload, listings: map<string, seq<Entry>>, k: nat)
    requires k <= |ReferenceFields|
    ensures var out := ResolveListed(data, listings, k).0;
      forall j :: FirstUnresolvable(data, listings, k) <= j ==> RowKept(data, out, j)
    decreases |ReferenceFields| - k
  {
    if k < |ReferenceFields| && Resolvable(data, listings, k) {
      if Pending(data, k) {
        var (field, collection) := ReferenceFields[k];
        var id := ListedId(listings[collection], data[field].s).value;
        var next := data[field := id];
        var out := ResolveListed(next, listings, k + 1).0;
        ListedLeaves(next, listings, k + 1);
        RewriteStep(data, listings, k, id);
        forall j | FirstUnresolvable(data, listings, k) <= j
          ensures RowKept(data, out, j)
        {
          assert RowKept(next, out, j) && RowKept(data, next, j);
        }
      } else {
        ListedLeaves(data, listings, k + 1);
      }
    }
  }

  /** Against a server whose listings do not change, `_names_to_ids`
      succeeds exactly when every name in the table's fields is listed; it
      rewrites each pending row before the first one whose name is not
      listed to the identifier of the first entry with that name, fails with
      not found for that first unlisted name, and leaves it and the later
      rows as they were. */
  lemma ResolveAgainstListings(http: HTTP, history: seq<Request>, data: Payload, listings: map<string, seq<Entry>>)
    requires Serves(http, listings)
    ensures var out := ResolveFrom(http, history, data, 0);
      var u := FirstUnresolvable(data, listings, 0);
      && (out.failure.None? <==> u == |ReferenceFields|)
      && (out.failure.Some? ==> Pending(data, u) && out.failure.value == NotFound(data[ReferenceFields[u].0].s))
      && (forall j: nat :: j < u ==> RowResolved(data, out.data, listings, j))
      && (forall j :: u <= j ==> RowKept(data, out.data, j))
  {
    ResolveFollowsListings(http, history, data, listings, 0);
    ListedFailure(data, listings, 0);
    ListedRewrites(data, listings, 0);
    ListedLeaves(data, listings, 0);
  }

  /** The lookups resolution from row `k` would send: a GET of the row's
      collection for each pending row, in table order. */
  function Queries(http: HTTP, data: Payload, k: nat): seq<Request>
    requires k <= |ReferenceFields|
    decreases |ReferenceFields| - k
  {
    if k == |ReferenceFields| then []
    else if Pending(data, k) then [http.Prepare(GET, http.CollectionUrl(ReferenceFields[k].1), None)] + Queries(http, data, k + 1)
    else Queries(http, data, k + 1)
  }

  /** Resolution sends the lookups of the pending rows in table order and
      nothing else: what it sends is a prefix of those lookups. */
  lemma {:induction false} ResolveQueries(http: HTTP, history: seq<Request>, data: Payload, k: nat)
    requires k <= |ReferenceFields|
    ensures var out := ResolveFrom(http, history, data, k);
      var q := Queries(http, data, k);
      && |history| <= |out.sent| <= |history| + |q|
      && out.sent == history + q[..|out.sent| - |history|]
    decreases |ReferenceFields| - k
  {
    if k < |ReferenceFields| {
      if Pending(data, k) {
        var found := LookupOutcome(http, ReferenceFields[k].1, history, data[ReferenceFields[k].0].s);
        var head := http.Prepare(GET, http.CollectionUrl(ReferenceFields[k].1), None);
        if found.result.Success? {
          var next := data[ReferenceFields[k].0 := found.result.value];
          ResolveQueries(http, found.sent, next, k + 1);
          LaterRowsUnaffected(data, k, found.result.value);
          QueriesIgnoreEarlierRows(http, data, next, k + 1);
          var out := ResolveFrom(http, found.sent, next, k + 1);
          assert ResolveFrom(http, history, data, k) == out;
          PrefixStep(history, head, Queries(http, data, k + 1), out.sent);
        } else {
          HeadPrefix(head, Queries(http, data, k + 1));
        }
      } else {
        ResolveQueries(http, history, data, k + 1);
      }
    }
  }

  /** A resolution that succeeds has sent all the lookups of the pending rows. */
  lemma {:induction false} ResolveSendsAll(http: HTTP, history: seq<Request>, data: Payload, k: nat)
    requires k <= |ReferenceFields|
    ensures var out := ResolveFrom(http, history, data, k);
      out.failure.None? ==> out.sent == history + Queries(http, data, k)
    decreases |ReferenceFields| - k
  {
    if k < |ReferenceFields| {
      if Pending(data, k) {
        var found := LookupOutcome(http, ReferenceFields[k].1, history, data[ReferenceFields[k].0].s);
        if found.result.Success? {
          var next := data[ReferenceFields[k].0 := found.result.value];
          var head := http.Prepare(GET, http.CollectionUrl(ReferenceFields[k].1), None);
          var rest := Queries(http, data, k + 1);
          ResolveSendsAll(http, found.sent, next, k + 1);
          LaterRowsUnaffected(data, k, found.result.value);
          QueriesIgnoreEarlierRows(http, data, next, k + 1);
          assert ResolveFrom(http, history, data, k) == ResolveFrom(http, found.sent, next, k + 1);
          AppendStep(history, head, rest);
        }
      } else {
        ResolveSendsAll(http, history, data, k + 1);
      }
    }
  }

  /** A resolution that fails has sent at least the lookup that failed. */
  lemma {:induction false} ResolveFailureSends(http: HTTP, history: seq<Request>, data: Payload, k: nat)
    requires k <= |ReferenceFields|
    ensures var out := ResolveFrom(http, history, data, k);
      out.failure.Some? ==> |out.sent| > |history|
    decreases |ReferenceFields| - k
  {
    if k < |ReferenceFields| {
      if Pending(data, k) {
        var found := LookupOutcome(http, ReferenceFields[k].1, history, data[ReferenceFields[k].0].s);
        if found.result.Success? {
          ResolveFailureSends(http, found.sent, data[ReferenceFields[k].0 := found.result.value], k + 1);
        }
      } else {
        ResolveFailureSends(http, history, data, k + 1);
      }
    }
  }

  /** Proof step for the request logs. */
  lemma HeadPrefix<T>(x: T, q: seq<T>)
    ensures ([x] + q)[..1] == [x]
  {
  }

  /** Proof step for the request logs: concatenation regrouped. */
  lemma AppendStep<T>(h: seq<T>, x: T, q: seq<T>)
    ensures (h + [x]) + q == h + ([x] + q)
  {
  }

  /** A log that extends `h + [x]` by a prefix of `q` extends `h` by a
      prefix of `[x] + q`. */
  lemma PrefixStep<T>(h: seq<T>, x: T, q: seq<T>, s: seq<T>)
    requires |h| + 1 <= |s| <= |h| + 1 + |q|
    requires s == (h + [x]) + q[..|s| - |h| - 1]
    ensures s == h + ([x] + q)[..|s| - |h|]
  {
    assert ([x] + q)[..|s| - |h|] == [x] + q[..|s| - |h| - 1];
  }

  /** The lookups from row `k` on depend only on those rows' fields. */
  lemma {:induction false} QueriesIgnoreEarlierRows(http: HTTP, data: Payload, other: Payload, k: nat)
    requires k <= |ReferenceFields|
    requires forall j :: k <= j < |ReferenceFields| ==> Pending(data, j) == Pending(other, j)
    ensures Queries(http, data, k) == Queries(http, other, k)
    decreases |ReferenceFields| - k
  {
    if k < |ReferenceFields| {
      QueriesIgnoreEarlierRows(http, data, other, k + 1);
    }
  }

  /** `create` sends the lookups of the dump's references, in table order,
      and then, when every lookup succeeded, one POST of the rewritten dump to
      the collection; it sends nothing else. */
  lemma CreateRequests(a: Adapter, history: seq<Request>, data: Payload)
    ensures var run := a.PostResolved(history, data);
      var q := Queries(a.http, data, 0);
      var resolved := ResolveFrom(a.http, history, data, 0);
      && (resolved.failure.Some? ==> run.result == Failure(resolved.failure.value)
                                     && |history| < |run.sent| <= |history| + |q|
                                     && run.sent == history + q[..|run.sent| - |history|])
      && (resolved.failure.None? ==>
            run.sent == history + q + [a.http.Prepare(POST, a.http.CollectionUrl(a.resource), Some(resolved.data))])
  {
    ResolveQueries(a.http, history, data, 0);
    ResolveSendsAll(a.http, history, data, 0);
    ResolveFailureSends(a.http, history, data, 0);
  }

  /** Once the target is found, `update` sends the lookups of the dump's
      references, in table order, and then, when every lookup succeeded, one
      PATCH of the rewritten dump to the target's URL; it sends nothing else. */
  lemma PatchRequests(a: Adapter, history: seq<Request>, id: Value, data: Payload)
    ensures var run := a.PatchResolved(history, id, data);
      var q := Queries(a.http, data, 0);
      var resolved := ResolveFrom(a.http, history, data, 0);
      && (resolved.failure.Some? ==> run.result == Failure(resolved.failure.value)
                                     && |history| < |run.sent| <= |history| + |q|
                                     && run.sent == history + q[..|run.sent| - |history|])
      && (resolved.failure.None? ==>
            run.sent == history + q + [a.http.Prepare(PATCH, a.http.BuildUrl(a.resource, Some(id)), Some(resolved.data))])
  {
    ResolveQueries(a.http, history, data, 0);
    ResolveSendsAll(a.http, history, data, 0);
    ResolveFailureSends(a.http, history, data, 0);
  }

  /** `update` looks its target up before anything else, and a successful
      update ends with a PATCH of the identifier that lookup found. */
  lemma PatchNamedLooksUpFirst(a: Adapter, history: seq<Request>, name: string, data: Payload)
    ensures var run := a.PatchNamed(history, name, data);
      && |run.sent| > |history|
      && run.sent[..|history| + 1] == history + [a.http.Prepare(GET, a.http.CollectionUrl(a.resource), None)]
      && (run.result.Success? ==>
            var found := LookupOutcome(a.http, a.resource, history, name).result;
            && found.Success?
            && run.sent[|run.sent| - 1].kind == PATCH
            && run.sent[|run.sent| - 1].url == a.http.BuildUrl(a.resource, Some(found.value)))
  {
    var found := LookupOutcome(a.http, a.resource, history, name);
    if found.result.Success? {
      PatchRequests(a, found.sent, found.result.value, data);
      var run := a.PatchResolved(found.sent, found.result.value, data);
      assert run.sent[..|found.sent|] == found.sent;
    }
  }

  /** `fetch(name)` returns the record the server sends for the identifier
      of the first listed entry with that name, unchanged. */
  lemma FetchReturnsRecord(a: Adapter, history: seq<Request>, name: string, es: seq<Entry>, record: Value)
    requires Answers(a.http, a.resource, history, es)
    requires ListedId(es, name).Some?
    requires var sent := history + [a.http.Prepare(GET, a.http.CollectionUrl(a.resource), None)];
      var response := a.http.transport(sent, a.http.Prepare(GET, a.http.BuildUrl(a.resource, ListedId(es, name)), None));
      response.content == Json(record) && !(400 <= response.status < 600)
    ensures a.FetchOutcome(history, name).result == Success(record)
  {
    LookupListing(a.http, a.resource, history, name, es);
    var sent := history + [a.http.Prepare(GET, a.http.CollectionUrl(a.resource), None)];
    var u := a.http.BuildUrl(a.resource, ListedId(es, name));
    DecodeSuccess(a.http.transport(sent, a.http.Prepare(GET, u, None)), u);
  }
}
