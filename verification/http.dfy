/** The `HTTP` wrapper: a base URL normalised once, endpoint URLs built from
    it, and four verbs that send one request each, decode the JSON answer and
    turn an HTTP error status into a `ValueError` naming the verb.

    The network and the AWX server behind it are one function, `transport`,
    from the requests already sent and the new request to the response; the
    session's credentials and TLS setting travel with every request. */
module Http {
  import opened Wrappers
  import opened Json
  import opened Errors
  import opened Authentication
  import opened Models

  datatype Method = GET | POST | PATCH | DELETE

  /** A JSON request body: a dumped model whose reference names were resolved. */
  type Payload = map<FieldName, Value>

  /** A request as the session sends it. */
  datatype Request = Request(kind: Method, url: string, body: Option<Payload>, verify: bool, auth: Auth)

  /** The body of a response: no bytes at all, a JSON document, or bytes that
      are not JSON. */
  datatype Content = Empty | Json(value: Value) | Unparsable

  datatype Response = Response(status: int, reason: string, content: Content)

  /** The network and the server: the answer to a request may depend on every
      request sent before it. */
  type Transport = (seq<Request>, Request) -> Response

  /** What a step returns or raises, and the log of requests sent once it is over. */
  datatype Run<T> = Run(result: Result<T, Error>, sent: seq<Request>)

  /** `s.rstrip(c)`: `s` without its trailing run of `c`. */
  function RStrip(s: string, c: char): (r: string)
    ensures |r| <= |s| && r == s[..|r|]
    ensures |r| == 0 || r[|r| - 1] != c
    ensures forall i :: |r| <= i < |s| ==> s[i] == c
  {
    if |s| > 0 && s[|s| - 1] == c then RStrip(s[..|s| - 1], c) else s
  }

  /** The three properties of `RStrip` single out its result: a prefix of `s`
      not ending in `c` and followed in `s` only by `c` is the stripped text. */
  lemma RStripUnique(s: string, c: char, r: string)
    requires |r| <= |s| && r == s[..|r|]
    requires |r| == 0 || r[|r| - 1] != c
    requires forall i :: |r| <= i < |s| ==> s[i] == c
    ensures r == RStrip(s, c)
  {
  }

  /** Stripping twice strips nothing more. */
  lemma RStripIdempotent(s: string, c: char)
    ensures RStrip(RStrip(s, c), c) == RStrip(s, c)
  {
    var r := RStrip(s, c);
    RStripUnique(r, c, r);
  }

  /** Python's truth value of a value: `None`, `False`, `0` and empty
      strings and containers are false. */
  predicate Truthy(v: Value) {
    match v
    case Null => false
    case Bool(b) => b
    case Int(i) => i != 0
    case Str(s) => s != ""
    case Array(items) => items != []
    case Object(fields) => fields != map[]
    case Set(elems) => elems != {}
  }

  /** Python's `str()` of an identifier as an f-string writes it. */
  function Display(v: Value): string {
    match v
    case Null => "None"
    case Bool(b) => if b then "True" else "False"
    case Int(i) => IntText(i)
    case Str(s) => s
    case _ => "<container>"
  }

  /** The answer to a request that came back: an error status raises
      `HTTPError`, an empty body is an empty dict, anything else is decoded. */
  function Decode(response: Response, url: string): (r: Result<Value, Error>)
    ensures r.Failure? ==> r.error.HttpError? || r.error == UndecodableBody
    ensures r.Failure? && r.error.HttpError? <==> 400 <= response.status < 600
    ensures r.Failure? && r.error.HttpError? ==>
      r.error == HttpError(response.status, response.reason, url)
  {
    if 400 <= response.status < 600 then Failure(HttpError(response.status, response.reason, url))
    else match response.content
      case Empty => Success(Object(map[]))
      case Json(v) => Success(v)
      case Unparsable => Failure(UndecodableBody)
  }

  /** A successful response without a body reads as `{}`; one with a JSON
      body reads as that body. */
  lemma DecodeSuccess(response: Response, url: string)
    requires !(400 <= response.status < 600)
    ensures response.content.Empty? ==> Decode(response, url) == Success(Object(map[]))
    ensures response.content.Json? ==> Decode(response, url) == Success(response.content.value)
    ensures response.content.Unparsable? ==> Decode(response, url) == Failure(UndecodableBody)
  {
  }

  /** The `except HTTPError as e: raise ValueError(f"Failed to <verb> resource: {e}")`
      of a verb: an `HTTPError` becomes the verb's own `ValueError`, anything
      else passes unchanged. */
  function Wrap<T>(verb: Verb, r: Result<T, Error>): (w: Result<T, Error>)
    ensures w.Success? <==> r.Success?
    ensures r.Success? ==> w == r
    ensures r.Failure? && r.error.HttpError? ==>
      w == Failure(RequestFailed(verb, r.error.status, r.error.reason, r.error.url))
    ensures r.Failure? && !r.error.HttpError? ==> w == r
  {
    if r.Failure? && r.error.HttpError? then
      Failure(RequestFailed(verb, r.error.status, r.error.reason, r.error.url))
    else r
  }

  /** Whatever a wrapped call raises is a `ValueError` when what it wrapped
      raised only `HTTPError` or undecodable bodies; the `HTTPError` text is
      kept after the verb's prefix. */
  lemma WrapRaisesValueError<T>(verb: Verb, r: Result<T, Error>)
    requires r.Failure? ==> r.error.HttpError? || r.error == UndecodableBody
    ensures Wrap(verb, r).Failure? ==> Wrap(verb, r).error.IsValueError()
    ensures r.Failure? && r.error.HttpError? ==>
      var m := Wrap(verb, r).error.Message();
      m[..|verb.FailurePrefix()|] == verb.FailurePrefix()
  {
    if r.Failure? && r.error.HttpError? {
      RequestFailedPrefix(verb, r.error.status, r.error.reason, r.error.url);
    }
  }

  /** The HTTP client: a normalised base URL, an API version and a session
      whose TLS setting and credentials are fixed at construction. `sent` is
      the log of the requests the session has sent. */
  class HTTP {
    const url: string
    const apiVersion: string
    const verify: bool
    const auth: Auth
    const transport: Transport
    var sent: seq<Request>

    /** `HTTP(url, api_version, auth, verify_tls)`: the base URL loses its
        trailing slashes; the session gets the TLS setting and the credentials. */
    constructor(url: string, apiVersion: string, auth: Auth, verifyTls: bool, transport: Transport)
      ensures this.url == RStrip(url, '/') && this.apiVersion == apiVersion
      ensures this.verify == verifyTls && this.auth == auth && this.transport == transport
      ensures sent == []
    {
      this.url := RStrip(url, '/');
      this.apiVersion := apiVersion;
      this.verify := verifyTls;
      this.auth := auth;
      this.transport := transport;
      sent := [];
    }

    /** The collection endpoint `{url}/api/{api_version}/{resource}/`. */
    function CollectionUrl(resource: string): string {
      url + "/api/" + apiVersion + "/" + resource + "/"
    }

    /** `_build_url(resource, resource_id)`: the collection endpoint, followed
        by the identifier and a slash when the identifier is truthy. */
    function BuildUrl(resource: string, id: Option<Value>): string {
      var base := CollectionUrl(resource);
      if id.Some? && Truthy(id.value) then base + Display(id.value) + "/" else base
    }

    /** Builder: a request as this client's session sends it. */
    function Prepare(kind: Method, target: string, body: Option<Payload>): (req: Request)
      ensures req.verify == verify && req.auth == auth
      ensures req.kind == kind && req.url == target && req.body == body
    {
      Request(kind, target, body, verify, auth)
    }

    /** `_request(method, url, data)` after `history`: one request is sent and
        its response decoded. */
    function Exchange(history: seq<Request>, kind: Method, target: string, body: Option<Payload>): (run: Run<Value>)
    {
      var req := Prepare(kind, target, body);
      Run(Decode(transport(history, req), target), history + [req])
    }

    function GetOutcome(history: seq<Request>, resource: string, id: Option<Value>): (run: Run<Value>)
    {
      var run := Exchange(history, GET, BuildUrl(resource, id), None);
      Run(Wrap(Retrieve, run.result), run.sent)
    }

    function PostOutcome(history: seq<Request>, resource: string, data: Payload): (run: Run<Value>)
    {
      var run := Exchange(history, POST, BuildUrl(resource, None), Some(data));
      Run(Wrap(Create, run.result), run.sent)
    }

    function PatchOutcome(history: seq<Request>, resource: string, id: Value, data: Payload): (run: Run<Value>)
    {
      var run := Exchange(history, PATCH, BuildUrl(resource, Some(id)), Some(data));
      Run(Wrap(Update, run.result), run.sent)
    }

    function DeleteOutcome(history: seq<Request>, resource: string, id: Value): (run: Run<()>)
    {
      var run := Exchange(history, DELETE, BuildUrl(resource, Some(id)), None);
      match Wrap(Verb.Delete, run.result)
      case Success(_) => Run(Success(()), run.sent)
      case Failure(e) => Run(Failure(e), run.sent)
    }

    /** `is_authenticated()`: a GET of the bare base URL; an `HTTPError` means
        false, any other failure is raised. */
    function IsAuthenticatedOutcome(history: seq<Request>): (run: Run<bool>)
      ensures run.sent == history + [Prepare(GET, url, None)]
    {
      var run := Exchange(history, GET, url, None);
      match run.result
      case Success(_) => Run(Success(true), run.sent)
      case Failure(e) =>
        if e.HttpError? then Run(Success(false), run.sent) else Run(Failure(e), run.sent)
    }

    method Send(kind: Method, target: string, body: Option<Payload>) returns (r: Result<Value, Error>)
      modifies this
      ensures Run(r, sent) == Exchange(old(sent), kind, target, body)
    {
      var req := Prepare(kind, target, body);
      var response := transport(sent, req);
      sent := sent + [req];
      if 400 <= response.status < 600 {
        return Failure(HttpError(response.status, response.reason, target));
      }
      match response.content {
        case Empty => r := Success(Object(map[]));
        case Json(v) => r := Success(v);
        case Unparsable => r := Failure(UndecodableBody);
      }
    }

    method Get(resource: string, id: Option<Value>) returns (r: Result<Value, Error>)
      modifies this
      ensures Run(r, sent) == GetOutcome(old(sent), resource, id)
    {
      var u := BuildUrl(resource, id);
      r := Send(GET, u, None);
      if r.Failure? && r.error.HttpError? {
        r := Failure(RequestFailed(Retrieve, r.error.status, r.error.reason, r.error.url));
      }
    }

    method Post(resource: string, data: Payload) returns (r: Result<Value, Error>)
      modifies this
      ensures Run(r, sent) == PostOutcome(old(sent), resource, data)
    {
      var u := BuildUrl(resource, None);
      r := Send(POST, u, Some(data));
      if r.Failure? && r.error.HttpError? {
        r := Failure(RequestFailed(Create, r.error.status, r.error.reason, r.error.url));
      }
    }

    method Patch(resource: string, id: Value, data: Payload) returns (r: Result<Value, Error>)
      modifies this
      ensures Run(r, sent) == PatchOutcome(old(sent), resource, id, data)
    {
      var u := BuildUrl(resource, Some(id));
      r := Send(PATCH, u, Some(data));
      if r.Failure? && r.error.HttpError? {
        r := Failure(RequestFailed(Update, r.error.status, r.error.reason, r.error.url));
      }
    }

    method Delete(resource: string, id: Value) returns (r: Result<(), Error>)
      modifies this
      ensures Run(r, sent) == DeleteOutcome(old(sent), resource, id)
    {
      var u := BuildUrl(resource, Some(id));
      var answer := Send(DELETE, u, None);
      if answer.Success? {
        r := Success(());
      } else if answer.error.HttpError? {
        r := Failure(RequestFailed(Verb.Delete, answer.error.status, answer.error.reason, answer.error.url));
      } else {
        r := Failure(answer.error);
      }
    }

    method IsAuthenticated() returns (r: Result<bool, Error>)
      modifies this
      ensures Run(r, sent) == IsAuthenticatedOutcome(old(sent))
    {
      var answer := Send(GET, url, None);
      if answer.Success? {
        r := Success(true);
      } else if answer.error.HttpError? {
        r := Success(false);
      } else {
        r := Failure(answer.error);
      }
    }
  }

  // ---------------------------------------------------------------------------
  // Properties of the client

  /** The base URL keeps no trailing slash, and only slashes were removed. */
  lemma BaseUrlNormalised(http: HTTP, given: string)
    requires http.url == RStrip(given, '/')
    ensures |http.url| == 0 || http.url[|http.url| - 1] != '/'
    ensures given == http.url + given[|http.url|..]
    ensures forall i :: |http.url| <= i < |given| ==> given[i] == '/'
  {
    assert given == given[..|http.url|] + given[|http.url|..];
  }

  /** Two clients built from base URLs that differ only in trailing slashes
      send their requests to the same endpoints. */
  lemma TrailingSlashesIrrelevant(a: HTTP, b: HTTP, given: string, resource: string, id: Option<Value>)
    requires a.url == RStrip(given, '/') && b.url == RStrip(given + "/", '/')
    requires a.apiVersion == b.apiVersion
    ensures a.BuildUrl(resource, id) == b.BuildUrl(resource, id)
  {
    var s := given + "/";
    assert s[..|s| - 1] == given;
  }

  /** Every URL `_build_url` gives starts with the collection endpoint and
      ends with a slash; it extends the endpoint exactly when the identifier
      is truthy, and then by the identifier's text and a slash. */
  lemma BuildUrlShape(http: HTTP, resource: string, id: Option<Value>)
    ensures var u := http.BuildUrl(resource, id);
      var base := http.CollectionUrl(resource);
      && |u| >= |base| && u[..|base|] == base
      && |u| > 0 && u[|u| - 1] == '/'
      && ((id.Some? && Truthy(id.value)) <==> |u| > |base|)
      && (id.Some? && Truthy(id.value) ==> u[|base|..] == Display(id.value) + "/")
  {
    var u := http.BuildUrl(resource, id);
    var base := http.CollectionUrl(resource);
    assert u[..|base|] == base;
    if id.Some? && Truthy(id.value) {
      assert u[|base|..] == Display(id.value) + "/";
    }
  }

  /** An absent or falsy identifier addresses the collection itself. */
  lemma FalsyIdIsCollection(http: HTTP, resource: string, id: Option<Value>)
    requires id.None? || !Truthy(id.value)
    ensures http.BuildUrl(resource, id) == http.CollectionUrl(resource)
  {
  }

  /** Within one collection, truthy identifiers with different texts address
      different endpoints. */
  lemma ItemUrlsDistinct(http: HTTP, resource: string, a: Value, b: Value)
    requires Truthy(a) && Truthy(b) && Display(a) != Display(b)
    ensures http.BuildUrl(resource, Some(a)) != http.BuildUrl(resource, Some(b))
  {
    var n := |http.CollectionUrl(resource)|;
    SlashSuffixDistinct(Display(a), Display(b));
    BuildUrlShape(http, resource, Some(a));
    BuildUrlShape(http, resource, Some(b));
    assert http.BuildUrl(resource, Some(a))[n..] != http.BuildUrl(resource, Some(b))[n..];
  }

  lemma SlashSuffixDistinct(x: string, y: string)
    requires x != y
    ensures x + "/" != y + "/"
  {
    assert (x + "/")[..|x|] == x;
    assert (y + "/")[..|y|] == y;
  }

  /** Every request a client sends carries its TLS setting and credentials. */
  lemma CredentialsOnEveryRequest(http: HTTP, history: seq<Request>, kind: Method, target: string, body: Option<Payload>)
    ensures var run := http.Exchange(history, kind, target, body);
      && run.sent[..|history|] == history
      && |run.sent| == |history| + 1
      && run.sent[|history|].auth == http.auth
      && run.sent[|history|].verify == http.verify
  {
  }

  /** An error status makes each verb raise its own `ValueError`,
      "Failed to <verb> resource: ...", carrying the status and reason of the
      response and the URL the verb requested. */
  lemma VerbErrors(http: HTTP, history: seq<Request>, resource: string, id: Value, data: Payload)
    ensures var u := http.BuildUrl(resource, Some(id));
      var response := http.transport(history, http.Prepare(GET, u, None));
      400 <= response.status < 600 ==>
        http.GetOutcome(history, resource, Some(id)).result
          == Failure(RequestFailed(Retrieve, response.status, response.reason, u))
    ensures var u := http.CollectionUrl(resource);
      var response := http.transport(history, http.Prepare(POST, u, Some(data)));
      400 <= response.status < 600 ==>
        http.PostOutcome(history, resource, data).result
          == Failure(RequestFailed(Create, response.status, response.reason, u))
    ensures var u := http.BuildUrl(resource, Some(id));
      var response := http.transport(history, http.Prepare(PATCH, u, Some(data)));
      400 <= response.status < 600 ==>
        http.PatchOutcome(history, resource, id, data).result
          == Failure(RequestFailed(Update, response.status, response.reason, u))
    ensures var u := http.BuildUrl(resource, Some(id));
      var response := http.transport(history, http.Prepare(DELETE, u, None));
      400 <= response.status < 600 ==>
        http.DeleteOutcome(history, resource, id).result
          == Failure(RequestFailed(Verb.Delete, response.status, response.reason, u))
  {
  }

  /** No verb lets an `HTTPError` through: whatever a verb raises is a
      `ValueError`. */
  lemma VerbsRaiseValueErrors(http: HTTP, history: seq<Request>, resource: string, id: Option<Value>, data: Payload)
    ensures var r := http.GetOutcome(history, resource, id).result;
      r.Failure? ==> r.error.IsValueError()
    ensures var r := http.PostOutcome(history, resource, data).result;
      r.Failure? ==> r.error.IsValueError()
    ensures id.Some? ==> var r := http.PatchOutcome(history, resource, id.value, data).result;
      r.Failure? ==> r.error.IsValueError()
    ensures id.Some? ==> var r := http.DeleteOutcome(history, resource, id.value).result;
      r.Failure? ==> r.error.IsValueError()
  {
  }

  /** `is_authenticated` asks the bare base URL and answers true for a
      decodable success and false for an error status. */
  lemma IsAuthenticatedAnswers(http: HTTP, history: seq<Request>)
    ensures var response := http.transport(history, http.Prepare(GET, http.url, None));
      var r := http.IsAuthenticatedOutcome(history).result;
      && (400 <= response.status < 600 ==> r == Success(false))
      && (!(400 <= response.status < 600) && !response.content.Unparsable? ==> r == Success(true))
      && (!(400 <= response.status < 600) && response.content.Unparsable? ==> r == Failure(UndecodableBody))
  {
  }
}
