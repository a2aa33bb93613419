/** The client: it picks the authentication mechanism from the credentials
    given, and wires one HTTP client for API version "v2" into the job
    template and workflow job template resources. */
module Clients {
  import opened Wrappers
  import opened Errors
  import opened Authentication
  import opened Http
  import opened Models
  import opened Resources

  /** The API version every client talks to. */
  const ApiVersion: string := "v2"

  /** Python truthiness of an optional string argument: given and non-empty. */
  predicate Given(s: Option<string>) {
    s.Some? && s.value != ""
  }

  /** `_authenticate(username, password, token)`: a token wins over a
      username and password; without a token both of those are needed;
      otherwise the credentials are missing. */
  function Authenticate(username: Option<string>, password: Option<string>, token: Option<string>): (r: Result<Auth, Error>)
    ensures r.Success? && r.value.OAuth2? <==> Given(token)
    ensures r.Success? && r.value.BasicAuth? <==> !Given(token) && Given(username) && Given(password)
    ensures r.Failure? ==> r.error == MissingCredentials && r.error.IsValueError()
    ensures r.Success? ==> match r.value
      case OAuth2(t) => Some(t) == token
      case BasicAuth(u, p) => Some(u) == username && Some(p) == password
  {
    if Given(token) then Success(OAuth2(token.value))
    else if Given(username) && Given(password) then Success(BasicAuth(username.value, password.value))
    else Failure(MissingCredentials)
  }

  /** A token decides the mechanism whatever else is given, and an empty
      token counts as no token at all. */
  lemma TokenPrecedence(username: Option<string>, password: Option<string>, t: string)
    ensures t != "" ==> Authenticate(username, password, Some(t)) == Success(OAuth2(t))
    ensures t == "" ==> Authenticate(username, password, Some(t)) == Authenticate(username, password, None)
  {
  }

  /** A client: its authentication, its HTTP client, and the two resources,
      which share that HTTP client. */
  class Client {
    const auth: Auth
    const httpClient: HTTP
    const jobTemplate: Adapter
    const workflowJobTemplate: Adapter

    /** The wiring of `__init__` once the authentication is chosen. */
    constructor(url: string, auth: Auth, verifyTls: bool, transport: Transport)
      ensures this.auth == auth
      ensures fresh(httpClient) && fresh(jobTemplate) && fresh(workflowJobTemplate)
      ensures httpClient.url == RStrip(url, '/') && httpClient.apiVersion == ApiVersion
      ensures httpClient.auth == auth && httpClient.verify == verifyTls && httpClient.transport == transport
      ensures httpClient.sent == []
      ensures jobTemplate.http == httpClient && workflowJobTemplate.http == httpClient
      ensures jobTemplate.resource == "job_templates" && jobTemplate.model == Some(JobTemplateModel)
      ensures workflowJobTemplate.resource == "workflow_job_templates"
      ensures workflowJobTemplate.model == Some(WorkflowJobTemplateModel)
    {
      this.auth := auth;
      var h := new HTTP(url, ApiVersion, auth, verifyTls, transport);
      httpClient := h;
      var jt := JobTemplateResource(h);
      var wf := WorkflowJobTemplateResource(h);
      jobTemplate := jt;
      workflowJobTemplate := wf;
    }
  }

  /** `Client(url, username, password, token, verify_tls)`: construction
      fails, before anything is built, exactly when the credentials are
      missing; otherwise the client uses the chosen authentication. */
  method NewClient(url: string, username: Option<string>, password: Option<string>, token: Option<string>,
                   verifyTls: bool, transport: Transport) returns (r: Result<Client, Error>)
    ensures r.Success? <==> Authenticate(username, password, token).Success?
    ensures r.Failure? ==> r.error == MissingCredentials
    ensures r.Success? ==>
      && fresh(r.value) && fresh(r.value.httpClient)
      && r.value.auth == Authenticate(username, password, token).value
      && r.value.httpClient.auth == r.value.auth
      && r.value.httpClient.url == RStrip(url, '/') && r.value.httpClient.apiVersion == ApiVersion
      && r.value.httpClient.verify == verifyTls && r.value.httpClient.sent == []
      && r.value.jobTemplate.http == r.value.httpClient && r.value.workflowJobTemplate.http == r.value.httpClient
  {
    var auth := Authenticate(username, password, token);
    if auth.Failure? {
      return Failure(auth.error);
    }
    var client := new Client(url, auth.value, verifyTls, transport);
    return Success(client);
  }
}
