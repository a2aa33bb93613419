/** The exceptions the library raises or lets through, as values. */
module Errors {

  /** The four request verbs of the HTTP wrapper, named by what they do to a resource. */
  datatype Verb = Retrieve | Create | Update | Delete {
    function Word(): (w: string)
      ensures |w| >= 6
    {
      match this
      case Retrieve => "retrieve"
      case Create => "create"
      case Update => "update"
      case Delete => "delete"
    }

    /** The text that opens the message of a request failed with this verb. */
    function FailurePrefix(): (p: string)
      ensures |p| > 10 && p[10] == Word()[0]
    {
      var p := "Failed to " + Word() + " resource";
      assert p[10] == ("Failed to " + Word())[10];
      p
    }
  }

  datatype Error =
      /** `requests.HTTPError`, raised by `raise_for_status` for a 4xx or 5xx status. */
    | HttpError(status: int, reason: string, url: string)
      /** The JSON decoding error of `response.json()`; a `ValueError`. */
    | UndecodableBody
      /** `ValueError("Failed to <verb> resource: <HTTPError>")` from a verb of the HTTP wrapper. */
    | RequestFailed(verb: Verb, status: int, reason: string, url: string)
      /** `ValueError("Resource with name '<name>' not found.")` from the name lookup. */
    | NotFound(name: string)
      /** `ValueError("Model is not set for this resource.")` from create and update. */
    | ModelNotSet
      /** The `KeyError` or `TypeError` raised when a collection response is not a
          `{"results": [{"id": ..., "name": ...}, ...]}` page. */
    | MalformedListing
      /** `ValueError("Authentication failed: ...")` from the client's credential choice. */
    | MissingCredentials
  {
    /** Whether the exception is a `ValueError` (what `except ValueError` catches). */
    predicate IsValueError() {
      !HttpError? && !MalformedListing?
    }

    /** The exceptions whose text the library writes itself. */
    predicate OwnMessage() {
      RequestFailed? || NotFound? || ModelNotSet? || MissingCredentials?
    }

    function Message(): (m: string)
      requires OwnMessage()
    {
      match this
      case RequestFailed(verb, status, reason, url) =>
        verb.FailurePrefix() + ": " + HttpErrorText(status, reason, url)
      case NotFound(name) => "Resource with name '" + name + "' not found."
      case ModelNotSet => "Model is not set for this resource."
      case MissingCredentials =>
        "Authentication failed: Either token or both username and password must be provided"
    }
  }

  /** The text `requests` gives an `HTTPError` raised by `raise_for_status`. */
  function HttpErrorText(status: int, reason: string, url: string): string {
    IntText(status) + (if status < 500 then " Client Error: " else " Server Error: ")
    + reason + " for url: " + url
  }

  /** Python's `str()` of an integer. */
  function IntText(i: int): string {
    if i < 0 then "-" + NatText(-i) else NatText(i)
  }

  function NatText(n: nat): (s: string)
    ensures |s| >= 1
    ensures forall k :: 0 <= k < |s| ==> '0' <= s[k] <= '9'
  {
    if n < 10 then [Digit(n)] else NatText(n / 10) + [Digit(n % 10)]
  }

  function Digit(d: nat): (c: char)
    requires d < 10
    ensures '0' <= c <= '9'
  {
    match d
    case 0 => '0' case 1 => '1' case 2 => '2' case 3 => '3' case 4 => '4'
    case 5 => '5' case 6 => '6' case 7 => '7' case 8 => '8' case _ => '9'
  }

  /** Proof step: the message of a failed request unfolded. */
  lemma RequestFailedShape(v: Verb, status: int, reason: string, url: string)
    ensures RequestFailed(v, status, reason, url).Message()
         == v.FailurePrefix() + (": " + HttpErrorText(status, reason, url))
  {
  }

  /** The message of a failed request starts with "Failed to <verb> resource". */
  lemma RequestFailedPrefix(v: Verb, status: int, reason: string, url: string)
    ensures var p := v.FailurePrefix();
            RequestFailed(v, status, reason, url).Message()[..|p|] == p
  {
    RequestFailedShape(v, status, reason, url);
    PrefixOfConcat(v.FailurePrefix(), ": " + HttpErrorText(status, reason, url));
  }

  /** The four verbs are told apart by their failure message alone. */
  lemma RequestFailedMessagesDiffer(v: Verb, w: Verb, status: int, reason: string, url: string,
                                    status': int, reason': string, url': string)
    requires v != w
    ensures RequestFailed(v, status, reason, url).Message() != RequestFailed(w, status', reason', url').Message()
  {
    RequestFailedShape(v, status, reason, url);
    RequestFailedShape(w, status', reason', url');
    var m := RequestFailed(v, status, reason, url).Message();
    var m' := RequestFailed(w, status', reason', url').Message();
    assert v.Word()[0] != w.Word()[0];
    assert m[10] == v.FailurePrefix()[10];
    assert m'[10] == w.FailurePrefix()[10];
  }

  /** Proof step: a text is a prefix of itself followed by anything. */
  lemma PrefixOfConcat(p: string, t: string)
    ensures (p + t)[..|p|] == p
  {
    assert forall k :: 0 <= k < |p| ==> (p + t)[..|p|][k] == p[k];
  }

  /** The not-found message names the resource that was looked up: two lookups
      that fail with the same text were for the same name. */
  lemma {:induction false} NotFoundMessageNamesResource(a: string, b: string)
    requires NotFound(a).Message() == NotFound(b).Message()
    ensures a == b
  {
    var pre, post := "Resource with name '", "' not found.";
    var ma, mb := NotFound(a).Message(), NotFound(b).Message();
    assert ma == pre + a + post && mb == pre + b + post;
    assert |a| == |b|;
    assert a == ma[|pre|..|pre| + |a|];
    assert b == mb[|pre|..|pre| + |b|];
  }
}
