/**
 * `FileProvider`: moves files to and from a datastore over HTTPS. A healthy
 * host is picked among the datastore's host mounts, a service ticket is
 * requested for the file's URL, and the request is sent under a bounded retry
 * loop that classifies every response.
 */
module FileTransfer {
  import opened Wrappers
  import opened Text
  import opened Http

  // ----- Inventory -----

  /** A host's runtime record; `connectionState` is written by host selection. */
  class HostRuntime {
    var inMaintenanceMode: bool
    var powerState: string
    var connectionState: string

    constructor (inMaintenanceMode: bool, powerState: string, connectionState: string)
      ensures this.inMaintenanceMode == inMaintenanceMode
      ensures this.powerState == powerState && this.connectionState == connectionState
    {
      this.inMaintenanceMode := inMaintenanceMode;
      this.powerState := powerState;
      this.connectionState := connectionState;
    }
  }

  class HostSystem {
    const name: string
    const runtime: HostRuntime

    constructor (name: string, runtime: HostRuntime)
      ensures this.name == name && this.runtime == runtime
    {
      this.name := name;
      this.runtime := runtime;
    }
  }

  /** A mount of the datastore on a host; `key` is the host. */
  datatype HostMount = HostMount(key: HostSystem)

  class Datastore {
    const name: string
    /** The datastore's host mounts, in inventory order. */
    const host: seq<HostMount>

    constructor (name: string, host: seq<HostMount>)
      ensures this.name == name && this.host == host
    {
      this.name := name;
      this.host := host;
    }
  }

  function Runtimes(mounts: seq<HostMount>): set<HostRuntime> {
    set m | m in mounts :: m.key.runtime
  }

  /**
   * The test in `detect`'s block. Its third conjunct assigns 'connected' to the
   * connection state instead of comparing it, and the assigned string is truthy,
   * so the connection state plays no part in the test.
   */
  predicate Qualifies(runtime: HostRuntime)
    reads runtime
  {
    !runtime.inMaintenanceMode && runtime.powerState == "poweredOn"
  }

  /** The index of the first mount whose host qualifies. */
  function FirstQualifying(mounts: seq<HostMount>): (r: Option<nat>)
    reads Runtimes(mounts)
    ensures r.Some? ==> r.value < |mounts| && Qualifies(mounts[r.value].key.runtime)
    ensures r.Some? ==> forall j :: 0 <= j < r.value ==> !Qualifies(mounts[j].key.runtime)
    ensures r.None? <==> forall j :: 0 <= j < |mounts| ==> !Qualifies(mounts[j].key.runtime)
  {
    if mounts == [] then None
    else if Qualifies(mounts[0].key.runtime) then Some(0)
    else
      assert Runtimes(mounts[1..]) <= Runtimes(mounts) by {
        forall m | m in mounts[1..] ensures m in mounts { }
      }
      match FirstQualifying(mounts[1..])
      case Some(i) => Some(i + 1)
      case None => None
  }

  /**
   * `datastore.host.detect { ... }.key`: the first qualifying mount's host.
   * Evaluating the block on that mount writes 'connected' into its host's
   * connection state; the mounts before it stop at the first two conjuncts, and
   * the mounts after it are not visited.
   */
  method SelectHost(mounts: seq<HostMount>) returns (host: Option<HostSystem>)
    modifies Runtimes(mounts)
    ensures var i := old(FirstQualifying(mounts));
      host == if i.Some? then Some(mounts[i.value].key) else None
    ensures host.Some? ==> host.value.runtime.connectionState == "connected"
    ensures forall rt | rt in Runtimes(mounts) ::
      rt.inMaintenanceMode == old(rt.inMaintenanceMode) && rt.powerState == old(rt.powerState)
    ensures forall rt | rt in Runtimes(mounts) && (host.None? || rt != host.value.runtime) ::
      rt.connectionState == old(rt.connectionState)
  {
    var i := 0;
    while i < |mounts|
      invariant i <= |mounts|
      invariant forall j :: 0 <= j < i ==> !Qualifies(mounts[j].key.runtime)
    {
      var runtime := mounts[i].key.runtime;
      if !runtime.inMaintenanceMode && runtime.powerState == "poweredOn" {
        runtime.connectionState := "connected";
        return Some(mounts[i].key);
      }
      i := i + 1;
    }
    return None;
  }

  // ----- Requests -----

  const Scheme := "https://"
  const FolderMark := "/folder/"
  const QueryMark := "?dsName="

  /** The address of a file on a datastore, reached through one of its hosts. */
  function DatastoreUrl(hostName: string, path: string, escapedName: string): string {
    Scheme + (hostName + (FolderMark + (path + (QueryMark + escapedName))))
  }

  function DropPrefix(prefix: string, s: string): (r: Option<string>)
    ensures r.Some? ==> prefix + r.value == s
  {
    if prefix <= s then Some(s[|prefix|..]) else None
  }

  /** Cuts `s` before the first `sep` (at its end when there is none). */
  function CutAt(s: string, sep: char): (r: (string, string))
    ensures r.0 + r.1 == s && sep !in r.0
    ensures r.1 != [] ==> r.1[0] == sep
  {
    var i := IndexOf(s, sep);
    (s[..i], s[i..])
  }

  /** Reads host name, path and escaped datastore name back out of a datastore URL. */
  function SplitDatastoreUrl(url: string): (r: Option<(string, string, string)>)
    ensures r.Some? ==> DatastoreUrl(r.value.0, r.value.1, r.value.2) == url
  {
    match DropPrefix(Scheme, url)
    case None => None
    case Some(rest) =>
      var (hostName, tail) := CutAt(rest, '/');
      match DropPrefix(FolderMark, tail)
      case None => None
      case Some(pathAndQuery) =>
        var (path, query) := CutAt(pathAndQuery, '?');
        match DropPrefix(QueryMark, query)
        case None => None
        case Some(escapedName) => Some((hostName, path, escapedName))
  }

  lemma DropPrefixConcat(prefix: string, s: string)
    ensures DropPrefix(prefix, prefix + s) == Some(s)
  {
    assert (prefix + s)[..|prefix|] == prefix;
  }

  lemma CutAtConcat(a: string, b: string, sep: char)
    requires sep !in a && |b| > 0 && b[0] == sep
    ensures CutAt(a + b, sep) == (a, b)
  {
    assert (a + b)[|a|] == sep;
    assert IndexOf(a + b, sep) == |a|;
  }

  /** With no '/' in the host name and no '?' in the path, the URL determines all three parts. */
  lemma SplitDatastoreUrlInverts(hostName: string, path: string, escapedName: string)
    requires '/' !in hostName && '?' !in path
    ensures SplitDatastoreUrl(DatastoreUrl(hostName, path, escapedName)) == Some((hostName, path, escapedName))
  {
    var query := QueryMark + escapedName;
    var tail := FolderMark + (path + query);
    DropPrefixConcat(Scheme, hostName + tail);
    assert FolderMark[0] == '/';
    CutAtConcat(hostName, tail, '/');
    DropPrefixConcat(FolderMark, path + query);
    assert QueryMark[0] == '?';
    CutAtConcat(path, query, '?');
    DropPrefixConcat(QueryMark, escapedName);
  }

  /** `Content-Length` is set from the body's byte length only when there is a body. */
  function BaseHeaders(body: Option<Bytes>): Headers {
    if body.None? then map[] else map["Content-Length" := IntegerHeader(|body.value|)]
  }

  /** `base_headers.merge(headers)`: the caller's headers win over `Content-Length`. */
  function RequestHeaders(body: Option<Bytes>, headers: Headers): (r: Headers)
    ensures r.Keys == headers.Keys + (if body.Some? then {"Content-Length"} else {})
    ensures forall k :: k in headers ==> k in r && r[k] == headers[k]
    ensures body.Some? && "Content-Length" !in headers ==> r["Content-Length"] == IntegerHeader(|body.value|)
    ensures body.None? ==> r == headers
  {
    BaseHeaders(body) + headers
  }

  datatype ProviderError =
    | NoHealthyHost                         // `.key` sent to the nil that `detect` returned
    | InvalidRequestType(requestType: string)
    | TransferFailed(message: string)

  function Message(e: ProviderError): string {
    match e
    case NoHealthyHost => "undefined method `key' for nil:NilClass"
    case InvalidRequestType(t) => "Invalid request type: " + t + "."
    case TransferFailed(m) => m
  }

  /** The request that `do_request` dispatches for a request type; GET carries no body. */
  function MakeRequest(requestType: string, url: string, body: Option<Bytes>, headers: Headers): (r: Result<Request, ProviderError>)
    ensures r.Failure? <==> requestType != "GET" && requestType != "POST" && requestType != "PUT"
    ensures r.Failure? ==> r.error == InvalidRequestType(requestType)
    ensures r.Success? ==> r.value.url == url && r.value.headers == headers
    ensures r.Success? ==> (r.value.Get? <==> requestType == "GET") && (r.value.Post? <==> requestType == "POST")
    ensures r.Success? && !r.value.Get? ==> r.value.body == body
  {
    if requestType == "GET" then Success(Get(url, headers))
    else if requestType == "POST" then Success(Post(url, body, headers))
    else if requestType == "PUT" then Success(Put(url, body, headers))
    else Failure(InvalidRequestType(requestType))
  }

  // ----- Attempts and retries -----

  /** The pair an attempt hands to the retryer: a result (nil or a response) and an error (nil or a message). */
  datatype Attempt = Attempt(response: Option<Response>, error: Option<string>)

  function TransferError(url: string, code: nat): string {
    "Could not transfer file '" + url + "', received status code '" + ShowNat(code) + "'"
  }

  /** One attempt's outcome: 404 is acceptable (with no response) when allowed; any other code of 400 or more is an error. */
  function Classify(response: Response, url: string, allowNotFound: bool): (a: Attempt)
    ensures a.error.None? <==> response.code < 400 || (response.code == 404 && allowNotFound)
    ensures a.response.Some? <==> response.code < 400
    ensures a.response.Some? ==> a.response.value == response
    ensures a.error.Some? ==> a.error.value == TransferError(url, response.code) && a.response.None?
  {
    if response.code == 404 && allowNotFound then Attempt(None, None)
    else if response.code >= 400 then Attempt(None, Some(TransferError(url, response.code)))
    else Attempt(Some(response), None)
  }

  /** The status code of the response to request number `start + j`. */
  function StatusAt(reply: nat -> Response, start: nat, j: nat): nat {
    reply(start + j).code
  }

  /** Whether the attempt that receives `reply(start + j)` ends the retry loop. */
  predicate Accepted(reply: nat -> Response, start: nat, j: nat, url: string, allowNotFound: bool) {
    StatusAt(reply, start, j) < 400 || (StatusAt(reply, start, j) == 404 && allowNotFound)
  }

  type Budget = n: nat | 1 <= n witness 1

  /** What the retry loop yields, and how many attempts it made. */
  datatype Retried = Retried(result: Result<Option<Response>, string>, attempts: nat)

  /**
   * The retry loop over the responses `reply(start)`, `reply(start + 1)`, ...:
   * it stops at the first accepted attempt, or after `budget` rejected ones with
   * the last attempt's error.
   */
  function Retry(reply: nat -> Response, start: nat, budget: Budget, url: string, allowNotFound: bool): (r: Retried)
    ensures 1 <= r.attempts <= budget
    ensures r.result.Failure? ==> r.attempts == budget
    ensures r.result.Success? ==> Accepted(reply, start, r.attempts - 1, url, allowNotFound)
    ensures r.result.Failure? ==> !Accepted(reply, start, budget - 1, url, allowNotFound)
    decreases budget
  {
    var a := Classify(reply(start), url, allowNotFound);
    if a.error.None? then Retried(Success(a.response), 1)
    else if budget == 1 then Retried(Failure(a.error.value), 1)
    else
      var rest := Retry(reply, start + 1, budget - 1, url, allowNotFound);
      rest.(attempts := rest.attempts + 1)
  }

  /** Shifting the start of the responses by one shifts the attempt index by one. */
  lemma AcceptedShift(reply: nat -> Response, start: nat, j: nat, url: string, allowNotFound: bool)
    ensures Accepted(reply, start + 1, j, url, allowNotFound) == Accepted(reply, start, j + 1, url, allowNotFound)
  {
    assert start + 1 + j == start + (j + 1);
  }

  /** After `k` rejected attempts, the first accepted one is the loop's result. */
  lemma {:induction false} RetryAcceptsFirst(reply: nat -> Response, start: nat, budget: Budget, url: string, allowNotFound: bool, k: nat)
    requires k < budget && Accepted(reply, start, k, url, allowNotFound)
    requires forall j :: 0 <= j < k ==> !Accepted(reply, start, j, url, allowNotFound)
    ensures Retry(reply, start, budget, url, allowNotFound) ==
      Retried(Success(Classify(reply(start + k), url, allowNotFound).response), k + 1)
    decreases k
  {
    if k > 0 {
      assert !Accepted(reply, start, 0, url, allowNotFound);
      var next := start + 1;
      forall j | 0 <= j < k - 1 ensures !Accepted(reply, next, j, url, allowNotFound) {
        AcceptedShift(reply, start, j, url, allowNotFound);
      }
      AcceptedShift(reply, start, k - 1, url, allowNotFound);
      RetryAcceptsFirst(reply, next, budget - 1, url, allowNotFound, k - 1);
      assert next + (k - 1) == start + k;
      assert Classify(reply(start), url, allowNotFound).error.Some?;
    }
  }

  /** When every attempt is rejected, the loop makes all of them and reports the last one's error. */
  lemma {:induction false} RetryRejectsAll(reply: nat -> Response, start: nat, budget: Budget, url: string, allowNotFound: bool)
    requires forall j :: 0 <= j < budget ==> !Accepted(reply, start, j, url, allowNotFound)
    ensures Retry(reply, start, budget, url, allowNotFound) ==
      Retried(Failure(TransferError(url, reply(start + budget - 1).code)), budget)
    decreases budget
  {
    assert !Accepted(reply, start, 0, url, allowNotFound);
    if budget > 1 {
      var next := start + 1;
      forall j | 0 <= j < budget - 1 ensures !Accepted(reply, next, j, url, allowNotFound) {
        AcceptedShift(reply, start, j, url, allowNotFound);
      }
      RetryRejectsAll(reply, start + 1, budget - 1, url, allowNotFound);
    }
  }

  /** The loop fails only when all `budget` attempts were rejected; it never makes more than `budget`. */
  lemma {:induction false} RetryFailsOnlyWhenAllRejected(reply: nat -> Response, start: nat, budget: Budget, url: string, allowNotFound: bool)
    ensures 1 <= Retry(reply, start, budget, url, allowNotFound).attempts <= budget
    ensures Retry(reply, start, budget, url, allowNotFound).result.Failure? ==>
      Retry(reply, start, budget, url, allowNotFound).attempts == budget &&
      forall j :: 0 <= j < budget ==> !Accepted(reply, start, j, url, allowNotFound)
    decreases budget
  {
    if Accepted(reply, start, 0, url, allowNotFound) || budget == 1 {
    } else {
      RetryFailsOnlyWhenAllRejected(reply, start + 1, budget - 1, url, allowNotFound);
      if Retry(reply, start, budget, url, allowNotFound).result.Failure? {
        forall j | 0 <= j < budget ensures !Accepted(reply, start, j, url, allowNotFound) {
          if j > 0 {
            AcceptedShift(reply, start, j - 1, url, allowNotFound);
          }
        }
      }
    }
  }

  // ----- Dispatch -----

  /** `n` copies of one request. */
  function Repeat(request: Request, n: nat): (r: seq<Request>)
    ensures |r| == n && forall k :: 0 <= k < n ==> r[k] == request
  {
    if n == 0 then [] else Repeat(request, n - 1) + [request]
  }

  /** What one `do_request` call returns, and the requests it sends. */
  datatype Exchange = Exchange(result: Result<Option<Response>, ProviderError>, sent: seq<Request>)

  /**
   * `do_request` against a client whose next request is number `start`:
   * headers are merged, the request type is dispatched (an unknown one raises
   * before anything is sent), and the same request is sent once per attempt.
   */
  function Transfer(requestType: string, url: string, body: Option<Bytes>, headers: Headers, allowNotFound: bool,
                    reply: nat -> Response, start: nat, budget: Budget): (x: Exchange)
    ensures x.sent == [] <==> MakeRequest(requestType, url, body, RequestHeaders(body, headers)).Failure?
    ensures x.result.Failure? && x.sent == [] ==> x.result.error == InvalidRequestType(requestType)
    ensures |x.sent| <= budget
  {
    match MakeRequest(requestType, url, body, RequestHeaders(body, headers))
    case Failure(e) => Exchange(Failure(e), [])
    case Success(request) => Resend(request, url, allowNotFound, reply, start, budget)
  }

  /** The retry loop around one request: it is sent once per attempt. */
  function Resend(request: Request, url: string, allowNotFound: bool, reply: nat -> Response, start: nat, budget: Budget): (x: Exchange)
    ensures 1 <= |x.sent| <= budget && forall k :: 0 <= k < |x.sent| ==> x.sent[k] == request
    ensures x.result.Failure? <==> |x.sent| == budget && !Accepted(reply, start, budget - 1, url, allowNotFound)
  {
    var run := Retry(reply, start, budget, url, allowNotFound);
    var result := match run.result
      case Success(response) => Success(response)
      case Failure(message) => Failure(TransferFailed(message));
    Exchange(result, Repeat(request, run.attempts))
  }

  /** An unknown request type raises "Invalid request type: <type>." and sends nothing. */
  lemma InvalidRequestTypeSendsNothing(requestType: string, url: string, body: Option<Bytes>, headers: Headers,
                                       allowNotFound: bool, reply: nat -> Response, start: nat, budget: Budget)
    requires requestType != "GET" && requestType != "POST" && requestType != "PUT"
    ensures Transfer(requestType, url, body, headers, allowNotFound, reply, start, budget) ==
      Exchange(Failure(InvalidRequestType(requestType)), [])
    ensures Message(InvalidRequestType(requestType)) == "Invalid request type: " + requestType + "."
  {
  }

  /** A fetch whose first response is a 404 returns nil, not an error, after one request. */
  lemma NotFoundIsNil(url: string, headers: Headers, reply: nat -> Response, start: nat, budget: Budget)
    requires reply(start).code == 404
    ensures Transfer("GET", url, None, headers, true, reply, start, budget) ==
      Exchange(Success(None), [Get(url, headers)])
  {
  }

  /**
   * A failed transfer sent the request `budget` times, every response was
   * rejected, and the error names the URL and the last status code.
   */
  lemma TransferFailure(requestType: string, url: string, body: Option<Bytes>, headers: Headers, allowNotFound: bool,
                        reply: nat -> Response, start: nat, budget: Budget)
    requires requestType == "GET" || requestType == "POST" || requestType == "PUT"
    requires Transfer(requestType, url, body, headers, allowNotFound, reply, start, budget).result.Failure?
    ensures var x := Transfer(requestType, url, body, headers, allowNotFound, reply, start, budget);
      && |x.sent| == budget
      && (forall j :: 0 <= j < budget ==> StatusAt(reply, start, j) >= 400)
      && (forall j :: 0 <= j < budget ==> !(allowNotFound && StatusAt(reply, start, j) == 404))
      && x.result.error == TransferFailed(TransferError(url, reply(start + budget - 1).code))
  {
    RetryFailsOnlyWhenAllRejected(reply, start, budget, url, allowNotFound);
    RetryRejectsAll(reply, start, budget, url, allowNotFound);
    forall j | 0 <= j < budget
      ensures StatusAt(reply, start, j) >= 400 && !(allowNotFound && StatusAt(reply, start, j) == 404)
    {
      assert !Accepted(reply, start, j, url, allowNotFound);
    }
  }

  /** Every request a transfer sends is the same one, carrying the merged headers. */
  lemma TransferResendsSameRequest(requestType: string, url: string, body: Option<Bytes>, headers: Headers, allowNotFound: bool,
                                reply: nat -> Response, start: nat, budget: Budget)
    requires requestType == "GET" || requestType == "POST" || requestType == "PUT"
    ensures var x := Transfer(requestType, url, body, headers, allowNotFound, reply, start, budget);
      1 <= |x.sent| <= budget &&
      forall k :: 0 <= k < |x.sent| ==> x.sent[k] == MakeRequest(requestType, url, body, RequestHeaders(body, headers)).value
  {
    RetryFailsOnlyWhenAllRejected(reply, start, budget, url, allowNotFound);
  }

  /** An upload's 404 is not special-cased: when every response is a 404 the upload fails after `budget` requests. */
  lemma {:induction false} UploadNotFoundFails(url: string, contents: Bytes, headers: Headers, reply: nat -> Response, start: nat, budget: Budget)
    requires forall j :: 0 <= j < budget ==> StatusAt(reply, start, j) == 404
    ensures var x := Transfer("PUT", url, Some(contents), headers, false, reply, start, budget);
      x.result == Failure(TransferFailed(TransferError(url, 404))) && |x.sent| == budget
  {
    forall j | 0 <= j < budget ensures !Accepted(reply, start, j, url, false) {
      assert StatusAt(reply, start, j) == 404;
    }
    RetryRejectsAll(reply, start, budget, url, false);
    assert StatusAt(reply, start, budget - 1) == 404;
  }

  // ----- The provider -----

  /** The headers of a datastore transfer: an octet stream, authenticated by the ticket's cookie. */
  function TicketHeaders(ticket: Ticket): Headers {
    map["Content-Type" := StringHeader("application/octet-stream"),
        "Cookie" := StringHeader("vmware_cgi_ticket=" + ticket.id)]
  }

  /** A datastore upload carries the payload's length, the octet-stream type and the ticket cookie, and nothing else. */
  lemma UploadHeaders(contents: Bytes, ticket: Ticket)
    ensures RequestHeaders(Some(contents), TicketHeaders(ticket)) ==
      map["Content-Length" := IntegerHeader(|contents|),
          "Content-Type" := StringHeader("application/octet-stream"),
          "Cookie" := StringHeader("vmware_cgi_ticket=" + ticket.id)]
  {
  }

  class FileProvider {
    const http: HttpClient
    const vcenterHost: string
    /** The session manager of the vSphere client's service content. */
    const sessionManager: SessionManager
    /** How many attempts the retryer makes at most. */
    const maxAttempts: Budget
    /** URL-escaping of the datastore name. */
    const escape: string -> string

    constructor (http: HttpClient, vcenterHost: string, sessionManager: SessionManager,
                 maxAttempts: Budget, escape: string -> string)
      ensures this.http == http && this.vcenterHost == vcenterHost && this.sessionManager == sessionManager
      ensures this.maxAttempts == maxAttempts && this.escape == escape
    {
      this.http := http;
      this.vcenterHost := vcenterHost;
      this.sessionManager := sessionManager;
      this.maxAttempts := maxAttempts;
      this.escape := escape;
    }

    /**
     * The retryer around one request: it sends the request and classifies the
     * response until an attempt is accepted or `maxAttempts` attempts were made.
     */
    method TryRequest(request: Request, url: string, allowNotFound: bool) returns (result: Result<Option<Response>, string>)
      modifies http
      ensures var run := Retry(http.reply, |old(http.sent)|, maxAttempts, url, allowNotFound);
        result == run.result && http.sent == old(http.sent) + Repeat(request, run.attempts)
    {
      ghost var start := |http.sent|;
      ghost var sentBefore := http.sent;
      var attempt := 0;
      var lastError := "";
      while attempt < maxAttempts
        invariant attempt <= maxAttempts
        invariant http.sent == sentBefore + Repeat(request, attempt)
        invariant forall j :: 0 <= j < attempt ==> !Accepted(http.reply, start, j, url, allowNotFound)
        invariant attempt > 0 ==> lastError == TransferError(url, StatusAt(http.reply, start, attempt - 1))
      {
        var response := http.Send(request);
        assert response == http.reply(start + attempt);
        var outcome := Classify(response, url, allowNotFound);
        if outcome.error.None? {
          RetryAcceptsFirst(http.reply, start, maxAttempts, url, allowNotFound, attempt);
          return Success(outcome.response);
        }
        lastError := outcome.error.value;
        attempt := attempt + 1;
      }
      RetryRejectsAll(http.reply, start, maxAttempts, url, allowNotFound);
      return Failure(lastError);
    }

    method DoRequest(requestType: string, url: string, body: Option<Bytes>, headers: Headers, allowNotFound: bool)
      returns (r: Result<Option<Response>, ProviderError>)
      modifies http
      ensures var x := Transfer(requestType, url, body, headers, allowNotFound, http.reply, |old(http.sent)|, maxAttempts);
        r == x.result && http.sent == old(http.sent) + x.sent
    {
      var made := MakeRequest(requestType, url, body, RequestHeaders(body, headers));
      if made.Failure? {
        return Failure(made.error);
      }
      var result := TryRequest(made.value, url, allowNotFound);
      r := match result
        case Success(response) => Success(response)
        case Failure(message) => Failure(TransferFailed(message));
    }

    /**
     * Fetches a file: host selection, a ticket for (url, "httpGet"), then a GET
     * that treats 404 as absence. Returns nil when the file is absent, the body
     * otherwise. Without a qualifying host it fails before any ticket or request.
     */
    method FetchFileFromDatastore(datacenterName: string, datastore: Datastore, path: string)
      returns (r: Result<Option<Bytes>, ProviderError>)
      modifies http, sessionManager, Runtimes(datastore.host)
      ensures var i := old(FirstQualifying(datastore.host));
        i.None? ==> r == Failure(NoHealthyHost) && http.sent == old(http.sent) && sessionManager.requested == old(sessionManager.requested)
      ensures var i := old(FirstQualifying(datastore.host));
        i.Some? ==>
          var url := DatastoreUrl(datastore.host[i.value].key.name, path, escape(datastore.name));
          var ticket := Ticket(sessionManager.ticketId(|old(sessionManager.requested)|));
          var x := Transfer("GET", url, None, TicketHeaders(ticket), true, http.reply, |old(http.sent)|, maxAttempts);
          && sessionManager.requested == old(sessionManager.requested) + [TicketRequest(url, "httpGet")]
          && http.sent == old(http.sent) + x.sent
          && r == match x.result
                  case Success(None) => Success(None)
                  case Success(Some(response)) => Success(Some(response.body))
                  case Failure(e) => Failure(e)
      ensures var i := old(FirstQualifying(datastore.host));
        i.Some? ==> datastore.host[i.value].key.runtime.connectionState == "connected"
      ensures forall rt | rt in Runtimes(datastore.host) ::
        rt.inMaintenanceMode == old(rt.inMaintenanceMode) && rt.powerState == old(rt.powerState)
      ensures var i := old(FirstQualifying(datastore.host));
        forall rt | rt in Runtimes(datastore.host) && (i.None? || rt != datastore.host[i.value].key.runtime) ::
          rt.connectionState == old(rt.connectionState)
    {
      var host := SelectHost(datastore.host);
      if host.None? {
        return Failure(NoHealthyHost);
      }
      var url := DatastoreUrl(host.value.name, path, escape(datastore.name));
      var ticket := sessionManager.AcquireGenericServiceTicket(TicketRequest(url, "httpGet"));
      var response := DoRequest("GET", url, None, TicketHeaders(ticket), true);
      match response
      case Failure(e) => return Failure(e);
      case Success(None) => return Success(None);
      case Success(Some(resp)) => return Success(Some(resp.body));
    }

    /**
     * Uploads `contents`: host selection, a ticket for (url, "httpPut"), then a
     * PUT with `Content-Length` set; a 404 is an error like any code of 400 or more.
     */
    method UploadFileToDatastore(datastore: Datastore, path: string, contents: Bytes)
      returns (r: Result<(), ProviderError>)
      modifies http, sessionManager, Runtimes(datastore.host)
      ensures var i := old(FirstQualifying(datastore.host));
        i.None? ==> r == Failure(NoHealthyHost) && http.sent == old(http.sent) && sessionManager.requested == old(sessionManager.requested)
      ensures var i := old(FirstQualifying(datastore.host));
        i.Some? ==>
          var url := DatastoreUrl(datastore.host[i.value].key.name, path, escape(datastore.name));
          var ticket := Ticket(sessionManager.ticketId(|old(sessionManager.requested)|));
          var x := Transfer("PUT", url, Some(contents), TicketHeaders(ticket), false, http.reply, |old(http.sent)|, maxAttempts);
          && sessionManager.requested == old(sessionManager.requested) + [TicketRequest(url, "httpPut")]
          && http.sent == old(http.sent) + x.sent
          && r == if x.result.Success? then Success(()) else Failure(x.result.error)
      ensures var i := old(FirstQualifying(datastore.host));
        i.Some? ==> datastore.host[i.value].key.runtime.connectionState == "connected"
      ensures forall rt | rt in Runtimes(datastore.host) ::
        rt.inMaintenanceMode == old(rt.inMaintenanceMode) && rt.powerState == old(rt.powerState)
      ensures var i := old(FirstQualifying(datastore.host));
        forall rt | rt in Runtimes(datastore.host) && (i.None? || rt != datastore.host[i.value].key.runtime) ::
          rt.connectionState == old(rt.connectionState)
    {
      var host := SelectHost(datastore.host);
      if host.None? {
        return Failure(NoHealthyHost);
      }
      var url := DatastoreUrl(host.value.name, path, escape(datastore.name));
      var ticket := sessionManager.AcquireGenericServiceTicket(TicketRequest(url, "httpPut"));
      var response := DoRequest("PUT", url, Some(contents), TicketHeaders(ticket), false);
      r := if response.Success? then Success(()) else Failure(response.error);
    }

    /** A single POST to the caller's URL with the caller's body and headers: no host selection, no ticket. */
    method UploadFileToUrl(url: string, body: Option<Bytes>, headers: Headers) returns (r: Result<(), ProviderError>)
      modifies http
      ensures var x := Transfer("POST", url, body, headers, false, http.reply, |old(http.sent)|, maxAttempts);
        http.sent == old(http.sent) + x.sent && r == if x.result.Success? then Success(()) else Failure(x.result.error)
    {
      var response := DoRequest("POST", url, body, headers, false);
      r := if response.Success? then Success(()) else Failure(response.error);
    }
  }
}
