/** The API client: every request settles to a two-case envelope, success with
    the parsed body or failure with a message chosen by classifying what was
    thrown; the request builders send trimmed names and locations. */
module ApiClient {
  import opened Js
  import opened BusinessContext

  /** The envelope `makeRequest` resolves to: `{success: true, data}` or
      `{success: false, error}`, never both. */
  datatype ApiResponse<+T> = Succeeded(data: T) | Failed(error: string) {
    predicate Success() { Succeeded? }
  }

  const RequestFailed := "Request failed"
  const TimedOut := "Request timed out"
  const CannotConnect := "Cannot connect to server"

  /** The message the `catch` block reports. The checks run in order: a value
      that is not an `Error` is "Request failed"; an `AbortError` is a timeout;
      a message mentioning "fetch" or "NetworkError" is a connection failure;
      any other error reports its own message. */
  function ErrorMessage(t: Thrown): (m: string)
    ensures t.NonError? ==> m == RequestFailed
    ensures t.Error? && t.name == "AbortError" ==> m == TimedOut
    ensures t.Error? && t.name != "AbortError" ==>
              (m == CannotConnect <== Contains(t.message, "fetch") || Contains(t.message, "NetworkError"))
    ensures t.Error? && t.name != "AbortError" && !Contains(t.message, "fetch") && !Contains(t.message, "NetworkError") ==>
              m == t.message
  {
    match t
    case NonError => RequestFailed
    case Error(name, message) =>
      if name == "AbortError" then TimedOut
      else if Contains(message, "fetch") || Contains(message, "NetworkError") then CannotConnect
      else message
  }

  const ServerErrorPrefix := "Server error ("

  /** The error thrown for a non-`ok` response: status and body text. */
  function ServerErrorThrown(status: nat, text: string): Thrown {
    Error("Error", ServerErrorPrefix + NatToString(status) + "): " + text)
  }

  /** How `makeRequest` settles for a given fetch outcome. */
  function Settle<T>(f: Fetch<T>): (r: ApiResponse<T>)
    ensures r.Succeeded? <==> f.Replied? && f.reply.Ok() && f.reply.json.Success?
    ensures r.Succeeded? ==> r.data == f.reply.json.value
    ensures f.Rejected? ==> r == Failed(ErrorMessage(f.thrown))
    ensures f.Replied? && !f.reply.Ok() ==> r == Failed(ErrorMessage(ServerErrorThrown(f.reply.status, f.reply.text)))
    ensures f.Replied? && f.reply.Ok() && f.reply.json.Failure? ==> r == Failed(ErrorMessage(SyntaxError(f.reply.json.error)))
  {
    match f
    case Rejected(t) => Failed(ErrorMessage(t))
    case Replied(resp) =>
      if !resp.Ok() then Failed(ErrorMessage(ServerErrorThrown(resp.status, resp.text)))
      else match resp.json
        case Success(v) => Succeeded(v)
        case Failure(m) => Failed(ErrorMessage(SyntaxError(m)))
  }

  /** The text in front of a non-`ok` body has neither an 'f' nor an 'N', so
      "fetch" or "NetworkError" occurs in the whole message exactly when it
      occurs in the body. */
  lemma PrefixAddsNoMatch(status: nat, text: string, w: string)
    requires w == "fetch" || w == "NetworkError"
    ensures Contains(ServerErrorThrown(status, text).message, w) <==> Contains(text, w)
  {
    var p := ServerErrorPrefix + NatToString(status) + "): ";
    assert ServerErrorThrown(status, text).message == p + text;
    assert forall k :: 0 <= k < |p| ==> p[k] != 'f' && p[k] != 'N';
    ContainsAfterPrefix(p, text, w);
  }

  /** A non-`ok` response is reported as "Server error (status): body" unless
      the body mentions "fetch" or "NetworkError", in which case the classifier
      turns it into "Cannot connect to server". */
  lemma ServerErrorReported<T>(status: nat, text: string, json: Result<T, string>)
    requires !(200 <= status <= 299)
    ensures Settle(Replied(Reply(status, text, json))) ==
              if Contains(text, "fetch") || Contains(text, "NetworkError") then Failed(CannotConnect)
              else Failed(ServerErrorPrefix + NatToString(status) + "): " + text)
  {
    PrefixAddsNoMatch(status, text, "fetch");
    PrefixAddsNoMatch(status, text, "NetworkError");
  }

  /** A rejection (other than an abort) whose message mentions "fetch" or
      "NetworkError" anywhere is a connection failure; Chromium's
      "Failed to fetch" is one. */
  lemma NetworkFailureReported<T>(name: string, before: string, after: string)
    requires name != "AbortError"
    ensures Settle<T>(Rejected(Error(name, before + "fetch" + after))) == Failed(CannotConnect)
    ensures Settle<T>(Rejected(Error(name, before + "NetworkError" + after))) == Failed(CannotConnect)
    ensures Settle<T>(Rejected(Error(name, "Failed to fetch"))) == Failed(CannotConnect)
  {
    ContainsAt("fetch", "fetch", 0);
    ContainsWidened("fetch", "fetch", before, after);
    ContainsAt("NetworkError", "NetworkError", 0);
    ContainsWidened("NetworkError", "NetworkError", before, after);
    ContainsWidened("fetch", "fetch", "Failed to ", "");
    assert "Failed to " + "fetch" + "" == "Failed to fetch";
  }

  /** The client's settings; the defaults are the local server and fifteen
      seconds. */
  datatype Client = Client(baseUrl: string, timeout: nat)

  const DefaultClient := Client("http://localhost:3001", 15000)

  /** `makeRequest`: the request goes to `baseUrl + endpoint`; the timer that
      aborts it after `timeout` milliseconds shows up as an `AbortError`
      rejection in `outcome`. The body of the `try` either returns the
      success envelope or throws, and the `catch` classifies what it caught. */
  method MakeRequest<T>(c: Client, endpoint: string, outcome: Fetch<T>) returns (url: string, r: ApiResponse<T>)
    ensures url == c.baseUrl + endpoint
    ensures r == Settle(outcome)
  {
    url := c.baseUrl + endpoint;
    var caught: Thrown;
    match outcome {
      case Rejected(t) =>
        caught := t;
      case Replied(resp) =>
        if !resp.Ok() {
          caught := ServerErrorThrown(resp.status, resp.text);
        } else {
          match resp.json {
            case Success(data) =>
              return url, Succeeded(data);
            case Failure(m) =>
              caught := SyntaxError(m);
          }
        }
    }
    var errorMessage := RequestFailed;
    if caught.Error? {
      if caught.name == "AbortError" {
        errorMessage := TimedOut;
      } else if Contains(caught.message, "fetch") || Contains(caught.message, "NetworkError") {
        errorMessage := CannotConnect;
      } else {
        errorMessage := caught.message;
      }
    }
    r := Failed(errorMessage);
  }

  // ---------------------------------------------------------------------------
  // Requests
  // ---------------------------------------------------------------------------

  datatype HttpMethod = Get | Post

  /** What a builder hands to `makeRequest`: the HTTP method, the path, the query
      parameters in order (before URL encoding) and the JSON body. */
  datatype Request = Request(verb: HttpMethod, path: string, query: seq<(string, string)>, body: Option<FormData>)

  /** Neither end of `s` is whitespace. */
  predicate Tidy(s: string) {
    s == [] || (!IsWhitespace(s[0]) && !IsWhitespace(s[|s| - 1]))
  }

  /** `checkHealth` */
  const HealthRequest := Request(Get, "/health", [], None)

  /** `getBusinessData`: a POST whose body holds the trimmed name and location. */
  function BusinessDataRequest(name: string, location: string): (q: Request)
    ensures q.verb == Post && q.path == "/business-data" && q.query == []
    ensures q.body == Some(FormData(Trim(name), Trim(location)))
    ensures Tidy(q.body.value.name) && Tidy(q.body.value.location)
    ensures Contains(name, q.body.value.name) && Contains(location, q.body.value.location)
  {
    TrimContained(name);
    TrimContained(location);
    Request(Post, "/business-data", [], Some(FormData(Trim(name), Trim(location))))
  }

  /** `regenerateHeadline`: a GET whose query holds the trimmed name and location. */
  function RegenerateRequest(name: string, location: string): (q: Request)
    ensures q.verb == Get && q.path == "/regenerate-headline" && q.body == None
    ensures q.query == [("name", Trim(name)), ("location", Trim(location))]
    ensures Tidy(q.query[0].1) && Tidy(q.query[1].1)
    ensures Contains(name, q.query[0].1) && Contains(location, q.query[1].1)
  {
    TrimContained(name);
    TrimContained(location);
    Request(Get, "/regenerate-headline", [("name", Trim(name)), ("location", Trim(location))], None)
  }

  /** Already-trimmed input gives the same request, so the request depends on
      the inputs only up to surrounding whitespace. */
  lemma RequestsIgnoreSurroundingWhitespace(name: string, location: string)
    ensures BusinessDataRequest(Trim(name), Trim(location)) == BusinessDataRequest(name, location)
    ensures RegenerateRequest(Trim(name), Trim(location)) == RegenerateRequest(name, location)
  {
    TrimIdempotent(name);
    TrimIdempotent(location);
  }

  /** The health body. */
  datatype Health = Health(status: string, uptime: real)

  /** `testConnection`: `checkHealth` sends the health request through
      `makeRequest`, and the answer is true exactly when it came back `ok` with
      a JSON body. */
  method TestConnection(c: Client, health: Fetch<Health>) returns (url: string, up: bool)
    ensures url == c.baseUrl + "/health"
    ensures up <==> health.Replied? && health.reply.Ok() && health.reply.json.Success?
  {
    var result;
    url, result := MakeRequest(c, HealthRequest.path, health);
    up := result.Success();
  }
}
