/** The client-side server manager: a "started" latch, a start routine made of
    at most two health probes, and the guarded request that first makes sure
    the server is up. Every probe outcome and every response is an input. */
module ServerManager {
  import opened Js

  /** `checkServerHealth`: healthy exactly when the probe got a response with a
      2xx status; a rejected probe (network failure, refusal, the three-second
      timeout) is unhealthy. */
  function CheckServerHealth(p: Probe): (healthy: bool)
    ensures healthy <==> p.Replied? && 200 <= p.reply.status <= 299
    ensures p.Rejected? ==> !healthy
  {
    match p
    case Rejected(_) => false
    case Replied(r) => r.Ok()
  }

  /** `startServerSilently`: one probe; when it fails, the wake-up requests
      and the wait, then a second probe whose answer is the result. Returns the
      result and how many health probes were made. */
  method StartServerSilently(first: Probe, second: Probe) returns (ok: bool, probes: nat)
    ensures 1 <= probes <= 2
    ensures ok <==> ProbeOk(first) || ProbeOk(second)
    ensures ProbeOk(first) ==> probes == 1
    ensures !ProbeOk(first) ==> probes == 2 && ok == ProbeOk(second)
  {
    probes := 1;
    var healthCheck := CheckServerHealth(first);
    if healthCheck {
      ok := true;
      return;
    }
    probes := 2;
    ok := CheckServerHealth(second);
  }

  const ServerNotAvailable := Error("Error", "Server not available")

  /** The error a non-`ok` response turns into: "Server error (", the status
      in decimal, then ")". */
  function ServerError(status: nat): (t: Thrown)
    ensures t.Error? && t.name == "Error"
    ensures |t.message| >= 16 && t.message[..14] == "Server error (" && t.message[|t.message| - 1] == ')'
    ensures forall i :: 14 <= i < |t.message| - 1 ==> '0' <= t.message[i] <= '9'
    ensures DigitsValue(t.message[14..|t.message| - 1]) == status
  {
    var m := "Server error (" + NatToString(status) + ")";
    assert m[14..|m| - 1] == NatToString(status);
    Error("Error", m)
  }

  /** How `makeApiRequest` settles once its request has been sent: the parsed
      body of an `ok` response, and otherwise the value it rejects with. */
  function RequestOutcome<T>(reply: Fetch<T>): (r: Result<T, Thrown>)
    ensures r.Success? <==> reply.Replied? && reply.reply.Ok() && reply.reply.json.Success?
    ensures r.Success? ==> r.value == reply.reply.json.value
    ensures reply.Rejected? ==> r == Failure(reply.thrown)
    ensures reply.Replied? && !reply.reply.Ok() ==> r == Failure(ServerError(reply.reply.status))
    ensures reply.Replied? && reply.reply.Ok() && reply.reply.json.Failure? ==>
              r == Failure(SyntaxError(reply.reply.json.error))
  {
    match reply
    case Rejected(t) => Failure(t)
    case Replied(resp) =>
      if !resp.Ok() then Failure(ServerError(resp.status))
      else match resp.json
        case Success(v) => Success(v)
        case Failure(m) => Failure(SyntaxError(m))
  }

  /** The shared manager. `startInFlight` stands for a non-null `startPromise`. */
  class Manager {
    var serverStarted: bool
    var startInFlight: bool

    constructor()
      ensures !serverStarted && !startInFlight
    {
      serverStarted := false;
      startInFlight := false;
    }

    /** `ensureServerRunning`, for one caller at a time. Once started it answers
        yes without probing; otherwise it runs the start routine, clears the
        pending start, and latches `serverStarted` when the routine succeeded.
        The latch is never reset. */
    method EnsureServerRunning(first: Probe, second: Probe) returns (running: bool, probes: nat)
      requires !startInFlight
      modifies this
      ensures old(serverStarted) ==> running && probes == 0
      ensures !old(serverStarted) ==>
                && running == (ProbeOk(first) || ProbeOk(second))
                && 1 <= probes <= 2
                && (ProbeOk(first) ==> probes == 1)
      ensures serverStarted <==> old(serverStarted) || running
      ensures !startInFlight
    {
      if serverStarted {
        return true, 0;
      }
      startInFlight := true;
      var result, n := StartServerSilently(first, second);
      startInFlight := false;
      if result {
        serverStarted := true;
      }
      running, probes := result, n;
    }

    /** `makeApiRequest`: when the server cannot be made to run it rejects with
        "Server not available" and sends nothing; otherwise it sends the request
        and settles as `RequestOutcome` says. */
    method MakeApiRequest<T>(first: Probe, second: Probe, reply: Fetch<T>) returns (r: Result<T, Thrown>, sent: bool)
      requires !startInFlight
      modifies this
      ensures var up := old(serverStarted) || ProbeOk(first) || ProbeOk(second);
        && (sent <==> up)
        && (!up ==> r == Failure(ServerNotAvailable))
        && (up ==> r == RequestOutcome(reply))
      ensures serverStarted <==> old(serverStarted) || sent
      ensures !startInFlight
    {
      var serverRunning, _ := EnsureServerRunning(first, second);
      if !serverRunning {
        return Failure(ServerNotAvailable), false;
      }
      sent := true;
      match reply {
        case Rejected(t) =>
          r := Failure(t);
        case Replied(resp) =>
          if !resp.Ok() {
            r := Failure(ServerError(resp.status));
          } else {
            match resp.json {
              case Success(v) => r := Success(v);
              case Failure(m) => r := Failure(SyntaxError(m));
            }
          }
      }
    }
  }
}
