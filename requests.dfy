/** The resilient transport of requests.go: a bounded retry loop around one HTTP exchange.
    The network is a script with one outcome per attempt; a sleep between attempts is counted
    as a wait. */
module Requests {
  import opened Base
  import opened Errors

  datatype Verb = GET | POST | PUT | DELETE | HEAD

  /** `time.Duration`, in nanoseconds. */
  type Duration = nat
  const Second: Duration := 1_000_000_000

  /** `CustomHTTPClient`, built once by `NewCustomHTTPClient` and never changed afterwards. */
  datatype Client = Client(baseURL: string, maxRetries: int, retryWait: Duration, timeout: Duration)

  /** The `body` argument of `makeRequest`, seen through the JSON encoder: nil, a value that
      encodes to the given bytes, or a value the encoder refuses. */
  datatype Body = NilBody | Encodes(json: Bytes) | Unencodable

  /** What one attempt of the loop runs into. */
  datatype Outcome =
    | BuildErr                      // building the request fails
    | SendErr                       // sending it fails (connection error or per-attempt timeout)
    | ReadErr                       // reading the response body fails
    | Resp(code: int, body: Bytes)  // a response with its status code and body

  /** A request put on the wire. */
  datatype Request = Request(verb: Verb, url: string, payload: Bytes)

  /** The triple `makeRequest` returns: status code, response body and error. */
  datatype Reply = Reply(code: int, body: Bytes, err: Option<TransportError>)

  /** A reply together with what it cost: attempts started and waits slept. */
  datatype Trace = Trace(reply: Reply, attempts: nat, waits: nat)

  /** The bytes sent on every attempt: the encoded body, or nothing for a nil body. */
  function Payload(b: Body): Bytes
  {
    if b.Encodes? then b.json else []
  }

  /** An outcome after which the loop tries again, unless it was the last attempt. */
  predicate Retryable(o: Outcome)
  {
    o.SendErr? || (o.Resp? && o.code >= 500)
  }

  /** The attempt at which the loop stops when it has already passed attempt `i`:
      the first attempt from `i` on that cannot be retried, or the last one. */
  function StopFrom(net: seq<Outcome>, n: nat, i: nat): (k: nat)
    requires i < n <= |net|
    ensures i <= k < n
    ensures forall j :: i <= j < k ==> Retryable(net[j])
    ensures k < n - 1 ==> !Retryable(net[k])
    decreases n - i
  {
    if i == n - 1 || !Retryable(net[i]) then i else StopFrom(net, n, i + 1)
  }

  /** The attempt at which a loop of `n` attempts stops. */
  function StopIndex(net: seq<Outcome>, n: nat): (k: nat)
    requires 0 < n <= |net|
    ensures k < n
    ensures forall j :: 0 <= j < k ==> Retryable(net[j])
    ensures k < n - 1 ==> !Retryable(net[k])
  {
    StopFrom(net, n, 0)
  }

  /** The three facts above single out the stopping attempt. */
  lemma StopIndexUnique(net: seq<Outcome>, n: nat, k: nat)
    requires k < n <= |net|
    requires forall j :: 0 <= j < k ==> Retryable(net[j])
    requires k < n - 1 ==> !Retryable(net[k])
    ensures StopIndex(net, n) == k
  {
  }

  /** What `makeRequest` returns, and what it costs, for the attempt script `net`. */
  function Transfer(maxRetries: int, body: Body, net: seq<Outcome>): Trace
    requires maxRetries <= |net|
  {
    if body.Unencodable? then Trace(Reply(0, [], Some(MarshalFailed)), 0, 0)
    else if maxRetries <= 0 then Trace(Reply(0, [], None), 0, 0)
    else
      var k := StopIndex(net, maxRetries);
      match net[k]
      case BuildErr => Trace(Reply(0, [], Some(RequestBuildFailed)), k + 1, k)
      case SendErr => Trace(Reply(0, [], Some(SendFailed)), k + 1, k)
      case ReadErr => Trace(Reply(0, [], Some(ReadFailed)), k + 1, k)
      case Resp(code, b) => Trace(Reply(code, b, None), k + 1, if code >= 500 then k + 1 else k)
  }

  /** How many of the attempts put a request on the wire (a failed build sends nothing). */
  function RequestsSent(t: Trace, net: seq<Outcome>): nat
    requires t.attempts <= |net|
  {
    if t.attempts > 0 && net[t.attempts - 1].BuildErr? then t.attempts - 1 else t.attempts
  }

  /** `makeRequest`: the retry loop. `sent` lists the requests put on the wire, in order. */
  method MakeRequest(c: Client, verb: Verb, endpoint: string, body: Body, net: seq<Outcome>)
    returns (t: Trace, sent: seq<Request>)
    requires c.maxRetries <= |net|
    ensures t == Transfer(c.maxRetries, body, net)
    ensures t.attempts <= |net| && |sent| == RequestsSent(t, net)
    ensures forall q :: q in sent ==> q == Request(verb, c.baseURL + endpoint, Payload(body))
  {
    var url := c.baseURL + endpoint;
    sent := [];
    if body.Unencodable? {
      t := Trace(Reply(0, [], Some(MarshalFailed)), 0, 0);
      return;
    }
    var reqBody := Payload(body);
    var respBody: Bytes := [];
    var respCode := 0;
    var waits := 0;
    var i := 0;
    while i < c.maxRetries
      invariant 0 <= i && (c.maxRetries <= 0 ==> i == 0) && (c.maxRetries > 0 ==> i <= c.maxRetries)
      invariant forall j :: 0 <= j < i ==> Retryable(net[j])
      invariant waits == i && |sent| == i
      invariant forall q :: q in sent ==> q == Request(verb, url, reqBody)
      invariant 0 < i ==> net[i - 1].SendErr? ==> i < c.maxRetries
      invariant i == 0 ==> respCode == 0 && respBody == []
      invariant 0 < i && net[i - 1].Resp? ==> respCode == net[i - 1].code && respBody == net[i - 1].body
    {
      var o := net[i];
      if o.BuildErr? {
        StopIndexUnique(net, c.maxRetries, i);
        t := Trace(Reply(0, [], Some(RequestBuildFailed)), i + 1, waits);
        return;
      }
      sent := sent + [Request(verb, url, reqBody)];
      if o.SendErr? {
        if i == c.maxRetries - 1 {
          StopIndexUnique(net, c.maxRetries, i);
          t := Trace(Reply(0, [], Some(SendFailed)), i + 1, waits);
          return;
        }
        waits := waits + 1;  // sleep retryWait
        i := i + 1;
        continue;
      }
      if o.ReadErr? {
        StopIndexUnique(net, c.maxRetries, i);
        t := Trace(Reply(0, [], Some(ReadFailed)), i + 1, waits);
        return;
      }
      respBody := o.body;
      respCode := o.code;
      if respCode < 500 {
        StopIndexUnique(net, c.maxRetries, i);
        t := Trace(Reply(respCode, respBody, None), i + 1, waits);
        return;
      }
      waits := waits + 1;  // sleep retryWait
      i := i + 1;
    }
    if c.maxRetries > 0 {
      assert Retryable(net[i - 1]) && !net[i - 1].SendErr?;
      StopIndexUnique(net, c.maxRetries, i - 1);
    }
    t := Trace(Reply(respCode, respBody, None), i, waits);
  }

  /** `Get`: a nil body. */
  method Get(c: Client, endpoint: string, net: seq<Outcome>) returns (t: Trace, sent: seq<Request>)
    requires c.maxRetries <= |net|
    ensures t == Transfer(c.maxRetries, NilBody, net)
    ensures t.attempts <= |net| && |sent| == RequestsSent(t, net)
    ensures forall q :: q in sent ==> q == Request(GET, c.baseURL + endpoint, [])
  {
    t, sent := MakeRequest(c, GET, endpoint, NilBody, net);
  }

  /** `Post`: the caller's body. */
  method Post(c: Client, endpoint: string, body: Body, net: seq<Outcome>) returns (t: Trace, sent: seq<Request>)
    requires c.maxRetries <= |net|
    ensures t == Transfer(c.maxRetries, body, net)
    ensures t.attempts <= |net| && |sent| == RequestsSent(t, net)
    ensures forall q :: q in sent ==> q == Request(POST, c.baseURL + endpoint, Payload(body))
  {
    t, sent := MakeRequest(c, POST, endpoint, body, net);
  }

  /** `Put`: the caller's body. */
  method Put(c: Client, endpoint: string, body: Body, net: seq<Outcome>) returns (t: Trace, sent: seq<Request>)
    requires c.maxRetries <= |net|
    ensures t == Transfer(c.maxRetries, body, net)
    ensures t.attempts <= |net| && |sent| == RequestsSent(t, net)
    ensures forall q :: q in sent ==> q == Request(PUT, c.baseURL + endpoint, Payload(body))
  {
    t, sent := MakeRequest(c, PUT, endpoint, body, net);
  }

  /** `Delete`: a nil body. */
  method Delete(c: Client, endpoint: string, net: seq<Outcome>) returns (t: Trace, sent: seq<Request>)
    requires c.maxRetries <= |net|
    ensures t == Transfer(c.maxRetries, NilBody, net)
    ensures t.attempts <= |net| && |sent| == RequestsSent(t, net)
    ensures forall q :: q in sent ==> q == Request(DELETE, c.baseURL + endpoint, [])
  {
    t, sent := MakeRequest(c, DELETE, endpoint, NilBody, net);
  }

  /** `Head`: a nil body. */
  method Head(c: Client, endpoint: string, net: seq<Outcome>) returns (t: Trace, sent: seq<Request>)
    requires c.maxRetries <= |net|
    ensures t == Transfer(c.maxRetries, NilBody, net)
    ensures t.attempts <= |net| && |sent| == RequestsSent(t, net)
    ensures forall q :: q in sent ==> q == Request(HEAD, c.baseURL + endpoint, [])
  {
    t, sent := MakeRequest(c, HEAD, endpoint, NilBody, net);
  }

  // ---------------------------------------------------------------------------
  // The retry policy, stated about Transfer

  /** A body the encoder refuses fails before any attempt. */
  lemma TransferMarshalFailure(maxRetries: int, net: seq<Outcome>)
    requires maxRetries <= |net|
    ensures Transfer(maxRetries, Unencodable, net) == Trace(Reply(0, [], Some(MarshalFailed)), 0, 0)
  {
  }

  /** With no attempt allowed, nothing is tried and the zero reply comes back without error. */
  lemma TransferNoAttempts(maxRetries: int, body: Body, net: seq<Outcome>)
    requires maxRetries <= 0 && !body.Unencodable?
    ensures Transfer(maxRetries, body, net) == Trace(Reply(0, [], None), 0, 0)
  {
  }

  /** At most `maxRetries` attempts, at most one wait per attempt, and an error reply
      carries neither a code nor a body. */
  lemma TransferBounds(maxRetries: int, body: Body, net: seq<Outcome>)
    requires maxRetries <= |net|
    ensures var t := Transfer(maxRetries, body, net);
      && t.attempts <= (if maxRetries < 0 then 0 else maxRetries)
      && t.waits <= t.attempts
      && (t.reply.err.Some? ==> t.reply.code == 0 && t.reply.body == [])
  {
  }

  /** Every attempt before the last one ran into a send error or a 5xx response:
      nothing else is retried. */
  lemma TransferRetriesOnlyRetryable(maxRetries: int, body: Body, net: seq<Outcome>, j: nat)
    requires maxRetries <= |net|
    requires j + 1 < Transfer(maxRetries, body, net).attempts
    ensures Retryable(net[j])
  {
  }

  /** The first response below 500 ends the loop and is returned as it is, without error,
      after one wait for each earlier attempt. */
  lemma {:induction false} TransferStopsAtFirstFinalResponse(maxRetries: int, body: Body, net: seq<Outcome>, k: nat)
    requires !body.Unencodable? && k < maxRetries <= |net|
    requires forall j :: 0 <= j < k ==> Retryable(net[j])
    requires net[k].Resp? && net[k].code < 500
    ensures Transfer(maxRetries, body, net) == Trace(Reply(net[k].code, net[k].body, None), k + 1, k)
  {
    StopIndexUnique(net, maxRetries, k);
  }

  /** A body-read error ends the loop at once, with no retry. */
  lemma {:induction false} TransferReadErrorNotRetried(maxRetries: int, body: Body, net: seq<Outcome>, k: nat)
    requires !body.Unencodable? && k < maxRetries <= |net|
    requires forall j :: 0 <= j < k ==> Retryable(net[j])
    requires net[k].ReadErr?
    ensures Transfer(maxRetries, body, net) == Trace(Reply(0, [], Some(ReadFailed)), k + 1, k)
  {
    StopIndexUnique(net, maxRetries, k);
  }

  /** A send error on the last attempt is returned; one on an earlier attempt is followed by
      a wait and another attempt. */
  lemma {:induction false} TransferSendError(maxRetries: int, body: Body, net: seq<Outcome>, k: nat)
    requires !body.Unencodable? && k < maxRetries <= |net|
    requires forall j :: 0 <= j < k ==> Retryable(net[j])
    requires net[k].SendErr?
    ensures k == maxRetries - 1 ==> Transfer(maxRetries, body, net) == Trace(Reply(0, [], Some(SendFailed)), k + 1, k)
    ensures k < maxRetries - 1 ==>
      Transfer(maxRetries, body, net).attempts > k + 1 && Transfer(maxRetries, body, net).waits >= k + 1
  {
    var s := StopIndex(net, maxRetries);
    if k == maxRetries - 1 {
      StopIndexUnique(net, maxRetries, k);
    } else {
      assert Retryable(net[k]);
    }
  }

  /** When every attempt but the last is retried (a send error or a 5xx) and the last one
      answers 5xx, the attempts run out: the last response is returned without error, all
      `maxRetries` attempts are made, and a wait follows each of them, the last one included. */
  lemma {:induction false} TransferAllServerErrors(maxRetries: int, body: Body, net: seq<Outcome>)
    requires !body.Unencodable? && 0 < maxRetries <= |net|
    requires forall j :: 0 <= j < maxRetries - 1 ==> Retryable(net[j])
    requires net[maxRetries - 1].Resp? && net[maxRetries - 1].code >= 500
    ensures Transfer(maxRetries, body, net)
         == Trace(Reply(net[maxRetries - 1].code, net[maxRetries - 1].body, None), maxRetries, maxRetries)
  {
    StopIndexUnique(net, maxRetries, maxRetries - 1);
  }

  /** Four scripted scenarios: two 5xx then 200 with three attempts, three 5xx with three
      attempts, a single 404, and a send error followed by two 5xx. */
  lemma TransferScenarios(body: Body, b: Bytes)
    requires !body.Unencodable?
    ensures Transfer(3, body, [Resp(500, b), Resp(500, b), Resp(200, b)]) == Trace(Reply(200, b, None), 3, 2)
    ensures Transfer(3, body, [Resp(500, b), Resp(500, b), Resp(500, b)]) == Trace(Reply(500, b, None), 3, 3)
    ensures Transfer(3, body, [Resp(404, b), Resp(200, b), Resp(200, b)]) == Trace(Reply(404, b, None), 1, 0)
    ensures Transfer(3, body, [SendErr, Resp(500, b), Resp(503, b)]) == Trace(Reply(503, b, None), 3, 3)
  {
    TransferStopsAtFirstFinalResponse(3, body, [Resp(500, b), Resp(500, b), Resp(200, b)], 2);
    TransferAllServerErrors(3, body, [Resp(500, b), Resp(500, b), Resp(500, b)]);
    TransferStopsAtFirstFinalResponse(3, body, [Resp(404, b), Resp(200, b), Resp(200, b)], 0);
    TransferAllServerErrors(3, body, [SendErr, Resp(500, b), Resp(503, b)]);
  }
}
