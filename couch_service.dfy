/** The service entry point of couch_service.go: resolving a database by name, creating it
    on request. Each transport call is represented by the `Reply` it returns; `replies` lists
    them in the order the calls are made. */
module CouchService {
  import opened Base
  import opened Errors
  import opened Utils
  import opened Requests
  import opened Database

  /** `CouchService`, as `GetInstance` builds it. */
  datatype Service = Service(baseURL: string)

  /** The transport every `GetDB` call builds: 5 attempts, 2 s between them, 30 s each. */
  function ServiceClient(svc: Service): (c: Client)
    ensures c.baseURL == svc.baseURL
    ensures c.maxRetries == 5 && c.retryWait == 2 * Second && c.timeout == 30 * Second
  {
    Client(svc.baseURL, 5, 2 * Second, 30 * Second)
  }

  /** Through that transport, a call starts at most five attempts and sleeps at most five
      times, whatever the server answers. */
  lemma {:induction false} ServiceClientBounded(svc: Service, body: Body, net: seq<Outcome>)
    requires 5 <= |net|
    ensures var t := Transfer(ServiceClient(svc).maxRetries, body, net);
      t.attempts <= 5 && t.waits <= 5
  {
    TransferBounds(ServiceClient(svc).maxRetries, body, net);
  }

  /** `createDB`: check the name, then PUT it with no body; only 201 and 202 succeed. */
  function CreateDB(name: string, reply: Reply): (r: Run<()>)
    ensures !IsValidDBName(name) ==> r == Run([], Err(InvalidDBName(name)))
    ensures IsValidDBName(name) ==> r.calls == [Call(PUT, name, NoBody)]
    ensures r.result.Ok? <==> IsValidDBName(name) && reply.err.None? && (reply.code == 201 || reply.code == 202)
    ensures IsValidDBName(name) && reply.err.Some? ==>
      r.result == Err(Wrapped(CreatingDb, Transport(reply.err.value)))
    ensures IsValidDBName(name) && reply.err.None? && reply.code != 201 && reply.code != 202 ==>
      r.result == Err(Status(CreatingDb, reply.code, reply.body))
  {
    if !IsValidDBName(name) then Run([], Err(InvalidDBName(name)))
    else
      var calls := [Call(PUT, name, NoBody)];
      if reply.err.Some? then Run(calls, Err(Wrapped(CreatingDb, Transport(reply.err.value))))
      else if reply.code != 201 && reply.code != 202 then Run(calls, Err(Status(CreatingDb, reply.code, reply.body)))
      else Run(calls, Ok(()))
  }

  /** A reply that reports an existing database. */
  predicate Found(reply: Reply)
  {
    reply.err.None? && reply.code == 200
  }

  /** A reply that reports a successful creation. */
  predicate Created(reply: Reply)
  {
    reply.err.None? && (reply.code == 201 || reply.code == 202)
  }

  /** What a probe without creation returns for its reply: the handle when the database
      exists, "not found" on 404, and an error for a transport failure or any other code. */
  function ProbeResult(svc: Service, name: string, reply: Reply): (r: Result<Handle>)
    ensures r.Ok? <==> Found(reply)
    ensures r.Ok? ==> r.value == Handle(ServiceClient(svc), name)
    ensures reply.err.Some? ==> r == Err(Wrapped(GettingDatabase, Transport(reply.err.value)))
    ensures reply.err.None? && reply.code == 404 ==> r == Err(DBNotFound)
    ensures reply.err.None? && reply.code != 200 && reply.code != 404 ==>
      r == Err(Status(GettingDatabase, reply.code, reply.body))
  {
    if reply.err.Some? then Err(Wrapped(GettingDatabase, Transport(reply.err.value)))
    else if reply.code == 200 then Ok(Handle(ServiceClient(svc), name))
    else if reply.code == 404 then Err(DBNotFound)
    else Err(Status(GettingDatabase, reply.code, reply.body))
  }

  /** `GetDB`: probe the database with HEAD; on 404 create it if asked to and probe once
      more without creating. */
  function GetDB(svc: Service, name: string, create: bool, replies: seq<Reply>): (r: Run<Handle>)
    requires |replies| >= (if create then 3 else 1)
    decreases if create then 1 else 0
    // the probe comes first, and at most one creation follows, only when asked for
    ensures 1 <= |r.calls| <= 3 && r.calls[0] == Call(HEAD, name, NoBody)
    ensures forall i :: 0 <= i < |r.calls| && r.calls[i].verb != HEAD ==> create && i == 1 && r.calls[i] == Call(PUT, name, NoBody)
    // success: an existing database, or one created and then found
    ensures r.result.Ok? <==>
      Found(replies[0])
      || (create && replies[0].err.None? && replies[0].code == 404
          && IsValidDBName(name) && Created(replies[1]) && Found(replies[2]))
    ensures r.result.Ok? ==> r.result.value == Handle(ServiceClient(svc), name)
    // the first probe's failures
    ensures replies[0].err.Some? ==>
      r == Run([Call(HEAD, name, NoBody)], Err(Wrapped(GettingDatabase, Transport(replies[0].err.value))))
    ensures replies[0].err.None? && replies[0].code != 200 && replies[0].code != 404 ==>
      r == Run([Call(HEAD, name, NoBody)], Err(Status(GettingDatabase, replies[0].code, replies[0].body)))
    ensures !create && replies[0].err.None? && replies[0].code == 404 ==>
      r == Run([Call(HEAD, name, NoBody)], Err(DBNotFound))
    // without creation, or when the first probe does not answer 404, that probe decides the
    // result and is the only call
    ensures !create || replies[0].err.Some? || replies[0].code != 404 ==>
      r == Run([Call(HEAD, name, NoBody)], ProbeResult(svc, name, replies[0]))
    // a successful creation is followed by exactly one probe without creation, which decides
    ensures create && replies[0].err.None? && replies[0].code == 404 && CreateDB(name, replies[1]).result.Ok? ==>
      && r.calls == [Call(HEAD, name, NoBody), Call(PUT, name, NoBody), Call(HEAD, name, NoBody)]
      && r.result == ProbeResult(svc, name, replies[2])
    // a failed creation is reported wrapped, and stops before the second probe
    ensures create && replies[0].err.None? && replies[0].code == 404 && CreateDB(name, replies[1]).result.Err? ==>
      r == Run([Call(HEAD, name, NoBody)] + CreateDB(name, replies[1]).calls,
               Err(Wrapped(CreatingDatabase, CreateDB(name, replies[1]).result.error)))
  {
    var probe := Call(HEAD, name, NoBody);
    var reply := replies[0];
    if reply.err.Some? then Run([probe], Err(Wrapped(GettingDatabase, Transport(reply.err.value))))
    else if reply.code == 200 then Run([probe], Ok(Handle(ServiceClient(svc), name)))
    else if reply.code != 404 then Run([probe], Err(Status(GettingDatabase, reply.code, reply.body)))
    else if !create then Run([probe], Err(DBNotFound))
    else
      var created := CreateDB(name, replies[1]);
      if created.result.Err? then Run([probe] + created.calls, Err(Wrapped(CreatingDatabase, created.result.error)))
      else
        var again := GetDB(svc, name, false, replies[2..]);
        Run([probe] + created.calls + again.calls, again.result)
  }

  /** A missing database is created and then found: HEAD, PUT, HEAD. If the second probe
      still misses it, the call reports it as not found rather than creating it again. */
  lemma GetDBCreateThenFind(svc: Service, name: string, body: Bytes)
    requires IsValidDBName(name)
    ensures GetDB(svc, name, true, [Reply(404, body, None), Reply(201, body, None), Reply(200, body, None)])
         == Run([Call(HEAD, name, NoBody), Call(PUT, name, NoBody), Call(HEAD, name, NoBody)],
                Ok(Handle(ServiceClient(svc), name)))
    ensures GetDB(svc, name, true, [Reply(404, body, None), Reply(202, body, None), Reply(404, body, None)])
         == Run([Call(HEAD, name, NoBody), Call(PUT, name, NoBody), Call(HEAD, name, NoBody)], Err(DBNotFound))
  {
  }

  /** An invalid name is refused after the probe and before any PUT; a creation that the
      server refuses carries its status. */
  lemma GetDBCreateRefused(svc: Service, body: Bytes)
    ensures GetDB(svc, "My DB", true, [Reply(404, body, None), Reply(201, body, None), Reply(200, body, None)])
         == Run([Call(HEAD, "My DB", NoBody)], Err(Wrapped(CreatingDatabase, InvalidDBName("My DB"))))
    ensures GetDB(svc, "mydb", true, [Reply(404, body, None), Reply(412, body, None), Reply(200, body, None)])
         == Run([Call(HEAD, "mydb", NoBody), Call(PUT, "mydb", NoBody)],
                Err(Wrapped(CreatingDatabase, Status(CreatingDb, 412, body))))
  {
    assert !IsLowerLetter("My DB"[0]);
    assert forall i :: 1 <= i < |"mydb"| ==> IsNameChar("mydb"[i]);
  }
}
