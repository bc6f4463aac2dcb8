/** What the joined system of RpcSystem does, told by the events of a run: who made which call, where
    its request was decoded, who answered what, and what the callback got. */
module RpcHistory {
  import opened Basics
  import opened Bytes
  import opened Frames
  import opened Machine
  import opened Protocol
  import opened RpcSystem
  import F = FrameStream
  import P = PendingCalls
  import SendQueue

  // ---- the history of a response, by the events of the run -----------------------------------------------

  lemma ReqsStep(timeout: int, s: State, e: Event, c: nat, req: RequestContent)
    requires !(c < |s.reqs| && s.reqs[c] == req)
    requires var s' := Step(timeout, s, e); c < |s'.reqs| && s'.reqs[c] == req
    ensures e.Call? && |s.reqs| == c && req == e.req.(callId := P.IdOf(e.alloc))
  {
  }

  /** Every call was made by a call of result() with that very request; only its id is filled in,
      and that is the number the counter gave out, modulo 2^32. */
  lemma CalledBy(timeout: int, events: seq<Event>, c: nat) returns (n: nat)
    requires c < |Run(timeout, events).reqs|
    ensures n < |events| && events[n].Call? && |Run(timeout, events[..n]).reqs| == c
    ensures Run(timeout, events).reqs[c] == events[n].req.(callId := (events[n].alloc + 1) % 0x1_0000_0000)
  {
    var req := Run(timeout, events).reqs[c];
    n := Flips(Stepper(timeout), INIT, events, (s: State) => c < |s.reqs| && s.reqs[c] == req);
    ReqsStep(timeout, Run(timeout, events[..n]), events[n], c, req);
  }

  predicate AtServer(s: State, job: Job) { job in s.pool || job in s.open }

  lemma DecodeStep(timeout: int, s: State, c: nat)
    requires UpInv(s) && Enabled(timeout, s, ServerDecode(c))
    ensures var pool := Step(timeout, s, ServerDecode(c)).pool;
            && |pool| == |s.pool| + 1 && pool[..|s.pool|] == s.pool && Step(timeout, s, ServerDecode(c)).open == s.open
            && pool[|s.pool|].conn == c && pool[|s.pool|].req == CutRequest(s.up.conns[c]) && JobOk(s, pool[|s.pool|])
  {
    DecodedRequest(s.up, s.sent, s.reqs, c);
  }

  lemma JobStep(timeout: int, s: State, e: Event, job: Job)
    requires UpInv(s) && !AtServer(s, job) && AtServer(Step(timeout, s, e), job)
    ensures e == ServerDecode(job.conn) && JobOk(s, job)
  {
    if Enabled(timeout, s, e) && e.ServerDecode? {
      DecodeStep(timeout, s, e.c);
    } else {
      OthersMoveJobs(timeout, s, e);
    }
  }

  lemma CutAt(timeout: int, events: seq<Event>, job: Job) returns (n: nat)
    requires AtServer(Run(timeout, events), job)
    ensures n < |events| && events[n] == ServerDecode(job.conn)
    ensures var reqs := Run(timeout, events[..n]).reqs;
            job.call < |reqs| && job.req == reqs[job.call]
  {
    n := Flips(Stepper(timeout), INIT, events, (s: State) => AtServer(s, job));
    RunInv(timeout, events[..n]);
    JobStep(timeout, Run(timeout, events[..n]), events[n], job);
  }

  /** Every request at the server was cut out of the bytes of the connection it is answered on, and is
      the request its caller passed. */
  lemma DecodedBy(timeout: int, events: seq<Event>, job: Job) returns (called: nat, decoded: nat)
    requires AtServer(Run(timeout, events), job)
    ensures called < decoded < |events|
    ensures events[called].Call? && |Run(timeout, events[..called]).reqs| == job.call
    ensures job.req == events[called].req.(callId := (events[called].alloc + 1) % 0x1_0000_0000)
    ensures events[decoded] == ServerDecode(job.conn)
  {
    decoded := CutAt(timeout, events, job);
    called := CalledBy(timeout, events[..decoded], job.call);
    assert events[..decoded][..called] == events[..called];
  }

  /** A request as it was cut out of the bytes of a connection. */
  datatype Arrival = Arrival(conn: nat, req: RequestContent)

  function Arriving(timeout: int, s: State, e: Event): seq<Arrival>
  {
    if e.ServerDecode? && Enabled(timeout, s, e) then [Arrival(e.c, CutRequest(s.up.conns[e.c]))] else []
  }

  /** The requests cut in a run, in that order. */
  function Arrivals(timeout: int, events: seq<Event>): seq<Arrival>
  {
    if events == [] then []
    else
      var n := |events| - 1;
      Arrivals(timeout, events[..n]) + Arriving(timeout, Run(timeout, events[..n]), events[n])
  }

  /** How many tasks the server's worker has taken in a run. */
  function Taken(timeout: int, events: seq<Event>): nat
  {
    if events == [] then 0
    else
      var n := |events| - 1;
      Taken(timeout, events[..n]) + One(events[n].Work? && Run(timeout, events[..n]).pool != [])
  }

  predicate InOrder(pool: seq<Job>, arrivals: seq<Arrival>, taken: nat)
  {
    |arrivals| == taken + |pool|
    && forall i :: 0 <= i < |pool| ==> arrivals[taken + i] == Arrival(pool[i].conn, pool[i].req)
  }

  lemma InOrderPush(pool: seq<Job>, arrivals: seq<Arrival>, taken: nat, pool': seq<Job>, a: Arrival)
    requires InOrder(pool, arrivals, taken) && |pool'| == |pool| + 1 && pool'[..|pool|] == pool
    requires a == Arrival(pool'[|pool|].conn, pool'[|pool|].req)
    ensures InOrder(pool', arrivals + [a], taken)
  {
    forall i | 0 <= i < |pool'| ensures (arrivals + [a])[taken + i] == Arrival(pool'[i].conn, pool'[i].req) {
      if i < |pool| {
        assert pool'[..|pool|][i] == pool[i];
      }
    }
  }

  lemma InOrderTake(pool: seq<Job>, arrivals: seq<Arrival>, taken: nat)
    requires InOrder(pool, arrivals, taken) && pool != []
    ensures InOrder(pool[1..], arrivals, taken + 1)
  {
    forall i | 0 <= i < |pool| - 1 ensures arrivals[taken + 1 + i] == Arrival(pool[1..][i].conn, pool[1..][i].req) {
      assert arrivals[taken + (1 + i)] == Arrival(pool[1 + i].conn, pool[1 + i].req);
    }
  }

  lemma PoolStep(timeout: int, s: State, e: Event)
    requires !e.ServerDecode? || !Enabled(timeout, s, e)
    ensures Step(timeout, s, e).pool == if e.Work? && s.pool != [] then s.pool[1..] else s.pool
  {
  }

  lemma ArriveOrder(timeout: int, s: State, c: nat, arrivals: seq<Arrival>, taken: nat)
    requires UpInv(s) && InOrder(s.pool, arrivals, taken) && Enabled(timeout, s, ServerDecode(c))
    ensures InOrder(Step(timeout, s, ServerDecode(c)).pool, arrivals + [Arrival(c, CutRequest(s.up.conns[c]))], taken)
  {
    DecodeStep(timeout, s, c);
    InOrderPush(s.pool, arrivals, taken, Step(timeout, s, ServerDecode(c)).pool, Arrival(c, CutRequest(s.up.conns[c])));
  }

  lemma OrderStep(timeout: int, s: State, e: Event, arrivals: seq<Arrival>, taken: nat)
    requires UpInv(s) && InOrder(s.pool, arrivals, taken)
    ensures InOrder(Step(timeout, s, e).pool, arrivals + Arriving(timeout, s, e), taken + One(e.Work? && s.pool != []))
  {
    if e.ServerDecode? && Enabled(timeout, s, e) {
      ArriveOrder(timeout, s, e.c, arrivals, taken);
    } else {
      PoolStep(timeout, s, e);
      assert arrivals + [] == arrivals;
      if e.Work? && s.pool != [] {
        InOrderTake(s.pool, arrivals, taken);
      }
    }
  }

  /** The server takes the requests in the order in which it cut them, and each of them once: what is
      queued are the arrivals that have not been taken. */
  lemma {:induction false} TakenInOrderOnce(timeout: int, events: seq<Event>)
    ensures InOrder(Run(timeout, events).pool, Arrivals(timeout, events), Taken(timeout, events))
  {
    if events != [] {
      var n := |events| - 1;
      TakenInOrderOnce(timeout, events[..n]);
      RunInv(timeout, events[..n]);
      OrderStep(timeout, Run(timeout, events[..n]), events[n], Arrivals(timeout, events[..n]), Taken(timeout, events[..n]));
    }
  }

  /** What a response says if it is to carry this answer. */
  predicate Says(content: ResponseContent, a: Answer)
  {
    match a
    case SetMessage(name, data) => content.code == 0 && content.messageName == name && content.body == data
    case SetRaw(data) => content.code == 0 && content.messageName == [] && content.body == data
    case RouteFailed => content.code == 1 && content.messageName == [] && content.body == []
  }

  /** An empty message or empty raw data is not sent. */
  predicate Sends(a: Answer)
  {
    match a
    case SetMessage(name, data) => name != [] && data != []
    case SetRaw(data) => data != []
    case RouteFailed => true
  }

  lemma BuildSays(callId: u32, a: Answer)
    ensures |Build(callId, a)| == One(Sends(a))
    ensures Sends(a) ==> Says(Build(callId, a)[0], a) && Build(callId, a)[0].callId == callId
  {
    if Sends(a) {
      assert Build(callId, a)[0] in Build(callId, a);
    }
  }

  /** Answering posts exactly one response, on the connection the request came on, if the answer is
      one that is sent, and does nothing otherwise. */
  lemma RespondPosts(timeout: int, s: State, job: Job, a: Answer) returns (content: ResponseContent)
    requires Enabled(timeout, s, Respond(job, a))
    ensures var s', c := Step(timeout, s, Respond(job, a)), job.conn;
            if Sends(a) then
              && Says(content, a) && content.callId == job.req.callId
              && s'.built == s.built + {Reply(job.call, content)}
              && s'.replies == s.replies[c := s.replies[c] + [Reply(job.call, content)]]
              && |s'.down| == |s.down| && (forall d :: 0 <= d < |s.down| && d != c ==> s'.down[d] == s.down[d])
              && Posted(s.down[c], s'.down[c], content)
            else s' == s
  {
    BuildSays(job.req.callId, a);
    content := NOBODY.content;
    if Sends(a) {
      content := Build(job.req.callId, a)[0];
      assert content in Build(job.req.callId, a);
      DownPosted(s.down[job.conn], content);
    }
  }

  /** The stream has been handed one frame more, this response. */
  predicate Posted(d: F.State, d': F.State, content: ResponseContent)
  {
    d'.w.posted == d.w.posted + [SendQueue.Buffer(|d.w.posted|, ResponseFrame(content))]
  }

  lemma DownPosted(d: F.State, content: ResponseContent)
    requires ResponseShort(content)
    ensures Posted(d, F.Step(RESPONSE, d, F.Post(ResponseFrame(content))), content)
  {
    ResponseShortIff(content);
    F.StepPosts(RESPONSE, d, F.Post(ResponseFrame(content)));
  }

  lemma BuiltStep(timeout: int, s: State, e: Event, r: Reply)
    requires r !in s.built && r in Step(timeout, s, e).built
    ensures e.Respond? && e.job in s.open && e.job.call == r.call
    ensures Says(r.content, e.answer) && r.content.callId == e.job.req.callId
  {
    if e.Respond? {
      BuildSays(e.job.req.callId, e.answer);
    }
  }

  /** Every response ever built has this history: a caller passed a request, the server cut it out of
      the bytes of a connection, and a handler of that request, while it held the response object,
      answered with exactly what the response says. */
  lemma RespondedBy(timeout: int, events: seq<Event>, r: Reply) returns (called: nat, decoded: nat, responded: nat)
    requires r in Run(timeout, events).built
    ensures called < decoded < responded < |events|
    ensures events[called].Call? && |Run(timeout, events[..called]).reqs| == r.call
    ensures events[responded].Respond? && events[decoded] == ServerDecode(events[responded].job.conn)
    ensures var Respond(job, answer) := events[responded];
            && job in Run(timeout, events[..responded]).open && job.call == r.call
            && job.req == events[called].req.(callId := (events[called].alloc + 1) % 0x1_0000_0000)
            && Says(r.content, answer) && r.content.callId == job.req.callId
  {
    responded := Flips(Stepper(timeout), INIT, events, (s: State) => r in s.built);
    BuiltStep(timeout, Run(timeout, events[..responded]), events[responded], r);
    called, decoded := DecodedBy(timeout, events[..responded], events[responded].job);
    assert events[..responded][..called] == events[..called];
  }

  /** The whole way of a response, by the events alone. As long as at most 2^32 ids have been
      allocated, whatever route hands to a callback is what a handler answered to the very request
      that was passed together with that callback. */
  lemma WhatACallbackGets(timeout: int, events: seq<Event>, i: nat) returns (called: nat, decoded: nat, responded: nat)
    requires Run(timeout, events).client.allocs <= U32
    requires i < |Run(timeout, events).log| && Run(timeout, events).log[i].reply.Some?
    ensures called < decoded < responded < |events|
    ensures events[called].Call? && |Run(timeout, events[..called]).reqs| == Run(timeout, events).log[i].callback
    ensures events[responded].Respond? && events[decoded] == ServerDecode(events[responded].job.conn)
    ensures events[responded].job.req == events[called].req.(callId := (events[called].alloc + 1) % 0x1_0000_0000)
    ensures Says(Run(timeout, events).log[i].content, events[responded].answer)
    ensures Run(timeout, events).log[i].content.callId == (events[called].alloc + 1) % 0x1_0000_0000
  {
    OwnResponseUntilWrap(timeout, events);
    var s := Run(timeout, events);
    assert OwnOrTimeout(s, s.log[i]);
    called, decoded, responded := RespondedBy(timeout, events, s.log[i].reply.value);
  }

  // ---- a request is written once, and after its callback is registered ------------------------------------

  predicate SentInv(s: State)
  {
    && (forall i, j :: 0 <= i < j < |s.sent| ==> s.sent[i] != s.sent[j])
    && (forall i :: 0 <= i < |s.sent| ==> SentOk(s, s.sent[i]))
  }

  predicate SentOk(s: State, c: nat) { c < |s.reqs| && c !in s.toPost && c !in s.client.drafts }

  lemma DraftsStep(timeout: int, c: P.State, e: P.Event)
    ensures forall r :: r in P.Step(timeout, c, e).drafts ==> r in c.drafts || (e.ReadClock? && r == |c.regs|)
  {
  }

  lemma SentOkStays(timeout: int, s: State, e: Event, c: nat)
    requires CallsInv(s) && SentOk(s, c)
    ensures SentOk(Step(timeout, s, e), c)
  {
    ClientSteps(timeout, s, e);
    var ev := ClientEvent(timeout, s, e);
    if ev.Some? {
      DraftsStep(timeout, s.client, ev.value);
    }
  }

  lemma SentStep(timeout: int, s: State, e: Event)
    ensures Step(timeout, s, e).sent == s.sent + if Enabled(timeout, s, e) && e.Post? then [e.call] else []
  {
  }

  lemma StepKeepsSent(timeout: int, s: State, e: Event)
    requires CallsInv(s) && SentInv(s)
    ensures SentInv(Step(timeout, s, e))
  {
    var s' := Step(timeout, s, e);
    SentStep(timeout, s, e);
    forall i | 0 <= i < |s'.sent| ensures SentOk(s', s'.sent[i]) {
      if i < |s.sent| {
        SentOkStays(timeout, s, e, s.sent[i]);
      }
    }
    forall i, j | 0 <= i < j < |s'.sent| ensures s'.sent[i] != s'.sent[j] {
      assert SentOk(s, s.sent[i]);
    }
  }

  /** In every run no request is handed to the writer twice, and none before add_bind_func has
      finished for it: no response can come back before its callback has been offered to the table. */
  lemma {:induction false} WrittenOnceAfterRegistering(timeout: int, events: seq<Event>)
    ensures SentInv(Run(timeout, events))
  {
    if events != [] {
      var n := |events| - 1;
      WrittenOnceAfterRegistering(timeout, events[..n]);
      RunInv(timeout, events[..n]);
      StepKeepsSent(timeout, Run(timeout, events[..n]), events[n]);
    }
  }

  lemma WipeWipes(timeout: int, c: P.State)
    requires P.ShapeInv(c) && c.io.Idle?
    ensures var c' := P.Step(timeout, c, P.Wipe);
            c'.table == map[] && forall r :: P.InTable(c, r) ==> r in c'.wiped
  {
    forall r: nat | P.InTable(c, r) ensures r in P.RegsOf(c.table, c.table.Keys) {
      P.RegsOfIds(c, c.table.Keys, r);
    }
  }

  lemma ReplaceAdds(fmt: Format, s: F.State)
    ensures var conns := F.Step(fmt, s, F.Replace).conns;
            |conns| == |s.conns| + 1 && conns[|s.conns|] == F.NEW_CONN
  {
  }

  /** A reconnect starts afresh: the table is empty and what was pending counts as wiped, and both
      directions go on with a new connection. */
  lemma ReconnectStartsAfresh(timeout: int, s: State)
    requires Inv(timeout, s) && s.client.io.Idle?
    ensures var s' := DoReconnect(timeout, s);
            && s' == Step(timeout, s, Reconnect)
            && s'.client.table == map[] && (forall r :: P.InTable(s.client, r) ==> r in s'.client.wiped)
            && |s'.up.conns| == |s.up.conns| + 1 && s'.up.conns[|s.up.conns|] == F.NEW_CONN
            && s'.down == s.down + [NEW_DOWN] && s'.replies == s.replies + [[]]
  {
    WipeWipes(timeout, s.client);
    ReplaceAdds(REQUEST, s.up);
  }
}
