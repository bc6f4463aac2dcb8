/** The asynchronous client, the network and the server as one system, down to the bytes: register,
    queue, write, break, read, decode, work, echo the id, write back, read, route, time out,
    reconnect. A call is named by its registration; the code only ever compares the four-byte id
    that it cuts out of the bytes. */
module RpcSystem {
  import opened Basics
  import opened Bytes
  import opened Frames
  import opened Machine
  import opened Protocol
  import F = FrameStream
  import P = PendingCalls
  import R = Reader
  import SendQueue
  import Tables

  /** A request at the server: the connection it came on and its decoded content. `call` is the
      call whose bytes these were. */
  datatype Job = Job(call: nat, conn: nat, req: RequestContent)

  /** A response the server built, and the call whose request it was built for. */
  datatype Reply = Reply(call: nat, content: ResponseContent)

  /** A callback handed to the client's pool: whose callback, with which content, and, if route
      handed it over, the reply whose bytes these were. */
  datatype Dispatch = Dispatch(callback: nat, content: ResponseContent, reply: Option<Reply>)

  /** What a handler can do with its response object, or the server itself for an unknown
      protocol. */
  datatype Answer = SetMessage(name: seq<byte>, data: seq<byte>) | SetRaw(data: seq<byte>) | RouteFailed

  /** `reqs`, `allocOf`: request content and async_call number of every call. `toPost`: registered,
      not yet written. `up`: the client's writer, its connections and the server's readers.
      `sent[i]`: the call whose request is the i-th buffer posted to that writer. `pool`: the
      server's task queue. `open`: requests whose response object some handler still holds.
      `down[c]`: the server's writer for connection c and the client's reader. `replies[c][i]`: the
      reply that is the i-th buffer posted there. `held`: the reply route is working on. `built`:
      every reply ever built. `log`: every callback handed over, by route or by the sweep. */
  datatype State = State(
    client: P.State, reqs: seq<RequestContent>, allocOf: seq<nat>, toPost: set<nat>,
    up: F.State, sent: seq<nat>, pool: seq<Job>, open: set<Job>,
    down: seq<F.State>, replies: seq<seq<Reply>>,
    held: Reply, built: set<Reply>, log: seq<Dispatch>)

  datatype Event =
    | Local(e: P.Event)                        // counter, emplace, erase, dispatch, clock
    | Sweep(order: seq<nat>, junk: seq<u32>)   // the timeouts, in the order of the table's iteration
    | Call(alloc: nat, req: RequestContent)    // result() reads the clock for add_bind_func
    | Post(call: nat)                          // ... and after the emplace writes the request
    | Up(ev: F.Event)                          // the client's writer and socket, the server's reads
    | ServerDecode(c: nat)                     // the server cuts a request and queues it
    | Work                                     // a worker takes the oldest task
    | Respond(job: Job, answer: Answer) | Close(job: Job)
    | Down(c: nat, ev: F.Event)                // the server's writer, the client's reads
    | Receive                                  // the client cuts a response; route's find
    | Reconnect                                // new connection, table wiped

  const NOBODY := Reply(0, ResponseContent(0, OK, [], []))
  const NEW_DOWN := F.State(SendQueue.Init(false), -1, 0, [F.NEW_CONN])
  const INIT := State(P.INIT, [], [], {}, F.Init(false), [], [], {}, [], [], NOBODY, {}, [])

  /** The response content each kind of answer sends, if it sends any: the id is an echo. */
  function Build(callId: u32, a: Answer): (r: seq<ResponseContent>)
    ensures forall c :: c in r ==> c.callId == callId
  {
    match a
    case SetMessage(name, data) => if name != [] && data != [] then [ResponseContent(callId, OK, name, data)] else []
    case SetRaw(data) => if data != [] then [ResponseContent(callId, OK, [], data)] else []
    case RouteFailed => [ResponseContent(callId, ROUTE_FAILED, [], [])]
  }

  predicate IsLocal(e: P.Event)
  {
    e.Tick? || e.Alloc? || e.Emplace? || e.RouteErase? || e.RouteDispatch? || e.SweepRead?
  }

  /** Steps of a stream other than posting, replacing its connection and cutting a frame. */
  predicate IsPlain(ev: F.Event)
  {
    !ev.Post? && !ev.Replace? && !(ev.Server? && ev.ev.Decode?)
  }

  predicate CanCut(fmt: Format, conn: F.Conn)
  {
    R.Enabled(fmt, conn.reader.reader, R.Decode) && |conn.reader.reader.head| == fmt.fields
  }

  /** The number of the buffer a connection's reader cuts next. */
  function NextId(conn: F.Conn): nat
  {
    var k := |conn.reader.reader.out|;
    if k < |conn.full| then conn.full[k].id else 0
  }

  function Lookup<T>(xs: seq<T>, i: nat, other: T): T { if i < |xs| then xs[i] else other }

  predicate Enabled(timeout: int, s: State, e: Event)
  {
    match e
    case Local(ev) => IsLocal(ev)
    case Sweep(order, junk) =>
      && s.client.timer.Read? && |junk| == |order|
      && Tables.Once(order) && (set r | r in order) == P.Swept(timeout, s.client)
    case Call(alloc, req) => alloc < s.client.allocs && alloc !in s.allocOf
    case Post(c) => c in s.toPost && c !in s.client.drafts && c < |s.reqs| && RequestShort(s.reqs[c])
    case Up(ev) => IsPlain(ev)
    case ServerDecode(c) => c < |s.up.conns| && CanCut(REQUEST, s.up.conns[c])
    case Work => s.pool != []
    case Respond(job, answer) =>
      job in s.open && job.conn < |s.down| && job.conn < |s.replies|
      && forall c :: c in Build(job.req.callId, answer) ==> ResponseShort(c)
    case Close(_) => true
    case Down(c, ev) => c < |s.down| && IsPlain(ev) && !ev.SetResend?
    case Receive =>
      s.client.io.Idle? && s.down != [] && |s.replies| == |s.down|
      && s.down[|s.down| - 1].conns != [] && CanCut(RESPONSE, s.down[|s.down| - 1].conns[0])
    case Reconnect => s.client.io.Idle?
  }

  function DoLocal(timeout: int, s: State, e: P.Event): State
  {
    var io := s.client.io;
    s.(client := P.Step(timeout, s.client, e),
       log := s.log + if e.RouteDispatch? && io.Erased? then [Dispatch(io.entry.reg, io.content, Some(s.held))] else [])
  }

  function Timeouts(order: seq<nat>, junk: seq<u32>): (log: seq<Dispatch>)
    requires |junk| == |order|
    ensures |log| == |order|
    ensures forall i :: 0 <= i < |log| ==> log[i] == Dispatch(order[i], P.TimeoutContent(junk[i]), None)
  {
    seq(|order|, i requires 0 <= i < |order| => Dispatch(order[i], P.TimeoutContent(junk[i]), None))
  }

  function DoCall(timeout: int, s: State, alloc: nat, req: RequestContent): State
  {
    s.(client := P.Step(timeout, s.client, P.ReadClock(alloc)),
       reqs := s.reqs + [req.(callId := P.IdOf(alloc))],
       allocOf := s.allocOf + [alloc],
       toPost := s.toPost + {|s.reqs|})
  }

  function DoPost(s: State, c: nat): State
    requires c < |s.reqs|
  {
    s.(toPost := s.toPost - {c}, sent := s.sent + [c],
       up := F.Step(REQUEST, s.up, F.Post(RequestFrame(s.reqs[c]))))
  }

  /** The request a server connection cuts out of its bytes. */
  function CutRequest(conn: F.Conn): RequestContent
    requires CanCut(REQUEST, conn)
  {
    var r := conn.reader.reader;
    NoWrap(REQUEST, r.head);
    MakeRequest(r.head, r.content)
  }

  function CutResponse(conn: F.Conn): ResponseContent
    requires CanCut(RESPONSE, conn)
  {
    var r := conn.reader.reader;
    NoWrap(RESPONSE, r.head);
    MakeResponse(r.head, r.content)
  }

  function DoServerDecode(s: State, c: nat): State
    requires c < |s.up.conns| && CanCut(REQUEST, s.up.conns[c])
  {
    var conn := s.up.conns[c];
    s.(up := F.Step(REQUEST, s.up, F.Server(c, R.Decode)),
       pool := s.pool + [Job(Lookup(s.sent, NextId(conn), 0), c, CutRequest(conn))])
  }

  function DoRespond(s: State, job: Job, answer: Answer): State
    requires job.conn < |s.down| && job.conn < |s.replies|
  {
    var contents := Build(job.req.callId, answer);
    if contents == [] then s
    else
      var c, reply := job.conn, Reply(job.call, contents[0]);
      s.(built := s.built + {reply},
         down := s.down[c := F.Step(RESPONSE, s.down[c], F.Post(ResponseFrame(reply.content)))],
         replies := s.replies[c := s.replies[c] + [reply]])
  }

  function DoReceive(timeout: int, s: State): State
    requires s.down != [] && |s.replies| == |s.down|
    requires s.down[|s.down| - 1].conns != [] && CanCut(RESPONSE, s.down[|s.down| - 1].conns[0])
  {
    var c := |s.down| - 1;
    var conn := s.down[c].conns[0];
    s.(down := s.down[c := F.Step(RESPONSE, s.down[c], F.Server(0, R.Decode))],
       held := Lookup(s.replies[c], NextId(conn), NOBODY),
       client := P.Step(timeout, s.client, P.RouteFind(CutResponse(conn))))
  }

  function DoReconnect(timeout: int, s: State): State
  {
    s.(up := F.Step(REQUEST, s.up, F.Replace), down := s.down + [NEW_DOWN], replies := s.replies + [[]],
       client := P.Step(timeout, s.client, P.Wipe))
  }

  function Step(timeout: int, s: State, e: Event): State
  {
    if !Enabled(timeout, s, e) then s
    else match e
      case Local(ev) => DoLocal(timeout, s, ev)
      case Sweep(order, junk) =>
        s.(client := P.Step(timeout, s.client, P.Sweep), log := s.log + Timeouts(order, junk))
      case Call(alloc, req) => DoCall(timeout, s, alloc, req)
      case Post(c) => DoPost(s, c)
      case Up(ev) => s.(up := F.Step(REQUEST, s.up, ev))
      case ServerDecode(c) => DoServerDecode(s, c)
      case Work => s.(pool := s.pool[1..], open := s.open + {s.pool[0]})
      case Respond(job, answer) => DoRespond(s, job, answer)
      case Close(job) => s.(open := s.open - {job})
      case Down(c, ev) => s.(down := s.down[c := F.Step(RESPONSE, s.down[c], ev)])
      case Receive => DoReceive(timeout, s)
      case Reconnect => DoReconnect(timeout, s)
  }

  function Stepper(timeout: int): (State, Event) -> State { (s, e) => Step(timeout, s, e) }

  function Run(timeout: int, events: seq<Event>): State
  {
    Exec(Stepper(timeout), INIT, events)
  }

  // ---- the two streams -------------------------------------------------------------------------------

  /** What was posted upwards are the requests of the calls in `sent`. */
  ghost predicate UpOk(up: F.State, sent: seq<nat>, reqs: seq<RequestContent>)
  {
    F.Inv(REQUEST, up) && Requests(up.w.posted, sent, reqs)
  }

  predicate Requests(posted: seq<F.Buffer>, sent: seq<nat>, reqs: seq<RequestContent>)
  {
    && |sent| == |posted|
    && forall i :: 0 <= i < |sent| ==> sent[i] < |reqs| && posted[i].data == RequestFrame(reqs[sent[i]])
  }

  lemma RequestsAppend(posted: seq<F.Buffer>, sent: seq<nat>, reqs: seq<RequestContent>, b: F.Buffer, c: nat)
    requires Requests(posted, sent, reqs) && c < |reqs| && b.data == RequestFrame(reqs[c])
    ensures Requests(posted + [b], sent + [c], reqs)
  {
  }

  lemma UpStep(up: F.State, sent: seq<nat>, reqs: seq<RequestContent>, ev: F.Event)
    requires UpOk(up, sent, reqs) && !ev.Post?
    ensures UpOk(F.Step(REQUEST, up, ev), sent, reqs)
  {
    F.StepKeepsInv(REQUEST, up, ev);
    F.StepPosts(REQUEST, up, ev);
  }

  lemma UpPost(up: F.State, sent: seq<nat>, reqs: seq<RequestContent>, c: nat)
    requires UpOk(up, sent, reqs) && c < |reqs| && RequestShort(reqs[c])
    ensures UpOk(F.Step(REQUEST, up, F.Post(RequestFrame(reqs[c]))), sent + [c], reqs)
  {
    var f := RequestFrame(reqs[c]);
    RequestShortIff(reqs[c]);
    F.StepKeepsInv(REQUEST, up, F.Post(f));
    F.StepPosts(REQUEST, up, F.Post(f));
    RequestsAppend(up.w.posted, sent, reqs, SendQueue.Buffer(|up.w.posted|, f), c);
  }

  lemma UpGrows(up: F.State, sent: seq<nat>, reqs: seq<RequestContent>, more: seq<RequestContent>)
    requires UpOk(up, sent, reqs)
    ensures UpOk(up, sent, reqs + more)
  {
  }

  /** What the server cuts out of the bytes is, to the last field, the request of the call whose
      buffer it is. */
  lemma DecodedRequest(up: F.State, sent: seq<nat>, reqs: seq<RequestContent>, c: nat)
    requires UpOk(up, sent, reqs) && c < |up.conns| && CanCut(REQUEST, up.conns[c])
    ensures var id := NextId(up.conns[c]);
            id < |sent| && sent[id] < |reqs| && CutRequest(up.conns[c]) == reqs[sent[id]]
  {
    F.NextDecoded(REQUEST, up, c);
    RequestInjective(CutRequest(up.conns[c]), reqs[sent[NextId(up.conns[c])]]);
  }

  /** What was posted downwards on a connection are the replies in `rs`. */
  ghost predicate DownOk(d: F.State, rs: seq<Reply>)
  {
    F.Inv(RESPONSE, d) && |d.conns| == 1 && Responses(d.w.posted, rs)
  }

  predicate Responses(posted: seq<F.Buffer>, rs: seq<Reply>)
  {
    |rs| == |posted| && forall i :: 0 <= i < |rs| ==> posted[i].data == ResponseFrame(rs[i].content)
  }

  lemma ResponsesAppend(posted: seq<F.Buffer>, rs: seq<Reply>, b: F.Buffer, reply: Reply)
    requires Responses(posted, rs) && b.data == ResponseFrame(reply.content)
    ensures Responses(posted + [b], rs + [reply])
  {
  }

  lemma DownStep(d: F.State, rs: seq<Reply>, ev: F.Event)
    requires DownOk(d, rs) && !ev.Post? && !ev.Replace?
    ensures DownOk(F.Step(RESPONSE, d, ev), rs)
  {
    F.StepKeepsInv(RESPONSE, d, ev);
    F.StepPosts(RESPONSE, d, ev);
  }

  lemma DownPost(d: F.State, rs: seq<Reply>, reply: Reply)
    requires DownOk(d, rs) && ResponseShort(reply.content)
    ensures DownOk(F.Step(RESPONSE, d, F.Post(ResponseFrame(reply.content))), rs + [reply])
  {
    var f := ResponseFrame(reply.content);
    ResponseShortIff(reply.content);
    F.StepKeepsInv(RESPONSE, d, F.Post(f));
    F.StepPosts(RESPONSE, d, F.Post(f));
    ResponsesAppend(d.w.posted, rs, SendQueue.Buffer(|d.w.posted|, f), reply);
  }

  lemma NewDownOk()
    ensures DownOk(NEW_DOWN, [])
  {
    F.RunInv(RESPONSE, false, []);
    F.StepKeepsInv(RESPONSE, F.Init(false), F.Replace);
    assert F.Step(RESPONSE, F.Init(false), F.Replace) == NEW_DOWN;
  }

  /** The i-th reply posted on this connection has not been cut out of its bytes yet. */
  predicate Undelivered(conn: F.Conn, i: nat)
  {
    forall k :: 0 <= k < |conn.reader.reader.out| && k < |conn.full| ==> conn.full[k].id != i
  }

  /** What the client cuts out of the bytes is a reply posted on that connection and not yet
      delivered. */
  lemma DecodedResponse(d: F.State, rs: seq<Reply>)
    requires DownOk(d, rs) && CanCut(RESPONSE, d.conns[0])
    ensures var id := NextId(d.conns[0]);
            id < |rs| && CutResponse(d.conns[0]) == rs[id].content && Undelivered(d.conns[0], id)
  {
    F.NextDecoded(RESPONSE, d, 0);
    ResponseInjective(CutResponse(d.conns[0]), rs[NextId(d.conns[0])].content);
  }

  ghost predicate UpInv(s: State) { UpOk(s.up, s.sent, s.reqs) }

  ghost predicate DownInv(s: State) { |s.down| == |s.up.conns| && DownsOk(s.down, s.replies) }

  ghost predicate DownsOk(down: seq<F.State>, replies: seq<seq<Reply>>)
  {
    |down| == |replies| && forall c :: 0 <= c < |down| ==> DownOk(down[c], replies[c])
  }

  lemma DownsUpdate(down: seq<F.State>, replies: seq<seq<Reply>>, c: nat, d: F.State, rs: seq<Reply>)
    requires DownsOk(down, replies) && c < |down| && DownOk(d, rs)
    ensures DownsOk(down[c := d], replies[c := rs])
  {
  }

  lemma DownsStep(down: seq<F.State>, replies: seq<seq<Reply>>, c: nat, ev: F.Event)
    requires DownsOk(down, replies) && c < |down| && !ev.Post? && !ev.Replace?
    ensures DownsOk(down[c := F.Step(RESPONSE, down[c], ev)], replies)
  {
    DownStep(down[c], replies[c], ev);
    DownsUpdate(down, replies, c, F.Step(RESPONSE, down[c], ev), replies[c]);
    assert replies[c := replies[c]] == replies;
  }

  lemma DownsPost(down: seq<F.State>, replies: seq<seq<Reply>>, c: nat, reply: Reply)
    requires DownsOk(down, replies) && c < |down| && ResponseShort(reply.content)
    ensures DownsOk(down[c := F.Step(RESPONSE, down[c], F.Post(ResponseFrame(reply.content)))],
                    replies[c := replies[c] + [reply]])
  {
    DownPost(down[c], replies[c], reply);
    DownsUpdate(down, replies, c, F.Step(RESPONSE, down[c], F.Post(ResponseFrame(reply.content))), replies[c] + [reply]);
  }

  lemma DownsNew(down: seq<F.State>, replies: seq<seq<Reply>>)
    requires DownsOk(down, replies)
    ensures DownsOk(down + [NEW_DOWN], replies + [[]])
  {
    NewDownOk();
  }

  lemma PostKeepsUp(timeout: int, s: State, c: nat)
    requires UpInv(s) && Enabled(timeout, s, Post(c))
    ensures UpInv(Step(timeout, s, Post(c)))
  {
    UpPost(s.up, s.sent, s.reqs, c);
  }

  lemma CallKeepsUp(timeout: int, s: State, alloc: nat, req: RequestContent)
    requires UpInv(s) && Enabled(timeout, s, Call(alloc, req))
    ensures UpInv(Step(timeout, s, Call(alloc, req)))
  {
    UpGrows(s.up, s.sent, s.reqs, [req.(callId := P.IdOf(alloc))]);
  }

  lemma OthersKeepUp(timeout: int, s: State, e: Event)
    requires UpInv(s) && !(Enabled(timeout, s, e) && (e.Post? || e.Call?))
    ensures UpInv(Step(timeout, s, e))
  {
    UpSteps(timeout, s, e);
    var ev := UpEvent(timeout, s, e);
    if ev.Some? {
      UpStep(s.up, s.sent, s.reqs, ev.value);
    }
    OthersPostNothing(timeout, s, e);
  }

  lemma OthersPostNothing(timeout: int, s: State, e: Event)
    requires !(Enabled(timeout, s, e) && (e.Post? || e.Call?))
    ensures Step(timeout, s, e).sent == s.sent && Step(timeout, s, e).reqs == s.reqs
    ensures UpEvent(timeout, s, e).Some? ==> !UpEvent(timeout, s, e).value.Post?
  {
  }

  lemma StepKeepsUp(timeout: int, s: State, e: Event)
    requires UpInv(s)
    ensures UpInv(Step(timeout, s, e))
  {
    if Enabled(timeout, s, e) && e.Post? {
      PostKeepsUp(timeout, s, e.call);
    } else if Enabled(timeout, s, e) && e.Call? {
      CallKeepsUp(timeout, s, e.alloc, e.req);
    } else {
      OthersKeepUp(timeout, s, e);
    }
  }

  lemma RespondKeepsDown(s: State, job: Job, answer: Answer)
    requires DownInv(s) && job.conn < |s.down|
    requires forall c :: c in Build(job.req.callId, answer) ==> ResponseShort(c)
    ensures DownInv(DoRespond(s, job, answer))
  {
    var contents := Build(job.req.callId, answer);
    if contents != [] {
      assert contents[0] in contents;
      DownsPost(s.down, s.replies, job.conn, Reply(job.call, contents[0]));
    }
  }

  lemma ReconnectKeepsDown(timeout: int, s: State)
    requires DownInv(s)
    ensures DownInv(DoReconnect(timeout, s))
  {
    F.StepPosts(REQUEST, s.up, F.Replace);
    DownsNew(s.down, s.replies);
  }

  lemma DownEventKeepsDown(timeout: int, s: State, c: nat, ev: F.Event)
    requires DownInv(s) && Enabled(timeout, s, Down(c, ev))
    ensures DownInv(Step(timeout, s, Down(c, ev)))
  {
    DownsStep(s.down, s.replies, c, ev);
  }

  lemma ReceiveMoves(timeout: int, s: State)
    requires Enabled(timeout, s, Receive)
    ensures var s', c := Step(timeout, s, Receive), |s.down| - 1;
            && s'.held == Lookup(s.replies[c], NextId(s.down[c].conns[0]), NOBODY)
            && s'.down == s.down[c := F.Step(RESPONSE, s.down[c], F.Server(0, R.Decode))]
            && s'.replies == s.replies && s'.up == s.up
  {
  }

  lemma ReceiveKeepsDown(timeout: int, s: State)
    requires DownInv(s) && Enabled(timeout, s, Receive)
    ensures DownInv(Step(timeout, s, Receive))
  {
    ReceiveMoves(timeout, s);
    DownsStep(s.down, s.replies, |s.down| - 1, F.Server(0, R.Decode));
  }

  /** The step of the client's stream that a step of the system takes, if any. */
  function UpEvent(timeout: int, s: State, e: Event): Option<F.Event>
  {
    if !Enabled(timeout, s, e) then None
    else match e
      case Post(c) => Some(F.Post(RequestFrame(s.reqs[c])))
      case Up(ev) => Some(ev)
      case ServerDecode(c) => Some(F.Server(c, R.Decode))
      case Reconnect => Some(F.Replace)
      case _ => None
  }

  lemma UpSteps(timeout: int, s: State, e: Event)
    ensures var ev := UpEvent(timeout, s, e);
            Step(timeout, s, e).up == if ev.Some? then F.Step(REQUEST, s.up, ev.value) else s.up
  {
  }

  lemma OthersKeepDown(timeout: int, s: State, e: Event)
    requires !Enabled(timeout, s, e) || !(e.Respond? || e.Down? || e.Receive? || e.Reconnect?)
    ensures var s' := Step(timeout, s, e);
            s'.down == s.down && s'.replies == s.replies && |s'.up.conns| == |s.up.conns|
  {
    UpSteps(timeout, s, e);
    var ev := UpEvent(timeout, s, e);
    if ev.Some? {
      F.StepPosts(REQUEST, s.up, ev.value);
    }
  }

  lemma StepKeepsDown(timeout: int, s: State, e: Event)
    requires DownInv(s)
    ensures DownInv(Step(timeout, s, e))
  {
    if !Enabled(timeout, s, e) {
    } else if e.Respond? {
      RespondKeepsDown(s, e.job, e.answer);
    } else if e.Down? {
      DownEventKeepsDown(timeout, s, e.c, e.ev);
    } else if e.Receive? {
      ReceiveKeepsDown(timeout, s);
    } else if e.Reconnect? {
      ReconnectKeepsDown(timeout, s);
    } else {
      OthersKeepDown(timeout, s, e);
    }
  }

  // ---- every stage keeps a call's id ------------------------------------------------------------------

  predicate JobOk(s: State, j: Job) { j.call < |s.reqs| && j.req == s.reqs[j.call] }

  predicate ReplyOk(s: State, r: Reply)
  {
    r in s.built && r.call < |s.reqs| && r.content.callId == s.reqs[r.call].callId
  }

  ghost predicate CallsInv(s: State)
  {
    && |s.reqs| == |s.allocOf| == |s.client.regs|
    && (forall c :: 0 <= c < |s.reqs| ==>
          && s.reqs[c].callId == s.client.regs[c].callId == P.IdOf(s.allocOf[c])
          && s.allocOf[c] < s.client.allocs)
    && (forall c, d :: 0 <= c < d < |s.reqs| ==> s.allocOf[c] != s.allocOf[d])
  }

  ghost predicate JobsInv(s: State)
  {
    && (forall i :: 0 <= i < |s.pool| ==> JobOk(s, s.pool[i]))
    && (forall j :: j in s.open ==> JobOk(s, j))
  }

  ghost predicate RepliesInv(s: State)
  {
    forall c, i :: 0 <= c < |s.replies| && 0 <= i < |s.replies[c]| ==> ReplyOk(s, s.replies[c][i])
  }

  ghost predicate HeldInv(s: State)
  {
    !s.client.io.Idle? ==> ReplyOk(s, s.held) && s.client.io.content == s.held.content
  }

  /** Route hands over replies and the sweep hands over timeouts. */
  predicate LogOk(s: State, d: Dispatch)
  {
    match d.reply
    case Some(r) => ReplyOk(s, r) && d.content == r.content
    case None => d.content.code == REQUEST_TIMEOUT
  }

  ghost predicate LogInv(s: State)
  {
    forall i :: 0 <= i < |s.log| ==> LogOk(s, s.log[i])
  }

  ghost predicate Inv(timeout: int, s: State)
  {
    && P.Inv(timeout, s.client) && CallsInv(s) && UpInv(s) && DownInv(s)
    && JobsInv(s) && RepliesInv(s) && HeldInv(s) && LogInv(s)
  }

  lemma ClientKeeps(timeout: int, c: P.State, e: P.Event)
    ensures var c' := P.Step(timeout, c, e);
            && c'.allocs >= c.allocs
            && (!e.ReadClock? ==> c'.regs == c.regs)
            && (e.ReadClock? || e.Wipe? || e.Sweep? ==> c'.io == c.io)
            && (e.RouteFind? && c.io.Idle? && !c'.io.Idle? ==> c'.io.content == e.content)
            && (IsLocal(e) && !c'.io.Idle? ==> !c.io.Idle? && c'.io.content == c.io.content && c'.io.entry == c.io.entry)
  {
  }

  /** The step of the client's table that a step of the system takes, if any. */
  function ClientEvent(timeout: int, s: State, e: Event): Option<P.Event>
  {
    if !Enabled(timeout, s, e) then None
    else match e
      case Local(ev) => Some(ev)
      case Sweep(_, _) => Some(P.Sweep)
      case Call(alloc, _) => Some(P.ReadClock(alloc))
      case Receive => Some(P.RouteFind(CutResponse(s.down[|s.down| - 1].conns[0])))
      case Reconnect => Some(P.Wipe)
      case _ => None
  }

  lemma ClientSteps(timeout: int, s: State, e: Event)
    ensures var ev := ClientEvent(timeout, s, e);
            Step(timeout, s, e).client == if ev.Some? then P.Step(timeout, s.client, ev.value) else s.client
  {
  }

  lemma StepKeepsClient(timeout: int, s: State, e: Event)
    requires P.Inv(timeout, s.client)
    ensures P.Inv(timeout, Step(timeout, s, e).client)
  {
    ClientSteps(timeout, s, e);
    var ev := ClientEvent(timeout, s, e);
    if ev.Some? {
      P.StepKeepsInv(timeout, s.client, ev.value);
    }
  }

  lemma StepKeepsCalls(timeout: int, s: State, e: Event)
    requires CallsInv(s)
    ensures CallsInv(Step(timeout, s, e))
  {
    if Enabled(timeout, s, e) && e.Call? {
      assert Step(timeout, s, e).client.regs == s.client.regs + [P.Reg(P.IdOf(e.alloc), s.client.now)];
    } else {
      ClientSteps(timeout, s, e);
      OnlyCallsCall(timeout, s, e);
      var ev := ClientEvent(timeout, s, e);
      if ev.Some? {
        ClientKeeps(timeout, s.client, ev.value);
      }
    }
  }

  lemma OnlyCallsCall(timeout: int, s: State, e: Event)
    requires !(Enabled(timeout, s, e) && e.Call?)
    ensures var s' := Step(timeout, s, e);
            s'.reqs == s.reqs && s'.allocOf == s.allocOf
    ensures var ev := ClientEvent(timeout, s, e);
            ev.Some? ==> !ev.value.ReadClock?
  {
  }

  /** More calls are made and more replies built; what there is stays what it is. */
  lemma Grows(timeout: int, s: State, e: Event)
    ensures var s' := Step(timeout, s, e);
            s.reqs <= s'.reqs && s.built <= s'.built
  {
  }

  lemma OkGrows(s: State, s': State)
    requires s.reqs <= s'.reqs && s.built <= s'.built
    ensures forall j :: JobOk(s, j) ==> JobOk(s', j)
    ensures forall r :: ReplyOk(s, r) ==> ReplyOk(s', r)
  {
  }

  lemma ServerDecodeKeepsJobs(s: State, c: nat)
    requires UpInv(s) && JobsInv(s) && c < |s.up.conns| && CanCut(REQUEST, s.up.conns[c])
    ensures JobsInv(DoServerDecode(s, c))
  {
    var s' := DoServerDecode(s, c);
    DecodedRequest(s.up, s.sent, s.reqs, c);
    OkGrows(s, s');
    assert JobOk(s', s'.pool[|s.pool|]);
  }

  lemma StepKeepsJobs(timeout: int, s: State, e: Event)
    requires UpInv(s) && JobsInv(s)
    ensures JobsInv(Step(timeout, s, e))
  {
    if Enabled(timeout, s, e) && e.ServerDecode? {
      ServerDecodeKeepsJobs(s, e.c);
    } else {
      Grows(timeout, s, e);
      OkGrows(s, Step(timeout, s, e));
      OthersMoveJobs(timeout, s, e);
    }
  }

  lemma OthersMoveJobs(timeout: int, s: State, e: Event)
    requires !(Enabled(timeout, s, e) && e.ServerDecode?)
    ensures var s' := Step(timeout, s, e);
            && (s'.pool == s.pool || (s.pool != [] && s'.pool == s.pool[1..]))
            && forall j :: j in s'.open ==> j in s.open || (s.pool != [] && j == s.pool[0])
  {
  }

  lemma RespondKeepsReplies(s: State, job: Job, answer: Answer)
    requires RepliesInv(s) && JobOk(s, job) && job.conn < |s.down| && job.conn < |s.replies|
    ensures RepliesInv(DoRespond(s, job, answer))
  {
    var s' := DoRespond(s, job, answer);
    var contents := Build(job.req.callId, answer);
    OkGrows(s, s');
    if contents != [] {
      assert contents[0] in contents;
      assert ReplyOk(s', Reply(job.call, contents[0]));
    }
  }

  lemma StepKeepsReplies(timeout: int, s: State, e: Event)
    requires JobsInv(s) && RepliesInv(s)
    ensures RepliesInv(Step(timeout, s, e))
  {
    if Enabled(timeout, s, e) && e.Respond? {
      RespondKeepsReplies(s, e.job, e.answer);
    } else {
      Grows(timeout, s, e);
      OkGrows(s, Step(timeout, s, e));
      OthersAddNoReply(timeout, s, e);
    }
  }

  lemma OthersAddNoReply(timeout: int, s: State, e: Event)
    requires !(Enabled(timeout, s, e) && e.Respond?)
    ensures var s' := Step(timeout, s, e);
            s'.replies == s.replies || s'.replies == s.replies + [[]]
  {
  }

  /** The reply the client takes in, and the content it cuts. */
  lemma ReceiveTakes(timeout: int, s: State)
    requires DownInv(s) && RepliesInv(s) && Enabled(timeout, s, Receive)
    ensures var rs, conn, r := s.replies[|s.down| - 1], s.down[|s.down| - 1].conns[0], Step(timeout, s, Receive).held;
            && NextId(conn) < |rs| && rs[NextId(conn)] == r && Undelivered(conn, NextId(conn))
            && CutResponse(conn) == r.content && ReplyOk(s, r)
  {
    var c := |s.down| - 1;
    var id := NextId(s.down[c].conns[0]);
    DecodedResponse(s.down[c], s.replies[c]);
    ReceiveHolds(timeout, s, id);
    ReplyAt(s, c, id);
  }

  lemma ReceiveHolds(timeout: int, s: State, id: nat)
    requires Enabled(timeout, s, Receive)
    requires id == NextId(s.down[|s.down| - 1].conns[0]) && id < |s.replies[|s.down| - 1]|
    ensures Step(timeout, s, Receive).held == s.replies[|s.down| - 1][id]
  {
  }

  lemma ReplyAt(s: State, c: nat, i: nat)
    requires RepliesInv(s) && c < |s.replies| && i < |s.replies[c]|
    ensures ReplyOk(s, s.replies[c][i])
  {
  }

  lemma StepKeepsHeld(timeout: int, s: State, e: Event)
    requires DownInv(s) && RepliesInv(s) && HeldInv(s)
    ensures HeldInv(Step(timeout, s, e))
  {
    Grows(timeout, s, e);
    OkGrows(s, Step(timeout, s, e));
    ClientSteps(timeout, s, e);
    var ev := ClientEvent(timeout, s, e);
    if ev.Some? {
      ClientKeeps(timeout, s.client, ev.value);
    }
    if Enabled(timeout, s, e) && e.Receive? {
      ReceiveTakes(timeout, s);
    } else {
      OthersHold(timeout, s, e);
    }
  }

  lemma OthersHold(timeout: int, s: State, e: Event)
    requires !(Enabled(timeout, s, e) && e.Receive?)
    ensures Step(timeout, s, e).held == s.held
    ensures var ev := ClientEvent(timeout, s, e);
            ev.Some? ==> IsLocal(ev.value) || ev.value.Sweep? || ev.value.ReadClock? || ev.value.Wipe?
  {
  }

  /** What a step adds to the log. */
  lemma LogSteps(timeout: int, s: State, e: Event)
    ensures Step(timeout, s, e).log == s.log + Added(timeout, s, e)
  {
  }

  function Added(timeout: int, s: State, e: Event): seq<Dispatch>
  {
    if !Enabled(timeout, s, e) then []
    else if e.Sweep? then Timeouts(e.order, e.junk)
    else if e.Local? && e.e.RouteDispatch? && s.client.io.Erased? then
      [Dispatch(s.client.io.entry.reg, s.client.io.content, Some(s.held))]
    else []
  }

  lemma StepKeepsLog(timeout: int, s: State, e: Event)
    requires HeldInv(s) && LogInv(s)
    ensures LogInv(Step(timeout, s, e))
  {
    var s' := Step(timeout, s, e);
    Grows(timeout, s, e);
    OkGrows(s, s');
    LogSteps(timeout, s, e);
    forall i | 0 <= i < |s'.log| ensures LogOk(s', s'.log[i]) {
      if i < |s.log| {
        assert s'.log[i] == s.log[i] && LogOk(s, s.log[i]);
      } else {
        assert s'.log[i] == Added(timeout, s, e)[i - |s.log|];
      }
    }
  }

  lemma StepKeepsInv(timeout: int, s: State, e: Event)
    requires Inv(timeout, s)
    ensures Inv(timeout, Step(timeout, s, e))
  {
    StepKeepsClient(timeout, s, e);
    StepKeepsCalls(timeout, s, e);
    StepKeepsUp(timeout, s, e);
    StepKeepsDown(timeout, s, e);
    StepKeepsJobs(timeout, s, e);
    StepKeepsReplies(timeout, s, e);
    StepKeepsHeld(timeout, s, e);
    StepKeepsLog(timeout, s, e);
  }

  lemma InitInv(timeout: int)
    ensures Inv(timeout, INIT)
  {
    P.RunInv(timeout, []);
    F.RunInv(REQUEST, false, []);
  }

  lemma RunInv(timeout: int, events: seq<Event>)
    ensures Inv(timeout, Run(timeout, events))
  {
    var inv := s => Inv(timeout, s);
    forall s, e | inv(s) ensures inv(Stepper(timeout)(s, e)) {
      StepKeepsInv(timeout, s, e);
    }
    InitInv(timeout);
    Always(Stepper(timeout), inv, INIT, events);
  }

  // ---- pairing --------------------------------------------------------------------------------------

  /** Some reply to call c is on its way on the current connection. */
  predicate Awaited(s: State, c: nat)
    requires |s.replies| == |s.down| > 0 && s.down[|s.down| - 1].conns != []
  {
    var last := |s.down| - 1;
    exists i :: 0 <= i < |s.replies[last]| && s.replies[last][i].call == c && Undelivered(s.down[last].conns[0], i)
  }

  /** A call is live while its entry is pending or a reply to it is on its way. */
  predicate Live(s: State, c: nat)
  {
    || P.InTable(s.client, c)
    || (|s.replies| == |s.down| > 0 && s.down[|s.down| - 1].conns != [] && Awaited(s, c))
  }

  /** No two live calls share a call id. */
  ghost predicate LiveIdsDistinct(s: State)
  {
    forall c, d :: 0 <= c < d < |s.reqs| && Live(s, c) && Live(s, d) ==> s.reqs[c].callId != s.reqs[d].callId
  }

  /** The callback route is working on, and every one it handed over, belongs to the call whose
      request the reply was built for. */
  ghost predicate Paired(s: State)
  {
    && (!s.client.io.Idle? ==> s.client.io.entry.reg == s.held.call)
    && (forall i :: 0 <= i < |s.log| ==> s.log[i].reply.Some? ==> s.log[i].callback == s.log[i].reply.value.call)
  }

  lemma SameIdSameCall(s: State, c: nat, d: nat)
    requires LiveIdsDistinct(s) && c < |s.reqs| && d < |s.reqs| && Live(s, c) && Live(s, d)
    requires s.reqs[c].callId == s.reqs[d].callId
    ensures c == d
  {
  }

  lemma FoundIsPending(c: P.State, id: u32)
    requires P.ShapeInv(c) && id in c.table
    ensures var r := c.table[id].reg;
            P.InTable(c, r) && r < |c.regs| && c.regs[r].callId == id
  {
    assert P.EntryInv(c, id, c.table[id]);
  }

  lemma AwaitedReply(s: State, i: nat)
    requires |s.replies| == |s.down| > 0 && s.down[|s.down| - 1].conns != []
    requires i < |s.replies[|s.down| - 1]| && Undelivered(s.down[|s.down| - 1].conns[0], i)
    ensures Live(s, s.replies[|s.down| - 1][i].call)
  {
    assert Awaited(s, s.replies[|s.down| - 1][i].call);
  }

  /** The entry under a live reply's id is that of the very call the reply was built for. */
  lemma FoundIsOwn(s: State, r: Reply)
    requires P.ShapeInv(s.client) && CallsInv(s) && LiveIdsDistinct(s)
    requires ReplyOk(s, r) && Live(s, r.call) && r.content.callId in s.client.table
    ensures s.client.table[r.content.callId].reg == r.call
  {
    FoundIsPending(s.client, r.content.callId);
    SameIdSameCall(s, s.client.table[r.content.callId].reg, r.call);
  }

  lemma FindFinds(timeout: int, c: P.State, content: ResponseContent)
    requires c.io.Idle?
    ensures var io := P.Step(timeout, c, P.RouteFind(content)).io;
            !io.Idle? ==> content.callId in c.table && io.entry == c.table[content.callId]
  {
  }

  lemma ReceiveIsPaired(timeout: int, s: State)
    requires Inv(timeout, s) && LiveIdsDistinct(s) && Enabled(timeout, s, Receive)
    ensures var s' := Step(timeout, s, Receive);
            !s'.client.io.Idle? ==> s'.client.io.entry.reg == s'.held.call
  {
    var conn, r := s.down[|s.down| - 1].conns[0], Step(timeout, s, Receive).held;
    ReceiveTakes(timeout, s);
    AwaitedReply(s, NextId(conn));
    FindFinds(timeout, s.client, CutResponse(conn));
    if r.content.callId in s.client.table {
      FoundIsOwn(s, r);
    }
  }

  /** Another call than c is pending under c's id. */
  predicate Rivalled(s: State, c: nat)
    requires c < |s.reqs|
  {
    exists d :: 0 <= d < |s.reqs| && d != c && P.InTable(s.client, d) && s.reqs[d].callId == s.reqs[c].callId
  }

  lemma RivalIffEntry(s: State, r: Reply)
    requires P.ShapeInv(s.client) && CallsInv(s) && ReplyOk(s, r)
    ensures Rivalled(s, r.call) <==> r.content.callId in s.client.table && s.client.table[r.content.callId].reg != r.call
  {
    var id := r.content.callId;
    if id in s.client.table {
      FoundIsPending(s.client, id);
    }
  }

  lemma FindIff(timeout: int, c: P.State, content: ResponseContent)
    requires c.io.Idle?
    ensures !P.Step(timeout, c, P.RouteFind(content)).io.Idle? <==> content.callId in c.table
  {
  }

  /** Exactly when a response goes to a wrong callback: if and only if, as it is received, another
      call is pending under the id of the one it answers. */
  lemma ReceiveMispairsIff(timeout: int, s: State)
    requires Inv(timeout, s) && Enabled(timeout, s, Receive)
    ensures var s' := Step(timeout, s, Receive);
            && s'.held.call < |s.reqs|
            && ((!s'.client.io.Idle? && s'.client.io.entry.reg != s'.held.call) <==> Rivalled(s, s'.held.call))
  {
    var conn, r := s.down[|s.down| - 1].conns[0], Step(timeout, s, Receive).held;
    ReceiveTakes(timeout, s);
    ClientSteps(timeout, s, Receive);
    FindFinds(timeout, s.client, CutResponse(conn));
    FindIff(timeout, s.client, CutResponse(conn));
    RivalIffEntry(s, r);
  }

  lemma StepIsPaired(timeout: int, s: State, e: Event)
    requires Inv(timeout, s) && LiveIdsDistinct(s) && Paired(s)
    ensures Paired(Step(timeout, s, e))
  {
    LogIsPaired(timeout, s, e);
    HeldIsPaired(timeout, s, e);
  }

  lemma HeldIsPaired(timeout: int, s: State, e: Event)
    requires Inv(timeout, s) && LiveIdsDistinct(s)
    requires !s.client.io.Idle? ==> s.client.io.entry.reg == s.held.call
    ensures var s' := Step(timeout, s, e);
            !s'.client.io.Idle? ==> s'.client.io.entry.reg == s'.held.call
  {
    if Enabled(timeout, s, e) && e.Receive? {
      ReceiveIsPaired(timeout, s);
    } else {
      ClientSteps(timeout, s, e);
      OthersHold(timeout, s, e);
      var ev := ClientEvent(timeout, s, e);
      if ev.Some? {
        ClientKeeps(timeout, s.client, ev.value);
      }
    }
  }

  lemma LogIsPaired(timeout: int, s: State, e: Event)
    requires Paired(s)
    ensures var log := Step(timeout, s, e).log;
            forall i :: 0 <= i < |log| ==> log[i].reply.Some? ==> log[i].callback == log[i].reply.value.call
  {
    LogSteps(timeout, s, e);
  }

  /** A callback's own response, built by the server for that call's request and carrying its id,
      or a timeout, which is rpc_error_code 2. */
  predicate OwnOrTimeout(s: State, d: Dispatch)
  {
    match d.reply
    case Some(r) =>
      && r in s.built && r.call == d.callback < |s.reqs|
      && d.content == r.content && d.content.callId == s.reqs[d.callback].callId
    case None => d.content.code == 2
  }

  /** In every run of the joined system in which live ids are distinct, every callback that is ever
      handed over gets a response that the server built for that very call's request, byte for
      byte, or a timeout. */
  lemma OwnResponseOrTimeout(timeout: int, events: seq<Event>)
    requires forall n :: 0 <= n < |events| ==> LiveIdsDistinct(Run(timeout, events[..n]))
    ensures var s := Run(timeout, events);
            forall i :: 0 <= i < |s.log| ==> OwnOrTimeout(s, s.log[i])
  {
    RunInv(timeout, events);
    RunIsPaired(timeout, events);
    var s := Run(timeout, events);
    forall i | 0 <= i < |s.log| ensures OwnOrTimeout(s, s.log[i]) {
      assert LogOk(s, s.log[i]);
    }
  }

  lemma {:induction false} RunIsPaired(timeout: int, events: seq<Event>)
    requires forall n :: 0 <= n < |events| ==> LiveIdsDistinct(Run(timeout, events[..n]))
    ensures Paired(Run(timeout, events))
  {
    if events != [] {
      var n := |events| - 1;
      forall m | 0 <= m < n ensures LiveIdsDistinct(Run(timeout, events[..n][..m])) {
        assert events[..n][..m] == events[..m];
      }
      RunIsPaired(timeout, events[..n]);
      RunInv(timeout, events[..n]);
      StepIsPaired(timeout, Run(timeout, events[..n]), events[n]);
    }
  }

  // ---- the log is complete --------------------------------------------------------------------------

  function Callbacks(log: seq<Dispatch>): (cs: seq<nat>)
    ensures |cs| == |log| && forall i :: 0 <= i < |log| ==> cs[i] == log[i].callback
  {
    seq(|log|, i requires 0 <= i < |log| => log[i].callback)
  }

  lemma CallbacksAppend(a: seq<Dispatch>, b: seq<Dispatch>)
    ensures multiset(Callbacks(a + b)) == multiset(Callbacks(a)) + multiset(Callbacks(b))
  {
    assert Callbacks(a + b) == Callbacks(a) + Callbacks(b);
  }

  lemma ClientDispatches(timeout: int, c: P.State, e: P.Event)
    requires !e.Route?
    ensures var c' := P.Step(timeout, c, e);
            && c'.answered == c.answered + (if e.RouteDispatch? && c.io.Erased? then multiset{c.io.entry.reg} else multiset{})
            && c'.timedOut == c.timedOut + (if e.Sweep? && c.timer.Read? then multiset(P.Swept(timeout, c)) else multiset{})
  {
  }

  lemma AddedCallbacks(timeout: int, s: State, e: Event)
    requires Enabled(timeout, s, e)
    ensures multiset(Callbacks(Added(timeout, s, e)))
            == if e.Sweep? then multiset(P.Swept(timeout, s.client))
               else if e.Local? && e.e.RouteDispatch? && s.client.io.Erased? then multiset{s.client.io.entry.reg}
               else multiset{}
  {
    var cs := Callbacks(Added(timeout, s, e));
    if e.Sweep? {
      assert cs == e.order;
      Tables.OnceIsSet(e.order, P.Swept(timeout, s.client));
    } else if e.Local? && e.e.RouteDispatch? && s.client.io.Erased? {
      assert cs == [s.client.io.entry.reg];
    } else {
      assert cs == [];
    }
  }

  /** What the client dispatches in a step is what the step logs. */
  lemma AddedIsDispatched(timeout: int, s: State, e: Event)
    ensures var s' := Step(timeout, s, e);
            s'.client.answered + s'.client.timedOut
            == s.client.answered + s.client.timedOut + multiset(Callbacks(Added(timeout, s, e)))
  {
    ClientSteps(timeout, s, e);
    var ev := ClientEvent(timeout, s, e);
    if ev.Some? {
      ClientDispatches(timeout, s.client, ev.value);
    }
    if Enabled(timeout, s, e) {
      AddedCallbacks(timeout, s, e);
    }
  }

  /** The log misses nothing: its callbacks are all those that route and the sweep handed over. */
  lemma {:induction false} LogIsComplete(timeout: int, events: seq<Event>)
    ensures var s := Run(timeout, events);
            multiset(Callbacks(s.log)) == s.client.answered + s.client.timedOut
  {
    if events != [] {
      var n := |events| - 1;
      var s := Run(timeout, events[..n]);
      LogIsComplete(timeout, events[..n]);
      LogSteps(timeout, s, events[n]);
      CallbacksAppend(s.log, Added(timeout, s, events[n]));
      AddedIsDispatched(timeout, s, events[n]);
    }
  }

  // ---- until the ids wrap ----------------------------------------------------------------------------

  lemma {:induction false} AllocsGrow(timeout: int, events: seq<Event>, n: nat)
    requires n <= |events|
    ensures Run(timeout, events[..n]).client.allocs <= Run(timeout, events).client.allocs
  {
    if n == |events| {
      assert events[..n] == events;
    } else {
      var m := |events| - 1;
      AllocsGrow(timeout, events[..m], n);
      assert events[..m][..n] == events[..n];
      AllocsStep(timeout, Run(timeout, events[..m]), events[m]);
    }
  }

  lemma AllocsStep(timeout: int, s: State, e: Event)
    ensures s.client.allocs <= Step(timeout, s, e).client.allocs
  {
    ClientSteps(timeout, s, e);
    var ev := ClientEvent(timeout, s, e);
    if ev.Some? {
      ClientKeeps(timeout, s.client, ev.value);
    }
  }

  lemma FewIdsAreDistinct(s: State, c: nat, d: nat)
    requires CallsInv(s) && s.client.allocs <= U32 && c < d < |s.reqs|
    ensures s.reqs[c].callId != s.reqs[d].callId
  {
    assert s.allocOf[c] != s.allocOf[d];
    assert s.allocOf[c] < U32 && s.allocOf[d] < U32;
  }

  lemma FewCallsAreDistinct(s: State)
    requires CallsInv(s) && s.client.allocs <= U32
    ensures LiveIdsDistinct(s) && P.IdsApart(s.client)
  {
    forall c, d | 0 <= c < d < |s.reqs| ensures s.reqs[c].callId != s.reqs[d].callId {
      FewIdsAreDistinct(s, c, d);
    }
  }

  /** So every callback gets its own response or a timeout as long as at most 2^32 ids have been
      allocated, and none is lost: every registration that got into the table is pending, in
      route's hands, dispatched or wiped. */
  lemma OwnResponseUntilWrap(timeout: int, events: seq<Event>)
    requires Run(timeout, events).client.allocs <= U32
    ensures var s := Run(timeout, events);
            && (forall i :: 0 <= i < |s.log| ==> OwnOrTimeout(s, s.log[i]))
            && s.client.stolen == {} && forall r :: P.Conserved(s.client, r)
  {
    forall n | 0 <= n < |events| ensures LiveIdsDistinct(Run(timeout, events[..n])) {
      AllocsGrow(timeout, events, n);
      RunInv(timeout, events[..n]);
      FewCallsAreDistinct(Run(timeout, events[..n]));
    }
    OwnResponseOrTimeout(timeout, events);
    NothingLostUntilWrap(timeout, events);
    RunInv(timeout, events);
    forall r: nat ensures P.Conserved(Run(timeout, events).client, r) {
      assert P.RegInv(Run(timeout, events).client, r);
    }
  }

  lemma {:induction false} NothingLostUntilWrap(timeout: int, events: seq<Event>)
    requires Run(timeout, events).client.allocs <= U32
    ensures Run(timeout, events).client.stolen == {}
  {
    if events != [] {
      var n := |events| - 1;
      var s := Run(timeout, events[..n]);
      AllocsGrow(timeout, events, n);
      NothingLostUntilWrap(timeout, events[..n]);
      RunInv(timeout, events[..n]);
      FewCallsAreDistinct(s);
      ClientSteps(timeout, s, events[n]);
      var ev := ClientEvent(timeout, s, events[n]);
      if ev.Some? {
        P.StealStep(timeout, s.client, ev.value);
      }
    }
  }
}
