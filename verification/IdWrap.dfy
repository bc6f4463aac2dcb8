/** The bound on allocated ids in RpcSystem.OwnResponseUntilWrap is tight: with one id more, a run
    of the joined system hands a callback the response to another call's request. */
module IdWrap {
  import opened Basics
  import opened Bytes
  import opened Frames
  import opened Machine
  import opened Protocol
  import opened RpcSystem
  import F = FrameStream
  import P = PendingCalls
  import R = Reader

  ghost predicate Reached(timeout: int, s: State) { Reachable(Stepper(timeout), INIT, s) }

  lemma ReachedInv(timeout: int, s: State)
    requires Reached(timeout, s)
    ensures Inv(timeout, s)
  {
    var events :| Exec(Stepper(timeout), INIT, events) == s;
    RunInv(timeout, events);
  }

  const ANY := RequestContent(1, NON_SERIALIZE, ASYNC_RPC_CLIENT, [], [], [])
  const JOB := Job(0, 0, ANY)
  const LATE := Reply(0, ResponseContent(1, ROUTE_FAILED, [], []))

  /** The table's part of the client's state, as far as this run cares. */
  predicate ClientIs(c: P.State, allocs: nat, regs: nat, table: map<u32, P.Entry>)
  {
    c.io.Idle? && c.allocs == allocs && c.callId == allocs % U32 && |c.regs| == regs && c.drafts == {} && c.table == table
  }

  lemma ReachConnected(timeout: int) returns (s: State)
    ensures Reached(timeout, s) && ClientIs(s.client, 0, 0, map[]) && s.client.timer.Resting? && s.client.now == 0
    ensures s == INIT.(client := s.client, up := F.Step(REQUEST, F.Init(false), F.Replace), down := [NEW_DOWN], replies := [[]])
  {
    ReachInit(Stepper(timeout), INIT);
    s := Reach(Stepper(timeout), INIT, INIT, Reconnect);
  }

  lemma ReachCalled(timeout: int) returns (s: State)
    ensures Reached(timeout, s) && s.client.io.Idle? && s.client.timer.Resting? && s.client.now == 0
    ensures s.client.allocs == 1 && s.client.callId == 1 && s.client.drafts == {0}
    ensures s.client.regs == [P.Reg(1, 0)] && s.client.table == map[]
    ensures s.reqs == [ANY] && s.allocOf == [0] && s.toPost == {0}
    ensures s.up == F.Step(REQUEST, F.Init(false), F.Replace) && s.down == [NEW_DOWN] && s.replies == [[]]
    ensures s.sent == [] && s.pool == [] && s.open == {} && s.log == []
  {
    s := ReachConnected(timeout);
    s := ReachLocal(timeout, s, P.Alloc);
    s := Reach(Stepper(timeout), INIT, s, Call(0, ANY));
  }

  lemma ReachLocal(timeout: int, s: State, ev: P.Event) returns (s': State)
    requires Reached(timeout, s) && IsLocal(ev)
    ensures Reached(timeout, s') && s' == DoLocal(timeout, s, ev)
  {
    s' := Reach(Stepper(timeout), INIT, s, Local(ev));
  }

  lemma ReachEntered(timeout: int) returns (s: State)
    ensures Reached(timeout, s) && s.client.timer.Resting? && s.client.now == 0
    ensures ClientIs(s.client, 1, 1, map[1 := P.Entry(0, 0)])
    ensures s.reqs == [ANY] && s.allocOf == [0] && s.toPost == {0}
    ensures s.up == F.Step(REQUEST, F.Init(false), F.Replace) && s.down == [NEW_DOWN] && s.replies == [[]]
    ensures s.sent == [] && s.pool == [] && s.open == {} && s.log == []
  {
    s := ReachCalled(timeout);
    s := ReachLocal(timeout, s, P.Emplace(0));
    assert s.client.drafts == {};
  }

  /** A frame posted to a stream with one new connection and nothing else waits there. */
  lemma PostWaits(fmt: Format, f: Frame)
    requires WellFormed(fmt, f)
    ensures F.Waiting(F.Step(fmt, F.Step(fmt, F.Init(false), F.Replace), F.Post(f)), f)
    ensures F.Step(fmt, F.Init(false), F.Replace) == NEW_DOWN
  {
  }

  lemma ReachPosted(timeout: int) returns (s: State)
    ensures Reached(timeout, s) && s.client.timer.Resting? && s.client.now == 0
    ensures ClientIs(s.client, 1, 1, map[1 := P.Entry(0, 0)])
    ensures s.reqs == [ANY] && s.allocOf == [0] && s.sent == [0] && F.Waiting(s.up, RequestFrame(ANY))
    ensures s.down == [NEW_DOWN] && s.replies == [[]] && s.pool == [] && s.open == {} && s.log == []
  {
    var s0 := ReachEntered(timeout);
    RequestShortIff(ANY);
    PostWaits(REQUEST, RequestFrame(ANY));
    s := Reach(Stepper(timeout), INIT, s0, Post(0));
    assert s == DoPost(s0, 0);
  }

  lemma ReachUp(timeout: int, s: State, ev: F.Event) returns (s': State)
    requires Reached(timeout, s) && IsPlain(ev)
    ensures Reached(timeout, s') && s' == s.(up := F.Step(REQUEST, s.up, ev))
  {
    s' := Reach(Stepper(timeout), INIT, s, Up(ev));
  }

  lemma ReachCarriedUp(timeout: int, s: State, f: Frame) returns (s': State)
    requires Reached(timeout, s)
    ensures Reached(timeout, s') && s' == s.(up := F.Carried(REQUEST, s.up, f))
  {
    s' := ReachUp(timeout, s, F.RunPosted);
    s' := ReachUp(timeout, s', F.Emit(|Encode(f)|));
    s' := ReachUp(timeout, s', F.Server(0, R.Arrive(R.HeadOf(f))));
    s' := ReachUp(timeout, s', F.Server(0, R.HeadDone));
    s' := ReachUp(timeout, s', F.Server(0, R.Arrive(R.ContentOf(f))));
    s' := ReachUp(timeout, s', F.Server(0, R.Rearm));
  }

  lemma ReachUploaded(timeout: int) returns (s: State)
    ensures Reached(timeout, s) && s.client.timer.Resting? && s.client.now == 0
    ensures ClientIs(s.client, 1, 1, map[1 := P.Entry(0, 0)])
    ensures s.reqs == [ANY] && s.allocOf == [0] && s.sent == [0] && |s.up.conns| == 1 && CanCut(REQUEST, s.up.conns[0])
    ensures s.down == [NEW_DOWN] && s.replies == [[]] && s.pool == [] && s.open == {} && s.log == []
  {
    var s0 := ReachPosted(timeout);
    var f := RequestFrame(ANY);
    RequestShortIff(ANY);
    s := ReachCarriedUp(timeout, s0, f);
    ReachedInv(timeout, s);
    CarriedCanCut(REQUEST, s0.up, f);
  }

  lemma CarriedCanCut(fmt: Format, d: F.State, f: Frame)
    requires fmt.Valid() && WellFormed(fmt, f) && F.Waiting(d, f) && F.Inv(fmt, F.Carried(fmt, d, f))
    ensures var d' := F.Carried(fmt, d, f);
            |d'.conns| == 1 && CanCut(fmt, d'.conns[0])
  {
    F.CanCarry(fmt, d, f);
    F.NextDecoded(fmt, F.Carried(fmt, d, f), 0);
  }

  lemma ReachDecoded(timeout: int) returns (s: State)
    ensures Reached(timeout, s) && s.client.timer.Resting? && s.client.now == 0
    ensures ClientIs(s.client, 1, 1, map[1 := P.Entry(0, 0)])
    ensures s.reqs == [ANY] && s.allocOf == [0] && s.pool == [JOB] && s.open == {}
    ensures s.down == [NEW_DOWN] && s.replies == [[]] && s.log == []
  {
    var s0 := ReachUploaded(timeout);
    s := Reach(Stepper(timeout), INIT, s0, ServerDecode(0));
    ReachedInv(timeout, s0);
    JobIs(timeout, s0);
  }

  lemma JobIs(timeout: int, s: State)
    requires UpInv(s) && |s.up.conns| == 1 && CanCut(REQUEST, s.up.conns[0]) && s.sent == [0] && s.reqs == [ANY]
    ensures Step(timeout, s, ServerDecode(0)) == s.(up := Step(timeout, s, ServerDecode(0)).up, pool := s.pool + [JOB])
  {
    DecodedRequest(s.up, s.sent, s.reqs, 0);
    DecodeStep(timeout, s, NextId(s.up.conns[0]));
  }

  lemma DecodeStep(timeout: int, s: State, id: nat)
    requires |s.up.conns| == 1 && CanCut(REQUEST, s.up.conns[0]) && NextId(s.up.conns[0]) == id < |s.sent|
    ensures var s' := Step(timeout, s, ServerDecode(0));
            s' == s.(up := s'.up, pool := s.pool + [Job(s.sent[id], 0, CutRequest(s.up.conns[0]))])
  {
  }

  lemma ReachWorking(timeout: int) returns (s: State)
    ensures Reached(timeout, s) && s.client.timer.Resting? && s.client.now == 0
    ensures ClientIs(s.client, 1, 1, map[1 := P.Entry(0, 0)])
    ensures s.reqs == [ANY] && s.allocOf == [0] && s.open == {JOB}
    ensures s.down == [NEW_DOWN] && s.replies == [[]] && s.log == []
  {
    s := ReachDecoded(timeout);
    s := Reach(Stepper(timeout), INIT, s, Work);
  }

  lemma ReachSweeping(timeout: nat) returns (s: State)
    ensures Reached(timeout, s) && s.client.timer == P.Read(1000 * timeout)
    ensures ClientIs(s.client, 1, 1, map[1 := P.Entry(0, 0)])
    ensures s.reqs == [ANY] && s.allocOf == [0] && s.open == {JOB}
    ensures s.down == [NEW_DOWN] && s.replies == [[]] && s.log == []
  {
    s := ReachWorking(timeout);
    s := ReachLocal(timeout, s, P.Tick(1000 * timeout));
    s := ReachLocal(timeout, s, P.SweepRead);
  }

  lemma SweptIs(timeout: nat, c: P.State)
    requires c.timer == P.Read(1000 * timeout) && c.table == map[1 := P.Entry(0, 0)]
    ensures P.Swept(timeout, c) == {0} && P.DoSweep(timeout, c).table == map[]
  {
    assert P.ExpiredKeys(timeout, timeout, c.table) == {1};
  }

  /** The call times out while its handler is still busy. */
  lemma ReachTimedOut(timeout: nat) returns (s: State)
    ensures Reached(timeout, s) && ClientIs(s.client, 1, 1, map[])
    ensures s.reqs == [ANY] && s.allocOf == [0] && s.open == {JOB} && s.down == [NEW_DOWN] && s.replies == [[]]
    ensures |s.log| == 1
  {
    var s0 := ReachSweeping(timeout);
    SweptIs(timeout, s0.client);
    assert (set r | r in [0]) == {0};
    s := Reach(Stepper(timeout), INIT, s0, Sweep([0], [0]));
    assert s.client == P.DoSweep(timeout, s0.client);
  }

  /** The client n allocations later. */
  function Later(c: P.State, n: nat): P.State
  {
    c.(allocs := c.allocs + n, callId := (c.callId + n) % U32)
  }

  lemma AllocStep(timeout: int, c: P.State, n: nat)
    ensures P.Step(timeout, Later(c, n), P.Alloc) == Later(c, n + 1)
  {
    NextMod(c.callId + n);
  }

  lemma NextMod(k: nat)
    ensures (k % U32 + 1) % U32 == (k + 1) % U32
  {
    var q, r := k / U32, k % U32;
    assert k + 1 == if r + 1 == U32 then (q + 1) * U32 else q * U32 + (r + 1);
  }

  lemma ReachAlloc(timeout: int, s: State) returns (s': State)
    requires Reached(timeout, s)
    ensures Reached(timeout, s') && s' == s.(client := P.Step(timeout, s.client, P.Alloc))
  {
    s' := ReachLocal(timeout, s, P.Alloc);
    assert s.log + [] == s.log;
  }

  lemma {:induction false} ReachAllocs(timeout: int, s: State, n: nat)
    requires Reached(timeout, s)
    ensures Reached(timeout, s.(client := Later(s.client, n)))
  {
    if n == 0 {
      assert Later(s.client, 0) == s.client;
    } else {
      ReachAllocs(timeout, s, n - 1);
      var s' := ReachAlloc(timeout, s.(client := Later(s.client, n - 1)));
      AllocStep(timeout, s.client, n - 1);
    }
  }

  /** 2^32 ids later a second call gets the same id. */
  lemma ReachRecalled(timeout: nat) returns (s: State)
    ensures Reached(timeout, s) && s.client.allocs == U32 + 1 && s.client.io.Idle? && s.client.table == map[]
    ensures |s.client.regs| == 2 && s.client.regs[1].callId == 1 && s.client.drafts == {1}
    ensures s.open == {JOB} && s.down == [NEW_DOWN] && s.replies == [[]] && |s.log| == 1
  {
    var s0 := ReachTimedOut(timeout);
    ReachAllocs(timeout, s0, U32);
    var s1 := s0.(client := Later(s0.client, U32));
    s := Reach(Stepper(timeout), INIT, s1, Call(U32, ANY));
    assert s == DoCall(timeout, s1, U32, ANY);
  }

  lemma ReachReused(timeout: nat) returns (s: State)
    ensures Reached(timeout, s) && s.client.allocs == U32 + 1 && s.client.io.Idle?
    ensures 1 in s.client.table && s.client.table[1].reg == 1
    ensures s.open == {JOB} && s.down == [NEW_DOWN] && s.replies == [[]] && |s.log| == 1
  {
    s := ReachRecalled(timeout);
    s := ReachLocal(timeout, s, P.Emplace(1));
  }

  /** The late response of the first call is on its way. */
  lemma ReachAnswered(timeout: nat) returns (s: State)
    ensures Reached(timeout, s) && s.client.allocs == U32 + 1 && s.client.io.Idle?
    ensures 1 in s.client.table && s.client.table[1].reg == 1 && |s.log| == 1
    ensures |s.down| == 1 && F.Waiting(s.down[0], ResponseFrame(LATE.content)) && s.replies == [[LATE]]
  {
    var s0 := ReachReused(timeout);
    s := Reach(Stepper(timeout), INIT, s0, Respond(JOB, RouteFailed));
    RespondedIs(timeout, s0);
  }

  lemma RespondedIs(timeout: int, s: State)
    requires s.open == {JOB} && s.down == [NEW_DOWN] && s.replies == [[]]
    ensures var s' := Step(timeout, s, Respond(JOB, RouteFailed));
            && s' == s.(built := s'.built, down := s'.down, replies := [[LATE]])
            && |s'.down| == 1 && F.Waiting(s'.down[0], ResponseFrame(LATE.content))
  {
    ResponseShortIff(LATE.content);
    PostWaits(RESPONSE, ResponseFrame(LATE.content));
    assert Build(ANY.callId, RouteFailed) == [LATE.content];
    assert Enabled(timeout, s, Respond(JOB, RouteFailed));
    assert s.replies[0] + [LATE] == [LATE];
    assert s.replies[0 := [LATE]] == [[LATE]];
  }

  lemma ReachDown(timeout: int, s: State, ev: F.Event) returns (s': State)
    requires Reached(timeout, s) && |s.down| == 1 && IsPlain(ev) && !ev.SetResend?
    ensures Reached(timeout, s') && s' == s.(down := [F.Step(RESPONSE, s.down[0], ev)])
  {
    s' := Reach(Stepper(timeout), INIT, s, Down(0, ev));
    assert s.down[0 := F.Step(RESPONSE, s.down[0], ev)] == [F.Step(RESPONSE, s.down[0], ev)];
  }

  lemma ReachCarriedDown(timeout: int, s: State, f: Frame) returns (s': State)
    requires Reached(timeout, s) && |s.down| == 1
    ensures Reached(timeout, s') && s' == s.(down := [F.Carried(RESPONSE, s.down[0], f)])
  {
    s' := ReachDown(timeout, s, F.RunPosted);
    s' := ReachDown(timeout, s', F.Emit(|Encode(f)|));
    s' := ReachDown(timeout, s', F.Server(0, R.Arrive(R.HeadOf(f))));
    s' := ReachDown(timeout, s', F.Server(0, R.HeadDone));
    s' := ReachDown(timeout, s', F.Server(0, R.Arrive(R.ContentOf(f))));
    s' := ReachDown(timeout, s', F.Server(0, R.Rearm));
  }

  lemma ReachArrived(timeout: nat) returns (s: State)
    ensures Reached(timeout, s) && Enabled(timeout, s, Receive) && s.client.allocs == U32 + 1
    ensures 1 in s.client.table && s.client.table[1].reg == 1 && |s.log| == 1 && s.replies == [[LATE]]
  {
    var s0 := ReachAnswered(timeout);
    var f := ResponseFrame(LATE.content);
    ResponseShortIff(LATE.content);
    s := ReachCarriedDown(timeout, s0, f);
    ReachedInv(timeout, s);
    assert DownOk(s.down[0], s.replies[0]);
    CarriedCanCut(RESPONSE, s0.down[0], f);
  }

  lemma ReachRouted(timeout: nat) returns (s: State)
    ensures Reached(timeout, s) && s.client.allocs == U32 + 1 && |s.log| == 1
    ensures s.client.io.Found? && s.client.io.content == LATE.content && s.client.io.entry.reg == 1 && s.held == LATE
  {
    var s0 := ReachArrived(timeout);
    s := Reach(Stepper(timeout), INIT, s0, Receive);
    ReachedInv(timeout, s0);
    ReceivedIs(timeout, s0);
  }

  lemma ReceivedIs(timeout: int, s: State)
    requires DownInv(s) && RepliesInv(s) && Enabled(timeout, s, Receive)
    requires s.replies == [[LATE]] && 1 in s.client.table
    ensures var s' := Step(timeout, s, Receive);
            s'.held == LATE && s'.client == P.DoFind(s.client, LATE.content) && s'.log == s.log
  {
    ReceiveTakes(timeout, s);
    ReceiveStep(timeout, s);
  }

  lemma ReceiveStep(timeout: int, s: State)
    requires Enabled(timeout, s, Receive)
    ensures var s' := Step(timeout, s, Receive);
            && s'.log == s.log
            && s'.client == P.DoFind(s.client, CutResponse(s.down[|s.down| - 1].conns[0]))
  {
    ClientSteps(timeout, s, Receive);
    LogSteps(timeout, s, Receive);
  }

  /** With one allocation more than the theorem allows, pairing fails in some run: the callback of
      the second call is handed the response that was built for the first. */
  lemma StaleResponseAfterWrap(timeout: nat)
    ensures exists s :: Reached(timeout, s) && s.client.allocs == U32 + 1
                        && |s.log| == 2 && s.log[1] == Dispatch(1, LATE.content, Some(LATE)) && LATE.call == 0
  {
    var s := ReachRouted(timeout);
    s := ReachLocal(timeout, s, P.RouteErase);
    s := ReachLocal(timeout, s, P.RouteDispatch);
  }
}
