/** The synchronous client: many threads share one socket, every request carries call id 0, and
    nothing but a mutex and the teardown of connections pairs a response with its call. A thread
    making several calls in turn counts as several calls. */
module SyncClient {
  import opened Basics
  import opened Machine

  /** A response on the wire, as the two reads see it: its header and its content. */
  datatype Token = Head(call: nat) | Body(call: nat)

  /** `up`: requests that reached the server on this connection. `answered`: those it has
      answered. `down`: what it sent and nobody has read. `live`: open and without error. */
  datatype Conn = Conn(up: set<nat>, answered: set<nat>, down: seq<Token>, live: bool)

  /** Where a call is. Closing the connection mutex are Opening and Opened; Locked, Wrote and
      GotHead hold the call mutex. */
  datatype Stage = Start | NeedConn | Opening | Opened | Waiting | Locked | Wrote | GotHead(head: Token) | Gone

  datatype Result = Result(call: nat, head: Token, body: Token)

  datatype State = State(
    conns: seq<Conn>, isConnected: bool, connLock: Option<nat>, lock: Option<nat>,
    stages: seq<Stage>, results: seq<Result>)

  datatype Event =
    | Begin
    | TestConnected(n: nat) | LockConn(n: nat)      // the two tests of is_connected_ in try_connect
    | Connect(n: nat, ok: bool) | SetConnected(n: nat)
    | Lock(n: nat) | Write(n: nat, ok: bool)
    | ReadHead(n: nat) | ReadBody(n: nat) | ReadFail(n: nat)
    | TimerFires                                    // disconnect() on the timer thread
    | Answer(c: nat, n: nat)                        // the server answers request n of connection c

  const INIT := State([], false, None, None, [], [])

  predicate At(s: State, n: nat, stage: Stage) { n < |s.stages| && s.stages[n] == stage }

  predicate CanUse(s: State) { s.conns != [] && s.conns[|s.conns| - 1].live }

  /** `once`: the server answers each request at most once. */
  predicate Enabled(once: bool, s: State, e: Event)
  {
    match e
    case Begin => true
    case TestConnected(n) => At(s, n, Start)
    case LockConn(n) => At(s, n, NeedConn) && s.connLock.None?
    case Connect(n, _) => At(s, n, Opening)
    case SetConnected(n) => At(s, n, Opened)
    case Lock(n) => At(s, n, Waiting) && s.lock.None?
    case Write(n, ok) => At(s, n, Locked) && (ok ==> CanUse(s))
    case ReadHead(n) => At(s, n, Wrote) && CanUse(s) && s.conns[|s.conns| - 1].down != []
    case ReadBody(n) => n < |s.stages| && s.stages[n].GotHead? && CanUse(s) && s.conns[|s.conns| - 1].down != []
    case ReadFail(n) => n < |s.stages| && (s.stages[n].Wrote? || s.stages[n].GotHead?)
    case TimerFires => true
    case Answer(c, n) => c < |s.conns| && n in s.conns[c].up && (once ==> n !in s.conns[c].answered)
  }

  function Go(s: State, n: nat, stage: Stage): State
    requires n < |s.stages|
  {
    s.(stages := s.stages[n := stage])
  }

  /** The call is over, by return or by exception: its mutex is released. */
  function Leave(s: State, n: nat): State
    requires n < |s.stages|
  {
    Go(s, n, Gone).(lock := None)
  }

  function SetLast(s: State, c: Conn): State
    requires s.conns != []
  {
    s.(conns := s.conns[|s.conns| - 1 := c])
  }

  /** The current connection will never be used again. */
  function Down(s: State): State
  {
    var s1 := s.(isConnected := false);
    if s.conns == [] then s1 else SetLast(s1, s.conns[|s.conns| - 1].(live := false))
  }

  function Pop(s: State): State
    requires s.conns != [] && s.conns[|s.conns| - 1].down != []
  {
    var c := s.conns[|s.conns| - 1];
    SetLast(s, c.(down := c.down[1..]))
  }

  function Step(once: bool, s: State, e: Event): State
  {
    if !Enabled(once, s, e) then s
    else match e
      case Begin => s.(stages := s.stages + [Start])
      case TestConnected(n) => Go(s, n, if s.isConnected then Waiting else NeedConn)
      case LockConn(n) => if s.isConnected then Go(s, n, Waiting) else Go(s, n, Opening).(connLock := Some(n))
      case Connect(n, ok) =>
        var s1 := Down(s);
        if ok then Go(s1.(conns := s1.conns + [Conn({}, {}, [], true)]), n, Opened)
        else Go(s1, n, Gone).(connLock := None)
      case SetConnected(n) => Go(s, n, Waiting).(isConnected := true, connLock := None)
      case Lock(n) => Go(s, n, Locked).(lock := Some(n))
      case Write(n, ok) =>
        if ok then
          var c := s.conns[|s.conns| - 1];
          Go(SetLast(s, c.(up := c.up + {n})), n, Wrote)
        else Leave(Down(s), n)
      case ReadHead(n) => Go(Pop(s), n, GotHead(s.conns[|s.conns| - 1].down[0]))
      case ReadBody(n) =>
        Leave(Pop(s), n).(results := s.results + [Result(n, s.stages[n].head, s.conns[|s.conns| - 1].down[0])])
      case ReadFail(n) => Leave(Down(s), n)
      case TimerFires => Down(s)
      case Answer(c, n) =>
        var conn := s.conns[c];
        s.(conns := s.conns[c := conn.(answered := conn.answered + {n}, down := conn.down + [Head(n), Body(n)])])
  }

  function Stepper(once: bool): (State, Event) -> State { (s, e) => Step(once, s, e) }

  function Run(once: bool, events: seq<Event>): State
  {
    Exec(Stepper(once), INIT, events)
  }

  // ---- invariant -------------------------------------------------------------------------------------

  predicate HoldsLock(stage: Stage) { stage.Locked? || stage.Wrote? || stage.GotHead? }

  predicate HasWritten(stage: Stage) { stage.Wrote? || stage.GotHead? || stage.Gone? }

  /** Everything asked on this connection has been answered and read. */
  predicate Quiet(c: Conn)
  {
    c.down == [] && forall n :: n in c.up ==> n in c.answered
  }

  /** Only call n's answer can still be asked for, sent or read on this connection. */
  predicate QuietBut(c: Conn, n: nat, unread: seq<Token>)
  {
    && n in c.up
    && (forall m :: m in c.up && m != n ==> m in c.answered)
    && c.down == if n in c.answered then unread else []
  }

  /** Only calls that have written are on a connection. */
  predicate UpsInv(conns: seq<Conn>, stages: seq<Stage>)
  {
    forall c :: 0 <= c < |conns| ==> UpOk(conns[c], stages)
  }

  predicate UpOk(c: Conn, stages: seq<Stage>)
  {
    forall n :: n in c.up ==> n < |stages| && HasWritten(stages[n])
  }

  predicate LockInv(s: State)
  {
    && (s.lock.Some? ==> s.lock.value < |s.stages|)
    && (forall n :: 0 <= n < |s.stages| ==> (HoldsLock(s.stages[n]) <==> s.lock == Some(n)))
    && (forall n :: 0 <= n < |s.stages| && s.stages[n].GotHead? ==> s.stages[n].head == Head(n))
  }

  /** What the current connection may carry, by the stage of the call that holds the mutex. */
  predicate WireOk(c: Conn, lock: Option<nat>, stages: seq<Stage>)
  {
    if lock.None? || lock.value >= |stages| then Quiet(c)
    else
      var n := lock.value;
      match stages[n]
      case Wrote => Quiet(c) || QuietBut(c, n, [Head(n), Body(n)])
      case GotHead(_) => Quiet(c) || (n in c.answered && QuietBut(c, n, [Body(n)]))
      case _ => Quiet(c)
  }

  predicate WireInv(s: State)
  {
    CanUse(s) ==> WireOk(s.conns[|s.conns| - 1], s.lock, s.stages)
  }

  predicate Paired(r: Result) { r.head == Head(r.call) && r.body == Body(r.call) }

  predicate Inv(s: State)
  {
    && UpsInv(s.conns, s.stages) && LockInv(s) && WireInv(s)
    && forall i :: 0 <= i < |s.results| ==> Paired(s.results[i])
  }

  lemma DownKeepsInv(s: State)
    requires Inv(s)
    ensures Inv(Down(s)) && !CanUse(Down(s))
  {
  }

  lemma LeaveKeepsInv(s: State, n: nat)
    requires Inv(s) && n < |s.stages| && HoldsLock(s.stages[n]) && (CanUse(s) ==> Quiet(s.conns[|s.conns| - 1]))
    ensures Inv(Leave(s, n))
  {
  }

  lemma ConnectKeepsInv(s: State, n: nat)
    requires Inv(s) && At(s, n, Opening) && !CanUse(s)
    ensures Inv(Go(s.(conns := s.conns + [Conn({}, {}, [], true)]), n, Opened))
  {
  }

  lemma WriteKeepsInv(s: State, n: nat)
    requires Inv(s) && At(s, n, Locked) && CanUse(s)
    ensures Inv(Step(true, s, Write(n, true)))
  {
  }

  lemma ReadHeadKeepsInv(s: State, n: nat)
    requires Inv(s) && Enabled(true, s, ReadHead(n))
    ensures Inv(Step(true, s, ReadHead(n)))
  {
  }

  lemma ReadBodyKeepsInv(s: State, n: nat)
    requires Inv(s) && Enabled(true, s, ReadBody(n))
    ensures Inv(Step(true, s, ReadBody(n)))
  {
  }

  lemma AnswerKeepsInv(s: State, c: nat, n: nat)
    requires Inv(s) && Enabled(true, s, Answer(c, n))
    ensures Inv(Step(true, s, Answer(c, n)))
  {
  }

  /** Steps of a call that touch no connection and, but for Lock, no mutex of the calls. */
  lemma GoKeepsInv(s: State, n: nat, x: Stage)
    requires Inv(s) && n < |s.stages| && !HoldsLock(s.stages[n]) && !HasWritten(s.stages[n])
    requires !HoldsLock(x) || (x.Locked? && s.lock.None?)
    ensures Inv(Go(s, n, x).(lock := if x.Locked? then Some(n) else s.lock))
  {
  }

  lemma ConnectStepKeepsInv(s: State, e: Event)
    requires Inv(s) && Enabled(true, s, e) && (e.TestConnected? || e.LockConn? || e.Connect? || e.SetConnected? || e.Lock?)
    ensures Inv(Step(true, s, e))
  {
    match e
    case TestConnected(n) => GoKeepsInv(s, n, if s.isConnected then Waiting else NeedConn);
    case LockConn(n) => GoKeepsInv(s, n, if s.isConnected then Waiting else Opening);
    case Connect(n, ok) => ConnectEventKeepsInv(s, n, ok);
    case SetConnected(n) => GoKeepsInv(s, n, Waiting);
    case Lock(n) => GoKeepsInv(s, n, Locked);
  }

  lemma ConnectEventKeepsInv(s: State, n: nat, ok: bool)
    requires Inv(s) && At(s, n, Opening)
    ensures Inv(Step(true, s, Connect(n, ok)))
  {
    DownKeepsInv(s);
    if ok {
      ConnectKeepsInv(Down(s), n);
    } else {
      GoKeepsInv(Down(s), n, Gone);
    }
  }

  lemma StepKeepsInv(s: State, e: Event)
    requires Inv(s)
    ensures Inv(Step(true, s, e))
  {
    if Enabled(true, s, e) {
      match e
      case Begin => BeginKeepsInv(s);
      case Write(n, ok) =>
        if ok { WriteKeepsInv(s, n); } else { DownKeepsInv(s); LeaveKeepsInv(Down(s), n); }
      case ReadHead(n) => ReadHeadKeepsInv(s, n);
      case ReadBody(n) => ReadBodyKeepsInv(s, n);
      case ReadFail(n) => DownKeepsInv(s); LeaveKeepsInv(Down(s), n);
      case TimerFires => DownKeepsInv(s);
      case Answer(c, n) => AnswerKeepsInv(s, c, n);
      case _ => ConnectStepKeepsInv(s, e);
    }
  }

  lemma BeginKeepsInv(s: State)
    requires Inv(s)
    ensures Inv(s.(stages := s.stages + [Start]))
  {
  }

  lemma RunInv(events: seq<Event>)
    ensures Inv(Run(true, events))
  {
    var step := Stepper(true);
    var inv := s => Inv(s);
    forall s, e | inv(s) ensures inv(step(s, e)) {
      StepKeepsInv(s, e);
    }
    Always(step, inv, INIT, events);
  }

  // ---- theorems ------------------------------------------------------------------------------------------

  /** In every run, with any number of calling threads, timer disconnects, errors and reconnects at
      any moment, the header and the content a call returns both belong to the answer to that
      call's own request, given a server that answers each request at most once. */
  lemma EveryCallGetsItsOwnResponse(events: seq<Event>)
    ensures var s := Run(true, events);
            forall i :: 0 <= i < |s.results| ==> Paired(s.results[i])
  {
    RunInv(events);
  }

  // ---- what a failure ends, and when a connection is opened ------------------------------------------------

  /** A timer that fires, a failed write and a failed read. */
  predicate IsFailure(e: Event) { e.TimerFires? || e.ReadFail? || (e.Write? && !e.ok) }

  /** After any of them the client is not connected and no connection can be used. */
  lemma FailureEndsTheConnection(s: State, e: Event)
    requires IsFailure(e) && Enabled(true, s, e)
    ensures !Step(true, s, e).isConnected && !CanUse(Step(true, s, e))
  {
  }

  /** Call n has written and will never return a result: it is over, or it waits for an answer that
      cannot come on the connection in use. */
  predicate Doomed(s: State, n: nat)
  {
    && n < |s.stages|
    && (s.stages[n].Gone?
        || ((s.stages[n].Wrote? || s.stages[n].GotHead?)
            && (CanUse(s) ==> var c := s.conns[|s.conns| - 1]; Quiet(c) && n !in c.up)))
  }

  predicate NoResultSince(s: State, n: nat, results: seq<Result>)
  {
    results <= s.results && forall i :: |results| <= i < |s.results| ==> s.results[i].call != n
  }

  predicate DoomedSince(s: State, n: nat, results: seq<Result>)
  {
    Inv(s) && Doomed(s, n) && NoResultSince(s, n, results)
  }

  predicate IsConnectStep(e: Event) { e.TestConnected? || e.LockConn? || e.Connect? || e.SetConnected? }

  lemma ConnectsStaysDoomed(s: State, e: Event, n: nat)
    requires LockInv(s) && Doomed(s, n) && Enabled(true, s, e) && (IsConnectStep(e) || e.Begin?)
    ensures Doomed(Step(true, s, e), n)
  {
  }

  lemma ReadsStaysDoomed(s: State, e: Event, n: nat)
    requires LockInv(s) && Doomed(s, n) && Enabled(true, s, e) && (e.ReadHead? || e.ReadBody? || e.ReadFail?)
    ensures Doomed(Step(true, s, e), n)
  {
    assert !s.stages[n].Gone? ==> s.lock == Some(n);
    assert s.lock == Some(e.n);
  }

  lemma WritesStaysDoomed(s: State, e: Event, n: nat)
    requires LockInv(s) && Doomed(s, n) && Enabled(true, s, e) && (e.Lock? || e.Write?)
    ensures Doomed(Step(true, s, e), n)
  {
    assert !s.stages[n].Gone? ==> s.lock == Some(n);
    assert e.Write? ==> s.lock == Some(e.n);
  }

  lemma AnswersStaysDoomed(s: State, e: Event, n: nat)
    requires Doomed(s, n) && Enabled(true, s, e) && (e.Answer? || e.TimerFires?)
    ensures Doomed(Step(true, s, e), n)
  {
  }

  lemma StaysDoomed(s: State, e: Event, n: nat)
    requires Inv(s) && Doomed(s, n)
    ensures Doomed(Step(true, s, e), n)
  {
    if Enabled(true, s, e) {
      if IsConnectStep(e) || e.Begin? {
        ConnectsStaysDoomed(s, e, n);
      } else if e.ReadHead? || e.ReadBody? || e.ReadFail? {
        ReadsStaysDoomed(s, e, n);
      } else if e.Lock? || e.Write? {
        WritesStaysDoomed(s, e, n);
      } else {
        AnswersStaysDoomed(s, e, n);
      }
    }
  }

  lemma DoomedReturnsNothing(s: State, e: Event, n: nat, results: seq<Result>)
    requires Inv(s) && Doomed(s, n) && NoResultSince(s, n, results)
    ensures NoResultSince(Step(true, s, e), n, results)
  {
    if e.ReadBody? && Enabled(true, s, e) {
      assert s.lock == Some(e.n);
    }
  }

  /** A call that had written when the timer fired, or when anything failed, never returns a result,
      whatever connection the client opens afterwards. */
  lemma FailureEndsTheCalls(events: seq<Event>, e: Event, n: nat, more: seq<Event>)
    requires n < |Run(true, events).stages| && HasWritten(Run(true, events).stages[n])
    requires IsFailure(e) && Enabled(true, Run(true, events), e)
    ensures NoResultSince(Exec(Stepper(true), Step(true, Run(true, events), e), more), n, Run(true, events).results)
  {
    var s := Run(true, events);
    var results := s.results;
    var doomed := (t: State) => DoomedSince(t, n, results);
    RunInv(events);
    StepKeepsInv(s, e);
    FailureEndsTheConnection(s, e);
    forall t, ev | doomed(t) ensures doomed(Stepper(true)(t, ev)) {
      StepKeepsInv(t, ev);
      StaysDoomed(t, ev, n);
      DoomedReturnsNothing(t, ev, n, results);
    }
    Always(Stepper(true), doomed, Step(true, s, e), more);
  }

  predicate Connecting(stage: Stage) { stage.Opening? || stage.Opened? }

  predicate ConnectInv(s: State)
  {
    && (s.connLock.Some? ==> s.connLock.value < |s.stages| && !s.isConnected)
    && (forall n :: 0 <= n < |s.stages| ==> (Connecting(s.stages[n]) <==> s.connLock == Some(n)))
    && (CanUse(s) && !s.isConnected ==> s.connLock.Some? && At(s, s.connLock.value, Opened))
  }

  lemma ConnectStepKeepsConnect(s: State, e: Event)
    requires ConnectInv(s) && Enabled(true, s, e) && IsConnectStep(e)
    ensures ConnectInv(Step(true, s, e))
  {
  }

  lemma OthersKeepConnect(s: State, e: Event)
    requires ConnectInv(s) && Enabled(true, s, e) && !IsConnectStep(e)
    ensures ConnectInv(Step(true, s, e))
  {
    var s' := Step(true, s, e);
    OthersOpenNothing(s, e);
    OthersMoveNobody(s, e);
    forall n | 0 <= n < |s'.stages| ensures Connecting(s'.stages[n]) <==> s'.connLock == Some(n) {
    }
  }

  lemma OthersOpenNothing(s: State, e: Event)
    requires Enabled(true, s, e) && !IsConnectStep(e)
    ensures var s' := Step(true, s, e);
            && s'.connLock == s.connLock && (s'.isConnected ==> s.isConnected)
            && (CanUse(s') ==> CanUse(s) && s'.isConnected == s.isConnected)
  {
  }

  /** Who connects goes on connecting, and nobody starts. */
  lemma OthersMoveNobody(s: State, e: Event)
    requires Enabled(true, s, e) && !IsConnectStep(e)
    ensures var s' := Step(true, s, e);
            && |s.stages| <= |s'.stages|
            && (forall n :: 0 <= n < |s'.stages| && Connecting(s'.stages[n]) ==> n < |s.stages| && s'.stages[n] == s.stages[n])
            && (forall n :: 0 <= n < |s.stages| && Connecting(s.stages[n]) ==> s'.stages[n] == s.stages[n])
  {
  }

  lemma StepKeepsConnect(s: State, e: Event)
    requires ConnectInv(s)
    ensures ConnectInv(Step(true, s, e))
  {
    if Enabled(true, s, e) {
      if IsConnectStep(e) {
        ConnectStepKeepsConnect(s, e);
      } else {
        OthersKeepConnect(s, e);
      }
    }
  }

  /** In every run at most one call is opening a connection, none is while the client counts as
      connected, and a connection that can still be used is never replaced. */
  lemma OneConnectAtATime(events: seq<Event>)
    ensures var s := Run(true, events);
            && (forall m, n :: 0 <= m < n < |s.stages| ==> !(Connecting(s.stages[m]) && Connecting(s.stages[n])))
            && (forall n :: 0 <= n < |s.stages| && Connecting(s.stages[n]) ==> !s.isConnected)
            && (forall n :: 0 <= n < |s.stages| && s.stages[n].Opening? ==> !CanUse(s))
  {
    var inv := (s: State) => ConnectInv(s);
    forall s, e | inv(s) ensures inv(Stepper(true)(s, e)) {
      StepKeepsConnect(s, e);
    }
    Always(Stepper(true), inv, INIT, events);
  }

  // ---- the assumption on the server is needed -------------------------------------------------------------

  ghost predicate Reached(s: State) { Reachable(Stepper(false), INIT, s) }

  lemma ReachConnected() returns (s: State)
    ensures Reached(s) && s == State([Conn({}, {}, [], true)], true, None, None, [Waiting], [])
  {
    ReachInit(Stepper(false), INIT);
    s := Reach(Stepper(false), INIT, INIT, Begin);
    s := Reach(Stepper(false), INIT, s, TestConnected(0));
    assert s.stages == [NeedConn];
    s := Reach(Stepper(false), INIT, s, LockConn(0));
    assert s.stages == [Opening];
    s := Reach(Stepper(false), INIT, s, Connect(0, true));
    assert s.stages == [Opened];
    s := Reach(Stepper(false), INIT, s, SetConnected(0));
    assert s.stages == [Waiting];
  }

  lemma ReachAnsweredTwice() returns (s: State)
    ensures Reached(s) && s.stages == [Wrote] && s.lock == Some(0) && s.isConnected && s.results == []
    ensures s.conns == [Conn({0}, {0}, [Head(0), Body(0), Head(0), Body(0)], true)]
  {
    s := ReachConnected();
    s := Reach(Stepper(false), INIT, s, Lock(0));
    assert s.stages == [Locked];
    s := Reach(Stepper(false), INIT, s, Write(0, true));
    assert s.conns[0].up == {0} && s.stages == [Wrote];
    s := Reach(Stepper(false), INIT, s, Answer(0, 0));
    assert s.conns[0].answered == {0} && s.conns[0].down == [Head(0), Body(0)];
    s := Reach(Stepper(false), INIT, s, Answer(0, 0));
    assert s.conns[0].answered == {0} && s.conns[0].down == [Head(0), Body(0), Head(0), Body(0)];
  }

  lemma ReachExtraAnswer() returns (s: State)
    ensures Reached(s) && s.stages == [Gone] && s.lock.None? && s.isConnected && |s.results| == 1
    ensures |s.conns| == 1 && s.conns[0].live && s.conns[0].down == [Head(0), Body(0)]
  {
    s := ReachAnsweredTwice();
    s := Reach(Stepper(false), INIT, s, ReadHead(0));
    assert s.stages == [GotHead(Head(0))] && s.conns[0].down == [Body(0), Head(0), Body(0)];
    s := Reach(Stepper(false), INIT, s, ReadBody(0));
  }

  lemma ReachSecondWaits() returns (s: State)
    ensures Reached(s) && s.stages == [Gone, Waiting] && s.lock.None? && |s.results| == 1
    ensures |s.conns| == 1 && s.conns[0].live && s.conns[0].down == [Head(0), Body(0)]
  {
    s := ReachExtraAnswer();
    s := Reach(Stepper(false), INIT, s, Begin);
    assert s.stages == [Gone, Start];
    s := Reach(Stepper(false), INIT, s, TestConnected(1));
    assert s.stages == [Gone, Waiting];
  }

  lemma ReachSecondCall() returns (s: State)
    ensures Reached(s) && s.stages == [Gone, Wrote] && |s.results| == 1
    ensures |s.conns| == 1 && s.conns[0].live && s.conns[0].down == [Head(0), Body(0)]
  {
    s := ReachSecondWaits();
    s := Reach(Stepper(false), INIT, s, Lock(1));
    assert s.stages == [Gone, Locked];
    s := Reach(Stepper(false), INIT, s, Write(1, true));
    assert s.stages == [Gone, Wrote];
  }

  /** If the server may answer a request twice, some run returns to a call the answer to another
      call's request. */
  lemma SecondAnswerIsMispaired()
    ensures exists s :: Reached(s) && |s.results| == 2 && s.results[1] == Result(1, Head(0), Body(0))
  {
    var s := ReachSecondCall();
    s := Reach(Stepper(false), INIT, s, ReadHead(1));
    assert s.stages == [Gone, GotHead(Head(0))] && s.conns[0].down == [Body(0)];
    s := Reach(Stepper(false), INIT, s, ReadBody(1));
  }

  // ---- the client in the source's own form ------------------------------------------------------------------

  /** rpc_client over client_base: one header buffer and one flag shared by all calling threads.
      `model` is the machine above, and each method is one of its steps. */
  class RpcClient {
    var isConnected: bool
    var rspHead: Token
    ghost var model: State

    /** The shared header is the one read by the call that is about to read its content. */
    ghost predicate Valid()
      reads this
    {
      && Inv(model) && isConnected == model.isConnected
      && forall n :: 0 <= n < |model.stages| && model.stages[n].GotHead? ==> rspHead == Head(n)
    }

    constructor ()
      ensures Valid() && model == INIT
    {
      isConnected, rspHead, model := false, Head(0), INIT;
    }

    /** disconnect(), on the timer thread or before a read throws. */
    method Disconnect()
      requires Valid()
      modifies this`isConnected, this`model
      ensures Valid() && model == Step(true, old(model), TimerFires)
    {
      isConnected := false;
      StepKeepsInv(model, TimerFires);
      model := Step(true, model, TimerFires);
    }

    /** The test of is_connected_ in try_connect, first without and then with the mutex. */
    method NeedsConnection(n: nat, locked: bool) returns (needed: bool)
      requires Valid() && Enabled(true, model, if locked then LockConn(n) else TestConnected(n))
      modifies this`model
      ensures Valid() && model == Step(true, old(model), if locked then LockConn(n) else TestConnected(n))
      ensures needed <==> model.stages[n] == if locked then Opening else NeedConn
    {
      needed := !isConnected;
      ghost var e := if locked then LockConn(n) else TestConnected(n);
      StepKeepsInv(model, e);
      model := Step(true, model, e);
    }

    /** write_impl: an error is thrown after the flag is cleared. */
    method WriteImpl(n: nat, ok: bool) returns (threw: bool)
      requires Valid() && Enabled(true, model, Write(n, ok))
      modifies this`isConnected, this`model
      ensures Valid() && model == Step(true, old(model), Write(n, ok))
      ensures threw == !ok
    {
      if !ok {
        isConnected := false;
      }
      threw := !ok;
      StepKeepsInv(model, Write(n, ok));
      model := Step(true, model, Write(n, ok));
    }

    /** read_head and the copy of the header; the socket delivers the oldest unread token. */
    method ReadHeader(n: nat, arrived: Token)
      requires Valid() && Enabled(true, model, ReadHead(n)) && arrived == model.conns[|model.conns| - 1].down[0]
      modifies this`rspHead, this`model
      ensures Valid() && model == Step(true, old(model), ReadHead(n))
      ensures rspHead == Head(n)
    {
      rspHead := arrived;
      StepKeepsInv(model, ReadHead(n));
      model := Step(true, model, ReadHead(n));
      assert model.stages[n] == GotHead(arrived);
    }

    /** read_content: what the call returns is cut with the shared header. */
    method ReadContent(n: nat, arrived: Token) returns (r: Result)
      requires Valid() && Enabled(true, model, ReadBody(n)) && arrived == model.conns[|model.conns| - 1].down[0]
      modifies this`model
      ensures Valid() && model == Step(true, old(model), ReadBody(n))
      ensures r == Result(n, Head(n), Body(n)) && model.results == old(model.results) + [r]
    {
      r := Result(n, rspHead, arrived);
      StepKeepsInv(model, ReadBody(n));
      model := Step(true, model, ReadBody(n));
      assert Paired(model.results[|model.results| - 1]);
    }
  }
}
