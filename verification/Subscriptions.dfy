/** Subscribing, cancelling, failing and reconnecting: the subscriber's binding tables, its send
    queue, the connection, the server's single worker and the server's topic table. An API call
    is one step, and so is a reconnect with its resubscription. */
module Subscriptions {
  import opened Bytes
  import opened Machine
  import Topics = TopicManager
  import Tables

  type Topic = seq<byte>

  /** A subscriber's request: body "1" or body "0". */
  datatype Op = Sub(t: Topic) | Cancel(t: Topic)

  datatype Job = Job(conn: nat, op: Op)

  /** `bound`, `boundRaw`: keys of the two binding tables. `orphans`: topics still bound in one
      mode whose latest request on this connection cancelled the other. `outbox`: posted and not
      yet written. `wire`: written on the current connection, not yet decoded. `pool`: the
      server's task queue. */
  datatype State = State(
    bound: set<Topic>, boundRaw: set<Topic>, orphans: set<Topic>, resend: bool,
    outbox: seq<Op>, up: bool, conn: nat, wire: seq<Op>, pool: seq<Job>, server: Topics.Spec)

  datatype Event =
    | Subscribe(raw: bool, t: Topic) | CancelSubscribe(raw: bool, t: Topic) | SetResend(on: bool)
    | Send | Break | FailWrites                // a write succeeds; the socket fails; queued writes fail
    | Reconnect(order: seq<Topic>)             // a new connection, then retry_subscribe in some order
    | ServerRead | Work
    | ServerError(c: nat) | Expire(c: nat)     // the server notices a dead connection, or frees it
    | Stray(c: nat, op: Op)                    // it still serves a request of an earlier connection

  /** Connected for the first time, nothing bound. */
  const INIT := State({}, {}, {}, false, [], true, 0, [], [], Topics.Spec({}, {0}, 1))

  function All(s: State): set<Topic> { s.bound + s.boundRaw }

  predicate Enabled(s: State, e: Event)
  {
    match e
    case Subscribe(_, _) => true
    case CancelSubscribe(_, _) => true
    case SetResend(_) => true
    case Send => s.up && s.outbox != []
    case Break => true
    case FailWrites => !s.up && !s.resend
    case Reconnect(order) => !s.up && (forall t :: t in order ==> t in All(s)) && (forall t :: t in All(s) ==> t in order)
    case ServerRead => s.wire != []
    case Work => s.pool != []
    case ServerError(c) => c != s.conn || !s.up
    case Expire(c) => c != s.conn || !s.up
    case Stray(c, _) => c < s.conn
  }

  function Serve(server: Topics.Spec, c: nat, op: Op): Topics.Spec
  {
    Topics.SpecStep(server, match op case Sub(t) => Topics.Add(t, c) case Cancel(t) => Topics.Remove(t, c))
  }

  function DoCancel(s: State, raw: bool, t: Topic): State
  {
    var s1 := if raw then s.(boundRaw := s.boundRaw - {t}) else s.(bound := s.bound - {t});
    s1.(outbox := s.outbox + [Cancel(t)],
        orphans := if t in All(s1) then s.orphans + {t} else s.orphans - {t})
  }

  function Subs(order: seq<Topic>): (ops: seq<Op>)
    ensures |ops| == |order| && forall i :: 0 <= i < |order| ==> ops[i] == Sub(order[i])
  {
    seq(|order|, i requires 0 <= i < |order| => Sub(order[i]))
  }

  function DoReconnect(s: State, order: seq<Topic>): State
  {
    s.(up := true, conn := s.server.next, server := Topics.SpecStep(s.server, Topics.Open),
       wire := [], outbox := s.outbox + Subs(order), orphans := {})
  }

  function Step(s: State, e: Event): State
  {
    if !Enabled(s, e) then s
    else match e
      case Subscribe(raw, t) =>
        var s1 := s.(outbox := s.outbox + [Sub(t)], orphans := s.orphans - {t});
        if raw then s1.(boundRaw := s.boundRaw + {t}) else s1.(bound := s.bound + {t})
      case CancelSubscribe(raw, t) => DoCancel(s, raw, t)
      case SetResend(on) => s.(resend := on)
      case Send => s.(outbox := s.outbox[1..], wire := s.wire + [s.outbox[0]])
      case Break => s.(up := false)
      case FailWrites => s.(outbox := [])
      case Reconnect(order) => DoReconnect(s, order)
      case ServerRead => s.(wire := s.wire[1..], pool := s.pool + [Job(s.conn, s.wire[0])])
      case Work => s.(pool := s.pool[1..], server := Serve(s.server, s.pool[0].conn, s.pool[0].op))
      case ServerError(c) => s.(server := Topics.SpecStep(s.server, Topics.RemoveAll(c)))
      case Expire(c) => s.(server := Topics.SpecStep(s.server, Topics.Expire(c)))
      case Stray(c, op) => s.(server := Serve(s.server, c, op))
  }

  function Run(events: seq<Event>): State
  {
    Exec(Step, INIT, events)
  }

  // ---- what the requests on their way will amount to -----------------------------------------------------

  /** Whether t is subscribed after these requests, if it was or was not before: the last word
      on t counts. */
  function Outcome(ops: seq<Op>, t: Topic, before: bool): bool
  {
    if ops == [] then before
    else if ops[|ops| - 1].t == t then ops[|ops| - 1].Sub?
    else Outcome(ops[..|ops| - 1], t, before)
  }

  lemma {:induction false} OutcomeAppend(a: seq<Op>, b: seq<Op>, t: Topic, before: bool)
    ensures Outcome(a + b, t, before) == Outcome(b, t, Outcome(a, t, before))
  {
    if b == [] {
      assert a + b == a;
    } else {
      var n := |b| - 1;
      assert (a + b)[..|a + b| - 1] == a + b[..n];
      OutcomeAppend(a, b[..n], t, before);
    }
  }

  lemma OutcomeFirst(ops: seq<Op>, t: Topic, before: bool)
    requires ops != []
    ensures Outcome(ops, t, before)
            == Outcome(ops[1..], t, if ops[0].t == t then ops[0].Sub? else before)
  {
    OutcomeAppend(ops[..1], ops[1..], t, before);
    assert ops[..1] + ops[1..] == ops;
  }

  lemma {:induction false} OutcomeSubs(order: seq<Topic>, t: Topic, before: bool)
    ensures Outcome(Subs(order), t, before) == (t in order || before)
  {
    if order != [] {
      var n := |order| - 1;
      OutcomeSubs(order[..n], t, before);
      assert Subs(order)[..n] == Subs(order[..n]);
      assert order == order[..n] + [order[n]];
    }
  }

  /** Requests of connection c in the server's queue. */
  function OpsOf(pool: seq<Job>, c: nat): seq<Op>
  {
    if pool == [] then []
    else OpsOf(pool[..|pool| - 1], c) + if pool[|pool| - 1].conn == c then [pool[|pool| - 1].op] else []
  }

  lemma {:induction false} OpsOfFirst(pool: seq<Job>, c: nat)
    requires pool != []
    ensures OpsOf(pool, c) == (if pool[0].conn == c then [pool[0].op] else []) + OpsOf(pool[1..], c)
  {
    var n := |pool| - 1;
    if n == 0 {
      assert pool[..0] == [] && pool[1..] == [];
      assert OpsOf(pool[..0], c) == [];
    } else {
      OpsOfFirst(pool[..n], c);
      assert pool[..n][1..] == pool[1..][..n - 1];
    }
  }

  lemma {:induction false} OpsOfNone(pool: seq<Job>, c: nat)
    requires forall i :: 0 <= i < |pool| ==> pool[i].conn != c
    ensures OpsOf(pool, c) == []
  {
    if pool != [] {
      OpsOfNone(pool[..|pool| - 1], c);
    }
  }

  /** Everything on its way to the server for the current connection, oldest first. */
  function InFlight(s: State): seq<Op> { OpsOf(s.pool, s.conn) + s.wire + s.outbox }

  predicate Subscribed(s: State, t: Topic) { Topics.Entry(t, s.conn) in s.server.pairs }

  // ---- invariant ---------------------------------------------------------------------------------------------

  /** On a live connection the requests in flight will leave t subscribed exactly if the client
      has it bound and it is no orphan. */
  predicate WillMatch(s: State, t: Topic)
  {
    Outcome(InFlight(s), t, Subscribed(s, t)) <==> t in All(s) && t !in s.orphans
  }

  /** No unsent request would subscribe a topic that is not bound. */
  predicate OutboxOk(s: State, t: Topic) { t !in All(s) ==> !Outcome(s.outbox, t, false) }

  ghost predicate Inv(s: State)
  {
    && s.orphans <= All(s)
    && s.conn < s.server.next
    && (forall c :: c in s.server.alive ==> c < s.server.next)
    && (forall p :: p in s.server.pairs ==> p.conn < s.server.next)
    && (forall i :: 0 <= i < |s.pool| ==> s.pool[i].conn <= s.conn)
    && (s.up ==> s.conn in s.server.alive)
    && (forall t :: OutboxOk(s, t))
    && (s.up ==> forall t :: WillMatch(s, t))
  }

  /** A request appended to the outbox is the last word on its topic and nothing else. */
  lemma AppendOp(s: State, op: Op, t: Topic)
    ensures var s' := s.(outbox := s.outbox + [op]);
            && Outcome(InFlight(s'), t, Subscribed(s', t))
               == (if op.t == t then op.Sub? else Outcome(InFlight(s), t, Subscribed(s, t)))
            && Outcome(s'.outbox, t, false) == (if op.t == t then op.Sub? else Outcome(s.outbox, t, false))
  {
    var s' := s.(outbox := s.outbox + [op]);
    assert InFlight(s')[..|InFlight(s)|] == InFlight(s);
    assert s'.outbox[..|s.outbox|] == s.outbox;
  }

  lemma SubscribeKeepsInv(s: State, raw: bool, t0: Topic)
    requires Inv(s)
    ensures Inv(Step(s, Subscribe(raw, t0)))
  {
    var s' := Step(s, Subscribe(raw, t0));
    assert InFlight(s') == InFlight(s.(outbox := s.outbox + [Sub(t0)]));
    forall t ensures OutboxOk(s', t) && (s.up ==> WillMatch(s', t)) {
      AppendOp(s, Sub(t0), t);
      assert OutboxOk(s, t) && (s.up ==> WillMatch(s, t));
    }
  }

  lemma CancelKeepsInv(s: State, raw: bool, t0: Topic)
    requires Inv(s)
    ensures Inv(DoCancel(s, raw, t0))
  {
    var s' := DoCancel(s, raw, t0);
    assert InFlight(s') == InFlight(s.(outbox := s.outbox + [Cancel(t0)]));
    forall t ensures OutboxOk(s', t) && (s.up ==> WillMatch(s', t)) {
      AppendOp(s, Cancel(t0), t);
      assert OutboxOk(s, t) && (s.up ==> WillMatch(s, t));
    }
  }

  lemma SendKeepsInv(s: State)
    requires Inv(s) && Enabled(s, Send)
    ensures Inv(Step(s, Send))
  {
    var s' := Step(s, Send);
    assert s.wire + s.outbox == s'.wire + s'.outbox;
    assert InFlight(s) == OpsOf(s.pool, s.conn) + (s.wire + s.outbox);
    assert InFlight(s') == OpsOf(s.pool, s.conn) + (s'.wire + s'.outbox);
    forall t ensures OutboxOk(s', t) && WillMatch(s', t) {
      assert OutboxOk(s, t) && WillMatch(s, t);
      OutcomeFirst(s.outbox, t, false);
      LastWordOrBefore(s'.outbox, t);
    }
  }

  /** Without a word on t the outcome is what was before; with one it does not matter. */
  lemma {:induction false} LastWordOrBefore(ops: seq<Op>, t: Topic)
    ensures Outcome(ops, t, false) ==> Outcome(ops, t, true)
  {
    if ops != [] {
      LastWordOrBefore(ops[..|ops| - 1], t);
    }
  }

  lemma ServerReadKeepsInv(s: State)
    requires Inv(s) && Enabled(s, ServerRead)
    ensures Inv(Step(s, ServerRead))
  {
    var s' := Step(s, ServerRead);
    assert s'.pool[..|s.pool|] == s.pool;
    assert OpsOf(s'.pool, s.conn) == OpsOf(s.pool, s.conn) + [s.wire[0]];
    assert InFlight(s') == InFlight(s);
    forall t ensures OutboxOk(s', t) && (s.up ==> WillMatch(s', t)) {
      assert OutboxOk(s, t) && (s.up ==> WillMatch(s, t));
    }
  }

  /** What serving a request does to the subscription of t on connection d. */
  lemma ServeDoes(server: Topics.Spec, c: nat, op: Op, d: nat, t: Topic)
    requires d in server.alive
    ensures Topics.Entry(t, d) in Serve(server, c, op).pairs
            <==> if c == d && op.t == t then op.Sub? else Topics.Entry(t, d) in server.pairs
  {
  }

  lemma WorkTakesFirst(s: State)
    requires s.pool != []
    ensures InFlight(s) == (if s.pool[0].conn == s.conn then [s.pool[0].op] else []) + InFlight(Step(s, Work))
  {
    OpsOfFirst(s.pool, s.conn);
  }

  lemma WorkMatches(s: State, t: Topic)
    requires Enabled(s, Work) && WillMatch(s, t) && s.conn in s.server.alive
    ensures WillMatch(Step(s, Work), t)
  {
    var s', first := Step(s, Work), s.pool[0];
    WorkTakesFirst(s);
    ServeDoes(s.server, first.conn, first.op, s.conn, t);
    if first.conn == s.conn {
      OutcomeFirst(InFlight(s), t, Subscribed(s, t));
      assert InFlight(s)[1..] == InFlight(s');
    } else {
      assert InFlight(s) == InFlight(s');
    }
  }

  lemma WorkKeepsInv(s: State)
    requires Inv(s) && Enabled(s, Work)
    ensures Inv(Step(s, Work))
  {
    var s' := Step(s, Work);
    forall t ensures OutboxOk(s', t) && (s.up ==> WillMatch(s', t)) {
      assert OutboxOk(s, t);
      if s.up {
        WorkMatches(s, t);
      }
    }
  }

  lemma ServerSideKeepsInv(s: State, e: Event)
    requires Inv(s) && Enabled(s, e) && (e.ServerError? || e.Expire? || e.Stray?)
    ensures Inv(Step(s, e))
  {
    var s' := Step(s, e);
    forall t ensures OutboxOk(s', t) && (s.up ==> WillMatch(s', t)) {
      assert OutboxOk(s, t) && (s.up ==> WillMatch(s, t));
      assert s.up ==> Subscribed(s', t) == Subscribed(s, t);
    }
  }

  lemma ReconnectKeepsInv(s: State, order: seq<Topic>)
    requires Inv(s) && Enabled(s, Reconnect(order))
    ensures Inv(DoReconnect(s, order))
  {
    var s' := DoReconnect(s, order);
    OpsOfNone(s.pool, s'.conn);
    assert InFlight(s') == s'.outbox;
    forall t ensures OutboxOk(s', t) && WillMatch(s', t) {
      assert OutboxOk(s, t);
      assert !Subscribed(s', t);
      OutcomeAppend(s.outbox, Subs(order), t, false);
      OutcomeSubs(order, t, Outcome(s.outbox, t, false));
    }
  }

  lemma StepKeepsInv(s: State, e: Event)
    requires Inv(s)
    ensures Inv(Step(s, e))
  {
    if Enabled(s, e) {
      match e
      case Subscribe(raw, t) => SubscribeKeepsInv(s, raw, t);
      case CancelSubscribe(raw, t) => CancelKeepsInv(s, raw, t);
      case Send => SendKeepsInv(s);
      case Reconnect(order) => ReconnectKeepsInv(s, order);
      case ServerRead => ServerReadKeepsInv(s);
      case Work => WorkKeepsInv(s);
      case ServerError(_) => ServerSideKeepsInv(s, e);
      case Expire(_) => ServerSideKeepsInv(s, e);
      case Stray(_, _) => ServerSideKeepsInv(s, e);
      case _ => PlainKeepsInv(s, e);
    }
  }

  lemma PlainKeepsInv(s: State, e: Event)
    requires Inv(s) && Enabled(s, e) && (e.SetResend? || e.Break? || e.FailWrites?)
    ensures Inv(Step(s, e))
  {
    var s' := Step(s, e);
    forall t ensures OutboxOk(s', t) && (s'.up ==> WillMatch(s', t)) {
      assert OutboxOk(s, t) && (s.up ==> WillMatch(s, t));
      assert s'.up ==> InFlight(s') == InFlight(s);
    }
  }

  lemma InitInv()
    ensures Inv(INIT)
  {
  }

  lemma RunInv(events: seq<Event>)
    ensures Inv(Run(events))
  {
    var inv := s => Inv(s);
    forall s, e | inv(s) ensures inv(Step(s, e)) {
      StepKeepsInv(s, e);
    }
    InitInv();
    Always(Step, inv, INIT, events);
  }

  // ---- theorems ------------------------------------------------------------------------------------------------

  /** Nothing is on its way any more on a live connection. */
  predicate Drained(s: State)
  {
    s.up && s.outbox == [] && s.wire == [] && forall i :: 0 <= i < |s.pool| ==> s.pool[i].conn != s.conn
  }

  /** The topics the server would publish to this connection. */
  function ServerTopics(s: State): set<Topic>
  {
    set p | p in s.server.pairs && p.conn == s.conn :: p.topic
  }

  lemma DrainedMatches(s: State)
    requires Inv(s) && Drained(s)
    ensures ServerTopics(s) == All(s) - s.orphans
  {
    OpsOfNone(s.pool, s.conn);
    assert InFlight(s) == [];
    forall t ensures t in ServerTopics(s) <==> t in All(s) && t !in s.orphans {
      assert WillMatch(s, t);
      assert t in ServerTopics(s) <==> Subscribed(s, t) by {
        if Subscribed(s, t) { assert Topics.Entry(t, s.conn).topic == t; }
      }
    }
  }

  /** After any sequence of subscribes, cancels, failures and reconnects, with or without resend:
      once the traffic of a live connection has drained, the server's topics for it are the
      client's bound topics less the orphans. So the two agree if and only if there is no orphan,
      that is, no topic whose one mode was cancelled while it stayed bound in the other. */
  lemma Converges(events: seq<Event>)
    requires Drained(Run(events))
    ensures var s := Run(events);
            && ServerTopics(s) == All(s) - s.orphans
            && (ServerTopics(s) == All(s) <==> s.orphans == {})
  {
    RunInv(events);
    DrainedMatches(Run(events));
  }

  // ---- the bindings and the orphans by the calls made -----------------------------------------------------

  /** The last call about t in this mode was a subscribe. */
  function SubscribedLast(events: seq<Event>, raw: bool, t: Topic): bool
  {
    if events == [] then false
    else
      var n := |events| - 1;
      match events[n]
      case Subscribe(r, u) => if r == raw && u == t then true else SubscribedLast(events[..n], raw, t)
      case CancelSubscribe(r, u) => if r == raw && u == t then false else SubscribedLast(events[..n], raw, t)
      case _ => SubscribedLast(events[..n], raw, t)
  }

  lemma BoundStep(s: State, e: Event, t: Topic)
    ensures var s' := Step(s, e);
            && (t in s'.bound <==> if e == Subscribe(false, t) then true
                                   else if e == CancelSubscribe(false, t) then false else t in s.bound)
            && (t in s'.boundRaw <==> if e == Subscribe(true, t) then true
                                      else if e == CancelSubscribe(true, t) then false else t in s.boundRaw)
  {
  }

  /** A topic is bound in a mode if and only if the last call about it in that mode, over the whole
      run and whatever failed meanwhile, was a subscribe. */
  lemma {:induction false} BoundIffSubscribedLast(events: seq<Event>, t: Topic)
    ensures t in Run(events).bound <==> SubscribedLast(events, false, t)
    ensures t in Run(events).boundRaw <==> SubscribedLast(events, true, t)
  {
    if events != [] {
      var n := |events| - 1;
      BoundIffSubscribedLast(events[..n], t);
      BoundStep(Run(events[..n]), events[n], t);
    }
  }

  predicate Wanted(events: seq<Event>, t: Topic)
  {
    SubscribedLast(events, false, t) || SubscribedLast(events, true, t)
  }

  /** A cancel of t, in either mode, has come since the last subscribe of t and the last connect. */
  predicate CancelledLast(events: seq<Event>, t: Topic)
  {
    events != [] &&
    var n := |events| - 1;
    match events[n]
    case Subscribe(_, u) => u != t && CancelledLast(events[..n], t)
    case CancelSubscribe(_, u) => u == t || CancelledLast(events[..n], t)
    case Reconnect(_) => !Enabled(Run(events[..n]), events[n]) && CancelledLast(events[..n], t)
    case _ => CancelledLast(events[..n], t)
  }

  lemma OrphanStep(s: State, e: Event, t: Topic)
    requires s.orphans <= All(s)
    ensures t in Step(s, e).orphans <==>
              match e
              case Subscribe(_, u) => u != t && t in s.orphans
              case CancelSubscribe(_, u) => if u == t then t in All(Step(s, e)) else t in s.orphans
              case Reconnect(_) => !Enabled(s, e) && t in s.orphans
              case _ => t in s.orphans
  {
  }

  lemma {:induction false} OrphanIff(events: seq<Event>, t: Topic)
    ensures t in Run(events).orphans <==> t in All(Run(events)) && CancelledLast(events, t)
  {
    RunInv(events);
    if events != [] {
      var n := |events| - 1;
      RunInv(events[..n]);
      OrphanIff(events[..n], t);
      OrphanStep(Run(events[..n]), events[n], t);
      BoundStep(Run(events[..n]), events[n], t);
    }
  }

  /** The theorem above by the calls alone. Once the traffic of a live connection has drained, the
      server publishes t to it if and only if the last call about t in some mode was a subscribe and
      no cancel of t, in either mode, has come after the last subscribe or connect. */
  lemma ConvergesByCalls(events: seq<Event>, t: Topic)
    requires Drained(Run(events))
    ensures t in ServerTopics(Run(events)) <==> Wanted(events, t) && !CancelledLast(events, t)
  {
    Converges(events);
    BoundIffSubscribedLast(events, t);
    OrphanIff(events, t);
  }

  /** A run in which no topic is cancelled in one mode while it is bound in the other. */
  predicate ModesKeptApart(events: seq<Event>)
  {
    forall n :: 0 <= n < |events| && events[n].CancelSubscribe? ==>
      events[n].t !in (if events[n].raw then Run(events[..n]).bound else Run(events[..n]).boundRaw)
  }

  lemma {:induction false} NoOrphans(events: seq<Event>)
    requires ModesKeptApart(events)
    ensures Run(events).orphans == {}
  {
    if events != [] {
      var n := |events| - 1;
      assert ModesKeptApart(events[..n]) by {
        forall m | 0 <= m < n ensures events[..n][..m] == events[..m] && events[..n][m] == events[m] { }
      }
      NoOrphans(events[..n]);
    }
  }

  /** So with the modes kept apart the server always converges to the client's bound topics. */
  lemma ConvergesWithModesApart(events: seq<Event>)
    requires ModesKeptApart(events) && Drained(Run(events))
    ensures ServerTopics(Run(events)) == All(Run(events))
    ensures forall t :: t in ServerTopics(Run(events)) <==> Wanted(events, t)
  {
    NoOrphans(events);
    Converges(events);
    forall t ensures t in All(Run(events)) <==> Wanted(events, t) {
      BoundIffSubscribedLast(events, t);
    }
  }

  // ---- a cancel can orphan the other mode ----------------------------------------------------------------------------

  ghost predicate Reached(s: State)
  {
    Reachable(Step, INIT, s) && Inv(s)
  }

  lemma ReachInv(s: State, e: Event) returns (s': State)
    requires Reached(s)
    ensures Reached(s') && s' == Step(s, e)
  {
    s' := Reach(Step, INIT, s, e);
    StepKeepsInv(s, e);
  }

  /** From any state of a live connection the traffic can drain without touching the bindings. */
  lemma {:induction false} CanDrain(s: State) returns (s': State)
    requires Reached(s) && s.up
    ensures Reached(s') && Drained(s') && All(s') == All(s) && s'.orphans == s.orphans && s'.conn == s.conn
    decreases 3 * |s.outbox| + 2 * |s.wire| + |s.pool|
  {
    if s.outbox != [] {
      s' := ReachInv(s, Send);
      s' := CanDrain(s');
    } else if s.wire != [] {
      s' := ReachInv(s, ServerRead);
      s' := CanDrain(s');
    } else if s.pool != [] {
      s' := ReachInv(s, Work);
      s' := CanDrain(s');
    } else {
      s' := s;
    }
  }

  /** A failure and the reconnect after it, in whatever order the topics are listed, heal everything:
      once drained, the server publishes exactly the bound topics to the new connection. */
  lemma ReconnectHeals(s: State, order: seq<Topic>) returns (s': State)
    requires Reached(s) && (forall t :: t in order ==> t in All(s)) && (forall t :: t in All(s) ==> t in order)
    ensures Reached(s') && Drained(s') && s'.conn == s.server.next && All(s') == All(s) && ServerTopics(s') == All(s)
  {
    s' := ReachInv(s, Break);
    s' := ReachInv(s', Reconnect(order));
    s' := CanDrain(s');
    DrainedMatches(s');
  }

  /** While the connection is down, queued requests are lost if and only if resend is off. */
  lemma QueueLostIff(s: State)
    requires s.outbox != []
    ensures Step(Step(s, Break), FailWrites).outbox == (if s.resend then s.outbox else [])
  {
  }

  /** The server keeps nothing for a connection whose error it has seen or that it has freed. */
  lemma DeadConnectionsAreForgotten(s: State, c: nat, t: Topic)
    requires c != s.conn || !s.up
    ensures Topics.Entry(t, c) !in Step(s, Expire(c)).server.pairs
    ensures c in s.server.alive ==> Topics.Entry(t, c) !in Step(s, ServerError(c)).server.pairs
  {
  }

  /** A topic subscribed in both modes and cancelled in one stays bound at the client while the
      server no longer publishes it. */
  lemma CancellingOneModeLosesBoth(t: Topic)
    ensures exists s :: Reached(s) && Drained(s) && t in All(s) && t !in ServerTopics(s)
  {
    ReachInit(Step, INIT);
    InitInv();
    var s := ReachInv(INIT, Subscribe(false, t));
    s := ReachInv(s, Subscribe(true, t));
    s := ReachInv(s, CancelSubscribe(false, t));
    s := CanDrain(s);
    DrainedMatches(s);
  }

  // ---- the binding tables in the source's own form -----------------------------------------------------------------

  /** sub_router: one table per mode. A callback is named by a number. */
  class SubRouter {
    const routeMap: Tables.ThreadsafeMap<Topic, nat>
    const routeRawMap: Tables.ThreadsafeMap<Topic, nat>

    constructor ()
      ensures fresh(routeMap) && fresh(routeRawMap) && routeMap != routeRawMap
      ensures routeMap.m == map[] && routeRawMap.m == map[]
    {
      routeMap := new Tables.ThreadsafeMap<Topic, nat>();
      routeRawMap := new Tables.ThreadsafeMap<Topic, nat>();
    }

    method Bind(raw: bool, topic: Topic, func: nat)
      requires routeMap != routeRawMap
      modifies routeMap, routeRawMap
      ensures routeRawMap.m == if raw then old(routeRawMap.m)[topic := func] else old(routeRawMap.m)
      ensures routeMap.m == if raw then old(routeMap.m) else old(routeMap.m)[topic := func]
    {
      if raw {
        var _, _ := routeRawMap.Replace(topic, func);
      } else {
        var _, _ := routeMap.Replace(topic, func);
      }
    }

    method Unbind(raw: bool, topic: Topic)
      requires routeMap != routeRawMap
      modifies routeMap, routeRawMap
      ensures routeRawMap.m == if raw then old(routeRawMap.m) - {topic} else old(routeRawMap.m)
      ensures routeMap.m == if raw then old(routeMap.m) else old(routeMap.m) - {topic}
    {
      if raw {
        routeRawMap.Erase(topic);
      } else {
        routeMap.Erase(topic);
      }
    }

    /** get_all_topic: every bound topic is listed, once for each mode it is bound in. */
    method GetAllTopic() returns (topics: seq<Topic>)
      ensures forall t :: multiset(topics)[t] == (if t in routeMap.m then 1 else 0) + (if t in routeRawMap.m then 1 else 0)
      ensures forall t :: t in topics <==> t in routeMap.m.Keys + routeRawMap.m.Keys
    {
      var plain := routeMap.Keys();
      var raw := routeRawMap.Keys();
      topics := plain + raw;
      assert multiset(topics) == multiset(plain) + multiset(raw);
      forall t ensures multiset(plain)[t] == if t in plain then 1 else 0 { Tables.OnceCounts(plain, t); }
      forall t ensures multiset(raw)[t] == if t in raw then 1 else 0 { Tables.OnceCounts(raw, t); }
    }
  }

  /** sub_client: an API call posts its request and then updates the binding tables. */
  class SubClient {
    const router: SubRouter
    var sendQueue: seq<Op>
    ghost var model: State

    ghost predicate Valid()
      reads this, router, router.routeMap, router.routeRawMap
    {
      && router.routeMap != router.routeRawMap
      && router.routeMap.m.Keys == model.bound && router.routeRawMap.m.Keys == model.boundRaw
      && sendQueue == model.outbox
    }

    constructor ()
      ensures Valid() && model == INIT && fresh(router) && fresh(router.routeMap) && fresh(router.routeRawMap)
    {
      router := new SubRouter();
      sendQueue, model := [], INIT;
    }

    method Subscribe(raw: bool, topic: Topic, func: nat)
      requires Valid()
      modifies this, router.routeMap, router.routeRawMap
      ensures Valid() && model == Step(old(model), Event.Subscribe(raw, topic))
      ensures sendQueue == old(sendQueue) + [Sub(topic)]
      ensures router.routeRawMap.m == if raw then old(router.routeRawMap.m)[topic := func] else old(router.routeRawMap.m)
      ensures router.routeMap.m == if raw then old(router.routeMap.m) else old(router.routeMap.m)[topic := func]
    {
      sendQueue := sendQueue + [Sub(topic)];
      router.Bind(raw, topic, func);
      model := Step(model, Event.Subscribe(raw, topic));
    }

    method CancelSubscribe(raw: bool, topic: Topic)
      requires Valid()
      modifies this, router.routeMap, router.routeRawMap
      ensures Valid() && model == Step(old(model), Event.CancelSubscribe(raw, topic))
      ensures sendQueue == old(sendQueue) + [Cancel(topic)]
      ensures router.routeRawMap.m == if raw then old(router.routeRawMap.m) - {topic} else old(router.routeRawMap.m)
      ensures router.routeMap.m == if raw then old(router.routeMap.m) else old(router.routeMap.m) - {topic}
    {
      sendQueue := sendQueue + [Cancel(topic)];
      router.Unbind(raw, topic);
      model := Step(model, Event.CancelSubscribe(raw, topic));
    }

    /** start() on a new connection: retry_subscribe posts a request for every bound topic, for
        each mode it is bound in. */
    method Start() returns (topics: seq<Topic>)
      requires Valid() && !model.up
      modifies this
      ensures Valid() && Enabled(old(model), Reconnect(topics)) && model == Step(old(model), Reconnect(topics))
    {
      topics := router.GetAllTopic();
      var i := 0;
      while i < |topics|
        modifies this`sendQueue
        invariant 0 <= i <= |topics| && sendQueue == old(sendQueue) + Subs(topics[..i])
      {
        assert Subs(topics[..i + 1]) == Subs(topics[..i]) + [Sub(topics[i])];
        sendQueue := sendQueue + [Sub(topics[i])];
        i := i + 1;
      }
      assert topics[..i] == topics;
      model := Step(model, Reconnect(topics));
    }
  }
}
