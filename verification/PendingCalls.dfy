/** The pending-call table of the asynchronous client, one step per lock acquisition. User
    threads allocate ids and register callbacks, the io thread routes responses (find, then
    erase, then hand the callback to the pool), the timer thread sweeps, and every reconnect
    wipes the table. Time is in milliseconds; the code reads it in whole seconds. */
module PendingCalls {
  import opened Basics
  import opened Bytes
  import opened Machine
  import opened Protocol
  import Tables

  /** One call of add_bind_func: its id and when it read the clock. */
  datatype Reg = Reg(callId: u32, readAt: nat)

  /** task_with_timepoint: which registration's callback, and its start in whole seconds. */
  datatype Entry = Entry(reg: nat, begin: int)

  /** Where the io thread is inside route. */
  datatype Io = Idle | Found(entry: Entry, content: ResponseContent) | Erased(entry: Entry, content: ResponseContent)

  /** Where the timer thread is inside check_request_timeout. */
  datatype Timer = Resting | Read(at: nat)

  /** `drafts`: registrations that read the clock and have not emplaced yet. `entered`: when a
      registration got into the table. `answered`, `timedOut`: callbacks handed to the pool by
      route and by the sweep. `timeoutAt`: the clock the sweep used. `wiped`: removed by a
      reconnect. `raced`: removed by a sweep after route had found and before it erased them.
      `stolen`: removed by the erase of a route that had found another registration's entry. */
  datatype State = State(
    now: nat, allocs: nat, callId: u32,
    regs: seq<Reg>, drafts: set<nat>, entered: map<nat, nat>, table: map<u32, Entry>,
    io: Io, timer: Timer, lastSweep: nat,
    answered: multiset<nat>, timedOut: multiset<nat>, timeoutAt: map<nat, nat>,
    wiped: set<nat>, raced: set<nat>, stolen: set<nat>)

  datatype Event =
    | Tick(ms: nat)
    | Alloc                                   // ++call_id_
    | ReadClock(alloc: nat)                   // add_bind_func evaluates its argument
    | Emplace(reg: nat)
    | RouteFind(content: ResponseContent) | RouteErase | RouteDispatch
    | Route(content: ResponseContent)         // the three of them at once
    | SweepRead | Sweep
    | Wipe                                    // start() on the io thread

  const INIT := State(0, 0, 0, [], {}, map[], map[], Idle, Resting, 0, multiset{}, multiset{}, map[], {}, {}, {})

  /** The id the n-th async_call (from 0) gets from the 32-bit counter. */
  function IdOf(alloc: nat): u32 { (alloc + 1) % U32 }

  predicate Expired(timeout: int, clock: int, e: Entry) { clock - e.begin >= timeout }

  function ExpiredKeys(timeout: int, clock: int, table: map<u32, Entry>): (ks: set<u32>)
    ensures forall k :: k in ks <==> k in table && Expired(timeout, clock, table[k])
  {
    set k | k in table && Expired(timeout, clock, table[k])
  }

  function RegsOf(table: map<u32, Entry>, ks: set<u32>): set<nat>
    requires ks <= table.Keys
  {
    set k | k in ks :: table[k].reg
  }

  predicate Enabled(s: State, e: Event)
  {
    match e
    case Tick(_) => true
    case Alloc => true
    case ReadClock(alloc) => alloc < s.allocs
    case Emplace(r) => r in s.drafts && r < |s.regs|
    case RouteFind(_) => s.io.Idle?
    case RouteErase => s.io.Found?
    case RouteDispatch => s.io.Erased?
    case Route(_) => s.io.Idle?
    case SweepRead => s.timer.Resting?
    case Sweep => s.timer.Read?
    case Wipe => s.io.Idle?
  }

  function DoFind(s: State, content: ResponseContent): State
  {
    if content.callId in s.table then s.(io := Found(s.table[content.callId], content)) else s
  }

  function DoErase(s: State): State
    requires s.io.Found?
  {
    var id := s.io.content.callId;
    s.(table := s.table - {id}, io := Erased(s.io.entry, s.io.content),
       stolen := s.stolen + if id in s.table && s.table[id].reg != s.io.entry.reg then {s.table[id].reg} else {})
  }

  function DoDispatch(s: State): State
    requires s.io.Erased?
  {
    s.(answered := s.answered + multiset{s.io.entry.reg}, io := Idle)
  }

  function DoRoute(s: State, content: ResponseContent): State
  {
    var s1 := DoFind(s, content);
    if s1.io.Found? then DoDispatch(DoErase(s1)) else s1
  }

  function DoEmplace(s: State, r: nat): State
    requires r < |s.regs|
  {
    var id := s.regs[r].callId;
    var s1 := s.(drafts := s.drafts - {r});
    if id in s.table then s1
    else s1.(table := s.table[id := Entry(r, Secs(s.regs[r].readAt))], entered := s.entered[r := s.now])
  }

  /** The registrations the sweep now under way will time out. */
  function Swept(timeout: int, s: State): set<nat>
    requires s.timer.Read?
  {
    RegsOf(s.table, ExpiredKeys(timeout, Secs(s.timer.at), s.table))
  }

  function DoSweep(timeout: int, s: State): State
    requires s.timer.Read?
  {
    var gone := ExpiredKeys(timeout, Secs(s.timer.at), s.table);
    var regs := Swept(timeout, s);
    s.(table := s.table - gone,
       timedOut := s.timedOut + multiset(regs),
       timeoutAt := s.timeoutAt + map r | r in regs :: s.timer.at,
       raced := s.raced + if s.io.Found? && s.io.entry.reg in regs then {s.io.entry.reg} else {},
       lastSweep := s.timer.at,
       timer := Resting)
  }

  function Step(timeout: int, s: State, e: Event): State
  {
    if !Enabled(s, e) then s
    else match e
      case Tick(ms) => s.(now := s.now + ms)
      case Alloc => s.(allocs := s.allocs + 1, callId := (s.callId + 1) % U32)
      case ReadClock(alloc) => s.(regs := s.regs + [Reg(IdOf(alloc), s.now)], drafts := s.drafts + {|s.regs|})
      case Emplace(r) => DoEmplace(s, r)
      case RouteFind(content) => DoFind(s, content)
      case RouteErase => DoErase(s)
      case RouteDispatch => DoDispatch(s)
      case Route(content) => DoRoute(s, content)
      case SweepRead => s.(timer := Read(s.now))
      case Sweep => DoSweep(timeout, s)
      case Wipe => s.(table := map[], wiped := s.wiped + RegsOf(s.table, s.table.Keys))
  }

  function Stepper(timeout: int): (State, Event) -> State { (s, e) => Step(timeout, s, e) }

  function Run(timeout: int, events: seq<Event>): State
  {
    Exec(Stepper(timeout), INIT, events)
  }

  // ---- invariant ----------------------------------------------------------------------------------

  predicate InTable(s: State, r: nat)
  {
    r < |s.regs| && s.regs[r].callId in s.table && s.table[s.regs[r].callId].reg == r
  }

  predicate Holding(s: State, r: nat) { !s.io.Idle? && s.io.entry.reg == r }

  ghost predicate EntryInv(s: State, id: u32, e: Entry)
  {
    && e.reg < |s.regs| && s.regs[e.reg].callId == id
    && e.begin == Secs(s.regs[e.reg].readAt)
    && e.reg in s.entered
  }

  ghost predicate ShapeInv(s: State)
  {
    && s.callId == s.allocs % U32
    && (forall k :: k in s.table ==> EntryInv(s, k, s.table[k]))
    && (!s.io.Idle? ==> EntryInv(s, s.io.content.callId, s.io.entry))
    && (forall r :: r in s.drafts ==> r < |s.regs| && r !in s.entered && s.regs[r].readAt <= s.now)
    && (forall r :: r in s.entered ==> r < |s.regs| && s.regs[r].readAt <= s.entered[r] <= s.now)
  }

  /** Every registration that got into the table is pending, in route's hands, dispatched, wiped or
      stolen, and is counted once; one that was raced is counted twice. */
  ghost predicate Conserved(s: State, r: nat)
  {
    One(InTable(s, r)) + One(Holding(s, r) && !InTable(s, r)) + s.answered[r] + s.timedOut[r]
    + One(r in s.wiped) + One(r in s.stolen) == One(r in s.entered) + One(r in s.raced)
  }

  /** What can be said of one registration. */
  ghost predicate RegInv(s: State, r: nat)
  {
    && Conserved(s, r)
    && (InTable(s, r) || Holding(s, r) ==> r in s.entered)
    && (InTable(s, r) && Holding(s, r) ==> s.io.Found?)
    && (Holding(s, r) && s.io.Found? ==> InTable(s, r) || r in s.raced)
    && (r in s.raced ==> s.timedOut[r] == 1 && (s.answered[r] == 1 || (Holding(s, r) && !InTable(s, r))))
    && (r in s.timeoutAt <==> s.timedOut[r] > 0)
  }

  predicate ClockInv(s: State)
  {
    s.lastSweep <= s.now && (s.timer.Read? ==> s.lastSweep <= s.timer.at <= s.now)
  }

  /** Whatever is pending came after the last sweep or was too young for it. */
  predicate AgeInv(timeout: int, s: State)
  {
    forall k :: k in s.table && s.table[k].reg in s.entered ==>
      s.lastSweep <= s.entered[s.table[k].reg] || !Expired(timeout, Secs(s.lastSweep), s.table[k])
  }

  predicate EarlyInv(timeout: int, s: State)
  {
    forall r :: r in s.timeoutAt ==>
      r < |s.regs| && Secs(s.timeoutAt[r]) - Secs(s.regs[r].readAt) >= timeout
  }

  ghost predicate Inv(timeout: int, s: State)
  {
    ShapeInv(s) && (forall r :: RegInv(s, r)) && ClockInv(s) && AgeInv(timeout, s) && EarlyInv(timeout, s)
  }

  /** A registration is in the table under its own id or not at all. */
  lemma RegsOfIds(s: State, ks: set<u32>, r: nat)
    requires ShapeInv(s) && ks <= s.table.Keys
    ensures r in RegsOf(s.table, ks) <==> InTable(s, r) && s.regs[r].callId in ks
  {
  }

  // Each step, one part of the invariant at a time.

  lemma StepKeepsShape(timeout: int, s: State, e: Event)
    requires ShapeInv(s) && !e.Route?
    ensures ShapeInv(Step(timeout, s, e))
  {
    if Enabled(s, e) {
      match e
      case Emplace(r) => EmplaceKeepsShape(s, r);
      case Sweep => SweepKeepsShape(timeout, s);
      case RouteFind(_) => RouteKeepsShape(timeout, s, e);
      case RouteErase => RouteKeepsShape(timeout, s, e);
      case RouteDispatch => RouteKeepsShape(timeout, s, e);
      case _ => PlainKeepsShape(timeout, s, e);
    }
  }

  lemma EmplaceKeepsShape(s: State, r: nat)
    requires ShapeInv(s) && r in s.drafts && r < |s.regs|
    ensures ShapeInv(DoEmplace(s, r))
  {
  }

  lemma SweepKeepsShape(timeout: int, s: State)
    requires ShapeInv(s) && s.timer.Read?
    ensures ShapeInv(DoSweep(timeout, s))
  {
  }

  lemma RouteKeepsShape(timeout: int, s: State, e: Event)
    requires ShapeInv(s) && (e.RouteFind? || e.RouteErase? || e.RouteDispatch?)
    ensures ShapeInv(Step(timeout, s, e))
  {
  }

  lemma PlainKeepsShape(timeout: int, s: State, e: Event)
    requires ShapeInv(s) && (e.Tick? || e.Alloc? || e.SweepRead? || e.ReadClock? || e.Wipe?)
    ensures ShapeInv(Step(timeout, s, e))
  {
  }

  lemma EmplaceKeepsReg(s: State, r: nat, q: nat)
    requires ShapeInv(s) && RegInv(s, q) && r in s.drafts && r < |s.regs|
    ensures RegInv(DoEmplace(s, r), q)
  {
    assert s.regs[r].callId !in s.table ==> (InTable(DoEmplace(s, r), q) <==> InTable(s, q) || q == r);
  }

  lemma SweepKeepsReg(timeout: int, s: State, q: nat)
    requires ShapeInv(s) && RegInv(s, q) && s.timer.Read?
    ensures RegInv(DoSweep(timeout, s), q)
  {
    var gone := ExpiredKeys(timeout, Secs(s.timer.at), s.table);
    RegsOfIds(s, gone, q);
    assert InTable(DoSweep(timeout, s), q) <==> InTable(s, q) && q !in RegsOf(s.table, gone);
  }

  lemma EraseKeepsReg(s: State, q: nat)
    requires ShapeInv(s) && RegInv(s, q) && s.io.Found?
    ensures RegInv(DoErase(s), q)
  {
    assert InTable(DoErase(s), q) <==> InTable(s, q) && s.regs[q].callId != s.io.content.callId;
  }

  lemma FindKeepsReg(s: State, content: ResponseContent, q: nat)
    requires ShapeInv(s) && RegInv(s, q) && s.io.Idle?
    ensures RegInv(DoFind(s, content), q)
  {
    assert InTable(DoFind(s, content), q) <==> InTable(s, q);
  }

  lemma DispatchKeepsReg(s: State, q: nat)
    requires RegInv(s, q) && s.io.Erased?
    ensures RegInv(DoDispatch(s), q)
  {
    assert InTable(DoDispatch(s), q) <==> InTable(s, q);
  }

  lemma WipeKeepsReg(timeout: int, s: State, q: nat)
    requires ShapeInv(s) && RegInv(s, q) && s.io.Idle?
    ensures RegInv(Step(timeout, s, Wipe), q)
  {
    RegsOfIds(s, s.table.Keys, q);
  }

  lemma PlainKeepsReg(timeout: int, s: State, e: Event, q: nat)
    requires ShapeInv(s) && RegInv(s, q) && (e.Tick? || e.Alloc? || e.SweepRead? || e.ReadClock?)
    ensures RegInv(Step(timeout, s, e), q)
  {
    assert InTable(Step(timeout, s, e), q) <==> InTable(s, q);
  }

  lemma StepKeepsReg(timeout: int, s: State, e: Event, q: nat)
    requires ShapeInv(s) && RegInv(s, q) && Enabled(s, e) && !e.Route?
    ensures RegInv(Step(timeout, s, e), q)
  {
    match e
    case Emplace(r) => EmplaceKeepsReg(s, r, q);
    case RouteFind(content) => FindKeepsReg(s, content, q);
    case RouteErase => EraseKeepsReg(s, q);
    case RouteDispatch => DispatchKeepsReg(s, q);
    case Sweep => SweepKeepsReg(timeout, s, q);
    case Wipe => WipeKeepsReg(timeout, s, q);
    case _ => PlainKeepsReg(timeout, s, e, q);
  }

  lemma StepKeepsClock(timeout: int, s: State, e: Event)
    requires ClockInv(s) && !e.Route?
    ensures ClockInv(Step(timeout, s, e))
  {
  }

  lemma StepKeepsAge(timeout: int, s: State, e: Event)
    requires ShapeInv(s) && ClockInv(s) && AgeInv(timeout, s) && !e.Route?
    ensures AgeInv(timeout, Step(timeout, s, e))
  {
    if Enabled(s, e) && e.Emplace? {
      EmplaceKeepsAge(timeout, s, e.reg);
    } else if Enabled(s, e) && e.Sweep? {
      SweepKeepsAge(timeout, s);
    } else {
      OthersAddNothing(timeout, s, e);
      OnlyOldEntries(timeout, s, Step(timeout, s, e));
    }
  }

  predicate AddsNothing(s: State, s': State)
  {
    s'.entered == s.entered && s'.lastSweep == s.lastSweep
    && forall k :: k in s'.table ==> k in s.table && s'.table[k] == s.table[k]
  }

  lemma OthersAddNothing(timeout: int, s: State, e: Event)
    requires !e.Route? && (!Enabled(s, e) || !(e.Emplace? || e.Sweep?))
    ensures AddsNothing(s, Step(timeout, s, e))
  {
  }

  lemma EmplaceKeepsAge(timeout: int, s: State, r: nat)
    requires ShapeInv(s) && ClockInv(s) && AgeInv(timeout, s) && r in s.drafts && r < |s.regs|
    ensures AgeInv(timeout, DoEmplace(s, r))
  {
  }

  lemma SweepKeepsAge(timeout: int, s: State)
    requires s.timer.Read?
    ensures AgeInv(timeout, DoSweep(timeout, s))
  {
  }

  lemma OnlyOldEntries(timeout: int, s: State, s': State)
    requires AgeInv(timeout, s) && AddsNothing(s, s')
    ensures AgeInv(timeout, s')
  {
  }

  lemma StepKeepsEarly(timeout: int, s: State, e: Event)
    requires ShapeInv(s) && EarlyInv(timeout, s) && !e.Route?
    ensures EarlyInv(timeout, Step(timeout, s, e))
  {
    if e.Sweep? && s.timer.Read? {
      SweepKeepsEarly(timeout, s);
    }
  }

  lemma SweepKeepsEarly(timeout: int, s: State)
    requires ShapeInv(s) && EarlyInv(timeout, s) && s.timer.Read?
    ensures EarlyInv(timeout, DoSweep(timeout, s))
  {
    var s' := DoSweep(timeout, s);
    forall r | r in s'.timeoutAt
      ensures r < |s.regs| && Secs(s'.timeoutAt[r]) - Secs(s.regs[r].readAt) >= timeout
    {
      RegsOfIds(s, ExpiredKeys(timeout, Secs(s.timer.at), s.table), r);
    }
  }

  lemma SmallStepKeepsInv(timeout: int, s: State, e: Event)
    requires Inv(timeout, s) && !e.Route?
    ensures Inv(timeout, Step(timeout, s, e))
  {
    if Enabled(s, e) {
      StepKeepsShape(timeout, s, e);
      StepKeepsClock(timeout, s, e);
      StepKeepsAge(timeout, s, e);
      StepKeepsEarly(timeout, s, e);
      forall q: nat ensures RegInv(Step(timeout, s, e), q) {
        StepKeepsReg(timeout, s, e, q);
      }
    }
  }

  /** Route as one step is its three steps in a row, or only the first. */
  lemma RouteIsThreeSteps(timeout: int, s: State, content: ResponseContent)
    requires s.io.Idle?
    ensures var s1 := Step(timeout, s, RouteFind(content));
            DoRoute(s, content)
            == if s1.io.Found? then Step(timeout, Step(timeout, s1, RouteErase), RouteDispatch) else s1
  {
  }

  lemma StepKeepsInv(timeout: int, s: State, e: Event)
    requires Inv(timeout, s)
    ensures Inv(timeout, Step(timeout, s, e))
  {
    if e.Route? {
      RouteStep(timeout, s, e.content);
      if s.io.Idle? {
        RouteKeepsInv(timeout, s, e.content);
      }
    } else {
      SmallStepKeepsInv(timeout, s, e);
    }
  }

  lemma RouteStep(timeout: int, s: State, content: ResponseContent)
    ensures Step(timeout, s, Route(content)) == if s.io.Idle? then DoRoute(s, content) else s
  {
  }

  lemma RouteKeepsInv(timeout: int, s: State, content: ResponseContent)
    requires Inv(timeout, s) && s.io.Idle?
    ensures Inv(timeout, DoRoute(s, content))
  {
    var s1 := Step(timeout, s, RouteFind(content));
    var s2 := Step(timeout, s1, RouteErase);
    SmallStepKeepsInv(timeout, s, RouteFind(content));
    SmallStepKeepsInv(timeout, s1, RouteErase);
    SmallStepKeepsInv(timeout, s2, RouteDispatch);
    RouteIsThreeSteps(timeout, s, content);
  }

  lemma RunInv(timeout: int, events: seq<Event>)
    ensures Inv(timeout, Run(timeout, events))
  {
    var inv := s => Inv(timeout, s);
    forall s, e | inv(s) ensures inv(Stepper(timeout)(s, e)) {
      StepKeepsInv(timeout, s, e);
    }
    Always(Stepper(timeout), inv, INIT, events);
  }

  // ---- theorems about every run ---------------------------------------------------------------------

  function Dispatches(s: State, r: nat): nat { s.answered[r] + s.timedOut[r] }

  /** At lock granularity a registered callback is handed to the pool at most twice. It is handed
      over twice exactly when a sweep took it out of the table between route's find and erase,
      and route has since finished with it. */
  lemma AtMostTwice(timeout: int, events: seq<Event>, r: nat)
    ensures var s := Run(timeout, events);
            && s.answered[r] <= 1 && s.timedOut[r] <= 1
            && (Dispatches(s, r) == 2 <==> r in s.raced && !Holding(s, r))
  {
    RunInv(timeout, events);
    assert RegInv(Run(timeout, events), r);
  }

  /** The conservation law at lock granularity: pending, in route's hands, answered, timed out,
      wiped and stolen add up to one for every registration that got into the table, to two for one
      that a sweep took between route's find and erase, and to nothing for any other. */
  lemma NothingUnaccountedFor(timeout: int, events: seq<Event>, r: nat)
    ensures Conserved(Run(timeout, events), r)
  {
    RunInv(timeout, events);
    assert RegInv(Run(timeout, events), r);
  }

  /** With route as one step, an entry that got into the table has exactly one fate so far. */
  ghost predicate OneFate(s: State, r: nat)
  {
    One(InTable(s, r)) + s.answered[r] + s.timedOut[r] + One(r in s.wiped) == One(r in s.entered)
  }

  predicate RouteIsOneStep(events: seq<Event>)
  {
    forall i :: 0 <= i < |events| ==> !events[i].RouteFind?
  }

  /** If route is one step, every entry that got into the table is in exactly one of four places:
      pending, answered once, timed out once, or wiped by a reconnect; no other has a fate. */
  lemma ExactlyOneFate(timeout: int, events: seq<Event>, r: nat)
    requires RouteIsOneStep(events)
    ensures OneFate(Run(timeout, events), r)
  {
    AtomicRun(timeout, events);
    NothingUnaccountedFor(timeout, events, r);
  }

  predicate Atomic(s: State) { s.io.Idle? && s.raced == {} && s.stolen == {} }

  lemma {:induction false} AtomicRun(timeout: int, events: seq<Event>)
    requires RouteIsOneStep(events)
    ensures Atomic(Run(timeout, events))
  {
    if events != [] {
      var n := |events| - 1;
      AtomicRun(timeout, events[..n]);
      AtomicStep(timeout, Run(timeout, events[..n]), events[n]);
    }
  }

  lemma AtomicStep(timeout: int, s: State, e: Event)
    requires Atomic(s) && !e.RouteFind?
    ensures Atomic(Step(timeout, s, e))
  {
  }

  // ---- a callback can be lost ---------------------------------------------------------------------

  /** No two registrations that are in the table or in route's hands share an id. */
  predicate IdsApart(s: State)
  {
    forall r, q :: 0 <= r < q < |s.regs| && (InTable(s, r) || Holding(s, r)) && (InTable(s, q) || Holding(s, q)) ==>
      s.regs[r].callId != s.regs[q].callId
  }

  /** Exactly when route's erase loses a callback: if and only if some registration other than the
      one it found is in the table under the same id. */
  lemma EraseStealsIff(timeout: int, s: State)
    requires Inv(timeout, s) && s.io.Found?
    ensures DoErase(s).stolen == s.stolen <==> IdsApart(s)
  {
    var id, held := s.io.content.callId, s.io.entry.reg;
    assert EntryInv(s, id, s.io.entry);
    if id in s.table && s.table[id].reg != held {
      var other := s.table[id].reg;
      assert EntryInv(s, id, s.table[id]) && InTable(s, other) && RegInv(s, other);
      assert other in DoErase(s).stolen && other !in s.stolen;
    }
  }

  lemma StealStep(timeout: int, s: State, e: Event)
    requires Inv(timeout, s) && IdsApart(s) && s.stolen == {}
    ensures Step(timeout, s, e).stolen == {}
  {
    if e.RouteErase? && s.io.Found? {
      EraseStealsIff(timeout, s);
    }
  }

  /** So nothing is stolen in any run in which live ids are distinct. */
  lemma {:induction false} NothingStolen(timeout: int, events: seq<Event>)
    requires forall n :: 0 <= n < |events| ==> IdsApart(Run(timeout, events[..n]))
    ensures Run(timeout, events).stolen == {}
  {
    if events != [] {
      var n := |events| - 1;
      forall m | 0 <= m < n ensures IdsApart(Run(timeout, events[..n][..m])) {
        assert events[..n][..m] == events[..m];
      }
      NothingStolen(timeout, events[..n]);
      RunInv(timeout, events[..n]);
      StealStep(timeout, Run(timeout, events[..n]), events[n]);
    }
  }

  // ---- when things happened, by the events of the run --------------------------------------------------

  /** The time after a run: all the ticks in it. */
  function Ticks(events: seq<Event>): nat
  {
    if events == [] then 0
    else
      var n := |events| - 1;
      Ticks(events[..n]) + if events[n].Tick? then events[n].ms else 0
  }

  lemma {:induction false} NowIsTheTicks(timeout: int, events: seq<Event>)
    ensures Run(timeout, events).now == Ticks(events)
  {
    if events != [] {
      NowIsTheTicks(timeout, events[..|events| - 1]);
    }
  }

  predicate Has(s: State, r: nat, reg: Reg) { r < |s.regs| && s.regs[r] == reg }

  lemma RegsStep(timeout: int, s: State, e: Event, r: nat, reg: Reg)
    requires !Has(s, r, reg) && Has(Step(timeout, s, e), r, reg)
    ensures e.ReadClock? && e.alloc < s.allocs && |s.regs| == r && reg == Reg(IdOf(e.alloc), s.now)
  {
  }

  /** Every registration was made by a call of add_bind_func that read the clock at that moment, for
      an id that the counter had given out: the alloc-th of them. */
  lemma RegisteredBy(timeout: int, events: seq<Event>, r: nat) returns (n: nat)
    requires r < |Run(timeout, events).regs|
    ensures n < |events| && events[n].ReadClock? && |Run(timeout, events[..n]).regs| == r
    ensures events[n].alloc < Run(timeout, events[..n]).allocs
    ensures Run(timeout, events).regs[r] == Reg((events[n].alloc + 1) % 0x1_0000_0000, Ticks(events[..n]))
  {
    var reg := Run(timeout, events).regs[r];
    n := Flips(Stepper(timeout), INIT, events, (s: State) => Has(s, r, reg));
    RegsStep(timeout, Run(timeout, events[..n]), events[n], r, reg);
    NowIsTheTicks(timeout, events[..n]);
  }

  lemma EnteredStep(timeout: int, s: State, e: Event, r: nat)
    ensures var s' := Step(timeout, s, e);
            r in s'.entered ==> (r in s.entered && s'.entered[r] == s.entered[r]) || (e == Emplace(r) && s'.entered[r] == s.now)
  {
  }

  /** Every entry got into the table by an emplace of its registration at that moment. */
  lemma EnteredBy(timeout: int, events: seq<Event>, r: nat) returns (n: nat)
    requires r in Run(timeout, events).entered
    ensures n < |events| && events[n] == Emplace(r) && Run(timeout, events).entered[r] == Ticks(events[..n])
  {
    var at := Run(timeout, events).entered[r];
    n := Flips(Stepper(timeout), INIT, events, (s: State) => r in s.entered && s.entered[r] == at);
    EnteredStep(timeout, Run(timeout, events[..n]), events[n], r);
    NowIsTheTicks(timeout, events[..n]);
  }

  lemma TimerStep(timeout: int, s: State, e: Event)
    ensures var s' := Step(timeout, s, e);
            s'.timer.Read? ==> s'.timer == s.timer || (e == SweepRead && s'.timer.at == s.now)
  {
  }

  /** A sweep under way read the clock at the moment of its first step. */
  lemma SweepReadBy(timeout: int, events: seq<Event>) returns (n: nat)
    requires Run(timeout, events).timer.Read?
    ensures n < |events| && events[n] == SweepRead && Run(timeout, events).timer.at == Ticks(events[..n])
  {
    var timer := Run(timeout, events).timer;
    n := Flips(Stepper(timeout), INIT, events, (s: State) => s.timer == timer);
    TimerStep(timeout, Run(timeout, events[..n]), events[n]);
    NowIsTheTicks(timeout, events[..n]);
  }

  lemma TimeoutStep(timeout: int, s: State, e: Event, r: nat)
    ensures var s' := Step(timeout, s, e);
            r in s'.timeoutAt ==>
              || (r in s.timeoutAt && s'.timeoutAt[r] == s.timeoutAt[r])
              || (e == Sweep && s.timer == Read(s'.timeoutAt[r]))
  {
  }

  /** Every timeout was handed over by a sweep, with the clock that this sweep had read. */
  lemma TimedOutBy(timeout: int, events: seq<Event>, r: nat) returns (read: nat, swept: nat)
    requires r in Run(timeout, events).timeoutAt
    ensures read < swept < |events| && events[read] == SweepRead && events[swept] == Sweep
    ensures Run(timeout, events).timeoutAt[r] == Ticks(events[..read])
  {
    var at := Run(timeout, events).timeoutAt[r];
    swept := Flips(Stepper(timeout), INIT, events, (s: State) => r in s.timeoutAt && s.timeoutAt[r] == at);
    TimeoutStep(timeout, Run(timeout, events[..swept]), events[swept], r);
    read := SweepReadBy(timeout, events[..swept]);
    assert events[..swept][..read] == events[..read];
  }

  /** The clock that the last finished sweep of a run had read; zero before there is one. */
  function LastSweep(timeout: int, events: seq<Event>): nat
  {
    if events == [] then 0
    else
      var n := |events| - 1;
      var before := Run(timeout, events[..n]);
      if events[n].Sweep? && before.timer.Read? then before.timer.at else LastSweep(timeout, events[..n])
  }

  lemma {:induction false} LastSweepIs(timeout: int, events: seq<Event>)
    ensures Run(timeout, events).lastSweep == LastSweep(timeout, events)
  {
    if events != [] {
      var n := |events| - 1;
      LastSweepIs(timeout, events[..n]);
      SweepStep(timeout, Run(timeout, events[..n]), events[n]);
    }
  }

  lemma SweepStep(timeout: int, s: State, e: Event)
    ensures Step(timeout, s, e).lastSweep == if e.Sweep? && s.timer.Read? then s.timer.at else s.lastSweep
  {
  }

  function Max0(x: int): nat { if x < 0 then 0 else x }

  /** No entry stays pending longer than the timeout plus the time since the last finished sweep
      read the clock, counted from the emplace that put it there. So if sweeps are at most g apart,
      no pending entry is older than request_timeout + g; a timeout of zero or less counts as zero. */
  lemma PendingAgeIsBounded(timeout: int, events: seq<Event>, k: u32) returns (n: nat)
    requires k in Run(timeout, events).table
    ensures n < |events| && events[n] == Emplace(Run(timeout, events).table[k].reg)
    ensures LastSweep(timeout, events) <= Ticks(events)
    ensures Ticks(events) - Ticks(events[..n]) <= (Ticks(events) - LastSweep(timeout, events)) + 1000 * Max0(timeout)
  {
    RunInv(timeout, events);
    NowIsTheTicks(timeout, events);
    LastSweepIs(timeout, events);
    var s := Run(timeout, events);
    assert EntryInv(s, k, s.table[k]);
    n := EnteredBy(timeout, events, s.table[k].reg);
  }

  /** Despite the whole-second clocks no callback is timed out more than one second early, counting
      from the moment of its registration to that at which the sweep read the clock. */
  lemma NeverMoreThanASecondEarly(timeout: int, events: seq<Event>, r: nat)
    returns (called: nat, read: nat, swept: nat)
    requires Run(timeout, events).timedOut[r] > 0
    ensures called < |events| && events[called].ReadClock? && |Run(timeout, events[..called]).regs| == r
    ensures read < swept < |events| && events[read] == SweepRead && events[swept] == Sweep
    ensures Ticks(events[..read]) - Ticks(events[..called]) > 1000 * (timeout - 1)
  {
    RunInv(timeout, events);
    var s := Run(timeout, events);
    assert RegInv(s, r);
    called := RegisteredBy(timeout, events, r);
    read, swept := TimedOutBy(timeout, events, r);
  }

  // ---- whose content a callback gets ---------------------------------------------------------------------

  lemma AnswerStep(timeout: int, s: State, e: Event, r: nat)
    ensures var s' := Step(timeout, s, e);
            s'.answered[r] > 0 ==>
              || s.answered[r] > 0
              || (e == RouteDispatch && Holding(s, r))
              || (e.Route? && e.content.callId in s.table && s.table[e.content.callId].reg == r)
  {
  }

  lemma HoldStep(timeout: int, s: State, e: Event, r: nat, content: ResponseContent)
    ensures var s' := Step(timeout, s, e);
            Holding(s', r) && s'.io.content == content ==>
              || (Holding(s, r) && s.io.content == content)
              || (e == RouteFind(content) && content.callId in s.table && s.table[content.callId].reg == r)
  {
  }

  /** A callback is answered only with a response that carries the id it was registered under, and
      only if the response found its entry. */
  lemma AnsweredBy(timeout: int, events: seq<Event>, r: nat) returns (n: nat)
    requires Run(timeout, events).answered[r] > 0
    ensures n < |events| && (events[n].RouteFind? || events[n].Route?)
    ensures var s, id := Run(timeout, events[..n]), events[n].content.callId;
            id in s.table && s.table[id].reg == r && r < |s.regs| && s.regs[r].callId == id
  {
    n := Flips(Stepper(timeout), INIT, events, (s: State) => s.answered[r] > 0);
    AnswerStep(timeout, Run(timeout, events[..n]), events[n], r);
    if events[n] == RouteDispatch {
      var m := n;
      n := FoundBy(timeout, events[..m], r);
      assert events[..m][..n] == events[..n];
    }
    RunInv(timeout, events[..n]);
    EntryIsOf(Run(timeout, events[..n]), events[n].content.callId, r);
  }

  lemma EntryIsOf(s: State, id: u32, r: nat)
    requires ShapeInv(s) && id in s.table && s.table[id].reg == r
    ensures r < |s.regs| && s.regs[r].callId == id
  {
    assert EntryInv(s, id, s.table[id]);
  }

  lemma FoundBy(timeout: int, events: seq<Event>, r: nat) returns (n: nat)
    requires Holding(Run(timeout, events), r)
    ensures n < |events| && events[n].RouteFind?
    ensures var s, id := Run(timeout, events[..n]), events[n].content.callId;
            id in s.table && s.table[id].reg == r
  {
    var content := Run(timeout, events).io.content;
    n := Flips(Stepper(timeout), INIT, events, (s: State) => Holding(s, r) && s.io.content == content);
    HoldStep(timeout, Run(timeout, events[..n]), events[n], r, content);
  }

  // ---- the double dispatch happens -------------------------------------------------------------------

  ghost predicate Reached(timeout: int, s: State) { Reachable(Stepper(timeout), INIT, s) }

  lemma ReachEntered(timeout: int) returns (s: State)
    ensures Reached(timeout, s) && s.table == map[1 := Entry(0, 0)] && |s.regs| == 1 && s.drafts == {} && s.allocs == 1
    ensures s.timedOut == s.answered == multiset{} && s.timer.Resting? && s.now == 0 && s.io.Idle?
  {
    ReachInit(Stepper(timeout), INIT);
    s := Reach(Stepper(timeout), INIT, INIT, Alloc);
    s := Reach(Stepper(timeout), INIT, s, ReadClock(0));
    assert s.regs == [Reg(1, 0)] && s.drafts == {0};
    s := Reach(Stepper(timeout), INIT, s, Emplace(0));
    assert s.drafts == {};
  }

  lemma ReachFound(timeout: nat) returns (s: State)
    ensures Reached(timeout, s) && s.table == map[1 := Entry(0, 0)] && |s.regs| == 1 && s.drafts == {} && s.allocs == 1
    ensures s.timedOut == s.answered == multiset{} && s.timer == Read(1000 * timeout)
    ensures s.io == Found(Entry(0, 0), ResponseContent(1, OK, [], []))
  {
    s := ReachEntered(timeout);
    s := Reach(Stepper(timeout), INIT, s, RouteFind(ResponseContent(1, OK, [], [])));
    s := Reach(Stepper(timeout), INIT, s, Tick(1000 * timeout));
    s := Reach(Stepper(timeout), INIT, s, SweepRead);
  }

  /** The sweep takes the entry that route has found and not yet erased. */
  lemma ReachSwept(timeout: nat) returns (s: State)
    ensures Reached(timeout, s) && s.table == map[] && |s.regs| == 1 && s.drafts == {} && s.allocs == 1
    ensures s.timedOut == multiset{0} && s.answered == multiset{}
    ensures s.io == Found(Entry(0, 0), ResponseContent(1, OK, [], []))
  {
    s := ReachFound(timeout);
    assert ExpiredKeys(timeout, timeout, s.table) == {1};
    assert RegsOf(s.table, {1}) == {0};
    s := Reach(Stepper(timeout), INIT, s, Sweep);
  }

  /** A response is found, the sweep times the same entry out, and route then erases nothing and
      still hands the callback over: two dispatches of one callback. */
  lemma DoubleDispatchHappens(timeout: nat)
    ensures exists s :: Reached(timeout, s) && Dispatches(s, 0) == 2
  {
    var s := ReachSwept(timeout);
    s := Reach(Stepper(timeout), INIT, s, RouteErase);
    s := Reach(Stepper(timeout), INIT, s, RouteDispatch);
    assert Dispatches(s, 0) == 2;
  }

  /** After the race above, a second registration under the same id is erased by route although
      nothing was dispatched for it: its callback is lost. */
  lemma LostCallbackHappens(timeout: nat)
    ensures exists s :: Reached(timeout, s) && 1 in s.stolen && Dispatches(s, 1) == 0 && !InTable(s, 1)
  {
    var s := ReachSwept(timeout);
    s := Reach(Stepper(timeout), INIT, s, ReadClock(0));
    s := Reach(Stepper(timeout), INIT, s, Emplace(1));
    s := Reach(Stepper(timeout), INIT, s, RouteErase);
  }

  // ---- the client in the source's own form -------------------------------------------------------------

  /** A callback handed to the thread pool with the content it will be called with. */
  datatype Task = Task(reg: nat, content: ResponseContent)

  /** The content of a timed-out call; its id is whatever the stack held. */
  function TimeoutContent(anyId: u32): ResponseContent { ResponseContent(anyId, REQUEST_TIMEOUT, [], []) }

  /** One task more for every key in `hits`, in that order, with the timeout code. */
  ghost predicate TimeoutsPushed(was: seq<Task>, now: seq<Task>, entries: map<u32, Entry>, hits: seq<u32>, anyId: u32)
  {
    && |now| == |was| + |hits| && was <= now
    && forall i :: 0 <= i < |hits| ==>
         hits[i] in entries && now[|was| + i] == Task(entries[hits[i]].reg, TimeoutContent(anyId))
  }

  /** Exactly the entries younger than the limit are left. */
  ghost predicate Younger(was: map<u32, Entry>, now: map<u32, Entry>, limit: int, clock: int)
  {
    forall k :: (k in now <==> k in was && clock - was[k].begin < limit) && (k in now ==> now[k] == was[k])
  }

  lemma Survivors(timeout: int, clock: int, table: map<u32, Entry>, kept: map<u32, Entry>)
    requires kept == map k | k in table && !Expired(timeout, clock, table[k]) :: table[k]
    ensures kept == table - ExpiredKeys(timeout, clock, table) && Younger(table, kept, timeout, clock)
  {
  }

  /** async_rpc_client: its counter, its table and the tasks it has handed over. `model` is the
      state machine above, and every critical section is one of its steps. */
  class AsyncRpcClient {
    const taskMap: Tables.ThreadsafeMap<u32, Entry>
    const requestTimeout: int
    var callId: u32
    var tasks: seq<Task>
    ghost var model: State

    ghost predicate Valid()
      reads this, taskMap
    {
      model.table == taskMap.m && model.callId == callId == model.allocs % U32
    }

    constructor (requestTimeout: int)
      ensures Valid() && model == INIT && tasks == [] && this.requestTimeout == requestTimeout && fresh(taskMap)
    {
      this.requestTimeout := requestTimeout;
      taskMap := new Tables.ThreadsafeMap<u32, Entry>();
      callId, tasks := 0, [];
      model := INIT;
    }

    /** ++call_id_ in async_call and async_call_raw. */
    method NextCallId() returns (id: u32)
      requires Valid()
      modifies this`callId, this`model
      ensures Valid() && model == Step(requestTimeout, old(model), Alloc)
      ensures id == callId == (old(callId) + 1) % 0x1_0000_0000
    {
      callId := (callId + 1) % U32;
      id := callId;
      model := Step(requestTimeout, model, Alloc);
    }

    /** time(nullptr) in add_bind_func, before it takes the lock; `now` is the time. */
    method ReadTime(ghost alloc: nat, now: nat) returns (beginTime: int)
      requires Valid() && Enabled(model, ReadClock(alloc)) && now == model.now
      modifies this`model
      ensures Valid() && model == Step(requestTimeout, old(model), ReadClock(alloc))
      ensures beginTime == Secs(now)
    {
      beginTime := Secs(now);
      model := Step(requestTimeout, model, ReadClock(alloc));
    }

    /** add_bind_func, once its argument is evaluated. */
    method AddBindFunc(reg: nat, id: u32, beginTime: int)
      requires Valid() && Enabled(model, Emplace(reg))
      requires model.regs[reg].callId == id && Secs(model.regs[reg].readAt) == beginTime
      modifies this`model, taskMap
      ensures Valid() && model == Step(requestTimeout, old(model), Emplace(reg))
      ensures taskMap.m == if id in old(taskMap.m) then old(taskMap.m) else old(taskMap.m)[id := Entry(reg, beginTime)]
    {
      taskMap.Emplace(id, Entry(reg, beginTime));
      model := Step(requestTimeout, model, Emplace(reg));
    }

    /** The first critical section of route. */
    method Find(content: ResponseContent) returns (found: Option<Entry>)
      requires Valid() && Enabled(model, RouteFind(content))
      modifies this`model
      ensures Valid() && model == Step(requestTimeout, old(model), RouteFind(content))
      ensures found == if content.callId in taskMap.m then Some(taskMap.m[content.callId]) else None
      ensures found.Some? <==> model.io.Found?
      ensures found.Some? ==> model.io == Found(found.value, content)
    {
      found := taskMap.Find(content.callId);
      model := Step(requestTimeout, model, RouteFind(content));
    }

    /** The second: the erase, whatever is there by now. */
    method Erase(content: ResponseContent)
      requires Valid() && Enabled(model, RouteErase) && model.io.content == content
      modifies this`model, taskMap
      ensures Valid() && model == Step(requestTimeout, old(model), RouteErase)
      ensures taskMap.m == old(taskMap.m) - {content.callId}
    {
      taskMap.Erase(content.callId);
      model := Step(requestTimeout, model, RouteErase);
    }

    /** add_task at the end of route. */
    method Dispatch(entry: Entry, content: ResponseContent)
      requires Valid() && model.io == Erased(entry, content)
      modifies this`model, this`tasks
      ensures Valid() && model == Step(requestTimeout, old(model), RouteDispatch)
      ensures tasks == old(tasks) + [Task(entry.reg, content)]
    {
      tasks := tasks + [Task(entry.reg, content)];
      model := Step(requestTimeout, model, RouteDispatch);
    }

    /** check_request_timeout with the clock it read: one timeout for, and the removal of, exactly
        the entries whose age has reached the limit. */
    method CheckRequestTimeout(currentTime: int, anyId: u32) returns (hits: seq<u32>)
      requires Valid() && model.timer.Read? && currentTime == Secs(model.timer.at)
      modifies this`model, this`tasks, taskMap
      ensures Valid() && model == Step(requestTimeout, old(model), Sweep)
      ensures Tables.Once(hits)
      ensures forall k :: k in hits <==> k in old(model.table)
                                         && Expired(requestTimeout, currentTime, old(model.table)[k])
      ensures TimeoutsPushed(old(tasks), tasks, old(model.table), hits, anyId)
      ensures Younger(old(taskMap.m), taskMap.m, requestTimeout, currentTime)
    {
      var limit := requestTimeout;
      var entries := taskMap.m;
      hits := taskMap.ForEachErase((k: u32, e: Entry) => Expired(limit, currentTime, e));
      Survivors(limit, currentTime, entries, taskMap.m);
      PushTimeouts(entries, hits, anyId);
      model := Step(requestTimeout, model, Sweep);
    }

    method PushTimeouts(entries: map<u32, Entry>, hits: seq<u32>, anyId: u32)
      requires forall k :: k in hits ==> k in entries
      modifies this`tasks
      ensures TimeoutsPushed(old(tasks), tasks, entries, hits, anyId)
    {
      var i := 0;
      while i < |hits|
        invariant 0 <= i <= |hits| && TimeoutsPushed(old(tasks), tasks, entries, hits[..i], anyId)
      {
        assert hits[i] in hits;
        tasks := tasks + [Task(entries[hits[i]].reg, TimeoutContent(anyId))];
        i := i + 1;
      }
      assert hits[..i] == hits;
    }

    /** start() after a reconnect. */
    method Start()
      requires Valid() && Enabled(model, Wipe)
      modifies this`model, taskMap
      ensures Valid() && model == Step(requestTimeout, old(model), Wipe)
      ensures taskMap.m == map[]
    {
      taskMap.Clear();
      model := Step(requestTimeout, model, Wipe);
    }
  }
}
