/** Stopping the asynchronous client: the timer thread is joined, then the io thread, then the
    pool is stopped. Both threads hand callbacks to the pool until they are joined. */
module Shutdown {
  import opened Basics
  import opened Machine
  import Pool = ThreadPool

  /** A thread that calls add_task: between calls, past the flag check, pushed and about to
      notify, or joined. Throwing: add_task found the pool stopped. */
  datatype Producer = Idle | Checked | Pushed | Throwing | Joined

  /** What async_rpc_client::stop does next. */
  datatype Stage = JoinTimer | JoinIo | StopPool

  /** Producer 0 is the timer thread (the sweep), producer 1 the io thread (route). */
  datatype State = State(pool: Pool.State, timer: Producer, io: Producer, stage: Stage)

  datatype Event =
    | Check(timer: bool) | Push(timer: bool) | Notify(timer: bool, w: nat)
    | Worker(e: Pool.Event)            // Look, Sleep, Spurious, Done
    | Stop                             // the stopping thread takes its next step

  /** After run(): one worker, both producers alive. */
  const INIT := State(Pool.Step(Pool.INIT, Pool.Spawn), Idle, Idle, JoinTimer)

  function Get(s: State, timer: bool): Producer { if timer then s.timer else s.io }

  function Put(s: State, timer: bool, p: Producer, pool: Pool.State): State
  {
    if timer then s.(timer := p, pool := pool) else s.(io := p, pool := pool)
  }

  predicate Enabled(s: State, e: Event)
  {
    match e
    case Check(t) => Get(s, t).Idle?
    case Push(t) => Get(s, t).Checked? && Pool.Enabled(s.pool, Pool.Push)
    case Notify(t, w) => Get(s, t).Pushed? && Pool.Enabled(s.pool, Pool.NotifyOne(w))
    case Worker(ev) => ev.Look? || ev.Sleep? || ev.Spurious? || ev.Done?
    case Stop =>
      match s.stage
      case JoinTimer => s.timer.Idle?
      case JoinIo => s.io.Idle?
      case StopPool => true
  }

  /** stop_impl, one step at a time: set the flag, notify, join. */
  function NextPoolStop(p: Pool.State): Pool.Event
  {
    match p.stopper
    case NotStopping => Pool.SetStop
    case FlagSet => Pool.NotifyAll
    case _ => Pool.JoinAll
  }

  function Step(s: State, e: Event): State
  {
    if !Enabled(s, e) then s
    else match e
      case Check(t) => Put(s, t, if s.pool.stop then Throwing else Checked, Pool.Step(s.pool, Pool.Check))
      case Push(t) => Put(s, t, Pushed, Pool.Step(s.pool, Pool.Push))
      case Notify(t, w) => Put(s, t, Idle, Pool.Step(s.pool, Pool.NotifyOne(w)))
      case Worker(ev) => s.(pool := Pool.Step(s.pool, ev))
      case Stop =>
        match s.stage
        case JoinTimer => s.(timer := Joined, stage := JoinIo)
        case JoinIo => s.(io := Joined, stage := StopPool)
        case StopPool => s.(pool := Pool.Step(s.pool, NextPoolStop(s.pool)))
  }

  function Run(events: seq<Event>): State
  {
    Exec(Step, INIT, events)
  }

  ghost predicate Inv(s: State)
  {
    && Pool.Inv(s.pool)
    && |s.pool.workers| == 1
    && s.pool.passed == One(s.timer.Checked?) + One(s.io.Checked?)
    && s.pool.notifies == One(s.timer.Pushed?) + One(s.io.Pushed?)
    && !s.timer.Throwing? && !s.io.Throwing?
    && (s.stage != JoinTimer <==> s.timer.Joined?)
    && (s.stage == StopPool <==> s.io.Joined?)
    && (s.pool.stop ==> s.stage == StopPool)
    && (Pool.AllExited(s.pool.workers) ==> s.pool.sealed == s.pool.pushed)
    && s.pool.rejected == 0
    && (s.pool.stopper.Returned? ==> Pool.AllExited(s.pool.workers))
  }

  /** What a pool step does to the counters the producers are measured by. */
  lemma PoolStepCounts(p: Pool.State, e: Pool.Event)
    requires Pool.Enabled(p, e) && !e.Spawn?
    ensures var p' := Pool.Step(p, e);
            && |p'.workers| == |p.workers|
            && p'.passed == p.passed + One(e.Check? && !p.stop) - One(e.Push?)
            && p'.notifies == p.notifies + One(e.Push?) - One(e.NotifyOne?)
            && p'.rejected == p.rejected + One(e.Check? && p.stop)
            && p'.pushed == p.pushed + One(e.Push?)
            && p'.stop == (p.stop || e.SetStop?)
            && (p'.stopper.Returned? ==> p.stopper.Returned? || e.JoinAll?)
  {
  }

  /** With one worker, the exit that empties the pool is the one that records `sealed`, and
      nobody is left to wake up. */
  lemma PoolStepExits(p: Pool.State, e: Pool.Event)
    requires |p.workers| == 1 && !e.Spawn? && Pool.AllExited(Pool.Step(p, e).workers)
    ensures Pool.AllExited(p.workers) ==> Pool.Step(p, e).sealed == p.sealed
    ensures !Pool.AllExited(p.workers) ==> Pool.Step(p, e).sealed == p.pushed == Pool.Step(p, e).pushed && p.stop
  {
    assert Pool.Step(p, e).workers[0].Exited?;
    assert Pool.AllExited(p.workers) <==> p.workers[0].Exited?;
  }

  lemma PoolStepStaysExited(p: Pool.State, e: Pool.Event)
    requires |p.workers| == 1 && !e.Spawn? && Pool.AllExited(p.workers)
    ensures Pool.AllExited(Pool.Step(p, e).workers)
  {
  }

  lemma StepKeepsInv(s: State, e: Event)
    requires Inv(s)
    ensures Inv(Step(s, e))
  {
    if Enabled(s, e) {
      match e
      case Check(t) => AfterPoolStep(s, e, Pool.Check);
      case Push(t) => AfterPoolStep(s, e, Pool.Push);
      case Notify(t, w) => AfterPoolStep(s, e, Pool.NotifyOne(w));
      case Worker(ev) => if Pool.Enabled(s.pool, ev) { AfterPoolStep(s, e, ev); }
      case Stop =>
        if s.stage == StopPool && Pool.Enabled(s.pool, NextPoolStop(s.pool)) {
          AfterPoolStep(s, e, NextPoolStop(s.pool));
        }
    }
  }

  lemma AfterPoolStep(s: State, e: Event, ev: Pool.Event)
    requires Inv(s) && Enabled(s, e) && Pool.Enabled(s.pool, ev)
    requires Step(s, e).pool == Pool.Step(s.pool, ev)
    requires match e
             case Check(t) => ev == Pool.Check
             case Push(t) => ev == Pool.Push
             case Notify(t, w) => ev == Pool.NotifyOne(w)
             case Worker(wev) => ev == wev
             case Stop => s.stage == StopPool && ev == NextPoolStop(s.pool)
    ensures Inv(Step(s, e))
  {
    Pool.StepKeepsInv(s.pool, ev);
    PoolStepCounts(s.pool, ev);
    if Pool.AllExited(s.pool.workers) {
      PoolStepStaysExited(s.pool, ev);
      assert s.pool.workers[0].Exited?;
    }
    if Pool.AllExited(Pool.Step(s.pool, ev).workers) {
      PoolStepExits(s.pool, ev);
    }
  }

  lemma RunInv(events: seq<Event>)
    ensures Inv(Run(events))
  {
    var inv := s => Inv(s);
    forall s, e | inv(s) ensures inv(Step(s, e)) {
      StepKeepsInv(s, e);
    }
    assert INIT.pool.workers == [Pool.Awake];
    Pool.ReachableInv([]);
    Pool.StepKeepsInv(Pool.INIT, Pool.Spawn);
    Always(Step, inv, INIT, events);
  }

  /** When stop has returned, every callback that routing or the sweep handed over has run to the
      end, the pool's queue is empty, and no add_task was ever turned away, because both
      producers were joined before the pool's flag was set. */
  lemma StopRunsEveryCallback(events: seq<Event>)
    requires Run(events).pool.stopper.Returned?
    ensures var p := Run(events).pool;
            && p.queue == []
            && |p.taken| == p.pushed
            && multiset(p.finished) == multiset(p.taken)
            && p.rejected == 0
  {
    RunInv(events);
    var p := Run(events).pool;
    forall t: nat ensures multiset(p.finished)[t] == multiset(p.taken)[t] {
      assert Pool.Accounted(p, t);
      Pool.NoneRunning(p.workers, t);
    }
  }

  /** In no run does a producer find the pool already stopped. */
  lemma NoCallbackIsTurnedAway(events: seq<Event>)
    ensures !Run(events).timer.Throwing? && !Run(events).io.Throwing? && Run(events).pool.rejected == 0
  {
    RunInv(events);
  }

  // ---- stop does return in some run, after a callback has run ------------------------------------------

  ghost predicate Reached(s: State) { Reachable(Step, INIT, s) }

  lemma ReachQueued() returns (s: State)
    ensures Reached(s) && s.timer.Idle? && s.io.Idle? && s.stage == JoinTimer
    ensures s.pool.workers == [Pool.Awake] && s.pool.queue == [0] && s.pool.finished == [] && s.pool.stopper.NotStopping?
  {
    ReachInit(Step, INIT);
    assert INIT.pool.workers == [Pool.Awake];
    s := Reach(Step, INIT, INIT, Check(true));
    s := Reach(Step, INIT, s, Push(true));
    assert s.pool.workers == [Pool.Awake];
    s := Reach(Step, INIT, s, Notify(true, 0));
  }

  lemma ReachRan() returns (s: State)
    ensures Reached(s) && s.timer.Idle? && s.io.Idle? && s.stage == JoinTimer
    ensures s.pool.workers == [Pool.Awake] && s.pool.queue == [] && s.pool.finished == [0] && s.pool.stopper.NotStopping?
  {
    s := ReachQueued();
    s := Reach(Step, INIT, s, Worker(Pool.Look(0)));
    assert s.pool.workers == [Pool.Running(0)];
    s := Reach(Step, INIT, s, Worker(Pool.Done(0)));
    assert s.pool.workers == [Pool.Awake];
  }

  lemma StopCanReturn()
    ensures exists s :: Reached(s) && s.pool.stopper.Returned? && s.pool.finished == [0]
  {
    var s := ReachRan();
    s := Reach(Step, INIT, s, Stop);
    s := Reach(Step, INIT, s, Stop);
    s := Reach(Step, INIT, s, Stop);
    assert s.pool.workers == [Pool.Awake] && s.pool.stop;
    s := Reach(Step, INIT, s, Worker(Pool.Look(0)));
    assert s.pool.workers == [Pool.Exited];
    s := Reach(Step, INIT, s, Stop);
    assert s.pool.workers == [Pool.Exited];
    s := Reach(Step, INIT, s, Stop);
  }
}
