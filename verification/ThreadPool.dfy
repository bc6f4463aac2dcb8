/** The thread pool: a mutex and condition-variable queue with a stop flag that is set outside
    the mutex. Tasks are named by the order in which they were pushed. */
module ThreadPool {
  import opened Machine

  /** Awake: wants the mutex to evaluate the wait predicate. Deciding: found it false and still
      holds the mutex. Sleeping: on the condition variable, mutex released. */
  datatype Worker = Awake | Deciding | Sleeping | Running(task: nat) | Exited

  /** How far stop_impl has come. */
  datatype Stopper = NotStopping | FlagSet | Notified | Returned

  /** `passed`: add_task calls past the flag check that have not pushed. `notifies`: pushed, with
      notify_one still to come. `taken`, `finished`: tasks in the order they left the queue and
      completed. `sealed`: how many had been pushed when the last worker exited. */
  datatype State = State(
    queue: seq<nat>, stop: bool, workers: seq<Worker>, stopper: Stopper,
    passed: nat, notifies: nat, pushed: nat, rejected: nat,
    taken: seq<nat>, finished: seq<nat>, sealed: nat)

  datatype Event =
    | Spawn
    | Check                  // add_task reads the flag: past it, or throws
    | Push                   // ... locks and pushes
    | NotifyOne(w: nat)      // ... and notifies; w is the sleeper woken, if any sleeps
    | Look(w: nat)           // a worker with the mutex: exit, take the front, or decide to wait
    | Sleep(w: nat)          // the wait releases the mutex
    | Spurious(w: nat)
    | Done(w: nat)
    | SetStop | NotifyAll | JoinAll

  const INIT := State([], false, [], NotStopping, 0, 0, 0, 0, [], [], 0)

  predicate AnyAwake(ws: seq<Worker>) { exists i :: 0 <= i < |ws| && ws[i].Awake? }

  predicate AnySleeping(ws: seq<Worker>) { exists i :: 0 <= i < |ws| && ws[i].Sleeping? }

  predicate AnyExited(ws: seq<Worker>) { exists i :: 0 <= i < |ws| && ws[i].Exited? }

  /** A worker that has found nothing to do holds the mutex until its wait releases it. */
  predicate MutexFree(s: State) { forall i :: 0 <= i < |s.workers| ==> !s.workers[i].Deciding? }

  predicate AllExited(ws: seq<Worker>) { forall i :: 0 <= i < |ws| ==> ws[i].Exited? }

  predicate Enabled(s: State, e: Event)
  {
    match e
    case Spawn => true
    case Check => true
    case Push => s.passed > 0 && MutexFree(s)
    case NotifyOne(w) => s.notifies > 0 && (AnySleeping(s.workers) ==> w < |s.workers| && s.workers[w].Sleeping?)
    case Look(w) => w < |s.workers| && s.workers[w].Awake? && MutexFree(s)
    case Sleep(w) => w < |s.workers| && s.workers[w].Deciding?
    case Spurious(w) => w < |s.workers| && s.workers[w].Sleeping?
    case Done(w) => w < |s.workers| && s.workers[w].Running?
    case SetStop => s.stopper.NotStopping?
    case NotifyAll => s.stopper.FlagSet?
    case JoinAll => s.stopper.Notified? && AllExited(s.workers)
  }

  function Set(s: State, w: nat, x: Worker): State
    requires w < |s.workers|
  {
    s.(workers := s.workers[w := x])
  }

  function DoLook(s: State, w: nat): State
    requires w < |s.workers|
  {
    if s.queue != [] then
      Set(s, w, Running(s.queue[0])).(queue := s.queue[1..], taken := s.taken + [s.queue[0]])
    else if s.stop then
      var s1 := Set(s, w, Exited);
      if AllExited(s1.workers) then s1.(sealed := s.pushed) else s1
    else Set(s, w, Deciding)
  }

  function WakeAll(ws: seq<Worker>): (r: seq<Worker>)
    ensures |r| == |ws| && forall i :: 0 <= i < |ws| ==> r[i] == if ws[i].Sleeping? then Awake else ws[i]
  {
    seq(|ws|, i requires 0 <= i < |ws| => if ws[i].Sleeping? then Awake else ws[i])
  }

  function Step(s: State, e: Event): State
  {
    if !Enabled(s, e) then s
    else match e
      case Spawn => s.(workers := s.workers + [Awake])
      case Check => if s.stop then s.(rejected := s.rejected + 1) else s.(passed := s.passed + 1)
      case Push =>
        s.(queue := s.queue + [s.pushed], pushed := s.pushed + 1, passed := s.passed - 1, notifies := s.notifies + 1)
      case NotifyOne(w) =>
        var s1 := s.(notifies := s.notifies - 1);
        if AnySleeping(s.workers) then Set(s1, w, Awake) else s1
      case Look(w) => DoLook(s, w)
      case Sleep(w) => Set(s, w, Sleeping)
      case Spurious(w) => Set(s, w, Awake)
      case Done(w) => Set(s, w, Awake).(finished := s.finished + [s.workers[w].task])
      case SetStop => s.(stop := true, stopper := FlagSet)
      case NotifyAll => s.(workers := WakeAll(s.workers), stopper := Notified)
      case JoinAll => s.(stopper := Returned)
  }

  function Run(events: seq<Event>): State
  {
    Exec(Step, INIT, events)
  }

  // ---- invariant --------------------------------------------------------------------------------------

  function CountAwake(ws: seq<Worker>): nat
  {
    if ws == [] then 0 else CountAwake(ws[..|ws| - 1]) + if ws[|ws| - 1].Awake? then 1 else 0
  }

  /** How many workers are running task t. */
  function CountRunning(ws: seq<Worker>, t: nat): nat
  {
    if ws == [] then 0 else CountRunning(ws[..|ws| - 1], t) + if ws[|ws| - 1] == Running(t) then 1 else 0
  }

  lemma {:induction false} CountSet(ws: seq<Worker>, w: nat, x: Worker)
    requires w < |ws|
    ensures CountAwake(ws[w := x]) + (if ws[w].Awake? then 1 else 0) == CountAwake(ws) + if x.Awake? then 1 else 0
  {
    var n := |ws| - 1;
    if w < n {
      CountSet(ws[..n], w, x);
      assert ws[w := x][..n] == ws[..n][w := x];
    } else {
      assert ws[w := x][..n] == ws[..n];
    }
  }

  lemma {:induction false} RunningSet(ws: seq<Worker>, w: nat, x: Worker, t: nat)
    requires w < |ws|
    ensures CountRunning(ws[w := x], t) + (if ws[w] == Running(t) then 1 else 0)
            == CountRunning(ws, t) + if x == Running(t) then 1 else 0
  {
    var n := |ws| - 1;
    if w < n {
      RunningSet(ws[..n], w, x, t);
      assert ws[w := x][..n] == ws[..n][w := x];
    } else {
      assert ws[w := x][..n] == ws[..n];
    }
  }

  lemma {:induction false} WakeAllCounts(ws: seq<Worker>, t: nat)
    ensures CountRunning(WakeAll(ws), t) == CountRunning(ws, t) && CountAwake(WakeAll(ws)) >= CountAwake(ws)
  {
    if ws != [] {
      var n := |ws| - 1;
      WakeAllCounts(ws[..n], t);
      assert WakeAll(ws)[..n] == WakeAll(ws[..n]);
    }
  }

  lemma {:induction false} NoneRunning(ws: seq<Worker>, t: nat)
    requires forall i :: 0 <= i < |ws| ==> !ws[i].Running?
    ensures CountRunning(ws, t) == 0
  {
    if ws != [] {
      NoneRunning(ws[..|ws| - 1], t);
    }
  }

  /** Tasks leave in the order they were pushed, without gaps. */
  predicate FifoInv(s: State)
  {
    && |s.taken| + |s.queue| == s.pushed
    && (forall i :: 0 <= i < |s.taken| ==> s.taken[i] == i)
    && (forall i :: 0 <= i < |s.queue| ==> s.queue[i] == |s.taken| + i)
  }

  /** Every task taken is being run by one worker or has been run, and counts once. */
  ghost predicate RunInv(s: State)
  {
    forall t: nat :: Accounted(s, t)
  }

  predicate Accounted(s: State, t: nat)
  {
    multiset(s.taken)[t] == multiset(s.finished)[t] + CountRunning(s.workers, t)
  }

  predicate WorkConserving(s: State)
  {
    AnySleeping(s.workers) ==> |s.queue| <= s.notifies + CountAwake(s.workers)
  }

  predicate MutexInv(s: State)
  {
    && (!MutexFree(s) ==> s.queue == [])
    && forall i, j :: 0 <= i < j < |s.workers| ==> !(s.workers[i].Deciding? && s.workers[j].Deciding?)
  }

  predicate StopInv(s: State)
  {
    && (s.stop <==> !s.stopper.NotStopping?)
    && (AnyExited(s.workers) ==> s.stop)
    && (s.workers != [] && AllExited(s.workers) ==> s.sealed == |s.taken|)
  }

  ghost predicate Inv(s: State)
  {
    FifoInv(s) && RunInv(s) && WorkConserving(s) && MutexInv(s) && StopInv(s)
  }

  lemma StepKeepsFifo(s: State, e: Event)
    requires FifoInv(s)
    ensures FifoInv(Step(s, e))
  {
  }

  /** The worker a step moves, if any; every other worker stays as it is. */
  lemma MovesOne(s: State, e: Event) returns (w: int)
    requires !e.Spawn? && !e.NotifyAll?
    ensures var s' := Step(s, e);
            if w < 0 then s'.workers == s.workers
            else
              && w < |s.workers| && s'.workers == s.workers[w := s'.workers[w]] && Enabled(s, e)
              && (e.Look? || e.Sleep? || e.Spurious? || e.Done? || (e.NotifyOne? && AnySleeping(s.workers))) && e.w == w
  {
    w := if Enabled(s, e) && (e.Look? || e.Sleep? || e.Spurious? || e.Done? || (e.NotifyOne? && AnySleeping(s.workers)))
         then e.w else -1;
  }

  lemma LookAccounts(s: State, w: nat, t: nat)
    requires Accounted(s, t) && Enabled(s, Look(w))
    ensures Accounted(DoLook(s, w), t)
  {
    var s' := DoLook(s, w);
    RunningSet(s.workers, w, s'.workers[w], t);
    if s.queue != [] {
      assert multiset(s.taken + [s.queue[0]]) == multiset(s.taken) + multiset{s.queue[0]};
    }
  }

  lemma DoneAccounts(s: State, w: nat, t: nat)
    requires Accounted(s, t) && Enabled(s, Done(w))
    ensures Accounted(Step(s, Done(w)), t)
  {
    var task := s.workers[w].task;
    RunningSet(s.workers, w, Awake, t);
    assert multiset(s.finished + [task]) == multiset(s.finished) + multiset{task};
  }

  lemma StepKeepsAccounted(s: State, e: Event, t: nat)
    requires Accounted(s, t)
    ensures Accounted(Step(s, e), t)
  {
    if Enabled(s, e) {
      match e
      case NotifyAll => WakeAllCounts(s.workers, t);
      case Spawn => assert (s.workers + [Awake])[..|s.workers|] == s.workers;
      case Look(w) => LookAccounts(s, w, t);
      case Done(w) => DoneAccounts(s, w, t);
      case Sleep(w) => RunningSet(s.workers, w, Sleeping, t);
      case Spurious(w) => RunningSet(s.workers, w, Awake, t);
      case NotifyOne(w) => if AnySleeping(s.workers) { RunningSet(s.workers, w, Awake, t); }
      case _ =>
    }
  }

  lemma StepKeepsRun(s: State, e: Event)
    requires RunInv(s)
    ensures RunInv(Step(s, e))
  {
    forall t: nat ensures Accounted(Step(s, e), t) {
      assert Accounted(s, t);
      StepKeepsAccounted(s, e, t);
    }
  }

  lemma LookKeepsWork(s: State, w: nat)
    requires WorkConserving(s) && MutexInv(s) && Enabled(s, Look(w))
    ensures WorkConserving(DoLook(s, w))
  {
    CountSet(s.workers, w, DoLook(s, w).workers[w]);
  }

  lemma NotifyKeepsWork(s: State, w: nat)
    requires WorkConserving(s) && Enabled(s, NotifyOne(w))
    ensures WorkConserving(Step(s, NotifyOne(w)))
  {
    if AnySleeping(s.workers) {
      CountSet(s.workers, w, Awake);
    }
  }

  /** The worker goes to sleep with the queue empty, since it still holds the mutex. */
  lemma SleepKeepsWork(s: State, w: nat)
    requires MutexInv(s) && Enabled(s, Sleep(w))
    ensures WorkConserving(Set(s, w, Sleeping))
  {
    assert !MutexFree(s);
  }

  lemma WakeKeepsWork(s: State, e: Event)
    requires WorkConserving(s) && Enabled(s, e) && (e.Spurious? || e.Done?)
    ensures WorkConserving(Step(s, e))
  {
    CountSet(s.workers, e.w, Awake);
  }

  lemma StepKeepsWork(s: State, e: Event)
    requires WorkConserving(s) && MutexInv(s)
    ensures WorkConserving(Step(s, e))
  {
    if Enabled(s, e) {
      match e
      case Look(w) => LookKeepsWork(s, w);
      case NotifyOne(w) => NotifyKeepsWork(s, w);
      case Sleep(w) => SleepKeepsWork(s, w);
      case Spurious(_) => WakeKeepsWork(s, e);
      case Done(_) => WakeKeepsWork(s, e);
      case Spawn => assert (s.workers + [Awake])[..|s.workers|] == s.workers;
      case _ =>
    }
  }

  lemma LookKeepsMutex(s: State, w: nat)
    requires MutexInv(s) && Enabled(s, Look(w))
    ensures MutexInv(DoLook(s, w))
  {
  }

  lemma SleepKeepsMutex(s: State, w: nat)
    requires MutexInv(s) && Enabled(s, Sleep(w))
    ensures MutexInv(Set(s, w, Sleeping))
  {
    assert MutexFree(Set(s, w, Sleeping));
  }

  /** Nobody starts to decide, and nothing is pushed while someone does. */
  lemma OthersKeepMutex(s: State, e: Event)
    requires MutexInv(s) && !e.Look? && !e.Sleep?
    ensures MutexInv(Step(s, e))
  {
    var s' := Step(s, e);
    assert forall i :: 0 <= i < |s'.workers| && s'.workers[i].Deciding? ==> i < |s.workers| && s.workers[i].Deciding?;
  }

  lemma StepKeepsMutex(s: State, e: Event)
    requires MutexInv(s)
    ensures MutexInv(Step(s, e))
  {
    if e.Look? && Enabled(s, e) {
      LookKeepsMutex(s, e.w);
    } else if e.Sleep? && Enabled(s, e) {
      SleepKeepsMutex(s, e.w);
    } else if !e.Look? && !e.Sleep? {
      OthersKeepMutex(s, e);
    }
  }

  lemma StepKeepsStop(s: State, e: Event)
    requires StopInv(s) && FifoInv(s)
    ensures StopInv(Step(s, e))
  {
    var s' := Step(s, e);
    if e.NotifyAll? {
      assert AllExited(s'.workers) ==> AllExited(s.workers) by {
        if AllExited(s'.workers) {
          forall i | 0 <= i < |s.workers| ensures s.workers[i].Exited? { assert s'.workers[i].Exited?; }
        }
      }
    } else if e.Spawn? {
      assert s'.workers[|s.workers|].Awake?;
    } else {
      var w := MovesOne(s, e);
      if w >= 0 {
        assert s'.workers[w].Exited? ==> e.Look?;
      }
    }
  }

  lemma StepKeepsInv(s: State, e: Event)
    requires Inv(s)
    ensures Inv(Step(s, e))
  {
    StepKeepsFifo(s, e);
    StepKeepsRun(s, e);
    StepKeepsWork(s, e);
    StepKeepsMutex(s, e);
    StepKeepsStop(s, e);
  }

  lemma ReachableInv(events: seq<Event>)
    ensures Inv(Run(events))
  {
    var inv := s => Inv(s);
    forall s, e | inv(s) ensures inv(Step(s, e)) {
      StepKeepsInv(s, e);
    }
    Always(Step, inv, INIT, events);
  }

  // ---- theorems about every run ---------------------------------------------------------------------------

  /** In every reachable state in which some worker sleeps, the queue is no longer than the
      notifications still to come plus the workers that are awake and not running a task. */
  lemma PoolIsWorkConserving(events: seq<Event>)
    ensures var s := Run(events);
            AnySleeping(s.workers) ==> |s.queue| <= s.notifies + CountAwake(s.workers)
  {
    ReachableInv(events);
  }

  lemma {:induction false} NoneAwake(ws: seq<Worker>)
    requires !AnyAwake(ws)
    ensures CountAwake(ws) == 0
  {
    if ws != [] {
      NoneAwake(ws[..|ws| - 1]);
    }
  }

  /** So no task is stranded while workers sleep, none of the rest is awake and no notification
      is pending: the queue is then empty. */
  lemma NothingStranded(events: seq<Event>)
    requires AnySleeping(Run(events).workers) && !AnyAwake(Run(events).workers) && Run(events).notifies == 0
    ensures Run(events).queue == []
  {
    ReachableInv(events);
    NoneAwake(Run(events).workers);
  }

  /** Tasks are taken in the order they were pushed; each is run by at most one worker and at most
      once. */
  lemma FifoAtMostOnce(events: seq<Event>)
    ensures var s := Run(events);
            && (forall i :: 0 <= i < |s.taken| ==> s.taken[i] == i)
            && (forall i :: 0 <= i < |s.queue| ==> s.queue[i] == |s.taken| + i)
            && (forall t: nat :: multiset(s.finished)[t] + CountRunning(s.workers, t) <= 1)
  {
    ReachableInv(events);
    var s := Run(events);
    forall t: nat ensures multiset(s.finished)[t] + CountRunning(s.workers, t) <= 1 {
      assert Accounted(s, t);
      Distinct(s.taken, t);
    }
  }

  lemma {:induction false} Distinct(taken: seq<nat>, t: nat)
    requires forall i :: 0 <= i < |taken| ==> taken[i] == i
    ensures multiset(taken)[t] <= 1 && (t >= |taken| ==> multiset(taken)[t] == 0)
  {
    if taken != [] {
      var n := |taken| - 1;
      Distinct(taken[..n], t);
      assert taken == taken[..n] + [n];
    }
  }

  /** Once every worker has exited, all tasks pushed before the last of them did so have been run
      to the end. What is left in the queue was pushed after that, by callers that had read the
      flag before it was set; the queue is empty if and only if there were none. */
  lemma LastExitLeavesNothing(events: seq<Event>)
    requires Run(events).workers != [] && AllExited(Run(events).workers)
    ensures var s := Run(events);
            && |s.taken| == s.sealed
            && multiset(s.finished) == multiset(s.taken)
            && |s.queue| == s.pushed - s.sealed
            && (s.queue == [] <==> s.pushed == s.sealed)
  {
    ReachableInv(events);
    var s := Run(events);
    forall t: nat ensures multiset(s.finished)[t] == multiset(s.taken)[t] {
      assert Accounted(s, t);
      NoneRunning(s.workers, t);
    }
  }

  /** No worker exits while there is work: at the moment one does, in any run, every task pushed so
      far has been taken, and each has been run to the end or is being run by a worker. */
  lemma NoExitWithWork(events: seq<Event>, e: Event, w: nat)
    requires w < |Run(events).workers| && !Run(events).workers[w].Exited? && Step(Run(events), e).workers[w].Exited?
    ensures var s := Run(events);
            && s.stop && s.queue == []
            && forall t: nat :: t < s.pushed ==> multiset(s.finished)[t] + CountRunning(s.workers, t) == 1
  {
    ReachableInv(events);
    ExitStep(Run(events), e, w);
    AllTakenRunOnce(Run(events));
  }

  lemma ExitStep(s: State, e: Event, w: nat)
    requires w < |s.workers| && !s.workers[w].Exited? && Step(s, e).workers[w].Exited?
    ensures s.stop && s.queue == []
  {
    assert e == Look(w);
  }

  lemma AllTakenRunOnce(s: State)
    requires FifoInv(s) && RunInv(s) && s.queue == []
    ensures forall t: nat :: t < s.pushed ==> multiset(s.finished)[t] + CountRunning(s.workers, t) == 1
  {
    forall t: nat | t < s.pushed ensures multiset(s.finished)[t] + CountRunning(s.workers, t) == 1 {
      assert Accounted(s, t) && s.taken[t] == t;
      Distinct(s.taken, t);
    }
  }

  // ---- stop can miss a worker ---------------------------------------------------------------------------------

  ghost predicate Reached(s: State) { Reachable(Step, INIT, s) }

  /** Because the flag is set outside the mutex, the notification can fall between a worker's test
      of the flag and its wait: the pool is then stopped, notified and idle with a worker asleep,
      and only a spurious wake-up would let join return. */
  lemma StopCanMissAWorker()
    ensures exists s :: Reached(s) && s.stopper.Notified? && s.workers == [Sleeping] && s.queue == [] && s.passed == s.notifies == 0
  {
    ReachInit(Step, INIT);
    var s := Reach(Step, INIT, INIT, Spawn);
    assert s.workers == [Awake];
    s := Reach(Step, INIT, s, Look(0));
    assert s.workers == [Deciding];
    s := Reach(Step, INIT, s, SetStop);
    s := Reach(Step, INIT, s, NotifyAll);
    assert s.workers == [Deciding];
    s := Reach(Step, INIT, s, Sleep(0));
    assert s.workers == [Sleeping];
  }

  /** Such a worker is freed by a spurious wake-up and by nothing else: any other step leaves the pool
      as it is or with the worker asleep, and after the wake-up stop can return. */
  lemma OnlySpuriousWakeUpFrees(s: State, e: Event)
    requires s.stopper.Notified? && s.stop && s.workers == [Sleeping] && s.queue == [] && s.passed == s.notifies == 0
    ensures e != Spurious(0) && !e.Spawn? ==> Step(s, e).workers == [Sleeping] && Step(s, e).stopper.Notified?
    ensures Step(Step(Step(s, Spurious(0)), Look(0)), JoinAll).stopper.Returned?
  {
    assert s.workers[0].Sleeping?;
    var s1 := Step(s, Spurious(0));
    assert s1.workers == [Awake];
    var s2 := Step(s1, Look(0));
    assert s2.workers == [Exited];
  }

  /** The pool some steps after stop_impl has notified. */
  function After(s: State, more: seq<Event>): State
  {
    Exec(Step, Step(s, NotifyAll), more)
  }

  /** Stopped and notified, and nobody is asleep or about to be. */
  predicate AllUp(s: State)
  {
    s.stop && s.stopper in {Notified, Returned}
    && forall i :: 0 <= i < |s.workers| ==> !s.workers[i].Sleeping? && !s.workers[i].Deciding?
  }

  lemma StaysUp(s: State, more: seq<Event>)
    requires s.stopper.FlagSet? && s.stop && MutexFree(s)
    ensures AllUp(After(s, more))
  {
    Always(Step, AllUp, Step(s, NotifyAll), more);
  }

  /** Exactly when stop misses nobody: if and only if no worker holds the mutex, between its test
      and its wait, at the moment of the notification. Then no worker ever sleeps again. */
  lemma StopMissesNobodyIff(s: State)
    requires s.stopper.FlagSet? && s.stop
    ensures MutexFree(s) <==> forall more :: !AnySleeping(After(s, more).workers)
  {
    if MutexFree(s) {
      forall more ensures !AnySleeping(After(s, more).workers) {
        StaysUp(s, more);
      }
    } else {
      var w: nat :| w < |s.workers| && s.workers[w].Deciding?;
      var s1 := Step(s, NotifyAll);
      assert s1.workers[w].Deciding?;
      ExecOne(Step, s1, Sleep(w));
      assert After(s, [Sleep(w)]).workers[w].Sleeping?;
    }
  }

  // ---- the pool in the source's own form -----------------------------------------------------------------------

  datatype Outcome = Return | RunTask(task: nat) | Wait

  /** thread_pool: the queue and the flag, with one method per critical section. */
  class Pool {
    var taskQueue: seq<nat>
    var isStop: bool
    ghost var model: State

    ghost predicate Valid()
      reads this
    {
      model.queue == taskQueue && model.stop == isStop
    }

    constructor ()
      ensures Valid() && model == INIT
    {
      taskQueue, isStop, model := [], false, INIT;
    }

    /** The flag check at the top of add_task. */
    method MayAdd() returns (ok: bool)
      requires Valid()
      modifies this`model
      ensures Valid() && model == Step(old(model), Check)
      ensures ok <==> !isStop
    {
      ok := !isStop;
      model := Step(model, Check);
    }

    /** The locked part of add_task. */
    method Add(task: nat)
      requires Valid() && Enabled(model, Push) && task == model.pushed
      modifies this`taskQueue, this`model
      ensures Valid() && model == Step(old(model), Push)
    {
      taskQueue := taskQueue + [task];
      model := Step(model, Push);
    }

    /** The locked part of run_task, from one wake-up to the next wait, return or task. */
    method TakeOrWait(ghost w: nat) returns (r: Outcome)
      requires Valid() && Enabled(model, Look(w))
      modifies this`taskQueue, this`model
      ensures Valid() && model == Step(old(model), Look(w))
      ensures match model.workers[w]
              case Exited => r == Return
              case Running(t) => r == RunTask(t)
              case _ => r == Wait
    {
      if isStop || taskQueue != [] {
        if isStop && taskQueue == [] {
          r := Return;
        } else {
          r := RunTask(taskQueue[0]);
          taskQueue := taskQueue[1..];
        }
      } else {
        r := Wait;
      }
      model := Step(model, Look(w));
    }

    /** stop_impl sets the flag without the mutex. */
    method RaiseStop()
      requires Valid() && Enabled(model, SetStop)
      modifies this`isStop, this`model
      ensures Valid() && model == Step(old(model), SetStop)
    {
      isStop := true;
      model := Step(model, SetStop);
    }
  }
}
