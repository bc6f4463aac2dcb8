/** The asynchronous writer of the client and of the server connection: post a buffer to the io
    thread, start a write if the queue was empty, chain the next write on completion. */
module SendQueue {
  import opened Machine
  import opened Subsequences

  /** A shared buffer; `id` tells apart two buffers with the same bytes. */
  datatype Buffer<T> = Buffer(id: nat, data: T)

  datatype Fate = Written | Dropped

  datatype LogEntry<T> = LogEntry(buffer: Buffer<T>, fate: Fate)

  /** `posted`: every buffer handed to the writer, in order. `mailbox`: posted to the io thread,
      not yet run. `queue`: the send queue. `writes`: buffers of the outstanding asynchronous
      writes. `log`: what became of the buffers that left the queue. */
  datatype State<T> = State(posted: seq<Buffer<T>>, mailbox: seq<Buffer<T>>, queue: seq<Buffer<T>>,
                            writes: seq<Buffer<T>>, log: seq<LogEntry<T>>, resend: bool)

  /** Post: async_write on any thread. RunPosted: the io thread runs the posted closure.
      Complete: the handler of the outstanding write runs. */
  datatype Event<T> = Post(data: T) | RunPosted | Complete(ok: bool) | SetResend(on: bool)

  function Init<T>(resend: bool): State<T>
  {
    State([], [], [], [], [], resend)
  }

  predicate Enabled<T>(s: State<T>, e: Event<T>)
  {
    match e
    case Post(_) => true
    case RunPosted => s.mailbox != []
    case Complete(_) => s.writes != []
    case SetResend(_) => true
  }

  /** async_write on the front of the queue. */
  function StartWrite<T>(s: State<T>): State<T>
  {
    if s.queue == [] then s else s.(writes := s.writes + [s.queue[0]])
  }

  function Drop<T>(queue: seq<Buffer<T>>): (log: seq<LogEntry<T>>)
  {
    seq(|queue|, i requires 0 <= i < |queue| => LogEntry(queue[i], Dropped))
  }

  function Step<T>(s: State<T>, e: Event<T>): (s': State<T>)
  {
    if !Enabled(s, e) then s
    else match e
      case Post(data) =>
        var b := Buffer(|s.posted|, data);
        s.(posted := s.posted + [b], mailbox := s.mailbox + [b])
      case RunPosted =>
        var s1 := s.(mailbox := s.mailbox[1..], queue := s.queue + [s.mailbox[0]]);
        if s.queue == [] then StartWrite(s1) else s1
      case Complete(ok) =>
        var s1 := s.(writes := s.writes[1..]);
        if ok then
          if s1.queue == [] then s1
          else StartWrite(s1.(queue := s1.queue[1..], log := s1.log + [LogEntry(s1.queue[0], Written)]))
        else if s1.resend then StartWrite(s1)
        else s1.(queue := [], log := s1.log + Drop(s1.queue))
      case SetResend(on) => s.(resend := on)
  }

  function Run<T>(resend: bool, events: seq<Event<T>>): State<T>
  {
    Exec((s: State<T>, e: Event<T>) => Step(s, e), Init(resend), events)
  }

  function Buffers<T>(log: seq<LogEntry<T>>): (bs: seq<Buffer<T>>)
    ensures |bs| == |log| && forall i :: 0 <= i < |log| ==> bs[i] == log[i].buffer
  {
    seq(|log|, i requires 0 <= i < |log| => log[i].buffer)
  }

  function WrittenOf<T>(log: seq<LogEntry<T>>): seq<Buffer<T>>
  {
    if log == [] then []
    else WrittenOf(log[..|log| - 1]) + (if log[|log| - 1].fate == Written then [log[|log| - 1].buffer] else [])
  }

  // ---- invariant ------------------------------------------------------------------------------

  /** One write is outstanding exactly when the queue is not empty, and it writes the front. */
  predicate OneWrite<T(==)>(s: State<T>)
  {
    s.writes == if s.queue == [] then [] else [s.queue[0]]
  }

  /** Every posted buffer is accounted for, in posting order: it has left the queue, is queued,
      or is still on its way to the io thread. */
  predicate Conserved<T(==)>(s: State<T>)
  {
    Buffers(s.log) + s.queue + s.mailbox == s.posted
  }

  predicate Distinct<T(==)>(s: State<T>)
  {
    forall i :: 0 <= i < |s.posted| ==> s.posted[i].id == i
  }

  ghost predicate Inv<T>(s: State<T>)
  {
    OneWrite(s) && Conserved(s) && Distinct(s)
  }

  lemma StepKeepsConserved<T>(s: State<T>, e: Event<T>)
    requires Inv(s)
    ensures Conserved(Step(s, e))
  {
  }

  lemma StepKeepsInv<T>(s: State<T>, e: Event<T>)
    requires Inv(s)
    ensures Inv(Step(s, e))
  {
    StepKeepsConserved(s, e);
  }

  lemma RunInv<T(!new)>(resend: bool, events: seq<Event<T>>)
    ensures Inv(Run(resend, events))
  {
    var step := (s: State<T>, e: Event<T>) => Step(s, e);
    var inv := (s: State<T>) => Inv(s);
    forall s, e | inv(s) ensures inv(step(s, e)) {
      StepKeepsInv(s, e);
    }
    Always(step, inv, Init(resend), events);
  }

  // ---- theorems about every run -------------------------------------------------------------------

  /** In every reachable state at most one write is outstanding; one is if and only if the queue
      is non-empty; its buffer is the front of the queue and no other place in the queue or the
      log holds that buffer, so the queue alone keeps it alive until its handler runs. */
  lemma OneOutstandingWrite<T(!new)>(resend: bool, events: seq<Event<T>>)
    ensures var s := Run(resend, events);
            && |s.writes| <= 1
            && (s.writes != [] <==> s.queue != [])
            && (s.writes != [] ==>
                  && s.writes[0] == s.queue[0]
                  && s.writes[0] !in s.queue[1..] && s.writes[0] !in s.mailbox && s.writes[0] !in Buffers(s.log))
  {
    RunInv(resend, events);
    var s := Run(resend, events);
    if s.writes != [] {
      var at := |s.log|;
      assert s.posted[at] == s.queue[0];
      forall i | 0 < i < |s.queue| ensures s.queue[i] != s.queue[0] {
        assert s.posted[at + i] == s.queue[i];
      }
      forall i | 0 <= i < |s.mailbox| ensures s.mailbox[i] != s.queue[0] {
        assert s.posted[at + |s.queue| + i] == s.mailbox[i];
      }
      forall i | 0 <= i < |s.log| ensures Buffers(s.log)[i] != s.queue[0] {
        assert s.posted[i] == Buffers(s.log)[i];
      }
    }
  }

  lemma {:induction false} WrittenIsSubseq<T>(log: seq<LogEntry<T>>)
    ensures Subseq(WrittenOf(log), Buffers(log))
  {
    if log != [] {
      var log0 := log[..|log| - 1];
      WrittenIsSubseq(log0);
      var b := log[|log| - 1].buffer;
      assert Buffers(log) == Buffers(log0) + [b];
      SubseqSelf([b]);
      SubseqConcat(WrittenOf(log0), Buffers(log0), WrittenOf(log)[|WrittenOf(log0)|..], [b]);
    }
  }

  /** Whatever fails and whenever, the written buffers are an in-order subsequence of the posted
      ones and no posted buffer is written twice. */
  lemma WrittenInOrderAtMostOnce<T(!new)>(resend: bool, events: seq<Event<T>>)
    ensures var s := Run(resend, events);
            && Subseq(WrittenOf(s.log), s.posted)
            && forall b :: multiset(WrittenOf(s.log))[b] <= 1
  {
    RunInv(resend, events);
    var s := Run(resend, events);
    WrittenIsSubseq(s.log);
    SubseqOfPrefix(WrittenOf(s.log), Buffers(s.log), s.queue + s.mailbox);
    assert Buffers(s.log) + (s.queue + s.mailbox) == s.posted;
    SubseqCounts(WrittenOf(s.log), s.posted);
    forall b ensures multiset(WrittenOf(s.log))[b] <= 1 {
      DistinctCounts(s.posted, b);
    }
  }

  lemma {:induction false} DistinctCounts<T>(posted: seq<Buffer<T>>, b: Buffer<T>)
    requires forall i :: 0 <= i < |posted| ==> posted[i].id == i
    ensures multiset(posted)[b] <= 1
    ensures b in posted ==> b.id < |posted|
  {
    if posted != [] {
      var n := |posted| - 1;
      DistinctCounts(posted[..n], b);
      assert posted == posted[..n] + [posted[n]];
      if b == posted[n] {
        assert b !in posted[..n];
      }
    }
  }

  ghost predicate NothingDropped<T>(s: State<T>)
  {
    Inv(s) && s.resend && WrittenOf(s.log) == Buffers(s.log)
  }

  lemma ResendStep<T>(s: State<T>, e: Event<T>)
    requires NothingDropped(s) && e != SetResend(false)
    ensures NothingDropped(Step(s, e))
  {
    StepKeepsInv(s, e);
    FailureDropsTheQueue(s, e);
    LeavesTheQueue(s, e);
  }

  /** What a step adds to the log. */
  lemma LeavesTheQueue<T>(s: State<T>, e: Event<T>)
    requires OneWrite(s)
    ensures Buffers(Step(s, e).log)
            == Buffers(s.log) + (if s.writes == [] || !e.Complete? then [] else if e.ok then s.writes
                                 else if s.resend then [] else s.queue)
  {
  }

  /** With resend on throughout, the fully written buffers followed by the queue are always the
      posted sequence: nothing is lost, repeated or reordered by any number of failures. */
  lemma ResendLosesNothing<T(!new)>(events: seq<Event<T>>)
    requires SetResend(false) !in events
    ensures var s := Run(true, events);
            WrittenOf(s.log) + s.queue + s.mailbox == s.posted
  {
    ResendRun(events);
  }

  lemma {:induction false} ResendRun<T(!new)>(events: seq<Event<T>>)
    requires SetResend(false) !in events
    ensures NothingDropped(Run(true, events))
  {
    if events != [] {
      var n := |events| - 1;
      ResendRun(events[..n]);
      assert events[n] in events;
      ResendStep(Run(true, events[..n]), events[n]);
    }
  }

  function DroppedOf<T>(log: seq<LogEntry<T>>): seq<Buffer<T>>
  {
    if log == [] then []
    else DroppedOf(log[..|log| - 1]) + (if log[|log| - 1].fate == Dropped then [log[|log| - 1].buffer] else [])
  }

  /** A write that fails with resend off drops exactly the buffers then queued, a write that
      succeeds adds exactly its own to the written ones, and nothing else writes or drops. */
  lemma FailureDropsTheQueue<T>(s: State<T>, e: Event<T>)
    requires Inv(s)
    ensures var s' := Step(s, e);
            && DroppedOf(s'.log)
               == DroppedOf(s.log) + (if s.writes != [] && e.Complete? && !e.ok && !s.resend then s.queue else [])
            && WrittenOf(s'.log) == WrittenOf(s.log) + (if s.writes != [] && e.Complete? && e.ok then s.writes else [])
  {
    var s' := Step(s, e);
    if Enabled(s, e) && e.Complete? {
      if e.ok {
        assert s'.log[..|s'.log| - 1] == s.log;
      } else if !s.resend {
        DropWritesNothing(s.log, s.queue);
      }
    }
  }

  lemma {:induction false} DropWritesNothing<T>(log: seq<LogEntry<T>>, queue: seq<Buffer<T>>)
    ensures WrittenOf(log + Drop(queue)) == WrittenOf(log)
    ensures DroppedOf(log + Drop(queue)) == DroppedOf(log) + queue
  {
    if queue == [] {
      assert log + Drop(queue) == log;
    } else {
      var n := |queue| - 1;
      DropWritesNothing(log, queue[..n]);
      assert queue == queue[..n] + [queue[n]];
      assert (log + Drop(queue))[..|log| + n] == log + Drop(queue[..n]);
    }
  }

  // ---- what was posted and how resend stands, by the events of the run --------------------------------

  /** The buffers handed to async_write in a run. */
  function Posts<T>(events: seq<Event<T>>): seq<T>
  {
    if events == [] then []
    else
      var n := |events| - 1;
      Posts(events[..n]) + if events[n].Post? then [events[n].data] else []
  }

  /** The argument of the last call of resend. */
  function LastResend<T>(resend: bool, events: seq<Event<T>>): bool
  {
    if events == [] then resend
    else
      var n := |events| - 1;
      if events[n].SetResend? then events[n].on else LastResend(resend, events[..n])
  }

  predicate Numbered<T(==)>(posted: seq<Buffer<T>>, data: seq<T>)
  {
    |posted| == |data| && forall i :: 0 <= i < |posted| ==> posted[i] == Buffer(i, data[i])
  }

  lemma PostedStep<T>(s: State<T>, e: Event<T>)
    ensures Step(s, e).posted == s.posted + if e.Post? then [Buffer(|s.posted|, e.data)] else []
    ensures Step(s, e).resend == if e.SetResend? then e.on else s.resend
  {
  }

  lemma NumberedSnoc<T>(posted: seq<Buffer<T>>, data: seq<T>, d: T)
    requires Numbered(posted, data)
    ensures Numbered(posted + [Buffer(|posted|, d)], data + [d])
  {
  }

  /** What counts as posted is what was handed to async_write, in that order, and resend is what it
      was last set to. */
  lemma {:induction false} PostedAndResendByEvents<T>(resend: bool, events: seq<Event<T>>)
    ensures Numbered(Run(resend, events).posted, Posts(events))
    ensures Run(resend, events).resend == LastResend(resend, events)
  {
    if events != [] {
      var n := |events| - 1;
      var s := Run(resend, events[..n]);
      PostedAndResendByEvents(resend, events[..n]);
      PostedStep(s, events[n]);
      if events[n].Post? {
        NumberedSnoc(s.posted, Posts(events[..n]), events[n].data);
      } else {
        assert s.posted + [] == s.posted && Posts(events[..n]) + [] == Posts(events[..n]);
      }
    }
  }

  // ---- the writer in the source's own form ---------------------------------------------------------

  /** threadsafe_list: each method is one critical section. */
  class ThreadsafeList<T> {
    var list: seq<T>

    constructor ()
      ensures list == []
    {
      list := [];
    }

    method EmplaceBack(t: T)
      modifies this
      ensures list == old(list) + [t]
    {
      list := list + [t];
    }

    method Front() returns (t: T)
      requires list != []
      ensures t == list[0]
    {
      t := list[0];
    }

    method PopFront()
      requires list != []
      modifies this
      ensures old(list) == [old(list)[0]] + list
    {
      list := list[1..];
    }

    method Clear()
      modifies this
      ensures list == []
    {
      list := [];
    }

    method Empty() returns (r: bool)
      ensures r <==> list == []
    {
      r := list == [];
    }
  }

  /** async_write_impl and its completion handler. The server's writer is the instance whose
      `isResend` stays false. */
  class Writer<T> {
    const sendQueue: ThreadsafeList<Buffer<T>>
    var isResend: bool
    var isConnected: bool
    var outstanding: seq<Buffer<T>>
    ghost var posted: seq<Buffer<T>>
    ghost var mailbox: seq<Buffer<T>>
    ghost var log: seq<LogEntry<T>>

    ghost function View(): State<T>
      reads this, sendQueue
    {
      State(posted, mailbox, sendQueue.list, outstanding, log, isResend)
    }

    ghost predicate Valid()
      reads this, sendQueue
    {
      Inv(View())
    }

    constructor (resend: bool)
      ensures Valid() && View() == Init(resend) && fresh(sendQueue)
    {
      sendQueue := new ThreadsafeList<Buffer<T>>();
      isResend, isConnected, outstanding := resend, false, [];
      posted, mailbox, log := [], [], [];
    }

    /** The closure posted to the io thread. */
    method OnPosted(buffer: Buffer<T>)
      requires Valid() && mailbox != [] && buffer == mailbox[0]
      modifies this`outstanding, this`mailbox, sendQueue
      ensures Valid() && View() == Step(old(View()), RunPosted)
    {
      StepKeepsInv(View(), RunPosted);
      var isEmpty := sendQueue.Empty();
      sendQueue.EmplaceBack(buffer);
      mailbox := mailbox[1..];
      if isEmpty {
        AsyncWrite();
      }
    }

    method AsyncWrite()
      requires sendQueue.list != []
      modifies this`outstanding
      ensures View() == StartWrite(old(View()))
    {
      var front := sendQueue.Front();
      outstanding := outstanding + [front];
    }

    /** The completion handler of the outstanding write. */
    method OnWritten(ok: bool)
      requires Valid() && outstanding != []
      modifies this`outstanding, this`isConnected, this`log, sendQueue
      ensures Valid() && View() == Step(old(View()), Complete(ok))
      ensures isConnected == (ok && old(isConnected))
    {
      StepKeepsInv(View(), Complete(ok));
      outstanding := outstanding[1..];
      if ok {
        log := log + [LogEntry(sendQueue.list[0], Written)];
        sendQueue.PopFront();
        var isEmpty := sendQueue.Empty();
        if !isEmpty {
          AsyncWrite();
        }
      } else {
        isConnected := false;
        if isResend {
          var isEmpty := sendQueue.Empty();
          if !isEmpty {
            AsyncWrite();
          }
        } else {
          log := log + Drop(sendQueue.list);
          sendQueue.Clear();
        }
      }
    }
  }
}
