/** The client's writer, its connections and the server's readers as one system. Every write is
    bound to the connection that is current when it starts; bytes leave in order; a socket error
    is final for its connection, and a write that fails has sent only part of its frame. */
module FrameStream {
  import opened Basics
  import opened Bytes
  import opened Frames
  import opened Machine
  import opened Subsequences
  import Reader
  import SendQueue

  type Buffer = SendQueue.Buffer<Frame>
  type Writer = SendQueue.State<Frame>

  /** `sent`: bytes the client put on this connection. `full`: the buffers all of whose bytes are
      among them. `part`: what was sent of a buffer that is not among those. `live`: no error seen yet. `reader`: the server's read loop for it. */
  datatype Conn = Conn(sent: seq<byte>, full: seq<Buffer>, part: seq<byte>, live: bool, reader: Reader.Traced)

  /** `on`: the connection the outstanding write is bound to. `emitted`: how much it has sent. */
  datatype State = State(w: Writer, on: int, emitted: nat, conns: seq<Conn>)

  datatype Event =
    | Post(f: Frame) | RunPosted | SetResend(b: bool)
    | Emit(n: nat)                          // the outstanding write puts n more bytes on its socket
    | Done | Fail                           // its handler runs without or with an error
    | Break                                 // the current socket fails
    | Replace                               // a new connection is established
    | Server(c: nat, ev: Reader.Event)      // the server's read loop on connection c takes a step

  const NEW_CONN := Conn([], [], [], true, Reader.Traced(Reader.INIT, []))

  function Init(resend: bool): State
  {
    State(SendQueue.Init(resend), -1, 0, [])
  }

  /** The bytes of the outstanding write. */
  function WriteBytes(s: State): seq<byte>
  {
    if s.w.writes == [] then [] else Encode(s.w.writes[0].data)
  }

  function Rebind(s: State, w: Writer): State
  {
    s.(w := w, on := |s.conns| - 1, emitted := 0)
  }

  function Kill(conns: seq<Conn>, c: int): seq<Conn>
  {
    if 0 <= c < |conns| then conns[c := conns[c].(live := false)] else conns
  }

  predicate Enabled(fmt: Format, s: State, e: Event)
  {
    match e
    case Post(f) => WellFormed(fmt, f)
    case RunPosted => s.w.mailbox != []
    case SetResend(_) => true
    case Emit(n) =>
      && s.w.writes != [] && 0 <= s.on && s.on == |s.conns| - 1 && s.conns[s.on].live
      && 0 < n && s.emitted + n <= |WriteBytes(s)|
    case Done => s.w.writes != [] && s.emitted == |WriteBytes(s)|
    case Fail => s.w.writes != [] && s.emitted < |WriteBytes(s)|
    case Break => s.conns != []
    case Replace => true
    case Server(c, ev) =>
      && c < |s.conns|
      && (ev.Arrive? ==>
            var r := s.conns[c].reader;
            Reader.Enabled(fmt, r.reader, ev) ==> r.bytes + ev.chunk <= s.conns[c].sent)
  }

  function EmitStep(s: State, n: nat): State
    requires s.w.writes != [] && 0 <= s.on < |s.conns| && s.emitted + n <= |WriteBytes(s)|
  {
    var c := EmitOn(s.conns[s.on], s.w.writes[0], s.emitted, s.emitted + n);
    s.(emitted := s.emitted + n, conns := s.conns[s.on := c])
  }

  /** Bytes from..end of a buffer go out; with the last of them the buffer is fully sent. */
  function EmitOn(c: Conn, b: Buffer, from: nat, end: nat): Conn
    requires from <= end <= |Encode(b.data)|
  {
    var chunk := Encode(b.data)[from..end];
    if end == |Encode(b.data)| then c.(sent := c.sent + chunk, full := c.full + [b], part := [])
    else c.(sent := c.sent + chunk, part := c.part + chunk)
  }

  function Step(fmt: Format, s: State, e: Event): State
  {
    if !Enabled(fmt, s, e) then s
    else match e
      case Post(f) => s.(w := SendQueue.Step(s.w, SendQueue.Post(f)))
      case RunPosted =>
        var w := SendQueue.Step(s.w, SendQueue.RunPosted);
        if s.w.writes == [] then Rebind(s, w) else s.(w := w)
      case SetResend(b) => s.(w := SendQueue.Step(s.w, SendQueue.SetResend(b)))
      case Emit(n) => EmitStep(s, n)
      case Done => Rebind(s, SendQueue.Step(s.w, SendQueue.Complete(true)))
      case Fail => Rebind(s.(conns := Kill(s.conns, s.on)), SendQueue.Step(s.w, SendQueue.Complete(false)))
      case Break => s.(conns := Kill(s.conns, |s.conns| - 1))
      case Replace => s.(conns := Kill(s.conns, |s.conns| - 1) + [NEW_CONN])
      case Server(c, ev) =>
        var conn := s.conns[c];
        s.(conns := s.conns[c := conn.(reader := Reader.TracedStep(fmt, conn.reader, ev))])
  }

  function Stepper(fmt: Format): (State, Event) -> State { (s, e) => Step(fmt, s, e) }

  function Run(fmt: Format, resend: bool, events: seq<Event>): State
  {
    Exec(Stepper(fmt), Init(resend), events)
  }

  function Data(bs: seq<Buffer>): (fs: seq<Frame>)
    ensures |fs| == |bs| && forall i :: 0 <= i < |bs| ==> fs[i] == bs[i].data
  {
    seq(|bs|, i requires 0 <= i < |bs| => bs[i].data)
  }

  /** Every buffer fully sent, connection after connection. */
  function FullySent(conns: seq<Conn>): seq<Buffer>
  {
    if conns == [] then [] else FullySent(conns[..|conns| - 1]) + conns[|conns| - 1].full
  }

  // ---- invariant --------------------------------------------------------------------------------

  /** The part of the outstanding write's frame that sits on connection c. */
  function Partial(s: State, c: int): seq<byte>
  {
    if s.w.writes != [] && s.on == c && s.emitted < |WriteBytes(s)| then WriteBytes(s)[..s.emitted] else []
  }

  ghost predicate ConnInv(fmt: Format, c: Conn)
    requires fmt.Valid()
  {
    && AllWellFormed(fmt, Data(c.full))
    && c.sent == EncodeAll(Data(c.full)) + c.part
    && Unfinished(fmt, c.part)
    && Reader.Inv(fmt, c.reader)
    && c.reader.bytes <= c.sent
  }

  ghost predicate AllConns(fmt: Format, conns: seq<Conn>)
    requires fmt.Valid()
  {
    forall c :: 0 <= c < |conns| ==> ConnInv(fmt, conns[c])
  }

  /** On a live current connection the bytes after the last whole frame are the current write's. */
  predicate CurrentInv(s: State)
  {
    s.conns != [] && s.conns[|s.conns| - 1].live ==> s.conns[|s.conns| - 1].part == Partial(s, |s.conns| - 1)
  }

  ghost predicate WriterInv(fmt: Format, s: State)
  {
    && SendQueue.Inv(s.w)
    && AllWellFormed(fmt, Data(s.w.posted))
    && s.on < |s.conns|
    && s.emitted <= |WriteBytes(s)|
  }

  /** What has been fully sent is what the log calls written, plus the front when all its bytes
      are out and only its handler is still to run. */
  ghost predicate LedgerInv(s: State)
  {
    FullySent(s.conns) == SendQueue.WrittenOf(s.w.log)
                          + if s.w.writes != [] && s.emitted == |WriteBytes(s)| then [s.w.writes[0]] else []
  }

  ghost predicate Inv(fmt: Format, s: State)
  {
    && fmt.Valid()
    && WriterInv(fmt, s)
    && AllConns(fmt, s.conns)
    && CurrentInv(s)
    && LedgerInv(s)
  }

  lemma FrontWellFormed(fmt: Format, s: State)
    requires fmt.Valid() && WriterInv(fmt, s) && s.w.writes != []
    ensures WellFormed(fmt, s.w.writes[0].data) && 0 < |WriteBytes(s)|
  {
    var at := |s.w.log|;
    assert s.w.posted[at] == s.w.queue[0];
    assert Data(s.w.posted)[at] == s.w.queue[0].data;
    EncodeLen(fmt, s.w.queue[0].data);
  }

  lemma {:induction false} FullySentUpdate(conns: seq<Conn>, c: int, conn: Conn)
    requires 0 <= c < |conns| && conn.full == conns[c].full
    ensures FullySent(conns[c := conn]) == FullySent(conns)
  {
    var n := |conns| - 1;
    if c < n {
      FullySentUpdate(conns[..n], c, conn);
      assert conns[c := conn][..n] == conns[..n][c := conn];
    } else {
      assert conns[c := conn][..n] == conns[..n];
    }
  }

  lemma KillKeeps(conns: seq<Conn>, c: int)
    ensures FullySent(Kill(conns, c)) == FullySent(conns)
  {
    if 0 <= c < |conns| {
      FullySentUpdate(conns, c, conns[c].(live := false));
    }
  }

  lemma UpdateAllConns(fmt: Format, conns: seq<Conn>, c: int, conn: Conn)
    requires fmt.Valid() && AllConns(fmt, conns) && 0 <= c < |conns| && ConnInv(fmt, conn)
    ensures AllConns(fmt, conns[c := conn])
  {
  }

  lemma KillAllConns(fmt: Format, conns: seq<Conn>, c: int)
    requires fmt.Valid() && AllConns(fmt, conns)
    ensures AllConns(fmt, Kill(conns, c))
  {
  }

  lemma EmptyIsUnfinished(fmt: Format)
    requires fmt.Valid()
    ensures Unfinished(fmt, [])
  {
  }

  // Each step, one part of the invariant at a time.

  lemma PostKeepsWriter(fmt: Format, s: State, f: Frame)
    requires WriterInv(fmt, s) && WellFormed(fmt, f)
    ensures WriterInv(fmt, Step(fmt, s, Post(f)))
  {
  }

  lemma RunPostedKeepsWriter(fmt: Format, s: State)
    requires fmt.Valid() && WriterInv(fmt, s) && s.w.mailbox != []
    ensures var s' := Step(fmt, s, RunPosted);
            && WriterInv(fmt, s') && s'.w.log == s.w.log && s'.conns == s.conns
            && (s.w.writes == [] ==> s'.w.writes != [] && s'.emitted < |WriteBytes(s')|)
            && (s.w.writes != [] ==> s'.w.writes == s.w.writes)
  {
    var s' := Step(fmt, s, RunPosted);
    SendQueue.StepKeepsInv(s.w, SendQueue.RunPosted);
    assert s'.w.posted == s.w.posted;
    if s.w.writes == [] {
      FrontWellFormed(fmt, s');
    }
  }

  lemma CompleteKeepsWriter(fmt: Format, s: State, e: Event)
    requires fmt.Valid() && WriterInv(fmt, s) && e in {Done, Fail} && Enabled(fmt, s, e)
    ensures var s' := Step(fmt, s, e);
            && WriterInv(fmt, s') && (s'.w.writes != [] ==> s'.emitted < |WriteBytes(s')|)
            && (e == Done ==> SendQueue.WrittenOf(s'.w.log) == SendQueue.WrittenOf(s.w.log) + [s.w.writes[0]])
            && (e == Fail ==> SendQueue.WrittenOf(s'.w.log) == SendQueue.WrittenOf(s.w.log))
  {
    var s' := Step(fmt, s, e);
    SendQueue.StepKeepsInv(s.w, SendQueue.Complete(e == Done));
    assert s'.w.posted == s.w.posted;
    if e == Done {
      assert s'.w.log[..|s'.w.log| - 1] == s.w.log;
    } else if !s.w.resend {
      SendQueue.DropWritesNothing(s.w.log, s.w.queue);
    }
    if s'.w.writes != [] {
      FrontWellFormed(fmt, s');
    }
  }

  lemma StepKeepsWriter(fmt: Format, s: State, e: Event)
    requires fmt.Valid() && WriterInv(fmt, s)
    ensures WriterInv(fmt, Step(fmt, s, e))
  {
    if Enabled(fmt, s, e) {
      match e
      case Post(f) => PostKeepsWriter(fmt, s, f);
      case RunPosted => RunPostedKeepsWriter(fmt, s);
      case Done => CompleteKeepsWriter(fmt, s, Done);
      case Fail => CompleteKeepsWriter(fmt, s, Fail);
      case _ =>
    }
  }

  lemma EmitKeepsLedger(s: State, n: nat)
    requires LedgerInv(s) && s.w.writes != [] && 0 <= s.on == |s.conns| - 1
    requires 0 < n && s.emitted + n <= |WriteBytes(s)|
    ensures LedgerInv(EmitStep(s, n))
  {
    var s', m := EmitStep(s, n), |s.conns| - 1;
    var before, last := FullySent(s.conns[..m]), s.conns[m].full;
    assert s'.conns[..m] == s.conns[..m];
    assert FullySent(s'.conns) == before + s'.conns[m].full;
    assert FullySent(s.conns) == before + last == SendQueue.WrittenOf(s.w.log);
    if s'.emitted == |WriteBytes(s)| {
      Assoc(before, last, [s.w.writes[0]]);
    } else {
      assert last + [] == last;
    }
  }

  lemma ConnStepKeepsFullySent(fmt: Format, s: State, e: Event)
    requires Enabled(fmt, s, e) && (e.Break? || e.Replace? || e.Server?)
    ensures FullySent(Step(fmt, s, e).conns) == FullySent(s.conns)
  {
    var s' := Step(fmt, s, e);
    match e
    case Break => KillKeeps(s.conns, |s.conns| - 1);
    case Replace =>
      var killed := Kill(s.conns, |s.conns| - 1);
      KillKeeps(s.conns, |s.conns| - 1);
      assert s'.conns[..|s.conns|] == killed;
      assert FullySent(s'.conns) == FullySent(killed) + [];
    case Server(c, ev) => FullySentUpdate(s.conns, c, s'.conns[c]);
  }

  lemma StepKeepsLedger(fmt: Format, s: State, e: Event)
    requires fmt.Valid() && WriterInv(fmt, s) && LedgerInv(s)
    ensures LedgerInv(Step(fmt, s, e))
  {
    if Enabled(fmt, s, e) {
      match e
      case Post(f) =>
      case RunPosted => RunPostedKeepsWriter(fmt, s);
      case SetResend(_) =>
      case Emit(n) => EmitKeepsLedger(s, n);
      case Done => CompleteKeepsLedger(fmt, s, Done);
      case Fail => CompleteKeepsLedger(fmt, s, Fail);
      case _ => ConnStepKeepsFullySent(fmt, s, e);
    }
  }

  lemma CompleteKeepsLedger(fmt: Format, s: State, e: Event)
    requires fmt.Valid() && WriterInv(fmt, s) && LedgerInv(s) && e in {Done, Fail} && Enabled(fmt, s, e)
    ensures LedgerInv(Step(fmt, s, e))
  {
    CompleteKeepsWriter(fmt, s, e);
    KillKeeps(s.conns, s.on);
  }

  /** Only the unfinished part matters to the current connection, and only while it is live. */
  lemma SameCurrent(s: State, s': State)
    requires CurrentInv(s) && |s'.conns| == |s.conns|
    requires s.conns != [] ==>
               var c, c' := s.conns[|s.conns| - 1], s'.conns[|s.conns| - 1];
               c'.live ==> c.live && c'.part == c.part
                           && Partial(s', |s.conns| - 1) == Partial(s, |s.conns| - 1)
    ensures CurrentInv(s')
  {
  }

  lemma ReplaceKeepsCurrent(fmt: Format, s: State)
    requires WriterInv(fmt, s)
    ensures CurrentInv(Step(fmt, s, Replace))
  {
  }

  lemma WriterStepKeepsPartial(fmt: Format, s: State, e: Event)
    requires fmt.Valid() && WriterInv(fmt, s) && Enabled(fmt, s, e) && (e.RunPosted? || e.Done? || e.Fail?)
    ensures var s', c := Step(fmt, s, e), |s.conns| - 1;
            s.conns != [] && s'.conns[c].live ==> s.conns[c] == s'.conns[c] && Partial(s', c) == Partial(s, c)
  {
  }

  lemma StepKeepsCurrent(fmt: Format, s: State, e: Event)
    requires fmt.Valid() && WriterInv(fmt, s) && CurrentInv(s) && !e.Emit?
    ensures CurrentInv(Step(fmt, s, e))
  {
    if e.Replace? {
      ReplaceKeepsCurrent(fmt, s);
    } else {
      if Enabled(fmt, s, e) && (e.RunPosted? || e.Done? || e.Fail?) {
        WriterStepKeepsPartial(fmt, s, e);
      }
      SameCurrent(s, Step(fmt, s, e));
    }
  }

  lemma NewConnInv(fmt: Format)
    requires fmt.Valid()
    ensures ConnInv(fmt, NEW_CONN)
  {
  }

  lemma ServerConn(fmt: Format, conn: Conn, ev: Reader.Event)
    requires fmt.Valid() && ConnInv(fmt, conn)
    requires ev.Arrive? && Reader.Enabled(fmt, conn.reader.reader, ev) ==> conn.reader.bytes + ev.chunk <= conn.sent
    ensures ConnInv(fmt, conn.(reader := Reader.TracedStep(fmt, conn.reader, ev)))
  {
    var r := conn.reader;
    if ev.Arrive? {
      Reader.ArriveKeepsInv(fmt, r, ev.chunk);
    } else {
      Reader.HandlerKeepsInv(fmt, r, ev);
    }
    assert r.bytes + [] == r.bytes;
  }

  /** More of frame f after the whole frames of a connection: part of it is unfinished, all of it
      is one whole frame more. */
  lemma EmitConn(fmt: Format, c: Conn, b: Buffer, from: nat, end: nat)
    requires fmt.Valid() && ConnInv(fmt, c) && WellFormed(fmt, b.data) && from < end <= |Encode(b.data)|
    requires c.part == Encode(b.data)[..from]
    ensures ConnInv(fmt, EmitOn(c, b, from, end))
  {
    var c', bytes := EmitOn(c, b, from, end), Encode(b.data);
    Assoc(EncodeAll(Data(c.full)), c.part, bytes[from..end]);
    TakeMore(bytes, from, end);
    if end == |bytes| {
      EmitLast(fmt, c, b, c', bytes);
    } else {
      StrictPrefixDecodesToNothing(fmt, b.data, end);
    }
  }

  lemma EmitLast(fmt: Format, c: Conn, b: Buffer, c': Conn, bytes: seq<byte>)
    requires fmt.Valid() && ConnInv(fmt, c) && WellFormed(fmt, b.data) && bytes == Encode(b.data)
    requires c' == c.(sent := c'.sent, full := c.full + [b], part := [])
    requires c.sent <= c'.sent == EncodeAll(Data(c.full)) + bytes[..|bytes|]
    ensures ConnInv(fmt, c')
  {
    assert bytes[..|bytes|] == bytes;
    EncodeAllSnoc(Data(c.full), b.data);
    DataSnoc(c.full, b);
    TakeDrop(c'.sent, |c'.sent|);
    EmptyIsUnfinished(fmt);
  }

  lemma DataSnoc(bs: seq<Buffer>, b: Buffer)
    ensures Data(bs + [b]) == Data(bs) + [b.data]
  {
  }

  lemma CurrentPart(s: State)
    requires s.w.writes != [] && 0 <= s.on == |s.conns| - 1 && s.emitted < |WriteBytes(s)|
    requires s.conns[s.on].live && CurrentInv(s)
    ensures s.conns[s.on].part == Encode(s.w.writes[0].data)[..s.emitted]
  {
  }

  lemma PartAfter(c: Conn, b: Buffer, from: nat, end: nat)
    requires from < end <= |Encode(b.data)| && c.part == Encode(b.data)[..from]
    ensures EmitOn(c, b, from, end).part == if end < |Encode(b.data)| then Encode(b.data)[..end] else []
  {
    TakeMore(Encode(b.data), from, end);
  }

  lemma EmitKeepsCurrent(s: State, n: nat, c: Conn, b: Buffer, c': Conn)
    requires s.w.writes != [] && b == s.w.writes[0] && 0 <= s.on == |s.conns| - 1 && c == s.conns[s.on]
    requires 0 < n && s.emitted + n <= |Encode(b.data)| && c' == EmitOn(c, b, s.emitted, s.emitted + n)
    requires c'.part == if s.emitted + n < |Encode(b.data)| then Encode(b.data)[..s.emitted + n] else []
    ensures CurrentInv(EmitStep(s, n))
  {
  }

  lemma StepKeepsConns(fmt: Format, s: State, e: Event)
    requires fmt.Valid() && AllConns(fmt, s.conns) && Enabled(fmt, s, e) && !e.Emit?
    ensures AllConns(fmt, Step(fmt, s, e).conns)
  {
    var s' := Step(fmt, s, e);
    match e
    case Fail => KillAllConns(fmt, s.conns, s.on);
    case Break => KillAllConns(fmt, s.conns, |s.conns| - 1);
    case Replace =>
      KillAllConns(fmt, s.conns, |s.conns| - 1);
      NewConnInv(fmt);
    case Server(c, ev) =>
      ServerConn(fmt, s.conns[c], ev);
      UpdateAllConns(fmt, s.conns, c, s'.conns[c]);
    case _ =>
  }

  lemma EmitKeepsConns(fmt: Format, s: State, n: nat, b: Buffer)
    requires fmt.Valid() && AllConns(fmt, s.conns) && s.w.writes != [] && b == s.w.writes[0] && WellFormed(fmt, b.data)
    requires 0 <= s.on < |s.conns| && 0 < n && s.emitted + n <= |Encode(b.data)|
    requires s.conns[s.on].part == Encode(b.data)[..s.emitted]
    ensures AllConns(fmt, EmitStep(s, n).conns)
  {
    EmitOneConn(fmt, s.conns, s.on, b, s.emitted, s.emitted + n);
  }

  lemma EmitStepKeepsCurrent(fmt: Format, s: State, n: nat)
    requires CurrentInv(s) && Enabled(fmt, s, Emit(n))
    ensures CurrentInv(EmitStep(s, n))
  {
    var b, c, from, end := s.w.writes[0], s.conns[s.on], s.emitted, s.emitted + n;
    CurrentPart(s);
    PartAfter(c, b, from, end);
    EmitKeepsCurrent(s, n, c, b, EmitOn(c, b, from, end));
  }

  lemma EmitOneConn(fmt: Format, conns: seq<Conn>, on: nat, b: Buffer, from: nat, end: nat)
    requires fmt.Valid() && AllConns(fmt, conns) && on < |conns| && WellFormed(fmt, b.data)
    requires from < end <= |Encode(b.data)| && conns[on].part == Encode(b.data)[..from]
    ensures AllConns(fmt, conns[on := EmitOn(conns[on], b, from, end)])
  {
    EmitConn(fmt, conns[on], b, from, end);
    UpdateAllConns(fmt, conns, on, EmitOn(conns[on], b, from, end));
  }

  lemma StepKeepsInv(fmt: Format, s: State, e: Event)
    requires Inv(fmt, s)
    ensures Inv(fmt, Step(fmt, s, e))
  {
    StepKeepsWriter(fmt, s, e);
    StepKeepsLedger(fmt, s, e);
    if Enabled(fmt, s, e) {
      if e.Emit? {
        FrontWellFormed(fmt, s);
        CurrentPart(s);
        EmitKeepsConns(fmt, s, e.n, s.w.writes[0]);
        EmitStepKeepsCurrent(fmt, s, e.n);
      } else {
        StepKeepsCurrent(fmt, s, e);
        StepKeepsConns(fmt, s, e);
      }
    }
  }

  lemma RunInv(fmt: Format, resend: bool, events: seq<Event>)
    requires fmt.Valid()
    ensures Inv(fmt, Run(fmt, resend, events))
  {
    var step := Stepper(fmt);
    var inv := s => Inv(fmt, s);
    forall s, e | inv(s) ensures inv(step(s, e)) {
      StepKeepsInv(fmt, s, e);
    }
    Always(step, inv, Init(resend), events);
  }

  // ---- theorems about every run -----------------------------------------------------------------

  lemma ConnDecodes(fmt: Format, conn: Conn)
    requires fmt.Valid() && ConnInv(fmt, conn)
    ensures var decoded := DecodeAll(fmt, conn.reader.bytes).0;
            decoded <= Data(conn.full) && (conn.reader.bytes == conn.sent ==> decoded == Data(conn.full))
  {
    PartOfStream(fmt, Data(conn.full), conn.part, conn.reader.bytes);
  }

  /** On every connection, whatever fails and whenever, the server decodes in order an initial
      part of exactly the frames the client sent there in full: those complete in the bytes that
      have arrived. A frame cut off by a failed write yields no request, and the connections
      after it start on a frame boundary. */
  lemma ServerDecodesWhatWasFullySent(fmt: Format, resend: bool, events: seq<Event>, c: nat)
    requires fmt.Valid() && c < |Run(fmt, resend, events).conns|
    ensures var conn := Run(fmt, resend, events).conns[c];
            var decoded := conn.reader.reader.out + Reader.Uncut(fmt, conn.reader.reader);
            && decoded <= Data(conn.full)
            && decoded == DecodeAll(fmt, conn.reader.bytes).0
            && (conn.reader.bytes == conn.sent ==> decoded == Data(conn.full))
  {
    RunInv(fmt, resend, events);
    var conn := Run(fmt, resend, events).conns[c];
    Reader.HoldsCompleteFrames(fmt, conn.reader);
    ConnDecodes(fmt, conn);
  }

  /** What the server has decoded on all connections, connection after connection. */
  function Decoded(conns: seq<Conn>): seq<Frame>
  {
    if conns == [] then [] else Decoded(conns[..|conns| - 1]) + conns[|conns| - 1].reader.reader.out
  }

  lemma {:induction false} DecodedIsSubseq(conns: seq<Conn>)
    requires forall c :: 0 <= c < |conns| ==> conns[c].reader.reader.out <= Data(conns[c].full)
    ensures Subseq(Decoded(conns), Data(FullySent(conns)))
  {
    if conns != [] {
      var n := |conns| - 1;
      DecodedIsSubseq(conns[..n]);
      var out, before, full := conns[n].reader.reader.out, FullySent(conns[..n]), conns[n].full;
      PrefixIsSubseq(out, Data(full));
      SubseqConcat(Decoded(conns[..n]), Data(before), out, Data(full));
      DataAppend(before, full);
    }
  }

  lemma DataAppend(a: seq<Buffer>, b: seq<Buffer>)
    ensures Data(a + b) == Data(a) + Data(b)
  {
  }

  lemma {:induction false} DataKeepsSubseq(a: seq<Buffer>, b: seq<Buffer>)
    requires Subseq(a, b)
    ensures Subseq(Data(a), Data(b))
  {
    if a != [] {
      var b0 := b[..|b| - 1];
      assert Data(b)[..|b| - 1] == Data(b0);
      if Subseq(a, b0) {
        DataKeepsSubseq(a, b0);
      } else {
        DataKeepsSubseq(a[..|a| - 1], b0);
        assert Data(a)[..|a| - 1] == Data(a[..|a| - 1]);
      }
    }
  }

  /** End to end, over any number of connections: the fully sent buffers are an in-order
      subsequence of the posted ones, each at most once, and so is what the server decodes. */
  lemma DeliveredInOrderAtMostOnce(fmt: Format, resend: bool, events: seq<Event>)
    requires fmt.Valid()
    ensures var s := Run(fmt, resend, events);
            && Subseq(FullySent(s.conns), s.w.posted)
            && (forall b :: multiset(FullySent(s.conns))[b] <= 1)
            && Subseq(Decoded(s.conns), Data(s.w.posted))
  {
    RunInv(fmt, resend, events);
    var s := Run(fmt, resend, events);
    FullySentIsSubseq(s);
    SubseqCounts(FullySent(s.conns), s.w.posted);
    forall b ensures multiset(FullySent(s.conns))[b] <= 1 {
      SendQueue.DistinctCounts(s.w.posted, b);
    }
    forall c | 0 <= c < |s.conns| ensures s.conns[c].reader.reader.out <= Data(s.conns[c].full) {
      ServerDecodesWhatWasFullySent(fmt, resend, events, c);
    }
    DecodedIsSubseq(s.conns);
    DataKeepsSubseq(FullySent(s.conns), s.w.posted);
    SubseqTrans(Decoded(s.conns), Data(FullySent(s.conns)), Data(s.w.posted));
  }

  lemma FullySentIsSubseq(s: State)
    requires SendQueue.Inv(s.w) && LedgerInv(s)
    ensures Subseq(FullySent(s.conns), s.w.posted)
  {
    var w := s.w;
    var front := FullySent(s.conns)[|SendQueue.WrittenOf(w.log)|..];
    SendQueue.WrittenIsSubseq(w.log);
    assert front <= w.queue;
    PrefixIsSubseq(front, w.queue);
    SubseqConcat(SendQueue.WrittenOf(w.log), SendQueue.Buffers(w.log), front, w.queue);
    SubseqOfPrefix(FullySent(s.conns), SendQueue.Buffers(w.log) + w.queue, w.mailbox);
  }

  /** With resend on throughout, the fully sent buffers are the first posted ones, with no gap. */
  lemma ResendDeliversAPrefix(fmt: Format, events: seq<Event>)
    requires fmt.Valid() && SetResend(false) !in events
    ensures var s := Run(fmt, true, events);
            FullySent(s.conns) <= s.w.posted
  {
    RunInv(fmt, true, events);
    ResendRun(fmt, events);
    SentIsPrefix(Run(fmt, true, events));
  }

  lemma SentIsPrefix(s: State)
    requires LedgerInv(s) && SendQueue.NothingDropped(s.w)
    ensures FullySent(s.conns) <= s.w.posted
  {
  }

  lemma ResendStep(fmt: Format, s: State, e: Event)
    requires SendQueue.NothingDropped(s.w) && e != SetResend(false)
    ensures SendQueue.NothingDropped(Step(fmt, s, e).w)
  {
    match e
    case Post(f) => SendQueue.ResendStep(s.w, SendQueue.Post(f));
    case RunPosted => SendQueue.ResendStep(s.w, SendQueue.RunPosted);
    case Done => SendQueue.ResendStep(s.w, SendQueue.Complete(true));
    case Fail => SendQueue.ResendStep(s.w, SendQueue.Complete(false));
    case _ =>
  }

  lemma {:induction false} ResendRun(fmt: Format, events: seq<Event>)
    requires SetResend(false) !in events
    ensures SendQueue.NothingDropped(Run(fmt, true, events).w)
  {
    if events != [] {
      var n := |events| - 1;
      ResendRun(fmt, events[..n]);
      assert events[n] in events;
      ResendStep(fmt, Run(fmt, true, events[..n]), events[n]);
    }
  }

  // ---- what a user of the stream relies on ----------------------------------------------------------

  lemma StepPosts(fmt: Format, s: State, e: Event)
    ensures var s' := Step(fmt, s, e);
            && |s'.conns| == |s.conns| + One(e.Replace?)
            && s'.w.posted == s.w.posted + if e.Post? && WellFormed(fmt, e.f) then [SendQueue.Buffer(|s.w.posted|, e.f)] else []
  {
  }

  lemma {:induction false} FullInAll(conns: seq<Conn>, c: nat)
    requires c < |conns|
    ensures multiset(conns[c].full) <= multiset(FullySent(conns))
  {
    var n := |conns| - 1;
    if c < n {
      FullInAll(conns[..n], c);
    }
  }

  /** A buffer fully sent on a connection is the posted buffer of its number, and is there once. */
  lemma FullIsPosted(s: State, c: nat, k: nat)
    requires SendQueue.Inv(s.w) && LedgerInv(s) && c < |s.conns| && k < |s.conns[c].full|
    ensures var b := s.conns[c].full[k];
            b.id < |s.w.posted| && s.w.posted[b.id] == b && multiset(s.conns[c].full)[b] == 1
  {
    var full := s.conns[c].full;
    FullySentIsSubseq(s);
    SubseqCounts(FullySent(s.conns), s.w.posted);
    FullInAll(s.conns, c);
    SendQueue.DistinctCounts(s.w.posted, full[k]);
    assert full[k] in full && full[k] in multiset(full);
    assert full[k] in multiset(s.w.posted) && full[k] in s.w.posted;
    var i :| 0 <= i < |s.w.posted| && s.w.posted[i] == full[k];
  }

  lemma {:induction false} TwiceCounts<T>(a: seq<T>, j: nat, k: nat)
    requires j < |a| && k < |a| && j != k && a[j] == a[k]
    ensures multiset(a)[a[k]] >= 2
  {
    var lo, hi := if j < k then j else k, if j < k then k else j;
    assert a == a[..hi] + a[hi..];
    assert a[lo] in a[..hi] && a[hi] in a[hi..];
    assert multiset(a) == multiset(a[..hi]) + multiset(a[hi..]);
  }

  /** The frame a server is about to cut is the posted frame with the number of the next buffer
      fully sent on its connection, and none cut there before had that number. */
  lemma NextDecoded(fmt: Format, s: State, c: nat)
    requires Inv(fmt, s) && c < |s.conns| && Reader.Enabled(fmt, s.conns[c].reader.reader, Reader.Decode)
    ensures var Conn(_, full, _, _, Traced(r, _)) := s.conns[c];
            var k := |r.out|;
            && |r.head| == fmt.fields && k < |full| && full[k].id < |s.w.posted|
            && s.w.posted[full[k].id].data == Cut(fmt, r.head, r.content)
            && forall j :: 0 <= j < k ==> full[j].id != full[k].id
  {
    var Conn(_, full, _, _, Traced(r, _)) := s.conns[c];
    var k := |r.out|;
    NextIsUncut(fmt, s.conns[c]);
    FullIsPosted(s, c, k);
    forall j | 0 <= j < k ensures full[j].id != full[k].id {
      FullIsPosted(s, c, j);
      if full[j] == full[k] {
        TwiceCounts(full, j, k);
      }
    }
  }

  lemma NextIsUncut(fmt: Format, conn: Conn)
    requires fmt.Valid() && ConnInv(fmt, conn) && Reader.Enabled(fmt, conn.reader.reader, Reader.Decode)
    ensures var r := conn.reader.reader;
            && |r.head| == fmt.fields && |r.out| < |conn.full|
            && conn.full[|r.out|].data == Cut(fmt, r.head, r.content)
  {
    var r := conn.reader.reader;
    Reader.HoldsCompleteFrames(fmt, conn.reader);
    ConnDecodes(fmt, conn);
    var decoded := r.out + [Cut(fmt, r.head, r.content)];
    assert decoded <= Data(conn.full) && decoded[|r.out|] == Data(conn.full)[|r.out|];
  }

  // ---- by the events of the run -------------------------------------------------------------------

  /** The frames posted in a run. */
  function Posts(fmt: Format, events: seq<Event>): seq<Frame>
  {
    if events == [] then []
    else
      var n := |events| - 1;
      Posts(fmt, events[..n]) + if events[n].Post? && WellFormed(fmt, events[n].f) then [events[n].f] else []
  }

  lemma {:induction false} PostedAre(fmt: Format, resend: bool, events: seq<Event>)
    ensures Data(Run(fmt, resend, events).w.posted) == Posts(fmt, events)
  {
    if events != [] {
      var n := |events| - 1;
      var s := Run(fmt, resend, events[..n]);
      PostedAre(fmt, resend, events[..n]);
      StepPosts(fmt, s, events[n]);
      if events[n].Post? && WellFormed(fmt, events[n].f) {
        DataSnoc(s.w.posted, SendQueue.Buffer(|s.w.posted|, events[n].f));
      } else {
        assert s.w.posted + [] == s.w.posted;
      }
    }
  }

  function LastResend(resend: bool, events: seq<Event>): bool
  {
    if events == [] then resend
    else
      var n := |events| - 1;
      if events[n].SetResend? then events[n].b else LastResend(resend, events[..n])
  }

  lemma ResendStays(fmt: Format, s: State, e: Event)
    ensures Step(fmt, s, e).w.resend == if e.SetResend? then e.b else s.w.resend
  {
  }

  lemma {:induction false} ResendIsTheLastSet(fmt: Format, resend: bool, events: seq<Event>)
    ensures Run(fmt, resend, events).w.resend == LastResend(resend, events)
  {
    if events != [] {
      var n := |events| - 1;
      ResendIsTheLastSet(fmt, resend, events[..n]);
      ResendStays(fmt, Run(fmt, resend, events[..n]), events[n]);
    }
  }

  /** End to end by the events alone: what the server decodes, connection after connection, are
      frames that were posted, in the order in which they were posted. */
  lemma DecodedWerePosted(fmt: Format, resend: bool, events: seq<Event>)
    requires fmt.Valid()
    ensures Subseq(Decoded(Run(fmt, resend, events).conns), Posts(fmt, events))
  {
    DeliveredInOrderAtMostOnce(fmt, resend, events);
    PostedAre(fmt, resend, events);
  }

  // ---- a write goes to the connection that is current when it starts -----------------------------------

  /** Every write that starts is bound to the current connection, with nothing sent yet. */
  lemma WritesStartOnTheCurrent(fmt: Format, s: State, e: Event)
    requires Enabled(fmt, s, e) && (e.Done? || e.Fail? || (e.RunPosted? && s.w.writes == []))
    ensures Step(fmt, s, e).on == |Step(fmt, s, e).conns| - 1 && Step(fmt, s, e).emitted == 0
  {
  }

  lemma EmitAll(fmt: Format, s: State, b: Buffer)
    requires fmt.Valid() && WellFormed(fmt, b.data) && s.w.writes != [] && s.w.writes[0] == b && s.emitted == 0
    requires 0 <= s.on == |s.conns| - 1 && s.conns[s.on].live
    ensures var s', c := Step(fmt, s, Emit(|Encode(b.data)|)), s.conns[s.on];
            s'.conns == s.conns[s.on := c.(sent := c.sent + Encode(b.data), full := c.full + [b], part := [])]
  {
    EncodeLen(fmt, b.data);
    assert Encode(b.data)[0..|Encode(b.data)|] == Encode(b.data);
  }

  /** From any state with a live connection and nothing to write: a frame that is posted goes out
      whole on the current connection, whichever it is, and on no other. */
  lemma SendsOnTheCurrent(fmt: Format, s: State, f: Frame)
    requires Inv(fmt, s) && WellFormed(fmt, f) && s.w.queue == [] && s.w.mailbox == []
    requires s.conns != [] && s.conns[|s.conns| - 1].live
    ensures var s' := Step(fmt, Step(fmt, Step(fmt, s, Post(f)), RunPosted), Emit(|Encode(f)|));
            var last := |s.conns| - 1;
            && |s'.conns| == |s.conns| && (forall c :: 0 <= c < last ==> s'.conns[c] == s.conns[c])
            && s'.conns[last].full == s.conns[last].full + [SendQueue.Buffer(|s.w.posted|, f)]
            && s'.conns[last].sent == s.conns[last].sent + Encode(f) && s'.conns[last].part == []
  {
    PostStarts(fmt, s, f);
    EmitAll(fmt, Step(fmt, Step(fmt, s, Post(f)), RunPosted), SendQueue.Buffer(|s.w.posted|, f));
  }

  lemma PostStarts(fmt: Format, s: State, f: Frame)
    requires Inv(fmt, s) && WellFormed(fmt, f) && s.w.queue == [] && s.w.mailbox == []
    ensures var s' := Step(fmt, Step(fmt, s, Post(f)), RunPosted);
            && s'.w.writes == [SendQueue.Buffer(|s.w.posted|, f)] && s'.conns == s.conns
            && s'.on == |s.conns| - 1 && s'.emitted == 0
  {
    var s1 := Step(fmt, s, Post(f));
    assert s1.w.mailbox == [SendQueue.Buffer(|s.w.posted|, f)] && s1.w.queue == [] && s1.w.writes == [];
  }

  /** From any state in which a write is not finished and resend is on: once the connection has been
      replaced and the write has failed, its whole frame goes out on the new connection, and nothing
      more on any other. */
  lemma ResendsOnTheNew(fmt: Format, s: State)
    requires Inv(fmt, s) && s.w.resend && s.w.writes != [] && s.emitted < |WriteBytes(s)|
    ensures var b := s.w.queue[0];
            var s' := Step(fmt, Step(fmt, Step(fmt, s, Replace), Fail), Emit(|Encode(b.data)|));
            && |s'.conns| == |s.conns| + 1
            && (forall c :: 0 <= c < |s.conns| ==> SameBytes(s'.conns[c], s.conns[c]))
            && s'.conns[|s.conns|].full == [b] && s'.conns[|s.conns|].sent == Encode(b.data)
  {
    var b := s.w.queue[0];
    FrontWellFormed(fmt, s);
    FailRebinds(fmt, s);
    var s2 := Step(fmt, Step(fmt, s, Replace), Fail);
    EmitAll(fmt, s2, b);
    assert [] + Encode(b.data) == Encode(b.data) && [] + [b] == [b];
  }

  predicate SameBytes(c: Conn, d: Conn) { c.sent == d.sent && c.full == d.full }

  lemma KillSame(conns: seq<Conn>, c: int, i: nat)
    requires i < |conns|
    ensures |Kill(conns, c)| == |conns| && SameBytes(Kill(conns, c)[i], conns[i]) && (i != c ==> Kill(conns, c)[i] == conns[i])
  {
  }

  lemma FailRebinds(fmt: Format, s: State)
    requires SendQueue.Inv(s.w) && s.on < |s.conns| && s.w.resend && s.w.writes != [] && s.emitted < |WriteBytes(s)|
    ensures var s2 := Step(fmt, Step(fmt, s, Replace), Fail);
            && s2.w.writes == [s.w.queue[0]] && s2.on == |s.conns| && s2.emitted == 0
            && |s2.conns| == |s.conns| + 1 && s2.conns[|s.conns|] == NEW_CONN
            && forall c :: 0 <= c < |s.conns| ==> SameBytes(s2.conns[c], s.conns[c])
  {
    ReplaceIs(fmt, s);
    FailWritesAgain(fmt, Step(fmt, s, Replace));
    KillTwice(s.conns, s.on);
  }

  lemma ReplaceIs(fmt: Format, s: State)
    ensures Step(fmt, s, Replace) == s.(conns := Kill(s.conns, |s.conns| - 1) + [NEW_CONN])
    ensures WriteBytes(Step(fmt, s, Replace)) == WriteBytes(s)
  {
  }

  lemma KillTwice(conns: seq<Conn>, on: int)
    requires on < |conns|
    ensures var after := Kill(Kill(conns, |conns| - 1) + [NEW_CONN], on);
            && |after| == |conns| + 1 && after[|conns|] == NEW_CONN
            && forall c :: 0 <= c < |conns| ==> SameBytes(after[c], conns[c])
  {
    var once := Kill(conns, |conns| - 1) + [NEW_CONN];
    KillSame(once, on, |conns|);
    forall c | 0 <= c < |conns| ensures SameBytes(Kill(once, on)[c], conns[c]) {
      KillSame(conns, |conns| - 1, c);
      KillSame(once, on, c);
    }
  }

  lemma FailWritesAgain(fmt: Format, s: State)
    requires SendQueue.Inv(s.w) && s.w.resend && s.w.writes != [] && s.emitted < |WriteBytes(s)|
    ensures var s' := Step(fmt, s, Fail);
            && s'.w.writes == [s.w.queue[0]] && s'.conns == Kill(s.conns, s.on)
            && s'.on == |s.conns| - 1 && s'.emitted == 0
  {
  }

  /** Connection c is past: it has seen an error or been replaced, and nothing more than `was` is on it. */
  predicate Silent(s: State, c: nat, was: Conn)
  {
    && c < |s.conns| && SameBytes(s.conns[c], was)
    && (c < |s.conns| - 1 || !s.conns[c].live)
  }

  lemma StaysSilent(fmt: Format, s: State, e: Event, c: nat, was: Conn)
    requires Silent(s, c, was)
    ensures Silent(Step(fmt, s, e), c, was)
  {
  }

  /** Once a socket has failed or been replaced, nothing is ever sent on its connection again. */
  lemma NothingAfterAnError(fmt: Format, s: State, e: Event, more: seq<Event>)
    requires s.conns != [] && e in {Break, Replace}
    ensures var c, s' := |s.conns| - 1, Exec(Stepper(fmt), Step(fmt, s, e), more);
            c < |s'.conns| && SameBytes(s'.conns[c], s.conns[c])
  {
    var c := |s.conns| - 1;
    var was := s.conns[c];
    var silent := (t: State) => Silent(t, c, was);
    KillSame(s.conns, c, c);
    assert Silent(Step(fmt, s, e), c, was);
    forall t, ev | silent(t) ensures silent(Stepper(fmt)(t, ev)) {
      StaysSilent(fmt, t, ev, c, was);
    }
    Always(Stepper(fmt), silent, Step(fmt, s, e), more);
  }

  // ---- an idle connection can carry a frame -----------------------------------------------------------

  /** Posted but not queued on a new connection. */
  predicate Waiting(s: State, f: Frame)
  {
    && s.w.queue == [] && s.w.writes == [] && |s.w.mailbox| == 1 && s.w.mailbox[0].data == f
    && s.conns == [NEW_CONN]
  }

  /** The write starts and sends everything, and the server reads it up to the cut. */
  function Carried(fmt: Format, s: State, f: Frame): State
  {
    var s1 := Step(fmt, Step(fmt, s, RunPosted), Emit(|Encode(f)|));
    var s2 := Step(fmt, Step(fmt, s1, Server(0, Reader.Arrive(Reader.HeadOf(f)))), Server(0, Reader.HeadDone));
    Step(fmt, Step(fmt, s2, Server(0, Reader.Arrive(Reader.ContentOf(f)))), Server(0, Reader.Rearm))
  }

  lemma CanSend(fmt: Format, s: State, f: Frame)
    requires fmt.Valid() && WellFormed(fmt, f) && Waiting(s, f)
    ensures var s1 := Step(fmt, Step(fmt, s, RunPosted), Emit(|Encode(f)|));
            |s1.conns| == 1 && s1.conns[0].sent == Encode(f) && s1.conns[0].reader == NEW_CONN.reader
  {
    EncodeLen(fmt, f);
    var s0 := Step(fmt, s, RunPosted);
    assert s0.w.writes[0].data == f && s0.on == 0 && s0.emitted == 0 && s0.conns == [NEW_CONN];
    assert Encode(f)[0..|Encode(f)|] == Encode(f);
    assert [] + Encode(f) == Encode(f);
  }

  lemma ServerStep(fmt: Format, s: State, ev: Reader.Event)
    requires |s.conns| == 1 && (ev.Arrive? ==> s.conns[0].reader.bytes + ev.chunk <= s.conns[0].sent)
    ensures var s' := Step(fmt, s, Server(0, ev));
            && |s'.conns| == 1 && s'.conns[0].sent == s.conns[0].sent
            && s'.conns[0].reader == Reader.TracedStep(fmt, s.conns[0].reader, ev)
  {
  }

  /** Nothing in the model stops a frame posted on a fresh connection from reaching the server. */
  lemma CanCarry(fmt: Format, s: State, f: Frame)
    requires fmt.Valid() && WellFormed(fmt, f) && Waiting(s, f)
    ensures var s' := Carried(fmt, s, f);
            |s'.conns| == 1 && Reader.Enabled(fmt, s'.conns[0].reader.reader, Reader.Decode)
  {
    var head, content := Reader.HeadOf(f), Reader.ContentOf(f);
    var s1 := Step(fmt, Step(fmt, s, RunPosted), Emit(|Encode(f)|));
    CanSend(fmt, s, f);
    Assoc(head, f.fixed, Join(f.fields));
    Reader.CanDeliver(fmt, f);
    assert [] + head == head;
    var s2 := Step(fmt, s1, Server(0, Reader.Arrive(head)));
    ServerStep(fmt, s1, Reader.Arrive(head));
    var s3 := Step(fmt, s2, Server(0, Reader.HeadDone));
    ServerStep(fmt, s2, Reader.HeadDone);
    assert head + [] == head;
    ServerStep(fmt, s3, Reader.Arrive(content));
    ServerStep(fmt, Step(fmt, s3, Server(0, Reader.Arrive(content))), Reader.Rearm);
  }
}
