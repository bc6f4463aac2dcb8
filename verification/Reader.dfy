/** The read loop shared by the server connection and both asynchronous clients. A header read
    fills the header buffer, its handler copies the header and starts the content read, and the
    content handler starts the next header read before it decodes, so bytes of the next header
    may land in the header buffer while the previous content is still uncut. */
module Reader {
  import opened Bytes
  import opened Frames
  import opened Machine

  /** ReadHead: a header read is outstanding. ReadContent: a content read is outstanding.
      Rearmed: the content handler has started the next header read and not yet decoded. */
  datatype Phase = ReadHead | ReadContent | Rearmed

  /** `headBuf` is what the outstanding header read has received, `head` the copied header. */
  datatype State = State(phase: Phase, headBuf: seq<byte>, head: seq<u32>, content: seq<byte>, out: seq<Frame>)

  /** Arrive: the socket delivers some bytes to the buffer being read, as many as it likes.
      HeadDone: the header handler runs. Rearm, Decode: the two halves of the content handler. */
  datatype Event = Arrive(chunk: seq<byte>) | HeadDone | Rearm | Decode

  const INIT := State(ReadHead, [], [], [], [])

  predicate Enabled(fmt: Format, s: State, e: Event)
  {
    match e
    case Arrive(chunk) =>
      if s.phase == ReadContent then |s.content| + |chunk| <= ContentLen(fmt, s.head)
      else |s.headBuf| + |chunk| <= fmt.HeadLen()
    case HeadDone => s.phase == ReadHead && |s.headBuf| == fmt.HeadLen()
    case Rearm => s.phase == ReadContent && |s.content| == ContentLen(fmt, s.head)
    case Decode => s.phase == Rearmed && |s.content| == fmt.fixedLen + Sum(s.head)
  }

  function Step(fmt: Format, s: State, e: Event): (s': State)
  {
    if !Enabled(fmt, s, e) then s
    else match e
      case Arrive(chunk) =>
        if s.phase == ReadContent then s.(content := s.content + chunk) else s.(headBuf := s.headBuf + chunk)
      case HeadDone => s.(phase := ReadContent, head := GetLens(s.headBuf), content := [])
      case Rearm => s.(phase := Rearmed, headBuf := [])
      case Decode => s.(phase := ReadHead, out := s.out + [Cut(fmt, s.head, s.content)])
  }

  function Received(fmt: Format, s: State, e: Event): seq<byte>
  {
    if e.Arrive? && Enabled(fmt, s, e) then e.chunk else []
  }

  /** The reader together with every byte its socket has delivered to it. */
  datatype Traced = Traced(reader: State, bytes: seq<byte>)

  function TracedStep(fmt: Format, t: Traced, e: Event): Traced
  {
    Traced(Step(fmt, t.reader, e), t.bytes + Received(fmt, t.reader, e))
  }

  function Stepper(fmt: Format): (Traced, Event) -> Traced { (t, e) => TracedStep(fmt, t, e) }

  function Run(fmt: Format, events: seq<Event>): Traced
  {
    Exec(Stepper(fmt), Traced(INIT, []), events)
  }

  // ---- what the reader holds ----------------------------------------------------------------

  /** The delivered bytes that are not yet part of a decoded frame. */
  function Pending(s: State): seq<byte>
  {
    match s.phase
    case ReadHead => s.headBuf
    case ReadContent => PutLens(s.head) + s.content
    case Rearmed => PutLens(s.head) + s.content + s.headBuf
  }

  ghost predicate Inv(fmt: Format, t: Traced)
  {
    var s := t.reader;
    && |s.headBuf| <= fmt.HeadLen()
    && (!s.phase.ReadHead? ==> |s.head| == fmt.fields && |s.content| <= ContentLen(fmt, s.head))
    && (s.phase.Rearmed? ==> |s.content| == ContentLen(fmt, s.head))
    && AllWellFormed(fmt, s.out)
    && t.bytes == EncodeAll(s.out) + Pending(s)
  }

  lemma ArriveKeepsInv(fmt: Format, t: Traced, chunk: seq<byte>)
    requires fmt.Valid() && Inv(fmt, t)
    ensures Inv(fmt, TracedStep(fmt, t, Arrive(chunk)))
  {
    var s := t.reader;
    if Enabled(fmt, s, Arrive(chunk)) {
      Assoc(EncodeAll(s.out), Pending(s), chunk);
      match s.phase
      case ReadHead =>
      case ReadContent => Assoc(PutLens(s.head), s.content, chunk);
      case Rearmed => Assoc(PutLens(s.head) + s.content, s.headBuf, chunk);
    } else {
      assert t.bytes + [] == t.bytes;
    }
  }

  lemma HeadDoneKeepsInv(fmt: Format, t: Traced)
    requires fmt.Valid() && Inv(fmt, t) && Enabled(fmt, t.reader, HeadDone)
    ensures Inv(fmt, Traced(Step(fmt, t.reader, HeadDone), t.bytes))
  {
    var s := t.reader;
    GetPutLens(s.headBuf);
    NoWrap(fmt, GetLens(s.headBuf));
    assert s.headBuf + [] == s.headBuf;
  }

  lemma RearmKeepsInv(fmt: Format, t: Traced)
    requires fmt.Valid() && Inv(fmt, t) && Enabled(fmt, t.reader, Rearm)
    ensures Inv(fmt, Traced(Step(fmt, t.reader, Rearm), t.bytes))
  {
    assert Pending(t.reader) + [] == Pending(t.reader);
  }

  lemma DecodeKeepsInv(fmt: Format, t: Traced)
    requires fmt.Valid() && Inv(fmt, t) && Enabled(fmt, t.reader, Decode)
    ensures Inv(fmt, Traced(Step(fmt, t.reader, Decode), t.bytes))
  {
    var s := t.reader;
    var f := Cut(fmt, s.head, s.content);
    CutRestores(fmt, s.head, s.content);
    EncodeAllSnoc(s.out, f);
    Assoc(EncodeAll(s.out), Encode(f), s.headBuf);
  }

  lemma HandlerKeepsInv(fmt: Format, t: Traced, e: Event)
    requires fmt.Valid() && Inv(fmt, t) && !e.Arrive?
    ensures Inv(fmt, TracedStep(fmt, t, e))
  {
    assert t.bytes + [] == t.bytes;
    if Enabled(fmt, t.reader, e) {
      match e
      case HeadDone => HeadDoneKeepsInv(fmt, t);
      case Rearm => RearmKeepsInv(fmt, t);
      case Decode => DecodeKeepsInv(fmt, t);
    }
  }

  lemma RunInv(fmt: Format, events: seq<Event>)
    requires fmt.Valid()
    ensures Inv(fmt, Run(fmt, events))
  {
    var step := Stepper(fmt);
    var inv := t => Inv(fmt, t);
    forall t, e | inv(t) ensures inv(step(t, e)) {
      if e.Arrive? { ArriveKeepsInv(fmt, t, e.chunk); } else { HandlerKeepsInv(fmt, t, e); }
    }
    assert EncodeAll([]) + [] == [];
    Always(step, inv, Traced(INIT, []), events);
  }

  // ---- what the reader decodes -----------------------------------------------------------------

  /** The frame whose content is complete but whose handler has not decoded it yet. */
  function Uncut(fmt: Format, s: State): seq<Frame>
  {
    if !s.phase.ReadHead? && |s.content| == fmt.fixedLen + Sum(s.head) then [Cut(fmt, s.head, s.content)] else []
  }

  lemma HeaderAloneIsUnfinished(fmt: Format, lens: seq<u32>, part: seq<byte>)
    requires fmt.Valid() && |lens| == fmt.fields && |part| < ContentLen(fmt, lens)
    ensures Unfinished(fmt, PutLens(lens) + part)
  {
    var b := PutLens(lens) + part;
    assert b[..fmt.HeadLen()] == PutLens(lens);
    PutGetLens(lens);
  }

  /** An unfinished header is followed by content, so it never completes a frame by itself. */
  lemma PartHeaderIsUnfinished(fmt: Format, b: seq<byte>)
    requires fmt.Valid() && |b| <= fmt.HeadLen()
    ensures Unfinished(fmt, b)
  {
    if |b| == fmt.HeadLen() {
      assert b[..fmt.HeadLen()] == b;
      NoWrap(fmt, GetLens(b));
    }
  }

  /** The frames decoded and the one being cut are the frames complete in the bytes received. */
  lemma HoldsCompleteFrames(fmt: Format, t: Traced)
    requires fmt.Valid() && Inv(fmt, t)
    ensures DecodeAll(fmt, t.bytes).0 == t.reader.out + Uncut(fmt, t.reader)
  {
    var s := t.reader;
    if s.phase.ReadHead? {
      PartHeaderIsUnfinished(fmt, s.headBuf);
      DecodeAllEncoded(fmt, s.out, s.headBuf);
      assert s.out + [] == s.out;
    } else {
      NoWrap(fmt, s.head);
      if |s.content| < ContentLen(fmt, s.head) {
        HeaderAloneIsUnfinished(fmt, s.head, s.content);
        DecodeAllEncoded(fmt, s.out, Pending(s));
        assert s.out + [] == s.out;
      } else {
        UncutIsNext(fmt, s, t.bytes);
      }
    }
  }

  /** In every interleaving of arriving bytes and handlers, and for every way the bytes are
      chunked, the frames decoded so far and the one being cut are exactly the frames complete
      in the bytes delivered. Each content is therefore cut with the lengths of its own header,
      although the next header may already fill the header buffer. */
  lemma ReaderDecodesTheStream(fmt: Format, events: seq<Event>)
    requires fmt.Valid()
    ensures var Traced(s, bytes) := Run(fmt, events);
            DecodeAll(fmt, bytes).0 == s.out + Uncut(fmt, s)
  {
    RunInv(fmt, events);
    HoldsCompleteFrames(fmt, Run(fmt, events));
  }

  lemma UncutIsNext(fmt: Format, s: State, bytes: seq<byte>)
    requires fmt.Valid() && Inv(fmt, Traced(s, bytes)) && !s.phase.ReadHead?
    requires |s.content| == ContentLen(fmt, s.head)
    ensures DecodeAll(fmt, bytes).0 == s.out + Uncut(fmt, s)
  {
    NoWrap(fmt, s.head);
    var f := Cut(fmt, s.head, s.content);
    var tail := if s.phase.Rearmed? then s.headBuf else [];
    CutRestores(fmt, s.head, s.content);
    assert Pending(s) == Encode(f) + tail;
    PartHeaderIsUnfinished(fmt, tail);
    OneMoreFrame(fmt, s.out, f, tail);
  }

  lemma OneMoreFrame(fmt: Format, out: seq<Frame>, f: Frame, tail: seq<byte>)
    requires fmt.Valid() && AllWellFormed(fmt, out) && WellFormed(fmt, f) && Unfinished(fmt, tail)
    ensures DecodeAll(fmt, EncodeAll(out) + (Encode(f) + tail)).0 == out + [f]
  {
    EncodeAllSnoc(out, f);
    Assoc(EncodeAll(out), Encode(f), tail);
    DecodeAllEncoded(fmt, out + [f], tail);
  }

  // ---- a frame can be delivered ---------------------------------------------------------------------

  function HeadOf(f: Frame): seq<byte> { PutLens(Lens(f.fields)) }

  function ContentOf(f: Frame): seq<byte> { f.fixed + Join(f.fields) }

  /** The four steps that bring a frame to the point of being cut. */
  function Delivered(fmt: Format, f: Frame): Traced
  {
    var t := TracedStep(fmt, TracedStep(fmt, Traced(INIT, []), Arrive(HeadOf(f))), HeadDone);
    TracedStep(fmt, TracedStep(fmt, t, Arrive(ContentOf(f))), Rearm)
  }

  lemma CanDeliver(fmt: Format, f: Frame)
    requires fmt.Valid() && WellFormed(fmt, f)
    ensures Enabled(fmt, Delivered(fmt, f).reader, Decode)
    ensures TracedStep(fmt, TracedStep(fmt, Traced(INIT, []), Arrive(HeadOf(f))), HeadDone).bytes == HeadOf(f)
  {
    PutGetLens(Lens(f.fields));
    JoinLen(f.fields);
    NoWrap(fmt, Lens(f.fields));
    assert [] + HeadOf(f) == HeadOf(f) && HeadOf(f) + [] == HeadOf(f) && [] + ContentOf(f) == ContentOf(f);
  }

  /** The read loop in the source's own form: a fixed header buffer that is overwritten in
      place, the copied header, and the content buffer. */
  class ReadLoop {
    const fmt: Format
    const headBuf: array<byte>
    var headFill: nat
    var head: seq<u32>
    var content: seq<byte>
    var phase: Phase
    var out: seq<Frame>

    ghost predicate Valid()
      reads this
    {
      && fmt.Valid()
      && headBuf.Length == fmt.HeadLen()
      && headFill <= headBuf.Length
      && (!phase.ReadHead? ==> |head| == fmt.fields)
    }

    ghost function View(): State
      reads this, headBuf
      requires Valid()
    {
      State(phase, headBuf[..headFill], head, content, out)
    }

    constructor (fmt: Format)
      requires fmt.Valid()
      ensures Valid() && this.fmt == fmt && fresh(headBuf) && View() == INIT
    {
      this.fmt := fmt;
      headBuf := new byte[fmt.HeadLen()](_ => 0);
      headFill, head, content, phase, out := 0, [], [], ReadHead, [];
    }

    /** The socket stores bytes in the buffer of the outstanding read. */
    method OnBytes(chunk: seq<byte>)
      requires Valid() && Enabled(fmt, View(), Arrive(chunk))
      modifies this`headFill, this`content, headBuf
      ensures Valid() && View() == Step(fmt, old(View()), Arrive(chunk))
    {
      if phase == ReadContent {
        content := content + chunk;
      } else {
        ghost var was := headBuf[..headFill];
        var i := 0;
        while i < |chunk|
          modifies headBuf
          invariant 0 <= i <= |chunk| && headFill + |chunk| <= headBuf.Length
          invariant headBuf[..headFill] == was && headBuf[headFill..headFill + i] == chunk[..i]
        {
          headBuf[headFill + i] := chunk[i];
          i := i + 1;
        }
        headFill := headFill + |chunk|;
        assert headBuf[..headFill] == was + chunk;
      }
    }

    /** Handler of the header read: copy the header, then start the content read. */
    method OnHead()
      requires Valid() && Enabled(fmt, View(), HeadDone)
      modifies this`head, this`content, this`phase
      ensures Valid() && View() == Step(fmt, old(View()), HeadDone)
    {
      head := GetLens(headBuf[..headFill]);
      content := [];
      phase := ReadContent;
    }

    /** First half of the content handler: start the next header read. */
    method StartNextHead()
      requires Valid() && Enabled(fmt, View(), Rearm)
      modifies this`headFill, this`phase
      ensures Valid() && View() == Step(fmt, old(View()), Rearm)
    {
      headFill := 0;
      phase := Rearmed;
      assert headBuf[..headFill] == [];
    }

    /** Second half: cut the content with the copied header and hand the message on. */
    method DecodeContent()
      requires Valid() && Enabled(fmt, View(), Decode)
      modifies this`phase, this`out
      ensures Valid() && View() == Step(fmt, old(View()), Decode)
    {
      out := out + [Cut(fmt, head, content)];
      phase := ReadHead;
    }
  }
}
