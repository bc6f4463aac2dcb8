/** The three messages on the wire, their encoders and their decoders. Strings are byte strings,
    and the enums travel as the raw four bytes the code copies. */
module Protocol {
  import opened Basics
  import opened Bytes
  import opened Frames

  type i32 = x: int | -0x8000_0000 <= x < 0x8000_0000

  // serialize_mode and client_type of the calls made here
  const NON_SERIALIZE: u32 := 1
  const ASYNC_RPC_CLIENT: u32 := 1

  // rpc_error_code
  const OK: i32 := 0
  const ROUTE_FAILED: i32 := 1
  const REQUEST_TIMEOUT: i32 := 2

  datatype RequestContent = RequestContent(callId: u32, mode: u32, clientType: u32,
                                           protocol: seq<byte>, messageName: seq<byte>, body: seq<byte>)
  datatype ResponseContent = ResponseContent(callId: u32, code: i32, messageName: seq<byte>, body: seq<byte>)
  datatype PushContent = PushContent(mode: u32, protocol: seq<byte>, messageName: seq<byte>, body: seq<byte>)

  const REQUEST := Format(3, 12)
  const RESPONSE := Format(2, 8)
  const PUSH := Format(3, 4)

  function PutI32(x: i32): (b: seq<byte>)
    ensures |b| == 4
  {
    Put32(if x < 0 then x + U32 else x)
  }

  function GetI32(b: seq<byte>): (x: i32)
    requires |b| == 4
    ensures PutI32(x) == b
  {
    GetPut(b);
    var u := Get32(b);
    if u >= 0x8000_0000 then u - U32 else u
  }

  // ---- contents as frames ---------------------------------------------------------------

  function RequestFrame(c: RequestContent): (f: Frame)
    ensures Shaped(REQUEST, f)
  {
    Frame(Put32(c.callId) + Put32(c.mode) + Put32(c.clientType), [c.protocol, c.messageName, c.body])
  }

  function ResponseFrame(c: ResponseContent): (f: Frame)
    ensures Shaped(RESPONSE, f)
  {
    Frame(Put32(c.callId) + PutI32(c.code), [c.messageName, c.body])
  }

  function PushFrame(c: PushContent): (f: Frame)
    ensures Shaped(PUSH, f)
  {
    Frame(Put32(c.mode), [c.protocol, c.messageName, c.body])
  }

  // ---- encoders: the buffer is built by appending ----------------------------------------

  method RequestBuffer(c: RequestContent) returns (buffer: seq<byte>)
    ensures buffer == Encode(RequestFrame(c))
  {
    buffer := [];
    buffer := buffer + Put32(Truncate32(|c.protocol|));
    buffer := buffer + Put32(Truncate32(|c.messageName|));
    buffer := buffer + Put32(Truncate32(|c.body|));
    buffer := buffer + Put32(c.callId);
    buffer := buffer + Put32(c.mode) + Put32(c.clientType);
    buffer := buffer + c.protocol;
    buffer := buffer + c.messageName;
    buffer := buffer + c.body;
    Encode3(RequestFrame(c));
  }

  method ResponseBuffer(c: ResponseContent) returns (buffer: seq<byte>)
    ensures buffer == Encode(ResponseFrame(c))
  {
    buffer := [];
    buffer := buffer + Put32(Truncate32(|c.messageName|));
    buffer := buffer + Put32(Truncate32(|c.body|));
    buffer := buffer + Put32(c.callId);
    buffer := buffer + PutI32(c.code);
    buffer := buffer + c.messageName;
    buffer := buffer + c.body;
    Encode2(ResponseFrame(c));
  }

  method PushBuffer(c: PushContent) returns (buffer: seq<byte>)
    ensures buffer == Encode(PushFrame(c))
  {
    buffer := [];
    buffer := buffer + Put32(Truncate32(|c.protocol|));
    buffer := buffer + Put32(Truncate32(|c.messageName|));
    buffer := buffer + Put32(Truncate32(|c.body|));
    buffer := buffer + Put32(c.mode);
    buffer := buffer + c.protocol;
    buffer := buffer + c.messageName;
    buffer := buffer + c.body;
    Encode3(PushFrame(c));
  }

  lemma Encode3(f: Frame)
    requires |f.fields| == 3
    ensures Encode(f) == Put32(Truncate32(|f.fields[0]|)) + Put32(Truncate32(|f.fields[1]|))
                         + Put32(Truncate32(|f.fields[2]|)) + f.fixed
                         + f.fields[0] + f.fields[1] + f.fields[2]
  {
    var lens := Lens(f.fields);
    var l1, f1 := lens[1..], f.fields[1..];
    var l2, f2 := l1[1..], f1[1..];
    assert PutLens(l2) == Put32(lens[2]) + PutLens(l2[1..]) == Put32(lens[2]);
    assert PutLens(lens) == Put32(lens[0]) + (Put32(lens[1]) + Put32(lens[2]));
    assert Join(f2) == f.fields[2] + Join(f2[1..]) == f.fields[2];
    assert Join(f.fields) == f.fields[0] + (f.fields[1] + f.fields[2]);
  }

  lemma Encode2(f: Frame)
    requires |f.fields| == 2
    ensures Encode(f) == Put32(Truncate32(|f.fields[0]|)) + Put32(Truncate32(|f.fields[1]|)) + f.fixed
                         + f.fields[0] + f.fields[1]
  {
    var lens := Lens(f.fields);
    var l1, f1 := lens[1..], f.fields[1..];
    assert PutLens(l1) == Put32(lens[1]) + PutLens(l1[1..]) == Put32(lens[1]);
    assert Join(f1) == f.fields[1] + Join(f1[1..]) == f.fields[1];
  }

  // ---- decoders: the content buffer is cut at computed offsets ----------------------------

  /** Inverse of the request layout: the slices below are the cut of the content by its header. */
  function MakeRequest(head: seq<u32>, content: seq<byte>): (c: RequestContent)
    requires |head| == 3 && |content| == ContentLen(REQUEST, head)
    ensures 12 + Sum(head) == |content| && RequestFrame(c) == Cut(REQUEST, head, content)
  {
    NoWrap(REQUEST, head);
    GetPut(content[0..4]); GetPut(content[4..8]); GetPut(content[8..12]);
    assert content[..12] == content[0..4] + content[4..8] + content[8..12];
    var protocolLen: nat, messageNameLen: nat, bodyLen: nat := head[0], head[1], head[2];
    Cut3(REQUEST, head, content, protocolLen, messageNameLen, bodyLen);
    RequestContent(Get32(content[0..4]), Get32(content[4..8]), Get32(content[8..12]),
                   Slice(content, 12, protocolLen),
                   Slice(content, 12 + protocolLen, messageNameLen),
                   Slice(content, 12 + protocolLen + messageNameLen, bodyLen))
  }

  function MakeResponse(head: seq<u32>, content: seq<byte>): (c: ResponseContent)
    requires |head| == 2 && |content| == ContentLen(RESPONSE, head)
    ensures 8 + Sum(head) == |content| && ResponseFrame(c) == Cut(RESPONSE, head, content)
  {
    NoWrap(RESPONSE, head);
    GetPut(content[0..4]);
    assert content[..8] == content[0..4] + content[4..8];
    var messageNameLen: nat, bodyLen: nat := head[0], head[1];
    Cut2(RESPONSE, head, content, messageNameLen, bodyLen);
    ResponseContent(Get32(content[0..4]), GetI32(content[4..8]),
                    Slice(content, 8, messageNameLen),
                    Slice(content, 8 + messageNameLen, bodyLen))
  }

  function MakePush(head: seq<u32>, content: seq<byte>): (c: PushContent)
    requires |head| == 3 && |content| == ContentLen(PUSH, head)
    ensures 4 + Sum(head) == |content| && PushFrame(c) == Cut(PUSH, head, content)
  {
    NoWrap(PUSH, head);
    GetPut(content[0..4]);
    assert content[..4] == content[0..4];
    var protocolLen: nat, messageNameLen: nat, bodyLen: nat := head[0], head[1], head[2];
    Cut3(PUSH, head, content, protocolLen, messageNameLen, bodyLen);
    PushContent(Get32(content[0..4]),
                Slice(content, 4, protocolLen),
                Slice(content, 4 + protocolLen, messageNameLen),
                Slice(content, 4 + protocolLen + messageNameLen, bodyLen))
  }

  lemma Offsets(head: seq<u32>)
    requires 2 <= |head| <= 3
    ensures var n0: nat, n1: nat := head[0], head[1];
            && Sum(head[..0]) == 0 && Sum(head[..1]) == n0 && Sum(head[..2]) == n0 + n1
            && Sum(head) == n0 + n1 + (if |head| == 3 then head[2] else 0)
  {
    SumTake(head, 0);
    SumTake(head, 1);
    assert head[..|head|] == head;
    if |head| == 3 {
      SumTake(head, 2);
    }
  }

  lemma Listed3<T>(s: seq<T>, a: T, b: T, c: T)
    requires |s| == 3 && s[0] == a && s[1] == b && s[2] == c
    ensures s == [a, b, c]
  {
  }

  /** Every slice of a three-field content lies inside the content. */
  lemma Cut3(fmt: Format, head: seq<u32>, content: seq<byte>, n0: nat, n1: nat, n2: nat)
    requires |head| == 3 && n0 == head[0] && n1 == head[1] && n2 == head[2]
    requires fmt.fixedLen + Sum(head) == |content|
    ensures var k := fmt.fixedLen;
            && k + n0 + n1 + n2 == |content|
            && Cut(fmt, head, content).fields
               == [Slice(content, k, n0), Slice(content, k + n0, n1), Slice(content, k + n0 + n1, n2)]
  {
    var k, f := fmt.fixedLen, Cut(fmt, head, content);
    Offsets(head);
    FieldSlice(fmt, head, content, 0, k, n0);
    FieldSlice(fmt, head, content, 1, k + n0, n1);
    FieldSlice(fmt, head, content, 2, k + n0 + n1, n2);
    Listed3(f.fields, Slice(content, k, n0), Slice(content, k + n0, n1), Slice(content, k + n0 + n1, n2));
  }

  lemma Cut2(fmt: Format, head: seq<u32>, content: seq<byte>, n0: nat, n1: nat)
    requires |head| == 2 && n0 == head[0] && n1 == head[1]
    requires fmt.fixedLen + Sum(head) == |content|
    ensures var k := fmt.fixedLen;
            && k + n0 + n1 == |content|
            && Cut(fmt, head, content).fields == [Slice(content, k, n0), Slice(content, k + n0, n1)]
  {
    var k, f := fmt.fixedLen, Cut(fmt, head, content);
    Offsets(head);
    FieldSlice(fmt, head, content, 0, k, n0);
    FieldSlice(fmt, head, content, 1, k + n0, n1);
  }

  // ---- a message is determined by its frame ------------------------------------------------

  lemma RequestInjective(a: RequestContent, b: RequestContent)
    requires RequestFrame(a) == RequestFrame(b)
    ensures a == b
  {
    var p, q := RequestFrame(a).fixed, RequestFrame(b).fixed;
    assert p[..4] == Put32(a.callId) && p[4..8] == Put32(a.mode) && p[8..] == Put32(a.clientType);
    assert q[..4] == Put32(b.callId) && q[4..8] == Put32(b.mode) && q[8..] == Put32(b.clientType);
    PutGet(a.callId); PutGet(b.callId); PutGet(a.mode); PutGet(b.mode); PutGet(a.clientType); PutGet(b.clientType);
    Fields3(a.protocol, a.messageName, a.body, b.protocol, b.messageName, b.body);
  }

  lemma ResponseInjective(a: ResponseContent, b: ResponseContent)
    requires ResponseFrame(a) == ResponseFrame(b)
    ensures a == b
  {
    var p, q := ResponseFrame(a).fixed, ResponseFrame(b).fixed;
    assert p[..4] == Put32(a.callId) && p[4..] == PutI32(a.code);
    assert q[..4] == Put32(b.callId) && q[4..] == PutI32(b.code);
    PutGet(a.callId); PutGet(b.callId);
    PutGet(if a.code < 0 then a.code + U32 else a.code);
    PutGet(if b.code < 0 then b.code + U32 else b.code);
    Fields3(a.messageName, a.body, [], b.messageName, b.body, []);
  }

  lemma PushInjective(a: PushContent, b: PushContent)
    requires PushFrame(a) == PushFrame(b)
    ensures a == b
  {
    PutGet(a.mode); PutGet(b.mode);
    Fields3(a.protocol, a.messageName, a.body, b.protocol, b.messageName, b.body);
  }

  lemma Fields3<T>(a0: T, a1: T, a2: T, b0: T, b1: T, b2: T)
    ensures [a0, a1, a2] == [b0, b1, b2] ==> a0 == b0 && a1 == b1 && a2 == b2
    ensures [a0, a1] == [b0, b1] ==> a0 == b0 && a1 == b1
  {
  }

  // ---- whole streams of messages -----------------------------------------------------------

  function RequestOf(f: Frame): (c: RequestContent)
    requires WellFormed(REQUEST, f)
    ensures RequestFrame(c) == f
  {
    CutWhole(REQUEST, f);
    MakeRequest(Lens(f.fields), f.fixed + Join(f.fields))
  }

  function ResponseOf(f: Frame): (c: ResponseContent)
    requires WellFormed(RESPONSE, f)
    ensures ResponseFrame(c) == f
  {
    CutWhole(RESPONSE, f);
    MakeResponse(Lens(f.fields), f.fixed + Join(f.fields))
  }

  function PushOf(f: Frame): (c: PushContent)
    requires WellFormed(PUSH, f)
    ensures PushFrame(c) == f
  {
    CutWhole(PUSH, f);
    MakePush(Lens(f.fields), f.fixed + Join(f.fields))
  }

  lemma CutWhole(fmt: Format, f: Frame)
    requires fmt.Valid() && WellFormed(fmt, f)
    ensures var lens, content := Lens(f.fields), f.fixed + Join(f.fields);
            |content| == ContentLen(fmt, lens) == fmt.fixedLen + Sum(lens) && Cut(fmt, lens, content) == f
  {
    var content := f.fixed + Join(f.fields);
    JoinLen(f.fields);
    CutJoin(f.fields);
    NoWrap(fmt, Lens(f.fields));
    assert content[fmt.fixedLen..] == Join(f.fields);
  }

  function RequestFrames(cs: seq<RequestContent>): (fs: seq<Frame>)
    ensures |fs| == |cs| && forall i :: 0 <= i < |cs| ==> fs[i] == RequestFrame(cs[i])
  {
    seq(|cs|, i requires 0 <= i < |cs| => RequestFrame(cs[i]))
  }

  function ResponseFrames(cs: seq<ResponseContent>): (fs: seq<Frame>)
    ensures |fs| == |cs| && forall i :: 0 <= i < |cs| ==> fs[i] == ResponseFrame(cs[i])
  {
    seq(|cs|, i requires 0 <= i < |cs| => ResponseFrame(cs[i]))
  }

  function PushFrames(cs: seq<PushContent>): (fs: seq<Frame>)
    ensures |fs| == |cs| && forall i :: 0 <= i < |cs| ==> fs[i] == PushFrame(cs[i])
  {
    seq(|cs|, i requires 0 <= i < |cs| => PushFrame(cs[i]))
  }

  /** The requests complete in a byte string, in order. */
  function DecodeRequests(b: seq<byte>): (cs: seq<RequestContent>)
    ensures RequestFrames(cs) == DecodeAll(REQUEST, b).0
  {
    EncodeAllDecoded(REQUEST, b);
    var fs := DecodeAll(REQUEST, b).0;
    seq(|fs|, i requires 0 <= i < |fs| => RequestOf(fs[i]))
  }

  function DecodeResponses(b: seq<byte>): (cs: seq<ResponseContent>)
    ensures ResponseFrames(cs) == DecodeAll(RESPONSE, b).0
  {
    EncodeAllDecoded(RESPONSE, b);
    var fs := DecodeAll(RESPONSE, b).0;
    seq(|fs|, i requires 0 <= i < |fs| => ResponseOf(fs[i]))
  }

  function DecodePushes(b: seq<byte>): (cs: seq<PushContent>)
    ensures PushFrames(cs) == DecodeAll(PUSH, b).0
  {
    EncodeAllDecoded(PUSH, b);
    var fs := DecodeAll(PUSH, b).0;
    seq(|fs|, i requires 0 <= i < |fs| => PushOf(fs[i]))
  }

  predicate RequestShort(c: RequestContent)
  {
    |c.protocol| < U32 && |c.messageName| < U32 && |c.body| < U32
  }

  lemma RequestShortIff(c: RequestContent)
    ensures Short(RequestFrame(c)) <==> RequestShort(c)
  {
    var fields := RequestFrame(c).fields;
    assert fields[0] == c.protocol && fields[1] == c.messageName && fields[2] == c.body;
  }

  lemma RequestFramesInjective(a: seq<RequestContent>, b: seq<RequestContent>)
    requires RequestFrames(a) == RequestFrames(b)
    ensures a == b
  {
    var fs := RequestFrames(b);
    forall i | 0 <= i < |b| ensures a[i] == b[i] {
      assert fs[i] == RequestFrame(a[i]);
      RequestInjective(a[i], b[i]);
    }
  }

  /** What the server decodes is what a client encoded, message by message, if and only if no
      string of any request has 2^32 bytes or more. */
  lemma RequestStream(cs: seq<RequestContent>)
    ensures var b := EncodeAll(RequestFrames(cs));
            DecodeRequests(b) == cs && DecodeAll(REQUEST, b).1 == [] <==> forall i :: 0 <= i < |cs| ==> RequestShort(cs[i])
  {
    var fs := RequestFrames(cs);
    var ds := DecodeRequests(EncodeAll(fs));
    StreamRoundTrip(REQUEST, fs);
    forall i | 0 <= i < |cs| ensures Short(fs[i]) <==> RequestShort(cs[i]) {
      RequestShortIff(cs[i]);
    }
    if RequestFrames(ds) == fs {
      RequestFramesInjective(ds, cs);
    }
  }

  predicate ResponseShort(c: ResponseContent)
  {
    |c.messageName| < U32 && |c.body| < U32
  }

  lemma ResponseShortIff(c: ResponseContent)
    ensures Short(ResponseFrame(c)) <==> ResponseShort(c)
  {
    var fields := ResponseFrame(c).fields;
    assert fields[0] == c.messageName && fields[1] == c.body;
  }

  lemma ResponseFramesInjective(a: seq<ResponseContent>, b: seq<ResponseContent>)
    requires ResponseFrames(a) == ResponseFrames(b)
    ensures a == b
  {
    var fs := ResponseFrames(b);
    forall i | 0 <= i < |b| ensures a[i] == b[i] {
      assert fs[i] == ResponseFrame(a[i]);
      ResponseInjective(a[i], b[i]);
    }
  }

  lemma ResponseStream(cs: seq<ResponseContent>)
    ensures var b := EncodeAll(ResponseFrames(cs));
            DecodeResponses(b) == cs && DecodeAll(RESPONSE, b).1 == [] <==> forall i :: 0 <= i < |cs| ==> ResponseShort(cs[i])
  {
    var fs := ResponseFrames(cs);
    var ds := DecodeResponses(EncodeAll(fs));
    StreamRoundTrip(RESPONSE, fs);
    forall i | 0 <= i < |cs| ensures Short(fs[i]) <==> ResponseShort(cs[i]) {
      ResponseShortIff(cs[i]);
    }
    if ResponseFrames(ds) == fs {
      ResponseFramesInjective(ds, cs);
    }
  }

  predicate PushShort(c: PushContent)
  {
    |c.protocol| < U32 && |c.messageName| < U32 && |c.body| < U32
  }

  lemma PushShortIff(c: PushContent)
    ensures Short(PushFrame(c)) <==> PushShort(c)
  {
    var fields := PushFrame(c).fields;
    assert fields[0] == c.protocol && fields[1] == c.messageName && fields[2] == c.body;
  }

  lemma PushFramesInjective(a: seq<PushContent>, b: seq<PushContent>)
    requires PushFrames(a) == PushFrames(b)
    ensures a == b
  {
    var fs := PushFrames(b);
    forall i | 0 <= i < |b| ensures a[i] == b[i] {
      assert fs[i] == PushFrame(a[i]);
      PushInjective(a[i], b[i]);
    }
  }

  lemma PushStream(cs: seq<PushContent>)
    ensures var b := EncodeAll(PushFrames(cs));
            DecodePushes(b) == cs && DecodeAll(PUSH, b).1 == [] <==> forall i :: 0 <= i < |cs| ==> PushShort(cs[i])
  {
    var fs := PushFrames(cs);
    var ds := DecodePushes(EncodeAll(fs));
    StreamRoundTrip(PUSH, fs);
    forall i | 0 <= i < |cs| ensures Short(fs[i]) <==> PushShort(cs[i]) {
      PushShortIff(cs[i]);
    }
    if PushFrames(ds) == fs {
      PushFramesInjective(ds, cs);
    }
  }

  // ---- the smallest string that is too long -------------------------------------------------------

  /** A request whose body has 2^32 bytes arrives with an empty body, and the body that was sent is
      taken for the frames that follow. */
  lemma OversizedBody(c: RequestContent)
    requires |c.protocol| < U32 && |c.messageName| < U32 && |c.body| == U32
    ensures DecodeOne(REQUEST, Encode(RequestFrame(c))) == Some((RequestFrame(c.(body := [])), c.body))
  {
    var f := RequestFrame(c);
    var fields := [c.protocol, c.messageName];
    assert f.fields == fields + [c.body];
    assert RequestFrame(c.(body := [])).fields == fields + [[]];
    OversizedLastField(REQUEST, f.fixed, fields, c.body);
    assert c.body[..0] == [] && c.body[0..] == c.body;
  }

  // ---- the layout, byte by byte -------------------------------------------------------------------

  /** The four bytes at `at` are the number n, lowest byte first. */
  predicate Word(b: seq<byte>, at: nat, n: int)
  {
    && at + 4 <= |b|
    && var b0: int, b1: int, b2: int, b3: int := b[at], b[at + 1], b[at + 2], b[at + 3];
       n == b0 + 0x100 * b1 + 0x1_0000 * b2 + 0x100_0000 * b3
  }

  /** The bytes s lie at `at`. */
  predicate Text(b: seq<byte>, at: nat, s: seq<byte>) { at + |s| <= |b| && b[at..at + |s|] == s }

  lemma TextSplit(b: seq<byte>, at: nat, s: seq<byte>, t: seq<byte>)
    requires Text(b, at, s + t)
    ensures Text(b, at, s) && Text(b, at + |s|, t)
  {
    FirstOfConcat(s, t);
    var w := b[at..at + |s + t|];
    assert b[at..at + |s|] == w[..|s|] && b[at + |s|..at + |s| + |t|] == w[|s|..];
  }

  lemma WordByText(b: seq<byte>, at: nat, x: u32)
    requires Text(b, at, Put32(x))
    ensures Word(b, at, x)
  {
    PutGet(x);
    var w := b[at..at + 4];
    assert w[0] == b[at] && w[1] == b[at + 1] && w[2] == b[at + 2] && w[3] == b[at + 3];
  }

  lemma FirstLen(b: seq<byte>, at: nat, lens: seq<u32>)
    requires lens != [] && Text(b, at, PutLens(lens))
    ensures Word(b, at, lens[0]) && Text(b, at + 4, PutLens(lens[1..]))
  {
    TextSplit(b, at, Put32(lens[0]), PutLens(lens[1..]));
    WordByText(b, at, lens[0]);
  }

  lemma FirstField(b: seq<byte>, at: nat, fields: seq<seq<byte>>)
    requires fields != [] && Text(b, at, Join(fields))
    ensures Text(b, at, fields[0]) && Text(b, at + |fields[0]|, Join(fields[1..]))
  {
    TextSplit(b, at, fields[0], Join(fields[1..]));
  }

  lemma FrameParts(f: Frame)
    ensures var b, h := Encode(f), 4 * |f.fields|;
            && Text(b, 0, PutLens(Lens(f.fields))) && Text(b, h, f.fixed) && Text(b, h + |f.fixed|, Join(f.fields))
            && |b| == h + |f.fixed| + |Join(f.fields)|
  {
    var b, head := Encode(f), PutLens(Lens(f.fields));
    assert b[0..|b|] == b;
    TextSplit(b, 0, head + f.fixed, Join(f.fields));
    TextSplit(b, 0, head, f.fixed);
  }

  lemma ThreeLens(b: seq<byte>, lens: seq<u32>)
    requires |lens| == 3 && Text(b, 0, PutLens(lens))
    ensures Word(b, 0, lens[0]) && Word(b, 4, lens[1]) && Word(b, 8, lens[2])
  {
    FirstLen(b, 0, lens);
    FirstLen(b, 4, lens[1..]);
    FirstLen(b, 8, lens[1..][1..]);
  }

  lemma ThreeTexts(b: seq<byte>, at: nat, fs: seq<seq<byte>>, x: seq<byte>, y: seq<byte>, z: seq<byte>)
    requires fs == [x, y, z] && Text(b, at, Join(fs))
    ensures Text(b, at, x) && Text(b, at + |x|, y) && Text(b, at + |x| + |y|, z) && |Join(fs)| == |x| + |y| + |z|
  {
    assert fs[1..] == [y, z] && [y, z][1..] == [z];
    FirstField(b, at, fs);
    FirstField(b, at + |x|, [y, z]);
    JoinOne(z);
  }

  /** The lengths and the strings of a frame with three strings. */
  lemma ThreeStrings(f: Frame)
    requires |f.fields| == 3
    ensures var b, at, x, y, z := Encode(f), 12 + |f.fixed|, f.fields[0], f.fields[1], f.fields[2];
            && Word(b, 0, |x| % U32) && Word(b, 4, |y| % U32) && Word(b, 8, |z| % U32) && Text(b, 12, f.fixed)
            && Text(b, at, x) && Text(b, at + |x|, y) && Text(b, at + |x| + |y|, z) && |b| == at + |x| + |y| + |z|
  {
    FrameParts(f);
    ThreeLens(Encode(f), Lens(f.fields));
    ThreeTexts(Encode(f), 12 + |f.fixed|, f.fields, f.fields[0], f.fields[1], f.fields[2]);
  }

  lemma TwoStrings(f: Frame)
    requires |f.fields| == 2
    ensures var b, at, x, y := Encode(f), 8 + |f.fixed|, f.fields[0], f.fields[1];
            && Word(b, 0, |x| % U32) && Word(b, 4, |y| % U32) && Text(b, 8, f.fixed)
            && Text(b, at, x) && Text(b, at + |x|, y) && |b| == at + |x| + |y|
  {
    var b, at, lens, fs := Encode(f), 8 + |f.fixed|, Lens(f.fields), f.fields;
    FrameParts(f);
    FirstLen(b, 0, lens);
    FirstLen(b, 4, lens[1..]);
    FirstField(b, at, fs);
    FirstField(b, at + |fs[0]|, fs[1..]);
    JoinOne(fs[1]);
    assert fs[1..] == [fs[1]];
  }

  /** A request on the wire: lengths of protocol, message name and body, id, mode, client type, and
      then the three strings back to back up to the end. */
  lemma RequestLayout(c: RequestContent)
    ensures var b, p, n := Encode(RequestFrame(c)), |c.protocol|, |c.messageName|;
            && Word(b, 0, p % U32) && Word(b, 4, n % U32) && Word(b, 8, |c.body| % U32)
            && Word(b, 12, c.callId) && Word(b, 16, c.mode) && Word(b, 20, c.clientType)
            && Text(b, 24, c.protocol) && Text(b, 24 + p, c.messageName) && Text(b, 24 + p + n, c.body)
            && |b| == 24 + p + n + |c.body|
  {
    var f := RequestFrame(c);
    var b := Encode(f);
    ThreeStrings(f);
    TextSplit(b, 12, Put32(c.callId) + Put32(c.mode), Put32(c.clientType));
    TextSplit(b, 12, Put32(c.callId), Put32(c.mode));
    WordByText(b, 12, c.callId);
    WordByText(b, 16, c.mode);
    WordByText(b, 20, c.clientType);
  }

  /** A response on the wire: lengths of message name and body, id, code in two's complement, and
      the two strings. */
  lemma ResponseLayout(c: ResponseContent)
    ensures var b, n := Encode(ResponseFrame(c)), |c.messageName|;
            && Word(b, 0, n % U32) && Word(b, 4, |c.body| % U32) && Word(b, 8, c.callId)
            && Word(b, 12, if c.code < 0 then c.code + U32 else c.code)
            && Text(b, 16, c.messageName) && Text(b, 16 + n, c.body) && |b| == 16 + n + |c.body|
  {
    var f := ResponseFrame(c);
    var b := Encode(f);
    TwoStrings(f);
    TextSplit(b, 8, Put32(c.callId), PutI32(c.code));
    WordByText(b, 8, c.callId);
    WordByText(b, 12, if c.code < 0 then c.code + U32 else c.code);
  }

  /** A push on the wire: lengths of protocol, message name and body, mode, and the three strings. */
  lemma PushLayout(c: PushContent)
    ensures var b, p, n := Encode(PushFrame(c)), |c.protocol|, |c.messageName|;
            && Word(b, 0, p % U32) && Word(b, 4, n % U32) && Word(b, 8, |c.body| % U32) && Word(b, 12, c.mode)
            && Text(b, 16, c.protocol) && Text(b, 16 + p, c.messageName) && Text(b, 16 + p + n, c.body)
            && |b| == 16 + p + n + |c.body|
  {
    ThreeStrings(PushFrame(c));
    WordByText(Encode(PushFrame(c)), 12, c.mode);
  }
}
