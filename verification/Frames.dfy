/** The length-prefixed frame layout shared by requests, responses and pushes: a header of
    four-byte lengths, a fixed-size part, then the variable fields back to back. */
module Frames {
  import opened Basics
  import opened Bytes

  /** How many variable fields a format has and how many fixed bytes precede them. */
  datatype Format = Format(fields: nat, fixedLen: nat)
  {
    predicate Valid() { 0 < fields <= 3 && 0 < fixedLen <= 12 }

    function HeadLen(): nat { 4 * fields }
  }

  datatype Frame = Frame(fixed: seq<byte>, fields: seq<seq<byte>>)

  /** The assumption every format rests on: no field is longer than its length word can say. */
  predicate Short(f: Frame)
  {
    forall i :: 0 <= i < |f.fields| ==> |f.fields[i]| < U32
  }

  predicate Shaped(fmt: Format, f: Frame)
  {
    |f.fixed| == fmt.fixedLen && |f.fields| == fmt.fields
  }

  predicate WellFormed(fmt: Format, f: Frame)
  {
    Shaped(fmt, f) && Short(f)
  }

  // ---- encoding -------------------------------------------------------------------------

  function Lens(fields: seq<seq<byte>>): (lens: seq<u32>)
    ensures |lens| == |fields|
    ensures forall i :: 0 <= i < |lens| ==> lens[i] == Truncate32(|fields[i]|)
  {
    seq(|fields|, i requires 0 <= i < |fields| => Truncate32(|fields[i]|))
  }

  function PutLens(lens: seq<u32>): (b: seq<byte>)
    ensures |b| == 4 * |lens|
  {
    if lens == [] then [] else Put32(lens[0]) + PutLens(lens[1..])
  }

  function Join(fields: seq<seq<byte>>): seq<byte>
  {
    if fields == [] then [] else fields[0] + Join(fields[1..])
  }

  function Encode(f: Frame): (b: seq<byte>)
  {
    PutLens(Lens(f.fields)) + f.fixed + Join(f.fields)
  }

  function EncodeAll(fs: seq<Frame>): seq<byte>
  {
    if fs == [] then [] else Encode(fs[0]) + EncodeAll(fs[1..])
  }

  // ---- decoding -------------------------------------------------------------------------

  function GetLens(b: seq<byte>): (lens: seq<u32>)
    requires |b| % 4 == 0
    ensures 4 * |lens| == |b|
  {
    if b == [] then [] else [Get32(b[..4])] + GetLens(b[4..])
  }

  function Sum(lens: seq<u32>): nat
  {
    if lens == [] then 0 else lens[0] + Sum(lens[1..])
  }

  /** The content size as the code computes it, in 64-bit unsigned arithmetic. */
  function ContentLen(fmt: Format, lens: seq<u32>): nat
  {
    (fmt.fixedLen + Sum(lens)) % U64
  }

  function CutFields(lens: seq<u32>, b: seq<byte>): (fields: seq<seq<byte>>)
    requires Sum(lens) <= |b|
    ensures |fields| == |lens|
  {
    if lens == [] then [] else [b[..lens[0]]] + CutFields(lens[1..], b[lens[0]..])
  }

  /** Cuts a complete content buffer with the lengths of a header. */
  function Cut(fmt: Format, lens: seq<u32>, content: seq<byte>): (f: Frame)
    requires fmt.fixedLen + Sum(lens) == |content|
  {
    Frame(content[..fmt.fixedLen], CutFields(lens, content[fmt.fixedLen..]))
  }

  /** The first frame of a byte string, if all of it is there, and the bytes after it. */
  function DecodeOne(fmt: Format, b: seq<byte>): (r: Option<(Frame, seq<byte>)>)
    requires fmt.Valid()
    ensures r.Some? ==> |r.value.1| < |b|
  {
    if |b| < fmt.HeadLen() then None
    else
      var lens := GetLens(b[..fmt.HeadLen()]);
      NoWrap(fmt, lens);
      var end := fmt.HeadLen() + ContentLen(fmt, lens);
      if |b| < end then None
      else Some((Cut(fmt, lens, b[fmt.HeadLen()..end]), b[end..]))
  }

  /** Every complete frame of a byte string, in order, and the unfinished rest. */
  function DecodeAll(fmt: Format, b: seq<byte>): (r: (seq<Frame>, seq<byte>))
    requires fmt.Valid()
    decreases |b|
  {
    match DecodeOne(fmt, b)
    case None => ([], b)
    case Some((f, rest)) =>
      var (fs, tail) := DecodeAll(fmt, rest);
      ([f] + fs, tail)
  }

  // ---- helpers --------------------------------------------------------------------------

  lemma Assoc<T>(a: seq<T>, b: seq<T>, c: seq<T>)
    ensures (a + b) + c == a + (b + c)
  {
  }

  lemma TakeDrop<T>(a: seq<T>, n: nat)
    requires n <= |a|
    ensures a[..n] + a[n..] == a && a + [] == a
  {
  }

  lemma TakeMore<T>(a: seq<T>, i: nat, j: nat)
    requires i <= j <= |a|
    ensures a[..i] + a[i..j] == a[..j]
  {
  }

  lemma ThreeParts<T>(b: seq<T>, h: nat, end: nat)
    requires h <= end <= |b|
    ensures b[..h] + b[h..end] + b[end..] == b
  {
  }

  lemma SumBound(lens: seq<u32>)
    ensures Sum(lens) <= |lens| * U32
  {
  }

  /** A content size never wraps in 64 bits, whatever the header says, and is never zero. */
  lemma NoWrap(fmt: Format, lens: seq<u32>)
    requires fmt.Valid() && |lens| == fmt.fields
    ensures ContentLen(fmt, lens) == fmt.fixedLen + Sum(lens)
    ensures 0 < ContentLen(fmt, lens) < U64
  {
    SumBound(lens);
  }

  lemma PutGetLens(lens: seq<u32>)
    ensures GetLens(PutLens(lens)) == lens
  {
    if lens != [] {
      PutGet(lens[0]);
      PutGetLens(lens[1..]);
      assert PutLens(lens)[..4] == Put32(lens[0]);
      assert PutLens(lens)[4..] == PutLens(lens[1..]);
    }
  }

  lemma GetPutLens(b: seq<byte>)
    requires |b| % 4 == 0
    ensures PutLens(GetLens(b)) == b
  {
    if b != [] {
      GetPut(b[..4]);
      GetPutLens(b[4..]);
      var lens := GetLens(b);
      assert lens[0] == Get32(b[..4]) && lens[1..] == GetLens(b[4..]);
      TakeDrop(b, 4);
    }
  }

  lemma {:induction false} JoinLen(fields: seq<seq<byte>>)
    requires forall i :: 0 <= i < |fields| ==> |fields[i]| < U32
    ensures Sum(Lens(fields)) == |Join(fields)|
  {
    if fields != [] {
      JoinLen(fields[1..]);
      assert Lens(fields)[1..] == Lens(fields[1..]);
    }
  }

  lemma {:induction false} CutJoin(fields: seq<seq<byte>>)
    requires forall i :: 0 <= i < |fields| ==> |fields[i]| < U32
    ensures Sum(Lens(fields)) == |Join(fields)| && CutFields(Lens(fields), Join(fields)) == fields
  {
    if fields != [] {
      var rest := fields[1..];
      CutJoin(rest);
      CutFirst(fields[0], Lens(rest), Join(rest));
      assert Lens(fields) == [Truncate32(|fields[0]|)] + Lens(rest);
      assert fields == [fields[0]] + rest;
    }
  }

  lemma CutFirst(x: seq<byte>, lens: seq<u32>, b: seq<byte>)
    requires |x| < U32 && Sum(lens) == |b|
    ensures var all := [Truncate32(|x|)] + lens;
            Sum(all) == |x + b| && CutFields(all, x + b) == [x] + CutFields(lens, b)
  {
    var all := [Truncate32(|x|)] + lens;
    assert all[1..] == lens && all[0] == |x|;
    FirstOfConcat(x, b);
  }

  lemma FirstOfConcat<T>(a: seq<T>, b: seq<T>)
    ensures (a + b)[..|a|] == a && (a + b)[|a|..] == b
  {
  }

  lemma {:induction false} JoinCut(lens: seq<u32>, b: seq<byte>)
    requires Sum(lens) == |b|
    ensures Join(CutFields(lens, b)) == b && Lens(CutFields(lens, b)) == lens
    ensures forall i :: 0 <= i < |lens| ==> |CutFields(lens, b)[i]| == lens[i]
  {
    if lens != [] {
      JoinCut(lens[1..], b[lens[0]..]);
      assert CutFields(lens, b)[1..] == CutFields(lens[1..], b[lens[0]..]);
      assert b == b[..lens[0]] + b[lens[0]..];
      forall i | 0 <= i < |lens| ensures |CutFields(lens, b)[i]| == lens[i] {
        if i > 0 {
          assert CutFields(lens, b)[i] == CutFields(lens[1..], b[lens[0]..])[i - 1];
        }
      }
    }
  }

  lemma {:induction false} SumTake(lens: seq<u32>, i: nat)
    requires i < |lens|
    ensures Sum(lens[..i + 1]) == Sum(lens[..i]) + lens[i] <= Sum(lens)
  {
    var head := lens[..i + 1];
    if i == 0 {
      assert head[1..] == [];
    } else {
      SumTake(lens[1..], i - 1);
      assert head[1..] == lens[1..][..i] && lens[..i][1..] == lens[1..][..i - 1];
    }
  }

  /** `n` bytes at offset `at`: what string::assign(&buffer[at], n) copies. */
  function Slice(b: seq<byte>, at: nat, n: nat): (s: seq<byte>)
    requires at + n <= |b|
  {
    b[at..][..n]
  }

  lemma SliceDrop(b: seq<byte>, k: nat, at: nat, n: nat)
    requires k + at + n <= |b|
    ensures Slice(b[k..], at, n) == Slice(b, k + at, n)
  {
  }

  lemma {:induction false} CutFieldsAt(lens: seq<u32>, b: seq<byte>, i: nat)
    requires Sum(lens) <= |b| && i < |lens|
    ensures Sum(lens[..i]) + lens[i] <= |b| && CutFields(lens, b)[i] == Slice(b, Sum(lens[..i]), lens[i])
  {
    SumTake(lens, i);
    if i > 0 {
      CutFieldsAt(lens[1..], b[lens[0]..], i - 1);
      assert lens[..i][1..] == lens[1..][..i - 1];
      SliceDrop(b, lens[0], Sum(lens[1..][..i - 1]), lens[i]);
    }
  }

  /** Field i is the slice that starts where the fields before it end, inside the content. */
  lemma FieldSlice(fmt: Format, lens: seq<u32>, content: seq<byte>, i: nat, at: nat, n: nat)
    requires fmt.fixedLen + Sum(lens) == |content| && i < |lens|
    requires at == fmt.fixedLen + Sum(lens[..i]) && n == lens[i]
    ensures at + n <= |content| && Cut(fmt, lens, content).fields[i] == Slice(content, at, n)
  {
    CutFieldsAt(lens, content[fmt.fixedLen..], i);
    SliceDrop(content, fmt.fixedLen, at - fmt.fixedLen, n);
  }

  lemma EncodeLen(fmt: Format, f: Frame)
    requires fmt.Valid() && WellFormed(fmt, f)
    ensures |Encode(f)| == fmt.HeadLen() + ContentLen(fmt, Lens(f.fields)) > 0
  {
    JoinLen(f.fields);
    NoWrap(fmt, Lens(f.fields));
  }

  // ---- one frame ------------------------------------------------------------------------

  /** Decoding undoes encoding and leaves whatever follows the frame. */
  lemma DecodeEncoded(fmt: Format, f: Frame, rest: seq<byte>)
    requires fmt.Valid() && WellFormed(fmt, f)
    ensures DecodeOne(fmt, Encode(f) + rest) == Some((f, rest))
  {
    var b := Encode(f) + rest;
    var lens := Lens(f.fields);
    var h := fmt.HeadLen();
    EncodeLen(fmt, f);
    PutGetLens(lens);
    JoinLen(f.fields);
    NoWrap(fmt, lens);
    assert b[..h] == PutLens(lens);
    var end := h + ContentLen(fmt, lens);
    assert b[h..end] == f.fixed + Join(f.fields);
    assert b[h..end][fmt.fixedLen..] == Join(f.fields);
    assert b[end..] == rest;
    CutJoin(f.fields);
  }

  /** Re-encoding a decoded frame restores its bytes, and a decoded frame is well formed. */
  lemma EncodeDecoded(fmt: Format, b: seq<byte>)
    requires fmt.Valid() && DecodeOne(fmt, b).Some?
    ensures WellFormed(fmt, DecodeOne(fmt, b).value.0)
    ensures Encode(DecodeOne(fmt, b).value.0) + DecodeOne(fmt, b).value.1 == b
  {
    var h := fmt.HeadLen();
    var lens := GetLens(b[..h]);
    NoWrap(fmt, lens);
    var end := h + ContentLen(fmt, lens);
    CutRestores(fmt, lens, b[h..end]);
    GetPutLens(b[..h]);
    ThreeParts(b, h, end);
  }

  /** Cutting a full content buffer loses nothing and gives the lengths of its own header. */
  lemma CutRestores(fmt: Format, lens: seq<u32>, content: seq<byte>)
    requires fmt.Valid() && |lens| == fmt.fields && fmt.fixedLen + Sum(lens) == |content|
    ensures var f := Cut(fmt, lens, content);
            WellFormed(fmt, f) && Encode(f) == PutLens(lens) + content && Lens(f.fields) == lens
  {
    var f := Cut(fmt, lens, content);
    var rest := content[fmt.fixedLen..];
    JoinCut(lens, rest);
    TakeDrop(content, fmt.fixedLen);
    Assoc(PutLens(lens), f.fixed, rest);
    ShortByLens(f, lens);
  }

  lemma ShortByLens(f: Frame, lens: seq<u32>)
    requires |f.fields| == |lens| && forall i :: 0 <= i < |lens| ==> |f.fields[i]| == lens[i]
    ensures Short(f)
  {
    forall i | 0 <= i < |f.fields| ensures |f.fields[i]| < U32 {
      assert |f.fields[i]| == lens[i];
    }
  }

  /** Bytes after a complete frame change nothing about it. */
  lemma DecodeOneExtends(fmt: Format, p: seq<byte>, q: seq<byte>)
    requires fmt.Valid() && DecodeOne(fmt, p).Some?
    ensures DecodeOne(fmt, p + q) == Some((DecodeOne(fmt, p).value.0, DecodeOne(fmt, p).value.1 + q))
  {
    var (g, rest) := DecodeOne(fmt, p).value;
    EncodeDecoded(fmt, p);
    Assoc(Encode(g), rest, q);
    DecodeEncoded(fmt, g, rest + q);
  }

  /** A frame cut off before its last byte decodes to nothing. */
  lemma StrictPrefixDecodesToNothing(fmt: Format, f: Frame, n: nat)
    requires fmt.Valid() && WellFormed(fmt, f) && n < |Encode(f)|
    ensures DecodeOne(fmt, Encode(f)[..n]) == None
  {
    var p, q := Encode(f)[..n], Encode(f)[n..];
    TakeDrop(Encode(f), n);
    DecodeEncoded(fmt, f, []);
    TakeDrop(Encode(f), |Encode(f)|);
    if DecodeOne(fmt, p).Some? {
      DecodeOneExtends(fmt, p, q);
    }
  }

  // ---- streams --------------------------------------------------------------------------

  predicate AllWellFormed(fmt: Format, fs: seq<Frame>)
  {
    forall i :: 0 <= i < |fs| ==> WellFormed(fmt, fs[i])
  }

  /** No frame is complete in the bytes `b`. */
  ghost predicate Unfinished(fmt: Format, b: seq<byte>)
    requires fmt.Valid()
  {
    DecodeOne(fmt, b) == None
  }

  lemma {:induction false} EncodeAllAppend(a: seq<Frame>, b: seq<Frame>)
    ensures EncodeAll(a + b) == EncodeAll(a) + EncodeAll(b)
  {
    if a == [] {
      assert a + b == b;
    } else {
      EncodeAllAppend(a[1..], b);
      var ab := a + b;
      assert ab[1..] == a[1..] + b && ab[0] == a[0] && ab != [];
      Assoc(Encode(a[0]), EncodeAll(a[1..]), EncodeAll(b));
    }
  }

  lemma EncodeAllSnoc(fs: seq<Frame>, f: Frame)
    ensures EncodeAll(fs + [f]) == EncodeAll(fs) + Encode(f)
  {
    EncodeAllAppend(fs, [f]);
    assert [f][1..] == [];
    assert EncodeAll([f]) == Encode(f) + [] == Encode(f);
  }

  lemma DecodeAllFirst(fmt: Format, b: seq<byte>, f: Frame, rest: seq<byte>)
    requires fmt.Valid() && DecodeOne(fmt, b) == Some((f, rest))
    ensures DecodeAll(fmt, b) == ([f] + DecodeAll(fmt, rest).0, DecodeAll(fmt, rest).1)
  {
  }

  /** Any list of frames followed by an unfinished one decodes to exactly that list. */
  lemma {:induction false} DecodeAllEncoded(fmt: Format, fs: seq<Frame>, tail: seq<byte>)
    requires fmt.Valid() && AllWellFormed(fmt, fs) && Unfinished(fmt, tail)
    ensures DecodeAll(fmt, EncodeAll(fs) + tail) == (fs, tail)
  {
    if fs == [] {
      assert EncodeAll(fs) + tail == tail;
    } else {
      var f, gs := fs[0], fs[1..];
      Assoc(Encode(f), EncodeAll(gs), tail);
      var rest := EncodeAll(gs) + tail;
      DecodeEncoded(fmt, f, rest);
      DecodeAllEncoded(fmt, gs, tail);
      DecodeAllFirst(fmt, Encode(f) + rest, f, rest);
      assert fs == [f] + gs;
    }
  }

  /** Any byte string at all is the encoding of what it decodes to plus an unfinished rest. */
  lemma {:induction false} EncodeAllDecoded(fmt: Format, b: seq<byte>)
    requires fmt.Valid()
    ensures var (fs, tail) := DecodeAll(fmt, b);
            AllWellFormed(fmt, fs) && Unfinished(fmt, tail) && EncodeAll(fs) + tail == b
    decreases |b|
  {
    if DecodeOne(fmt, b).Some? {
      var (f, rest) := DecodeOne(fmt, b).value;
      EncodeDecoded(fmt, b);
      EncodeAllDecoded(fmt, rest);
      var (fs, tail) := DecodeAll(fmt, b);
      var gs := DecodeAll(fmt, rest).0;
      assert fs == [f] + gs && fs[1..] == gs;
      Assoc(Encode(f), EncodeAll(gs), tail);
    }
  }

  /** The stream round trip, and exactly when it holds: a list of frames survives encoding
      and decoding if and only if none of its fields outgrows a four-byte length. */
  lemma StreamRoundTrip(fmt: Format, fs: seq<Frame>)
    requires fmt.Valid() && (forall i :: 0 <= i < |fs| ==> Shaped(fmt, fs[i]))
    ensures DecodeAll(fmt, EncodeAll(fs)) == (fs, []) <==> forall i :: 0 <= i < |fs| ==> Short(fs[i])
  {
    if forall i :: 0 <= i < |fs| ==> Short(fs[i]) {
      DecodeAllEncoded(fmt, fs, []);
      assert EncodeAll(fs) + [] == EncodeAll(fs);
    } else {
      EncodeAllDecoded(fmt, EncodeAll(fs));
    }
  }

  lemma {:induction false} JoinAppend(a: seq<seq<byte>>, b: seq<seq<byte>>)
    ensures Join(a + b) == Join(a) + Join(b)
  {
    if a == [] {
      assert a + b == b;
    } else {
      JoinAppend(a[1..], b);
      assert (a + b)[1..] == a[1..] + b;
      Assoc(a[0], Join(a[1..]), Join(b));
    }
  }

  /** What happens to a frame whose last field is too long for its length word: the field is cut
      to its length modulo 2^32, and the rest of it is taken for the frames that follow. */
  lemma OversizedLastField(fmt: Format, fixed: seq<byte>, fields: seq<seq<byte>>, last: seq<byte>)
    requires fmt.Valid() && Shaped(fmt, Frame(fixed, fields + [last])) && Short(Frame(fixed, fields))
    ensures var n: nat := Truncate32(|last|);
            && n <= |last|
            && DecodeOne(fmt, Encode(Frame(fixed, fields + [last])))
               == Some((Frame(fixed, fields + [last[..n]]), last[n..]))
  {
    var n: nat := Truncate32(|last|);
    var f, g := Frame(fixed, fields + [last]), Frame(fixed, fields + [last[..n]]);
    var rest := last[n..];
    assert Lens(f.fields) == Lens(g.fields);
    LastFieldSplits(fields, last, n);
    Assoc(PutLens(Lens(g.fields)) + fixed, Join(g.fields), rest);
    DecodeEncoded(fmt, g, rest);
  }

  lemma LastFieldSplits(fields: seq<seq<byte>>, last: seq<byte>, n: nat)
    requires n <= |last|
    ensures Join(fields + [last]) == Join(fields + [last[..n]]) + last[n..]
  {
    JoinAppend(fields, [last]);
    JoinAppend(fields, [last[..n]]);
    JoinOne(last);
    JoinOne(last[..n]);
    Assoc(Join(fields), last[..n], last[n..]);
    TakeDrop(last, n);
  }

  lemma JoinOne(x: seq<byte>)
    ensures Join([x]) == x
  {
    assert [x][1..] == [];
    assert x + [] == x;
  }

  /** Decoding is incremental: a prefix's frames stand whatever bytes come later, and the
      rest picks up where the prefix left off. */
  lemma DecodeAllSplit(fmt: Format, a: seq<byte>, b: seq<byte>)
    requires fmt.Valid()
    ensures var (fs, tail) := DecodeAll(fmt, a);
            var (gs, rest) := DecodeAll(fmt, tail + b);
            DecodeAll(fmt, a + b) == (fs + gs, rest)
  {
    var (fs, tail) := DecodeAll(fmt, a);
    var (gs, rest) := DecodeAll(fmt, tail + b);
    EncodeAllDecoded(fmt, a);
    EncodeAllDecoded(fmt, tail + b);
    EncodeAllAppend(fs, gs);
    Assoc(EncodeAll(fs), tail, b);
    Assoc(EncodeAll(fs), EncodeAll(gs), rest);
    DecodeAllEncoded(fmt, fs + gs, rest);
  }

  /** Any initial bytes of some frames and an unfinished one decode to an initial part of those
      frames, and all the bytes to all the frames. */
  lemma PartOfStream(fmt: Format, fs: seq<Frame>, tail: seq<byte>, b: seq<byte>)
    requires fmt.Valid() && AllWellFormed(fmt, fs) && Unfinished(fmt, tail)
    requires b <= EncodeAll(fs) + tail
    ensures DecodeAll(fmt, b).0 <= fs
    ensures b == EncodeAll(fs) + tail ==> DecodeAll(fmt, b).0 == fs
  {
    DecodeAllEncoded(fmt, fs, tail);
    DecodedOfPrefix(fmt, EncodeAll(fs) + tail, b);
  }

  /** More bytes only add frames. */
  lemma DecodedOfPrefix(fmt: Format, all: seq<byte>, b: seq<byte>)
    requires fmt.Valid() && b <= all
    ensures DecodeAll(fmt, b).0 <= DecodeAll(fmt, all).0
  {
    var rest := all[|b|..];
    assert all == b + rest;
    DecodeAllSplit(fmt, b, rest);
  }

  /** If a whole frame more had arrived, it would have been decoded. */
  lemma NextFrameDoesNotFit(fmt: Format, fs: seq<Frame>, n: nat, k: nat)
    requires fmt.Valid() && AllWellFormed(fmt, fs) && n <= |EncodeAll(fs)| && k <= |fs|
    requires |EncodeAll(fs[..k])| <= n
    ensures k <= |DecodeAll(fmt, EncodeAll(fs)[..n]).0|
  {
    var c, d := EncodeAll(fs[..k]), EncodeAll(fs[k..]);
    TakeDrop(fs, k);
    EncodeAllAppend(fs[..k], fs[k..]);
    TakeOfConcat(c, d, n);
    TakeDrop(c, |c|);
    DecodeAllEncoded(fmt, fs[..k], []);
    DecodedOfPrefix(fmt, c + d[..n - |c|], c);
  }

  lemma TakeOfConcat<T>(c: seq<T>, d: seq<T>, n: nat)
    requires |c| <= n <= |c| + |d|
    ensures (c + d)[..n] == c + d[..n - |c|]
  {
  }

  /** The bytes of what was decoded had all arrived. */
  lemma DecodedFits(fmt: Format, fs: seq<Frame>, n: nat, k: nat)
    requires fmt.Valid() && AllWellFormed(fmt, fs) && n <= |EncodeAll(fs)|
    requires k <= |DecodeAll(fmt, EncodeAll(fs)[..n]).0|
    ensures DecodeAll(fmt, EncodeAll(fs)[..n]).0 <= fs && |EncodeAll(fs[..k])| <= n
  {
    var p := EncodeAll(fs)[..n];
    var gs := DecodeAll(fmt, p).0;
    EncodeAllDecoded(fmt, p);
    TakeDrop(EncodeAll(fs), n);
    PartOfStream(fmt, fs, [], p);
    EncodeAllMonotone(fmt, fs, k, |gs|);
    assert fs[..|gs|] == gs;
  }

  /** Any byte prefix of a stream of frames decodes to exactly the frames complete in it:
      the first k, where frame k is the first not to fit. */
  lemma PrefixDecodesToCompleteFrames(fmt: Format, fs: seq<Frame>, n: nat, k: nat)
    requires fmt.Valid() && AllWellFormed(fmt, fs) && n <= |EncodeAll(fs)| && k <= |fs|
    ensures DecodeAll(fmt, EncodeAll(fs)[..n]).0 == fs[..k] <==>
            |EncodeAll(fs[..k])| <= n && (k < |fs| ==> n < |EncodeAll(fs[..k + 1])|)
  {
    FitsIffDecoded(fmt, fs, n, k);
    if k < |fs| {
      FitsIffDecoded(fmt, fs, n, k + 1);
    }
    PrefixByLength(DecodeAll(fmt, EncodeAll(fs)[..n]).0, fs, k);
  }

  lemma FitsIffDecoded(fmt: Format, fs: seq<Frame>, n: nat, k: nat)
    requires fmt.Valid() && AllWellFormed(fmt, fs) && n <= |EncodeAll(fs)| && k <= |fs|
    ensures var gs := DecodeAll(fmt, EncodeAll(fs)[..n]).0;
            gs <= fs && (k <= |gs| <==> |EncodeAll(fs[..k])| <= n)
  {
    DecodedFits(fmt, fs, n, 0);
    if |EncodeAll(fs[..k])| <= n {
      NextFrameDoesNotFit(fmt, fs, n, k);
    } else if k <= |DecodeAll(fmt, EncodeAll(fs)[..n]).0| {
      DecodedFits(fmt, fs, n, k);
    }
  }

  lemma PrefixByLength<T>(gs: seq<T>, fs: seq<T>, k: nat)
    requires gs <= fs && k <= |fs|
    ensures gs == fs[..k] <==> |gs| == k
  {
  }

  lemma EncodeAllMonotone(fmt: Format, fs: seq<Frame>, i: nat, j: nat)
    requires fmt.Valid() && AllWellFormed(fmt, fs) && i <= |fs| && j <= |fs|
    requires i <= j
    ensures |EncodeAll(fs[..i])| <= |EncodeAll(fs[..j])|
  {
    assert fs[..j] == fs[..i] + fs[i..j];
    EncodeAllAppend(fs[..i], fs[i..j]);
  }
}
