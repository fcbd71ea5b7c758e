/** rtw_ws_client.c: the frame writer and the incremental frame reader of the WebSocket client
    (sections 5.2 and 5.3 of RFC 6455). */
module WebSocket {
  import opened Sequences

  const READ_ROOM: nat := 8192
  const INITIAL_CAP: nat := 65536
  /** Two header bytes, two of extended length, four of mask key, 65535 of payload. */
  const MAX_FRAME: nat := 65543

  // ------------------------------------------------------------------------------------------
  // Masking
  // ------------------------------------------------------------------------------------------

  /** Exclusive or, bit by bit. */
  function Xor(a: nat, b: nat): (r: nat)
    decreases a + b
  {
    if a == 0 && b == 0 then 0 else (a + b) % 2 + 2 * Xor(a / 2, b / 2)
  }

  lemma {:induction false} XorBound(a: nat, b: nat, bound: nat)
    requires a < bound && b < bound
    requires bound == 1 || bound == 2 || bound == 4 || bound == 8 || bound == 16
          || bound == 32 || bound == 64 || bound == 128 || bound == 256
    ensures Xor(a, b) < bound
    decreases bound
  {
    if bound > 1 {
      XorBound(a / 2, b / 2, bound / 2);
    }
  }

  lemma {:induction false} XorHalves(a: nat, b: nat)
    ensures Xor(a, b) / 2 == Xor(a / 2, b / 2)
    ensures Xor(a, b) % 2 == if a % 2 == b % 2 then 0 else 1
  {
    LastBit(a, b, Xor(a / 2, b / 2));
  }

  lemma LastBit(a: nat, b: nat, high: nat)
    ensures var x := (a + b) % 2 + 2 * high; x / 2 == high && x % 2 == (a + b) % 2
    ensures (a + b) % 2 == if a % 2 == b % 2 then 0 else 1
  {}

  lemma {:induction false} XorUndo(a: nat, b: nat)
    ensures Xor(Xor(a, b), b) == a
    decreases a + b
  {
    if a != 0 || b != 0 {
      XorUndo(a / 2, b / 2);
      XorHalves(a, b);
      XorHalves(Xor(a, b), b);
      SameHalves(Xor(Xor(a, b), b), a);
    }
  }

  lemma SameHalves(a: nat, b: nat)
    requires a / 2 == b / 2 && a % 2 == b % 2
    ensures a == b
  {}

  function Bit(x: nat, i: nat): (b: nat) {
    if i == 0 then x % 2 else Bit(x / 2, i - 1)
  }

  /** Each bit of the result tells whether the two bits differ. */
  lemma {:induction false} XorBits(a: nat, b: nat, i: nat)
    ensures Bit(Xor(a, b), i) == if Bit(a, i) == Bit(b, i) then 0 else 1
    decreases i
  {
    XorHalves(a, b);
    if i > 0 {
      XorBits(a / 2, b / 2, i - 1);
    }
  }

  function XorByte(a: byte, b: byte): (r: byte) {
    XorBound(a, b, 256);
    Xor(a, b)
  }

  function Mask(data: seq<byte>, key: seq<byte>): (r: seq<byte>)
    requires |key| == 4
    ensures |r| == |data|
  {
    seq(|data|, i requires 0 <= i < |data| => XorByte(data[i], key[i % 4]))
  }

  lemma MaskUndo(data: seq<byte>, key: seq<byte>)
    requires |key| == 4
    ensures Mask(Mask(data, key), key) == data
  {
    forall i | 0 <= i < |data| ensures Mask(Mask(data, key), key)[i] == data[i] {
      XorUndo(data[i], key[i % 4]);
    }
  }

  // ------------------------------------------------------------------------------------------
  // Writing
  // ------------------------------------------------------------------------------------------

  function FrameHeader(n: nat, key: seq<byte>): (h: seq<byte>)
    requires n < 65536 && |key| == 4
  {
    (if n < 126 then [0x81, 0x80 + n] else [0x81, 0x80 + 126, n / 256, n % 256]) + key
  }

  /** A text as one final, masked frame; texts of 65536 bytes or more are refused. */
  function EncodeFrame(text: seq<byte>, key: seq<byte>): (frame: seq<byte>)
    requires |text| < 65536 && |key| == 4
  {
    FrameHeader(|text|, key) + Mask(text, key)
  }

  /** Byte by byte: a final text frame, masked, in the short or the long form of the length, high byte first. */
  ghost predicate IsTextFrame(f: seq<byte>, text: seq<byte>, key: seq<byte>)
    requires |key| == 4
  {
    var n := |text|;
    var h := if n < 126 then 2 else 4;
    && |f| == h + 4 + n && f[0] == 0x81
    && (if n < 126 then f[1] == 128 + n else f[1] == 254 && f[2] == n / 256 && f[3] == n % 256)
    && f[h..h + 4] == key
    && (forall i :: 0 <= i < n ==> f[h + 4 + i] == XorByte(text[i], key[i % 4]))
  }

  lemma {:induction false} FrameBytes(text: seq<byte>, key: seq<byte>)
    requires |text| < 65536 && |key| == 4
    ensures IsTextFrame(EncodeFrame(text, key), text, key)
  {}

  lemma {:induction false} TwoParts(s: seq<byte>, front: seq<byte>, back: seq<byte>)
    requires |s| == |front| + |back| && s[..|front|] == front && s[|front|..|front| + |back|] == back
    ensures s == front + back
  {
    assert s == s[..|front|] + s[|front|..];
  }

  method SendText(text: seq<byte>, key: seq<byte>) returns (r: Option<seq<byte>>)
    requires |key| == 4
    ensures r.None? <==> |text| >= 65536
    ensures r.Some? ==> r.value == EncodeFrame(text, key) && IsTextFrame(r.value, text, key)
  {
    if |text| >= 65536 {
      return None;
    }
    var hdr: seq<byte>;
    if |text| < 126 {
      hdr := [0x81, 0x80 + |text|];
    } else {
      hdr := [0x81, 0x80 + 126, |text| / 256, |text| % 256];
    }
    hdr := hdr + key;
    var frame := new byte[|hdr| + |text|];
    forall k | 0 <= k < |hdr| {
      frame[k] := hdr[k];
    }
    var i := 0;
    while i < |text|
      invariant 0 <= i <= |text|
      invariant frame[..|hdr|] == hdr
      invariant frame[|hdr|..|hdr| + i] == Mask(text, key)[..i]
    {
      frame[|hdr| + i] := XorByte(text[i], key[i % 4]);
      i := i + 1;
    }
    ghost var payload := Mask(text, key);
    assert payload[..i] == payload;
    TwoParts(frame[..], hdr, payload);
    FrameBytes(text, key);
    return Some(frame[..]);
  }

  // ------------------------------------------------------------------------------------------
  // Reading, as a function of the bytes received so far
  // ------------------------------------------------------------------------------------------

  function BigEndian(hi: int, lo: int): (n: int) {
    hi * 256 + lo
  }

  datatype Header = Incomplete | Oversized | Header(opcode: nat, key: Option<seq<byte>>, hdr: nat, plen: nat)

  function ReadHeader(s: seq<byte>): (h: Header)
    ensures h.Header? ==> 2 <= h.hdr <= 8 && h.plen < 65536 && h.hdr <= |s| && (h.key.Some? ==> |h.key.value| == 4)
    ensures h.Incomplete? ==> |s| < 8
  {
    if |s| < 2 then Incomplete
    else
      var code := s[1] % 128;
      if code == 126 && |s| < 4 then Incomplete
      else if code == 127 then Oversized
      else
        var hdr := if code == 126 then 4 else 2;
        var plen: nat := if code == 126 then BigEndian(s[2], s[3]) else code;
        if s[1] < 128 then Header(s[0] % 16, None, hdr, plen)
        else if |s| < hdr + 4 then Incomplete
        else Header(s[0] % 16, Some(s[hdr..hdr + 4]), hdr + 4, plen)
  }

  datatype Frame = NeedMore | TooLong | Frame(opcode: nat, payload: seq<byte>, total: nat)

  /** The frame at the front of `s`; each complete one takes at least two bytes off it. */
  function NextFrame(s: seq<byte>): (f: Frame)
    ensures f.Frame? ==> 2 <= f.total <= |s| && |f.payload| < 65536
    ensures f.NeedMore? ==> |s| < MAX_FRAME
  {
    match ReadHeader(s)
    case Incomplete => NeedMore
    case Oversized => TooLong
    case Header(opcode, key, hdr, plen) =>
      if |s| < hdr + plen then NeedMore
      else
        var raw := s[hdr..hdr + plen];
        Frame(opcode, if key.Some? then Mask(raw, key.value) else raw, hdr + plen)
  }

  lemma FrameParts(s: seq<byte>, h: Header)
    requires h == ReadHeader(s) && h.Header? && h.hdr + h.plen <= |s|
    ensures var raw := s[h.hdr..h.hdr + h.plen];
            NextFrame(s) == Frame(h.opcode, if h.key.Some? then Mask(raw, h.key.value) else raw, h.hdr + h.plen)
  {}

  datatype Outcome = Open | Closed | Refused

  datatype Parsed = Parsed(texts: seq<seq<byte>>, outcome: Outcome, rest: seq<byte>)

  /** All complete frames of `s`: text payloads are delivered, a close frame or an oversized header ends the parse,
      other frames are skipped. */
  function Parse(s: seq<byte>): (r: Parsed)
    ensures |r.rest| <= |s|
    ensures r.outcome.Open? ==> |r.rest| < MAX_FRAME
    ensures forall t :: t in r.texts ==> |t| < 65536
    ensures |r.rest| + 2 * |r.texts| <= |s|
    decreases |s|
  {
    match NextFrame(s)
    case NeedMore => Parsed([], Open, s)
    case TooLong => Parsed([], Refused, s)
    case Frame(opcode, payload, total) =>
      if opcode == 8 then Parsed([], Closed, s)
      else
        var r := Parse(s[total..]);
        r.(texts := TextOf(opcode, payload) + r.texts)
  }

  function TextOf(opcode: nat, payload: seq<byte>): (r: seq<seq<byte>>) {
    if opcode == 1 then [payload] else []
  }

  /** The defining equation of a parse, one frame at a time. */
  lemma {:induction false} ParseOne(s: seq<byte>, f: Frame)
    requires f == NextFrame(s)
    ensures f.NeedMore? ==> Parse(s) == Parsed([], Open, s)
    ensures f.TooLong? ==> Parse(s) == Parsed([], Refused, s)
    ensures f.Frame? && f.opcode == 8 ==> Parse(s) == Parsed([], Closed, s)
    ensures f.Frame? && f.opcode != 8 ==>
              Parse(s) == Parse(s[f.total..]).(texts := TextOf(f.opcode, f.payload) + Parse(s[f.total..]).texts)
  {}

  // ------------------------------------------------------------------------------------------
  // Cutting the stream anywhere gives the same texts
  // ------------------------------------------------------------------------------------------

  lemma {:induction false} HeaderStable(a: seq<byte>, b: seq<byte>)
    requires !ReadHeader(a).Incomplete?
    ensures ReadHeader(a + b) == ReadHeader(a)
  {
    var h := ReadHeader(a);
    if h.Header? && h.key.Some? {
      SliceStable(a, b, h.hdr - 4, h.hdr);
    }
  }

  lemma SliceOfSlice(s: seq<byte>, n: nat, i: nat, j: nat)
    requires i <= j <= n <= |s|
    ensures s[..n][i..j] == s[i..j] && s[..n][i..] == s[i..n]
  {}

  /** A frame once complete is not changed by what follows it. */
  lemma {:induction false} FrameStable(a: seq<byte>, b: seq<byte>)
    requires !NextFrame(a).NeedMore?
    ensures NextFrame(a + b) == NextFrame(a)
  {
    HeaderStable(a, b);
    var h := ReadHeader(a);
    if h.Header? {
      SliceStable(a, b, h.hdr, h.hdr + h.plen);
    }
  }

  lemma SliceStable(a: seq<byte>, b: seq<byte>, i: nat, j: nat)
    requires i <= j <= |a|
    ensures (a + b)[i..j] == a[i..j]
  {}

  /** How a parse goes on when `b` arrives behind it. */
  function Resume(p: Parsed, b: seq<byte>): (r: Parsed) {
    if p.outcome.Open? then
      var q := Parse(p.rest + b);
      Parsed(p.texts + q.texts, q.outcome, q.rest)
    else p.(rest := p.rest + b)
  }

  lemma ResumeLater(p: Parsed, more: seq<seq<byte>>, b: seq<byte>)
    ensures Resume(p.(texts := more + p.texts), b) == Resume(p, b).(texts := more + Resume(p, b).texts)
  {
    if p.outcome.Open? {
      var q := Parse(p.rest + b);
      assert more + p.texts + q.texts == more + (p.texts + q.texts);
    }
  }

  /** The first frame of `a` is also the first frame of `a + b`. */
  lemma {:induction false} ParsePast(a: seq<byte>, b: seq<byte>, f: Frame)
    requires f == NextFrame(a) && f.Frame? && f.opcode != 8
    requires Parse(a[f.total..] + b) == Resume(Parse(a[f.total..]), b)
    ensures Parse(a + b) == Resume(Parse(a), b)
  {
    FrameStable(a, b);
    ParseOne(a, f);
    ParseOne(a + b, f);
    TailStable(a, b, f.total);
    ResumeLater(Parse(a[f.total..]), TextOf(f.opcode, f.payload), b);
  }

  lemma TailStable(a: seq<byte>, b: seq<byte>, i: nat)
    requires i <= |a|
    ensures (a + b)[i..] == a[i..] + b
  {}

  lemma {:induction false} ParseStuck(a: seq<byte>, b: seq<byte>, f: Frame)
    requires f == NextFrame(a) && (f.Frame? ==> f.opcode == 8)
    ensures Parse(a + b) == Resume(Parse(a), b)
  {
    ParseOne(a, f);
    if f.NeedMore? {
      assert [] + Parse(a + b).texts == Parse(a + b).texts;
    } else {
      FrameStable(a, b);
      ParseOne(a + b, f);
    }
  }

  lemma {:induction false} ParseAppend(a: seq<byte>, b: seq<byte>)
    ensures Parse(a + b) == Resume(Parse(a), b)
    decreases |a|
  {
    var f := NextFrame(a);
    if f.Frame? && f.opcode != 8 {
      ParseAppend(a[f.total..], b);
      ParsePast(a, b, f);
    } else {
      ParseStuck(a, b, f);
    }
  }

  /** The receiver as a machine: what is buffered, what was delivered, how it stands. */
  datatype Receiver = Receiver(buffered: seq<byte>, delivered: seq<seq<byte>>, outcome: Outcome)

  /** One read: a closed client reads no more; otherwise the chunk joins the buffer and complete frames leave it. */
  function Receive(r: Receiver, chunk: seq<byte>): (r': Receiver) {
    if r.outcome.Closed? then r
    else
      var p := Parse(r.buffered + chunk);
      Receiver(p.rest, r.delivered + p.texts, p.outcome)
  }

  function ReceiveAll(chunks: seq<seq<byte>>): (r: Receiver) {
    if chunks == [] then Receiver([], [], Open)
    else Receive(ReceiveAll(chunks[..|chunks| - 1]), chunks[|chunks| - 1])
  }

  /** For every stream and every way of cutting it into reads, the texts delivered and the final standing are those
      of one parse of the whole stream; until a close frame the buffer is exactly its unparsed tail. */
  lemma {:induction false} ChunkingIsInvisible(chunks: seq<seq<byte>>)
    ensures var r := ReceiveAll(chunks); var p := Parse(Concat(chunks));
            && r.delivered == p.texts && r.outcome == p.outcome
            && (!p.outcome.Closed? ==> r.buffered == p.rest)
    decreases |chunks|
  {
    if chunks != [] {
      var init, chunk := chunks[..|chunks| - 1], chunks[|chunks| - 1];
      ChunkingIsInvisible(init);
      ParseAppend(Concat(init), chunk);
      if Parse(Concat(init)).outcome.Refused? {
        RefusedAgain(Concat(init), chunk);
      }
    }
  }

  /** Behind an oversized header nothing more is ever delivered. */
  lemma {:induction false} RefusedAgain(s: seq<byte>, chunk: seq<byte>)
    requires Parse(s).outcome.Refused?
    ensures Parse(Parse(s).rest + chunk) == Parsed([], Refused, Parse(s).rest + chunk)
    decreases |s|
  {
    var f := NextFrame(s);
    if f.TooLong? {
      FrameStable(s, chunk);
    } else {
      RefusedAgain(s[f.total..], chunk);
    }
  }

  /** Two cuttings of the same bytes cannot be told apart. */
  lemma SameStreamSameTexts(a: seq<seq<byte>>, b: seq<seq<byte>>)
    requires Concat(a) == Concat(b)
    ensures ReceiveAll(a).delivered == ReceiveAll(b).delivered && ReceiveAll(a).outcome == ReceiveAll(b).outcome
  {
    ChunkingIsInvisible(a);
    ChunkingIsInvisible(b);
  }

  // ------------------------------------------------------------------------------------------
  // What is written can be read
  // ------------------------------------------------------------------------------------------

  lemma {:induction false} HeaderRoundTrip(n: nat, key: seq<byte>, tail: seq<byte>)
    requires n < 65536 && |key| == 4
    ensures ReadHeader(FrameHeader(n, key) + tail) == Header(1, Some(key), |FrameHeader(n, key)|, n)
  {
    var h := FrameHeader(n, key);
    TwoBytes(n);
    Within(h, tail, |h| - 4);
    HeaderRead(h + tail, n, key);
  }

  lemma {:induction false} HeaderRead(s: seq<byte>, n: nat, key: seq<byte>)
    requires n < 65536 && |s| >= 2 && s[0] == 0x81 && s[1] == if n < 126 then 128 + n else 254
    requires n < 126 ==> |s| >= 6 && s[2..6] == key
    requires n >= 126 ==> |s| >= 8 && BigEndian(s[2], s[3]) == n && s[4..8] == key
    ensures ReadHeader(s) == Header(1, Some(key), if n < 126 then 6 else 8, n)
  {
    LengthCode(s[1], n);
    assert s[0] % 16 == 1;
  }

  lemma LengthCode(c: nat, n: nat)
    requires c == if n < 126 then 128 + n else 254
    ensures c % 128 == if n < 126 then n else 126
  {}

  lemma {:induction false} Within(h: seq<byte>, tail: seq<byte>, k: nat)
    requires k + 4 <= |h|
    ensures (h + tail)[k..k + 4] == h[k..k + 4]
  {}

  lemma TwoBytes(n: nat)
    requires n < 65536
    ensures n / 256 < 256 && BigEndian(n / 256, n % 256) == n
  {}

  lemma {:induction false} FrameRoundTrip(text: seq<byte>, key: seq<byte>, tail: seq<byte>)
    requires |text| < 65536 && |key| == 4
    ensures NextFrame(EncodeFrame(text, key) + tail) == Frame(1, text, |EncodeFrame(text, key)|)
  {
    var h, m := FrameHeader(|text|, key), Mask(text, key);
    var s := EncodeFrame(text, key) + tail;
    HeaderRoundTrip(|text|, key, m + tail);
    assert s == h + (m + tail);
    assert s[|h|..|h| + |m|] == m;
    MaskUndo(text, key);
  }

  function EncodeFrames(texts: seq<seq<byte>>, keys: seq<seq<byte>>): (frames: seq<seq<byte>>)
    requires |texts| == |keys|
    requires forall t :: t in texts ==> |t| < 65536
    requires forall k :: k in keys ==> |k| == 4
    ensures |frames| == |texts|
  {
    seq(|texts|, i requires 0 <= i < |texts| => EncodeFrame(texts[i], keys[i]))
  }

  /** Frames written one after the other parse back to exactly their texts and leave nothing over. */
  lemma {:induction false} FramesRoundTrip(texts: seq<seq<byte>>, keys: seq<seq<byte>>)
    requires |texts| == |keys|
    requires forall t :: t in texts ==> |t| < 65536
    requires forall k :: k in keys ==> |k| == 4
    ensures Parse(Concat(EncodeFrames(texts, keys))) == Parsed(texts, Open, [])
    decreases |texts|
  {
    if texts == [] {
      assert Concat(EncodeFrames(texts, keys)) == [];
    } else {
      FramesSplit(texts, keys);
      FramesRoundTrip(texts[1..], keys[1..]);
      ParseFirst(texts[0], keys[0], Concat(EncodeFrames(texts[1..], keys[1..])));
      Cut(texts, 1);
      assert texts[..1] == [texts[0]];
    }
  }

  lemma {:induction false} FramesSplit(texts: seq<seq<byte>>, keys: seq<seq<byte>>)
    requires |texts| == |keys| > 0
    requires forall t :: t in texts ==> |t| < 65536
    requires forall k :: k in keys ==> |k| == 4
    ensures Concat(EncodeFrames(texts, keys))
         == EncodeFrame(texts[0], keys[0]) + Concat(EncodeFrames(texts[1..], keys[1..]))
  {
    var rest := EncodeFrames(texts[1..], keys[1..]);
    assert EncodeFrames(texts, keys) == [EncodeFrame(texts[0], keys[0])] + rest;
    ConcatCons(EncodeFrame(texts[0], keys[0]), rest);
  }

  lemma {:induction false} ParseFirst(text: seq<byte>, key: seq<byte>, tail: seq<byte>)
    requires |text| < 65536 && |key| == 4
    ensures Parse(EncodeFrame(text, key) + tail) == Parse(tail).(texts := [text] + Parse(tail).texts)
  {
    var frame := EncodeFrame(text, key);
    FrameRoundTrip(text, key, tail);
    ParseOne(frame + tail, Frame(1, text, |frame|));
    assert (frame + tail)[|frame|..] == tail;
  }

  /** End to end: whatever the sizes of the texts, the mask keys and the cuts made by the transport, the receiver
      delivers the texts that were sent, in order, and ends with an empty buffer. */
  lemma DeliveredAsSent(texts: seq<seq<byte>>, keys: seq<seq<byte>>, chunks: seq<seq<byte>>)
    requires |texts| == |keys|
    requires forall t :: t in texts ==> |t| < 65536
    requires forall k :: k in keys ==> |k| == 4
    requires Concat(chunks) == Concat(EncodeFrames(texts, keys))
    ensures ReceiveAll(chunks) == Receiver([], texts, Open)
  {
    FramesRoundTrip(texts, keys);
    ChunkingIsInvisible(chunks);
  }

  // ------------------------------------------------------------------------------------------
  // The client's buffer
  // ------------------------------------------------------------------------------------------

  /** Parsing on from `s` gives the outcome and rest of `whole`, and all its texts once those of `given` are counted. */
  ghost predicate ParseGoal(s: seq<byte>, given: seq<seq<byte>>, whole: Parsed, all: seq<seq<byte>>) {
    Parse(s).outcome == whole.outcome && Parse(s).rest == whole.rest && given + Parse(s).texts == all
  }

  lemma {:induction false} ParseEnds(s: seq<byte>, f: Frame, given: seq<seq<byte>>, whole: Parsed, all: seq<seq<byte>>)
    requires f == NextFrame(s) && ParseGoal(s, given, whole, all) && (f.Frame? ==> f.opcode == 8)
    ensures whole.outcome == (if f.NeedMore? then Open else if f.TooLong? then Refused else Closed)
    ensures whole.rest == s && given == all
  {
    ParseOne(s, f);
    assert given + [] == given;
  }

  lemma {:induction false} ParseGoesOn(s: seq<byte>, f: Frame, next: seq<byte>, given: seq<seq<byte>>,
                                       more: seq<seq<byte>>, whole: Parsed, all: seq<seq<byte>>)
    requires f == NextFrame(s) && ParseGoal(s, given, whole, all) && f.Frame? && f.opcode != 8
    requires next == s[f.total..] && more == given + TextOf(f.opcode, f.payload)
    ensures ParseGoal(next, more, whole, all)
  {
    ParseOne(s, f);
    Associate(given, TextOf(f.opcode, f.payload), Parse(next).texts);
  }

  class WsClient {
    var rx: array<byte>
    var rxLen: nat
    var closed: bool
    var delivered: seq<seq<byte>>

    /** While polls succeed, less than one maximal frame stays buffered and the buffer never grows past
        73734 bytes. */
    ghost predicate Valid()
      reads this, rx
    {
      rxLen <= rx.Length && rxLen < 65543 && rx.Length <= 73734
    }

    constructor ()
      ensures Valid() && fresh(rx) && rx.Length == 65536 && rxLen == 0 && !closed && delivered == []
    {
      rx := new byte[INITIAL_CAP];
      rxLen, closed, delivered := 0, false, [];
    }

    method EnsureCap(need: nat)
      requires rxLen <= rx.Length
      modifies `rx
      ensures rx.Length == (if need <= old(rx.Length) then old(rx.Length) else need)
      ensures rxLen <= rx.Length && rx[..rxLen] == old(rx[..rxLen])
      ensures rx == old(rx) || fresh(rx)
    {
      if need <= rx.Length {
        return;
      }
      var nbuf := new byte[need];
      forall k | 0 <= k < rxLen {
        nbuf[k] := rx[k];
      }
      rx := nbuf;
    }

    /** Undoes the mask of one payload where it lies. */
    method UnmaskInPlace(hdr: nat, plen: nat, key: seq<byte>)
      requires |key| == 4 && hdr + plen <= rx.Length
      modifies rx
      ensures rx[..hdr] == old(rx[..hdr])
      ensures rx[hdr..hdr + plen] == Mask(old(rx[hdr..hdr + plen]), key)
      ensures rx[hdr + plen..] == old(rx[hdr + plen..])
    {
      ghost var raw := rx[hdr..hdr + plen];
      ghost var before, after := rx[..hdr], rx[hdr + plen..];
      var j := 0;
      while j < plen
        invariant 0 <= j <= plen
        invariant rx[..hdr] == before && rx[hdr + plen..] == after
        invariant forall k :: 0 <= k < j ==> rx[hdr + k] == XorByte(raw[k], key[k % 4])
        invariant forall k :: j <= k < plen ==> rx[hdr + k] == raw[k]
      {
        rx[hdr + j] := XorByte(rx[hdr + j], key[j % 4]);
        j := j + 1;
      }
      assert rx[hdr..hdr + plen] == Mask(raw, key);
    }

    /** Moves what follows the first `n` bytes to the front. */
    method Discard(n: nat)
      requires n <= rxLen <= rx.Length
      modifies `rxLen, rx
      ensures rxLen == old(rxLen) - n
      ensures rx[..rxLen] == old(rx[n..rxLen])
    {
      forall k | 0 <= k < rxLen - n {
        rx[k] := rx[n + k];
      }
      rxLen := rxLen - n;
    }

    /** The payload described by `h`, unmasked where it lies. */
    method Unmask(h: Header)
      requires rxLen <= rx.Length && h.Header? && h.hdr + h.plen <= rxLen && (h.key.Some? ==> |h.key.value| == 4)
      modifies rx
      ensures var raw := old(rx[h.hdr..h.hdr + h.plen]);
              rx[h.hdr..h.hdr + h.plen] == if h.key.Some? then Mask(raw, h.key.value) else raw
      ensures rx[h.hdr + h.plen..rxLen] == old(rx[h.hdr + h.plen..rxLen])
    {
      if h.key.Some? {
        ghost var after := rx[h.hdr + h.plen..];
        ghost var tail := rx[h.hdr + h.plen..rxLen];
        assert tail == after[..|tail|];
        UnmaskInPlace(h.hdr, h.plen, h.key.value);
        assert rx[h.hdr + h.plen..rxLen] == after[..|tail|];
      }
    }

    /** Takes the complete frame described by `h` off the front of the buffer, unless it is a close frame. */
    method TakeFrame(h: Header, ghost f: Frame) returns (stop: bool)
      requires rxLen <= rx.Length && h == ReadHeader(rx[..rxLen]) && h.Header? && h.hdr + h.plen <= rxLen
      requires f == NextFrame(rx[..rxLen])
      modifies this, rx
      ensures rx == old(rx) && rxLen <= rx.Length
      ensures stop == (f.opcode == 8)
      ensures stop ==> closed && delivered == old(delivered) && rxLen == old(rxLen)
      ensures !stop ==> closed == old(closed) && rxLen == old(rxLen) - f.total && rxLen + 2 <= old(rxLen)
                        && rx[..rxLen] == old(rx[..rxLen])[f.total..]
                        && delivered == old(delivered) + TextOf(f.opcode, f.payload)
    {
      ghost var all := rx[..rxLen];
      FrameParts(all, h);
      SliceOfSlice(rx[..], rxLen, h.hdr, h.hdr + h.plen);
      SliceOfSlice(rx[..], rxLen, h.hdr + h.plen, rxLen);
      Unmask(h);
      if h.opcode == 1 {
        delivered := delivered + [rx[h.hdr..h.hdr + h.plen]];
      } else if h.opcode == 8 {
        closed := true;
        return true;
      }
      Discard(h.hdr + h.plen);
      return false;
    }

    /** Reads the header bytes at the front of the buffer. */
    method DecodeHeader() returns (h: Header)
      requires 2 <= rxLen <= rx.Length
      ensures h == ReadHeader(rx[..rxLen])
    {
      var code := rx[1] % 128;
      var hdr, plen: nat := 2, code;
      if code == 126 {
        if rxLen < 4 {
          return Incomplete;
        }
        plen := BigEndian(rx[2], rx[3]);
        hdr := 4;
      } else if code == 127 {
        return Oversized;
      }
      if rx[1] < 128 {
        return Header(rx[0] % 16, None, hdr, plen);
      }
      if rxLen < hdr + 4 {
        return Incomplete;
      }
      assert rx[..rxLen][hdr..hdr + 4] == rx[hdr..hdr + 4];
      return Header(rx[0] % 16, Some(rx[hdr..hdr + 4]), hdr + 4, plen);
    }

    method ProcessFrames() returns (outcome: Outcome)
      requires rxLen <= rx.Length && !closed
      modifies this, rx
      ensures rx == old(rx) && rxLen <= rx.Length
      ensures var p := Parse(old(rx[..rxLen]));
              && outcome == p.outcome
              && delivered == old(delivered) + p.texts
              && closed == p.outcome.Closed?
              && rxLen == |p.rest|
              && (!closed ==> rx[..rxLen] == p.rest)
      ensures rxLen + 2 * (|delivered| - |old(delivered)|) <= old(rxLen)
    {
      ghost var whole := Parse(rx[..rxLen]);
      ghost var all := delivered + whole.texts;
      ghost var now := rx[..rxLen];
      while rxLen >= 2
        invariant rx == old(rx) && rxLen <= rx.Length && !closed && now == rx[..rxLen]
        invariant ParseGoal(now, delivered, whole, all)
        decreases rxLen
      {
        var h := DecodeHeader();
        ghost var f := NextFrame(now);
        ghost var next := if f.Frame? then now[f.total..] else now;
        if f.Frame? && f.opcode != 8 {
          ParseGoesOn(now, f, next, delivered, delivered + TextOf(f.opcode, f.payload), whole, all);
        } else {
          ParseEnds(now, f, delivered, whole, all);
        }
        if h.Incomplete? {
          return Open;
        }
        if h.Oversized? {
          return Refused;
        }
        if rxLen < h.hdr + h.plen {
          return Open;
        }
        var stop := TakeFrame(h, f);
        if stop {
          return Closed;
        }
        now := next;
      }
      ParseEnds(now, NeedMore, delivered, whole, all);
      return Open;
    }

    /** One poll that found the socket readable. `read` is the socket: given room for so many bytes it returns at most
        that many, none standing for end of file or an error. The room offered is never less than 8192 bytes. A closed
        client reads nothing. While polls succeed the buffer keeps its bounds. */
    method Poll(read: nat -> seq<byte>) returns (outcome: Outcome, room: nat)
      requires rxLen <= rx.Length
      requires forall n: nat :: |read(n)| <= n
      modifies this, rx
      ensures rx == old(rx) || fresh(rx)
      ensures !old(closed) ==> room == rx.Length - old(rxLen) >= 8192
      ensures old(closed) || read(room) == [] ==> closed && outcome.Closed? && delivered == old(delivered)
      ensures !old(closed) && read(room) != [] ==>
                var r := Receive(Receiver(old(rx[..rxLen]), old(delivered), Open), read(room));
                && delivered == r.delivered && outcome == r.outcome && closed == r.outcome.Closed?
                && (!closed ==> rxLen <= rx.Length && rx[..rxLen] == r.buffered)
      ensures rxLen <= rx.Length && (old(Valid()) && outcome.Open? ==> Valid())
    {
      if closed {
        return Closed, 0;
      }
      EnsureCap(rxLen + READ_ROOM);
      room := rx.Length - rxLen;
      var chunk := read(room);
      if chunk == [] {
        closed := true;
        return Closed, room;
      }
      ghost var buffered := rx[..rxLen];
      forall k | 0 <= k < |chunk| {
        rx[rxLen + k] := chunk[k];
      }
      rxLen := rxLen + |chunk|;
      assert rx[..rxLen] == buffered + chunk;
      outcome := ProcessFrames();
    }
  }
}
