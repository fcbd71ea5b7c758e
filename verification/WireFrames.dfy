/** The frame reader on bytes: what every frame that a peer can write does to it, in the terms of sections 5.2 and
    5.3 of RFC 6455 and without the reader's own notions of header and frame. */
module WireFrames {
  import opened Sequences
  import opened WebSocket

  /** One frame as written: the first byte as it is, a mask key or none, the short or the long form of the length. */
  datatype Item = Item(b0: byte, key: Option<seq<byte>>, long: bool, payload: seq<byte>)

  predicate Writable(it: Item) {
    && |it.payload| < 65536 && (it.long || |it.payload| < 126)
    && (it.key.Some? ==> |it.key.value| == 4)
  }

  function LengthBytes(it: Item): (r: seq<byte>)
    requires Writable(it)
  {
    var n, m := |it.payload|, if it.key.Some? then 128 else 0;
    if it.long then [m + 126, n / 256, n % 256] else [m + n]
  }

  function KeyBytes(it: Item): (r: seq<byte>) {
    if it.key.Some? then it.key.value else []
  }

  function BodyBytes(it: Item): (r: seq<byte>)
    requires Writable(it)
    ensures |r| == |it.payload|
  {
    if it.key.None? then it.payload
    else seq(|it.payload|, i requires 0 <= i < |it.payload| => XorByte(it.payload[i], it.key.value[i % 4]))
  }

  function Bytes(it: Item): (r: seq<byte>)
    requires Writable(it)
    ensures |r| >= 2
  {
    [it.b0] + LengthBytes(it) + KeyBytes(it) + BodyBytes(it)
  }

  // ------------------------------------------------------------------------------------------
  // One frame
  // ------------------------------------------------------------------------------------------

  function HeadSize(it: Item): (n: nat) {
    (if it.long then 4 else 2) + (if it.key.Some? then 4 else 0)
  }

  /** Where the bytes of the head stand. */
  lemma {:induction false} HeadBytes(it: Item, tail: seq<byte>)
    requires Writable(it)
    ensures var s := Bytes(it) + tail; var h := if it.long then 4 else 2; var m := if it.key.Some? then 128 else 0;
            && |Bytes(it)| == HeadSize(it) + |it.payload| && s[0] == it.b0
            && (if it.long then s[1] == m + 126 && s[2] == |it.payload| / 256 && s[3] == |it.payload| % 256
                else s[1] == m + |it.payload|)
            && (it.key.Some? ==> s[h..h + 4] == it.key.value)
            && s[HeadSize(it)..HeadSize(it) + |it.payload|] == BodyBytes(it)
            && s[|Bytes(it)|..] == tail
  {}

  lemma {:induction false} LongHead(s: seq<byte>, m: nat, n: nat)
    requires |s| >= 4 && (m == 0 || m == 128) && n < 65536
    requires s[1] == m + 126 && s[2] == n / 256 && s[3] == n % 256
    requires m == 128 ==> |s| >= 8
    ensures ReadHeader(s) == if m == 0 then Header(s[0] % 16, None, 4, n) else Header(s[0] % 16, Some(s[4..8]), 8, n)
  {
    TwoBytes(n);
  }

  lemma {:induction false} ShortHead(s: seq<byte>, m: nat, n: nat)
    requires |s| >= 2 && (m == 0 || m == 128) && n < 126 && s[1] == m + n
    requires m == 128 ==> |s| >= 6
    ensures ReadHeader(s) == if m == 0 then Header(s[0] % 16, None, 2, n) else Header(s[0] % 16, Some(s[2..6]), 6, n)
  {}

  lemma {:induction false} HeadOf(it: Item, tail: seq<byte>)
    requires Writable(it)
    ensures ReadHeader(Bytes(it) + tail) == Header(it.b0 % 16, it.key, HeadSize(it), |it.payload|)
  {
    var s, m := Bytes(it) + tail, if it.key.Some? then 128 else 0;
    HeadBytes(it, tail);
    if it.long {
      LongHead(s, m, |it.payload|);
    } else {
      ShortHead(s, m, |it.payload|);
    }
  }

  lemma {:induction false} FrameOf(it: Item, tail: seq<byte>)
    requires Writable(it)
    ensures NextFrame(Bytes(it) + tail) == Frame(it.b0 % 16, it.payload, |Bytes(it)|)
  {
    HeadOf(it, tail);
    HeadBytes(it, tail);
    FrameParts(Bytes(it) + tail, ReadHeader(Bytes(it) + tail));
    if it.key.Some? {
      assert BodyBytes(it) == Mask(it.payload, it.key.value);
      MaskUndo(it.payload, it.key.value);
    }
  }

  /** Whatever the flags, the mask and the form of the length: the low four bits of the first byte decide. One is a text
      and is delivered, eight closes, everything else is skipped. */
  lemma {:induction false} EveryFrame(it: Item, tail: seq<byte>)
    requires Writable(it)
    ensures Parse(Bytes(it) + tail)
         == if it.b0 % 16 == 8 then Parsed([], Closed, Bytes(it) + tail)
            else Parse(tail).(texts := (if it.b0 % 16 == 1 then [it.payload] else []) + Parse(tail).texts)
  {
    var s := Bytes(it) + tail;
    FrameOf(it, tail);
    ParseOne(s, NextFrame(s));
    HeadBytes(it, tail);
  }

  /** Until its last byte has arrived a frame does nothing. */
  lemma {:induction false} PartialFrame(it: Item, k: nat)
    requires Writable(it) && k < |Bytes(it)|
    ensures Parse(Bytes(it)[..k]) == Parsed([], Open, Bytes(it)[..k])
  {
    var s := Bytes(it);
    var a, b := s[..k], s[k..];
    Cut(s, k);
    assert s + [] == s;
    FrameOf(it, []);
    if !NextFrame(a).NeedMore? {
      FrameStable(a, b);
      assert false;
    }
    ParseOne(a, NeedMore);
  }

  /** A length in the 64-bit form stops the reader. */
  lemma {:induction false} HugeFrame(b0: byte, masked: bool, tail: seq<byte>)
    ensures var s := [b0, if masked then 255 else 127] + tail; Parse(s) == Parsed([], Refused, s)
  {
    var s: seq<byte> := [b0, if masked then 255 else 127] + tail;
    ParseOne(s, TooLong);
  }

  // ------------------------------------------------------------------------------------------
  // Streams of frames
  // ------------------------------------------------------------------------------------------

  function AllBytes(items: seq<Item>): (r: seq<byte>)
    requires forall it :: it in items ==> Writable(it)
  {
    if items == [] then [] else Bytes(items[0]) + AllBytes(items[1..])
  }

  function TextsOf(items: seq<Item>): (r: seq<seq<byte>>) {
    if items == [] then []
    else (if items[0].b0 % 16 == 1 then [items[0].payload] else []) + TextsOf(items[1..])
  }

  lemma {:induction false} StreamParsed(items: seq<Item>)
    requires forall it :: it in items ==> Writable(it) && it.b0 % 16 != 8
    ensures Parse(AllBytes(items)) == Parsed(TextsOf(items), Open, [])
    decreases |items|
  {
    if items == [] {
      ParseOne([], NeedMore);
    } else {
      StreamParsed(items[1..]);
      EveryFrame(items[0], AllBytes(items[1..]));
    }
  }

  /** Any mixture of frames none of which closes, cut anywhere: the payloads of the texts are delivered, in order. */
  lemma {:induction false} StreamDelivered(items: seq<Item>, chunks: seq<seq<byte>>)
    requires forall it :: it in items ==> Writable(it) && it.b0 % 16 != 8
    requires Concat(chunks) == AllBytes(items)
    ensures ReceiveAll(chunks) == Receiver([], TextsOf(items), Open)
  {
    StreamParsed(items);
    ChunkingIsInvisible(chunks);
  }

  /** What a server writes for a text. */
  function ServerFrame(text: seq<byte>): (r: seq<byte>)
    requires |text| < 65536
  {
    var n := |text|;
    if n < 126 then [0x81, n] + text else [0x81, 126, n / 256, n % 256] + text
  }

  function ServerStream(texts: seq<seq<byte>>): (r: seq<byte>)
    requires forall t :: t in texts ==> |t| < 65536
  {
    if texts == [] then [] else ServerFrame(texts[0]) + ServerStream(texts[1..])
  }

  function ServerItem(text: seq<byte>): (it: Item) {
    Item(0x81, None, |text| >= 126, text)
  }

  function ServerItems(texts: seq<seq<byte>>): (items: seq<Item>) {
    if texts == [] then [] else [ServerItem(texts[0])] + ServerItems(texts[1..])
  }

  lemma HeadAndRest<T>(s: seq<T>)
    requires s != []
    ensures [s[0]] + s[1..] == s
  {}

  lemma {:induction false} ServerItemsAre(texts: seq<seq<byte>>)
    requires forall t :: t in texts ==> |t| < 65536
    ensures forall it :: it in ServerItems(texts) ==> Writable(it) && it.b0 % 16 != 8
    ensures AllBytes(ServerItems(texts)) == ServerStream(texts) && TextsOf(ServerItems(texts)) == texts
    decreases |texts|
  {
    if texts != [] {
      ServerItemsAre(texts[1..]);
      OneMoreText(texts, ServerItems(texts[1..]));
    }
  }

  lemma {:induction false} OneMoreText(texts: seq<seq<byte>>, rest: seq<Item>)
    requires texts != [] && forall t :: t in texts ==> |t| < 65536
    requires forall it :: it in rest ==> Writable(it) && it.b0 % 16 != 8
    requires AllBytes(rest) == ServerStream(texts[1..]) && TextsOf(rest) == texts[1..]
    ensures var items := [ServerItem(texts[0])] + rest;
            (forall it :: it in items ==> Writable(it) && it.b0 % 16 != 8)
            && AllBytes(items) == ServerStream(texts) && TextsOf(items) == texts
  {
    ServerBytes(texts[0]);
    MoreItems(ServerItem(texts[0]), rest);
    HeadAndRest(texts);
  }

  lemma {:induction false} ServerBytes(text: seq<byte>)
    requires |text| < 65536
    ensures Writable(ServerItem(text)) && Bytes(ServerItem(text)) == ServerFrame(text)
  {}

  lemma {:induction false} MoreItems(it: Item, rest: seq<Item>)
    requires Writable(it) && it.b0 % 16 == 1
    requires forall x :: x in rest ==> Writable(x) && x.b0 % 16 != 8
    ensures forall x :: x in [it] + rest ==> Writable(x) && x.b0 % 16 != 8
    ensures AllBytes([it] + rest) == Bytes(it) + AllBytes(rest)
    ensures TextsOf([it] + rest) == [it.payload] + TextsOf(rest)
  {
    assert ([it] + rest)[1..] == rest;
  }

  /** Every list of texts a server sends arrives, however the transport cuts it. */
  lemma {:induction false} ServerTextsDelivered(texts: seq<seq<byte>>, chunks: seq<seq<byte>>)
    requires forall t :: t in texts ==> |t| < 65536
    requires Concat(chunks) == ServerStream(texts)
    ensures ReceiveAll(chunks) == Receiver([], texts, Open)
  {
    ServerItemsAre(texts);
    StreamDelivered(ServerItems(texts), chunks);
  }

  /** A close frame ends the connection, and what was sent before it has been delivered. */
  lemma {:induction false} CloseEnds(items: seq<Item>, close: Item, tail: seq<byte>, chunks: seq<seq<byte>>)
    requires forall it :: it in items ==> Writable(it) && it.b0 % 16 != 8
    requires Writable(close) && close.b0 % 16 == 8 && Concat(chunks) == AllBytes(items) + (Bytes(close) + tail)
    ensures ReceiveAll(chunks).outcome.Closed? && ReceiveAll(chunks).delivered == TextsOf(items)
  {
    StreamParsed(items);
    EveryFrame(close, tail);
    ParseAppend(AllBytes(items), Bytes(close) + tail);
    assert [] + (Bytes(close) + tail) == Bytes(close) + tail && TextsOf(items) + [] == TextsOf(items);
    ChunkingIsInvisible(chunks);
  }
}
