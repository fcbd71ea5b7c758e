/** rtw_protocol.c: building outbound messages and reading inbound ones, over JSON trees. */
module Protocol {
  import opened Sequences
  import Base64
  import Playout

  const SID_MAX: nat := 64
  const TRACK_MAX: nat := 32
  const DIGIT_MAX: nat := 8

  datatype Json = Null | Bool(b: bool) | Num(value: real) | Str(s: string)
                | Arr(items: seq<Json>) | Obj(fields: seq<(string, Json)>)

  /** First field of that name; None for a missing field and for anything but an object. */
  function Get(j: Json, key: string): (r: Option<Json>) {
    if j.Obj? then Lookup(j.fields, key) else None
  }

  function Lookup(fields: seq<(string, Json)>, key: string): (r: Option<Json>) {
    if fields == [] then None
    else if fields[0].0 == key then Some(fields[0].1)
    else Lookup(fields[1..], key)
  }

  lemma {:induction false} LookupHere(key: string, j: Json, rest: seq<(string, Json)>)
    ensures Lookup([(key, j)] + rest, key) == Some(j)
  {}

  lemma {:induction false} LookupPast(other: string, j: Json, rest: seq<(string, Json)>, key: string)
    requires other != key
    ensures Lookup([(other, j)] + rest, key) == Lookup(rest, key)
  {
    assert ([(other, j)] + rest)[1..] == rest;
  }

  // ------------------------------------------------------------------------------------------
  // Decimal numbers
  // ------------------------------------------------------------------------------------------

  function Digit(d: nat): (c: char)
    requires d < 10
  {
    '0' + d as char
  }

  /** printf's %u */
  function Decimal(n: nat): (s: string)
    ensures s != []
  {
    if n < 10 then [Digit(n)] else Decimal(n / 10) + [Digit(n % 10)]
  }

  predicate IsDigit(c: char) {
    '0' <= c <= '9'
  }

  /** strtoul's run of digits, most significant first, up to the first other character. */
  function Magnitude(s: string, acc: nat): (n: nat)
    decreases |s|
  {
    if s == [] || !IsDigit(s[0]) then acc
    else Magnitude(s[1..], 10 * acc + (s[0] as int - '0' as int))
  }

  predicate IsCSpace(c: char) {
    c == ' ' || 9 as char <= c <= 13 as char
  }

  function SkipSpaces(s: string): (r: string) {
    if s != [] && IsCSpace(s[0]) then SkipSpaces(s[1..]) else s
  }

  /** strtoul in base ten (64-bit, saturating; a minus sign negates modulo 2^64), then cut to 32 bits. */
  function StrToU32(s: string): (n: uint32) {
    var t := SkipSpaces(s);
    var negative := t != [] && t[0] == '-';
    var digits := if t != [] && (t[0] == '-' || t[0] == '+') then t[1..] else t;
    var m := Magnitude(digits, 0);
    var v := if m >= 0x1_0000_0000_0000_0000 then 0x1_0000_0000_0000_0000 - 1
             else if negative then (0x1_0000_0000_0000_0000 - m) % 0x1_0000_0000_0000_0000 else m;
    v % 0x1_0000_0000
  }

  /** Decimal notation, digit by digit. */
  lemma {:induction false} DecimalIs(n: nat)
    ensures Decimal(n) == (if n < 10 then [] else Decimal(n / 10)) + ["0123456789"[n % 10]]
  {
    DigitIs(n % 10);
  }

  lemma DigitIs(d: nat)
    requires d < 10
    ensures |"0123456789"| == 10 && Digit(d) == "0123456789"[d]
  {}

  /** The value of a string of digits, from the last to the first. */
  function Value(digits: string): (n: nat)
    requires forall i :: 0 <= i < |digits| ==> '0' <= digits[i] <= '9'
  {
    if digits == [] then 0
    else
      var k := |digits| - 1;
      Value(digits[..k]) * 10 + (digits[k] as int - '0' as int)
  }

  lemma {:induction false} MagnitudeValue(digits: string, rest: string)
    requires forall i :: 0 <= i < |digits| ==> '0' <= digits[i] <= '9'
    requires rest == [] || !('0' <= rest[0] <= '9')
    ensures Magnitude(digits + rest, 0) == Value(digits)
    decreases |digits|
  {
    MagnitudeStops(digits, rest, 0);
    MagnitudeIsValue(digits);
  }

  lemma {:induction false} MagnitudeStops(digits: string, rest: string, acc: nat)
    requires forall i :: 0 <= i < |digits| ==> '0' <= digits[i] <= '9'
    requires rest == [] || !('0' <= rest[0] <= '9')
    ensures Magnitude(digits + rest, acc) == Magnitude(digits, acc)
    decreases |digits|
  {
    if digits == [] {
      assert digits + rest == rest;
    } else {
      assert (digits + rest)[1..] == digits[1..] + rest;
      MagnitudeStops(digits[1..], rest, 10 * acc + (digits[0] as int - '0' as int));
    }
  }

  lemma {:induction false} MagnitudeIsValue(digits: string)
    requires forall i :: 0 <= i < |digits| ==> '0' <= digits[i] <= '9'
    ensures Magnitude(digits, 0) == Value(digits)
    decreases |digits|
  {
    if digits != [] {
      var k := |digits| - 1;
      MagnitudeIsValue(digits[..k]);
      MagnitudeAppend(digits[..k], digits[k] as int - '0' as int, 0);
      assert digits[..k] + [Digit(digits[k] as int - '0' as int)] == digits;
    }
  }

  /** How a number field is read: blanks, at most one sign, digits up to the first other character; too large a number
      saturates, a minus sign negates modulo 2^64, and the low 32 bits are kept. */
  lemma {:induction false} StrToU32Is(blanks: string, sign: string, digits: string, rest: string)
    requires forall i :: 0 <= i < |blanks| ==> blanks[i] in " \t\n\r" || blanks[i] as int in {11, 12}
    requires sign == "" || sign == "+" || sign == "-"
    requires forall i :: 0 <= i < |digits| ==> '0' <= digits[i] <= '9'
    requires rest == [] || !('0' <= rest[0] <= '9')
    requires digits != []
    ensures var v := Value(digits);
            StrToU32(blanks + (sign + (digits + rest)))
              == if v >= 0x1_0000_0000_0000_0000 then 0xFFFF_FFFF
                 else (if sign == "-" then 0x1_0000_0000_0000_0000 - v else v) % 0x1_0000_0000
  {
    var t := sign + (digits + rest);
    SkipsBlanks(blanks, t);
    SkipsNothing(sign, digits, rest);
    MagnitudeValue(digits, rest);
    if sign == "" {
      assert t == digits + rest;
    } else {
      assert t[1..] == digits + rest;
    }
    WrapsBack(Value(digits));
  }

  lemma WrapsBack(v: nat)
    ensures v < 0x1_0000_0000_0000_0000 ==>
              (0x1_0000_0000_0000_0000 - v) % 0x1_0000_0000_0000_0000 % 0x1_0000_0000
                == (0x1_0000_0000_0000_0000 - v) % 0x1_0000_0000
    ensures (0x1_0000_0000_0000_0000 - 1) % 0x1_0000_0000 == 0xFFFF_FFFF
  {}

  lemma {:induction false} SkipsBlanks(blanks: string, t: string)
    requires forall i :: 0 <= i < |blanks| ==> blanks[i] in " \t\n\r" || blanks[i] as int in {11, 12}
    ensures SkipSpaces(blanks + t) == SkipSpaces(t)
    decreases |blanks|
  {
    if blanks == [] {
      assert blanks + t == t;
    } else {
      assert IsCSpace(blanks[0]);
      assert (blanks + t)[1..] == blanks[1..] + t;
      SkipsBlanks(blanks[1..], t);
    }
  }

  lemma {:induction false} SkipsNothing(sign: string, digits: string, rest: string)
    requires (sign == "" || sign == "+" || sign == "-") && digits != [] && '0' <= digits[0] <= '9'
    ensures SkipSpaces(sign + (digits + rest)) == sign + (digits + rest)
    ensures sign == "" ==> (digits + rest)[0] != '-' && (digits + rest)[0] != '+'
  {}

  lemma {:induction false} MagnitudeAppend(a: string, d: nat, acc: nat)
    requires d < 10 && forall i :: 0 <= i < |a| ==> IsDigit(a[i])
    ensures Magnitude(a + [Digit(d)], acc) == 10 * Magnitude(a, acc) + d
    decreases |a|
  {
    var s := a + [Digit(d)];
    if a == [] {
      assert s[1..] == [];
    } else {
      assert s[1..] == a[1..] + [Digit(d)];
      MagnitudeAppend(a[1..], d, 10 * acc + (a[0] as int - '0' as int));
    }
  }

  lemma {:induction false} DecimalRead(n: nat)
    ensures forall i :: 0 <= i < |Decimal(n)| ==> IsDigit(Decimal(n)[i])
    ensures Magnitude(Decimal(n), 0) == n
    decreases n
  {
    if n < 10 {
      assert [Digit(n)][1..] == [];
    } else {
      DecimalRead(n / 10);
      MagnitudeAppend(Decimal(n / 10), n % 10, 0);
    }
  }

  /** Every 32-bit number printed in decimal is read back. */
  lemma DecimalRoundTrip(n: uint32)
    ensures StrToU32(Decimal(n)) == n
  {
    DecimalRead(n);
    var s := Decimal(n);
    assert IsDigit(s[0]);
  }

  // ------------------------------------------------------------------------------------------
  // Messages to the peer
  // ------------------------------------------------------------------------------------------

  /** What the session queues; the builders turn it into JSON. Every kind but the first is numbered. */
  datatype Message =
    | Connected
    | Start(seqNo: uint32, streamSid: string, accountSid: string, callSid: string, custom: Option<Json>)
    | Media(seqNo: uint32, streamSid: string, chunk: uint32, timestampMs: uint32, payload: seq<byte>)
    | MarkAck(seqNo: uint32, streamSid: string, name: string)
    | Stop(seqNo: uint32, streamSid: string, accountSid: string, callSid: string)

  function BuildConnected(): (j: Json) {
    Obj([("event", Str("connected")), ("protocol", Str("Call")), ("version", Str("1.0.0")),
         ("mod_realtime_ws", Obj([("compat", Str("twilio-media-streams")), ("level", Str("L0"))]))])
  }

  function BuildStart(streamSid: string, accountSid: string, callSid: string, custom: Option<Json>, seqNo: uint32)
    : (j: Json)
  {
    var params := if custom.Some? && custom.value.Obj? then custom.value else Obj([]);
    Head("start", seqNo, streamSid,
         Obj([("streamSid", Str(streamSid)), ("accountSid", Str(accountSid)), ("callSid", Str(callSid)),
              ("tracks", Arr([Str("inbound")])), ("customParameters", params),
              ("mediaFormat", Obj([("encoding", Str("audio/x-mulaw")), ("sampleRate", Num(8000.0)),
                                   ("channels", Num(1.0))]))]))
  }

  /** Nothing is built for an empty payload: its encoding has length zero, which the builder takes for a failure. */
  function BuildMedia(streamSid: string, track: string, chunk: uint32, timestampMs: uint32, seqNo: uint32,
                      mulaw: seq<byte>): (r: Option<Json>)
  {
    if mulaw == [] then None
    else Some(MediaJson(streamSid, track, chunk, timestampMs, seqNo, Base64.Encode(mulaw)))
  }

  function MediaJson(streamSid: string, track: string, chunk: uint32, timestampMs: uint32, seqNo: uint32,
                     b64: string): (j: Json)
  {
    Head("media", seqNo, streamSid,
         Obj([("track", Str(track)), ("chunk", Str(Decimal(chunk))), ("timestamp", Str(Decimal(timestampMs))),
              ("payload", Str(b64))]))
  }

  function BuildMark(streamSid: string, name: string, seqNo: uint32): (j: Json) {
    Head("mark", seqNo, streamSid, Obj([("name", Str(name))]))
  }

  function BuildStop(streamSid: string, accountSid: string, callSid: string, seqNo: uint32): (j: Json) {
    Head("stop", seqNo, streamSid, Obj([("accountSid", Str(accountSid)), ("callSid", Str(callSid))]))
  }

  /** The clear that the module writes to its own session. */
  function BuildClear(streamSid: string): (j: Json) {
    Obj([("event", Str("clear")), ("streamSid", Str(streamSid))])
  }

  /** The fields common to numbered messages, and the body under the event's own name. */
  function Head(event: string, seqNo: uint32, streamSid: string, body: Json): (j: Json) {
    Obj([("event", Str(event)), ("sequenceNumber", Str(Decimal(seqNo))), ("streamSid", Str(streamSid)),
         (event, body)])
  }

  // ------------------------------------------------------------------------------------------
  // Messages from the peer
  // ------------------------------------------------------------------------------------------

  datatype EventType = EvtUnknown | EvtConnected | EvtStart | EvtMedia | EvtDtmf | EvtMark | EvtClear | EvtStop

  function MapEvent(s: string): (e: EventType) {
    if s == "connected" then EvtConnected
    else if s == "start" then EvtStart
    else if s == "media" then EvtMedia
    else if s == "dtmf" then EvtDtmf
    else if s == "mark" then EvtMark
    else if s == "clear" then EvtClear
    else if s == "stop" then EvtStop
    else EvtUnknown
  }

  datatype Inbound = Inbound(kind: EventType, streamSid: string, sequenceNumber: uint32, track: string,
                             chunk: uint32, timestampMs: uint32, payload: seq<byte>, markName: string, digit: string)

  /** An event with nothing but its stream and number. */
  function Plain(kind: EventType, streamSid: string, seqNo: uint32): (r: Inbound) {
    Inbound(kind, streamSid, seqNo, "", 0, 0, [], "", "")
  }

  function StringField(j: Option<Json>, cap: nat): (s: string)
    requires 0 < cap
  {
    if j.Some? && j.value.Str? then Playout.Truncate(j.value.s, cap) else ""
  }

  function NumberField(j: Option<Json>): (n: uint32) {
    if j.Some? && j.value.Str? then StrToU32(j.value.s) else 0
  }

  /** A sequence number may also come as a JSON number; one outside the 32-bit range reads as zero here. */
  function SequenceField(j: Option<Json>): (n: uint32) {
    if j.Some? && j.value.Num? then
      if 0.0 <= j.value.value < 4294967296.0 then j.value.value.Floor else 0
    else NumberField(j)
  }

  function SubField(j: Option<Json>, key: string): (r: Option<Json>) {
    if j.Some? && j.value.Obj? then Get(j.value, key) else None
  }

  /** None for text that is not JSON, an event that is not a string, or media without a decodable payload. */
  function ParseInbound(json: Option<Json>, payloadCap: nat): (r: Option<Inbound>) {
    if json.None? then None
    else
      var root := json.value;
      var ev := Get(root, "event");
      if ev.None? || !ev.value.Str? then None
      else
        var kind := MapEvent(ev.value.s);
        var base := Inbound(kind, StringField(Get(root, "streamSid"), SID_MAX),
                            SequenceField(Get(root, "sequenceNumber")), "", 0, 0, [], "", "");
        if kind.EvtMedia? then ParseMedia(base, Get(root, "media"), payloadCap)
        else if kind.EvtMark? then
          Some(base.(markName := StringField(SubField(Get(root, "mark"), "name"), Playout.MARK_NAME_LEN)))
        else if kind.EvtDtmf? then
          Some(base.(digit := StringField(SubField(Get(root, "dtmf"), "digit"), DIGIT_MAX)))
        else Some(base)
  }

  function ParseMedia(base: Inbound, media: Option<Json>, payloadCap: nat): (r: Option<Inbound>) {
    if media.None? || !media.value.Obj? then None
    else
      var payload := Get(media.value, "payload");
      if payload.None? || !payload.value.Str? then None
      else
        var decoded := Base64.Decode(payload.value.s, payloadCap);
        if !decoded.ok then None
        else Some(base.(track := StringField(Get(media.value, "track"), TRACK_MAX),
                        chunk := NumberField(Get(media.value, "chunk")),
                        timestampMs := NumberField(Get(media.value, "timestamp")),
                        payload := decoded.written))
  }

  // ------------------------------------------------------------------------------------------
  // What is built can be read
  // ------------------------------------------------------------------------------------------

  lemma {:induction false} FieldsOfFour(k0: string, j0: Json, k1: string, j1: Json, k2: string, j2: Json,
                                        k3: string, j3: Json)
    requires k0 != k1 && k0 != k2 && k0 != k3 && k1 != k2 && k1 != k3 && k2 != k3
    ensures var o := Obj([(k0, j0), (k1, j1), (k2, j2), (k3, j3)]);
            Get(o, k0) == Some(j0) && Get(o, k1) == Some(j1) && Get(o, k2) == Some(j2) && Get(o, k3) == Some(j3)
  {
    var f3 := [(k3, j3)];
    var f2 := [(k2, j2)] + f3;
    var f1 := [(k1, j1)] + f2;
    var f0 := [(k0, j0)] + f1;
    assert f0 == [(k0, j0), (k1, j1), (k2, j2), (k3, j3)];
    assert f3 == [(k3, j3)] + [];
    LookupHere(k0, j0, f1);
    LookupPast(k0, j0, f1, k1);
    LookupHere(k1, j1, f2);
    LookupPast(k0, j0, f1, k2);
    LookupPast(k1, j1, f2, k2);
    LookupHere(k2, j2, f3);
    LookupPast(k0, j0, f1, k3);
    LookupPast(k1, j1, f2, k3);
    LookupPast(k2, j2, f3, k3);
    LookupHere(k3, j3, []);
  }

  lemma {:induction false} HeadFields(event: string, seqNo: uint32, streamSid: string, body: Json)
    requires NumberedEvent(event)
    ensures var j := Head(event, seqNo, streamSid, body);
            && Get(j, "event") == Some(Str(event)) && Get(j, event) == Some(body)
            && Get(j, "streamSid") == Some(Str(streamSid))
            && Get(j, "sequenceNumber") == Some(Str(Decimal(seqNo)))
  {
    KeysDiffer(event);
    FieldsOfFour("event", Str(event), "sequenceNumber", Str(Decimal(seqNo)), "streamSid", Str(streamSid), event, body);
  }

  predicate NumberedEvent(event: string) {
    event == "media" || event == "mark" || event == "start" || event == "stop"
  }

  lemma KeysDiffer(event: string)
    requires NumberedEvent(event)
    ensures "event" != "sequenceNumber" && "event" != "streamSid" && "sequenceNumber" != "streamSid"
    ensures "event" != event && "sequenceNumber" != event && "streamSid" != event
  {
    assert "event"[0] == 'e' && "media"[0] == 'm' && "start"[0] == 's';
    assert |"event"| == 5 && |"sequenceNumber"| == 14 && |"streamSid"| == 9;
    assert |"media"| == 5 && |"mark"| == 4 && |"start"| == 5 && |"stop"| == 4;
  }

  lemma EventNames()
    ensures MapEvent("media") == EvtMedia && MapEvent("mark") == EvtMark
    ensures MapEvent("connected") == EvtConnected && MapEvent("start") == EvtStart && MapEvent("stop") == EvtStop
    ensures MapEvent("clear") == EvtClear
  {
    assert |"media"| == 5 && |"connected"| == 9 && |"mark"| == 4 && |"dtmf"| == 4;
    assert |"start"| == 5 && |"stop"| == 4 && |"clear"| == 5;
    assert "media"[0] == 'm' && "start"[0] == 's' && "mark"[0] == 'm' && "dtmf"[0] == 'd' && "clear"[0] == 'c';
    assert "stop"[0] == 's';
  }

  lemma {:induction false} MediaFields(track: string, chunk: uint32, timestampMs: uint32, b64: string)
    ensures var o := Obj([("track", Str(track)), ("chunk", Str(Decimal(chunk))),
                          ("timestamp", Str(Decimal(timestampMs))), ("payload", Str(b64))]);
            && Get(o, "track") == Some(Str(track)) && Get(o, "chunk") == Some(Str(Decimal(chunk)))
            && Get(o, "timestamp") == Some(Str(Decimal(timestampMs))) && Get(o, "payload") == Some(Str(b64))
  {
    assert |"track"| == 5 && |"chunk"| == 5 && |"timestamp"| == 9 && |"payload"| == 7;
    assert "track"[0] == 't' && "chunk"[0] == 'c';
    FieldsOfFour("track", Str(track), "chunk", Str(Decimal(chunk)), "timestamp", Str(Decimal(timestampMs)),
                 "payload", Str(b64));
  }

  /** A media message parses back to its own fields exactly when its payload fits the reader's buffer; identifiers
      longer than the reader's are cut. */
  lemma {:induction false} MediaRoundTrip(streamSid: string, track: string, chunk: uint32, timestampMs: uint32,
                                          seqNo: uint32, mulaw: seq<byte>, cap: nat)
    requires mulaw != []
    ensures var r := ParseInbound(BuildMedia(streamSid, track, chunk, timestampMs, seqNo, mulaw), cap);
            && (r.Some? <==> |mulaw| <= cap)
            && (r.Some? ==> r.value == Inbound(EvtMedia, Playout.Truncate(streamSid, SID_MAX), seqNo,
                                               Playout.Truncate(track, TRACK_MAX), chunk, timestampMs, mulaw, "", ""))
  {
    var b64 := Base64.Encode(mulaw);
    var body := Obj([("track", Str(track)), ("chunk", Str(Decimal(chunk))), ("timestamp", Str(Decimal(timestampMs))),
                     ("payload", Str(b64))]);
    HeadFields("media", seqNo, streamSid, body);
    EventNames();
    DecimalRoundTrip(seqNo);
    var base := Plain(EvtMedia, Playout.Truncate(streamSid, SID_MAX), seqNo);
    MediaBodyRoundTrip(base, track, chunk, timestampMs, mulaw, cap);
  }

  lemma {:induction false} MediaBodyRoundTrip(base: Inbound, track: string, chunk: uint32, timestampMs: uint32,
                                              mulaw: seq<byte>, cap: nat)
    ensures var body := Obj([("track", Str(track)), ("chunk", Str(Decimal(chunk))),
                             ("timestamp", Str(Decimal(timestampMs))), ("payload", Str(Base64.Encode(mulaw)))]);
            ParseMedia(base, Some(body), cap)
              == if |mulaw| > cap then None
                 else Some(base.(track := Playout.Truncate(track, TRACK_MAX), chunk := chunk,
                                 timestampMs := timestampMs, payload := mulaw))
  {
    MediaFields(track, chunk, timestampMs, Base64.Encode(mulaw));
    Base64.RoundTrip(mulaw, cap);
    DecimalRoundTrip(chunk);
    DecimalRoundTrip(timestampMs);
  }

  lemma {:induction false} StartRoundTrip(streamSid: string, accountSid: string, callSid: string, custom: Option<Json>,
                                          seqNo: uint32, cap: nat)
    ensures ParseInbound(Some(BuildStart(streamSid, accountSid, callSid, custom, seqNo)), cap)
         == Some(Plain(EvtStart, Playout.Truncate(streamSid, SID_MAX), seqNo))
  {
    var params := if custom.Some? && custom.value.Obj? then custom.value else Obj([]);
    var body := Obj([("streamSid", Str(streamSid)), ("accountSid", Str(accountSid)), ("callSid", Str(callSid)),
                     ("tracks", Arr([Str("inbound")])), ("customParameters", params),
                     ("mediaFormat", Obj([("encoding", Str("audio/x-mulaw")), ("sampleRate", Num(8000.0)),
                                          ("channels", Num(1.0))]))]);
    HeadFields("start", seqNo, streamSid, body);
    EventNames();
    DecimalRoundTrip(seqNo);
  }

  lemma {:induction false} StopRoundTrip(streamSid: string, accountSid: string, callSid: string, seqNo: uint32,
                                         cap: nat)
    ensures ParseInbound(Some(BuildStop(streamSid, accountSid, callSid, seqNo)), cap)
         == Some(Plain(EvtStop, Playout.Truncate(streamSid, SID_MAX), seqNo))
  {
    HeadFields("stop", seqNo, streamSid, Obj([("accountSid", Str(accountSid)), ("callSid", Str(callSid))]));
    EventNames();
    DecimalRoundTrip(seqNo);
  }

  /** `connected` names no stream and carries no number. */
  lemma {:induction false} ConnectedRoundTrip(cap: nat)
    ensures ParseInbound(Some(BuildConnected()), cap) == Some(Plain(EvtConnected, "", 0))
  {}

  lemma {:induction false} ClearRoundTrip(streamSid: string, cap: nat)
    ensures var r := ParseInbound(Some(BuildClear(streamSid)), cap);
            r.Some? && r.value.kind == EvtClear && r.value.streamSid == Playout.Truncate(streamSid, SID_MAX)
  {
    var j, rest := BuildClear(streamSid), [("streamSid", Str(streamSid))];
    assert |"event"| == 5 && |"streamSid"| == 9;
    assert j.fields == [("event", Str("clear"))] + rest && rest == rest + [];
    LookupHere("event", Str("clear"), rest);
    LookupPast("event", Str("clear"), rest, "streamSid");
    LookupHere("streamSid", Str(streamSid), []);
    EventNames();
  }

  lemma {:induction false} MarkRoundTrip(streamSid: string, name: string, seqNo: uint32, cap: nat)
    ensures ParseInbound(Some(BuildMark(streamSid, name, seqNo)), cap)
         == Some(Inbound(EvtMark, Playout.Truncate(streamSid, SID_MAX), seqNo, "", 0, 0, [],
                         Playout.Truncate(name, Playout.MARK_NAME_LEN), ""))
  {
    HeadFields("mark", seqNo, streamSid, Obj([("name", Str(name))]));
    EventNames();
    LookupHere("name", Str(name), []);
    assert [("name", Str(name))] == [("name", Str(name))] + [];
    DecimalRoundTrip(seqNo);
  }
}
