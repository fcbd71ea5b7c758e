/** The documents as docs/PROTOCOL.md describes them: field by field what the module writes, and what it makes of any
    document a peer may write, whatever other fields are present or missing. */
module Documents {
  import opened Sequences
  import opened Protocol
  import opened Session
  import Base64
  import P = Playout

  // ------------------------------------------------------------------------------------------
  // What is written
  // ------------------------------------------------------------------------------------------

  lemma {:induction false} LookupFirst(fields: seq<(string, Json)>, i: nat)
    requires i < |fields| && forall j :: 0 <= j < i ==> fields[j].0 != fields[i].0
    ensures Lookup(fields, fields[i].0) == Some(fields[i].1)
    decreases i
  {
    if i > 0 {
      assert fields[1..][i - 1] == fields[i];
      forall j | 0 <= j < i - 1 ensures fields[1..][j].0 != fields[i].0 {
        assert fields[1..][j] == fields[j + 1];
      }
      LookupFirst(fields[1..], i - 1);
    }
  }

  lemma {:induction false} Field(j: Json, i: nat)
    requires j.Obj? && i < |j.fields| && forall k :: 0 <= k < i ==> j.fields[k].0 != j.fields[i].0
    ensures Get(j, j.fields[i].0) == Some(j.fields[i].1)
  {
    LookupFirst(j.fields, i);
  }

  /** The value at a path of two names. */
  function At(j: Json, outer: string, inner: string): (r: Option<Json>) {
    var o := Get(j, outer);
    if o.None? then None else Get(o.value, inner)
  }

  lemma {:induction false} ConnectedDocument()
    ensures var j := BuildConnected();
            && Get(j, "event") == Some(Str("connected"))
            && Get(j, "protocol") == Some(Str("Call")) && Get(j, "version") == Some(Str("1.0.0"))
  {
    var j := BuildConnected();
    assert |"event"| == 5 && |"protocol"| == 8 && |"version"| == 7;
    Field(j, 0);
    Field(j, 1);
    Field(j, 2);
  }

  /** The four fields of every numbered document. */
  lemma {:induction false} HeadDocument(event: string, seqNo: uint32, streamSid: string, body: Json)
    requires NumberedEvent(event)
    ensures var j := Head(event, seqNo, streamSid, body);
            && Get(j, "event") == Some(Str(event)) && Get(j, "sequenceNumber") == Some(Str(Decimal(seqNo)))
            && Get(j, "streamSid") == Some(Str(streamSid)) && Get(j, event) == Some(body)
  {
    HeadFields(event, seqNo, streamSid, body);
  }

  lemma {:induction false} StartDocument(sid: string, account: string, call: string, custom: Option<Json>, n: uint32)
    ensures var j := BuildStart(sid, account, call, custom, n);
            && Get(j, "event") == Some(Str("start")) && Get(j, "sequenceNumber") == Some(Str(Decimal(n)))
            && Get(j, "streamSid") == Some(Str(sid))
            && At(j, "start", "streamSid") == Some(Str(sid))
            && At(j, "start", "accountSid") == Some(Str(account)) && At(j, "start", "callSid") == Some(Str(call))
            && At(j, "start", "tracks") == Some(Arr([Str("inbound")]))
    ensures var j := BuildStart(sid, account, call, custom, n);
            && At(j, "start", "customParameters")
                 == Some(if custom.Some? && custom.value.Obj? then custom.value else Obj([]))
            && At(j, "start", "mediaFormat")
                 == Some(Obj([("encoding", Str("audio/x-mulaw")), ("sampleRate", Num(8000.0)), ("channels", Num(1.0))]))
  {
    var params := if custom.Some? && custom.value.Obj? then custom.value else Obj([]);
    var body := Obj([("streamSid", Str(sid)), ("accountSid", Str(account)), ("callSid", Str(call)),
                     ("tracks", Arr([Str("inbound")])), ("customParameters", params),
                     ("mediaFormat", Obj([("encoding", Str("audio/x-mulaw")), ("sampleRate", Num(8000.0)),
                                          ("channels", Num(1.0))]))]);
    HeadDocument("start", n, sid, body);
    StartKeys();
    Field(body, 0);
    Field(body, 1);
    Field(body, 2);
    Field(body, 3);
    Field(body, 4);
    Field(body, 5);
  }

  lemma StartKeys()
    ensures |"streamSid"| == 9 && |"accountSid"| == 10 && |"callSid"| == 7 && |"tracks"| == 6
    ensures |"customParameters"| == 16 && |"mediaFormat"| == 11
  {}

  lemma {:induction false} MediaDocument(sid: string, track: string, chunk: uint32, ts: uint32, n: uint32, x: seq<byte>)
    requires x != []
    ensures var b := BuildMedia(sid, track, chunk, ts, n, x);
            b.Some? && var j := b.value;
            && Get(j, "event") == Some(Str("media")) && Get(j, "sequenceNumber") == Some(Str(Decimal(n)))
            && Get(j, "streamSid") == Some(Str(sid)) && At(j, "media", "track") == Some(Str(track))
            && At(j, "media", "chunk") == Some(Str(Decimal(chunk)))
            && At(j, "media", "timestamp") == Some(Str(Decimal(ts)))
            && At(j, "media", "payload") == Some(Str(Base64.Encode(x)))
  {
    var b64 := Base64.Encode(x);
    var body := Obj([("track", Str(track)), ("chunk", Str(Decimal(chunk))), ("timestamp", Str(Decimal(ts))),
                     ("payload", Str(b64))]);
    HeadDocument("media", n, sid, body);
    MediaFields(track, chunk, ts, b64);
  }

  lemma {:induction false} MarkDocument(sid: string, name: string, n: uint32)
    ensures var j := BuildMark(sid, name, n);
            && Get(j, "event") == Some(Str("mark")) && Get(j, "sequenceNumber") == Some(Str(Decimal(n)))
            && Get(j, "streamSid") == Some(Str(sid)) && At(j, "mark", "name") == Some(Str(name))
  {
    var body := Obj([("name", Str(name))]);
    HeadDocument("mark", n, sid, body);
    Field(body, 0);
  }

  lemma {:induction false} StopDocument(sid: string, account: string, call: string, n: uint32)
    ensures var j := BuildStop(sid, account, call, n);
            && Get(j, "event") == Some(Str("stop")) && Get(j, "sequenceNumber") == Some(Str(Decimal(n)))
            && Get(j, "streamSid") == Some(Str(sid)) && At(j, "stop", "accountSid") == Some(Str(account))
            && At(j, "stop", "callSid") == Some(Str(call))
  {
    var body := Obj([("accountSid", Str(account)), ("callSid", Str(call))]);
    HeadDocument("stop", n, sid, body);
    assert |"accountSid"| == 10 && |"callSid"| == 7;
    Field(body, 0);
    Field(body, 1);
  }

  // ------------------------------------------------------------------------------------------
  // What is read
  // ------------------------------------------------------------------------------------------

  /** The stream a document names, cut to 63 bytes; nothing if it names none. */
  function NamedStream(doc: Json): (sid: string) {
    var f := Get(doc, "streamSid");
    if f.Some? && f.value.Str? then P.Truncate(f.value.s, 64) else ""
  }

  predicate IsEvent(doc: Json, event: string) {
    Get(doc, "event") == Some(Str(event))
  }

  /** It is for this stream, or for none in particular. */
  predicate Concerns(s: Session, doc: Json) {
    NamedStream(doc) == "" || NamedStream(doc) == s.streamSid
  }

  lemma {:induction false} EventTable(event: string)
    ensures MapEvent(event).EvtMedia? <==> event == "media"
    ensures MapEvent(event).EvtMark? <==> event == "mark"
    ensures MapEvent(event).EvtClear? <==> event == "clear"
    ensures MapEvent(event).EvtDtmf? <==> event == "dtmf"
    ensures MapEvent(event).EvtConnected? <==> event == "connected"
    ensures MapEvent(event).EvtStart? <==> event == "start"
    ensures MapEvent(event).EvtStop? <==> event == "stop"
  {
    assert |"connected"| == 9 && |"start"| == 5 && |"media"| == 5 && |"dtmf"| == 4 && |"mark"| == 4;
    assert |"clear"| == 5 && |"stop"| == 4;
    assert "start"[0] == 's' && "media"[0] == 'm' && "clear"[0] == 'c';
    assert "dtmf"[0] == 'd' && "mark"[0] == 'm' && "stop"[0] == 's';
  }

  /** Media is played if its payload decodes within 64 KiB and it is for this stream: only `event` and the payload
      have to be there. */
  lemma {:induction false} AnyMediaText(s: Session, doc: Json)
    requires s.state.Running? && IsEvent(doc, "media")
    ensures var t := At(doc, "media", "payload");
            var ok := t.Some? && t.value.Str? && Base64.Decode(t.value.s, 65536).ok;
            Classify(s, Some(doc)) == if !ok then Refused else if !Concerns(s, doc) then Foreign
                                      else Play(Base64.Decode(t.value.s, 65536).written)
  {
    EventTable("media");
  }

  /** So audio for this stream is played, byte for byte, if there is room for all of it. */
  lemma {:induction false} AnyMediaPlays(s: Session, doc: Json, x: seq<byte>)
    requires s.state.Running? && IsEvent(doc, "media") && Concerns(s, doc)
    requires At(doc, "media", "payload") == Some(Str(Base64.Encode(x))) && |x| <= 65536
    ensures Classify(s, Some(doc)) == Play(x)
    ensures PeerResult(s, Some(doc)) == if x == [] || |s.playout.data| + |x| <= s.playout.capacity then 0 else -2
  {
    AnyMediaText(s, doc);
    Base64.RoundTrip(x, 65536);
  }

  /** A mark for this stream is queued under its name, cut to 127 bytes, or under none, if fewer than 64 are pending. */
  lemma {:induction false} AnyMarkPins(s: Session, doc: Json)
    requires s.state.Running? && IsEvent(doc, "mark") && Concerns(s, doc)
    ensures var name := At(doc, "mark", "name");
            Classify(s, Some(doc)) == Pin(if name.Some? && name.value.Str? then P.Truncate(name.value.s, 128) else "")
    ensures PeerResult(s, Some(doc)) == if |s.playout.marks| < 64 then 0 else -1
  {
    EventTable("mark");
  }

  lemma {:induction false} AnyClearInterrupts(s: Session, doc: Json)
    requires s.state.Running? && IsEvent(doc, "clear") && Concerns(s, doc)
    ensures Classify(s, Some(doc)) == BargeIn && PeerResult(s, Some(doc)) == 0
  {
    EventTable("clear");
  }

  /** Every other event is taken and changes nothing. */
  lemma {:induction false} OtherEventsIgnored(s: Session, doc: Json, event: string, nowNs: nat)
    requires Fits(s) && s.state.Running? && IsEvent(doc, event) && Concerns(s, doc)
    requires event != "media" && event != "mark" && event != "clear"
    ensures Classify(s, Some(doc)) == Ignored && PeerResult(s, Some(doc)) == 0
    ensures Step(s, PeerCommand(Classify(s, Some(doc)), nowNs)) == s
  {
    EventTable(event);
  }

  /** What names another stream is answered 1, unless it is media without a readable payload. */
  lemma {:induction false} OtherStreamsForeign(s: Session, doc: Json, event: string)
    requires s.state.Running? && IsEvent(doc, event) && !Concerns(s, doc) && event != "media"
    ensures Classify(s, Some(doc)) == Foreign && PeerResult(s, Some(doc)) == 1
  {
    EventTable(event);
  }

  /** Anything is refused when the session does not run; text that is not JSON and documents without an event,
      always. */
  lemma {:induction false} NonsenseRefused(s: Session, json: Option<Json>)
    requires !s.state.Running? || json.None? || Get(json.value, "event").None? || !Get(json.value, "event").value.Str?
    ensures Classify(s, json) == Refused && PeerResult(s, json) == -1
  {}

  /** The number of a document: a string is read as a number field, a number is cut to its integer part. */
  lemma {:induction false} AnyNumber(doc: Json, event: string, cap: nat)
    requires IsEvent(doc, event) && event != "media"
    ensures var r := ParseInbound(Some(doc), cap); var f := Get(doc, "sequenceNumber");
            && r.Some? && r.value.streamSid == NamedStream(doc)
            && (f.None? ==> r.value.sequenceNumber == 0)
            && (f.Some? && f.value.Str? ==> r.value.sequenceNumber == StrToU32(f.value.s))
            && (f.Some? && f.value.Num? && 0.0 <= f.value.value < 4294967296.0 ==>
                  (r.value.sequenceNumber as real) <= f.value.value < (r.value.sequenceNumber as real) + 1.0)
  {
    EventTable(event);
  }

  /** The other fields of media, each optional: the track cut to 31 bytes, chunk and timestamp as number fields. */
  lemma {:induction false} AnyMediaFields(doc: Json, cap: nat)
    requires IsEvent(doc, "media") && ParseInbound(Some(doc), cap).Some?
    ensures var r := ParseInbound(Some(doc), cap).value; var t, c, ts := At(doc, "media", "track"),
                At(doc, "media", "chunk"), At(doc, "media", "timestamp");
            && r.streamSid == NamedStream(doc)
            && r.track == (if t.Some? && t.value.Str? then P.Truncate(t.value.s, 32) else "")
            && r.chunk == (if c.Some? && c.value.Str? then StrToU32(c.value.s) else 0)
            && r.timestampMs == if ts.Some? && ts.value.Str? then StrToU32(ts.value.s) else 0
  {
    EventTable("media");
  }

  lemma {:induction false} AnyDigit(doc: Json, cap: nat)
    requires IsEvent(doc, "dtmf")
    ensures var r := ParseInbound(Some(doc), cap); var d := At(doc, "dtmf", "digit");
            r.Some? && r.value.digit == if d.Some? && d.value.Str? then P.Truncate(d.value.s, 8) else ""
  {
    EventTable("dtmf");
  }
}
