/** Every message a session queues is one its own parser understands, field for field. */
module Readback {
  import opened Sequences
  import opened Protocol
  import opened Session
  import opened SessionRuns
  import P = Playout
  import D = Documents
  import N = Tallies
  import Base64
  import B = BridgeRuns

  /** The document that goes on the wire for a queued message. */
  function Build(m: Message): (j: Option<Json>) {
    match m
    case Connected => Some(BuildConnected())
    case Start(seqNo, streamSid, accountSid, callSid, custom) =>
      Some(BuildStart(streamSid, accountSid, callSid, custom, seqNo))
    case Media(seqNo, streamSid, chunk, timestampMs, payload) =>
      BuildMedia(streamSid, "inbound", chunk, timestampMs, seqNo, payload)
    case MarkAck(seqNo, streamSid, name) => Some(BuildMark(streamSid, name, seqNo))
    case Stop(seqNo, streamSid, accountSid, callSid) => Some(BuildStop(streamSid, accountSid, callSid, seqNo))
  }

  /** What a reader should find in it; account, call and custom parameters are not read. */
  function Meaning(m: Message): (r: Inbound) {
    match m
    case Connected => Plain(EvtConnected, "", 0)
    case Start(seqNo, streamSid, _, _, _) => Plain(EvtStart, streamSid, seqNo)
    case Media(seqNo, streamSid, chunk, timestampMs, payload) =>
      Plain(EvtMedia, streamSid, seqNo)
        .(track := "inbound", chunk := chunk, timestampMs := timestampMs, payload := payload)
    case MarkAck(seqNo, streamSid, name) => Plain(EvtMark, streamSid, seqNo).(markName := name)
    case Stop(seqNo, streamSid, _, _) => Plain(EvtStop, streamSid, seqNo)
  }

  /** There is audio in a media message, and nothing is longer than the fields of a reader with room for `cap` bytes of
      audio. */
  predicate Sized(m: Message, cap: nat) {
    && (m.Connected? || |m.streamSid| < 64)
    && (m.Media? ==> 0 < |m.payload| <= cap)
    && (m.MarkAck? ==> |m.name| < 128)
  }

  /** Building and parsing a message gives back what it means if and only if it is sized. */
  lemma {:induction false} ReadsBackIff(m: Message, cap: nat)
    ensures ParseInbound(Build(m), cap) == Some(Meaning(m)) <==> Sized(m, cap)
  {
    match m {
      case Connected => ConnectedRoundTrip(cap);
      case Start(seqNo, streamSid, accountSid, callSid, custom) =>
        StartRoundTrip(streamSid, accountSid, callSid, custom, seqNo, cap);
      case Media(seqNo, streamSid, chunk, timestampMs, payload) =>
        if payload != [] {
          MediaRoundTrip(streamSid, "inbound", chunk, timestampMs, seqNo, payload, cap);
        }
      case MarkAck(seqNo, streamSid, name) => MarkRoundTrip(streamSid, name, seqNo, cap);
      case Stop(seqNo, streamSid, accountSid, callSid) => StopRoundTrip(streamSid, accountSid, callSid, seqNo, cap);
    }
  }

  // ------------------------------------------------------------------------------------------
  // Sizes over runs
  // ------------------------------------------------------------------------------------------

  predicate MarksSized(marks: seq<P.Mark>) {
    forall i :: 0 <= i < |marks| ==> |marks[i].name| < 128
  }

  predicate NamesSized(names: seq<string>) {
    forall i :: 0 <= i < |names| ==> |names[i]| < 128
  }

  predicate AllSized(msgs: seq<Message>) {
    forall i :: 0 <= i < |msgs| ==> Sized(msgs[i], 65536)
  }

  ghost predicate SessionSized(s: Session) {
    |s.streamSid| < 64 && MarksSized(s.playout.marks)
  }

  lemma {:induction false} FilterSized(marks: seq<P.Mark>)
    requires MarksSized(marks)
    ensures MarksSized(P.Pending(marks)) && NamesSized(P.Done(marks))
    decreases |marks|
  {
    if marks != [] {
      FilterSized(marks[..|marks| - 1]);
    }
  }

  /** The marks stay within the names' bound whatever is done to the playout. */
  lemma {:induction false} StepMarksSized(s: Session, a: Action)
    requires Fits(s) && SessionSized(s)
    ensures SessionSized(Step(s, a))
  {
    FilterSized(s.playout.marks);
  }

  lemma {:induction false} AcksSized(sid: string, first: uint32, names: seq<string>)
    requires |sid| < 64 && NamesSized(names)
    ensures AllSized(Acks(sid, first, names))
  {}

  lemma {:induction false} EmittedSized(s: Session, a: Action)
    requires Fits(s) && SessionSized(s)
    ensures AllSized(Emitted(s, a))
  {
    if a.HarvestMarks? {
      FilterSized(s.playout.marks);
      AcksSized(s.streamSid, s.seqNo, P.Harvested(s.playout, 8));
    } else if a.PeerCommand? {
      AcksSized(s.streamSid, s.seqNo, P.Flushed(s.playout, 64));
    }
  }

  lemma {:induction false} HistorySized(c: Config, acts: seq<Action>)
    ensures var w := WorldRun(WorldBegin(c), acts); SessionSized(w.s) && AllSized(w.q.pushed)
    decreases |acts|
  {
    if acts == [] {
      OpeningSized(c);
    } else {
      var init := acts[..|acts| - 1];
      HistorySized(c, init);
      RunSound(c, init);
      StepSized(WorldRun(WorldBegin(c), init), acts[|acts| - 1]);
    }
  }

  lemma {:induction false} OpeningSized(c: Config)
    ensures SessionSized(WorldBegin(c).s) && AllSized(WorldBegin(c).q.pushed)
  {
    BeginSound(c);
    HandshakeSized(Opened(Init(c.queueCap, c.playoutCap), c.streamSid, c.callSid, c.accountSid, c.custom));
    OpeningNames(c);
  }

  lemma {:induction false} OpeningNames(c: Config)
    ensures SessionSized(Opening(c))
  {}

  lemma {:induction false} HandshakeSized(s: Session)
    requires |s.streamSid| < 64
    ensures AllSized(Handshake(s))
  {}

  lemma {:induction false} StepSized(w: World, a: Action)
    requires Sound(w) && SessionSized(w.s) && AllSized(w.q.pushed)
    ensures SessionSized(WorldStep(w, a).s) && AllSized(WorldStep(w, a).q.pushed)
  {
    StepHistory(w, a);
    StepMarksSized(w.s, a);
    EmittedSized(w.s, a);
  }

  /** In every run, each message ever queued is built, and its document parses back to the message's own kind, stream,
      number and contents; no field is cut and no audio is lost. */
  lemma {:induction false} HistoryReadsBack(c: Config, acts: seq<Action>, i: nat)
    requires i < |WorldRun(WorldBegin(c), acts).q.pushed|
    ensures var m := WorldRun(WorldBegin(c), acts).q.pushed[i];
            ParseInbound(Build(m), 65536) == Some(Meaning(m))
  {
    HistorySized(c, acts);
    ReadsBackIff(WorldRun(WorldBegin(c), acts).q.pushed[i], 65536);
  }

  /** The document of a message, field by field. */
  ghost predicate Documented(m: Message, b: Option<Json>) {
    && b.Some?
    && var j := b.value;
       match m
       case Connected =>
         && Get(j, "event") == Some(Str("connected"))
         && Get(j, "protocol") == Some(Str("Call")) && Get(j, "version") == Some(Str("1.0.0"))
       case Start(n, sid, account, call, custom) =>
         && Heading(j, "start", n, sid) && D.At(j, "start", "streamSid") == Some(Str(sid))
         && D.At(j, "start", "accountSid") == Some(Str(account)) && D.At(j, "start", "callSid") == Some(Str(call))
         && (custom.Some? && custom.value.Obj? ==> D.At(j, "start", "customParameters") == custom)
       case Media(n, sid, chunk, ts, x) =>
         && Heading(j, "media", n, sid) && D.At(j, "media", "track") == Some(Str("inbound"))
         && D.At(j, "media", "chunk") == Some(Str(Decimal(chunk)))
         && D.At(j, "media", "timestamp") == Some(Str(Decimal(ts)))
         && D.At(j, "media", "payload") == Some(Str(Base64.Encode(x)))
       case MarkAck(n, sid, name) => Heading(j, "mark", n, sid) && D.At(j, "mark", "name") == Some(Str(name))
       case Stop(n, sid, account, call) =>
         && Heading(j, "stop", n, sid)
         && D.At(j, "stop", "accountSid") == Some(Str(account)) && D.At(j, "stop", "callSid") == Some(Str(call))
  }

  ghost predicate Heading(j: Json, event: string, n: uint32, sid: string) {
    && Get(j, "event") == Some(Str(event)) && Get(j, "sequenceNumber") == Some(Str(Decimal(n)))
    && Get(j, "streamSid") == Some(Str(sid))
  }

  lemma {:induction false} DocumentOf(m: Message)
    requires m.Media? ==> m.payload != []
    ensures Documented(m, Build(m))
  {
    match m {
      case Connected => D.ConnectedDocument();
      case Start(n, sid, account, call, custom) => D.StartDocument(sid, account, call, custom, n);
      case Media(n, sid, chunk, ts, x) => D.MediaDocument(sid, "inbound", chunk, ts, n, x);
      case MarkAck(n, sid, name) => D.MarkDocument(sid, name, n);
      case Stop(n, sid, account, call) => D.StopDocument(sid, account, call, n);
    }
  }

  /** Every document of every run has the fields of its message, and the message carries the names of the stream. */
  lemma {:induction false} HistoryDocumented(c: Config, acts: seq<Action>, i: nat)
    requires i < |WorldRun(WorldBegin(c), acts).q.pushed|
    ensures var m := WorldRun(WorldBegin(c), acts).q.pushed[i]; Documented(m, Build(m)) && N.Named(c, m)
  {
    HistorySized(c, acts);
    N.HistoryNamed(c, acts);
    DocumentOf(WorldRun(WorldBegin(c), acts).q.pushed[i]);
  }

  /** The same of everything a bridge hands to its sockets, over every run. */
  lemma {:induction false} WireReadsBack(p: B.Setup, events: seq<B.Event>, k: nat)
    requires k < |B.Wire(p, events)|
    ensures var m := B.Wire(p, events)[k]; ParseInbound(Build(m), 65536) == Some(Meaning(m))
  {
    B.WireIsTaken(p, events);
    B.BridgeRunIsSessionRun(p, events);
    var t := B.Trace(p, events).q;
    var i := SelectedFrom(t.pushed[..|t.fates|], t.fates, k);
    HistoryReadsBack(p.c, B.AllActs(p, events), i);
  }
}
