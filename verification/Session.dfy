/** rtw_session.c: the stream's state machine, its numbering, its outbound queue and its playout buffer.
    A media frame is 160 samples, 20 ms at 8 kHz. */
module Session {
  import opened Sequences
  import opened Protocol
  import Mulaw
  import Base64
  import Q = OutboundQueue
  import P = Playout
  import T = Timeline

  const HARVEST_MAX: nat := 8
  const PAYLOAD_CAP: nat := 64 * 1024
  const DEFAULT_ACCOUNT := "AC00000000000000000000000000000000"

  datatype State = Idle | Starting | Running | Stopping | Stopped

  datatype Latency = Latency(last: nat, max: nat, sum: nat, samples: nat, buckets: seq<nat>)

  datatype Session = Session(
    state: State, streamSid: string, callSid: string, accountSid: string, custom: Option<Json>,
    seqNo: uint32, chunk: uint32, timestampMs: uint32,
    outbound: Q.Queue<Message>, playout: P.Buffer, paused: bool,
    uplinkFrames: nat, downlinkFrames: nat,
    clearEvents: nat, clearArmed: bool, clearStartNs: nat, latency: Latency)

  predicate Fits(s: Session) {
    Q.Fits(s.outbound) && P.Fits(s.playout) && |s.latency.buckets| == 8
  }

  function Add32(x: uint32, n: nat): (r: uint32) {
    (x + n) % 0x1_0000_0000
  }

  function Init(queueCap: nat, playoutCap: nat): (s: Session)
    ensures Fits(s)
  {
    Session(Idle, "", "", "", None, 0, 0, 0,
            Q.New(if queueCap == 0 then 64 else queueCap), P.New(if playoutCap == 0 then 8 * 8000 else playoutCap),
            false, 0, 0, 0, false, 0, Latency(0, 0, 0, 0, [0, 0, 0, 0, 0, 0, 0, 0]))
  }

  function Identify(s: Session, streamSid: string, callSid: Option<string>, accountSid: Option<string>,
                    custom: Option<Json>): (r: Session)
  {
    s.(streamSid := P.Truncate(streamSid, SID_MAX),
       callSid := P.Truncate(if callSid.Some? then callSid.value else streamSid, SID_MAX),
       accountSid := P.Truncate(if accountSid.Some? then accountSid.value else DEFAULT_ACCOUNT, SID_MAX),
       custom := custom)
  }

  function Handshake(s: Session): (msgs: seq<Message>)
    ensures |msgs| == 2
  {
    [Connected, Message.Start(s.seqNo, s.streamSid, s.accountSid, s.callSid, s.custom)]
  }

  /** `connected` and `start`, the latter numbered. */
  function Greeted(s: Session): (r: Session)
    requires Fits(s)
    ensures Fits(r)
  {
    s.(outbound := Q.PushAll(s.outbound, Handshake(s)), seqNo := Add32(s.seqNo, 1))
  }

  function Opened(s: Session, streamSid: string, callSid: Option<string>, accountSid: Option<string>,
                  custom: Option<Json>): (r: Session)
  {
    Identify(s, streamSid, callSid, accountSid, custom).(seqNo := 1, chunk := 1, timestampMs := 0, state := Starting)
  }

  function Begin(s: Session, streamSid: string, callSid: Option<string>, accountSid: Option<string>,
                 custom: Option<Json>): (r: Session)
    requires Fits(s)
    ensures Fits(r)
  {
    Greeted(Opened(s, streamSid, callSid, accountSid, custom)).(state := Running)
  }

  lemma {:induction false} BeginFields(s: Session, streamSid: string, callSid: Option<string>,
                                       accountSid: Option<string>, custom: Option<Json>)
    requires Fits(s)
    ensures var r := Begin(s, streamSid, callSid, accountSid, custom);
            && r.state == Running && r.seqNo == 2 && r.chunk == 1 && r.timestampMs == 0 && r.custom == custom
            && r.streamSid == P.Truncate(streamSid, 64)
            && r.callSid == P.Truncate(if callSid.Some? then callSid.value else streamSid, 64)
            && r.accountSid
                 == P.Truncate(if accountSid.Some? then accountSid.value else "AC00000000000000000000000000000000", 64)
  {}

  // ------------------------------------------------------------------------------------------
  // One action at a time
  // ------------------------------------------------------------------------------------------

  /** What a text from the peer asks for. */
  datatype Command = Refused | Foreign | Play(payload: seq<byte>) | Pin(name: string) | BargeIn | Ignored

  /** The session's entry points. `SendHead` is the drop of the queue's head after it was sent. */
  datatype Action =
    | PushPcm(pcm: seq<int16>)
    | PeerCommand(c: Command, nowNs: nat)
    | HarvestMarks
    | SendHead
    | ReadPlayout(maxLen: nat)
    | NoteWrite(samplesWritten: nat, nowNs: nat)
    | SetPaused(on: bool)
    | StopStream
    | Rehandshake

  /** One message per whole frame of `pcm`, with consecutive numbers, chunks and 20 ms timestamps. */
  function MediaFrames(streamSid: string, seqNo: uint32, chunk: uint32, timestampMs: uint32, pcm: seq<int16>)
    : (msgs: seq<Message>)
    ensures |msgs| == |pcm| / 160
  {
    seq(|pcm| / 160, i requires 0 <= i < |pcm| / 160 =>
      MediaFrame(streamSid, seqNo, chunk, timestampMs, i, Block(pcm, i)))
  }

  /** The frame that comes `i` places after the given counters. */
  function MediaFrame(streamSid: string, seqNo: uint32, chunk: uint32, timestampMs: uint32, i: nat, block: seq<int16>)
    : (m: Message)
  {
    Media(Add32(seqNo, i), streamSid, Add32(chunk, i), Add32(timestampMs, 20 * i), Mulaw.EncodeAll(block))
  }

  function Block(pcm: seq<int16>, i: nat): (b: seq<int16>)
    requires i < |pcm| / 160
    ensures |b| == 160
  {
    pcm[160 * i..160 * i + 160]
  }

  function Acks(streamSid: string, seqNo: uint32, names: seq<string>): (msgs: seq<Message>)
    ensures |msgs| == |names|
  {
    seq(|names|, i requires 0 <= i < |names| => MarkAck(Add32(seqNo, i), streamSid, names[i]))
  }

  /** A payload inside one WebSocket text, which is shorter than 2^16 bytes, cannot overrun the payload buffer, whatever
      its padding. */
  lemma {:induction false} PayloadStaysInBuffer(b64: string)
    requires |b64| < 0x1_0000
    ensures Base64.RoomToDecode(b64, 65536) && |Base64.Decode(b64, 65536).written| <= 65536
  {
    Base64.RoomSuffices(b64, PAYLOAD_CAP);
  }

  /** How the session takes a text from the peer: None is text that is not JSON. */
  function Classify(s: Session, json: Option<Json>): (c: Command) {
    if !s.state.Running? then Refused
    else
      var ev := ParseInbound(json, PAYLOAD_CAP);
      if ev.None? then Refused
      else if ev.value.streamSid != "" && ev.value.streamSid != s.streamSid then Foreign
      else match ev.value.kind
        case EvtMedia => Play(ev.value.payload)
        case EvtMark => Pin(ev.value.markName)
        case EvtClear => BargeIn
        case _ => Ignored
  }

  /** The value handed back for a text from the peer. */
  function PeerResult(s: Session, json: Option<Json>): (rc: int) {
    match Classify(s, json)
    case Refused => -1
    case Foreign => 1
    case Play(payload) => if P.Accepts(s.playout, payload) then 0 else -2
    case Pin(_) => if |s.playout.marks| < P.MARK_MAX then 0 else -1
    case BargeIn => 0
    case Ignored => 0
  }

  /** A text that is not accepted changes nothing at all. */
  lemma {:induction false} UnacceptedChangesNothing(s: Session, json: Option<Json>, nowNs: nat)
    requires Fits(s) && PeerResult(s, json) != 0
    ensures Step(s, PeerCommand(Classify(s, json), nowNs)) == s
  {}

  /** A media document built for a stream is played by the session of that stream, byte for byte, and by no other. */
  lemma {:induction false} MediaReachesItsStream(s: Session, sid: string, track: string, chunk: uint32, ts: uint32,
                                                 n: uint32, mulaw: seq<byte>)
    requires s.state.Running? && mulaw != []
    ensures var to := P.Truncate(sid, SID_MAX);
            Classify(s, BuildMedia(sid, track, chunk, ts, n, mulaw))
              == if |mulaw| > PAYLOAD_CAP then Refused
                 else if to != "" && to != s.streamSid then Foreign
                 else Play(mulaw)
  {
    MediaRoundTrip(sid, track, chunk, ts, n, mulaw, PAYLOAD_CAP);
  }

  /** A clear for the session's own stream, or for none, is a barge-in. */
  lemma {:induction false} ClearReachesItsStream(s: Session, sid: string)
    requires s.state.Running?
    ensures var to := P.Truncate(sid, SID_MAX);
            Classify(s, Some(BuildClear(sid))) == if to != "" && to != s.streamSid then Foreign else BargeIn
  {
    ClearRoundTrip(sid, PAYLOAD_CAP);
  }

  lemma {:induction false} MarkReachesItsStream(s: Session, sid: string, name: string, n: uint32)
    requires s.state.Running?
    ensures var to := P.Truncate(sid, SID_MAX);
            Classify(s, Some(BuildMark(sid, name, n)))
              == if to != "" && to != s.streamSid then Foreign else Pin(P.Truncate(name, P.MARK_NAME_LEN))
  {
    MarkRoundTrip(sid, name, n, PAYLOAD_CAP);
  }

  predicate Sending(s: Session) {
    s.state.Running? && !s.paused
  }

  function Frames(s: Session, pcm: seq<int16>): (msgs: seq<Message>) {
    MediaFrames(s.streamSid, s.seqNo, s.chunk, s.timestampMs, pcm)
  }

  /** Whole 20 ms frames are queued; what does not fill one is the caller's to keep. */
  function PushFrames(s: Session, pcm: seq<int16>): (r: Session)
    requires Fits(s)
    ensures Fits(r)
  {
    if Sending(s) then Queued(s, Frames(s, pcm)) else s
  }

  /** Queues media messages and moves every counter past them. */
  function Queued(s: Session, msgs: seq<Message>): (r: Session)
    requires Fits(s)
    ensures Fits(r)
  {
    var n := |msgs|;
    s.(outbound := Q.PushAll(s.outbound, msgs), seqNo := Add32(s.seqNo, n), chunk := Add32(s.chunk, n),
       timestampMs := Add32(s.timestampMs, 20 * n), uplinkFrames := s.uplinkFrames + n)
  }

  function Acknowledge(s: Session, names: seq<string>): (r: Session)
    requires Fits(s)
    ensures Fits(r)
  {
    s.(outbound := Q.PushAll(s.outbound, Acks(s.streamSid, s.seqNo, names)), seqNo := Add32(s.seqNo, |names|))
  }

  function Obey(s: Session, c: Command, nowNs: nat): (r: Session)
    requires Fits(s)
    ensures Fits(r)
  {
    match c
    case Play(payload) =>
      if P.Accepts(s.playout, payload)
      then s.(playout := P.Write(s.playout, payload), downlinkFrames := s.downlinkFrames + 1) else s
    case Pin(name) => s.(playout := P.AddMark(s.playout, name))
    case BargeIn =>
      Acknowledge(s.(playout := P.Clear(s.playout), clearEvents := s.clearEvents + 1,
                     clearArmed := true, clearStartNs := nowNs),
                  P.Flushed(s.playout, P.MARK_MAX))
    case _ => s
  }

  function Harvested(s: Session): (r: Session)
    requires Fits(s)
    ensures Fits(r)
  {
    Acknowledge(s.(playout := P.Harvest(s.playout)), P.Harvested(s.playout, HARVEST_MAX))
  }

  function ElapsedUs(startNs: nat, nowNs: nat): (us: nat) {
    if startNs == 0 then 0 else (nowNs - startNs) % 0x1_0000_0000_0000_0000 / 1000
  }

  function Bucket(us: nat): (b: nat)
    ensures b < 8
  {
    if us < 1000 then 0 else if us < 2000 then 1 else if us < 5000 then 2 else if us < 10000 then 3
    else if us < 20000 then 4 else if us < 50000 then 5 else if us < 100000 then 6 else 7
  }

  function Record(l: Latency, us: nat): (r: Latency)
    requires |l.buckets| == 8
    ensures |r.buckets| == 8
  {
    Latency(us, if us > l.max then us else l.max, l.sum + us, l.samples + 1,
            l.buckets[Bucket(us) := l.buckets[Bucket(us)] + 1])
  }

  function Noted(s: Session, samplesWritten: nat, nowNs: nat): (r: Session)
    requires Fits(s)
    ensures Fits(r)
  {
    if !s.clearArmed || samplesWritten != 0 then s
    else s.(latency := Record(s.latency, ElapsedUs(s.clearStartNs, nowNs)), clearArmed := false)
  }

  function Halt(s: Session): (r: Session)
    requires Fits(s)
    ensures Fits(r)
  {
    if s.state.Stopped? || s.state.Idle? then s
    else s.(outbound := Q.PushAll(s.outbound, [Message.Stop(s.seqNo, s.streamSid, s.accountSid, s.callSid)]),
            seqNo := Add32(s.seqNo, 1), state := Stopped)
  }

  function Greet(s: Session): (r: Session)
    requires Fits(s)
    ensures Fits(r)
  {
    if s.state.Running? then Greeted(s) else s
  }

  function Step(s: Session, a: Action): (r: Session)
    requires Fits(s)
    ensures Fits(r)
  {
    match a
    case PushPcm(pcm) => PushFrames(s, pcm)
    case PeerCommand(c, nowNs) => if s.state.Running? then Obey(s, c, nowNs) else s
    case HarvestMarks => Harvested(s)
    case SendHead => s.(outbound := Q.DropHead(s.outbound))
    case ReadPlayout(maxLen) => s.(playout := P.Read(s.playout, maxLen))
    case NoteWrite(samplesWritten, nowNs) => Noted(s, samplesWritten, nowNs)
    case SetPaused(on) => s.(paused := on)
    case StopStream => Halt(s)
    case Rehandshake => Greet(s)
  }

  /** The messages an action appends to the outbound queue. */
  function Emitted(s: Session, a: Action): (msgs: seq<Message>) {
    match a
    case PushPcm(pcm) => if Sending(s) then Frames(s, pcm) else []
    case PeerCommand(c, _) =>
      if s.state.Running? && c.BargeIn? then Acks(s.streamSid, s.seqNo, P.Flushed(s.playout, P.MARK_MAX)) else []
    case HarvestMarks => Acks(s.streamSid, s.seqNo, P.Harvested(s.playout, HARVEST_MAX))
    case StopStream =>
      if s.state.Stopped? || s.state.Idle? then []
      else [Message.Stop(s.seqNo, s.streamSid, s.accountSid, s.callSid)]
    case Rehandshake => if s.state.Running? then Handshake(s) else []
    case _ => []
  }

  /** What an action does to the playout buffer, if anything. */
  function PlayoutOps(s: Session, a: Action): (ops: seq<T.Op>)
    ensures |ops| <= 1
  {
    match a
    case PeerCommand(c, _) =>
      if !s.state.Running? then []
      else (match c
            case Play(payload) => [T.WriteOp(payload)]
            case Pin(name) => [T.MarkOp(name)]
            case BargeIn => [T.ClearOp(P.MARK_MAX)]
            case _ => [])
    case HarvestMarks => [T.HarvestOp(HARVEST_MAX)]
    case ReadPlayout(maxLen) => [T.ReadOp(maxLen)]
    case _ => []
  }

  lemma StepQueue(s: Session, a: Action)
    requires Fits(s)
    ensures Step(s, a).outbound ==
              if a.SendHead? then Q.DropHead(s.outbound) else Q.PushAll(s.outbound, Emitted(s, a))
  {}

  lemma StepPlayout(s: Session, a: Action)
    requires Fits(s)
    ensures Step(s, a).playout ==
              if PlayoutOps(s, a) == [] then s.playout else T.Apply(s.playout, PlayoutOps(s, a)[0])
  {}

  function Run(s: Session, acts: seq<Action>): (r: Session)
    requires Fits(s)
    ensures Fits(r)
  {
    if acts == [] then s else Step(Run(s, acts[..|acts| - 1]), acts[|acts| - 1])
  }

  lemma {:induction false} RunSnoc(s: Session, acts: seq<Action>, a: Action)
    requires Fits(s)
    ensures Run(s, acts + [a]) == Step(Run(s, acts), a)
  {
    assert (acts + [a])[..|acts|] == acts;
  }

  lemma {:induction false} RunAppend(s: Session, a: seq<Action>, b: seq<Action>)
    requires Fits(s)
    ensures Run(s, a + b) == Run(Run(s, a), b)
    decreases |b|
  {
    if b == [] {
      assert a + b == a;
    } else {
      var init, last := b[..|b| - 1], b[|b| - 1];
      RunAppend(s, a, init);
      SplitLast(a, b);
      RunSnoc(s, a + init, last);
      RunSnoc(Run(s, a), init, last);
    }
  }

  lemma RunOne(s: Session, a: Action)
    requires Fits(s)
    ensures Run(s, [a]) == Step(s, a)
  {
    assert [a][..0] == [];
  }

  // ------------------------------------------------------------------------------------------
  // The session object
  // ------------------------------------------------------------------------------------------

  lemma AddAdd(x: uint32, i: nat, j: nat)
    ensures Add32(Add32(x, i), j) == Add32(x, i + j)
  {}

  lemma {:induction false} PushOne(q: Q.Queue<Message>, m: Message)
    requires Q.Fits(q)
    ensures Q.PushAll(q, [m]) == Q.Push(q, m)
  {
    assert [m][..0] == [];
  }

  lemma {:induction false} PushTwo(q: Q.Queue<Message>, msgs: seq<Message>)
    requires Q.Fits(q) && |msgs| == 2
    ensures Q.PushAll(q, msgs) == Q.Push(Q.Push(q, msgs[0]), msgs[1])
  {
    assert msgs[..1] == [msgs[0]];
    PushOne(q, msgs[0]);
  }

  lemma {:induction false} AckNone(s: Session)
    requires Fits(s)
    ensures Acknowledge(s, []) == s
  {
    assert Acks(s.streamSid, s.seqNo, []) == [];
  }

  lemma {:induction false} AckOne(q: Q.Queue<Message>, n: uint32, sid: string, name: string)
    requires Q.Fits(q)
    ensures Q.PushAll(q, Acks(sid, n, [name])) == Q.Push(q, MarkAck(n, sid, name))
  {
    assert Acks(sid, n, [name]) == [MarkAck(n, sid, name)];
    PushOne(q, MarkAck(n, sid, name));
  }

  lemma {:induction false} AckSnoc(s: Session, names: seq<string>, name: string)
    requires Fits(s)
    ensures Acknowledge(s, names + [name]) == Acknowledge(Acknowledge(s, names), [name])
  {
    var n := |names|;
    assert Acks(s.streamSid, s.seqNo, names + [name])
        == Acks(s.streamSid, s.seqNo, names) + Acks(s.streamSid, Add32(s.seqNo, n), [name]);
    Q.PushAllAppend(s.outbound, Acks(s.streamSid, s.seqNo, names), Acks(s.streamSid, Add32(s.seqNo, n), [name]));
    AddAdd(s.seqNo, n, 1);
  }

  lemma {:induction false} MediaFramesAppend(sid: string, seqNo: uint32, chunk: uint32, ts: uint32,
                                             a: seq<int16>, b: seq<int16>)
    requires |a| % 160 == 0
    ensures MediaFrames(sid, seqNo, chunk, ts, a + b)
         == MediaFrames(sid, seqNo, chunk, ts, a)
            + MediaFrames(sid, Add32(seqNo, |a| / 160), Add32(chunk, |a| / 160),
                          Add32(ts, 20 * (|a| / 160)), b)
  {
    var n := |a| / 160;
    assert |a + b| / 160 == n + |b| / 160;
    forall i | 0 <= i < n + |b| / 160
      ensures MediaFrames(sid, seqNo, chunk, ts, a + b)[i]
           == if i < n then MediaFrames(sid, seqNo, chunk, ts, a)[i]
              else MediaFrames(sid, Add32(seqNo, n), Add32(chunk, n), Add32(ts, 20 * n), b)[i - n]
    {
      if i < n {
        assert Block(a + b, i) == Block(a, i);
      } else {
        BlockPast(a, b, i - n);
        FrameShift(sid, seqNo, chunk, ts, n, i - n, Block(b, i - n));
      }
    }
  }

  lemma {:induction false} FrameShift(sid: string, seqNo: uint32, chunk: uint32, ts: uint32, n: nat, k: nat,
                                      block: seq<int16>)
    ensures MediaFrame(sid, seqNo, chunk, ts, n + k, block)
         == MediaFrame(sid, Add32(seqNo, n), Add32(chunk, n), Add32(ts, 20 * n), k, block)
  {
    AddAdd(seqNo, n, k);
    AddAdd(chunk, n, k);
    AddAdd(ts, 20 * n, 20 * k);
  }

  lemma {:induction false} BlockPast(a: seq<int16>, b: seq<int16>, k: nat)
    requires |a| % 160 == 0 && k < |b| / 160
    ensures |a| / 160 + k < |a + b| / 160
    ensures Block(a + b, |a| / 160 + k) == Block(b, k)
  {
    assert |a + b| / 160 == |a| / 160 + |b| / 160;
  }

  /** The session after queueing one frame. */
  function OneFrame(s: Session, pcm: seq<int16>): (r: Session)
    requires Fits(s)
    ensures Fits(r)
  {
    s.(outbound := Q.Push(s.outbound, Media(s.seqNo, s.streamSid, s.chunk, s.timestampMs, Mulaw.EncodeAll(pcm))),
       seqNo := Add32(s.seqNo, 1), chunk := Add32(s.chunk, 1),
       timestampMs := Add32(s.timestampMs, 20), uplinkFrames := s.uplinkFrames + 1)
  }

  lemma {:induction false} SingleFrame(s: Session, pcm: seq<int16>)
    requires |pcm| == 160
    ensures Frames(s, pcm) == [Media(s.seqNo, s.streamSid, s.chunk, s.timestampMs, Mulaw.EncodeAll(pcm))]
  {
    assert |pcm| / 160 == 1 && Block(pcm, 0) == pcm;
  }

  lemma {:induction false} QueuedAppend(s: Session, a: seq<Message>, b: seq<Message>)
    requires Fits(s)
    ensures Queued(s, a + b) == Queued(Queued(s, a), b)
  {
    Q.PushAllAppend(s.outbound, a, b);
    AddAdd(s.seqNo, |a|, |b|);
    AddAdd(s.chunk, |a|, |b|);
    AddAdd(s.timestampMs, 20 * |a|, 20 * |b|);
  }

  /** Pushing is additive over whole frames. */
  lemma {:induction false} PushFramesAppend(s: Session, a: seq<int16>, b: seq<int16>)
    requires Fits(s) && |a| % 160 == 0
    ensures PushFrames(s, a + b) == PushFrames(PushFrames(s, a), b)
  {
    if Sending(s) {
      MediaFramesAppend(s.streamSid, s.seqNo, s.chunk, s.timestampMs, a, b);
      QueuedAppend(s, Frames(s, a), Frames(PushFrames(s, a), b));
    }
  }

  lemma {:induction false} PushFramesNone(s: Session, pcm: seq<int16>)
    requires Fits(s) && |pcm| < 160
    ensures PushFrames(s, pcm) == s
  {
    assert |pcm| / 160 == 0;
    assert Frames(s, pcm) == [];
  }

  lemma {:induction false} PushFramesOne(s: Session, pcm: seq<int16>)
    requires Fits(s) && Sending(s) && |pcm| == 160
    ensures PushFrames(s, pcm) == OneFrame(s, pcm)
  {
    SingleFrame(s, pcm);
    PushOne(s.outbound, Frames(s, pcm)[0]);
  }

  lemma {:induction false} PushFramesSnoc(s: Session, pcm: seq<int16>, offset: nat)
    requires Fits(s) && Sending(s) && offset % 160 == 0 && offset + 160 <= |pcm|
    ensures PushFrames(s, pcm[..offset + 160])
         == OneFrame(PushFrames(s, pcm[..offset]), pcm[offset..offset + 160])
  {
    var a, b := pcm[..offset], pcm[offset..offset + 160];
    PushFramesAppend(s, a, b);
    assert pcm[..offset + 160] == a + b;
    PushFramesOne(PushFrames(s, a), b);
  }

  lemma {:induction false} PushFramesWhole(s: Session, pcm: seq<int16>, offset: nat)
    requires Fits(s) && offset % 160 == 0 && offset <= |pcm| < offset + 160
    ensures PushFrames(s, pcm[..offset]) == PushFrames(s, pcm)
  {
    PushFramesAppend(s, pcm[..offset], pcm[offset..]);
    assert pcm == pcm[..offset] + pcm[offset..];
    PushFramesNone(PushFrames(s, pcm[..offset]), pcm[offset..]);
  }

  class LiveSession {
    var state: State
    var streamSid: string
    var callSid: string
    var accountSid: string
    var custom: Option<Json>
    var seqNo: uint32
    var chunk: uint32
    var timestampMs: uint32
    const outbound: Q.BoundedQueue<Message>
    const playout: P.PlayoutRing
    var paused: bool
    var uplinkFrames: nat
    var downlinkFrames: nat
    var clearEvents: nat
    var clearArmed: bool
    var clearStartNs: nat
    var latLast: nat
    var latMax: nat
    var latSum: nat
    var latSamples: nat
    var latBuckets: seq<nat>

    ghost predicate Valid()
      reads this, outbound, outbound.slots, playout, playout.buf, playout.marks
      ensures Valid() ==> Fits(View())
    {
      outbound.Valid() && playout.Valid() && |latBuckets| == 8
    }

    ghost function View(): (s: Session)
      reads this, outbound, playout
    {
      Session(state, streamSid, callSid, accountSid, custom, seqNo, chunk, timestampMs,
              outbound.view, playout.view, paused, uplinkFrames, downlinkFrames,
              clearEvents, clearArmed, clearStartNs,
              Latency(latLast, latMax, latSum, latSamples, latBuckets))
    }

    constructor (queueCap: nat, playoutCap: nat)
      ensures Valid() && View() == Init(queueCap, playoutCap) && state.Idle?
      ensures outbound.slots.Length == if queueCap == 0 then 64 else queueCap
      ensures playout.buf.Length == if playoutCap == 0 then 64000 else playoutCap
      ensures fresh(outbound) && fresh(outbound.slots) && fresh(playout) && fresh(playout.buf) && fresh(playout.marks)
    {
      outbound := new Q.BoundedQueue(if queueCap == 0 then 64 else queueCap);
      playout := new P.PlayoutRing(if playoutCap == 0 then 8 * 8000 else playoutCap);
      state, streamSid, callSid, accountSid, custom := Idle, "", "", "", None;
      seqNo, chunk, timestampMs, paused := 0, 0, 0, false;
      uplinkFrames, downlinkFrames, clearEvents, clearArmed, clearStartNs := 0, 0, 0, false, 0;
      latLast, latMax, latSum, latSamples := 0, 0, 0, 0;
      latBuckets := [0, 0, 0, 0, 0, 0, 0, 0];
    }

    /** Takes the next sequence number. */
    method NextSeq() returns (n: uint32)
      modifies `seqNo
      ensures n == old(seqNo) && seqNo == Add32(old(seqNo), 1)
    {
      n := seqNo;
      seqNo := Add32(seqNo, 1);
    }

    method SetIdentity(sid: string, call: Option<string>, account: Option<string>, params: Option<Json>)
      modifies `streamSid, `callSid, `accountSid, `custom
      ensures View() == Identify(old(View()), sid, call, account, params)
    {
      streamSid := P.Truncate(sid, SID_MAX);
      callSid := P.Truncate(if call.Some? then call.value else sid, SID_MAX);
      accountSid := P.Truncate(if account.Some? then account.value else DEFAULT_ACCOUNT, SID_MAX);
      custom := params;
    }

    method Open(sid: string, call: Option<string>, account: Option<string>, params: Option<Json>)
      modifies `streamSid, `callSid, `accountSid, `custom, `seqNo, `chunk, `timestampMs, `state
      ensures View() == Opened(old(View()), sid, call, account, params)
    {
      SetIdentity(sid, call, account, params);
      seqNo, chunk, timestampMs := 1, 1, 0;
      state := Starting;
    }

    method StartStream(sid: string, call: Option<string>, account: Option<string>, params: Option<Json>)
      requires Valid()
      modifies this, outbound, outbound.slots
      ensures Valid() && View() == Begin(old(View()), sid, call, account, params)
      ensures state.Running? && seqNo == 2 && chunk == 1 && timestampMs == 0 && custom == params
      ensures streamSid == P.Truncate(sid, 64) && callSid == P.Truncate(if call.Some? then call.value else sid, 64)
      ensures accountSid
           == P.Truncate(if account.Some? then account.value else "AC00000000000000000000000000000000", 64)
    {
      BeginFields(View(), sid, call, account, params);
      Open(sid, call, account, params);
      EnqueueHandshake();
      state := Running;
    }

    method EnqueueHandshake()
      requires Valid()
      modifies `seqNo, outbound, outbound.slots
      ensures Valid() && View() == Greeted(old(View()))
    {
      ghost var s := View();
      PushTwo(s.outbound, Handshake(s));
      outbound.Enqueue(Connected);
      var n := NextSeq();
      outbound.Enqueue(Message.Start(n, streamSid, accountSid, callSid, custom));
    }

    method EnqueueAck(name: string)
      requires Valid()
      modifies `seqNo, outbound, outbound.slots
      ensures Valid() && View() == Acknowledge(old(View()), [name])
    {
      var n := NextSeq();
      AckOne(View().outbound, n, streamSid, name);
      outbound.Enqueue(MarkAck(n, streamSid, name));
    }

    /** Queues one acknowledgement per name. */
    method EnqueueAcks(names: seq<string>)
      requires Valid()
      modifies `seqNo, outbound, outbound.slots
      ensures Valid() && View() == Acknowledge(old(View()), names)
    {
      ghost var s := View();
      var i: nat := 0;
      AckNone(s);
      assert names[..0] == [];
      while i < |names|
        invariant i <= |names| && Valid()
        invariant View() == Acknowledge(s, names[..i])
      {
        AckSnoc(s, names[..i], names[i]);
        assert names[..i + 1] == names[..i] + [names[i]];
        EnqueueAck(names[i]);
        i := i + 1;
      }
      assert names[..i] == names;
    }

    /** Moves the media counters past one frame. */
    method Tick()
      modifies `chunk, `timestampMs, `uplinkFrames
      ensures chunk == Add32(old(chunk), 1) && timestampMs == Add32(old(timestampMs), 20)
      ensures uplinkFrames == old(uplinkFrames) + 1
    {
      chunk := Add32(chunk, 1);
      timestampMs := Add32(timestampMs, 20);
      uplinkFrames := uplinkFrames + 1;
    }

    /** Encodes and queues one frame. */
    method EnqueueFrame(pcm: seq<int16>)
      requires Valid() && |pcm| == 160
      modifies `seqNo, `chunk, `timestampMs, `uplinkFrames, outbound, outbound.slots
      ensures Valid() && View() == OneFrame(old(View()), pcm)
    {
      var mulaw := new byte[160];
      Mulaw.EncodeBuffer(pcm, mulaw);
      var payload := mulaw[..160];
      var n := NextSeq();
      outbound.Enqueue(Media(n, streamSid, chunk, timestampMs, payload));
      Tick();
    }

    method PushPcm16(pcm: seq<int16>) returns (leftover: int)
      requires Valid()
      modifies this`seqNo, this`chunk, this`timestampMs, this`uplinkFrames, outbound, outbound.slots
      ensures Valid() && View() == PushFrames(old(View()), pcm)
      ensures leftover == if Sending(old(View())) then |pcm| % 160 else -1
    {
      if state != Running || paused {
        return -1;
      }
      ghost var s := View();
      var offset: nat := 0;
      PushFramesNone(s, pcm[..0]);
      assert offset % 160 == 0;
      while offset + 160 <= |pcm|
        invariant offset <= |pcm| && offset % 160 == 0
        invariant Valid() && Sending(View()) && View() == PushFrames(s, pcm[..offset])
        decreases |pcm| - offset
      {
        PushFramesSnoc(s, pcm, offset);
        EnqueueFrame(pcm[offset..offset + 160]);
        offset := offset + 160;
      }
      PushFramesWhole(s, pcm, offset);
      return |pcm| - offset;
    }

    /** A text from the peer, already turned into a tree, or None if it is not JSON. */
    method HandlePeerJson(json: Option<Json>, nowNs: nat) returns (rc: int)
      requires Valid()
      modifies this, outbound, outbound.slots, playout, playout.buf, playout.marks
      ensures Valid() && View() == Step(old(View()), PeerCommand(Classify(old(View()), json), nowNs))
      ensures rc == PeerResult(old(View()), json)
    {
      var c := Read(json);
      match c {
        case Refused => return -1;
        case Foreign => return 1;
        case Play(payload) =>
          var ok := playout.WriteBytes(payload);
          if !ok {
            return -2;
          }
          downlinkFrames := downlinkFrames + 1;
          return 0;
        case Pin(name) =>
          var ok := playout.QueueMark(name);
          return if ok then 0 else -1;
        case BargeIn =>
          ClearNow(nowNs);
          return 0;
        case Ignored =>
          return 0;
      }
    }

    /** Barge-in: the playout is emptied and every pending mark acknowledged. */
    method ClearNow(nowNs: nat)
      requires Valid()
      modifies `clearEvents, `clearArmed, `clearStartNs, `seqNo, outbound, outbound.slots, playout
      ensures Valid() && View() == Obey(old(View()), BargeIn, nowNs)
    {
      var flushed := Silence(nowNs);
      EnqueueAcks(flushed);
    }

    /** Empties the playout and arms the latency measurement. */
    method Silence(nowNs: nat) returns (flushed: seq<string>)
      requires Valid()
      modifies `clearEvents, `clearArmed, `clearStartNs, playout
      ensures Valid() && flushed == P.Flushed(old(View()).playout, P.MARK_MAX)
      ensures View() == old(View()).(playout := P.Clear(old(View()).playout),
                                     clearEvents := old(View()).clearEvents + 1, clearArmed := true,
                                     clearStartNs := nowNs)
    {
      flushed := playout.ClearAll(P.MARK_MAX);
      ArmLatency(nowNs);
    }

    method ArmLatency(nowNs: nat)
      modifies `clearEvents, `clearArmed, `clearStartNs
      ensures clearEvents == old(clearEvents) + 1 && clearArmed && clearStartNs == nowNs
    {
      clearEvents := clearEvents + 1;
      clearArmed := true;
      clearStartNs := nowNs;
    }

    /** Parses a text and checks that it concerns this stream. */
    method Read(json: Option<Json>) returns (c: Command)
      requires Valid()
      ensures c == Classify(View(), json)
    {
      if state != Running {
        return Refused;
      }
      var ev := ParseInbound(json, PAYLOAD_CAP);
      if ev.None? {
        return Refused;
      }
      if ev.value.streamSid != "" && ev.value.streamSid != streamSid {
        return Foreign;
      }
      match ev.value.kind {
        case EvtMedia => return Play(ev.value.payload);
        case EvtMark => return Pin(ev.value.markName);
        case EvtClear => return BargeIn;
        case _ => return Ignored;
      }
    }

    method Harvest()
      requires Valid()
      modifies `seqNo, outbound, outbound.slots, playout, playout.marks
      ensures Valid() && View() == Harvested(old(View()))
    {
      var completed := playout.PopCompleted(HARVEST_MAX);
      EnqueueAcks(completed);
    }

    method PeekOutbound() returns (head: Option<Message>)
      requires Valid()
      modifies `seqNo, outbound, outbound.slots, playout, playout.marks
      ensures Valid() && View() == Harvested(old(View()))
      ensures head == if View().outbound.items == [] then None else Some(View().outbound.items[0])
    {
      Harvest();
      head := outbound.Peek();
    }

    method DropOutboundHead() returns (ok: bool)
      requires Valid()
      modifies outbound
      ensures Valid() && View() == old(View()).(outbound := Q.DropHead(old(View()).outbound))
      ensures ok == (old(View()).outbound.items != [])
    {
      ok := outbound.Drop();
    }

    method PopOutbound() returns (head: Option<Message>)
      requires Valid()
      modifies `seqNo, outbound, outbound.slots, playout, playout.marks
      ensures Valid() && View() == Step(Harvested(old(View())), SendHead)
      ensures var items := Harvested(old(View())).outbound.items;
              head == if items == [] then None else Some(items[0])
    {
      Harvest();
      head := outbound.Pop();
    }

    method ReadPlayoutBytes(out: array<byte>, maxLen: nat) returns (n: nat)
      requires Valid() && maxLen <= out.Length && out != playout.buf
      modifies playout, playout.marks, out
      ensures Valid() && View() == old(View()).(playout := P.Read(old(View()).playout, maxLen))
      ensures n == P.Readable(old(View().playout), maxLen)
      ensures out[..n] == old(View().playout.data)[..n]
    {
      n := playout.ReadBytes(out, maxLen);
    }

    method RecordClearLatency(us: nat)
      requires |latBuckets| == 8
      modifies `latLast, `latMax, `latSum, `latSamples, `latBuckets
      ensures View().latency == Record(old(View()).latency, us)
    {
      latLast := us;
      if us > latMax {
        latMax := us;
      }
      latSum := latSum + us;
      latSamples := latSamples + 1;
      var b := Bucket(us);
      latBuckets := latBuckets[b := latBuckets[b] + 1];
    }

    method NoteWriteAfterClear(samplesWritten: nat, nowNs: nat)
      requires Valid()
      modifies this
      ensures Valid() && View() == Noted(old(View()), samplesWritten, nowNs)
    {
      if !clearArmed || samplesWritten != 0 {
        return;
      }
      RecordClearLatency(ElapsedUs(clearStartNs, nowNs));
      clearArmed := false;
    }

    method Pause(on: bool)
      requires Valid()
      modifies `paused
      ensures Valid() && View() == old(View()).(paused := on)
    {
      paused := on;
    }

    method StopNow() returns (ok: bool)
      requires Valid()
      modifies this, outbound, outbound.slots
      ensures Valid() && View() == Halt(old(View()))
      ensures ok == !(old(state).Stopped? || old(state).Idle?)
    {
      if state == Stopped || state == Idle {
        return false;
      }
      state := Stopping;
      ghost var q := outbound.view;
      var n := NextSeq();
      PushOne(q, Message.Stop(n, streamSid, accountSid, callSid));
      outbound.Enqueue(Message.Stop(n, streamSid, accountSid, callSid));
      state := Stopped;
      return true;
    }

    method RehandshakeNow() returns (ok: bool)
      requires Valid()
      modifies `seqNo, outbound, outbound.slots
      ensures Valid() && View() == Greet(old(View()))
      ensures ok == old(state).Running?
    {
      if state != Running {
        return false;
      }
      EnqueueHandshake();
      return true;
    }
  }
}
