/** That events act when they should: what a callback, a text or a flush does in every state in which nothing forbids
    it, whatever else the state is. */
module Effects {
  import opened Sequences
  import opened Protocol
  import opened Session
  import opened SessionRuns
  import opened Bridge
  import opened BridgeRuns
  import opened MediaRuns
  import opened Documents
  import Mulaw
  import Base64
  import Q = OutboundQueue
  import P = Playout

  // ------------------------------------------------------------------------------------------
  // Write callbacks
  // ------------------------------------------------------------------------------------------

  /** Until cleaning starts, a write callback that gets the lock plays as many bytes as there are, at most one for
      each of its samples and at most 640, whether or not the bridge is paused, closing or without a socket. */
  lemma {:induction false} WritePlays(b: Bridge, e: Event)
    requires InStep(b) && e.WriteCallback? && e.locked && !b.cleaning
    ensures var data := b.session.playout.data; var n := Min(Min(|e.frame|, 640), |data|);
            && ReadFor(b, e) == data[..n] && Next(b, e).session.playout.data == data[n..]
            && Next(b, e) == b.(session := Next(b, e).session)
  {
    if |e.frame| > 0 {
      WriteRun(b.session, |e.frame|, e.nowNs);
    }
  }

  /** What it does to a clear that has not been sampled: the first write that finds nothing takes the sample. */
  lemma {:induction false} WriteNotes(b: Bridge, e: Event)
    requires InStep(b) && e.WriteCallback? && e.locked && !b.cleaning && e.frame != []
    ensures var s, r := b.session, Next(b, e).session;
            if s.playout.data == [] && s.clearArmed
            then !r.clearArmed && r.latency.samples == s.latency.samples + 1
            else r.clearArmed == s.clearArmed && r.latency == s.latency
  {
    WriteRun(b.session, |e.frame|, e.nowNs);
  }

  /** A write callback without the lock, or one that comes once cleaning has started, plays nothing. */
  lemma {:induction false} WriteRefused(b: Bridge, e: Event)
    requires InStep(b) && e.WriteCallback? && (!e.locked || (b.cleaning && !e.late))
    ensures ReadFor(b, e) == [] && Next(b, e) == b && FrameAfterIs(b, e, e.frame)
  {}

  ghost predicate FrameAfterIs(b: Bridge, e: Event, frame: seq<int16>)
    requires e.WriteCallback?
  {
    Inject(e.frame, ReadFor(b, e), b.mixing) == frame
  }

  function Writes(frames: seq<seq<int16>>): (events: seq<Event>)
    ensures |events| == |frames|
  {
    seq(|frames|, i requires 0 <= i < |frames| => WriteCallback(frames[i], true, false, 0))
  }

  /** Room for audio in these frames. */
  function Room(frames: seq<seq<int16>>): (n: nat) {
    if frames == [] then 0 else Room(frames[..|frames| - 1]) + Min(|frames[|frames| - 1]|, 640)
  }

  lemma {:induction false} WritesSnoc(frames: seq<seq<int16>>, f: seq<int16>)
    ensures Writes(frames + [f]) == Writes(frames) + [WriteCallback(f, true, false, 0)]
    ensures Room(frames + [f]) == Room(frames) + Min(|f|, 640)
  {
    assert (frames + [f])[..|frames|] == frames;
  }

  /** Write callbacks one after the other play the buffered audio in order, each as much as it has room for. */
  lemma {:induction false} WritesPlay(p: Setup, before: seq<Event>, frames: seq<seq<int16>>)
    requires !After(p, before).cleaning
    ensures var data := After(p, before).session.playout.data; var n := Min(Room(frames), |data|);
            var all := before + Writes(frames);
            && !After(p, all).cleaning && After(p, all).session.playout.data == data[n..]
            && Trace(p, all).p.heard == Trace(p, before).p.heard + data[..n]
    decreases |frames|
  {
    if frames == [] {
      assert before + Writes(frames) == before;
      assert Trace(p, before).p.heard + [] == Trace(p, before).p.heard;
    } else {
      var init, f := frames[..|frames| - 1], frames[|frames| - 1];
      var all, e := before + Writes(init), WriteCallback(f, true, false, 0);
      WritesPlay(p, before, init);
      SplitLast([], frames);
      WritesSnoc(init, f);
      Associate(before, Writes(init), [e]);
      AlwaysInStep(p, all);
      WritePlays(After(p, all), e);
      WireSnoc(p, all, e);
      HearingSnoc(p, all, e);
      PlayedOn(After(p, before).session.playout.data, Room(init), Min(|f|, 640), Trace(p, before).p.heard);
    }
  }

  lemma {:induction false} PlayedOn(data: seq<byte>, m: nat, k: nat, heard: seq<byte>)
    ensures var i := Min(m, |data|); var rest := data[i..]; var n := Min(k, |rest|); var j := Min(m + k, |data|);
            rest[n..] == data[j..] && (heard + data[..i]) + rest[..n] == heard + data[..j]
  {
    var i: nat := Min(m, |data|);
    var n: nat := Min(k, |data| - i);
    CutTwice(data, i, n);
    Associate(heard, data[..i], data[i..][..n]);
  }

  lemma CutTwice(data: seq<byte>, i: nat, n: nat)
    requires i + n <= |data|
    ensures data[i..][n..] == data[i + n..] && data[..i] + data[i..][..n] == data[..i + n]
  {}

  /** So enough of them empty the buffer. */
  lemma {:induction false} WritesDrain(p: Setup, before: seq<Event>, frames: seq<seq<int16>>)
    requires !After(p, before).cleaning && Room(frames) >= |After(p, before).session.playout.data|
    ensures var data := After(p, before).session.playout.data; var all := before + Writes(frames);
            && After(p, all).session.playout.data == []
            && Trace(p, all).p.heard == Trace(p, before).p.heard + data
  {
    WritesPlay(p, before, frames);
    var data := After(p, before).session.playout.data;
    assert data[..|data|] == data && data[|data|..] == [];
  }

  // ------------------------------------------------------------------------------------------
  // Read callbacks
  // ------------------------------------------------------------------------------------------

  /** While the bridge is neither paused nor shutting down, a read callback that gets the lock is taken whole,
      whatever the socket and the worker are: every frame it completes is queued and the rest is held. */
  lemma {:induction false} ReadCaptures(b: Bridge, e: Event)
    requires InStep(b) && e.ReadCallback? && e.locked && !b.closing && !b.cleaning && !b.audioPaused
    ensures var stream := b.hold + Fold(b.stereo, b.halve, e.pcm);
            && HeardBy(b, e) == Fold(b.stereo, b.halve, e.pcm)
            && Messages(b, e) == Frames(b.session, stream) && |Messages(b, e)| == |stream| / 160
            && Next(b, e).hold == stream[|stream| / 160 * 160..]
  {
    ReadQueues(b, e);
  }

  lemma {:induction false} ReadRefused(b: Bridge, e: Event)
    requires InStep(b) && e.ReadCallback? && (!e.locked || (!e.late && (b.closing || b.cleaning || b.audioPaused)))
    ensures HeardBy(b, e) == [] && Next(b, e) == b
  {}

  /** A frame's message carries the stream's name, the session's counters and the encoding of its block. */
  lemma {:induction false} FrameIs(s: Session, pcm: seq<int16>, i: nat)
    requires i < |pcm| / 160
    ensures var m := Frames(s, pcm)[i];
            && m.Media? && m.streamSid == s.streamSid && m.seqNo == (s.seqNo + i) % 0x1_0000_0000
            && m.chunk == (s.chunk + i) % 0x1_0000_0000
            && m.timestampMs == (s.timestampMs + 20 * i) % 0x1_0000_0000
            && |m.payload| == 160
            && (forall k :: 0 <= k < 160 ==> m.payload[k] == Mulaw.Encode(pcm[160 * i + k]))
  {}

  // ------------------------------------------------------------------------------------------
  // Texts
  // ------------------------------------------------------------------------------------------

  /** A text from the peer is heard while the worker runs and nobody has asked for an end; the module's own commands
      until cleaning starts. Pause and socket do not matter. */
  predicate Heeds(b: Bridge, e: Event)
    requires e.Text?
  {
    if e.local then !b.cleaning else b.working && !b.closing && !b.cleaning
  }

  lemma {:induction false} TextActs(b: Bridge, e: Event)
    requires InStep(b) && e.Text? && Heeds(b, e)
    ensures var s := Step(b.session, PeerCommand(Classify(b.session, e.json), e.nowNs));
            && Midway(b, e) == s && b.session.state.Running?
            && FlushOf(b, e) == (if b.hasSocket && b.wsReady then Some(e.budget) else None)
            && Next(b, e).session == if b.hasSocket && b.wsReady then Flush(s, e.budget) else s
  {
    RunOne(b.session, PeerCommand(Classify(b.session, e.json), e.nowNs));
    ToldParts(b, e.json, e.local, e.late, e.nowNs, e.budget);
  }

  lemma {:induction false} FlushKeepsAudio(s: Session, budget: nat)
    requires Fits(s)
    ensures Flush(s, budget).playout.data == s.playout.data
    decreases budget
  {
    var h := Harvested(s);
    if h.outbound.items != [] && budget > 0 {
      FlushKeepsAudio(Step(h, SendHead), budget - 1);
    }
  }

  /** A media document for this stream, with whatever other fields, puts its audio behind what waits, if it fits. */
  lemma {:induction false} MediaTextFills(b: Bridge, e: Event, doc: Json, x: seq<byte>)
    requires InStep(b) && e.Text? && Heeds(b, e) && e.json == Some(doc)
    requires IsEvent(doc, "media") && Concerns(b.session, doc) && |x| <= 65536
    requires At(doc, "media", "payload") == Some(Str(Base64.Encode(x)))
    ensures var p := b.session.playout;
            Next(b, e).session.playout.data == if |p.data| + |x| <= p.capacity then p.data + x else p.data
  {
    TextActs(b, e);
    AnyMediaPlays(b.session, doc, x);
    var s := Step(b.session, PeerCommand(Play(x), e.nowNs));
    PlayedData(b.session, x, e.nowNs);
    FlushKeepsAudio(s, e.budget);
  }

  lemma {:induction false} PlayedData(s: Session, x: seq<byte>, nowNs: nat)
    requires Fits(s) && s.state.Running?
    ensures var p := s.playout;
            Step(s, PeerCommand(Play(x), nowNs)).playout.data
              == if |p.data| + |x| <= p.capacity then p.data + x else p.data
  {
    if x == [] {
      assert s.playout.data + [] == s.playout.data;
    }
  }

  /** A clear for this stream, from the peer or from the module, leaves no audio behind. */
  lemma {:induction false} ClearTextEmpties(b: Bridge, e: Event, doc: Json)
    requires InStep(b) && e.Text? && Heeds(b, e) && e.json == Some(doc)
    requires IsEvent(doc, "clear") && Concerns(b.session, doc)
    ensures Next(b, e).session.playout.data == []
  {
    TextActs(b, e);
    AnyClearInterrupts(b.session, doc);
    FlushKeepsAudio(Step(b.session, PeerCommand(BargeIn, e.nowNs)), e.budget);
  }

  /** From the peer's document to the call: the text arrives and fits, and enough write callbacks follow. */
  lemma {:induction false} PeerIsHeard(p: Setup, before: seq<Event>, e: Event, doc: Json, x: seq<byte>,
                                       frames: seq<seq<int16>>)
    requires e.Text? && Heeds(After(p, before), e) && e.json == Some(doc)
    requires IsEvent(doc, "media") && Concerns(After(p, before).session, doc) && |x| <= 65536
    requires At(doc, "media", "payload") == Some(Str(Base64.Encode(x)))
    requires var q := After(p, before).session.playout; |q.data| + |x| <= q.capacity && Room(frames) >= |q.data| + |x|
    ensures Trace(p, before + [e] + Writes(frames)).p.heard
         == Trace(p, before).p.heard + (After(p, before).session.playout.data + x)
  {
    AlwaysInStep(p, before);
    MediaTextFills(After(p, before), e, doc, x);
    WireSnoc(p, before, e);
    HearingSnoc(p, before, e);
    NextFlags(After(p, before), e);
    assert Trace(p, before).p.heard + [] == Trace(p, before).p.heard;
    WritesDrain(p, before + [e], frames);
  }

  // ------------------------------------------------------------------------------------------
  // Flushes and switches
  // ------------------------------------------------------------------------------------------

  /** Which events flush, and how much the socket may take. */
  lemma {:induction false} FlushTable(b: Bridge, e: Event)
    requires InStep(b)
    ensures e.WorkerFlush? ==> FlushOf(b, e) == if b.working && b.hasSocket && b.wsReady then Some(e.budget) else None
    ensures e.Reconnect? ==> FlushOf(b, e) == if b.working && !b.closing && !b.cleaning then Some(e.budget) else None
    ensures e.FinishStop? ==> FlushOf(b, e) == if b.cleaning && b.hasSocket then Some(e.budget) else None
  {}

  /** A worker flush on a socket that takes enough sends everything that waits and every acknowledgement it owes. */
  lemma {:induction false} WorkerFlushSendsAll(b: Bridge, e: Event)
    requires InStep(b) && e.WorkerFlush? && b.working && b.hasSocket && b.wsReady
    requires var n := |b.session.outbound.items| + Min(8, |P.Done(b.session.playout.marks)|);
             n <= e.budget && n <= b.session.outbound.capacity
    ensures WireOf(b, e) == b.session.outbound.items + Messages(b, e)
    ensures AckNames(Messages(b, e)) == P.First(P.Done(b.session.playout.marks), 8)
    ensures Next(b, e).session.outbound.items == []
  {
    EventWire(b, e);
    WorkerMessages(b, e);
    var all := b.session.outbound.items + Messages(b, e);
    assert Q.Last(all, b.session.outbound.capacity) == all && P.First(all, e.budget) == all;
  }

  lemma {:induction false} WorkerMessages(b: Bridge, e: Event)
    requires Fits(b.session) && e.WorkerFlush? && FlushOf(b, e).Some?
    ensures Messages(b, e) == Emitted(b.session, HarvestMarks)
    ensures |Messages(b, e)| == Min(8, |P.Done(b.session.playout.marks)|)
    ensures AckNames(Messages(b, e)) == P.First(P.Done(b.session.playout.marks), 8)
  {
    assert Messages(b, e) == [] + Emitted(b.session, HarvestMarks);
    AckNamesOfAcks(b.session.streamSid, b.session.seqNo, P.First(P.Done(b.session.playout.marks), 8));
  }

  /** Pausing and resuming reach bridge and session, until cleaning starts. */
  lemma {:induction false} PauseActs(b: Bridge, e: Event)
    requires InStep(b) && e.Pause? && !b.cleaning
    ensures Next(b, e).audioPaused == e.on && Next(b, e).session.paused == e.on
  {
    NextFlags(b, e);
    NextState(b, e);
  }
}
