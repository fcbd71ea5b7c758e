/** What holds over every run of a session that was started once. */
module SessionRuns {
  import opened Sequences
  import opened Protocol
  import opened Session
  import Q = OutboundQueue
  import P = Playout
  import T = Timeline
  import R = Refinement

  datatype Config = Config(queueCap: nat, playoutCap: nat, streamSid: string, callSid: Option<string>,
                           accountSid: Option<string>, custom: Option<Json>)

  /** A session together with the full history of its queue and of its playout buffer, and the reference timeline
      that takes the same playout operations. `q.pushed` is everything ever queued, `q.taken` what was sent. */
  datatype World = World(s: Session, q: Q.Traced<Message>, p: T.Played, line: T.Line)

  function QueueOps(s: Session, a: Action): (ops: seq<Q.Op<Message>>) {
    if a.SendHead? then [Q.TakeOp] else Q.Pushes(Emitted(s, a))
  }

  ghost predicate WellFormed(w: World) {
    Fits(w.s) && Q.Fits(w.q.q) && P.Fits(w.p.p) && w.line.cursor <= |w.line.stream|
  }

  ghost function WorldStep(w: World, a: Action): (r: World)
    requires WellFormed(w)
    ensures WellFormed(r)
  {
    var ops := PlayoutOps(w.s, a);
    World(Step(w.s, a), Q.Run(w.q, QueueOps(w.s, a)), T.Run(w.p, ops), T.LineRun(w.line, ops))
  }

  ghost function WorldRun(w: World, acts: seq<Action>): (r: World)
    requires WellFormed(w)
    ensures WellFormed(r)
  {
    if acts == [] then w else WorldStep(WorldRun(w, acts[..|acts| - 1]), acts[|acts| - 1])
  }

  function Opening(c: Config): (s: Session)
    ensures Fits(s)
  {
    Begin(Init(c.queueCap, c.playoutCap), c.streamSid, c.callSid, c.accountSid, c.custom)
  }

  function FirstMessages(c: Config): (msgs: seq<Message>) {
    Handshake(Opened(Init(c.queueCap, c.playoutCap), c.streamSid, c.callSid, c.accountSid, c.custom))
  }

  ghost function WorldBegin(c: Config): (w: World)
    ensures WellFormed(w)
  {
    var s := Opening(c);
    World(s, Q.Run(Q.Begin(s.outbound.capacity), Q.Pushes(FirstMessages(c))),
          T.Begin(s.playout.capacity), T.LineBegin(s.playout.capacity))
  }

  // ------------------------------------------------------------------------------------------
  // The histories belong to the session
  // ------------------------------------------------------------------------------------------

  /** The traced queue and playout are the session's own, nothing left the queue unaccounted, and the playout
      follows its reference timeline. */
  ghost predicate Sound(w: World) {
    && WellFormed(w)
    && w.q.q == w.s.outbound && w.p.p == w.s.playout
    && Q.Accounted(w.q)
    && R.Timed(w.p, w.line)
  }

  lemma {:induction false} BeginSound(c: Config)
    ensures Sound(WorldBegin(c))
    ensures WorldBegin(c).q.pushed == FirstMessages(c) && WorldBegin(c).q.taken == []
  {
    var s := Opening(c);
    var cap := s.outbound.capacity;
    Q.RunPushes(Q.Begin(cap), FirstMessages(c));
    Q.FifoWithCountedEvictions(cap, Q.Pushes(FirstMessages(c)));
    R.RingRefinesTimeline(s.playout.capacity, []);
  }

  /** Queue side of one action. */
  lemma {:induction false} StepHistory(w: World, a: Action)
    requires WellFormed(w) && w.q.q == w.s.outbound
    ensures WorldStep(w, a).q.q == Step(w.s, a).outbound
    ensures WorldStep(w, a).q.pushed == w.q.pushed + Emitted(w.s, a)
    ensures !a.SendHead? ==> WorldStep(w, a).q.taken == w.q.taken
  {
    StepQueue(w.s, a);
    if a.SendHead? {
      var ops := QueueOps(w.s, a);
      assert ops[..0] == [];
      assert Q.Run(w.q, ops) == Q.Step(w.q, ops[0]);
    } else {
      Q.RunPushes(w.q, Emitted(w.s, a));
    }
  }

  /** Playout side of one action. */
  lemma {:induction false} StepAudio(w: World, a: Action)
    requires WellFormed(w) && w.p.p == w.s.playout
    ensures WorldStep(w, a).p.p == Step(w.s, a).playout
    ensures var ops := PlayoutOps(w.s, a);
            WorldStep(w, a).p == if ops == [] then w.p else T.Step(w.p, ops[0])
  {
    StepPlayout(w.s, a);
    var ops := PlayoutOps(w.s, a);
    if ops != [] {
      assert ops[..0] == [];
      assert T.Run(w.p, ops) == T.Step(w.p, ops[0]);
    }
  }

  lemma {:induction false} StepSound(w: World, a: Action)
    requires Sound(w)
    ensures Sound(WorldStep(w, a))
  {
    StepHistory(w, a);
    StepAudio(w, a);
    Q.RunAccounted(w.q, QueueOps(w.s, a));
    R.RunTimed(w.p, w.line, PlayoutOps(w.s, a));
  }

  lemma {:induction false} RunSound(c: Config, acts: seq<Action>)
    ensures var w := WorldRun(WorldBegin(c), acts);
            Sound(w) && w.s == Run(Opening(c), acts)
    decreases |acts|
  {
    BeginSound(c);
    if acts != [] {
      RunSound(c, acts[..|acts| - 1]);
      StepSound(WorldRun(WorldBegin(c), acts[..|acts| - 1]), acts[|acts| - 1]);
    }
  }

  /** Outbound delivery over every run, with any pattern of sends, failures and reconnects in between: the queue is
      the history from index (evicted + sent) on; the labels say of every earlier message, once, whether it was sent
      or evicted; the wire carries the sent ones in the order they were queued. */
  lemma DeliveryAccounted(c: Config, acts: seq<Action>) returns (fates: seq<bool>)
    ensures var w := WorldRun(WorldBegin(c), acts); var s := Run(Opening(c), acts);
            && |fates| == s.outbound.drops + |w.q.taken| <= |w.q.pushed|
            && s.outbound.items == w.q.pushed[|fates|..]
            && w.q.taken == Select(w.q.pushed[..|fates|], fates)
            && s.outbound.enqueued == |w.q.pushed|
  {
    RunSound(c, acts);
    fates := WorldRun(WorldBegin(c), acts).q.fates;
  }

  /** Audio over every run: what was heard is what was accepted, in order, minus what clears discarded; the rest is
      still buffered. */
  lemma AudioAccounted(c: Config, acts: seq<Action>) returns (kept: seq<bool>)
    ensures var p := WorldRun(WorldBegin(c), acts).p; var s := Run(Opening(c), acts);
            && |kept| <= |p.accepted|
            && p.heard == Select(p.accepted[..|kept|], kept)
            && s.playout.data == p.accepted[|kept|..]
            && |kept| == |p.heard| + p.discarded
            && s.playout.enqueuedBytes == |p.accepted| && s.playout.dequeuedBytes == |p.heard|
            && s.playout.enqueuedBytes == s.playout.dequeuedBytes + p.discarded + |s.playout.data|
  {
    RunSound(c, acts);
    kept := WorldRun(WorldBegin(c), acts).line.kept;
  }

  // ------------------------------------------------------------------------------------------
  // The message language
  // ------------------------------------------------------------------------------------------

  /** connected start, then any mix of media, mark and (connected start), then at most one stop, then marks only. */
  datatype Phase = Fresh | Greeting | Live | Ended | Broken

  function NextPhase(p: Phase, m: Message): (r: Phase) {
    match (p, m)
    case (Fresh, Connected) => Greeting
    case (Greeting, Start(_, _, _, _, _)) => Live
    case (Live, Media(_, _, _, _, _)) => Live
    case (Live, MarkAck(_, _, _)) => Live
    case (Live, Connected) => Greeting
    case (Live, Stop(_, _, _, _)) => Ended
    case (Ended, MarkAck(_, _, _)) => Ended
    case _ => Broken
  }

  function PhaseAfter(p: Phase, msgs: seq<Message>): (r: Phase) {
    if msgs == [] then p else NextPhase(PhaseAfter(p, msgs[..|msgs| - 1]), msgs[|msgs| - 1])
  }

  lemma {:induction false} PhaseAppend(p: Phase, a: seq<Message>, b: seq<Message>)
    ensures PhaseAfter(p, a + b) == PhaseAfter(PhaseAfter(p, a), b)
    decreases |b|
  {
    if b == [] {
      assert a + b == a;
    } else {
      PhaseAppend(p, a, b[..|b| - 1]);
      assert (a + b)[..|a + b| - 1] == a + b[..|b| - 1];
    }
  }

  lemma {:induction false} PhaseStays(p: Phase, msgs: seq<Message>)
    requires forall i :: 0 <= i < |msgs| ==> NextPhase(p, msgs[i]) == p
    ensures PhaseAfter(p, msgs) == p
    decreases |msgs|
  {
    if msgs != [] {
      PhaseStays(p, msgs[..|msgs| - 1]);
    }
  }

  lemma {:induction false} PhaseOfHandshake(p: Phase, s: Session)
    requires p.Fresh? || p.Live?
    ensures PhaseAfter(p, Handshake(s)) == Live
  {
    var h := Handshake(s);
    assert h[..1] == [Connected] && [Connected][..0] == [];
    assert PhaseAfter(p, h[..1]) == Greeting;
  }

  ghost predicate InPhase(s: Session, p: Phase) {
    (s.state.Running? && p.Live?) || (s.state.Stopped? && p.Ended?)
  }

  lemma {:induction false} StepPhase(s: Session, a: Action, p: Phase)
    requires Fits(s) && InPhase(s, p)
    ensures InPhase(Step(s, a), PhaseAfter(p, Emitted(s, a)))
  {
    match a {
      case Rehandshake =>
        if s.state.Running? {
          PhaseOfHandshake(p, s);
        }
      case StopStream =>
        if s.state.Running? {
          var m := Emitted(s, a);
          assert m[..0] == [];
        }
      case _ =>
        PhaseStays(p, Emitted(s, a));
    }
  }

  /** The history of every run lies in the language, and ends in its final part exactly when the session is stopped. */
  lemma {:induction false} HistoryInLanguage(c: Config, acts: seq<Action>)
    ensures InPhase(Run(Opening(c), acts), PhaseAfter(Fresh, WorldRun(WorldBegin(c), acts).q.pushed))
    decreases |acts|
  {
    BeginSound(c);
    if acts == [] {
      PhaseOfHandshake(Fresh, Opened(Init(c.queueCap, c.playoutCap), c.streamSid, c.callSid, c.accountSid, c.custom));
    } else {
      var init, a := acts[..|acts| - 1], acts[|acts| - 1];
      HistoryInLanguage(c, init);
      RunSound(c, init);
      var w := WorldRun(WorldBegin(c), init);
      StepHistory(w, a);
      PhaseAppend(Fresh, w.q.pushed, Emitted(w.s, a));
      StepPhase(w.s, a, PhaseAfter(Fresh, w.q.pushed));
    }
  }

  // ------------------------------------------------------------------------------------------
  // Numbering
  // ------------------------------------------------------------------------------------------

  function Numbered(msgs: seq<Message>): (r: seq<Message>)
    ensures |r| <= |msgs|
    ensures forall i :: 0 <= i < |r| ==> !r[i].Connected?
  {
    if msgs == [] then []
    else
      var n := |msgs| - 1;
      Numbered(msgs[..n]) + (if msgs[n].Connected? then [] else [msgs[n]])
  }

  function MediaOf(msgs: seq<Message>): (r: seq<Message>)
    ensures forall i :: 0 <= i < |r| ==> r[i].Media?
  {
    if msgs == [] then []
    else
      var n := |msgs| - 1;
      MediaOf(msgs[..n]) + (if msgs[n].Media? then [msgs[n]] else [])
  }

  /** Numbers count up by one from `first`, modulo 2^32. */
  ghost predicate Consecutive(msgs: seq<Message>, first: nat) {
    forall i :: 0 <= i < |Numbered(msgs)| ==> Numbered(msgs)[i].seqNo == (first + i) % 0x1_0000_0000
  }

  /** Chunks count up from 1 and timestamps by 20 from 0, modulo 2^32. */
  ghost predicate Clocked(msgs: seq<Message>) {
    forall i :: 0 <= i < |MediaOf(msgs)| ==>
      && MediaOf(msgs)[i].chunk == (1 + i) % 0x1_0000_0000
      && MediaOf(msgs)[i].timestampMs == 20 * i % 0x1_0000_0000
  }

  lemma {:induction false} NumberedAppend(a: seq<Message>, b: seq<Message>)
    ensures Numbered(a + b) == Numbered(a) + Numbered(b)
    decreases |b|
  {
    if b == [] {
      assert a + b == a;
    } else {
      var n := |b| - 1;
      NumberedAppend(a, b[..n]);
      assert (a + b)[..|a| + n] == a + b[..n];
      Associate(Numbered(a), Numbered(b[..n]), if b[n].Connected? then [] else [b[n]]);
    }
  }

  lemma {:induction false} MediaAppend(a: seq<Message>, b: seq<Message>)
    ensures MediaOf(a + b) == MediaOf(a) + MediaOf(b)
    decreases |b|
  {
    if b == [] {
      assert a + b == a;
    } else {
      var n := |b| - 1;
      MediaAppend(a, b[..n]);
      assert (a + b)[..|a| + n] == a + b[..n];
      Associate(MediaOf(a), MediaOf(b[..n]), if b[n].Media? then [b[n]] else []);
    }
  }

  lemma {:induction false} AllNumbered(msgs: seq<Message>)
    requires forall i :: 0 <= i < |msgs| ==> !msgs[i].Connected?
    ensures Numbered(msgs) == msgs
    decreases |msgs|
  {
    if msgs != [] {
      AllNumbered(msgs[..|msgs| - 1]);
      Cut(msgs, |msgs| - 1);
    }
  }

  lemma {:induction false} AllMedia(msgs: seq<Message>)
    requires forall i :: 0 <= i < |msgs| ==> msgs[i].Media?
    ensures MediaOf(msgs) == msgs
    decreases |msgs|
  {
    if msgs != [] {
      AllMedia(msgs[..|msgs| - 1]);
      Cut(msgs, |msgs| - 1);
    }
  }

  lemma {:induction false} NoMedia(msgs: seq<Message>)
    requires forall i :: 0 <= i < |msgs| ==> !msgs[i].Media?
    ensures MediaOf(msgs) == []
    decreases |msgs|
  {
    if msgs != [] {
      NoMedia(msgs[..|msgs| - 1]);
    }
  }

  lemma {:induction false} FilterAll(msgs: seq<Message>, media: bool)
    requires forall i :: 0 <= i < |msgs| ==> !msgs[i].Connected? && msgs[i].Media? == media
    ensures Numbered(msgs) == msgs && MediaOf(msgs) == if media then msgs else []
  {
    AllNumbered(msgs);
    if media { AllMedia(msgs); } else { NoMedia(msgs); }
  }

  lemma {:induction false} FilterHandshake(s: Session)
    ensures Numbered(Handshake(s)) == [Handshake(s)[1]] && MediaOf(Handshake(s)) == []
  {
    var h := Handshake(s);
    assert h[..1] == [Connected] && [Connected][..0] == [];
    assert Numbered(h[..1]) == [] && MediaOf(h[..1]) == [];
  }

  /** The sequence counter of a session against what it has queued. */
  ghost predicate SeqCounted(s: Session, h: seq<Message>) {
    Consecutive(h, 1) && s.seqNo == (1 + |Numbered(h)|) % 0x1_0000_0000
  }

  /** Its media counters against the media it has queued. */
  ghost predicate MediaCounted(s: Session, h: seq<Message>) {
    && Clocked(h)
    && s.chunk == (1 + |MediaOf(h)|) % 0x1_0000_0000
    && s.timestampMs == 20 * |MediaOf(h)| % 0x1_0000_0000
    && s.uplinkFrames == |MediaOf(h)|
  }

  /** What one action queues continues the numbering where the counter stands, and the counter moves past it. */
  ghost predicate SeqContinues(s: Session, e: seq<Message>, r: Session) {
    && (forall i :: 0 <= i < |Numbered(e)| ==> Numbered(e)[i].seqNo == Add32(s.seqNo, i))
    && r.seqNo == Add32(s.seqNo, |Numbered(e)|)
  }

  ghost predicate MediaContinues(s: Session, e: seq<Message>, r: Session) {
    && (forall i :: 0 <= i < |MediaOf(e)| ==>
          MediaOf(e)[i].chunk == Add32(s.chunk, i) && MediaOf(e)[i].timestampMs == Add32(s.timestampMs, 20 * i))
    && r.chunk == Add32(s.chunk, |MediaOf(e)|)
    && r.timestampMs == Add32(s.timestampMs, 20 * |MediaOf(e)|)
    && r.uplinkFrames == s.uplinkFrames + |MediaOf(e)|
  }

  lemma {:induction false} PushContinues(s: Session, pcm: seq<int16>)
    requires Fits(s)
    ensures var a := PushPcm(pcm);
            SeqContinues(s, Emitted(s, a), Step(s, a)) && MediaContinues(s, Emitted(s, a), Step(s, a))
  {
    FilterAll(Emitted(s, PushPcm(pcm)), true);
  }

  /** Messages without audio, numbered on from the counter. */
  lemma {:induction false} UnplayedContinue(s: Session, e: seq<Message>, r: Session)
    requires forall i :: 0 <= i < |e| ==> !e[i].Connected? && !e[i].Media? && e[i].seqNo == Add32(s.seqNo, i)
    requires r.seqNo == Add32(s.seqNo, |e|)
    requires r.chunk == s.chunk && r.timestampMs == s.timestampMs && r.uplinkFrames == s.uplinkFrames
    ensures SeqContinues(s, e, r) && MediaContinues(s, e, r)
  {
    FilterAll(e, false);
    assert Numbered(e) == e && MediaOf(e) == [];
    PlusNothing(s.chunk);
    PlusNothing(s.timestampMs);
  }

  lemma PlusNothing(x: uint32)
    ensures Add32(x, 0) == x
  {}

  lemma {:induction false} AcknowledgedContinues(s: Session, names: seq<string>, r: Session)
    requires Fits(s)
    requires r.seqNo == Add32(s.seqNo, |names|)
    requires r.chunk == s.chunk && r.timestampMs == s.timestampMs && r.uplinkFrames == s.uplinkFrames
    ensures var e := Acks(s.streamSid, s.seqNo, names); SeqContinues(s, e, r) && MediaContinues(s, e, r)
  {
    UnplayedContinue(s, Acks(s.streamSid, s.seqNo, names), r);
  }

  lemma {:induction false} ObeyContinues(s: Session, c: Command, nowNs: nat, e: seq<Message>)
    requires Fits(s)
    requires e == if c.BargeIn? then Acks(s.streamSid, s.seqNo, P.Flushed(s.playout, 64)) else []
    ensures SeqContinues(s, e, Obey(s, c, nowNs)) && MediaContinues(s, e, Obey(s, c, nowNs))
  {
    if c.BargeIn? {
      AcknowledgedContinues(s, P.Flushed(s.playout, 64), Obey(s, c, nowNs));
    } else {
      FilterAll(e, false);
    }
  }

  lemma {:induction false} SilenceContinues(s: Session, r: Session)
    requires r.seqNo == s.seqNo && r.chunk == s.chunk && r.timestampMs == s.timestampMs
    requires r.uplinkFrames == s.uplinkFrames
    ensures SeqContinues(s, [], r) && MediaContinues(s, [], r)
  {}

  lemma {:induction false} StopContinues(s: Session)
    requires Fits(s)
    ensures var e := Emitted(s, StopStream); SeqContinues(s, e, Halt(s)) && MediaContinues(s, e, Halt(s))
  {
    if s.state.Stopped? || s.state.Idle? {
      SilenceContinues(s, s);
    } else {
      var m := Message.Stop(s.seqNo, s.streamSid, s.accountSid, s.callSid);
      UnplayedContinue(s, [m], Halt(s));
    }
  }

  /** Actions that queue nothing leave every counter alone. */
  lemma {:induction false} QuietCounters(s: Session, a: Action)
    requires Fits(s) && (a.SendHead? || a.ReadPlayout? || a.NoteWrite? || a.SetPaused?)
    ensures Emitted(s, a) == []
    ensures var r := Step(s, a);
            && r.seqNo == s.seqNo && r.chunk == s.chunk
            && r.timestampMs == s.timestampMs && r.uplinkFrames == s.uplinkFrames
  {}

  lemma {:induction false} HarvestContinues(s: Session)
    requires Fits(s)
    ensures var e := Emitted(s, HarvestMarks); SeqContinues(s, e, Harvested(s)) && MediaContinues(s, e, Harvested(s))
  {
    AcknowledgedContinues(s, P.Harvested(s.playout, 8), Harvested(s));
  }

  lemma {:induction false} GreetContinues(s: Session)
    requires Fits(s)
    ensures var e := Emitted(s, Rehandshake); SeqContinues(s, e, Greet(s)) && MediaContinues(s, e, Greet(s))
  {
    if s.state.Running? {
      FilterHandshake(s);
    } else {
      SilenceContinues(s, s);
    }
  }

  lemma {:induction false} CommandContinues(s: Session, c: Command, nowNs: nat)
    requires Fits(s)
    ensures var a := PeerCommand(c, nowNs);
            SeqContinues(s, Emitted(s, a), Step(s, a)) && MediaContinues(s, Emitted(s, a), Step(s, a))
  {
    if s.state.Running? {
      ObeyContinues(s, c, nowNs, Emitted(s, PeerCommand(c, nowNs)));
    } else {
      SilenceContinues(s, s);
    }
  }

  lemma {:induction false} EmittedContinues(s: Session, a: Action)
    requires Fits(s)
    ensures SeqContinues(s, Emitted(s, a), Step(s, a)) && MediaContinues(s, Emitted(s, a), Step(s, a))
  {
    match a {
      case PushPcm(pcm) => PushContinues(s, pcm);
      case PeerCommand(c, nowNs) => CommandContinues(s, c, nowNs);
      case HarvestMarks => HarvestContinues(s);
      case StopStream => StopContinues(s);
      case Rehandshake => GreetContinues(s);
      case _ =>
        QuietCounters(s, a);
        SilenceContinues(s, Step(s, a));
    }
  }

  lemma {:induction false} SeqCountedStep(s: Session, h: seq<Message>, e: seq<Message>, r: Session)
    requires SeqCounted(s, h) && SeqContinues(s, e, r)
    ensures SeqCounted(r, h + e)
  {
    NumberedAppend(h, e);
    var a: seq<Message>, b: seq<Message> := Numbered(h), Numbered(e);
    var n := |a|;
    forall i | n <= i < |a + b| ensures (a + b)[i].seqNo == (1 + i) % 0x1_0000_0000 {
      assert (a + b)[i] == b[i - n];
      NumberAt(s, n, i - n);
    }
    NumberAt(s, n, |b|);
  }

  lemma {:induction false} NumberAt(s: Session, n: nat, i: nat)
    requires s.seqNo == (1 + n) % 0x1_0000_0000
    ensures Add32(s.seqNo, i) == (1 + (n + i)) % 0x1_0000_0000
  {
    AddMod(1 + n, i);
  }

  lemma AddMod(x: nat, i: nat)
    ensures Add32(x % 0x1_0000_0000, i) == (x + i) % 0x1_0000_0000
  {}

  lemma ClockAt(s: Session, k: nat, i: nat)
    requires s.chunk == (1 + k) % 0x1_0000_0000 && s.timestampMs == 20 * k % 0x1_0000_0000
    ensures Add32(s.chunk, i) == (1 + (k + i)) % 0x1_0000_0000
    ensures Add32(s.timestampMs, 20 * i) == 20 * (k + i) % 0x1_0000_0000
  {
    AddMod(1 + k, i);
    AddMod(20 * k, 20 * i);
  }

  lemma {:induction false} MediaCountedStep(s: Session, h: seq<Message>, e: seq<Message>, r: Session)
    requires MediaCounted(s, h) && MediaContinues(s, e, r)
    ensures MediaCounted(r, h + e)
  {
    MediaAppend(h, e);
    var k := |MediaOf(h)|;
    forall i | k <= i < |MediaOf(h + e)|
      ensures MediaOf(h + e)[i].chunk == (1 + i) % 0x1_0000_0000
      ensures MediaOf(h + e)[i].timestampMs == 20 * i % 0x1_0000_0000
    {
      assert MediaOf(h + e)[i] == MediaOf(e)[i - k];
      ClockAt(s, k, i - k);
    }
    ClockAt(s, k, |MediaOf(e)|);
  }

  lemma {:induction false} BeginNumbered(c: Config)
    ensures SeqCounted(Opening(c), FirstMessages(c)) && MediaCounted(Opening(c), FirstMessages(c))
  {
    GreetedOnce(Opened(Init(c.queueCap, c.playoutCap), c.streamSid, c.callSid, c.accountSid, c.custom), Opening(c));
  }

  lemma {:induction false} GreetedOnce(s: Session, r: Session)
    requires s.seqNo == 1 && r.seqNo == 2 && r.chunk == 1 && r.timestampMs == 0 && r.uplinkFrames == 0
    ensures SeqCounted(r, Handshake(s)) && MediaCounted(r, Handshake(s))
  {
    FilterHandshake(s);
  }

  /** In every run, start, media, mark and stop messages are numbered 1, 2, 3, ... modulo 2^32 across reconnects, and
      the k-th media message has chunk k and timestamp 20 * (k - 1), modulo 2^32. */
  lemma {:induction false} HistoryNumbered(c: Config, acts: seq<Action>)
    ensures var s := Run(Opening(c), acts); var h := WorldRun(WorldBegin(c), acts).q.pushed;
            SeqCounted(s, h) && MediaCounted(s, h)
    decreases |acts|
  {
    BeginSound(c);
    if acts == [] {
      BeginNumbered(c);
    } else {
      var init, a := acts[..|acts| - 1], acts[|acts| - 1];
      HistoryNumbered(c, init);
      RunSound(c, init);
      var w := WorldRun(WorldBegin(c), init);
      StepHistory(w, a);
      EmittedContinues(w.s, a);
      SeqCountedStep(w.s, w.q.pushed, Emitted(w.s, a), Step(w.s, a));
      MediaCountedStep(w.s, w.q.pushed, Emitted(w.s, a), Step(w.s, a));
    }
  }

  // ------------------------------------------------------------------------------------------
  // Gaps on the wire
  // ------------------------------------------------------------------------------------------

  /** The number of a message is one more than the count of numbered messages before it. */
  lemma {:induction false} NumberOf(h: seq<Message>, i: nat)
    requires i < |h| && !h[i].Connected? && Consecutive(h, 1)
    ensures |Numbered(h[..i])| < |Numbered(h)|
    ensures h[i].seqNo == (1 + |Numbered(h[..i])|) % 0x1_0000_0000
  {
    var k := |Numbered(h[..i])|;
    assert h[..i + 1][..i] == h[..i];
    assert Numbered(h[..i + 1]) == Numbered(h[..i]) + [h[i]];
    NumberedAppend(h[..i + 1], h[i + 1..]);
    assert h == h[..i + 1] + h[i + 1..];
    assert Numbered(h)[k] == h[i];
  }

  lemma {:induction false} NumberedGrows(h: seq<Message>, i: nat, j: nat)
    requires i < j <= |h| && !h[i].Connected?
    ensures |Numbered(h[..i])| < |Numbered(h[..j])|
  {
    assert h[..i + 1][..i] == h[..i];
    assert Numbered(h[..i + 1]) == Numbered(h[..i]) + [h[i]];
    NumberedAppend(h[..i + 1], h[i + 1..j]);
    assert h[..j] == h[..i + 1] + h[i + 1..j];
  }

  /** Before the numbers wrap no two messages share one. */
  lemma {:induction false} NumbersDistinct(h: seq<Message>, i: nat, j: nat)
    requires i < j < |h| && !h[i].Connected? && !h[j].Connected?
    requires Consecutive(h, 1) && |Numbered(h)| < 0x1_0000_0000
    ensures h[i].seqNo != h[j].seqNo
  {
    NumberOf(h, i);
    NumberOf(h, j);
    NumberedGrows(h, i, j);
  }

  lemma {:induction false} SelectedFrom<X>(s: seq<X>, keep: seq<bool>, k: nat) returns (i: nat)
    requires |s| == |keep| && k < |Select(s, keep)|
    ensures i < |s| && keep[i] && s[i] == Select(s, keep)[k]
    decreases |s|
  {
    var n := |s| - 1;
    if k < |Select(s[..n], keep[..n])| {
      i := SelectedFrom(s[..n], keep[..n], k);
    } else {
      i := n;
    }
  }

  lemma {:induction false} SelectedTo<X>(s: seq<X>, keep: seq<bool>, i: nat)
    requires |s| == |keep| && i < |s| && keep[i]
    ensures s[i] in Select(s, keep)
    decreases |s|
  {
    var n := |s| - 1;
    if i < n {
      SelectedTo(s[..n], keep[..n], i);
      assert s[..n][i] == s[i];
    }
  }

  ghost predicate OnWire(wire: seq<Message>, number: uint32) {
    exists k :: 0 <= k < |wire| && !wire[k].Connected? && wire[k].seqNo == number
  }

  /** While fewer than 2^32 messages have been numbered: among the numbered messages that have left the queue, those
      missing from the wire are exactly the evicted ones. */
  lemma {:induction false} GapsAreEvictions(c: Config, acts: seq<Action>, i: nat)
    requires var t := WorldRun(WorldBegin(c), acts).q;
             i < |t.fates| <= |t.pushed| && !t.pushed[i].Connected? && |Numbered(t.pushed)| < 0x1_0000_0000
    ensures var t := WorldRun(WorldBegin(c), acts).q;
            OnWire(t.taken, t.pushed[i].seqNo) <==> t.fates[i]
  {
    RunSound(c, acts);
    HistoryNumbered(c, acts);
    WireIffKept(WorldRun(WorldBegin(c), acts).q, i);
  }

  lemma {:induction false} WireIffKept(t: Q.Traced<Message>, i: nat)
    requires Q.Accounted(t) && i < |t.fates| && !t.pushed[i].Connected?
    requires Consecutive(t.pushed, 1) && |Numbered(t.pushed)| < 0x1_0000_0000
    ensures OnWire(t.taken, t.pushed[i].seqNo) <==> t.fates[i]
  {
    var h := t.pushed[..|t.fates|];
    if t.fates[i] {
      SelectedTo(h, t.fates, i);
      var k :| 0 <= k < |t.taken| && t.taken[k] == h[i];
    } else if OnWire(t.taken, t.pushed[i].seqNo) {
      var k :| 0 <= k < |t.taken| && !t.taken[k].Connected? && t.taken[k].seqNo == t.pushed[i].seqNo;
      var j := SelectedFrom(h, t.fates, k);
      assert t.pushed[j] == h[j];
      NumbersDistinct(t.pushed, if i < j then i else j, if i < j then j else i);
      assert false;
    }
  }

  // ------------------------------------------------------------------------------------------
  // Mark acknowledgements
  // ------------------------------------------------------------------------------------------

  function AckNames(msgs: seq<Message>): (r: seq<string>) {
    if msgs == [] then []
    else
      var n := |msgs| - 1;
      AckNames(msgs[..n]) + (if msgs[n].MarkAck? then [msgs[n].name] else [])
  }

  lemma {:induction false} AckNamesAppend(a: seq<Message>, b: seq<Message>)
    ensures AckNames(a + b) == AckNames(a) + AckNames(b)
    decreases |b|
  {
    if b == [] {
      assert a + b == a;
    } else {
      AckNamesAppend(a, b[..|b| - 1]);
      assert (a + b)[..|a + b| - 1] == a + b[..|b| - 1];
    }
  }

  lemma {:induction false} AckNamesOfAcks(sid: string, first: uint32, names: seq<string>)
    ensures AckNames(Acks(sid, first, names)) == names
    decreases |names|
  {
    if names != [] {
      var n := |names| - 1;
      AckNamesOfAcks(sid, first, names[..n]);
      assert Acks(sid, first, names)[..n] == Acks(sid, first, names[..n]);
      assert names == names[..n] + [names[n]];
    }
  }

  lemma {:induction false} NoAckNames(msgs: seq<Message>)
    requires forall i :: 0 <= i < |msgs| ==> !msgs[i].MarkAck?
    ensures AckNames(msgs) == []
    decreases |msgs|
  {
    if msgs != [] {
      NoAckNames(msgs[..|msgs| - 1]);
    }
  }

  lemma {:induction false} CommandAcks(s: Session, c: Command, nowNs: nat)
    requires Fits(s)
    ensures var a := PeerCommand(c, nowNs);
            AckNames(Emitted(s, a)) == if s.state.Running? && c.BargeIn? then P.Flushed(s.playout, 64) else []
  {
    if s.state.Running? && c.BargeIn? {
      AckNamesOfAcks(s.streamSid, s.seqNo, P.Flushed(s.playout, 64));
    }
  }

  /** The session acknowledges exactly what the playout reports. */
  lemma {:induction false} EmittedAcks(s: Session, a: Action)
    requires Fits(s)
    ensures AckNames(Emitted(s, a)) ==
              if PlayoutOps(s, a) == [] then [] else T.ReportedBy(s.playout, PlayoutOps(s, a)[0])
  {
    if a.HarvestMarks? {
      AckNamesOfAcks(s.streamSid, s.seqNo, P.Harvested(s.playout, 8));
    } else if a.PeerCommand? {
      CommandAcks(s, a.c, a.nowNs);
    } else {
      NoAckNames(Emitted(s, a));
    }
  }

  lemma {:induction false} AckStep(w: World, a: Action)
    requires Sound(w) && AckNames(w.q.pushed) == w.p.reported
    ensures AckNames(WorldStep(w, a).q.pushed) == WorldStep(w, a).p.reported
  {
    StepHistory(w, a);
    StepAudio(w, a);
    EmittedAcks(w.s, a);
    AckNamesAppend(w.q.pushed, Emitted(w.s, a));
    assert w.p.reported + [] == w.p.reported;
  }

  lemma {:induction false} NoAcksAtFirst(c: Config)
    ensures AckNames(WorldBegin(c).q.pushed) == [] == WorldBegin(c).p.reported
  {
    BeginSound(c);
    NoAcksInHandshake(Opened(Init(c.queueCap, c.playoutCap), c.streamSid, c.callSid, c.accountSid, c.custom));
  }

  lemma {:induction false} NoAcksInHandshake(s: Session)
    ensures AckNames(Handshake(s)) == []
  {
    NoAckNames(Handshake(s));
  }

  lemma {:induction false} AcksFollowReports(c: Config, acts: seq<Action>)
    ensures var w := WorldRun(WorldBegin(c), acts); AckNames(w.q.pushed) == w.p.reported
    decreases |acts|
  {
    if acts == [] {
      NoAcksAtFirst(c);
    } else {
      var init := acts[..|acts| - 1];
      AcksFollowReports(c, init);
      RunSound(c, init);
      AckStep(WorldRun(WorldBegin(c), init), acts[|acts| - 1]);
    }
  }

  /** Mark accounting over every run: the acknowledgements queued are, in order, a selection of the accepted marks in
      which none occurs twice; every other accepted mark is still pending or was completed beyond the limit of
      eight per harvest. */
  lemma {:induction false} MarksAccounted(c: Config, acts: seq<Action>) returns (acked: seq<bool>)
    ensures var w := WorldRun(WorldBegin(c), acts); var s := Run(Opening(c), acts);
            var acks := AckNames(w.q.pushed);
            && |acked| <= |w.p.marked|
            && acks == Select(w.p.marked[..|acked|], acked)
            && P.Names(s.playout.marks) == w.p.marked[|acked|..]
            && |acked| == |acks| + w.p.overLimit
            && |w.p.marked| == |acks| + w.p.overLimit + |s.playout.marks|
  {
    RunSound(c, acts);
    AcksFollowReports(c, acts);
    var line := WorldRun(WorldBegin(c), acts).line;
    R.RelativeNames(line.pins, line.cursor);
    acked := line.acked;
  }

  /** A clear acknowledges every pending mark at once, in order, and leaves neither audio nor marks behind. */
  lemma {:induction false} ClearAcknowledgesAll(s: Session, nowNs: nat)
    requires Fits(s) && s.state.Running?
    ensures var a := PeerCommand(BargeIn, nowNs);
            && AckNames(Emitted(s, a)) == P.Names(s.playout.marks)
            && Step(s, a).playout.data == [] && Step(s, a).playout.marks == []
  {
    AckNamesOfAcks(s.streamSid, s.seqNo, P.Flushed(s.playout, 64));
  }

  // ------------------------------------------------------------------------------------------
  // Clear latency
  // ------------------------------------------------------------------------------------------

  function Sum(xs: seq<nat>): (n: nat) {
    if xs == [] then 0 else Sum(xs[..|xs| - 1]) + xs[|xs| - 1]
  }

  lemma {:induction false} SumUpdate(xs: seq<nat>, i: nat)
    requires i < |xs|
    ensures Sum(xs[i := xs[i] + 1]) == Sum(xs) + 1
    decreases |xs|
  {
    var n := |xs| - 1;
    if i < n {
      SumUpdate(xs[..n], i);
      assert xs[i := xs[i] + 1][..n] == xs[..n][i := xs[i] + 1];
    } else {
      assert xs[i := xs[i] + 1][..n] == xs[..n];
    }
  }

  ghost predicate LatencyConsistent(s: Session) {
    && |s.latency.buckets| == 8 && Sum(s.latency.buckets) == s.latency.samples
    && s.latency.samples + (if s.clearArmed then 1 else 0) <= s.clearEvents
    && s.latency.sum <= s.latency.max * s.latency.samples
    && s.latency.last <= s.latency.max
  }

  lemma {:induction false} RecordConsistent(l: Latency, us: nat)
    requires |l.buckets| == 8 && Sum(l.buckets) == l.samples && l.sum <= l.max * l.samples
    ensures Sum(Record(l, us).buckets) == Record(l, us).samples
    ensures Record(l, us).sum <= Record(l, us).max * Record(l, us).samples
  {
    SumUpdate(l.buckets, Bucket(us));
    SumBelowMax(l.sum, l.max, Record(l, us).max, l.samples, us);
  }

  lemma SumBelowMax(sum: nat, max: nat, newMax: nat, n: nat, us: nat)
    requires sum <= max * n && max <= newMax && us <= newMax
    ensures sum + us <= newMax * (n + 1)
  {
    assert max * n <= newMax * n;
    assert newMax * (n + 1) == newMax * n + newMax;
  }

  lemma {:induction false} LatencyStep(s: Session, a: Action)
    requires Fits(s) && LatencyConsistent(s)
    ensures LatencyConsistent(Step(s, a))
  {
    if a.NoteWrite? && s.clearArmed && a.samplesWritten == 0 {
      RecordConsistent(s.latency, ElapsedUs(s.clearStartNs, a.nowNs));
    }
  }

  /** The average that the statistics report; zero before the first sample. */
  function AverageUs(l: Latency): (avg: nat) {
    if l.samples == 0 then 0 else l.sum / l.samples
  }

  /** Over every run: the histogram counts every sample, no clear is sampled twice, and the reported average never
      exceeds the reported maximum. */
  lemma {:induction false} LatencyOverRuns(c: Config, acts: seq<Action>)
    ensures var s := Run(Opening(c), acts);
            LatencyConsistent(s) && AverageUs(s.latency) <= s.latency.max
    decreases |acts|
  {
    if acts == [] {
      AllZero();
    } else {
      LatencyOverRuns(c, acts[..|acts| - 1]);
      LatencyStep(Run(Opening(c), acts[..|acts| - 1]), acts[|acts| - 1]);
      AverageBelowMax(Run(Opening(c), acts).latency);
    }
  }

  lemma AllZero()
    ensures Sum([0, 0, 0, 0, 0, 0, 0, 0]) == 0
  {
    assert [0, 0, 0, 0, 0, 0, 0, 0][..7] == [0, 0, 0, 0, 0, 0, 0];
    assert [0, 0, 0, 0, 0, 0, 0][..6] == [0, 0, 0, 0, 0, 0];
    assert [0, 0, 0, 0, 0, 0][..5] == [0, 0, 0, 0, 0];
    assert [0, 0, 0, 0, 0][..4] == [0, 0, 0, 0];
    assert [0, 0, 0, 0][..3] == [0, 0, 0];
    assert [0, 0, 0][..2] == [0, 0];
    assert [0, 0][..1] == [0];
  }

  lemma AverageBelowMax(l: Latency)
    requires l.sum <= l.max * l.samples
    ensures AverageUs(l) <= l.max
  {
    if l.samples > 0 {
      var q := l.sum / l.samples;
      assert q * l.samples <= l.sum;
      assert q > l.max ==> (l.max + 1) * l.samples <= q * l.samples;
    }
  }
}
