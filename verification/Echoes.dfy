/** What becomes of the echo of a mark: acknowledged or not, queued, sent or evicted. When every accepted mark is
    echoed, and runs in which one is not. */
module Echoes {
  import opened Sequences
  import opened Protocol
  import opened Session
  import opened SessionRuns
  import opened Bridge
  import opened BridgeRuns
  import opened Promises
  import Q = OutboundQueue
  import P = Playout
  import T = Timeline

  // ------------------------------------------------------------------------------------------
  // Acknowledgements among the evicted
  // ------------------------------------------------------------------------------------------

  /** Acknowledgements labelled as evicted. */
  function EvictedAcks(h: seq<Message>, fates: seq<bool>): (n: nat)
    requires |h| == |fates|
  {
    if h == [] then 0
    else
      var n := |h| - 1;
      EvictedAcks(h[..n], fates[..n]) + if h[n].MarkAck? && !fates[n] then 1 else 0
  }

  lemma {:induction false} AckNamesSnoc(h: seq<Message>, m: Message)
    ensures AckNames(h + [m]) == AckNames(h) + if m.MarkAck? then [m.name] else []
  {
    assert (h + [m])[..|h|] == h;
  }

  /** Every acknowledgement that has left the queue was sent or evicted; if none was evicted, all were sent. */
  lemma {:induction false} AcksSplit(h: seq<Message>, fates: seq<bool>)
    requires |h| == |fates|
    ensures |AckNames(h)| == |AckNames(Select(h, fates))| + EvictedAcks(h, fates)
    ensures EvictedAcks(h, fates) == 0 ==> AckNames(Select(h, fates)) == AckNames(h)
    decreases |h|
  {
    if h != [] {
      var n := |h| - 1;
      AcksSplit(h[..n], fates[..n]);
      if fates[n] {
        AckNamesSnoc(Select(h[..n], fates[..n]), h[n]);
      } else {
        assert Select(h[..n], fates[..n]) + [] == Select(h[..n], fates[..n]);
      }
    }
  }

  lemma {:induction false} EvictedAcksSnoc(h: seq<Message>, fates: seq<bool>, m: Message, fate: bool)
    requires |h| == |fates|
    ensures EvictedAcks(h + [m], fates + [fate])
         == EvictedAcks(h, fates) + if m.MarkAck? && !fate then 1 else 0
  {
    assert (h + [m])[..|h|] == h && (fates + [fate])[..|h|] == fates;
  }

  /** A stretch of evictions. */
  lemma {:induction false} EvictedAcksMore(h: seq<Message>, fates: seq<bool>, gone: seq<Message>, no: seq<bool>)
    requires |h| == |fates| && |gone| == |no| && forall i :: 0 <= i < |no| ==> !no[i]
    ensures EvictedAcks(h + gone, fates + no) == EvictedAcks(h, fates) + |AckNames(gone)|
    decreases |gone|
  {
    if gone == [] {
      assert h + gone == h && fates + no == fates;
    } else {
      var n := |gone| - 1;
      EvictedAcksMore(h, fates, gone[..n], no[..n]);
      EvictedAcksSnoc(h + gone[..n], fates + no[..n], gone[n], no[n]);
      SplitLast(h, gone);
      SplitLast(fates, no);
    }
  }

  /** Acknowledgements a queue has evicted so far. */
  ghost function Unsent(t: Q.Traced<Message>): (n: nat) {
    if |t.fates| <= |t.pushed| then EvictedAcks(t.pushed[..|t.fates|], t.fates) else 0
  }

  /** The messages that pushing `msgs` evicts. */
  function Overflow(q: Q.Queue<Message>, msgs: seq<Message>): (gone: seq<Message>)
    requires Q.Fits(q)
  {
    var all := q.items + msgs;
    all[..|all| - |Q.Last(all, q.capacity)|]
  }

  lemma {:induction false} NoOverflow(q: Q.Queue<Message>)
    requires Q.Fits(q)
    ensures Overflow(q, []) == []
  {}

  /** Pushing evicts exactly the overflow. */
  lemma {:induction false} PushesEvict(t: Q.Traced<Message>, msgs: seq<Message>)
    requires Q.Accounted(t)
    ensures var r := Q.Run(t, Q.Pushes(msgs));
            Q.Accounted(r) && Unsent(r) == Unsent(t) + |AckNames(Overflow(t.q, msgs))|
  {
    var r := Q.Run(t, Q.Pushes(msgs));
    Q.RunAccounted(t, Q.Pushes(msgs));
    Q.RunPushes(t, msgs);
    Q.PushAllKeepsLast(t.q, msgs);
    PushOnlyEvicts(t, msgs);
    Gone(t, r, msgs);
  }

  lemma {:induction false} Gone(t: Q.Traced<Message>, r: Q.Traced<Message>, msgs: seq<Message>)
    requires Q.Accounted(t) && Q.Accounted(r) && OnlyEvicts(t, r) && r.pushed == t.pushed + msgs
    requires r.q.items == Q.Last(t.q.items + msgs, t.q.capacity)
    ensures Unsent(r) == Unsent(t) + |AckNames(Overflow(t.q, msgs))|
  {
    var n, m, gone := |t.fates|, |r.fates|, Overflow(t.q, msgs);
    var h, no := t.pushed[..n], r.fates[n..];
    assert m - n == |gone|;
    Departed(t.pushed, msgs, n, m);
    assert r.fates == t.fates + no;
    EvictedAcksMore(h, t.fates, gone, no);
  }

  lemma {:induction false} Departed(pushed: seq<Message>, msgs: seq<Message>, n: nat, m: nat)
    requires n <= |pushed| && n <= m <= |pushed + msgs|
    ensures (pushed + msgs)[..m] == pushed[..n] + (pushed[n..] + msgs)[..m - n]
  {}

  lemma {:induction false} TakeEvictsNothing(t: Q.Traced<Message>)
    requires Q.Accounted(t)
    ensures Q.Accounted(Q.Step(t, Q.TakeOp)) && Unsent(Q.Step(t, Q.TakeOp)) == Unsent(t)
  {
    Q.StepAccounted(t, Q.TakeOp);
    if t.q.items != [] {
      TakenIsNotEvicted(t.pushed, t.fates, t.fates + [true]);
    }
  }

  lemma {:induction false} TakenIsNotEvicted(pushed: seq<Message>, fates: seq<bool>, fates': seq<bool>)
    requires |fates| < |pushed| && fates' == fates + [true]
    ensures EvictedAcks(pushed[..|fates'|], fates') == EvictedAcks(pushed[..|fates|], fates)
  {
    var n := |fates|;
    EvictedAcksSnoc(pushed[..n], fates, pushed[n], true);
    assert pushed[..n + 1] == pushed[..n] + [pushed[n]];
  }

  /** What a session action evicts can be told before it is taken. */
  lemma {:induction false} StepEvicts(w: World, a: Action)
    requires Sound(w)
    ensures Sound(WorldStep(w, a))
    ensures Unsent(WorldStep(w, a).q) == Unsent(w.q) + |AckNames(Overflow(w.s.outbound, Emitted(w.s, a)))|
  {
    StepSound(w, a);
    if a.SendHead? {
      TakeEvictsNothing(w.q);
      var ops := QueueOps(w.s, a);
      assert ops[..0] == [];
      assert Q.Run(w.q, ops) == Q.Step(w.q, ops[0]);
      NoOverflow(w.s.outbound);
    } else {
      PushesEvict(w.q, Emitted(w.s, a));
    }
  }

  // ------------------------------------------------------------------------------------------
  // What an event of the bridge evicts
  // ------------------------------------------------------------------------------------------

  lemma {:induction false} ActEvicts(w: World, a: Action)
    requires Sound(w)
    ensures Unsent(WorldRun(w, [a]).q) == Unsent(w.q) + |AckNames(Overflow(w.s.outbound, Emitted(w.s, a)))|
  {
    OneAct(w, a);
    StepEvicts(w, a);
  }

  lemma {:induction false} QuietActEvicts(w: World, a: Action)
    requires Sound(w) && Emitted(w.s, a) == []
    ensures Sound(WorldStep(w, a)) && Unsent(WorldStep(w, a).q) == Unsent(w.q)
  {
    StepEvicts(w, a);
    NoOverflow(w.s.outbound);
  }

  lemma {:induction false} ActsEvict(w: World, acts: seq<Action>)
    requires Sound(w) && |acts| <= 2 && (|acts| == 2 ==> acts[1].NoteWrite?)
    ensures Unsent(WorldRun(w, acts).q)
         == Unsent(w.q) + |AckNames(Overflow(w.s.outbound, if acts == [] then [] else Emitted(w.s, acts[0])))|
  {
    if acts == [] {
      NoOverflow(w.s.outbound);
    } else if |acts| == 1 {
      ActEvicts(w, acts[0]);
      assert acts == [acts[0]];
    } else {
      NotedEvicts(w, acts[0], acts[1]);
      assert acts == [acts[0]] + [acts[1]];
    }
  }

  lemma {:induction false} NotedEvicts(w: World, a: Action, note: Action)
    requires Sound(w) && note.NoteWrite?
    ensures Unsent(WorldRun(w, [a] + [note]).q) == Unsent(w.q) + |AckNames(Overflow(w.s.outbound, Emitted(w.s, a)))|
  {
    ActEvicts(w, a);
    OneActHistory(w, a);
    QuietActEvicts(WorldRun(w, [a]), note);
    WorldSnoc(w, [a], note);
  }

  /** A flush evicts what its first harvest pushes out. */
  lemma {:induction false} FlushEvicts(w: World, budget: nat)
    requires Sound(w)
    ensures Unsent(WorldRun(w, FlushActs(w.s, budget)).q)
         == Unsent(w.q) + |AckNames(Overflow(w.s.outbound, Emitted(w.s, HarvestMarks)))|
    decreases budget
  {
    var h := Harvested(w.s);
    ActEvicts(w, HarvestMarks);
    if h.outbound.items != [] && budget > 0 {
      var next: nat := budget - 1;
      var turn := [HarvestMarks, SendHead];
      var w2 := WorldRun(w, turn);
      TurnTakes(w);
      TurnHistory(w);
      TurnEvicts(w);
      FlushOnward(w.s, h, w2.s, budget, next);
      FlushEvicts(w2, next);
      WorldAppend(w, turn, FlushActs(w2.s, next));
      NothingMoreToHarvest(w2.s, w2.p);
      NoOverflow(w2.s.outbound);
    } else {
      FlushEnd(w.s, h, budget);
    }
  }

  lemma {:induction false} TurnEvicts(w: World)
    requires Sound(w)
    ensures Unsent(WorldRun(w, [HarvestMarks, SendHead]).q)
         == Unsent(w.q) + |AckNames(Overflow(w.s.outbound, Emitted(w.s, HarvestMarks)))|
  {
    var v := WorldRun(w, [HarvestMarks]);
    ActEvicts(w, HarvestMarks);
    OneActHistory(w, HarvestMarks);
    SendEvictsNothing(v);
    WorldSnoc(w, [HarvestMarks], SendHead);
    assert [HarvestMarks] + [SendHead] == [HarvestMarks, SendHead];
  }

  lemma {:induction false} SendEvictsNothing(w: World)
    requires Sound(w)
    ensures Unsent(WorldStep(w, SendHead).q) == Unsent(w.q)
  {
    QuietActEvicts(w, SendHead);
  }

  /** Acknowledgements that an event evicts: by what it queues first, and by what its flush acknowledges. */
  function EvictedBy(b: Bridge, e: Event): (n: nat)
    requires Fits(b.session)
  {
    |AckNames(Overflow(b.session.outbound, MessagesBefore(b, e)))|
    + if FlushOf(b, e).Some? then |AckNames(Overflow(Midway(b, e).outbound, Emitted(Midway(b, e), HarvestMarks)))|
      else 0
  }

  lemma {:induction false} EventEvicts(w: World, b: Bridge, e: Event)
    requires Sound(w) && w.s == b.session
    ensures Unsent(WorldRun(w, Acts(b, e)).q) == Unsent(w.q) + EvictedBy(b, e)
  {
    var v := WorldRun(w, Before(b, e));
    BeforeShape(b, e);
    ActsEvict(w, Before(b, e));
    if FlushOf(b, e).Some? {
      var budget := FlushOf(b, e).value;
      BeforeHistory(w, b, e);
      StateOfWorld(w, Before(b, e));
      FlushEvicts(v, budget);
      WorldAppend(w, Before(b, e), FlushActs(v.s, budget));
      FlushActsAre(b, e, v.s, budget);
    } else {
      NoFlushActs(b, e);
    }
  }

  /** Acknowledgements evicted over a run. */
  function EvictedEchoes(p: Setup, events: seq<Event>): (n: nat) {
    if events == [] then 0
    else
      var init := events[..|events| - 1];
      EvictedEchoes(p, init) + EvictedBy(After(p, init), events[|events| - 1])
  }

  lemma {:induction false} EvictedOverRuns(p: Setup, events: seq<Event>)
    ensures Q.Accounted(Trace(p, events).q) && Unsent(Trace(p, events).q) == EvictedEchoes(p, events)
    decreases |events|
  {
    BridgeRunIsSessionRun(p, events);
    if events == [] {
      NothingUnsentAtFirst(p);
    } else {
      var init, e := events[..|events| - 1], events[|events| - 1];
      EvictedOverRuns(p, init);
      SplitLast([], events);
      BridgeRunIsSessionRun(p, init);
      TraceSnoc(p, init, e);
      EventEvicts(Trace(p, init), After(p, init), e);
    }
  }

  lemma {:induction false} NothingUnsentAtFirst(p: Setup)
    ensures Q.Accounted(Trace(p, []).q) && Unsent(Trace(p, []).q) == 0
  {
    BridgeRunIsSessionRun(p, []);
    HistoryStart(p);
    NoAcksAtFirst(p.c);
    BeginSound(p.c);
    var t := Trace(p, []).q;
    AckNamesAppend(t.pushed[..|t.fates|], t.pushed[|t.fates|..]);
    Cut(t.pushed, |t.fates|);
    AcksSplit(t.pushed[..|t.fates|], t.fates);
  }

  // ------------------------------------------------------------------------------------------
  // Where the accepted marks are
  // ------------------------------------------------------------------------------------------

  /** Over every run each accepted mark is on the wire, queued, pending, was removed by a flush that found more than
      eight completed, or had its acknowledgement evicted. */
  lemma {:induction false} MarksOverRuns(p: Setup, events: seq<Event>)
    ensures var s := After(p, events).session;
            |Trace(p, events).p.marked|
              == |AckNames(Wire(p, events))| + |AckNames(s.outbound.items)| + |s.playout.marks|
                 + LostMarks(p, events) + EvictedEchoes(p, events)
  {
    MarksLostOverRuns(p, events);
    EvictedOverRuns(p, events);
    AcksOverRuns(p, events);
  }

  lemma {:induction false} AcksOverRuns(p: Setup, events: seq<Event>)
    ensures var t := Trace(p, events).q; var s := After(p, events).session;
            && |t.fates| <= |t.pushed|
            && |AckNames(t.pushed)| == |AckNames(Wire(p, events))| + Unsent(t) + |AckNames(s.outbound.items)|
            && (Unsent(t) == 0 ==> AckNames(t.pushed) == AckNames(Wire(p, events)) + AckNames(s.outbound.items))
  {
    var h, fates := OutboundOverRuns(p, events);
    var n := |fates|;
    AcksSplit(h[..n], fates);
    AckNamesAppend(h[..n], h[n..]);
    Cut(h, n);
  }

  /** The k-th event evicts no acknowledgement. */
  predicate KeepsAcks(p: Setup, events: seq<Event>, k: nat)
    requires k < |events|
  {
    EvictedBy(After(p, events[..k]), events[k]) == 0
  }

  lemma {:induction false} KeepsAcksPrefix(p: Setup, events: seq<Event>, n: nat, k: nat)
    requires k < n <= |events|
    ensures KeepsAcks(p, events[..n], k) == KeepsAcks(p, events, k)
  {
    assert events[..n][..k] == events[..k];
  }

  lemma {:induction false} KeepingEvent(p: Setup, events: seq<Event>, k: nat)
    requires k < |events| && EvictedEchoes(p, events) == 0
    ensures KeepsAcks(p, events, k)
    decreases |events|
  {
    var n := |events| - 1;
    if k < n {
      KeepingEvent(p, events[..n], k);
      KeepsAcksPrefix(p, events, n, k);
      assert KeepsAcks(p, events, k);
    } else {
      assert KeepsAcks(p, events, n);
      assert n == k;
    }
  }

  lemma {:induction false} EvictingEvent(p: Setup, events: seq<Event>) returns (k: nat)
    requires EvictedEchoes(p, events) > 0
    ensures k < |events| && !KeepsAcks(p, events, k)
    decreases |events|
  {
    var n := |events| - 1;
    if KeepsAcks(p, events, n) {
      k := EvictingEvent(p, events[..n]);
      KeepsAcksPrefix(p, events, n, k);
    } else {
      k := n;
    }
  }

  /** The names on the wire, then those queued, then those pending. */
  ghost function Echoed(p: Setup, events: seq<Event>): (names: seq<string>) {
    var s := After(p, events).session;
    AckNames(Wire(p, events)) + AckNames(s.outbound.items) + P.Names(s.playout.marks)
  }

  lemma {:induction false} SelectAll<X>(s: seq<X>, keep: seq<bool>)
    requires |s| == |keep| && |Select(s, keep)| == |s|
    ensures Select(s, keep) == s
    decreases |s|
  {
    if s != [] {
      var n := |s| - 1;
      SelectAll(s[..n], keep[..n]);
      SplitLast([], s);
    }
  }

  lemma {:induction false} AllEchoed(p: Setup, events: seq<Event>)
    requires LostMarks(p, events) == 0 && EvictedEchoes(p, events) == 0
    ensures Echoed(p, events) == Trace(p, events).p.marked
  {
    MarksLostOverRuns(p, events);
    EvictedOverRuns(p, events);
    AcksOverRuns(p, events);
    BridgeRunIsSessionRun(p, events);
    var acked := MarksAccounted(p.c, AllActs(p, events));
    var marked := Trace(p, events).p.marked;
    SelectAll(marked[..|acked|], acked);
    Cut(marked, |acked|);
  }

  /** Over every run the echoes on the wire, the echoes queued and the marks pending are together exactly the accepted
      marks, in order, if and only if no flush finds more than eight completed marks and no event evicts an
      acknowledgement. */
  lemma {:induction false} EveryMarkEchoedIff(p: Setup, events: seq<Event>)
    ensures Echoed(p, events) == Trace(p, events).p.marked
            <==> forall k :: 0 <= k < |events| ==> SmallFlush(p, events, k) && KeepsAcks(p, events, k)
  {
    MarksOverRuns(p, events);
    if LostMarks(p, events) == 0 && EvictedEchoes(p, events) == 0 {
      AllEchoed(p, events);
      forall k | 0 <= k < |events| ensures SmallFlush(p, events, k) && KeepsAcks(p, events, k) {
        LosslessEvent(p, events, k);
        KeepingEvent(p, events, k);
      }
    } else if LostMarks(p, events) > 0 {
      var k := LossyEvent(p, events);
      assert !SmallFlush(p, events, k);
    } else {
      var k := EvictingEvent(p, events);
      assert !KeepsAcks(p, events, k);
    }
  }

  // ------------------------------------------------------------------------------------------
  // A run in which an echo is evicted
  // ------------------------------------------------------------------------------------------

  /** The module's own clear command. */
  function ClearText(sid: string): (e: Event) {
    Text(Some(BuildClear(sid)), true, false, 0, 0)
  }

  /** An event that sends nothing, loses no mark and queues what is given. */
  ghost predicate Silent(b: Bridge, e: Event, msgs: seq<Message>)
    requires Fits(b.session)
  {
    WireOf(b, e) == [] && LostBy(b, e) == 0 && Messages(b, e) == msgs
  }

  lemma {:induction false} SilentEvent(b: Bridge, e: Event)
    requires Fits(b.session) && FlushOf(b, e).None?
    ensures Silent(b, e, MessagesBefore(b, e)) && Ops(b, e) == OpsBefore(b, e)
  {
    NoFlushActs(b, e);
    assert MessagesBefore(b, e) + [] == MessagesBefore(b, e) && OpsBefore(b, e) + [] == OpsBefore(b, e);
  }

  lemma {:induction false} LosingSocket(b: Bridge)
    requires Fits(b.session) && b.working
    ensures FlushOf(b, SocketLost).None? && Before(b, SocketLost) == [] && Next(b, SocketLost) == b.(wsReady := false)
  {}

  /** A clear while the socket is down: the acknowledgement waits in the queue. */
  lemma {:induction false} Clearing(b: Bridge, e: Event, name: string)
    requires Fits(b.session) && Sending(b.session) && !b.cleaning && !Ready(b)
    requires e == ClearText(b.session.streamSid) && |b.session.streamSid| < 64
    requires b.session.outbound.items == [] && P.Names(b.session.playout.marks) == [name]
    ensures FlushOf(b, e).None? && Before(b, e) == [PeerCommand(BargeIn, 0)]
    ensures Next(b, e) == b.(session := Obey(b.session, BargeIn, 0))
    ensures var s := Next(b, e).session;
            && |s.outbound.items| == 1 && s.outbound.items[0].MarkAck? && s.playout.marks == [] && Sending(s)
  {
    var s := b.session;
    ClearReachesItsStream(s, s.streamSid);
    Q.PushAllKeepsLast(s.outbound, Acks(s.streamSid, s.seqNo, P.Flushed(s.playout, 64)));
  }

  /** Enough audio to fill the queue pushes everything out that was there. */
  lemma {:induction false} Filling(b: Bridge, e: Event)
    requires Fits(b.session) && Sending(b.session) && !ShuttingDown(b) && !b.audioPaused
    requires b.hold == [] && !b.stereo && !b.halve && |b.session.outbound.items| <= 1
    requires e.ReadCallback? && e.locked && |e.pcm| == 160 * b.session.outbound.capacity
    ensures FlushOf(b, e).None? && Before(b, e) == [PushPcm(e.pcm)]
    ensures AckNames(Next(b, e).session.outbound.items) == [] && Next(b, e).session.playout == b.session.playout
  {
    var s := b.session;
    assert b.hold + e.pcm == e.pcm;
    var f := Frames(s, e.pcm);
    assert |f| == s.outbound.capacity;
    Q.PushAllKeepsLast(s.outbound, f);
    NewestOnly(s.outbound.items, f);
    NoAckNames(f);
  }

  lemma NewestOnly(items: seq<Message>, f: seq<Message>)
    ensures Q.Last(items + f, |f|) == f
  {}

  /** One quiet event along a run. */
  lemma {:induction false} QuietSnoc(p: Setup, events: seq<Event>, e: Event)
    requires FlushOf(After(p, events), e).None?
    ensures Wire(p, events + [e]) == Wire(p, events) && LostMarks(p, events + [e]) == LostMarks(p, events)
    ensures Trace(p, events + [e]).p == T.Run(Trace(p, events).p, OpsBefore(After(p, events), e))
    ensures After(p, events + [e]) == Next(After(p, events), e)
  {
    SilentEvent(After(p, events), e);
    WireSnoc(p, events, e);
    HistorySnoc(p, events, e);
    assert (events + [e])[..|events|] == events;
    assert Wire(p, events) + [] == Wire(p, events);
  }

  function Drowning(p: Setup, name: string, pcm: seq<int16>): (events: seq<Event>) {
    Script([name]) + [SocketLost] + [ClearText(P.Truncate(p.c.streamSid, 64))] + [ReadCallback(pcm, true, false)]
  }

  /** A mark whose echo is never seen although every flush is small. The socket is lost, a clear acknowledges the
      mark, and audio fills the queue before the socket comes back: the acknowledgement is evicted. */
  lemma {:induction false} EchoIsEvicted(p: Setup, name: string, pcm: seq<int16>)
    requires p.budget >= 2 && !p.stereo && !p.halve && |name| < 128
    requires |pcm| == 160 * Opening(p.c).outbound.capacity
    ensures var events := Drowning(p, name, pcm); var s := After(p, events).session;
            && Trace(p, events).p.marked == [name] && s.playout.marks == []
            && AckNames(Wire(p, events)) == [] && AckNames(s.outbound.items) == []
            && LostMarks(p, events) == 0 && EvictedEchoes(p, events) == 1
  {
    var script := Script([name]);
    StageScript(p, [name]);
    NothingEchoedYet(p, script, name);
    Drowned(p, script, name, pcm);
    MarksOverRuns(p, Drowning(p, name, pcm));
  }

  lemma {:induction false} NothingEchoedYet(p: Setup, events: seq<Event>, name: string)
    requires Staged(After(p, events), Trace(p, events).p, [name], [0])
    ensures AckNames(Wire(p, events)) == [] && LostMarks(p, events) == 0
  {
    MarksOverRuns(p, events);
  }

  lemma {:induction false} Drowned(p: Setup, events: seq<Event>, name: string, pcm: seq<int16>)
    requires Staged(After(p, events), Trace(p, events).p, [name], [0])
    requires !p.stereo && !p.halve && |pcm| == 160 * Opening(p.c).outbound.capacity
    ensures var all := events + [SocketLost] + [ClearText(P.Truncate(p.c.streamSid, 64))]
                       + [ReadCallback(pcm, true, false)];
            var s := After(p, all).session;
            && Wire(p, all) == Wire(p, events) && LostMarks(p, all) == LostMarks(p, events)
            && Trace(p, all).p.marked == [name] && s.playout.marks == [] && AckNames(s.outbound.items) == []
  {
    var lost := events + [SocketLost];
    var b := After(p, events);
    LosingSocket(b);
    QuietSnoc(p, events, SocketLost);
    AlwaysNamed(p, lost);
    SettingsFixed(p, lost);
    DrownedFrom(p, lost, name, pcm);
  }

  /** The socket is down and one mark is pending. */
  ghost predicate Sinking(p: Setup, b: Bridge, name: string) {
    && Fits(b.session) && Sending(b.session) && !ShuttingDown(b) && !Ready(b) && !b.audioPaused && b.hold == []
    && b.session.outbound.items == [] && P.Names(b.session.playout.marks) == [name]
    && b.session.streamSid == P.Truncate(p.c.streamSid, 64)
    && b.session.outbound.capacity == Opening(p.c).outbound.capacity && !b.stereo && !b.halve
  }

  lemma {:induction false} DrownedFrom(p: Setup, events: seq<Event>, name: string, pcm: seq<int16>)
    requires Sinking(p, After(p, events), name)
    requires Trace(p, events).p.marked == [name] && |pcm| == 160 * Opening(p.c).outbound.capacity
    ensures var all := events + [ClearText(P.Truncate(p.c.streamSid, 64))] + [ReadCallback(pcm, true, false)];
            var s := After(p, all).session;
            && Wire(p, all) == Wire(p, events) && LostMarks(p, all) == LostMarks(p, events)
            && Trace(p, all).p.marked == [name] && s.playout.marks == [] && AckNames(s.outbound.items) == []
  {
    var b, clear := After(p, events), ClearText(P.Truncate(p.c.streamSid, 64));
    var read := ReadCallback(pcm, true, false);
    Sunk(b, clear, read, name);
    QuietSnoc(p, events, clear);
    KeepsMarked(Trace(p, events).p, OpsBefore(b, clear));
    QuietSnoc(p, events + [clear], read);
    KeepsMarked(Trace(p, events + [clear]).p, OpsBefore(Next(b, clear), read));
  }

  /** The two events on their own. */
  lemma {:induction false} Sunk(b: Bridge, clear: Event, read: Event, name: string)
    requires Fits(b.session) && Sending(b.session) && !ShuttingDown(b) && !Ready(b) && !b.audioPaused && b.hold == []
    requires b.session.outbound.items == [] && P.Names(b.session.playout.marks) == [name] && !b.stereo && !b.halve
    requires clear == ClearText(b.session.streamSid) && |b.session.streamSid| < 64
    requires read.ReadCallback? && read.locked && |read.pcm| == 160 * b.session.outbound.capacity
    ensures FlushOf(b, clear).None? && NoMarks(OpsBefore(b, clear))
    ensures var d := Next(b, clear);
            && FlushOf(d, read).None? && NoMarks(OpsBefore(d, read))
            && AckNames(Next(d, read).session.outbound.items) == [] && Next(d, read).session.playout.marks == []
  {
    Clearing(b, clear, name);
    StepKeeps(b.session, PeerCommand(BargeIn, 0));
    Filling(Next(b, clear), read);
  }

  predicate NoMarks(ops: seq<T.Op>) {
    forall i :: 0 <= i < |ops| ==> !ops[i].MarkOp?
  }

  lemma {:induction false} KeepsMarked(c: T.Played, ops: seq<T.Op>)
    requires P.Fits(c.p) && |ops| <= 1 && NoMarks(ops)
    ensures T.Run(c, ops).marked == c.marked
  {
    if ops != [] {
      OneOp(c, ops[0]);
      assert ops == [ops[0]];
      assert c.marked + [] == c.marked;
    }
  }
}
