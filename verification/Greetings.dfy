/** What a peer may expect of `connected`, `start` and `stop` and the code keeps only in some runs: for each, runs in
    which it fails and the exact condition under which it holds. */
module Greetings {
  import opened Sequences
  import opened Protocol
  import opened Session
  import opened SessionRuns
  import opened Bridge
  import opened BridgeRuns
  import opened Promises
  import Q = OutboundQueue
  import P = Playout

  // ------------------------------------------------------------------------------------------
  // Which message goes first
  // ------------------------------------------------------------------------------------------

  /** Everything that would go out with an event if the queue were unbounded. */
  function Waiting(b: Bridge, e: Event): (msgs: seq<Message>)
    requires Fits(b.session)
  {
    b.session.outbound.items + Messages(b, e)
  }

  /** How many of `n` messages are too many for the queue. */
  function Beyond(n: nat, capacity: nat): (k: nat) {
    if n <= capacity then 0 else n - capacity
  }

  /** On any socket the first message of a flush is the oldest of all that wait that is not evicted. */
  lemma {:induction false} FlushHead(b: Bridge, e: Event)
    requires Fits(b.session) && FlushOf(b, e).Some? && FlushOf(b, e).value > 0
    ensures var q := Waiting(b, e); var i := Beyond(|q|, b.session.outbound.capacity);
            && (WireOf(b, e) == [] <==> q == [])
            && (q != [] ==> i < |q| && WireOf(b, e)[0] == q[i])
  {
    EventWire(b, e);
    HeadOfLast(Waiting(b, e), b.session.outbound.capacity, FlushOf(b, e).value);
  }

  lemma HeadOfLast(q: seq<Message>, capacity: nat, budget: nat)
    requires capacity > 0 && budget > 0
    ensures var r := P.First(Q.Last(q, capacity), budget); var i := Beyond(|q|, capacity);
            (r == [] <==> q == []) && (q != [] ==> i < |q| && r[0] == q[i])
  {}

  /** Acknowledgements a harvest would queue now. */
  function Owed(s: Session): (n: nat) {
    Min(8, |P.Done(s.playout.marks)|)
  }

  // ------------------------------------------------------------------------------------------
  // A connection begins with `connected`
  // ------------------------------------------------------------------------------------------

  lemma {:induction false} ReconnectShape(b: Bridge, e: Event)
    requires Fits(b.session) && b.working && !ShuttingDown(b) && b.session.state.Running? && e.Reconnect?
    ensures FlushOf(b, e) == Some(e.budget)
    ensures Messages(b, e) == Handshake(b.session) + Emitted(Greeted(b.session), HarvestMarks)
    ensures |Emitted(Greeted(b.session), HarvestMarks)| == Owed(b.session)
  {
    RunOne(b.session, Rehandshake);
  }

  lemma {:induction false} RacedShape(b: Bridge, e: Event)
    requires Fits(b.session) && b.working && ShuttingDown(b) && e.Reconnect?
    ensures WireOf(b, e) == [] && Next(b, e) == b.(hasSocket := true, wsReady := true)
  {}

  /** A new socket is greeted with `connected` first if and only if the oldest message not evicted is a `connected`: one
      that waited from an earlier handshake, or the new one. If a stop has overtaken the reconnect, nothing is sent at
      all and the socket stays. */
  lemma {:induction false} ConnectedFirstIff(b: Bridge, budget: nat)
    requires InStep(b) && b.working && budget > 0
    ensures var wire := WireOf(b, Reconnect(budget)); var s := b.session; var items := s.outbound.items;
            var i := Beyond(|items| + 2 + Owed(s), s.outbound.capacity);
            !ShuttingDown(b) ==>
              && wire != []
              && (wire[0].Connected? <==> if i < |items| then items[i].Connected? else i == |items|)
    ensures ShuttingDown(b) ==>
              && WireOf(b, Reconnect(budget)) == []
              && Next(b, Reconnect(budget)) == b.(hasSocket := true, wsReady := true)
  {
    if ShuttingDown(b) {
      RacedShape(b, Reconnect(budget));
    } else {
      GreetedFirst(b, Reconnect(budget));
    }
  }

  lemma {:induction false} GreetedFirst(b: Bridge, e: Event)
    requires Fits(b.session) && b.working && !ShuttingDown(b) && b.session.state.Running?
    requires e.Reconnect? && e.budget > 0
    ensures var wire := WireOf(b, e); var s := b.session; var items := s.outbound.items;
            var i := Beyond(|items| + 2 + Owed(s), s.outbound.capacity);
            wire != [] && (wire[0].Connected? <==> if i < |items| then items[i].Connected? else i == |items|)
  {
    var s := b.session;
    ReconnectShape(b, e);
    FlushHead(b, e);
    GreetingAt(s.outbound.items, Handshake(s), Emitted(Greeted(s), HarvestMarks),
               Beyond(|Waiting(b, e)|, s.outbound.capacity));
  }

  lemma {:induction false} GreetingAt(items: seq<Message>, hello: seq<Message>, acks: seq<Message>, i: nat)
    requires |hello| == 2 && hello[0].Connected? && !hello[1].Connected?
    requires forall k :: 0 <= k < |acks| ==> !acks[k].Connected?
    requires i < |items + (hello + acks)|
    ensures (items + (hello + acks))[i].Connected?
            <==> if i < |items| then items[i].Connected? else i == |items|
  {
    var n := |items|;
    if i >= n + 2 {
      assert (items + (hello + acks))[i] == acks[i - n - 2];
    } else if i >= n {
      assert (items + (hello + acks))[i] == hello[i - n];
    }
  }

  /** With ten free slots nothing is evicted, and `connected` comes first exactly if nothing else waits in front. */
  lemma {:induction false} ConnectedFirstWithRoom(b: Bridge, budget: nat)
    requires InStep(b) && b.working && budget > 0
    requires |b.session.outbound.items| + 10 <= b.session.outbound.capacity
    ensures var wire := WireOf(b, Reconnect(budget)); var items := b.session.outbound.items;
            wire != [] && wire[0].Connected? <==> !ShuttingDown(b) && (items == [] || items[0].Connected?)
  {
    ConnectedFirstIff(b, budget);
  }

  lemma {:induction false} StopShape(b: Bridge, e: Event)
    requires Fits(b.session) && b.cleaning && b.session.state.Running? && e.FinishStop?
    ensures FlushOf(b, e) == if b.hasSocket then Some(e.budget) else None
    ensures var s := b.session;
            Messages(b, e) == [Message.Stop(s.seqNo, s.streamSid, s.accountSid, s.callSid)]
                              + if b.hasSocket then Emitted(Halt(s), HarvestMarks) else []
  {
    RunOne(b.session, StopStream);
  }

  lemma {:induction false} HaltedAcks(s: Session)
    requires Fits(s) && s.state.Running?
    ensures var acks := Emitted(Halt(s), HarvestMarks);
            && |acks| == Owed(s)
            && (forall i :: 0 <= i < |acks| ==> acks[i].MarkAck? && acks[i].name == P.Done(s.playout.marks)[i])
  {}

  /** The last flush, on whatever socket there is, begins with `connected` if and only if one that waited from an
      earlier handshake is the oldest message not evicted. */
  lemma {:induction false} LastFlushIff(b: Bridge, budget: nat)
    requires Fits(b.session) && b.cleaning && b.session.state.Running? && b.hasSocket && budget > 0
    ensures var wire := WireOf(b, FinishStop(budget)); var s := b.session; var items := s.outbound.items;
            var i := Beyond(|items| + 1 + Owed(s), s.outbound.capacity);
            wire != [] && (wire[0].Connected? <==> i < |items| && items[i].Connected?)
  {
    var e, s := FinishStop(budget), b.session;
    StopShape(b, e);
    HaltedAcks(s);
    FlushHead(b, e);
    NoGreetingAt(s.outbound.items, Messages(b, e), Beyond(|Waiting(b, e)|, s.outbound.capacity));
  }

  lemma NoGreetingAt(items: seq<Message>, msgs: seq<Message>, i: nat)
    requires i < |items + msgs| && forall k :: 0 <= k < |msgs| ==> !msgs[k].Connected?
    ensures (items + msgs)[i].Connected? <==> i < |items| && items[i].Connected?
  {
    if i >= |items| {
      assert (items + msgs)[i] == msgs[i - |items|];
    }
  }

  lemma {:induction false} BeginStopEffect(b: Bridge)
    requires Fits(b.session)
    ensures Next(b, BeginStop) == b.(closing := true, cleaning := true) && WireOf(b, BeginStop) == []
  {}

  /** A reconnect overtaken by a stop: what the new socket receives first comes with the last flush, and is a
      `connected` if and only if one from an earlier handshake is the oldest message not evicted. */
  lemma {:induction false} RacedFirstIff(b: Bridge, budget: nat, last: nat)
    requires InStep(b) && b.working && ShuttingDown(b) && b.session.state.Running? && last > 0
    ensures var up := Next(b, Reconnect(budget)); var stopping := Next(up, BeginStop);
            var s := b.session; var items := s.outbound.items;
            var i := Beyond(|items| + 1 + Owed(s), s.outbound.capacity);
            && WireOf(b, Reconnect(budget)) == [] && WireOf(up, BeginStop) == []
            && var wire := WireOf(stopping, FinishStop(last));
               wire != [] && (wire[0].Connected? <==> i < |items| && items[i].Connected?)
  {
    RacedShape(b, Reconnect(budget));
    var up := Next(b, Reconnect(budget));
    BeginStopEffect(up);
    LastFlushIff(Next(up, BeginStop), last);
  }

  // ------------------------------------------------------------------------------------------
  // Runs in which it does not
  // ------------------------------------------------------------------------------------------

  lemma {:induction false} LostSocket(p: Setup)
    requires p.budget >= 2
    ensures var b := After(p, [SocketLost]); var s := b.session;
            && InStep(b) && b == Open(p).(wsReady := false) && Sending(s)
            && s.outbound.items == [] && s.playout.marks == [] && s.outbound.capacity == Opening(p.c).outbound.capacity
    ensures Wire(p, [SocketLost]) == Wire(p, [])
  {
    StageStart(p);
    AlwaysInStep(p, [SocketLost]);
    AlwaysNamed(p, [SocketLost]);
    WireSnoc(p, [], SocketLost);
    assert [] + [SocketLost] == [SocketLost];
    LosesSocket(After(p, []));
    assert Wire(p, []) + [] == Wire(p, []);
  }

  lemma {:induction false} LosesSocket(b: Bridge)
    requires Fits(b.session) && b.working
    ensures Next(b, SocketLost) == b.(wsReady := false) && WireOf(b, SocketLost) == []
  {}

  lemma {:induction false} OneFrameWaits(b: Bridge, e: Event)
    requires Fits(b.session) && !ShuttingDown(b) && Sending(b.session) && !b.audioPaused
    requires b.hold == [] && !b.stereo && !b.halve && b.session.outbound.items == []
    requires e.ReadCallback? && e.locked && |e.pcm| == 160
    ensures var r := Next(b, e); var s := r.session;
            && r.working == b.working && !ShuttingDown(r) && s.playout == b.session.playout
            && |s.outbound.items| == 1 && s.outbound.items[0].Media?
  {
    assert b.hold + e.pcm == e.pcm;
    var f := Frames(b.session, e.pcm);
    assert |f| == 1;
    Q.PushAllKeepsLast(b.session.outbound, f);
    assert [] + f == f;
  }

  /** Audio goes out on a new socket ahead of `connected`: the socket is lost, one frame is captured, the socket comes
      back. */
  lemma {:induction false} AudioBeforeConnected(p: Setup, pcm: seq<int16>, budget: nat)
    requires p.budget >= 2 && !p.stereo && !p.halve && |pcm| == 160 && budget > 0
    requires Opening(p.c).outbound.capacity >= 3
    ensures var b := After(p, [SocketLost] + [ReadCallback(pcm, true, false)]);
            WireOf(b, Reconnect(budget)) != [] && WireOf(b, Reconnect(budget))[0].Media?
  {
    var e := ReadCallback(pcm, true, false);
    LostSocket(p);
    WireSnoc(p, [SocketLost], e);
    OneFrameWaits(After(p, [SocketLost]), e);
    AlwaysNamed(p, [SocketLost] + [e]);
    AlwaysInStep(p, [SocketLost] + [e]);
    HeadStaysFirst(After(p, [SocketLost] + [e]), Reconnect(budget));
  }

  lemma {:induction false} HeadStaysFirst(b: Bridge, e: Event)
    requires InStep(b) && b.working && !ShuttingDown(b) && e.Reconnect? && e.budget > 0
    requires |b.session.outbound.items| == 1 && b.session.playout.marks == [] && b.session.outbound.capacity >= 3
    ensures WireOf(b, e) != [] && WireOf(b, e)[0] == b.session.outbound.items[0]
  {
    ReconnectShape(b, e);
    FlushHead(b, e);
  }

  /** All that a new socket ever receives is `stop`: the socket is lost, a stop begins while the reconnect is under way,
      the reconnect succeeds, the stop is carried out. */
  lemma {:induction false} OnlyStopOnNewSocket(p: Setup, budget: nat, last: nat)
    requires p.budget >= 2 && last > 0
    ensures var before := [SocketLost] + [BeginStop] + [Reconnect(budget)];
            && Wire(p, before) == Wire(p, []) && After(p, before).hasSocket
            && |WireOf(After(p, before), FinishStop(last))| == 1 && WireOf(After(p, before), FinishStop(last))[0].Stop?
  {
    var lost, stopping := [SocketLost], [SocketLost] + [BeginStop];
    LostSocket(p);
    WireSnoc(p, lost, BeginStop);
    BeginStopEffect(After(p, lost));
    WireSnoc(p, stopping, Reconnect(budget));
    RacedShape(After(p, stopping), Reconnect(budget));
    assert Wire(p, []) + [] == Wire(p, []);
    StopAlone(After(p, stopping + [Reconnect(budget)]), FinishStop(last));
  }

  lemma {:induction false} StopAlone(b: Bridge, e: Event)
    requires Fits(b.session) && b.cleaning && b.session.state.Running? && b.hasSocket && e.FinishStop? && e.budget > 0
    requires b.session.outbound.items == [] && b.session.playout.marks == []
    ensures |WireOf(b, e)| == 1 && WireOf(b, e)[0].Stop?
  {
    StopShape(b, e);
    HaltedAcks(b.session);
    EventWire(b, e);
  }

  // ------------------------------------------------------------------------------------------
  // `start` comes once per stream
  // ------------------------------------------------------------------------------------------

  function Starts(msgs: seq<Message>): (n: nat) {
    if msgs == [] then 0 else Starts(msgs[..|msgs| - 1]) + if msgs[|msgs| - 1].Start? then 1 else 0
  }

  lemma {:induction false} StartsSnoc(msgs: seq<Message>, m: Message)
    ensures Starts(msgs + [m]) == Starts(msgs) + if m.Start? then 1 else 0
  {
    assert (msgs + [m])[..|msgs|] == msgs;
  }

  lemma {:induction false} StartsAppend(a: seq<Message>, b: seq<Message>)
    ensures Starts(a + b) == Starts(a) + Starts(b)
    decreases |b|
  {
    if b == [] {
      assert a + b == a;
    } else {
      var init, last := b[..|b| - 1], b[|b| - 1];
      StartsAppend(a, init);
      SplitLast(a, b);
      StartsSnoc(init, last);
      StartsSnoc(a + init, last);
    }
  }

  lemma {:induction false} NoStarts(msgs: seq<Message>)
    requires forall i :: 0 <= i < |msgs| ==> !msgs[i].Start?
    ensures Starts(msgs) == 0
    decreases |msgs|
  {
    if msgs != [] {
      NoStarts(msgs[..|msgs| - 1]);
    }
  }

  lemma {:induction false} OneStart(s: Session)
    ensures Starts(Handshake(s)) == 1
  {
    var h := Handshake(s);
    assert h == [h[0]] + [h[1]] && [] + [h[0]] == [h[0]];
    StartsSnoc([], h[0]);
    StartsSnoc([h[0]], h[1]);
  }

  /** A reconnect that reaches the session. */
  predicate Regreets(b: Bridge, e: Event) {
    e.Reconnect? && b.working && !ShuttingDown(b)
  }

  function Regreetings(p: Setup, events: seq<Event>): (n: nat) {
    if events == [] then 0
    else
      var init := events[..|events| - 1];
      Regreetings(p, init) + if Regreets(After(p, init), events[|events| - 1]) then 1 else 0
  }

  lemma {:induction false} EventStarts(b: Bridge, e: Event)
    requires InStep(b)
    ensures Starts(Messages(b, e)) == if Regreets(b, e) then 1 else 0
  {
    if Regreets(b, e) {
      ReconnectShape(b, e);
      OneStart(b.session);
      NoStarts(Emitted(Greeted(b.session), HarvestMarks));
      StartsAppend(Handshake(b.session), Emitted(Greeted(b.session), HarvestMarks));
    } else {
      NoStartsBefore(b, e);
      var acks := if FlushOf(b, e).Some? then Emitted(Midway(b, e), HarvestMarks) else [];
      NoStarts(acks);
      StartsAppend(MessagesBefore(b, e), acks);
    }
  }

  lemma {:induction false} NoStartsBefore(b: Bridge, e: Event)
    requires Fits(b.session) && !Regreets(b, e)
    ensures Starts(MessagesBefore(b, e)) == 0
  {
    NoStarts(MessagesBefore(b, e));
  }

  /** Over every run `start` is queued once, and once more for every reconnect that no stop has overtaken. */
  lemma {:induction false} StartsOverRuns(p: Setup, events: seq<Event>)
    ensures Starts(Trace(p, events).q.pushed) == 1 + Regreetings(p, events)
    decreases |events|
  {
    if events == [] {
      HistoryStart(p);
      OneStartAtFirst(p.c);
    } else {
      var init, e := events[..|events| - 1], events[|events| - 1];
      StartsOverRuns(p, init);
      SplitLast([], events);
      HistorySnoc(p, init, e);
      AlwaysInStep(p, init);
      EventStarts(After(p, init), e);
      StartsAppend(Trace(p, init).q.pushed, Messages(After(p, init), e));
    }
  }

  lemma {:induction false} OneStartAtFirst(c: Config)
    ensures Starts(FirstMessages(c)) == 1
  {
    OneStart(Opened(Init(c.queueCap, c.playoutCap), c.streamSid, c.callSid, c.accountSid, c.custom));
  }

  /** One reconnect, and the stream has two. */
  lemma {:induction false} SecondStart(p: Setup, budget: nat)
    requires p.budget >= 2
    ensures Starts(Trace(p, [SocketLost] + [Reconnect(budget)]).q.pushed) == 2
  {
    var events := [SocketLost] + [Reconnect(budget)];
    LostSocket(p);
    StartsOverRuns(p, events);
    assert events[..1] == [SocketLost] && [SocketLost][..0] == [];
    assert Regreetings(p, [SocketLost]) == 0;
  }

  // ------------------------------------------------------------------------------------------
  // `stop` comes last
  // ------------------------------------------------------------------------------------------

  /** Carrying out a stop leaves `stop` as the last message of the stream if and only if there is no socket left or no
      mark has completed since the last flush. Nothing is queued after that (`BridgeRuns.StopIsFinal`). */
  lemma {:induction false} StopIsLastIff(p: Setup, events: seq<Event>, budget: nat)
    requires After(p, events).cleaning && After(p, events).session.state.Running?
    ensures var b := After(p, events); var h := Trace(p, events + [FinishStop(budget)]).q.pushed;
            && h != []
            && (h[|h| - 1].Stop? <==> !b.hasSocket || P.Done(b.session.playout.marks) == [])
  {
    HistorySnoc(p, events, FinishStop(budget));
    StopLastIff(After(p, events), FinishStop(budget), Trace(p, events).q.pushed);
  }

  lemma {:induction false} StopLastIff(b: Bridge, e: Event, before: seq<Message>)
    requires Fits(b.session) && b.cleaning && b.session.state.Running? && e.FinishStop?
    ensures var h := before + Messages(b, e);
            && h != []
            && (h[|h| - 1].Stop? <==> !b.hasSocket || P.Done(b.session.playout.marks) == [])
  {
    StopShape(b, e);
    HaltedAcks(b.session);
    var msgs := Messages(b, e);
    assert (before + msgs)[|before + msgs| - 1] == msgs[|msgs| - 1];
  }

  /** The last message is the acknowledgement of this mark, and the one before it is the stop. */
  predicate EndsInMark(h: seq<Message>, name: string) {
    |h| >= 2 && h[|h| - 2].Stop? && h[|h| - 1].MarkAck? && h[|h| - 1].name == name
  }

  /** A run in which an acknowledgement follows, in the history and, if the socket takes two frames, on the wire: the
      marked audio has been played, and no flush came before the stop. */
  lemma {:induction false} MarkFollowsStop(p: Setup, name: string, budget: nat)
    requires p.budget >= 2 && |name| < 128
    ensures var events := Playing([name]) + [BeginStop] + [FinishStop(budget)];
            && EndsInMark(Trace(p, events).q.pushed, name)
            && (budget >= 2 && Opening(p.c).outbound.capacity >= 2 ==> EndsInMark(Wire(p, events), name))
  {
    StagePlaying(p, [name]);
    StopOnStage(p, Playing([name]), name, budget);
  }

  lemma {:induction false} StopOnStage(p: Setup, events: seq<Event>, name: string, budget: nat)
    requires Staged(After(p, events), Trace(p, events).p, [name], [])
    ensures var all := events + [BeginStop] + [FinishStop(budget)];
            && EndsInMark(Trace(p, all).q.pushed, name)
            && (budget >= 2 && Opening(p.c).outbound.capacity >= 2 ==> EndsInMark(Wire(p, all), name))
  {
    var b, e, stopping := After(p, events), FinishStop(budget), events + [BeginStop];
    BeginStopEffect(b);
    WireSnoc(p, events, BeginStop);
    HistorySnoc(p, stopping, e);
    WireSnoc(p, stopping, e);
    AlwaysNamed(p, stopping);
    PinsDone([name], 0);
    MarkAfterStop(Next(b, BeginStop), e, name);
    EndsInTwo(Trace(p, stopping).q.pushed, Messages(Next(b, BeginStop), e), name);
    EndsInTwo(Wire(p, stopping), Messages(Next(b, BeginStop), e), name);
  }

  lemma {:induction false} MarkAfterStop(b: Bridge, e: Event, name: string)
    requires Fits(b.session) && b.cleaning && b.session.state.Running? && b.hasSocket && e.FinishStop?
    requires b.session.outbound.items == [] && P.Done(b.session.playout.marks) == [name]
    ensures |Messages(b, e)| == 2 && EndsInMark(Messages(b, e), name)
    ensures e.budget >= 2 && b.session.outbound.capacity >= 2 ==> WireOf(b, e) == Messages(b, e)
  {
    StopShape(b, e);
    HaltedAcks(b.session);
    if e.budget >= 2 && b.session.outbound.capacity >= 2 {
      WholeWire(b, e);
    }
  }

  lemma {:induction false} WholeWire(b: Bridge, e: Event)
    requires Fits(b.session) && FlushOf(b, e).Some? && b.session.outbound.items == []
    requires |Messages(b, e)| <= b.session.outbound.capacity && |Messages(b, e)| <= FlushOf(b, e).value
    ensures WireOf(b, e) == Messages(b, e)
  {
    EventWire(b, e);
    WholeQueue(Messages(b, e), b.session.outbound.capacity, FlushOf(b, e).value);
  }

  lemma WholeQueue(msgs: seq<Message>, capacity: nat, budget: nat)
    requires |msgs| <= capacity && |msgs| <= budget
    ensures P.First(Q.Last([] + msgs, capacity), budget) == msgs
  {
    assert [] + msgs == msgs;
  }

  lemma EndsInTwo(h: seq<Message>, msgs: seq<Message>, name: string)
    requires |msgs| == 2 && EndsInMark(msgs, name)
    ensures EndsInMark(h + msgs, name)
  {}
}
