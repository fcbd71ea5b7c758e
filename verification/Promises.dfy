/** docs/PROTOCOL.md says that a mark is echoed when its audio has been played or cleared. The marks that harvests do
    not acknowledge: how many there are in a run, and runs that have some. */
module Promises {
  import opened Sequences
  import opened Protocol
  import opened Session
  import opened SessionRuns
  import opened Bridge
  import opened BridgeRuns
  import Q = OutboundQueue
  import P = Playout
  import T = Timeline

  // ------------------------------------------------------------------------------------------
  // Every mark is echoed
  // ------------------------------------------------------------------------------------------

  /** Completed marks a harvest removes without acknowledging them. */
  function Excess(s: Session): (n: nat) {
    var done := |P.Done(s.playout.marks)|;
    done - Min(8, done)
  }

  /** A harvest acknowledges every completed mark if and only if it finds at most eight. */
  lemma {:induction false} HarvestAcknowledgesAllIff(s: Session)
    requires Fits(s)
    ensures AckNames(Emitted(s, HarvestMarks)) == P.Done(s.playout.marks)
            <==> |P.Done(s.playout.marks)| <= 8
  {
    AckNamesOfAcks(s.streamSid, s.seqNo, P.Harvested(s.playout, 8));
  }

  lemma {:induction false} StepLoses(w: World, a: Action)
    requires Sound(w)
    ensures WorldStep(w, a).p.overLimit == w.p.overLimit + if a.HarvestMarks? then Excess(w.s) else 0
  {
    StepAudio(w, a);
    OpsOf(w.s, a);
    var ops := PlayoutOps(w.s, a);
    if ops != [] {
      OpLoses(w.p, ops[0]);
    }
  }

  lemma {:induction false} OpsOf(s: Session, a: Action)
    ensures a.HarvestMarks? ==> PlayoutOps(s, a) == [T.HarvestOp(8)]
    ensures forall i :: 0 <= i < |PlayoutOps(s, a)| && PlayoutOps(s, a)[i].HarvestOp? ==> a.HarvestMarks?
    ensures forall i :: 0 <= i < |PlayoutOps(s, a)| && PlayoutOps(s, a)[i].ClearOp? ==>
              PlayoutOps(s, a)[i].maxOut == 64
  {}

  lemma {:induction false} OpLoses(c: T.Played, op: T.Op)
    requires P.Fits(c.p) && (op.ClearOp? ==> op.maxOut == 64)
    ensures T.Step(c, op).overLimit == c.overLimit + if op.HarvestOp? then T.OverLimitBy(c.p, op) else 0
  {}

  /** The action does not find more than eight completed marks to harvest. */
  predicate FewFound(s: Session, a: Action) {
    a.HarvestMarks? ==> |P.Done(s.playout.marks)| <= 8
  }

  predicate FewCompleted(c: Config, acts: seq<Action>, k: nat)
    requires k < |acts|
  {
    FewFound(Run(Opening(c), acts[..k]), acts[k])
  }

  /** Marks lost over a session run. */
  ghost function Unechoed(c: Config, acts: seq<Action>): (n: nat) {
    WorldRun(WorldBegin(c), acts).p.overLimit
  }

  lemma {:induction false} UnechoedSnoc(c: Config, acts: seq<Action>, n: nat)
    requires acts != [] && n == |acts| - 1
    ensures Unechoed(c, acts[..n]) <= Unechoed(c, acts)
    ensures Unechoed(c, acts[..n]) == Unechoed(c, acts) <==> FewCompleted(c, acts, n)
  {
    RunSound(c, acts[..n]);
    StepLoses(WorldRun(WorldBegin(c), acts[..n]), acts[n]);
  }

  lemma {:induction false} FewCompletedPrefix(c: Config, acts: seq<Action>, n: nat, k: nat)
    requires k < n <= |acts|
    ensures FewCompleted(c, acts[..n], k) == FewCompleted(c, acts, k)
  {
    assert acts[..n][..k] == acts[..k];
  }

  lemma {:induction false} LosslessStep(c: Config, acts: seq<Action>, k: nat)
    requires k < |acts| && Unechoed(c, acts) == 0
    ensures FewCompleted(c, acts, k)
    decreases |acts|
  {
    var n: nat := |acts| - 1;
    UnechoedSnoc(c, acts, n);
    if k < n {
      LosslessStep(c, acts[..n], k);
      FewCompletedPrefix(c, acts, n, k);
      assert FewCompleted(c, acts, k);
    } else {
      assert FewCompleted(c, acts, n);
      assert n == k;
    }
  }

  lemma {:induction false} LossyStep(c: Config, acts: seq<Action>) returns (k: nat)
    requires Unechoed(c, acts) > 0
    ensures k < |acts| && !FewCompleted(c, acts, k)
    decreases |acts|
  {
    assert Unechoed(c, []) == 0;
    var n: nat := |acts| - 1;
    UnechoedSnoc(c, acts, n);
    if FewCompleted(c, acts, n) {
      k := LossyStep(c, acts[..n]);
      FewCompletedPrefix(c, acts, n, k);
    } else {
      k := n;
    }
  }

  /** Over every session run no mark is lost if and only if every harvest finds at most eight completed marks. */
  lemma {:induction false} NoMarkLostIff(c: Config, acts: seq<Action>)
    ensures Unechoed(c, acts) == 0 <==> forall k :: 0 <= k < |acts| ==> FewCompleted(c, acts, k)
  {
    if Unechoed(c, acts) == 0 {
      forall k | 0 <= k < |acts| ensures FewCompleted(c, acts, k) {
        LosslessStep(c, acts, k);
      }
    } else {
      var k := LossyStep(c, acts);
      assert !FewCompleted(c, acts, k);
    }
  }

  /** Marks an event of the bridge loses: those beyond eight that its flush finds completed. */
  function LostBy(b: Bridge, e: Event): (n: nat)
    requires Fits(b.session)
  {
    if FlushOf(b, e).Some? then Excess(Midway(b, e)) else 0
  }

  function LostMarks(p: Setup, events: seq<Event>): (n: nat) {
    if events == [] then 0
    else
      var init := events[..|events| - 1];
      LostMarks(p, init) + LostBy(After(p, init), events[|events| - 1])
  }

  /** Over every bridge run: the marks neither acknowledged nor pending are exactly those that some flush found
      completed beyond the eighth. */
  lemma {:induction false} MarksLostOverRuns(p: Setup, events: seq<Event>)
    ensures var w := Trace(p, events);
            && w.p.overLimit == LostMarks(p, events)
            && |w.p.marked| == |AckNames(w.q.pushed)| + LostMarks(p, events) + |After(p, events).session.playout.marks|
    decreases |events|
  {
    if events == [] {
      HistoryStart(p);
    } else {
      var init, e := events[..|events| - 1], events[|events| - 1];
      MarksLostOverRuns(p, init);
      SplitLast([], events);
      EventLoses(p, init, e);
    }
    BridgeRunIsSessionRun(p, events);
    var _ := MarksAccounted(p.c, AllActs(p, events));
  }

  lemma {:induction false} EventLoses(p: Setup, events: seq<Event>, e: Event)
    ensures Trace(p, events + [e]).p.overLimit == Trace(p, events).p.overLimit + LostBy(After(p, events), e)
  {
    BridgeRunIsSessionRun(p, events);
    HistorySnoc(p, events, e);
    EventExcess(Trace(p, events), After(p, events), e);
  }

  lemma {:induction false} EventExcess(w: World, b: Bridge, e: Event)
    requires Sound(w) && w.s == b.session
    ensures T.Run(w.p, Ops(b, e)).overLimit == w.p.overLimit + LostBy(b, e)
  {
    OpsBeforeHarvestNothing(b, e);
    if FlushOf(b, e).Some? {
      FoundByFlush(w, b, e);
      OpsLose(w.p, OpsBefore(b, e), [T.HarvestOp(8)]);
    } else {
      OpsLose(w.p, OpsBefore(b, e), []);
    }
  }

  /** The playout a flush finds. */
  lemma {:induction false} FoundByFlush(w: World, b: Bridge, e: Event)
    requires Sound(w) && w.s == b.session
    ensures T.Run(w.p, OpsBefore(b, e)).p == Midway(b, e).playout
  {
    BeforeHistory(w, b, e);
    StateOfWorld(w, Before(b, e));
  }

  /** The k-th event does not end in a flush that finds more than eight completed marks. */
  predicate SmallFlush(p: Setup, events: seq<Event>, k: nat)
    requires k < |events|
  {
    LostBy(After(p, events[..k]), events[k]) == 0
  }

  lemma {:induction false} SmallFlushPrefix(p: Setup, events: seq<Event>, n: nat, k: nat)
    requires k < n <= |events|
    ensures SmallFlush(p, events[..n], k) == SmallFlush(p, events, k)
  {
    assert events[..n][..k] == events[..k];
  }

  lemma {:induction false} LosslessEvent(p: Setup, events: seq<Event>, k: nat)
    requires k < |events| && LostMarks(p, events) == 0
    ensures SmallFlush(p, events, k)
    decreases |events|
  {
    var n := |events| - 1;
    if k < n {
      LosslessEvent(p, events[..n], k);
      SmallFlushPrefix(p, events, n, k);
      assert SmallFlush(p, events, k);
    } else {
      assert SmallFlush(p, events, n);
      assert n == k;
    }
  }

  lemma {:induction false} LossyEvent(p: Setup, events: seq<Event>) returns (k: nat)
    requires LostMarks(p, events) > 0
    ensures k < |events| && !SmallFlush(p, events, k)
    decreases |events|
  {
    var n := |events| - 1;
    if SmallFlush(p, events, n) {
      k := LossyEvent(p, events[..n]);
      SmallFlushPrefix(p, events, n, k);
    } else {
      k := n;
    }
  }

  lemma {:induction false} OpsBeforeHarvestNothing(b: Bridge, e: Event)
    ensures forall i :: 0 <= i < |OpsBefore(b, e)| ==> !OpsBefore(b, e)[i].HarvestOp?
    ensures forall i :: 0 <= i < |OpsBefore(b, e)| && OpsBefore(b, e)[i].ClearOp? ==>
              OpsBefore(b, e)[i].maxOut == 64
  {
    BeforeSendsNothing(b, e);
  }

  lemma {:induction false} OpsLose(c: T.Played, ops: seq<T.Op>, tail: seq<T.Op>)
    requires P.Fits(c.p) && |ops| <= 1 && (tail == [] || tail == [T.HarvestOp(8)])
    requires forall i :: 0 <= i < |ops| ==> !ops[i].HarvestOp? && (ops[i].ClearOp? ==> ops[i].maxOut == 64)
    ensures T.Run(c, ops + tail).overLimit
         == c.overLimit + if tail == [] then 0 else T.OverLimitBy(T.Run(c, ops).p, T.HarvestOp(8))
  {
    T.RunAppend(c, ops, tail);
    if ops != [] {
      OneOp(c, ops[0]);
      OpLoses(c, ops[0]);
      assert ops == [ops[0]];
    }
    if tail != [] {
      OneOp(T.Run(c, ops), T.HarvestOp(8));
    }
  }

  // ------------------------------------------------------------------------------------------
  // A run that plays marks
  // ------------------------------------------------------------------------------------------

  /** One byte of audio, then a mark for every name; then the call takes the byte. */
  function Script(names: seq<string>): (events: seq<Event>) {
    if names == [] then [Text(BuildMedia("", "", 0, 0, 0, [0]), false, false, 0, 0)]
    else Script(names[..|names| - 1]) + [MarkText(names[|names| - 1])]
  }

  function MarkText(name: string): (e: Event) {
    Text(Some(BuildMark("", name, 0)), false, false, 0, 0)
  }

  function Playing(names: seq<string>): (events: seq<Event>) {
    Script(names) + [WriteCallback([0], true, false, 0)]
  }

  function Pins(names: seq<string>, ahead: nat): (marks: seq<P.Mark>)
    ensures |marks| == |names|
  {
    seq(|names|, i requires 0 <= i < |names| => P.Mark(names[i], ahead))
  }

  /** A bridge at rest with these marks behind this audio, none of them acknowledged yet. */
  ghost predicate Staged(b: Bridge, c: T.Played, names: seq<string>, data: seq<byte>) {
    && Fits(b.session) && P.Fits(c.p) && c.p == b.session.playout
    && Ready(b) && b.working && !ShuttingDown(b) && Sending(b.session) && !b.audioPaused && b.hold == []
    && b.session.outbound.items == [] && b.session.playout.data == data
    && b.session.playout.marks == Pins(names, |data|)
    && c.marked == names && c.reported == []
  }

  lemma {:induction false} PinsDone(names: seq<string>, ahead: nat)
    ensures P.Done(Pins(names, ahead)) == if ahead == 0 then names else []
    decreases |names|
  {
    if names != [] {
      var n := |names| - 1;
      PinsDone(names[..n], ahead);
      assert Pins(names, ahead)[..n] == Pins(names[..n], ahead);
      SplitLast([], names);
    }
  }

  lemma {:induction false} PinsPlayed(names: seq<string>)
    ensures P.Advance(Pins(names, 1), 1) == Pins(names, 0)
  {}

  lemma {:induction false} PinsSnoc(names: seq<string>, name: string, ahead: nat)
    ensures Pins(names + [name], ahead) == Pins(names, ahead) + [P.Mark(name, ahead)]
  {}

  /** With nothing queued and no mark completed a flush does nothing and finds the socket ready. */
  lemma {:induction false} IdleFlush(s: Session, budget: nat)
    requires Fits(s) && s.outbound.items == [] && P.Done(s.playout.marks) == []
    ensures Flush(s, budget) == s && FlushDrains(s, budget)
  {
    AllPending(s.playout.marks);
    AckNone(s);
    FlushEnd(s, Harvested(s), budget);
  }

  /** A text that changes only the playout, and completes no mark. */
  lemma {:induction false} TextEffect(b: Bridge, c: T.Played, e: Event, s: Session, op: T.Op)
    requires Fits(b.session) && P.Fits(c.p) && c.p == b.session.playout
    requires e.Text? && !Absent(b, e) && !Deaf(b, e.local, e.late) && Ready(b)
    requires Fits(s) && s == Step(b.session, PeerCommand(Classify(b.session, e.json), e.nowNs))
    requires [op] == PlayoutOps(b.session, PeerCommand(Classify(b.session, e.json), e.nowNs))
    requires s.playout == T.Step(c, op).p && s.outbound.items == [] && P.Done(s.playout.marks) == []
    ensures Next(b, e) == b.(session := s)
    ensures T.Run(c, Ops(b, e)) == T.Step(c, op)
  {
    IdleFlush(s, e.budget);
    TextOpsAre(b, e, op);
    OneOp(c, op);
    T.RunAppend(c, [op], [T.HarvestOp(8)]);
    OneOp(T.Step(c, op), T.HarvestOp(8));
    NothingMoreToHarvest(s, T.Step(c, op));
  }

  lemma {:induction false} TextOpsAre(b: Bridge, e: Event, op: T.Op)
    requires e.Text? && !Absent(b, e) && !Deaf(b, e.local, e.late) && Ready(b)
    requires [op] == PlayoutOps(b.session, PeerCommand(Classify(b.session, e.json), e.nowNs))
    ensures Ops(b, e) == [op] + [T.HarvestOp(8)]
  {}

  lemma {:induction false} StageStart(p: Setup)
    requires p.budget >= 2
    ensures Staged(After(p, []), Trace(p, []).p, [], [])
  {
    var s := Opening(p.c);
    HistoryStart(p);
    FlushWithRoomDrains(s, p.budget);
    BridgeRunIsSessionRun(p, []);
    FlushKeepsState(s, p.budget);
    assert Pins([], 0) == [];
  }

  lemma {:induction false} StageAudio(b: Bridge, c: T.Played, e: Event)
    requires Staged(b, c, [], []) && e == Script([])[0]
    ensures Staged(Next(b, e), T.Run(c, Ops(b, e)), [], [0])
  {
    var s := b.session;
    MediaReachesItsStream(s, "", "", 0, 0, 0, [0]);
    var s' := Step(s, PeerCommand(Play([0]), 0));
    assert s'.playout == P.Write(s.playout, [0]);
    assert Pins([], 1) == [] && Pins([], 0) == [];
    TextEffect(b, c, e, s', T.WriteOp([0]));
  }

  lemma {:induction false} StageMark(b: Bridge, c: T.Played, names: seq<string>, name: string)
    requires Staged(b, c, names, [0]) && |names| < 64 && |name| < 128
    ensures var e := MarkText(name); Staged(Next(b, e), T.Run(c, Ops(b, e)), names + [name], [0])
  {
    var s, e := b.session, MarkText(name);
    MarkReachesItsStream(s, "", name, 0);
    PinOne(s, names, name);
    TextEffect(b, c, e, Step(s, PeerCommand(Pin(name), 0)), T.MarkOp(name));
  }

  lemma {:induction false} PinOne(s: Session, names: seq<string>, name: string)
    requires Fits(s) && s.state.Running? && |names| < 64 && |name| < 128
    requires |s.playout.data| == 1 && s.playout.marks == Pins(names, 1)
    ensures var r := Step(s, PeerCommand(Pin(name), 0));
            && r == s.(playout := P.AddMark(s.playout, name)) && r.playout.data == s.playout.data
            && r.playout.marks == Pins(names + [name], 1) && P.Done(r.playout.marks) == []
  {
    PinsSnoc(names, name, 1);
    PinsDone(names + [name], 1);
  }

  lemma {:induction false} StageScript(p: Setup, names: seq<string>)
    requires p.budget >= 2 && |names| <= 64
    requires forall i :: 0 <= i < |names| ==> |names[i]| < 128
    ensures Staged(After(p, Script(names)), Trace(p, Script(names)).p, names, [0])
    decreases |names|
  {
    if names == [] {
      StageFirst(p);
    } else {
      var init, name := names[..|names| - 1], names[|names| - 1];
      StageScript(p, init);
      StageNext(p, Script(init), init, name);
      SplitLast([], names);
    }
  }

  lemma {:induction false} StageFirst(p: Setup)
    requires p.budget >= 2
    ensures Staged(After(p, Script([])), Trace(p, Script([])).p, [], [0])
  {
    var e := Script([])[0];
    StageStart(p);
    StageMedia(p, [], e);
    assert [] + [e] == Script([]);
  }

  lemma {:induction false} StageMedia(p: Setup, events: seq<Event>, e: Event)
    requires Staged(After(p, events), Trace(p, events).p, [], []) && e == Script([])[0]
    ensures Staged(After(p, events + [e]), Trace(p, events + [e]).p, [], [0])
  {
    StageAudio(After(p, events), Trace(p, events).p, e);
    HistorySnoc(p, events, e);
    WireSnoc(p, events, e);
  }

  lemma {:induction false} StageNext(p: Setup, events: seq<Event>, names: seq<string>, name: string)
    requires Staged(After(p, events), Trace(p, events).p, names, [0])
    requires |names| < 64 && |name| < 128
    ensures Staged(After(p, events + [MarkText(name)]), Trace(p, events + [MarkText(name)]).p, names + [name], [0])
  {
    StageMark(After(p, events), Trace(p, events).p, names, name);
    HistorySnoc(p, events, MarkText(name));
    WireSnoc(p, events, MarkText(name));
  }

  lemma {:induction false} StageRead(b: Bridge, c: T.Played, names: seq<string>, e: Event)
    requires Staged(b, c, names, [0]) && e == WriteCallback([0], true, false, 0)
    ensures Staged(Next(b, e), T.Run(c, Ops(b, e)), names, [])
  {
    var s := b.session;
    assert WriteActs(s, 1, 0) == [ReadPlayout(1)];
    WriteRun(s, 1, 0);
    PinsPlayed(names);
    OneOp(c, T.ReadOp(1));
    assert Ops(b, e) == [T.ReadOp(1)];
    assert c.marked + [] == c.marked;
  }

  lemma {:induction false} StagePlaying(p: Setup, names: seq<string>)
    requires p.budget >= 2 && |names| <= 64
    requires forall i :: 0 <= i < |names| ==> |names[i]| < 128
    ensures Staged(After(p, Playing(names)), Trace(p, Playing(names)).p, names, [])
  {
    var e := WriteCallback([0], true, false, 0);
    StageScript(p, names);
    StageRead(After(p, Script(names)), Trace(p, Script(names)).p, names, e);
    HistorySnoc(p, Script(names), e);
    WireSnoc(p, Script(names), e);
  }

  /** Runs of the bridge in which marks are not echoed. Up to 64 marks are queued behind one byte of audio, the call
      plays it, the worker flushes: the first eight names are acknowledged, and of the others no trace is left. */
  lemma {:induction false} OnlyEightAreEchoed(p: Setup, names: seq<string>, budget: nat)
    requires p.budget >= 2 && |names| <= 64
    requires forall i :: 0 <= i < |names| ==> |names[i]| < 128
    ensures var events := Playing(names) + [WorkerFlush(budget)]; var w := Trace(p, events);
            && w.p.marked == names && AckNames(w.q.pushed) == P.First(names, 8)
            && After(p, events).session.playout.marks == []
  {
    StagePlaying(p, names);
    FlushOnStage(p, Playing(names), names, budget);
  }

  lemma {:induction false} FlushOnStage(p: Setup, events: seq<Event>, names: seq<string>, budget: nat)
    requires Staged(After(p, events), Trace(p, events).p, names, [])
    ensures var w := Trace(p, events + [WorkerFlush(budget)]);
            && w.p.marked == names && AckNames(w.q.pushed) == P.First(names, 8)
            && After(p, events + [WorkerFlush(budget)]).session.playout.marks == []
  {
    var e := WorkerFlush(budget);
    HistorySnoc(p, events, e);
    HarvestOnStage(After(p, events), Trace(p, events).p, names, e);
    BridgeRunIsSessionRun(p, events + [e]);
    AcksFollowReports(p.c, AllActs(p, events + [e]));
  }

  lemma {:induction false} HarvestOnStage(b: Bridge, c: T.Played, names: seq<string>, e: Event)
    requires Staged(b, c, names, []) && e.WorkerFlush?
    ensures var r := T.Run(c, Ops(b, e));
            r.marked == names && r.reported == P.First(names, 8) && r.p.marks == []
  {
    assert Ops(b, e) == [T.HarvestOp(8)];
    OneOp(c, T.HarvestOp(8));
    HarvestAll(c, names);
  }

  lemma {:induction false} HarvestAll(c: T.Played, names: seq<string>)
    requires P.Fits(c.p) && c.p.marks == Pins(names, 0) && c.marked == names && c.reported == []
    ensures var r := T.Step(c, T.HarvestOp(8));
            r.marked == names && r.reported == P.First(names, 8) && r.p.marks == []
  {
    PinsDone(names, 0);
    assert names + [] == names;
  }
}
